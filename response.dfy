/**
  parseResponse: the one place where an HTTP response becomes either the body
  to decode or an error. Only status 200 passes the body on; 400, 401, 403 and
  404 give an error whose message is a fixed prefix followed by the raw body;
  500 gives a fixed message that never shows the body; any other status gives
  "Unhandled error". A failed body read is passed on as it is.
 */
module Response {
  import opened Wrappers
  import opened Http

  function ParseResponse(res: HttpResponse): (r: Result<Bytes, Error>)
    ensures r.Success? <==> res.body.Success? && res.status == 200
    ensures r.Success? ==> r.value == res.body.value
    ensures res.body.Failure? ==> r == Failure(res.body.error)
  {
    match res.body
    case Failure(e) => Failure(e)
    case Success(data) =>
      if res.status == 200 then Success(data)
      else if res.status == 400 then Failure(Error("Bad Request: " + AsString(data)))
      else if res.status == 401 then Failure(Error("Unauthorized: " + AsString(data)))
      else if res.status == 403 then Failure(Error("Forbidden: " + AsString(data)))
      else if res.status == 404 then Failure(Error("Not Found: " + AsString(data)))
      else if res.status == 500 then Failure(Error("Internal Server Error"))
      else Failure(Error("Unhandled error"))
  }

  /** The classes of failure a status code falls into. */
  datatype Kind = BadRequest | Unauthorized | Forbidden | NotFound | ServerError | Unhandled

  /** The class of a status code other than 200. */
  function StatusKind(status: int): Kind
  {
    match status
    case 400 => BadRequest
    case 401 => Unauthorized
    case 403 => Forbidden
    case 404 => NotFound
    case 500 => ServerError
    case _ => Unhandled
  }

  /** The message prefix of the classes whose message goes on with the raw body. */
  function EchoPrefix(k: Kind): Option<string>
  {
    match k
    case BadRequest => Some("Bad Request: ")
    case Unauthorized => Some("Unauthorized: ")
    case Forbidden => Some("Forbidden: ")
    case NotFound => Some("Not Found: ")
    case _ => None
  }

  predicate HasPrefix(s: string, p: string)
  {
    |p| <= |s| && s[..|p|] == p
  }

  /** Reads the class back from an error message; None for messages parseResponse does not write. */
  function KindOfMessage(m: string): Option<Kind>
  {
    if HasPrefix(m, "Bad Request: ") then Some(BadRequest)
    else if HasPrefix(m, "Unauthorized: ") then Some(Unauthorized)
    else if HasPrefix(m, "Forbidden: ") then Some(Forbidden)
    else if HasPrefix(m, "Not Found: ") then Some(NotFound)
    else if m == "Internal Server Error" then Some(ServerError)
    else if m == "Unhandled error" then Some(Unhandled)
    else None
  }

  /** Reads the echoed body back from an error message of a class that echoes it. */
  function EchoedBody(m: string): Option<Bytes>
  {
    match KindOfMessage(m)
    case None => None
    case Some(k) =>
      match EchoPrefix(k)
      case None => None
      case Some(p) =>
        var rest := m[|p|..];
        if forall i :: 0 <= i < |rest| ==> rest[i] as int < 256 then Some(FromString(rest)) else None
  }

  /** Every error parseResponse makes from a status names that status's class. */
  lemma {:induction false} ErrorNamesStatusClass(res: HttpResponse)
    requires res.body.Success? && res.status != 200
    ensures KindOfMessage(ParseResponse(res).error.message) == Some(StatusKind(res.status))
  {
    var m := ParseResponse(res).error.message;
    var s := AsString(res.body.value);
    match res.status
    case 400 =>
      assert m[..13] == "Bad Request: ";
    case 401 =>
      assert m[..14] == "Unauthorized: ";
      assert m[0] != "Bad Request: "[0];
    case 403 =>
      assert m[..11] == "Forbidden: ";
      assert m[0] != "Bad Request: "[0] && m[0] != "Unauthorized: "[0];
    case 404 =>
      assert m[..11] == "Not Found: ";
      assert m[0] != "Bad Request: "[0] && m[0] != "Unauthorized: "[0] && m[0] != "Forbidden: "[0];
    case 500 =>
      assert m[0] != "Bad Request: "[0] && m[0] != "Unauthorized: "[0] && m[0] != "Forbidden: "[0];
      assert m[0] != "Not Found: "[0];
    case _ =>
      assert m == "Unhandled error";
      assert m[0] != "Bad Request: "[0] && m[2] != "Unauthorized: "[2] && m[0] != "Forbidden: "[0];
      assert m[0] != "Not Found: "[0];
  }

  /**
    For 400, 401, 403 and 404 the message is the class's prefix followed by the
    raw body, and the body can be read back from it unchanged.
   */
  lemma {:induction false} ClientErrorsEchoBody(res: HttpResponse)
    requires res.body.Success? && res.status in {400, 401, 403, 404}
    ensures EchoPrefix(StatusKind(res.status)).Some?
    ensures ParseResponse(res).error.message == EchoPrefix(StatusKind(res.status)).value + AsString(res.body.value)
    ensures EchoedBody(ParseResponse(res).error.message) == Some(res.body.value)
  {
    var m := ParseResponse(res).error.message;
    var p := EchoPrefix(StatusKind(res.status)).value;
    ErrorNamesStatusClass(res);
    assert m[|p|..] == AsString(res.body.value);
    AsStringRoundTrip(res.body.value);
  }

  /** Status 500 gives the same error whatever the body: the body never reaches the message. */
  lemma ServerErrorHidesBody(b1: Bytes, b2: Bytes)
    ensures ParseResponse(HttpResponse(500, Success(b1))) == ParseResponse(HttpResponse(500, Success(b2)))
    ensures ParseResponse(HttpResponse(500, Success(b1))) == Failure(Error("Internal Server Error"))
  {
  }

  /** Any status outside 200, 400, 401, 403, 404 and 500 (201 and 204 included) is "Unhandled error". */
  lemma OtherStatusesUnhandled(res: HttpResponse)
    requires res.body.Success? && res.status !in {200, 400, 401, 403, 404, 500}
    ensures ParseResponse(res) == Failure(Error("Unhandled error"))
  {
  }
}
