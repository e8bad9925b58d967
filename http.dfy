/**
  The parts of Go's net/http and net/url that the Hydra client touches:
  byte bodies, error values, url.Values, parsed URLs, requests, responses,
  and an HTTP client whose network exchange is an abstract oracle.
 */
module Http {
  import opened Wrappers

  newtype byte = x: int | 0 <= x < 256

  /** A Go []byte: response bodies and JSON-encoded request bodies. */
  type Bytes = seq<byte>

  /** A Go error value; only its message is observable. */
  datatype Error = Error(message: string)

  /** Go's string(b) conversion: one character per byte, with that byte's code. */
  function AsString(b: Bytes): (s: string)
    ensures |s| == |b|
    ensures forall i :: 0 <= i < |b| ==> s[i] as int == b[i] as int
  {
    seq(|b|, i requires 0 <= i < |b| => b[i] as int as char)
  }

  /** The inverse of AsString on strings of byte-sized characters. */
  function FromString(s: string): (b: Bytes)
    requires forall i :: 0 <= i < |s| ==> s[i] as int < 256
    ensures |b| == |s|
  {
    seq(|s|, i requires 0 <= i < |s| => s[i] as int as byte)
  }

  /** Converting a body to a string loses nothing: the bytes can be read back. */
  lemma AsStringRoundTrip(b: Bytes)
    ensures forall i :: 0 <= i < |AsString(b)| ==> AsString(b)[i] as int < 256
    ensures FromString(AsString(b)) == b
  {
  }

  /** url.Values: each key maps to the values added for it, in order. */
  type Values = map<string, seq<string>>

  /** The values of key k (url.Values is a map of slices: a missing key has none). */
  function ValuesOf(v: Values, k: string): seq<string>
  {
    if k in v then v[k] else []
  }

  /** url.Values.Add: appends one value to the key and leaves every other key alone. */
  function Add(v: Values, k: string, x: string): (r: Values)
    ensures forall key :: ValuesOf(r, key) == ValuesOf(v, key) + (if key == k then [x] else [])
    ensures r.Keys == v.Keys + {k}
  {
    v[k := ValuesOf(v, k) + [x]]
  }

  /** A parsed URL: everything but its query, and its query as url.Values. */
  datatype Url = Url(location: string, query: Values)

  datatype Method = Get | Put | Post

  /** A request body: the JSON bytes of a struct, or a form (sent url-encoded). */
  datatype Body = JsonBody(bytes: Bytes) | FormBody(form: Values)

  /** An *http.Request as the client builds it. */
  datatype Request = Request(verb: Method, url: Url, contentType: Option<string>, body: Option<Body>)

  /** An *http.Response: the status code and what ioutil.ReadAll gives for its body. */
  datatype HttpResponse = HttpResponse(status: int, body: Result<Bytes, Error>)

  /**
    An *http.Client. The network is the oracle `respond`: the answer to the n-th
    request this client sends (a failed exchange is an Error). `sent` records every
    request handed to Do, so that a caller's contract can say which requests went out.
   */
  class HttpClient {
    const respond: (nat, Request) -> Result<HttpResponse, Error>
    var sent: seq<Request>

    constructor (respond: (nat, Request) -> Result<HttpResponse, Error>)
      ensures this.respond == respond && sent == []
    {
      this.respond := respond;
      sent := [];
    }

    /** The exchange the n-th request sent by this client goes through. */
    function Answer(n: nat): (send: Request -> Result<HttpResponse, Error>)
      ensures forall req :: send(req) == respond(n, req)
    {
      req => respond(n, req)
    }

    /** client.Do: sends one request and returns the server's response or the transport error. */
    method Do(req: Request) returns (r: Result<HttpResponse, Error>)
      modifies this
      ensures sent == old(sent) + [req]
      ensures r == Answer(|old(sent)|)(req)
    {
      r := respond(|sent|, req);
      sent := sent + [req];
    }
  }
}
