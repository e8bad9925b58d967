/**
  The operations of the Hydra client. Each builds one request, sends it, hands
  the response to ParseResponse and decodes the body it passes on; the first
  step that fails ends the operation with that step's error.
 */
module Client {
  import opened Wrappers
  import opened Http
  import opened Json
  import opened Schema
  import opened Response

  /** What a Go function returning (T, error) gives back; err == None is success. */
  datatype Returned<T> = Returned(value: T, err: Option<Error>)

  /**
    The library code the client calls, kept abstract: url.Parse (run by
    http.NewRequest and http.Post on the URL they are given) and the rendering of
    a struct's JSON object to bytes by json.Marshal. The query of the Url that
    parseUrl returns is the parsed url.Values, as URL.Query() gives it: pairs
    that parse drops (a bad %-escape, a pair holding ';') are already gone.
   */
  datatype Library = Library(
    parseUrl: string -> Result<Url, Error>,
    marshal: Value -> Result<Bytes, Error>)

  datatype Flow = Login | Consent | Logout

  /** The query key that carries a flow's challenge: the flow's name followed by "_challenge", one key per flow. */
  function ChallengeKey(flow: Flow): (k: string)
    ensures |k| > 10 && k[|k| - 10..] == "_challenge"
  {
    match flow
    case Login => "login_challenge"
    case Consent => "consent_challenge"
    case Logout => "logout_challenge"
  }

  /** No two flows share a challenge key, so a request names the flow it resolves. */
  lemma ChallengeKeysDistinct(f: Flow, g: Flow)
    ensures f != g ==> ChallengeKey(f) != ChallengeKey(g)
  {
  }

  // ---- Building requests ----

  /** http.NewRequest: fails exactly when the URL does not parse; sets no Content-Type. */
  function NewRequest(lib: Library, verb: Method, rawUrl: string, body: Option<Body>): Result<Request, Error>
  {
    match lib.parseUrl(rawUrl)
    case Failure(e) => Failure(e)
    case Success(u) => Success(Request(verb, u, None, body))
  }

  /** Adds the pair key=challenge to the request's query; the rest of the request is unchanged. */
  function WithChallenge(req: Request, key: string, challenge: string): (r: Request)
    ensures r.verb == req.verb && r.contentType == req.contentType && r.body == req.body
    ensures AddsOnlyChallenge(r, req.url, key, challenge)
  {
    req.(url := req.url.(query := Add(req.url.query, key, challenge)))
  }

  /** req targets the configured URL u with one pair key=challenge added to u's own query, and nothing else changed. */
  ghost predicate AddsOnlyChallenge(req: Request, u: Url, key: string, challenge: string)
  {
    && req.url.location == u.location
    && req.url.query.Keys == u.query.Keys + {key}
    && forall k :: ValuesOf(req.url.query, k) == ValuesOf(u.query, k) + (if k == key then [challenge] else [])
  }

  /** The request of GetLogin, GetConsent and GetLogout: a GET with no body and the flow's challenge in the query. */
  function FetchRequest(lib: Library, flow: Flow, rawUrl: string, challenge: string): (r: Result<Request, Error>)
    ensures r.Success? <==> lib.parseUrl(rawUrl).Success?
    ensures r.Failure? ==> r.error == lib.parseUrl(rawUrl).error
    ensures r.Success? ==>
      && r.value.verb == Get && r.value.body == None && r.value.contentType == None
      && AddsOnlyChallenge(r.value, lib.parseUrl(rawUrl).value, ChallengeKey(flow), challenge)
  {
    match NewRequest(lib, Get, rawUrl, None)
    case Failure(e) => Failure(e)
    case Success(req) => Success(WithChallenge(req, ChallengeKey(flow), challenge))
  }

  /**
    The request of AcceptLogin, AcceptConsent, RejectConsent and AcceptLogout: the
    decision is JSON-encoded first (its error, if any, wins), then a PUT carrying
    those bytes is made and the flow's challenge added to its query.
   */
  function ResolveRequest(lib: Library, flow: Flow, rawUrl: string, challenge: string, decision: Value): (r: Result<Request, Error>)
    ensures r.Success? <==> lib.marshal(decision).Success? && lib.parseUrl(rawUrl).Success?
    ensures lib.marshal(decision).Failure? ==> r == Failure(lib.marshal(decision).error)
    ensures lib.marshal(decision).Success? && lib.parseUrl(rawUrl).Failure? ==> r == Failure(lib.parseUrl(rawUrl).error)
    ensures r.Success? ==>
      && r.value.verb == Put && r.value.body == Some(JsonBody(lib.marshal(decision).value)) && r.value.contentType == None
      && AddsOnlyChallenge(r.value, lib.parseUrl(rawUrl).value, ChallengeKey(flow), challenge)
  {
    match lib.marshal(decision)
    case Failure(e) => Failure(e)
    case Success(body) =>
      match NewRequest(lib, Put, rawUrl, Some(JsonBody(body)))
      case Failure(e) => Failure(e)
      case Success(req) => Success(WithChallenge(req, ChallengeKey(flow), challenge))
  }

  /**
    The request of IntrospectToken: http.Post of the form token=..., scope=...
    to the URL as given, with the form Content-Type and no query added.
   */
  function IntrospectionRequest(lib: Library, rawUrl: string, request: IntrospectRequest): (r: Result<Request, Error>)
    ensures r.Success? <==> lib.parseUrl(rawUrl).Success?
    ensures r.Failure? ==> r.error == lib.parseUrl(rawUrl).error
    ensures r.Success? ==>
      && r.value.verb == Post && r.value.url == lib.parseUrl(rawUrl).value
      && r.value.contentType == Some("application/x-www-form-urlencoded")
      && r.value.body.Some? && r.value.body.value.FormBody?
      && r.value.body.value.form.Keys == {"token", "scope"}
      && ValuesOf(r.value.body.value.form, "token") == [request.token]
      && ValuesOf(r.value.body.value.form, "scope") == [request.scope]
  {
    var form := Add(Add(map[], "token", request.token), "scope", request.scope);
    match NewRequest(lib, Post, rawUrl, Some(FormBody(form)))
    case Failure(e) => Failure(e)
    case Success(req) => Success(req.(contentType := Some("application/x-www-form-urlencoded")))
  }

  /**
    The request of GetUserInfo as the source writes it: the error of
    http.NewRequest is thrown away, so a URL that does not parse yields a nil
    request (None), which client.Do then dereferences.
   */
  function UserInfoRequestAsWritten(lib: Library, rawUrl: string): (r: Option<Request>)
    ensures r.None? <==> lib.parseUrl(rawUrl).Failure?
  {
    match NewRequest(lib, Get, rawUrl, None)
    case Failure(_) => None
    case Success(req) => Some(req)
  }

  /** The request of GetUserInfo with the error of http.NewRequest returned, as every other operation does. */
  function UserInfoRequest(lib: Library, rawUrl: string): (r: Result<Request, Error>)
    ensures r.Success? <==> lib.parseUrl(rawUrl).Success?
    ensures r.Failure? ==> r.error == lib.parseUrl(rawUrl).error
    ensures r.Success? ==>
      && r.value.verb == Get && r.value.url == lib.parseUrl(rawUrl).value
      && r.value.body == None && r.value.contentType == None
  {
    NewRequest(lib, Get, rawUrl, None)
  }

  // ---- The step sequence ----

  /** Every step went through: the request was built and sent, the server answered 200 with a readable body, and it decoded. */
  predicate AllStepsSucceed<T>(built: Result<Request, Error>, send: Request -> Result<HttpResponse, Error>, decode: Bytes -> Returned<T>)
  {
    && built.Success?
    && send(built.value).Success?
    && send(built.value).value.status == 200
    && send(built.value).value.body.Success?
    && decode(send(built.value).value.body.value).err.None?
  }

  /**
    The shared step sequence: build, send, ParseResponse, decode. The first step
    that fails decides the outcome, with the zero value as result; past
    ParseResponse, what json.Unmarshal gives back is returned as it is.
   */
  function Exchange<T>(built: Result<Request, Error>, send: Request -> Result<HttpResponse, Error>, decode: Bytes -> Returned<T>, zero: T): (r: Returned<T>)
    ensures r.err.None? <==> AllStepsSucceed(built, send, decode)
    ensures r.err.None? ==> r.value == decode(send(built.value).value.body.value).value
    ensures built.Failure? ==> r == Returned(zero, Some(built.error))
    ensures built.Success? && send(built.value).Failure? ==> r == Returned(zero, Some(send(built.value).error))
    ensures built.Success? && send(built.value).Success? && ParseResponse(send(built.value).value).Failure? ==>
      r == Returned(zero, Some(ParseResponse(send(built.value).value).error))
    ensures built.Success? && send(built.value).Success? && ParseResponse(send(built.value).value).Success? ==>
      r == decode(ParseResponse(send(built.value).value).value)
  {
    match built
    case Failure(e) => Returned(zero, Some(e))
    case Success(req) =>
      match send(req)
      case Failure(e) => Returned(zero, Some(e))
      case Success(res) =>
        match ParseResponse(res)
        case Failure(e) => Returned(zero, Some(e))
        case Success(data) => decode(data)
  }

  /** When the server answers with a status other than 200, the error returned names that status's class. */
  lemma ExchangeReportsStatusClass<T>(built: Result<Request, Error>, send: Request -> Result<HttpResponse, Error>, decode: Bytes -> Returned<T>, zero: T)
    requires built.Success? && send(built.value).Success?
    requires send(built.value).value.body.Success? && send(built.value).value.status != 200
    ensures Exchange(built, send, decode, zero).value == zero
    ensures Exchange(built, send, decode, zero).err.Some?
    ensures KindOfMessage(Exchange(built, send, decode, zero).err.value.message) == Some(StatusKind(send(built.value).value.status))
  {
    ErrorNamesStatusClass(send(built.value).value);
  }

  /** The requests a client sends for a built request: that one request, or none when building failed. */
  function Sent(built: Result<Request, Error>): seq<Request>
  {
    if built.Success? then [built.value] else []
  }

  /** Runs the step sequence over a client: at most one request is sent, and none if it could not be built. */
  method Call<T>(client: HttpClient, built: Result<Request, Error>, decode: Bytes -> Returned<T>, zero: T)
    returns (result: T, err: Option<Error>)
    modifies client
    ensures client.sent == old(client.sent) + Sent(built)
    ensures Returned(result, err) == Exchange(built, client.Answer(|old(client.sent)|), decode, zero)
  {
    result := zero;
    if built.Failure? {
      return result, Some(built.error);
    }
    var response := client.Do(built.value);
    if response.Failure? {
      return result, Some(response.error);
    }
    var data := ParseResponse(response.value);
    if data.Failure? {
      return result, Some(data.error);
    }
    var decoded := decode(data.value);
    result, err := decoded.value, decoded.err;
  }

  // ---- The operations ----

  /** IntrospectToken posts through http.Post, that is through the default client: the Hydra client sends nothing. */
  method IntrospectToken(lib: Library, introspectUrl: string, client: HttpClient, defaultClient: HttpClient,
                         request: IntrospectRequest, decode: Bytes -> Returned<IntrospectResponse>)
    returns (result: IntrospectResponse, err: Option<Error>)
    requires client != defaultClient
    modifies defaultClient
    ensures client.sent == old(client.sent)
    ensures defaultClient.sent == old(defaultClient.sent) + Sent(IntrospectionRequest(lib, introspectUrl, request))
    ensures Returned(result, err)
         == Exchange(IntrospectionRequest(lib, introspectUrl, request), defaultClient.Answer(|old(defaultClient.sent)|),
                     decode, ZeroIntrospectResponse)
  {
    result, err := Call(defaultClient, IntrospectionRequest(lib, introspectUrl, request), decode, ZeroIntrospectResponse);
  }

  method GetUserInfo(lib: Library, url: string, client: HttpClient, decode: Bytes -> Returned<UserInfoResponse>)
    returns (result: UserInfoResponse, err: Option<Error>)
    modifies client
    ensures client.sent == old(client.sent) + Sent(UserInfoRequest(lib, url))
    ensures Returned(result, err)
         == Exchange(UserInfoRequest(lib, url), client.Answer(|old(client.sent)|), decode, ZeroUserInfoResponse)
  {
    result, err := Call(client, UserInfoRequest(lib, url), decode, ZeroUserInfoResponse);
  }

  method GetLogin(lib: Library, url: string, client: HttpClient, challenge: string, decode: Bytes -> Returned<LoginResponse>)
    returns (result: LoginResponse, err: Option<Error>)
    modifies client
    ensures client.sent == old(client.sent) + Sent(FetchRequest(lib, Login, url, challenge))
    ensures Returned(result, err)
         == Exchange(FetchRequest(lib, Login, url, challenge), client.Answer(|old(client.sent)|), decode, ZeroLoginResponse)
  {
    result, err := Call(client, FetchRequest(lib, Login, url, challenge), decode, ZeroLoginResponse);
  }

  method AcceptLogin(lib: Library, url: string, client: HttpClient, challenge: string, decision: LoginAcceptRequest,
                     decode: Bytes -> Returned<RedirectResponse>)
    returns (result: RedirectResponse, err: Option<Error>)
    modifies client
    ensures client.sent == old(client.sent) + Sent(ResolveRequest(lib, Login, url, challenge, EncodeLoginAccept(decision)))
    ensures Returned(result, err)
         == Exchange(ResolveRequest(lib, Login, url, challenge, EncodeLoginAccept(decision)),
                     client.Answer(|old(client.sent)|), decode, ZeroRedirectResponse)
  {
    result, err := Call(client, ResolveRequest(lib, Login, url, challenge, EncodeLoginAccept(decision)), decode, ZeroRedirectResponse);
  }

  method GetConsent(lib: Library, url: string, client: HttpClient, challenge: string, decode: Bytes -> Returned<ConsentResponse>)
    returns (result: ConsentResponse, err: Option<Error>)
    modifies client
    ensures client.sent == old(client.sent) + Sent(FetchRequest(lib, Consent, url, challenge))
    ensures Returned(result, err)
         == Exchange(FetchRequest(lib, Consent, url, challenge), client.Answer(|old(client.sent)|), decode, ZeroConsentResponse)
  {
    result, err := Call(client, FetchRequest(lib, Consent, url, challenge), decode, ZeroConsentResponse);
  }

  method AcceptConsent(lib: Library, url: string, client: HttpClient, challenge: string, decision: ConsentAcceptRequest,
                       decode: Bytes -> Returned<RedirectResponse>)
    returns (result: RedirectResponse, err: Option<Error>)
    modifies client
    ensures client.sent == old(client.sent) + Sent(ResolveRequest(lib, Consent, url, challenge, EncodeConsentAccept(decision)))
    ensures Returned(result, err)
         == Exchange(ResolveRequest(lib, Consent, url, challenge, EncodeConsentAccept(decision)),
                     client.Answer(|old(client.sent)|), decode, ZeroRedirectResponse)
  {
    result, err := Call(client, ResolveRequest(lib, Consent, url, challenge, EncodeConsentAccept(decision)), decode, ZeroRedirectResponse);
  }

  /** RejectConsent resolves the consent challenge: it uses the consent_challenge key, like AcceptConsent. */
  method RejectConsent(lib: Library, url: string, client: HttpClient, challenge: string, decision: ConsentRejectRequest,
                       decode: Bytes -> Returned<RedirectResponse>)
    returns (result: RedirectResponse, err: Option<Error>)
    modifies client
    ensures client.sent == old(client.sent) + Sent(ResolveRequest(lib, Consent, url, challenge, EncodeConsentReject(decision)))
    ensures Returned(result, err)
         == Exchange(ResolveRequest(lib, Consent, url, challenge, EncodeConsentReject(decision)),
                     client.Answer(|old(client.sent)|), decode, ZeroRedirectResponse)
  {
    result, err := Call(client, ResolveRequest(lib, Consent, url, challenge, EncodeConsentReject(decision)), decode, ZeroRedirectResponse);
  }

  method GetLogout(lib: Library, url: string, client: HttpClient, challenge: string, decode: Bytes -> Returned<LogoutResponse>)
    returns (result: LogoutResponse, err: Option<Error>)
    modifies client
    ensures client.sent == old(client.sent) + Sent(FetchRequest(lib, Logout, url, challenge))
    ensures Returned(result, err)
         == Exchange(FetchRequest(lib, Logout, url, challenge), client.Answer(|old(client.sent)|), decode, ZeroLogoutResponse)
  {
    result, err := Call(client, FetchRequest(lib, Logout, url, challenge), decode, ZeroLogoutResponse);
  }

  method AcceptLogout(lib: Library, url: string, client: HttpClient, challenge: string, decision: LogoutAcceptRequest,
                      decode: Bytes -> Returned<RedirectResponse>)
    returns (result: RedirectResponse, err: Option<Error>)
    modifies client
    ensures client.sent == old(client.sent) + Sent(ResolveRequest(lib, Logout, url, challenge, EncodeLogoutAccept(decision)))
    ensures Returned(result, err)
         == Exchange(ResolveRequest(lib, Logout, url, challenge, EncodeLogoutAccept(decision)),
                     client.Answer(|old(client.sent)|), decode, ZeroRedirectResponse)
  {
    result, err := Call(client, ResolveRequest(lib, Logout, url, challenge, EncodeLogoutAccept(decision)), decode, ZeroRedirectResponse);
  }

  // ---- Properties relating several members ----

  /** When the configured URL has no query of its own, the challenge pair is the whole query. */
  lemma ChallengeIsWholeQuery(lib: Library, flow: Flow, rawUrl: string, challenge: string)
    requires lib.parseUrl(rawUrl).Success? && lib.parseUrl(rawUrl).value.query == map[]
    ensures FetchRequest(lib, flow, rawUrl, challenge).value.url.query == map[ChallengeKey(flow) := [challenge]]
  {
    var q := FetchRequest(lib, flow, rawUrl, challenge).value.url.query;
    forall k | k in q ensures q[k] == map[ChallengeKey(flow) := [challenge]][k] {
      assert ValuesOf(q, k) == [] + (if k == ChallengeKey(flow) then [challenge] else []);
    }
  }

  /**
    The GetUserInfo discrepancy: where the URL does not parse, the source hands
    client.Do a nil request, while the corrected request returns the parse error.
    Everywhere else the two agree.
   */
  lemma UserInfoDropsParseError(lib: Library, rawUrl: string)
    ensures lib.parseUrl(rawUrl).Failure? ==>
      && UserInfoRequestAsWritten(lib, rawUrl) == None
      && UserInfoRequest(lib, rawUrl) == Failure(lib.parseUrl(rawUrl).error)
    ensures lib.parseUrl(rawUrl).Success? ==>
      UserInfoRequestAsWritten(lib, rawUrl) == Some(UserInfoRequest(lib, rawUrl).value)
  {
  }

  /** An example: with a parseUrl that, like url.Parse, rejects a control character, the source's request is nil. */
  lemma UserInfoNilOnControlCharacter()
    ensures var lib := Library(
              u => if '\n' in u then Failure(Error("net/url: invalid control character in URL")) else Success(Url(u, map[])),
              v => Success([]));
            && UserInfoRequestAsWritten(lib, "http://hydra/userinfo\n") == None
            && UserInfoRequest(lib, "http://hydra/userinfo\n").Failure?
  {
  }
}
