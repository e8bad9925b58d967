/**
  The request and response structs of the Hydra client, their Go zero values,
  and the JSON objects encoding/json writes for the request structs, following
  their `json:"..."` tags: a field tagged `omitempty` is left out when it holds
  its zero value (false, 0, "" or an empty slice), every other field is written.
 */
module Schema {
  import opened Wrappers
  import opened Json

  // ---- Login ----

  datatype LoginResponse = LoginResponse(skip: bool, redirectTo: string, subject: string)

  datatype LoginAcceptRequest = LoginAcceptRequest(subject: string, remember: bool, rememberFor: int, acr: string)

  // ---- Consent ----

  datatype Oauth2Client = Oauth2Client(clientId: string)

  datatype ConsentResponse = ConsentResponse(
    subject: string,
    skip: bool,
    redirectTo: string,
    grantAccessTokenAudience: string,
    requestUrl: string,
    requestedAccessTokenAudience: seq<string>,
    requestedScopes: seq<string>,
    client: Oauth2Client)

  datatype ConsentAcceptSession = ConsentAcceptSession(accessToken: string, idToken: string)

  datatype ConsentAcceptRequest = ConsentAcceptRequest(
    subject: string,
    grantScope: seq<string>,
    grantAccessTokenAudience: seq<string>,
    session: ConsentAcceptSession,
    remember: bool,
    rememberFor: int)

  datatype ConsentRejectRequest = ConsentRejectRequest(
    error: string,
    errorDebug: string,
    errorDescription: string,
    errorHint: string,
    statusCode: int)

  // ---- Logout ----

  datatype LogoutResponse = LogoutResponse(requestUrl: string, rpInitiated: bool, sid: string, subject: string)

  datatype LogoutAcceptRequest = LogoutAcceptRequest

  /**
    The `{redirect_to}` answer to every accept or reject call; it stands for the
    four Go structs of that one shape (LoginAcceptResponse, ConsentAcceptResponse,
    ConsentRejectResponse, LogoutAcceptResponse).
   */
  datatype RedirectResponse = RedirectResponse(redirectTo: string)

  // ---- OAuth2 ----

  datatype UserInfoResponse = UserInfoResponse(sub: string)

  datatype IntrospectRequest = IntrospectRequest(token: string, scope: string)

  datatype IntrospectResponse = IntrospectResponse(
    active: bool,
    aud: seq<string>,
    clientId: string,
    exp: int,
    iat: int,
    iss: string,
    nbf: int,
    obfuscatedSubject: string,
    scope: string,
    sub: string,
    tokenType: string,
    username: string)

  // ---- Go zero values: what `var x T` holds before json.Unmarshal fills it ----

  const ZeroLoginResponse := LoginResponse(false, "", "")
  const ZeroConsentResponse := ConsentResponse("", false, "", "", "", [], [], Oauth2Client(""))
  const ZeroLogoutResponse := LogoutResponse("", false, "", "")
  const ZeroRedirectResponse := RedirectResponse("")
  const ZeroUserInfoResponse := UserInfoResponse("")
  const ZeroIntrospectResponse := IntrospectResponse(false, [], "", 0, 0, "", 0, "", "", "", "", "")

  // ---- Encoding ----

  /** A field without `omitempty`: always written. */
  function Field(k: string, v: Value): seq<(string, Value)>
  {
    [(k, v)]
  }

  /** A field tagged `omitempty`: written only when it does not hold its zero value. */
  function OmitEmpty(isZero: bool, k: string, v: Value): seq<(string, Value)>
  {
    if isZero then [] else [(k, v)]
  }

  /** subject always, then one member for each of remember, remember_for and acr that is not zero. */
  function EncodeLoginAccept(r: LoginAcceptRequest): (v: Value)
    ensures v.Object?
    ensures |v.members| == 1 + (if r.remember then 1 else 0) + (if r.rememberFor != 0 then 1 else 0) + (if r.acr != "" then 1 else 0)
  {
    Object(
      Field("subject", String(r.subject))
      + OmitEmpty(!r.remember, "remember", Bool(r.remember))
      + OmitEmpty(r.rememberFor == 0, "remember_for", Number(r.rememberFor))
      + OmitEmpty(r.acr == "", "acr", String(r.acr)))
  }

  /** One member for each token that is not empty. */
  function EncodeSession(s: ConsentAcceptSession): (v: Value)
    ensures v.Object?
    ensures |v.members| == (if s.accessToken != "" then 1 else 0) + (if s.idToken != "" then 1 else 0)
  {
    Object(
      OmitEmpty(s.accessToken == "", "access_token", String(s.accessToken))
      + OmitEmpty(s.idToken == "", "id_token", String(s.idToken)))
  }

  /** Four members always, plus subject and the audience when they are not empty. */
  function EncodeConsentAccept(r: ConsentAcceptRequest): (v: Value)
    ensures v.Object?
    ensures |v.members| == 4 + (if r.subject != "" then 1 else 0) + (if |r.grantAccessTokenAudience| != 0 then 1 else 0)
  {
    Object(
      OmitEmpty(r.subject == "", "subject", String(r.subject))
      + Field("grant_scope", Strings(r.grantScope))
      + OmitEmpty(|r.grantAccessTokenAudience| == 0, "grant_access_token_audience", Strings(r.grantAccessTokenAudience))
      + Field("session", EncodeSession(r.session))
      + Field("remember", Bool(r.remember))
      + Field("remember_for", Number(r.rememberFor)))
  }

  /** No omitempty tags: all five members are always written. */
  function EncodeConsentReject(r: ConsentRejectRequest): (v: Value)
    ensures v.Object? && |v.members| == 5
  {
    Object(
      Field("error", String(r.error))
      + Field("error_debug", String(r.errorDebug))
      + Field("error_description", String(r.errorDescription))
      + Field("error_hint", String(r.errorHint))
      + Field("status_code", Number(r.statusCode)))
  }

  /** A struct with no fields is written as the empty object {}. */
  function EncodeLogoutAccept(r: LogoutAcceptRequest): (v: Value)
    ensures v.Object? && Keys(v.members) == []
  {
    Object([])
  }

  // ---- Reading back, as json.Unmarshal does into a zero value: an absent key leaves the zero ----

  function StringField(ms: seq<(string, Value)>, k: string): string
  {
    match Lookup(ms, k)
    case Some(String(s)) => s
    case _ => ""
  }

  function BoolField(ms: seq<(string, Value)>, k: string): bool
  {
    match Lookup(ms, k)
    case Some(Bool(b)) => b
    case _ => false
  }

  function IntField(ms: seq<(string, Value)>, k: string): int
  {
    match Lookup(ms, k)
    case Some(Number(n)) => n
    case _ => 0
  }

  function StringsField(ms: seq<(string, Value)>, k: string): seq<string>
  {
    match Lookup(ms, k)
    case Some(Array(items)) => (match AsStrings(items) case Some(xs) => xs case None => [])
    case _ => []
  }

  function MembersOf(v: Value): seq<(string, Value)>
  {
    if v.Object? then v.members else []
  }

  function DecodeLoginAccept(v: Value): LoginAcceptRequest
  {
    var ms := MembersOf(v);
    LoginAcceptRequest(StringField(ms, "subject"), BoolField(ms, "remember"), IntField(ms, "remember_for"), StringField(ms, "acr"))
  }

  function DecodeSession(v: Value): ConsentAcceptSession
  {
    var ms := MembersOf(v);
    ConsentAcceptSession(StringField(ms, "access_token"), StringField(ms, "id_token"))
  }

  function DecodeConsentAccept(v: Value): ConsentAcceptRequest
  {
    var ms := MembersOf(v);
    var session := match Lookup(ms, "session") case Some(s) => DecodeSession(s) case None => ConsentAcceptSession("", "");
    ConsentAcceptRequest(
      StringField(ms, "subject"), StringsField(ms, "grant_scope"), StringsField(ms, "grant_access_token_audience"),
      session, BoolField(ms, "remember"), IntField(ms, "remember_for"))
  }

  function DecodeConsentReject(v: Value): ConsentRejectRequest
  {
    var ms := MembersOf(v);
    ConsentRejectRequest(
      StringField(ms, "error"), StringField(ms, "error_debug"), StringField(ms, "error_description"),
      StringField(ms, "error_hint"), IntField(ms, "status_code"))
  }

  // ---- Which keys are written, and what they hold ----

  /** subject is always written; remember, remember_for and acr only when they are not zero. */
  lemma LoginAcceptKeys(r: LoginAcceptRequest)
    ensures Keys(EncodeLoginAccept(r).members)
         == ["subject"]
          + (if r.remember then ["remember"] else [])
          + (if r.rememberFor != 0 then ["remember_for"] else [])
          + (if r.acr != "" then ["acr"] else [])
  {
    var a := Field("subject", String(r.subject));
    var b := OmitEmpty(!r.remember, "remember", Bool(r.remember));
    var c := OmitEmpty(r.rememberFor == 0, "remember_for", Number(r.rememberFor));
    var d := OmitEmpty(r.acr == "", "acr", String(r.acr));
    KeysAppend(a, b);
    KeysAppend(a + b, c);
    KeysAppend(a + b + c, d);
  }

  /** Leaving out the zero-valued fields loses nothing: the decision reads back whole. */
  lemma LoginAcceptRoundTrip(r: LoginAcceptRequest)
    ensures DecodeLoginAccept(EncodeLoginAccept(r)) == r
  {
    var a := Field("subject", String(r.subject));
    var b := OmitEmpty(!r.remember, "remember", Bool(r.remember));
    var c := OmitEmpty(r.rememberFor == 0, "remember_for", Number(r.rememberFor));
    var d := OmitEmpty(r.acr == "", "acr", String(r.acr));
    LookupAppend3(a, b, c, "subject");
    LookupAppend(a + b + c, d, "subject");
    LookupAppend3(a, b, c, "remember");
    LookupAppend(a + b + c, d, "remember");
    LookupAppend3(a, b, c, "remember_for");
    LookupAppend(a + b + c, d, "remember_for");
    LookupAppend3(a, b, c, "acr");
    LookupAppend(a + b + c, d, "acr");
  }

  /**
    grant_scope, session, remember and remember_for are always written; subject and
    grant_access_token_audience only when they are not empty.
   */
  lemma ConsentAcceptKeys(r: ConsentAcceptRequest)
    ensures Keys(EncodeConsentAccept(r).members)
         == (if r.subject != "" then ["subject"] else [])
          + ["grant_scope"]
          + (if |r.grantAccessTokenAudience| != 0 then ["grant_access_token_audience"] else [])
          + ["session", "remember", "remember_for"]
  {
    var a := OmitEmpty(r.subject == "", "subject", String(r.subject));
    var b := Field("grant_scope", Strings(r.grantScope));
    var c := OmitEmpty(|r.grantAccessTokenAudience| == 0, "grant_access_token_audience", Strings(r.grantAccessTokenAudience));
    var d := Field("session", EncodeSession(r.session));
    var e := Field("remember", Bool(r.remember));
    var f := Field("remember_for", Number(r.rememberFor));
    KeysAppend(a, b);
    KeysAppend(a + b, c);
    KeysAppend(a + b + c, d);
    KeysAppend(a + b + c + d, e);
    KeysAppend(a + b + c + d + e, f);
  }

  /** Inside session, access_token and id_token are written only when they are not empty. */
  lemma SessionKeys(s: ConsentAcceptSession)
    ensures Keys(EncodeSession(s).members)
         == (if s.accessToken != "" then ["access_token"] else [])
          + (if s.idToken != "" then ["id_token"] else [])
  {
    KeysAppend(OmitEmpty(s.accessToken == "", "access_token", String(s.accessToken)),
               OmitEmpty(s.idToken == "", "id_token", String(s.idToken)));
  }

  lemma SessionRoundTrip(s: ConsentAcceptSession)
    ensures DecodeSession(EncodeSession(s)) == s
  {
    var g := OmitEmpty(s.accessToken == "", "access_token", String(s.accessToken));
    var h := OmitEmpty(s.idToken == "", "id_token", String(s.idToken));
    LookupAppend(g, h, "access_token");
    LookupAppend(g, h, "id_token");
  }

  /** What the first three keys of an encoded ConsentAcceptRequest hold. */
  lemma ConsentAcceptLookupsHead(r: ConsentAcceptRequest)
    ensures var ms := EncodeConsentAccept(r).members;
      && Lookup(ms, "subject") == (if r.subject == "" then None else Some(String(r.subject)))
      && Lookup(ms, "grant_scope") == Some(Strings(r.grantScope))
      && Lookup(ms, "grant_access_token_audience")
         == (if |r.grantAccessTokenAudience| == 0 then None else Some(Strings(r.grantAccessTokenAudience)))
  {
    var a := OmitEmpty(r.subject == "", "subject", String(r.subject));
    var b := Field("grant_scope", Strings(r.grantScope));
    var c := OmitEmpty(|r.grantAccessTokenAudience| == 0, "grant_access_token_audience", Strings(r.grantAccessTokenAudience));
    var d := Field("session", EncodeSession(r.session));
    var e := Field("remember", Bool(r.remember));
    var f := Field("remember_for", Number(r.rememberFor));
    assert EncodeConsentAccept(r).members == (a + b + c) + (d + e + f);
    LookupAppend(a + b + c, d + e + f, "subject");
    LookupAppend3(a, b, c, "subject");
    LookupAppend3(d, e, f, "subject");
    LookupAppend(a + b + c, d + e + f, "grant_scope");
    LookupAppend3(a, b, c, "grant_scope");
    LookupAppend3(d, e, f, "grant_scope");
    LookupAppend(a + b + c, d + e + f, "grant_access_token_audience");
    LookupAppend3(a, b, c, "grant_access_token_audience");
    LookupAppend3(d, e, f, "grant_access_token_audience");
  }

  /** What the last three keys of an encoded ConsentAcceptRequest hold. */
  lemma ConsentAcceptLookupsTail(r: ConsentAcceptRequest)
    ensures var ms := EncodeConsentAccept(r).members;
      && Lookup(ms, "session") == Some(EncodeSession(r.session))
      && Lookup(ms, "remember") == Some(Bool(r.remember))
      && Lookup(ms, "remember_for") == Some(Number(r.rememberFor))
  {
    var a := OmitEmpty(r.subject == "", "subject", String(r.subject));
    var b := Field("grant_scope", Strings(r.grantScope));
    var c := OmitEmpty(|r.grantAccessTokenAudience| == 0, "grant_access_token_audience", Strings(r.grantAccessTokenAudience));
    var d := Field("session", EncodeSession(r.session));
    var e := Field("remember", Bool(r.remember));
    var f := Field("remember_for", Number(r.rememberFor));
    assert EncodeConsentAccept(r).members == (a + b + c) + (d + e + f);
    LookupAppend(a + b + c, d + e + f, "session");
    LookupAppend3(a, b, c, "session");
    LookupAppend3(d, e, f, "session");
    LookupAppend(a + b + c, d + e + f, "remember");
    LookupAppend3(a, b, c, "remember");
    LookupAppend3(d, e, f, "remember");
    LookupAppend(a + b + c, d + e + f, "remember_for");
    LookupAppend3(a, b, c, "remember_for");
    LookupAppend3(d, e, f, "remember_for");
  }

  lemma ConsentAcceptRoundTrip(r: ConsentAcceptRequest)
    ensures DecodeConsentAccept(EncodeConsentAccept(r)) == r
  {
    ConsentAcceptLookupsHead(r);
    ConsentAcceptLookupsTail(r);
    StringsRoundTrip(r.grantScope);
    StringsRoundTrip(r.grantAccessTokenAudience);
    SessionRoundTrip(r.session);
  }

  /** Every field of a ConsentRejectRequest is written, zero or not. */
  lemma ConsentRejectKeys(r: ConsentRejectRequest)
    ensures Keys(EncodeConsentReject(r).members)
         == ["error", "error_debug", "error_description", "error_hint", "status_code"]
  {
    var a := Field("error", String(r.error));
    var b := Field("error_debug", String(r.errorDebug));
    var c := Field("error_description", String(r.errorDescription));
    var d := Field("error_hint", String(r.errorHint));
    var e := Field("status_code", Number(r.statusCode));
    KeysAppend(a, b);
    KeysAppend(a + b, c);
    KeysAppend(a + b + c, d);
    KeysAppend(a + b + c + d, e);
  }

  lemma ConsentRejectRoundTrip(r: ConsentRejectRequest)
    ensures DecodeConsentReject(EncodeConsentReject(r)) == r
  {
    var a := Field("error", String(r.error));
    var b := Field("error_debug", String(r.errorDebug));
    var c := Field("error_description", String(r.errorDescription));
    var d := Field("error_hint", String(r.errorHint));
    var e := Field("status_code", Number(r.statusCode));
    LookupAppend3(a, b, c, "error");
    LookupAppend(a + b + c, d, "error");
    LookupAppend(a + b + c + d, e, "error");
    LookupAppend3(a, b, c, "error_debug");
    LookupAppend(a + b + c, d, "error_debug");
    LookupAppend(a + b + c + d, e, "error_debug");
    LookupAppend3(a, b, c, "error_description");
    LookupAppend(a + b + c, d, "error_description");
    LookupAppend(a + b + c + d, e, "error_description");
    LookupAppend3(a, b, c, "error_hint");
    LookupAppend(a + b + c, d, "error_hint");
    LookupAppend(a + b + c + d, e, "error_hint");
    LookupAppend3(a, b, c, "status_code");
    LookupAppend(a + b + c, d, "status_code");
    LookupAppend(a + b + c + d, e, "status_code");
  }
}
