# Hydra admin client: a verified model

This project models the client side of the Ory Hydra admin API as implemented in
`client/client.go`. A relying application uses this client to resolve the login,
consent and logout challenges that Hydra hands it, to introspect tokens and to
read user info. Every operation runs the same sequence:

1. build one HTTP request, JSON-encoding the decision first when there is one;
2. send it;
3. classify the response by its status code (`parseResponse`);
4. decode the body.

The first step that fails ends the operation. When building, sending or
classifying fails, that step's error is returned with the result type's zero
value. When decoding fails, what `json.Unmarshal` gives back is returned as it
is: its error and the value it filled in so far. GetUserInfo is the exception
at the first step: it throws away the error of building its request (see
"## Findings").

Modules, one per component:

- `Wrappers` (`wrappers.dfy`): `Option` and `Result`.
- `Http` (`http.dfy`): the parts of `net/http` and `net/url` that the client
  touches. These are byte bodies, error values, `url.Values`, parsed URLs,
  requests and responses. It also holds the class `HttpClient`. Its network is
  an oracle `respond(n, request)`, the answer to the n-th request the client
  sends. Its field `sent` records every request handed to `Do`.
- `Json` (`json.dfy`): JSON values. An object is its members in field order.
- `Schema` (`schema.dfy`): the request and response structs and their Go zero
  values. It also holds the objects `encoding/json` writes for the request
  structs under their `json` tags and `omitempty` rules. Readers take those
  objects back into a zero value, as `json.Unmarshal` does for the objects the
  encoders write.
- `Response` (`response.dfy`): `parseResponse`. It also defines the classes of
  failure a status falls into, and reads the class and the echoed body back
  from an error message.
- `Client` (`client.dfy`): the request builder of each operation and the step
  sequence `Exchange`, stated as a function. `Call` runs that sequence over an
  `HttpClient`. There is one method per operation in the source.

The library code the client calls stays abstract: `url.Parse`, `json.Marshal`'s
rendering to bytes and `json.Unmarshal`. These are parameters of type `Library`
and `decode`. The network is the `HttpClient` oracle.

Some behaviour of the code that a caller might not expect, and that the model
keeps:

- 401 and 403 errors carry the raw body in their message, as 400 and 404 do
  (client/client.go:163-170).
- Errors are plain message strings, not a typed taxonomy. `KindOfMessage` shows
  that the status class can still be read back from a `parseResponse` message.
- A malformed 200 body gives whatever `json.Unmarshal` returns. That is its
  error and the partly filled value, not an error carrying the raw body.
- The context passed to the transport is `context.Background()`. No deadline or
  cancellation is threaded through the operations.

## Model

| member | source | states |
|---|---|---|
| `Response.ParseResponse` | client/client.go:153-176 | Succeeds exactly when the body was read and the status is 200, and then returns the body unchanged. A failed body read is returned as that same error. |
| `Response.ErrorNamesStatusClass` | client/client.go:160-175 | Every error made from a non-200 status names that status's class: Bad Request, Unauthorized, Forbidden, Not Found, Internal Server Error or Unhandled. The class can be read back from the message. |
| `Response.ClientErrorsEchoBody` | client/client.go:163-170 | For 400, 401, 403 and 404 the message is the class's prefix followed by the raw body. The body can be read back from it byte for byte. |
| `Response.ServerErrorHidesBody` | client/client.go:171-172 | Status 500 gives exactly "Internal Server Error", and the same error for any two bodies. The body never reaches the message. |
| `Response.OtherStatusesUnhandled` | client/client.go:173-174 | Every status other than 200, 400, 401, 403, 404 and 500 gives "Unhandled error". This includes 201 and 204. |
| `Http.AsStringRoundTrip` | client/client.go:164 | Go's `string(resData)` loses nothing: the bytes can be recovered from the string. |
| `Http.Add` | client/client.go:264-265 | `query.Add` appends one value under its key and leaves every other key's values unchanged. |
| `Http.HttpClient.constructor` | client/client.go:147-151 | A new client starts with nothing sent, over the given network. |
| `Http.HttpClient.Do` | client/client.go:268-271 | Sending records exactly that request and returns the network's answer for it. |
| `Schema.EncodeLoginAccept` | client/client.go:24-29 | A login decision is written as one object: `subject` always, plus one member for each of `remember`, `remember_for` and `acr` that is not zero. |
| `Schema.EncodeSession` | client/client.go:56-59 | The session is an object with one member for each token that is not empty. |
| `Schema.EncodeConsentAccept` | client/client.go:65-72 | A consent decision is an object of four members, plus `subject` and `grant_access_token_audience` when they are not empty. |
| `Schema.EncodeConsentReject` | client/client.go:78-84 | No field of the rejection is tagged `omitempty`, so all five members are always written. |
| `Schema.EncodeLogoutAccept` | client/client.go:97-99 | The logout decision has no fields, so it is written as the empty object `{}`. |
| `Schema.LoginAcceptKeys` | client/client.go:24-29 | `subject` is always written. `remember`, `remember_for` and `acr` are written, in that order, exactly when they are true, non-zero or non-empty. |
| `Schema.LoginAcceptRoundTrip` | client/client.go:24-29 | Omitting zero-valued fields loses nothing: reading the object back into a zero value gives the decision. |
| `Schema.ConsentAcceptKeys` | client/client.go:65-72 | `grant_scope`, `session`, `remember` and `remember_for` are always written. `subject` and `grant_access_token_audience` are written exactly when they are not empty. |
| `Schema.SessionKeys` | client/client.go:56-59 | Inside `session`, `access_token` and `id_token` are written exactly when they are not empty. |
| `Schema.SessionRoundTrip` | client/client.go:56-59 | The session reads back whole from its object. |
| `Schema.ConsentAcceptLookupsHead` | client/client.go:65-68 | The values written under `subject`, `grant_scope` and `grant_access_token_audience`. An empty `subject` or audience list is absent. |
| `Schema.ConsentAcceptLookupsTail` | client/client.go:69-71 | The values written under `session`, `remember` and `remember_for`. Each is present whatever its value. |
| `Schema.ConsentAcceptRoundTrip` | client/client.go:65-72 | The consent decision reads back whole from its object. |
| `Schema.ConsentRejectKeys` | client/client.go:78-84 | All five keys of the rejection are always written, in field order. |
| `Schema.ConsentRejectRoundTrip` | client/client.go:78-84 | The rejection reads back whole from its object. |
| `Client.ChallengeKey` | client/client.go:265 | Every flow's challenge key ends in `_challenge`, as `login_challenge`, `consent_challenge` and `logout_challenge` do. |
| `Client.ChallengeKeysDistinct` | client/client.go:265 | The login, consent and logout keys are pairwise different. |
| `Client.WithChallenge` | client/client.go:264-266 | Adding the challenge changes only the URL's query. It adds the one pair key=challenge and keeps every value of the parsed query. Method, Content-Type and body are unchanged. |
| `Client.FetchRequest` | client/client.go:259-266 | The GET requests build when the URL parses and otherwise return the parse error. The request is a GET with no body. It adds exactly one query pair, the flow's challenge key with the challenge as value, to the configured URL's parsed query. |
| `Client.ChallengeIsWholeQuery` | client/client.go:264-266 | When the configured URL has no query, the query is exactly `{<flow>_challenge: [challenge]}`. |
| `Client.ResolveRequest` | client/client.go:292-304 | The PUT requests build exactly when encoding and URL parsing both succeed. An encoding error wins over a parse error. The request is a PUT whose body is the encoded decision. It adds exactly one challenge pair and sets no Content-Type. |
| `Client.IntrospectionRequest` | client/client.go:188-207 | The request is a POST to the URL as given, with no query added and the form Content-Type. Its form body holds exactly `token` and `scope`, one value each. |
| `Client.UserInfoRequestAsWritten` | client/client.go:230 | The request handed to `client.Do` is nil exactly when the URL does not parse, because the error of `http.NewRequest` is thrown away. |
| `Client.UserInfoRequest` | client/client.go:230 | The corrected user-info request: a GET with no body or query. It returns the parse error when the URL does not parse. |
| `Client.UserInfoDropsParseError` | client/client.go:230-232 | Where the URL does not parse, the as-written request is nil and the corrected one returns the error. Everywhere else they agree. |
| `Client.UserInfoNilOnControlCharacter` | client/client.go:230-232 | An example: with a `parseUrl` that rejects a newline, as `url.Parse` does, the request as written is nil. |
| `Client.Exchange` | client/client.go:306-322 | Success holds exactly when every step succeeds: built, sent, status 200 with a readable body, decoded. The result is then the decoded value. A failure in building, sending or classifying returns that step's error with the zero value. Once `parseResponse` passes the body on, the result is exactly what the decoder returns: on a decode failure, its error and its partly filled value. |
| `Client.ExchangeReportsStatusClass` | client/client.go:312-315 | A non-200 answer ends the operation with the zero value and an error naming that status's class. |
| `Client.Call` | client/client.go:306-322 | Sends exactly one request when the request was built, and none otherwise. Its outcome is `Exchange` over the client's network. |
| `Client.IntrospectToken` | client/client.go:180-224 | Posts through the default client, so the Hydra client sends nothing. The outcome is `Exchange` of the introspection request. |
| `Client.GetUserInfo` | client/client.go:227-249 | The outcome is `Exchange` of the corrected user-info request over the Hydra client. |
| `Client.GetLogin` | client/client.go:256-285 | Sends at most the `login_challenge` GET. The outcome is its `Exchange`. |
| `Client.AcceptLogin` | client/client.go:289-323 | Sends at most the `login_challenge` PUT of the encoded login decision. The outcome is its `Exchange`. |
| `Client.GetConsent` | client/client.go:330-360 | Sends at most the `consent_challenge` GET. The outcome is its `Exchange`. |
| `Client.AcceptConsent` | client/client.go:363-397 | Sends at most the `consent_challenge` PUT of the encoded consent decision. The outcome is its `Exchange`. |
| `Client.RejectConsent` | client/client.go:400-434 | Sends at most a `consent_challenge` PUT of the encoded rejection. The key is the consent one. The outcome is its `Exchange`. |
| `Client.GetLogout` | client/client.go:441-470 | Sends at most the `logout_challenge` GET. The outcome is its `Exchange`. |
| `Client.AcceptLogout` | client/client.go:473-507 | Sends at most the `logout_challenge` PUT of the empty object `{}`. The outcome is its `Exchange`. |

## Left out

- hydra.go, the process bootstrap, is not part of this model. It reads environment variables, runs OIDC discovery and calls `log.Panic`.
- Bearer-token acquisition through `clientcredentials.Config.Client` is left out, because it is a foreign library with its own concurrency. The `HttpClient` constructor takes the network oracle instead.
- Network and body I/O (`client.Do`, `http.Post`, `ioutil.ReadAll`) are the client's `respond` oracle. A failed read is the response's body `Failure`. `defer Body.Close` is not modelled.
- `url.Parse`, `json.Marshal`'s rendering to bytes and `json.Unmarshal` stay abstract. They are library code. `url.Values.Encode` is not modelled either: a request keeps its query and its form as `url.Values`.
- Go's nil slice is written `null` while an empty slice is written `[]`. The model does not tell them apart and writes `[]`, for example for an unset `grant_scope`.
- Integer widths (`int`, `int64`) are unbounded here. The client does no arithmetic on them.
- Headers other than Content-Type are not modelled. This includes the Authorization header added by the credentialed transport.
- The JSON tags of the response structs are not modelled: decoding them is the abstract `decode`. The `validate` and `binding` tags are not modelled either; `encoding/json` ignores them.
- The readers in `Schema` take the first member under a key and match keys exactly. `json.Unmarshal` keeps the last duplicate and matches keys case-insensitively. The two agree on the objects the encoders write, which have distinct lower-case keys, and the round-trip lemmas claim nothing more.
- The query of a parsed URL stands for what `URL.Query()` returns, which silently drops malformed pairs (a bad %-escape, or a pair holding `;`). The pairs it drops are not modelled, so "keeps every value already there" speaks of the well-formed pairs. IntrospectToken and GetUserInfo send their URL's raw query as given, and the model does not tell the raw query apart from the parsed one.
- Error values are compared by message. Go compares `errors.New` values by identity.
- Not in this source, so not modelled: rejecting a login, client-registration CRUD, deleting login sessions, challenge single use and expiry (enforced by the server), and deadlines or cancellation.

## Findings

| source | as written | input that shows it | evidently intended | confidence | as-written member | corrected member |
|---|---|---|---|---|---|---|
| client/client.go:230 | `request, _ := http.NewRequest("GET", url, nil)` throws the error away. When the URL does not parse, `client.Do` gets a nil request and dereferences it, which panics. | A user-info URL that `url.Parse` rejects, e.g. `"http://hydra/userinfo\n"` (control character) | Return the parse error with the zero `UserInfoResponse`, as every other operation does | medium, not executed | `Client.UserInfoRequestAsWritten` | `Client.UserInfoRequest` |
