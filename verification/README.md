# oauth2c core: a Dafny model

This project models the request-shaping and decision logic of the `oauth2`
package of oauth2c, a command-line OAuth2 client for the authorization-code and
client-credentials grants of RFC 6749. It covers five parts:

- building the authorization request (section 4.1.1 of RFC 6749);
- classifying the redirect that reaches the local callback listener
  (sections 4.1.2 and 4.1.2.1 of RFC 6749);
- dispatching client authentication over the configured method
  (`client_secret_post`, `client_secret_basic`, `client_secret_jwt`,
  `private_key_jwt`, `tls_client_auth`, `self_signed_tls_client_auth`);
- building the token request: options, form, headers, and the status branch;
- the `Request.Get` lookup and the JARM (JWT Secured Authorization Response
  Mode) verification decision tree.

Everything is modelled as immutable datatypes and pure functions. The
collaborators of the source are parameters of the functions that use them.
These are `url.Parse`, the JSON Web Token library (`Jose`: parse nested,
parse signed, decrypt, verify-and-decode claims), `SignJWT`, the certificate
read from the HTTP transport, and the HTTP client with its error parser and
JSON decoder. Each one is an oracle that returns success or failure.

Files, one module each:

- `wrappers.dfy`: `Option` and `Result`.
- `url_values.dfy`: Go's `url.Values` / `http.Header`, as maps from a key to
  its list of values, with `Get`, `Set` and `Add`.
- `types.dfy`: `ClientConfig`, `ServerConfig`, `Url`, `Request`,
  `ProviderError`, `Failure`, `TokenResponse`, JSON claim values.
- `authorization.dfy`: `RequestAuthorization` and the callback handler.
- `client_auth.dfy`: `AuthenticateClient` and the method tag.
- `token_exchange.dfy`: `RequestToken` and its options.
- `jarm.dfy`: `Request.Get` and `ParseJARM`.

Three behaviours of the code shape the model:

- `RequestToken` does not call `AuthenticateClient`. It writes the
  `client_secret_post` fields itself and adds Basic credentials only for
  `client_secret_basic`. It always posts to the token endpoint, never the
  mutual-TLS one. So for the JWT and mutual-TLS methods the token form
  carries no client credential
  (`TokenExchange.OtherMethodsSendNoFormCredentials`).
- `ParseJARM` reads `response` with `Get` before it resets the claim map.
  A string `response` claim left by an earlier call therefore wins over the
  URL query (`Jarm.ParseJarmReadsPreviousClaims`). Verifying the same
  request twice gives the same result only when no string `response` claim
  is present before or after the call (`Jarm.ParseJarmIdempotent`).
- `AuthenticateClient` overwrites `Request.Key` with whatever `SignJWT`
  returns, even when signing fails. The form is left untouched on that path.

## Model

| member | source | states |
|---|---|---|
| Authorization.RequestAuthorization | internal/oauth2/oauth2.go:50-67 | It fails only when the authorization endpoint does not parse, and then returns the wrapped parse error and the zero request. Otherwise the result is a GET to the endpoint's location whose query has exactly the keys `client_id`, `response_type`=`code`, `redirect_uri`=`http://`+addr+`/callback`, `state` and `nonce`, with the given values. Any query already on the endpoint is replaced. No other request field is set. |
| Authorization.AuthorizationParamsReadBack | internal/oauth2/oauth2.go:55-64 | Each of the five parameters of a built authorization request reads back through `Request.Get` as the value it was built from. |
| Authorization.HandleCallback | internal/oauth2/oauth2.go:78-94 | The captured request is the incoming method and URL and nothing else. An error is reported if and only if the `error` query value is non-empty. That error is a provider error built from `error`, `error_description`, `error_hint` and `trace_id`, answered with 400 and the failure text. Otherwise there is no error and the answer is 200 with the success text. |
| Authorization.ErrorRedirectRoundTrip | internal/oauth2/oauth2.go:81-90 | A provider's error redirect with a non-empty error code is classified back into exactly the error that was sent, with status 400. |
| Authorization.SuccessRedirectKeepsCode | internal/oauth2/oauth2.go:78-79 | A success redirect with `code` and `state` gives no error and status 200, and its code and state read back from the captured request. |
| Authorization.CallbackLookupsReadQuery | internal/oauth2/oauth2.go:78-79 | The captured request has no claims and no form, so every `Get` on it, including the JARM `response`, returns the URL query value. |
| ClientAuth.ParseAuthMethod | internal/oauth2/request.go:32-60 | The method name is compared exactly against the six dispatched names. A name is unrecognized if and only if it is none of them. |
| ClientAuth.ParseThenName | internal/oauth2/request.go:32 | Classifying a method name loses nothing: the name is recovered, and the tag is well formed. |
| ClientAuth.NameThenParse | internal/oauth2/request.go:32 | Naming a well-formed method tag and classifying the name gives the same tag back. |
| ClientAuth.AuthForm | internal/oauth2/request.go:33-61 | The reference table of fields each method writes. Its keys are exactly the method's field set. |
| ClientAuth.AuthenticateClient | internal/oauth2/request.go:23-72 | Method, URL, headers and claims are never touched. It errs if and only if a JWT method's signing fails, and then returns the signer's error, the original endpoint and the original form. On success the form becomes the old form overwritten by exactly the method's table entry: client id and secret for post; assertion type and the signed assertion for the JWT methods; client id for the mutual-TLS methods; nothing otherwise. Keys outside the method's fields keep their values in every branch. The endpoint is the mutual-TLS one exactly for the two TLS methods. The key is replaced by every JWT signing attempt. The certificate changes only in the TLS branches and only when the transport has one. |
| ClientAuth.UnmatchedMethodIsNoOp | internal/oauth2/request.go:32-71 | For `client_secret_basic`, `none` or any unknown name, the call returns the request and endpoint unchanged, with no error. |
| ClientAuth.FieldsOfOneMethodOnly | internal/oauth2/request.go:32-69 | A call never introduces a form key that is outside the configured method's own field set. |
| TokenExchange.OptionsLastWins | internal/oauth2/oauth2.go:129-139 | Options are applied in order: for the code and for the redirect URL, the value is that of the last option setting it, or the starting value if none does. |
| TokenExchange.TokenForm | internal/oauth2/oauth2.go:159-175 | The form always has `grant_type` = the configured grant type. It has `client_id` and `client_secret` if and only if the method is `client_secret_post`, with the configured values. It has `redirect_uri` and `code` if and only if they are non-empty. No other key appears. |
| TokenExchange.TokenHeaders | internal/oauth2/oauth2.go:186-190 | Content-Type is exactly `application/x-www-form-urlencoded`. An Authorization header with the client's Basic credentials is present if and only if the method is `client_secret_basic`. No other header is set. |
| TokenExchange.RequestToken | internal/oauth2/oauth2.go:141-215 | The form is the token form of the options' final values. A malformed token endpoint returns its parse error and a request with only the form set. Otherwise the request is a POST to the parsed token endpoint with the token headers. A transport error is returned as is. A non-200 answer returns `ParseError` of the response. An unreadable body is returned wrapped with "failed to read exchange response body". In those three cases no token field is decoded. A 200 with a readable body returns whatever the decoder produced. It is an error exactly when decoding failed, and that error is wrapped with "failed to parse exchange response". |
| TokenExchange.PostCredentialsMatchAuthenticator | internal/oauth2/oauth2.go:163-167 | For `client_secret_post`, every field `AuthenticateClient` writes into the same base form appears in the token form with the same value. |
| TokenExchange.OtherMethodsSendNoFormCredentials | internal/oauth2/oauth2.go:163-167 | For every other method, the token form shares no key with any other method's authentication fields. The JWT methods send no client assertion and the TLS methods send no client id. |
| Jarm.Get | internal/oauth2/request.go:74-84 | A string claim wins, even an empty one, and is answered without reading the URL, so a request with no URL can be asked for such a key. Otherwise a non-empty URL query value wins. Otherwise the result is the form value, or "" if absent. |
| Jarm.GetIgnoresNonStringClaims | internal/oauth2/request.go:75 | A non-string claim under a key gives the same lookup result as no claim under that key. |
| Jarm.ResolveToken | internal/oauth2/request.go:98-108 | If both parses fail, the error combines the nested and the flat parse errors, in that order, under the JARM context. If only the flat parse succeeds, that token is used. A nested token without an encryption key gives the "no encryption key path" error. With a key, the result is the decrypted token or the wrapped decryption error. |
| Jarm.ParseJarm | internal/oauth2/request.go:86-120 | Only the claim map changes, and every error leaves it empty. With no `response` value, the claims are empty and there is no error. Claims are accepted only when a signing key was given and verification of the resolved token succeeded, and they are exactly the verified claims. A resolution error is returned as is. A nested token without an encryption key errs before the signing key is checked. A resolved token without a signing key gives the "no signing key path" error. A failed verification returns its error. A resolved token whose verification with the given signing key succeeds is accepted with no error, and the claim map becomes exactly the verified claims. A request without a URL is accepted when a string `response` claim answers the lookup. |
| Jarm.ParseJarmDependsOnlyOnResponse | internal/oauth2/request.go:88-95 | Two requests whose `response` lookups agree get the same claims and the same error. |
| Jarm.ParseJarmIdempotent | internal/oauth2/request.go:88-95 | Running verification again on its own output with the same keys gives the same result, provided no string `response` claim is present before or after. |
| Jarm.ParseJarmReadsPreviousClaims | internal/oauth2/request.go:88-100 | A string `response` claim from a previous call is what gets verified. If it parses neither way, the call fails with the combined parse error and empty claims, whatever the URL query holds, and whether or not the request has a URL. |

## Left out

- The listener lifecycle of `WaitForCallback`: the HTTP server, the goroutine, the wait group, the one-second delayed shutdown, the global handler registration, and a listen error overwriting the result. These are concurrency and I/O. Only the handler body is modelled.
- Randomness: `state` and `nonce` are parameters of `RequestAuthorization`, so their uniqueness across calls is not stated.
- `url.Parse` is an oracle. `url.Values.Encode` followed by `URL.Query()` is taken to return the values unchanged. Neither escaping nor key sorting is modelled.
- HTTP Basic credentials stay symbolic (`BasicCredentials(user, password)`) rather than base64 text.
- The transport (`hc.Do`), reading the body, `ParseError` and `json.Unmarshal` are the `Transport` oracle. The request context and its cancellation are not modelled. `http.NewRequestWithContext` is taken to fail exactly when the token endpoint does not parse.
- JSON Web Token parsing, decryption, signature verification and claim decoding are the `Jose` oracle. `SignJWT`, `ClientAssertionClaims`, `SecretSigner` and `JWKSigner` are the `SignOracle`. The claim map is taken to stay empty when verification fails.
- X.509 extraction from the transport is the `CertProbe` parameter (no certificate, or the parsed leaf or its failed parse).
- Go nil maps: a nil form in `AuthenticateClient`, where `Set` would panic, has no counterpart. Maps here are always allocated.
- A nil URL is represented (`url: None`). `Get` requires a URL only when no string claim answers the key, because that is the one path where the source calls `r.URL.Query()`. `ParseJarm` requires the same for the `response` key.
- Keys are modelled as present or absent. A non-nil interface holding a nil pointer is not distinguished.
- ClientAuth.ClientSecretJwtName, ClientAuth.PrivateKeyJwtName, ClientAuth.TlsClientAuthName and ClientAuth.SelfSignedTlsClientAuthName: the constants they stand for (`ClientSecretJwtAuthMethod`, `PrivateKeyJwtAuthMethod`, `TLSClientAuthMethod`, `SelfSignedTLSAuthMethod`) are commented out in internal/oauth2/oauth2.go and defined in a file that is not part of this model. Their values are taken to be the standard method names of section 2 of RFC 8705 and of OpenID Connect Core (`client_secret_jwt`, `private_key_jwt`, `tls_client_auth`, `self_signed_tls_client_auth`).
- TokenExchange.OptionsLastWins: `RequestTokenOption` in the source is any function on `*RequestTokenParams`, so a caller may pass options of its own. The model closes it to the two options the source defines (`WithAuthorizationCode`, `WithRedirectURL`), and the last-one-wins statement covers only those.
- `ServerConfig`, `Error`, `ParseError`, `SignJWT` and `JwtBearerClientAssertion` are defined outside the two modelled files. `ServerConfig` keeps only the endpoints the core reads. The assertion type is the value of section 2.2 of RFC 7523.
- JSON numbers in claims keep their literal text. Floating point is not modelled.
