/** The records shared by every step of the flow (internal/oauth2/oauth2.go
    and internal/oauth2/request.go): client and server configuration, the
    in-flight `Request`, provider errors, the token response, and the error
    values the core returns. */
module Types {
  import opened Wrappers
  import opened UrlValues

  // Grant types the client drives.
  const AuthorizationCodeGrantType: string := "authorization_code"
  const ClientCredentialsGrantType: string := "client_credentials"

  /** Caller-supplied client configuration; `authMethod` is the raw method
      name and is only interpreted where a branch compares against it. */
  datatype ClientConfig = ClientConfig(
    issuerUrl: string,
    clientId: string,
    clientSecret: string,
    grantType: string,
    authMethod: string)

  /** The part of the provider metadata the core reads. */
  datatype ServerConfig = ServerConfig(
    authorizationEndpoint: string,
    tokenEndpoint: string,
    mtlsTokenEndpoint: string)

  /** A parsed URL: everything but the query is kept as one opaque location
      (scheme, host, path); the query is held already decoded. */
  datatype Url = Url(location: string, query: Values)

  /** `url.Parse`, supplied by the caller: a URL or the parser's error. */
  type UrlParser = string -> Result<Url, Failure>

  /** A decoded JSON value, as stored in the JARM claim map. Numbers keep
      their literal text so that no floating point is involved. */
  datatype JsonValue =
    | JNull
    | JBool(b: bool)
    | JNumber(literal: string)
    | JString(str: string)
    | JArray(items: seq<JsonValue>)
    | JObject(members: map<string, JsonValue>)

  type Claims = map<string, JsonValue>

  /** Opaque key material (a signing, verification or decryption key). */
  datatype Key = Key(material: string)

  /** An opaque parsed X.509 certificate. */
  datatype Certificate = Certificate(der: string)

  /** A header value; HTTP Basic credentials stay symbolic instead of being
      base64-encoded. */
  datatype HeaderValue = Text(text: string) | BasicCredentials(user: string, password: string)

  type Header = MultiMap<HeaderValue>

  /** The in-flight exchange: `url` is None where Go holds a nil `*url.URL`,
      `key` and `cert` are None where Go holds nil. */
  datatype Request = Request(
    httpMethod: string,
    url: Option<Url>,
    headers: Header,
    form: Values,
    claims: Claims,
    key: Option<Key>,
    cert: Option<Certificate>)

  /** The zero `Request`. */
  const EmptyRequest: Request := Request("", None, map[], map[], map[], None, None)

  /** A structured error reported by the provider. */
  datatype ProviderError = ProviderError(
    errorCode: string,
    description: string,
    hint: string,
    traceId: string)

  /** The error values the core produces or passes through. */
  datatype Failure =
    | Provider(provider: ProviderError)           // a *Error
    | Cause(message: string)                      // an error raised by a collaborator
    | Plain(message: string)                      // errors.New
    | Wrapped(context: string, inner: Failure)    // errors.Wrapf / fmt.Errorf with %w
    | Combined(first: Failure, second: Failure)   // multierror.Append of two errors

  /** The token endpoint's JSON response; absent fields keep their zero value. */
  datatype TokenResponse = TokenResponse(
    accessToken: string,
    expiresIn: int,
    idToken: string,
    issuedTokenType: string,
    refreshToken: string,
    scope: string,
    tokenType: string)

  /** The zero `TokenResponse`: nothing decoded. */
  const EmptyTokenResponse: TokenResponse := TokenResponse("", 0, "", "", "", "", "")
}
