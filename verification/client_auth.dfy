/** Client authentication at the token endpoint (internal/oauth2/request.go,
    `Request.AuthenticateClient`): a dispatch over the configured method,
    each branch writing its own form fields and choosing the endpoint. JWT
    signing and certificate extraction are supplied by the caller. */
module ClientAuth {
  import opened Wrappers
  import opened Types
  import UrlValues

  const ClientSecretBasicName: string := "client_secret_basic"
  const ClientSecretPostName: string := "client_secret_post"
  const ClientSecretJwtName: string := "client_secret_jwt"
  const PrivateKeyJwtName: string := "private_key_jwt"
  const TlsClientAuthName: string := "tls_client_auth"
  const SelfSignedTlsClientAuthName: string := "self_signed_tls_client_auth"

  /** The client-assertion type of section 2.2 of RFC 7523. */
  const JwtBearerClientAssertion: string := "urn:ietf:params:oauth:client-assertion-type:jwt-bearer"

  /** The configured method as a closed tag; any other name (including
      "none") is `Unrecognized`. */
  datatype AuthMethod =
    | ClientSecretBasic
    | ClientSecretPost
    | ClientSecretJwt
    | PrivateKeyJwt
    | TlsClientAuth
    | SelfSignedTlsClientAuth
    | Unrecognized(name: string)

  const KnownMethodNames: set<string> := {
    ClientSecretBasicName, ClientSecretPostName, ClientSecretJwtName,
    PrivateKeyJwtName, TlsClientAuthName, SelfSignedTlsClientAuthName
  }

  function MethodName(m: AuthMethod): string {
    match m
    case ClientSecretBasic => ClientSecretBasicName
    case ClientSecretPost => ClientSecretPostName
    case ClientSecretJwt => ClientSecretJwtName
    case PrivateKeyJwt => PrivateKeyJwtName
    case TlsClientAuth => TlsClientAuthName
    case SelfSignedTlsClientAuth => SelfSignedTlsClientAuthName
    case Unrecognized(name) => name
  }

  /** The `switch cconfig.AuthMethod` of the source: names are compared
      exactly; every other name falls to no branch. */
  function ParseAuthMethod(s: string): (m: AuthMethod)
    ensures m.Unrecognized? <==> s !in KnownMethodNames
  {
    if s == ClientSecretBasicName then ClientSecretBasic
    else if s == ClientSecretPostName then ClientSecretPost
    else if s == ClientSecretJwtName then ClientSecretJwt
    else if s == PrivateKeyJwtName then PrivateKeyJwt
    else if s == TlsClientAuthName then TlsClientAuth
    else if s == SelfSignedTlsClientAuthName then SelfSignedTlsClientAuth
    else Unrecognized(s)
  }

  /** An `Unrecognized` tag never carries a known name. */
  predicate WellFormed(m: AuthMethod) {
    m.Unrecognized? ==> m.name !in KnownMethodNames
  }

  /** Classifying a name loses nothing: the name is recovered. */
  lemma ParseThenName(s: string)
    ensures WellFormed(ParseAuthMethod(s))
    ensures MethodName(ParseAuthMethod(s)) == s
  {
  }

  /** Naming a well-formed tag and classifying the name gives the tag back. */
  lemma NameThenParse(m: AuthMethod)
    requires WellFormed(m)
    ensures ParseAuthMethod(MethodName(m)) == m
  {
  }

  predicate IsJwtMethod(m: AuthMethod) {
    m.ClientSecretJwt? || m.PrivateKeyJwt?
  }

  predicate IsTlsMethod(m: AuthMethod) {
    m.TlsClientAuth? || m.SelfSignedTlsClientAuth?
  }

  /** How a client assertion is signed: with the client secret as a shared
      key, or with a key from the client's published JWK set. */
  datatype Signer = SecretSigner(secret: string) | JwkSigner(client: ClientConfig)

  /** The signer each JWT method uses. */
  function SignerFor(m: AuthMethod, c: ClientConfig): Signer
    requires IsJwtMethod(m)
  {
    if m.ClientSecretJwt? then SecretSigner(c.clientSecret) else JwkSigner(c)
  }

  /** What `SignJWT` hands back: the compact assertion, the key it signed
      with, and the error if signing failed. */
  datatype Signed = Signed(assertion: string, key: Option<Key>, err: Option<Failure>)

  /** `SignJWT(ClientAssertionClaims(sconfig, cconfig), signer)`. */
  type SignOracle = (ServerConfig, ClientConfig, Signer) -> Signed

  /** The leaf certificate on the HTTP client's transport: none configured
      (or not an `*http.Transport`), or the result of parsing the first one
      (None when parsing fails, its error being discarded). */
  datatype CertProbe = NoTransportCertificate | LeafCertificate(parsed: Option<Certificate>)

  /** The form fields each method writes, as a table. */
  function AuthFields(m: AuthMethod): set<string> {
    match m
    case ClientSecretPost => {"client_id", "client_secret"}
    case ClientSecretJwt => {"client_assertion_type", "client_assertion"}
    case PrivateKeyJwt => {"client_assertion_type", "client_assertion"}
    case TlsClientAuth => {"client_id"}
    case SelfSignedTlsClientAuth => {"client_id"}
    case _ => {}
  }

  /** The fields a successful call writes, with their values. */
  function AuthForm(m: AuthMethod, c: ClientConfig, assertion: string): (f: UrlValues.Values)
    ensures f.Keys == AuthFields(m)
  {
    match m
    case ClientSecretPost => map["client_id" := [c.clientId], "client_secret" := [c.clientSecret]]
    case ClientSecretJwt => map["client_assertion_type" := [JwtBearerClientAssertion], "client_assertion" := [assertion]]
    case PrivateKeyJwt => map["client_assertion_type" := [JwtBearerClientAssertion], "client_assertion" := [assertion]]
    case TlsClientAuth => map["client_id" := [c.clientId]]
    case SelfSignedTlsClientAuth => map["client_id" := [c.clientId]]
    case _ => map[]
  }

  /** The updated request, the endpoint to post to, and the error if any. */
  datatype AuthResult = AuthResult(request: Request, endpoint: string, err: Option<Failure>)

  /** `Request.AuthenticateClient`. */
  function AuthenticateClient(r: Request, endpoint: string, mtlsEndpoint: string, c: ClientConfig, s: ServerConfig,
                              sign: SignOracle, probe: CertProbe): (a: AuthResult)
    // Method, URL, headers and claims are never touched.
    ensures a.request == r.(form := a.request.form, key := a.request.key, cert := a.request.cert)
    // The only error is a failed signature, returned with the original endpoint and form.
    ensures a.err.Some? <==>
              IsJwtMethod(ParseAuthMethod(c.authMethod)) &&
              sign(s, c, SignerFor(ParseAuthMethod(c.authMethod), c)).err.Some?
    ensures a.err.Some? ==>
              && a.err == sign(s, c, SignerFor(ParseAuthMethod(c.authMethod), c)).err
              && a.endpoint == endpoint
              && a.request.form == r.form
    // On success exactly the method's fields are written over the existing form.
    ensures a.err.None? ==>
              var m := ParseAuthMethod(c.authMethod);
              var assertion := if IsJwtMethod(m) then sign(s, c, SignerFor(m, c)).assertion else "";
              a.request.form == r.form + AuthForm(m, c, assertion)
    // Fields the method does not write keep their values in every branch.
    ensures forall k :: k in r.form && k !in AuthFields(ParseAuthMethod(c.authMethod)) ==>
              k in a.request.form && a.request.form[k] == r.form[k]
    // Only the mutual-TLS methods redirect to the mutual-TLS endpoint.
    ensures a.endpoint == (if IsTlsMethod(ParseAuthMethod(c.authMethod)) then mtlsEndpoint else endpoint)
    // The key is overwritten by every JWT signing attempt, even a failed one.
    ensures a.request.key ==
              (if IsJwtMethod(ParseAuthMethod(c.authMethod))
               then sign(s, c, SignerFor(ParseAuthMethod(c.authMethod), c)).key else r.key)
    // The certificate is only read in the mutual-TLS branches, and only when the transport has one.
    ensures a.request.cert ==
              (if IsTlsMethod(ParseAuthMethod(c.authMethod)) && probe.LeafCertificate? then probe.parsed else r.cert)
  {
    var m := ParseAuthMethod(c.authMethod);
    match m
    case ClientSecretPost =>
      var form := UrlValues.Set(UrlValues.Set(r.form, "client_id", c.clientId), "client_secret", c.clientSecret);
      AuthResult(r.(form := form), endpoint, None)
    case ClientSecretJwt => SignAssertion(r, endpoint, sign(s, c, SecretSigner(c.clientSecret)))
    case PrivateKeyJwt => SignAssertion(r, endpoint, sign(s, c, JwkSigner(c)))
    case TlsClientAuth => MutualTls(r, mtlsEndpoint, c, probe)
    case SelfSignedTlsClientAuth => MutualTls(r, mtlsEndpoint, c, probe)
    case _ => AuthResult(r, endpoint, None)
  }

  /** The two JWT branches once `SignJWT` has returned. */
  function SignAssertion(r: Request, endpoint: string, signed: Signed): AuthResult {
    var r' := r.(key := signed.key);
    if signed.err.Some? then
      AuthResult(r', endpoint, signed.err)
    else
      var form := UrlValues.Set(UrlValues.Set(r.form, "client_assertion_type", JwtBearerClientAssertion),
                                "client_assertion", signed.assertion);
      AuthResult(r'.(form := form), endpoint, None)
  }

  /** The two mutual-TLS branches. */
  function MutualTls(r: Request, mtlsEndpoint: string, c: ClientConfig, probe: CertProbe): AuthResult {
    var form := UrlValues.Set(r.form, "client_id", c.clientId);
    var cert := if probe.LeafCertificate? then probe.parsed else r.cert;
    AuthResult(r.(form := form, cert := cert), mtlsEndpoint, None)
  }

  /** Methods that are not dispatched (basic, "none", any other name) leave
      the request, the endpoint and the error untouched. */
  lemma UnmatchedMethodIsNoOp(r: Request, endpoint: string, mtlsEndpoint: string, c: ClientConfig, s: ServerConfig,
                              sign: SignOracle, probe: CertProbe)
    requires c.authMethod !in KnownMethodNames - {ClientSecretBasicName}
    ensures AuthenticateClient(r, endpoint, mtlsEndpoint, c, s, sign, probe) == AuthResult(r, endpoint, None)
  {
  }

  /** One method's fields only: a successful call adds no authentication
      field that belongs solely to another method. */
  lemma FieldsOfOneMethodOnly(r: Request, endpoint: string, mtlsEndpoint: string, c: ClientConfig, s: ServerConfig,
                              sign: SignOracle, probe: CertProbe, k: string)
    requires k !in r.form
    requires k !in AuthFields(ParseAuthMethod(c.authMethod))
    ensures k !in AuthenticateClient(r, endpoint, mtlsEndpoint, c, s, sign, probe).request.form
  {
  }
}
