/** The back channel: exchanging an authorization code (or client
    credentials) for tokens (internal/oauth2/oauth2.go, `RequestToken` and
    its options). HTTP transport, the error-body parser and the JSON decoder
    are supplied by the caller as the `Transport` record. */
module TokenExchange {
  import opened Wrappers
  import opened Types
  import UrlValues
  import ClientAuth

  const FormContentType: string := "application/x-www-form-urlencoded"
  const ReadBodyContext: string := "failed to read exchange response body"
  const DecodeContext: string := "failed to parse exchange response"

  /** `RequestTokenParams`. */
  datatype TokenParams = TokenParams(code: string, redirectUrl: string)

  const EmptyParams: TokenParams := TokenParams("", "")

  /** `WithAuthorizationCode` and `WithRedirectURL`. */
  datatype TokenOption = WithAuthorizationCode(code: string) | WithRedirectUrl(url: string)

  /** One option applied to the parameters. */
  function ApplyOption(p: TokenParams, o: TokenOption): TokenParams {
    match o
    case WithAuthorizationCode(code) => p.(code := code)
    case WithRedirectUrl(url) => p.(redirectUrl := url)
  }

  /** The options applied in order, first to last. */
  function ApplyOptions(p: TokenParams, opts: seq<TokenOption>): TokenParams
    decreases |opts|
  {
    if |opts| == 0 then p else ApplyOptions(ApplyOption(p, opts[0]), opts[1..])
  }

  /** The parameter an option sets. */
  datatype Param = CodeParam | RedirectParam

  function Read(p: TokenParams, f: Param): string {
    if f == CodeParam then p.code else p.redirectUrl
  }

  predicate Sets(o: TokenOption, f: Param) {
    if f == CodeParam then o.WithAuthorizationCode? else o.WithRedirectUrl?
  }

  function OptionValue(o: TokenOption): string {
    match o
    case WithAuthorizationCode(code) => code
    case WithRedirectUrl(url) => url
  }

  /** The value of the LAST option in `opts` that sets `f`, or `otherwise`
      when none does. */
  function LastSet(opts: seq<TokenOption>, f: Param, otherwise: string): string
    decreases |opts|
  {
    if |opts| == 0 then otherwise
    else if Sets(opts[|opts| - 1], f) then OptionValue(opts[|opts| - 1])
    else LastSet(opts[..|opts| - 1], f, otherwise)
  }

  /** Looking past a leading option only changes the fallback value. */
  lemma {:induction false} LastSetCons(o: TokenOption, rest: seq<TokenOption>, f: Param, otherwise: string)
    ensures LastSet([o] + rest, f, otherwise) ==
            LastSet(rest, f, if Sets(o, f) then OptionValue(o) else otherwise)
    decreases |rest|
  {
    if |rest| == 0 {
      assert [o] + rest == [o];
      assert ([o] + rest)[..0] == [];
    } else {
      var all := [o] + rest;
      assert all[|all| - 1] == rest[|rest| - 1];
      assert all[..|all| - 1] == [o] + rest[..|rest| - 1];
      LastSetCons(o, rest[..|rest| - 1], f, otherwise);
    }
  }

  /** Options apply in order, so for each parameter the last option that
      sets it wins, and a parameter no option sets keeps its value. */
  lemma {:induction false} OptionsLastWins(p: TokenParams, opts: seq<TokenOption>)
    ensures Read(ApplyOptions(p, opts), CodeParam) == LastSet(opts, CodeParam, p.code)
    ensures Read(ApplyOptions(p, opts), RedirectParam) == LastSet(opts, RedirectParam, p.redirectUrl)
    decreases |opts|
  {
    if |opts| > 0 {
      var o := opts[0];
      assert opts == [o] + opts[1..];
      OptionsLastWins(ApplyOption(p, o), opts[1..]);
      LastSetCons(o, opts[1..], CodeParam, p.code);
      LastSetCons(o, opts[1..], RedirectParam, p.redirectUrl);
    }
  }

  /** The token request's form, as built before the request is sent. */
  function TokenForm(c: ClientConfig, p: TokenParams): (f: UrlValues.Values)
    ensures f.Keys <= {"grant_type", "client_id", "client_secret", "redirect_uri", "code"}
    ensures "grant_type" in f && f["grant_type"] == [c.grantType]
    // Client credentials enter the form only for client_secret_post.
    ensures ("client_id" in f <==> c.authMethod == ClientAuth.ClientSecretPostName) &&
            ("client_secret" in f <==> c.authMethod == ClientAuth.ClientSecretPostName)
    ensures "client_id" in f ==> f["client_id"] == [c.clientId] && f["client_secret"] == [c.clientSecret]
    // The redirect URI and code are sent exactly when non-empty.
    ensures ("redirect_uri" in f <==> p.redirectUrl != "") && ("code" in f <==> p.code != "")
    ensures "redirect_uri" in f ==> f["redirect_uri"] == [p.redirectUrl]
    ensures "code" in f ==> f["code"] == [p.code]
  {
    var f0: UrlValues.Values := map["grant_type" := [c.grantType]];
    var f1 := if c.authMethod == ClientAuth.ClientSecretPostName
              then UrlValues.Set(UrlValues.Set(f0, "client_id", c.clientId), "client_secret", c.clientSecret)
              else f0;
    var f2 := if p.redirectUrl != "" then UrlValues.Set(f1, "redirect_uri", p.redirectUrl) else f1;
    if p.code != "" then UrlValues.Set(f2, "code", p.code) else f2
  }

  /** The token request's headers. */
  function TokenHeaders(c: ClientConfig): (h: Header)
    ensures h.Keys <= {"Authorization", "Content-Type"}
    ensures "Content-Type" in h && h["Content-Type"] == [Text(FormContentType)]
    // Basic credentials only for client_secret_basic.
    ensures "Authorization" in h <==> c.authMethod == ClientAuth.ClientSecretBasicName
    ensures "Authorization" in h ==> h["Authorization"] == [BasicCredentials(c.clientId, c.clientSecret)]
  {
    var h: Header := map[];
    var h' := if c.authMethod == ClientAuth.ClientSecretBasicName
              then UrlValues.Set(h, "Authorization", BasicCredentials(c.clientId, c.clientSecret))
              else h;
    UrlValues.Add(h', "Content-Type", Text(FormContentType))
  }

  /** The request handed to the HTTP client; the body is the encoded form. */
  datatype Outbound = Outbound(httpMethod: string, url: Url, headers: Header, body: UrlValues.Values)

  type Byte = x: int | 0 <= x < 256

  /** A response: the status and the body read (or the read error). */
  datatype Response = Response(status: int, body: Result<seq<Byte>, Failure>)

  /** What `json.Unmarshal` leaves in the response and its error; a type
      mismatch can leave some fields already decoded. */
  datatype Decoded = Decoded(response: TokenResponse, err: Option<Failure>)

  /** The HTTP client (`hc.Do`), the `ParseError` of a non-200 response,
      and the JSON decoder. */
  datatype Transport = Transport(
    send: Outbound -> Result<Response, Failure>,
    parseError: Response -> Failure,
    unmarshal: seq<Byte> -> Decoded)

  /** The constructed request, the decoded response, and the error if any. */
  datatype Exchange = Exchange(request: Request, response: TokenResponse, err: Option<Failure>)

  /** `RequestToken`. The request is sent to the token endpoint; the
      mutual-TLS endpoint is never used and `AuthenticateClient` is not
      called: only client_secret_post and client_secret_basic credentials
      are sent. */
  function RequestToken(c: ClientConfig, s: ServerConfig, opts: seq<TokenOption>, parse: UrlParser,
                        net: Transport): (x: Exchange)
    // The form always carries the grant type and the options' final values.
    ensures x.request.form == TokenForm(c, ApplyOptions(EmptyParams, opts))
    ensures x.request.claims == map[] && x.request.key.None? && x.request.cert.None?
    // A malformed token endpoint stops before anything is sent.
    ensures parse(s.tokenEndpoint).Failure? ==>
              && x.err == Some(parse(s.tokenEndpoint).error)
              && x.request == EmptyRequest.(form := x.request.form)
              && x.response == EmptyTokenResponse
    // Otherwise a form POST to the token endpoint.
    ensures parse(s.tokenEndpoint).Success? ==>
              && x.request.httpMethod == "POST"
              && x.request.url == Some(parse(s.tokenEndpoint).value)
              && x.request.headers == TokenHeaders(c)
    // Nothing is decoded unless the endpoint answered 200.
    ensures x.response != EmptyTokenResponse ==>
              && parse(s.tokenEndpoint).Success?
              && var sent := net.send(Outbound("POST", parse(s.tokenEndpoint).value, TokenHeaders(c), x.request.form));
              && sent.Success? && sent.value.status == 200 && sent.value.body.Success?
              && x.response == net.unmarshal(sent.value.body.value).response
    // Each stage of the exchange decides the outcome once the request is built.
    ensures parse(s.tokenEndpoint).Success? ==>
              var sent := net.send(Outbound("POST", parse(s.tokenEndpoint).value, TokenHeaders(c), x.request.form));
              // A transport error is returned as is.
              && (sent.Failure? ==> x.err == Some(sent.error) && x.response == EmptyTokenResponse)
              // A non-200 answer is reported through ParseError.
              && (sent.Success? && sent.value.status != 200 ==>
                    x.err == Some(net.parseError(sent.value)) && x.response == EmptyTokenResponse)
              // A body that cannot be read is reported under the read context.
              && (sent.Success? && sent.value.status == 200 && sent.value.body.Failure? ==>
                    x.err == Some(Wrapped(ReadBodyContext, sent.value.body.error)) && x.response == EmptyTokenResponse)
              // A 200 with a readable body returns whatever the decoder produced; it is an
              // error exactly when decoding failed, reported under the decode context.
              && (sent.Success? && sent.value.status == 200 && sent.value.body.Success? ==>
                    var d := net.unmarshal(sent.value.body.value);
                    && x.response == d.response
                    && (x.err.None? <==> d.err.None?)
                    && (d.err.Some? ==> x.err == Some(Wrapped(DecodeContext, d.err.value))))
    // Success means every stage succeeded.
    ensures x.err.None? ==>
              && parse(s.tokenEndpoint).Success?
              && var sent := net.send(Outbound("POST", parse(s.tokenEndpoint).value, TokenHeaders(c), x.request.form));
              && sent.Success? && sent.value.status == 200 && sent.value.body.Success?
              && net.unmarshal(sent.value.body.value).err.None?
  {
    var params := ApplyOptions(EmptyParams, opts);
    var form := TokenForm(c, params);
    var request := EmptyRequest.(form := form);
    match parse(s.tokenEndpoint)
    case Failure(e) => Exchange(request, EmptyTokenResponse, Some(e))
    case Success(u) =>
      var headers := TokenHeaders(c);
      var request := request.(httpMethod := "POST", headers := headers, url := Some(u));
      match net.send(Outbound("POST", u, headers, form))
      case Failure(e) => Exchange(request, EmptyTokenResponse, Some(e))
      case Success(resp) =>
        if resp.status != 200 then
          Exchange(request, EmptyTokenResponse, Some(net.parseError(resp)))
        else
          match resp.body
          case Failure(e) => Exchange(request, EmptyTokenResponse, Some(Wrapped(ReadBodyContext, e)))
          case Success(body) =>
            var decoded := net.unmarshal(body);
            if decoded.err.Some? then
              Exchange(request, decoded.response, Some(Wrapped(DecodeContext, decoded.err.value)))
            else
              Exchange(request, decoded.response, None)
  }

  /** For client_secret_post the inlined credentials are exactly what
      `AuthenticateClient` would have written into the same form. */
  lemma PostCredentialsMatchAuthenticator(c: ClientConfig, p: TokenParams, endpoint: string, mtlsEndpoint: string,
                                          s: ServerConfig, sign: ClientAuth.SignOracle, probe: ClientAuth.CertProbe)
    requires c.authMethod == ClientAuth.ClientSecretPostName
    ensures var base := EmptyRequest.(form := map["grant_type" := [c.grantType]]);
            var a := ClientAuth.AuthenticateClient(base, endpoint, mtlsEndpoint, c, s, sign, probe);
            forall k :: k in a.request.form ==> k in TokenForm(c, p) && TokenForm(c, p)[k] == a.request.form[k]
  {
  }

  /** For every method other than client_secret_post the token form carries
      no client credential at all: in particular the JWT methods send no
      client assertion and the mutual-TLS methods no client id. */
  lemma OtherMethodsSendNoFormCredentials(c: ClientConfig, p: TokenParams)
    requires c.authMethod != ClientAuth.ClientSecretPostName
    ensures forall m: ClientAuth.AuthMethod :: m != ClientAuth.ClientSecretPost ==>
              TokenForm(c, p).Keys !! ClientAuth.AuthFields(m)
  {
  }
}
