/** The front channel of the authorization-code grant
    (internal/oauth2/oauth2.go): building the authorization request of
    section 4.1.1 of RFC 6749, and classifying the redirect that reaches the
    local callback listener (section 4.1.2 and 4.1.2.1 of RFC 6749). */
module Authorization {
  import opened Wrappers
  import opened Types
  import UrlValues
  import Jarm

  const CallbackPath: string := "/callback"
  const AuthorizationEndpointContext: string := "failed to parse authorization endpoint"

  /** The redirect URI registered for a local listener at `addr`. */
  function RedirectUri(addr: string): string {
    "http://" + addr + CallbackPath
  }

  /** The authorization request's query: five keys, namely `client_id`,
      `response_type`, `redirect_uri` and `state` of section 4.1.1 of RFC 6749
      (no `scope`) and the OpenID Connect `nonce`. */
  function AuthorizationQuery(addr: string, c: ClientConfig, state: string, nonce: string): UrlValues.Values {
    map[
      "client_id" := [c.clientId],
      "response_type" := ["code"],
      "redirect_uri" := [RedirectUri(addr)],
      "state" := [state],
      "nonce" := [nonce]
    ]
  }

  datatype AuthorizationResult = AuthorizationResult(request: Request, err: Option<Failure>)

  /** `RequestAuthorization`. The random `state` and `nonce` are parameters.
      The endpoint's own query, if any, is replaced by the five parameters. */
  function RequestAuthorization(addr: string, c: ClientConfig, s: ServerConfig, state: string, nonce: string,
                                parse: UrlParser): (a: AuthorizationResult)
    // The only error is a malformed authorization endpoint.
    ensures a.err.Some? <==> parse(s.authorizationEndpoint).Failure?
    ensures a.err.Some? ==>
              a.err == Some(Wrapped(AuthorizationEndpointContext, parse(s.authorizationEndpoint).error)) &&
              a.request == EmptyRequest
    // Otherwise a GET to the endpoint's location carrying exactly the five keys.
    ensures a.err.None? ==>
              && a.request.httpMethod == "GET"
              && a.request.url.Some?
              && a.request.url.value.location == parse(s.authorizationEndpoint).value.location
              && a.request.url.value.query.Keys == {"client_id", "response_type", "redirect_uri", "state", "nonce"}
              && a.request.url.value.query["client_id"] == [c.clientId]
              && a.request.url.value.query["response_type"] == ["code"]
              && a.request.url.value.query["redirect_uri"] == ["http://" + addr + "/callback"]
              && a.request.url.value.query["state"] == [state]
              && a.request.url.value.query["nonce"] == [nonce]
    // Nothing but the method and URL is set.
    ensures a.request == EmptyRequest.(httpMethod := a.request.httpMethod, url := a.request.url)
  {
    match parse(s.authorizationEndpoint)
    case Failure(e) => AuthorizationResult(EmptyRequest, Some(Wrapped(AuthorizationEndpointContext, e)))
    case Success(u) =>
      var u' := u.(query := AuthorizationQuery(addr, c, state, nonce));
      AuthorizationResult(EmptyRequest.(httpMethod := "GET", url := Some(u')), None)
  }

  /** Each parameter of a built authorization request reads back through
      `Request.Get` as the value it was built from. */
  lemma AuthorizationParamsReadBack(addr: string, c: ClientConfig, s: ServerConfig, state: string, nonce: string,
                                    parse: UrlParser)
    requires parse(s.authorizationEndpoint).Success?
    ensures var r := RequestAuthorization(addr, c, s, state, nonce, parse).request;
            && r.url.Some?
            && Jarm.Get(r, "client_id") == c.clientId
            && Jarm.Get(r, "response_type") == "code"
            && Jarm.Get(r, "redirect_uri") == RedirectUri(addr)
            && Jarm.Get(r, "state") == state
            && Jarm.Get(r, "nonce") == nonce
  {
  }

  /** The request seen by the callback handler. */
  datatype Incoming = Incoming(httpMethod: string, url: Url)

  /** What the handler captures and answers: the captured request, the
      provider error if any, and the HTTP status and body sent back. */
  datatype CallbackResult = CallbackResult(request: Request, err: Option<Failure>, status: int, body: string)

  const StatusOK: int := 200
  const StatusBadRequest: int := 400
  const FailureBody: string := "Authorization failed. You may close this browser."
  const SuccessBody: string := "Authorization succeeded. You may close this browser."

  /** The handler body of `WaitForCallback`. */
  function HandleCallback(inc: Incoming): (cb: CallbackResult)
    // The captured request is the incoming method and URL and nothing else.
    ensures cb.request == EmptyRequest.(httpMethod := inc.httpMethod, url := Some(inc.url))
    // An error is reported exactly when the `error` parameter is non-empty.
    ensures cb.err.Some? <==> UrlValues.Get(inc.url.query, "error") != ""
    ensures cb.err.Some? ==>
              cb.err == Some(Provider(ProviderError(
                UrlValues.Get(inc.url.query, "error"),
                UrlValues.Get(inc.url.query, "error_description"),
                UrlValues.Get(inc.url.query, "error_hint"),
                UrlValues.Get(inc.url.query, "trace_id"))))
    // 400 with the failure text on error, 200 with the success text otherwise.
    ensures cb.err.Some? ==> cb.status == 400 && cb.body == FailureBody
    ensures cb.err.None? ==> cb.status == 200 && cb.body == SuccessBody
  {
    var q := inc.url.query;
    var captured := EmptyRequest.(httpMethod := inc.httpMethod, url := Some(inc.url));
    if UrlValues.Get(q, "error") != "" then
      var e := ProviderError(
        UrlValues.Get(q, "error"),
        UrlValues.Get(q, "error_description"),
        UrlValues.Get(q, "error_hint"),
        UrlValues.Get(q, "trace_id"));
      CallbackResult(captured, Some(Provider(e)), StatusBadRequest, FailureBody)
    else
      CallbackResult(captured, None, StatusOK, SuccessBody)
  }

  /** The error redirect a provider sends (section 4.1.2.1 of RFC 6749, with
      the hint and trace identifier extensions). */
  function ErrorRedirectQuery(e: ProviderError): UrlValues.Values {
    map[
      "error" := [e.errorCode],
      "error_description" := [e.description],
      "error_hint" := [e.hint],
      "trace_id" := [e.traceId]
    ]
  }

  /** The success redirect a provider sends (section 4.1.2 of RFC 6749). */
  function SuccessRedirectQuery(code: string, state: string): UrlValues.Values {
    map["code" := [code], "state" := [state]]
  }

  /** An error redirect is classified back into the very error that was
      sent, with status 400. */
  lemma ErrorRedirectRoundTrip(e: ProviderError, httpMethod: string, location: string)
    requires e.errorCode != ""
    ensures var cb := HandleCallback(Incoming(httpMethod, Url(location, ErrorRedirectQuery(e))));
            cb.err == Some(Provider(e)) && cb.status == 400
  {
  }

  /** A success redirect is not an error, answers 200, and its code and
      state read back from the captured request. */
  lemma SuccessRedirectKeepsCode(code: string, state: string, httpMethod: string, location: string)
    ensures var cb := HandleCallback(Incoming(httpMethod, Url(location, SuccessRedirectQuery(code, state))));
            && cb.err.None? && cb.status == 200
            && cb.request.url.Some?
            && Jarm.Get(cb.request, "code") == code
            && Jarm.Get(cb.request, "state") == state
  {
  }

  /** The captured request has no claims and no form, so every lookup on it
      (including the JARM `response`) reads the URL query. */
  lemma CallbackLookupsReadQuery(inc: Incoming, key: string)
    ensures HandleCallback(inc).request.url.Some?
    ensures Jarm.Get(HandleCallback(inc).request, key) == UrlValues.Get(inc.url.query, key)
  {
  }
}
