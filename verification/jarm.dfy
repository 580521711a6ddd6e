/** Reading values out of an inbound `Request` and verifying a JARM (JWT
    Secured Authorization Response Mode) response (internal/oauth2/request.go,
    `Request.Get` and `Request.ParseJARM`). Parsing, decryption and
    signature verification of JSON Web Tokens are supplied as the `Jose`
    oracle record; only the decision logic around them is modelled. */
module Jarm {
  import opened Wrappers
  import opened Types
  import UrlValues

  /** True when the claim map holds a JSON string under `key`. */
  predicate HasStringClaim(c: Claims, key: string) {
    key in c && c[key].JString?
  }

  /** `Request.Get`: a string claim wins (even an empty one); otherwise a
      non-empty URL query value; otherwise the form value ("" if absent).
      Claims that are not strings are skipped. The URL is only read when no
      string claim answers, so a request without a URL can still be asked
      for a key that a string claim holds. */
  function Get(r: Request, key: string): (v: string)
    requires r.url.Some? || HasStringClaim(r.claims, key)
    ensures HasStringClaim(r.claims, key) ==> v == r.claims[key].str
    ensures !HasStringClaim(r.claims, key) && UrlValues.Get(r.url.value.query, key) != "" ==>
              v == UrlValues.Get(r.url.value.query, key)
    ensures !HasStringClaim(r.claims, key) && UrlValues.Get(r.url.value.query, key) == "" ==>
              v == UrlValues.Get(r.form, key)
  {
    if key in r.claims && r.claims[key].JString? then
      r.claims[key].str
    else if UrlValues.Get(r.url.value.query, key) != "" then
      UrlValues.Get(r.url.value.query, key)
    else
      UrlValues.Get(r.form, key)
  }

  /** A claim that is not a string is invisible to `Get`: the lookup gives
      the same answer as if the claim were absent. */
  lemma GetIgnoresNonStringClaims(r: Request, key: string, j: JsonValue)
    requires r.url.Some?
    requires !j.JString?
    ensures Get(r.(claims := r.claims[key := j]), key) == Get(r.(claims := r.claims - {key}), key)
  {
  }

  /** A compact signed-and-encrypted (nested) JSON Web Token. */
  datatype NestedToken = NestedToken(compact: string)

  /** A compact signed JSON Web Token. */
  datatype SignedToken = SignedToken(compact: string)

  /** The JSON Web Token library, as oracles: parse a nested token, parse a
      signed token, decrypt a nested token to its inner signed token, and
      verify a signed token's signature returning its claims. */
  datatype Jose = Jose(
    parseNested: string -> Result<NestedToken, Failure>,
    parseSigned: string -> Result<SignedToken, Failure>,
    decrypt: (NestedToken, Key) -> Result<SignedToken, Failure>,
    verifiedClaims: (SignedToken, Key) -> Result<Claims, Failure>)

  const JarmParseContext: string := "failed to parse JARM response"
  const JarmDecryptContext: string := "failed to decrypt encrypted JARM response"
  const NoEncryptionKeyMessage: string := "no encryption key path"
  const NoSigningKeyMessage: string := "no signing key path"

  /** The signed token whose signature is to be checked: the flat token when
      only the flat parse succeeds, the decrypted inner token of a nested
      token, or the error that stops verification. */
  function ResolveToken(response: string, encryptionKey: Option<Key>, jose: Jose): (t: Result<SignedToken, Failure>)
    // Neither parse succeeds: both failures are kept, nested first.
    ensures jose.parseNested(response).Failure? && jose.parseSigned(response).Failure? ==>
              t == Failure(Wrapped(JarmParseContext,
                     Combined(jose.parseNested(response).error, jose.parseSigned(response).error)))
    // Only the flat parse succeeds: that token is verified as is.
    ensures jose.parseNested(response).Failure? && jose.parseSigned(response).Success? ==>
              t == Success(jose.parseSigned(response).value)
    // A nested token without a decryption key is refused.
    ensures jose.parseNested(response).Success? && encryptionKey.None? ==>
              t == Failure(Plain(NoEncryptionKeyMessage))
    // A nested token with a key yields the decrypted token or the wrapped decryption error.
    ensures jose.parseNested(response).Success? && encryptionKey.Some? ==>
              var d := jose.decrypt(jose.parseNested(response).value, encryptionKey.value);
              t == (if d.Success? then d else Failure(Wrapped(JarmDecryptContext, d.error)))
  {
    match jose.parseNested(response)
    case Failure(nestedErr) =>
      (match jose.parseSigned(response)
       case Failure(flatErr) => Failure(Wrapped(JarmParseContext, Combined(nestedErr, flatErr)))
       case Success(token) => Success(token))
    case Success(nested) =>
      if encryptionKey.Some? then
        (match jose.decrypt(nested, encryptionKey.value)
         case Failure(e) => Failure(Wrapped(JarmDecryptContext, e))
         case Success(token) => Success(token))
      else
        Failure(Plain(NoEncryptionKeyMessage))
  }

  /** The outcome of `ParseJARM`: the request with its claim map replaced,
      and the error, if any. */
  datatype JarmResult = JarmResult(request: Request, err: Option<Failure>)

  /** `Request.ParseJARM`. The `response` value is read with `Get` BEFORE the
      claim map is reset, so a string `response` claim left by an earlier
      verification takes precedence over the URL query and the form. */
  function ParseJarm(r: Request, signingKey: Option<Key>, encryptionKey: Option<Key>, jose: Jose): (p: JarmResult)
    requires r.url.Some? || HasStringClaim(r.claims, "response")
    // Only the claim map changes.
    ensures p.request == r.(claims := p.request.claims)
    // Fail closed: on every error the claim map is empty.
    ensures p.err.Some? ==> p.request.claims == map[]
    // No response value: nothing to verify, empty claims, no error.
    ensures Get(r, "response") == "" ==> p.err.None? && p.request.claims == map[]
    // Claims are only ever accepted after a signature check with the caller's key.
    ensures p.err.None? && Get(r, "response") != "" ==>
              && signingKey.Some?
              && ResolveToken(Get(r, "response"), encryptionKey, jose).Success?
              && jose.verifiedClaims(ResolveToken(Get(r, "response"), encryptionKey, jose).value, signingKey.value)
                 == Success(p.request.claims)
    // A token that could not be resolved is reported with the resolution error.
    ensures Get(r, "response") != "" && ResolveToken(Get(r, "response"), encryptionKey, jose).Failure? ==>
              p.err == Some(ResolveToken(Get(r, "response"), encryptionKey, jose).error)
    // A nested token without a decryption key fails before the signing key is looked at.
    ensures Get(r, "response") != "" && jose.parseNested(Get(r, "response")).Success? && encryptionKey.None? ==>
              p.err == Some(Plain(NoEncryptionKeyMessage))
    // A resolved token without a signing key is refused.
    ensures Get(r, "response") != "" && ResolveToken(Get(r, "response"), encryptionKey, jose).Success? && signingKey.None? ==>
              p.err == Some(Plain(NoSigningKeyMessage))
    // A failed signature check is reported as is.
    ensures Get(r, "response") != "" && ResolveToken(Get(r, "response"), encryptionKey, jose).Success? && signingKey.Some? &&
            jose.verifiedClaims(ResolveToken(Get(r, "response"), encryptionKey, jose).value, signingKey.value).Failure? ==>
              p.err == Some(jose.verifiedClaims(ResolveToken(Get(r, "response"), encryptionKey, jose).value, signingKey.value).error)
    // A resolved token whose signature checks out is accepted with exactly its claims.
    ensures Get(r, "response") != "" && ResolveToken(Get(r, "response"), encryptionKey, jose).Success? && signingKey.Some? &&
            jose.verifiedClaims(ResolveToken(Get(r, "response"), encryptionKey, jose).value, signingKey.value).Success? ==>
              && p.err.None?
              && p.request.claims == jose.verifiedClaims(ResolveToken(Get(r, "response"), encryptionKey, jose).value, signingKey.value).value
  {
    var response := Get(r, "response");
    var reset := r.(claims := map[]);
    if response == "" then
      JarmResult(reset, None)
    else
      match ResolveToken(response, encryptionKey, jose)
      case Failure(e) => JarmResult(reset, Some(e))
      case Success(token) =>
        if signingKey.None? then
          JarmResult(reset, Some(Plain(NoSigningKeyMessage)))
        else
          match jose.verifiedClaims(token, signingKey.value)
          case Failure(e) => JarmResult(reset, Some(e))
          case Success(claims) => JarmResult(r.(claims := claims), None)
  }

  /** The outcome depends on the request only through the `response` value
      that `Get` finds: two requests that yield the same value get the same
      claims and the same error. */
  lemma ParseJarmDependsOnlyOnResponse(r1: Request, r2: Request, signingKey: Option<Key>, encryptionKey: Option<Key>, jose: Jose)
    requires r1.url.Some? || HasStringClaim(r1.claims, "response")
    requires r2.url.Some? || HasStringClaim(r2.claims, "response")
    requires Get(r1, "response") == Get(r2, "response")
    ensures ParseJarm(r1, signingKey, encryptionKey, jose).err == ParseJarm(r2, signingKey, encryptionKey, jose).err
    ensures ParseJarm(r1, signingKey, encryptionKey, jose).request.claims ==
            ParseJarm(r2, signingKey, encryptionKey, jose).request.claims
  {
  }

  /** Verifying an already verified request again with the same keys gives
      the same claims and error, provided no string `response` claim is in
      play before or after (one would be read instead of the URL query). */
  lemma ParseJarmIdempotent(r: Request, signingKey: Option<Key>, encryptionKey: Option<Key>, jose: Jose)
    requires r.url.Some?
    requires !HasStringClaim(r.claims, "response")
    requires !HasStringClaim(ParseJarm(r, signingKey, encryptionKey, jose).request.claims, "response")
    ensures ParseJarm(ParseJarm(r, signingKey, encryptionKey, jose).request, signingKey, encryptionKey, jose)
            == ParseJarm(r, signingKey, encryptionKey, jose)
  {
  }

  /** A string `response` claim left in the claim map by an earlier call is
      what gets verified, whatever the URL query carries: a stale claim that
      parses neither way makes the call fail even if the query holds a
      valid token, and whether or not the request has a URL at all. */
  lemma ParseJarmReadsPreviousClaims(r: Request, stale: string, signingKey: Option<Key>, encryptionKey: Option<Key>, jose: Jose)
    requires "response" in r.claims && r.claims["response"] == JString(stale) && stale != ""
    requires jose.parseNested(stale).Failure? && jose.parseSigned(stale).Failure?
    ensures ParseJarm(r, signingKey, encryptionKey, jose).err ==
            Some(Wrapped(JarmParseContext, Combined(jose.parseNested(stale).error, jose.parseSigned(stale).error)))
    ensures ParseJarm(r, signingKey, encryptionKey, jose).request.claims == map[]
  {
  }
}
