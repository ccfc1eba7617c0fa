/**
  The base every grant type builds on: configuration checked at
  construction, access/refresh/ID token generation that prefers the
  model's capabilities and falls back to a random token or a signed JWT,
  expiry computation, and scope extraction and validation.

  The clock is the parameter `now` (seconds), the random token is the
  parameter `rand`, and the JWT signer is the parameter `sign`.
 */
module AbstractGrantType {
  import opened JsValues
  import opened OAuthTypes

  /** The options object given to the constructor. */
  datatype Options = Options(
    accessTokenLifetime: Option<int>,
    model: Option<Model>,
    refreshTokenLifetime: Option<int>,
    alwaysIssueNewRefreshToken: Option<bool>,
    openid: OpenIdConfig)

  /** `{}`, used when the constructor is called without options. */
  const NoOptions := Options(None, None, None, None, OpenIdConfig(None, None, None))

  /** A constructed grant type: its settings and the options it was built from. */
  datatype GrantType = GrantType(
    accessTokenLifetime: int,
    model: Model,
    refreshTokenLifetime: Option<int>,
    alwaysIssueNewRefreshToken: Option<bool>,
    options: Options)

  /** A request; only its body map is read. */
  datatype Request = Request(body: map<string, string>)

  const MissingAccessTokenLifetime := "Missing parameter: `accessTokenLifetime`"
  const MissingModel := "Missing parameter: `model`"
  const InvalidScopeParameter := "Invalid parameter: `scope`"
  const RequestedScopeInvalid := "Invalid scope: Requested scope is invalid"

  /**
    The constructor: a falsy access-token lifetime is rejected first, a
    missing model second; otherwise the settings are kept as given.
   */
  function New(options: Option<Options>): (r: Result<GrantType, Error>)
    ensures var o := options.GetOr(NoOptions);
      && (r.Success? <==> TruthyNumber(o.accessTokenLifetime) && o.model.Some?)
      && (!TruthyNumber(o.accessTokenLifetime) ==> r == Failure(InvalidArgument(MissingAccessTokenLifetime)))
      && (TruthyNumber(o.accessTokenLifetime) && o.model.None? ==> r == Failure(InvalidArgument(MissingModel)))
      && (r.Success? ==>
            && Some(r.value.accessTokenLifetime) == o.accessTokenLifetime
            && r.value.accessTokenLifetime != 0
            && Some(r.value.model) == o.model
            && r.value.refreshTokenLifetime == o.refreshTokenLifetime
            && r.value.alwaysIssueNewRefreshToken == o.alwaysIssueNewRefreshToken
            && r.value.options == o)
  {
    var o := options.GetOr(NoOptions);
    if !TruthyNumber(o.accessTokenLifetime) then
      Failure(InvalidArgument(MissingAccessTokenLifetime))
    else if o.model.None? then
      Failure(InvalidArgument(MissingModel))
    else
      Success(GrantType(o.accessTokenLifetime.value, o.model.value, o.refreshTokenLifetime,
                        o.alwaysIssueNewRefreshToken, o))
  }

  /**
    The two-tier token generation shared by access and refresh tokens:
    the model's token when the capability exists and returns a non-empty
    token, the random token otherwise.
   */
  function TokenOrRandom(capability: Option<TokenCapability>, client: Client, user: Option<User>,
                         scope: Scope, rand: string): (token: string)
    ensures capability.None? ==> token == rand
    ensures capability.Some? ==>
      var produced := capability.value(client, user, scope);
      (Truthy(produced) ==> token == produced.value) && (!Truthy(produced) ==> token == rand)
    ensures token == rand || (capability.Some? && Some(token) == capability.value(client, user, scope))
    ensures rand != "" ==> token != ""
  {
    match capability
    case None => rand
    case Some(generate) =>
      var produced := generate(client, user, scope);
      if Truthy(produced) then produced.value else rand
  }

  /** `generateAccessToken(client, user, scope)`. */
  function GenerateAccessToken(g: GrantType, client: Client, user: Option<User>, scope: Scope,
                               rand: string): (token: string)
    ensures g.model.generateAccessToken.None? ==> token == rand
    ensures g.model.generateAccessToken.Some? && Truthy(g.model.generateAccessToken.value(client, user, scope)) ==>
              Some(token) == g.model.generateAccessToken.value(client, user, scope)
    ensures g.model.generateAccessToken.Some? && !Truthy(g.model.generateAccessToken.value(client, user, scope)) ==>
              token == rand
  {
    TokenOrRandom(g.model.generateAccessToken, client, user, scope, rand)
  }

  /** `generateRefreshToken(client, user, scope)`. */
  function GenerateRefreshToken(g: GrantType, client: Client, user: Option<User>, scope: Scope,
                                rand: string): (token: string)
    ensures g.model.generateRefreshToken.None? ==> token == rand
    ensures g.model.generateRefreshToken.Some? && Truthy(g.model.generateRefreshToken.value(client, user, scope)) ==>
              Some(token) == g.model.generateRefreshToken.value(client, user, scope)
    ensures g.model.generateRefreshToken.Some? && !Truthy(g.model.generateRefreshToken.value(client, user, scope)) ==>
              token == rand
  {
    TokenOrRandom(g.model.generateRefreshToken, client, user, scope, rand)
  }

  /** The scope gate of `generateIdToken`: a truthy scope containing `openid`. */
  predicate AsksForIdToken(scope: Scope) {
    Truthy(scope) && Includes(scope.value, OpenIdScope)
  }

  /**
    `generateIdToken(client, user, scope)`. `Success(None)` is the
    source's `undefined`: no ID token, and no error.
   */
  function GenerateIdToken(g: GrantType, client: Client, user: Option<User>, scope: Scope,
                           sign: Signer): (r: Result<Option<string>, Error>)
    // the scope gate comes first and overrides everything else
    ensures !AsksForIdToken(scope) ==> r == Success(None)
    // then the user, then the client id, whatever the model or configuration
    ensures AsksForIdToken(scope) && user.None? ==> r == Failure(ServerError(UserNotInstance))
    ensures AsksForIdToken(scope) && user.Some? && !Truthy(client.id) ==>
              r == Failure(InvalidArgument(MissingClientId))
    // past those checks, a model override is returned verbatim
    ensures AsksForIdToken(scope) && user.Some? && Truthy(client.id) && g.model.generateIdToken.Some? ==>
              r == Success(g.model.generateIdToken.value(client, user, scope))
    // otherwise algorithm, then issuer, then signing
    ensures AsksForIdToken(scope) && user.Some? && Truthy(client.id) && g.model.generateIdToken.None? ==>
              var cfg := g.options.openid;
              && (!Truthy(cfg.algorithm) ==> r == Failure(InvalidArgument(MissingAlgorithm)))
              && (Truthy(cfg.algorithm) && !Truthy(cfg.issuer) ==> r == Failure(InvalidArgument(MissingIssuer)))
              && (Truthy(cfg.algorithm) && Truthy(cfg.issuer) ==>
                    var signed := sign(user.value, cfg.privateKey,
                                       SignOptions(cfg.algorithm.value, IdTokenExpiresIn, client.id.value,
                                                   cfg.issuer.value, Subject(user.value)));
                    (signed.Success? ==> r == Success(Some(signed.value)))
                    && (signed.Failure? ==> r == Failure(signed.error)))
  {
    var cfg := g.options.openid;
    if !AsksForIdToken(scope) then
      Success(None)
    else if user.None? then
      Failure(ServerError(UserNotInstance))
    else if !Truthy(client.id) then
      Failure(InvalidArgument(MissingClientId))
    else if g.model.generateIdToken.Some? then
      Success(g.model.generateIdToken.value(client, user, scope))
    else if !Truthy(cfg.algorithm) then
      Failure(InvalidArgument(MissingAlgorithm))
    else if !Truthy(cfg.issuer) then
      Failure(InvalidArgument(MissingIssuer))
    else
      SignedToken(sign(user.value, cfg.privateKey,
                       IdTokenSignOptions(cfg.algorithm.value, client.id.value, cfg.issuer.value, user.value)))
  }

  /** `getAccessTokenExpiresAt()` at clock reading `now`, in seconds. */
  function GetAccessTokenExpiresAt(g: GrantType, now: int): (expiresAt: int)
    ensures expiresAt - now == g.accessTokenLifetime
  {
    now + g.accessTokenLifetime
  }

  /**
    `getRefreshTokenExpiresAt()` at clock reading `now`. Without a refresh
    lifetime the source yields an invalid date, modelled as `None`.
   */
  function GetRefreshTokenExpiresAt(g: GrantType, now: int): (expiresAt: Option<int>)
    ensures expiresAt.Some? <==> g.refreshTokenLifetime.Some?
    ensures expiresAt.Some? ==> expiresAt.value - now == g.refreshTokenLifetime.value
  {
    match g.refreshTokenLifetime
    case Some(lifetime) => Some(now + lifetime)
    case None => None
  }

  /**
    `getScope(request)`: the body's `scope` (absent when the body has
    none), accepted exactly when the `nqschar` validator accepts it.
   */
  function GetScope(request: Request, nqschar: Option<string> -> bool): (r: Result<Scope, Error>)
    ensures var raw := if "scope" in request.body then Some(request.body["scope"]) else None;
      && (r.Success? <==> nqschar(raw))
      && (r.Success? ==> r.value == raw)
      && (r.Failure? ==> r.error == InvalidArgument(InvalidScopeParameter))
  {
    var raw := if "scope" in request.body then Some(request.body["scope"]) else None;
    if !nqschar(raw) then Failure(InvalidArgument(InvalidScopeParameter)) else Success(raw)
  }

  /** A character of the NQSCHAR class of appendix A of RFC 6749 (any printable ASCII but `"` and `\`, or a space). */
  predicate IsNqschar(c: char) {
    c == ' ' || c == '!' || ('#' <= c <= '[') || (']' <= c <= '~')
  }

  /** A non-empty string of NQSCHAR characters: a reference for the unshown `nqschar` validator. */
  predicate NqscharString(s: string) {
    |s| > 0 && forall k :: 0 <= k < |s| ==> IsNqschar(s[k])
  }

  /**
    With a validator that agrees with the RFC 6749 character class, a
    scope holding a double quote is rejected and `read write` is returned
    as given.
   */
  lemma GetScopeWithRfcValidator(nqschar: Option<string> -> bool)
    requires forall s :: nqschar(Some(s)) == NqscharString(s)
    ensures GetScope(Request(map["scope" := "read\"write"]), nqschar)
         == Failure(InvalidArgument(InvalidScopeParameter))
    ensures GetScope(Request(map["scope" := "read write"]), nqschar) == Success(Some("read write"))
  {
    assert !IsNqschar("read\"write"[4]);
  }

  /**
    For every body scope `s`, under a validator that follows the RFC 6749
    character class, `getScope` succeeds exactly when `s` is a non-empty
    string of NQSCHAR characters, and then returns `s` unchanged.
   */
  lemma GetScopeAcceptsExactlyNqscharStrings(s: string, nqschar: Option<string> -> bool)
    requires forall x :: nqschar(Some(x)) == NqscharString(x)
    ensures GetScope(Request(map["scope" := s]), nqschar).Success? <==> NqscharString(s)
    ensures GetScope(Request(map["scope" := s]), nqschar).Success? ==>
              GetScope(Request(map["scope" := s]), nqschar).value == Some(s)
  {
  }

  /**
    `validateScope(user, client, scope)`: the scope unchanged when the
    model cannot validate scopes; otherwise the model's answer, where a
    falsy answer is an invalid-scope error.
   */
  function ValidateScope(g: GrantType, user: Option<User>, client: Client, scope: Scope): (r: Result<Scope, Error>)
    ensures g.model.validateScope.None? ==> r == Success(scope)
    ensures g.model.validateScope.Some? ==>
      var answer := g.model.validateScope.value(user, client, scope);
      && (r.Failure? <==> !Truthy(answer))
      && (r.Failure? ==> r.error == InvalidScope(RequestedScopeInvalid))
      && (r.Success? ==> r.value == answer)
    ensures r.Success? ==> g.model.validateScope.None? || Truthy(r.value)
  {
    match g.model.validateScope
    case None => Success(scope)
    case Some(validate) =>
      var answer := validate(user, client, scope);
      if !Truthy(answer) then Failure(InvalidScope(RequestedScopeInvalid)) else Success(answer)
  }

  /**
    A validator that answers with the scope it was given agrees with
    having no validator for every truthy scope, and turns an absent or
    empty scope, which the pass-through accepts, into an invalid-scope error.
   */
  lemma EchoValidatorAgreesWithPassThrough(g: GrantType, user: Option<User>, client: Client, scope: Scope)
    requires g.model.validateScope.Some?
    requires forall u, c, s :: g.model.validateScope.value(u, c, s) == s
    ensures var passThrough := g.(model := g.model.(validateScope := None));
      && (Truthy(scope) ==> ValidateScope(g, user, client, scope) == ValidateScope(passThrough, user, client, scope))
      && (!Truthy(scope) ==>
            && ValidateScope(g, user, client, scope) == Failure(InvalidScope(RequestedScopeInvalid))
            && ValidateScope(passThrough, user, client, scope) == Success(scope))
  {
  }

  /**
    Refresh tokens follow exactly the access-token rule: generating a
    refresh token is generating an access token with a model whose
    access-token capability is its refresh-token capability.
   */
  lemma RefreshTokenIsAccessTokenRule(g: GrantType, client: Client, user: Option<User>, scope: Scope,
                                      rand: string)
    ensures GenerateRefreshToken(g, client, user, scope, rand)
         == GenerateAccessToken(g.(model := g.model.(generateAccessToken := g.model.generateRefreshToken)),
                                client, user, scope, rand)
  {
  }

  /**
    For every constructed grant type, a refresh expiry exists exactly
    when a refresh lifetime was configured, lies that lifetime after
    `now`, and coincides with the access expiry when both lifetimes agree.
   */
  lemma ConstructedRefreshExpiry(options: Options, now: int)
    requires New(Some(options)).Success?
    ensures var g := New(Some(options)).value;
      && (GetRefreshTokenExpiresAt(g, now).Some? <==> options.refreshTokenLifetime.Some?)
      && (options.refreshTokenLifetime.Some? ==>
            GetRefreshTokenExpiresAt(g, now) == Some(now + options.refreshTokenLifetime.value))
      && (options.refreshTokenLifetime == options.accessTokenLifetime ==>
            GetRefreshTokenExpiresAt(g, now) == Some(GetAccessTokenExpiresAt(g, now)))
  {
  }

  /**
    Whatever the options, a constructed grant type's access tokens expire
    exactly the configured lifetime after `now`, and never at `now` itself.
   */
  lemma ConstructedExpiry(options: Options, now: int)
    requires New(Some(options)).Success?
    ensures GetAccessTokenExpiresAt(New(Some(options)).value, now) == now + options.accessTokenLifetime.value
    ensures GetAccessTokenExpiresAt(New(Some(options)).value, now) != now
  {
  }

  /**
    The refresh expiry has no falsiness guard: a lifetime of 0 yields `now`
    rather than the rejection an access lifetime of 0 meets.
   */
  lemma ZeroRefreshLifetimeAccepted(options: Options, now: int)
    requires options.refreshTokenLifetime == Some(0)
    requires New(Some(options)).Success?
    ensures GetRefreshTokenExpiresAt(New(Some(options)).value, now) == Some(now)
    ensures New(Some(options.(accessTokenLifetime := Some(0)))).Failure?
  {
  }

  /**
    On the model-override path the OpenID configuration is never
    consulted: replacing it changes nothing.
   */
  lemma ModelOverrideIgnoresOpenIdConfig(g: GrantType, cfg: OpenIdConfig, client: Client,
                                         user: Option<User>, scope: Scope, sign: Signer)
    requires g.model.generateIdToken.Some?
    ensures GenerateIdToken(g, client, user, scope, sign)
         == GenerateIdToken(g.(options := g.options.(openid := cfg)), client, user, scope, sign)
  {
  }

  /**
    An ID token (from the model or the signer) is only ever returned for
    a truthy scope containing `openid` and a present user with a client id.
   */
  lemma IdTokenNeedsOpenIdUserAndClient(g: GrantType, client: Client, user: Option<User>,
                                        scope: Scope, sign: Signer)
    requires GenerateIdToken(g, client, user, scope, sign).Success?
    requires GenerateIdToken(g, client, user, scope, sign).value.Some?
    ensures Truthy(scope) && Includes(scope.value, OpenIdScope)
    ensures user.Some? && Truthy(client.id)
  {
  }

  /** Listing `openid` among the space-separated scope values passes the scope gate. */
  lemma {:induction false} OpenIdValuePassesGate(scope: string)
    requires OpenIdScope in SplitOnSpace(scope)
    ensures AsksForIdToken(Some(scope))
  {
    WordIsIncluded(scope, OpenIdScope);
  }
}
