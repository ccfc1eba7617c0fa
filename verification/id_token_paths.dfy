/**
  The grant type's `generateIdToken` and the response type's
  `signIdToken` are two copies of one decision chain. They agree whenever
  the scope is truthy and the model does not override ID tokens, and
  differ on an absent or empty scope, which only the grant type treats
  as "no token".
 */
module IdTokenPaths {
  import opened JsValues
  import opened OAuthTypes
  import AbstractGrantType
  import IdTokenResponseType

  /**
    With a truthy scope and no model override, the two copies give the
    same outcome: the same token, or the same error.
   */
  lemma PathsAgreeOnTruthyScope(g: AbstractGrantType.GrantType, client: Client, user: Option<User>,
                                scope: Scope, sign: Signer)
    requires Truthy(scope)
    requires g.model.generateIdToken.None?
    ensures AbstractGrantType.GenerateIdToken(g, client, user, scope, sign)
         == IdTokenResponseType.SignIdToken(client, user, scope, g.options.openid, sign)
  {
  }

  /**
    With an absent or empty scope the grant type returns no token at
    all, while the response type runs the full chain: a missing user is
    a server error there, and a complete configuration is signed.
   */
  lemma PathsDivergeOnFalsyScope(g: AbstractGrantType.GrantType, client: Client, user: Option<User>,
                                 scope: Scope, sign: Signer)
    requires !Truthy(scope)
    ensures AbstractGrantType.GenerateIdToken(g, client, user, scope, sign) == Success(None)
    ensures user.None? ==>
      IdTokenResponseType.SignIdToken(client, user, scope, g.options.openid, sign)
        == Failure(ServerError(UserNotInstance))
    ensures var cfg := g.options.openid;
      user.Some? && Truthy(client.id) && Truthy(cfg.algorithm) && Truthy(cfg.issuer)
      && sign(user.value, cfg.privateKey,
              IdTokenSignOptions(cfg.algorithm.value, client.id.value, cfg.issuer.value, user.value)).Success?
      ==> IdTokenResponseType.SignIdToken(client, user, scope, cfg, sign).Success?
          && IdTokenResponseType.SignIdToken(client, user, scope, cfg, sign).value.Some?
  {
  }

  /** A scope of `profile` yields no ID token on either path, whatever else is given. */
  lemma ProfileScopeGivesNoToken(g: AbstractGrantType.GrantType, client: Client, user: Option<User>,
                                 cfg: OpenIdConfig, sign: Signer)
    ensures AbstractGrantType.GenerateIdToken(g, client, user, Some("profile"), sign) == Success(None)
    ensures IdTokenResponseType.SignIdToken(client, user, Some("profile"), cfg, sign) == Success(None)
  {
    // only two windows of six letters: "profil" and "rofile"
    assert "profile"[..6][0] == 'p' && "profile"[1..][..6][0] == 'r';
    assert !Includes("profile", OpenIdScope);
  }

  /**
    A scope of `openid profile` with a user, a client id and a complete
    configuration reaches the signer on both paths, with the user as
    payload, the client as audience, the configured issuer, the user's
    uid as subject and a seven-day expiry.
   */
  lemma {:induction false} OpenIdProfileScopeIsSigned(g: AbstractGrantType.GrantType, client: Client, user: User,
                                                      sign: Signer)
    requires g.model.generateIdToken.None?
    requires Truthy(client.id)
    requires Truthy(g.options.openid.algorithm) && Truthy(g.options.openid.issuer)
    ensures var cfg := g.options.openid;
      var expected := SignedToken(sign(user, cfg.privateKey,
                                       SignOptions(cfg.algorithm.value, "7d", client.id.value,
                                                   cfg.issuer.value, Subject(user))));
      && AbstractGrantType.GenerateIdToken(g, client, Some(user), Some("openid profile"), sign) == expected
      && IdTokenResponseType.SignIdToken(client, Some(user), Some("openid profile"), cfg, sign) == expected
  {
    IncludesInfix("", OpenIdScope, " profile");
    assert "" + OpenIdScope + " profile" == "openid profile";
  }

  /**
    The user check precedes the model override: with an `openid` scope
    and no user, the grant type fails with a server error even when the
    model would generate the ID token itself.
   */
  lemma MissingUserBeatsModelOverride(g: AbstractGrantType.GrantType, client: Client, sign: Signer)
    requires g.model.generateIdToken.Some?
    ensures AbstractGrantType.GenerateIdToken(g, client, None, Some("openid"), sign)
         == Failure(ServerError(UserNotInstance))
  {
    IncludesInfix("", OpenIdScope, "");
    assert "" + OpenIdScope + "" == "openid";
  }
}
