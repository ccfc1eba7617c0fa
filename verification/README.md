# Token issuance of an OAuth2 / OpenID Connect server, in Dafny

This project models the token-issuance decisions of an OAuth2 / OpenID
Connect authorization server written in JavaScript. It covers two parts.

- **The abstract grant type** is the base of every grant type. Its
  constructor checks the configuration. It generates access and refresh
  tokens: the host model's token if the model has that capability and
  returns a non-empty token, a random token otherwise. It decides whether
  and how to mint an OpenID Connect ID token, computes token expiry, and
  reads and validates the requested scope.
- **The ID-token response type** is a second, model-free copy of the
  ID-token decision chain. It signs the ID token eagerly when it is built
  from an authorization code, and it puts that token into the `id_token`
  query parameter of a parsed redirect URI.

Everything is a pure function over immutable datatypes. The pieces the
code calls but does not own are parameters:

- the clock is `now: int` (seconds);
- the random opaque token is `rand: string`;
- the JWT signer is `sign: Signer`, a function of the payload, private key
  and signer options that returns a token or an error, so contracts can
  say exactly which arguments it receives;
- the `nqschar` scope validator is a predicate parameter;
- URL parsing is `parse: string -> Uri`;
- each model capability is an optional function field of `Model`.

JavaScript falsiness is explicit. A string value is truthy when present
and non-empty (`Truthy`). A number is truthy when present and non-zero
(`TruthyNumber`). `scope.includes('openid')` is substring containment
(`Includes`), not membership of a space-separated value. `WordIsIncluded`
proves that listing `openid` as a value passes that test.
`SubstringWithoutWord` shows the converse fails: the scope `openidx`
passes too.

Files:

- `js_values.dfy`: Option/Result, truthiness, `Includes`, splitting on spaces.
- `oauth_types.dfy`: client, user, scope, model capabilities, errors, signer options.
- `abstract_grant_type.dfy`: the abstract grant type.
- `id_token_response_type.dfy`: the ID-token response type and redirect URI.
- `id_token_paths.dfy`: how the two ID-token chains agree and where they differ.

## Model

| member | source | states |
|---|---|---|
| JsValues.Includes | lib/grant-types/abstract-grant-type.js:65 | `scope.includes('openid')` holds exactly when `openid` occurs as a contiguous substring at some index of the scope |
| JsValues.WordIsIncluded | lib/grant-types/abstract-grant-type.js:65 | every space-separated value of a scope is a substring of it, so a scope listing `openid` passes the includes test |
| JsValues.SubstringWithoutWord | lib/response-types/id-token-response-type.js:54 | the includes test is weaker than value membership: `openidx` contains `openid` without listing it |
| AbstractGrantType.New | lib/grant-types/abstract-grant-type.js:19-35 | construction fails with InvalidArgument for a falsy (absent or 0) access lifetime, checked before the model; then fails for a missing model; otherwise it stores lifetimes, model, flag and options exactly as given, with a non-zero access lifetime |
| AbstractGrantType.GenerateAccessToken | lib/grant-types/abstract-grant-type.js:41-50 | the random token when the model has no access-token capability; the model's token whenever it returns a truthy one; the random token when it returns an absent or empty one; hence never empty when the random token is non-empty |
| AbstractGrantType.GenerateRefreshToken | lib/grant-types/abstract-grant-type.js:111-120 | the random token without a refresh-token capability; the model's truthy token when it returns one, else the random token; hence never empty when the random token is non-empty |
| AbstractGrantType.GenerateIdToken | lib/grant-types/abstract-grant-type.js:56-105 | no token and no error for a falsy scope or one without `openid`; then ServerError for a missing user and InvalidArgument for a missing client id, both before the model override; the model's result verbatim when it overrides; else InvalidArgument for missing algorithm, then issuer; else the signer's result for payload = user, key = configured key, options = algorithm, `7d`, audience = client id, issuer, subject = string form of uid |
| AbstractGrantType.GetAccessTokenExpiresAt | lib/grant-types/abstract-grant-type.js:126-132 | on the model's integer clock, the expiry lies the access lifetime after `now` |
| AbstractGrantType.GetRefreshTokenExpiresAt | lib/grant-types/abstract-grant-type.js:138-144 | on the model's integer clock, the expiry lies the refresh lifetime after `now`; without a refresh lifetime there is no valid date |
| AbstractGrantType.GetScope | lib/grant-types/abstract-grant-type.js:150-156 | the body's scope is returned unchanged exactly when the validator accepts it; otherwise InvalidArgument |
| AbstractGrantType.ValidateScope | lib/grant-types/abstract-grant-type.js:161-174 | scope unchanged without a validation capability; InvalidScope exactly when the model's answer is falsy; otherwise the model's answer |
| AbstractGrantType.GetScopeAcceptsExactlyNqscharStrings | lib/grant-types/abstract-grant-type.js:150-156 | for every body scope, under a validator following the NQSCHAR class of appendix A of RFC 6749, the scope is returned unchanged exactly when it is a non-empty NQSCHAR string |
| AbstractGrantType.EchoValidatorAgreesWithPassThrough | lib/grant-types/abstract-grant-type.js:161-174 | a model validator that answers with its input agrees with having no validator on every truthy scope, and rejects an absent or empty scope that the pass-through accepts |
| AbstractGrantType.RefreshTokenIsAccessTokenRule | lib/grant-types/abstract-grant-type.js:111-120 | for all inputs, refresh-token generation equals access-token generation with the refresh capability in the access capability's place |
| AbstractGrantType.ConstructedRefreshExpiry | lib/grant-types/abstract-grant-type.js:138-144 | for every constructed grant type, a refresh expiry exists exactly when a refresh lifetime was configured, is `now` plus that lifetime, and equals the access expiry when the lifetimes agree |
| AbstractGrantType.ConstructedExpiry | lib/grant-types/abstract-grant-type.js:21-29 | on the model's integer clock, a successfully constructed grant type's access tokens expire `now` plus the configured lifetime, never at `now` |
| AbstractGrantType.ZeroRefreshLifetimeAccepted | lib/grant-types/abstract-grant-type.js:138-144 | a refresh lifetime of 0 is not guarded and yields `now`, while an access lifetime of 0 is rejected at construction |
| AbstractGrantType.ModelOverrideIgnoresOpenIdConfig | lib/grant-types/abstract-grant-type.js:78-92 | with a model override, replacing the OpenID algorithm/issuer/key configuration never changes the ID-token outcome |
| AbstractGrantType.IdTokenNeedsOpenIdUserAndClient | lib/grant-types/abstract-grant-type.js:65-75 | an ID token is only returned for a truthy scope containing `openid`, a present user and a truthy client id |
| AbstractGrantType.OpenIdValuePassesGate | lib/grant-types/abstract-grant-type.js:65 | a scope listing the value `openid` passes the ID-token scope gate |
| AbstractGrantType.GetScopeWithRfcValidator | lib/grant-types/abstract-grant-type.js:150-156 | with a validator following the NQSCHAR class of appendix A of RFC 6749, a scope with a double quote is rejected and `read write` is accepted |
| IdTokenResponseType.SignIdToken | lib/response-types/id-token-response-type.js:46-83 | no token only for a truthy scope lacking `openid`; a falsy scope goes on; then ServerError for a missing user, InvalidArgument for client id, algorithm, issuer in that order; else the signer's result for payload = user and the same options as the grant type |
| IdTokenResponseType.New | lib/response-types/id-token-response-type.js:17-26 | InvalidArgument for a falsy code before any signing; otherwise the stored token is exactly the result of `signIdToken`, whose error aborts construction |
| IdTokenResponseType.WithIdToken | lib/response-types/id-token-response-type.js:40-41 | the query's `id_token` becomes the token, every other query entry is kept, no key is dropped, `search` is cleared, nothing else changes |
| IdTokenResponseType.BuildRedirectUri | lib/response-types/id-token-response-type.js:32-44 | InvalidArgument exactly for a falsy redirect URI; otherwise the parsed URI with `id_token` set to the stored token and `search` cleared |
| IdTokenResponseType.WithIdTokenOverwrites | lib/response-types/id-token-response-type.js:40 | setting `id_token` overwrites any earlier value: setting twice equals setting the last once |
| IdTokenResponseType.RedirectCarriesSignedToken | lib/response-types/id-token-response-type.js:22-41 | the redirect URI of a constructed response type carries exactly the token `signIdToken` produced (even `null`) and keeps every other query parameter |
| IdTokenResponseType.CallbackExample | lib/response-types/id-token-response-type.js:32-44 | a callback whose query is `{x: "1"}` gets the query `{x: "1", id_token: "abc"}` after signing `abc` |
| IdTokenPaths.PathsAgreeOnTruthyScope | lib/response-types/id-token-response-type.js:54-82 | with a truthy scope and no model override, the two ID-token chains give the same token or the same error |
| IdTokenPaths.PathsDivergeOnFalsyScope | lib/response-types/id-token-response-type.js:54-56 | with a falsy scope the grant type gives no token, while the response type still reports a missing user as ServerError and signs a complete configuration |
| IdTokenPaths.ProfileScopeGivesNoToken | lib/grant-types/abstract-grant-type.js:65-67 | the scope `profile` gives no ID token on either path, whatever the user, client and configuration |
| IdTokenPaths.OpenIdProfileScopeIsSigned | lib/grant-types/abstract-grant-type.js:94-104 | the scope `openid profile` reaches the signer on both paths with the user as payload, a `7d` expiry, the client as audience, the issuer and the uid as subject |
| IdTokenPaths.MissingUserBeatsModelOverride | lib/grant-types/abstract-grant-type.js:69-83 | an `openid` scope without a user is a ServerError even when the model overrides ID-token generation |

## Left out

- Random token generation (256 random bytes hashed with SHA-1 to 40 hex characters, lib/utils/token-util.js) is the parameter `rand`. Its format and uniqueness are not modelled.
- JWT signing (lib/utils/token-util.js) is the parameter `sign`. What it does with the payload and options is not modelled. Its failures are passed through as `SigningError` or whatever error it returns.
- Promises and callback adaptation are flattened. Each model capability is a plain function returning its eventual value, and a rejected promise is not modelled.
- URL parsing and re-serialisation are the parameter `parse` and the `Uri` record. Repeated query keys, which parse to arrays, are not modelled.
- The `nqschar` validator is not part of this model. It is the predicate parameter of `GetScope`. `NqscharString` is a reference definition from RFC 6749. The lemmas that use it assume a validator that agrees with it.
- The wall clock is the integer `now` in seconds. Millisecond carry-over of `Date` is ignored.
- AbstractGrantType.GetAccessTokenExpiresAt and AbstractGrantType.GetRefreshTokenExpiresAt: the source adds the lifetime with `setSeconds(getSeconds() + lifetime)`, which works on local-time fields. The resulting instant therefore shifts by any change of UTC offset in between, such as a daylight-saving transition. A result outside `Date`'s range of ±8.64e15 ms is an Invalid Date. The model's `now + lifetime` is exact and unbounded and ignores both effects.
- AbstractGrantType.GetRefreshTokenExpiresAt: `None` stands for an `undefined` refresh lifetime, for which the source yields an invalid (NaN) `Date`; the model returns `None` rather than a date value. A `null` lifetime is not modelled: in the source `getSeconds() + null` is `getSeconds()`, so it gives `now`.
- Values of other JavaScript types are not modelled. Scopes, codes, client ids, tokens and configuration strings are optional strings. Lifetimes are optional integers, so a `NaN` or string lifetime is not covered. A user's `uid` is kept in its string form. `None` stands for an `undefined` uid and gives the subject `"undefined"`. A `null` uid, which the source turns into the subject `"null"`, is not distinguished.
- An absent `client` is not modelled: `Client` is a required argument. The capability calls pass the client to the model unchanged, and the ID-token chains throw a TypeError at `client.id` only after the scope and user checks. An absent `options` given to `signIdToken` throws a TypeError at once and is not modelled either: `OpenIdConfig` is a required argument.
- The source distinguishes `undefined` (grant type) from `null` (response type) for "no ID token". Both are `None` here, and so is an `undefined` returned by a model override.
- Error classes are reduced to a kind and the source's message. Codes and stack traces are not modelled.
