/**
  The ID-token response type: given an authorization code it signs an ID
  token immediately, with the OpenID configuration passed in and no model
  override, and later attaches that token to a redirect URI's query.

  URL parsing is the parameter `parse`; the parsed URI is a record whose
  query is a map, and serialising it back to a string is the caller's job.
 */
module IdTokenResponseType {
  import opened JsValues
  import opened OAuthTypes

  /** A constructed response type: the ID token it signed, or `None` (`null`). */
  datatype ResponseType = ResponseType(idToken: Option<string>)

  /**
    A parsed URI with its query parsed into a map. Query values are
    optional because the ID token put there may be `null`; `search` is
    the raw query string that serialisation prefers when present.
   */
  datatype Uri = Uri(
    protocol: Option<string>,
    host: Option<string>,
    pathname: Option<string>,
    hash: Option<string>,
    search: Option<string>,
    query: map<string, Option<string>>)

  const MissingCode := "Missing parameter: `code`"
  const MissingRedirectUri := "Missing parameter: `redirectUri`"
  const IdTokenParameter := "id_token"

  /**
    The scope gate of `signIdToken`: only a truthy scope lacking `openid`
    stops signing. An absent or empty scope goes on to the checks.
   */
  predicate DeclinesIdToken(scope: Scope) {
    Truthy(scope) && !Includes(scope.value, OpenIdScope)
  }

  /**
    `signIdToken(client, user, scope, options)`. `Success(None)` is the
    source's `null`: not applicable, and no error.
   */
  function SignIdToken(client: Client, user: Option<User>, scope: Scope, cfg: OpenIdConfig,
                       sign: Signer): (r: Result<Option<string>, Error>)
    ensures DeclinesIdToken(scope) ==> r == Success(None)
    ensures !DeclinesIdToken(scope) ==>
      && (user.None? ==> r == Failure(ServerError(UserNotInstance)))
      && (user.Some? && !Truthy(client.id) ==> r == Failure(InvalidArgument(MissingClientId)))
      && (user.Some? && Truthy(client.id) && !Truthy(cfg.algorithm) ==>
            r == Failure(InvalidArgument(MissingAlgorithm)))
      && (user.Some? && Truthy(client.id) && Truthy(cfg.algorithm) && !Truthy(cfg.issuer) ==>
            r == Failure(InvalidArgument(MissingIssuer)))
      && (user.Some? && Truthy(client.id) && Truthy(cfg.algorithm) && Truthy(cfg.issuer) ==>
            var signed := sign(user.value, cfg.privateKey,
                               SignOptions(cfg.algorithm.value, IdTokenExpiresIn, client.id.value,
                                           cfg.issuer.value, Subject(user.value)));
            (signed.Success? ==> r == Success(Some(signed.value)))
            && (signed.Failure? ==> r == Failure(signed.error)))
    // the only way to get no token without an error is the scope gate
    ensures r == Success(None) ==> DeclinesIdToken(scope)
  {
    if DeclinesIdToken(scope) then
      Success(None)
    else if user.None? then
      Failure(ServerError(UserNotInstance))
    else if !Truthy(client.id) then
      Failure(InvalidArgument(MissingClientId))
    else if !Truthy(cfg.algorithm) then
      Failure(InvalidArgument(MissingAlgorithm))
    else if !Truthy(cfg.issuer) then
      Failure(InvalidArgument(MissingIssuer))
    else
      SignedToken(sign(user.value, cfg.privateKey,
                       IdTokenSignOptions(cfg.algorithm.value, client.id.value, cfg.issuer.value, user.value)))
  }

  /**
    The constructor: a falsy code is rejected before anything is signed;
    otherwise the ID token is signed eagerly and any signing error aborts
    construction.
   */
  function New(code: Option<string>, client: Client, user: Option<User>, scope: Scope,
               cfg: OpenIdConfig, sign: Signer): (r: Result<ResponseType, Error>)
    ensures !Truthy(code) ==> r == Failure(InvalidArgument(MissingCode))
    ensures Truthy(code) ==>
      var signed := SignIdToken(client, user, scope, cfg, sign);
      && (r.Success? <==> signed.Success?)
      && (r.Success? ==> r.value.idToken == signed.value)
      && (r.Failure? ==> r.error == signed.error)
  {
    if !Truthy(code) then
      Failure(InvalidArgument(MissingCode))
    else
      match SignIdToken(client, user, scope, cfg, sign)
      case Success(token) => Success(ResponseType(token))
      case Failure(e) => Failure(e)
  }

  /**
    Sets the `id_token` query parameter of a parsed URI and clears its
    cached query string; nothing else about the URI changes.
   */
  function WithIdToken(uri: Uri, idToken: Option<string>): (u: Uri)
    ensures IdTokenParameter in u.query && u.query[IdTokenParameter] == idToken
    ensures u.query.Keys == uri.query.Keys + {IdTokenParameter}
    ensures forall k :: k in uri.query && k != IdTokenParameter ==> u.query[k] == uri.query[k]
    ensures u.search == None
    ensures u.(search := uri.search, query := uri.query) == uri
  {
    uri.(query := uri.query[IdTokenParameter := idToken], search := None)
  }

  /**
    `buildRedirectUri(redirectUri)`: a falsy URI is rejected; otherwise
    the parsed URI carries this response type's ID token in its query.
   */
  function BuildRedirectUri(rt: ResponseType, redirectUri: Option<string>,
                            parse: string -> Uri): (r: Result<Uri, Error>)
    ensures r.Failure? <==> !Truthy(redirectUri)
    ensures r.Failure? ==> r.error == InvalidArgument(MissingRedirectUri)
    ensures r.Success? ==>
      var parsed := parse(redirectUri.value);
      && r.value.query == parsed.query[IdTokenParameter := rt.idToken]
      && r.value.search == None
      && r.value.(search := parsed.search, query := parsed.query) == parsed
  {
    if !Truthy(redirectUri) then
      Failure(InvalidArgument(MissingRedirectUri))
    else
      Success(WithIdToken(parse(redirectUri.value), rt.idToken))
  }

  /** Setting the ID token twice is the same as setting the last one once. */
  lemma WithIdTokenOverwrites(uri: Uri, first: Option<string>, second: Option<string>)
    ensures WithIdToken(WithIdToken(uri, first), second) == WithIdToken(uri, second)
  {
  }

  /**
    End to end: a response type built with a code yields redirect URIs
    whose `id_token` is exactly the token `signIdToken` produced, while
    every other query parameter is kept.
   */
  lemma RedirectCarriesSignedToken(code: Option<string>, client: Client, user: Option<User>, scope: Scope,
                                   cfg: OpenIdConfig, sign: Signer, redirectUri: string,
                                   parse: string -> Uri)
    requires New(code, client, user, scope, cfg, sign).Success?
    requires redirectUri != ""
    ensures var built := BuildRedirectUri(New(code, client, user, scope, cfg, sign).value, Some(redirectUri), parse);
      && built.Success?
      && built.value.query[IdTokenParameter] == SignIdToken(client, user, scope, cfg, sign).value
      && (forall k :: k in parse(redirectUri).query && k != IdTokenParameter ==>
            k in built.value.query && built.value.query[k] == parse(redirectUri).query[k])
  {
  }

  /**
    The example of a callback `https://cb.example/cb?x=1` whose query
    parses to `{x: "1"}`: after signing `abc` the query is
    `{x: "1", id_token: "abc"}`.
   */
  lemma CallbackExample(parse: string -> Uri)
    requires parse("https://cb.example/cb?x=1").query == map["x" := Some("1")]
    ensures var built := BuildRedirectUri(ResponseType(Some("abc")), Some("https://cb.example/cb?x=1"), parse);
      built.Success? && built.value.query == map["x" := Some("1"), IdTokenParameter := Some("abc")]
  {
  }
}
