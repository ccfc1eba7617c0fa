/**
  The entities the token-issuance code passes around: the client, the
  resource owner, the scope, the OpenID Connect configuration, the typed
  errors it throws, and the host-supplied model whose optional
  capabilities override token generation and scope validation.
 */
module OAuthTypes {
  import opened JsValues

  /** The error classes the core throws, each carrying its message. */
  datatype Error =
    | InvalidArgument(message: string)
    | ServerError(message: string)
    | InvalidScope(message: string)
      /** A failure raised by the JWT signer (bad key or algorithm), passed through unchanged. */
    | SigningError(message: string)

  /** An authenticated client; only its `id` is read. */
  datatype Client = Client(id: Option<string>)

  /**
    A resource owner. `uid` is kept in its string form; the remaining
    fields of the record become claims of a signed ID token.
   */
  datatype User = User(uid: Option<string>, claims: map<string, string>)

  /** A requested or granted scope string, possibly absent. */
  type Scope = Option<string>

  /** The `openidAlgorithm`, `openidIssuer` and `openidPrivateKey` options. */
  datatype OpenIdConfig = OpenIdConfig(
    algorithm: Option<string>,
    issuer: Option<string>,
    privateKey: Option<string>)

  /** The options object handed to the JWT signer. */
  datatype SignOptions = SignOptions(
    algorithm: string,
    expiresIn: string,
    audience: string,
    issuer: string,
    subject: string)

  /**
    The JWT signer `sign(payload, privateKey, options)`, which the core
    calls but does not implement; it returns the compact token or throws.
   */
  type Signer = (User, Option<string>, SignOptions) -> Result<string, Error>

  /**
    A model token generator called with `(client, user, scope)`; its
    result may be absent or empty.
   */
  type TokenCapability = (Client, Option<User>, Scope) -> Option<string>

  /** The model's scope validator, called with `(user, client, scope)`. */
  type ScopeCapability = (Option<User>, Client, Scope) -> Option<string>

  /** The host-supplied model; every capability is optional. */
  datatype Model = Model(
    generateAccessToken: Option<TokenCapability>,
    generateRefreshToken: Option<TokenCapability>,
    generateIdToken: Option<TokenCapability>,
    validateScope: Option<ScopeCapability>)

  /** The lifetime every signed ID token is given. */
  const IdTokenExpiresIn := "7d"

  /** The scope value that asks for an ID token. */
  const OpenIdScope := "openid"

  const MissingClientId := "Missing parameter: `client.id`"
  const MissingAlgorithm := "Missing parameter: `openidAlgorithm`"
  const MissingIssuer := "Missing parameter: `openidIssuer`"
  const UserNotInstance := "Server error: `user` must be a User instance"

  /**
    `'' + user.uid`: the string form of the user's identifier; an absent
    (`undefined`) uid becomes `"undefined"`.
   */
  function Subject(user: User): string {
    match user.uid
    case Some(uid) => uid
    case None => "undefined"
  }

  /**
    The signer options both ID-token paths build: the configured
    algorithm, a seven-day expiry, the client as audience, the configured
    issuer and the user as subject (the `aud`, `iss`, `sub` and `exp`
    claims of section 2 of OpenID Connect Core 1.0).
   */
  function IdTokenSignOptions(algorithm: string, client: string, issuer: string, user: User): SignOptions {
    SignOptions(algorithm, IdTokenExpiresIn, client, issuer, Subject(user))
  }

  /** A signer's outcome as the value an ID-token operation returns. */
  function SignedToken(r: Result<string, Error>): (t: Result<Option<string>, Error>)
    ensures t.Success? <==> r.Success?
    ensures r.Success? ==> t.value == Some(r.value)
    ensures r.Failure? ==> t.error == r.error
  {
    match r
    case Success(token) => Success(Some(token))
    case Failure(e) => Failure(e)
  }
}
