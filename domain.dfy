/** Entities shared by the two services: the rows of the user and token
    tables, the service interfaces `Tokens` and `JwtPayload`, the partial user
    handed to `UserService.create`, the advisory cache's values and the
    outcomes of the foreign primitives. */
module Domain {

  datatype Option<+T> = None | Some(value: T)

  /** The outcome of a service call: a value, or the exception it raises. */
  datatype Result<+T, +E> = Ok(value: T) | Err(error: E)

  type UserId = int

  /** A bcrypt digest; the model never looks inside it. */
  type Digest = string

  datatype Role = USER | ADMIN

  datatype Provider = GOOGLE | YANDEX

  /** A row of the user table. `password` is null for accounts created through a provider. */
  datatype User = User(
    id: UserId,
    email: string,
    password: Option<Digest>,
    provider: Option<Provider>,
    roles: seq<Role>)

  /** A row of the refresh-token table; `exp` is an instant on an integer clock. */
  datatype Token = Token(token: string, exp: int, userId: UserId, userAgent: string)

  /** The claims signed into an access token. */
  datatype JwtPayload = JwtPayload(id: UserId, email: string, roles: seq<Role>)

  /** What a login or a refresh hands back: the access token and the refresh-token row. */
  datatype Tokens = Tokens(accessToken: string, refreshToken: Token)

  /** The partial user that `create` receives: an email, maybe a plaintext password, maybe a provider. */
  datatype Payload = Payload(email: string, password: Option<string>, provider: Option<Provider>)

  /** The cache stores either the payload `create` was called with or a user row read by `findOne`. */
  datatype CacheValue = CachedPayload(payload: Payload) | CachedUser(user: User)

  /** What hashing the payload's password came to: a digest, nothing at all, or a rejection. */
  datatype HashOutcome = Hashed(digest: Digest) | NoDigest | HashFailed

  /** The exceptions the services raise. `RecordNotFound` is the store's own error
      for a `delete` whose row is absent; `HashError` is a rejected hash. */
  datatype Failure =
    | Internal
    | Conflict
    | Unauthorized
    | BadRequest
    | NotFound
    | Forbidden
    | RecordNotFound
    | HashError

  /** `add(now, { months: 1 })` is left abstract: any function that moves every instant forward. */
  type Later = f: int -> int | forall t :: f(t) > t witness t => t + 1

  function ClaimsOf(u: User): JwtPayload {
    JwtPayload(u.id, u.email, u.roles)
  }

  function RoleName(r: Role): string {
    match r
    case USER => "USER"
    case ADMIN => "ADMIN"
  }

  /** The role a request names, if the name is one of the enumeration's members. */
  function RoleNamed(name: string): (r: Option<Role>)
    ensures r.Some? ==> RoleName(r.value) == name
    ensures r.None? ==> forall role: Role :: RoleName(role) != name
  {
    if name == "USER" then Some(USER)
    else if name == "ADMIN" then Some(ADMIN)
    else None
  }
}
