/** The authentication service: registration, password and provider login,
    token issue, single-use refresh and logout, over the user store of
    `Users` and the refresh-token table keyed by token value. As in `Users`,
    each operation has a specification function `...Effect` and the class
    `AuthService` is proved to have exactly that effect.

    The foreign primitives stay abstract: `sign` (the JWT signer) and
    `compare` (bcrypt's verification) are function-valued constants of the
    service, `addMonth` is any function that moves time forward, and the
    clock reading `now`, the value `uuid` that `v4` returns, the id
    `freshId` the user table assigns and the outcome `hashed` of bcrypt's
    `hash` are parameters of the calls that use them. */
module Auth {
  import opened Domain
  import opened CacheKeys
  import opened Users

  /** The whole database the service sees: users, cache and refresh tokens. */
  datatype Db = Db(store: Store, tokens: map<string, Token>)

  /** A new database and what the call returned (or raised). */
  datatype Step<+T> = Step(db: Db, result: T)

  /** Rows sit under their own token value, and no token value is empty. */
  ghost predicate TokensWellFormed(tokens: map<string, Token>) {
    forall k :: k in tokens ==> tokens[k].token == k && k != ""
  }

  /** At most one row per (user, user agent): one session per device. */
  ghost predicate OneSessionPerDevice(tokens: map<string, Token>) {
    forall a, b ::
      (a in tokens && b in tokens && tokens[a].userId == tokens[b].userId &&
       tokens[a].userAgent == tokens[b].userAgent) ==> a == b
  }

  ghost predicate DbValid(db: Db) {
    StoreValid(db.store) && TokensWellFormed(db.tokens) && OneSessionPerDevice(db.tokens)
  }

  /** A value `v4` may return: not empty and not yet a token value. */
  ghost predicate FreshValue(tokens: map<string, Token>, v: string) {
    v != "" && v !in tokens
  }

  ghost predicate IsSessionOf(tokens: map<string, Token>, k: string, userId: UserId, agent: string) {
    k in tokens && tokens[k].userId == userId && tokens[k].userAgent == agent
  }

  /** `findFirst({ where: { userId, userAgent } })`: the token value of that device's session, if any. */
  ghost function SessionFor(tokens: map<string, Token>, userId: UserId, agent: string): (k: Option<string>)
    ensures k.Some? <==> exists t :: IsSessionOf(tokens, t, userId, agent)
    ensures k.Some? ==> IsSessionOf(tokens, k.value, userId, agent)
  {
    if exists t :: IsSessionOf(tokens, t, userId, agent) then
      var t :| IsSessionOf(tokens, t, userId, agent);
      Some(t)
    else
      None
  }

  /** With one session per device, any session of the device is the one `SessionFor` finds. */
  lemma SessionForFinds(tokens: map<string, Token>, k: string, userId: UserId, agent: string)
    requires OneSessionPerDevice(tokens) && IsSessionOf(tokens, k, userId, agent)
    ensures SessionFor(tokens, userId, agent) == Some(k)
  {
  }

  /** Rewriting a device's session under a new value keeps one session per device. */
  lemma RotationKeepsOneSessionPerDevice(tokens: map<string, Token>, k: string, row: Token)
    requires OneSessionPerDevice(tokens) && k in tokens && row.token !in tokens
    requires row.userId == tokens[k].userId && row.userAgent == tokens[k].userAgent
    ensures OneSessionPerDevice((tokens - {k})[row.token := row])
  {
  }

  /** Adding the first session of a device keeps one session per device. */
  lemma CreationKeepsOneSessionPerDevice(tokens: map<string, Token>, row: Token)
    requires OneSessionPerDevice(tokens) && row.token !in tokens
    requires SessionFor(tokens, row.userId, row.userAgent).None?
    ensures OneSessionPerDevice(tokens[row.token := row])
  {
    var t := tokens[row.token := row];
    forall a, b | a in t && b in t && t[a].userId == t[b].userId && t[a].userAgent == t[b].userAgent
      ensures a == b
    {
      assert a == row.token && b != row.token ==> IsSessionOf(tokens, b, row.userId, row.userAgent);
      assert b == row.token && a != row.token ==> IsSessionOf(tokens, a, row.userId, row.userAgent);
    }
  }

  /** Whether a login password is accepted for `u`: the stored digest must be
      present and non-empty (an empty string is falsy) and bcrypt must agree. */
  predicate PasswordAccepted(u: User, password: string, compare: (string, Digest) -> bool) {
    u.password.Some? && u.password.value != "" && compare(password, u.password.value)
  }

  /** `getRefreshToken(userId, agent)`: rewrite the device's session in place with
      a fresh value and a new expiry, or create one when there is none. */
  ghost function GetRefreshTokenEffect(db: Db, userId: UserId, agent: string, now: int, uuid: string, addMonth: Later)
    : (o: Step<Token>)
    requires DbValid(db) && FreshValue(db.tokens, uuid)
    ensures DbValid(o.db) && o.db.store == db.store
    ensures o.result == Token(uuid, addMonth(now), userId, agent) && o.result.exp > now
    ensures uuid in o.db.tokens && o.db.tokens[uuid] == o.result
    ensures SessionFor(o.db.tokens, userId, agent) == Some(uuid)
    ensures forall k :: k in db.tokens && !IsSessionOf(db.tokens, k, userId, agent) ==>
      k in o.db.tokens && o.db.tokens[k] == db.tokens[k]
    ensures SessionFor(db.tokens, userId, agent).Some? ==>
      o.db.tokens.Keys == db.tokens.Keys - {SessionFor(db.tokens, userId, agent).value} + {uuid}
    ensures SessionFor(db.tokens, userId, agent).None? ==>
      o.db.tokens.Keys == db.tokens.Keys + {uuid}
  {
    var exp := addMonth(now);
    var found := SessionFor(db.tokens, userId, agent);
    if found.Some? && found.value != "" then
      var row := db.tokens[found.value].(token := uuid, exp := exp);
      var tokens := (db.tokens - {found.value})[uuid := row];
      RotationKeepsOneSessionPerDevice(db.tokens, found.value, row);
      SessionForFinds(tokens, uuid, userId, agent);
      Step(db.(tokens := tokens), row)
    else
      var row := Token(uuid, exp, userId, agent);
      var tokens := db.tokens[uuid := row];
      CreationKeepsOneSessionPerDevice(db.tokens, row);
      SessionForFinds(tokens, uuid, userId, agent);
      Step(db.(tokens := tokens), row)
  }

  /** The access token: `"Bearer "` followed by the signature of the user's claims. */
  function AccessToken(sign: JwtPayload -> string, u: User): (t: string)
    ensures |t| >= 7 && t[..7] == "Bearer "
    ensures t[7..] == sign(JwtPayload(u.id, u.email, u.roles))
  {
    var t := "Bearer " + sign(ClaimsOf(u));
    assert t[7..] == sign(ClaimsOf(u));
    t
  }

  /** `generateTokens(user, agent)`: an access token for the user's claims, paired
      with the session row `getRefreshToken` leaves for (user, agent). */
  ghost function GenerateTokensEffect(db: Db, u: User, agent: string, now: int, uuid: string,
                                      sign: JwtPayload -> string, addMonth: Later)
    : (o: Step<Tokens>)
    requires DbValid(db) && FreshValue(db.tokens, uuid)
    ensures DbValid(o.db) && o.db.store == db.store
    ensures |o.result.accessToken| >= 7 && o.result.accessToken[..7] == "Bearer "
    ensures o.result.accessToken[7..] == sign(JwtPayload(u.id, u.email, u.roles))
    ensures Step(o.db, o.result.refreshToken) == GetRefreshTokenEffect(db, u.id, agent, now, uuid, addMonth)
  {
    var s := GetRefreshTokenEffect(db, u.id, agent, now, uuid, addMonth);
    Step(s.db, Tokens(AccessToken(sign, u), s.result))
  }

  /** The body of `register`'s `try`: a known email raises `Conflict`, otherwise `create`. */
  ghost function RegisterTryEffect(db: Db, email: string, password: string, hashed: HashOutcome, freshId: UserId)
    : (o: Step<Result<User, Failure>>)
    requires DbValid(db) && freshId !in db.store.users
    ensures DbValid(o.db) && o.db.tokens == db.tokens
    ensures ByEmail(db.store.users, email).Some? ==> o == Step(db, Err(Conflict))
    ensures ByEmail(db.store.users, email).None? ==>
      var c := CreateEffect(db.store, Payload(email, Some(password), None), hashed, freshId);
      o == Step(db.(store := c.store), c.result)
  {
    if ByEmail(db.store.users, email).Some? then Step(db, Err(Conflict))
    else
      var c := CreateEffect(db.store, Payload(email, Some(password), None), hashed, freshId);
      Step(db.(store := c.store), c.result)
  }

  /** `register`: whatever the `try` raises, `Conflict` included, the surrounding
      `catch` re-raises as an internal error. */
  ghost function RegisterEffect(db: Db, email: string, password: string, hashed: HashOutcome, freshId: UserId)
    : (o: Step<Result<User, Failure>>)
    requires DbValid(db) && freshId !in db.store.users
    ensures DbValid(o.db) && o.db.tokens == db.tokens
    ensures o.result.Err? ==> o == Step(db, Err(Internal))
    ensures o.result.Ok? <==> ByEmail(db.store.users, email).None? && !hashed.HashFailed?
    ensures o.result.Ok? ==>
      var u := o.result.value;
      && u == User(freshId, email, DigestOf(hashed), None, [USER])
      && o.db.store.users == db.store.users[freshId := u]
      && ByEmail(o.db.store.users, email) == Some(u)
      && o.db.store.cache == db.store.cache[IdKey(freshId) := CachedPayload(Payload(email, Some(password), None))]
  {
    var t := RegisterTryEffect(db, email, password, hashed, freshId);
    match t.result
    case Ok(_) => t
    case Err(_) => Step(t.db, Err(Internal))
  }

  /** `login`: read the user by email with the cache entry evicted, check the
      password, then issue tokens; every failure is `Unauthorized`. */
  ghost function LoginEffect(db: Db, email: string, password: string, agent: string, now: int, uuid: string,
                             sign: JwtPayload -> string, compare: (string, Digest) -> bool, addMonth: Later)
    : (o: Step<Result<Tokens, Failure>>)
    requires DbValid(db) && FreshValue(db.tokens, uuid)
    ensures DbValid(o.db) && o.db.store.users == db.store.users
    ensures ByEmail(db.store.users, email).None? ==> o.db.store.cache == db.store.cache
    ensures ByEmail(db.store.users, email).Some? ==>
      o.db.store.cache == db.store.cache - {IdKey(ByEmail(db.store.users, email).value.id)}
    ensures o.result.Ok? <==>
      ByEmail(db.store.users, email).Some? && PasswordAccepted(ByEmail(db.store.users, email).value, password, compare)
    ensures o.result.Err? ==> o.result.error == Unauthorized && o.db.tokens == db.tokens
    ensures o.result.Ok? ==>
      var u := ByEmail(db.store.users, email).value;
      && o.result.value.accessToken == AccessToken(sign, u)
      && o.result.value.refreshToken == Token(uuid, addMonth(now), u.id, agent)
      && o.db.tokens == GetRefreshTokenEffect(db, u.id, agent, now, uuid, addMonth).db.tokens
  {
    var f := FindOneByEmailEffect(db.store, email, true);
    var db1 := db.(store := f.store);
    match f.result
    case None => Step(db1, Err(Unauthorized))
    case Some(u) =>
      if PasswordAccepted(u, password, compare) then
        var g := GenerateTokensEffect(db1, u, agent, now, uuid, sign, addMonth);
        Step(g.db, Ok(g.result))
      else Step(db1, Err(Unauthorized))
  }

  /** `providerAuth(email, agent, provider)`: `create` runs on both branches; a
      failed `create` yields null, which the found branch passes on to
      `generateTokens` (and fails there, an internal error) while the other
      branch raises `BadRequest`. `create` is called without a password, and
      hashing an absent password never yields a digest. */
  ghost function ProviderAuthEffect(db: Db, email: string, agent: string, provider: Provider,
                                    hashed: HashOutcome, freshId: UserId, now: int, uuid: string,
                                    sign: JwtPayload -> string, addMonth: Later)
    : (o: Step<Result<Tokens, Failure>>)
    requires DbValid(db) && freshId !in db.store.users && FreshValue(db.tokens, uuid)
    requires !hashed.Hashed?
    ensures DbValid(o.db)
    ensures o.db.store == CreateEffect(db.store, Payload(email, None, Some(provider)), hashed, freshId).store
    ensures o.result.Err? <==> hashed.HashFailed?
    ensures o.result.Err? ==>
      && o.db == db
      && o.result.error == (if ByEmail(db.store.users, email).Some? then Internal else BadRequest)
    ensures o.result.Ok? ==>
      var u := ByEmail(o.db.store.users, email).value;
      && u.id == (if ByEmail(db.store.users, email).Some? then ByEmail(db.store.users, email).value.id else freshId)
      && u.provider == Some(provider)
      && o.result.value.accessToken == AccessToken(sign, u)
      && o.result.value.refreshToken == Token(uuid, addMonth(now), u.id, agent)
      && o.db.tokens == GetRefreshTokenEffect(db, u.id, agent, now, uuid, addMonth).db.tokens
    ensures ByEmail(db.store.users, email).Some? ==>
      ByEmail(o.db.store.users, email).value.password == ByEmail(db.store.users, email).value.password
    ensures ByEmail(db.store.users, email).None? && o.result.Ok? ==>
      ByEmail(o.db.store.users, email).value.password == None
  {
    var userExists := ByEmail(db.store.users, email).Some?;
    var c := CreateEffect(db.store, Payload(email, None, Some(provider)), hashed, freshId);
    var db1 := db.(store := c.store);
    if userExists then
      match c.result
      case Err(_) => Step(db1, Err(Internal))
      case Ok(u) =>
        var g := GenerateTokensEffect(db1, u, agent, now, uuid, sign, addMonth);
        Step(g.db, Ok(g.result))
    else
      match c.result
      case Err(_) => Step(db1, Err(BadRequest))
      case Ok(u) =>
        var g := GenerateTokensEffect(db1, u, agent, now, uuid, sign, addMonth);
        Step(g.db, Ok(g.result))
  }

  /** `deleteRefreshToken(token)`: the store's `delete`, which returns the removed
      row and refuses a value that is not in the table. */
  ghost function DeleteRefreshTokenEffect(db: Db, token: string): (o: Step<Result<Token, Failure>>)
    requires DbValid(db)
    ensures DbValid(o.db) && o.db.store == db.store
    ensures token !in o.db.tokens
    ensures token in db.tokens ==>
      && o.result == Ok(db.tokens[token])
      && o.db.tokens.Keys == db.tokens.Keys - {token}
      && (forall k :: k in o.db.tokens ==> o.db.tokens[k] == db.tokens[k])
    ensures token !in db.tokens ==> o == Step(db, Err(RecordNotFound))
  {
    if token in db.tokens then Step(db.(tokens := db.tokens - {token}), Ok(db.tokens[token]))
    else Step(db, Err(RecordNotFound))
  }

  /** `refreshTokens(refreshToken, agent)`: delete the presented row first, then
      reject it when expired, then look the owner up through the cache and issue
      tokens for (owner, agent). */
  ghost function RefreshTokensEffect(db: Db, refreshToken: string, agent: string, now: int, uuid: string,
                                     sign: JwtPayload -> string, addMonth: Later)
    : (o: Step<Result<Tokens, Failure>>)
    requires DbValid(db) && FreshValue(db.tokens, uuid)
    ensures DbValid(o.db) && o.db.store.users == db.store.users
    ensures refreshToken !in o.db.tokens
    ensures refreshToken !in db.tokens ==> o == Step(db, Err(RecordNotFound))
    ensures refreshToken in db.tokens && db.tokens[refreshToken].exp < now ==>
      o == Step(db.(tokens := db.tokens - {refreshToken}), Err(Unauthorized))
    ensures o.result.Err? ==> o.result.error in {RecordNotFound, Unauthorized, Internal}
    ensures refreshToken in db.tokens && o.result.Err? ==> o.db.tokens == db.tokens - {refreshToken}
    ensures refreshToken in db.tokens && db.tokens[refreshToken].exp >= now ==>
      var found := FindOneEffect(db.store, db.tokens[refreshToken].userId);
      && o.db.store == found.store
      && (o.result.Ok? <==> found.result.Some? && found.result.value.CachedUser?)
      && (o.result.Err? ==> o.result.error == Internal)
      && (o.result.Ok? ==> o.result.value.accessToken == AccessToken(sign, found.result.value.user))
    ensures o.result.Ok? ==>
      var owner := db.tokens[refreshToken].userId;
      var rest := db.(tokens := db.tokens - {refreshToken});
      && refreshToken in db.tokens
      && db.tokens[refreshToken].exp >= now
      && o.result.value.refreshToken == Token(uuid, addMonth(now), owner, agent)
      && o.db.tokens == GetRefreshTokenEffect(rest, owner, agent, now, uuid, addMonth).db.tokens
  {
    if refreshToken !in db.tokens then Step(db, Err(RecordNotFound))
    else
      var row := db.tokens[refreshToken];
      var db1 := db.(tokens := db.tokens - {refreshToken});
      if row.exp < now then Step(db1, Err(Unauthorized))
      else
        var f := FindOneEffect(db1.store, row.userId);
        var db2 := db1.(store := f.store);
        match f.result
        case None => Step(db2, Err(Internal))
        case Some(CachedPayload(_)) => Step(db2, Err(Internal))
        case Some(CachedUser(u)) =>
          var g := GenerateTokensEffect(db2, u, agent, now, uuid, sign, addMonth);
          Step(g.db, Ok(g.result))
  }

  class AuthService {
    const userService: UserService
    const sign: JwtPayload -> string
    const compare: (string, Digest) -> bool
    const addMonth: Later
    var tokens: map<string, Token>

    ghost predicate Valid()
      reads this, userService
    {
      userService.Valid() && TokensWellFormed(tokens) && OneSessionPerDevice(tokens)
    }

    function State(): Db
      reads this, userService
    {
      Db(userService.State(), tokens)
    }

    constructor (userService: UserService, sign: JwtPayload -> string,
                 compare: (string, Digest) -> bool, addMonth: Later)
      requires userService.Valid()
      ensures Valid() && tokens == map[]
      ensures this.userService == userService && this.sign == sign
      ensures this.compare == compare && this.addMonth == addMonth
    {
      this.userService := userService;
      this.sign := sign;
      this.compare := compare;
      this.addMonth := addMonth;
      tokens := map[];
    }

    /** The store's `findFirst` by (user, user agent). */
    method FindFirstSession(userId: UserId, agent: string) returns (k: Option<string>)
      requires Valid()
      ensures k == SessionFor(tokens, userId, agent)
    {
      if exists t | t in tokens :: tokens[t].userId == userId && tokens[t].userAgent == agent {
        var t :| t in tokens && tokens[t].userId == userId && tokens[t].userAgent == agent;
        SessionForFinds(tokens, t, userId, agent);
        k := Some(t);
      } else {
        k := None;
      }
    }

    method GetRefreshToken(userId: UserId, agent: string, now: int, uuid: string) returns (row: Token)
      requires Valid() && FreshValue(tokens, uuid)
      modifies this
      ensures Valid()
      ensures Step(State(), row) == GetRefreshTokenEffect(old(State()), userId, agent, now, uuid, addMonth)
    {
      ghost var effect := GetRefreshTokenEffect(State(), userId, agent, now, uuid, addMonth);
      var found := FindFirstSession(userId, agent);
      var exp := addMonth(now);
      if found.Some? && found.value != "" {
        row := tokens[found.value].(token := uuid, exp := exp);
        tokens := (tokens - {found.value})[uuid := row];
      } else {
        row := Token(uuid, exp, userId, agent);
        tokens := tokens[uuid := row];
      }
      assert tokens == effect.db.tokens && row == effect.result;
    }

    method GenerateTokens(u: User, agent: string, now: int, uuid: string) returns (r: Tokens)
      requires Valid() && FreshValue(tokens, uuid)
      modifies this
      ensures Valid()
      ensures Step(State(), r) == GenerateTokensEffect(old(State()), u, agent, now, uuid, sign, addMonth)
    {
      var accessToken := AccessToken(sign, u);
      var refreshToken := GetRefreshToken(u.id, agent, now, uuid);
      r := Tokens(accessToken, refreshToken);
    }

    method Register(email: string, password: string, hashed: HashOutcome, freshId: UserId)
      returns (r: Result<User, Failure>)
      requires Valid() && freshId !in userService.users
      modifies userService
      ensures Valid()
      ensures Step(State(), r) == RegisterEffect(old(State()), email, password, hashed, freshId)
    {
      var user := userService.FindOneByEmail(email, false);
      if user.Some? {
        // the Conflict raised here is caught below like any other failure
        return Err(Internal);
      }
      var created := userService.Create(Payload(email, Some(password), None), hashed, freshId);
      if created.Err? {
        return Err(Internal);
      }
      r := created;
    }

    method Login(email: string, password: string, agent: string, now: int, uuid: string)
      returns (r: Result<Tokens, Failure>)
      requires Valid() && FreshValue(tokens, uuid)
      modifies this, userService
      ensures Valid()
      ensures Step(State(), r) == LoginEffect(old(State()), email, password, agent, now, uuid, sign, compare, addMonth)
    {
      var user := userService.FindOneByEmail(email, true);
      if user.None? || !PasswordAccepted(user.value, password, compare) {
        return Err(Unauthorized);
      }
      var t := GenerateTokens(user.value, agent, now, uuid);
      r := Ok(t);
    }

    method ProviderAuth(email: string, agent: string, provider: Provider, hashed: HashOutcome,
                        freshId: UserId, now: int, uuid: string)
      returns (r: Result<Tokens, Failure>)
      requires Valid() && freshId !in userService.users && FreshValue(tokens, uuid)
      requires !hashed.Hashed?
      modifies this, userService
      ensures Valid()
      ensures Step(State(), r) == ProviderAuthEffect(old(State()), email, agent, provider, hashed, freshId, now, uuid, sign, addMonth)
    {
      var userExists := userService.FindOneByEmail(email, false);
      if userExists.Some? {
        var user := userService.Create(Payload(email, None, Some(provider)), hashed, freshId);
        if user.Err? {
          // generateTokens(null) fails on `user.id`
          return Err(Internal);
        }
        var t := GenerateTokens(user.value, agent, now, uuid);
        return Ok(t);
      }
      var user := userService.Create(Payload(email, None, Some(provider)), hashed, freshId);
      if user.Err? {
        return Err(BadRequest);
      }
      var t := GenerateTokens(user.value, agent, now, uuid);
      r := Ok(t);
    }

    method DeleteRefreshToken(token: string) returns (r: Result<Token, Failure>)
      requires Valid()
      modifies this
      ensures Valid()
      ensures Step(State(), r) == DeleteRefreshTokenEffect(old(State()), token)
    {
      if token !in tokens {
        return Err(RecordNotFound);
      }
      r := Ok(tokens[token]);
      tokens := tokens - {token};
    }

    method RefreshTokens(refreshToken: string, agent: string, now: int, uuid: string)
      returns (r: Result<Tokens, Failure>)
      requires Valid() && FreshValue(tokens, uuid)
      modifies this, userService
      ensures Valid()
      ensures Step(State(), r) == RefreshTokensEffect(old(State()), refreshToken, agent, now, uuid, sign, addMonth)
    {
      if refreshToken !in tokens {
        return Err(RecordNotFound);
      }
      var row := tokens[refreshToken];
      tokens := tokens - {refreshToken};
      if row.exp < now {
        return Err(Unauthorized);
      }
      var user := userService.FindOne(row.userId);
      match user {
        case None =>
          // generateTokens(null) fails on `user.id`
          return Err(Internal);
        case Some(CachedPayload(_)) =>
          return Err(Internal);
        case Some(CachedUser(u)) =>
          var t := GenerateTokens(u, agent, now, uuid);
          return Ok(t);
      }
    }
  }
}
