/** Properties of sequences of calls to the two services: refresh tokens are
    single-use, logout revokes, a repeated login from one device rotates its
    session, a registered user can log in, and the end-to-end scenario of
    login, refresh and replayed refresh. */
module AuthProperties {
  import opened Domain
  import opened CacheKeys
  import opened Users
  import opened Auth

  /** Whatever the first refresh with a token value did, a second refresh with
      the same value fails: the row is gone. */
  lemma RefreshIsSingleUse(db: Db, token: string, agent1: string, now1: int, uuid1: string,
                           agent2: string, now2: int, uuid2: string,
                           sign: JwtPayload -> string, addMonth: Later)
    requires DbValid(db) && FreshValue(db.tokens, uuid1)
    requires FreshValue(RefreshTokensEffect(db, token, agent1, now1, uuid1, sign, addMonth).db.tokens, uuid2)
    ensures
      var first := RefreshTokensEffect(db, token, agent1, now1, uuid1, sign, addMonth);
      var second := RefreshTokensEffect(first.db, token, agent2, now2, uuid2, sign, addMonth);
      second == Step(first.db, Err(RecordNotFound))
  {
  }

  /** After logout, refreshing with the revoked value fails. */
  lemma LogoutRevokes(db: Db, token: string, agent: string, now: int, uuid: string,
                      sign: JwtPayload -> string, addMonth: Later)
    requires DbValid(db) && FreshValue(db.tokens, uuid)
    ensures
      var out := DeleteRefreshTokenEffect(db, token);
      RefreshTokensEffect(out.db, token, agent, now, uuid, sign, addMonth).result == Err(RecordNotFound)
  {
  }

  /** Two logins of user `u` from the same device with its password: both succeed,
      and the second rewrites the session the first one issued, so the first
      refresh token is no longer valid and no row is added. */
  lemma RepeatedLoginRotatesSession(db: Db, u: User, password: string, agent: string,
                                    now1: int, uuid1: string, now2: int, uuid2: string,
                                    sign: JwtPayload -> string, compare: (string, Digest) -> bool,
                                    addMonth: Later)
    requires DbValid(db) && u.id in db.store.users && db.store.users[u.id] == u
    requires PasswordAccepted(u, password, compare)
    requires FreshValue(db.tokens, uuid1) && FreshValue(db.tokens, uuid2) && uuid1 != uuid2
    ensures
      var first := LoginEffect(db, u.email, password, agent, now1, uuid1, sign, compare, addMonth);
      var second := LoginEffect(first.db, u.email, password, agent, now2, uuid2, sign, compare, addMonth);
      && first.result.Ok? && first.result.value.refreshToken.token == uuid1
      && second.result.Ok? && second.result.value.refreshToken.token == uuid2
      && uuid1 !in second.db.tokens
      && second.db.tokens.Keys == first.db.tokens.Keys - {uuid1} + {uuid2}
  {
  }

  /** Registering a new email with a password whose digest bcrypt accepts makes a
      login with that email and password succeed, for the new user. */
  lemma RegisterThenLogin(db: Db, email: string, password: string, digest: Digest, freshId: UserId,
                          agent: string, now: int, uuid: string,
                          sign: JwtPayload -> string, compare: (string, Digest) -> bool, addMonth: Later)
    requires DbValid(db) && freshId !in db.store.users && FreshValue(db.tokens, uuid)
    requires ByEmail(db.store.users, email).None?
    requires digest != "" && compare(password, digest)
    ensures
      var reg := RegisterEffect(db, email, password, Hashed(digest), freshId);
      var login := LoginEffect(reg.db, email, password, agent, now, uuid, sign, compare, addMonth);
      && reg.result.Ok?
      && login.result.Ok?
      && login.result.value.refreshToken.userId == freshId
  {
  }

  /** The known-email `Conflict` of `register`'s `try` reaches the caller as an internal error. */
  lemma RegisterConflictSurfacesAsInternal(db: Db, email: string, password: string,
                                           hashed: HashOutcome, freshId: UserId)
    requires DbValid(db) && freshId !in db.store.users
    requires ByEmail(db.store.users, email).Some?
    ensures RegisterTryEffect(db, email, password, hashed, freshId).result == Err(Conflict)
    ensures RegisterEffect(db, email, password, hashed, freshId) == Step(db, Err(Internal))
  {
  }

  /** User `u` logs in, refreshes with the issued value before it expires, then
      replays that value: the refresh succeeds with a new value, the replay fails. */
  lemma LoginRefreshReplay(db: Db, u: User, password: string, agent: string,
                           now1: int, uuid1: string, now2: int, uuid2: string, now3: int, uuid3: string,
                           sign: JwtPayload -> string, compare: (string, Digest) -> bool, addMonth: Later)
    requires DbValid(db) && u.id in db.store.users && db.store.users[u.id] == u
    requires PasswordAccepted(u, password, compare)
    requires FreshValue(db.tokens, uuid1) && FreshValue(db.tokens, uuid2) && FreshValue(db.tokens, uuid3)
    requires uuid1 != uuid2 && uuid1 != uuid3 && uuid2 != uuid3
    requires now2 <= addMonth(now1)
    ensures
      var login := LoginEffect(db, u.email, password, agent, now1, uuid1, sign, compare, addMonth);
      var a := login.result.value.refreshToken.token;
      var refresh := RefreshTokensEffect(login.db, a, agent, now2, uuid2, sign, addMonth);
      var replay := RefreshTokensEffect(refresh.db, a, agent, now3, uuid3, sign, addMonth);
      && login.result.Ok?
      && refresh.result.Ok?
      && refresh.result.value.refreshToken.token != a
      && replay.result == Err(RecordNotFound)
  {
  }

  /** `findOneByEmail` reads the table, never the cache: stores that differ only in
      their caches give the same answer. */
  lemma FindOneByEmailIgnoresCache(s1: Store, s2: Store, email: string, resetCache: bool)
    requires StoreValid(s1) && StoreValid(s2) && s1.users == s2.users
    ensures FindOneByEmailEffect(s1, email, resetCache).result == FindOneByEmailEffect(s2, email, resetCache).result
  {
  }

  /** `addRole` does not evict the cache: a user row cached before the grant is
      what `findOne` still answers with afterwards, without the new role. */
  lemma AddRoleLeavesCachedRowStale(s: Store, userId: UserId, role: string)
    requires StoreValid(s) && IdKey(userId) in s.cache
    ensures
      var granted := AddRoleEffect(s, userId, role);
      FindOneEffect(granted.store, userId).result == Some(s.cache[IdKey(userId)])
  {
  }

  /** A provider login for an existing account `u` whose password hashing yields
      nothing succeeds and keeps the account's stored password digest (hashing
      never sees a password here). */
  lemma ProviderLoginKeepsPassword(db: Db, u: User, agent: string, provider: Provider,
                                   freshId: UserId, now: int, uuid: string,
                                   sign: JwtPayload -> string, addMonth: Later)
    requires DbValid(db) && u.id in db.store.users && db.store.users[u.id] == u
    requires freshId !in db.store.users && FreshValue(db.tokens, uuid)
    ensures
      var out := ProviderAuthEffect(db, u.email, agent, provider, NoDigest, freshId, now, uuid, sign, addMonth);
      && out.result.Ok?
      && ByEmail(out.db.store.users, u.email).value.password == u.password
  {
  }

  /** With a hasher that rejects an absent password, a provider login never
      issues tokens, on either branch. */
  lemma ProviderLoginNeedsHashOfNothing(db: Db, email: string, agent: string, provider: Provider,
                                        freshId: UserId, now: int, uuid: string,
                                        sign: JwtPayload -> string, addMonth: Later)
    requires DbValid(db) && freshId !in db.store.users && FreshValue(db.tokens, uuid)
    ensures
      var out := ProviderAuthEffect(db, email, agent, provider, HashFailed, freshId, now, uuid, sign, addMonth);
      && out.db == db
      && out.result == Err(if ByEmail(db.store.users, email).Some? then Internal else BadRequest)
  {
  }
}
