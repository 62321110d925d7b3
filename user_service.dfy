/** The user service: the user table (keyed by id, unique email) and the
    advisory cache keyed by `String(id)`. Each operation has a specification
    function `...Effect` from the old store to the new store and the result;
    the class `UserService` holds the two tables and its methods are proved
    to have exactly that effect. */
module Users {
  import opened Domain
  import opened CacheKeys

  /** The user table together with the cache. */
  datatype Store = Store(users: map<UserId, User>, cache: map<string, CacheValue>)

  /** A new store and what the call returned (or raised). */
  datatype Effect<+T> = Effect(store: Store, result: T)

  /** Rows sit under their own id and no two rows share an email. */
  ghost predicate UsersWellFormed(users: map<UserId, User>) {
    && (forall id :: id in users ==> users[id].id == id)
    && (forall a, b :: a in users && b in users && users[a].email == users[b].email ==> a == b)
  }

  /** Every user row in the cache sits under the key of its own id. */
  ghost predicate CacheCoherent(cache: map<string, CacheValue>) {
    forall k :: k in cache && cache[k].CachedUser? ==> k == IdKey(cache[k].user.id)
  }

  ghost predicate StoreValid(s: Store) {
    UsersWellFormed(s.users) && CacheCoherent(s.cache)
  }

  /** `findFirst({ where: { email } })`: the row with that email, if there is one. */
  ghost function ByEmail(users: map<UserId, User>, email: string): (r: Option<User>)
    requires UsersWellFormed(users)
    ensures r.Some? <==> exists id :: id in users && users[id].email == email
    ensures r.Some? ==> r.value.email == email && r.value.id in users && users[r.value.id] == r.value
  {
    if exists id :: id in users && users[id].email == email then
      var id :| id in users && users[id].email == email;
      Some(users[id])
    else
      None
  }

  /** Under unique emails, the row carrying an email is the one `ByEmail` finds. */
  lemma ByEmailFinds(users: map<UserId, User>, u: User)
    requires UsersWellFormed(users) && u.id in users && users[u.id] == u
    ensures ByEmail(users, u.email) == Some(u)
  {
  }

  /** The password column `create` writes: the digest, when hashing produced one. */
  function DigestOf(h: HashOutcome): Option<Digest> {
    if h.Hashed? then Some(h.digest) else None
  }

  /** `create(user)`: hash the password, upsert the row by email, then cache the
      payload (not the row) under `String(row.id)`. `freshId` is the id the table
      assigns to a row it inserts. */
  ghost function CreateEffect(s: Store, payload: Payload, hashed: HashOutcome, freshId: UserId)
    : (o: Effect<Result<User, Failure>>)
    requires StoreValid(s) && freshId !in s.users
    ensures StoreValid(o.store)
    ensures o.result.Err? <==> hashed.HashFailed?
    ensures o.result.Err? ==> o.result.error == HashError && o.store == s
    ensures o.result.Ok? ==>
      var u := o.result.value;
      && u.email == payload.email
      && ByEmail(o.store.users, payload.email) == Some(u)
      && o.store.users.Keys == s.users.Keys + {u.id}
      && (forall id :: id in s.users && id != u.id ==> o.store.users[id] == s.users[id])
      && o.store.cache == s.cache[IdKey(u.id) := CachedPayload(payload)]
    ensures o.result.Ok? && ByEmail(s.users, payload.email).None? ==>
      var u := o.result.value;
      && u.id == freshId
      && u.id !in s.users
      && u.password == DigestOf(hashed)
      && u.provider == payload.provider
      && u.roles == [USER]
    ensures o.result.Ok? && ByEmail(s.users, payload.email).Some? ==>
      var u, v := o.result.value, ByEmail(s.users, payload.email).value;
      && u.id == v.id
      && u.roles == v.roles
      && u.password == (if hashed.Hashed? then Some(hashed.digest) else v.password)
      && u.provider == (if payload.provider.Some? then payload.provider else v.provider)
  {
    if hashed.HashFailed? then Effect(s, Err(HashError))
    else
      var digest := DigestOf(hashed);
      var u := match ByEmail(s.users, payload.email)
        case None => User(freshId, payload.email, digest, payload.provider, [USER])
        case Some(v) =>
          v.(password := if digest.Some? then digest else v.password,
             provider := if payload.provider.Some? then payload.provider else v.provider);
      var users := s.users[u.id := u];
      assert UsersWellFormed(users);
      ByEmailFinds(users, u);
      Effect(Store(users, s.cache[IdKey(u.id) := CachedPayload(payload)]), Ok(u))
  }

  /** `findOne(id)`: cache-aside lookup. A hit answers from the cache; a miss reads
      the table and, when the row exists, caches it. */
  ghost function FindOneEffect(s: Store, id: UserId): (o: Effect<Option<CacheValue>>)
    requires StoreValid(s)
    ensures StoreValid(o.store) && o.store.users == s.users
    ensures IdKey(id) in s.cache ==> o == Effect(s, Some(s.cache[IdKey(id)]))
    ensures IdKey(id) !in s.cache && id !in s.users ==> o == Effect(s, None)
    ensures IdKey(id) !in s.cache && id in s.users ==>
      && o.result == Some(CachedUser(s.users[id]))
      && o.store.cache == s.cache[IdKey(id) := CachedUser(s.users[id])]
    ensures o.result.Some? && o.result.value.CachedUser? ==> o.result.value.user.id == id
  {
    var key := IdKey(id);
    if key in s.cache then
      var v := s.cache[key];
      if v.CachedUser? then IdKeyInjective(v.user.id, id); Effect(s, Some(v))
      else Effect(s, Some(v))
    else if id !in s.users then Effect(s, None)
    else
      var u := s.users[id];
      Effect(Store(s.users, s.cache[key := CachedUser(u)]), Some(CachedUser(u)))
  }

  /** `findOneByEmail(email, resetCache)`: reads the table only; with `resetCache`
      and a row found, evicts that row's cache entry. */
  ghost function FindOneByEmailEffect(s: Store, email: string, resetCache: bool): (o: Effect<Option<User>>)
    requires StoreValid(s)
    ensures StoreValid(o.store) && o.store.users == s.users
    ensures o.result == ByEmail(s.users, email)
    ensures resetCache && o.result.Some? ==> o.store.cache == s.cache - {IdKey(o.result.value.id)}
    ensures !(resetCache && o.result.Some?) ==> o.store.cache == s.cache
  {
    var user := ByEmail(s.users, email);
    if resetCache && user.Some? then Effect(Store(s.users, s.cache - {IdKey(user.value.id)}), user)
    else Effect(s, user)
  }

  /** Whether a caller holding these claims may remove user `id`. */
  predicate MayRemove(caller: JwtPayload, id: UserId) {
    caller.id == id || ADMIN in caller.roles
  }

  /** `remove(id, caller)`: forbidden unless the caller is the user or an admin;
      otherwise evict `String(id)` and the caller's email from the cache, then
      delete the row, which the store refuses when it is absent. */
  ghost function RemoveEffect(s: Store, id: UserId, caller: JwtPayload): (o: Effect<Result<UserId, Failure>>)
    requires StoreValid(s)
    ensures StoreValid(o.store)
    ensures !MayRemove(caller, id) ==> o == Effect(s, Err(Forbidden))
    ensures MayRemove(caller, id) ==>
      && o.store.cache.Keys == s.cache.Keys - {IdKey(id), caller.email}
      && (forall k :: k in o.store.cache ==> o.store.cache[k] == s.cache[k])
      && id !in o.store.users
      && o.store.users.Keys == s.users.Keys - {id}
      && (forall j :: j in o.store.users ==> o.store.users[j] == s.users[j])
      && (o.result == if id in s.users then Ok(id) else Err(RecordNotFound))
    ensures MayRemove(caller, id) && '@' in caller.email ==>
      forall j :: j != id && IdKey(j) in s.cache ==> IdKey(j) in o.store.cache
  {
    if !MayRemove(caller, id) then Effect(s, Err(Forbidden))
    else
      var cache := s.cache - {IdKey(id), caller.email};
      assert forall j :: j != id && IdKey(j) in s.cache && '@' in caller.email ==> IdKey(j) in cache by {
        forall j | j != id && IdKey(j) in s.cache && '@' in caller.email ensures IdKey(j) in cache {
          if IdKey(j) == IdKey(id) { IdKeyInjective(j, id); }
        }
      }
      if id in s.users then Effect(Store(s.users - {id}, cache), Ok(id))
      else Effect(Store(s.users, cache), Err(RecordNotFound))
  }

  /** `addRole({ userId, role })`: when the user exists and the role names a member
      of the enumeration, append it to the user's roles (duplicates kept);
      otherwise not found. The cache is not touched. */
  ghost function AddRoleEffect(s: Store, userId: UserId, role: string): (o: Effect<Result<User, Failure>>)
    requires StoreValid(s)
    ensures StoreValid(o.store) && o.store.cache == s.cache
    ensures o.result.Ok? <==> userId in s.users && RoleNamed(role).Some?
    ensures o.result.Err? ==> o == Effect(s, Err(NotFound))
    ensures o.result.Ok? ==>
      var old_, new_ := s.users[userId], o.result.value;
      && new_.roles == old_.roles + [RoleNamed(role).value]
      && new_ == old_.(roles := new_.roles)
      && o.store.users == s.users[userId := new_]
  {
    match RoleNamed(role)
    case Some(r) =>
      if userId in s.users then
        var u := s.users[userId].(roles := s.users[userId].roles + [r]);
        Effect(Store(s.users[userId := u], s.cache), Ok(u))
      else Effect(s, Err(NotFound))
    case None => Effect(s, Err(NotFound))
  }

  class UserService {
    var users: map<UserId, User>
    var cache: map<string, CacheValue>

    ghost predicate Valid()
      reads this
    {
      StoreValid(Store(users, cache))
    }

    function State(): Store
      reads this
    {
      Store(users, cache)
    }

    constructor ()
      ensures Valid() && users == map[] && cache == map[]
    {
      users, cache := map[], map[];
    }

    /** The store's `findFirst` by email. */
    method FindFirstByEmail(email: string) returns (user: Option<User>)
      requires Valid()
      ensures user == ByEmail(users, email)
    {
      if exists id | id in users :: users[id].email == email {
        var id :| id in users && users[id].email == email;
        user := Some(users[id]);
        var expected := ByEmail(users, email);
        assert users[expected.value.id].email == email;
      } else {
        user := None;
      }
    }

    method Create(payload: Payload, hashed: HashOutcome, freshId: UserId) returns (r: Result<User, Failure>)
      requires Valid() && freshId !in users
      modifies this
      ensures Valid()
      ensures Effect(State(), r) == CreateEffect(old(State()), payload, hashed, freshId)
    {
      if hashed.HashFailed? {
        return Err(HashError);
      }
      var digest := DigestOf(hashed);
      var existing := FindFirstByEmail(payload.email);
      var u: User;
      match existing {
        case None =>
          u := User(freshId, payload.email, digest, payload.provider, [USER]);
        case Some(v) =>
          u := v.(password := if digest.Some? then digest else v.password,
                  provider := if payload.provider.Some? then payload.provider else v.provider);
      }
      users := users[u.id := u];
      cache := cache[IdKey(u.id) := CachedPayload(payload)];
      r := Ok(u);
    }

    method FindOne(id: UserId) returns (r: Option<CacheValue>)
      requires Valid()
      modifies this
      ensures Valid()
      ensures Effect(State(), r) == FindOneEffect(old(State()), id)
    {
      var key := IdKey(id);
      if key in cache {
        return Some(cache[key]);
      }
      if id !in users {
        return None;
      }
      var u := users[id];
      cache := cache[key := CachedUser(u)];
      r := Some(CachedUser(u));
    }

    method FindOneByEmail(email: string, resetCache: bool) returns (r: Option<User>)
      requires Valid()
      modifies this
      ensures Valid()
      ensures Effect(State(), r) == FindOneByEmailEffect(old(State()), email, resetCache)
    {
      r := FindFirstByEmail(email);
      if resetCache && r.Some? {
        cache := cache - {IdKey(r.value.id)};
      }
    }

    method Remove(id: UserId, caller: JwtPayload) returns (r: Result<UserId, Failure>)
      requires Valid()
      modifies this
      ensures Valid()
      ensures Effect(State(), r) == RemoveEffect(old(State()), id, caller)
    {
      if caller.id != id && ADMIN !in caller.roles {
        return Err(Forbidden);
      }
      cache := cache - {IdKey(id), caller.email};
      if id !in users {
        return Err(RecordNotFound);
      }
      users := users - {id};
      r := Ok(id);
    }

    method AddRole(userId: UserId, role: string) returns (r: Result<User, Failure>)
      requires Valid()
      modifies this
      ensures Valid()
      ensures Effect(State(), r) == AddRoleEffect(old(State()), userId, role)
    {
      var named := RoleNamed(role);
      if named.Some? && userId in users {
        var u := users[userId].(roles := users[userId].roles + [named.value]);
        users := users[userId := u];
        return Ok(u);
      }
      r := Err(NotFound);
    }
  }
}
