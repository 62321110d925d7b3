# Credential lifecycle of a NestJS authentication service, in Dafny

This project models the two service classes behind the authentication API:
`AuthService` (registration, password login, provider (OAuth) login,
access-token construction, per-device refresh sessions, single-use refresh,
logout) and `UserService` (upsert by email, cache-aside lookup by id, lookup
by email with optional cache eviction, authorised removal, role grant).

The state is three tables:

- the user table, keyed by id, with unique emails;
- the refresh-token table, whose `Token` rows are keyed by their opaque
  token value and carry the owner id, the user agent and the expiry;
- the advisory cache, keyed by `String(userId)`.

Every service call is one sequential step on these maps.

Layout:

- `domain.dfy` (module `Domain`): the rows, the `Tokens` and `JwtPayload`
  interfaces, the partial user handed to `create`, the cache values and the
  failures.
- `cache_keys.dfy` (module `CacheKeys`): `String(id)` as a decimal rendering,
  proved injective.
- `user_service.dfy` (module `Users`) and `auth_service.dfy` (module `Auth`):
  one specification function `...Effect` per operation, plus the classes
  `UserService` and `AuthService`. The classes hold the maps, and each method
  is proved to have exactly the effect its function describes.
- `auth_properties.dfy` (module `AuthProperties`): properties of sequences
  of calls.

The foreign primitives stay abstract:

- bcrypt's `compare` and the JWT signer are function-valued constants of
  `AuthService`.
- `add(now, { months: 1 })` is any function that moves every instant
  forward (`Domain.Later`).
- The clock reading `now` is a parameter of the calls that read it.
- The value `uuid` that `v4` returns is a parameter, required to be
  non-empty and not yet a token value.
- The id `freshId` the user table assigns on insert is a parameter.
- The outcome `hashed` of bcrypt's `hash` is a parameter: a digest, nothing
  at all, or a rejection. `providerAuth` calls `create` without a password,
  and hashing an absent password never yields a digest, so on that path
  `hashed` is nothing or a rejection.

The model follows the code as written, including these behaviours:

- `register` with a known email raises `Conflict` inside its `try`. The
  `catch` turns that into an internal error, so the caller never sees
  `Conflict`.
- `providerAuth` runs the upsert on both branches, not only when the email
  is unknown. On an existing account the provider column is overwritten and
  the password column is kept.
- The store's `delete` raises its own not-found error for a missing row.
  So `refreshTokens` with an unknown value fails with that error before the
  `!token` test, which is never reached. Likewise `deleteRefreshToken`
  (logout) of an unknown value fails rather than succeeding as a no-op.
- `create` caches the payload it was given, not the row it wrote.
- Emails are compared exactly; no case folding is applied.

Two consequences of the code are proved as lemmas:

- `addRole` leaves a cached row stale (`AddRoleLeavesCachedRowStale`).
- A hasher that rejects an absent password makes every provider login fail
  (`ProviderLoginNeedsHashOfNothing`). The provider flow calls `create`
  without a password, so it depends on how `hash` treats `undefined`.

## Model

| member | source | states |
|---|---|---|
| `Domain.RoleNamed` | src/user/user.service.ts:103 | a role name is accepted exactly when it names a member of the role enumeration, and then maps back to that name |
| `CacheKeys.IdKey` | src/user/user.service.ts:53 | `String(id)` is non-empty and never contains `@`, so it cannot equal an email address |
| `CacheKeys.IdKeyInjective` | src/user/user.service.ts:53 | two ids with the same cache key are the same id |
| `CacheKeys.DecimalStringInjective` | src/user/user.service.ts:53 | the decimal rendering of a natural number determines the number |
| `Users.ByEmail` | src/user/user.service.ts:73-75 | `findFirst` by email finds a row exactly when one has that email, and the row it finds has it |
| `Users.UserService.FindFirstByEmail` | src/user/user.service.ts:73-75 | the lookup by email answers with the row `ByEmail` specifies, changing nothing |
| `Users.CreateEffect` | src/user/user.service.ts:25-50 | a rejected hash fails with nothing changed. Otherwise: exactly one row carries the email afterwards; other rows are untouched; emails stay unique; the payload is cached under `String(row.id)`. A new email gets a fresh id, the digest, the given provider and roles exactly `[USER]`. A known email keeps its id and roles; the password changes only when a digest was produced, the provider only when one was given |
| `Users.UserService.Create` | src/user/user.service.ts:25-50 | has exactly the effect `CreateEffect` describes, keeping the table and cache invariants |
| `Users.FindOneEffect` | src/user/user.service.ts:52-70 | a cache hit answers the cached value and changes nothing; a miss on an absent id answers null and changes nothing; a miss on a present id caches that row and answers it; a cached row always belongs to the requested id; the table never changes |
| `Users.UserService.FindOne` | src/user/user.service.ts:52-70 | has exactly the effect `FindOneEffect` describes |
| `Users.FindOneByEmailEffect` | src/user/user.service.ts:72-82 | the answer is the table's row for the email (cache never read); with `resetCache` and a row found exactly the key `String(row.id)` is evicted, otherwise the cache is unchanged |
| `Users.UserService.FindOneByEmail` | src/user/user.service.ts:72-82 | has exactly the effect `FindOneByEmailEffect` describes |
| `Users.RemoveEffect` | src/user/user.service.ts:84-96 | unless the caller is the user or holds `ADMIN` (`MayRemove`, line 85), `Forbidden` with nothing changed. Otherwise the keys `String(id)` and the caller's email leave the cache. The row leaves the table, and a missing row raises the store's not-found error after the evictions. Every other row and entry is untouched: for an email with `@`, no other id's entry is lost |
| `Users.UserService.Remove` | src/user/user.service.ts:84-96 | has exactly the effect `RemoveEffect` describes |
| `Users.AddRoleEffect` | src/user/user.service.ts:98-116 | succeeds exactly when the user exists and the role is a member of the enumeration. Then the user's roles become the old list with the role appended (duplicates kept), other columns and rows stay and the cache is untouched. Otherwise `NOT_FOUND` with nothing changed |
| `Users.UserService.AddRole` | src/user/user.service.ts:98-116 | has exactly the effect `AddRoleEffect` describes |
| `Auth.SessionFor` | src/auth/auth.service.ts:126-132 | the lookup by (user, agent) finds a session exactly when that device has one, and what it finds belongs to that device |
| `Auth.AuthService.FindFirstSession` | src/auth/auth.service.ts:126-132 | the lookup by (user, agent) answers what `SessionFor` specifies, changing nothing |
| `Auth.RotationKeepsOneSessionPerDevice` | src/auth/auth.service.ts:134-141 | rewriting a device's session under a new value keeps at most one session per (user, agent) |
| `Auth.CreationKeepsOneSessionPerDevice` | src/auth/auth.service.ts:144-151 | creating the first session of a device keeps at most one session per (user, agent) |
| `Auth.GetRefreshTokenEffect` | src/auth/auth.service.ts:125-152 | the returned row is (fresh value, `addMonth(now)`, user, agent), later than now, and is the device's only session afterwards. An existing session is replaced under the fresh value, no row is added and the old value is gone. Otherwise exactly one row is added. Other devices' rows and the user store are unchanged, and one session per device is preserved |
| `Auth.AuthService.GetRefreshToken` | src/auth/auth.service.ts:125-152 | has exactly the effect `GetRefreshTokenEffect` describes |
| `Auth.AccessToken` | src/auth/auth.service.ts:114-120 | the access token is `"Bearer "` followed by the signature of exactly the claims `{id, email, roles}` of the user |
| `Auth.GenerateTokensEffect` | src/auth/auth.service.ts:113-123 | the access token is `"Bearer "` followed by the signature of exactly `{id, email, roles}` of the user, paired with the row and table that `getRefreshToken(user.id, agent)` gives |
| `Auth.AuthService.GenerateTokens` | src/auth/auth.service.ts:113-123 | has exactly the effect `GenerateTokensEffect` describes |
| `Auth.RegisterTryEffect` | src/auth/auth.service.ts:31-45 | inside the `try`, a known email raises `Conflict` with nothing changed, otherwise the call is `create` on the payload |
| `Auth.RegisterEffect` | src/auth/auth.service.ts:30-52 | every failure is an internal error with nothing changed. Success happens exactly when the email is new and hashing did not fail. Then exactly one user is added: fresh id, the email, the digest, roles `[USER]`, found by that email. The payload is cached and the token table is unchanged |
| `Auth.AuthService.Register` | src/auth/auth.service.ts:30-52 | has exactly the effect `RegisterEffect` describes |
| `Auth.LoginEffect` | src/auth/auth.service.ts:54-69 | when the email's user exists its cache entry is evicted, whatever the outcome. Success happens exactly when the user exists with a non-empty digest that `compare` accepts (`PasswordAccepted`, lines 61-62). Every failure is `Unauthorized` and leaves users and tokens unchanged. Success issues the bearer token and the device's rotated or new session |
| `Auth.AuthService.Login` | src/auth/auth.service.ts:54-69 | has exactly the effect `LoginEffect` describes |
| `Auth.ProviderAuthEffect` | src/auth/auth.service.ts:71-96 | the user store becomes `create`'s result on both branches. Failure happens exactly when hashing fails. It is then an internal error on the found branch and `BAD_REQUEST` on the other, with nothing changed. Success signs for the upserted user: the existing account's id or the fresh id, now tagged with the provider. The token table is then exactly what `getRefreshToken` leaves for that user and agent. An existing account always keeps its password; a new account has none |
| `Auth.AuthService.ProviderAuth` | src/auth/auth.service.ts:71-96 | has exactly the effect `ProviderAuthEffect` describes |
| `Auth.DeleteRefreshTokenEffect` | src/auth/auth.service.ts:98-100 | removes exactly the row with the given value and returns it; an absent value raises the store's not-found error with nothing changed |
| `Auth.AuthService.DeleteRefreshToken` | src/auth/auth.service.ts:98-100 | has exactly the effect `DeleteRefreshTokenEffect` describes |
| `Auth.RefreshTokensEffect` | src/auth/auth.service.ts:102-111 | the presented value is never in the table afterwards. An absent value fails with nothing changed. An expired row (`exp < now`) is deleted and fails `Unauthorized`. For a present, unexpired row the user store becomes what `findOne(owner)` leaves (a miss caches the row it reads). Success happens exactly when `findOne` answers with a user row; otherwise the call fails with an internal error, as `generateTokens` does on `user.id` of null. The access token then signs that row, which may be a stale cached copy. A later failure leaves the table with just the presented row deleted. A success reissues for the row's owner on the calling agent, over the table with the presented row deleted |
| `Auth.AuthService.RefreshTokens` | src/auth/auth.service.ts:102-111 | has exactly the effect `RefreshTokensEffect` describes |
| `AuthProperties.RefreshIsSingleUse` | src/auth/auth.service.ts:102-111 | whatever a first refresh with a value did, a second refresh with the same value fails |
| `AuthProperties.LogoutRevokes` | src/auth/auth.service.ts:98-111 | after logout with a value, refreshing with that value fails |
| `AuthProperties.RepeatedLoginRotatesSession` | src/auth/auth.service.ts:125-152 | two logins of an existing user with an accepted password from the same device both succeed. The second replaces the first session's value: the first value is gone and no row is added |
| `AuthProperties.RegisterThenLogin` | src/auth/auth.service.ts:30-69 | registering a new email with a password whose digest `compare` accepts makes a login with those credentials succeed, for the new user |
| `AuthProperties.RegisterConflictSurfacesAsInternal` | src/auth/auth.service.ts:39-50 | for a known email the `try` raises `Conflict`, yet `register` raises an internal error and changes nothing |
| `AuthProperties.LoginRefreshReplay` | src/auth/auth.service.ts:54-152 | a login with an accepted password succeeds. Its refresh value, presented before expiry, yields a new, different value. Presenting the old value again fails with `RecordNotFound` |
| `AuthProperties.FindOneByEmailIgnoresCache` | src/user/user.service.ts:72-82 | stores that differ only in their caches give the same answer to a lookup by email |
| `AuthProperties.AddRoleLeavesCachedRowStale` | src/user/user.service.ts:98-116 | a cache entry present before `addRole` is still what `findOne` answers afterwards |
| `AuthProperties.ProviderLoginKeepsPassword` | src/auth/auth.service.ts:71-87 | a provider login to an existing account, with hashing producing no digest, succeeds and leaves the stored password unchanged |
| `AuthProperties.ProviderLoginNeedsHashOfNothing` | src/auth/auth.service.ts:71-96 | when hashing an absent password is rejected, every provider login fails: internal error if the email is known, `BAD_REQUEST` if not, nothing changed |

## Left out

- HTTP controllers: routing, cookies, redirects, the rxjs pipelines and the
  Google/Yandex token-info calls (network I/O) in `src/auth/auth.controller.ts`
  and `src/user/user.controller.ts`.
- Request validation and serialisation decorators (DTOs, `UserResponse`).
  The password-match constraint is not part of this model.
- Dependency-injection modules and bootstrap.
- Logging: the `logger.error` calls in the `catch` handlers of `register`,
  `login` and `providerAuth` are output only and change no state.
- `hashPassword`: bcrypt and its cost factor 5 are not modelled. Its outcome
  enters `create` as the `hashed` parameter.
- `compare` and JWT signing are opaque functions. The signer's own claims,
  such as issue time and expiry, are not modelled.
- Cache time-to-live (`convertToSecondsUtil` is not part of this model).
  The cache is a plain map whose entries never expire.
- Concurrency and atomicity of store calls, including racing refreshes. Each
  call is one sequential step.
- Store failures other than `delete` of a missing row. This covers the
  `.catch` handlers around `findOneByEmail` and uniqueness-constraint races.
- The user columns for the blocked flag and the timestamps. They are not
  read by the services.
- The removal of a user's sessions when the user row is deleted. That
  cascade belongs to the database schema, which is not part of this model.
- `Users.CreateEffect`: the cached payload carries email, password and
  provider. The register payload's `passwordRepeat` field is not carried.
- `Domain.RoleNamed`: JavaScript's `in` also accepts inherited property
  names, such as `constructor`, which the store would then reject. The model
  accepts only the enumeration's own members.
- `Auth.RefreshTokensEffect`: `findOne` can answer with a cached `create`
  payload, which has no id or roles. The source then signs claims without
  them and calls `getRefreshToken` with an undefined user id. The ORM drops
  a filter whose value is undefined, so `findFirst` (lines 126-131) matches
  any session of that user agent, whoever owns it, and the update at line
  135 rotates that session. When no session of that agent exists, the
  `create` at lines 144-151 fails for want of a user id. The model does not
  capture either outcome: it ends that path with an internal error after
  the presented row is deleted. The same holds for
  `Auth.AuthService.RefreshTokens`.
- `Auth.AuthService.RefreshTokens`: the source reads the clock twice, once
  for the expiry check and once for the new expiry. The model uses one
  reading, `now`.
