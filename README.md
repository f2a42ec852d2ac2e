# sp-filter-redis: the migration gate, modelled in Dafny

`RequestFilter` is a servlet filter that sits in front of a service during a
staged platform migration. For each request it:

1. resolves the caller (a *Principal*). A trusted `x-sp-customer-id` header is
   used as the caller's `sckMbbrNo` directly. Otherwise it takes a `JSESSIONID`
   from a header, or failing that from a cookie, and reads the session record
   stored under it in the session Redis. The repository tries the member field
   `LoginUserInfo` first and the guest field `LoginAppId` second.
2. reads the caller's status for the route `XO_SP_ROUTE` from the
   migration-status Redis, keyed by `sckMbbrNo`.
3. applies the policy. `BLOCK` raises `InternalServerException` and the chain
   is not called. `ACTIVE` puts `x-sp-xo-migration-yn: Y` on the wrapped
   request. Any other status puts `x-sp-xo-migration-yn: N`. No identity, or no
   status, forwards the wrapper with nothing added.

The model has these parts:

- The two Redis stores are map values (`HashStore.Hash<V>`: key to a hash of
  field to value). `HGET` is `HashStore.HashGet`.
- A Reactor `Mono` that completes with at most one value is an `Option`.
  `switchIfEmpty` is `Option.Or`.
- The pure resolution chain (`getPrincipalSession` and the repository) is
  written as functions.
- `doFilter` is a method. It allocates a `MutableRequest` wrapper object,
  changes it only through `PutHeader`, and returns what the chain receives,
  `Forward(original, putHeaders)`, or `ServerError`. Its postconditions state
  the five-way policy against `RouteStatus`, which is the caller's status on
  the route as a function of the request and both stores.

Files:

- `wrappers.dfy`: `Option`.
- `hash_store.dfy`: `Map.get` and `HGET`.
- `static_values.dfy`: the shared names.
- `route_id.dfy`: the route enumeration.
- `principal.dfy`: `Principal`.
- `session_repository.dfy`: the session adapter.
- `request_filter.dfy`: the gate, the wrapper, and its properties and worked examples.

Where the design notes and the code differ, the model follows the code:

- The design says a Principal's `sckMbbrNo` is non-empty before any status
  lookup. The code does not check this. An empty `x-sp-customer-id` value is
  used as the lookup key as it is, and the model does the same
  (`CustomerIdSkipsSessionStore` holds for every header value, `""` included).

## Model

| member | source | states |
|---|---|---|
| `Wrappers.Option.Or` | src/main/java/kr/co/starbucks/spfilterredis/filter/infrastructure/repositories/PrincipalSessionRedisReactiveRepository.java:29-31 | `switchIfEmpty`: a present value is kept, and an empty one is replaced by the alternative. So the trailing `switchIfEmpty(Mono.empty())` changes nothing. |
| `HashStore.HashGet` | src/main/java/kr/co/starbucks/spfilterredis/filter/infrastructure/repositories/PrincipalMigrationStatusRedisReactiveRepository.java:20-22 | A hash read is present exactly when the key and the field both exist, and then it is the stored value. |
| `HashStore.Get` | src/main/java/kr/co/starbucks/spfilterredis/filter/RequestFilter.java:132-134 | `Map.get` is present exactly when the key exists (otherwise Java's null), and then it is the stored value. |
| `SessionRepository.GetPrincipalSession` | src/main/java/kr/co/starbucks/spfilterredis/filter/infrastructure/repositories/PrincipalSessionRedisReactiveRepository.java:28-32 | If `LoginUserInfo` exists, its record is returned. The `LoginAppId` record is returned only when `LoginUserInfo` is absent. The result is absent iff neither field exists under the session id. |
| `SessionRepository.GetUserType` | src/main/java/kr/co/starbucks/spfilterredis/filter/infrastructure/repositories/PrincipalSessionRedisReactiveRepository.java:34-38 | Uses the same member-then-guest field order and has the same absence condition. |
| `SessionRepository.PrincipalSessionIsLocal` | src/main/java/kr/co/starbucks/spfilterredis/filter/infrastructure/repositories/PrincipalSessionRedisReactiveRepository.java:28-32 | Two stores that agree on the hash under the session id give the same lookup result. |
| `SessionRepository.OtherSessionsIrrelevant` | src/main/java/kr/co/starbucks/spfilterredis/filter/infrastructure/repositories/PrincipalSessionRedisReactiveRepository.java:29-30 | Writing any hash under a different session id does not change the lookup. |
| `SessionRepository.MemberShadowsGuest` | src/main/java/kr/co/starbucks/spfilterredis/filter/infrastructure/repositories/PrincipalSessionRedisReactiveRepository.java:29 | When the member field exists, replacing the guest field's record does not change the result. |
| `SessionRepository.UserTypeKeyIgnored` | src/main/java/kr/co/starbucks/spfilterredis/filter/infrastructure/repositories/PrincipalSessionRedisReactiveRepository.java:15-37 | The user-type lookup never reads the declared `UserType` field: writing that field does not change its result. |
| `RequestFilter.FindCookie` | src/main/java/kr/co/starbucks/spfilterredis/filter/RequestFilter.java:118-125 | The cookie lookup finds a value iff some cookie has the name, and the value found belongs to a cookie of that name (the `findAny` promise). |
| `RequestFilter.SessionId` | src/main/java/kr/co/starbucks/spfilterredis/filter/RequestFilter.java:114-127 | A `JSESSIONID` header gives the session id. Without the header, there is a session id iff the cookies are non-null and one is named `JSESSIONID`, and it is that cookie's value. |
| `RequestFilter.PrincipalFromSession` | src/main/java/kr/co/starbucks/spfilterredis/filter/RequestFilter.java:131-136 | Copies exactly `userId`, `userName` and `sckMbbrNo` from the record's keys of the same names, each unset when the key is missing. `userType`, `appId` and `userStatus` stay unset. |
| `RequestFilter.ResolvePrincipal` | src/main/java/kr/co/starbucks/spfilterredis/filter/RequestFilter.java:106-140 | With `x-sp-customer-id` present (any value), the Principal has only `sckMbbrNo`, equal to that value. Otherwise: no session id gives no Principal; with a session id, a Principal exists iff the session record exists, and it is built from that record. |
| `RequestFilter.CustomerIdSkipsSessionStore` | src/main/java/kr/co/starbucks/spfilterredis/filter/RequestFilter.java:107-110 | With the identity header present, any two session stores give the same Principal, and the status is read under the header's value in field `XO_SP_ROUTE`. |
| `RequestFilter.SessionHeaderWinsOverCookie` | src/main/java/kr/co/starbucks/spfilterredis/filter/RequestFilter.java:114-117 | With a `JSESSIONID` header, the session id is the header value, whatever the cookies are. |
| `RequestFilter.NoIdentityBypasses` | src/main/java/kr/co/starbucks/spfilterredis/filter/RequestFilter.java:112-127 | With no identity header, no session header and no matching cookie, no status is found, for every session store and every status store. |
| `RequestFilter.MissingSessionBypasses` | src/main/java/kr/co/starbucks/spfilterredis/filter/RequestFilter.java:129-138 | A session id without a session record gives no status, for every status store. |
| `RequestFilter.SessionStatusKey` | src/main/java/kr/co/starbucks/spfilterredis/filter/RequestFilter.java:129-146 | For a session-derived Principal, the status is the record's `sckMbbrNo` key read at field `XO_SP_ROUTE`. |
| `RequestFilter.GetPrincipalMigrationStatus` | src/main/java/kr/co/starbucks/spfilterredis/filter/RequestFilter.java:142-148 | Present iff the store holds the route's field under the Principal's `sckMbbrNo`. When present, `userStatus` is that status and every other field is unchanged. |
| `RequestFilter.MigrationFlag` | src/main/java/kr/co/starbucks/spfilterredis/filter/RequestFilter.java:103 | The header value is `"Y"` iff the status is exactly `"ACTIVE"` (case-sensitive), and otherwise `"N"`. |
| `RequestFilter.PutMigrationStatusHeader` | src/main/java/kr/co/starbucks/spfilterredis/filter/RequestFilter.java:100-104 | Puts exactly one header, `x-sp-xo-migration-yn`, with the flag's value. No other header changes. |
| `RequestFilter.MutableRequest.constructor` | src/main/java/kr/co/starbucks/spfilterredis/filter/RequestFilter.java:75 | The wrapper wraps the original request and starts with no overrides. |
| `RequestFilter.MutableRequest.PutHeader` | src/main/java/kr/co/starbucks/spfilterredis/filter/RequestFilter.java:103 | Sets the name to the value and leaves the other overrides as they were. |
| `RequestFilter.PutHeaderLastWriteWins` | src/main/java/kr/co/starbucks/spfilterredis/filter/RequestFilter.java:100-104 | Two puts of one name leave only that name, holding the second value. |
| `RequestFilter.DoFilter` | src/main/java/kr/co/starbucks/spfilterredis/filter/RequestFilter.java:73-98 | No status (no identity, no session record, or no status record): the wrapper is forwarded with nothing put on it. The outcome is a server error iff the status is `BLOCK`. `ACTIVE` forwards with exactly `x-sp-xo-migration-yn: Y`. Any other status forwards with exactly `...: N`. A forwarded request always wraps the original. |
| `RequestFilter.ExampleActiveForwardsY` | src/main/java/kr/co/starbucks/spfilterredis/filter/RequestFilter.java:73-98 | `x-sp-customer-id: 20220712112147hilbmq` with status `ACTIVE` is forwarded with `x-sp-xo-migration-yn: Y`. |
| `RequestFilter.ExampleBlockFails` | src/main/java/kr/co/starbucks/spfilterredis/filter/RequestFilter.java:80-85 | The same identity with status `BLOCK` is a server error. |
| `RequestFilter.ExampleUnknownSessionBypasses` | src/main/java/kr/co/starbucks/spfilterredis/filter/RequestFilter.java:114-138 | A request whose only identity is a `JSESSIONID` cookie with no session record is forwarded unchanged. |

## Left out

- Redis connections, templates, serializers and timeouts (the two Redis configuration classes): these are infrastructure. The stores are map values passed to the gate.
- Reactor scheduling and `.block()`: each lookup is an `Option`. Store failures (unreachable, timeout) are not modelled, so the choice between failing open and failing closed on them is not captured.
- `Mono.just(null)` for a cookie whose value is null: cookie values are non-null strings here. For the same reason, the eager evaluation of `Optional.orElse` arguments (the cookie array is scanned even when a header already decided) has no observable effect in the model.
- A session record without `sckMbbrNo`: the source then passes a null key to the status store, and the driver's behaviour is not visible. `DoFilter` and `RouteStatus` require `KeyResolvable` (the resolved Principal has a `sckMbbrNo`) instead of guessing an outcome.
- FindCookie: `findAny` may return any matching cookie. The contract promises only "some cookie of that name", although the definition takes the first match.
- Header names are matched exactly, with one value per name. Servlet containers match header names case-insensitively and may carry several values; that is not modelled.
- `MutableHttpServletRequest` is not part of this model beyond `putHeader`, which is modelled as a map overwrite. How downstream reads merge the overrides with the original headers is not modelled.
- RequestFilter.GetPrincipalMigrationStatus: `setUserStatus` mutates a freshly built Principal that nothing else references. It is modelled as a record update on a value, so aliasing is not captured.
- SessionRepository.GetUserType: the store is read as string-valued. The source reads the same JDK-serialised hash fields as `getPrincipalSession` and only types them as `String`; that typing is not modelled. No caller uses this lookup.
- The exception hierarchy (`GlobalException`, `InternalServerException`, `UnauthorizedException`, `ResponseCode`) is reduced to the single `ServerError` outcome. The gate never raises `UnauthorizedException`.
- The migration-status repository is only an `HGET`. It is modelled as `HashStore.HashGet` on the status map.
- Bean activation conditions, filter registration, the sample controllers and service, the embedded Redis server and application bootstrap are left out. They are wiring and test plumbing with no gate logic.
