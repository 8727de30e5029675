# Enterprise-licence subscription service, modelled in Dafny

This project models the subscription core of Tolgee's enterprise edition,
`EeSubscriptionServiceImpl`. A self-hosted instance keeps its licence in one
subscription row with the fixed id 1. A single-entry cache (key `"1"`) sits in
front of that row. The service does the following:

- activates a licence key;
- updates the row's status from what the licence server reports;
- reports seat usage and classifies the server's errors;
- releases the licence.

In this code base the licence server is stubbed out. Activation never calls it,
and the refresh only loads the row. The model follows the code as written.

Files:

- `types.dfy` (module `Types`): the entity, the cached snapshot (`EeSubscriptionDto`), the server's subscription answer, remote errors, thrown exceptions and the constants (the fixed feature list, message codes, id and cache key).
- `classifiers.dfy` (module `Classifiers`): the pure decisions. These are the substring test on a 404's message, the spending-limit classifier and the two-day threshold.
- `service.dfy` (module `SubscriptionService`): class `EeSubscriptionService`. Its fields are `rows` (the repository table, by id) and `cache` (the cache, by key). Its methods update those fields. `Valid()` is the invariant every method keeps. It says only id 1 and key `"1"` are ever used, and a cached entry always equals the projection of the stored row, so a read never returns stale data.
- `scenarios.dfy` (module `Scenarios`): sequences of calls whose outcome follows from the operations' contracts.

Modelling choices:

- **Remote calls.** Each call to the licence server is an input: the `RemoteError` it raised, or `None` when it answered. Each operation returns the request it posted.
- **Time.** `now` is the current date in milliseconds.
- **Cache eviction.** `@CacheEvict` takes effect only when the annotated operation returns normally. So the throwing paths of `setLicenceKey` and `releaseSubscription` leave the cache as it was.
- **Calls on `this`.** These bypass the Spring proxy, so they evict nothing. This is why `checkSubscription` (`CheckSubscription`) calls `refreshSubscription` but changes nothing, not even the cache.
- **Independent transaction.** The `ERROR` write of the licence-not-found handler runs in a transaction of its own. In the model it is already in the store when the handler returns the rethrown error.

## Model

| member | source | states |
|---|---|---|
| `Classifiers.Contains` | ee/backend/app/src/main/kotlin/io/tolgee/ee/service/EeSubscriptionServiceImpl.kt:291 | Kotlin's `String.contains` holds exactly when the substring occurs at some index. |
| `Classifiers.NamesMissingLicence` | ee/backend/app/src/main/kotlin/io/tolgee/ee/service/EeSubscriptionServiceImpl.kt:291 | A 404 counts as licence-not-found exactly when its message is non-null and contains the `license_key_not_found` code somewhere. |
| `Classifiers.EmbeddedCodeIsRecognised` | ee/backend/app/src/main/kotlin/io/tolgee/ee/service/EeSubscriptionServiceImpl.kt:291 | Any message that embeds the licence-not-found code is recognised, whatever text surrounds the code. |
| `Classifiers.CatchingSeatsSpendingLimit` | ee/backend/app/src/main/kotlin/io/tolgee/ee/service/EeSubscriptionServiceImpl.kt:166-176 | A success passes through unchanged. A 400 with the spending-limit code becomes a business error with the same code and params. Every other error is rethrown unchanged. The result succeeds exactly when the input does, and no raw spending-limit 400 escapes. |
| `Classifiers.IsConstantlyFailing` | ee/backend/app/src/main/kotlin/io/tolgee/ee/service/EeSubscriptionServiceImpl.kt:219-221 | A remote check is persistently failing exactly when the last valid check is known and lies more than two days (172800000 ms) before now. |
| `SubscriptionService.EeSubscriptionService.FindSubscriptionEntity` | ee/backend/app/src/main/kotlin/io/tolgee/ee/service/EeSubscriptionServiceImpl.kt:106-108 | Returns the row with the fixed id 1 if there is one, and nothing otherwise. |
| `SubscriptionService.EeSubscriptionService.FindSubscriptionDto` | ee/backend/app/src/main/kotlin/io/tolgee/ee/service/EeSubscriptionServiceImpl.kt:101-104 | A present cache entry is returned as it is. Otherwise the stored row's projection (possibly absent) is returned and cached. Either way the result is the projection of the stored row, and the store is unchanged. |
| `SubscriptionService.EeSubscriptionService.Save` | ee/backend/app/src/main/kotlin/io/tolgee/ee/service/EeSubscriptionServiceImpl.kt:305-308 | Upserts the entity under id 1, returns it and evicts the cache entry. |
| `SubscriptionService.EeSubscriptionService.SetLicenceKey` | ee/backend/app/src/main/kotlin/io/tolgee/ee/service/EeSubscriptionServiceImpl.kt:114-132 | With a stored row, it throws the already-licensed error and leaves the store and the cache untouched. Without one, it stores and returns a new entity: the given key, the new-entity status, the constant period end, the fixed feature list and `lastValidCheck = now`. The cache entry is evicted. |
| `SubscriptionService.EeSubscriptionService.RefreshSubscription` | ee/backend/app/src/main/kotlin/io/tolgee/ee/service/EeSubscriptionServiceImpl.kt:191-194 | Leaves the store unchanged and evicts the cache entry. |
| `SubscriptionService.EeSubscriptionService.CheckSubscription` | ee/backend/app/src/main/kotlin/io/tolgee/ee/service/EeSubscriptionServiceImpl.kt:185-189 | The scheduled check changes neither the store nor the cache: it calls `refreshSubscription` on `this`, which bypasses that method's cache eviction. |
| `SubscriptionService.EeSubscriptionService.UpdateLocalSubscription` | ee/backend/app/src/main/kotlin/io/tolgee/ee/service/EeSubscriptionServiceImpl.kt:205-216 | A remote answer's period end, plan features and status are copied into the entity, with `lastValidCheck = now`; the result is saved and the cache evicted. With no answer, nothing changes. |
| `SubscriptionService.EeSubscriptionService.SetSubscriptionKeyUsedByOtherInstance` | ee/backend/app/src/main/kotlin/io/tolgee/ee/service/EeSubscriptionServiceImpl.kt:196-199 | The entity, with only its status changed to `KEY_USED_BY_ANOTHER_INSTANCE`, is saved and the cache evicted. |
| `SubscriptionService.EeSubscriptionService.HandleConstantlyFailingRemoteCheck` | ee/backend/app/src/main/kotlin/io/tolgee/ee/service/EeSubscriptionServiceImpl.kt:218-226 | When the check is persistently failing, the entity with status `ERROR` is saved and the cache evicted. Otherwise nothing changes, including when the last valid check is null. |
| `SubscriptionService.EeSubscriptionService.CatchingLicenseNotFound` | ee/backend/app/src/main/kotlin/io/tolgee/ee/service/EeSubscriptionServiceImpl.kt:287-303 | On a licence-not-found 404 with a stored row, the row becomes `ERROR` (already committed) and the same error is rethrown. With no row, `NoActiveSubscriptionException` is thrown and nothing changes. Any other outcome, including a 404 without the code, passes through with no state change. |
| `SubscriptionService.EeSubscriptionService.ReportUsage` | ee/backend/app/src/main/kotlin/io/tolgee/ee/service/EeSubscriptionServiceImpl.kt:274-285 | With no subscription, nothing is posted and nothing changes. Otherwise it posts the seat count for the snapshot's key. The error from that post goes through the not-found handler and then the spending-limit classifier, with the effects of each. |
| `SubscriptionService.EeSubscriptionService.CheckCountAndReportUsage` | ee/backend/app/src/main/kotlin/io/tolgee/ee/service/EeSubscriptionServiceImpl.kt:254-272 | Reads the subscription through the cache and reports usage for the stored key. `NoActiveSubscriptionException` never escapes. A spending-limit 400 becomes a business error and the store is unchanged. A licence-not-found 404 leaves the row `ERROR` and is rethrown. Other errors propagate with the store unchanged. With no subscription, nothing is posted. On every path except the licence-not-found one, the cache afterwards holds the projection of the stored row that the read put there. |
| `SubscriptionService.EeSubscriptionService.ReleaseSubscription` | ee/backend/app/src/main/kotlin/io/tolgee/ee/service/EeSubscriptionServiceImpl.kt:327-343 | With no row, it posts nothing, succeeds and only evicts the cache. Otherwise it posts the release of the stored key. On success or a licence-not-found 404, all rows are deleted and the cache evicted. Any other error propagates and neither the store nor the cache changes. |
| `SubscriptionService.EeSubscriptionService.ReportError` | ee/backend/app/src/main/kotlin/io/tolgee/ee/service/EeSubscriptionServiceImpl.kt:244-252 | Posts the error with the stored key exactly when a row exists. It never fails and changes nothing. |
| `Scenarios.ActivateThenRead` | ee/backend/app/src/main/kotlin/io/tolgee/ee/service/EeSubscriptionServiceImpl.kt:114-130 | Activating an unlicensed instance succeeds. The record has the input key, `lastValidCheck = now`, the fixed features and a status other than `ERROR`. The next read returns that record's projection. |
| `Scenarios.ActivateTwice` | ee/backend/app/src/main/kotlin/io/tolgee/ee/service/EeSubscriptionServiceImpl.kt:115-119 | A second activation fails with the already-licensed error, and the first activation's record stays stored. |
| `Scenarios.ReadTwice` | ee/backend/app/src/main/kotlin/io/tolgee/ee/service/EeSubscriptionServiceImpl.kt:101-104 | Two reads with nothing in between return the same snapshot, namely the projection of the stored row. |
| `Scenarios.SaveBetweenReads` | ee/backend/app/src/main/kotlin/io/tolgee/ee/service/EeSubscriptionServiceImpl.kt:101-108 | After a save, the next read returns the saved record's projection, not the snapshot cached before. |
| `Scenarios.UsageReportAgainstUnknownKey` | ee/backend/app/src/main/kotlin/io/tolgee/ee/service/EeSubscriptionServiceImpl.kt:274-300 | A licence-not-found 404 during usage reporting is rethrown, and the next read shows status `ERROR` for the same key. |
| `Scenarios.ReleaseAlreadyReleasedKey` | ee/backend/app/src/main/kotlin/io/tolgee/ee/service/EeSubscriptionServiceImpl.kt:329-343 | A release answered by a licence-not-found 404 succeeds, and the next read finds no subscription. |

## Left out

- HTTP transport and JSON: `postRequest`, the HTTP client and Jackson's `parseBody` are not modelled. A remote call is its outcome, and a 400's body is taken as already parsed. A body that fails to parse is not modelled.
- Spring machinery (`@Scheduled`, `@Transactional`, the lazy `self` proxy, the transaction manager) is not modelled. Its effects are written out as explicit updates of the store and the cache.
- `CatchingLicenseNotFound`: the model assumes the `ERROR` write inside the new transaction commits. The helper `executeInNewTransaction` is not part of this model. If it rolls back when its block throws (the block rethrows at line 299), the write would not survive.
- `prepareSetLicenceKey` and `getRemoteSubscriptionInfo` are not modelled. They only return constant payloads (mocked plan, usage, prices, ids and timestamps), and nothing in the core calls `getRemoteSubscriptionInfo`.
- The entity's `name` (line 127) and `currentPeriodStart` are not modelled. The first is a constant string and the second is never written.
- `SetLicenceKey` writes the period end of line 128 as the constant `ActivationPeriodEnd`, taken at UTC. The source's constructor uses the server's local time zone.
- `SetLicenceKey`: the default status of a new `EeSubscription` is set by the entity class, which is not part of this model. It is taken as `UNKNOWN`. `ActivateThenRead`'s `status != ERROR` holds only because that default is not `ERROR`.
- Message codes are taken as the lower-case names of the `Message` constants. The `Message` enum is not part of this model.
- `isSubscribed` always returns true, and the `bypassSeatCountCheck` flag is never read. The seat check `checkUserCount` does nothing, and the `throw` at line 131 is unreachable. None of these is modelled.
- The seat counts from `countAllEnabled` are inputs. In `setLicenceKey` the count is read and never used, so it is omitted there.
- Long (64-bit) arithmetic on times and seat counts is unbounded in the model. Wrap-around would need dates or counts far outside any real range.
- Feature flags other than the fourteen in the fixed list appear only as `OtherFeature`.
- JPA's in-place entity mutation is not modelled as such. The entity is a value, and each assignment followed by `save` is one store write. Aliasing between a caller's entity and the managed one is therefore not captured.
- Concurrency between the scheduler and request threads is not modelled. Every operation runs to completion before the next one starts.
