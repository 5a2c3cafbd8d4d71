# contextd, modelled in Dafny

contextd keeps one shared JSON-like document (the *context*) under a context key in a
pluggable store. Several `Contextd` instances, possibly in different processes, cache the
document in memory, mutate it only while holding a distributed lock stored under
`<context_key>_lock`, save it back, and may be told through publish/subscribe notifications
to reload it. An `OverlayStorageBackend` lets one logical store be a primary plus an ordered
list of secondaries: the primary answers reads and locks, writes and releases are fanned out.

The model has five modules:

- `Protocol` (protocol.dfy): document values, the two errors a caller can see (storage
  unreachable, lock not obtained with its message), `Result`, and `Op`, one storage call with
  its arguments.
- `Memory` (memory_backend.dfy): the storage interface of `backends/base.py` implemented in
  memory with the key-value store's semantics: a missing key loads as `{}`, lock acquisition
  is set-if-absent with a time to live, release is compare-and-delete. Time is an explicit
  clock in milliseconds and a lock record counts while `now < expiresAt`. A constant
  `available` flag stands for an unreachable store: every call that does I/O then fails.
  The class's effect on its state is given by pure step functions (`AfterSave`,
  `Acquired`, `Released`, ...) about which the lock and round-trip lemmas are proved.
- `Overlay` (overlay_backend.dfy): `OverlayBackend`, a class over one primary and a sequence
  of secondaries, recording every delegated call with its target in `calls`. Saves and
  releases go to the primary and then to each secondary in order, stopping at the first
  failure; the contracts say exactly which backends received the write and which did not.
- `Backend` (backend.dfy): the storage a `Contextd` is given, either one backend or an
  overlay, with one dispatch method per storage operation whose contracts give the new state
  of every backend involved.
- `Context` (context.dfy): the `Contextd` class with its cache `context`, its lock key and
  owner token, and `trace`, the sequence of storage calls it has made. `AcquireLock` is the
  bounded retry loop: attempt `i` happens at time `now + i * retryDelay` (the 0.1 s default
  delay is 100 ms) and the loop is specified by `FirstFree`, the first attempt at which the
  lock record has expired or is absent.
- `Scenarios` (scenarios.dfy): end-to-end runs over fresh backends: an overlay save read
  back from every backend, an overlay lock and release, two stores contending for the lock,
  and the lost-update pair described under Findings.

Raised exceptions are `Err` results. In `update_context` and `transactional_update` the
release in the `finally` block runs whatever the save returned, and when both fail the
release's error is the one reported, as Python's `finally` does.

The program's documented intent is that a failed notification never fails a save, while
the overlay awaits its publish inside the save (backends/overlay_backend.py:16-17), so a
failing publish would surface as an error of the save. That path cannot arise in the model:
a backend's reachability is fixed, so a primary that accepted the save also accepts the
publish that follows it.

## Model

| member | source | states |
|---|---|---|
| Memory.MemoryBackend.constructor | backends/base.py:3-26 | a new backend holds no document, no lock, no publication and no subscription |
| Memory.MemoryBackend.LoadContext | backends/redis_backend.py:13-15 | load returns the stored document, `{}` for a key never saved, and fails exactly when the store is unreachable |
| Memory.MemoryBackend.SaveContext | backends/redis_backend.py:17-20 | save stores the document under the key and, when notifications are on, publishes on the channel named after the key; nothing changes when the store is unreachable |
| Memory.MemoryBackend.PublishUpdate | backends/redis_backend.py:22-24 | publishing records the channel only when notifications are on, and can fail only then |
| Memory.MemoryBackend.SubscribeToUpdates | backends/redis_backend.py:26-28 | subscribing records the (channel, callback) pair only when notifications are on, and can fail only then |
| Memory.MemoryBackend.AcquireLock | backends/redis_backend.py:30-31 | set-if-absent: succeeds exactly when no live record exists, and then the record is (token, now + ttl) |
| Memory.MemoryBackend.ReleaseLock | backends/redis_backend.py:33-41 | compare-and-delete: the record is removed only when the token owns it |
| Memory.SaveThenLoad | backends/redis_backend.py:13-20 | save then load returns the saved document, leaves other keys as they were, and a never-saved key loads as `{}` |
| Memory.MutualExclusion | backends/redis_backend.py:30-31 | after one token takes a free lock, every attempt by any token before the deadline fails and leaves the record unchanged |
| Memory.SelfExpiry | backends/redis_backend.py:30-31 | a lock that is never released can be taken by another token from its deadline on |
| Memory.ReleaseAuthorization | backends/redis_backend.py:33-41 | a release with a token other than the owner's changes nothing |
| Memory.OwnerRelease | backends/redis_backend.py:30-41 | acquiring a free lock and releasing it with the same token removes exactly that record |
| Overlay.FirstUnavailable | backends/overlay_backend.py:14-15 | the index where a sequential fan-out stops: every backend before it is reachable, the one at it is not |
| Overlay.FirstUnavailableAt | backends/overlay_backend.py:14-15 | the stopping index is the only index with those two properties |
| Overlay.Fanned | backends/overlay_backend.py:14-15 | the calls a fan-out issues: one per secondary, in index order, each the same operation |
| Overlay.OverlayBackend.Attempted | backends/overlay_backend.py:13-15 | how many secondaries a write reaches: none if the primary fails, otherwise up to and including the first failing one, all of them when all are reachable |
| Overlay.OverlayBackend.constructor | backends/overlay_backend.py:4-7 | the overlay keeps the primary, the secondaries in order and the notification flag, with no call made yet |
| Overlay.OverlayBackend.LoadContext | backends/overlay_backend.py:9-10 | a read returns the primary's answer whatever the secondaries hold, and only the primary is called |
| Overlay.OverlayBackend.SaveContext | backends/overlay_backend.py:12-17 | the primary is written first, then each secondary in order up to the first failure; secondaries after it are untouched; the save succeeds exactly when every backend is reachable; only then, and only with notifications on, the primary publishes the key |
| Overlay.OverlayBackend.Forward | backends/overlay_backend.py:14-15 | one secondary receives the write, and the call is recorded against that secondary |
| Overlay.OverlayBackend.Replicate | backends/overlay_backend.py:14-15 | the secondaries receive the write in order up to the first failure and no further; the result is an error exactly when one is unreachable |
| Overlay.OverlayBackend.PublishUpdate | backends/overlay_backend.py:19-21 | publishes on the primary only, and only with notifications on; otherwise no call is made |
| Overlay.OverlayBackend.SubscribeToUpdates | backends/overlay_backend.py:23-25 | subscribes on the primary only, and only with notifications on; otherwise no call is made |
| Overlay.OverlayBackend.AcquireLock | backends/overlay_backend.py:27-28 | the answer is the primary's; no secondary's state changes |
| Overlay.OverlayBackend.ReleaseLock | backends/overlay_backend.py:30-33 | the release goes to the primary, then to each secondary in order up to the first failure; each backend deletes only a record its token owns |
| Backend.LoadContext | backends/base.py:4-6 | a load through either kind of storage answers with the primary's document; no backend, primary or secondary, changes |
| Backend.SaveContext | backends/base.py:8-10 | a save through either kind of storage gives each backend its exact new state: a single backend stores and publishes as its own save does; an overlay's primary stores, publishes and then publishes again after a complete fan-out, and its secondaries receive the write up to the first failure; the save succeeds exactly when every backend it goes to is reachable |
| Backend.PublishUpdate | backends/base.py:12-14 | a publication through either kind of storage reaches the primary only, and only when notifications are on |
| Backend.SubscribeToUpdates | backends/base.py:16-18 | a subscription through either kind of storage registers the (channel, callback) pair on the primary exactly when notifications are on and it is reachable, changes nothing else, and fails only when notifications are on and the primary is unreachable |
| Backend.AcquireLock | backends/base.py:20-22 | lock acquisition through either kind of storage is set-if-absent on the primary and touches no other backend |
| Backend.ReleaseLock | backends/base.py:24-26 | lock release through either kind of storage is compare-and-delete on the primary and on an overlay's secondaries up to the first failure, and succeeds exactly when every backend is reachable |
| Context.LockKeyOf | context.py:15 | the lock key is the context key followed by `_lock` |
| Context.LockKeyInjective | context.py:15 | two different context keys never share a lock key |
| Context.FirstFreeFrom | context.py:40-44 | the first attempt below the budget at which the lock is free, with every earlier attempt busy; none when all are busy |
| Context.FirstFreeAt | context.py:40-44 | an attempt that finds the lock free after only busy ones is the one the loop stops at |
| Context.AcquireCalls | context.py:41 | every acquisition call carries the lock key, the owner token and the timeout |
| Context.RetryWindow | context.py:38-47 | with nobody else touching the lock, the loop obtains it exactly when it has at least one attempt and the record is absent or expired by the last attempt |
| Context.FreeLockFirstAttempt | context.py:40-44 | a free lock is obtained at the first attempt, with one call |
| Context.AttemptsBounded | context.py:40 | the loop never makes more than `max_retries` calls, and none when `max_retries <= 0` |
| Context.LockedOut | context.py:38-47 | while another instance holds the lock, the loop gives up exactly when the holder's record outlives its last attempt |
| Context.BatchSemantics | context.py:70-71 | applying a batch leaves every written field with its new value and every other field as it was |
| Context.Contextd.constructor | context.py:11-17 | a new store has an empty cache, no call made, and the lock key `<context_key>_lock` |
| Context.Contextd.Initialize | context.py:20-24 | loads the stored document into the cache; subscribes its own reload on the context key's channel exactly when notifications are on, and that registration reaches the primary when its notifications are on too; a failed load leaves the cache as it was and subscribes nothing; no document, lock or publication changes and no secondary is touched |
| Context.Contextd.LoadContext | context.py:27-29 | the cache is replaced wholesale by the stored document (`{}` when none), not merged; on failure it is unchanged; no backend's state changes |
| Context.Contextd.SaveContext | context.py:32-34 | the cache is written under the context key with one save call and the cache is unchanged; the primary's new state is that of the save (with the overlay's extra publication after a complete fan-out) and exactly the secondaries the fan-out reached hold the document |
| Context.Contextd.AcquireLock | context.py:38-47 | attempts stop at the first success; the result is true exactly when some attempt within the budget finds the lock free; each attempt is one call with the lock key, owner token and timeout; no call at all when `max_retries <= 0`; a storage error ends the loop at once; only the primary's lock table changes: no document, publication, subscription or secondary |
| Context.Contextd.ReleaseLock | context.py:49-51 | one release call with the lock key and owner token, deleting the record only if this instance owns it, on the primary and on exactly the secondaries the fan-out reached; nothing else changes |
| Context.Contextd.UpdateContext | context.py:54-64 | with the lock obtained, the field gets the value and every other field is kept, the calls are the acquisitions then save then release, the stored document is the new cache, the lock record is gone even when the save fails, the primary publishes exactly what the save publishes, and the secondaries the fan-out reached hold the new document with the lock released; without the lock it fails with the update message, and no document, lock, publication, subscription or secondary changes |
| Context.Contextd.ApplyOperations | context.py:70-71 | writing the fields one at a time gives the document overridden by the batch |
| Context.Contextd.Commit | context.py:57-61 | the save followed by the release that runs whatever the save did: the stored document becomes the cache, the lock record this instance owns is gone, the release's failure is the one reported, and the secondaries the fan-out reached get both writes |
| Context.Contextd.TransactionalUpdate | context.py:66-77 | with the lock obtained, the cache becomes the old cache overridden by the batch, saved with a single save inside one lock hold, then released whatever the save did, with the same effect on publications and secondaries as an update; without the lock it fails with the transaction message and changes nothing |
| Context.Contextd.GetContext | context.py:79-81 | returns the cache and makes no call |
| Context.Contextd.RefreshingUpdate | context.py:54-64 | corrected update: once the lock is held, the stored document is reloaded and the field is written into it, so the stored document keeps every field saved before; its effect on locks, publications, subscriptions and secondaries is that of the update; without the lock it fails with the update message after only the acquisition calls, with no load, save or release |
| Scenarios.OverlaySaveAndLoad | backends/tests/test_overlay_backend.py:104-115 | after an overlay save, the primary, the secondary and the overlay all load the saved document |
| Scenarios.OverlayAcquireAndRelease | backends/tests/test_overlay_backend.py:128-134 | a free lock is obtained through the overlay and is gone from the primary after release |
| Scenarios.Contention | context.py:54-64 | while one store holds the lock the other's update fails after its retries; after expiry it succeeds, and the first store's reload sees the new document |
| Scenarios.LostUpdate | context.py:54-61 | two stores updating distinct fields one after the other persist only the second field |
| Scenarios.NoLostUpdate | context.py:54-61 | with the refreshing update the same sequence persists both fields |

## Left out

- The Redis, MongoDB and S3 backends are not modelled; the in-memory backend follows only
  Redis's set-if-absent and compare-and-delete semantics. MongoDB's upsert-based lock and
  S3's conditional put are not atomic compare-and-set and are not represented.
- Notification delivery (backends/notifications.py) is not modelled: a subscription is
  recorded as a (channel, callback) pair and callbacks are never invoked, so cache refresh
  by notification happens only through explicit `LoadContext` calls.
- The global event emitter call after a save and all logging are left out: they are module
  globals with no effect on the document or the lock.
- The owner token from `uuid.uuid4()` is a constructor argument; its uniqueness is the
  caller's choice of distinct tokens.
- Interleaving of concurrent coroutines and processes is not modelled: other instances act
  only between whole calls, so no other instance releases or takes the lock while
  `AcquireLock` is sleeping between attempts.
- Context.Contextd.Initialize: with notifications on, the program's `initialize` does not
  return: the subscription it awaits runs the listening loop itself (the Redis `while True`
  at backends/notifications.py:17-20, the MongoDB change stream at
  backends/notifications.py:32-34, which the overlay reaches through
  backends/overlay_backend.py:24-25). The model returns as soon as the registration is
  recorded, which is what a caller of `initialize` evidently expects; the program's blocking
  is not represented.
- Context.Contextd.ApplyOperations: the batch is written into a copy of the cache that then
  replaces it, instead of into the live dictionary; nothing can interrupt the loop, so the
  resulting cache is the same.
- Context.Contextd.AcquireLock: the sleep is modelled only as the clock advancing by
  `retryDelay` between attempts; the final sleep after the last failed attempt has no
  observable effect and is not represented.
- Lock expiry while an update is in progress is not modelled: every storage call of one
  update happens at the time the lock was obtained.
- Floating-point numbers are not modelled (numbers are integers), and JSON serialisation is
  taken to round-trip exactly.
- Redis rejects a non-positive lock timeout; the model accepts any integer timeout.
- A store's reachability is fixed for its lifetime; a backend that fails part-way through
  one call, or becomes reachable later, is not represented.
- Overlay.OverlayBackend.constructor: requires the primary and the secondaries to be
  distinct objects, which Python does not demand, so that each backend's state can be
  stated separately.
- Context.Contextd.GetContext: returns the cache as a value. In the program it returns the
  live dictionary, which later updates mutate in place until a reload replaces the object,
  so a caller's earlier result also sees those writes; that aliasing is not represented.
- Secondaries of an overlay are in-memory backends; an overlay nested inside an overlay is
  not represented.

## Findings

| source | as written | input that shows it | evidently intended | confidence | as-written member | corrected member |
|---|---|---|---|---|---|---|
| context.py:54-61 | `update_context` writes the field into the instance's cached copy and saves that copy, without reloading the stored document once the lock is held | two stores on context key `ctx` with notifications off both initialise on the empty document; the first updates `x` to 1, then the second updates `y` to 2; the stored document is `{"y": 2}` | two instances updating distinct fields under the lock keep both fields (`{"x": 1, "y": 2}`); the same pattern is in `transactional_update` at context.py:66-74 | medium, not executed; with notifications on a reload may arrive in time, but delivery is best-effort | Scenarios.LostUpdate | Context.Contextd.RefreshingUpdate, Scenarios.NoLostUpdate |
