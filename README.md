# Offline feature-request queue, modelled in Dafny

This project models the offline delivery queue of a Nuxt client. A producer
enqueues feature-creation requests into an IndexedDB object store named
`FeaturesQueue`, in the database `Queue` at version 1. The store is keyed on
`id` with auto-increment. The controller drains once at setup and again each
time connectivity changes to online, provided the device is online then. A
drain reads a snapshot of every stored record and handles it one record at a
time, in key order:

- a delivered record is deleted;
- a failed record below 5 retries is rewritten under the same key with
  `retryAmount + 1`;
- a failed record already at 5 or more is deleted, an error toast is raised and
  the loop is rejected.

Files:

- `wrappers.dfy` (module `Wrappers`): `Option`, the model's `null`.
- `feature_request_database.dfy` (module `FeatureRequestDatabase`): the
  `FeatureRequest` record, the name and version constants, the store's key
  options, the key generator of an auto-increment store, the `upgradeneeded`
  handler (`OnUpgradeNeeded`, specified by `UpgradeStores`), and how the open
  promise settles (`Settle`).
- `feature_api_queue.dfy` (module `FeatureApiQueue`): the class
  `FeatureQueue`. Its fields are the store's records (`map<nat,
  FeatureRequest>`), the key generator's current number `nextId`, the
  connectivity flag `online`, the toast log `events` and the log of delivery
  attempts `deliveries`. Its methods `Add`, `Drain` (built from `HandleAll`,
  which runs `HandleEntry` once per snapshot entry), `RetryError`, `Start` and
  `OnlineChanged` are proved against the specifications `AddSpec`,
  `DrainSpec`, `Run` and `Step` on a `QueueState` value. `GetAll` reads the
  store in key order and is proved equal to the specification `Snapshot`. The
  lemmas about those specifications state what the queue promises.

Environment and foreign calls become parameters:

- whether the IndexedDB open fails, resolves, or resolves with a null result
  is an `OpenEvent`;
- the outcome of each HTTP delivery is one entry of a `seq<bool>` (a missing
  entry counts as a failure);
- connectivity is the `online` field, and the watcher is an explicit call.

Five behaviours of the code are worth noting:

- `addRequestToQueue` stores the request exactly as given and does not reset
  `retryAmount` to 0 (`AddStoresRequest`).
- A drain over an empty store still raises "Synced 0 features"
  (`DrainSynced`). The count is the snapshot's length, not the number
  delivered.
- The ceiling is tested before the increment. A record at 4 that fails is kept
  at 5, and it is deleted only on its next failure
  (`CeilingIsTestedBeforeIncrement`).
- Once the key generator is past 2^53, an enqueued request is silently lost
  and the call still resolves (`AddOnExhaustedLosesRequest`).
- An exhausted record rejects `handleRetryError`. The rejection leaves the
  `for` loop, so later snapshot entries are neither attempted nor changed, and
  no success toast is raised (`DrainAbandons`).

## Model

| member | source | states |
|---|---|---|
| `FeatureRequestDatabase.GeneratedKeyIsFresh` | app/utils/createFeaturesRequestDatabase.ts:30-33 | in an auto-increment store whose keys all lie below the generator's current number, a generated key is used by no existing record, lies in 1..2^53, and storing under it keeps every key below the advanced number |
| `FeatureRequestDatabase.UpgradeStores` | app/utils/createFeaturesRequestDatabase.ts:26-33 | the schema after the upgrade holds `FeaturesQueue`; it is created with key path `id` and auto-increment only if it was absent; every existing store, `FeaturesQueue` included, is kept as it was; no other store is added |
| `FeatureRequestDatabase.UpgradeIsIdempotent` | app/utils/createFeaturesRequestDatabase.ts:26-28 | running the upgrade a second time leaves the schema unchanged |
| `FeatureRequestDatabase.UpgradeCreatesQueueStore` | app/utils/createFeaturesRequestDatabase.ts:30-33 | on an empty database the upgrade creates exactly one store, `FeaturesQueue`, keyed on `id` with auto-increment |
| `FeatureRequestDatabase.OnUpgradeNeeded` | app/utils/createFeaturesRequestDatabase.ts:18-34 | the `upgradeneeded` handler: a null database is left alone; otherwise the schema becomes `UpgradeStores` of the old one |
| `FeatureRequestDatabase.CreateQueueDatabase` | app/utils/createFeaturesRequestDatabase.ts:18-34 | on the first open a new, empty database is created and the `upgradeneeded` handler runs on it, leaving exactly the `FeaturesQueue` store keyed on `id` with auto-increment |
| `FeatureRequestDatabase.Settle` | app/utils/createFeaturesRequestDatabase.ts:10-45 | an open error rejects with "Error opening database"; success resolves with the database exactly when the result is non-null; a null result leaves the promise pending |
| `FeatureApiQueue.Snapshot` | app/composables/useFeatureApiQueue.ts:52 | `getAll` lists stored records with their own keys and payloads, in strictly ascending key order |
| `FeatureApiQueue.GetAll` | app/composables/useFeatureApiQueue.ts:52 | reading the store key by key, least key first, yields exactly the snapshot: every record with its key, in ascending key order |
| `FeatureApiQueue.SnapshotCoversStore` | app/composables/useFeatureApiQueue.ts:52 | every stored record below the generator's current number appears in the snapshot |
| `FeatureApiQueue.SnapshotIsDistinct` | app/composables/useFeatureApiQueue.ts:52 | no key appears twice in a snapshot |
| `FeatureApiQueue.SnapshotLength` | app/composables/useFeatureApiQueue.ts:78 | the snapshot's length, the count the success toast reports, is the number of stored records |
| `FeatureApiQueue.FirstExhausted` | app/composables/useFeatureApiQueue.ts:64-94 | the index of the first snapshot entry whose delivery fails at `retryAmount >= 5`: no earlier entry is exhausted, and it is the length when none is |
| `FeatureApiQueue.RunAfterAbandon` | app/composables/useFeatureApiQueue.ts:73 | once an exhausted entry has rejected the loop, the remaining entries change nothing |
| `FeatureApiQueue.RunLog` | app/composables/useFeatureApiQueue.ts:64-94 | the loop is rejected exactly when some entry is exhausted, by the first such entry; it raises exactly one error toast, carrying that entry's `retryAmount`; entries are attempted in snapshot order, each once, up to and including that entry |
| `FeatureApiQueue.RunFate` | app/composables/useFeatureApiQueue.ts:64-98 | every entry the loop reached is gone if delivered or exhausted; otherwise it is kept under the same key with the snapshot's request and `retryAmount + 1` |
| `FeatureApiQueue.RunLeavesOthers` | app/composables/useFeatureApiQueue.ts:64-75 | a key no reached entry carries is neither added, removed nor changed |
| `FeatureApiQueue.RunKeepsKeys` | app/composables/useFeatureApiQueue.ts:64-98 | the loop only deletes or rewrites keys read from the store, never adds one |
| `FeatureApiQueue.AddNullLeavesStore` | app/composables/useFeatureApiQueue.ts:36-41 | a null request leaves the whole state unchanged; the store is opened first, so an open error still rejects and a pending open still hangs |
| `FeatureApiQueue.AddStoresRequest` | app/composables/useFeatureApiQueue.ts:36-44 | on an opened store, exactly one record is added, equal to the request as supplied (`retryAmount` kept), under a key no record used; the store grows by one; toasts, attempts and connectivity are unchanged |
| `FeatureApiQueue.AddPreservesValid` | app/composables/useFeatureApiQueue.ts:43 | enqueueing keeps every key one the generator produced |
| `FeatureApiQueue.AddAppendsToSnapshot` | app/composables/useFeatureApiQueue.ts:43 | the new record is last in the next drain's snapshot, after every earlier one |
| `FeatureApiQueue.AddOnExhaustedLosesRequest` | app/composables/useFeatureApiQueue.ts:43 | on an opened store whose key generator is past 2^53, enqueueing resolves and leaves the whole state, generator included, unchanged: the request is lost |
| `FeatureApiQueue.GeneratorStaysExhausted` | app/composables/useFeatureApiQueue.ts:36-99 | a key generator past 2^53 stays past it through every enqueue and every drain, so no key is handed out again |
| `FeatureApiQueue.DrainOfflineIsNoOp` | app/composables/useFeatureApiQueue.ts:46-49 | offline, a drain returns at once: no store change, no delivery attempt, no toast |
| `FeatureApiQueue.DrainOpenFailure` | app/composables/useFeatureApiQueue.ts:51 | a store that fails to open rejects the drain with "Error opening database" and changes nothing |
| `FeatureApiQueue.DrainPreservesValid` | app/composables/useFeatureApiQueue.ts:46-99 | a drain keeps the key generator and the connectivity flag, never adds a key, and keeps the key invariant |
| `FeatureApiQueue.DrainSynced` | app/composables/useFeatureApiQueue.ts:60-79 | with no exhausted entry, every record is attempted once in key order, and exactly one success toast is raised whose count is the number of records, whatever failed, 0 included |
| `FeatureApiQueue.DrainAbandons` | app/composables/useFeatureApiQueue.ts:64-94 | the first exhausted entry is deleted; one error toast with its `retryAmount` is raised; the drain rejects without a success toast; later entries are not attempted and keep their records |
| `FeatureApiQueue.DrainEntryFate` | app/composables/useFeatureApiQueue.ts:64-98 | for each entry the drain reached: delivered means deleted by its key; a failure below 5 is kept under the same key with `retryAmount` one higher than stored; a failure at 5 or more is deleted |
| `FeatureApiQueue.RetryAmountNeverDecreases` | app/composables/useFeatureApiQueue.ts:88-98 | after a drain every remaining record was there before, with the same `feature` and a `retryAmount` at least as high |
| `FeatureApiQueue.DrainAllDeliveredEmptiesStore` | app/composables/useFeatureApiQueue.ts:64-79 | when every delivery succeeds, one drain empties the store and raises one success toast counting every record |
| `FeatureApiQueue.CeilingIsTestedBeforeIncrement` | app/composables/useFeatureApiQueue.ts:88-98 | for a store holding one record whose delivery fails: below 5 (at 4, say) the record is kept with `retryAmount + 1` (5) and the drain reports "Synced 1"; at 5 or more it is deleted, one error toast names its `retryAmount`, and no success toast follows |
| `FeatureApiQueue.FeatureQueue.constructor` | app/composables/useFeatureApiQueue.ts:11-28 | the controller starts over the stored records and the generator's number with no toasts and no attempts |
| `FeatureApiQueue.FeatureQueue.Add` | app/composables/useFeatureApiQueue.ts:36-44 | `addRequestToQueue` ends in the completion and state `AddSpec` gives, and keeps the key invariant |
| `FeatureApiQueue.FeatureQueue.RetryError` | app/composables/useFeatureApiQueue.ts:83-99 | rejects exactly when `retryAmount >= 5`; then deletes the key and appends an error toast with that `retryAmount`; otherwise rewrites the key with `retryAmount + 1`; nothing else changes |
| `FeatureApiQueue.FeatureQueue.HandleEntry` | app/composables/useFeatureApiQueue.ts:65-74 | one pass of the `for` body logs the attempt, then deletes the entry on success or hands it to `RetryError`; the new state is exactly `Step` of the old one |
| `FeatureApiQueue.FeatureQueue.HandleAll` | app/composables/useFeatureApiQueue.ts:64-75 | the `for` loop over the snapshot ends in exactly the state `Run` gives, stopping at the first rejection |
| `FeatureApiQueue.FeatureQueue.Drain` | app/composables/useFeatureApiQueue.ts:46-81 | the loop over the snapshot ends in the outcome and state `DrainSpec` gives (the per-entry loop `Run`, then the success toast unless rejected), and keeps the key invariant |
| `FeatureApiQueue.FeatureQueue.Start` | app/composables/useFeatureApiQueue.ts:30-34 | the watcher's immediate run at setup drains exactly as `DrainSpec` gives for the current state |
| `FeatureApiQueue.FeatureQueue.OnlineChanged` | app/composables/useFeatureApiQueue.ts:30-34 | a change to online drains as `DrainSpec` gives; a change to offline or no change only records the flag |

## Left out

- `nuxt.config.ts` is declarative framework, PWA and i18n configuration. It has no queue logic, and its background-sync block is commented out.
- The HTTP POST in `handleRequest` (`useApi`, zod) is a foreign call. Each attempt is one boolean of the `delivered` argument, and the attempt is logged in `deliveries`.
- Toast rendering (`useToast`) is reduced to the appended `SuccessToast(count)` and `ErrorToast(retryAmount)` events. `console.error` on an open error is not modelled.
- Vue reactivity (`useNetwork`, `watch`) is reduced to the `online` field and the explicit calls `Start` and `OnlineChanged`.
- Overlapping drains after rapid online/offline changes are not modelled. The code does not guard against them, and each modelled drain runs to completion.
- IndexedDB transactions and callbacks are not modelled. `handleQueue` resolves before its `getAll` callback runs, and a rejection inside that callback goes unhandled. The model reports the callback's result as the drain's outcome.
- The store is reopened inside the loop (lines 68 and 86). These opens are assumed to resolve. A failed reopen after a delivery (line 68) reaches the same `catch` as a failed delivery, so it is covered by a `false` in `delivered`. A failed or pending reopen in `handleRetryError` (line 86) is not modelled.
- Some store reads and errors are not modelled: the `database.transaction == null` guard (line 15) never holds, a missing `FeaturesQueue` store is not considered, and neither is a `getAll` that errors or yields null (lines 60-62).
- When IndexedDB decides to fire `upgradeneeded`, and how it changes the database version, is not modelled. Only the handler is.
- `retryAmount` is a JavaScript number. It is modelled as an unbounded integer, with no fractions, NaN or precision loss.
