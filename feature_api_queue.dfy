/**
 * The queue controller: enqueueing feature-creation requests into the
 * persistent store, draining a snapshot of the store one record at a time
 * when the device is online, and the per-record retry policy.
 *
 * The store is a map from key to record plus the key generator's current
 * number; the HTTP delivery of one record is an oracle (`delivered[i]` says
 * whether the i-th snapshot entry got through); toasts are appended to an
 * event log; every delivery attempt is appended to a log of attempts.
 */
module FeatureApiQueue {
  import opened Wrappers
  import opened FeatureRequestDatabase

  /** A failed record whose `retryAmount` has reached this is abandoned. */
  const RetryCeiling: int := 5

  /** The toasts the controller raises. */
  datatype Event =
    | SuccessToast(count: nat)         // "Synced <count> features"
    | ErrorToast(retryAmount: int)     // "Error while syncing feature. Retried <retryAmount> times"

  /** A record as `getAll` returns it: the stored request with its key. */
  datatype Entry = Entry(id: nat, request: FeatureRequest)

  /** How a call to `addRequestToQueue` ends. */
  datatype Completion =
    | Done                    // resolved
    | Failed(message: string) // rejected with this error
    | Hangs                   // never settles: the open promise stays pending

  /** How a drain ends. */
  datatype DrainOutcome =
    | Skipped                 // offline: returned before touching the store
    | StoreFailed(message: string)  // opening the store rejected
    | StoreHangs              // opening the store never settled
    | Synced(count: nat)      // every snapshot entry was handled; success toast raised
    | Abandoned(entry: Entry) // an exhausted entry rejected the loop; later entries untouched

  /** Everything the controller and its store hold, as a value. */
  datatype QueueState = QueueState(
    records: map<nat, FeatureRequest>,  // the object store, by key
    nextId: nat,                        // the key generator's current number
    online: bool,                       // what the connectivity monitor reports
    events: seq<Event>,                 // toasts raised so far
    deliveries: seq<Entry>)             // delivery attempts made so far, in order

  /** The store's keys are all ones its key generator produced. */
  ghost predicate QueueValid(q: QueueState)
  {
    KeysBelow(q.records, q.nextId)
  }

  // ---------------------------------------------------------------------------
  // Enqueue
  // ---------------------------------------------------------------------------

  /**
   * `addRequestToQueue`: open the store first (so an open failure surfaces even
   * for a null request), then return if the request is null, else `add` it as
   * given. The request's result is not observed, so an add refused because the
   * key generator is exhausted is silently lost.
   */
  ghost function AddSpec(q: QueueState, request: Option<FeatureRequest>, open: OpenEvent<Database>): (Completion, QueueState)
  {
    match Settle(open)
    case Rejected(message) => (Failed(message), q)
    case Unsettled => (Hangs, q)
    case Resolved(_) =>
      if request.None? then (Done, q)
      else
        match GenerateKey(q.nextId)
        case None => (Done, q)
        case Some(key) =>
          (Done, q.(records := q.records[key := request.value], nextId := NextCurrent(key)))
  }

  // ---------------------------------------------------------------------------
  // The snapshot `getAll` returns
  // ---------------------------------------------------------------------------

  /**
   * The records with keys below `bound`, in ascending key order (the order in
   * which `getAll` lists an object store).
   */
  ghost function Snapshot(records: map<nat, FeatureRequest>, bound: nat): (s: seq<Entry>)
    ensures forall j :: 0 <= j < |s| ==> s[j].id < bound && s[j].id in records && s[j].request == records[s[j].id]
    ensures forall i, j :: 0 <= i < j < |s| ==> s[i].id < s[j].id
    decreases bound
  {
    if bound == 0 then []
    else
      var prefix := Snapshot(records, bound - 1);
      if bound - 1 in records then prefix + [Entry(bound - 1, records[bound - 1])] else prefix
  }

  /** Every record with a key below `bound` appears in the snapshot. */
  lemma {:induction false} SnapshotCoversStore(records: map<nat, FeatureRequest>, bound: nat, k: nat)
    requires k in records && k < bound
    ensures exists j :: 0 <= j < |Snapshot(records, bound)| && Snapshot(records, bound)[j].id == k
    decreases bound
  {
    var s := Snapshot(records, bound);
    var prefix := Snapshot(records, bound - 1);
    if k == bound - 1 {
      assert s[|prefix|].id == k;
    } else {
      SnapshotCoversStore(records, bound - 1, k);
      var j :| 0 <= j < |prefix| && prefix[j].id == k;
      assert s[j].id == k;
    }
  }

  /** With no record keyed in [lo, hi), the snapshot below hi is the one below lo. */
  lemma {:induction false} SnapshotSkipsGap(records: map<nat, FeatureRequest>, lo: nat, hi: nat)
    requires lo <= hi
    requires forall k :: k in records ==> k < lo || hi <= k
    ensures Snapshot(records, hi) == Snapshot(records, lo)
    decreases hi
  {
    if lo < hi {
      SnapshotSkipsGap(records, lo, hi - 1);
    }
  }

  /** The least of a non-empty set of keys. */
  method MinKey(keys: set<nat>) returns (m: nat)
    requires keys != {}
    ensures m in keys
    ensures forall k :: k in keys ==> m <= k
  {
    m :| m in keys;
    var rest := keys - {m};
    while rest != {}
      invariant rest <= keys && m in keys
      invariant forall k :: k in keys && k !in rest ==> m <= k
      decreases rest
    {
      var x :| x in rest;
      if x < m {
        m := x;
      }
      rest := rest - {x};
    }
  }

  /**
   * `getAll` on the store: every record with its key, taken in ascending key
   * order, which is the snapshot below the key generator's current number.
   */
  method GetAll(records: map<nat, FeatureRequest>, ghost bound: nat) returns (s: seq<Entry>)
    requires KeysBelow(records, bound)
    ensures s == Snapshot(records, bound)
  {
    var remaining := records.Keys;
    var lo: nat := 0;
    s := [];
    while remaining != {}
      invariant lo <= bound
      invariant remaining == set k | k in records && lo <= k
      invariant s == Snapshot(records, lo)
      decreases remaining
    {
      var m := MinKey(remaining);
      forall k | k in records && lo <= k
        ensures m <= k
      {
        assert k in remaining;
      }
      SnapshotSkipsGap(records, lo, m);
      s := s + [Entry(m, records[m])];
      lo := m + 1;
      remaining := remaining - {m};
      assert remaining == set k | k in records && lo <= k;
    }
    forall k | k in records
      ensures k < lo
    {
      assert k !in remaining;
    }
    SnapshotSkipsGap(records, lo, bound);
  }

  /** No two entries of a snapshot share a key. */
  ghost predicate Distinct(entries: seq<Entry>)
  {
    forall i, j :: 0 <= i < j < |entries| ==> entries[i].id != entries[j].id
  }

  // ---------------------------------------------------------------------------
  // The drain loop, one entry at a time
  // ---------------------------------------------------------------------------

  /** What the drain loop has done so far; `abandoned` is the entry that rejected it, if any. */
  datatype DrainState = DrainState(
    records: map<nat, FeatureRequest>,
    events: seq<Event>,
    deliveries: seq<Entry>,
    abandoned: Option<Entry>)

  /** Whether the delivery of the i-th snapshot entry succeeds (no answer counts as a failure). */
  function Delivered(delivered: seq<bool>, i: nat): bool
  {
    i < |delivered| && delivered[i]
  }

  /** A failed delivery of an entry already at the ceiling abandons it. */
  predicate Exhausts(e: Entry, ok: bool)
  {
    !ok && e.request.retryAmount >= RetryCeiling
  }

  /** The request as `handleRetryError` rewrites it: one more retry counted. */
  function Retried(r: FeatureRequest): FeatureRequest
  {
    r.(retryAmount := r.retryAmount + 1)
  }

  /**
   * One pass of the loop body for entry `e`: attempt the delivery; on success
   * delete `e.id`; on failure below the ceiling rewrite it with one more retry;
   * on failure at or above the ceiling delete it, raise the error toast and
   * reject.
   */
  function Step(st: DrainState, e: Entry, ok: bool): DrainState
  {
    var st := st.(deliveries := st.deliveries + [e]);
    if ok then st.(records := st.records - {e.id})
    else if e.request.retryAmount >= RetryCeiling then
      st.(records := st.records - {e.id},
          events := st.events + [ErrorToast(e.request.retryAmount)],
          abandoned := Some(e))
    else st.(records := st.records[e.id := Retried(e.request)])
  }

  /** The loop run over `entries`, stopping at the first rejection. */
  ghost function Run(st: DrainState, entries: seq<Entry>, delivered: seq<bool>): DrainState
    decreases |entries|
  {
    if entries == [] then st
    else
      var n := |entries| - 1;
      var prev := Run(st, entries[..n], delivered);
      if prev.abandoned.Some? then prev else Step(prev, entries[n], Delivered(delivered, n))
  }

  /** The index of the first entry whose failure abandons it, or |entries| if there is none. */
  function FirstExhausted(entries: seq<Entry>, delivered: seq<bool>): (r: nat)
    ensures r <= |entries|
    ensures forall j :: 0 <= j < r ==> !Exhausts(entries[j], Delivered(delivered, j))
    ensures r < |entries| ==> Exhausts(entries[r], Delivered(delivered, r))
    decreases |entries|
  {
    if entries == [] then 0
    else
      var n := |entries| - 1;
      var p := FirstExhausted(entries[..n], delivered);
      if p < n then p
      else if Exhausts(entries[n], Delivered(delivered, n)) then n
      else |entries|
  }

  /** How many entries the loop handles: all of them, or up to and including the first abandoned one. */
  function Processed(entries: seq<Entry>, delivered: seq<bool>): nat
  {
    var f := FirstExhausted(entries, delivered);
    if f < |entries| then f + 1 else |entries|
  }

  /**
   * `handleQueue` as a whole: nothing when offline; otherwise open the store,
   * take the snapshot, run the loop, and raise the success toast with the
   * snapshot's length unless the loop was rejected.
   */
  ghost function DrainSpec(q: QueueState, open: OpenEvent<Database>, delivered: seq<bool>): (DrainOutcome, QueueState)
  {
    if !q.online then (Skipped, q)
    else
      match Settle(open)
      case Rejected(message) => (StoreFailed(message), q)
      case Unsettled => (StoreHangs, q)
      case Resolved(_) =>
        var snapshot := Snapshot(q.records, q.nextId);
        var r := Run(DrainState(q.records, q.events, q.deliveries, None), snapshot, delivered);
        match r.abandoned
        case Some(e) =>
          (Abandoned(e), q.(records := r.records, events := r.events, deliveries := r.deliveries))
        case None =>
          (Synced(|snapshot|),
           q.(records := r.records, events := r.events + [SuccessToast(|snapshot|)], deliveries := r.deliveries))
  }

  // ---------------------------------------------------------------------------
  // Properties of the snapshot
  // ---------------------------------------------------------------------------

  /** A snapshot never lists a key twice. */
  lemma SnapshotIsDistinct(records: map<nat, FeatureRequest>, bound: nat)
    ensures Distinct(Snapshot(records, bound))
  {
  }

  /** The snapshot lists exactly as many entries as there are records below `bound`. */
  lemma {:induction false} SnapshotLength(records: map<nat, FeatureRequest>, bound: nat)
    ensures |Snapshot(records, bound)| == |set k | k in records && k < bound|
    decreases bound
  {
    if bound == 0 {
      assert (set k | k in records && k < bound) == {};
    } else {
      SnapshotLength(records, bound - 1);
      var below := set k | k in records && k < bound - 1;
      if bound - 1 in records {
        assert (set k | k in records && k < bound) == below + {bound - 1};
      } else {
        assert (set k | k in records && k < bound) == below;
      }
    }
  }

  /** Writing a record at or above `bound` does not change the snapshot below it. */
  lemma {:induction false} SnapshotIgnoresAbove(records: map<nat, FeatureRequest>, bound: nat, key: nat, r: FeatureRequest)
    requires bound <= key
    ensures Snapshot(records[key := r], bound) == Snapshot(records, bound)
    decreases bound
  {
    if bound > 0 {
      SnapshotIgnoresAbove(records, bound - 1, key, r);
    }
  }

  // ---------------------------------------------------------------------------
  // Properties of the drain loop
  // ---------------------------------------------------------------------------

  /** Once the loop has been rejected, the remaining entries change nothing. */
  lemma {:induction false} RunAfterAbandon(st: DrainState, entries: seq<Entry>, delivered: seq<bool>, i: nat)
    requires i <= |entries|
    requires Run(st, entries[..i], delivered).abandoned.Some?
    ensures Run(st, entries, delivered) == Run(st, entries[..i], delivered)
    decreases |entries|
  {
    if i < |entries| {
      var n := |entries| - 1;
      assert entries[..n][..i] == entries[..i];
      RunAfterAbandon(st, entries[..n], delivered, i);
    } else {
      assert entries[..i] == entries;
    }
  }

  /**
   * What the loop reports: it is rejected exactly when some entry is
   * exhausted, by the first such entry, with one error toast naming that
   * entry's `retryAmount`; it attempts every entry up to and including that
   * one, in snapshot order, each exactly once.
   */
  lemma {:induction false} RunLog(st: DrainState, entries: seq<Entry>, delivered: seq<bool>)
    requires st.abandoned.None?
    ensures var r := Run(st, entries, delivered);
            var f := FirstExhausted(entries, delivered);
            && (r.abandoned.Some? <==> f < |entries|)
            && (f < |entries| ==> r.abandoned == Some(entries[f]))
            && r.events == st.events + (if f < |entries| then [ErrorToast(entries[f].request.retryAmount)] else [])
            && r.deliveries == st.deliveries + entries[..Processed(entries, delivered)]
    decreases |entries|
  {
    if entries != [] {
      var n := |entries| - 1;
      var prefix := entries[..n];
      RunLog(st, prefix, delivered);
      var p := FirstExhausted(prefix, delivered);
      if p < n {
        assert prefix[..Processed(prefix, delivered)] == entries[..Processed(entries, delivered)];
      } else {
        assert prefix == entries[..Processed(prefix, delivered)];
        assert entries[..n + 1] == entries;
      }
    }
  }

  /**
   * The fate of each entry the loop reached: delivered or exhausted entries
   * are deleted by their own key; other failed entries are rewritten under
   * the same key with `retryAmount` one higher.
   */
  lemma {:induction false} RunFate(st: DrainState, entries: seq<Entry>, delivered: seq<bool>, j: nat)
    requires st.abandoned.None?
    requires Distinct(entries)
    requires j < Processed(entries, delivered)
    ensures var r := Run(st, entries, delivered);
            var e := entries[j];
            && (e.id in r.records <==> !Delivered(delivered, j) && e.request.retryAmount < RetryCeiling)
            && (e.id in r.records ==> r.records[e.id] == Retried(e.request))
    decreases |entries|
  {
    var n := |entries| - 1;
    var prefix := entries[..n];
    RunLog(st, prefix, delivered);
    if j < n {
      assert FirstExhausted(prefix, delivered) >= j;
      RunFate(st, prefix, delivered, j);
    }
  }

  /**
   * A key that none of the reached entries carries is left exactly as it was:
   * the entries after an abandoned one, and records outside the snapshot.
   */
  lemma {:induction false} RunLeavesOthers(st: DrainState, entries: seq<Entry>, delivered: seq<bool>, k: nat)
    requires st.abandoned.None?
    requires forall j :: 0 <= j < Processed(entries, delivered) ==> entries[j].id != k
    ensures var r := Run(st, entries, delivered);
            && (k in r.records <==> k in st.records)
            && (k in st.records ==> r.records[k] == st.records[k])
    decreases |entries|
  {
    if entries != [] {
      var n := |entries| - 1;
      var prefix := entries[..n];
      RunLog(st, prefix, delivered);
      assert Processed(prefix, delivered) <= Processed(entries, delivered);
      RunLeavesOthers(st, prefix, delivered, k);
    }
  }

  /** The loop never adds a key: it only deletes or rewrites the keys of the entries it reads. */
  lemma {:induction false} RunKeepsKeys(st: DrainState, entries: seq<Entry>, delivered: seq<bool>)
    requires forall j :: 0 <= j < |entries| ==> entries[j].id in st.records
    ensures Run(st, entries, delivered).records.Keys <= st.records.Keys
    decreases |entries|
  {
    if entries != [] {
      RunKeepsKeys(st, entries[..|entries| - 1], delivered);
    }
  }

  // ---------------------------------------------------------------------------
  // Properties of enqueue
  // ---------------------------------------------------------------------------

  /**
   * A null request leaves the store as it was; the store is opened first, so
   * a failed open still rejects the call.
   */
  lemma AddNullLeavesStore(q: QueueState, open: OpenEvent<Database>)
    ensures AddSpec(q, None, open).1 == q
    ensures open.OpenError? ==> AddSpec(q, None, open).0 == Failed(OpenErrorMessage)
    ensures open == OpenSuccess(None) ==> AddSpec(q, None, open).0 == Hangs
  {
  }

  /**
   * Enqueueing a request on an opened store adds exactly one record, equal to
   * the request as supplied (its `retryAmount` included), under a key no
   * existing record uses, and leaves every other record as it was.
   */
  lemma AddStoresRequest(q: QueueState, r: FeatureRequest, open: OpenEvent<Database>)
    requires QueueValid(q)
    requires Settle(open).Resolved?
    requires GenerateKey(q.nextId).Some?
    ensures var (c, q') := AddSpec(q, Some(r), open);
            && c == Done
            && q.nextId !in q.records
            && q'.records == q.records[q.nextId := r]
            && q'.records[q.nextId].retryAmount == r.retryAmount
            && |q'.records| == |q.records| + 1
            && q'.events == q.events && q'.deliveries == q.deliveries && q'.online == q.online
  {
  }

  /** Enqueueing keeps every key one the key generator produced. */
  lemma AddPreservesValid(q: QueueState, request: Option<FeatureRequest>, open: OpenEvent<Database>)
    requires QueueValid(q)
    ensures QueueValid(AddSpec(q, request, open).1)
  {
  }

  /** A new request joins the end of the next drain's snapshot (first in, first out). */
  lemma AddAppendsToSnapshot(q: QueueState, r: FeatureRequest, open: OpenEvent<Database>)
    requires QueueValid(q)
    requires Settle(open).Resolved?
    requires GenerateKey(q.nextId).Some?
    ensures var q' := AddSpec(q, Some(r), open).1;
            Snapshot(q'.records, q'.nextId) == Snapshot(q.records, q.nextId) + [Entry(q.nextId, r)]
  {
    SnapshotIgnoresAbove(q.records, q.nextId, q.nextId, r);
  }

  /**
   * Once the key generator is past 2^53, an enqueued request is lost: the
   * call still resolves, and the store and the generator stay as they were.
   */
  lemma AddOnExhaustedLosesRequest(q: QueueState, r: FeatureRequest, open: OpenEvent<Database>)
    requires Settle(open).Resolved?
    requires GenerateKey(q.nextId).None?
    ensures AddSpec(q, Some(r), open) == (Done, q)
  {
  }

  /**
   * An exhausted key generator stays exhausted through every enqueue and
   * every drain, so no key is ever handed out again.
   */
  lemma GeneratorStaysExhausted(q: QueueState, request: Option<FeatureRequest>, open: OpenEvent<Database>, delivered: seq<bool>)
    requires QueueValid(q)
    requires GenerateKey(q.nextId).None?
    ensures GenerateKey(AddSpec(q, request, open).1.nextId).None?
    ensures GenerateKey(DrainSpec(q, open, delivered).1.nextId).None?
  {
    DrainPreservesValid(q, open, delivered);
  }

  // ---------------------------------------------------------------------------
  // Properties of a drain
  // ---------------------------------------------------------------------------

  /** Offline, a drain reads nothing, attempts nothing, changes nothing and raises nothing. */
  lemma DrainOfflineIsNoOp(q: QueueState, open: OpenEvent<Database>, delivered: seq<bool>)
    requires !q.online
    ensures DrainSpec(q, open, delivered) == (Skipped, q)
  {
  }

  /** A store that cannot be opened rejects the drain and changes nothing. */
  lemma DrainOpenFailure(q: QueueState, open: OpenEvent<Database>, delivered: seq<bool>)
    requires q.online && !Settle(open).Resolved?
    ensures DrainSpec(q, open, delivered).1 == q
    ensures open.OpenError? ==> DrainSpec(q, open, delivered).0 == StoreFailed(OpenErrorMessage)
  {
  }

  /** A drain keeps the key generator, the connectivity flag, and the store's key invariant. */
  lemma DrainPreservesValid(q: QueueState, open: OpenEvent<Database>, delivered: seq<bool>)
    requires QueueValid(q)
    ensures var q' := DrainSpec(q, open, delivered).1;
            QueueValid(q') && q'.nextId == q.nextId && q'.online == q.online && q'.records.Keys <= q.records.Keys
  {
    if q.online && Settle(open).Resolved? {
      RunKeepsKeys(DrainState(q.records, q.events, q.deliveries, None), Snapshot(q.records, q.nextId), delivered);
    }
  }

  /**
   * When no entry is abandoned, every stored record is attempted once, in key
   * order, and exactly one success toast is raised whose count is the number
   * of records read, however many deliveries failed, and 0 for an empty store.
   */
  lemma DrainSynced(q: QueueState, open: OpenEvent<Database>, delivered: seq<bool>)
    requires QueueValid(q) && q.online && Settle(open).Resolved?
    requires var s := Snapshot(q.records, q.nextId); FirstExhausted(s, delivered) == |s|
    ensures var s := Snapshot(q.records, q.nextId);
            var (outcome, q') := DrainSpec(q, open, delivered);
            && outcome == Synced(|q.records|)
            && q'.events == q.events + [SuccessToast(|q.records|)]
            && q'.deliveries == q.deliveries + s
  {
    var s := Snapshot(q.records, q.nextId);
    RunLog(DrainState(q.records, q.events, q.deliveries, None), s, delivered);
    assert s[..|s|] == s;
    SnapshotLength(q.records, q.nextId);
    assert (set k | k in q.records && k < q.nextId) == q.records.Keys;
  }

  /**
   * The first failed entry already at the ceiling is deleted, one error toast
   * naming its `retryAmount` is raised, the drain rejects, no success toast is
   * raised, and no later entry is attempted or touched.
   */
  lemma DrainAbandons(q: QueueState, open: OpenEvent<Database>, delivered: seq<bool>)
    requires q.online && Settle(open).Resolved?
    requires var s := Snapshot(q.records, q.nextId); FirstExhausted(s, delivered) < |s|
    ensures var s := Snapshot(q.records, q.nextId);
            var f := FirstExhausted(s, delivered);
            var (outcome, q') := DrainSpec(q, open, delivered);
            && outcome == Abandoned(s[f])
            && s[f].id !in q'.records
            && q'.events == q.events + [ErrorToast(s[f].request.retryAmount)]
            && q'.deliveries == q.deliveries + s[..f + 1]
            && (forall j :: f < j < |s| ==> s[j].id in q'.records && q'.records[s[j].id] == s[j].request)
  {
    var s := Snapshot(q.records, q.nextId);
    var st := DrainState(q.records, q.events, q.deliveries, None);
    var f := FirstExhausted(s, delivered);
    RunLog(st, s, delivered);
    SnapshotIsDistinct(q.records, q.nextId);
    RunFate(st, s, delivered, f);
    forall j | f < j < |s|
      ensures s[j].id in Run(st, s, delivered).records && Run(st, s, delivered).records[s[j].id] == s[j].request
    {
      RunLeavesOthers(st, s, delivered, s[j].id);
    }
  }

  /**
   * Each entry the drain reached: a delivered one is deleted by its own key; a
   * failed one below the ceiling stays under the same key with one more retry.
   */
  lemma DrainEntryFate(q: QueueState, open: OpenEvent<Database>, delivered: seq<bool>, j: nat)
    requires q.online && Settle(open).Resolved?
    requires j < Processed(Snapshot(q.records, q.nextId), delivered)
    ensures var s := Snapshot(q.records, q.nextId);
            var q' := DrainSpec(q, open, delivered).1;
            && (Delivered(delivered, j) ==> s[j].id !in q'.records)
            && (!Delivered(delivered, j) && s[j].request.retryAmount < RetryCeiling ==>
                  s[j].id in q'.records && q'.records[s[j].id] == Retried(q.records[s[j].id]))
            && (!Delivered(delivered, j) && s[j].request.retryAmount >= RetryCeiling ==>
                  s[j].id !in q'.records)
  {
    SnapshotIsDistinct(q.records, q.nextId);
    RunFate(DrainState(q.records, q.events, q.deliveries, None), Snapshot(q.records, q.nextId), delivered, j);
  }

  /**
   * A drain never lowers a `retryAmount` and never changes a `feature`: every
   * record left afterwards was there before, with the same payload and a
   * count at least as high.
   */
  lemma RetryAmountNeverDecreases(q: QueueState, open: OpenEvent<Database>, delivered: seq<bool>)
    requires QueueValid(q)
    ensures var q' := DrainSpec(q, open, delivered).1;
            forall k :: k in q'.records ==>
              && k in q.records
              && q'.records[k].feature == q.records[k].feature
              && q'.records[k].retryAmount >= q.records[k].retryAmount
  {
    if q.online && Settle(open).Resolved? {
      var s := Snapshot(q.records, q.nextId);
      var st := DrainState(q.records, q.events, q.deliveries, None);
      var r := Run(st, s, delivered);
      SnapshotIsDistinct(q.records, q.nextId);
      RunKeepsKeys(st, s, delivered);
      forall k | k in r.records
        ensures k in q.records && r.records[k].feature == q.records[k].feature
        ensures r.records[k].retryAmount >= q.records[k].retryAmount
      {
        if j :| 0 <= j < Processed(s, delivered) && s[j].id == k {
          RunFate(st, s, delivered, j);
        } else {
          RunLeavesOthers(st, s, delivered, k);
        }
      }
    }
  }

  /**
   * With every delivery succeeding, one drain empties the store and raises a
   * single success toast counting every record it held.
   */
  lemma DrainAllDeliveredEmptiesStore(q: QueueState, open: OpenEvent<Database>, delivered: seq<bool>)
    requires QueueValid(q) && q.online && Settle(open).Resolved?
    requires forall j :: 0 <= j < |q.records| ==> Delivered(delivered, j)
    ensures var (outcome, q') := DrainSpec(q, open, delivered);
            && q'.records == map[]
            && outcome == Synced(|q.records|)
            && q'.events == q.events + [SuccessToast(|q.records|)]
  {
    var s := Snapshot(q.records, q.nextId);
    var st := DrainState(q.records, q.events, q.deliveries, None);
    SnapshotLength(q.records, q.nextId);
    assert (set k | k in q.records && k < q.nextId) == q.records.Keys;
    assert |s| == |q.records|;
    DrainSynced(q, open, delivered);
    SnapshotIsDistinct(q.records, q.nextId);
    var r := Run(st, s, delivered);
    forall k | k in r.records
      ensures false
    {
      RunKeepsKeys(st, s, delivered);
      SnapshotCoversStore(q.records, q.nextId, k);
      var j :| 0 <= j < |s| && s[j].id == k;
      RunFate(st, s, delivered, j);
    }
  }

  /**
   * The ceiling is tested before the increment. A store holding one record
   * whose delivery fails: below 5 (at 4, say) the record is kept with one more
   * retry (5) and the drain reports "Synced 1"; at 5 or more it is deleted,
   * the error toast names its count, and no success toast follows.
   */
  lemma CeilingIsTestedBeforeIncrement(q: QueueState, db: Database, r: FeatureRequest)
    requires q.records == map[1 := r] && q.nextId == 2 && q.online
    ensures var e := Entry(1, r);
            DrainSpec(q, OpenSuccess(Some(db)), [false]) ==
              if r.retryAmount >= RetryCeiling then
                (Abandoned(e), q.(records := map[], events := q.events + [ErrorToast(r.retryAmount)],
                                  deliveries := q.deliveries + [e]))
              else
                (Synced(1), q.(records := map[1 := Retried(r)], events := q.events + [SuccessToast(1)],
                               deliveries := q.deliveries + [e]))
  {
    var e := Entry(1, r);
    assert Snapshot(q.records, 0) == [];
    assert Snapshot(q.records, 1) == [];
    assert Snapshot(q.records, 2) == [e];
    var st := DrainState(q.records, q.events, q.deliveries, None);
    assert [e][..0] == [];
    assert Run(st, [e], [false]) == Step(st, e, false);
    assert map[1 := r][1 := Retried(r)] == map[1 := Retried(r)];
    assert map[1 := r] - {1} == map[];
  }

  // ---------------------------------------------------------------------------
  // The controller
  // ---------------------------------------------------------------------------

  /**
   * The controller returned by `useFeatureApiQueue`, together with the object
   * store it works on, the connectivity flag it watches and the toasts it raises.
   */
  class FeatureQueue {
    var records: map<nat, FeatureRequest>
    var nextId: nat
    var online: bool
    var events: seq<Event>
    var deliveries: seq<Entry>

    /** The controller and its store as a value. */
    function State(): QueueState
      reads this
    {
      QueueState(records, nextId, online, events, deliveries)
    }

    ghost predicate Valid()
      reads this
    {
      QueueValid(State())
    }

    /** Setting up the controller over a store that already holds `stored`. */
    constructor (stored: map<nat, FeatureRequest>, current: nat, isOnline: bool)
      requires KeysBelow(stored, current)
      ensures Valid()
      ensures State() == QueueState(stored, current, isOnline, [], [])
    {
      records := stored;
      nextId := current;
      online := isOnline;
      events := [];
      deliveries := [];
    }

    /** `addRequestToQueue`. */
    method Add(request: Option<FeatureRequest>, open: OpenEvent<Database>) returns (c: Completion)
      requires Valid()
      modifies this
      ensures Valid()
      ensures (c, State()) == AddSpec(old(State()), request, open)
    {
      var settled := Settle(open);
      if settled.Rejected? {
        return Failed(settled.message);
      }
      if settled.Unsettled? {
        return Hangs;
      }
      if request.None? {
        return Done;
      }
      var key := GenerateKey(nextId);
      if key.Some? {
        GeneratedKeyIsFresh(records, nextId, request.value);
        records := records[key.value := request.value];
        nextId := NextCurrent(key.value);
      }
      c := Done;
    }

    /**
     * `handleRetryError` for an entry read from the store: at or above the
     * ceiling, delete it, raise the error toast and reject; otherwise write it
     * back under the same key with one more retry.
     */
    method RetryError(e: Entry) returns (rejected: bool)
      requires Valid()
      requires FirstGeneratedKey <= e.id < nextId
      modifies this
      ensures Valid()
      ensures rejected <==> Exhausts(e, false)
      ensures nextId == old(nextId) && online == old(online) && deliveries == old(deliveries)
      ensures rejected ==> records == old(records) - {e.id} && events == old(events) + [ErrorToast(e.request.retryAmount)]
      ensures !rejected ==> records == old(records)[e.id := Retried(e.request)] && events == old(events)
    {
      if e.request.retryAmount >= RetryCeiling {
        records := records - {e.id};
        events := events + [ErrorToast(e.request.retryAmount)];
        return true;
      }
      records := records[e.id := Retried(e.request)];
      rejected := false;
    }

    /**
     * One pass of the `for` body: attempt the delivery of `e`, whose outcome
     * is `ok`; then delete it on success, or hand it to `RetryError`.
     */
    method HandleEntry(e: Entry, ok: bool) returns (rejected: bool)
      requires Valid()
      requires FirstGeneratedKey <= e.id < nextId
      modifies this
      ensures Valid() && nextId == old(nextId) && online == old(online)
      ensures DrainState(records, events, deliveries, if rejected then Some(e) else None)
              == Step(DrainState(old(records), old(events), old(deliveries), None), e, ok)
    {
      deliveries := deliveries + [e];
      if ok {
        records := records - {e.id};
        rejected := false;
      } else {
        rejected := RetryError(e);
      }
    }

    /**
     * `handleQueue`: returns at once when offline; otherwise opens the store,
     * reads a snapshot of every record and handles its entries one at a time,
     * in order, leaving the loop when `RetryError` rejects.
     */
    method Drain(open: OpenEvent<Database>, delivered: seq<bool>) returns (outcome: DrainOutcome)
      requires Valid()
      modifies this
      ensures Valid()
      ensures (outcome, State()) == DrainSpec(old(State()), open, delivered)
    {
      if !online {
        return Skipped;
      }
      var settled := Settle(open);
      if settled.Rejected? {
        return StoreFailed(settled.message);
      }
      if settled.Unsettled? {
        return StoreHangs;
      }
      var snapshot := GetAll(records, nextId);
      ghost var st0 := DrainState(records, events, deliveries, None);
      var abandoned := HandleAll(snapshot, delivered);
      assert Run(st0, snapshot, delivered) == DrainState(records, events, deliveries, abandoned);
      if abandoned.Some? {
        return Abandoned(abandoned.value);
      }
      events := events + [SuccessToast(|snapshot|)];
      outcome := Synced(|snapshot|);
    }

    /**
     * The `for` loop over the snapshot: each entry in order, leaving the loop
     * at the first rejection.
     */
    method HandleAll(snapshot: seq<Entry>, delivered: seq<bool>) returns (abandoned: Option<Entry>)
      requires Valid()
      requires forall j :: 0 <= j < |snapshot| ==> FirstGeneratedKey <= snapshot[j].id < nextId
      modifies this
      ensures Valid() && nextId == old(nextId) && online == old(online)
      ensures DrainState(records, events, deliveries, abandoned)
              == Run(DrainState(old(records), old(events), old(deliveries), None), snapshot, delivered)
    {
      ghost var st0 := DrainState(records, events, deliveries, None);
      abandoned := None;
      var i := 0;
      while i < |snapshot| && abandoned.None?
        invariant 0 <= i <= |snapshot|
        invariant Valid() && nextId == old(nextId) && online == old(online)
        invariant Run(st0, snapshot[..i], delivered) == DrainState(records, events, deliveries, abandoned)
        decreases |snapshot| - i
      {
        var e := snapshot[i];
        assert snapshot[..i + 1][..i] == snapshot[..i];
        var rejected := HandleEntry(e, Delivered(delivered, i));
        if rejected {
          abandoned := Some(e);
        }
        i := i + 1;
      }
      if abandoned.Some? {
        RunAfterAbandon(st0, snapshot, delivered, i);
      } else {
        assert snapshot[..i] == snapshot;
      }
    }

    /** The `immediate` run of the connectivity watcher at setup: drain if online. */
    method Start(open: OpenEvent<Database>, delivered: seq<bool>) returns (outcome: DrainOutcome)
      requires Valid()
      modifies this
      ensures Valid()
      ensures (outcome, State()) == DrainSpec(old(State()), open, delivered)
    {
      if online {
        outcome := Drain(open, delivered);
      } else {
        outcome := Skipped;
      }
    }

    /**
     * The connectivity watcher: a change of `online` to true drains the queue;
     * a change to false, or no change at all, drains nothing.
     */
    method OnlineChanged(isOnline: bool, open: OpenEvent<Database>, delivered: seq<bool>) returns (outcome: DrainOutcome)
      requires Valid()
      modifies this
      ensures Valid()
      ensures online == isOnline
      ensures old(online) != isOnline && isOnline ==>
                (outcome, State()) == DrainSpec(old(State()).(online := true), open, delivered)
      ensures !(old(online) != isOnline && isOnline) ==>
                outcome == Skipped && State() == old(State()).(online := isOnline)
    {
      if online == isOnline {
        return Skipped;
      }
      online := isOnline;
      if isOnline {
        outcome := Drain(open, delivered);
      } else {
        outcome := Skipped;
      }
    }
  }
}
