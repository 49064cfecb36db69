/**
 * The persistent side of the offline feature queue: the record shape, the
 * database and store names, the schema rule run on `upgradeneeded`, the key
 * generator of the auto-incrementing store, and how the open request settles
 * the promise handed back to callers.
 */
module FeatureRequestDatabase {
  import opened Wrappers

  /** Name and version under which the queue database is opened. */
  const DatabaseName: string := "Queue"
  const DatabaseVersion: nat := 1

  /** The one object store that holds queued requests, and its key path. */
  const StoreName: string := "FeaturesQueue"
  const KeyPath: string := "id"

  /** Message of the error a failed open rejects with. */
  const OpenErrorMessage: string := "Error opening database"

  /**
   * A queued feature-creation request: exactly the two payload fields.
   * `retryAmount` is a JavaScript number; it is modelled as an integer and
   * nothing stops a producer from supplying any value.
   */
  datatype FeatureRequest = FeatureRequest(feature: string, retryAmount: int)

  /** Key options an object store is created with. */
  datatype StoreSchema = StoreSchema(keyPath: string, autoIncrement: bool)

  /** The options the queue store is created with: in-line key `id`, generated keys. */
  const FeaturesQueueSchema: StoreSchema := StoreSchema(KeyPath, true)

  // ---------------------------------------------------------------------------
  // Key generator of an auto-increment store (W3C Indexed Database API,
  // section 2.11 "Key generators"): its current number starts at 1, each
  // generated key is the current number, which then goes up by one, and
  // generation fails once the current number exceeds 2^53.
  // ---------------------------------------------------------------------------

  const FirstGeneratedKey: nat := 1
  const MaxGeneratedKey: nat := 0x20_0000_0000_0000

  /** The key the generator hands out from `current`, or None once it is exhausted. */
  function GenerateKey(current: nat): Option<nat>
  {
    if current <= MaxGeneratedKey then Some(current) else None
  }

  /** The generator's current number once it has handed out `key`. */
  function NextCurrent(key: nat): nat
  {
    key + 1
  }

  /**
   * Every key in a store lies in [FirstGeneratedKey, current): the state the
   * generator keeps as long as records are only written under keys it produced.
   */
  ghost predicate KeysBelow<V>(records: map<nat, V>, current: nat)
  {
    FirstGeneratedKey <= current &&
    forall k :: k in records ==> FirstGeneratedKey <= k < current
  }

  /**
   * A key the generator produces is not used by any record already stored, and
   * storing under it keeps every key below the advanced current number.
   */
  lemma GeneratedKeyIsFresh<V>(records: map<nat, V>, current: nat, v: V)
    requires KeysBelow(records, current)
    requires GenerateKey(current).Some?
    ensures GenerateKey(current).value !in records
    ensures FirstGeneratedKey <= GenerateKey(current).value <= MaxGeneratedKey
    ensures KeysBelow(records[GenerateKey(current).value := v], NextCurrent(GenerateKey(current).value))
  {
  }

  // ---------------------------------------------------------------------------
  // Schema upgrade (the `upgradeneeded` handler)
  // ---------------------------------------------------------------------------

  /** A database connection's schema: its object stores by name. */
  class Database {
    var stores: map<string, StoreSchema>

    /** A database that has just been created: it holds no object store yet. */
    constructor ()
      ensures stores == map[]
    {
      stores := map[];
    }
  }

  /** The schema after the upgrade rule: add the queue store only when it is absent. */
  function UpgradeStores(stores: map<string, StoreSchema>): (r: map<string, StoreSchema>)
    ensures StoreName in r
    ensures StoreName !in stores ==> r[StoreName] == FeaturesQueueSchema
    ensures forall n :: n in stores ==> n in r && r[n] == stores[n]
    ensures forall n :: n in r && n != StoreName ==> n in stores
  {
    if StoreName in stores then stores else stores[StoreName := FeaturesQueueSchema]
  }

  /** Running the upgrade twice leaves the schema as running it once. */
  lemma UpgradeIsIdempotent(stores: map<string, StoreSchema>)
    ensures UpgradeStores(UpgradeStores(stores)) == UpgradeStores(stores)
  {
  }

  /** After an upgrade, exactly the queue store is added, with key path `id` and auto-increment. */
  lemma UpgradeCreatesQueueStore()
    ensures UpgradeStores(map[]) == map[StoreName := StoreSchema("id", true)]
  {
  }

  /**
   * The `upgradeneeded` handler. `db` is the event target's result, which may
   * be null; then the handler does nothing.
   */
  method OnUpgradeNeeded(db: Database?)
    modifies db
    ensures db != null ==> db.stores == UpgradeStores(old(db.stores))
  {
    if db == null {
      return;
    }
    if StoreName in db.stores {
      return;
    }
    db.stores := db.stores[StoreName := FeaturesQueueSchema];
  }

  /**
   * The first open on a device: IndexedDB creates the database empty and
   * fires `upgradeneeded`, after which it holds exactly the queue store,
   * keyed on `id` with auto-increment.
   */
  method CreateQueueDatabase() returns (db: Database)
    ensures fresh(db)
    ensures db.stores == map[StoreName := StoreSchema("id", true)]
  {
    db := new Database();
    OnUpgradeNeeded(db);
    UpgradeCreatesQueueStore();
  }

  // ---------------------------------------------------------------------------
  // Settling the open promise
  // ---------------------------------------------------------------------------

  /** What the open request reports: an error, or success with a possibly null result. */
  datatype OpenEvent<D> = OpenError | OpenSuccess(result: Option<D>)

  /** The state the promise returned by the open ends in. */
  datatype Settlement<D> = Resolved(db: D) | Rejected(message: string) | Unsettled

  /**
   * How the `error` and `success` handlers settle the promise: an error
   * rejects with "Error opening database"; success resolves only with a
   * non-null result; a null result leaves the promise pending for ever.
   */
  function Settle<D>(e: OpenEvent<D>): (s: Settlement<D>)
    ensures s.Rejected? <==> e.OpenError?
    ensures s.Rejected? ==> s.message == OpenErrorMessage
    ensures s.Resolved? <==> e.OpenSuccess? && e.result.Some?
    ensures s.Resolved? ==> s.db == e.result.value
    ensures s.Unsettled? <==> e == OpenSuccess(None)
  {
    match e
    case OpenError => Rejected(OpenErrorMessage)
    case OpenSuccess(Some(db)) => Resolved(db)
    case OpenSuccess(None) => Unsettled
  }
}
