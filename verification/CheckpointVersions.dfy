/** What every interleaving of transactions and direct puts keeps: the version discipline of the
    namespaces, the link between open snapshots and the tables, and the bounds of every buffer. */
module CheckpointVersions {
  import opened Foundations
  import opened CheckpointModel

  // ---------------------------------------------------------------- invariants

  ghost predicate VersionsBounded(db: Database) {
    && (forall scope :: scope in db.threads ==> db.threads[scope] >= 0)
    && (forall k :: k in db.checkpoints ==> 1 <= db.checkpoints[k].version <= CurrentVersion(db, k.scope))
  }

  ghost predicate SameVersion(rows: map<CheckpointKey, Row>, a: CheckpointKey, b: CheckpointKey) {
    a in rows && b in rows && a.scope == b.scope && rows[a].version == rows[b].version
  }

  ghost predicate VersionsDistinct(rows: map<CheckpointKey, Row>) {
    forall a, b :: SameVersion(rows, a, b) ==> a == b
  }

  ghost predicate DatabaseInv(db: Database) {
    VersionsBounded(db) && VersionsDistinct(db.checkpoints)
  }

  /** A snapshot agrees with the tables on every version up to its base, whatever happened since. */
  ghost predicate SnapshotInv(db: Database, scope: Scope, snapshot: Snapshot) {
    && 0 <= snapshot.base <= CurrentVersion(db, scope)
    && snapshot.base <= snapshot.current
    && (forall id :: id in snapshot.versions ==> 1 <= snapshot.versions[id] <= snapshot.current)
    && Injective(snapshot.versions)
    && (forall id :: id in snapshot.versions && snapshot.versions[id] <= snapshot.base ==>
          Stored(db, scope, id, snapshot.versions[id]))
    && (forall k :: k in db.checkpoints && k.scope == scope && db.checkpoints[k].version <= snapshot.base ==>
          k.id in snapshot.versions && snapshot.versions[k.id] == db.checkpoints[k].version)
  }

  ghost predicate SharedVersion(versions: map<string, int>, a: string, b: string) {
    a in versions && b in versions && versions[a] == versions[b]
  }

  ghost predicate Injective(versions: map<string, int>) {
    forall a, b :: SharedVersion(versions, a, b) ==> a == b
  }

  ghost predicate Stored(db: Database, scope: Scope, id: string, version: int) {
    CheckpointKey(scope, id) in db.checkpoints && db.checkpoints[CheckpointKey(scope, id)].version == version
  }

  ghost predicate BufferedAtAllocatedVersion(tx: Transaction, k: CheckpointKey)
    requires k in tx.checkpoints
  {
    && k.scope in tx.namespaces
    && k.id in tx.namespaces[k.scope].versions
    && tx.checkpoints[k].version == tx.namespaces[k.scope].versions[k.id]
  }

  ghost predicate RecordsInv(tx: Transaction) {
    forall k :: k in tx.checkpoints ==> BufferedAtAllocatedVersion(tx, k)
  }

  ghost predicate TransactionInv(db: Database, tx: Transaction) {
    && RecordsInv(tx)
    && forall scope :: scope in tx.namespaces ==> SnapshotInv(db, scope, tx.namespaces[scope])
  }

  predicate HasRoom(tx: Transaction) {
    tx.phase == Open && |tx.checkpoints| < MAX_CHECKPOINTS
  }

  /** An id that the transaction knows at a version its base already had, and that it has buffered or can still put. */
  predicate Inherited(tx: Transaction, scope: Scope, id: string) {
    && scope in tx.namespaces && id in tx.namespaces[scope].versions
    && tx.namespaces[scope].versions[id] <= tx.namespaces[scope].base
    && (HasRoom(tx) || CheckpointKey(scope, id) in tx.checkpoints)
  }

  /** A snapshot that owes nothing to the tables, because it passes on no inherited id. */
  ghost predicate Detached(tx: Transaction, scope: Scope)
    requires scope in tx.namespaces
  {
    var snapshot := tx.namespaces[scope];
    && 0 <= snapshot.base <= snapshot.current
    && (forall id :: id in snapshot.versions ==> 1 <= snapshot.versions[id] <= snapshot.current)
    && Injective(snapshot.versions)
    && forall id :: !Inherited(tx, scope, id)
  }

  /** Enough for a commit: each snapshot agrees with the tables, or is detached from them. */
  ghost predicate LooseInv(db: Database, tx: Transaction) {
    && RecordsInv(tx)
    && forall scope :: scope in tx.namespaces ==> SnapshotInv(db, scope, tx.namespaces[scope]) || Detached(tx, scope)
  }

  lemma TransactionIsLoose(db: Database, tx: Transaction)
    requires TransactionInv(db, tx)
    ensures LooseInv(db, tx)
  {
    assert forall scope :: scope in tx.namespaces ==> SnapshotInv(db, scope, tx.namespaces[scope]);
  }

  ghost predicate Inv(s: System) {
    && DatabaseInv(s.db)
    && forall t :: t in s.registry ==> TransactionInv(s.db, s.registry[t])
  }

  /** How a database may grow: versions only go up, a stored row keeps its version and origin, and a new
      row is newer than everything its namespace had. */
  ghost predicate Extends(before: Database, after: Database) {
    && (forall scope :: scope in before.threads ==> scope in after.threads)
    && (forall scope :: CurrentVersion(before, scope) <= CurrentVersion(after, scope))
    && (forall k :: k in before.checkpoints ==>
          k in after.checkpoints
          && after.checkpoints[k].version == before.checkpoints[k].version
          && after.checkpoints[k].origin == before.checkpoints[k].origin)
    && (forall k :: k in after.checkpoints && k !in before.checkpoints ==>
          after.checkpoints[k].version > CurrentVersion(before, k.scope))
  }

  lemma ExtendsTransitive(a: Database, b: Database, c: Database)
    requires Extends(a, b) && Extends(b, c)
    ensures Extends(a, c)
  {
    forall k | k in c.checkpoints && k !in a.checkpoints
      ensures c.checkpoints[k].version > CurrentVersion(a, k.scope)
    {
      assert CurrentVersion(a, k.scope) <= CurrentVersion(b, k.scope);
    }
  }

  lemma SnapshotSurvives(before: Database, after: Database, scope: Scope, snapshot: Snapshot)
    requires SnapshotInv(before, scope, snapshot) && Extends(before, after)
    ensures SnapshotInv(after, scope, snapshot)
  {
    assert CurrentVersion(before, scope) <= CurrentVersion(after, scope);
    forall id | id in snapshot.versions && snapshot.versions[id] <= snapshot.base
      ensures Stored(after, scope, id, snapshot.versions[id])
    {
      assert Stored(before, scope, id, snapshot.versions[id]);
    }
  }

  // ------------------------------------------------------------ database steps

  lemma DirectPutExtends(db: Database, key: CheckpointKey, origin: Origin, content: Content)
    ensures Extends(db, PutDirectly(db, key, origin, content))
  {
  }

  lemma DirectPutKeeps(db: Database, key: CheckpointKey, origin: Origin, content: Content)
    requires DatabaseInv(db)
    ensures DatabaseInv(PutDirectly(db, key, origin, content))
  {
    var after := PutDirectly(db, key, origin, content);
    forall a, b | SameVersion(after.checkpoints, a, b) ensures a == b {
      assert SameVersion(db.checkpoints, a, b) || a == key || b == key;
    }
  }

  /** A base that is current is at least what the namespace has; it is more only when the namespace has nothing. */
  lemma BaseIsReached(db: Database, tx: Transaction, scope: Scope)
    requires LooseInv(db, tx) && SnapshotsCurrent(db, tx) && scope in tx.namespaces
    ensures CurrentVersion(db, scope) <= tx.namespaces[scope].base <= tx.namespaces[scope].current
  {
    assert SnapshotCurrent(db, scope, tx.namespaces[scope]);
  }

  lemma CommittedVersion(db: Database, tx: Transaction, scope: Scope)
    requires DatabaseInv(db) && LooseInv(db, tx) && SnapshotsCurrent(db, tx)
    ensures CurrentVersion(db, scope) <= CurrentVersion(Applied(db, tx), scope)
    ensures scope in tx.namespaces ==> CurrentVersion(Applied(db, tx), scope) == tx.namespaces[scope].current
  {
    if scope in tx.namespaces { BaseIsReached(db, tx, scope); }
  }

  lemma CommitKeepsRows(db: Database, tx: Transaction, k: CheckpointKey)
    requires k in db.checkpoints
    ensures k in Applied(db, tx).checkpoints
    ensures Applied(db, tx).checkpoints[k].version == db.checkpoints[k].version
    ensures Applied(db, tx).checkpoints[k].origin == db.checkpoints[k].origin
  {
  }

  lemma CommitExtends(db: Database, tx: Transaction)
    requires DatabaseInv(db) && LooseInv(db, tx) && SnapshotsCurrent(db, tx)
    ensures Extends(db, Applied(db, tx))
  {
    var after := Applied(db, tx);
    forall scope ensures CurrentVersion(db, scope) <= CurrentVersion(after, scope) {
      CommittedVersion(db, tx, scope);
    }
    forall k | k in db.checkpoints
      ensures k in after.checkpoints && after.checkpoints[k].version == db.checkpoints[k].version
              && after.checkpoints[k].origin == db.checkpoints[k].origin
    {
      CommitKeepsRows(db, tx, k);
    }
    forall k | k in after.checkpoints && k !in db.checkpoints
      ensures after.checkpoints[k].version > CurrentVersion(db, k.scope)
    {
      NewRecordAboveBase(db, tx, k);
    }
  }

  lemma CommitKeepsBounds(db: Database, tx: Transaction)
    requires DatabaseInv(db) && LooseInv(db, tx) && SnapshotsCurrent(db, tx)
    ensures VersionsBounded(Applied(db, tx))
  {
    var after := Applied(db, tx);
    forall k | k in after.checkpoints
      ensures 1 <= after.checkpoints[k].version <= CurrentVersion(after, k.scope)
    {
      CommittedVersion(db, tx, k.scope);
      if k !in db.checkpoints { NewRecordAboveBase(db, tx, k); } else { CommitKeepsRows(db, tx, k); }
    }
    forall scope | scope in after.threads ensures after.threads[scope] >= 0 {
      CommittedVersion(db, tx, scope);
    }
  }

  /** A flushed row was stored before or, at a version above the base, is new: neither kind can collide. */
  lemma CommitKeepsDistinct(db: Database, tx: Transaction)
    requires DatabaseInv(db) && LooseInv(db, tx) && SnapshotsCurrent(db, tx)
    ensures VersionsDistinct(Applied(db, tx).checkpoints)
  {
    var rows := Applied(db, tx).checkpoints;
    forall a, b | SameVersion(rows, a, b) ensures a == b {
      if a in db.checkpoints && b in db.checkpoints {
        assert SameVersion(db.checkpoints, a, b);
      } else if a !in db.checkpoints {
        NewRecordIsAlone(db, tx, a, b);
      } else {
        NewRecordIsAlone(db, tx, b, a);
      }
    }
  }

  lemma NewRecordIsAlone(db: Database, tx: Transaction, a: CheckpointKey, b: CheckpointKey)
    requires DatabaseInv(db) && LooseInv(db, tx) && SnapshotsCurrent(db, tx)
    requires a !in db.checkpoints && SameVersion(Applied(db, tx).checkpoints, a, b)
    ensures a == b
  {
    NewRecordAboveBase(db, tx, a);
    if b in db.checkpoints {
      CommitKeepsRows(db, tx, b);
      StoredIsBelow(db, b);
      assert false;
    } else {
      NewRecordsDiffer(tx, a, b);
    }
  }

  lemma StoredIsBelow(db: Database, k: CheckpointKey)
    requires VersionsBounded(db) && k in db.checkpoints
    ensures db.checkpoints[k].version <= CurrentVersion(db, k.scope)
  {
  }

  /** Two buffered records of one namespace at one version are one. */
  lemma NewRecordsDiffer(tx: Transaction, a: CheckpointKey, b: CheckpointKey)
    requires RecordsInv(tx) && a in tx.checkpoints && b in tx.checkpoints && a.scope == b.scope
    requires a.scope in tx.namespaces && Injective(tx.namespaces[a.scope].versions)
    requires tx.checkpoints[a].version == tx.checkpoints[b].version
    ensures a == b
  {
    assert BufferedAtAllocatedVersion(tx, a) && BufferedAtAllocatedVersion(tx, b);
    assert SharedVersion(tx.namespaces[a.scope].versions, a.id, b.id);
  }

  /** While the base is still current the snapshot holds the versions of every stored row. */
  lemma SnapshotIsWhole(db: Database, tx: Transaction, scope: Scope)
    requires DatabaseInv(db) && TransactionInv(db, tx) && SnapshotsCurrent(db, tx) && scope in tx.namespaces
    ensures CurrentVersion(db, scope) == tx.namespaces[scope].base
    ensures forall k :: k in db.checkpoints && k.scope == scope ==>
      k.id in tx.namespaces[scope].versions && tx.namespaces[scope].versions[k.id] == db.checkpoints[k].version
  {
    assert SnapshotInv(db, scope, tx.namespaces[scope]) && SnapshotCurrent(db, scope, tx.namespaces[scope]);
  }

  lemma NewRecordAboveBase(db: Database, tx: Transaction, k: CheckpointKey)
    requires DatabaseInv(db) && LooseInv(db, tx) && SnapshotsCurrent(db, tx)
    requires k in tx.checkpoints && k !in db.checkpoints
    ensures k.scope in tx.namespaces && Injective(tx.namespaces[k.scope].versions)
    ensures CurrentVersion(db, k.scope) < tx.checkpoints[k].version <= tx.namespaces[k.scope].current
  {
    assert BufferedAtAllocatedVersion(tx, k);
    var snapshot := tx.namespaces[k.scope];
    BaseIsReached(db, tx, k.scope);
    assert k == CheckpointKey(k.scope, k.id);
    if Detached(tx, k.scope) {
      assert !Inherited(tx, k.scope, k.id);
    } else {
      assert SnapshotInv(db, k.scope, snapshot) && !Stored(db, k.scope, k.id, snapshot.versions[k.id]);
    }
  }

  // --------------------------------------------------------- transaction steps

  /** The error branch of the snapshot load cannot be taken. */
  lemma LoadedSnapshot(db: Database, scope: Scope)
    requires DatabaseInv(db)
    ensures LoadSnapshot(db, scope).Ok?
    ensures SnapshotInv(db, scope, LoadSnapshot(db, scope).value)
  {
    var versions := Versions(db, scope);
    forall id | id in versions
      ensures Stored(db, scope, id, versions[id]) && 1 <= versions[id] <= CurrentVersion(db, scope)
    {
      assert CheckpointKey(scope, id) in db.checkpoints;
    }
    forall a, b | SharedVersion(versions, a, b) ensures a == b {
      assert SameVersion(db.checkpoints, CheckpointKey(scope, a), CheckpointKey(scope, b));
    }
  }

  lemma AllocateKeeps(db: Database, scope: Scope, snapshot: Snapshot, id: string)
    requires SnapshotInv(db, scope, snapshot)
    ensures SnapshotInv(db, scope, Allocate(snapshot, id))
    ensures forall k :: k in snapshot.versions ==>
      k in Allocate(snapshot, id).versions && Allocate(snapshot, id).versions[k] == snapshot.versions[k]
  {
    var after := Allocate(snapshot, id);
    forall a, b | SharedVersion(after.versions, a, b) ensures a == b {
      assert SharedVersion(snapshot.versions, a, b) || a == id || b == id;
    }
    forall i | i in after.versions && after.versions[i] <= after.base
      ensures Stored(db, scope, i, after.versions[i])
    {
      assert i in snapshot.versions;
    }
  }

  /** Holding a grown snapshot, without a new record. */
  lemma HoldKeeps(db: Database, tx: Transaction, scope: Scope, snapshot: Snapshot)
    requires TransactionInv(db, tx) && SnapshotInv(db, scope, snapshot)
    requires scope in tx.namespaces ==> forall id :: id in tx.namespaces[scope].versions ==>
      id in snapshot.versions && snapshot.versions[id] == tx.namespaces[scope].versions[id]
    ensures TransactionInv(db, tx.(namespaces := tx.namespaces[scope := snapshot]))
  {
    var held := tx.(namespaces := tx.namespaces[scope := snapshot]);
    forall k | k in held.checkpoints ensures BufferedAtAllocatedVersion(held, k) {
      assert BufferedAtAllocatedVersion(tx, k);
    }
  }

  /** Buffering a record at the version its snapshot allocated. */
  lemma RecordKeeps(tx: Transaction, key: CheckpointKey, record: Row, after: Transaction)
    requires RecordsInv(tx) && key.scope in tx.namespaces && key.id in tx.namespaces[key.scope].versions
    requires record.version == tx.namespaces[key.scope].versions[key.id]
    requires after.namespaces == tx.namespaces && after.checkpoints == tx.checkpoints[key := record]
    ensures RecordsInv(after)
  {
    forall k | k in after.checkpoints ensures BufferedAtAllocatedVersion(after, k) {
      if k != key { assert BufferedAtAllocatedVersion(tx, k); }
    }
  }

  lemma BufferPutShape(db: Database, tx: Transaction, key: CheckpointKey, origin: Origin, content: Content)
    requires tx.phase == Open && SnapshotFor(db, tx, key.scope).Ok?
    ensures var snapshot := Allocate(SnapshotFor(db, tx, key.scope).value, key.id);
            var reply := BufferPut(db, tx, key, origin, content);
            && reply.tx.namespaces == tx.namespaces[key.scope := snapshot]
            && reply.tx.checkpoints ==
                 if reply.result.Ok? then tx.checkpoints[key := Row(snapshot.versions[key.id], origin, content)]
                 else tx.checkpoints
  {
  }

  lemma PutKeeps(db: Database, tx: Transaction, key: CheckpointKey, before: Snapshot, record: Row, after: Transaction)
    requires TransactionInv(db, tx) && SnapshotInv(db, key.scope, before)
    requires key.scope in tx.namespaces ==> tx.namespaces[key.scope] == before
    requires record.version == Allocate(before, key.id).versions[key.id]
    requires after.namespaces == tx.namespaces[key.scope := Allocate(before, key.id)]
    requires after.checkpoints == tx.checkpoints || after.checkpoints == tx.checkpoints[key := record]
    ensures TransactionInv(db, after)
  {
    AllocateKeeps(db, key.scope, before, key.id);
    HoldKeeps(db, tx, key.scope, Allocate(before, key.id));
    var held := tx.(namespaces := after.namespaces);
    if after.checkpoints == tx.checkpoints {
      SameRecordsKeep(db, held, after);
    } else {
      RecordKeeps(held, key, record, after);
    }
  }

  // ---------------------------------------------------------------------- runs

  lemma OthersSurvive(s: System, db: Database)
    requires Inv(s) && Extends(s.db, db)
    ensures forall t :: t in s.registry ==> TransactionInv(db, s.registry[t])
  {
    forall t | t in s.registry ensures TransactionInv(db, s.registry[t]) {
      assert TransactionInv(s.db, s.registry[t]);
      forall scope | scope in s.registry[t].namespaces
        ensures SnapshotInv(db, scope, s.registry[t].namespaces[scope])
      {
        SnapshotSurvives(s.db, db, scope, s.registry[t].namespaces[scope]);
      }
    }
  }

  lemma OpenPutKeeps(db: Database, tx: Transaction, key: CheckpointKey, origin: Origin, content: Content)
    requires DatabaseInv(db) && TransactionInv(db, tx) && tx.phase == Open
    ensures TransactionInv(db, BufferPut(db, tx, key, origin, content).tx)
  {
    LoadedSnapshot(db, key.scope);
    BufferPutShape(db, tx, key, origin, content);
    var before := SnapshotFor(db, tx, key.scope).value;
    var record := Row(Allocate(before, key.id).versions[key.id], origin, content);
    PutKeeps(db, tx, key, before, record, BufferPut(db, tx, key, origin, content).tx);
  }

  lemma WritesTouchNoRecords(tx: Transaction, records: map<WriteKey, WriteRow>)
    ensures BufferWrites(tx, records).tx.namespaces == tx.namespaces
    ensures BufferWrites(tx, records).tx.checkpoints == tx.checkpoints
    ensures BufferWrites(tx, records).tx.phase == tx.phase
  {
  }

  lemma OnlyPutsTouchRecords(db: Database, tx: Transaction, e: Event)
    requires !(e.Put? && tx.phase == Open)
    ensures NextTransaction(db, tx, e).namespaces == tx.namespaces
    ensures NextTransaction(db, tx, e).checkpoints == tx.checkpoints
    ensures tx.phase != Open ==> NextTransaction(db, tx, e).phase != Open
  {
    if e.PutWrites? { WritesTouchNoRecords(tx, e.records); }
  }

  lemma NextTransactionKeeps(db: Database, tx: Transaction, e: Event, after: Transaction)
    requires DatabaseInv(db) && TransactionInv(db, tx) && after == NextTransaction(db, tx, e)
    ensures TransactionInv(db, after)
  {
    if e.Put? && tx.phase == Open {
      OpenPutKeeps(db, tx, e.key, e.origin, e.content);
    } else {
      OnlyPutsTouchRecords(db, tx, e);
      SameRecordsKeep(db, tx, after);
    }
  }

  lemma SameRecordsKeep(db: Database, tx: Transaction, after: Transaction)
    requires TransactionInv(db, tx) && after.namespaces == tx.namespaces && after.checkpoints == tx.checkpoints
    ensures TransactionInv(db, after)
  {
    forall k | k in after.checkpoints ensures BufferedAtAllocatedVersion(after, k) {
      assert BufferedAtAllocatedVersion(tx, k);
    }
  }

  ghost predicate ChangesDatabase(e: Event) {
    e.DirectPut? || e.DirectWrites? || e.Commit?
  }

  lemma CommitStepKeeps(s: System, t: TransactionKey)
    requires Inv(s) && t in s.registry && CanCommit(s.db, s.registry[t])
    ensures DatabaseInv(Applied(s.db, s.registry[t])) && Extends(s.db, Applied(s.db, s.registry[t]))
  {
    TransactionIsLoose(s.db, s.registry[t]);
    CommitExtends(s.db, s.registry[t]);
    CommitKeepsBounds(s.db, s.registry[t]);
    CommitKeepsDistinct(s.db, s.registry[t]);
  }

  lemma SameTablesKeep(db: Database, after: Database)
    requires DatabaseInv(db) && after.threads == db.threads && after.checkpoints == db.checkpoints
    ensures DatabaseInv(after) && Extends(db, after)
  {
  }

  lemma CommitEventKeeps(s: System, t: TransactionKey, after: System)
    requires Inv(s) && after == Next(s, Commit(t))
    ensures DatabaseInv(after.db) && Extends(s.db, after.db)
  {
    if t in s.registry && s.registry[t].phase == Committing && CanCommit(s.db, s.registry[t]) {
      CommitStepKeeps(s, t);
    } else {
      SameTablesKeep(s.db, after.db);
    }
  }

  lemma DatabaseStepKeeps(s: System, e: Event)
    requires Inv(s) && ChangesDatabase(e)
    ensures DatabaseInv(Next(s, e).db) && Extends(s.db, Next(s, e).db)
  {
    match e
    case DirectPut(key, origin, content) =>
      DirectPutExtends(s.db, key, origin, content);
      DirectPutKeeps(s.db, key, origin, content);
    case Commit(t) => CommitEventKeeps(s, t, Next(s, e));
    case DirectWrites(_) => SameTablesKeep(s.db, Next(s, e).db);
  }

  lemma StepKeeps(s: System, e: Event)
    requires Inv(s)
    ensures Inv(Next(s, e)) && Extends(s.db, Next(s, e).db)
  {
    if ChangesDatabase(e) { DatabaseStepKeeps(s, e); }
    OthersSurvive(s, Next(s, e).db);
    if e.Put? || e.PutWrites? || e.Seal? || e.StartFlush? {
      if e.t in s.registry { NextTransactionKeeps(s.db, s.registry[e.t], e, Next(s, e).registry[e.t]); }
    }
  }

  lemma {:induction false} RunKeeps(s: System, events: seq<Event>)
    requires Inv(s)
    ensures Inv(Run(s, events)) && Extends(s.db, Run(s, events).db)
    decreases |events|
  {
    if events != [] {
      StepKeeps(s, events[0]);
      RunKeeps(Next(s, events[0]), events[1..]);
      ExtendsTransitive(s.db, Next(s, events[0]).db, Run(s, events).db);
    }
  }
}
