/** The checkpoint saver's tables, its buffered transactions, and the steps that change them.
    Every step below is one critical section of the saver: the `FOR UPDATE` row locks of a flush and of
    a direct put make their database work atomic. */
module CheckpointModel {
  import opened Foundations

  // ------------------------------------------------------------------ data

  datatype Scope = Scope(threadId: string, ns: string)
  datatype CheckpointKey = CheckpointKey(scope: Scope, id: string)
  /** The part of a pending write's primary key that orders the writes of one checkpoint. */
  datatype Slot = Slot(index: int, taskId: string, taskPath: string)
  datatype WriteKey = WriteKey(checkpoint: CheckpointKey, slot: Slot)

  datatype Blob = Blob(kind: string, bytes: seq<byte>)
  /** The columns an `ON DUPLICATE KEY UPDATE` overwrites. */
  datatype Content = Content(parent: string, checkpoint: Blob, metadata: Blob)
  /** The columns it leaves alone, besides the version. */
  datatype Origin = Origin(executionId: string, workflowRunId: Option<int>, agentRunId: Option<int>)
  datatype Row = Row(version: int, origin: Origin, content: Content)
  datatype WriteRow = WriteRow(channel: string, value: Blob)

  datatype Database = Database(
    threads: map<Scope, int>,
    checkpoints: map<CheckpointKey, Row>,
    writes: map<WriteKey, WriteRow>)

  datatype Snapshot = Snapshot(base: int, current: int, versions: map<string, int>)
  datatype Phase = Open | Sealed | Committing | Closed
  datatype Transaction = Transaction(
    phase: Phase,
    namespaces: map<Scope, Snapshot>,
    checkpoints: map<CheckpointKey, Row>,
    writes: map<WriteKey, WriteRow>,
    payload: int)

  datatype SaverError =
    | NotOpen(phase: Phase)
    | VersionBehindCheckpoints
    | TooManyCheckpoints
    | TooManyWrites
    | PayloadTooLarge

  datatype Reply<T> = Reply(tx: Transaction, result: Result<T, SaverError>)

  const MAX_CHECKPOINTS := 256
  const MAX_WRITES := 4096
  const MAX_PAYLOAD_BYTES := 16 * 1024 * 1024

  const EMPTY_DATABASE := Database(map[], map[], map[])
  const EMPTY_TRANSACTION := Transaction(Open, map[], map[], map[], 0)

  // ------------------------------------------------- buffering in a transaction

  function CurrentVersion(db: Database, scope: Scope): int {
    if scope in db.threads then db.threads[scope] else 0
  }

  function Versions(db: Database, scope: Scope): (r: map<string, int>) {
    map id | id in (set k | k in db.checkpoints && k.scope == scope :: k.id)
      :: db.checkpoints[CheckpointKey(scope, id)].version
  }

  function LoadSnapshot(db: Database, scope: Scope): Result<Snapshot, SaverError> {
    var versions := Versions(db, scope);
    var current := CurrentVersion(db, scope);
    if exists id :: id in versions && versions[id] > current
    then Err(VersionBehindCheckpoints)
    else Ok(Snapshot(current, current, versions))
  }

  /** Gives `id` its version: the one it already has, or the next one of the namespace. */
  function Allocate(snapshot: Snapshot, id: string): (r: Snapshot)
    ensures id in r.versions && r.base == snapshot.base
  {
    if id !in snapshot.versions || snapshot.versions[id] == 0
    then snapshot.(current := snapshot.current + 1, versions := snapshot.versions[id := snapshot.current + 1])
    else snapshot
  }

  function RowBytes(row: Row): nat {
    |row.content.checkpoint.bytes| + |row.content.metadata.bytes|
  }

  function WriteBytes(row: WriteRow): nat {
    |row.value.bytes|
  }

  function RowSizes(rows: map<CheckpointKey, Row>): map<CheckpointKey, int> {
    map k | k in rows :: RowBytes(rows[k])
  }

  function WriteSizes(rows: map<WriteKey, WriteRow>): map<WriteKey, int> {
    map k | k in rows :: WriteBytes(rows[k])
  }

  function CapacityError(checkpoints: int, writes: int, payload: int): Option<SaverError> {
    if checkpoints > MAX_CHECKPOINTS then Some(TooManyCheckpoints)
    else if writes > MAX_WRITES then Some(TooManyWrites)
    else if payload > MAX_PAYLOAD_BYTES then Some(PayloadTooLarge)
    else None
  }

  function SnapshotFor(db: Database, tx: Transaction, scope: Scope): Result<Snapshot, SaverError> {
    if scope in tx.namespaces then Ok(tx.namespaces[scope]) else LoadSnapshot(db, scope)
  }

  /** Puts a record into the buffer, replacing an earlier one of its key, if the limits allow. */
  function BufferRecord(tx: Transaction, key: CheckpointKey, record: Row): Reply<int> {
    var payload := tx.payload + RowBytes(record) - if key in tx.checkpoints then RowBytes(tx.checkpoints[key]) else 0;
    var count := |tx.checkpoints| + if key in tx.checkpoints then 0 else 1;
    match CapacityError(count, |tx.writes|, payload)
    case Some(e) => Reply(tx, Err(e))
    case None => Reply(tx.(checkpoints := tx.checkpoints[key := record], payload := payload), Ok(record.version))
  }

  /** `put` inside a transaction. The version is allocated, and stays allocated, before capacity is checked. */
  function BufferPut(db: Database, tx: Transaction, key: CheckpointKey, origin: Origin, content: Content): Reply<int> {
    if tx.phase != Open then Reply(tx, Err(NotOpen(tx.phase))) else
    match SnapshotFor(db, tx, key.scope)
    case Err(e) => Reply(tx, Err(e))
    case Ok(before) =>
      var snapshot := Allocate(before, key.id);
      BufferRecord(tx.(namespaces := tx.namespaces[key.scope := snapshot]), key,
                   Row(snapshot.versions[key.id], origin, content))
  }

  /** `put_writes` inside a transaction; an empty batch returns before the transaction is looked at. */
  ghost function BufferWrites(tx: Transaction, records: map<WriteKey, WriteRow>): Reply<()> {
    if records == map[] then Reply(tx, Ok(())) else
    if tx.phase != Open then Reply(tx, Err(NotOpen(tx.phase))) else
    var replaced := map k | k in tx.writes && k in records :: tx.writes[k];
    var payload := tx.payload - Sum(WriteSizes(replaced)) + Sum(WriteSizes(records));
    match CapacityError(|tx.checkpoints|, |tx.writes.Keys + records.Keys|, payload)
    case Some(e) => Reply(tx, Err(e))
    case None => Reply(tx.(writes := tx.writes + records, payload := payload), Ok(()))
  }

  // ------------------------------------------------------------- database steps

  /** The conflict check reads the row it has just inserted when the namespace has none. */
  predicate SnapshotCurrent(db: Database, scope: Scope, snapshot: Snapshot) {
    scope in db.threads ==> db.threads[scope] == snapshot.base
  }

  predicate SnapshotsCurrent(db: Database, tx: Transaction) {
    forall scope :: scope in tx.namespaces ==> SnapshotCurrent(db, scope, tx.namespaces[scope])
  }

  /** A pending write of a checkpoint that is neither buffered nor stored, and not of the id-less one. */
  predicate Dangling(db: Database, tx: Transaction, key: CheckpointKey) {
    key !in tx.checkpoints && key.id != "" && key !in db.checkpoints
  }

  predicate WritesAnchored(db: Database, tx: Transaction) {
    forall w :: w in tx.writes ==> !Dangling(db, tx, w.checkpoint)
  }

  predicate CanCommit(db: Database, tx: Transaction) {
    SnapshotsCurrent(db, tx) && WritesAnchored(db, tx)
  }

  /** `INSERT ... ON DUPLICATE KEY UPDATE`: a stored row keeps its version and origin. */
  function Upsert(rows: map<CheckpointKey, Row>, records: map<CheckpointKey, Row>): map<CheckpointKey, Row> {
    map k | k in rows.Keys + records.Keys ::
      if k !in records then rows[k]
      else if k !in rows then records[k]
      else rows[k].(content := records[k].content)
  }

  function Applied(db: Database, tx: Transaction): Database {
    Database(
      db.threads + map scope | scope in tx.namespaces :: tx.namespaces[scope].current,
      Upsert(db.checkpoints, tx.checkpoints),
      db.writes + tx.writes)
  }

  function PutDirectly(db: Database, key: CheckpointKey, origin: Origin, content: Content): Database {
    if key in db.checkpoints
    then db.(checkpoints := db.checkpoints[key := db.checkpoints[key].(content := content)])
    else
      var version := CurrentVersion(db, key.scope) + 1;
      db.(threads := db.threads[key.scope := version],
          checkpoints := db.checkpoints[key := Row(version, origin, content)])
  }

  function PutWritesDirectly(db: Database, records: map<WriteKey, WriteRow>): Database {
    db.(writes := db.writes + records)
  }

  // ------------------------------------------------------------------- reading

  /** The row order of `ORDER BY version DESC, checkpoint_id DESC` and of the buffer's `max`. */
  predicate AtLeastAsNew(rows: map<CheckpointKey, Row>, a: CheckpointKey, b: CheckpointKey)
    requires a in rows && b in rows
  {
    rows[a].version > rows[b].version || (rows[a].version == rows[b].version && StringLe(b.id, a.id))
  }

  ghost predicate IsNewest(rows: map<CheckpointKey, Row>, scope: Scope, key: CheckpointKey) {
    && key in rows && key.scope == scope
    && forall k :: k in rows && k.scope == scope ==> AtLeastAsNew(rows, key, k)
  }

  /** The row a query selects: the one with the given id, or the newest when the id is empty. */
  ghost function Select(rows: map<CheckpointKey, Row>, scope: Scope, id: string): Option<CheckpointKey> {
    if id != "" then
      if CheckpointKey(scope, id) in rows then Some(CheckpointKey(scope, id)) else None
    else if key :| IsNewest(rows, scope, key) then Some(key) else None
  }

  predicate SlotLe(a: Slot, b: Slot) {
    a.index < b.index || (a.index == b.index &&
      if a.taskId != b.taskId then StringLe(a.taskId, b.taskId) else StringLe(a.taskPath, b.taskPath))
  }

  function WritesOf(writes: map<WriteKey, WriteRow>, key: CheckpointKey): map<Slot, WriteRow> {
    map slot | slot in (set w | w in writes && w.checkpoint == key :: w.slot) :: writes[WriteKey(key, slot)]
  }

  datatype PendingWrite = PendingWrite(taskId: string, row: WriteRow)
  datatype CheckpointTuple = CheckpointTuple(key: CheckpointKey, version: int, content: Content,
                                             pending: seq<PendingWrite>)

  ghost function Pending(slots: map<Slot, WriteRow>): seq<PendingWrite> {
    SlotOrder();
    SortedIsSorted(slots.Keys, SlotLe);
    var order := Sorted(slots.Keys, SlotLe);
    seq(|order|, i requires 0 <= i < |order| => PendingWrite(order[i].taskId, slots[order[i]]))
  }

  lemma SlotOrder()
    ensures TotalOrder(SlotLe)
  {
    StringLeIsOrder();
  }

  ghost function TupleOf(key: CheckpointKey, row: Row, slots: map<Slot, WriteRow>): CheckpointTuple {
    CheckpointTuple(key, row.version, row.content, Pending(slots))
  }

  /** `get_tuple` outside a transaction. */
  ghost function ReadCommitted(db: Database, scope: Scope, id: string): Option<CheckpointTuple> {
    match Select(db.checkpoints, scope, id)
    case None => None
    case Some(key) => Some(TupleOf(key, db.checkpoints[key], WritesOf(db.writes, key)))
  }

  /** `get_tuple` inside a transaction: the buffer overlays the database. */
  ghost function ReadOverlay(db: Database, tx: Transaction, scope: Scope, id: string): Option<CheckpointTuple> {
    var stored, buffered := Select(db.checkpoints, scope, id), Select(tx.checkpoints, scope, id);
    if buffered.Some? &&
       (stored.None? || tx.checkpoints[buffered.value].version >= db.checkpoints[stored.value].version)
    then OverlayTuple(db, tx, buffered.value, tx.checkpoints[buffered.value])
    else if stored.Some? then OverlayTuple(db, tx, stored.value, db.checkpoints[stored.value])
    else None
  }

  ghost function OverlayTuple(db: Database, tx: Transaction, key: CheckpointKey, row: Row): Option<CheckpointTuple> {
    Some(TupleOf(key, row, WritesOf(db.writes, key) + WritesOf(tx.writes, key)))
  }

  // ---------------------------------------------------------------------- runs

  datatype TransactionKey = TransactionKey(threadId: string, executionId: string)
  datatype System = System(db: Database, registry: map<TransactionKey, Transaction>)

  datatype Event =
    | Begin(t: TransactionKey)
    | Put(t: TransactionKey, key: CheckpointKey, origin: Origin, content: Content)
    | PutWrites(t: TransactionKey, records: map<WriteKey, WriteRow>)
    | Seal(t: TransactionKey)
    | StartFlush(t: TransactionKey)
    | Commit(t: TransactionKey)
    | Abort(t: TransactionKey)
    | DirectPut(key: CheckpointKey, origin: Origin, content: Content)
    | DirectWrites(records: map<WriteKey, WriteRow>)

  const INITIAL := System(EMPTY_DATABASE, map[])

  ghost function NextTransaction(db: Database, tx: Transaction, e: Event): Transaction {
    match e
    case Put(_, key, origin, content) => BufferPut(db, tx, key, origin, content).tx
    case PutWrites(_, records) => BufferWrites(tx, records).tx
    case Seal(_) => if tx.phase == Open then tx.(phase := Sealed) else tx
    case StartFlush(_) => if tx.phase == Sealed then tx.(phase := Committing) else tx
    case _ => tx
  }

  ghost function Next(s: System, e: Event): System {
    match e
    case DirectPut(key, origin, content) => s.(db := PutDirectly(s.db, key, origin, content))
    case DirectWrites(records) => s.(db := PutWritesDirectly(s.db, records))
    case Begin(t) => if t in s.registry then s else s.(registry := s.registry[t := EMPTY_TRANSACTION])
    case Abort(t) => s.(registry := s.registry - {t})
    case Commit(t) =>
      if t !in s.registry || s.registry[t].phase != Committing then s else
      System(if CanCommit(s.db, s.registry[t]) then Applied(s.db, s.registry[t]) else s.db, s.registry - {t})
    case _ =>
      if e.t in s.registry
      then s.(registry := s.registry[e.t := NextTransaction(s.db, s.registry[e.t], e)])
      else s
  }

  ghost function Run(s: System, events: seq<Event>): System
    decreases |events|
  {
    if events == [] then s else Run(Next(s, events[0]), events[1..])
  }

  // ------------------------------------------------------------------ deletion

  /** `delete_thread`: the rows of the thread go from all three tables. */
  function WithoutThread(db: Database, threadId: string): Database {
    Database(
      map s | s in db.threads && s.threadId != threadId :: db.threads[s],
      map k | k in db.checkpoints && k.scope.threadId != threadId :: db.checkpoints[k],
      map w | w in db.writes && w.checkpoint.scope.threadId != threadId :: db.writes[w])
  }

  /** A step of a run in which threads are deleted too. */
  datatype Action = Step(e: Event) | DeleteThread(threadId: string)

  ghost function Act(s: System, a: Action): System {
    match a
    case Step(e) => Next(s, e)
    case DeleteThread(threadId) => s.(db := WithoutThread(s.db, threadId))
  }

  ghost function RunActions(s: System, actions: seq<Action>): System
    decreases |actions|
  {
    if actions == [] then s else RunActions(Act(s, actions[0]), actions[1..])
  }
}
