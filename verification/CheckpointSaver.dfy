/** The saver's mutable objects: the tables, and the transaction whose buffers a graph run fills. Every method
    is proved against the step functions of CheckpointModel. */
module CheckpointSaver {
  import opened Foundations
  import opened CheckpointModel
  import CheckpointIsolation

  datatype FlushOutcome =
    | Committed
    | CannotFlush(phase: Phase)
    | VersionConflict(scope: Scope, expected: int, current: int)
    | MissingCheckpoint

  predicate ScopeLe(a: Scope, b: Scope) {
    if a.threadId != b.threadId then StringLe(a.threadId, b.threadId) else StringLe(a.ns, b.ns)
  }

  lemma ScopeOrder()
    ensures TotalOrder(ScopeLe)
  {
    StringLeIsOrder();
  }

  /** The namespaces that have moved past their snapshot. */
  ghost function StaleScopes(db: Database, tx: Transaction): set<Scope> {
    set s | s in tx.namespaces && !SnapshotCurrent(db, s, tx.namespaces[s])
  }

  method SumOf<K(==)>(m: map<K, int>) returns (n: int)
    ensures n == Sum(m)
  {
    n := 0;
    var left := m;
    while left != map[]
      invariant n + Sum(left) == Sum(m)
      decreases |left.Keys|
    {
      var k :| k in left;
      n := n + left[k];
      SumRemove(left, k);
      assert (left - {k}).Keys == left.Keys - {k};
      left := left - {k};
    }
  }

  /** One entry of `put_writes`: a channel and its serialized value. */
  datatype ChannelWrite = ChannelWrite(channel: string, value: Blob)

  function WriteIndex(reserved: map<string, int>, channel: string, position: int): int {
    Get(reserved, channel, position)
  }

  /** The records of a batch: a later write on the same slot replaces an earlier one. */
  function Collected(key: CheckpointKey, writes: seq<ChannelWrite>, taskId: string, taskPath: string,
                     reserved: map<string, int>): map<WriteKey, WriteRow> {
    if writes == [] then map[] else
      var last := |writes| - 1;
      Collected(key, writes[..last], taskId, taskPath, reserved)
        [WriteKey(key, Slot(WriteIndex(reserved, writes[last].channel, last), taskId, taskPath))
           := WriteRow(writes[last].channel, writes[last].value)]
  }

  class TransactionBuffer {
    var phase: Phase
    var namespaces: map<Scope, Snapshot>
    var checkpoints: map<CheckpointKey, Row>
    var writes: map<WriteKey, WriteRow>
    var payloadBytes: int

    function View(): Transaction
      reads this
    {
      Transaction(phase, namespaces, checkpoints, writes, payloadBytes)
    }

    constructor ()
      ensures View() == EMPTY_TRANSACTION
    {
      phase, namespaces, checkpoints, writes, payloadBytes := Open, map[], map[], map[], 0;
    }

    /** Loads the namespace's snapshot on first use. */
    method HoldSnapshot(tables: Tables, scope: Scope) returns (error: Option<SaverError>)
      modifies `namespaces
      ensures match SnapshotFor(tables.View(), old(View()), scope)
              case Err(e) => error == Some(e) && namespaces == old(namespaces)
              case Ok(snapshot) => error == None && namespaces == old(namespaces)[scope := snapshot]
    {
      error := None;
      if scope in namespaces {
        assert namespaces == namespaces[scope := namespaces[scope]];
      } else {
        var loaded := tables.LoadNamespaceSnapshot(scope);
        if loaded.Err? { return Some(loaded.error); }
        namespaces := namespaces[scope := loaded.value];
      }
    }

    method AllocateVersion(key: CheckpointKey) returns (version: int)
      requires key.scope in namespaces
      modifies `namespaces
      ensures var snapshot := Allocate(old(namespaces)[key.scope], key.id);
              namespaces == old(namespaces)[key.scope := snapshot] && version == snapshot.versions[key.id]
    {
      var snapshot := namespaces[key.scope];
      version := if key.id in snapshot.versions then snapshot.versions[key.id] else 0;
      if version == 0 {
        version := snapshot.current + 1;
        snapshot := Snapshot(snapshot.base, version, snapshot.versions[key.id := version]);
      }
      namespaces := namespaces[key.scope := snapshot];
    }

    method HoldVersion(tables: Tables, key: CheckpointKey) returns (r: Result<int, SaverError>)
      modifies `namespaces
      ensures match SnapshotFor(tables.View(), old(View()), key.scope)
              case Err(e) => r == Err(e) && namespaces == old(namespaces)
              case Ok(before) =>
                && namespaces == old(namespaces)[key.scope := Allocate(before, key.id)]
                && r == Ok(Allocate(before, key.id).versions[key.id])
    {
      var failure := HoldSnapshot(tables, key.scope);
      if failure.Some? { return Err(failure.value); }
      var version := AllocateVersion(key);
      r := Ok(version);
    }

    method Record(key: CheckpointKey, record: Row) returns (r: Result<int, SaverError>)
      modifies `checkpoints, `payloadBytes
      ensures View() == BufferRecord(old(View()), key, record).tx
      ensures r == BufferRecord(old(View()), key, record).result
    {
      var payload, count := payloadBytes + RowBytes(record), |checkpoints| + 1;
      if key in checkpoints { payload, count := payload - RowBytes(checkpoints[key]), count - 1; }
      var error := CapacityError(count, |writes|, payload);
      if error.Some? { return Err(error.value); }
      checkpoints, payloadBytes := checkpoints[key := record], payload;
      r := Ok(record.version);
    }

    method Put(tables: Tables, key: CheckpointKey, origin: Origin, content: Content)
      returns (r: Result<int, SaverError>)
      modifies this
      ensures View() == BufferPut(tables.View(), old(View()), key, origin, content).tx
      ensures r == BufferPut(tables.View(), old(View()), key, origin, content).result
    {
      if phase != Open { return Err(NotOpen(phase)); }
      r := HoldVersion(tables, key);
      if r.Ok? { r := Record(key, Row(r.value, origin, content)); }
    }

    method BufferBatch(records: map<WriteKey, WriteRow>) returns (r: Result<(), SaverError>)
      modifies this
      ensures View() == BufferWrites(old(View()), records).tx
      ensures r == BufferWrites(old(View()), records).result
    {
      if records == map[] { return Ok(()); }
      if phase != Open { return Err(NotOpen(phase)); }
      var replaced := SumOf(WriteSizes(map k | k in writes && k in records :: writes[k]));
      var added := SumOf(WriteSizes(records));
      var payload := payloadBytes - replaced + added;
      var error := CapacityError(|checkpoints|, |writes.Keys + records.Keys|, payload);
      if error.Some? { return Err(error.value); }
      writes, payloadBytes := writes + records, payload;
      r := Ok(());
    }

    method PutWrites(key: CheckpointKey, batch: seq<ChannelWrite>, taskId: string, taskPath: string,
                     reserved: map<string, int>) returns (r: Result<(), SaverError>)
      modifies this
      ensures View() == BufferWrites(old(View()), Collected(key, batch, taskId, taskPath, reserved)).tx
      ensures r == BufferWrites(old(View()), Collected(key, batch, taskId, taskPath, reserved)).result
    {
      var records := CollectWrites(key, batch, taskId, taskPath, reserved);
      r := BufferBatch(records);
    }

    method Seal() returns (ok: bool)
      modifies `phase
      ensures ok == (old(phase) == Open)
      ensures phase == if ok then Sealed else old(phase)
    {
      ok := phase == Open;
      if ok { phase := Sealed; }
    }
  }

  method CollectWrites(key: CheckpointKey, writes: seq<ChannelWrite>, taskId: string, taskPath: string,
                       reserved: map<string, int>) returns (records: map<WriteKey, WriteRow>)
    ensures records == Collected(key, writes, taskId, taskPath, reserved)
  {
    records := map[];
    for index := 0 to |writes|
      invariant records == Collected(key, writes[..index], taskId, taskPath, reserved)
    {
      var slot := Slot(Get(reserved, writes[index].channel, index), taskId, taskPath);
      records := records[WriteKey(key, slot) := WriteRow(writes[index].channel, writes[index].value)];
      assert writes[..index + 1][..index] == writes[..index];
    }
    assert writes[..|writes|] == writes;
  }

  class Tables {
    var threads: map<Scope, int>
    var checkpoints: map<CheckpointKey, Row>
    var writes: map<WriteKey, WriteRow>

    function View(): Database
      reads this
    {
      Database(threads, checkpoints, writes)
    }

    constructor ()
      ensures View() == EMPTY_DATABASE
    {
      threads, checkpoints, writes := map[], map[], map[];
    }

    method LoadNamespaceSnapshot(scope: Scope) returns (r: Result<Snapshot, SaverError>)
      ensures r == LoadSnapshot(View(), scope)
    {
      var versions: map<string, int>, behind := map[], false;
      var current := if scope in threads then threads[scope] else 0;
      var rest := set k | k in checkpoints && k.scope == scope;
      ghost var all := rest;
      while rest != {}
        invariant rest <= all
        invariant versions.Keys == set k | k in all - rest :: k.id
        invariant forall k :: k in all - rest ==> versions[k.id] == checkpoints[k].version
        invariant behind <==> exists k :: k in all - rest && checkpoints[k].version > current
      {
        var k :| k in rest;
        versions := versions[k.id := checkpoints[k].version];
        behind := behind || checkpoints[k].version > current;
        rest := rest - {k};
      }
      assert versions == Versions(View(), scope);
      assert behind <==> exists id :: id in versions && versions[id] > current by {
        if behind {
          var k :| k in all && checkpoints[k].version > current;
          assert k.id in versions && versions[k.id] > current;
        }
      }
      r := if behind then Err(VersionBehindCheckpoints) else Ok(Snapshot(current, current, versions));
    }

    /** One MySQL transaction: check every namespace, check the pending writes, upsert, then raise the versions.
        Any failure rolls all of it back. The conflict reported is the first in key order. */
    method Flush(tx: TransactionBuffer) returns (outcome: FlushOutcome)
      modifies this, tx`phase
      ensures tx.phase == if old(tx.phase) == Sealed then Committing else old(tx.phase)
      ensures outcome.CannotFlush? <==> old(tx.phase) != Sealed
      ensures outcome.Committed? <==> old(tx.phase) == Sealed && CanCommit(old(View()), tx.View())
      ensures View() == if outcome.Committed? then Applied(old(View()), tx.View()) else old(View())
      ensures outcome.VersionConflict? ==>
        && IsLeast(StaleScopes(old(View()), tx.View()), ScopeLe, outcome.scope)
        && outcome.expected == tx.namespaces[outcome.scope].base
        && outcome.current == old(threads)[outcome.scope]
      ensures outcome.MissingCheckpoint? ==> SnapshotsCurrent(old(View()), tx.View())
    {
      if tx.phase != Sealed { return CannotFlush(tx.phase); }
      tx.phase := Committing;
      var saved := (threads, checkpoints, writes);
      outcome := CheckNamespaces(tx);
      if outcome == Committed { outcome := CheckWrites(tx); }
      if outcome == Committed {
        ApplyAll(tx);
      } else {
        threads, checkpoints, writes := saved.0, saved.1, saved.2;
      }
    }

    method CheckNamespaces(tx: TransactionBuffer) returns (outcome: FlushOutcome)
      modifies `threads
      ensures outcome.Committed? || outcome.VersionConflict?
      ensures outcome.Committed? <==> SnapshotsCurrent(old(View()), tx.View())
      ensures outcome.Committed? ==> threads == old(threads) + map s | s in tx.namespaces :: tx.namespaces[s].base
      ensures outcome.VersionConflict? ==>
        && IsLeast(StaleScopes(old(View()), tx.View()), ScopeLe, outcome.scope)
        && outcome.expected == tx.namespaces[outcome.scope].base
        && outcome.current == old(threads)[outcome.scope]
    {
      ScopeOrder();
      var rest := tx.namespaces.Keys;
      while rest != {}
        invariant rest <= tx.namespaces.Keys
        invariant StaleScopes(old(View()), tx.View()) <= rest
        invariant threads.Keys == old(threads).Keys + (tx.namespaces.Keys - rest)
        invariant forall s :: s in threads ==>
          threads[s] == if s in old(threads) then old(threads)[s] else tx.namespaces[s].base
      {
        var scope := Least(rest, ScopeLe);
        var base := tx.namespaces[scope].base;
        if scope !in threads { threads := threads[scope := base]; }
        if threads[scope] != base {
          assert scope in StaleScopes(old(View()), tx.View());
          return VersionConflict(scope, base, threads[scope]);
        }
        rest := rest - {scope};
      }
      assert forall s :: s in tx.namespaces ==> s !in StaleScopes(old(View()), tx.View());
      outcome := Committed;
    }

    method CheckWrites(tx: TransactionBuffer) returns (outcome: FlushOutcome)
      ensures outcome == if WritesAnchored(View(), tx.View()) then Committed else MissingCheckpoint
    {
      var rest := (set w | w in tx.writes :: w.checkpoint) - tx.checkpoints.Keys;
      while rest != {}
        invariant forall w :: w in tx.writes && w.checkpoint !in rest ==> !Dangling(View(), tx.View(), w.checkpoint)
        invariant forall k :: k in rest ==> exists w :: w in tx.writes && w.checkpoint == k && k !in tx.checkpoints
      {
        var key :| key in rest;
        if key.id != "" && key !in checkpoints { return MissingCheckpoint; }
        rest := rest - {key};
      }
      outcome := Committed;
    }

    method UpsertCheckpoints(tx: TransactionBuffer)
      modifies `checkpoints
      ensures checkpoints == Upsert(old(checkpoints), tx.checkpoints)
    {
      var rest := tx.checkpoints.Keys;
      while rest != {}
        invariant rest <= tx.checkpoints.Keys
        invariant checkpoints.Keys == old(checkpoints).Keys + (tx.checkpoints.Keys - rest)
        invariant forall k :: k in checkpoints ==>
          checkpoints[k] == (if k in rest then old(checkpoints) else Upsert(old(checkpoints), tx.checkpoints))[k]
      {
        var key :| key in rest;
        if key in checkpoints {
          checkpoints := checkpoints[key := checkpoints[key].(content := tx.checkpoints[key].content)];
        } else {
          checkpoints := checkpoints[key := tx.checkpoints[key]];
        }
        rest := rest - {key};
      }
    }

    method UpsertWrites(tx: TransactionBuffer)
      modifies `writes
      ensures writes == old(writes) + tx.writes
    {
      var rest := tx.writes.Keys;
      while rest != {}
        invariant rest <= tx.writes.Keys
        invariant writes == old(writes) + (tx.writes - rest)
      {
        var key :| key in rest;
        writes := writes[key := tx.writes[key]];
        rest := rest - {key};
      }
      assert tx.writes - {} == tx.writes;
    }

    method RaiseVersions(tx: TransactionBuffer)
      requires tx.namespaces.Keys <= threads.Keys
      modifies `threads
      ensures threads == old(threads) + map s | s in tx.namespaces :: tx.namespaces[s].current
    {
      var rest := tx.namespaces.Keys;
      while rest != {}
        invariant rest <= tx.namespaces.Keys
        invariant threads == old(threads) + map s | s in tx.namespaces.Keys - rest :: tx.namespaces[s].current
      {
        var scope :| scope in rest;
        threads := threads[scope := tx.namespaces[scope].current];
        rest := rest - {scope};
      }
    }

    method ApplyAll(tx: TransactionBuffer)
      requires tx.namespaces.Keys <= threads.Keys
      modifies this
      ensures View() == Applied(old(View()), tx.View())
    {
      UpsertCheckpoints(tx);
      UpsertWrites(tx);
      RaiseVersions(tx);
    }

    /** `put` outside a transaction. */
    method Put(key: CheckpointKey, origin: Origin, content: Content) returns (version: int)
      modifies this
      ensures View() == PutDirectly(old(View()), key, origin, content)
      ensures key in checkpoints && version == checkpoints[key].version
    {
      if key in checkpoints {
        checkpoints := checkpoints[key := checkpoints[key].(content := content)];
      } else {
        threads := threads[key.scope := if key.scope in threads then threads[key.scope] + 1 else 1];
        checkpoints := checkpoints[key := Row(threads[key.scope], origin, content)];
      }
      version := checkpoints[key].version;
    }

    /** `get_tuple`, with the transaction the caller runs in, if any. */
    method GetTuple(tx: TransactionBuffer?, scope: Scope, id: string) returns (r: Option<CheckpointTuple>)
      ensures r == if tx == null then ReadCommitted(View(), scope, id) else ReadOverlay(View(), tx.View(), scope, id)
    {
      var stored := SelectRow(checkpoints, scope, id);
      var buffered: Option<CheckpointKey> := None;
      if tx != null { buffered := SelectRow(tx.checkpoints, scope, id); }
      if stored.None? && buffered.None? { return None; }
      var fromBuffer := buffered.Some? &&
        (stored.None? || tx.checkpoints[buffered.value].version >= checkpoints[stored.value].version);
      var key := if fromBuffer then buffered.value else stored.value;
      var row := if fromBuffer then tx.checkpoints[key] else checkpoints[key];
      var slots := WritesOf(writes, key);
      if tx != null { slots := slots + WritesOf(tx.writes, key); }
      var pending := SortPending(slots);
      r := Some(CheckpointTuple(key, row.version, row.content, pending));
    }
  }

  method SelectRow(rows: map<CheckpointKey, Row>, scope: Scope, id: string) returns (r: Option<CheckpointKey>)
    ensures r == Select(rows, scope, id)
    ensures r.Some? ==> r.value in rows
  {
    if id != "" {
      return if CheckpointKey(scope, id) in rows then Some(CheckpointKey(scope, id)) else None;
    }
    var rest := set k | k in rows && k.scope == scope;
    ghost var all := rest;
    r := None;
    StringLeIsOrder();
    while rest != {}
      invariant rest <= all
      invariant r.None? ==> rest == all
      invariant r.Some? ==> r.value in all && forall k :: k in all - rest ==> AtLeastAsNew(rows, r.value, k)
    {
      var key :| key in rest;
      if r.None? {
        r := Some(key);
      } else if AtLeastAsNew(rows, key, r.value) {
        forall k | k in all - rest ensures AtLeastAsNew(rows, key, k) {
          CheckpointIsolation.AtLeastAsNewTransitive(rows, key, r.value, k);
        }
        r := Some(key);
      }
      rest := rest - {key};
    }
    CheckpointIsolation.SelectNewest(rows, scope);
    if r.Some? {
      assert IsNewest(rows, scope, r.value);
    } else {
      assert forall k :: k in rows && k.scope == scope ==> k in all;
    }
  }

  /** `sorted(write_rows.values(), key=(write_index, task_id, task_path))`. */
  method SortPending(slots: map<Slot, WriteRow>) returns (pending: seq<PendingWrite>)
    ensures pending == Pending(slots)
  {
    SlotOrder();
    SortedIsSorted(slots.Keys, SlotLe);
    var order := Sort(slots.Keys, SlotLe);
    pending := [];
    for i := 0 to |order|
      invariant pending == Pending(slots)[..i]
    {
      pending := pending + [PendingWrite(order[i].taskId, slots[order[i]])];
    }
  }
}
