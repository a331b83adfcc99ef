/** Resource accounting of transaction buffers, and what becomes of an accepted record. */
module CheckpointBuffers {
  import opened Foundations
  import opened CheckpointModel

  ghost predicate Accounted(tx: Transaction) {
    tx.payload == Sum(RowSizes(tx.checkpoints)) + Sum(WriteSizes(tx.writes))
  }

  ghost predicate WithinLimits(tx: Transaction) {
    |tx.checkpoints| <= MAX_CHECKPOINTS && |tx.writes| <= MAX_WRITES && tx.payload <= MAX_PAYLOAD_BYTES
  }

  lemma RowSizesUpdate(rows: map<CheckpointKey, Row>, key: CheckpointKey, row: Row)
    ensures Sum(RowSizes(rows[key := row]))
         == Sum(RowSizes(rows)) + RowBytes(row) - if key in rows then RowBytes(rows[key]) else 0
  {
    assert RowSizes(rows[key := row]) == RowSizes(rows)[key := RowBytes(row)];
    SumUpdate(RowSizes(rows), key, RowBytes(row));
  }

  lemma WriteSizesUnion(kept: map<WriteKey, WriteRow>, added: map<WriteKey, WriteRow>)
    requires kept.Keys !! added.Keys
    ensures Sum(WriteSizes(kept + added)) == Sum(WriteSizes(kept)) + Sum(WriteSizes(added))
  {
    assert WriteSizes(kept + added) == WriteSizes(kept) + WriteSizes(added);
    SumUnion(WriteSizes(kept), WriteSizes(added));
  }

  lemma WriteSizesUpdate(rows: map<WriteKey, WriteRow>, records: map<WriteKey, WriteRow>)
    ensures Sum(WriteSizes(rows + records))
         == Sum(WriteSizes(rows)) - Sum(WriteSizes(map k | k in rows && k in records :: rows[k]))
             + Sum(WriteSizes(records))
  {
    var kept, replaced := rows - records.Keys, map k | k in rows && k in records :: rows[k];
    assert rows == kept + replaced;
    WriteSizesUnion(kept, replaced);
    assert rows + records == kept + records;
    WriteSizesUnion(kept, records);
  }

  lemma RecordIsAccounted(tx: Transaction, key: CheckpointKey, record: Row, after: Transaction)
    requires Accounted(tx) && after.writes == tx.writes && after.checkpoints == tx.checkpoints[key := record]
    requires after.payload == tx.payload + RowBytes(record) - if key in tx.checkpoints
        then RowBytes(tx.checkpoints[key]) else 0
    ensures Accounted(after)
    ensures |after.checkpoints| == |tx.checkpoints| + if key in tx.checkpoints then 0 else 1
  {
    RowSizesUpdate(tx.checkpoints, key, record);
    assert after.checkpoints.Keys == tx.checkpoints.Keys + {key};
  }

  lemma BufferRecordIsAccounted(tx: Transaction, key: CheckpointKey, record: Row)
    requires Accounted(tx) && WithinLimits(tx)
    ensures Accounted(BufferRecord(tx, key, record).tx) && WithinLimits(BufferRecord(tx, key, record).tx)
  {
    var reply := BufferRecord(tx, key, record);
    if reply.result.Ok? { RecordIsAccounted(tx, key, record, reply.tx); }
  }

  lemma PutIsAccounted(db: Database, tx: Transaction, key: CheckpointKey, origin: Origin, content: Content)
    requires Accounted(tx) && WithinLimits(tx)
    ensures Accounted(BufferPut(db, tx, key, origin, content).tx)
    ensures WithinLimits(BufferPut(db, tx, key, origin, content).tx)
  {
    if tx.phase == Open && SnapshotFor(db, tx, key.scope).Ok? {
      var snapshot := Allocate(SnapshotFor(db, tx, key.scope).value, key.id);
      BufferRecordIsAccounted(tx.(namespaces := tx.namespaces[key.scope := snapshot]), key,
                              Row(snapshot.versions[key.id], origin, content));
    }
  }

  lemma WritesAreAccounted(tx: Transaction, records: map<WriteKey, WriteRow>)
    requires Accounted(tx) && WithinLimits(tx)
    ensures Accounted(BufferWrites(tx, records).tx)
    ensures WithinLimits(BufferWrites(tx, records).tx)
  {
    var reply := BufferWrites(tx, records);
    if reply.tx != tx {
      WriteSizesUpdate(tx.writes, records);
      assert (tx.writes + records).Keys == tx.writes.Keys + records.Keys;
    }
  }

  lemma NextTransactionIsAccounted(db: Database, tx: Transaction, e: Event)
    requires Accounted(tx) && WithinLimits(tx)
    ensures Accounted(NextTransaction(db, tx, e)) && WithinLimits(NextTransaction(db, tx, e))
  {
    match e
    case Put(_, key, origin, content) => PutIsAccounted(db, tx, key, origin, content);
    case PutWrites(_, records) => WritesAreAccounted(tx, records);
    case _ =>
  }

  lemma StepShape(s: System, e: Event, t: TransactionKey, after: Transaction)
    requires t in Next(s, e).registry && Next(s, e).registry[t] == after
    ensures t !in s.registry ==> after == EMPTY_TRANSACTION
    ensures t in s.registry ==> after == s.registry[t] || after == NextTransaction(s.db, s.registry[t], e)
  {
  }

  lemma EmptyIsAccounted()
    ensures Accounted(EMPTY_TRANSACTION) && WithinLimits(EMPTY_TRANSACTION)
  {
    assert RowSizes(map[]) == map[] && WriteSizes(map[]) == map[];
  }

  lemma StepIsAccounted(s: System, e: Event, t: TransactionKey, after: Transaction)
    requires forall u :: u in s.registry ==> Accounted(s.registry[u]) && WithinLimits(s.registry[u])
    requires t in Next(s, e).registry && after == Next(s, e).registry[t]
    ensures Accounted(after) && WithinLimits(after)
  {
    StepShape(s, e, t, after);
    EmptyIsAccounted();
    if t in s.registry { NextTransactionIsAccounted(s.db, s.registry[t], e); }
  }

  lemma {:induction false} RunIsAccounted(s: System, events: seq<Event>)
    requires forall u :: u in s.registry ==> Accounted(s.registry[u]) && WithinLimits(s.registry[u])
    ensures forall u :: u in Run(s, events).registry ==>
      Accounted(Run(s, events).registry[u]) && WithinLimits(Run(s, events).registry[u])
    decreases |events|
  {
    if events != [] {
      forall t | t in Next(s, events[0]).registry
        ensures Accounted(Next(s, events[0]).registry[t]) && WithinLimits(Next(s, events[0]).registry[t])
      {
        StepIsAccounted(s, events[0], t, Next(s, events[0]).registry[t]);
      }
      RunIsAccounted(Next(s, events[0]), events[1..]);
    }
  }

  /** `payload_bytes` of every open transaction of every reachable state is the size of what it has buffered,
      and the buffer is within its three limits. */
  lemma ReachableBuffersAreAccounted(events: seq<Event>, t: TransactionKey)
    requires t in Run(INITIAL, events).registry
    ensures Accounted(Run(INITIAL, events).registry[t]) && WithinLimits(Run(INITIAL, events).registry[t])
  {
    RunIsAccounted(INITIAL, events);
  }

  // --------------------------------------------------- from acceptance to commit

  predicate EndsTransaction(e: Event, t: TransactionKey) {
    (e.Commit? || e.Abort?) && e.t == t
  }

  /** After sealing nothing reaches the buffers any more. */
  lemma {:induction false} SealedBufferIsFrozen(s: System, events: seq<Event>, t: TransactionKey)
    requires t in s.registry && s.registry[t].phase != Open
    requires forall e :: e in events ==> !EndsTransaction(e, t)
    ensures t in Run(s, events).registry && Run(s, events).registry[t].phase != Open
    ensures Run(s, events).registry[t].namespaces == s.registry[t].namespaces
    ensures Run(s, events).registry[t].checkpoints == s.registry[t].checkpoints
    ensures Run(s, events).registry[t].writes == s.registry[t].writes
    decreases |events|
  {
    if events != [] {
      assert events[0] in events;
      SealedStepIsFrozen(s, events[0], t);
      SealedBufferIsFrozen(Next(s, events[0]), events[1..], t);
    }
  }

  lemma SealedStepIsFrozen(s: System, e: Event, t: TransactionKey)
    requires t in s.registry && s.registry[t].phase != Open && !EndsTransaction(e, t)
    ensures t in Next(s, e).registry && Next(s, e).registry[t].phase != Open
    ensures Next(s, e).registry[t].(phase := Open) == s.registry[t].(phase := Open)
  {
  }

  lemma {:induction false} AcceptedRecordStays(s: System, events: seq<Event>, t: TransactionKey, key: CheckpointKey)
    requires t in s.registry && key in s.registry[t].checkpoints
    requires forall e :: e in events ==> !EndsTransaction(e, t) && !(e.Put? && e.t == t && e.key == key)
    ensures t in Run(s, events).registry && key in Run(s, events).registry[t].checkpoints
    ensures Run(s, events).registry[t].checkpoints[key] == s.registry[t].checkpoints[key]
    decreases |events|
  {
    if events != [] {
      assert events[0] in events;
      RecordSurvivesStep(s, events[0], t, key);
      AcceptedRecordStays(Next(s, events[0]), events[1..], t, key);
    }
  }

  lemma RecordSurvivesStep(s: System, e: Event, t: TransactionKey, key: CheckpointKey)
    requires t in s.registry && key in s.registry[t].checkpoints
    requires !EndsTransaction(e, t) && !(e.Put? && e.t == t && e.key == key)
    ensures t in Next(s, e).registry && key in Next(s, e).registry[t].checkpoints
    ensures Next(s, e).registry[t].checkpoints[key] == s.registry[t].checkpoints[key]
  {
  }

  lemma {:induction false} AcceptedWriteStays(s: System, events: seq<Event>, t: TransactionKey, w: WriteKey)
    requires t in s.registry && w in s.registry[t].writes
    requires forall e :: e in events ==> !EndsTransaction(e, t) && !(e.PutWrites? && e.t == t && w in e.records)
    ensures t in Run(s, events).registry && w in Run(s, events).registry[t].writes
    ensures Run(s, events).registry[t].writes[w] == s.registry[t].writes[w]
    decreases |events|
  {
    if events != [] {
      assert events[0] in events;
      WriteSurvivesStep(s, events[0], t, w);
      AcceptedWriteStays(Next(s, events[0]), events[1..], t, w);
    }
  }

  lemma WriteSurvivesStep(s: System, e: Event, t: TransactionKey, w: WriteKey)
    requires t in s.registry && w in s.registry[t].writes
    requires !EndsTransaction(e, t) && !(e.PutWrites? && e.t == t && w in e.records)
    ensures t in Next(s, e).registry && w in Next(s, e).registry[t].writes
    ensures Next(s, e).registry[t].writes[w] == s.registry[t].writes[w]
  {
  }

  /** An accepted checkpoint that is not put again is in the table, with its content, after a successful commit. */
  lemma AcceptedRecordIsFlushed(s: System, events: seq<Event>, t: TransactionKey, key: CheckpointKey)
    requires t in s.registry && key in s.registry[t].checkpoints
    requires forall e :: e in events ==> !EndsTransaction(e, t) && !(e.Put? && e.t == t && e.key == key)
    requires t in Run(s, events).registry && Run(s, events).registry[t].phase == Committing
    requires CanCommit(Run(s, events).db, Run(s, events).registry[t])
    ensures var after := Next(Run(s, events), Commit(t));
            && key in after.db.checkpoints
            && after.db.checkpoints[key].content == s.registry[t].checkpoints[key].content
            && t !in after.registry
  {
    AcceptedRecordStays(s, events, t, key);
  }

  lemma AcceptedWriteIsFlushed(s: System, events: seq<Event>, t: TransactionKey, w: WriteKey)
    requires t in s.registry && w in s.registry[t].writes
    requires forall e :: e in events ==> !EndsTransaction(e, t) && !(e.PutWrites? && e.t == t && w in e.records)
    requires t in Run(s, events).registry && Run(s, events).registry[t].phase == Committing
    requires CanCommit(Run(s, events).db, Run(s, events).registry[t])
    ensures var after := Next(Run(s, events), Commit(t));
            w in after.db.writes && after.db.writes[w] == s.registry[t].writes[w]
  {
    AcceptedWriteStays(s, events, t, w);
  }
}
