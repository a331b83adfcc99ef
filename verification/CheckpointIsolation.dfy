/** What a transaction sees and who may commit: reads through the buffer equal reads after the flush,
    and the first committer of a namespace version wins. */
module CheckpointIsolation {
  import opened Foundations
  import opened CheckpointModel
  import opened CheckpointVersions

  // ------------------------------------------------------- the newest row of a scope

  lemma AtLeastAsNewTransitive(rows: map<CheckpointKey, Row>, a: CheckpointKey, b: CheckpointKey, c: CheckpointKey)
    requires a in rows && b in rows && c in rows && AtLeastAsNew(rows, a, b) && AtLeastAsNew(rows, b, c)
    ensures AtLeastAsNew(rows, a, c)
  {
    StringLeIsOrder();
  }

  lemma NewestOf(rows: map<CheckpointKey, Row>, keys: set<CheckpointKey>) returns (m: CheckpointKey)
    requires keys != {} && keys <= rows.Keys
    ensures m in keys && forall k :: k in keys ==> AtLeastAsNew(rows, m, k)
  {
    StringLeIsOrder();
    var first :| first in keys;
    m := first;
    if keys != {first} {
      var other := NewestOf(rows, keys - {first});
      if AtLeastAsNew(rows, other, first) {
        m := other;
      } else {
        forall k | k in keys ensures AtLeastAsNew(rows, first, k) {
          if k != first { AtLeastAsNewTransitive(rows, first, other, k); }
        }
      }
    }
  }

  /** Selecting without an id finds the newest row, and finds nothing only in an empty scope. */
  lemma SelectNewest(rows: map<CheckpointKey, Row>, scope: Scope)
    ensures Select(rows, scope, "").None? <==> forall k :: k in rows ==> k.scope != scope
    ensures forall key :: IsNewest(rows, scope, key) <==> Select(rows, scope, "") == Some(key)
  {
    var keys := set k | k in rows && k.scope == scope;
    if keys != {} {
      var m := NewestOf(rows, keys);
      assert IsNewest(rows, scope, m);
    } else {
      forall k | k in rows ensures k.scope != scope { assert k !in keys; }
    }
    StringLeIsOrder();
    forall a, b | IsNewest(rows, scope, a) && IsNewest(rows, scope, b) ensures a == b {
      assert AtLeastAsNew(rows, a, b) && AtLeastAsNew(rows, b, a);
    }
  }

  // ------------------------------------------------------------- overlay reads

  /** What is both stored and buffered has one version. */
  ghost predicate Agree(db: Database, tx: Transaction) {
    forall k :: k in tx.checkpoints && k in db.checkpoints ==> tx.checkpoints[k].version == db.checkpoints[k].version
  }

  ghost predicate Readable(db: Database, tx: Transaction) {
    DatabaseInv(db) && LooseInv(db, tx) && SnapshotsCurrent(db, tx) && Agree(db, tx)
  }

  lemma CurrentIsReadable(db: Database, tx: Transaction)
    requires DatabaseInv(db) && TransactionInv(db, tx) && SnapshotsCurrent(db, tx)
    ensures Readable(db, tx)
  {
    TransactionIsLoose(db, tx);
    forall k | k in tx.checkpoints && k in db.checkpoints
      ensures tx.checkpoints[k].version == db.checkpoints[k].version
    {
      assert BufferedAtAllocatedVersion(tx, k);
      SnapshotIsWhole(db, tx, k.scope);
    }
  }

  /** A buffered row and the row its flush leaves behind show the same version and content. */
  lemma FlushedRow(db: Database, tx: Transaction, k: CheckpointKey)
    requires Agree(db, tx) && k in tx.checkpoints
    ensures k in Applied(db, tx).checkpoints
    ensures Applied(db, tx).checkpoints[k].version == tx.checkpoints[k].version
    ensures Applied(db, tx).checkpoints[k].content == tx.checkpoints[k].content
  {
  }

  lemma OverlaidWrites(db: Database, tx: Transaction, key: CheckpointKey)
    ensures WritesOf(Applied(db, tx).writes, key) == WritesOf(db.writes, key) + WritesOf(tx.writes, key)
  {
    WritesOfUnion(db.writes, tx.writes, key);
  }

  lemma WritesOfUnion(stored: map<WriteKey, WriteRow>, buffered: map<WriteKey, WriteRow>, key: CheckpointKey)
    ensures WritesOf(stored + buffered, key) == WritesOf(stored, key) + WritesOf(buffered, key)
  {
    SlotsOf(stored, key);
    SlotsOf(buffered, key);
    SlotsOf(stored + buffered, key);
  }

  lemma SlotsOf(writes: map<WriteKey, WriteRow>, key: CheckpointKey)
    ensures forall slot :: slot in WritesOf(writes, key) <==> WriteKey(key, slot) in writes
    ensures forall slot :: slot in WritesOf(writes, key) ==> WritesOf(writes, key)[slot] == writes[WriteKey(key, slot)]
  {
    forall slot | WriteKey(key, slot) in writes ensures slot in WritesOf(writes, key) {
      assert WriteKey(key, slot).checkpoint == key && WriteKey(key, slot).slot == slot;
    }
  }

  /** The key whose row an overlay read returns. */
  ghost function OverlayKey(db: Database, tx: Transaction, scope: Scope, id: string): Option<CheckpointKey> {
    var stored, buffered := Select(db.checkpoints, scope, id), Select(tx.checkpoints, scope, id);
    if buffered.Some? &&
       (stored.None? || tx.checkpoints[buffered.value].version >= db.checkpoints[stored.value].version)
    then buffered else stored
  }

  lemma OverlayFindsTheNewest(db: Database, tx: Transaction, scope: Scope)
    requires Readable(db, tx)
    ensures OverlayKey(db, tx, scope, "") == Select(Applied(db, tx).checkpoints, scope, "")
  {
    var rows, key := Applied(db, tx).checkpoints, OverlayKey(db, tx, scope, "");
    SelectNewest(db.checkpoints, scope);
    SelectNewest(tx.checkpoints, scope);
    SelectNewest(rows, scope);
    if key.Some? {
      if key.value in tx.checkpoints { FlushedRow(db, tx, key.value); }
      forall k | k in rows && k.scope == scope ensures AtLeastAsNew(rows, key.value, k) {
        OverlayKeyBeats(db, tx, scope, key.value, k);
      }
      assert IsNewest(rows, scope, key.value);
    }
  }

  lemma OverlayKeyBeats(db: Database, tx: Transaction, scope: Scope, key: CheckpointKey, k: CheckpointKey)
    requires Readable(db, tx)
    requires OverlayKey(db, tx, scope, "") == Some(key) && k in Applied(db, tx).checkpoints && k.scope == scope
    ensures key in Applied(db, tx).checkpoints && AtLeastAsNew(Applied(db, tx).checkpoints, key, k)
  {
    var rows := Applied(db, tx).checkpoints;
    SelectNewest(db.checkpoints, scope);
    SelectNewest(tx.checkpoints, scope);
    if key in tx.checkpoints { FlushedRow(db, tx, key); }
    if k in tx.checkpoints {
      FlushedRow(db, tx, k);
      assert AtLeastAsNew(tx.checkpoints, Select(tx.checkpoints, scope, "").value, k);
    } else {
      assert AtLeastAsNew(db.checkpoints, Select(db.checkpoints, scope, "").value, k);
    }
    CommitKeepsDistinct(db, tx);
    assert !SameVersion(rows, key, k) || key == k;
    StringLeIsOrder();
  }

  lemma OverlayFindsTheNamed(db: Database, tx: Transaction, scope: Scope, id: string)
    requires Readable(db, tx) && id != ""
    ensures OverlayKey(db, tx, scope, id) == Select(Applied(db, tx).checkpoints, scope, id)
  {
  }

  /** An overlay read returns the buffered row whenever its key is buffered. */
  lemma OverlayRow(db: Database, tx: Transaction, scope: Scope, id: string)
    requires Readable(db, tx)
    ensures ReadOverlay(db, tx, scope, id) ==
      match OverlayKey(db, tx, scope, id)
      case None => None
      case Some(key) =>
        OverlayTuple(db, tx, key, if key in tx.checkpoints then tx.checkpoints[key] else db.checkpoints[key])
  {
    var stored, buffered := Select(db.checkpoints, scope, id), Select(tx.checkpoints, scope, id);
    if id == "" {
      SelectNewest(db.checkpoints, scope);
      SelectNewest(tx.checkpoints, scope);
    }
    if stored.Some? && stored.value in tx.checkpoints {
      var k := stored.value;
      FlushedRow(db, tx, k);
      assert buffered.Some? && tx.checkpoints[buffered.value].version >= tx.checkpoints[k].version by {
        if id == "" { assert AtLeastAsNew(tx.checkpoints, buffered.value, k); }
      }
    }
  }

  lemma ReadableOverlay(db: Database, tx: Transaction, scope: Scope, id: string)
    requires Readable(db, tx)
    ensures ReadOverlay(db, tx, scope, id) == ReadCommitted(Applied(db, tx), scope, id)
  {
    OverlayRow(db, tx, scope, id);
    if id == "" { OverlayFindsTheNewest(db, tx, scope); } else { OverlayFindsTheNamed(db, tx, scope, id); }
    var key := OverlayKey(db, tx, scope, id);
    if key.Some? {
      OverlaidWrites(db, tx, key.value);
      if key.value in tx.checkpoints { FlushedRow(db, tx, key.value); }
    }
  }

  /** `get_tuple` inside a transaction that can still commit returns, for every namespace and with or without
      a checkpoint id, exactly what it returns after the commit: row, version, parent and pending writes. */
  lemma OverlayReadIsCommittedRead(db: Database, tx: Transaction, scope: Scope, id: string)
    requires DatabaseInv(db) && TransactionInv(db, tx) && CanCommit(db, tx)
    ensures ReadOverlay(db, tx, scope, id) == ReadCommitted(Applied(db, tx), scope, id)
  {
    CurrentIsReadable(db, tx);
    ReadableOverlay(db, tx, scope, id);
  }

  /** The same, for every open transaction of every reachable state. */
  lemma ReachableOverlayRead(events: seq<Event>, s: System, t: TransactionKey, scope: Scope, id: string)
    requires s == Run(INITIAL, events) && t in s.registry && CanCommit(s.db, s.registry[t])
    ensures ReadOverlay(s.db, s.registry[t], scope, id) == ReadCommitted(Applied(s.db, s.registry[t]), scope, id)
  {
    RunKeeps(INITIAL, events);
    OverlayReadIsCommittedRead(s.db, s.registry[t], scope, id);
  }

  // ------------------------------------------------------ first committer wins

  /** In every reachable state versions are distinct, at least 1 and at most the namespace's version. */
  lemma ReachableVersions(events: seq<Event>, a: CheckpointKey, b: CheckpointKey)
    ensures var db := Run(INITIAL, events).db;
            a in db.checkpoints ==>
              && 1 <= db.checkpoints[a].version <= CurrentVersion(db, a.scope)
              && (b in db.checkpoints && a.scope == b.scope && a != b ==>
                    db.checkpoints[a].version != db.checkpoints[b].version)
  {
    RunKeeps(INITIAL, events);
    var db := Run(INITIAL, events).db;
    assert SameVersion(db.checkpoints, a, b) ==> a == b;
  }

  /** Over any further run the namespace's version never falls, and stored checkpoints keep version and origin. */
  lemma VersionsAreStable(s: System, events: seq<Event>, scope: Scope, k: CheckpointKey)
    requires Inv(s)
    ensures CurrentVersion(s.db, scope) <= CurrentVersion(Run(s, events).db, scope)
    ensures k in s.db.checkpoints ==>
      && k in Run(s, events).db.checkpoints
      && Run(s, events).db.checkpoints[k].version == s.db.checkpoints[k].version
      && Run(s, events).db.checkpoints[k].origin == s.db.checkpoints[k].origin
  {
    RunKeeps(s, events);
  }

  /** Once a namespace has moved past a base, no transaction with that base can ever commit. */
  lemma StaleBaseConflicts(s: System, events: seq<Event>, t: TransactionKey, scope: Scope)
    requires Inv(s)
    requires t in Run(s, events).registry && scope in Run(s, events).registry[t].namespaces
    requires Run(s, events).registry[t].namespaces[scope].base < CurrentVersion(s.db, scope)
    ensures !SnapshotCurrent(Run(s, events).db, scope, Run(s, events).registry[t].namespaces[scope])
    ensures Next(Run(s, events), Commit(t)).db == Run(s, events).db
  {
    RunKeeps(s, events);
    var after := Run(s, events);
    assert TransactionInv(after.db, after.registry[t]);
    assert CurrentVersion(s.db, scope) <= CurrentVersion(after.db, scope);
    assert !CanCommit(after.db, after.registry[t]);
  }

  lemma CommitMovesTheBase(s: System, t: TransactionKey, k: CheckpointKey)
    requires Inv(s) && t in s.registry && s.registry[t].phase == Committing && CanCommit(s.db, s.registry[t])
    requires k in s.registry[t].checkpoints && k !in s.db.checkpoints && k.scope in s.registry[t].namespaces
    ensures Inv(Next(s, Commit(t))) && k in Next(s, Commit(t)).db.checkpoints
    ensures s.registry[t].namespaces[k.scope].base < CurrentVersion(Next(s, Commit(t)).db, k.scope)
  {
    var tx := s.registry[t];
    StepKeeps(s, Commit(t));
    TransactionIsLoose(s.db, tx);
    NewRecordAboveBase(s.db, tx, k);
    CommittedVersion(s.db, tx, k.scope);
    assert SnapshotCurrent(s.db, k.scope, tx.namespaces[k.scope]) && SnapshotInv(s.db, k.scope, tx.namespaces[k.scope]);
  }

  /** Two transactions hold the same base of a namespace and one of them has buffered a new checkpoint there.
      If that one commits, then whatever happens next the other's commit conflicts and changes no table. */
  lemma FirstCommitterWins(before: seq<Event>, s: System, first: TransactionKey, k: CheckpointKey,
                           events: seq<Event>, after: System, second: TransactionKey)
    requires s == Run(INITIAL, before) && after == Run(Next(s, Commit(first)), events)
    requires first in s.registry && s.registry[first].phase == Committing && CanCommit(s.db, s.registry[first])
    requires k in s.registry[first].checkpoints && k !in s.db.checkpoints && k.scope in s.registry[first].namespaces
    requires second in after.registry && k.scope in after.registry[second].namespaces
    requires after.registry[second].namespaces[k.scope].base == s.registry[first].namespaces[k.scope].base
    ensures k in after.db.checkpoints
    ensures !SnapshotCurrent(after.db, k.scope, after.registry[second].namespaces[k.scope])
    ensures Next(after, Commit(second)).db == after.db
  {
    RunKeeps(INITIAL, before);
    CommitMovesTheBase(s, first, k);
    RunKeeps(Next(s, Commit(first)), events);
    StaleBaseConflicts(Next(s, Commit(first)), events, second, k.scope);
  }

  /** A direct put of a new checkpoint id forces the same conflict on every transaction open before it. */
  lemma DirectPutForcesConflict(s: System, key: CheckpointKey, origin: Origin, content: Content,
                                events: seq<Event>, t: TransactionKey)
    requires Inv(s) && key !in s.db.checkpoints
    requires var after := Run(Next(s, DirectPut(key, origin, content)), events);
             && t in after.registry && key.scope in after.registry[t].namespaces
             && after.registry[t].namespaces[key.scope].base <= CurrentVersion(s.db, key.scope)
    ensures var after := Run(Next(s, DirectPut(key, origin, content)), events);
            && !SnapshotCurrent(after.db, key.scope, after.registry[t].namespaces[key.scope])
            && Next(after, Commit(t)).db == after.db
  {
    StepKeeps(s, DirectPut(key, origin, content));
    StaleBaseConflicts(Next(s, DirectPut(key, origin, content)), events, t, key.scope);
  }
}
