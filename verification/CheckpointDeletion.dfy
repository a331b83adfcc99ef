/** Deleting threads under open transactions: when it is harmless to the version discipline, and when it is not. */
module CheckpointDeletion {
  import opened Foundations
  import opened CheckpointModel
  import opened CheckpointVersions
  import opened CheckpointIsolation
  import opened CheckpointBuffers

  // ----------------------------------------------- threads that nobody has open

  ghost predicate Unheld(s: System, threadId: string) {
    forall t, scope: Scope :: t in s.registry && scope in s.registry[t].namespaces ==> scope.threadId != threadId
  }

  /** Every deletion in the run is of a thread of which no open transaction holds a namespace. */
  ghost predicate UnheldDeletions(s: System, actions: seq<Action>)
    decreases |actions|
  {
    actions != [] ==>
      && (actions[0].DeleteThread? ==> Unheld(s, actions[0].threadId))
      && UnheldDeletions(Act(s, actions[0]), actions[1..])
  }

  lemma WithoutThreadKeeps(db: Database, threadId: string)
    requires DatabaseInv(db)
    ensures DatabaseInv(WithoutThread(db, threadId))
  {
    var after := WithoutThread(db, threadId);
    forall a, b | SameVersion(after.checkpoints, a, b) ensures a == b {
      assert SameVersion(db.checkpoints, a, b);
    }
  }

  lemma OtherThreadsKeepTheirSnapshots(db: Database, threadId: string, scope: Scope, snapshot: Snapshot)
    requires SnapshotInv(db, scope, snapshot) && scope.threadId != threadId
    ensures SnapshotInv(WithoutThread(db, threadId), scope, snapshot)
  {
    var after := WithoutThread(db, threadId);
    assert CurrentVersion(after, scope) == CurrentVersion(db, scope);
    forall id | id in snapshot.versions && snapshot.versions[id] <= snapshot.base
      ensures Stored(after, scope, id, snapshot.versions[id])
    {
      assert Stored(db, scope, id, snapshot.versions[id]);
    }
  }

  /** Deleting a thread that nobody has open keeps the whole invariant. */
  lemma UnheldDeletionKeeps(s: System, threadId: string)
    requires Inv(s) && Unheld(s, threadId)
    ensures Inv(Act(s, DeleteThread(threadId)))
  {
    WithoutThreadKeeps(s.db, threadId);
    forall t | t in s.registry ensures TransactionInv(WithoutThread(s.db, threadId), s.registry[t]) {
      assert TransactionInv(s.db, s.registry[t]);
      forall scope | scope in s.registry[t].namespaces
        ensures SnapshotInv(WithoutThread(s.db, threadId), scope, s.registry[t].namespaces[scope])
      {
        OtherThreadsKeepTheirSnapshots(s.db, threadId, scope, s.registry[t].namespaces[scope]);
      }
    }
  }

  lemma {:induction false} UnheldDeletionsKeep(s: System, actions: seq<Action>)
    requires Inv(s) && UnheldDeletions(s, actions)
    ensures Inv(RunActions(s, actions))
    decreases |actions|
  {
    if actions != [] {
      match actions[0] {
        case Step(e) => StepKeeps(s, e);
        case DeleteThread(threadId) => UnheldDeletionKeeps(s, threadId);
      }
      UnheldDeletionsKeep(Act(s, actions[0]), actions[1..]);
    }
  }

  /** With such deletions anywhere in the run, reads inside a transaction still agree with its commit. */
  lemma OverlayReadsSurviveDeletions(actions: seq<Action>, s: System, t: TransactionKey, scope: Scope, id: string)
    requires UnheldDeletions(INITIAL, actions) && s == RunActions(INITIAL, actions)
    requires t in s.registry && CanCommit(s.db, s.registry[t])
    ensures ReadOverlay(s.db, s.registry[t], scope, id) == ReadCommitted(Applied(s.db, s.registry[t]), scope, id)
  {
    UnheldDeletionsKeep(INITIAL, actions);
    OverlayReadIsCommittedRead(s.db, s.registry[t], scope, id);
  }

  // ----------------------------------------------------- threads with open snapshots

  /** No open transaction can still commit an inherited id of the thread. */
  ghost predicate Disinherited(s: System, threadId: string) {
    forall t, scope: Scope, id: string :: t in s.registry && scope.threadId == threadId ==>
        !Inherited(s.registry[t], scope, id)
  }

  ghost predicate DisinheritedDeletions(s: System, actions: seq<Action>)
    decreases |actions|
  {
    actions != [] ==>
      && (actions[0].DeleteThread? ==> Disinherited(s, actions[0].threadId))
      && DisinheritedDeletions(Act(s, actions[0]), actions[1..])
  }

  ghost predicate Loose(s: System) {
    DatabaseInv(s.db) && forall t :: t in s.registry ==> LooseInv(s.db, s.registry[t])
  }

  lemma InvIsLoose(s: System)
    requires Inv(s)
    ensures Loose(s)
  {
    forall t | t in s.registry ensures LooseInv(s.db, s.registry[t]) { TransactionIsLoose(s.db, s.registry[t]); }
  }

  lemma NotDetached(s: System, threadId: string, t: TransactionKey, scope: Scope)
    requires Disinherited(s, threadId) && t in s.registry && scope in s.registry[t].namespaces
    requires SnapshotInv(s.db, scope, s.registry[t].namespaces[scope]) && !Detached(s.registry[t], scope)
    ensures scope.threadId != threadId
  {
    assert exists id :: Inherited(s.registry[t], scope, id);
  }

  lemma DeletionLoosens(s: System, threadId: string)
    requires Loose(s) && Disinherited(s, threadId)
    ensures Loose(Act(s, DeleteThread(threadId)))
  {
    WithoutThreadKeeps(s.db, threadId);
    forall t | t in s.registry ensures LooseInv(WithoutThread(s.db, threadId), s.registry[t]) {
      var tx := s.registry[t];
      assert LooseInv(s.db, tx);
      forall scope | scope in tx.namespaces
        ensures SnapshotInv(WithoutThread(s.db, threadId), scope, tx.namespaces[scope]) || Detached(tx, scope)
      {
        if !Detached(tx, scope) {
          NotDetached(s, threadId, t, scope);
          OtherThreadsKeepTheirSnapshots(s.db, threadId, scope, tx.namespaces[scope]);
        }
      }
    }
  }

  // ------------------------------------------------------- steps of loose states

  lemma LooseSurvives(s: System, db: Database)
    requires Loose(s) && Extends(s.db, db)
    ensures forall t :: t in s.registry ==> LooseInv(db, s.registry[t])
  {
    forall t | t in s.registry ensures LooseInv(db, s.registry[t]) {
      var tx := s.registry[t];
      assert LooseInv(s.db, tx);
      forall scope | scope in tx.namespaces
        ensures SnapshotInv(db, scope, tx.namespaces[scope]) || Detached(tx, scope)
      {
        if !Detached(tx, scope) { SnapshotSurvives(s.db, db, scope, tx.namespaces[scope]); }
      }
    }
  }

  /** Allocating in a detached snapshot goes above its base, and so passes on no inherited id. */
  lemma DetachedAllocates(tx: Transaction, key: CheckpointKey, after: Transaction)
    requires key.scope in tx.namespaces && Detached(tx, key.scope) && tx.phase == Open == after.phase
    requires after.namespaces == tx.namespaces[key.scope := Allocate(tx.namespaces[key.scope], key.id)]
    requires HasRoom(after) ==> HasRoom(tx)
    requires forall id :: CheckpointKey(key.scope, id) in after.checkpoints ==>
      HasRoom(tx) || CheckpointKey(key.scope, id) in tx.checkpoints
    ensures Detached(after, key.scope)
  {
    var snapshot, grown := tx.namespaces[key.scope], Allocate(tx.namespaces[key.scope], key.id);
    assert forall id :: id in snapshot.versions ==> !Inherited(tx, key.scope, id);
    forall a, b | SharedVersion(grown.versions, a, b) ensures a == b {
      assert SharedVersion(snapshot.versions, a, b) || a == key.id || b == key.id;
    }
  }

  lemma OtherScopesStayDetached(tx: Transaction, scope: Scope, after: Transaction)
    requires scope in tx.namespaces && Detached(tx, scope)
    requires scope in after.namespaces && after.namespaces[scope] == tx.namespaces[scope]
    requires HasRoom(after) ==> HasRoom(tx)
    requires forall id :: CheckpointKey(scope, id) in after.checkpoints ==> CheckpointKey(scope, id) in tx.checkpoints
    ensures Detached(after, scope)
  {
    forall id ensures !Inherited(after, scope, id) { assert !Inherited(tx, scope, id); }
  }

  lemma HeldRecordsKeep(tx: Transaction, scope: Scope, before: Snapshot, id: string, held: Transaction)
    requires RecordsInv(tx) && (scope in tx.namespaces ==> tx.namespaces[scope] == before)
    requires forall k :: k in before.versions ==> 1 <= before.versions[k]
    requires held == tx.(namespaces := tx.namespaces[scope := Allocate(before, id)])
    ensures RecordsInv(held)
  {
    forall k | k in held.checkpoints ensures BufferedAtAllocatedVersion(held, k) {
      assert BufferedAtAllocatedVersion(tx, k);
    }
  }

  lemma RoomShrinks(tx: Transaction, key: CheckpointKey, record: Row, after: Transaction)
    requires tx.phase == Open == after.phase
    requires after.checkpoints == tx.checkpoints || after.checkpoints == tx.checkpoints[key := record]
    ensures HasRoom(after) ==> HasRoom(tx)
  {
    if after.checkpoints != tx.checkpoints {
      assert after.checkpoints.Keys == tx.checkpoints.Keys + {key};
    }
  }

  lemma LoosePutKeeps(db: Database, tx: Transaction, key: CheckpointKey, before: Snapshot, record: Row,
                      after: Transaction)
    requires DatabaseInv(db) && LooseInv(db, tx) && tx.phase == Open == after.phase
    requires SnapshotFor(db, tx, key.scope) == Ok(before)
    requires record.version == Allocate(before, key.id).versions[key.id]
    requires after.namespaces == tx.namespaces[key.scope := Allocate(before, key.id)]
    requires after.checkpoints == tx.checkpoints || after.checkpoints == tx.checkpoints[key := record]
    requires key in after.checkpoints ==> key in tx.checkpoints || HasRoom(tx)
    ensures LooseInv(db, after)
  {
    LoadedSnapshot(db, key.scope);
    var held := tx.(namespaces := after.namespaces);
    assert SnapshotInv(db, key.scope, before) || (key.scope in tx.namespaces && Detached(tx, key.scope));
    HeldRecordsKeep(tx, key.scope, before, key.id, held);
    RoomShrinks(tx, key, record, after);
    if after.checkpoints == tx.checkpoints { SameRecords(held, after); } else { RecordKeeps(held, key, record, after); }
    forall scope | scope in after.namespaces
      ensures SnapshotInv(db, scope, after.namespaces[scope]) || Detached(after, scope)
    {
      if scope == key.scope {
        if SnapshotInv(db, scope, before) {
          AllocateKeeps(db, scope, before, key.id);
        } else {
          DetachedAllocates(tx, key, after);
        }
      } else if Detached(tx, scope) {
        OtherScopesStayDetached(tx, scope, after);
      }
    }
  }

  lemma SameRecords(tx: Transaction, after: Transaction)
    requires RecordsInv(tx) && after.namespaces == tx.namespaces && after.checkpoints == tx.checkpoints
    ensures RecordsInv(after)
  {
    forall k | k in after.checkpoints ensures BufferedAtAllocatedVersion(after, k) {
      assert BufferedAtAllocatedVersion(tx, k);
    }
  }

  lemma LooseTransactionStep(db: Database, tx: Transaction, e: Event, after: Transaction)
    requires DatabaseInv(db) && LooseInv(db, tx) && after == NextTransaction(db, tx, e)
    ensures LooseInv(db, after)
  {
    if e.Put? && tx.phase == Open {
      LoadedSnapshot(db, e.key.scope);
      BufferPutShape(db, tx, e.key, e.origin, e.content);
      PutStaysOpen(db, tx, e);
      var before := SnapshotFor(db, tx, e.key.scope).value;
      LoosePutKeeps(db, tx, e.key, before, Row(Allocate(before, e.key.id).versions[e.key.id], e.origin, e.content),
                    after);
    } else {
      OnlyPutsTouchRecords(db, tx, e);
      SameRecords(tx, after);
      forall scope | scope in after.namespaces
        ensures SnapshotInv(db, scope, after.namespaces[scope]) || Detached(after, scope)
      {
        if Detached(tx, scope) { OtherScopesStayDetached(tx, scope, after); }
      }
    }
  }

  lemma PutStaysOpen(db: Database, tx: Transaction, e: Event)
    requires e.Put? && tx.phase == Open
    ensures NextTransaction(db, tx, e).phase == Open
    ensures e.key in NextTransaction(db, tx, e).checkpoints ==> e.key in tx.checkpoints || HasRoom(tx)
  {
  }

  lemma LooseDatabaseStep(s: System, e: Event, after: System)
    requires Loose(s) && after == Next(s, e)
    ensures DatabaseInv(after.db) && Extends(s.db, after.db)
  {
    match e
    case DirectPut(key, origin, content) =>
      DirectPutExtends(s.db, key, origin, content);
      DirectPutKeeps(s.db, key, origin, content);
    case Commit(t) =>
      if t in s.registry && s.registry[t].phase == Committing && CanCommit(s.db, s.registry[t]) {
        CommitExtends(s.db, s.registry[t]);
        CommitKeepsBounds(s.db, s.registry[t]);
        CommitKeepsDistinct(s.db, s.registry[t]);
      } else {
        SameTablesKeep(s.db, after.db);
      }
    case _ => SameTablesKeep(s.db, after.db);
  }

  lemma LooseStepKeeps(s: System, e: Event, after: System)
    requires Loose(s) && after == Next(s, e)
    ensures Loose(after) && Extends(s.db, after.db)
  {
    LooseDatabaseStep(s, e, after);
    LooseSurvives(s, after.db);
    if e.Put? || e.PutWrites? || e.Seal? || e.StartFlush? {
      if e.t in s.registry { LooseTransactionStep(s.db, s.registry[e.t], e, after.registry[e.t]); }
    }
  }

  lemma {:induction false} LooseRunKeeps(s: System, events: seq<Event>)
    requires Loose(s)
    ensures Loose(Run(s, events))
    decreases |events|
  {
    if events != [] {
      LooseStepKeeps(s, events[0], Next(s, events[0]));
      LooseRunKeeps(Next(s, events[0]), events[1..]);
    }
  }

  lemma {:induction false} LooseActionsKeep(s: System, actions: seq<Action>)
    requires Loose(s) && DisinheritedDeletions(s, actions)
    ensures Loose(RunActions(s, actions))
    decreases |actions|
  {
    if actions != [] {
      match actions[0] {
        case Step(e) => LooseStepKeeps(s, e, Next(s, e));
        case DeleteThread(threadId) => DeletionLoosens(s, threadId);
      }
      LooseActionsKeep(Act(s, actions[0]), actions[1..]);
    }
  }

  /** Threads may be deleted under open transactions, as long as none of these has buffered, or can still put, an id
      at a version its base already had: then versions stay distinct and bounded in every state of every run. */
  lemma VersionsSurviveDeletions(actions: seq<Action>, db: Database, a: CheckpointKey, b: CheckpointKey)
    requires DisinheritedDeletions(INITIAL, actions) && db == RunActions(INITIAL, actions).db
    ensures a in db.checkpoints ==> 1 <= db.checkpoints[a].version <= CurrentVersion(db, a.scope)
    ensures a in db.checkpoints && b in db.checkpoints && a.scope == b.scope && a != b ==>
              db.checkpoints[a].version != db.checkpoints[b].version
  {
    LooseActionsKeep(INITIAL, actions);
    assert SameVersion(db.checkpoints, a, b) ==> a == b;
  }

  // ------------------------------------------- what an inherited id can do

  /** Nothing else stands in the way of the transaction's commit. */
  predicate Finishes(db: Database, tx: Transaction) {
    tx.phase != Closed && CanCommit(db, tx)
  }

  const NO_CONTENT := Content("", Blob("", []), Blob("", []))

  /** The n-th of a series of checkpoint ids, all different from each other and from `id`. */
  function FreshId(id: string, n: nat): (r: string)
    ensures |r| == |id| + n + 1
  {
    id + seq(n + 1, _ => 'x')
  }

  function Refill(scope: Scope, id: string, n: nat): Event {
    DirectPut(CheckpointKey(scope, FreshId(id, n)), Origin("", None, None), NO_CONTENT)
  }

  /** Direct puts that bring an emptied namespace to version `n` again. */
  function Refills(scope: Scope, id: string, n: nat): seq<Event> {
    if n == 0 then [] else Refills(scope, id, n - 1) + [Refill(scope, id, n)]
  }

  /** The namespace holds the fresh ids at the versions 1 to `n`, and no other id of `id`'s length. */
  ghost predicate Refilled(db: Database, scope: Scope, id: string, n: nat) {
    && CurrentVersion(db, scope) == n
    && (n > 0 ==> scope in db.threads)
    && (forall k :: k in db.checkpoints && k.scope == scope ==> |id| < |k.id| <= |id| + n + 1)
    && (forall i: nat :: 1 <= i <= n ==> Stored(db, scope, FreshId(id, i), i))
  }

  lemma {:induction false} RunAppend(s: System, events: seq<Event>, e: Event)
    ensures Run(s, events + [e]) == Next(Run(s, events), e)
    decreases |events|
  {
    if events == [] {
      assert [] + [e] == [e] && [e][1..] == [];
    } else {
      assert (events + [e])[0] == events[0] && (events + [e])[1..] == events[1..] + [e];
      RunAppend(Next(s, events[0]), events[1..], e);
    }
  }

  lemma OneRefill(db: Database, scope: Scope, id: string, n: nat, origin: Origin, content: Content)
    requires n > 0 && Refilled(db, scope, id, n - 1)
    ensures Refilled(PutDirectly(db, CheckpointKey(scope, FreshId(id, n)), origin, content), scope, id, n)
  {
    var key := CheckpointKey(scope, FreshId(id, n));
    var after := PutDirectly(db, key, origin, content);
    assert key !in db.checkpoints;
    forall i: nat | 1 <= i <= n ensures Stored(after, scope, FreshId(id, i), i) {
      if i < n { assert Stored(db, scope, FreshId(id, i), i); }
    }
  }

  ghost predicate OnlyScopeGrew(before: Database, after: Database, scope: Scope) {
    && (forall other :: other != scope ==> (other in after.threads <==> other in before.threads))
    && (forall other :: other != scope && other in after.threads ==> after.threads[other] == before.threads[other])
    && before.checkpoints.Keys <= after.checkpoints.Keys
  }

  /** A transaction that could commit still can once its own namespace is back at its base. */
  lemma RefillsKeepCommits(before: Database, after: Database, tx: Transaction, scope: Scope)
    requires CanCommit(before, tx) && OnlyScopeGrew(before, after, scope)
    requires scope in tx.namespaces && CurrentVersion(after, scope) == tx.namespaces[scope].base
    ensures CanCommit(after, tx)
  {
    forall other | other in tx.namespaces ensures SnapshotCurrent(after, other, tx.namespaces[other]) {
      assert SnapshotCurrent(before, other, tx.namespaces[other]);
    }
    forall w | w in tx.writes ensures !Dangling(after, tx, w.checkpoint) {
      assert !Dangling(before, tx, w.checkpoint);
    }
  }

  lemma {:induction false} RefillsRun(s: System, scope: Scope, id: string, n: nat, after: System)
    requires Refilled(s.db, scope, id, 0) && after == Run(s, Refills(scope, id, n))
    ensures after.registry == s.registry
    ensures Refilled(after.db, scope, id, n) && OnlyScopeGrew(s.db, after.db, scope)
    decreases n
  {
    if n > 0 {
      var previous := Run(s, Refills(scope, id, n - 1));
      RefillsRun(s, scope, id, n - 1, previous);
      RunAppend(s, Refills(scope, id, n - 1), Refill(scope, id, n));
      OneRefill(previous.db, scope, id, n, Origin("", None, None), NO_CONTENT);
    }
  }

  /** The transaction ends: it puts `key` if it is still open, and is flushed. */
  function Ending(t: TransactionKey, key: CheckpointKey): seq<Event> {
    [Put(t, key, Origin("", None, None), NO_CONTENT), Seal(t), StartFlush(t), Commit(t)]
  }

  /** A transaction about to be flushed that has `key` buffered at `version`, with the bases and writes of `tx`. */
  ghost predicate ReadyWith(ready: Transaction, tx: Transaction, key: CheckpointKey, version: int) {
    && ready.phase == Committing && ready.namespaces == tx.namespaces && ready.writes == tx.writes
    && tx.checkpoints.Keys <= ready.checkpoints.Keys
    && key in ready.checkpoints && ready.checkpoints[key].version == version
  }

  lemma InheritedPut(db: Database, tx: Transaction, key: CheckpointKey, after: Transaction)
    requires RecordsInv(tx) && WithinLimits(tx) && Inherited(tx, key.scope, key.id)
    requires tx.namespaces[key.scope].versions[key.id] != 0
    requires after == BufferPut(db, tx, key, Origin("", None, None), NO_CONTENT).tx
    ensures after.phase == tx.phase
        && ReadyWith(after.(phase := Committing), tx, key, tx.namespaces[key.scope].versions[key.id])
  {
    assert key == CheckpointKey(key.scope, key.id);
    if key in tx.checkpoints { assert BufferedAtAllocatedVersion(tx, key); }
    assert tx.namespaces[key.scope := tx.namespaces[key.scope]] == tx.namespaces;
  }

  lemma EndingRun(s: System, t: TransactionKey, key: CheckpointKey, put: Transaction, after: System)
    requires t in s.registry && put == BufferPut(s.db, s.registry[t], key, Origin("", None, None), NO_CONTENT).tx
    requires put.phase == s.registry[t].phase != Closed && CanCommit(s.db, put.(phase := Committing))
    requires after == Run(s, Ending(t, key))
    ensures after.db == Applied(s.db, put.(phase := Committing))
  {
    var flushing := Next(Next(Next(s, Put(t, key, Origin("", None, None), NO_CONTENT)), Seal(t)), StartFlush(t));
    UpToTheFlush(s, t, key, put, flushing);
    RunOfFour(s, Put(t, key, Origin("", None, None), NO_CONTENT), Seal(t), StartFlush(t), Commit(t));
    assert after == Next(flushing, Commit(t));
  }

  lemma UpToTheFlush(s: System, t: TransactionKey, key: CheckpointKey, put: Transaction, flushing: System)
    requires t in s.registry && put == BufferPut(s.db, s.registry[t], key, Origin("", None, None), NO_CONTENT).tx
    requires put.phase == s.registry[t].phase != Closed
    requires flushing == Next(Next(Next(s, Put(t, key, Origin("", None, None), NO_CONTENT)), Seal(t)), StartFlush(t))
    ensures flushing.db == s.db && t in flushing.registry && flushing.registry[t] == put.(phase := Committing)
  {
  }

  lemma ReadyCommits(db: Database, tx: Transaction, ready: Transaction, key: CheckpointKey)
    requires CanCommit(db, tx) && key in ready.checkpoints && ReadyWith(ready, tx, key, ready.checkpoints[key].version)
    ensures CanCommit(db, ready)
  {
    forall w | w in ready.writes ensures !Dangling(db, ready, w.checkpoint) { assert !Dangling(db, tx, w.checkpoint); }
  }

  lemma RunOfFour(s: System, a: Event, b: Event, c: Event, d: Event)
    ensures Run(s, [a, b, c, d]) == Next(Next(Next(Next(s, a), b), c), d)
  {
    assert [] + [a] == [a] && [a] + [b] == [a, b] && [a, b] + [c] == [a, b, c] && [a, b, c] + [d] == [a, b, c, d];
    RunAppend(s, [], a);
    RunAppend(s, [a], b);
    RunAppend(s, [a, b], c);
    RunAppend(s, [a, b, c], d);
  }

  lemma {:induction false} RunConcat(s: System, first: seq<Event>, second: seq<Event>)
    ensures Run(s, first + second) == Run(Run(s, first), second)
    decreases |first|
  {
    if first == [] {
      assert [] + second == second;
    } else {
      assert (first + second)[0] == first[0] && (first + second)[1..] == first[1..] + second;
      RunConcat(Next(s, first[0]), first[1..], second);
    }
  }

  /** The inherited id is flushed at its old version into a namespace where a fresh id has that version by now. */
  lemma InheritedCollides(db: Database, ready: Transaction, tx: Transaction, key: CheckpointKey, version: nat,
                          base: nat)
    requires Refilled(db, key.scope, key.id, base) && 1 <= version <= base && ReadyWith(ready, tx, key, version)
    ensures !VersionsDistinct(Applied(db, ready).checkpoints)
  {
    var refill := CheckpointKey(key.scope, FreshId(key.id, version));
    assert Stored(db, key.scope, FreshId(key.id, version), version) && key !in db.checkpoints;
    assert SameVersion(Applied(db, ready).checkpoints, key, refill) && key != refill;
  }

  /** An open transaction with an inherited id of a deleted thread: if nothing else stops its commit, two checkpoints
      can come to share a version. */
  lemma InheritedBreaksVersions(s: System, threadId: string, t: TransactionKey, scope: Scope, id: string)
    requires Loose(s) && t in s.registry && WithinLimits(s.registry[t])
    requires scope.threadId == threadId && Inherited(s.registry[t], scope, id)
    requires Finishes(WithoutThread(s.db, threadId), s.registry[t])
    ensures exists events :: !VersionsDistinct(Run(Act(s, DeleteThread(threadId)), events).db.checkpoints)
  {
    var deleted := Act(s, DeleteThread(threadId));
    InheritedVersion(s.db, s.registry[t], scope, id);
    RefillAndEnd(deleted, t, CheckpointKey(scope, id), s.registry[t].namespaces[scope].base);
  }

  lemma InheritedVersion(db: Database, tx: Transaction, scope: Scope, id: string)
    requires LooseInv(db, tx) && Inherited(tx, scope, id)
    ensures 1 <= tx.namespaces[scope].versions[id] <= tx.namespaces[scope].base
  {
    assert !Detached(tx, scope);
    assert SnapshotInv(db, scope, tx.namespaces[scope]);
  }

  lemma EndingBreaks(s: System, t: TransactionKey, key: CheckpointKey, base: nat)
    requires Refilled(s.db, key.scope, key.id, base) && t in s.registry && Finishes(s.db, s.registry[t])
    requires RecordsInv(s.registry[t]) && WithinLimits(s.registry[t]) && Inherited(s.registry[t], key.scope, key.id)
    requires 1 <= s.registry[t].namespaces[key.scope].versions[key.id] <= base
    ensures exists events :: !VersionsDistinct(Run(s, events).db.checkpoints)
  {
    var tx := s.registry[t];
    var version := tx.namespaces[key.scope].versions[key.id];
    var put := BufferPut(s.db, tx, key, Origin("", None, None), NO_CONTENT).tx;
    InheritedPut(s.db, tx, key, put);
    ReadyCommits(s.db, tx, put.(phase := Committing), key);
    EndingRun(s, t, key, put, Run(s, Ending(t, key)));
    InheritedCollides(s.db, put.(phase := Committing), tx, key, version, base);
  }

  lemma BreaksLater(s: System, first: seq<Event>, middle: System)
    requires middle == Run(s, first) && exists events :: !VersionsDistinct(Run(middle, events).db.checkpoints)
    ensures exists events :: !VersionsDistinct(Run(s, events).db.checkpoints)
  {
    var events :| !VersionsDistinct(Run(middle, events).db.checkpoints);
    RunConcat(s, first, events);
    assert !VersionsDistinct(Run(s, first + events).db.checkpoints);
  }

  lemma RefillAndEnd(s: System, t: TransactionKey, key: CheckpointKey, base: nat)
    requires Refilled(s.db, key.scope, key.id, 0) && t in s.registry && Finishes(s.db, s.registry[t])
    requires RecordsInv(s.registry[t]) && WithinLimits(s.registry[t]) && Inherited(s.registry[t], key.scope, key.id)
    requires 1 <= s.registry[t].namespaces[key.scope].versions[key.id] <= base
        == s.registry[t].namespaces[key.scope].base
    ensures exists events :: !VersionsDistinct(Run(s, events).db.checkpoints)
  {
    var refills := Refills(key.scope, key.id, base);
    var refilled := Run(s, refills);
    RefillsRun(s, key.scope, key.id, base, refilled);
    RefillsKeepCommits(s.db, refilled.db, s.registry[t], key.scope);
    EndingBreaks(refilled, t, key, base);
    BreaksLater(s, refills, refilled);
  }

  ghost predicate BuffersFit(s: System) {
    forall t :: t in s.registry ==> Accounted(s.registry[t]) && WithinLimits(s.registry[t])
  }

  lemma StepsFit(s: System, e: Event, after: System)
    requires BuffersFit(s) && after == Next(s, e)
    ensures BuffersFit(after)
  {
    forall t | t in after.registry ensures Accounted(after.registry[t]) && WithinLimits(after.registry[t]) {
      StepIsAccounted(s, e, t, after.registry[t]);
    }
  }

  lemma {:induction false} ActionsFit(s: System, actions: seq<Action>)
    requires BuffersFit(s)
    ensures BuffersFit(RunActions(s, actions))
    decreases |actions|
  {
    if actions != [] {
      if actions[0].Step? { StepsFit(s, actions[0].e, Act(s, actions[0])); }
      ActionsFit(Act(s, actions[0]), actions[1..]);
    }
  }

  /** Deleting a thread can come to give two checkpoints one version exactly when some open transaction has buffered, or
      can still put, an id of the thread at a version its base already had. */
  lemma DeletionBreaksExactly(actions: seq<Action>, s: System, threadId: string)
    requires DisinheritedDeletions(INITIAL, actions) && s == RunActions(INITIAL, actions)
    requires forall t, scope: Scope, id: string ::
      t in s.registry && scope.threadId == threadId && Inherited(s.registry[t], scope, id) ==>
        Finishes(WithoutThread(s.db, threadId), s.registry[t])
    ensures (exists events :: !VersionsDistinct(Run(Act(s, DeleteThread(threadId)), events).db.checkpoints))
       <==> !Disinherited(s, threadId)
  {
    LooseActionsKeep(INITIAL, actions);
    ActionsFit(INITIAL, actions);
    if Disinherited(s, threadId) {
      DeletionLoosens(s, threadId);
      forall events ensures VersionsDistinct(Run(Act(s, DeleteThread(threadId)), events).db.checkpoints) {
        LooseRunKeeps(Act(s, DeleteThread(threadId)), events);
      }
    } else {
      var t, scope: Scope, id: string :|
        t in s.registry && scope.threadId == threadId && Inherited(s.registry[t], scope, id);
      InheritedBreaksVersions(s, threadId, t, scope, id);
    }
  }

  // ------------------------------------------------------------------ an input

  /** A checkpoint is stored, a transaction puts it again, and the thread is deleted while the transaction is open. */
  function OpenThread(t: TransactionKey, key: CheckpointKey): seq<Event> {
    [DirectPut(key, Origin("", None, None), NO_CONTENT), Begin(t), Put(t, key, Origin("", None, None), NO_CONTENT)]
  }

  lemma OneRowSnapshot(db: Database, key: CheckpointKey, row: Row)
    requires db == Database(map[key.scope := 1], map[key := row], map[]) && row.version == 1
    ensures LoadSnapshot(db, key.scope) == Ok(Snapshot(1, 1, map[key.id := 1]))
  {
    assert key == CheckpointKey(key.scope, key.id);
    assert Versions(db, key.scope) == map[key.id := 1];
  }

  lemma OpenThreadRun(t: TransactionKey, key: CheckpointKey, s: System)
    requires s == Run(INITIAL, OpenThread(t, key))
    ensures var row := Row(1, Origin("", None, None), NO_CONTENT);
            && s.db == Database(map[key.scope := 1], map[key := row], map[])
            && s.registry == map[t := Transaction(Open, map[key.scope := Snapshot(1, 1, map[key.id := 1])],
                                                  map[key := row], map[], 0)]
  {
    var origin, row := Origin("", None, None), Row(1, Origin("", None, None), NO_CONTENT);
    var stored := Next(INITIAL, DirectPut(key, origin, NO_CONTENT));
    assert stored.db == Database(map[key.scope := 1], map[key := row], map[]);
    var begun := Next(stored, Begin(t));
    assert begun.registry == map[t := EMPTY_TRANSACTION];
    OneRowSnapshot(begun.db, key, row);
    BufferPutShape(begun.db, EMPTY_TRANSACTION, key, origin, NO_CONTENT);
    var events := OpenThread(t, key);
    RunAppend(INITIAL, [], events[0]);
    RunAppend(INITIAL, [events[0]], events[1]);
    RunAppend(INITIAL, [events[0], events[1]], events[2]);
    assert [] + [events[0]] == [events[0]] && [events[0]] + [events[1]] == [events[0], events[1]];
    assert [events[0], events[1]] + [events[2]] == events;
    assert s == Next(begun, events[2]);
  }

  lemma ReachableIsLoose(s: System, events: seq<Event>)
    requires s == Run(INITIAL, events)
    ensures Loose(s) && forall t :: t in s.registry ==> WithinLimits(s.registry[t])
  {
    RunKeeps(INITIAL, events);
    RunIsAccounted(INITIAL, events);
    InvIsLoose(s);
  }

  lemma OpenThreadInherits(t: TransactionKey, key: CheckpointKey, s: System)
    requires s == Run(INITIAL, OpenThread(t, key))
    ensures t in s.registry && Inherited(s.registry[t], key.scope, key.id)
    ensures Finishes(WithoutThread(s.db, key.scope.threadId), s.registry[t])
  {
    OpenThreadRun(t, key, s);
    assert key == CheckpointKey(key.scope, key.id);
  }

  lemma DeletionDefeatsTheVersionCheck(t: TransactionKey, key: CheckpointKey, s: System)
    requires s == Run(INITIAL, OpenThread(t, key))
    ensures exists events :: !VersionsDistinct(Run(Act(s, DeleteThread(key.scope.threadId)), events).db.checkpoints)
  {
    ReachableIsLoose(s, OpenThread(t, key));
    OpenThreadInherits(t, key, s);
    InheritedBreaksVersions(s, key.scope.threadId, t, key.scope, key.id);
  }

  // ----------------------------------------------- reads after such a deletion

  /** A buffered row is never older than the stored one of its key: they have one version, or the buffered is newer. */
  lemma BufferedIsNotOlder(db: Database, tx: Transaction, k: CheckpointKey)
    requires DatabaseInv(db) && LooseInv(db, tx) && SnapshotsCurrent(db, tx)
    requires k in tx.checkpoints && k in db.checkpoints
    ensures tx.checkpoints[k].version >= db.checkpoints[k].version
  {
    assert BufferedAtAllocatedVersion(tx, k);
    BaseIsReached(db, tx, k.scope);
    StoredIsBelow(db, k);
    var snapshot := tx.namespaces[k.scope];
    assert k == CheckpointKey(k.scope, k.id);
    if Detached(tx, k.scope) {
      assert !Inherited(tx, k.scope, k.id);
    } else if snapshot.versions[k.id] <= snapshot.base {
      assert Stored(db, k.scope, k.id, snapshot.versions[k.id]);
    }
  }

  lemma NewerIsMisread(db: Database, tx: Transaction, k: CheckpointKey)
    requires k in tx.checkpoints && k in db.checkpoints && k.id != ""
    requires tx.checkpoints[k].version > db.checkpoints[k].version
    ensures ReadOverlay(db, tx, k.scope, k.id) != ReadCommitted(Applied(db, tx), k.scope, k.id)
  {
    assert k == CheckpointKey(k.scope, k.id);
    CommitKeepsRows(db, tx, k);
    assert ReadOverlay(db, tx, k.scope, k.id).value.version == tx.checkpoints[k].version;
    assert ReadCommitted(Applied(db, tx), k.scope, k.id).value.version == db.checkpoints[k].version;
  }

  /** After deletions under open transactions the reads of a transaction that can still commit are those after its
      commit exactly when no id it has buffered was stored again at another version. */
  lemma ReadsAgreeExactly(actions: seq<Action>, s: System, t: TransactionKey)
    requires DisinheritedDeletions(INITIAL, actions) && s == RunActions(INITIAL, actions)
    requires t in s.registry && CanCommit(s.db, s.registry[t])
    requires forall k :: k in s.registry[t].checkpoints ==> k.id != ""
    ensures (forall scope, id :: ReadOverlay(s.db, s.registry[t], scope, id)
                              == ReadCommitted(Applied(s.db, s.registry[t]), scope, id))
       <==> Agree(s.db, s.registry[t])
  {
    LooseActionsKeep(INITIAL, actions);
    var db, tx := s.db, s.registry[t];
    assert LooseInv(db, tx);
    if Agree(db, tx) {
      forall scope, id ensures ReadOverlay(db, tx, scope, id) == ReadCommitted(Applied(db, tx), scope, id) {
        ReadableOverlay(db, tx, scope, id);
      }
    } else {
      var k :| k in tx.checkpoints && k in db.checkpoints && tx.checkpoints[k].version != db.checkpoints[k].version;
      BufferedIsNotOlder(db, tx, k);
      NewerIsMisread(db, tx, k);
    }
  }

  lemma {:induction false} OneMoreAction(s: System, actions: seq<Action>, a: Action)
    requires DisinheritedDeletions(s, actions)
    requires a.DeleteThread? ==> Disinherited(RunActions(s, actions), a.threadId)
    ensures RunActions(s, actions + [a]) == Act(RunActions(s, actions), a)
    ensures DisinheritedDeletions(s, actions + [a])
    decreases |actions|
  {
    if actions == [] {
      assert [] + [a] == [a] && [a][1..] == [];
    } else {
      assert (actions + [a])[0] == actions[0] && (actions + [a])[1..] == actions[1..] + [a];
      OneMoreAction(Act(s, actions[0]), actions[1..], a);
    }
  }

  /** A transaction puts a new id beside a stored one, and is sealed. */
  function SealedBeside(t: TransactionKey, scope: Scope, a: string, b: string): seq<Action> {
    var origin := Origin("", None, None);
    [Step(DirectPut(CheckpointKey(scope, a), origin, NO_CONTENT))] + [Step(Begin(t))]
    + [Step(Put(t, CheckpointKey(scope, b), origin, NO_CONTENT))] + [Step(Seal(t))]
  }

  ghost predicate IsSealedBeside(s: System, t: TransactionKey, scope: Scope, a: string, b: string, row: Row) {
    && s.db == Database(map[scope := 1], map[CheckpointKey(scope, a) := row], map[])
    && s.registry == map[t := Transaction(Sealed, map[scope := Snapshot(1, 2, map[a := 1, b := 2])],
                                          map[CheckpointKey(scope, b) := row.(version := 2)], map[], 0)]
  }

  lemma PutBeside(t: TransactionKey, scope: Scope, a: string, b: string, row: Row, s: System)
    requires a != b && row == Row(1, Origin("", None, None), NO_CONTENT)
    requires s.db == Database(map[scope := 1], map[CheckpointKey(scope, a) := row], map[])
    requires s.registry == map[t := EMPTY_TRANSACTION]
    ensures IsSealedBeside(Next(Next(s, Put(t, CheckpointKey(scope, b), row.origin, NO_CONTENT)), Seal(t)), t, scope,
                           a, b, row)
  {
    var key := CheckpointKey(scope, b);
    var put := BufferPut(s.db, EMPTY_TRANSACTION, key, row.origin, NO_CONTENT).tx;
    PutBesideShape(scope, a, b, row, s.db, put);
    OnlyOneSteps(s, t, EMPTY_TRANSACTION, Put(t, key, row.origin, NO_CONTENT), put);
    OnlyOneSteps(System(s.db, map[t := put]), t, put, Seal(t), put.(phase := Sealed));
  }

  /** A step of the only transaction there is. */
  lemma OnlyOneSteps(s: System, t: TransactionKey, tx: Transaction, e: Event, after: Transaction)
    requires s.registry == map[t := tx] && (e.Put? || e.Seal?) && e.t == t && after == NextTransaction(s.db, tx, e)
    ensures Next(s, e) == System(s.db, map[t := after])
  {
    assert s.registry[t := after] == map[t := after];
  }

  lemma PutBesideShape(scope: Scope, a: string, b: string, row: Row, db: Database, put: Transaction)
    requires a != b && row == Row(1, Origin("", None, None), NO_CONTENT)
    requires db == Database(map[scope := 1], map[CheckpointKey(scope, a) := row], map[])
    requires put == BufferPut(db, EMPTY_TRANSACTION, CheckpointKey(scope, b), row.origin, NO_CONTENT).tx
    ensures put == Transaction(Open, map[scope := Snapshot(1, 2, map[a := 1, b := 2])],
                               map[CheckpointKey(scope, b) := row.(version := 2)], map[], 0)
  {
    OneRowSnapshot(db, CheckpointKey(scope, a), row);
  }

  lemma SealedBesideRun(t: TransactionKey, scope: Scope, a: string, b: string, row: Row)
    requires a != b && row == Row(1, Origin("", None, None), NO_CONTENT)
    ensures DisinheritedDeletions(INITIAL, SealedBeside(t, scope, a, b))
    ensures IsSealedBeside(RunActions(INITIAL, SealedBeside(t, scope, a, b)), t, scope, a, b, row)
  {
    var put := Step(Put(t, CheckpointKey(scope, b), row.origin, NO_CONTENT));
    var first := [Step(DirectPut(CheckpointKey(scope, a), row.origin, NO_CONTENT))];
    OneMoreAction(INITIAL, [], first[0]);
    assert [] + first == first;
    OneMoreAction(INITIAL, first, Step(Begin(t)));
    var begun := RunActions(INITIAL, first + [Step(Begin(t))]);
    assert begun.db == Database(map[scope := 1], map[CheckpointKey(scope, a) := row], map[]);
    assert begun.registry == map[t := EMPTY_TRANSACTION];
    PutBeside(t, scope, a, b, row, begun);
    OneMoreAction(INITIAL, first + [Step(Begin(t))], put);
    OneMoreAction(INITIAL, first + [Step(Begin(t))] + [put], Step(Seal(t)));
  }

  lemma SealedIsDisinherited(t: TransactionKey, scope: Scope, a: string, b: string, row: Row, sealed: System)
    requires a != b && IsSealedBeside(sealed, t, scope, a, b, row)
    ensures Disinherited(sealed, scope.threadId)
  {
  }

  lemma DeletedAndPut(db: Database, scope: Scope, a: string, b: string, row: Row, after: Database)
    requires db == Database(map[scope := 1], map[CheckpointKey(scope, a) := row], map[])
    requires after == PutDirectly(WithoutThread(db, scope.threadId), CheckpointKey(scope, b), row.origin, NO_CONTENT)
    ensures after == Database(map[scope := 1], map[CheckpointKey(scope, b) := Row(1, row.origin, NO_CONTENT)], map[])
  {
    assert WithoutThread(db, scope.threadId) == EMPTY_DATABASE;
  }

  lemma PutAgain(db: Database, tx: Transaction, scope: Scope, b: string, origin: Origin)
    requires b != ""
    requires db == Database(map[scope := 1], map[CheckpointKey(scope, b) := Row(1, origin, NO_CONTENT)], map[])
    requires tx.namespaces.Keys == {scope} && tx.namespaces[scope].base == 1 && tx.writes == map[]
    requires CheckpointKey(scope, b) in tx.checkpoints && tx.checkpoints[CheckpointKey(scope, b)].version == 2
    ensures CanCommit(db, tx) && !Agree(db, tx)
    ensures ReadOverlay(db, tx, scope, b) != ReadCommitted(Applied(db, tx), scope, b)
  {
    NewerIsMisread(db, tx, CheckpointKey(scope, b));
  }

  /** Then the thread is deleted and the id put directly. No version is shared afterwards, but the transaction reads its
      record at a version that the record will not have. */
  lemma DeletionMisleadsReads(t: TransactionKey, scope: Scope, a: string, b: string, actions: seq<Action>, s: System)
    requires a != b && b != "" && s == RunActions(INITIAL, actions)
    requires actions == SealedBeside(t, scope, a, b) + [DeleteThread(scope.threadId)]
                        + [Step(DirectPut(CheckpointKey(scope, b), Origin("", None, None), NO_CONTENT))]
    ensures DisinheritedDeletions(INITIAL, actions)
    ensures t in s.registry && CanCommit(s.db, s.registry[t]) && !Agree(s.db, s.registry[t])
    ensures ReadOverlay(s.db, s.registry[t], scope, b) != ReadCommitted(Applied(s.db, s.registry[t]), scope, b)
  {
    var row := Row(1, Origin("", None, None), NO_CONTENT);
    var before := SealedBeside(t, scope, a, b);
    SealedBesideRun(t, scope, a, b, row);
    var sealed := RunActions(INITIAL, before);
    var last := DirectPut(CheckpointKey(scope, b), Origin("", None, None), NO_CONTENT);
    var after := Next(Act(sealed, DeleteThread(scope.threadId)), last);
    SealedIsDisinherited(t, scope, a, b, row, sealed);
    DeletedAndPut(sealed.db, scope, a, b, row, after.db);
    PutAgain(after.db, sealed.registry[t], scope, b, row.origin);
    OneMoreAction(INITIAL, before, DeleteThread(scope.threadId));
    OneMoreAction(INITIAL, before + [DeleteThread(scope.threadId)], Step(last));
  }
}
