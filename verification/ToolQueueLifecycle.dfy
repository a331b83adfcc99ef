/** The lifecycle of tasks. Identities and leases are kept by every run; counts, dead letters and finality by the runs
    in which `complete` and `fail` are called only for a task that is being processed. */
module ToolQueueLifecycle {
  import opened Foundations
  import opened ToolQueueModel
  import opened ToolQueueRuns

  /** The freshness of `uuid4`. */
  predicate Fresh(s: System, e: Event) {
    e.DoEnqueue? ==> !Known(s.queue, e.id)
  }

  ghost predicate FreshRun(cfg: Config, s: System, events: seq<Event>)
    decreases |events|
  {
    events != [] ==> Fresh(s, events[0]) && FreshRun(cfg, Next(cfg, s, events[0]), events[1..])
  }

  /** The discipline: what is finished is being processed. */
  predicate Disciplined(s: System, e: Event) {
    && Fresh(s, e)
    && ((e.DoComplete? || e.DoFail?) && Known(s.queue, e.id) ==> TaskOf(s.queue, e.id).status == Processing)
  }

  ghost predicate DisciplinedRun(cfg: Config, s: System, events: seq<Event>)
    decreases |events|
  {
    events != [] ==> Disciplined(s, events[0]) && DisciplinedRun(cfg, Next(cfg, s, events[0]), events[1..])
  }

  // ----------------------------------------------------- keys and identities

  ghost predicate IndexInv(q: Queue) {
    && UniqueIds(q.tasks)
    && (forall i :: 0 <= i < |q.tasks| ==> q.tasks[i].key in q.byKey && q.byKey[q.tasks[i].key] == q.tasks[i].id)
    && (forall k :: k in q.byKey ==> Known(q, q.byKey[k]) && TaskOf(q, q.byKey[k]).key == k)
  }

  /** A step that rewrites one task, leaving its identity. */
  lemma RewriteKeepsIndex(q: Queue, i: nat, t: Task, after: Queue)
    requires IndexInv(q) && i < |q.tasks| && t.id == q.tasks[i].id && t.key == q.tasks[i].key
    requires after.tasks == q.tasks[i := t] && after.byKey == q.byKey
    ensures IndexInv(after)
  {
    forall k | k in q.byKey ensures Find(q.tasks[i := t], q.byKey[k]) == Find(q.tasks, q.byKey[k]) {
      FindUpdate(q.tasks, i, t, q.byKey[k]);
    }
  }

  lemma EnqueueKeepsIndex(q: Queue, t: Task)
    requires IndexInv(q) && !Known(q, t.id)
    ensures IndexInv(Enqueue(q, t))
  {
    var after := Enqueue(q, t);
    if !Enqueued(q, t.key) {
      forall i | 0 <= i < |q.tasks| ensures q.tasks[i].key != t.key && q.tasks[i].id != t.id {
        FindFirst(q.tasks, i);
      }
      forall k | k in after.byKey ensures Known(after, after.byKey[k]) && TaskOf(after, after.byKey[k]).key == k {
        FindAppend(q.tasks, t, after.byKey[k]);
      }
    }
  }

  /** Enqueueing a key again returns the task it stands for and changes nothing; a new key gets a task of its own. */
  lemma EnqueueIsIdempotent(q: Queue, t: Task)
    requires IndexInv(q) && !Known(q, t.id)
    ensures Enqueued(Enqueue(q, t), t.key)
    ensures Enqueue(Enqueue(q, t), t) == Enqueue(q, t)
    ensures Enqueued(q, t.key) ==> Enqueue(q, t) == q
    ensures !Enqueued(q, t.key) ==>
      |Enqueue(q, t).tasks| == |q.tasks| + 1 && forall i :: 0 <= i < |q.tasks| ==> q.tasks[i].key != t.key
  {
    EnqueueKeepsIndex(q, t);
    if !Enqueued(q, t.key) {
      FindAppend(q.tasks, t, t.id);
      forall i | 0 <= i < |q.tasks| ensures q.tasks[i].key != t.key { FindFirst(q.tasks, i); }
    }
  }

  lemma ClaimKeepsIndex(cfg: Config, q: Queue, owner: string, now: real, timeout: real, after: Queue)
    requires IndexInv(q) && after == Claim(cfg, q, owner, now, timeout)
    ensures IndexInv(after)
  {
    if ClaimIndex(cfg, q, now).Some? {
      ChosenIndex(cfg, q, now);
      var c := ClaimIndex(cfg, q, now).value;
      RewriteKeepsIndex(q, c, Lease(q.tasks[c], owner, now + timeout), after);
    }
  }

  lemma FinishKeepsIndex(cfg: Config, s: System, e: Event, after: System)
    requires IndexInv(s.queue) && (e.DoComplete? || e.DoFail?) && after == Next(cfg, s, e)
    ensures IndexInv(after.queue)
  {
    if Known(s.queue, e.id) {
      var i := Find(s.queue.tasks, e.id);
      var t := if e.DoComplete? then Freed(s.queue.tasks[i], Done) else Failed(cfg, s.queue.tasks[i], e.now);
      RewriteKeepsIndex(s.queue, i, t, after.queue);
    }
  }

  lemma StepKeepsIndex(cfg: Config, s: System, e: Event, after: System)
    requires IndexInv(s.queue) && Fresh(s, e) && after == Next(cfg, s, e)
    ensures IndexInv(after.queue)
  {
    match e
    case DoEnqueue(id, key, p, r, m) => EnqueueKeepsIndex(s.queue, NewTask(id, key, p, r, m));
    case DoClaim(owner, now, timeout) => ClaimKeepsIndex(cfg, s.queue, owner, now, timeout, after.queue);
    case _ => FinishKeepsIndex(cfg, s, e, after);
  }

  lemma {:induction false} RunKeepsIndex(cfg: Config, s: System, events: seq<Event>)
    requires IndexInv(s.queue) && FreshRun(cfg, s, events)
    ensures IndexInv(Run(cfg, s, events).queue)
    decreases |events|
  {
    if events != [] {
      StepKeepsIndex(cfg, s, events[0], Next(cfg, s, events[0]));
      RunKeepsIndex(cfg, Next(cfg, s, events[0]), events[1..]);
    }
  }

  // --------------------------------------------------- counters and the log

  function MaxRuns(t: Task): nat { Max(1, t.maxAttempts) }

  ghost predicate TaskInv(t: Task, log: seq<Entry>) {
    && Failures(log, t.id) == t.attempts
    && Executions(log, t.id) == t.attempts + Takeovers(log, t.id)
        + (if t.status == Done || t.status == Processing then 1 else 0)
    && (if t.status == Dead then t.attempts == MaxRuns(t) else t.attempts < MaxRuns(t))
  }

  ghost predicate LogInv(s: System) {
    && (forall i :: 0 <= i < |s.queue.tasks| ==> TaskInv(s.queue.tasks[i], s.log))
    && (forall k :: 0 <= k < |s.log| ==> Known(s.queue, s.log[k].id))
  }

  ghost predicate DeadInv(q: Queue) {
    && (forall a, b :: 0 <= a < b < |q.dead| ==> q.dead[a] != q.dead[b])
    && (forall id :: id in q.dead <==> Known(q, id) && TaskOf(q, id).status == Dead)
  }

  ghost predicate Inv(s: System) {
    IndexInv(s.queue) && LogInv(s) && DeadInv(s.queue)
  }

  lemma {:induction false} UnknownHasNoHistory(log: seq<Entry>, id: string)
    requires forall k :: 0 <= k < |log| ==> log[k].id != id
    ensures Executions(log, id) == Takeovers(log, id) == Failures(log, id) == 0
    ensures FirstFailure(log, id) == None == LastClaim(log, id)
  {
    if log != [] { UnknownHasNoHistory(log[..|log| - 1], id); }
  }

  lemma LogGrows(log: seq<Entry>, e: Entry, id: string)
    ensures Executions(log + [e], id) == Executions(log, id) + if e.Claimed? && e.id == id then 1 else 0
    ensures Takeovers(log + [e], id) == Takeovers(log, id) + if e.Claimed? && e.id == id && e.expired then 1 else 0
    ensures Failures(log + [e], id) == Failures(log, id) + if e.FailedAt? && e.id == id then 1 else 0
    ensures FirstFailure(log + [e], id) ==
      if FirstFailure(log, id).None? && e.FailedAt? && e.id == id then Some(e.now) else FirstFailure(log, id)
    ensures LastClaim(log + [e], id) == if e.Claimed? && e.id == id then Some(e.now) else LastClaim(log, id)
  {
    assert (log + [e])[..|log|] == log;
  }

  /** The common shape of claim, complete and fail: task `i` is rewritten and one entry about it is logged. */
  ghost predicate Rewrites(s: System, i: nat, t: Task, e: Entry, after: System) {
    && i < |s.queue.tasks| && t.id == s.queue.tasks[i].id == e.id && t.key == s.queue.tasks[i].key
    && after.queue.tasks == s.queue.tasks[i := t] && after.queue.byKey == s.queue.byKey && after.log == s.log + [e]
    && after.queue.dead == if t.status == Dead then s.queue.dead + [t.id] else s.queue.dead
  }

  lemma RewriteKeepsLog(s: System, i: nat, t: Task, e: Entry, after: System)
    requires IndexInv(s.queue) && LogInv(s) && Rewrites(s, i, t, e, after) && TaskInv(t, after.log)
    ensures LogInv(after)
  {
    forall j | 0 <= j < |s.queue.tasks| ensures TaskInv(after.queue.tasks[j], after.log) {
      if j != i { LogGrows(s.log, e, s.queue.tasks[j].id); }
    }
    forall k | 0 <= k < |after.log| ensures Known(after.queue, after.log[k].id) {
      FindUpdate(s.queue.tasks, i, t, after.log[k].id);
      FindFirst(s.queue.tasks, i);
    }
  }

  lemma RewriteKeepsDead(s: System, i: nat, t: Task, e: Entry, after: System)
    requires IndexInv(s.queue) && DeadInv(s.queue) && Rewrites(s, i, t, e, after)
    requires s.queue.tasks[i].status != Dead
    ensures DeadInv(after.queue)
  {
    FindFirst(s.queue.tasks, i);
    forall id ensures id in after.queue.dead <==> Known(after.queue, id) && TaskOf(after.queue, id).status == Dead {
      FindUpdate(s.queue.tasks, i, t, id);
      assert id in s.queue.dead <==> Known(s.queue, id) && TaskOf(s.queue, id).status == Dead;
    }
  }

  lemma RewriteKeeps(s: System, i: nat, t: Task, e: Entry, after: System)
    requires Inv(s) && Rewrites(s, i, t, e, after) && TaskInv(t, after.log) && s.queue.tasks[i].status != Dead
    ensures Inv(after)
  {
    RewriteKeepsIndex(s.queue, i, t, after.queue);
    RewriteKeepsLog(s, i, t, e, after);
    RewriteKeepsDead(s, i, t, e, after);
  }

  lemma AppendKeepsOthers(q: Queue, t: Task, after: Queue, id: string)
    requires after.tasks == q.tasks + [t] && !Known(q, t.id)
    ensures Known(after, id) <==> Known(q, id) || id == t.id
    ensures Known(q, id) ==> TaskOf(after, id) == TaskOf(q, id)
    ensures Known(after, t.id) && TaskOf(after, t.id) == t
  {
    FindAppend(q.tasks, t, id);
    FindAppend(q.tasks, t, t.id);
  }

  lemma EnqueueKeepsDead(q: Queue, t: Task, after: Queue)
    requires DeadInv(q) && after.tasks == q.tasks + [t] && after.dead == q.dead && !Known(q, t.id) && t.status == Queued
    ensures DeadInv(after)
  {
    forall id ensures id in after.dead <==> Known(after, id) && TaskOf(after, id).status == Dead {
      AppendKeepsOthers(q, t, after, id);
      assert id in q.dead <==> Known(q, id) && TaskOf(q, id).status == Dead;
    }
  }

  lemma EnqueueKeepsLog(s: System, t: Task, after: System)
    requires LogInv(s) && after.log == s.log && after.queue.tasks == s.queue.tasks + [t]
    requires !Known(s.queue, t.id) && t.attempts == 0 && t.status == Queued
    ensures LogInv(after)
  {
    UnknownHasNoHistory(s.log, t.id);
    forall k | 0 <= k < |after.log| ensures Known(after.queue, after.log[k].id) {
      AppendKeepsOthers(s.queue, t, after.queue, after.log[k].id);
    }
  }

  lemma EnqueueKeeps(s: System, t: Task, after: System)
    requires Inv(s) && !Known(s.queue, t.id) && after == s.(queue := Enqueue(s.queue, t))
    requires t.attempts == 0 && t.status == Queued && !Enqueued(s.queue, t.key)
    ensures Inv(after)
  {
    EnqueueKeepsIndex(s.queue, t);
    EnqueueKeepsLog(s, t, after);
    EnqueueKeepsDead(s.queue, t, after.queue);
  }

  lemma ClaimRewrites(cfg: Config, s: System, owner: string, now: real, timeout: real, after: System)
    requires after == Next(cfg, s, DoClaim(owner, now, timeout)) && ClaimIndex(cfg, s.queue, now).Some?
    ensures var i := ClaimIndex(cfg, s.queue, now).value;
            && i < |s.queue.tasks| && Claimable(cfg, s.queue, i, now)
            && Rewrites(s, i, Lease(s.queue.tasks[i], owner, now + timeout),
                        Claimed(s.queue.tasks[i].id, now, s.queue.tasks[i].status == Processing), after)
  {
    ChosenIndex(cfg, s.queue, now);
  }

  lemma LeaseKeeps(s: System, i: nat, leased: Task, entry: Entry, after: System)
    requires Inv(s) && Rewrites(s, i, leased, entry, after)
    requires s.queue.tasks[i].status == Queued || s.queue.tasks[i].status == Processing
    requires leased == Lease(s.queue.tasks[i], leased.owner, leased.leaseUntil)
    requires entry.Claimed? && entry.expired == (s.queue.tasks[i].status == Processing)
    ensures Inv(after)
  {
    LogGrows(s.log, entry, entry.id);
    RewriteKeeps(s, i, leased, entry, after);
  }

  lemma ClaimKeeps(cfg: Config, s: System, owner: string, now: real, timeout: real, after: System)
    requires Inv(s) && after == Next(cfg, s, DoClaim(owner, now, timeout)) && ClaimIndex(cfg, s.queue, now).Some?
    ensures Inv(after)
  {
    ClaimRewrites(cfg, s, owner, now, timeout, after);
    var i := ClaimIndex(cfg, s.queue, now).value;
    var t := s.queue.tasks[i];
    LeaseKeeps(s, i, Lease(t, owner, now + timeout), Claimed(t.id, now, t.status == Processing), after);
  }

  lemma CompletionKeeps(s: System, i: nat, after: System)
    requires Inv(s) && i < |s.queue.tasks| && (s.queue.tasks[i].status == Processing || s.queue.tasks[i].status == Done)
    requires Rewrites(s, i, Freed(s.queue.tasks[i], Done), Completed(s.queue.tasks[i].id), after)
    ensures Inv(after)
  {
    LogGrows(s.log, Completed(s.queue.tasks[i].id), s.queue.tasks[i].id);
    RewriteKeeps(s, i, Freed(s.queue.tasks[i], Done), Completed(s.queue.tasks[i].id), after);
  }

  lemma FailureKeeps(cfg: Config, s: System, i: nat, now: real, after: System)
    requires Inv(s) && i < |s.queue.tasks| && (s.queue.tasks[i].status == Processing || s.queue.tasks[i].status == Done)
    requires Rewrites(s, i, Failed(cfg, s.queue.tasks[i], now), FailedAt(s.queue.tasks[i].id, now), after)
    ensures Inv(after)
  {
    LogGrows(s.log, FailedAt(s.queue.tasks[i].id, now), s.queue.tasks[i].id);
    RewriteKeeps(s, i, Failed(cfg, s.queue.tasks[i], now), FailedAt(s.queue.tasks[i].id, now), after);
  }

  /** Finishing a task that is being processed, or is done already, keeps the invariant. */
  lemma FinishKeeps(cfg: Config, s: System, e: Event, after: System)
    requires Inv(s) && (e.DoComplete? || e.DoFail?) && after == Next(cfg, s, e)
    requires Known(s.queue, e.id)
    requires TaskOf(s.queue, e.id).status == Processing || TaskOf(s.queue, e.id).status == Done
    ensures Inv(after)
  {
    var i := Find(s.queue.tasks, e.id);
    if e.DoComplete? { CompletionKeeps(s, i, after); } else { FailureKeeps(cfg, s, i, e.now, after); }
  }

  lemma StepKeeps(cfg: Config, s: System, e: Event, after: System)
    requires Inv(s) && Disciplined(s, e) && after == Next(cfg, s, e)
    ensures Inv(after)
  {
    if after.queue == s.queue && after.log == s.log { return; }
    match e
    case DoEnqueue(id, key, priority, rateKey, maxAttempts) =>
      EnqueueKeeps(s, NewTask(id, key, priority, rateKey, maxAttempts), after);
    case DoClaim(owner, now, timeout) => ClaimKeeps(cfg, s, owner, now, timeout, after);
    case _ => FinishKeeps(cfg, s, e, after);
  }

  lemma {:induction false} RunKeeps(cfg: Config, s: System, events: seq<Event>)
    requires Inv(s) && DisciplinedRun(cfg, s, events)
    ensures Inv(Run(cfg, s, events))
    decreases |events|
  {
    if events != [] {
      StepKeeps(cfg, s, events[0], Next(cfg, s, events[0]));
      RunKeeps(cfg, Next(cfg, s, events[0]), events[1..]);
    }
  }

  // ------------------------------------------------------------ main results

  /** A task is executed, takeovers of expired leases apart, once per failed attempt and once more when it is done or
      under way: never more than its allowance, which is at least one. */
  lemma ReachableExecutions(cfg: Config, events: seq<Event>, i: nat)
    requires DisciplinedRun(cfg, INITIAL, events) && i < |Run(cfg, INITIAL, events).queue.tasks|
    ensures var s := Run(cfg, INITIAL, events); var t := s.queue.tasks[i];
            && Executions(s.log, t.id) == t.attempts + Takeovers(s.log, t.id)
                 + (if t.status == Done || t.status == Processing then 1 else 0)
            && Executions(s.log, t.id) - Takeovers(s.log, t.id) <= Max(1, t.maxAttempts)
            && Failures(s.log, t.id) == t.attempts
            && (t.status == Dead <==> t.attempts == Max(1, t.maxAttempts))
  {
    RunKeeps(cfg, INITIAL, events);
  }

  /** The dead-letter list holds each dead task exactly once, and nothing else. */
  lemma ReachableDeadLetters(cfg: Config, events: seq<Event>, a: nat, b: nat, id: string)
    requires DisciplinedRun(cfg, INITIAL, events)
    ensures var q := Run(cfg, INITIAL, events).queue;
            && (a < b < |q.dead| ==> q.dead[a] != q.dead[b])
            && (id in q.dead <==> Known(q, id) && TaskOf(q, id).status == Dead)
  {
    RunKeeps(cfg, INITIAL, events);
  }

  /** In every run, whoever finishes what, idempotency keys and tasks correspond one to one. */
  lemma ReachableKeys(cfg: Config, events: seq<Event>, i: nat, j: nat, key: string)
    requires FreshRun(cfg, INITIAL, events)
    ensures var q := Run(cfg, INITIAL, events).queue;
            && (i < j < |q.tasks| ==> q.tasks[i].key != q.tasks[j].key && q.tasks[i].id != q.tasks[j].id)
            && (key in q.byKey <==> exists k :: 0 <= k < |q.tasks| && q.tasks[k].key == key)
  {
    RunKeepsIndex(cfg, INITIAL, events);
    var q := Run(cfg, INITIAL, events).queue;
    if key in q.byKey { assert TaskOf(q, q.byKey[key]) == q.tasks[Find(q.tasks, q.byKey[key])]; }
  }

  /** Done and dead are final. */
  lemma {:induction false} DoneAndDeadAreFinal(cfg: Config, s: System, events: seq<Event>, id: string)
    requires Inv(s) && DisciplinedRun(cfg, s, events)
    requires Known(s.queue, id) && (TaskOf(s.queue, id).status == Done || TaskOf(s.queue, id).status == Dead)
    ensures Known(Run(cfg, s, events).queue, id) && TaskOf(Run(cfg, s, events).queue, id) == TaskOf(s.queue, id)
    decreases |events|
  {
    if events != [] {
      StepKeeps(cfg, s, events[0], Next(cfg, s, events[0]));
      FinishedTaskStays(cfg, s, events[0], id, Next(cfg, s, events[0]));
      DoneAndDeadAreFinal(cfg, Next(cfg, s, events[0]), events[1..], id);
    }
  }

  /** What a claim does to one known task: nothing, or it leases an eligible one. */
  lemma ClaimStep(cfg: Config, s: System, e: Event, id: string, after: System)
    requires IndexInv(s.queue) && e.DoClaim? && after == Next(cfg, s, e) && Known(s.queue, id)
    ensures Known(after.queue, id)
    ensures
      || TaskOf(after.queue, id) == TaskOf(s.queue, id)
      || (Eligible(TaskOf(s.queue, id), e.now)
          && TaskOf(after.queue, id) == Lease(TaskOf(s.queue, id), e.owner, e.now + e.timeout))
  {
    if ClaimIndex(cfg, s.queue, e.now).Some? {
      ChosenIndex(cfg, s.queue, e.now);
      var c := ClaimIndex(cfg, s.queue, e.now).value;
      RewrittenTask(s.queue, c, Lease(s.queue.tasks[c], e.owner, e.now + e.timeout), id, after.queue);
    }
  }

  /** The other steps leave every known task but the one they name. */
  lemma TaskStep(cfg: Config, s: System, e: Event, id: string, after: System)
    requires IndexInv(s.queue) && !e.DoClaim? && after == Next(cfg, s, e) && Known(s.queue, id)
    ensures Known(after.queue, id)
    ensures e.DoEnqueue? || e.id != id ==> TaskOf(after.queue, id) == TaskOf(s.queue, id)
  {
    match e
    case DoEnqueue(i, key, p, r, m) => FindAppend(s.queue.tasks, NewTask(i, key, p, r, m), id);
    case DoComplete(i) =>
      if Known(s.queue, i) {
        RewrittenTask(s.queue, Find(s.queue.tasks, i), Freed(TaskOf(s.queue, i), Done), id, after.queue);
      }
    case DoFail(i, now) =>
      if Known(s.queue, i) {
        RewrittenTask(s.queue, Find(s.queue.tasks, i), Failed(cfg, TaskOf(s.queue, i), now), id, after.queue);
      }
  }

  lemma RewrittenTask(q: Queue, i: nat, t: Task, id: string, after: Queue)
    requires IndexInv(q) && i < |q.tasks| && t.id == q.tasks[i].id && after.tasks == q.tasks[i := t] && Known(q, id)
    ensures Known(after, id)
    ensures TaskOf(after, id) == if id == t.id then t else TaskOf(q, id)
    ensures id == t.id ==> TaskOf(q, id) == q.tasks[i]
  {
    FindUpdate(q.tasks, i, t, id);
    FindFirst(q.tasks, i);
  }

  lemma FinishedTaskStays(cfg: Config, s: System, e: Event, id: string, after: System)
    requires Inv(s) && Disciplined(s, e) && after == Next(cfg, s, e)
    requires Known(s.queue, id) && (TaskOf(s.queue, id).status == Done || TaskOf(s.queue, id).status == Dead)
    ensures Known(after.queue, id) && TaskOf(after.queue, id) == TaskOf(s.queue, id)
  {
    if e.DoClaim? { ClaimStep(cfg, s, e, id, after); } else { TaskStep(cfg, s, e, id, after); }
  }

  /** In every run, a task under a live lease with a named owner is not claimed again until it is finished. */
  lemma {:induction false} LiveLeaseHolds(cfg: Config, s: System, events: seq<Event>, id: string)
    requires IndexInv(s.queue) && FreshRun(cfg, s, events)
    requires Known(s.queue, id) && TaskOf(s.queue, id).status == Processing && TaskOf(s.queue, id).owner != ""
    requires forall e :: e in events && (e.DoComplete? || e.DoFail?) ==> e.id != id
    requires forall e :: e in events && e.DoClaim? ==> e.now < TaskOf(s.queue, id).leaseUntil
    ensures Known(Run(cfg, s, events).queue, id) && TaskOf(Run(cfg, s, events).queue, id) == TaskOf(s.queue, id)
    decreases |events|
  {
    if events != [] {
      assert events[0] in events;
      var after := Next(cfg, s, events[0]);
      StepKeepsIndex(cfg, s, events[0], after);
      if events[0].DoClaim? {
        ClaimStep(cfg, s, events[0], id, after);
      } else {
        TaskStep(cfg, s, events[0], id, after);
      }
      LiveLeaseHolds(cfg, after, events[1..], id);
    }
  }

  /** A `run_once` with nothing in between, a claim and at once its finish, keeps the discipline. */
  lemma RunOnceIsDisciplined(cfg: Config, s: System, owner: string, now: real, timeout: real, id: string,
                             succeeds: bool)
    requires Inv(s) && ClaimIndex(cfg, s.queue, now).Some?
    requires ClaimIndex(cfg, s.queue, now).value < |s.queue.tasks|
    requires id == s.queue.tasks[ClaimIndex(cfg, s.queue, now).value].id
    ensures DisciplinedRun(cfg, s, [DoClaim(owner, now, timeout), if succeeds then DoComplete(id) else DoFail(id, now)])
  {
    var claim, finish := DoClaim(owner, now, timeout), if succeeds then DoComplete(id) else DoFail(id, now);
    var after := Next(cfg, s, claim);
    var i := ClaimIndex(cfg, s.queue, now).value;
    FindFirst(s.queue.tasks, i);
    RewrittenTask(s.queue, i, Lease(s.queue.tasks[i], owner, now + timeout), id, after.queue);
    assert DisciplinedRun(cfg, Next(cfg, after, finish), []);
    assert [finish][1..] == [] && [claim, finish][1..] == [finish];
    assert DisciplinedRun(cfg, after, [finish]);
  }

  // ------------------------------------------------------------ late finishes

  /** A finish keeps the counts, the log and the dead-letter list in step exactly when it meets a task that is being
      processed or is done. */
  lemma FinishKeepsCountsExactly(cfg: Config, s: System, e: Event, after: System)
    requires Inv(s) && (e.DoComplete? || e.DoFail?) && Known(s.queue, e.id) && after == Next(cfg, s, e)
    ensures Inv(after) <==> TaskOf(s.queue, e.id).status == Processing || TaskOf(s.queue, e.id).status == Done
  {
    var t := TaskOf(s.queue, e.id);
    match t.status
    case Processing => FinishKeeps(cfg, s, e, after);
    case Done => FinishKeeps(cfg, s, e, after);
    case Queued => FinishingQueuedBreaks(cfg, s, e, after);
    case Dead =>
      assert e.id in s.queue.dead;
      FinishingADeadTask(cfg, s.queue, e.id, if e.DoFail? then e.now else 0.0);
  }

  /** The task then counts a completion or a failure that no execution stands for. */
  lemma FinishingQueuedBreaks(cfg: Config, s: System, e: Event, after: System)
    requires Inv(s) && (e.DoComplete? || e.DoFail?) && after == Next(cfg, s, e)
    requires Known(s.queue, e.id) && TaskOf(s.queue, e.id).status == Queued
    ensures !Inv(after)
  {
    var i := Find(s.queue.tasks, e.id);
    var entry := if e.DoComplete? then Completed(e.id) else FailedAt(e.id, e.now);
    LogGrows(s.log, entry, e.id);
    assert TaskInv(s.queue.tasks[i], s.log) && !TaskInv(after.queue.tasks[i], after.log);
  }

  /** Failing a dead task again puts it on the dead-letter list twice, and completing it makes it done while it stays on
      the list. */
  lemma FinishingADeadTask(cfg: Config, q: Queue, id: string, now: real)
    requires IndexInv(q) && DeadInv(q) && id in q.dead && TaskOf(q, id).attempts >= TaskOf(q, id).maxAttempts
    ensures !DeadInv(Fail(cfg, q, id, now)) && !DeadInv(Complete(q, id))
  {
    var i := Find(q.tasks, id);
    var k :| 0 <= k < |q.dead| && q.dead[k] == id;
    var failed := Fail(cfg, q, id, now);
    assert failed.dead[k] == failed.dead[|q.dead|];
    FindUpdate(q.tasks, i, Freed(q.tasks[i], Done), id);
    assert id in Complete(q, id).dead;
  }

  predicate Finished(status: Status) { status == Done || status == Dead }

  /** A finish undoes finality exactly when it fails a done task or completes a dead one. */
  lemma FinishUndoesFinalityExactly(cfg: Config, s: System, e: Event, after: System)
    requires Inv(s) && (e.DoComplete? || e.DoFail?) && Known(s.queue, e.id) && after == Next(cfg, s, e)
    ensures Known(after.queue, e.id)
    ensures var before, now := TaskOf(s.queue, e.id).status, TaskOf(after.queue, e.id).status;
            Finished(before) && now != before <==> (e.DoFail? && before == Done) || (e.DoComplete? && before == Dead)
  {
    var i := Find(s.queue.tasks, e.id);
    var t := if e.DoComplete? then Freed(s.queue.tasks[i], Done) else Failed(cfg, s.queue.tasks[i], e.now);
    RewrittenTask(s.queue, i, t, e.id, after.queue);
  }
}
