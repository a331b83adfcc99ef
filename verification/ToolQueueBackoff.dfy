/** Exponential backoff over whole runs: how early the m-th execution of a task can start. */
module ToolQueueBackoff {
  import opened Foundations
  import opened ToolQueueModel
  import opened ToolQueueLifecycle

  /** A failure is not dated before the claim it ends. Different tasks and workers need not agree on any order. */
  predicate InOrder(s: System, e: Event) {
    e.DoFail? && LastClaim(s.log, e.id).Some? ==> LastClaim(s.log, e.id).value <= e.now
  }

  ghost predicate OrderlyRun(cfg: Config, s: System, events: seq<Event>)
    decreases |events|
  {
    events != [] ==> InOrder(s, events[0]) && OrderlyRun(cfg, Next(cfg, s, events[0]), events[1..])
  }

  /** base * (2^f - 1): the sum of the first `f` backoffs. */
  function TotalBackoff(cfg: Config, f: nat): real {
    Base(cfg) * ((Pow2(f) - 1) as real)
  }

  lemma TotalBackoffStep(cfg: Config, f: nat)
    ensures TotalBackoff(cfg, f + 1) == TotalBackoff(cfg, f) + Backoff(cfg, f + 1)
  {
    var p := Pow2(f) as real;
    assert TotalBackoff(cfg, f + 1) == Base(cfg) * (2.0 * p - 1.0);
    assert Base(cfg) * (2.0 * p - 1.0) == Base(cfg) * (p - 1.0) + Base(cfg) * p;
  }

  ghost predicate ScheduledInv(cfg: Config, s: System, t: Task) {
    && (t.attempts >= 1 ==> FirstFailure(s.log, t.id).Some?)
    && (t.attempts == 0 ==> FirstFailure(s.log, t.id).None?)
    && (t.attempts >= 1 && (t.status == Queued || t.status == Processing) ==>
          t.scheduledAt >= FirstFailure(s.log, t.id).value + TotalBackoff(cfg, t.attempts))
    && (t.status == Processing ==> LastClaim(s.log, t.id).Some? && t.scheduledAt <= LastClaim(s.log, t.id).value)
  }

  /** What the log must show before a claim: with `f` failures behind it, it comes no earlier than the first of them
      plus base * (2^f - 1); and unless it takes over a lease, it is the (f + 1)-th execution, takeovers apart. */
  ghost predicate ClaimInv(cfg: Config, before: seq<Entry>, claim: Entry)
    requires claim.Claimed?
  {
    var f := Failures(before, claim.id);
    && (f >= 1 ==> FirstFailure(before, claim.id).Some?
                   && claim.now >= FirstFailure(before, claim.id).value + TotalBackoff(cfg, f))
    && (!claim.expired ==> Executions(before, claim.id) == f + Takeovers(before, claim.id))
  }

  ghost predicate BackoffInv(cfg: Config, s: System) {
    && (forall i :: 0 <= i < |s.queue.tasks| ==> ScheduledInv(cfg, s, s.queue.tasks[i]))
    && (forall k :: 0 <= k < |s.log| && s.log[k].Claimed? ==> ClaimInv(cfg, s.log[..k], s.log[k]))
  }

  lemma EntryKeepsClaims(cfg: Config, log: seq<Entry>, e: Entry)
    requires forall k :: 0 <= k < |log| && log[k].Claimed? ==> ClaimInv(cfg, log[..k], log[k])
    requires e.Claimed? ==> ClaimInv(cfg, log, e)
    ensures forall k :: 0 <= k < |log + [e]| && (log + [e])[k].Claimed? ==>
        ClaimInv(cfg, (log + [e])[..k], (log + [e])[k])
  {
    forall k | 0 <= k < |log + [e]| && (log + [e])[k].Claimed? ensures ClaimInv(cfg, (log + [e])[..k], (log + [e])[k]) {
      assert (log + [e])[..k] == log[..k] || k == |log|;
      assert (log + [e])[..|log|] == log;
      if k < |log| { assert ClaimInv(cfg, log[..k], log[k]); }
    }
  }

  lemma RewriteKeepsBackoff(cfg: Config, s: System, i: nat, t: Task, e: Entry, after: System)
    requires Inv(s) && BackoffInv(cfg, s) && Rewrites(s, i, t, e, after)
    requires ScheduledInv(cfg, after, t) && (e.Claimed? ==> ClaimInv(cfg, s.log, e))
    ensures BackoffInv(cfg, after)
  {
    EntryKeepsClaims(cfg, s.log, e);
    forall j | 0 <= j < |s.queue.tasks| ensures ScheduledInv(cfg, after, after.queue.tasks[j]) {
      if j != i {
        assert ScheduledInv(cfg, s, s.queue.tasks[j]);
        LogGrows(s.log, e, s.queue.tasks[j].id);
      }
    }
  }

  lemma LeasedTask(cfg: Config, s: System, t: Task, leased: Task, entry: Entry, after: System)
    requires TaskInv(t, s.log) && ScheduledInv(cfg, s, t) && (t.status == Queued || t.status == Processing)
    requires entry.Claimed? && entry.id == t.id && entry.expired == (t.status == Processing)
        && entry.now >= t.scheduledAt
    requires leased == Lease(t, leased.owner, leased.leaseUntil)
    requires after.log == s.log + [entry]
    ensures ScheduledInv(cfg, after, leased) && ClaimInv(cfg, s.log, entry)
  {
    LogGrows(s.log, entry, t.id);
  }

  lemma FailedTask(cfg: Config, s: System, t: Task, now: real, after: System)
    requires TaskInv(t, s.log) && ScheduledInv(cfg, s, t) && t.status == Processing && InOrder(s, DoFail(t.id, now))
    requires after.log == s.log + [FailedAt(t.id, now)]
    ensures ScheduledInv(cfg, after, Failed(cfg, t, now))
  {
    LogGrows(s.log, FailedAt(t.id, now), t.id);
    TotalBackoffStep(cfg, t.attempts);
    assert TotalBackoff(cfg, 0) == 0.0;
  }

  lemma ClaimKeepsBackoff(cfg: Config, s: System, e: Event, after: System)
    requires Inv(s) && BackoffInv(cfg, s) && e.DoClaim? && after == Next(cfg, s, e)
    ensures BackoffInv(cfg, after)
  {
    if ClaimIndex(cfg, s.queue, e.now).Some? {
      ClaimRewrites(cfg, s, e.owner, e.now, e.timeout, after);
      var i := ClaimIndex(cfg, s.queue, e.now).value;
      var t := s.queue.tasks[i];
      var entry := Claimed(t.id, e.now, t.status == Processing);
      LeaseKeepsBackoff(cfg, s, i, Lease(t, e.owner, e.now + e.timeout), entry, after);
    } else {
      assert after.log == s.log;
      SameQueueKeepsBackoff(cfg, s, after);
    }
  }

  lemma LeaseKeepsBackoff(cfg: Config, s: System, i: nat, leased: Task, entry: Entry, after: System)
    requires Inv(s) && BackoffInv(cfg, s) && Rewrites(s, i, leased, entry, after) && entry.Claimed?
    requires var t := s.queue.tasks[i];
             && (t.status == Queued || t.status == Processing) && leased == Lease(t, leased.owner, leased.leaseUntil)
             && entry.id == t.id && entry.expired == (t.status == Processing) && entry.now >= t.scheduledAt
    ensures BackoffInv(cfg, after)
  {
    assert ScheduledInv(cfg, s, s.queue.tasks[i]);
    LeasedTask(cfg, s, s.queue.tasks[i], leased, entry, after);
    RewriteKeepsBackoff(cfg, s, i, leased, entry, after);
  }

  lemma SameQueueKeepsBackoff(cfg: Config, s: System, after: System)
    requires BackoffInv(cfg, s) && after.queue.tasks == s.queue.tasks && after.log == s.log
    ensures BackoffInv(cfg, after)
  {
    forall j | 0 <= j < |s.queue.tasks| ensures ScheduledInv(cfg, after, after.queue.tasks[j]) {
      assert ScheduledInv(cfg, s, s.queue.tasks[j]);
    }
  }

  lemma FailKeepsBackoff(cfg: Config, s: System, id: string, now: real, after: System)
    requires Inv(s) && BackoffInv(cfg, s) && InOrder(s, DoFail(id, now)) && after == Next(cfg, s, DoFail(id, now))
    requires Known(s.queue, id) && TaskOf(s.queue, id).status == Processing
    ensures BackoffInv(cfg, after)
  {
    var i := Find(s.queue.tasks, id);
    var t := s.queue.tasks[i];
    FailedTask(cfg, s, t, now, after);
    RewriteKeepsBackoff(cfg, s, i, Failed(cfg, t, now), FailedAt(id, now), after);
  }

  lemma CompleteKeepsBackoff(cfg: Config, s: System, id: string, after: System)
    requires Inv(s) && BackoffInv(cfg, s) && after == Next(cfg, s, DoComplete(id)) && Known(s.queue, id)
    ensures BackoffInv(cfg, after)
  {
    var i := Find(s.queue.tasks, id);
    var t := s.queue.tasks[i];
    assert ScheduledInv(cfg, s, t);
    LogGrows(s.log, Completed(id), id);
    RewriteKeepsBackoff(cfg, s, i, Freed(t, Done), Completed(id), after);
  }

  lemma EnqueueKeepsBackoff(cfg: Config, s: System, e: Event, after: System)
    requires Inv(s) && BackoffInv(cfg, s) && Disciplined(s, e) && e.DoEnqueue? && after == Next(cfg, s, e)
    ensures BackoffInv(cfg, after)
  {
    if Enqueued(s.queue, e.key) {
      SameQueueKeepsBackoff(cfg, s, after);
    } else {
      UnknownHasNoHistory(s.log, e.id);
      forall j | 0 <= j < |after.queue.tasks| ensures ScheduledInv(cfg, after, after.queue.tasks[j]) {
        if j < |s.queue.tasks| { assert ScheduledInv(cfg, s, s.queue.tasks[j]); }
      }
    }
  }

  lemma StepKeepsBackoff(cfg: Config, s: System, e: Event, after: System)
    requires Inv(s) && BackoffInv(cfg, s) && Disciplined(s, e) && after == Next(cfg, s, e)
    requires InOrder(s, e)
    ensures BackoffInv(cfg, after)
  {
    match e
    case DoEnqueue(_, _, _, _, _) => EnqueueKeepsBackoff(cfg, s, e, after);
    case DoClaim(_, _, _) => ClaimKeepsBackoff(cfg, s, e, after);
    case DoComplete(id) =>
      if Known(s.queue, id) { CompleteKeepsBackoff(cfg, s, id, after); } else { SameQueueKeepsBackoff(cfg, s, after); }
    case DoFail(id, now) =>
      if Known(s.queue, id) { FailKeepsBackoff(cfg, s, id, now, after); } else { SameQueueKeepsBackoff(cfg, s, after); }
  }

  lemma {:induction false} RunKeepsBackoff(cfg: Config, s: System, events: seq<Event>)
    requires Inv(s) && BackoffInv(cfg, s) && DisciplinedRun(cfg, s, events) && OrderlyRun(cfg, s, events)
    ensures BackoffInv(cfg, Run(cfg, s, events))
    decreases |events|
  {
    if events != [] {
      StepKeeps(cfg, s, events[0], Next(cfg, s, events[0]));
      StepKeepsBackoff(cfg, s, events[0], Next(cfg, s, events[0]));
      RunKeepsBackoff(cfg, Next(cfg, s, events[0]), events[1..]);
    }
  }

  /** In every disciplined run in which no failure is dated before its claim, an execution that is the m-th of its
      task, takeovers of expired leases apart, is claimed at least base * (2^(m-1) - 1) after the date of the first
      failure. */
  lemma BackoffLowerBound(cfg: Config, events: seq<Event>, k: nat, m: nat)
    requires DisciplinedRun(cfg, INITIAL, events) && OrderlyRun(cfg, INITIAL, events)
    requires var log := Run(cfg, INITIAL, events).log;
             k < |log| && log[k].Claimed? && !log[k].expired && m >= 2
             && m == Executions(log[..k], log[k].id) - Takeovers(log[..k], log[k].id) + 1
    ensures var log := Run(cfg, INITIAL, events).log;
            && FirstFailure(log[..k], log[k].id).Some?
            && log[k].now >= FirstFailure(log[..k], log[k].id).value + Base(cfg) * ((Pow2(m - 1) - 1) as real)
  {
    RunKeepsBackoff(cfg, INITIAL, events);
    var log := Run(cfg, INITIAL, events).log;
    assert ClaimInv(cfg, log[..k], log[k]);
  }
}
