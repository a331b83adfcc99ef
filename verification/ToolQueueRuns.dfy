/** Runs of the tool queue: what a claim returns, what every run keeps, and what the driver's discipline adds. */
module ToolQueueRuns {
  import opened Foundations
  import opened ToolQueueModel

  // ------------------------------------------------------ what a claim returns

  /** Claiming prefers the lowest priority number and, among equals, the earliest inserted. */
  predicate Precedes(q: Queue, i: nat, j: nat)
    requires i < |q.tasks| && j < |q.tasks|
  {
    q.tasks[i].priority < q.tasks[j].priority || (q.tasks[i].priority == q.tasks[j].priority && i <= j)
  }

  lemma {:induction false} BestOfIsBest(cfg: Config, q: Queue, now: real, n: nat)
    requires n <= |q.tasks|
    ensures BestOf(cfg, q, now, n).Some? <==> exists j :: 0 <= j < n && Claimable(cfg, q, j, now)
    ensures BestOf(cfg, q, now, n).Some? ==>
      && Claimable(cfg, q, BestOf(cfg, q, now, n).value, now)
      && forall j :: 0 <= j < n && Claimable(cfg, q, j, now) ==> Precedes(q, BestOf(cfg, q, now, n).value, j)
  {
    if n > 0 { BestOfIsBest(cfg, q, now, n - 1); }
  }

  /** A claim returns the first of the eligible, unthrottled tasks, and nothing exactly when there is none. */
  lemma ClaimRefinesItsSpecification(cfg: Config, q: Queue, now: real, i: nat)
    requires i < |q.tasks|
    ensures ClaimIndex(cfg, q, now) == Some(i) <==>
      Claimable(cfg, q, i, now) && forall j :: 0 <= j < |q.tasks| && Claimable(cfg, q, j, now) ==> Precedes(q, i, j)
    ensures ClaimIndex(cfg, q, now) == None ==> !Claimable(cfg, q, i, now)
  {
    BestOfIsBest(cfg, q, now, |q.tasks|);
  }

  /** When an expired lease can be taken over: its key is empty, or below the cap counting the expired lease too. */
  lemma ExpiredLeaseClaimableIff(cfg: Config, q: Queue, i: nat, now: real)
    requires i < |q.tasks| && q.tasks[i].status == Processing && Eligible(q.tasks[i], now)
    ensures Claimable(cfg, q, i, now) <==>
      q.tasks[i].rateKey == "" || InFlight(q.tasks, q.tasks[i].rateKey) < Cap(cfg)
  {
  }

  // -------------------------------------------------------- counting and finding

  lemma {:induction false} InFlightUpdate(tasks: seq<Task>, i: nat, t: Task, rateKey: string)
    requires i < |tasks|
    ensures InFlight(tasks[i := t], rateKey) == InFlight(tasks, rateKey)
      + (if t.status == Processing && t.rateKey == rateKey then 1 else 0)
      - (if tasks[i].status == Processing && tasks[i].rateKey == rateKey then 1 else 0)
  {
    var last := |tasks| - 1;
    if i == last {
      assert tasks[i := t][..last] == tasks[..last];
    } else {
      assert tasks[i := t][..last] == tasks[..last][i := t];
      InFlightUpdate(tasks[..last], i, t, rateKey);
    }
  }

  ghost predicate UniqueIds(tasks: seq<Task>) {
    forall i, j :: 0 <= i < j < |tasks| ==> tasks[i].id != tasks[j].id
  }

  lemma {:induction false} FindIs(tasks: seq<Task>, id: string, i: nat)
    requires i <= |tasks| && (i < |tasks| ==> tasks[i].id == id)
    requires forall j :: 0 <= j < i ==> tasks[j].id != id
    ensures Find(tasks, id) == i
  {
    if i > 0 { FindIs(tasks[1..], id, i - 1); }
  }

  lemma FindFirst(tasks: seq<Task>, i: nat)
    requires UniqueIds(tasks) && i < |tasks|
    ensures Find(tasks, tasks[i].id) == i
  {
    FindIs(tasks, tasks[i].id, i);
  }

  lemma FindUpdate(tasks: seq<Task>, i: nat, t: Task, id: string)
    requires i < |tasks| && t.id == tasks[i].id
    ensures Find(tasks[i := t], id) == Find(tasks, id)
  {
    FindIs(tasks[i := t], id, Find(tasks, id));
  }

  lemma FindAppend(tasks: seq<Task>, t: Task, id: string)
    ensures Find(tasks + [t], id) ==
      if Find(tasks, id) < |tasks| || t.id == id then Find(tasks, id) else |tasks| + 1
  {
    FindIs(tasks + [t], id, if Find(tasks, id) < |tasks| || t.id == id then Find(tasks, id) else |tasks| + 1);
  }

  // ----------------------------------------------------------------- the cap

  ghost predicate WithinCap(cfg: Config, q: Queue) {
    forall k :: k != "" ==> InFlight(q.tasks, k) <= Cap(cfg)
  }

  lemma ChosenIndex(cfg: Config, q: Queue, now: real)
    requires ClaimIndex(cfg, q, now).Some?
    ensures ClaimIndex(cfg, q, now).value < |q.tasks| && Claimable(cfg, q, ClaimIndex(cfg, q, now).value, now)
  {
    BestOfIsBest(cfg, q, now, |q.tasks|);
  }

  lemma StepWithinCap(cfg: Config, s: System, e: Event)
    requires WithinCap(cfg, s.queue)
    ensures WithinCap(cfg, Next(cfg, s, e).queue)
  {
    var q, after := s.queue, Next(cfg, s, e).queue;
    forall k | k != "" ensures InFlight(after.tasks, k) <= Cap(cfg) {
      match e
      case DoEnqueue(_, _, _, _, _) =>
        if after.tasks != q.tasks { assert after.tasks[..|q.tasks|] == q.tasks; }
      case DoClaim(owner, now, timeout) =>
        if ClaimIndex(cfg, q, now).Some? {
          ChosenIndex(cfg, q, now);
          var i := ClaimIndex(cfg, q, now).value;
          InFlightUpdate(q.tasks, i, Lease(q.tasks[i], owner, now + timeout), k);
        }
      case DoComplete(id) =>
        if Known(q, id) { InFlightUpdate(q.tasks, Find(q.tasks, id), Freed(TaskOf(q, id), Done), k); }
      case DoFail(id, now) =>
        if Known(q, id) { InFlightUpdate(q.tasks, Find(q.tasks, id), Failed(cfg, TaskOf(q, id), now), k); }
    }
  }

  lemma {:induction false} RunWithinCap(cfg: Config, s: System, events: seq<Event>)
    requires WithinCap(cfg, s.queue)
    ensures WithinCap(cfg, Run(cfg, s, events).queue)
    decreases |events|
  {
    if events != [] {
      StepWithinCap(cfg, s, events[0]);
      RunWithinCap(cfg, Next(cfg, s, events[0]), events[1..]);
    }
  }

  /** In every reachable state at most the cap of each non-empty rate-limit key is being processed, whoever calls
      `complete` and `fail`, and whenever. */
  lemma ReachableWithinCap(cfg: Config, events: seq<Event>, rateKey: string)
    requires rateKey != ""
    ensures InFlight(Run(cfg, INITIAL, events).queue.tasks, rateKey) <= Cap(cfg)
  {
    RunWithinCap(cfg, INITIAL, events);
  }

  /** No step finishes a task of the key. */
  ghost predicate LeavesKeyAlone(s: System, e: Event, rateKey: string) {
    (e.DoComplete? || e.DoFail?) && Known(s.queue, e.id) ==> TaskOf(s.queue, e.id).rateKey != rateKey
  }

  ghost predicate KeyLeftAlone(cfg: Config, s: System, events: seq<Event>, rateKey: string)
    decreases |events|
  {
    events != [] ==>
      && LeavesKeyAlone(s, events[0], rateKey)
      && KeyLeftAlone(cfg, Next(cfg, s, events[0]), events[1..], rateKey)
  }

  /** A lost worker's task is not always claimable again: once crashed workers hold a key up to its cap, nothing with
      that key is claimed any more, however long the leases have been over, until a task of the key is finished. */
  lemma {:induction false} SaturatedKeyIsStuck(cfg: Config, s: System, events: seq<Event>, rateKey: string, i: nat,
                                               now: real)
    requires rateKey != "" && InFlight(s.queue.tasks, rateKey) >= Cap(cfg)
    requires KeyLeftAlone(cfg, s, events, rateKey)
    requires i < |Run(cfg, s, events).queue.tasks| && Run(cfg, s, events).queue.tasks[i].rateKey == rateKey
    ensures !Claimable(cfg, Run(cfg, s, events).queue, i, now)
    decreases |events|
  {
    if events != [] {
      SaturationStays(cfg, s, events[0], rateKey);
      SaturatedKeyIsStuck(cfg, Next(cfg, s, events[0]), events[1..], rateKey, i, now);
    }
  }

  lemma PairInFlight(t: Task, u: Task, rateKey: string)
    requires t.rateKey == u.rateKey == rateKey
    ensures InFlight([t, u], rateKey) ==
            (if t.status == Processing then 1 else 0) + (if u.status == Processing then 1 else 0)
  {
    assert [t, u][..1] == [t] && [t][..0] == [] && InFlight([], rateKey) == 0;
    assert InFlight([t], rateKey) == InFlight([t][..0], rateKey) + if t.status == Processing then 1 else 0;
    assert InFlight([t, u], rateKey) == InFlight([t, u][..1], rateKey) + if u.status == Processing then 1 else 0;
  }

  lemma PairClaimed(cfg: Config, t: Task, u: Task, q: Queue, after: Queue, rateKey: string, now: real)
    requires cfg.rateLimitMax == 1 && rateKey != "" && q.tasks == [t, u] && t.rateKey == u.rateKey == rateKey
    requires t.status == u.status == Queued && t.priority == u.priority && Eligible(t, 0.0)
    requires after == Claim(cfg, q, "worker", 0.0, 30.0)
    ensures after.tasks == [Lease(t, "worker", 30.0), u] && InFlight(after.tasks, rateKey) == 1
    ensures ClaimIndex(cfg, after, now) == None
  {
    PairInFlight(t, u, rateKey);
    ClaimRefinesItsSpecification(cfg, q, 0.0, 0);
    PairInFlight(Lease(t, "worker", 30.0), u, rateKey);
    BestOfIsBest(cfg, after, now, 2);
  }

  /** Such a state is reached with a cap of one, two tasks of one key and a single claim: when its lease is over, and
      for ever after, neither task can be claimed. */
  lemma SaturatedRun(cfg: Config, a: string, b: string, rateKey: string, now: real)
    requires cfg.rateLimitMax == 1 && a != b && rateKey != ""
    ensures var q := Run(cfg, INITIAL, [DoEnqueue(a, a, 5, rateKey, 3)] + ([DoEnqueue(b, b, 5, rateKey, 3)]
                                        + [DoClaim("worker", 0.0, 30.0)])).queue;
            && |q.tasks| == 2 && q.tasks[0].rateKey == q.tasks[1].rateKey == rateKey && q.tasks[0].leaseUntil == 30.0
            && InFlight(q.tasks, rateKey) == Cap(cfg) && ClaimIndex(cfg, q, now) == None
  {
    var first, second, claim := DoEnqueue(a, a, 5, rateKey, 3), DoEnqueue(b, b, 5, rateKey, 3),
                                DoClaim("worker", 0.0, 30.0);
    var t, u := NewTask(a, a, 5, rateKey, 3), NewTask(b, b, 5, rateKey, 3);
    var one := Next(cfg, INITIAL, first);
    assert one.queue.tasks == [t];
    var two := Next(cfg, one, second);
    assert two.queue.tasks == [t, u];
    var three := Next(cfg, two, claim);
    PairClaimed(cfg, t, u, two.queue, three.queue, rateKey, now);
    RunStep(cfg, INITIAL, first, [second] + [claim]);
    RunStep(cfg, one, second, [claim]);
    RunStep(cfg, two, claim, []);
    assert [claim] + [] == [claim];
  }

  lemma RunStep(cfg: Config, s: System, e: Event, rest: seq<Event>)
    ensures Run(cfg, s, [e] + rest) == Run(cfg, Next(cfg, s, e), rest)
  {
    assert ([e] + rest)[1..] == rest;
  }

  lemma SaturationStays(cfg: Config, s: System, e: Event, rateKey: string)
    requires rateKey != "" && LeavesKeyAlone(s, e, rateKey)
    ensures InFlight(Next(cfg, s, e).queue.tasks, rateKey) >= InFlight(s.queue.tasks, rateKey)
  {
    var q, after := s.queue, Next(cfg, s, e).queue;
    match e
    case DoEnqueue(_, _, _, _, _) =>
      if after.tasks != q.tasks { assert after.tasks[..|q.tasks|] == q.tasks; }
    case DoClaim(owner, now, timeout) =>
      if ClaimIndex(cfg, q, now).Some? {
        ChosenIndex(cfg, q, now);
        var i := ClaimIndex(cfg, q, now).value;
        InFlightUpdate(q.tasks, i, Lease(q.tasks[i], owner, now + timeout), rateKey);
      }
    case DoComplete(id) =>
      if Known(q, id) { InFlightUpdate(q.tasks, Find(q.tasks, id), Freed(TaskOf(q, id), Done), rateKey); }
    case DoFail(id, now) =>
      if Known(q, id) { InFlightUpdate(q.tasks, Find(q.tasks, id), Failed(cfg, TaskOf(q, id), now), rateKey); }
  }
}
