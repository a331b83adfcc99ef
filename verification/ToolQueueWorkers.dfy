/** Workers that share the queue. A `run_once` is two moves, a claim and the finish of what it claimed, and the moves of
    any number of workers interleave; a worker that never settles has crashed. A move has a moment, `at`, and the time
    it hands to the queue, `now`. The loop of a worker takes `now` before the claim and hands the same to `fail`; a
    `run_once` without an argument hands each call the moment it is made. */
module ToolQueueWorkers {
  import opened Foundations
  import opened ToolQueueModel
  import opened ToolQueueRuns
  import opened ToolQueueLifecycle
  import opened ToolQueueBackoff

  /** The workers' names and visibility timeouts. */
  datatype Crew = Crew(name: nat -> string, timeout: nat -> real)

  /** What a worker has claimed, the time it gave to that claim, and when the lease is over. */
  datatype Hold = Hold(id: string, since: real, until: real)

  datatype Fleet = Fleet(s: System, holding: map<nat, Hold>, clock: real)

  datatype Move =
    | Submit(id: string, key: string, priority: int, rateKey: string, maxAttempts: int)
    | Take(w: nat, at: real, now: real)
    | Settle(w: nat, succeeds: bool, at: real, now: real)

  const START := Fleet(INITIAL, map[], 0.0)

  /** The call a move makes on the queue; a worker has at most one task in hand, and settles only what it has. */
  function Calls(crew: Crew, f: Fleet, m: Move): seq<Event> {
    match m
    case Submit(id, key, priority, rateKey, maxAttempts) => [DoEnqueue(id, key, priority, rateKey, maxAttempts)]
    case Take(w, _, now) => if w in f.holding then [] else [DoClaim(crew.name(w), now, crew.timeout(w))]
    case Settle(w, succeeds, _, now) =>
      if w !in f.holding then []
      else [if succeeds then DoComplete(f.holding[w].id) else DoFail(f.holding[w].id, now)]
  }

  function HoldingAfter(cfg: Config, crew: Crew, f: Fleet, m: Move): map<nat, Hold> {
    match m
    case Submit(_, _, _, _, _) => f.holding
    case Take(w, _, now) =>
      var i := ClaimIndex(cfg, f.s.queue, now);
      if w in f.holding || i.None? || i.value >= |f.s.queue.tasks| then f.holding
      else f.holding[w := Hold(f.s.queue.tasks[i.value].id, now, now + crew.timeout(w))]
    case Settle(w, _, _, _) => f.holding - {w}
  }

  function Time(f: Fleet, m: Move): real { if m.Submit? then f.clock else m.at }

  function Moved(cfg: Config, crew: Crew, f: Fleet, m: Move): Fleet {
    Fleet(Run(cfg, f.s, Calls(crew, f, m)), HoldingAfter(cfg, crew, f, m), Time(f, m))
  }

  function Crewed(cfg: Config, crew: Crew, f: Fleet, moves: seq<Move>): Fleet
    decreases |moves|
  {
    if moves == [] then f else Crewed(cfg, crew, Moved(cfg, crew, f, moves[0]), moves[1..])
  }

  /** The calls of a whole run. */
  function AllCalls(cfg: Config, crew: Crew, f: Fleet, moves: seq<Move>): seq<Event>
    decreases |moves|
  {
    if moves == [] then []
    else Calls(crew, f, moves[0]) + AllCalls(cfg, crew, Moved(cfg, crew, f, moves[0]), moves[1..])
  }

  lemma {:induction false} RunConcat(cfg: Config, s: System, a: seq<Event>, b: seq<Event>)
    ensures Run(cfg, s, a + b) == Run(cfg, Run(cfg, s, a), b)
    decreases |a|
  {
    if a == [] {
      assert a + b == b;
    } else {
      assert (a + b)[1..] == a[1..] + b;
      RunConcat(cfg, Next(cfg, s, a[0]), a[1..], b);
    }
  }

  /** A fleet's queue is the queue after its calls. */
  lemma {:induction false} CrewedIsRun(cfg: Config, crew: Crew, f: Fleet, moves: seq<Move>)
    ensures Crewed(cfg, crew, f, moves).s == Run(cfg, f.s, AllCalls(cfg, crew, f, moves))
    decreases |moves|
  {
    if moves != [] {
      var next := Moved(cfg, crew, f, moves[0]);
      CrewedIsRun(cfg, crew, next, moves[1..]);
      RunConcat(cfg, f.s, Calls(crew, f, moves[0]), AllCalls(cfg, crew, next, moves[1..]));
    }
  }

  // ---------------------------------------------------------------- punctuality

  /** What every caller can see to: fresh ids, moments that do not run backwards, claims that are not dated ahead, and
      workers that have a name and do not finish a task once its lease is over. A failure may be dated at any time from
      its claim's own date, as in the loop, to the moment it is reported, as without an argument. */
  predicate Punctual(crew: Crew, f: Fleet, m: Move) {
    match m
    case Submit(id, _, _, _, _) => !Known(f.s.queue, id)
    case Take(w, at, now) => f.clock <= at && now <= at && crew.name(w) != ""
    case Settle(w, _, at, now) =>
      f.clock <= at && (w in f.holding ==> at < f.holding[w].until && f.holding[w].since <= now <= at)
  }

  ghost predicate PunctualRun(cfg: Config, crew: Crew, f: Fleet, moves: seq<Move>)
    decreases |moves|
  {
    moves != [] ==> Punctual(crew, f, moves[0]) && PunctualRun(cfg, crew, Moved(cfg, crew, f, moves[0]), moves[1..])
  }

  predicate Live(f: Fleet, w: nat) { w in f.holding && f.clock < f.holding[w].until }

  /** The task under a live lease is being processed, and the lease and the latest claim are still this one. */
  predicate Held(s: System, h: Hold) {
    && Known(s.queue, h.id) && TaskOf(s.queue, h.id).status == Processing
    && TaskOf(s.queue, h.id).owner != "" && TaskOf(s.queue, h.id).leaseUntil == h.until
    && LastClaim(s.log, h.id) == Some(h.since)
  }

  ghost predicate HoldsInv(f: Fleet) {
    && (forall w :: Live(f, w) ==> Held(f.s, f.holding[w]))
    && (forall v, w :: Live(f, v) && Live(f, w) && v != w ==> f.holding[v].id != f.holding[w].id)
  }

  ghost predicate FleetInv(f: Fleet) {
    Inv(f.s) && HoldsInv(f)
  }

  lemma OneCall(cfg: Config, s: System, e: Event)
    ensures Run(cfg, s, [e]) == Next(cfg, s, e)
  {
    assert [e][1..] == [];
  }

  /** Another worker's live lease stands whatever a worker takes. */
  lemma TakeLeavesHeld(cfg: Config, s: System, e: Event, h: Hold, after: System)
    requires Inv(s) && e.DoClaim? && after == Next(cfg, s, e) && Held(s, h) && e.now < h.until
    ensures Held(after, h)
    ensures ClaimIndex(cfg, s.queue, e.now).Some? ==>
              ClaimIndex(cfg, s.queue, e.now).value < |s.queue.tasks|
              && s.queue.tasks[ClaimIndex(cfg, s.queue, e.now).value].id != h.id
  {
    ClaimStep(cfg, s, e, h.id, after);
    if ClaimIndex(cfg, s.queue, e.now).Some? {
      ClaimRewrites(cfg, s, e.owner, e.now, e.timeout, after);
      var t := s.queue.tasks[ClaimIndex(cfg, s.queue, e.now).value];
      FindFirst(s.queue.tasks, ClaimIndex(cfg, s.queue, e.now).value);
      LogGrows(s.log, Claimed(t.id, e.now, t.status == Processing), h.id);
    } else {
      assert after.log == s.log;
    }
  }

  lemma TakenIsHeld(cfg: Config, s: System, e: Event, after: System)
    requires Inv(s) && e.DoClaim? && e.owner != "" && after == Next(cfg, s, e)
    requires ClaimIndex(cfg, s.queue, e.now).Some?
    ensures var i := ClaimIndex(cfg, s.queue, e.now).value;
            i < |s.queue.tasks| && Held(after, Hold(s.queue.tasks[i].id, e.now, e.now + e.timeout))
  {
    ClaimRewrites(cfg, s, e.owner, e.now, e.timeout, after);
    var i := ClaimIndex(cfg, s.queue, e.now).value;
    FindFirst(s.queue.tasks, i);
    LogGrows(s.log, Claimed(s.queue.tasks[i].id, e.now, s.queue.tasks[i].status == Processing), s.queue.tasks[i].id);
    RewrittenTask(s.queue, i, Lease(s.queue.tasks[i], e.owner, e.now + e.timeout), s.queue.tasks[i].id, after.queue);
  }

  lemma TakeShape(cfg: Config, crew: Crew, f: Fleet, m: Move, e: Event, after: Fleet)
    requires m.Take? && m.w !in f.holding && after == Moved(cfg, crew, f, m)
    requires e == DoClaim(crew.name(m.w), m.now, crew.timeout(m.w))
    ensures Calls(crew, f, m) == [e] && after.s == Next(cfg, f.s, e) && after.clock == m.at
    ensures var i := ClaimIndex(cfg, f.s.queue, e.now);
            after.holding == if i.None? || i.value >= |f.s.queue.tasks| then f.holding
                             else f.holding[m.w := Hold(f.s.queue.tasks[i.value].id, e.now, e.now + e.timeout)]
  {
    OneCall(cfg, f.s, e);
  }

  /** A hold of another worker that is live after a claim was live before it, and is of another task. */
  lemma OtherHoldStands(cfg: Config, f: Fleet, e: Event, after: Fleet, w: nat)
    requires FleetInv(f) && e.DoClaim? && after.s == Next(cfg, f.s, e) && f.clock <= after.clock && e.now <= after.clock
    requires w in f.holding && w in after.holding && after.holding[w] == f.holding[w] && Live(after, w)
    ensures Live(f, w) && Held(after.s, f.holding[w])
    ensures ClaimIndex(cfg, f.s.queue, e.now).Some? ==>
              ClaimIndex(cfg, f.s.queue, e.now).value < |f.s.queue.tasks|
              && f.s.queue.tasks[ClaimIndex(cfg, f.s.queue, e.now).value].id != f.holding[w].id
  {
    TakeLeavesHeld(cfg, f.s, e, f.holding[w], after.s);
  }

  lemma TakeKeepsHolds(cfg: Config, f: Fleet, e: Event, taker: nat, after: Fleet)
    requires FleetInv(f) && e.DoClaim? && e.owner != "" && taker !in f.holding
    requires after.s == Next(cfg, f.s, e) && f.clock <= after.clock && e.now <= after.clock
    requires var i := ClaimIndex(cfg, f.s.queue, e.now);
             after.holding == if i.None? || i.value >= |f.s.queue.tasks| then f.holding
                              else f.holding[taker := Hold(f.s.queue.tasks[i.value].id, e.now, e.now + e.timeout)]
    ensures HoldsInv(after)
  {
    if taker in after.holding { TakenIsHeld(cfg, f.s, e, after.s); }
    forall w | w != taker && Live(after, w)
      ensures Live(f, w) && Held(after.s, after.holding[w])
              && (taker in after.holding ==> after.holding[w].id != after.holding[taker].id)
    {
      OtherHoldStands(cfg, f, e, after, w);
    }
  }

  lemma TakeKeeps(cfg: Config, crew: Crew, f: Fleet, m: Move, after: Fleet)
    requires FleetInv(f) && m.Take? && Punctual(crew, f, m) && m.w !in f.holding && after == Moved(cfg, crew, f, m)
    ensures FleetInv(after)
  {
    var e := DoClaim(crew.name(m.w), m.now, crew.timeout(m.w));
    TakeShape(cfg, crew, f, m, e, after);
    StepKeeps(cfg, f.s, e, after.s);
    TakeKeepsHolds(cfg, f, e, m.w, after);
  }

  lemma SettleKeeps(cfg: Config, crew: Crew, f: Fleet, m: Move, e: Event, after: Fleet)
    requires FleetInv(f) && m.Settle? && Punctual(crew, f, m) && m.w in f.holding && after == Moved(cfg, crew, f, m)
    requires Calls(crew, f, m) == [e]
    ensures FleetInv(after) && Disciplined(f.s, e) && InOrder(f.s, e)
  {
    assert Live(f, m.w);
    OneCall(cfg, f.s, e);
    StepKeeps(cfg, f.s, e, after.s);
    forall w | Live(after, w) ensures Live(f, w) && Held(after.s, after.holding[w]) {
      TaskStep(cfg, f.s, e, f.holding[w].id, after.s);
      LogGrows(f.s.log, after.s.log[|f.s.log|], f.holding[w].id);
    }
  }

  lemma SubmitKeeps(cfg: Config, crew: Crew, f: Fleet, m: Move, e: Event, after: Fleet)
    requires FleetInv(f) && m.Submit? && Punctual(crew, f, m) && after == Moved(cfg, crew, f, m)
    requires Calls(crew, f, m) == [e]
    ensures FleetInv(after)
  {
    OneCall(cfg, f.s, e);
    StepKeeps(cfg, f.s, e, after.s);
    forall w | Live(after, w) ensures Live(f, w) && Held(after.s, after.holding[w]) {
      TaskStep(cfg, f.s, e, f.holding[w].id, after.s);
    }
  }

  /** A punctual move keeps the leases in order, and its call the queue's discipline and the order of dates. */
  lemma MoveKeeps(cfg: Config, crew: Crew, f: Fleet, m: Move, after: Fleet)
    requires FleetInv(f) && Punctual(crew, f, m) && after == Moved(cfg, crew, f, m)
    ensures FleetInv(after)
    ensures forall e :: e in Calls(crew, f, m) ==> Disciplined(f.s, e) && InOrder(f.s, e)
  {
    if Calls(crew, f, m) == [] {
      IdleKeeps(cfg, crew, f, m, after);
    } else if m.Take? {
      TakeKeeps(cfg, crew, f, m, after);
    } else if m.Settle? {
      SettleKeeps(cfg, crew, f, m, Calls(crew, f, m)[0], after);
    } else {
      SubmitKeeps(cfg, crew, f, m, Calls(crew, f, m)[0], after);
    }
  }

  lemma IdleKeeps(cfg: Config, crew: Crew, f: Fleet, m: Move, after: Fleet)
    requires FleetInv(f) && Punctual(crew, f, m) && Calls(crew, f, m) == [] && after == Moved(cfg, crew, f, m)
    ensures FleetInv(after)
  {
    assert after.s == f.s;
    assert after.holding == f.holding;
    assert forall w :: Live(after, w) ==> Live(f, w);
  }

  lemma RunFirst(cfg: Config, s: System, calls: seq<Event>, rest: seq<Event>)
    requires |calls| <= 1 && (calls != [] ==> Disciplined(s, calls[0]) && InOrder(s, calls[0]))
    requires DisciplinedRun(cfg, Run(cfg, s, calls), rest) && OrderlyRun(cfg, Run(cfg, s, calls), rest)
    ensures DisciplinedRun(cfg, s, calls + rest) && OrderlyRun(cfg, s, calls + rest)
  {
    if calls == [] {
      assert calls + rest == rest;
    } else {
      OneCall(cfg, s, calls[0]);
      assert calls == [calls[0]];
      assert (calls + rest)[1..] == rest;
    }
  }

  /** Named workers that settle within their leases keep the discipline, however their moves interleave and however many
      of them crash: so every result about disciplined runs holds for them. */
  lemma {:induction false} PunctualWorkersAreDisciplined(cfg: Config, crew: Crew, f: Fleet, moves: seq<Move>)
    requires FleetInv(f) && PunctualRun(cfg, crew, f, moves)
    ensures DisciplinedRun(cfg, f.s, AllCalls(cfg, crew, f, moves))
    ensures OrderlyRun(cfg, f.s, AllCalls(cfg, crew, f, moves))
    ensures FleetInv(Crewed(cfg, crew, f, moves))
    decreases |moves|
  {
    if moves != [] {
      var after := Moved(cfg, crew, f, moves[0]);
      MoveKeeps(cfg, crew, f, moves[0], after);
      PunctualWorkersAreDisciplined(cfg, crew, after, moves[1..]);
      RunFirst(cfg, f.s, Calls(crew, f, moves[0]), AllCalls(cfg, crew, after, moves[1..]));
    }
  }

  // ------------------------------------------------------ results for workers

  /** From any state of a punctual fleet, a task that is done or dead stays as it is over every further punctual run. */
  lemma WorkersKeepFinality(cfg: Config, crew: Crew, f: Fleet, moves: seq<Move>, id: string, after: Fleet)
    requires FleetInv(f) && PunctualRun(cfg, crew, f, moves) && after == Crewed(cfg, crew, f, moves)
    requires Known(f.s.queue, id) && Finished(TaskOf(f.s.queue, id).status)
    ensures Known(after.s.queue, id) && TaskOf(after.s.queue, id) == TaskOf(f.s.queue, id)
  {
    PunctualWorkersAreDisciplined(cfg, crew, f, moves);
    CrewedIsRun(cfg, crew, f, moves);
    DoneAndDeadAreFinal(cfg, f.s, AllCalls(cfg, crew, f, moves), id);
  }

  lemma CountsHold(s: System, i: nat)
    requires Inv(s) && i < |s.queue.tasks|
    ensures var t, log := s.queue.tasks[i], s.log;
            && Executions(log, t.id) == t.attempts + Takeovers(log, t.id)
                 + (if t.status == Done || t.status == Processing then 1 else 0)
            && Executions(log, t.id) - Takeovers(log, t.id) <= Max(1, t.maxAttempts)
            && (t.status == Dead <==> t.id in s.queue.dead)
    ensures forall a, b :: 0 <= a < b < |s.queue.dead| ==> s.queue.dead[a] != s.queue.dead[b]
  {
    assert TaskInv(s.queue.tasks[i], s.log);
    FindFirst(s.queue.tasks, i);
  }

  /** Whatever punctual workers do, a task runs once for each failed attempt and once more when it is done or under
      way, takeovers of crashed workers' leases apart: never more than its allowance; and the dead-letter list holds
      each dead task exactly once. */
  lemma WorkersKeepCounts(cfg: Config, crew: Crew, moves: seq<Move>, f: Fleet, i: nat)
    requires PunctualRun(cfg, crew, START, moves) && f == Crewed(cfg, crew, START, moves) && i < |f.s.queue.tasks|
    ensures var t, log := f.s.queue.tasks[i], f.s.log;
            && Executions(log, t.id) == t.attempts + Takeovers(log, t.id)
                 + (if t.status == Done || t.status == Processing then 1 else 0)
            && Executions(log, t.id) - Takeovers(log, t.id) <= Max(1, t.maxAttempts)
            && (t.status == Dead <==> t.id in f.s.queue.dead)
    ensures forall a, b :: 0 <= a < b < |f.s.queue.dead| ==> f.s.queue.dead[a] != f.s.queue.dead[b]
  {
    PunctualWorkersAreDisciplined(cfg, crew, START, moves);
    CountsHold(f.s, i);
  }

  // -------------------------------------------------------------- late workers

  /** What a worker's settling meets decides what it does, late or not. It keeps the counts exactly when the task is
      still being processed or already done, and undoes finality exactly when it fails a done task or completes a dead
      one. A punctual worker always meets its task being processed. */
  lemma SettlingExactly(cfg: Config, crew: Crew, f: Fleet, m: Move, after: Fleet)
    requires Inv(f.s) && m.Settle? && m.w in f.holding && Known(f.s.queue, f.holding[m.w].id)
    requires after == Moved(cfg, crew, f, m)
    ensures var id := f.holding[m.w].id; var before := TaskOf(f.s.queue, id).status;
            && (Inv(after.s) <==> before == Processing || before == Done)
            && Known(after.s.queue, id)
            && (Finished(before) && TaskOf(after.s.queue, id).status != before <==>
                  (!m.succeeds && before == Done) || (m.succeeds && before == Dead))
            && (HoldsInv(f) && Punctual(crew, f, m) ==> before == Processing)
  {
    var e := Calls(crew, f, m)[0];
    OneCall(cfg, f.s, e);
    FinishKeepsCountsExactly(cfg, f.s, e, after.s);
    FinishUndoesFinalityExactly(cfg, f.s, e, after.s);
    assert HoldsInv(f) && Punctual(crew, f, m) ==> Live(f, m.w);
  }

  function Name(w: nat): string { "worker" }

  function Timeout(w: nat): real { 30.0 }

  const CREW := Crew(Name, Timeout)

  /** A queue that holds one task without a rate-limit key. */
  lemma OneTaskIsClaimed(cfg: Config, s: System, t: Task, owner: string, now: real, timeout: real)
    requires s.queue.tasks == [t] && t.rateKey == "" && Eligible(t, now)
    ensures ClaimIndex(cfg, s.queue, now) == Some(0)
    ensures Next(cfg, s, DoClaim(owner, now, timeout)) ==
            System(s.queue.(tasks := [Lease(t, owner, now + timeout)]),
                   s.log + [Claimed(t.id, now, t.status == Processing)])
  {
    ClaimRefinesItsSpecification(cfg, s.queue, now, 0);
    assert [t][0 := Lease(t, owner, now + timeout)] == [Lease(t, owner, now + timeout)];
  }

  /** A run, one move at a time. */
  lemma FirstMove(cfg: Config, crew: Crew, f: Fleet, m: Move, rest: seq<Move>)
    ensures Crewed(cfg, crew, f, [m] + rest) == Crewed(cfg, crew, Moved(cfg, crew, f, m), rest)
  {
    assert ([m] + rest)[1..] == rest;
  }

  function Leased(id: string, key: string, until: real): Task {
    Task(id, key, 5, "", 3, 0, Processing, "worker", until, 0.0)
  }

  /** A claim of the one task there is, by a worker with nothing in hand. */
  lemma TakesTheTask(cfg: Config, f: Fleet, t: Task, w: nat, at: real, now: real, after: Fleet)
    requires f.s.queue.tasks == [t] && t.rateKey == "" && Eligible(t, now) && w !in f.holding
    requires after == Moved(cfg, CREW, f, Take(w, at, now))
    ensures after.s == System(f.s.queue.(tasks := [Lease(t, "worker", now + 30.0)]),
                              f.s.log + [Claimed(t.id, now, t.status == Processing)])
    ensures after.holding == f.holding[w := Hold(t.id, now, now + 30.0)]
    ensures after.clock == at
  {
    OneTaskIsClaimed(cfg, f.s, t, "worker", now, 30.0);
    OneCall(cfg, f.s, DoClaim("worker", now, 30.0));
  }

  /** Two workers have the task in hand; the lease of the first is over. */
  lemma TakenTwice(cfg: Config, id: string, key: string) returns (f: Fleet)
    ensures forall rest ::
      Crewed(cfg, CREW, START, [Submit(id, key, 5, "", 3)] + ([Take(0, 0.0, 0.0)] + ([Take(1, 31.0, 31.0)] + rest)))
      == Crewed(cfg, CREW, f, rest)
    ensures f.s.queue.tasks == [Leased(id, key, 61.0)]
    ensures f.s.log == [Claimed(id, 0.0, false), Claimed(id, 31.0, true)]
    ensures f.holding == map[0 := Hold(id, 0.0, 30.0), 1 := Hold(id, 31.0, 61.0)]
  {
    var submit, first, second := Submit(id, key, 5, "", 3), Take(0, 0.0, 0.0), Take(1, 31.0, 31.0);
    var a := Moved(cfg, CREW, START, submit);
    OneCall(cfg, INITIAL, DoEnqueue(id, key, 5, "", 3));
    assert a.s.queue.tasks == [NewTask(id, key, 5, "", 3)];
    var b := Moved(cfg, CREW, a, first);
    TakesTheTask(cfg, a, NewTask(id, key, 5, "", 3), 0, 0.0, 0.0, b);
    f := Moved(cfg, CREW, b, second);
    TakesTheTask(cfg, b, Leased(id, key, 30.0), 1, 31.0, 31.0, f);
    forall rest
      ensures Crewed(cfg, CREW, START, [submit] + ([first] + ([second] + rest))) == Crewed(cfg, CREW, f, rest)
    {
      FirstMove(cfg, CREW, START, submit, [first] + ([second] + rest));
      FirstMove(cfg, CREW, a, first, [second] + rest);
      FirstMove(cfg, CREW, b, second, rest);
    }
  }

  /** Settling the one task there is. */
  lemma SettlesTheTask(cfg: Config, f: Fleet, t: Task, w: nat, succeeds: bool, at: real, now: real,
                       after: Fleet)
    requires f.s.queue.tasks == [t] && w in f.holding && f.holding[w].id == t.id
    requires after == Moved(cfg, CREW, f, Settle(w, succeeds, at, now))
    ensures after.s.queue.tasks == [if succeeds then Freed(t, Done) else Failed(cfg, t, now)]
    ensures after.s.log == f.s.log + [if succeeds then Completed(t.id) else FailedAt(t.id, now)]
    ensures after.holding == f.holding - {w} && after.clock == at
  {
    OneCall(cfg, f.s, if succeeds then DoComplete(t.id) else DoFail(t.id, now));
  }

  /** A worker outlives its lease, another takes the task over, and the first one finishes before it. Then the task is
      done, queued again by the second one's failure, and executed a third time, although every finish is one that
      `run_once` makes after its own claim, with the loop's dates. */
  lemma LateFinishReopens(cfg: Config, id: string, key: string)
    requires cfg == Config(1, 1.0)
    ensures var taken := [Submit(id, key, 5, "", 3)] + ([Take(0, 0.0, 0.0)] + ([Take(1, 31.0, 31.0)]
                         + [Settle(0, true, 32.0, 0.0)]));
            var q := Crewed(cfg, CREW, START, taken).s.queue;
            Known(q, id) && TaskOf(q, id).status == Done
    ensures var late := [Submit(id, key, 5, "", 3)] + ([Take(0, 0.0, 0.0)] + ([Take(1, 31.0, 31.0)]
                        + ([Settle(0, true, 32.0, 0.0)] + ([Settle(1, false, 33.0, 31.0)] + [Take(0, 40.0, 40.0)]))));
            var s := Crewed(cfg, CREW, START, late).s;
            && Known(s.queue, id) && TaskOf(s.queue, id).status == Processing && TaskOf(s.queue, id).attempts == 1
            && Executions(s.log, id) == 3
  {
    var taken := TakenTwice(cfg, id, key);
    var settle, fail, again := Settle(0, true, 32.0, 0.0), Settle(1, false, 33.0, 31.0), Take(0, 40.0, 40.0);
    var done := Moved(cfg, CREW, taken, settle);
    SettlesTheTask(cfg, taken, Leased(id, key, 61.0), 0, true, 32.0, 0.0, done);
    var failed := Moved(cfg, CREW, done, fail);
    SettlesTheTask(cfg, done, Freed(Leased(id, key, 61.0), Done), 1, false, 33.0, 31.0, failed);
    var t := failed.s.queue.tasks[0];
    assert Pow2(0) == 1 && t.status == Queued && t.scheduledAt == 32.0;
    var third := Moved(cfg, CREW, failed, again);
    TakesTheTask(cfg, failed, t, 0, 40.0, 40.0, third);
    FirstMove(cfg, CREW, taken, settle, []);
    assert [settle] + [] == [settle];
    FirstMove(cfg, CREW, taken, settle, [fail] + [again]);
    FirstMove(cfg, CREW, done, fail, [again]);
    FirstMove(cfg, CREW, failed, again, []);
    assert [again] + [] == [again];
    ThreeClaims(taken.s.log, third.s.log, id);
  }

  lemma ThreeClaims(before: seq<Entry>, log: seq<Entry>, id: string)
    requires before == [Claimed(id, 0.0, false), Claimed(id, 31.0, true)]
    requires log == before + [Completed(id)] + [FailedAt(id, 31.0)] + [Claimed(id, 40.0, false)]
    ensures Executions(log, id) == 3
  {
    LogGrows([], Claimed(id, 0.0, false), id);
    LogGrows([Claimed(id, 0.0, false)], Claimed(id, 31.0, true), id);
    assert [] + [Claimed(id, 0.0, false)] == [Claimed(id, 0.0, false)];
    assert before == [Claimed(id, 0.0, false)] + [Claimed(id, 31.0, true)];
    LogGrows(before, Completed(id), id);
    LogGrows(before + [Completed(id)], FailedAt(id, 31.0), id);
    LogGrows(before + [Completed(id)] + [FailedAt(id, 31.0)], Claimed(id, 40.0, false), id);
  }

  // -------------------------------------------------------- waiting to retry

  /** Whatever punctual workers do, and however they date their failures, the m-th execution of a task, takeovers apart,
      is claimed at least base * (2^(m-1) - 1) after the date of its first failure. */
  lemma WorkersBackOff(cfg: Config, crew: Crew, moves: seq<Move>, log: seq<Entry>, k: nat, m: nat)
    requires PunctualRun(cfg, crew, START, moves) && log == Crewed(cfg, crew, START, moves).s.log
    requires k < |log| && log[k].Claimed? && !log[k].expired && m >= 2
    requires m == Executions(log[..k], log[k].id) - Takeovers(log[..k], log[k].id) + 1
    ensures FirstFailure(log[..k], log[k].id).Some?
    ensures log[k].now >= FirstFailure(log[..k], log[k].id).value + Base(cfg) * ((Pow2(m - 1) - 1) as real)
  {
    PunctualWorkersAreDisciplined(cfg, crew, START, moves);
    CrewedIsRun(cfg, crew, START, moves);
    BackoffLowerBound(cfg, AllCalls(cfg, crew, START, moves), k, m);
  }

  /** The date is not the moment: after a failure that is queued again the whole backoff passes before the task can be
      claimed exactly when no time passed between the date given to `fail` and the failure itself. */
  lemma FullWaitExactly(cfg: Config, crew: Crew, f: Fleet, m: Move, after: Fleet, t: Task)
    requires FleetInv(f) && Punctual(crew, f, m) && m.Settle? && !m.succeeds && m.w in f.holding
    requires after == Moved(cfg, crew, f, m) && Known(after.s.queue, f.holding[m.w].id)
    requires t == TaskOf(after.s.queue, f.holding[m.w].id) && t.status == Queued
    ensures t.attempts >= 1
    ensures (forall x: real :: Eligible(t, x) ==> x >= m.at + Backoff(cfg, t.attempts)) <==> m.now == m.at
  {
    var e := DoFail(f.holding[m.w].id, m.now);
    OneCall(cfg, f.s, e);
    assert Live(f, m.w);
    var i := Find(f.s.queue.tasks, e.id);
    RewrittenTask(f.s.queue, i, Failed(cfg, f.s.queue.tasks[i], m.now), e.id, after.s.queue);
    assert t.scheduledAt == m.now + Backoff(cfg, t.attempts);
    assert Eligible(t, t.scheduledAt);
  }

  /** The loop dates a failure with its claim, so an execution that takes longer than the backoff is followed at once by
      the next: a punctual worker claims at 0, fails at 10, and has the task again at 10, with a backoff of 1. */
  lemma NoWaitAfterALongRun(cfg: Config, id: string, key: string)
    requires cfg == Config(1, 1.0)
    ensures var moves := [Submit(id, key, 5, "", 3)] + ([Take(0, 0.0, 0.0)] + ([Settle(0, false, 10.0, 0.0)]
                         + [Take(0, 10.0, 10.0)]));
            var f := Crewed(cfg, CREW, START, moves);
            && PunctualRun(cfg, CREW, START, moves) && f.clock == 10.0
            && Known(f.s.queue, id) && TaskOf(f.s.queue, id).status == Processing && TaskOf(f.s.queue, id).attempts == 1
            && Backoff(cfg, 1) == 1.0 && Executions(f.s.log, id) == 2
  {
    var submit, take, settle, again := Submit(id, key, 5, "", 3), Take(0, 0.0, 0.0), Settle(0, false, 10.0, 0.0),
                                       Take(0, 10.0, 10.0);
    var a := Moved(cfg, CREW, START, submit);
    OneCall(cfg, INITIAL, DoEnqueue(id, key, 5, "", 3));
    assert a.s.queue.tasks == [NewTask(id, key, 5, "", 3)];
    var b := Moved(cfg, CREW, a, take);
    TakesTheTask(cfg, a, NewTask(id, key, 5, "", 3), 0, 0.0, 0.0, b);
    var c := Moved(cfg, CREW, b, settle);
    SettlesTheTask(cfg, b, Leased(id, key, 30.0), 0, false, 10.0, 0.0, c);
    var t := c.s.queue.tasks[0];
    assert Pow2(0) == 1 && t.status == Queued && t.scheduledAt == 1.0;
    var d := Moved(cfg, CREW, c, again);
    TakesTheTask(cfg, c, t, 0, 10.0, 10.0, d);
    FirstMove(cfg, CREW, START, submit, [take] + ([settle] + [again]));
    FirstMove(cfg, CREW, a, take, [settle] + [again]);
    FirstMove(cfg, CREW, b, settle, [again]);
    FirstMove(cfg, CREW, c, again, []);
    assert [again] + [] == [again];
    FirstPunctual(cfg, CREW, c, again, []);
    FirstPunctual(cfg, CREW, b, settle, [again]);
    FirstPunctual(cfg, CREW, a, take, [settle] + [again]);
    FirstPunctual(cfg, CREW, START, submit, [take] + ([settle] + [again]));
    LogGrows([], Claimed(id, 0.0, false), id);
    assert [] + [Claimed(id, 0.0, false)] == [Claimed(id, 0.0, false)];
    LogGrows([Claimed(id, 0.0, false)], FailedAt(id, 0.0), id);
    LogGrows([Claimed(id, 0.0, false)] + [FailedAt(id, 0.0)], Claimed(id, 10.0, false), id);
    assert d.s.log == [Claimed(id, 0.0, false)] + [FailedAt(id, 0.0)] + [Claimed(id, 10.0, false)];
  }

  lemma FirstPunctual(cfg: Config, crew: Crew, f: Fleet, m: Move, rest: seq<Move>)
    requires Punctual(crew, f, m) && PunctualRun(cfg, crew, Moved(cfg, crew, f, m), rest)
    ensures PunctualRun(cfg, crew, f, [m] + rest)
  {
    assert ([m] + rest)[1..] == rest;
  }
}
