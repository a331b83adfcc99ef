/** The execution deadline, the retry budget that respects it, and the retry loop that draws on the budget. */
module RetryBudgets {
  import opened Foundations

  function MinReal(a: real, b: real): real { if a <= b then a else b }

  function MaxReal(a: real, b: real): real { if a >= b then a else b }

  /** Seconds left at a moment, never negative. */
  function Remaining(deadline: real, now: real): real { MaxReal(0.0, deadline - now) }

  /** The limits a caller of the budget gives; `jitter` is what is added to a raw delay. */
  datatype Limits = Limits(base: real, maximum: real, jitter: real -> real)

  function RawDelay(limits: Limits, used: nat): real {
    MinReal(limits.maximum, limits.base * Pow2(used) as real)
  }

  function Delay(limits: Limits, used: nat): real {
    var raw := RawDelay(limits, used);
    MinReal(raw + limits.jitter(raw), limits.maximum)
  }

  /** Whether a budget grants another attempt. */
  predicate Grants(maxAttempts: int, deadline: real, used: nat, now: real, limits: Limits) {
    used < Max(1, maxAttempts) && now < deadline && Delay(limits, used) < deadline - now
  }

  ghost predicate Sensible(limits: Limits) {
    limits.base >= 0.0 && limits.maximum >= 0.0 && forall raw :: limits.jitter(raw) >= 0.0
  }

  /** Without jitter the delays double until they reach the maximum. */
  lemma DelaysDouble(limits: Limits, used: nat)
    requires Sensible(limits)
    ensures RawDelay(limits, used + 1) == MinReal(limits.maximum, 2.0 * RawDelay(limits, used))
    ensures 0.0 <= RawDelay(limits, used) <= Delay(limits, used) <= limits.maximum
  {
    var p := Pow2(used) as real;
    assert Pow2(used + 1) as real == 2.0 * p;
    assert limits.base * (2.0 * p) == 2.0 * (limits.base * p);
    assert limits.base * p >= 0.0;
  }

  // ----------------------------------------------------- shared by many loops

  /** One loop's turn: some work, then a request for a delay, which is slept when granted. */
  datatype Turn = Turn(work: real, limits: Limits)

  datatype World = World(now: real, used: nat, slept: real)

  function After(maxAttempts: int, deadline: real, w: World, t: Turn): World {
    var now := w.now + t.work;
    if Grants(maxAttempts, deadline, w.used, now, t.limits) then
      var d := Delay(t.limits, w.used);
      World(now + d, w.used + 1, w.slept + d)
    else w.(now := now)
  }

  function Run(maxAttempts: int, deadline: real, w: World, turns: seq<Turn>): World {
    if turns == [] then w
    else After(maxAttempts, deadline, Run(maxAttempts, deadline, w, turns[..|turns| - 1]), turns[|turns| - 1])
  }

  lemma RunAppend(maxAttempts: int, deadline: real, w: World, turns: seq<Turn>, t: Turn)
    ensures Run(maxAttempts, deadline, w, turns + [t]) ==
            After(maxAttempts, deadline, Run(maxAttempts, deadline, w, turns), t)
  {
    assert (turns + [t])[..|turns|] == turns;
  }

  ghost predicate Usual(turns: seq<Turn>) {
    forall i :: 0 <= i < |turns| ==> turns[i].work >= 0.0 && Sensible(turns[i].limits)
  }

  /** However many loops take turns on one budget: the retries stay within it, and all the sleeping together is shorter
      than the time there was at the start. */
  lemma {:induction false} SharedBudget(maxAttempts: int, deadline: real, start: real, turns: seq<Turn>)
    requires Usual(turns)
    ensures var w := Run(maxAttempts, deadline, World(start, 0, 0.0), turns);
            && w.used <= Max(1, maxAttempts) && 0.0 <= w.slept <= w.now - start
            && (w.used > 0 ==> w.slept < deadline - start)
            && (w.used == 0 ==> w.slept == 0.0)
  {
    if turns != [] {
      var before, last := turns[..|turns| - 1], turns[|turns| - 1];
      assert Usual(before) && last == turns[|turns| - 1];
      SharedBudget(maxAttempts, deadline, start, before);
      DelaysDouble(last.limits, Run(maxAttempts, deadline, World(start, 0, 0.0), before).used);
    }
  }

  /** A turn that is granted wakes strictly before the deadline, having slept no longer than its maximum. */
  lemma WakesBeforeTheDeadline(maxAttempts: int, deadline: real, w: World, t: Turn)
    requires Sensible(t.limits)
    ensures var after := After(maxAttempts, deadline, w, t);
            after.used > w.used ==>
              && after.used == w.used + 1 && after.now < deadline
              && 0.0 <= after.slept - w.slept <= t.limits.maximum
  {
    DelaysDouble(t.limits, w.used);
  }

  // --------------------------------------------------------------- the objects

  class Clock {
    var now: real

    constructor (now: real)
      ensures this.now == now
    {
      this.now := now;
    }

    method Advance(seconds: real)
      modifies this
      ensures now == old(now) + seconds
    {
      now := now + seconds;
    }
  }

  const REASONS := {"client_cancelled", "deadline_exceeded", "shutdown", "lease_lost"}

  class ExecutionDeadline {
    const monotonicDeadline: real
    const clock: Clock
    var cancelReason: Option<string>

    constructor (monotonicDeadline: real, clock: Clock)
      ensures this.monotonicDeadline == monotonicDeadline && this.clock == clock && cancelReason == None
    {
      this.monotonicDeadline, this.clock, cancelReason := monotonicDeadline, clock, None;
    }

    function RemainingSeconds(): real
      reads clock
    {
      Remaining(monotonicDeadline, clock.now)
    }

    /** False stands for the `ValueError` on an unknown reason. */
    method Cancel(reason: string) returns (ok: bool)
      modifies this
      ensures ok == (reason in REASONS)
      ensures cancelReason == if ok then Some(reason) else old(cancelReason)
    {
      ok := reason in REASONS;
      if ok { cancelReason := Some(reason); }
    }

    /** The reason with which a cancellation point raises: an explicit one first, then the deadline. */
    function Cancelled(): (r: Option<string>)
      reads this, clock
      ensures r.None? <==> cancelReason.None? && clock.now < monotonicDeadline
    {
      if cancelReason.Some? then cancelReason
      else if RemainingSeconds() <= 0.0 then Some("deadline_exceeded")
      else None
    }
  }

  class RetryBudget {
    const maxAttempts: int
    const deadline: ExecutionDeadline
    var attemptsUsed: nat

    constructor (maxAttempts: int, deadline: ExecutionDeadline)
      ensures this.maxAttempts == Max(1, maxAttempts) && this.deadline == deadline && attemptsUsed == 0
    {
      this.maxAttempts, this.deadline, attemptsUsed := Max(1, maxAttempts), deadline, 0;
    }

    /** Whether the budget would grant a delay now. */
    predicate Ready(limits: Limits)
      reads this, deadline.clock
    {
      Grants(maxAttempts, deadline.monotonicDeadline, attemptsUsed, deadline.clock.now, limits)
    }

    /** `next_delay`. */
    method NextDelay(limits: Limits) returns (delay: Option<real>)
      requires maxAttempts >= 1
      modifies this
      ensures delay == if old(Ready(limits)) then Some(Delay(limits, old(attemptsUsed))) else None
      ensures attemptsUsed == old(attemptsUsed) + if delay.Some? then 1 else 0
    {
      if attemptsUsed >= maxAttempts { return None; }
      var remaining := deadline.RemainingSeconds();
      if remaining <= 0.0 { return None; }
      var raw := MinReal(limits.maximum, limits.base * Pow2(attemptsUsed) as real);
      var wait := MinReal(raw + limits.jitter(raw), limits.maximum);
      assert raw == RawDelay(limits, attemptsUsed) && wait == Delay(limits, attemptsUsed);
      if wait >= remaining { return None; }
      attemptsUsed := attemptsUsed + 1;
      delay := Some(wait);
    }
  }

  /** One execution of the wrapped function: how long it took and how it ended. */
  datatype Call<T, E> = Call(seconds: real, outcome: Result<T, E>)

  /** The turns of one loop: its first `n` calls, each followed by a request. */
  function TurnsOf<T, E>(calls: nat -> Call<T, E>, limits: Limits, n: nat): seq<Turn> {
    seq(n, i requires 0 <= i < n => Turn(calls(i + 1).seconds, limits))
  }

  /** The clock, budget and time slept of a loop after its first `n` turns. */
  ghost predicate InStep<T, E>(calls: nat -> Call<T, E>, limits: Limits, n: nat, maxAttempts: int, deadline: real,
                               start: World, w: World)
  {
    w == Run(maxAttempts, deadline, start, TurnsOf(calls, limits, n))
  }

  /** One more turn of the loop, granted. */
  lemma NextTurn<T, E>(calls: nat -> Call<T, E>, limits: Limits, n: nat, maxAttempts: int, deadline: real,
                       start: World, w: World, after: World)
    requires InStep(calls, limits, n, maxAttempts, deadline, start, w)
    requires Grants(maxAttempts, deadline, w.used, w.now + calls(n + 1).seconds, limits)
    requires var d := Delay(limits, w.used); after == World(w.now + calls(n + 1).seconds + d, w.used + 1, w.slept + d)
    ensures InStep(calls, limits, n + 1, maxAttempts, deadline, start, after)
  {
    var t := Turn(calls(n + 1).seconds, limits);
    assert TurnsOf(calls, limits, n + 1) == TurnsOf(calls, limits, n) + [t];
    RunAppend(maxAttempts, deadline, start, TurnsOf(calls, limits, n), t);
  }

  /** Asks the budget for a delay and sleeps it: one more turn of the loop, if it is granted. */
  method Pause<T, E>(ghost calls: nat -> Call<T, E>, limits: Limits, ghost n: nat, budget: RetryBudget,
                     ghost start: World, ghost before: World, slept: real)
      returns (granted: bool, total: real)
    requires budget.maxAttempts >= 1
    requires InStep(calls, limits, n, budget.maxAttempts, budget.deadline.monotonicDeadline, start, before)
    requires budget.deadline.clock.now == before.now + calls(n + 1).seconds
    requires budget.attemptsUsed == before.used && slept == before.slept
    modifies budget, budget.deadline.clock
    ensures budget.attemptsUsed == before.used + if granted then 1 else 0
    ensures granted ==> InStep(calls, limits, n + 1, budget.maxAttempts, budget.deadline.monotonicDeadline, start,
                               World(budget.deadline.clock.now, budget.attemptsUsed, total))
    ensures !granted ==> !budget.Ready(limits)
    ensures !granted ==> total == slept && budget.deadline.clock.now == old(budget.deadline.clock.now)
  {
    var delay := budget.NextDelay(limits);
    if delay.None? { return false, slept; }
    budget.deadline.clock.Advance(delay.value);
    total := slept + delay.value;
    NextTurn(calls, limits, n, budget.maxAttempts, budget.deadline.monotonicDeadline, start, before,
             World(budget.deadline.clock.now, budget.attemptsUsed, total));
    granted := true;
  }

  /** The first `n` calls fail with errors worth retrying. */
  ghost predicate Failing<T, E>(calls: nat -> Call<T, E>, shouldRetry: E -> bool, n: nat) {
    forall k :: 1 <= k <= n ==> calls(k).outcome.Err? && shouldRetry(calls(k).outcome.error)
  }

  /** `with_retry` with a budget. The result is that of the last call; every call before it failed with an error worth
      retrying, and was a turn on the budget that was granted and slept through; and a failure is final only when it is
      not worth retrying, the attempts are used up, or the budget grants nothing. What the loop does to the clock, the
      budget and the time slept is what those turns do, and then the last call. */
  method WithRetry<T, E>(calls: nat -> Call<T, E>, shouldRetry: E -> bool, maxAttempts: int, budget: RetryBudget,
                         limits: Limits)
      returns (result: Result<T, E>, attempts: nat, slept: real)
    requires budget.maxAttempts >= 1
    modifies budget, budget.deadline.clock
    ensures 1 <= attempts <= Max(1, maxAttempts) && result == calls(attempts).outcome
    ensures Failing(calls, shouldRetry, attempts - 1)
    ensures InStep(calls, limits, attempts - 1, budget.maxAttempts, budget.deadline.monotonicDeadline,
                   World(old(budget.deadline.clock.now), old(budget.attemptsUsed), 0.0),
                   World(budget.deadline.clock.now - calls(attempts).seconds, budget.attemptsUsed, slept))
    ensures budget.attemptsUsed == old(budget.attemptsUsed) + attempts - 1
    ensures result.Err? ==> !shouldRetry(result.error) || attempts == Max(1, maxAttempts) || !budget.Ready(limits)
  {
    var clock, limit := budget.deadline.clock, Max(1, maxAttempts);
    ghost var start := World(clock.now, budget.attemptsUsed, 0.0);
    attempts, slept := 0, 0.0;
    while true
      invariant 0 <= attempts < limit
      invariant Failing(calls, shouldRetry, attempts)
      invariant InStep(calls, limits, attempts, budget.maxAttempts, budget.deadline.monotonicDeadline, start,
                       World(clock.now, budget.attemptsUsed, slept))
      invariant budget.attemptsUsed == start.used + attempts
      decreases limit - attempts
    {
      ghost var before := World(clock.now, budget.attemptsUsed, slept);
      attempts := attempts + 1;
      var call := calls(attempts);
      clock.Advance(call.seconds);
      result := call.outcome;
      assert World(clock.now - call.seconds, budget.attemptsUsed, slept) == before;
      if result.Ok? || attempts >= limit || !shouldRetry(result.error) { return; }
      var granted;
      granted, slept := Pause(calls, limits, attempts - 1, budget, start, before, slept);
      if !granted { return; }
    }
  }

  /** Every call after the first starts before the deadline, and the loop leaves the budget within its bound. */
  lemma {:induction false} TurnsStayInTime<T, E>(calls: nat -> Call<T, E>, limits: Limits, n: nat, maxAttempts: int,
                                                 deadline: real, start: World)
    requires Sensible(limits) && start.used <= Max(1, maxAttempts)
    requires Run(maxAttempts, deadline, start, TurnsOf(calls, limits, n)).used == start.used + n && n > 0
    ensures var w := Run(maxAttempts, deadline, start, TurnsOf(calls, limits, n));
            w.now < deadline && w.used <= Max(1, maxAttempts)
  {
    var t := Turn(calls(n).seconds, limits);
    assert TurnsOf(calls, limits, n) == TurnsOf(calls, limits, n - 1) + [t];
    RunAppend(maxAttempts, deadline, start, TurnsOf(calls, limits, n - 1), t);
    UsedAtMost(maxAttempts, deadline, start, TurnsOf(calls, limits, n - 1));
    WakesBeforeTheDeadline(maxAttempts, deadline, Run(maxAttempts, deadline, start, TurnsOf(calls, limits, n - 1)), t);
  }

  /** A turn uses at most one attempt. */
  lemma {:induction false} UsedAtMost(maxAttempts: int, deadline: real, start: World, turns: seq<Turn>)
    ensures start.used <= Run(maxAttempts, deadline, start, turns).used <= start.used + |turns|
  {
    if turns != [] { UsedAtMost(maxAttempts, deadline, start, turns[..|turns| - 1]); }
  }
}
