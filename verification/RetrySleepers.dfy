/** One retry budget shared by loops that run at the same time: asking for a delay and waking from it are events of
    their own, so that several loops can be asleep together. */
module RetrySleepers {
  import opened Foundations
  import opened RetryBudgets

  datatype Event = Ask(loop: nat, at: real, limits: Limits) | Wake(loop: nat)

  /** `asleep` gives the time at which each sleeping loop wakes; `slept` is the sum of the delays granted. */
  datatype State = State(now: real, used: nat, slept: real, asleep: map<nat, real>)

  function Started(start: real): State { State(start, 0, 0.0, map[]) }

  /** Time does not run backwards, and a sleeping loop asks for nothing. */
  function Next(maxAttempts: int, deadline: real, s: State, e: Event): State {
    match e
    case Ask(loop, at, limits) =>
      if loop in s.asleep then s else
        var now := MaxReal(s.now, at);
        if Grants(maxAttempts, deadline, s.used, now, limits) then
          var d := Delay(limits, s.used);
          State(now, s.used + 1, s.slept + d, s.asleep[loop := now + d])
        else s.(now := now)
    case Wake(loop) =>
      if loop !in s.asleep then s else s.(now := MaxReal(s.now, s.asleep[loop]), asleep := s.asleep - {loop})
  }

  function Run(maxAttempts: int, deadline: real, s: State, events: seq<Event>): State {
    if events == [] then s
    else Next(maxAttempts, deadline, Run(maxAttempts, deadline, s, events[..|events| - 1]), events[|events| - 1])
  }

  ghost predicate AllSensible(events: seq<Event>) {
    forall i :: 0 <= i < |events| && events[i].Ask? ==> Sensible(events[i].limits)
  }

  /** A turn is an ask and the wake that follows it. */
  lemma TurnIsAskThenWake(maxAttempts: int, deadline: real, s: State, loop: nat, t: Turn)
    requires s.asleep == map[] && t.work >= 0.0 && Sensible(t.limits)
    ensures var asked := Next(maxAttempts, deadline, s, Ask(loop, s.now + t.work, t.limits));
            var woken := Next(maxAttempts, deadline, asked, Wake(loop));
            World(woken.now, woken.used, woken.slept) == After(maxAttempts, deadline, World(s.now, s.used, s.slept), t)
            && woken.asleep == map[]
  {
    DelaysDouble(t.limits, s.used);
  }

  // ------------------------------------------------------- every interleaving

  /** `n` times `x`. */
  function Times(n: nat, x: real): real { if n == 0 then 0.0 else Times(n - 1, x) + x }

  lemma {:induction false} TimesIsProduct(n: nat, x: real)
    ensures Times(n, x) == n as real * x
  {
    if n > 0 {
      TimesIsProduct(n - 1, x);
      assert n as real * x == (n - 1) as real * x + x;
    }
  }

  ghost predicate Inv(maxAttempts: int, deadline: real, start: real, s: State) {
    && s.used <= Max(1, maxAttempts) && start <= s.now && 0.0 <= s.slept
    && (forall l :: l in s.asleep ==> s.asleep[l] < deadline)
    && (if s.used == 0 then s.slept == 0.0 else s.slept < Times(s.used, deadline - start))
  }

  lemma StepKeeps(maxAttempts: int, deadline: real, start: real, s: State, e: Event)
    requires Inv(maxAttempts, deadline, start, s) && (e.Ask? ==> Sensible(e.limits))
    ensures Inv(maxAttempts, deadline, start, Next(maxAttempts, deadline, s, e))
  {
    if e.Ask? {
      DelaysDouble(e.limits, s.used);
      assert Times(s.used + 1, deadline - start) == Times(s.used, deadline - start) + (deadline - start);
    }
  }

  lemma {:induction false} RunKeeps(maxAttempts: int, deadline: real, start: real, events: seq<Event>)
    requires AllSensible(events)
    ensures Inv(maxAttempts, deadline, start, Run(maxAttempts, deadline, Started(start), events))
  {
    if events != [] {
      var before, last := events[..|events| - 1], events[|events| - 1];
      assert AllSensible(before) && last == events[|events| - 1];
      RunKeeps(maxAttempts, deadline, start, before);
      StepKeeps(maxAttempts, deadline, start, Run(maxAttempts, deadline, Started(start), before), last);
    }
  }

  lemma SleptIsBounded(maxAttempts: int, deadline: real, start: real, s: State)
    requires Inv(maxAttempts, deadline, start, s)
    ensures 0.0 <= s.slept && (if s.used == 0 then s.slept == 0.0 else s.slept < s.used as real * (deadline - start))
  {
    TimesIsProduct(s.used, deadline - start);
  }

  /** However the loops interleave, and however many sleep at once: the retries stay within the budget, every sleeper
      wakes before the deadline, and all the sleeping together is less than the time there was at the start for each
      retry. */
  lemma AnyInterleaving(maxAttempts: int, deadline: real, start: real, events: seq<Event>, s: State)
    requires AllSensible(events) && s == Run(maxAttempts, deadline, Started(start), events)
    ensures s.used <= Max(1, maxAttempts)
    ensures forall l :: l in s.asleep ==> s.asleep[l] < deadline
    ensures 0.0 <= s.slept && (if s.used == 0 then s.slept == 0.0 else s.slept < s.used as real * (deadline - start))
  {
    RunKeeps(maxAttempts, deadline, start, events);
    SleptIsBounded(maxAttempts, deadline, start, s);
  }

  // ----------------------------------------------------------- one at a time

  /** No delay is asked for while a loop sleeps. */
  ghost predicate OneAtATime(maxAttempts: int, deadline: real, s: State, events: seq<Event>) {
    events != [] ==>
      var before := events[..|events| - 1];
      && OneAtATime(maxAttempts, deadline, s, before)
      && (events[|events| - 1].Ask? ==> Run(maxAttempts, deadline, s, before).asleep == map[])
  }

  /** The sleeping so far is over by the time the sleeper, if there is one, wakes. */
  ghost predicate Consecutive(start: real, s: State) {
    (s.asleep == map[] ==> s.slept <= s.now - start) && forall l :: l in s.asleep ==> s.slept <= s.asleep[l] - start
  }

  lemma StepStaysConsecutive(maxAttempts: int, deadline: real, start: real, s: State, e: Event)
    requires Consecutive(start, s) && (e.Ask? ==> s.asleep == map[] && Sensible(e.limits))
    ensures Consecutive(start, Next(maxAttempts, deadline, s, e))
  {
    if e.Ask? { DelaysDouble(e.limits, s.used); }
  }

  lemma {:induction false} RunIsConsecutive(maxAttempts: int, deadline: real, start: real, events: seq<Event>)
    requires AllSensible(events) && OneAtATime(maxAttempts, deadline, Started(start), events)
    ensures var s := Run(maxAttempts, deadline, Started(start), events);
            Consecutive(start, s) && (s.used > 0 ==> s.slept < deadline - start)
  {
    if events != [] {
      var before, last := events[..|events| - 1], events[|events| - 1];
      assert AllSensible(before) && last == events[|events| - 1];
      var s := Run(maxAttempts, deadline, Started(start), before);
      RunIsConsecutive(maxAttempts, deadline, start, before);
      StepStaysConsecutive(maxAttempts, deadline, start, s, last);
      if last.Ask? { DelaysDouble(last.limits, s.used); }
    }
  }

  /** If the loops sleep one at a time, all the sleeping together is shorter than the time there was at the start. */
  lemma OneAtATimeFits(maxAttempts: int, deadline: real, start: real, events: seq<Event>)
    requires AllSensible(events) && OneAtATime(maxAttempts, deadline, Started(start), events)
    requires Run(maxAttempts, deadline, Started(start), events).used > 0
    ensures Run(maxAttempts, deadline, Started(start), events).slept < deadline - start
  {
    RunIsConsecutive(maxAttempts, deadline, start, events);
  }

  function NoJitter(raw: real): real { 0.0 }

  /** A run in which it is not: two loops ask at the same time, and sleep longer together than there was time. */
  lemma SleepsOverlap()
    ensures var limits := Limits(0.6, 0.6, NoJitter);
            var s := Run(2, 1.0, Started(0.0), [Ask(0, 0.0, limits), Ask(1, 0.0, limits)]);
            s.asleep == map[0 := 0.6, 1 := 0.6] && s.slept == 1.2 > 1.0
  {
    var limits := Limits(0.6, 0.6, NoJitter);
    var first, second := Ask(0, 0.0, limits), Ask(1, 0.0, limits);
    assert [first, second][..1] == [first] && [first][..0] == [];
    assert Pow2(0) == 1 && Pow2(1) == 2;
    assert Delay(limits, 0) == 0.6 && Delay(limits, 1) == 0.6;
    assert Run(2, 1.0, Started(0.0), [first]) == State(0.0, 1, 0.6, map[0 := 0.6]);
  }

  // ------------------------------------------------- whatever the schedule is

  /** All requests give the same limits. */
  ghost predicate AllWith(events: seq<Event>, limits: Limits) {
    forall i :: 0 <= i < |events| && events[i].Ask? ==> events[i].limits == limits
  }

  /** The sum of the first `n` delays. */
  function DelaySum(limits: Limits, n: nat): real {
    if n == 0 then 0.0 else DelaySum(limits, n - 1) + Delay(limits, n - 1)
  }

  /** The first attempt from the `n`th on that cannot be granted even if all the time is left. */
  function Affordable(maxAttempts: int, time: real, limits: Limits, n: nat): (k: nat)
    requires n <= Max(1, maxAttempts)
    ensures n <= k <= Max(1, maxAttempts) && (k == Max(1, maxAttempts) || Delay(limits, k) >= time)
    ensures forall j :: n <= j < k ==> Delay(limits, j) < time
    decreases Max(1, maxAttempts) - n
  {
    if n == Max(1, maxAttempts) || Delay(limits, n) >= time then n else Affordable(maxAttempts, time, limits, n + 1)
  }

  lemma {:induction false} DelaySumGrows(limits: Limits, n: nat, k: nat)
    requires Sensible(limits) && n <= k
    ensures 0.0 <= DelaySum(limits, n) <= DelaySum(limits, k)
    decreases k
  {
    if k > 0 {
      DelaysDouble(limits, k - 1);
      DelaySumGrows(limits, if n < k then n else k - 1, k - 1);
    }
  }

  /** What was slept is the sum of the first delays, and no more of them than are affordable. */
  predicate Summed(maxAttempts: int, deadline: real, start: real, limits: Limits, s: State) {
    && start <= s.now && s.slept == DelaySum(limits, s.used)
    && s.used <= Affordable(maxAttempts, deadline - start, limits, 0)
  }

  lemma StepStaysSummed(maxAttempts: int, deadline: real, start: real, limits: Limits, s: State, e: Event)
    requires Summed(maxAttempts, deadline, start, limits, s) && (e.Ask? ==> e.limits == limits)
    ensures Summed(maxAttempts, deadline, start, limits, Next(maxAttempts, deadline, s, e))
  {
  }

  lemma {:induction false} RunIsSummed(maxAttempts: int, deadline: real, start: real, limits: Limits,
                                       events: seq<Event>)
    requires AllWith(events, limits)
    ensures Summed(maxAttempts, deadline, start, limits, Run(maxAttempts, deadline, Started(start), events))
  {
    if events != [] {
      var before, last := events[..|events| - 1], events[|events| - 1];
      assert AllWith(before, limits);
      RunIsSummed(maxAttempts, deadline, start, limits, before);
      StepStaysSummed(maxAttempts, deadline, start, limits, Run(maxAttempts, deadline, Started(start), before), last);
    }
  }

  /** The first `n` loops ask at the start. */
  function AskingTogether(limits: Limits, start: real, n: nat): seq<Event> {
    if n == 0 then [] else AskingTogether(limits, start, n - 1) + [Ask(n - 1, start, limits)]
  }

  lemma {:induction false} TogetherIsGranted(maxAttempts: int, deadline: real, start: real, limits: Limits, n: nat)
    requires Sensible(limits) && n <= Affordable(maxAttempts, deadline - start, limits, 0)
    ensures AllWith(AskingTogether(limits, start, n), limits)
    ensures var s := Run(maxAttempts, deadline, Started(start), AskingTogether(limits, start, n));
            s.now == start && s.used == n && s.slept == DelaySum(limits, n) && forall l :: l in s.asleep ==> l < n
  {
    if n > 0 {
      TogetherIsGranted(maxAttempts, deadline, start, limits, n - 1);
      DelaysDouble(limits, n - 1);
      var before, events := AskingTogether(limits, start, n - 1), AskingTogether(limits, start, n);
      assert events[..|events| - 1] == before;
    }
  }

  /** With one set of limits for all: however the loops interleave they sleep less in all than the time there was at
      the start, if and only if the delays that are affordable one by one are together less than it. */
  lemma OverlapFitsExactly(maxAttempts: int, deadline: real, start: real, limits: Limits)
    requires Sensible(limits)
    ensures (forall events :: AllWith(events, limits) ==>
              Run(maxAttempts, deadline, Started(start), events).slept < deadline - start)
       <==> DelaySum(limits, Affordable(maxAttempts, deadline - start, limits, 0)) < deadline - start
  {
    var k := Affordable(maxAttempts, deadline - start, limits, 0);
    TogetherIsGranted(maxAttempts, deadline, start, limits, k);
    forall events | AllWith(events, limits)
      ensures Run(maxAttempts, deadline, Started(start), events).slept <= DelaySum(limits, k)
    {
      RunIsSummed(maxAttempts, deadline, start, limits, events);
      DelaySumGrows(limits, Run(maxAttempts, deadline, Started(start), events).used, k);
    }
  }
}
