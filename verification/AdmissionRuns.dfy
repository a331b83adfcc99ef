/** Whole runs of the admission controller: any number of callers, any interleaving of their steps. */
module AdmissionRuns {
  import opened Foundations
  import opened AdmissionModel
  import opened AdmissionInvariants

  ghost predicate Sound(cfg: Config, c: Core, released: set<nat>, next: nat) {
    CoreInv(cfg, c, released, next) && Blocked(cfg, c) && |c.waiters| <= Max(0, cfg.maxQueued)
  }

  ghost predicate Queued(c: Core, t: nat) {
    exists i :: 0 <= i < |c.waiters| && c.waiters[i].ticket == t
  }

  ghost predicate InProgress(s: System, t: nat) {
    t in s.callers && (s.callers[t] == Waiting || s.callers[t].Leaving?)
  }

  ghost predicate CallersKnown(s: System) {
    && (forall t :: Queued(s.core, t) ==> InProgress(s, t))
    && (forall t :: t in s.callers ==> t < s.next)
    && (forall t :: t in s.callers && s.callers[t] == Served ==> Granted(s.core, t))
    && (forall t :: t in s.closed ==> t in s.callers && s.callers[t] == Served)
    && s.released <= s.closed
  }

  ghost predicate Inv(cfg: Config, s: System) {
    Sound(cfg, s.core, s.released, s.next) && CallersKnown(s)
  }

  lemma InitialInv(cfg: Config)
    ensures Inv(cfg, INITIAL)
  {
  }

  // ------------------------------------------------------------ the core, step by step

  lemma AcquireSound(cfg: Config, s: System, org: int, after: System)
    requires Inv(cfg, s) && after == Next(cfg, s, Acquire(org))
    ensures Sound(cfg, after.core, after.released, after.next)
  {
    if CanGrant(cfg, s.core, org) {
      FastGrantKeeps(cfg, s.core, s.released, s.next, org, after.core);
    } else if |s.core.waiters| < cfg.maxQueued {
      EnqueueKeeps(cfg, s.core, s.released, s.next, org, after.core);
    } else {
      LaterIsApart(cfg, s.core, s.released, s.next);
    }
  }

  lemma LaterIsApart(cfg: Config, c: Core, released: set<nat>, next: nat)
    requires CoreInv(cfg, c, released, next)
    ensures CoreInv(cfg, c, released, next + 1)
  {
  }

  lemma ReleaseSound(cfg: Config, s: System, t: nat, after: System)
    requires Inv(cfg, s) && t in s.closed && t !in s.released && after == Next(cfg, s, ReleaseLease(t))
    ensures Sound(cfg, after.core, after.released, after.next)
    ensures s.core.granted <= after.core.granted
  {
    assert Granted(s.core, t);
    var i :| 0 <= i < |s.core.granted| && s.core.granted[i].ticket == t;
    OrgOfIndex(s.core.granted, i);
    ReleaseKeeps(cfg, s.core, s.released, s.next, i);
  }

  lemma RemoveSound(cfg: Config, s: System, t: nat)
    requires Inv(cfg, s)
    ensures Sound(cfg, s.core.(waiters := RemoveTicket(s.core.waiters, t)), s.released, s.next)
  {
    RemoveTicketIsSubqueue(s.core.waiters, t);
    SubqueueKeeps(cfg, s.core, RemoveTicket(s.core.waiters, t), s.released, s.next);
  }

  lemma StepSound(cfg: Config, s: System, e: Event, after: System)
    requires Inv(cfg, s) && after == Next(cfg, s, e)
    ensures Sound(cfg, after.core, after.released, after.next)
    ensures s.core.granted <= after.core.granted
  {
    if after.core == s.core && after.released == s.released && after.next == s.next {
      return;
    }
    match e
    case Acquire(org) => AcquireSound(cfg, s, org, after);
    case Remove(t) => RemoveSound(cfg, s, t);
    case Cancel(t) => CancelKeeps(cfg, s.core, s.released, s.next, t, after.core);
    case ReleaseLease(t) => ReleaseSound(cfg, s, t, after);
  }

  // --------------------------------------------------------- the queue and the callers

  lemma {:induction false} GrantLoopQueue(cfg: Config, c: Core)
    ensures forall w :: w in GrantLoop(cfg, c).waiters ==> w in c.waiters
    decreases |c.waiters|
  {
    if c.waiters != [] && c.active < cfg.maxActive {
      var i := FirstEligible(cfg, c, 0);
      if i < |c.waiters| { GrantLoopQueue(cfg, Grant(c, c.waiters[i]).(waiters := Without(c.waiters, i))); }
    }
  }

  lemma {:induction false} DropCancelledQueue(ws: seq<Waiter>)
    ensures forall w :: w in DropCancelled(ws) ==> w in ws
  {
    if ws != [] && ws[0].cancelled { DropCancelledQueue(ws[1..]); }
  }

  lemma StillQueued(before: Core, after: Core, t: nat)
    requires forall w :: w in after.waiters ==> w in before.waiters
    ensures Queued(after, t) ==> Queued(before, t)
  {
    if Queued(after, t) {
      var i :| 0 <= i < |after.waiters| && after.waiters[i].ticket == t;
      assert after.waiters[i] in before.waiters;
    }
  }

  /** Only an arriving caller joins the queue, and a removed one is out of it. */
  lemma QueueStep(cfg: Config, s: System, e: Event, t: nat, after: System)
    requires Inv(cfg, s) && after == Next(cfg, s, e) && Queued(after.core, t)
    ensures Queued(s.core, t) || (e.Acquire? && t == s.next && InProgress(after, t))
    ensures !(e == Remove(t) && InProgress(s, t) && s.callers[t].Leaving?)
  {
    match e
    case Remove(u) =>
      if after != s {
        RemoveTicketIsSubqueue(s.core.waiters, u);
        StillQueued(s.core, after.core, t);
      }
    case ReleaseLease(u) =>
      if after != s {
        var back := GiveBack(s.core, OrgOf(s.core.granted, u));
        GrantLoopQueue(cfg, back);
        DropCancelledQueue(GrantLoop(cfg, back).waiters);
        StillQueued(s.core, after.core, t);
      }
    case Cancel(u) =>
      var i :| 0 <= i < |after.core.waiters| && after.core.waiters[i].ticket == t;
      assert s.core.waiters[i].ticket == t;
    case _ =>
      var i :| 0 <= i < |after.core.waiters| && after.core.waiters[i].ticket == t;
      if i < |s.core.waiters| { assert s.core.waiters[i].ticket == t; }
  }

  /** What a step may do to one caller. */
  lemma CallerStep(cfg: Config, s: System, e: Event, t: nat, after: System)
    requires Inv(cfg, s) && after == Next(cfg, s, e)
    ensures t in s.callers ==> t in after.callers
    ensures t in after.callers ==> t in s.callers || (t == s.next && e.Acquire?)
    ensures t in s.callers && after.callers[t] != s.callers[t] ==>
      || (s.callers[t] == Waiting && (e == DeadlinePassed(t) || e == Check(t)))
      || (s.callers[t].Leaving? && e == Remove(t) && after.callers[t].Rejected?)
    ensures InProgress(s, t) && !InProgress(after, t) ==>
      || (e == Check(t) && after.callers[t] == Served && Granted(s.core, t))
      || (s.callers[t].Leaving? && e == Remove(t))
  {
  }

  lemma QueuedAreUngranted(cfg: Config, s: System, t: nat)
    requires Inv(cfg, s) && Queued(s.core, t)
    ensures !Granted(s.core, t)
  {
  }

  lemma CallersStep(cfg: Config, s: System, e: Event, after: System)
    requires Inv(cfg, s) && after == Next(cfg, s, e) && s.core.granted <= after.core.granted
    ensures CallersKnown(after)
  {
    GrantedGrows(s.core, after.core);
    forall t | Queued(after.core, t) ensures InProgress(after, t) {
      QueueStep(cfg, s, e, t, after);
      CallerStep(cfg, s, e, t, after);
      if Queued(s.core, t) { QueuedAreUngranted(cfg, s, t); }
    }
    forall t | t in after.callers ensures t < after.next { CallerStep(cfg, s, e, t, after); }
    forall t | t in after.callers && after.callers[t] == Served ensures Granted(after.core, t) {
      ServedStep(cfg, s, e, t, after);
    }
    forall t | t in after.closed ensures t in after.callers && after.callers[t] == Served {
      CallerStep(cfg, s, e, t, after);
    }
  }

  lemma ServedStep(cfg: Config, s: System, e: Event, t: nat, after: System)
    requires Inv(cfg, s) && after == Next(cfg, s, e) && s.core.granted <= after.core.granted
    requires t in after.callers && after.callers[t] == Served
    ensures Granted(after.core, t)
  {
    GrantedGrows(s.core, after.core);
    if e.Acquire? && t == s.next {
      assert after.core.granted[|s.core.granted|].ticket == t;
    }
  }

  lemma StepKeeps(cfg: Config, s: System, e: Event, after: System)
    requires Inv(cfg, s) && after == Next(cfg, s, e)
    ensures Inv(cfg, after)
  {
    StepSound(cfg, s, e, after);
    CallersStep(cfg, s, e, after);
  }

  lemma {:induction false} RunKeeps(cfg: Config, s: System, events: seq<Event>)
    requires Inv(cfg, s)
    ensures Inv(cfg, Run(cfg, s, events))
    decreases |events|
  {
    if events != [] {
      StepKeeps(cfg, s, events[0], Next(cfg, s, events[0]));
      RunKeeps(cfg, Next(cfg, s, events[0]), events[1..]);
    }
  }

  // ------------------------------------------------------------ main results

  /** In every reachable state the active count is the number of granted leases whose release has not run, is the sum
      of the organisations' counts, and stays within its bounds, whatever races with a timing-out waiter. */
  lemma ReachableAccounting(cfg: Config, events: seq<Event>, org: int)
    ensures var s := Run(cfg, INITIAL, events);
            && s.core.active == LiveCount(s.core.granted, s.released) == Sum(s.core.orgActive)
            && 0 <= s.core.active <= Max(0, cfg.maxActive)
            && |s.core.waiters| <= Max(0, cfg.maxQueued)
            && OrgCount(s.core, org) == LiveCountOf(s.core.granted, s.released, org)
            && (org in s.core.orgActive ==> 1 <= s.core.orgActive[org] <= Quota(cfg))
  {
    InitialInv(cfg);
    RunKeeps(cfg, INITIAL, events);
  }

  /** In every reachable state each queued, uncancelled waiter is blocked: the slots are full or its organisation is
      at its quota. So a call that can be granted at once passes no waiter that could have been. */
  lemma ReachableNoIdleSlot(cfg: Config, events: seq<Event>, i: nat)
    ensures var c := Run(cfg, INITIAL, events).core;
            i < |c.waiters| && !c.waiters[i].cancelled ==>
              c.active >= cfg.maxActive || OrgCount(c, c.waiters[i].org) >= Quota(cfg)
  {
    InitialInv(cfg);
    RunKeeps(cfg, INITIAL, events);
  }

  lemma FastPathPassesNoEligibleWaiter(cfg: Config, events: seq<Event>, org: int, i: nat)
    requires var c := Run(cfg, INITIAL, events).core;
             CanGrant(cfg, c, org) && i < |c.waiters| && !c.waiters[i].cancelled
    ensures var c := Run(cfg, INITIAL, events).core;
            c.waiters[i].org != org && OrgCount(c, c.waiters[i].org) >= Quota(cfg)
  {
    InitialInv(cfg);
    RunKeeps(cfg, INITIAL, events);
  }

  /** Within one organisation leases are granted in the order of arrival. */
  lemma ReachableFirstComeFirstServed(cfg: Config, events: seq<Event>, i: nat, j: nat)
    requires var c := Run(cfg, INITIAL, events).core;
             i < j < |c.granted| && c.granted[i].org == c.granted[j].org
    ensures Run(cfg, INITIAL, events).core.granted[i].ticket < Run(cfg, INITIAL, events).core.granted[j].ticket
  {
    InitialInv(cfg);
    RunKeeps(cfg, INITIAL, events);
  }

  // ------------------------------------------------------------- lost leases

  /** A lease that was granted to a caller who leaves, or has left, without it. */
  ghost predicate Lost(s: System, t: nat) {
    Granted(s.core, t) && t in s.callers && (s.callers[t].Leaving? || s.callers[t].Rejected?)
  }

  ghost predicate GrantedBy(s: System, after: System, t: nat) {
    !Granted(s.core, t) && Granted(after.core, t)
  }

  /** The waiter to whom a released lease of the organisation hands its slot. */
  function Successor(cfg: Config, c: Core, org: int): Option<nat> {
    var back := GiveBack(c, org);
    var i := FirstEligible(cfg, back, 0);
    if back.active < cfg.maxActive && i < |back.waiters| then Some(back.waiters[i].ticket) else None
  }

  /** The step releases a closed lease, and its slot goes to the caller. */
  predicate HandsOver(cfg: Config, s: System, e: Event, t: nat) {
    && e.ReleaseLease? && e.t in s.closed && e.t !in s.released
    && Successor(cfg, s.core, OrgOf(s.core.granted, e.t)) == Some(t)
  }

  /** Where nobody queued could be granted before, the waiter that is granted the freed slot leaves nobody grantable:
      it has taken the last slot, or the place its organisation had just lost. */
  lemma NobodyElse(cfg: Config, c: Core, org: int, i: nat, after: Core)
    requires Blocked(cfg, c) && OrgCount(c, org) >= 1 && i < |c.waiters| && EligibleAt(cfg, GiveBack(c, org), i)
    requires after == Grant(GiveBack(c, org), c.waiters[i]).(waiters := Without(c.waiters, i))
    ensures after.active >= cfg.maxActive || FirstEligible(cfg, after, 0) == |after.waiters|
  {
    if after.active < cfg.maxActive {
      assert !CanGrant(cfg, c, c.waiters[i].org);
      assert c.waiters[i].org == org;
      forall o ensures OrgCount(after, o) == OrgCount(c, o) {}
      forall j | 0 <= j < |after.waiters| ensures !EligibleAt(cfg, after, j) {
        var q := if j < i then j else j + 1;
        assert after.waiters[j] == c.waiters[q];
        if !c.waiters[q].cancelled { assert !CanGrant(cfg, c, c.waiters[q].org); }
      }
    }
  }

  /** A release hands its slot to at most one waiter. */
  lemma OneGrantPerRelease(cfg: Config, c: Core, org: int)
    requires Blocked(cfg, c) && OrgCount(c, org) >= 1
    ensures var back := GiveBack(c, org); var i := FirstEligible(cfg, back, 0);
            GrantLoop(cfg, back) ==
              if Successor(cfg, c, org).Some? then Grant(back, c.waiters[i]).(waiters := Without(c.waiters, i))
              else back
  {
    var back := GiveBack(c, org);
    var i := FirstEligible(cfg, back, 0);
    if Successor(cfg, c, org).Some? {
      var after := Grant(back, c.waiters[i]).(waiters := Without(c.waiters, i));
      NobodyElse(cfg, c, org, i, after);
      NothingToGrant(cfg, after);
      assert GrantLoop(cfg, back) == GrantLoop(cfg, after);
    } else {
      NothingToGrant(cfg, back);
    }
  }

  lemma LiveOrg(cfg: Config, s: System, u: nat)
    requires Inv(cfg, s) && u in s.closed && u !in s.released
    ensures OrgCount(s.core, OrgOf(s.core.granted, u)) >= 1
  {
    assert Granted(s.core, u);
    var i :| 0 <= i < |s.core.granted| && s.core.granted[i].ticket == u;
    OrgOfIndex(s.core.granted, i);
    ReleaseOne(s.core.granted, s.released, i, s.core.granted[i].org);
  }

  lemma AppendedGrant(granted: seq<Waiter>, w: Waiter, before: Core, after: Core, t: nat)
    requires before.granted == granted && after.granted == granted + [w]
    ensures Granted(after, t) <==> Granted(before, t) || w.ticket == t
  {
    if w.ticket == t { assert after.granted[|granted|].ticket == t; }
    if Granted(before, t) {
      var i :| 0 <= i < |granted| && granted[i].ticket == t;
      assert after.granted[i].ticket == t;
    }
  }

  /** Which step grants to a queued caller, as the state before it shows: the release that hands over to it. */
  lemma GrantedExactly(cfg: Config, s: System, e: Event, t: nat, after: System)
    requires Inv(cfg, s) && after == Next(cfg, s, e) && t in s.callers
    ensures GrantedBy(s, after, t) <==> HandsOver(cfg, s, e, t)
  {
    if e.ReleaseLease? && e.t in s.closed && e.t !in s.released {
      var org := OrgOf(s.core.granted, e.t);
      LiveOrg(cfg, s, e.t);
      OneGrantPerRelease(cfg, s.core, org);
      var i := FirstEligible(cfg, GiveBack(s.core, org), 0);
      if Successor(cfg, s.core, org).Some? {
        AppendedGrant(s.core.granted, s.core.waiters[i], s.core, after.core, t);
        if s.core.waiters[i].ticket == t { QueuedAreUngranted(cfg, s, t); }
      }
    } else if e.Acquire? && CanGrant(cfg, s.core, e.org) {
      AppendedGrant(s.core.granted, Waiter(s.next, e.org, false), s.core, after.core, t);
    }
  }

  /** Exactly when a lease is lost, as the state before the step shows: its caller is leaving and a release hands its
      slot to it, or it was granted and the caller leaves on its deadline, or on its cancelled flag, without looking. */
  lemma LostExactlyInTheWindow(cfg: Config, s: System, e: Event, t: nat, after: System)
    requires Inv(cfg, s) && !Lost(s, t) && after == Next(cfg, s, e)
    ensures Lost(after, t) <==>
      t in s.callers &&
      ( || (s.callers[t].Leaving? && HandsOver(cfg, s, e, t))
        || (Granted(s.core, t) && s.callers[t] == Waiting
              && (e == DeadlinePassed(t) || (e == Check(t) && t in s.cancelled))))
  {
    GrantStays(cfg, s, e, t, after);
    CallerStep(cfg, s, e, t, after);
    if t !in s.callers {
      NewcomerIsNotLost(cfg, s, e, t, after);
    } else {
      GrantedExactly(cfg, s, e, t, after);
    }
  }

  lemma GrantStays(cfg: Config, s: System, e: Event, t: nat, after: System)
    requires Inv(cfg, s) && after == Next(cfg, s, e)
    ensures Granted(s.core, t) ==> Granted(after.core, t)
  {
    StepSound(cfg, s, e, after);
    GrantedGrows(s.core, after.core);
  }

  lemma NewcomerIsNotLost(cfg: Config, s: System, e: Event, t: nat, after: System)
    requires Inv(cfg, s) && after == Next(cfg, s, e) && t !in s.callers
    ensures !Lost(after, t)
  {
    CallerStep(cfg, s, e, t, after);
    if t in after.callers && after.callers[t].Rejected? {
      assert after.core == s.core;
    }
  }

  /** A lost lease is never released: its slot stays taken for good. */
  lemma {:induction false} LostForGood(cfg: Config, s: System, events: seq<Event>, t: nat)
    requires Inv(cfg, s) && Lost(s, t)
    ensures Lost(Run(cfg, s, events), t) && t !in Run(cfg, s, events).released
    decreases |events|
  {
    if events != [] {
      var after := Next(cfg, s, events[0]);
      StepKeeps(cfg, s, events[0], after);
      LostStays(cfg, s, events[0], t, after);
      LostForGood(cfg, after, events[1..], t);
    }
  }

  lemma LostStays(cfg: Config, s: System, e: Event, t: nat, after: System)
    requires Inv(cfg, s) && Lost(s, t) && after == Next(cfg, s, e)
    ensures Lost(after, t)
  {
    GrantStays(cfg, s, e, t, after);
    CallerStep(cfg, s, e, t, after);
  }

  /** The window exists: with one slot, a waiter passes its deadline check, the running lease is released, which
      grants to the waiter, and only then does the waiter leave the queue. */
  lemma LeaseLostInARace()
    ensures exists events :: var s := Run(Config(1, 1, 1), INITIAL, events);
                             s.core.active == 1 && s.callers == map[0 := Served, 1 := Rejected(Timeout)] && Lost(s, 1)
  {
    var cfg := Config(1, 1, 1);
    var before := RaceSetup(cfg);
    var last := RaceEnd(cfg, before);
    var events := [Acquire(7)] + ([Acquire(7)] + ([DeadlinePassed(1)] + ([Close(0)] + [ReleaseLease(0), Remove(1)])));
    assert Run(cfg, INITIAL, events) == last;
  }

  /** The end of the race, from its setting on. */
  lemma RaceEnd(cfg: Config, before: System) returns (last: System)
    requires cfg == Config(1, 1, 1)
    requires before.core == Core(1, map[7 := 1], [Waiter(1, 7, false)], [Waiter(0, 7, false)])
    requires before.callers == map[0 := Served, 1 := Leaving(Timeout)] && before.closed == {0} && before.released == {}
    ensures Run(cfg, before, [ReleaseLease(0), Remove(1)]) == last
    ensures last.core.active == 1 && last.callers == map[0 := Served, 1 := Rejected(Timeout)] && Lost(last, 1)
  {
    var after := Next(cfg, before, ReleaseLease(0));
    RaceRegrant(cfg, before.core);
    last := Next(cfg, after, Remove(1));
    assert last.core.granted[1].ticket == 1;
    RunStep(cfg, after, Remove(1), []);
    RunStep(cfg, before, ReleaseLease(0), [Remove(1)]);
    assert [ReleaseLease(0)] + [Remove(1)] == [ReleaseLease(0), Remove(1)] && [Remove(1)] + [] == [Remove(1)];
  }

  lemma RunStep(cfg: Config, s: System, e: Event, rest: seq<Event>)
    ensures Run(cfg, s, [e] + rest) == Run(cfg, Next(cfg, s, e), rest)
  {
    assert ([e] + rest)[1..] == rest;
  }

  lemma RaceSetup(cfg: Config) returns (s: System)
    requires cfg == Config(1, 1, 1)
    ensures s.core == Core(1, map[7 := 1], [Waiter(1, 7, false)], [Waiter(0, 7, false)])
    ensures s.callers == map[0 := Served, 1 := Leaving(Timeout)] && s.closed == {0} && s.released == {}
    ensures forall rest ::
      Run(cfg, INITIAL, [Acquire(7)] + ([Acquire(7)] + ([DeadlinePassed(1)] + ([Close(0)] + rest))))
      == Run(cfg, s, rest)
  {
    var s0 := Next(cfg, INITIAL, Acquire(7));
    var s1 := Next(cfg, s0, Acquire(7));
    var s2 := Next(cfg, s1, DeadlinePassed(1));
    s := Next(cfg, s2, Close(0));
    forall rest
      ensures Run(cfg, INITIAL, [Acquire(7)] + ([Acquire(7)] + ([DeadlinePassed(1)] + ([Close(0)] + rest))))
          == Run(cfg, s, rest)
    {
      RunStep(cfg, s2, Close(0), rest);
      RunStep(cfg, s1, DeadlinePassed(1), [Close(0)] + rest);
      RunStep(cfg, s0, Acquire(7), [DeadlinePassed(1)] + ([Close(0)] + rest));
      RunStep(cfg, INITIAL, Acquire(7), [Acquire(7)] + ([DeadlinePassed(1)] + ([Close(0)] + rest)));
    }
  }

  lemma RaceRegrant(cfg: Config, c: Core)
    requires cfg == Config(1, 1, 1) && c == Core(1, map[7 := 1], [Waiter(1, 7, false)], [Waiter(0, 7, false)])
    ensures Release(cfg, c, 7) == Core(1, map[7 := 1], [], [Waiter(0, 7, false), Waiter(1, 7, false)])
  {
    var back := GiveBack(c, 7);
    assert back == Core(0, map[], [Waiter(1, 7, false)], [Waiter(0, 7, false)]);
    var regranted := Core(1, map[7 := 1], [], [Waiter(0, 7, false), Waiter(1, 7, false)]);
    assert FirstEligible(cfg, back, 0) == 0;
    assert Grant(back, Waiter(1, 7, false)).(waiters := Without(back.waiters, 0)) == regranted;
    assert GrantLoop(cfg, back) == GrantLoop(cfg, regranted) == regranted;
  }
}
