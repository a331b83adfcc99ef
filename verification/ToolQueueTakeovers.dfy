/** What becomes of a task whose worker has crashed, when nothing but claims happens. */
module ToolQueueTakeovers {
  import opened Foundations
  import opened ToolQueueModel
  import opened ToolQueueRuns

  /** A claim of a named worker, whose lease is not over as soon as it is made. */
  predicate NamedClaim(e: Event, now: real) {
    e.DoClaim? && e.now == now && e.owner != "" && e.timeout > 0.0
  }

  /** The queued tasks of task `i`'s key that can be claimed and come before it. */
  function Ahead(q: Queue, i: nat, now: real): set<nat>
    requires i < |q.tasks|
  {
    set j: nat | j < |q.tasks| && j != i && Precedes(q, j, i) && q.tasks[j].status == Queued
                 && Eligible(q.tasks[j], now) && q.tasks[j].rateKey == q.tasks[i].rateKey
  }

  /** The key has room left for task `i` once all that comes before it has been claimed. */
  predicate Room(cfg: Config, q: Queue, i: nat, now: real)
    requires i < |q.tasks|
  {
    q.tasks[i].rateKey == "" || InFlight(q.tasks, q.tasks[i].rateKey) + |Ahead(q, i, now)| < Cap(cfg)
  }

  function EligibleTasks(q: Queue, now: real): set<nat> {
    set j: nat | j < |q.tasks| && Eligible(q.tasks[j], now)
  }

  predicate Lost(q: Queue, i: nat, now: real) {
    i < |q.tasks| && q.tasks[i].status == Processing && Eligible(q.tasks[i], now)
  }

  predicate TakenOver(q: Queue, i: nat, now: real) {
    i < |q.tasks| && q.tasks[i].status == Processing && q.tasks[i].owner != "" && now < q.tasks[i].leaseUntil
  }

  // ------------------------------------------------------------------ one claim

  ghost predicate Leases(q: Queue, c: nat, e: Event, after: Queue)
    requires e.DoClaim?
  {
    c < |q.tasks| && after.tasks == q.tasks[c := Lease(q.tasks[c], e.owner, e.now + e.timeout)]
  }

  lemma AheadOfOthers(q: Queue, c: nat, e: Event, after: Queue, i: nat, now: real)
    requires NamedClaim(e, now) && Leases(q, c, e, after) && i < |q.tasks| && c != i
    ensures Ahead(after, i, now) == Ahead(q, i, now) - {c}
  {
    forall j: nat | j < |q.tasks| && j != c ensures j in Ahead(after, i, now) <==> j in Ahead(q, i, now) {
      assert after.tasks[j] == q.tasks[j] && after.tasks[i] == q.tasks[i];
    }
  }

  /** A claim of another task moves it from the queued ones ahead to those being processed, or adds to the latter. */
  lemma OtherClaimCounts(q: Queue, c: nat, e: Event, after: Queue, i: nat, now: real)
    requires NamedClaim(e, now) && Leases(q, c, e, after) && i < |q.tasks| && c != i && Eligible(q.tasks[c], now)
    ensures after.tasks[i] == q.tasks[i]
    ensures var key := q.tasks[i].rateKey;
            InFlight(after.tasks, key) + |Ahead(after, i, now)|
            == InFlight(q.tasks, key) + |Ahead(q, i, now)|
               + if q.tasks[c].status == Queued && q.tasks[c].rateKey == key && !Precedes(q, c, i) then 1 else 0
  {
    AheadOfOthers(q, c, e, after, i, now);
    InFlightUpdate(q.tasks, c, Lease(q.tasks[c], e.owner, e.now + e.timeout), q.tasks[i].rateKey);
    if c in Ahead(q, i, now) {
      assert |Ahead(q, i, now) - {c}| == |Ahead(q, i, now)| - 1;
    } else {
      assert Ahead(q, i, now) - {c} == Ahead(q, i, now);
    }
  }

  lemma AheadIsClaimable(cfg: Config, q: Queue, i: nat, j: nat, now: real)
    requires i < |q.tasks| && Claimable(cfg, q, i, now) && j in Ahead(q, i, now)
    ensures Claimable(cfg, q, j, now) && !Precedes(q, i, j)
  {
  }

  /** While there is no room for it the lost task is not chosen: its key is at the cap, or something ahead of it is. */
  lemma NoRoomNotChosen(cfg: Config, q: Queue, i: nat, now: real)
    requires Lost(q, i, now) && !Room(cfg, q, i, now)
    ensures ClaimIndex(cfg, q, now) != Some(i)
  {
    ClaimRefinesItsSpecification(cfg, q, now, i);
    if Claimable(cfg, q, i, now) {
      ExpiredLeaseClaimableIff(cfg, q, i, now);
      assert Ahead(q, i, now) != {};
      var j :| j in Ahead(q, i, now);
      AheadIsClaimable(cfg, q, i, j, now);
    }
  }

  lemma ClaimLeases(cfg: Config, s: System, e: Event, after: System)
    requires e.DoClaim? && after == Next(cfg, s, e)
    ensures match ClaimIndex(cfg, s.queue, e.now)
            case None => after.queue == s.queue
            case Some(c) => Leases(s.queue, c, e, after.queue) && Claimable(cfg, s.queue, c, e.now)
  {
    if ClaimIndex(cfg, s.queue, e.now).Some? { ChosenIndex(cfg, s.queue, e.now); }
  }

  lemma NoRoomStays(cfg: Config, s: System, e: Event, after: System, i: nat, now: real)
    requires NamedClaim(e, now) && after == Next(cfg, s, e) && Lost(s.queue, i, now) && !Room(cfg, s.queue, i, now)
    ensures Lost(after.queue, i, now) && !Room(cfg, after.queue, i, now) && after.queue.tasks[i] == s.queue.tasks[i]
  {
    ClaimLeases(cfg, s, e, after);
    NoRoomNotChosen(cfg, s.queue, i, now);
    var c := ClaimIndex(cfg, s.queue, now);
    if c.Some? { OtherClaimCounts(s.queue, c.value, e, after.queue, i, now); }
  }

  lemma ChosenWhenRoom(cfg: Config, q: Queue, i: nat, now: real)
    requires Lost(q, i, now) && Room(cfg, q, i, now)
    ensures ClaimIndex(cfg, q, now).Some?
    ensures var c := ClaimIndex(cfg, q, now).value; c < |q.tasks| && Claimable(cfg, q, c, now) && Precedes(q, c, i)
  {
    ExpiredLeaseClaimableIff(cfg, q, i, now);
    ClaimRefinesItsSpecification(cfg, q, now, i);
    ClaimRefinesItsSpecification(cfg, q, now, ClaimIndex(cfg, q, now).value);
  }

  lemma FewerEligible(q: Queue, c: nat, e: Event, after: Queue, now: real)
    requires NamedClaim(e, now) && Leases(q, c, e, after) && Eligible(q.tasks[c], now)
    ensures |EligibleTasks(after, now)| == |EligibleTasks(q, now)| - 1
  {
    assert EligibleTasks(after, now) == EligibleTasks(q, now) - {c};
  }

  lemma RoomStays(cfg: Config, s: System, e: Event, after: System, i: nat, now: real)
    requires NamedClaim(e, now) && after == Next(cfg, s, e) && Lost(s.queue, i, now) && Room(cfg, s.queue, i, now)
    ensures TakenOver(after.queue, i, now) || (Lost(after.queue, i, now) && Room(cfg, after.queue, i, now))
    ensures |after.queue.tasks| == |s.queue.tasks|
    ensures |EligibleTasks(after.queue, now)| == |EligibleTasks(s.queue, now)| - 1
  {
    ClaimLeases(cfg, s, e, after);
    ChosenWhenRoom(cfg, s.queue, i, now);
    var c := ClaimIndex(cfg, s.queue, now).value;
    FewerEligible(s.queue, c, e, after.queue, now);
    if c != i { OtherClaimCounts(s.queue, c, e, after.queue, i, now); }
  }

  lemma TakenOverStays(cfg: Config, s: System, e: Event, after: System, i: nat, now: real)
    requires NamedClaim(e, now) && after == Next(cfg, s, e) && TakenOver(s.queue, i, now)
    ensures TakenOver(after.queue, i, now)
  {
    ClaimLeases(cfg, s, e, after);
  }

  // --------------------------------------------------------------- many claims

  lemma {:induction false} NoRoomForEver(cfg: Config, s: System, events: seq<Event>, i: nat, now: real)
    requires Lost(s.queue, i, now) && !Room(cfg, s.queue, i, now)
    requires forall e :: e in events ==> NamedClaim(e, now)
    ensures Lost(Run(cfg, s, events).queue, i, now) && Run(cfg, s, events).queue.tasks[i] == s.queue.tasks[i]
    decreases |events|
  {
    if events != [] {
      assert events[0] in events;
      NoRoomStays(cfg, s, events[0], Next(cfg, s, events[0]), i, now);
      NoRoomForEver(cfg, Next(cfg, s, events[0]), events[1..], i, now);
    }
  }

  lemma {:induction false} TakenOverForGood(cfg: Config, s: System, events: seq<Event>, i: nat, now: real)
    requires TakenOver(s.queue, i, now)
    requires forall e :: e in events ==> NamedClaim(e, now)
    ensures TakenOver(Run(cfg, s, events).queue, i, now)
    decreases |events|
  {
    if events != [] {
      assert events[0] in events;
      TakenOverStays(cfg, s, events[0], Next(cfg, s, events[0]), i, now);
      TakenOverForGood(cfg, Next(cfg, s, events[0]), events[1..], i, now);
    }
  }

  lemma {:induction false} RoomSuffices(cfg: Config, s: System, events: seq<Event>, i: nat, now: real)
    requires Lost(s.queue, i, now) && Room(cfg, s.queue, i, now)
    requires forall e :: e in events ==> NamedClaim(e, now)
    requires |events| >= |EligibleTasks(s.queue, now)|
    ensures TakenOver(Run(cfg, s, events).queue, i, now)
    decreases |events|
  {
    assert i in EligibleTasks(s.queue, now);
    assert events[0] in events;
    var after := Next(cfg, s, events[0]);
    RoomStays(cfg, s, events[0], after, i, now);
    if TakenOver(after.queue, i, now) {
      TakenOverForGood(cfg, after, events[1..], i, now);
    } else {
      RoomSuffices(cfg, after, events[1..], i, now);
    }
  }

  lemma {:induction false} SetOfIndices(indices: set<nat>, n: nat)
    requires forall j :: j in indices ==> j < n
    ensures |indices| <= n
    decreases n
  {
    if n > 0 { SetOfIndices(indices - {n - 1}, n - 1); } else { assert indices == {}; }
  }

  /** A crashed worker's task, its lease over, is taken over by claims alone exactly when its key is empty, or those
      being processed and the claimable queued ones ahead of it leave room below the cap. As many claims as there are
      tasks are enough for that, and without room no number is. */
  lemma TakenOverExactly(cfg: Config, s: System, events: seq<Event>, i: nat, now: real)
    requires Lost(s.queue, i, now)
    requires forall e :: e in events ==> NamedClaim(e, now)
    ensures TakenOver(Run(cfg, s, events).queue, i, now) ==> Room(cfg, s.queue, i, now)
    ensures |events| >= |s.queue.tasks| ==>
      (TakenOver(Run(cfg, s, events).queue, i, now) <==> Room(cfg, s.queue, i, now))
  {
    SetOfIndices(EligibleTasks(s.queue, now), |s.queue.tasks|);
    if !Room(cfg, s.queue, i, now) {
      NoRoomForEver(cfg, s, events, i, now);
    } else if |events| >= |s.queue.tasks| {
      RoomSuffices(cfg, s, events, i, now);
    }
  }

  lemma {:induction false} ClaimsRunOut(cfg: Config, s: System, events: seq<Event>, now: real)
    requires forall e :: e in events ==> NamedClaim(e, now)
    requires |events| >= |EligibleTasks(s.queue, now)|
    ensures ClaimIndex(cfg, Run(cfg, s, events).queue, now) == None
    decreases |events|
  {
    BestOfIsBest(cfg, s.queue, now, |s.queue.tasks|);
    if events == [] {
      forall j: nat | j < |s.queue.tasks| ensures !Claimable(cfg, s.queue, j, now) {
        assert j !in EligibleTasks(s.queue, now);
      }
    } else {
      assert events[0] in events;
      var after := Next(cfg, s, events[0]);
      ClaimLeases(cfg, s, events[0], after);
      if ClaimIndex(cfg, s.queue, now) == None {
        NothingToClaim(cfg, s, events, now);
      } else {
        FewerEligible(s.queue, ClaimIndex(cfg, s.queue, now).value, events[0], after.queue, now);
        ClaimsRunOut(cfg, after, events[1..], now);
      }
    }
  }

  lemma {:induction false} NothingToClaim(cfg: Config, s: System, events: seq<Event>, now: real)
    requires ClaimIndex(cfg, s.queue, now) == None && forall e :: e in events ==> NamedClaim(e, now)
    ensures Run(cfg, s, events).queue == s.queue
    decreases |events|
  {
    if events != [] {
      assert events[0] in events;
      ClaimLeases(cfg, s, events[0], Next(cfg, s, events[0]));
      NothingToClaim(cfg, Next(cfg, s, events[0]), events[1..], now);
    }
  }

  lemma {:induction false} KeysStay(cfg: Config, s: System, events: seq<Event>, i: nat)
    requires i < |s.queue.tasks|
    ensures i < |Run(cfg, s, events).queue.tasks|
    ensures Run(cfg, s, events).queue.tasks[i].rateKey == s.queue.tasks[i].rateKey
    decreases |events|
  {
    if events != [] {
      if events[0].DoClaim? { ClaimLeases(cfg, s, events[0], Next(cfg, s, events[0])); }
      KeysStay(cfg, Next(cfg, s, events[0]), events[1..], i);
    }
  }

  /** Without room the task is lost for good: once as many claims were made as there are tasks, it can never be claimed
      again, however late and whatever else happens, until a task of its key is finished. */
  lemma WithoutRoomLostForGood(cfg: Config, s: System, claims: seq<Event>, i: nat, now: real,
                               later: seq<Event>, time: real)
    requires Lost(s.queue, i, now) && !Room(cfg, s.queue, i, now)
    requires |claims| >= |s.queue.tasks| && forall e :: e in claims ==> NamedClaim(e, now)
    requires KeyLeftAlone(cfg, Run(cfg, s, claims), later, s.queue.tasks[i].rateKey)
    ensures var q := Run(cfg, Run(cfg, s, claims), later).queue; i < |q.tasks| && !Claimable(cfg, q, i, time)
  {
    var after := Run(cfg, s, claims);
    NoRoomForEver(cfg, s, claims, i, now);
    SetOfIndices(EligibleTasks(s.queue, now), |s.queue.tasks|);
    ClaimsRunOut(cfg, s, claims, now);
    ClaimRefinesItsSpecification(cfg, after.queue, now, i);
    ExpiredLeaseClaimableIff(cfg, after.queue, i, now);
    KeysStay(cfg, after, later, i);
    SaturatedKeyIsStuck(cfg, after, later, s.queue.tasks[i].rateKey, i, time);
  }
}
