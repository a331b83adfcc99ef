/** What every run of the admission controller keeps: the books balance, no usable slot idles, and within one
    organisation leases are granted in order of arrival. */
module AdmissionInvariants {
  import opened Foundations
  import opened AdmissionModel

  // ---------------------------------------------------------------- counting

  /** The number of granted leases whose release has not run. */
  function LiveCount(granted: seq<Waiter>, released: set<nat>): nat {
    if granted == [] then 0 else
      var last := |granted| - 1;
      LiveCount(granted[..last], released) + if granted[last].ticket in released then 0 else 1
  }

  function LiveCountOf(granted: seq<Waiter>, released: set<nat>, org: int): nat {
    if granted == [] then 0 else
      var last := |granted| - 1;
      LiveCountOf(granted[..last], released, org)
        + if granted[last].ticket !in released && granted[last].org == org then 1 else 0
  }

  ghost predicate DistinctTickets(ws: seq<Waiter>) {
    forall i, j :: 0 <= i < j < |ws| ==> ws[i].ticket != ws[j].ticket
  }

  lemma {:induction false} ReleaseUnknown(granted: seq<Waiter>, released: set<nat>, t: nat, org: int)
    requires forall i :: 0 <= i < |granted| ==> granted[i].ticket != t
    ensures LiveCount(granted, released + {t}) == LiveCount(granted, released)
    ensures LiveCountOf(granted, released + {t}, org) == LiveCountOf(granted, released, org)
  {
    if granted != [] { ReleaseUnknown(granted[..|granted| - 1], released, t, org); }
  }

  lemma {:induction false} OrgOfIndex(granted: seq<Waiter>, i: nat)
    requires DistinctTickets(granted) && i < |granted|
    ensures OrgOf(granted, granted[i].ticket) == granted[i].org
  {
    if i > 0 { OrgOfIndex(granted[1..], i - 1); }
  }

  /** Releasing a live lease takes exactly one off the total and one off its organisation. */
  lemma {:induction false} ReleaseOne(granted: seq<Waiter>, released: set<nat>, i: nat, org: int)
    requires DistinctTickets(granted) && i < |granted| && granted[i].ticket !in released
    ensures LiveCount(granted, released + {granted[i].ticket}) == LiveCount(granted, released) - 1
    ensures LiveCountOf(granted, released + {granted[i].ticket}, org)
         == LiveCountOf(granted, released, org) - if granted[i].org == org then 1 else 0
  {
    var last := |granted| - 1;
    if i == last {
      ReleaseUnknown(granted[..last], released, granted[i].ticket, org);
    } else {
      ReleaseOne(granted[..last], released, i, org);
    }
  }

  // --------------------------------------------------------------- invariants

  ghost predicate Accounted(cfg: Config, c: Core, released: set<nat>) {
    && c.active == LiveCount(c.granted, released)
    && Sum(c.orgActive) == c.active
    && (forall org :: OrgCount(c, org) == LiveCountOf(c.granted, released, org))
    && (forall org :: org in c.orgActive ==> 1 <= c.orgActive[org] <= Quota(cfg))
    && 0 <= c.active <= Max(0, cfg.maxActive)
  }

  /** No usable slot idles: every queued, uncancelled waiter is blocked. */
  ghost predicate Blocked(cfg: Config, c: Core) {
    forall i :: 0 <= i < |c.waiters| && !c.waiters[i].cancelled ==> !CanGrant(cfg, c, c.waiters[i].org)
  }

  /** `a` was granted ahead of `b` of the same organisation although it arrived later. */
  predicate Overtakes(a: Waiter, b: Waiter) {
    a.org == b.org && !b.cancelled && a.ticket >= b.ticket
  }

  /** The queue is in arrival order, grants of one organisation were too, and no one has been passed. */
  ghost predicate Fair(c: Core) {
    && (forall i, j :: 0 <= i < j < |c.waiters| ==> c.waiters[i].ticket < c.waiters[j].ticket)
    && (forall i, j :: 0 <= i < j < |c.granted| && c.granted[i].org == c.granted[j].org ==>
          c.granted[i].ticket < c.granted[j].ticket)
    && (forall i, j :: 0 <= i < |c.granted| && 0 <= j < |c.waiters| ==> !Overtakes(c.granted[i], c.waiters[j]))
  }

  ghost predicate Apart(c: Core, next: nat) {
    && DistinctTickets(c.granted)
    && (forall i :: 0 <= i < |c.granted| ==> c.granted[i].ticket < next && !c.granted[i].cancelled)
    && (forall i :: 0 <= i < |c.waiters| ==> c.waiters[i].ticket < next)
    && (forall i, j :: 0 <= i < |c.granted| && 0 <= j < |c.waiters| ==> c.granted[i].ticket != c.waiters[j].ticket)
  }

  ghost predicate CoreInv(cfg: Config, c: Core, released: set<nat>, next: nat) {
    && Accounted(cfg, c, released)
    && Fair(c)
    && Apart(c, next)
    && ReleasedWereGranted(c, released)
  }

  ghost predicate ReleasedWereGranted(c: Core, released: set<nat>) {
    forall t :: t in released ==> Granted(c, t)
  }

  // ------------------------------------------------------------------- grants

  lemma GrantAccounts(cfg: Config, c: Core, released: set<nat>, w: Waiter)
    requires Accounted(cfg, c, released) && CanGrant(cfg, c, w.org) && w.ticket !in released
    ensures Accounted(cfg, Grant(c, w), released)
  {
    var after := Grant(c, w);
    assert after.granted[..|after.granted| - 1] == c.granted;
    SumUpdate(c.orgActive, w.org, OrgCount(c, w.org) + 1);
    forall org ensures OrgCount(after, org) == LiveCountOf(after.granted, released, org) {
      assert OrgCount(c, org) == LiveCountOf(c.granted, released, org);
    }
  }

  lemma GrantQueued(cfg: Config, c: Core, released: set<nat>, next: nat, i: nat, after: Core)
    requires CoreInv(cfg, c, released, next) && i < |c.waiters|
    requires c.active < cfg.maxActive && EligibleAt(cfg, c, i) && forall j :: 0 <= j < i ==> !EligibleAt(cfg, c, j)
    requires after == Grant(c, c.waiters[i]).(waiters := Without(c.waiters, i))
    ensures CoreInv(cfg, after, released, next)
  {
    assert Accounted(cfg, after, released) by {
      QueuedIsUnreleased(c, released, next, i);
      GrantAccounts(cfg, c, released, c.waiters[i]);
      QueueOnly(cfg, Grant(c, c.waiters[i]), after, released);
    }
    assert Fair(after) by { GrantQueuedIsFair(cfg, c, i, after); }
    assert Apart(after, next) by { GrantQueuedIsApart(c, next, i, after); }
    assert ReleasedWereGranted(after, released) by { GrantedGrows(c, after); }
  }

  /** A queued waiter holds no lease yet, so none of its has been released. */
  lemma QueuedIsUnreleased(c: Core, released: set<nat>, next: nat, i: nat)
    requires Apart(c, next) && ReleasedWereGranted(c, released) && i < |c.waiters|
    ensures c.waiters[i].ticket !in released
  {
    assert !Granted(c, c.waiters[i].ticket);
  }

  lemma GrantQueuedIsApart(c: Core, next: nat, i: nat, after: Core)
    requires Apart(c, next) && Fair(c) && i < |c.waiters| && !c.waiters[i].cancelled
    requires after == Grant(c, c.waiters[i]).(waiters := Without(c.waiters, i))
    ensures Apart(after, next)
  {
    var w := c.waiters[i];
    assert forall j :: 0 <= j < |after.waiters| ==> after.waiters[j] == c.waiters[if j < i then j else j + 1];
    forall j | 0 <= j < |after.waiters| ensures after.waiters[j].ticket != w.ticket {
      var q := if j < i then j else j + 1;
      assert c.waiters[q].ticket != c.waiters[i].ticket by {
        if q < i {
          assert c.waiters[q].ticket < c.waiters[i].ticket;
        } else {
          assert c.waiters[i].ticket < c.waiters[q].ticket;
        }
      }
    }
  }

  /** The first eligible waiter is the earliest uncancelled one of its organisation. */
  lemma GrantQueuedIsFair(cfg: Config, c: Core, i: nat, after: Core)
    requires Fair(c) && i < |c.waiters|
    requires EligibleAt(cfg, c, i) && forall j :: 0 <= j < i ==> !EligibleAt(cfg, c, j)
    requires after == Grant(c, c.waiters[i]).(waiters := Without(c.waiters, i))
    ensures Fair(after)
  {
    var w := c.waiters[i];
    forall k | 0 <= k < |c.granted| && c.granted[k].org == w.org ensures c.granted[k].ticket < w.ticket {
      assert !Overtakes(c.granted[k], c.waiters[i]);
    }
    forall k, j | 0 <= k < |after.granted| && 0 <= j < |after.waiters|
      ensures !Overtakes(after.granted[k], after.waiters[j])
    {
      var q := if j < i then j else j + 1;
      assert after.waiters[j] == c.waiters[q];
      if k < |c.granted| {
        assert !Overtakes(c.granted[k], c.waiters[q]);
      } else if q < i {
        assert !EligibleAt(cfg, c, q);
      }
    }
  }

  lemma GrantedGrows(c: Core, after: Core)
    requires c.granted <= after.granted
    ensures forall t :: Granted(c, t) ==> Granted(after, t)
  {
    forall t | Granted(c, t) ensures Granted(after, t) {
      var i :| 0 <= i < |c.granted| && c.granted[i].ticket == t;
      assert after.granted[i].ticket == t;
    }
  }

  lemma {:induction false} GrantLoopKeeps(cfg: Config, c: Core, released: set<nat>, next: nat)
    requires CoreInv(cfg, c, released, next)
    ensures CoreInv(cfg, GrantLoop(cfg, c), released, next) && Blocked(cfg, GrantLoop(cfg, c))
    ensures c.granted <= GrantLoop(cfg, c).granted
    ensures |GrantLoop(cfg, c).waiters| <= |c.waiters|
    decreases |c.waiters|
  {
    var i := FirstEligible(cfg, c, 0);
    if c.waiters == [] || c.active >= cfg.maxActive || i == |c.waiters| {
      NothingToGrant(cfg, c);
    } else {
      var after := Grant(c, c.waiters[i]).(waiters := Without(c.waiters, i));
      GrantQueued(cfg, c, released, next, i, after);
      GrantLoopKeeps(cfg, after, released, next);
      assert GrantLoop(cfg, c) == GrantLoop(cfg, after);
    }
  }

  lemma NothingToGrant(cfg: Config, c: Core)
    requires c.waiters == [] || c.active >= cfg.maxActive || FirstEligible(cfg, c, 0) == |c.waiters|
    ensures GrantLoop(cfg, c) == c && Blocked(cfg, c)
  {
    forall j | 0 <= j < |c.waiters| && !c.waiters[j].cancelled ensures !CanGrant(cfg, c, c.waiters[j].org) {
      if c.active < cfg.maxActive { assert !EligibleAt(cfg, c, j); }
    }
  }

  /** A shorter queue of the same waiters, in the same order. */
  ghost predicate Subqueue(part: seq<Waiter>, whole: seq<Waiter>) {
    && |part| <= |whole|
    && (forall i :: 0 <= i < |part| ==> part[i] in whole)
    && (forall i, j :: 0 <= i < j < |part| ==> part[i].ticket < part[j].ticket)
  }

  lemma SubqueueKeeps(cfg: Config, c: Core, ws: seq<Waiter>, released: set<nat>, next: nat)
    requires CoreInv(cfg, c, released, next) && Subqueue(ws, c.waiters)
    ensures CoreInv(cfg, c.(waiters := ws), released, next)
    ensures Blocked(cfg, c) ==> Blocked(cfg, c.(waiters := ws))
  {
    var after := c.(waiters := ws);
    forall i, j | 0 <= i < |after.granted| && 0 <= j < |ws|
      ensures !Overtakes(after.granted[i], ws[j]) && after.granted[i].ticket != ws[j].ticket
    {
      var q :| 0 <= q < |c.waiters| && c.waiters[q] == ws[j];
      assert !Overtakes(c.granted[i], c.waiters[q]);
    }
    assert forall t :: Granted(after, t) <==> Granted(c, t);
    assert forall org :: OrgCount(after, org) == OrgCount(c, org);
  }

  lemma {:induction false} DropCancelledIsSubqueue(ws: seq<Waiter>)
    requires forall i, j :: 0 <= i < j < |ws| ==> ws[i].ticket < ws[j].ticket
    ensures Subqueue(DropCancelled(ws), ws)
  {
    if ws != [] && ws[0].cancelled { DropCancelledIsSubqueue(ws[1..]); }
  }

  /** The waiters that stay, in the order in which they stood. */
  lemma {:induction false} RemoveTicketMembers(ws: seq<Waiter>, t: nat)
    ensures |RemoveTicket(ws, t)| <= |ws|
    ensures forall w :: w in RemoveTicket(ws, t) ==> w in ws
    ensures forall w :: w in ws && w.ticket != t ==> w in RemoveTicket(ws, t)
  {
    if ws != [] {
      assert ws == [ws[0]] + ws[1..];
      if ws[0].ticket != t { RemoveTicketMembers(ws[1..], t); }
    }
  }

  ghost predicate InArrivalOrder(ws: seq<Waiter>) {
    forall i, j :: 0 <= i < j < |ws| ==> ws[i].ticket < ws[j].ticket
  }

  lemma TailIsLater(ws: seq<Waiter>)
    requires ws != [] && InArrivalOrder(ws)
    ensures InArrivalOrder(ws[1..])
    ensures forall w :: w in ws[1..] ==> ws[0].ticket < w.ticket
  {
    assert forall k :: 0 <= k < |ws[1..]| ==> ws[1..][k] == ws[k + 1];
  }

  lemma FirstInOrder(w: Waiter, part: seq<Waiter>)
    requires InArrivalOrder(part) && forall x :: x in part ==> w.ticket < x.ticket
    ensures InArrivalOrder([w] + part)
  {
    var ws := [w] + part;
    forall i, j | 0 <= i < j < |ws| ensures ws[i].ticket < ws[j].ticket {
      assert ws[j] == part[j - 1] && part[j - 1] in part;
      if i > 0 { assert ws[i] == part[i - 1]; }
    }
  }

  lemma {:induction false} RemoveTicketStaysInOrder(ws: seq<Waiter>, t: nat)
    requires InArrivalOrder(ws)
    ensures InArrivalOrder(RemoveTicket(ws, t))
    ensures forall w :: w in RemoveTicket(ws, t) ==> w.ticket != t
  {
    if ws != [] {
      TailIsLater(ws);
      if ws[0].ticket != t {
        RemoveTicketStaysInOrder(ws[1..], t);
        RemoveTicketMembers(ws[1..], t);
        FirstInOrder(ws[0], RemoveTicket(ws[1..], t));
      }
    }
  }

  lemma RemoveTicketIsSubqueue(ws: seq<Waiter>, t: nat)
    requires InArrivalOrder(ws)
    ensures Subqueue(RemoveTicket(ws, t), ws)
    ensures forall i :: 0 <= i < |RemoveTicket(ws, t)| ==> RemoveTicket(ws, t)[i].ticket != t
    ensures forall w :: w in ws && w.ticket != t ==> w in RemoveTicket(ws, t)
  {
    RemoveTicketMembers(ws, t);
    RemoveTicketStaysInOrder(ws, t);
    assert forall i :: 0 <= i < |RemoveTicket(ws, t)| ==> RemoveTicket(ws, t)[i] in RemoveTicket(ws, t);
  }

  // -------------------------------------------------------------------- steps

  lemma GiveBackAccounts(cfg: Config, c: Core, released: set<nat>, next: nat, i: nat)
    requires CoreInv(cfg, c, released, next) && i < |c.granted| && c.granted[i].ticket !in released
    ensures CoreInv(cfg, GiveBack(c, c.granted[i].org), released + {c.granted[i].ticket}, next)
  {
    var t, org := c.granted[i].ticket, c.granted[i].org;
    var after := GiveBack(c, org);
    ReleaseOne(c.granted, released, i, org);
    LiveBounds(c.granted, released, org);
    assert OrgCount(c, org) == LiveCountOf(c.granted, released, org) >= 1;
    if OrgCount(c, org) <= 1 {
      SumRemove(c.orgActive, org);
    } else {
      SumUpdate(c.orgActive, org, OrgCount(c, org) - 1);
    }
    forall o ensures OrgCount(after, o) == LiveCountOf(after.granted, released + {t}, o) {
      ReleaseOne(c.granted, released, i, o);
      assert OrgCount(c, o) == LiveCountOf(c.granted, released, o);
    }
    assert Granted(c, t);
    assert forall u :: Granted(after, u) <==> Granted(c, u);
  }

  lemma {:induction false} LiveBounds(granted: seq<Waiter>, released: set<nat>, org: int)
    ensures LiveCountOf(granted, released, org) <= LiveCount(granted, released)
  {
    if granted != [] { LiveBounds(granted[..|granted| - 1], released, org); }
  }

  lemma ReleaseKeeps(cfg: Config, c: Core, released: set<nat>, next: nat, i: nat)
    requires CoreInv(cfg, c, released, next) && i < |c.granted| && c.granted[i].ticket !in released
    ensures CoreInv(cfg, Release(cfg, c, c.granted[i].org), released + {c.granted[i].ticket}, next)
    ensures Blocked(cfg, Release(cfg, c, c.granted[i].org))
    ensures c.granted <= Release(cfg, c, c.granted[i].org).granted
    ensures |Release(cfg, c, c.granted[i].org).waiters| <= |c.waiters|
  {
    var back := GiveBack(c, c.granted[i].org);
    GiveBackAccounts(cfg, c, released, next, i);
    GrantLoopKeeps(cfg, back, released + {c.granted[i].ticket}, next);
    var after := GrantLoop(cfg, back);
    DropCancelledIsSubqueue(after.waiters);
    SubqueueKeeps(cfg, after, DropCancelled(after.waiters), released + {c.granted[i].ticket}, next);
  }

  /** The fast path: no queued waiter of the organisation is passed, because all of them are blocked. */
  lemma FastGrantKeeps(cfg: Config, c: Core, released: set<nat>, next: nat, org: int, after: Core)
    requires CoreInv(cfg, c, released, next) && Blocked(cfg, c) && CanGrant(cfg, c, org)
    requires after == Grant(c, Waiter(next, org, false))
    ensures CoreInv(cfg, after, released, next + 1) && Blocked(cfg, after)
  {
    assert Accounted(cfg, after, released) by {
      NewcomerIsUnreleased(c, released, next);
      GrantAccounts(cfg, c, released, Waiter(next, org, false));
    }
    assert Fair(after) by { FastGrantIsFair(cfg, c, next, org, after); }
    assert Apart(after, next + 1) by { FastGrantIsApart(c, next, org, after); }
    assert ReleasedWereGranted(after, released) by { GrantedGrows(c, after); }
    assert Blocked(cfg, after) by { GrantsKeepBlocked(cfg, c, Waiter(next, org, false)); }
  }

  lemma NewcomerIsUnreleased(c: Core, released: set<nat>, next: nat)
    requires Apart(c, next) && ReleasedWereGranted(c, released)
    ensures next !in released
  {
    assert !Granted(c, next);
  }

  lemma GrantsKeepBlocked(cfg: Config, c: Core, w: Waiter)
    requires Blocked(cfg, c)
    ensures Blocked(cfg, Grant(c, w))
  {
    var after := Grant(c, w);
    forall i | 0 <= i < |after.waiters| && !after.waiters[i].cancelled
      ensures !CanGrant(cfg, after, after.waiters[i].org)
    {
      assert !CanGrant(cfg, c, c.waiters[i].org);
    }
  }

  lemma FastGrantIsApart(c: Core, next: nat, org: int, after: Core)
    requires Apart(c, next) && after == Grant(c, Waiter(next, org, false))
    ensures Apart(after, next + 1)
  {
    assert forall i :: 0 <= i < |c.granted| ==> after.granted[i] == c.granted[i];
  }

  lemma FastGrantIsFair(cfg: Config, c: Core, next: nat, org: int, after: Core)
    requires Fair(c) && Apart(c, next) && Blocked(cfg, c) && CanGrant(cfg, c, org)
    requires after == Grant(c, Waiter(next, org, false))
    ensures Fair(after)
  {
    assert forall i :: 0 <= i < |c.granted| ==> after.granted[i] == c.granted[i];
    assert after.granted[|c.granted|] == Waiter(next, org, false);
    forall i, j | 0 <= i < |after.granted| && 0 <= j < |after.waiters|
      ensures !Overtakes(after.granted[i], after.waiters[j])
    {
      if i < |c.granted| {
        assert !Overtakes(c.granted[i], c.waiters[j]);
      } else if !c.waiters[j].cancelled {
        assert !CanGrant(cfg, c, c.waiters[j].org);
      }
    }
  }

  /** What a change of the queue alone leaves as it was. */
  lemma QueueOnly(cfg: Config, c: Core, after: Core, released: set<nat>)
    requires Accounted(cfg, c, released) && after == c.(waiters := after.waiters)
    ensures Accounted(cfg, after, released)
    ensures forall t :: Granted(after, t) <==> Granted(c, t)
    ensures forall org :: CanGrant(cfg, after, org) <==> CanGrant(cfg, c, org)
  {
    assert forall org :: OrgCount(after, org) == OrgCount(c, org);
  }

  lemma EnqueueIsFair(c: Core, next: nat, org: int, after: Core)
    requires Fair(c) && Apart(c, next) && after == Enqueue(c, Waiter(next, org, false))
    ensures Fair(after) && Apart(after, next + 1)
  {
    forall i, j | 0 <= i < |after.granted| && 0 <= j < |after.waiters|
      ensures !Overtakes(after.granted[i], after.waiters[j])
    {
      if j < |c.waiters| { assert !Overtakes(c.granted[i], c.waiters[j]); }
    }
  }

  lemma EnqueueKeeps(cfg: Config, c: Core, released: set<nat>, next: nat, org: int, after: Core)
    requires CoreInv(cfg, c, released, next) && Blocked(cfg, c) && !CanGrant(cfg, c, org)
    requires after == Enqueue(c, Waiter(next, org, false))
    ensures CoreInv(cfg, after, released, next + 1) && Blocked(cfg, after)
  {
    QueueOnly(cfg, c, after, released);
    EnqueueIsFair(c, next, org, after);
  }

  lemma CancelIsFair(c: Core, next: nat, t: nat, after: Core)
    requires Fair(c) && Apart(c, next) && after == c.(waiters := CancelTicket(c.waiters, t))
    ensures Fair(after) && Apart(after, next)
  {
    forall i, j | 0 <= i < |after.granted| && 0 <= j < |after.waiters|
      ensures !Overtakes(after.granted[i], after.waiters[j])
    {
      assert !Overtakes(c.granted[i], c.waiters[j]);
    }
  }

  lemma CancelKeeps(cfg: Config, c: Core, released: set<nat>, next: nat, t: nat, after: Core)
    requires CoreInv(cfg, c, released, next) && Blocked(cfg, c)
    requires after == c.(waiters := CancelTicket(c.waiters, t))
    ensures CoreInv(cfg, after, released, next) && Blocked(cfg, after)
  {
    QueueOnly(cfg, c, after, released);
    CancelIsFair(c, next, t, after);
  }
}
