/** The controller object and its leases. Each method is one critical section of the condition variable. */
module AdmissionControl {
  import opened Foundations
  import opened AdmissionModel

  datatype Admission = Admitted | Enqueued | Refused

  class AdmissionController {
    const cfg: Config
    var active: int
    var orgActive: map<int, int>
    var waiters: seq<Waiter>
    var granted: seq<Waiter>

    function View(): Core
      reads this
    {
      Core(active, orgActive, waiters, granted)
    }

    constructor (maxActive: int, maxQueued: int, maxActivePerOrg: int)
      ensures cfg == Config(maxActive, maxQueued, maxActivePerOrg) && View() == EMPTY_CORE
    {
      cfg := Config(maxActive, maxQueued, maxActivePerOrg);
      active, orgActive, waiters, granted := 0, map[], [], [];
    }

    method GrantTo(w: Waiter)
      modifies `active, `orgActive, `granted
      ensures View() == Grant(old(View()), w)
    {
      active := active + 1;
      orgActive := orgActive[w.org := Get(orgActive, w.org, 0) + 1];
      granted := granted + [w];
    }

    /** The locked part of `acquire`: the fast path, the full queue, or a place at its end. */
    method Enter(ticket: nat, org: int) returns (r: Admission)
      modifies this
      ensures r.Admitted? <==> old(CanGrant(cfg, View(), org))
      ensures r.Refused? <==> !old(CanGrant(cfg, View(), org)) && old(|waiters|) >= cfg.maxQueued
      ensures View() == match r
                        case Admitted => Grant(old(View()), Waiter(ticket, org, false))
                        case Enqueued => Enqueue(old(View()), Waiter(ticket, org, false))
                        case Refused => old(View())
    {
      if active < cfg.maxActive && Get(orgActive, org, 0) < Quota(cfg) {
        GrantTo(Waiter(ticket, org, false));
        return Admitted;
      }
      if |waiters| >= cfg.maxQueued { return Refused; }
      waiters := waiters + [Waiter(ticket, org, false)];
      r := Enqueued;
    }

    /** `_release`: gives the slot back and hands it on. */
    method ReleaseSlot(org: int)
      modifies this
      ensures View() == Release(cfg, old(View()), org)
    {
      active := active - 1;
      var count := Get(orgActive, org, 0);
      orgActive := if count <= 1 then orgActive - {org} else orgActive[org := count - 1];
      GrantWaiters();
    }

    method RemoveWaiter(ticket: nat)
      modifies `waiters
      ensures waiters == RemoveTicket(old(waiters), ticket)
    {
      var i := 0;
      while i < |waiters| && waiters[i].ticket != ticket
        invariant 0 <= i <= |waiters|
        invariant forall j :: 0 <= j < i ==> waiters[j].ticket != ticket
      {
        i := i + 1;
      }
      RemoveTicketAt(waiters, ticket, i);
      if i < |waiters| {
        waiters := waiters[..i] + waiters[i + 1..];
      }
    }

    /** The scan of the queue: the first waiter that is not cancelled and whose organisation has quota. */
    method FindEligible() returns (i: nat)
      ensures i == FirstEligible(cfg, View(), 0)
    {
      i := 0;
      while i < |waiters| && (waiters[i].cancelled || Get(orgActive, waiters[i].org, 0) >= Quota(cfg))
        invariant i <= |waiters|
        invariant FirstEligible(cfg, View(), 0) == FirstEligible(cfg, View(), i)
      {
        i := i + 1;
      }
    }

    method GrantWaiters()
      modifies this
      ensures View() == TryGrantWaiters(cfg, old(View()))
    {
      ghost var target := GrantLoop(cfg, View());
      while waiters != [] && active < cfg.maxActive
        invariant GrantLoop(cfg, View()) == target
        decreases |waiters|
      {
        var i := FindEligible();
        if i == |waiters| { break; }
        GrantTo(waiters[i]);
        waiters := waiters[..i] + waiters[i + 1..];
      }
      assert View() == target;
      while waiters != [] && waiters[0].cancelled
        invariant DropCancelled(waiters) == DropCancelled(target.waiters)
        invariant View().(waiters := target.waiters) == target
        decreases |waiters|
      {
        waiters := waiters[1..];
      }
    }
  }

  /** One granted slot; closing it any number of times releases it once. */
  class AdmissionLease {
    const controller: AdmissionController
    const org: int
    var closed: bool

    constructor (controller: AdmissionController, org: int)
      ensures this.controller == controller && this.org == org && !closed
    {
      this.controller, this.org, closed := controller, org, false;
    }

    method Close()
      modifies `closed, controller
      ensures closed
      ensures controller.View() ==
        if old(closed) then old(controller.View()) else Release(controller.cfg, old(controller.View()), org)
    {
      if closed { return; }
      closed := true;
      controller.ReleaseSlot(org);
    }
  }
}
