/** Bounded admission: the controller's critical sections as functions of its state, and the runs of any number
    of callers through them. A ticket numbers the calls of `acquire` in the order of their critical sections. */
module AdmissionModel {
  import opened Foundations

  datatype Config = Config(maxActive: int, maxQueued: int, maxActivePerOrg: int)

  /** An unset or zero share means half of the slots, rounded up. */
  function Quota(cfg: Config): int {
    if cfg.maxActivePerOrg != 0 then cfg.maxActivePerOrg else Max((cfg.maxActive + 1) / 2, 1)
  }

  datatype Waiter = Waiter(ticket: nat, org: int, cancelled: bool)

  /** `granted` lists, in order, the callers that were given a lease: on the fast path, or as queued waiters whose
      `acquired` flag and lease were set. */
  datatype Core = Core(active: int, orgActive: map<int, int>, waiters: seq<Waiter>, granted: seq<Waiter>)

  const EMPTY_CORE := Core(0, map[], [], [])

  function OrgCount(c: Core, org: int): int {
    Get(c.orgActive, org, 0)
  }

  predicate CanGrant(cfg: Config, c: Core, org: int) {
    c.active < cfg.maxActive && OrgCount(c, org) < Quota(cfg)
  }

  function Grant(c: Core, w: Waiter): Core {
    c.(active := c.active + 1, orgActive := c.orgActive[w.org := OrgCount(c, w.org) + 1], granted := c.granted + [w])
  }

  predicate EligibleAt(cfg: Config, c: Core, i: nat)
    requires i < |c.waiters|
  {
    !c.waiters[i].cancelled && OrgCount(c, c.waiters[i].org) < Quota(cfg)
  }

  /** The first eligible position from `i` on, or the queue's length. */
  function FirstEligible(cfg: Config, c: Core, i: nat): (r: nat)
    requires i <= |c.waiters|
    ensures i <= r <= |c.waiters|
    ensures r < |c.waiters| ==> EligibleAt(cfg, c, r)
    ensures forall j :: i <= j < r ==> !EligibleAt(cfg, c, j)
    decreases |c.waiters| - i
  {
    if i == |c.waiters| || EligibleAt(cfg, c, i) then i else FirstEligible(cfg, c, i + 1)
  }

  function Without(ws: seq<Waiter>, i: nat): seq<Waiter>
    requires i < |ws|
  {
    ws[..i] + ws[i + 1..]
  }

  function GrantLoop(cfg: Config, c: Core): Core
    decreases |c.waiters|
  {
    if c.waiters == [] || c.active >= cfg.maxActive then c else
    var i := FirstEligible(cfg, c, 0);
    if i == |c.waiters| then c else GrantLoop(cfg, Grant(c, c.waiters[i]).(waiters := Without(c.waiters, i)))
  }

  function DropCancelled(ws: seq<Waiter>): seq<Waiter> {
    if ws != [] && ws[0].cancelled then DropCancelled(ws[1..]) else ws
  }

  function TryGrantWaiters(cfg: Config, c: Core): Core {
    var after := GrantLoop(cfg, c);
    after.(waiters := DropCancelled(after.waiters))
  }

  function GiveBack(c: Core, org: int): Core {
    c.(active := c.active - 1,
       orgActive := if OrgCount(c, org) <= 1 then c.orgActive - {org} else c.orgActive[org := OrgCount(c, org) - 1])
  }

  function Release(cfg: Config, c: Core, org: int): Core {
    TryGrantWaiters(cfg, GiveBack(c, org))
  }

  function Enqueue(c: Core, w: Waiter): Core {
    c.(waiters := c.waiters + [w])
  }

  /** `deque.remove`: takes out the waiter if it is still queued. */
  function RemoveTicket(ws: seq<Waiter>, t: nat): seq<Waiter> {
    if ws == [] then [] else if ws[0].ticket == t then ws[1..] else [ws[0]] + RemoveTicket(ws[1..], t)
  }

  /** The first waiter of the ticket goes, if there is one. */
  lemma {:induction false} RemoveTicketAt(ws: seq<Waiter>, t: nat, i: nat)
    requires i <= |ws| && forall j :: 0 <= j < i ==> ws[j].ticket != t
    requires i < |ws| ==> ws[i].ticket == t
    ensures RemoveTicket(ws, t) == if i < |ws| then Without(ws, i) else ws
  {
    if i > 0 {
      RemoveTicketAt(ws[1..], t, i - 1);
      if i < |ws| { WithoutLater(ws, i); } else { assert ws == [ws[0]] + ws[1..]; }
    }
  }

  lemma WithoutLater(ws: seq<Waiter>, i: nat)
    requires 0 < i < |ws|
    ensures Without(ws, i) == [ws[0]] + Without(ws[1..], i - 1)
  {
    assert ws[..i] == [ws[0]] + ws[1..][..i - 1];
    assert ws[i + 1..] == ws[1..][i..];
  }

  function CancelTicket(ws: seq<Waiter>, t: nat): seq<Waiter> {
    seq(|ws|, i requires 0 <= i < |ws| => if ws[i].ticket == t then ws[i].(cancelled := true) else ws[i])
  }

  // ---------------------------------------------------------------------- runs

  datatype Reason = QueueFull | Timeout | Cancelled
  /** Where a call of `acquire` stands; `Leaving` is between the check of the grant and the removal from the queue. */
  datatype Caller = Waiting | Leaving(reason: Reason) | Served | Rejected(reason: Reason)

  datatype System = System(
    core: Core,
    next: nat,
    callers: map<nat, Caller>,
    cancelled: set<nat>,
    closed: set<nat>,
    released: set<nat>)

  const INITIAL := System(EMPTY_CORE, 0, map[], {}, {}, {})

  /** `Release(t)` is the critical section of the `close` that found the lease open. Nothing in the controller sets
      the cancelled flag; the environment may, at any time. */
  datatype Event =
    | Acquire(org: int)
    | DeadlinePassed(t: nat)
    | Check(t: nat)
    | Remove(t: nat)
    | Cancel(t: nat)
    | Close(t: nat)
    | ReleaseLease(t: nat)

  predicate Granted(c: Core, t: nat) {
    exists i :: 0 <= i < |c.granted| && c.granted[i].ticket == t
  }

  function OrgOf(granted: seq<Waiter>, t: nat): int {
    if granted == [] then 0 else if granted[0].ticket == t then granted[0].org else OrgOf(granted[1..], t)
  }

  function Next(cfg: Config, s: System, e: Event): System {
    match e
    case Acquire(org) =>
      var w := Waiter(s.next, org, false);
      var arrived := s.(next := s.next + 1);
      if CanGrant(cfg, s.core, org) then arrived.(core := Grant(s.core, w), callers := s.callers[s.next := Served])
      else if |s.core.waiters| >= cfg.maxQueued then arrived.(callers := s.callers[s.next := Rejected(QueueFull)])
      else arrived.(core := Enqueue(s.core, w), callers := s.callers[s.next := Waiting])
    case DeadlinePassed(t) =>
      if t in s.callers && s.callers[t] == Waiting then s.(callers := s.callers[t := Leaving(Timeout)]) else s
    case Check(t) =>
      if t !in s.callers || s.callers[t] != Waiting then s
      else if t in s.cancelled then s.(callers := s.callers[t := Leaving(Cancelled)])
      else if Granted(s.core, t) then s.(callers := s.callers[t := Served])
      else s.(callers := s.callers[t := Leaving(Timeout)])
    case Remove(t) =>
      if t in s.callers && s.callers[t].Leaving?
      then s.(core := s.core.(waiters := RemoveTicket(s.core.waiters, t)),
              callers := s.callers[t := Rejected(s.callers[t].reason)])
      else s
    case Cancel(t) =>
      s.(core := s.core.(waiters := CancelTicket(s.core.waiters, t)), cancelled := s.cancelled + {t})
    case Close(t) =>
      if t in s.callers && s.callers[t] == Served then s.(closed := s.closed + {t}) else s
    case ReleaseLease(t) =>
      if t in s.closed && t !in s.released
      then s.(core := Release(cfg, s.core, OrgOf(s.core.granted, t)), released := s.released + {t})
      else s
  }

  function Run(cfg: Config, s: System, events: seq<Event>): System
    decreases |events|
  {
    if events == [] then s else Run(cfg, Next(cfg, s, events[0]), events[1..])
  }
}
