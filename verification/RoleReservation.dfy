/** The reservation that bounds one group of roles: a token budget and a number of provider calls. */
module RoleReservation {
  import opened Foundations
  import opened RoleRouter

  datatype Reservation = Reservation(
    roles: seq<Role>, tokenBudget: int, callBudget: int, usedTokens: int, usedCalls: int, held: map<Role, int>,
    released: bool)

  datatype Refusal = AlreadyReleased | NotInGroup | AlreadyReserved | NegativeTokens | TokensExceeded | CallsExceeded

  datatype Event = Acquire(role: Role, tokens: int) | ReleaseRole(role: Role) | ReleaseGroup

  function Opened(roles: seq<Role>, tokenBudget: int, callBudget: int): Reservation {
    Reservation(roles, tokenBudget, callBudget, 0, 0, map[], false)
  }

  /** The checks of `acquire`, in order. */
  function Refuses(r: Reservation, role: Role, tokens: int): Option<Refusal> {
    if r.released then Some(AlreadyReleased)
    else if role !in r.roles then Some(NotInGroup)
    else if role in r.held then Some(AlreadyReserved)
    else if tokens < 0 then Some(NegativeTokens)
    else if r.usedTokens + tokens > r.tokenBudget then Some(TokensExceeded)
    else if r.usedCalls + 1 > r.callBudget then Some(CallsExceeded)
    else None
  }

  function Next(r: Reservation, e: Event): Reservation {
    match e
    case Acquire(role, tokens) =>
      if Refuses(r, role, tokens).Some? then r
      else r.(usedTokens := r.usedTokens + tokens, usedCalls := r.usedCalls + 1, held := r.held[role := tokens])
    case ReleaseRole(role) =>
      if r.released || role !in r.held then r
      else r.(usedTokens := r.usedTokens - r.held[role], usedCalls := r.usedCalls - 1, held := r.held - {role})
    case ReleaseGroup =>
      if r.released then r else r.(usedTokens := 0, usedCalls := 0, held := map[], released := true)
  }

  function Run(r: Reservation, events: seq<Event>): Reservation {
    if events == [] then r else Next(Run(r, events[..|events| - 1]), events[|events| - 1])
  }

  lemma RunAppend(r: Reservation, events: seq<Event>, e: Event)
    ensures Run(r, events + [e]) == Next(Run(r, events), e)
  {
    assert (events + [e])[..|events|] == events;
  }

  /** What is used is what is held: the tokens add up, each held role counts one call, and a group that holds anything
      is within both budgets. */
  ghost predicate Balanced(r: Reservation) {
    && r.usedTokens == Sum(r.held) && r.usedCalls == |r.held|
    && (forall role :: role in r.held ==> role in r.roles && r.held[role] >= 0)
    && (r.held != map[] ==> r.usedTokens <= r.tokenBudget && r.usedCalls <= r.callBudget)
    && (r.released ==> r.held == map[])
  }

  lemma AcquireStaysBalanced(r: Reservation, role: Role, tokens: int)
    requires Balanced(r)
    ensures Balanced(Next(r, Acquire(role, tokens)))
  {
    SumUpdate(r.held, role, tokens);
  }

  lemma ReleaseStaysBalanced(r: Reservation, role: Role)
    requires Balanced(r)
    ensures Balanced(Next(r, ReleaseRole(role)))
  {
    if role in r.held { SumRemove(r.held, role); }
  }

  lemma StepStaysBalanced(r: Reservation, e: Event)
    requires Balanced(r)
    ensures Balanced(Next(r, e))
  {
    match e
    case Acquire(role, tokens) => AcquireStaysBalanced(r, role, tokens);
    case ReleaseRole(role) => ReleaseStaysBalanced(r, role);
    case ReleaseGroup =>
  }

  /** Whatever is acquired and released, in any order and however often, the reservation stays balanced. */
  lemma {:induction false} ReachableIsBalanced(roles: seq<Role>, tokenBudget: int, callBudget: int, events: seq<Event>)
    ensures Balanced(Run(Opened(roles, tokenBudget, callBudget), events))
  {
    if events != [] {
      ReachableIsBalanced(roles, tokenBudget, callBudget, events[..|events| - 1]);
      StepStaysBalanced(Run(Opened(roles, tokenBudget, callBudget), events[..|events| - 1]), events[|events| - 1]);
    }
  }

  /** Releasing the group leaves nothing used, once and for all: no later acquire succeeds. */
  lemma {:induction false} ReleasedForGood(r: Reservation, events: seq<Event>)
    requires Balanced(r)
    ensures var after := Run(Next(r, ReleaseGroup), events);
            after.released && after.held == map[] && after.usedTokens == 0 && after.usedCalls == 0
  {
    if events != [] {
      ReleasedForGood(r, events[..|events| - 1]);
    }
  }

  /** The reservation object. Each method runs under its lock, so it is one step. */
  class GroupReservation {
    const roles: seq<Role>
    const tokenBudget: int
    const callBudget: int
    var usedTokens: int
    var usedCalls: int
    var held: map<Role, int>
    var released: bool

    function View(): Reservation
      reads this
    {
      Reservation(roles, tokenBudget, callBudget, usedTokens, usedCalls, held, released)
    }

    constructor (roles: seq<Role>, tokenBudget: int, callBudget: int)
      ensures View() == Opened(roles, tokenBudget, callBudget)
    {
      this.roles, this.tokenBudget, this.callBudget := roles, tokenBudget, callBudget;
      usedTokens, usedCalls, held, released := 0, 0, map[], false;
    }

    method Acquire(role: Role, tokens: int) returns (refusal: Option<Refusal>)
      modifies this
      ensures refusal == Refuses(old(View()), role, tokens)
      ensures View() == Next(old(View()), Event.Acquire(role, tokens))
    {
      if released { return Some(AlreadyReleased); }
      if role !in roles { return Some(NotInGroup); }
      if role in held { return Some(AlreadyReserved); }
      if tokens < 0 { return Some(NegativeTokens); }
      if usedTokens + tokens > tokenBudget { return Some(TokensExceeded); }
      if usedCalls + 1 > callBudget { return Some(CallsExceeded); }
      usedTokens := usedTokens + tokens;
      usedCalls := usedCalls + 1;
      held := held[role := tokens];
      refusal := None;
    }

    method ReleaseRole(role: Role)
      modifies this
      ensures View() == Next(old(View()), Event.ReleaseRole(role))
    {
      if released || role !in held { return; }
      usedTokens := usedTokens - held[role];
      held := held - {role};
      usedCalls := usedCalls - 1;
    }

    method Release()
      modifies this
      ensures View() == Next(old(View()), ReleaseGroup)
    {
      if released { return; }
      released := true;
      usedTokens, usedCalls := 0, 0;
      held := map[];
    }
  }
}
