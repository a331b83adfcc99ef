/** Running the searcher and the memory agent as one bounded group, and merging what they produced. */
module ParallelRoleGroups {
  import opened Foundations
  import opened KeyedLists
  import opened RoleRouter
  import opened RoleReservation

  datatype Citation = Citation(chunkId: string, sourceType: string, sourceId: string, text: string)

  datatype RoleResult = RoleResult(role: Role, text: string)

  /** A branch's own result, which has not touched shared state. */
  datatype Delta = Delta(
    role: Role, trace: seq<string>, result: RoleResult, citations: seq<Citation>, actionItems: seq<string>,
    riskFlags: seq<string>)

  function RoleOf(d: Delta): Role { d.role }

  // ------------------------------------------------------------------ estimates

  /** The lengths an estimate looks at: the goal's, and each context chunk's snippet's. */
  datatype Sizes = Sizes(goal: nat, snippets: seq<nat>)

  function SnippetTokens(snippets: seq<nat>): nat {
    if snippets == [] then 0 else Max(1, snippets[0] / 4) + SnippetTokens(snippets[1..])
  }

  function EstimateRoleTokens(request: Option<Sizes>, role: Role): (tokens: int)
    ensures tokens >= 32
  {
    var base := if role == Searcher then 64 else 32;
    if request.None? then base
    else base + Max(1, request.value.goal / 4) + SnippetTokens(Slice(request.value.snippets, 20))
  }

  function TotalTokens(request: Option<Sizes>, roles: seq<Role>): int {
    if roles == [] then 0 else
      TotalTokens(request, roles[..|roles| - 1]) + EstimateRoleTokens(request, roles[|roles| - 1])
  }

  lemma {:induction false} TotalTokensOfPrefix(request: Option<Sizes>, roles: seq<Role>, n: nat)
    requires n <= |roles|
    ensures 0 <= TotalTokens(request, roles[..n]) <= TotalTokens(request, roles)
    decreases |roles|
  {
    if n == |roles| {
      assert roles[..n] == roles;
      if n > 0 { TotalTokensOfPrefix(request, roles[..n - 1], n - 1); }
    } else {
      TotalTokensOfPrefix(request, roles[..|roles| - 1], n);
      assert roles[..|roles| - 1][..n] == roles[..n];
    }
  }

  // -------------------------------------------------------------- specification

  const ELIGIBLE := {Searcher, MemoryAgent}
  const CALL_BUDGET := 2

  datatype Failure<E> = BadLimit | Unsupported | BudgetExceeded(why: Refusal) | BranchFailed(error: E)

  function Ordered(roles: seq<Role>): seq<Role> { OrderedSubset(AsSet(roles)) }

  predicate GoesParallel(request: Option<Sizes>, ordered: seq<Role>, tokenBudget: int) {
    |ordered| > 1 && TotalTokens(request, ordered) <= tokenBudget && |ordered| <= CALL_BUDGET
  }

  /** The branches' deltas in the order given, or the first failure in that order. */
  function Collected<E>(run: Role -> Result<Delta, E>, order: seq<Role>): Result<seq<Delta>, E> {
    if order == [] then Ok([]) else
      var before, last := Collected(run, order[..|order| - 1]), run(order[|order| - 1]);
      if before.Err? then before
      else if last.Err? then Err(last.error)
      else Ok(before.value + [last.value])
  }

  /** One role after another, each within the budget on its own. */
  function InTurn<E>(request: Option<Sizes>, run: Role -> Result<Delta, E>, roles: seq<Role>, tokenBudget: int)
    : Result<seq<Delta>, Failure<E>>
  {
    if roles == [] then Ok([]) else
      var role := roles[|roles| - 1];
      var before := InTurn(request, run, roles[..|roles| - 1], tokenBudget);
      if before.Err? then before
      else if EstimateRoleTokens(request, role) > tokenBudget then Err(BudgetExceeded(TokensExceeded))
      else if run(role).Err? then Err(BranchFailed(run(role).error))
      else Ok(before.value + [run(role).value])
  }

  function InsertByRole(d: Delta, ds: seq<Delta>): seq<Delta> {
    if ds == [] || Position(d.role) <= Position(ds[0].role) then [d] + ds else [ds[0]] + InsertByRole(d, ds[1..])
  }

  /** `deltas.sort(key=canonical position)`. */
  function SortedByRole(ds: seq<Delta>): seq<Delta> {
    if ds == [] then [] else InsertByRole(ds[0], SortedByRole(ds[1..]))
  }

  function Executed<E>(request: Option<Sizes>, run: Role -> Result<Delta, E>, roles: seq<Role>, maxParallel: int,
                       tokenBudget: int, order: seq<Role>): Result<seq<Delta>, Failure<E>>
  {
    if maxParallel < 1 then Err(BadLimit)
    else if AsSet(roles) - ELIGIBLE != {} then Err(Unsupported)
    else if GoesParallel(request, Ordered(roles), tokenBudget) then
      match Collected(run, order)
      case Err(e) => Err(BranchFailed(e))
      case Ok(ds) => Ok(SortedByRole(ds))
    else InTurn(request, run, Ordered(roles), tokenBudget)
  }

  /** A branch's delta carries its own role. */
  ghost predicate Labelled<E>(run: Role -> Result<Delta, E>) {
    forall role :: run(role).Ok? ==> run(role).value.role == role
  }

  // ------------------------------------------------------------------ execution

  /** Each role's share is new, and the shares so far are within the total. */
  lemma NextShare(request: Option<Sizes>, ordered: seq<Role>, i: nat)
    requires InOrder(ordered) && i < |ordered|
    ensures ordered[i] !in ordered[..i] && AsSet(ordered[..i + 1]) == AsSet(ordered[..i]) + {ordered[i]}
    ensures TotalTokens(request, ordered[..i + 1])
            == TotalTokens(request, ordered[..i]) + EstimateRoleTokens(request, ordered[i])
    ensures TotalTokens(request, ordered[..i + 1]) <= TotalTokens(request, ordered)
  {
    TotalTokensOfPrefix(request, ordered, i + 1);
    assert ordered[..i + 1][..i] == ordered[..i];
    assert ordered[..i + 1] == ordered[..i] + [ordered[i]];
  }

  /** The reservation once the first `i` roles hold their shares. */
  predicate Shared(r: Reservation, request: Option<Sizes>, ordered: seq<Role>, i: nat)
    requires i <= |ordered|
  {
    && r.roles == ordered && r.callBudget == |ordered| && !r.released && r.held.Keys == AsSet(ordered[..i])
    && r.usedTokens == TotalTokens(request, ordered[..i]) && r.usedCalls == i
  }

  lemma ShareIsGranted(r: Reservation, request: Option<Sizes>, ordered: seq<Role>, i: nat)
    requires InOrder(ordered) && i < |ordered| && Shared(r, request, ordered, i)
    requires TotalTokens(request, ordered) <= r.tokenBudget
    ensures var tokens := EstimateRoleTokens(request, ordered[i]);
            && Refuses(r, ordered[i], tokens).None?
            && Shared(Next(r, Event.Acquire(ordered[i], tokens)), request, ordered, i + 1)
  {
    NextShare(request, ordered, i);
  }

  /** The acquisitions of the parallel path: within the total, none is refused. */
  method AcquireAll(reservation: GroupReservation, request: Option<Sizes>, ordered: seq<Role>)
      returns (refusal: Option<Refusal>)
    requires reservation.View() == Opened(ordered, reservation.tokenBudget, |ordered|) && InOrder(ordered)
    requires TotalTokens(request, ordered) <= reservation.tokenBudget
    modifies reservation
    ensures refusal.None? && Balanced(reservation.View())
  {
    ghost var start := reservation.View();
    ghost var events: seq<Event> := [];
    for i := 0 to |ordered|
      invariant reservation.View() == Run(start, events) && Shared(reservation.View(), request, ordered, i)
    {
      var tokens := EstimateRoleTokens(request, ordered[i]);
      ShareIsGranted(reservation.View(), request, ordered, i);
      refusal := reservation.Acquire(ordered[i], tokens);
      if refusal.Some? { return; }
      RunAppend(start, events, Event.Acquire(ordered[i], tokens));
      events := events + [Event.Acquire(ordered[i], tokens)];
    }
    ReachableIsBalanced(ordered, reservation.tokenBudget, |ordered|, events);
    refusal := None;
  }

  /** The parallel path after the acquisitions: results as they complete, all dropped at the first failure. */
  method Gather<E>(reservation: GroupReservation, run: Role -> Result<Delta, E>, order: seq<Role>)
      returns (r: Result<seq<Delta>, Failure<E>>)
    requires Balanced(reservation.View())
    modifies reservation
    ensures Balanced(reservation.View())
    ensures r == match Collected(run, order)
                 case Err(e) => Err(BranchFailed(e))
                 case Ok(ds) => Ok(SortedByRole(ds))
  {
    var deltas: seq<Delta> := [];
    for i := 0 to |order|
      invariant Balanced(reservation.View())
      invariant Collected(run, order[..i]) == Ok(deltas)
    {
      assert order[..i + 1][..i] == order[..i];
      var outcome := run(order[i]);
      if outcome.Err? {
        FailureStands(run, order, i + 1);
        return Err(BranchFailed(outcome.error));
      }
      StepStaysBalanced(reservation.View(), Event.ReleaseRole(outcome.value.role));
      reservation.ReleaseRole(outcome.value.role);
      deltas := deltas + [outcome.value];
    }
    assert order[..|order|] == order;
    r := Ok(SortedByRole(deltas));
  }

  lemma {:induction false} FailureStands<E>(run: Role -> Result<Delta, E>, order: seq<Role>, n: nat)
    requires n <= |order| && Collected(run, order[..n]).Err?
    ensures Collected(run, order) == Collected(run, order[..n])
    decreases |order|
  {
    if n == |order| {
      assert order[..n] == order;
    } else {
      assert order[..|order| - 1][..n] == order[..n];
      FailureStands(run, order[..|order| - 1], n);
    }
  }

  /** Alone, a role is refused exactly when it exceeds the token budget; and releasing it restores the reservation. */
  lemma OneTurn(start: Reservation, role: Role, tokens: int)
    requires start == Opened(start.roles, start.tokenBudget, start.callBudget) && start.callBudget >= 1
    requires role in start.roles && tokens >= 0
    ensures Refuses(start, role, tokens) == if tokens > start.tokenBudget then Some(TokensExceeded) else None
    ensures tokens <= start.tokenBudget ==>
              Next(Next(start, Event.Acquire(role, tokens)), Event.ReleaseRole(role)) == start
    ensures Balanced(start) && Balanced(Next(start, Event.Acquire(role, tokens)))
  {
    assert Balanced(start);
    StepStaysBalanced(start, Event.Acquire(role, tokens));
    assert start.held[role := tokens] - {role} == start.held;
  }

  /** One turn of the sequential path: a role acquires, runs and releases. */
  method TakeTurn<E>(reservation: GroupReservation, request: Option<Sizes>, run: Role -> Result<Delta, E>, role: Role)
      returns (r: Result<Delta, Failure<E>>)
    requires reservation.View() == Opened(reservation.roles, reservation.tokenBudget, reservation.callBudget)
    requires reservation.callBudget >= 1 && role in reservation.roles
    modifies reservation
    ensures r == if EstimateRoleTokens(request, role) > reservation.tokenBudget then Err(BudgetExceeded(TokensExceeded))
                 else if run(role).Err? then Err(BranchFailed(run(role).error)) else Ok(run(role).value)
    ensures r.Ok? ==> reservation.View() == old(reservation.View())
    ensures Balanced(reservation.View())
  {
    var tokens := EstimateRoleTokens(request, role);
    OneTurn(reservation.View(), role, tokens);
    var refusal := reservation.Acquire(role, tokens);
    if refusal.Some? { return Err(BudgetExceeded(refusal.value)); }
    var outcome := run(role);
    if outcome.Err? { return Err(BranchFailed(outcome.error)); }
    reservation.ReleaseRole(role);
    r := Ok(outcome.value);
  }

  /** The sequential path. */
  method TakeTurns<E>(reservation: GroupReservation, request: Option<Sizes>, run: Role -> Result<Delta, E>,
                      ordered: seq<Role>) returns (r: Result<seq<Delta>, Failure<E>>)
    requires reservation.View() == Opened(ordered, reservation.tokenBudget, Min(|ordered|, CALL_BUDGET))
    modifies reservation
    ensures r == InTurn(request, run, ordered, reservation.tokenBudget) && Balanced(reservation.View())
  {
    var deltas: seq<Delta> := [];
    var budget := reservation.tokenBudget;
    for i := 0 to |ordered|
      invariant reservation.View() == old(reservation.View()) && Balanced(reservation.View())
      invariant InTurn(request, run, ordered[..i], budget) == Ok(deltas)
    {
      var turn := TakeTurn(reservation, request, run, ordered[i]);
      TurnAdds(request, run, ordered, budget, i, deltas);
      if turn.Err? { return Err(turn.error); }
      deltas := deltas + [turn.value];
    }
    assert ordered[..|ordered|] == ordered;
    r := Ok(deltas);
  }

  /** What the next turn makes of the turns so far; a failure is the outcome of the whole. */
  lemma TurnAdds<E>(request: Option<Sizes>, run: Role -> Result<Delta, E>, roles: seq<Role>, budget: int, i: nat,
                    deltas: seq<Delta>)
    requires i < |roles| && InTurn(request, run, roles[..i], budget) == Ok(deltas)
    ensures var role := roles[i];
            if EstimateRoleTokens(request, role) > budget
            then InTurn(request, run, roles, budget) == Err(BudgetExceeded(TokensExceeded))
            else if run(role).Err? then InTurn(request, run, roles, budget) == Err(BranchFailed(run(role).error))
            else InTurn(request, run, roles[..i + 1], budget) == Ok(deltas + [run(role).value])
  {
    assert roles[..i + 1][..i] == roles[..i];
    if InTurn(request, run, roles[..i + 1], budget).Err? { TurnStands(request, run, roles, budget, i + 1); }
  }

  lemma {:induction false} TurnStands<E>(request: Option<Sizes>, run: Role -> Result<Delta, E>, roles: seq<Role>,
                                         budget: int, n: nat)
    requires n <= |roles| && InTurn(request, run, roles[..n], budget).Err?
    ensures InTurn(request, run, roles, budget) == InTurn(request, run, roles[..n], budget)
    decreases |roles|
  {
    if n == |roles| {
      assert roles[..n] == roles;
    } else {
      assert roles[..|roles| - 1][..n] == roles[..n];
      TurnStands(request, run, roles[..|roles| - 1], budget, n);
    }
  }

  /** One group, from its reservation to the release of it. */
  method RunGroup<E>(request: Option<Sizes>, run: Role -> Result<Delta, E>, ordered: seq<Role>, tokenBudget: int,
                     order: seq<Role>) returns (r: Result<seq<Delta>, Failure<E>>, left: Reservation)
    requires InOrder(ordered) && |ordered| <= CALL_BUDGET
    ensures r == if GoesParallel(request, ordered, tokenBudget) then
                   match Collected(run, order)
                   case Err(e) => Err(BranchFailed(e))
                   case Ok(ds) => Ok(SortedByRole(ds))
                 else InTurn(request, run, ordered, tokenBudget)
    ensures left == Next(Opened(ordered, tokenBudget, |ordered|), ReleaseGroup)
  {
    var reservation := new GroupReservation(ordered, tokenBudget, Min(|ordered|, CALL_BUDGET));
    if GoesParallel(request, ordered, tokenBudget) {
      var refusal := AcquireAll(reservation, request, ordered);
      r := Gather(reservation, run, order);
    } else {
      r := TakeTurns(reservation, request, run, ordered);
    }
    reservation.Release();
    left := reservation.View();
  }

  /** `execute_parallel_roles`. On the parallel path no acquisition is refused, and every way out leaves the reservation
      released and empty; `atExit` is that reservation, when one was made. */
  method ExecuteParallelRoles<E>(request: Option<Sizes>, run: Role -> Result<Delta, E>, roles: seq<Role>,
                                 maxParallel: int, tokenBudget: int, order: seq<Role>)
      returns (r: Result<seq<Delta>, Failure<E>>, atExit: Option<Reservation>)
    ensures r == Executed(request, run, roles, maxParallel, tokenBudget, order)
    ensures atExit.Some? <==> maxParallel >= 1 && AsSet(roles) <= ELIGIBLE && roles != []
    ensures atExit.Some? ==> atExit.value == Next(Opened(Ordered(roles), tokenBudget, |Ordered(roles)|), ReleaseGroup)
  {
    if maxParallel < 1 { return Err(BadLimit), None; }
    if AsSet(roles) - ELIGIBLE != {} { return Err(Unsupported), None; }
    EligibleOrder(roles);
    if roles == [] { return Ok([]), None; }
    var left;
    r, left := RunGroup(request, run, Ordered(roles), tokenBudget, order);
    atExit := Some(left);
  }

  lemma EligibleOrder(roles: seq<Role>)
    requires AsSet(roles) <= ELIGIBLE
    ensures InOrder(Ordered(roles)) && |Ordered(roles)| <= CALL_BUDGET
    ensures roles == [] <==> Ordered(roles) == []
    ensures forall r :: r in Ordered(roles) <==> r in roles
  {
    OrderedSubsetMembers(AsSet(roles));
    OrderedSubsetShape(AsSet(roles));
    if roles != [] { assert roles[0] in Ordered(roles); }
  }

  // ----------------------------------------- any completion order, same result

  function Deltas<E>(run: Role -> Result<Delta, E>, order: seq<Role>): (r: seq<Delta>)
    requires forall role :: role in order ==> run(role).Ok?
    ensures |r| == |order|
  {
    seq(|order|, i requires 0 <= i < |order| => run(order[i]).value)
  }

  predicate AllSucceed<E>(run: Role -> Result<Delta, E>, order: seq<Role>) {
    forall role :: role in order ==> run(role).Ok?
  }

  /** Collecting gives every delta or a failure of one of the branches. */
  lemma {:induction false} CollectedExactly<E>(run: Role -> Result<Delta, E>, order: seq<Role>)
    ensures AllSucceed(run, order) ==> Collected(run, order) == Ok(Deltas(run, order))
    ensures !AllSucceed(run, order) ==>
              exists role :: role in order && run(role).Err? && Collected(run, order) == Err(run(role).error)
  {
    if order != [] {
      var before, last := order[..|order| - 1], order[|order| - 1];
      assert order == before + [last];
      CollectedExactly(run, before);
      if AllSucceed(run, order) {
        assert Deltas(run, order) == Deltas(run, before) + [run(last).value];
      }
    }
  }

  /** Taking turns gives every delta exactly when all branches succeed and each fits the budget. */
  lemma {:induction false} InTurnExactly<E>(request: Option<Sizes>, run: Role -> Result<Delta, E>, roles: seq<Role>,
                                            budget: int)
    ensures InTurn(request, run, roles, budget).Ok? <==> AllSucceed(run, roles) && Fits(request, roles, budget)
    ensures InTurn(request, run, roles, budget).Ok? ==> InTurn(request, run, roles, budget).value == Deltas(run, roles)
  {
    if roles != [] {
      var before, last := roles[..|roles| - 1], roles[|roles| - 1];
      assert roles == before + [last];
      InTurnExactly(request, run, before, budget);
      if AllSucceed(run, roles) {
        assert Deltas(run, roles) == Deltas(run, before) + [run(last).value];
      }
    }
  }

  /** The roles of a group, each once, in the order in which their branches complete. */
  ghost predicate Completes(order: seq<Role>, ordered: seq<Role>) {
    && |order| == |ordered| && (forall role :: role in order <==> role in ordered)
    && forall i, j :: 0 <= i < j < |order| ==> order[i] != order[j]
  }

  ghost predicate ByPosition(ds: seq<Delta>) {
    forall i, j :: 0 <= i < j < |ds| ==> Position(ds[i].role) < Position(ds[j].role)
  }

  lemma {:induction false} InsertByRoleMembers(d: Delta, ds: seq<Delta>)
    ensures |InsertByRole(d, ds)| == |ds| + 1
    ensures forall x :: x in InsertByRole(d, ds) <==> x == d || x in ds
  {
    if ds != [] {
      assert ds == [ds[0]] + ds[1..];
      InsertByRoleMembers(d, ds[1..]);
    }
  }

  lemma {:induction false} InsertByRoleSorts(d: Delta, ds: seq<Delta>)
    requires ByPosition(ds) && forall x :: x in ds ==> x.role != d.role
    ensures ByPosition(InsertByRole(d, ds))
  {
    if ds != [] && Position(d.role) > Position(ds[0].role) {
      var tail := InsertByRole(d, ds[1..]);
      InsertByRoleSorts(d, ds[1..]);
      InsertByRoleMembers(d, ds[1..]);
      forall k | 0 <= k < |tail| ensures Position(ds[0].role) < Position(tail[k].role) {
        assert tail[k] == d || tail[k] in ds[1..];
      }
    }
  }

  lemma {:induction false} SortedByRoleSorts(ds: seq<Delta>)
    requires Distinct(ds, RoleOf)
    ensures ByPosition(SortedByRole(ds)) && |SortedByRole(ds)| == |ds|
    ensures forall x :: x in SortedByRole(ds) <==> x in ds
  {
    if ds != [] {
      var rest := ds[1..];
      assert forall i :: 0 <= i < |rest| ==> rest[i] == ds[i + 1];
      forall x | x in rest ensures x.role != ds[0].role {
        var i :| 0 <= i < |rest| && rest[i] == x;
        assert RoleOf(ds[0]) != RoleOf(ds[i + 1]);
      }
      SortedByRoleSorts(rest);
      InsertByRoleSorts(ds[0], SortedByRole(rest));
      InsertByRoleMembers(ds[0], SortedByRole(rest));
      assert ds == [ds[0]] + rest;
    }
  }

  /** Two strictly ordered lists of the same deltas are one list. */
  lemma {:induction false} SortIsUnique(a: seq<Delta>, b: seq<Delta>)
    requires |a| == |b| && ByPosition(a) && ByPosition(b) && forall x :: x in a <==> x in b
    ensures a == b
  {
    if a != [] {
      assert a[0] in b;
      assert b[0] in a;
      assert a[0] == b[0];
      TailMembers(a);
      TailMembers(b);
      SortIsUnique(a[1..], b[1..]);
      assert a == [a[0]] + a[1..] && b == [b[0]] + b[1..];
    }
  }

  lemma TailMembers(ds: seq<Delta>)
    requires ds != [] && ByPosition(ds)
    ensures ByPosition(ds[1..])
    ensures forall x :: x in ds[1..] <==> x in ds && x != ds[0]
  {
    assert ds == [ds[0]] + ds[1..];
    forall k | 0 <= k < |ds[1..]| ensures ds[1..][k] != ds[0] { assert ds[1..][k] == ds[k + 1]; }
  }

  lemma DeltasMembers<E>(run: Role -> Result<Delta, E>, order: seq<Role>, d: Delta)
    requires Labelled(run) && AllSucceed(run, order)
    ensures d in Deltas(run, order) <==> d.role in order && run(d.role).Ok? && d == run(d.role).value
  {
    if d.role in order {
      var i :| 0 <= i < |order| && order[i] == d.role;
      assert Deltas(run, order)[i] == run(d.role).value;
    }
  }

  /** Whatever the order in which successful branches complete, sorting gives the deltas in canonical order. */
  lemma CompletionOrderDoesNotMatter<E>(run: Role -> Result<Delta, E>, ordered: seq<Role>, order: seq<Role>)
    requires Labelled(run) && InOrder(ordered) && Completes(order, ordered) && AllSucceed(run, ordered)
    ensures AllSucceed(run, order) && SortedByRole(Deltas(run, order)) == Deltas(run, ordered)
  {
    var ds, completed := Deltas(run, ordered), Deltas(run, order);
    assert forall i :: 0 <= i < |completed| ==> RoleOf(completed[i]) == order[i];
    SortedByRoleSorts(completed);
    assert forall i :: 0 <= i < |ds| ==> ds[i].role == ordered[i];
    forall x ensures x in ds <==> x in SortedByRole(completed) {
      DeltasMembers(run, ordered, x);
      DeltasMembers(run, order, x);
    }
    SortIsUnique(ds, SortedByRole(completed));
  }

  /** The parallel path succeeds exactly when every branch does. */
  lemma ParallelExactly<E>(run: Role -> Result<Delta, E>, ordered: seq<Role>, order: seq<Role>)
    requires Labelled(run) && InOrder(ordered) && Completes(order, ordered)
    ensures Collected(run, order).Ok? <==> AllSucceed(run, ordered)
    ensures AllSucceed(run, ordered) ==> SortedByRole(Collected(run, order).value) == Deltas(run, ordered)
  {
    CollectedExactly(run, order);
    if AllSucceed(run, ordered) { CompletionOrderDoesNotMatter(run, ordered, order); }
  }

  predicate Fits(request: Option<Sizes>, ordered: seq<Role>, tokenBudget: int) {
    forall role :: role in ordered ==> EstimateRoleTokens(request, role) <= tokenBudget
  }

  /** A group succeeds exactly when every branch does and the budget allows it, together or in turn; and then, however
      it ran and in whatever order its branches completed, its result is the deltas in canonical order. Otherwise
      nothing of it is returned. */
  lemma ExecutedExactly<E>(request: Option<Sizes>, run: Role -> Result<Delta, E>, roles: seq<Role>, maxParallel: int,
                           tokenBudget: int, order: seq<Role>)
    requires Labelled(run) && Completes(order, Ordered(roles))
    ensures var r := Executed(request, run, roles, maxParallel, tokenBudget, order); var ordered := Ordered(roles);
            && (r.Ok? <==>
                  && maxParallel >= 1 && AsSet(roles) <= ELIGIBLE && AllSucceed(run, ordered)
                  && (GoesParallel(request, ordered, tokenBudget) || Fits(request, ordered, tokenBudget)))
            && (r.Ok? ==> r.value == Deltas(run, ordered))
  {
    var ordered := Ordered(roles);
    OrderedSubsetMembers(AsSet(roles));
    assert AsSet(roles) - ELIGIBLE == {} <==> AsSet(roles) <= ELIGIBLE;
    if GoesParallel(request, ordered, tokenBudget) {
      ParallelExactly(run, ordered, order);
    } else {
      InTurnExactly(request, run, ordered, tokenBudget);
    }
  }

  /** What goes in parallel would also have gone in turn, with the same result. */
  lemma ParallelRefinesSequential<E>(request: Option<Sizes>, run: Role -> Result<Delta, E>, roles: seq<Role>,
                                     maxParallel: int, tokenBudget: int, order: seq<Role>)
    requires Labelled(run) && Completes(order, Ordered(roles))
    requires GoesParallel(request, Ordered(roles), tokenBudget)
    requires Executed(request, run, roles, maxParallel, tokenBudget, order).Ok?
    ensures Executed(request, run, roles, maxParallel, tokenBudget, order) ==
            InTurn(request, run, Ordered(roles), tokenBudget)
  {
    ExecutedExactly(request, run, roles, maxParallel, tokenBudget, order);
    InTurnExactly(request, run, Ordered(roles), tokenBudget);
    forall role | role in Ordered(roles) ensures EstimateRoleTokens(request, role) <= tokenBudget {
      ShareOfTotal(request, Ordered(roles), role);
    }
  }

  lemma {:induction false} ShareOfTotal(request: Option<Sizes>, roles: seq<Role>, role: Role)
    requires role in roles
    ensures EstimateRoleTokens(request, role) <= TotalTokens(request, roles)
  {
    var before, last := roles[..|roles| - 1], roles[|roles| - 1];
    assert roles == before + [last];
    TotalTokensOfPrefix(request, roles, |roles| - 1);
    if role != last { ShareOfTotal(request, before, role); }
  }
}
