/** Merging branch-local deltas into one update of the graph state. */
module RoleMerge {
  import opened Foundations
  import opened KeyedLists
  import opened RoleRouter
  import opened ParallelRoleGroups

  datatype Update = Update(
    trace: seq<string>, results: seq<RoleResult>, byRole: map<Role, RoleResult>, citations: seq<Citation>,
    actionItems: seq<string>, riskFlags: seq<string>)

  function CitationKey(c: Citation): (string, string, string) { (c.chunkId, c.sourceType, c.sourceId) }

  /** `{delta["role"]: delta for delta in deltas}`. */
  function ByRole(deltas: seq<Delta>): map<Role, Delta> {
    if deltas == [] then map[] else
      var last := deltas[|deltas| - 1];
      ByRole(deltas[..|deltas| - 1])[last.role := last]
  }

  /** One part of the deltas, role by role. */
  function Parts<T>(roles: seq<Role>, byRole: map<Role, Delta>, part: Delta -> seq<T>): seq<T>
    requires forall r :: r in roles ==> r in byRole
  {
    if roles == [] then [] else
      var n := |roles| - 1;
      Parts(roles[..n], byRole, part) + part(byRole[roles[n]])
  }

  function Others(results: seq<RoleResult>, roles: set<Role>): seq<RoleResult> {
    if results == [] then []
    else (if results[0].role in roles then [] else [results[0]]) + Others(results[1..], roles)
  }

  function Trace(d: Delta): seq<string> { d.trace }
  function Result(d: Delta): seq<RoleResult> { [d.result] }
  function Citations(d: Delta): seq<Citation> { d.citations }
  function ActionItems(d: Delta): seq<string> { d.actionItems }
  function RiskFlags(d: Delta): seq<string> { d.riskFlags }

  function MergedDeltas(deltas: seq<Delta>, order: seq<Role>, parentTrace: seq<string>, parentResults: seq<RoleResult>)
    : Update
  {
    var byRole := ByRole(deltas);
    var roles := Only(order, byRole.Keys);
    OnlyKnown(order, byRole.Keys);
    Update(
      parentTrace + Parts(roles, byRole, Trace), Others(parentResults, byRole.Keys) + Parts(roles, byRole, Result),
      Results(roles, byRole), Merged([], Parts(roles, byRole, Citations), CitationKey),
      Merged([], Parts(roles, byRole, ActionItems), Itself), Merged([], Parts(roles, byRole, RiskFlags), Itself))
  }

  lemma {:induction false} OnlyKnown(roles: seq<Role>, wanted: set<Role>)
    ensures forall r :: r in Only(roles, wanted) <==> r in roles && r in wanted
  {
    if roles != [] {
      OnlyKnown(roles[1..], wanted);
      assert roles == [roles[0]] + roles[1..];
    }
  }

  function Results(roles: seq<Role>, byRole: map<Role, Delta>): map<Role, RoleResult>
    requires forall r :: r in roles ==> r in byRole
  {
    map r | r in roles :: byRole[r].result
  }

  /** Adding the next role's part to what was gathered so far. */
  lemma PartsStep<T>(start: seq<T>, roles: seq<Role>, i: nat, byRole: map<Role, Delta>, part: Delta -> seq<T>)
    requires i < |roles| && forall r :: r in roles ==> r in byRole
    ensures start + Parts(roles[..i], byRole, part) + part(byRole[roles[i]])
         == start + Parts(roles[..i + 1], byRole, part)
  {
    assert roles[..i + 1][..i] == roles[..i];
  }

  lemma ResultsStep(roles: seq<Role>, i: nat, byRole: map<Role, Delta>)
    requires i < |roles| && forall r :: r in roles ==> r in byRole
    ensures Results(roles[..i + 1], byRole) == Results(roles[..i], byRole)[roles[i] := byRole[roles[i]].result]
  {
    assert roles[..i + 1] == roles[..i] + [roles[i]];
  }

  /** What has been gathered from the roles, before repeats are dropped. */
  predicate Gathered(u: Update, roles: seq<Role>, byRole: map<Role, Delta>, trace: seq<string>,
                     results: seq<RoleResult>)
    requires forall r :: r in roles ==> r in byRole
  {
    && u.trace == trace + Parts(roles, byRole, Trace) && u.results == results + Parts(roles, byRole, Result)
    && u.citations == [] + Parts(roles, byRole, Citations) && u.actionItems == [] + Parts(roles, byRole, ActionItems)
    && u.riskFlags == [] + Parts(roles, byRole, RiskFlags) && u.byRole == Results(roles, byRole)
  }

  lemma GatherStep(u: Update, after: Update, roles: seq<Role>, i: nat, byRole: map<Role, Delta>, trace: seq<string>,
                   results: seq<RoleResult>)
    requires i < |roles| && forall r :: r in roles ==> r in byRole
    requires Gathered(u, roles[..i], byRole, trace, results)
    requires var d := byRole[roles[i]];
             after == Update(u.trace + d.trace, u.results + [d.result], u.byRole[roles[i] := d.result],
                             u.citations + d.citations, u.actionItems + d.actionItems, u.riskFlags + d.riskFlags)
    ensures Gathered(after, roles[..i + 1], byRole, trace, results)
  {
    PartsStep(trace, roles, i, byRole, Trace);
    PartsStep(results, roles, i, byRole, Result);
    PartsStep([], roles, i, byRole, Citations);
    PartsStep([], roles, i, byRole, ActionItems);
    PartsStep([], roles, i, byRole, RiskFlags);
    ResultsStep(roles, i, byRole);
  }

  function Deduplicated(u: Update): Update {
    u.(citations := Merged([], u.citations, CitationKey), actionItems := Merged([], u.actionItems, Itself),
       riskFlags := Merged([], u.riskFlags, Itself))
  }

  lemma GatheredIsMerged(u: Update, deltas: seq<Delta>, order: seq<Role>, parentTrace: seq<string>,
                         parentResults: seq<RoleResult>)
    requires var byRole := ByRole(deltas); var roles := Only(order, byRole.Keys);
             (forall r :: r in roles ==> r in byRole)
             && Gathered(u, roles, byRole, parentTrace, Others(parentResults, byRole.Keys))
    ensures Deduplicated(u) == MergedDeltas(deltas, order, parentTrace, parentResults)
  {
    var byRole := ByRole(deltas);
    var roles := Only(order, byRole.Keys);
    assert [] + Parts(roles, byRole, Citations) == Parts(roles, byRole, Citations);
    assert [] + Parts(roles, byRole, ActionItems) == Parts(roles, byRole, ActionItems);
    assert [] + Parts(roles, byRole, RiskFlags) == Parts(roles, byRole, RiskFlags);
  }

  /** The loop over the roles. */
  method GatherRoles(roles: seq<Role>, byRole: map<Role, Delta>, trace: seq<string>, results: seq<RoleResult>)
      returns (u: Update)
    requires forall r :: r in roles ==> r in byRole
    ensures Gathered(u, roles, byRole, trace, results)
  {
    u := Update(trace, results, map[], [], [], []);
    for i := 0 to |roles|
      invariant Gathered(u, roles[..i], byRole, trace, results)
    {
      var d := byRole[roles[i]];
      var after := Update(u.trace + d.trace, u.results + [d.result], u.byRole[roles[i] := d.result],
                          u.citations + d.citations, u.actionItems + d.actionItems, u.riskFlags + d.riskFlags);
      GatherStep(u, after, roles, i, byRole, trace, results);
      u := after;
    }
    assert roles[..|roles|] == roles;
  }

  /** `merge_role_deltas`. */
  method MergeRoleDeltas(deltas: seq<Delta>, order: seq<Role>, parentTrace: seq<string>, parentResults: seq<RoleResult>)
      returns (update: Update)
    ensures update == MergedDeltas(deltas, order, parentTrace, parentResults)
  {
    var byRole := ByRole(deltas);
    var roles := Only(order, byRole.Keys);
    OnlyKnown(order, byRole.Keys);
    update := GatherRoles(roles, byRole, parentTrace, Others(parentResults, byRole.Keys));
    GatheredIsMerged(update, deltas, order, parentTrace, parentResults);
    update := Deduplicated(update);
  }

  // ---------------------------------------------------------------- properties

  /** With one delta for each role, the dictionary does not depend on their order. */
  lemma {:induction false} ByRoleMembers(deltas: seq<Delta>)
    requires Distinct(deltas, RoleOf)
    ensures forall r, d :: r in ByRole(deltas) && ByRole(deltas)[r] == d <==> d in deltas && d.role == r
  {
    if deltas != [] {
      var before, last := deltas[..|deltas| - 1], deltas[|deltas| - 1];
      assert deltas == before + [last];
      ByRoleMembers(before);
      forall d | d in before ensures d.role != last.role {
        var i :| 0 <= i < |before| && before[i] == d;
        assert RoleOf(deltas[i]) != RoleOf(deltas[|deltas| - 1]);
      }
    }
  }

  /** Merging is indifferent to the order in which the branches' deltas arrive. */
  lemma MergeIgnoresOrder(a: seq<Delta>, b: seq<Delta>, order: seq<Role>, parentTrace: seq<string>,
                          parentResults: seq<RoleResult>)
    requires Distinct(a, RoleOf) && Distinct(b, RoleOf) && forall d :: d in a <==> d in b
    ensures MergedDeltas(a, order, parentTrace, parentResults) == MergedDeltas(b, order, parentTrace, parentResults)
  {
    ByRoleMembers(a);
    ByRoleMembers(b);
    forall r ensures r in ByRole(a) <==> r in ByRole(b) {
      assert r in ByRole(a) ==> ByRole(a)[r] in b;
      assert r in ByRole(b) ==> ByRole(b)[r] in a;
    }
    assert ByRole(a) == ByRole(b);
  }

  lemma {:induction false} PartsHave<T>(roles: seq<Role>, byRole: map<Role, Delta>, part: Delta -> seq<T>, x: T)
    requires forall r :: r in roles ==> r in byRole
    ensures x in Parts(roles, byRole, part) <==> exists r :: r in roles && x in part(byRole[r])
  {
    if roles != [] {
      var before, last := roles[..|roles| - 1], roles[|roles| - 1];
      assert roles == before + [last];
      PartsHave(before, byRole, part, x);
      assert x in part(byRole[last]) ==> exists r :: r in roles && x in part(byRole[r]);
    }
  }

  /** Merging keeps one citation for each key the branches cite, and each action item and each risk flag once. */
  lemma MergeKeepsEverything(deltas: seq<Delta>, parentTrace: seq<string>, parentResults: seq<RoleResult>, d: Delta)
    requires Distinct(deltas, RoleOf) && d in deltas
    ensures var u := MergedDeltas(deltas, CANONICAL, parentTrace, parentResults);
            && Distinct(u.citations, CitationKey) && Distinct(u.actionItems, Itself) && Distinct(u.riskFlags, Itself)
            && (forall c :: c in d.citations ==> CitationKey(c) in Keys(u.citations, CitationKey))
            && (forall item :: item in d.actionItems ==> item in Keys(u.actionItems, Itself))
            && (forall flag :: flag in d.riskFlags ==> flag in Keys(u.riskFlags, Itself))
            && d.role in u.byRole && u.byRole[d.role] == d.result && d.result in u.results
  {
    var byRole := ByRole(deltas);
    ByRoleMembers(deltas);
    assert d.role in byRole && byRole[d.role] == d;
    var roles := Only(CANONICAL, byRole.Keys);
    OnlyKnown(CANONICAL, byRole.Keys);
    assert CANONICAL[Position(d.role)] == d.role;
    MergedKeys([], Parts(roles, byRole, Citations), CitationKey);
    MergedKeys([], Parts(roles, byRole, ActionItems), Itself);
    MergedKeys([], Parts(roles, byRole, RiskFlags), Itself);
    forall c | c in d.citations ensures CitationKey(c) in Keys(Parts(roles, byRole, Citations), CitationKey) {
      PartsHave(roles, byRole, Citations, c);
      KeyOfMember(Parts(roles, byRole, Citations), CitationKey, c);
    }
    forall item | item in d.actionItems ensures item in Keys(Parts(roles, byRole, ActionItems), Itself) {
      PartsHave(roles, byRole, ActionItems, item);
      KeyOfMember(Parts(roles, byRole, ActionItems), Itself, item);
    }
    forall flag | flag in d.riskFlags ensures flag in Keys(Parts(roles, byRole, RiskFlags), Itself) {
      PartsHave(roles, byRole, RiskFlags, flag);
      KeyOfMember(Parts(roles, byRole, RiskFlags), Itself, flag);
    }
    PartsHave(roles, byRole, Result, d.result);
  }

  /** It invents nothing: what is in the update comes from some branch, and of the citations of one key it keeps one of
      the first branch, in canonical order, that has any. Results and trace come from the branches or from before. */
  lemma MergeInventsNothing(deltas: seq<Delta>, parentTrace: seq<string>, parentResults: seq<RoleResult>, u: Update)
    requires Distinct(deltas, RoleOf) && u == MergedDeltas(deltas, CANONICAL, parentTrace, parentResults)
    ensures forall c :: c in u.citations ==> exists d :: d in deltas && CitedFirst(deltas, d, c)
    ensures forall item :: item in u.actionItems ==> exists d :: d in deltas && item in d.actionItems
    ensures forall flag :: flag in u.riskFlags ==> exists d :: d in deltas && flag in d.riskFlags
    ensures forall r :: r in u.results ==> r in parentResults || exists d :: d in deltas && r == d.result
    ensures forall line :: line in u.trace ==> line in parentTrace || exists d :: d in deltas && line in d.trace
    ensures forall role :: role in u.byRole ==> exists d :: d in deltas && d.role == role && u.byRole[role] == d.result
  {
    var byRole := ByRole(deltas);
    ByRoleMembers(deltas);
    var roles := OrderedSubset(byRole.Keys);
    OrderedSubsetMembers(byRole.Keys);
    assert Indexed(deltas, roles, byRole);
    CitationsAreFirst(deltas, roles, byRole);
    MergedPartsOfSome(deltas, roles, byRole, ActionItems);
    MergedPartsOfSome(deltas, roles, byRole, RiskFlags);
    ResultsOfSome(deltas, roles, byRole, parentResults);
    PartsOfSome(deltas, roles, byRole, Trace);
  }

  ghost predicate Indexed(deltas: seq<Delta>, roles: seq<Role>, byRole: map<Role, Delta>) {
    && InOrder(roles) && (forall r :: r in roles <==> r in byRole)
    && (forall r, d :: r in byRole && byRole[r] == d <==> d in deltas && d.role == r)
  }

  lemma CitationsAreFirst(deltas: seq<Delta>, roles: seq<Role>, byRole: map<Role, Delta>)
    requires Indexed(deltas, roles, byRole)
    ensures forall c :: c in Merged([], Parts(roles, byRole, Citations), CitationKey) ==>
      exists d :: d in deltas && CitedFirst(deltas, d, c)
  {
    forall c | c in Merged([], Parts(roles, byRole, Citations), CitationKey)
      ensures exists d :: d in deltas && CitedFirst(deltas, d, c)
    {
      var i := FirstCitation(roles, byRole, c);
      CitedFirstAt(deltas, roles, byRole, c, i);
    }
  }

  lemma PartsOfSome<T>(deltas: seq<Delta>, roles: seq<Role>, byRole: map<Role, Delta>, part: Delta -> seq<T>)
    requires Indexed(deltas, roles, byRole)
    ensures forall x :: x in Parts(roles, byRole, part) ==> exists d :: d in deltas && x in part(d)
  {
    forall x | x in Parts(roles, byRole, part) ensures exists d :: d in deltas && x in part(d) {
      PartsHave(roles, byRole, part, x);
      var r :| r in roles && x in part(byRole[r]);
      assert byRole[r] in deltas;
    }
  }

  lemma MergedPartsOfSome(deltas: seq<Delta>, roles: seq<Role>, byRole: map<Role, Delta>, part: Delta -> seq<string>)
    requires Indexed(deltas, roles, byRole)
    ensures forall x :: x in Merged([], Parts(roles, byRole, part), Itself) ==> exists d :: d in deltas && x in part(d)
  {
    MergedKeys([], Parts(roles, byRole, part), Itself);
    PartsOfSome(deltas, roles, byRole, part);
  }

  lemma ResultsOfSome(deltas: seq<Delta>, roles: seq<Role>, byRole: map<Role, Delta>, parentResults: seq<RoleResult>)
    requires Indexed(deltas, roles, byRole)
    ensures forall r :: r in Others(parentResults, byRole.Keys) + Parts(roles, byRole, Result) ==>
      r in parentResults || exists d :: d in deltas && r == d.result
    ensures forall role :: role in Results(roles, byRole) ==>
      exists d :: d in deltas && d.role == role && Results(roles, byRole)[role] == d.result
  {
    OthersMembers(parentResults, byRole.Keys);
    PartsOfSome(deltas, roles, byRole, Result);
    forall role | role in Results(roles, byRole)
      ensures exists d :: d in deltas && d.role == role && Results(roles, byRole)[role] == d.result
    {
      assert byRole[role] in deltas;
    }
  }

  /** `d` cites `c`, and no branch before it in canonical order cites anything of its key. */
  ghost predicate CitedFirst(deltas: seq<Delta>, d: Delta, c: Citation) {
    && c in d.citations
    && forall e :: e in deltas && Position(e.role) < Position(d.role) ==>
         CitationKey(c) !in Keys(e.citations, CitationKey)
  }

  lemma {:induction false} FirstCitation(roles: seq<Role>, byRole: map<Role, Delta>, c: Citation) returns (i: nat)
    requires forall r :: r in roles ==> r in byRole
    requires c in Merged([], Parts(roles, byRole, Citations), CitationKey)
    ensures i < |roles| && c in byRole[roles[i]].citations
    ensures forall j :: 0 <= j < i ==> CitationKey(c) !in Keys(byRole[roles[j]].citations, CitationKey)
    decreases |roles|
  {
    var n := |roles| - 1;
    var before, last := Parts(roles[..n], byRole, Citations), byRole[roles[n]].citations;
    MergedKeys([], before + last, CitationKey);
    MergedKeys([], before, CitationKey);
    if CitationKey(c) in Keys(before, CitationKey) {
      MergedInParts([], before, last, CitationKey);
      EarlierWins(Merged([], before, CitationKey), last, CitationKey, c);
      i := FirstCitation(roles[..n], byRole, c);
    } else {
      if c in before { KeyOfMember(before, CitationKey, c); }
      i := n;
      forall j | 0 <= j < n ensures CitationKey(c) !in Keys(byRole[roles[j]].citations, CitationKey) {
        KeysOfPart(roles[..n], byRole, j);
      }
    }
  }

  lemma KeysOfPart(roles: seq<Role>, byRole: map<Role, Delta>, j: nat)
    requires j < |roles| && forall r :: r in roles ==> r in byRole
    ensures Keys(byRole[roles[j]].citations, CitationKey) <= Keys(Parts(roles, byRole, Citations), CitationKey)
  {
    var cited := byRole[roles[j]].citations;
    forall k | k in Keys(cited, CitationKey) ensures k in Keys(Parts(roles, byRole, Citations), CitationKey) {
      var i :| 0 <= i < |cited| && CitationKey(cited[i]) == k;
      PartsHave(roles, byRole, Citations, cited[i]);
      KeyOfMember(Parts(roles, byRole, Citations), CitationKey, cited[i]);
    }
  }

  lemma CitedFirstAt(deltas: seq<Delta>, roles: seq<Role>, byRole: map<Role, Delta>, c: Citation, i: nat)
    requires Indexed(deltas, roles, byRole)
    requires i < |roles| && c in byRole[roles[i]].citations
    requires forall j :: 0 <= j < i ==> CitationKey(c) !in Keys(byRole[roles[j]].citations, CitationKey)
    ensures byRole[roles[i]] in deltas && CitedFirst(deltas, byRole[roles[i]], c)
  {
    forall e | e in deltas && Position(e.role) < Position(roles[i])
      ensures CitationKey(c) !in Keys(e.citations, CitationKey)
    {
      assert e.role in byRole && byRole[e.role] == e;
      var j :| 0 <= j < |roles| && roles[j] == e.role;
      assert j < i;
    }
  }

  lemma {:induction false} OthersMembers(results: seq<RoleResult>, roles: set<Role>)
    ensures forall r :: r in Others(results, roles) ==> r in results
  {
    if results != [] { OthersMembers(results[1..], roles); }
  }

  lemma KeyOfMember<T, K>(items: seq<T>, key: T -> K, x: T)
    requires x in items
    ensures key(x) in Keys(items, key)
  {
    var i :| 0 <= i < |items| && items[i] == x;
  }

  /** However the group ran, its deltas merge to the same update. */
  lemma SameUpdateHoweverItRan<E>(request: Option<Sizes>, run: Role -> Foundations.Result<Delta, E>, roles: seq<Role>,
                                  maxParallel: int, tokenBudget: int, order: seq<Role>, completed: seq<Delta>,
                                  parentTrace: seq<string>, parentResults: seq<RoleResult>)
    requires Labelled(run) && Completes(order, Ordered(roles)) && AllSucceed(run, order)
    requires completed == Deltas(run, order)
    requires Executed(request, run, roles, maxParallel, tokenBudget, order).Ok?
    ensures MergedDeltas(completed, CANONICAL, parentTrace, parentResults) ==
            MergedDeltas(Executed(request, run, roles, maxParallel, tokenBudget, order).value, CANONICAL, parentTrace,
                         parentResults)
  {
    ExecutedExactly(request, run, roles, maxParallel, tokenBudget, order);
    var sorted := Deltas(run, Ordered(roles));
    OrderedSubsetMembers(AsSet(roles));
    assert forall i :: 0 <= i < |completed| ==> RoleOf(completed[i]) == order[i];
    assert forall i :: 0 <= i < |sorted| ==> RoleOf(sorted[i]) == Ordered(roles)[i];
    forall d ensures d in completed <==> d in sorted {
      DeltasMembers(run, order, d);
      DeltasMembers(run, Ordered(roles), d);
    }
    MergeIgnoresOrder(completed, sorted, CANONICAL, parentTrace, parentResults);
  }
}
