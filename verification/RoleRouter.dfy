/** Role allocation: which agent roles a request runs, and the walk over them. */
module RoleRouter {
  import opened Foundations

  datatype Role = Searcher | MemoryAgent | Synthesize | RiskAnalyst

  const CANONICAL := [Searcher, MemoryAgent, Synthesize, RiskAnalyst]

  /** What routing looks at; the last four say whether the collection or flag is set. */
  datatype Request = Request(
    preset: string, intent: Option<string>, writeTools: bool, unresolvedApproval: bool, safetyBlocked: bool,
    riskFlags: bool)

  function PresetRoles(preset: string): seq<Role> {
    if preset == "meeting_brief" then CANONICAL
    else if preset == "risk_review" then [Searcher, Synthesize, RiskAnalyst]
    else if preset == "context_qa" then [Searcher, Synthesize]
    else [Searcher, MemoryAgent, Synthesize]
  }

  predicate RiskIsMandatory(r: Request) {
    || r.preset == "risk_review" || r.intent == Some("risk") || r.writeTools || r.unresolvedApproval
    || r.safetyBlocked || r.riskFlags
  }

  /** `[r for r in roles if r in wanted]`. */
  function Only(roles: seq<Role>, wanted: set<Role>): seq<Role> {
    if roles == [] then [] else (if roles[0] in wanted then [roles[0]] else []) + Only(roles[1..], wanted)
  }

  function AsSet(roles: seq<Role>): set<Role> { set r | r in roles }

  function OrderedSubset(wanted: set<Role>): seq<Role> { Only(CANONICAL, wanted) }

  /** The roles a request needs: its preset's, and the risk analyst where that is mandatory. */
  function Needed(r: Request): set<Role> {
    AsSet(PresetRoles(r.preset)) + if RiskIsMandatory(r) then {RiskAnalyst} else {}
  }

  /** The branches of `route_roles`. The chat branch never applies, because the presets it names have three roles and a
      chat intent adds none; so the roles are just the needed ones in canonical order. */
  method RouteRoles(r: Request) returns (roles: seq<Role>)
    ensures roles == OrderedSubset(Needed(r))
  {
    roles := PresetRoles(r.preset);
    if r.intent == Some("risk") && RiskAnalyst !in roles {
      roles := roles + [RiskAnalyst];
    }
    if r.intent == Some("chat") && (r.preset == "react_general" || r.preset == "follow_up_planner") && |roles| > 3 {
      roles := Only(roles, {Searcher, Synthesize});
    }
    ghost var wanted := AsSet(roles);
    roles := OrderedSubset(AsSet(roles));
    OrderedSubsetMembers(wanted);
    if RiskIsMandatory(r) && RiskAnalyst !in roles {
      AppendRisk(wanted);
      roles := roles + [RiskAnalyst];
      wanted := wanted + {RiskAnalyst};
    }
    assert wanted == Needed(r);
  }

  function Position(role: Role): nat {
    match role
    case Searcher => 0
    case MemoryAgent => 1
    case Synthesize => 2
    case RiskAnalyst => 3
  }

  /** A subsequence of the canonical order. */
  ghost predicate InOrder(roles: seq<Role>) {
    forall i, j :: 0 <= i < j < |roles| ==> Position(roles[i]) < Position(roles[j])
  }

  function Pick(role: Role, wanted: set<Role>): seq<Role> { if role in wanted then [role] else [] }

  lemma OrderedSubsetShape(wanted: set<Role>)
    ensures OrderedSubset(wanted) ==
      Pick(Searcher, wanted) + Pick(MemoryAgent, wanted) + Pick(Synthesize, wanted) + Pick(RiskAnalyst, wanted)
  {
    var a, b, c, d := Pick(Searcher, wanted), Pick(MemoryAgent, wanted), Pick(Synthesize, wanted),
        Pick(RiskAnalyst, wanted);
    var last, late, most := [RiskAnalyst], [Synthesize, RiskAnalyst], [MemoryAgent, Synthesize, RiskAnalyst];
    assert CANONICAL[1..] == most && most[1..] == late && late[1..] == last && last[1..] == [];
    assert Only(last, wanted) == d + Only([], wanted) == d;
    assert Only(late, wanted) == c + d;
    assert Only(most, wanted) == b + (c + d);
    assert OrderedSubset(wanted) == a + (b + (c + d));
    assert a + (b + (c + d)) == a + b + c + d;
  }

  lemma {:induction false} OnlyMembers(roles: seq<Role>, wanted: set<Role>)
    requires InOrder(roles)
    ensures forall r :: r in Only(roles, wanted) <==> r in roles && r in wanted
    ensures InOrder(Only(roles, wanted))
  {
    if roles != [] {
      OnlyMembers(roles[1..], wanted);
      assert roles == [roles[0]] + roles[1..];
      var tail := Only(roles[1..], wanted);
      forall k | 0 <= k < |tail| ensures Position(roles[0]) < Position(tail[k]) {
        assert tail[k] in roles[1..];
      }
    }
  }

  lemma OrderedSubsetMembers(wanted: set<Role>)
    ensures forall r :: r in OrderedSubset(wanted) <==> r in wanted
    ensures InOrder(OrderedSubset(wanted))
  {
    OnlyMembers(CANONICAL, wanted);
    forall r ensures r in CANONICAL { assert CANONICAL[Position(r)] == r; }
  }

  lemma AppendRisk(wanted: set<Role>)
    requires RiskAnalyst !in wanted
    ensures OrderedSubset(wanted + {RiskAnalyst}) == OrderedSubset(wanted) + [RiskAnalyst]
  {
    OrderedSubsetShape(wanted);
    OrderedSubsetShape(wanted + {RiskAnalyst});
  }

  /** The allocation follows the canonical order, always searches and synthesizes, and has the risk analyst exactly when
      that is mandatory or the preset is the full chain. */
  lemma AllocationIsOrdered(r: Request)
    ensures var roles := OrderedSubset(Needed(r));
            && InOrder(roles) && Searcher in roles && Synthesize in roles
            && (RiskAnalyst in roles <==> RiskIsMandatory(r) || r.preset == "meeting_brief")
            && (MemoryAgent in roles <==> r.preset != "risk_review" && r.preset != "context_qa")
  {
    OrderedSubsetMembers(Needed(r));
  }

  // ------------------------------------------------------------- the role walk

  function IndexOf(roles: seq<Role>, role: Role): (i: nat)
    requires role in roles
    ensures i < |roles| && roles[i] == role && role !in roles[..i]
  {
    if roles[0] == role then 0 else assert roles == [roles[0]] + roles[1..]; 1 + IndexOf(roles[1..], role)
  }

  /** `next_role_after`; None stands for `merge`. */
  function NextRole(allocation: Option<seq<Role>>, current: Option<Role>): Option<Role> {
    var roles := if allocation.Some? then allocation.value else CANONICAL;
    if roles == [] then None
    else if current.None? then Some(roles[0])
    else if current.value in roles && IndexOf(roles, current.value) < |roles| - 1
    then Some(roles[IndexOf(roles, current.value) + 1])
    else None
  }

  /** In an ordered list, the next role is the first one further on; so it is never an earlier one. */
  lemma NextRoleIsTheNext(roles: seq<Role>, i: nat)
    requires InOrder(roles) && i < |roles|
    ensures NextRole(Some(roles), Some(roles[i])) == if i + 1 < |roles| then Some(roles[i + 1]) else None
  {
    var j := IndexOf(roles, roles[i]);
    RolesAreDistinct(roles, i, j);
  }

  lemma RolesAreDistinct(roles: seq<Role>, i: nat, j: nat)
    requires InOrder(roles) && i < |roles| && j < |roles| && roles[i] == roles[j]
    ensures i == j
  {
  }

  lemma NextRoleAdvances(roles: seq<Role>, current: Role)
    requires InOrder(roles)
    ensures var next := NextRole(Some(roles), Some(current));
            next.Some? ==> Position(next.value) > Position(current)
  {
    if current in roles { NextRoleIsTheNext(roles, IndexOf(roles, current)); }
  }
}
