/** Counts and verdicts, read off the shape of a run. */
module WorkflowOutcomes {
  import opened Foundations
  import opened RoleRouter
  import opened CheckNodes
  import opened WorkflowGraph
  import opened WorkflowRuns

  // ------------------------------------------------------------------- visits

  function Visits(nodes: seq<Node>, node: Node): nat {
    if nodes == [] then 0 else (if nodes[0] == node then 1 else 0) + Visits(nodes[1..], node)
  }

  lemma {:induction false} VisitsConcat(a: seq<Node>, b: seq<Node>, node: Node)
    ensures Visits(a + b, node) == Visits(a, node) + Visits(b, node)
  {
    if a == [] {
      assert a + b == b;
    } else {
      assert (a + b)[1..] == a[1..] + b;
      VisitsConcat(a[1..], b, node);
    }
  }

  lemma OneMore(n: nat, each: nat)
    requires n > 0
    ensures n * each == each + (n - 1) * each
  {
  }

  lemma {:induction false} VisitsRepeated(nodes: seq<Node>, n: nat, node: Node)
    ensures Visits(Repeated(nodes, n), node) == n * Visits(nodes, node)
  {
    if n > 0 {
      VisitsConcat(nodes, Repeated(nodes, n - 1), node);
      VisitsRepeated(nodes, n - 1, node);
      OneMore(n, Visits(nodes, node));
    }
  }

  lemma {:induction false} VisitsAgents(roles: seq<Role>, node: Node)
    requires InOrder(roles)
    ensures Visits(Agents(roles), node) == if node.Agent? && node.role in roles then 1 else 0
  {
    if roles != [] {
      assert Agents(roles)[1..] == Agents(roles[1..]);
      VisitsAgents(roles[1..], node);
      assert roles == [roles[0]] + roles[1..];
      assert forall i :: 0 <= i < |roles[1..]| ==> roles[1..][i] == roles[i + 1];
    }
  }

  lemma {:induction false} AbsentVisits(nodes: seq<Node>, node: Node)
    requires node !in nodes
    ensures Visits(nodes, node) == 0
  {
    if nodes != [] { AbsentVisits(nodes[1..], node); }
  }

  lemma {:induction false} DistinctVisits(nodes: seq<Node>, node: Node)
    requires forall i, j :: 0 <= i < j < |nodes| ==> nodes[i] != nodes[j]
    ensures Visits(nodes, node) == if node in nodes then 1 else 0
  {
    if nodes != [] {
      DistinctVisits(nodes[1..], node);
      assert nodes == [nodes[0]] + nodes[1..];
    }
  }

  /** Visits add up over the parts of a run, of which the opening, the router and the review do not count. */
  lemma VisitsOfParts(opening: seq<Node>, router: seq<Node>, walk: seq<Node>, review: seq<Node>, check: seq<Node>,
                      redo: seq<Node>, n: nat, closing: seq<Node>, node: Node)
    requires node !in opening && node !in router && node !in review
    ensures Visits(opening + router + walk + review + check + Repeated(redo, n) + closing, node) ==
            Visits(walk, node) + Visits(check, node) + n * Visits(redo, node) + Visits(closing, node)
  {
    var p2 := opening + router;
    var p3 := p2 + walk;
    var p4 := p3 + review;
    var p5 := p4 + check;
    AbsentVisits(opening, node);
    AbsentVisits(router, node);
    AbsentVisits(review, node);
    VisitsConcat(opening, router, node);
    VisitsConcat(p2, walk, node);
    VisitsConcat(p3, review, node);
    VisitsConcat(p4, check, node);
    VisitsRepeated(redo, n, node);
    VisitsConcat(p5, Repeated(redo, n), node);
    VisitsConcat(p5 + Repeated(redo, n), closing, node);
  }

  /** The parallel node stands for the searcher and the memory agent. */
  function Expanded(walk: seq<Node>): seq<Node> {
    if walk == [] then []
    else (if walk[0] == ParallelRoles then [Agent(Searcher), Agent(MemoryAgent)] else [walk[0]]) + Expanded(walk[1..])
  }

  lemma {:induction false} ExpandedAgents(roles: seq<Role>)
    ensures Expanded(Agents(roles)) == Agents(roles)
  {
    if roles != [] {
      assert Agents(roles)[1..] == Agents(roles[1..]);
      ExpandedAgents(roles[1..]);
    }
  }

  lemma ExpandedFirstWalk(cfg: Config, f: Findings)
    ensures Expanded(FirstWalk(cfg, f)) == Agents(Roles(cfg, f))
  {
    var roles := Roles(cfg, f);
    if InParallel(cfg, f) {
      ParallelPair(cfg, f);
      ExpandedAgents(roles[2..]);
      assert FirstWalk(cfg, f)[1..] == Agents(roles[2..]);
      assert roles == [Searcher, MemoryAgent] + roles[2..];
    } else {
      ExpandedAgents(roles);
    }
  }

  /** Parallel or not, the first pass is the allocation: the same roles in the same order. */
  lemma FirstPassIsTheAllocation(cfg: Config, f: Findings)
    ensures Expanded(FirstWalk(cfg, f)) == Agents(Roles(cfg, f))
    ensures cfg.routed && RiskIsMandatory(f.request) ==>
              Agent(RiskAnalyst) in FirstWalk(cfg, f) && Agent(RiskAnalyst) in Redo(cfg, f)
  {
    ExpandedFirstWalk(cfg, f);
    if cfg.routed && RiskIsMandatory(f.request) {
      AllocationIsOrdered(f.request);
      RiskIsWalked(cfg, f);
    }
  }

  lemma RiskIsWalked(cfg: Config, f: Findings)
    requires RiskAnalyst in Roles(cfg, f)
    ensures Agent(RiskAnalyst) in FirstWalk(cfg, f) && Agent(RiskAnalyst) in Redo(cfg, f)
  {
    var roles := Roles(cfg, f);
    var i :| 0 <= i < |roles| && roles[i] == RiskAnalyst;
    assert Agents(roles)[i] == Agent(RiskAnalyst);
    if InParallel(cfg, f) {
      ParallelPair(cfg, f);
      assert FirstWalk(cfg, f)[i - 1] == Agent(RiskAnalyst);
    }
    assert RevisedAgents(cfg, f)[1] == Agent(RiskAnalyst);
    assert Redo(cfg, f)[1] == Agent(RiskAnalyst);
  }

  /** In the first pass each agent node other than the parallel pair's is visited once if it is allocated. */
  lemma VisitsFirstWalk(cfg: Config, f: Findings, node: Node)
    requires node.Agent? ==> Position(node.role) >= 2
    requires node != ParallelRoles
    ensures Visits(FirstWalk(cfg, f), node) == if node.Agent? && node.role in Roles(cfg, f) then 1 else 0
  {
    var roles := Roles(cfg, f);
    OrderedSubsetMembers(Needed(f.request));
    if InParallel(cfg, f) {
      ParallelPair(cfg, f);
      assert FirstWalk(cfg, f)[1..] == Agents(roles[2..]);
      VisitsAgents(roles[2..], node);
      assert roles == [Searcher, MemoryAgent] + roles[2..];
    } else {
      VisitsAgents(roles, node);
    }
  }

  /** The nodes whose visits depend on the run, and the closing ones. */
  predicate Counted(node: Node) {
    node in {Agent(Synthesize), Agent(RiskAnalyst), QualityCheck, SafetyCheckNode, ApprovalGate, Finalize}
  }

  function VisitCount(cfg: Config, f: Findings, s: State, node: Node): nat {
    var n := Revisions(cfg, f, s.retries, s.passes);
    if node == Agent(RiskAnalyst) then (if RiskAnalyst in Roles(cfg, f) then 1 + n else 0)
    else if node == Agent(Synthesize) || node == QualityCheck then 1 + n
    else 1
  }

  /** The closing nodes are counted once, and the quality check by itself. */
  lemma VisitsClosing(node: Node)
    requires Counted(node)
    ensures Visits(CLOSING, node) == if node.Agent? || node == QualityCheck then 0 else 1
  {
    DistinctVisits(CLOSING, node);
  }

  lemma CountedElsewhere(cfg: Config, node: Node)
    requires Counted(node)
    ensures node !in OPENING && node !in RouterNode(cfg) && node !in REVIEW
  {
  }

  /** The visits of a run, as those of the first pass, of each repeated one, and of the rest. */
  lemma VisitsByPart(cfg: Config, f: Findings, s: State, node: Node) returns (rest: nat)
    requires s.node == CollectContext && s.visited == [] && Counted(node)
    ensures Visits(Finish(cfg, f, s).visited, node) ==
      Visits(FirstWalk(cfg, f), node) + Revisions(cfg, f, s.retries, s.passes) * Visits(Redo(cfg, f), node) + rest
    ensures rest == if node.Agent? then 0 else 1
  {
    RunShape(cfg, f, s);
    CountedElsewhere(cfg, node);
    VisitsClosing(node);
    rest := if node.Agent? then 0 else 1;
    PartsOfRun(s.visited, OPENING, RouterNode(cfg), FirstWalk(cfg, f), REVIEW, Redo(cfg, f),
               Revisions(cfg, f, s.retries, s.passes), CLOSING, node, rest);
  }

  lemma PartsOfRun(start: seq<Node>, opening: seq<Node>, router: seq<Node>, walk: seq<Node>, review: seq<Node>,
                   redo: seq<Node>, n: nat, closing: seq<Node>, node: Node, rest: nat)
    requires start == [] && node !in opening && node !in router && node !in review
    requires rest == Visits(closing, node) + if node == QualityCheck then 1 else 0
    ensures Visits(start + opening + router + walk + review + [QualityCheck] + Repeated(redo, n) + closing, node) ==
            Visits(walk, node) + n * Visits(redo, node) + rest
  {
    assert start + opening == opening;
    VisitsOfParts(opening, router, walk, review, [QualityCheck], redo, n, closing, node);
    DistinctVisits([QualityCheck], node);
  }

  lemma PartsOfPass(agents: seq<Node>, review: seq<Node>, node: Node)
    requires node !in review
    ensures Visits(agents + review + [QualityCheck], node) ==
            Visits(agents, node) + if node == QualityCheck then 1 else 0
  {
    AbsentVisits(review, node);
    VisitsConcat(agents + review, [QualityCheck], node);
    VisitsConcat(agents, review, node);
    DistinctVisits([QualityCheck], node);
  }

  lemma RepeatedVisits(cfg: Config, f: Findings, node: Node)
    requires Counted(node)
    ensures Visits(Redo(cfg, f), node) ==
      if node == Agent(Synthesize) || node == QualityCheck
          || (node == Agent(RiskAnalyst) && RiskAnalyst in Roles(cfg, f))
      then 1 else 0
  {
    CountedElsewhere(cfg, node);
    PartsOfPass(RevisedAgents(cfg, f), REVIEW, node);
    DistinctVisits(RevisedAgents(cfg, f), node);
  }

  lemma VisitsOfCounted(cfg: Config, f: Findings, s: State, node: Node)
    requires s.node == CollectContext && s.visited == [] && Counted(node)
    ensures Visits(Finish(cfg, f, s).visited, node) == VisitCount(cfg, f, s, node)
  {
    var rest := VisitsByPart(cfg, f, s, node);
    VisitsFirstWalk(cfg, f, node);
    RepeatedVisits(cfg, f, node);
    SynthesizeHasAPart(cfg, f);
    var n, again := Revisions(cfg, f, s.retries, s.passes), Visits(Redo(cfg, f), node);
    assert again == 0 ==> n * again == 0;
    assert again == 1 ==> n * again == n;
  }

  lemma SynthesizeHasAPart(cfg: Config, f: Findings)
    ensures Synthesize in Roles(cfg, f)
  {
    if cfg.routed { AllocationIsOrdered(f.request); } else { assert CANONICAL[2] == Synthesize; }
  }

  /** How often a run visits the nodes that matter: one synthesis more than there are revisions, of which there are at
      most the retries left; the same for the risk analyst, if it has a part; and each closing node once. */
  lemma VisitCounts(cfg: Config, f: Findings, s: State)
    requires s.node == CollectContext && s.visited == []
    ensures var v := Finish(cfg, f, s).visited; var n := Revisions(cfg, f, s.retries, s.passes);
            && Visits(v, Agent(Synthesize)) == 1 + n <= 1 + Max(0, Limit(cfg.maxRetries) - s.retries)
            && Visits(v, Agent(RiskAnalyst)) == (if RiskAnalyst in Roles(cfg, f) then 1 + n else 0)
            && Visits(v, QualityCheck) == 1 + n
            && Visits(v, SafetyCheckNode) == 1 && Visits(v, ApprovalGate) == 1 && Visits(v, Finalize) == 1
  {
    VisitsOfCounted(cfg, f, s, Agent(Synthesize));
    VisitsOfCounted(cfg, f, s, Agent(RiskAnalyst));
    VisitsOfCounted(cfg, f, s, QualityCheck);
    VisitsOfCounted(cfg, f, s, SafetyCheckNode);
    VisitsOfCounted(cfg, f, s, ApprovalGate);
    VisitsOfCounted(cfg, f, s, Finalize);
  }

  // ----------------------------------------------------------------- verdicts

  /** The outcome of the last quality check, if it looked at a critic's result; then it was not a revise. */
  function LastJudgement(cfg: Config, f: Findings, retries: int, pass: nat): Option<Check> {
    var n := Revisions(cfg, f, retries, pass);
    if Judged(cfg.maxRetries, retries + n, f.critic(pass + n))
    then Some(QualityOutcome(cfg.maxRetries, retries + n, f.critic(pass + n))) else None
  }

  function Ended(d: Decision, n: nat, last: Option<Check>): Decision {
    Decision(if last.None? then d.verdict else if last.value == Escalate then Escalated else Accept,
             if last.Some? then last else if n > 0 then Some(Revise) else d.l1,
             d.l2, d.revisions + n,
             d.trend + Repeated([Revise], n) + (if last.Some? then [last.value] else []), d.cycles + n)
  }

  function Base(d: Option<Decision>): Decision { if d.Some? then d.value else FRESH }

  lemma EndedAfterRevise(d: Option<Decision>, n: nat, last: Option<Check>)
    requires n >= 1
    ensures Ended(FoldQuality(d, Revise), n - 1, last) == Ended(Base(d), n, last)
    ensures Ended(FoldQuality(d, Revise), 0, None) == FoldQuality(d, Revise)
  {
    var trend := Base(d).trend;
    assert trend + [Revise] + Repeated([Revise], n - 1) == trend + Repeated([Revise], n);
    assert trend + [Revise] + Repeated([Revise], 0) + [] == trend + [Revise];
  }

  lemma RevisionGoesOn(cfg: Config, f: Findings, retries: int, pass: nat, d: Option<Decision>)
    requires QualityOutcome(cfg.maxRetries, retries, f.critic(pass)) == Revise
    ensures Revisions(cfg, f, retries, pass) == 1 + Revisions(cfg, f, retries + 1, pass + 1)
    ensures LastJudgement(cfg, f, retries, pass) == LastJudgement(cfg, f, retries + 1, pass + 1)
    ensures Reviewed(cfg, f, retries, pass, d) ==
            Reviewed(cfg, f, retries + 1, pass + 1, Some(FoldQuality(d, Revise)))
  {
  }

  lemma RevisionEnds(cfg: Config, f: Findings, retries: int, pass: nat, d: Option<Decision>)
    requires QualityOutcome(cfg.maxRetries, retries, f.critic(pass)) != Revise
    ensures Revisions(cfg, f, retries, pass) == 0 && LastJudgement(cfg, f, retries, pass) != Some(Revise)
    ensures Reviewed(cfg, f, retries, pass, d) ==
            match LastJudgement(cfg, f, retries, pass)
            case None => d
            case Some(last) => Some(Ended(Base(d), 0, Some(last)))
  {
    assert Base(d).trend + Repeated([Revise], 0) == Base(d).trend;
  }

  lemma {:induction false} ReviewedDecision(cfg: Config, f: Findings, retries: int, pass: nat, d: Option<Decision>)
    ensures LastJudgement(cfg, f, retries, pass) != Some(Revise)
    ensures var n := Revisions(cfg, f, retries, pass); var last := LastJudgement(cfg, f, retries, pass);
            Reviewed(cfg, f, retries, pass, d) == if n == 0 && last.None? then d else Some(Ended(Base(d), n, last))
    decreases Max(0, Limit(cfg.maxRetries) - retries)
  {
    if QualityOutcome(cfg.maxRetries, retries, f.critic(pass)) == Revise {
      RevisionGoesOn(cfg, f, retries, pass, d);
      ReviewedDecision(cfg, f, retries + 1, pass + 1, Some(FoldQuality(d, Revise)));
      EndedAfterRevise(d, Revisions(cfg, f, retries, pass), LastJudgement(cfg, f, retries, pass));
    } else {
      RevisionEnds(cfg, f, retries, pass, d);
    }
  }

  /** The decision a run ends with, in full. An unsafe proposal or a risk flag escalates it whatever the quality checks
      said; otherwise the last quality check that judged a draft decides, and one that accepted because the retries were
      used up, or for want of a critic, leaves everything as it was. */
  lemma FinalDecision(cfg: Config, f: Findings, s: State)
    requires s.node == CollectContext
    ensures var n := Revisions(cfg, f, s.retries, s.passes);
            var last := LastJudgement(cfg, f, s.retries, s.passes);
            var d := Base(s.decision);
            var end := Finish(cfg, f, s).decision;
            && end.Some? && last != Some(Revise)
            && end.value.verdict == (if Unsafe(f.gated, f.riskFlags) || last == Some(Escalate) then Escalated
                                     else if last == Some(Pass) then Accept else d.verdict)
            && end.value.l1 == (if last.Some? then last else if n > 0 then Some(Revise) else d.l1)
            && end.value.l2 == Some(if Unsafe(f.gated, f.riskFlags) then Escalate else Pass)
            && end.value.revisions == d.revisions + n && end.value.cycles == d.cycles + n
            && end.value.trend == d.trend + Repeated([Revise], n) + (if last.Some? then [last.value] else [])
  {
    RunShape(cfg, f, s);
    ReviewedDecision(cfg, f, s.retries, s.passes, s.decision);
    var d := Base(s.decision);
    assert d.trend + Repeated([Revise], 0) + [] == d.trend;
  }

  /** Hence a run that starts afresh escalates exactly when it is unsafe or the last judgement escalates. */
  lemma EscalatesExactly(cfg: Config, f: Findings, s: State)
    requires s.node == CollectContext && s.decision.None?
    ensures Finish(cfg, f, s).decision.Some?
    ensures Finish(cfg, f, s).decision.value.verdict == Escalated <==>
            Unsafe(f.gated, f.riskFlags) || LastJudgement(cfg, f, s.retries, s.passes) == Some(Escalate)
  {
    FinalDecision(cfg, f, s);
  }
}
