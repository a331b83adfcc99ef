/** What every run of the workflow graph visits, and the decision it ends with. */
module WorkflowRuns {
  import opened Foundations
  import opened RoleRouter
  import opened CheckNodes
  import opened WorkflowGraph

  // ------------------------------------------------- the parts of every run

  const OPENING := [CollectContext, RetrievalPlanner, RetrievalLoop, RetrieveContext, RerankContext, EvidencePack,
                    SufficiencyGate, Decompose]
  const REVIEW := [MergeNode, GroundingCheck, MemoryReflection, ProposeTools, CriticCheck]
  const CLOSING := [SafetyCheckNode, ApprovalGate, Finalize]

  function Agents(roles: seq<Role>): (r: seq<Node>)
    ensures |r| == |roles|
  {
    seq(|roles|, i requires 0 <= i < |roles| => Agent(roles[i]))
  }

  /** The roles of a run: the allocation, or the whole static chain. */
  function Roles(cfg: Config, f: Findings): seq<Role> {
    if cfg.routed then OrderedSubset(Needed(f.request)) else CANONICAL
  }

  predicate InParallel(cfg: Config, f: Findings) {
    cfg.routed && Together(cfg, Some(Roles(cfg, f)))
  }

  /** The first pass over the roles. */
  function FirstWalk(cfg: Config, f: Findings): seq<Node> {
    var roles := Roles(cfg, f);
    if InParallel(cfg, f) && |roles| >= 2 then [ParallelRoles] + Agents(roles[2..]) else Agents(roles)
  }

  function RouterNode(cfg: Config): seq<Node> { if cfg.routed then [Router] else [] }

  /** The further pass after a revise, up to the quality check. */
  function Revised(cfg: Config, f: Findings): seq<Node> { RevisedAgents(cfg, f) + REVIEW }

  function RevisedAgents(cfg: Config, f: Findings): seq<Node> {
    [Agent(Synthesize)] + if RiskAnalyst in Roles(cfg, f) then [Agent(RiskAnalyst)] else []
  }

  function Redo(cfg: Config, f: Findings): seq<Node> { Revised(cfg, f) + [QualityCheck] }

  function Repeated<T>(nodes: seq<T>, n: nat): (r: seq<T>)
    ensures |r| == n * |nodes|
  {
    if n == 0 then [] else nodes + Repeated(nodes, n - 1)
  }

  /** How often the quality check sends the draft back. */
  function Revisions(cfg: Config, f: Findings, retries: int, pass: nat): (n: nat)
    ensures n <= Max(0, Limit(cfg.maxRetries) - retries)
    decreases Max(0, Limit(cfg.maxRetries) - retries)
  {
    if QualityOutcome(cfg.maxRetries, retries, f.critic(pass)) == Revise
    then 1 + Revisions(cfg, f, retries + 1, pass + 1) else 0
  }

  /** The decision after the quality checks. */
  function Reviewed(cfg: Config, f: Findings, retries: int, pass: nat, d: Option<Decision>): Option<Decision>
    decreases Max(0, Limit(cfg.maxRetries) - retries)
  {
    var outcome := QualityOutcome(cfg.maxRetries, retries, f.critic(pass));
    var next := if Judged(cfg.maxRetries, retries, f.critic(pass)) then Some(FoldQuality(d, outcome)) else d;
    if outcome == Revise then Reviewed(cfg, f, retries + 1, pass + 1, next) else next
  }

  // ------------------------------------------------------------------- chains

  predicate Plain(node: Node) { node !in {Router, QualityCheck, SafetyCheckNode, End} }

  predicate Leads(cfg: Config, allocation: Option<seq<Role>>, a: Node, b: Node) {
    Plain(a) && Edge(cfg, a, allocation, Pass) == b
  }

  ghost predicate Chain(cfg: Config, allocation: Option<seq<Role>>, path: seq<Node>) {
    forall i :: 0 <= i < |path| - 1 ==> Leads(cfg, allocation, path[i], path[i + 1])
  }

  /** The state at the end of a chain of plain nodes. */
  ghost function Passed(s: State, path: seq<Node>): State
    requires path != []
  {
    s.(node := path[|path| - 1], visited := s.visited + path[..|path| - 1])
  }

  lemma PlainStep(cfg: Config, f: Findings, s: State, b: Node)
    requires OnTrack(cfg, f, s) && Leads(cfg, s.allocation, s.node, b)
    ensures Next(cfg, f, s) == s.(node := b, visited := s.visited + [s.node])
    ensures OnTrack(cfg, f, Next(cfg, f, s)) && Finish(cfg, f, s) == Finish(cfg, f, Next(cfg, f, s))
  {
    StepDescends(cfg, f, s);
  }

  lemma ChainTail(cfg: Config, allocation: Option<seq<Role>>, path: seq<Node>)
    requires |path| > 1 && Chain(cfg, allocation, path)
    ensures Leads(cfg, allocation, path[0], path[1]) && Chain(cfg, allocation, path[1..])
  {
    var rest := path[1..];
    assert Leads(cfg, allocation, path[0], path[1]);
    forall i | 0 <= i < |rest| - 1 ensures Leads(cfg, allocation, rest[i], rest[i + 1]) {
      assert Leads(cfg, allocation, path[i + 1], path[i + 2]);
    }
  }

  lemma PassedTail(s: State, path: seq<Node>)
    requires |path| > 1
    ensures Passed(s.(node := path[1], visited := s.visited + [path[0]]), path[1..]) == Passed(s, path)
  {
    assert path[..|path| - 1] == [path[0]] + path[1..][..|path| - 2];
  }

  /** A run goes through a chain of plain nodes one by one. */
  lemma {:induction false} ChainIsFollowed(cfg: Config, f: Findings, s: State, path: seq<Node>)
    requires OnTrack(cfg, f, s) && path != [] && path[0] == s.node && Chain(cfg, s.allocation, path)
    ensures OnTrack(cfg, f, Passed(s, path)) && Finish(cfg, f, s) == Finish(cfg, f, Passed(s, path))
    decreases |path|
  {
    if |path| == 1 {
      assert Passed(s, path) == s;
    } else {
      ChainTail(cfg, s.allocation, path);
      PlainStep(cfg, f, s, path[1]);
      PassedTail(s, path);
      ChainIsFollowed(cfg, f, Next(cfg, f, s), path[1..]);
    }
  }

  lemma RoutedRoleLeads(cfg: Config, roles: seq<Role>, k: nat, allocation: Option<seq<Role>>)
    requires cfg.routed && allocation == Some(roles) && InOrder(roles) && k < |roles|
    ensures Leads(cfg, allocation, Agent(roles[k]), if k + 1 < |roles| then Agent(roles[k + 1]) else MergeNode)
  {
    NextRoleIsTheNext(roles, k);
  }

  lemma StaticRoleLeads(cfg: Config, k: nat, allocation: Option<seq<Role>>)
    requires !cfg.routed && k < |CANONICAL|
    ensures Leads(cfg, allocation, Agent(CANONICAL[k]),
                  if k + 1 < |CANONICAL| then Agent(CANONICAL[k + 1]) else MergeNode)
  {
  }

  /** The walk over the roles from the `i`th on, and out to the merge. */
  lemma RolesChain(cfg: Config, f: Findings, i: nat, allocation: Option<seq<Role>>)
    requires i <= |Roles(cfg, f)| && (cfg.routed ==> allocation == Some(Roles(cfg, f)))
    ensures Chain(cfg, allocation, Agents(Roles(cfg, f)[i..]) + [MergeNode])
  {
    var roles := Roles(cfg, f);
    var path := Agents(roles[i..]) + [MergeNode];
    OrderedSubsetMembers(Needed(f.request));
    forall k | 0 <= k < |path| - 1 ensures Leads(cfg, allocation, path[k], path[k + 1]) {
      assert path[k] == Agent(roles[i + k]);
      assert path[k + 1] == if k + 1 < |roles| - i then Agent(roles[i + k + 1]) else MergeNode;
      if cfg.routed {
        RoutedRoleLeads(cfg, roles, i + k, allocation);
      } else {
        StaticRoleLeads(cfg, i + k, allocation);
      }
    }
  }

  /** The synthesizer is in every run, followed by the risk analyst or by nothing. */
  lemma SynthesizeOnwards(cfg: Config, f: Findings) returns (i: nat)
    ensures i < |Roles(cfg, f)|
    ensures Roles(cfg, f)[i..] == [Synthesize] + (if RiskAnalyst in Roles(cfg, f) then [RiskAnalyst] else [])
  {
    if cfg.routed {
      AllocationIsOrdered(f.request);
      OrderedSubsetMembers(Needed(f.request));
      i := SynthesizeIn(Needed(f.request));
    } else {
      i := 2;
      assert CANONICAL[3] == RiskAnalyst;
    }
  }

  lemma SynthesizeIn(wanted: set<Role>) returns (i: nat)
    requires Synthesize in wanted
    ensures i < |OrderedSubset(wanted)|
    ensures OrderedSubset(wanted)[i..] == [Synthesize] + (if RiskAnalyst in wanted then [RiskAnalyst] else [])
  {
    OrderedSubsetShape(wanted);
    var before := Pick(Searcher, wanted) + Pick(MemoryAgent, wanted);
    i := |before|;
    var after := Pick(Synthesize, wanted) + Pick(RiskAnalyst, wanted);
    assert OrderedSubset(wanted) == before + after;
    assert (before + after)[i..] == after;
  }

  lemma ReviewChain(cfg: Config, allocation: Option<seq<Role>>)
    ensures Chain(cfg, allocation, REVIEW + [QualityCheck])
    ensures Chain(cfg, allocation, [ApprovalGate, Finalize, End])
  {
  }

  // ------------------------------------------------- from the quality check on

  /** The end of a run: the checks, and the way out. */
  lemma Closing(cfg: Config, f: Findings, s: State)
    requires OnTrack(cfg, f, s) && s.node == SafetyCheckNode
    ensures var r := Finish(cfg, f, s);
            && r.visited == s.visited + CLOSING && r.retries == s.retries && r.passes == s.passes
            && r.decision == Some(FoldSafety(s.decision, SafetyOutcome(f.gated, f.riskFlags)))
  {
    StepDescends(cfg, f, s);
    var next := Next(cfg, f, s);
    ReviewChain(cfg, next.allocation);
    var path := [ApprovalGate, Finalize, End];
    ChainIsFollowed(cfg, f, next, path);
    assert path[..2] == [ApprovalGate, Finalize];
    assert s.visited + [SafetyCheckNode] + [ApprovalGate, Finalize] == s.visited + CLOSING;
  }

  /** After a revise: the synthesizer, the risk analyst if it has a part, and the review, back to the quality check. */
  lemma Again(cfg: Config, f: Findings, s: State)
    requires OnTrack(cfg, f, s) && s.node == Agent(Synthesize)
    ensures var r := s.(node := QualityCheck, visited := s.visited + Revised(cfg, f));
            OnTrack(cfg, f, r) && Finish(cfg, f, s) == Finish(cfg, f, r)
  {
    RevisedChain(cfg, f, s.allocation);
    var agents := RevisedAgents(cfg, f);
    ThroughReview(cfg, f, s, agents);
    assert s.visited + agents + REVIEW == s.visited + (agents + REVIEW);
  }

  lemma RevisedChain(cfg: Config, f: Findings, allocation: Option<seq<Role>>)
    requires cfg.routed ==> allocation == Some(Roles(cfg, f))
    ensures Chain(cfg, allocation, RevisedAgents(cfg, f) + [MergeNode])
  {
    var i := SynthesizeOnwards(cfg, f);
    RolesChain(cfg, f, i, allocation);
    assert Agents(Roles(cfg, f)[i..]) == RevisedAgents(cfg, f);
  }

  /** From any chain of plain nodes that leads to the merge, through the review to the quality check. */
  lemma ThroughReview(cfg: Config, f: Findings, s: State, walk: seq<Node>)
    requires OnTrack(cfg, f, s) && walk != [] && walk[0] == s.node && Chain(cfg, s.allocation, walk + [MergeNode])
    ensures var r := s.(node := QualityCheck, visited := s.visited + walk + REVIEW);
            OnTrack(cfg, f, r) && Finish(cfg, f, s) == Finish(cfg, f, r)
  {
    var path, review := walk + [MergeNode], REVIEW + [QualityCheck];
    ChainIsFollowed(cfg, f, s, path);
    var merged := Passed(s, path);
    ReviewChain(cfg, merged.allocation);
    ChainIsFollowed(cfg, f, merged, review);
    assert path[..|path| - 1] == walk && review[..|review| - 1] == REVIEW;
  }

  lemma RepeatOnce(before: seq<Node>, pass: seq<Node>, n: nat)
    requires n >= 1
    ensures before + pass + [QualityCheck] + Repeated(pass + [QualityCheck], n - 1)
            == before + Repeated(pass + [QualityCheck], n)
  {
    var redo := pass + [QualityCheck];
    assert before + pass + [QualityCheck] == before + redo;
    assert before + redo + Repeated(redo, n - 1) == before + (redo + Repeated(redo, n - 1));
  }

  /** What a run from the quality check on comes to: a pass repeated for each revision, and then the closing nodes. */
  ghost predicate ClosesAfter(cfg: Config, f: Findings, s: State, n: nat, decision: Option<Decision>, r: State) {
    && r.visited == s.visited + [QualityCheck] + Repeated(Redo(cfg, f), n) + CLOSING
    && r.retries == s.retries + n && r.passes == s.passes + n + 1
    && r.decision == Some(FoldSafety(decision, SafetyOutcome(f.gated, f.riskFlags)))
  }

  lemma OneMorePass(cfg: Config, f: Findings, s: State, back: State, n: nat, decision: Option<Decision>, r: State)
    requires n > 0 && ClosesAfter(cfg, f, back, n - 1, decision, r)
    requires back.visited == s.visited + [QualityCheck] + Revised(cfg, f)
    requires back.retries == s.retries + 1 && back.passes == s.passes + 1
    ensures ClosesAfter(cfg, f, s, n, decision, r)
  {
    RepeatOnce(s.visited + [QualityCheck], Revised(cfg, f), n);
  }

  /** From the quality check on, a run repeats the pass once for each revision and then closes. */
  lemma {:induction false} FromQuality(cfg: Config, f: Findings, s: State)
    requires OnTrack(cfg, f, s) && s.node == QualityCheck
    ensures ClosesAfter(cfg, f, s, Revisions(cfg, f, s.retries, s.passes),
                        Reviewed(cfg, f, s.retries, s.passes, s.decision), Finish(cfg, f, s))
    decreases RetriesLeft(cfg, s)
  {
    var next := QualityStep(cfg, f, s);
    if next.node == Agent(Synthesize) {
      Again(cfg, f, next);
      var back := next.(node := QualityCheck, visited := next.visited + Revised(cfg, f));
      FromQuality(cfg, f, back);
      OneMorePass(cfg, f, s, back, Revisions(cfg, f, s.retries, s.passes),
                  Reviewed(cfg, f, s.retries, s.passes, s.decision), Finish(cfg, f, s));
    } else {
      Closing(cfg, f, next);
      assert next.visited + Repeated(Redo(cfg, f), 0) == next.visited;
    }
  }

  /** One quality check: back to the synthesizer with a retry spent, or on to the safety check. */
  lemma QualityStep(cfg: Config, f: Findings, s: State) returns (next: State)
    requires OnTrack(cfg, f, s) && s.node == QualityCheck
    ensures OnTrack(cfg, f, next) && Finish(cfg, f, s) == Finish(cfg, f, next)
    ensures next.visited == s.visited + [QualityCheck] && next.passes == s.passes + 1
    ensures var n := Revisions(cfg, f, s.retries, s.passes);
            var reviewed := Reviewed(cfg, f, s.retries, s.passes, s.decision);
            if n > 0 then
              && next.node == Agent(Synthesize) && next.retries == s.retries + 1
              && RetriesLeft(cfg, next) < RetriesLeft(cfg, s)
              && n == 1 + Revisions(cfg, f, next.retries, next.passes)
              && reviewed == Reviewed(cfg, f, next.retries, next.passes, next.decision)
            else next.node == SafetyCheckNode && next.retries == s.retries && next.decision == reviewed
  {
    StepDescends(cfg, f, s);
    next := Next(cfg, f, s);
    QualityNext(cfg, f, s, next);
    OneRevisionLess(cfg, f, s, next);
  }

  ghost predicate Checked(cfg: Config, f: Findings, s: State, next: State) {
    var outcome := QualityOutcome(cfg.maxRetries, s.retries, f.critic(s.passes));
    && next.node == (if outcome == Revise then Agent(Synthesize) else SafetyCheckNode)
    && next.visited == s.visited + [QualityCheck] && next.passes == s.passes + 1
    && next.retries == s.retries + (if outcome == Revise then 1 else 0)
    && next.decision == if Judged(cfg.maxRetries, s.retries, f.critic(s.passes))
                        then Some(FoldQuality(s.decision, outcome)) else s.decision
  }

  lemma QualityNext(cfg: Config, f: Findings, s: State, next: State)
    requires s.node == QualityCheck && next == Next(cfg, f, s)
    ensures Checked(cfg, f, s, next)
  {
  }

  lemma OneRevisionLess(cfg: Config, f: Findings, s: State, next: State)
    requires Checked(cfg, f, s, next)
    ensures var n := Revisions(cfg, f, s.retries, s.passes);
            var reviewed := Reviewed(cfg, f, s.retries, s.passes, s.decision);
            if n > 0 then
              && next.node == Agent(Synthesize) && next.retries == s.retries + 1
              && RetriesLeft(cfg, next) < RetriesLeft(cfg, s)
              && n == 1 + Revisions(cfg, f, next.retries, next.passes)
              && reviewed == Reviewed(cfg, f, next.retries, next.passes, next.decision)
            else next.node == SafetyCheckNode && next.retries == s.retries && next.decision == reviewed
  {
  }

  // --------------------------------------------------------- from the start

  /** From the first role node, or the parallel one, to the quality check. */
  lemma FirstPass(cfg: Config, f: Findings, s: State)
    requires OnTrack(cfg, f, s) && FirstWalk(cfg, f) != [] && s.node == FirstWalk(cfg, f)[0]
    requires cfg.routed ==> s.allocation == Some(Roles(cfg, f))
    ensures var r := s.(node := QualityCheck, visited := s.visited + FirstWalk(cfg, f) + REVIEW);
            OnTrack(cfg, f, r) && Finish(cfg, f, s) == Finish(cfg, f, r)
  {
    FirstWalkChain(cfg, f, s.allocation);
    ThroughReview(cfg, f, s, FirstWalk(cfg, f));
  }

  lemma ParallelPair(cfg: Config, f: Findings)
    requires InParallel(cfg, f)
    ensures var roles := Roles(cfg, f); |roles| >= 3 && roles[0] == Searcher && roles[1] == MemoryAgent
  {
    AllocationIsOrdered(f.request);
    OrderedSubsetMembers(Needed(f.request));
    OrderedSubsetShape(Needed(f.request));
  }

  lemma FirstWalkChain(cfg: Config, f: Findings, allocation: Option<seq<Role>>)
    requires cfg.routed ==> allocation == Some(Roles(cfg, f))
    ensures Chain(cfg, allocation, FirstWalk(cfg, f) + [MergeNode])
  {
    var roles := Roles(cfg, f);
    if InParallel(cfg, f) {
      ParallelPair(cfg, f);
      OrderedSubsetMembers(Needed(f.request));
      NextRoleIsTheNext(roles, 1);
      RolesChain(cfg, f, 2, allocation);
      var tail, path := Agents(roles[2..]) + [MergeNode], FirstWalk(cfg, f) + [MergeNode];
      assert path == [ParallelRoles] + tail;
      forall i | 0 <= i < |path| - 1 ensures Leads(cfg, allocation, path[i], path[i + 1]) {
        if i > 0 { assert Leads(cfg, allocation, tail[i - 1], tail[i]); }
      }
    } else {
      RolesChain(cfg, f, 0, allocation);
      assert roles[0..] == roles;
    }
  }

  /** The whole run. Its shape is fixed by the roles and the number of revisions: the first pass visits exactly the
      allocated roles, each revision repeats the synthesizer (and the risk analyst, if allocated) and the review, and
      the run closes with one safety check, one approval gate and the end. */
  lemma RunShape(cfg: Config, f: Findings, s: State)
    requires s.node == CollectContext
    ensures var r := Finish(cfg, f, s); var n := Revisions(cfg, f, s.retries, s.passes);
            && r.visited == s.visited + OPENING + RouterNode(cfg) + FirstWalk(cfg, f) + REVIEW + [QualityCheck]
                            + Repeated(Redo(cfg, f), n) + CLOSING
            && r.retries == s.retries + n && r.passes == s.passes + n + 1
            && r.decision == Some(FoldSafety(Reviewed(cfg, f, s.retries, s.passes, s.decision),
                                             SafetyOutcome(f.gated, f.riskFlags)))
  {
    var start := Started(cfg, f, s);
    FirstPass(cfg, f, start);
    FromQuality(cfg, f, start.(node := QualityCheck, visited := start.visited + FirstWalk(cfg, f) + REVIEW));
  }

  /** The opening, up to the first role. */
  lemma Started(cfg: Config, f: Findings, s: State) returns (start: State)
    requires s.node == CollectContext
    ensures OnTrack(cfg, f, start) && Finish(cfg, f, s) == Finish(cfg, f, start)
    ensures FirstWalk(cfg, f) != []
    ensures start == s.(node := FirstWalk(cfg, f)[0], visited := s.visited + OPENING + RouterNode(cfg),
                        allocation := if cfg.routed then Some(Roles(cfg, f)) else s.allocation)
  {
    var first := if cfg.routed then Router else Agent(Searcher);
    var path := OPENING + [first];
    ChainIsFollowed(cfg, f, s, path);
    start := Passed(s, path);
    assert path[..|path| - 1] == OPENING;
    var _ := SynthesizeOnwards(cfg, f);
    if cfg.routed {
      StepDescends(cfg, f, start);
      start := Next(cfg, f, start);
      if InParallel(cfg, f) { ParallelPair(cfg, f); }
    } else {
      assert s.visited + OPENING + [] == s.visited + OPENING;
    }
  }
}
