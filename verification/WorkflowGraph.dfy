/** The workflow graph as a state machine over its nodes, static or routed, run until it ends. */
module WorkflowGraph {
  import opened Foundations
  import opened RoleRouter
  import opened CheckNodes

  datatype Node =
    | CollectContext | RetrievalPlanner | RetrievalLoop | RetrieveContext | RerankContext | EvidencePack
    | SufficiencyGate | Decompose | Router | ParallelRoles | Agent(role: Role)
    | MergeNode | GroundingCheck | MemoryReflection | ProposeTools | CriticCheck | QualityCheck
    | SafetyCheckNode | ApprovalGate | Finalize | End

  datatype Config = Config(routed: bool, parallel: bool, maxRetries: int)

  /** What the nodes outside this model produce: the critic's result at each pass, and what the last checks see. */
  datatype Findings = Findings(request: Request, critic: nat -> Option<Critic>, gated: seq<bool>, riskFlags: nat)

  /** `passes` counts quality checks; `visited` lists the executed nodes. */
  datatype State = State(
    node: Node, retries: int, decision: Option<Decision>, allocation: Option<seq<Role>>, passes: nat,
    visited: seq<Node>)

  // -------------------------------------------------------------------- edges

  function RoleNode(next: Option<Role>): Node {
    if next.Some? then Agent(next.value) else MergeNode
  }

  predicate Together(cfg: Config, allocation: Option<seq<Role>>) {
    cfg.parallel && allocation.Some? && Searcher in allocation.value && MemoryAgent in allocation.value
  }

  /** The edge out of a node; `last` is the outcome of the quality check. */
  function Edge(cfg: Config, node: Node, allocation: Option<seq<Role>>, last: Check): Node {
    match node
    case CollectContext => RetrievalPlanner
    case RetrievalPlanner => RetrievalLoop
    case RetrievalLoop => RetrieveContext
    case RetrieveContext => RerankContext
    case RerankContext => EvidencePack
    case EvidencePack => SufficiencyGate
    case SufficiencyGate => Decompose
    case Decompose => if cfg.routed then Router else Agent(Searcher)
    case Router => if Together(cfg, allocation) then ParallelRoles else RoleNode(NextRole(allocation, None))
    case ParallelRoles => RoleNode(NextRole(allocation, Some(MemoryAgent)))
    case Agent(role) =>
      if cfg.routed then RoleNode(NextRole(allocation, Some(role)))
      else if role == Searcher then Agent(MemoryAgent)
      else if role == MemoryAgent then Agent(Synthesize)
      else if role == Synthesize then Agent(RiskAnalyst)
      else MergeNode
    case MergeNode => GroundingCheck
    case GroundingCheck => MemoryReflection
    case MemoryReflection => ProposeTools
    case ProposeTools => CriticCheck
    case CriticCheck => QualityCheck
    case QualityCheck => if last == Revise then Agent(Synthesize) else SafetyCheckNode
    case SafetyCheckNode => ApprovalGate
    case ApprovalGate => Finalize
    case Finalize => End
    case End => End
  }

  // ------------------------------------------------------------------- a step

  function LastCheck(cfg: Config, f: Findings, s: State): Check {
    QualityOutcome(cfg.maxRetries, s.retries, f.critic(s.passes))
  }

  function AfterQuality(cfg: Config, f: Findings, s: State): State {
    var outcome := LastCheck(cfg, f, s);
    s.(retries := if outcome == Revise then s.retries + 1 else s.retries,
       decision := if Judged(cfg.maxRetries, s.retries, f.critic(s.passes)) then Some(FoldQuality(s.decision, outcome))
                   else s.decision,
       passes := s.passes + 1)
  }

  /** Executes the current node and follows its edge. */
  ghost function Next(cfg: Config, f: Findings, s: State): State {
    var done :=
      match s.node
      case Router => s.(allocation := Some(OrderedSubset(Needed(f.request))))
      case QualityCheck => AfterQuality(cfg, f, s)
      case SafetyCheckNode => s.(decision := Some(FoldSafety(s.decision, SafetyOutcome(f.gated, f.riskFlags))))
      case _ => s;
    done.(node := Edge(cfg, s.node, done.allocation, LastCheck(cfg, f, s)), visited := s.visited + [s.node])
  }

  // -------------------------------------------------------------- termination

  function Rank(node: Node): nat {
    match node
    case CollectContext => 23
    case RetrievalPlanner => 22
    case RetrievalLoop => 21
    case RetrieveContext => 20
    case RerankContext => 19
    case EvidencePack => 18
    case SufficiencyGate => 17
    case Decompose => 16
    case Router => 15
    case ParallelRoles => 14
    case Agent(role) => 13 - Position(role)
    case MergeNode => 9
    case GroundingCheck => 8
    case MemoryReflection => 7
    case ProposeTools => 6
    case CriticCheck => 5
    case QualityCheck => 4
    case SafetyCheckNode => 3
    case ApprovalGate => 2
    case Finalize => 1
    case End => 0
  }

  function RetriesLeft(cfg: Config, s: State): nat { Max(0, Limit(cfg.maxRetries) - s.retries) }

  /** Past the router, a routed run has the router's allocation; the router's nodes appear in no other run. */
  ghost predicate OnTrack(cfg: Config, f: Findings, s: State) {
    && (s.node in {Router, ParallelRoles} ==> cfg.routed)
    && (cfg.routed && Rank(s.node) < 15 ==> s.allocation == Some(OrderedSubset(Needed(f.request))))
  }

  /** Only the edge of a revise leads back up. */
  lemma EdgeDescends(cfg: Config, node: Node, roles: seq<Role>, last: Check)
    requires node != End && InOrder(roles)
    requires node in {Router, ParallelRoles} ==> cfg.routed
    requires !(node == QualityCheck && last == Revise)
    ensures Rank(Edge(cfg, node, Some(roles), last)) < Rank(node)
  {
    if node.Agent? { NextRoleAdvances(roles, node.role); }
    if node == ParallelRoles { NextRoleAdvances(roles, MemoryAgent); }
  }

  /** Outside the routed part no edge looks at the allocation. */
  lemma EdgeIgnoresAllocation(cfg: Config, node: Node, a: Option<seq<Role>>, b: Option<seq<Role>>, last: Check)
    requires (!cfg.routed && node !in {Router, ParallelRoles}) || (cfg.routed && Rank(node) > 15)
    ensures Edge(cfg, node, a, last) == Edge(cfg, node, b, last)
    ensures Edge(cfg, node, a, last) in {Router, ParallelRoles} ==> cfg.routed
    ensures cfg.routed ==> Rank(Edge(cfg, node, a, last)) >= 15
  {
  }

  /** Every step uses up a retry, or uses none and moves down the graph. */
  lemma StepDescends(cfg: Config, f: Findings, s: State)
    requires OnTrack(cfg, f, s) && s.node != End
    ensures var next := Next(cfg, f, s);
            && OnTrack(cfg, f, next)
            && (RetriesLeft(cfg, next) < RetriesLeft(cfg, s)
                || (RetriesLeft(cfg, next) == RetriesLeft(cfg, s) && Rank(next.node) < Rank(s.node)))
  {
    var roles := OrderedSubset(Needed(f.request));
    OrderedSubsetMembers(Needed(f.request));
    var last := LastCheck(cfg, f, s);
    if !(s.node == QualityCheck && last == Revise) { EdgeDescends(cfg, s.node, roles, last); }
    if !cfg.routed || Rank(s.node) > 15 {
      EdgeIgnoresAllocation(cfg, s.node, s.allocation, Some(roles), last);
    }
  }

  /** The state in which a run ends. */
  ghost function Finish(cfg: Config, f: Findings, s: State): (r: State)
    requires OnTrack(cfg, f, s)
    ensures r.node == End
    decreases RetriesLeft(cfg, s), Rank(s.node)
  {
    if s.node == End then s else
      StepDescends(cfg, f, s);
      Finish(cfg, f, Next(cfg, f, s))
  }
}
