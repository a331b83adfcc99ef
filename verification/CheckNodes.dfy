/** The two review nodes: the quality check that may send a draft back, and the safety check that may escalate it. */
module CheckNodes {
  import opened Foundations

  datatype Check = Pass | Revise | Escalate

  datatype Verdict = Accept | Reject | Escalated

  /** The running review decision, without its texts and scores. */
  datatype Decision = Decision(
    verdict: Verdict, l1: Option<Check>, l2: Option<Check>, revisions: int, trend: seq<Check>, cycles: int)

  const FRESH := Decision(Accept, None, None, 0, [], 1)

  datatype Critic = Critic(passed: bool, issues: seq<string>, contextSufficient: bool)

  // ------------------------------------------------------------ the decisions

  function Limit(maxRetries: int): nat { Max(0, maxRetries) }

  /** Once the retries are used up, or without a critic, the draft is accepted and the decision is left alone. */
  predicate Judged(maxRetries: int, retries: int, critic: Option<Critic>) {
    retries < Limit(maxRetries) && critic.Some?
  }

  function QualityOutcome(maxRetries: int, retries: int, critic: Option<Critic>): Check {
    if !Judged(maxRetries, retries, critic) || critic.value.passed then Pass
    else if "insufficient_context_guarded" in critic.value.issues || !critic.value.contextSufficient then Revise
    else if "grounding_failed" in critic.value.issues then Escalate
    else Revise
  }

  /** `quality_check`: its outcome, whether it enters the running decision, and the retries that are then used. */
  method QualityReview(maxRetries: int, retries: int, critic: Option<Critic>)
      returns (outcome: Check, judged: bool, used: int)
    ensures outcome == QualityOutcome(maxRetries, retries, critic) && judged == Judged(maxRetries, retries, critic)
    ensures outcome != Pass ==> judged && !critic.value.passed
    ensures outcome == Escalate ==>
              && "grounding_failed" in critic.value.issues && critic.value.contextSufficient
              && "insufficient_context_guarded" !in critic.value.issues
    ensures judged && !critic.value.passed && outcome != Escalate ==> outcome == Revise
    ensures retries <= used <= Max(retries, Limit(maxRetries)) && (used > retries <==> outcome == Revise)
  {
    outcome, judged, used := Pass, false, retries;
    if retries >= Max(0, maxRetries) || critic.None? { return; }
    judged := true;
    if critic.value.passed { return; }
    if "insufficient_context_guarded" in critic.value.issues || !critic.value.contextSufficient {
      return Revise, true, retries + 1;
    }
    if "grounding_failed" in critic.value.issues { return Escalate, true, retries; }
    return Revise, true, retries + 1;
  }

  function FoldQuality(d: Option<Decision>, outcome: Check): Decision {
    var od := if d.Some? then d.value else FRESH;
    var noted := od.(l1 := Some(outcome), trend := od.trend + [outcome]);
    match outcome
    case Revise => noted.(revisions := od.revisions + 1, cycles := od.cycles + 1)
    case Escalate => noted.(verdict := Escalated)
    case Pass => noted.(verdict := Accept)
  }

  /** `gated` says of each proposed call whether it requires approval. */
  ghost predicate Unsafe(gated: seq<bool>, riskFlags: nat) {
    riskFlags > 0 || exists i :: 0 <= i < |gated| && !gated[i]
  }

  ghost function SafetyOutcome(gated: seq<bool>, riskFlags: nat): Check {
    if Unsafe(gated, riskFlags) then Escalate else Pass
  }

  function FoldSafety(d: Option<Decision>, outcome: Check): Decision {
    var od := if d.Some? then d.value else FRESH;
    var noted := od.(l2 := Some(outcome));
    if outcome == Escalate then noted.(verdict := Escalated) else noted
  }

  /** The loop over the proposals, then the flags. */
  method SafetyCheck(gated: seq<bool>, riskFlags: nat) returns (outcome: Check)
    ensures outcome == SafetyOutcome(gated, riskFlags)
  {
    for i := 0 to |gated|
      invariant forall j :: 0 <= j < i ==> gated[j]
    {
      if !gated[i] { return Escalate; }
    }
    outcome := if riskFlags > 0 then Escalate else Pass;
  }

  // ------------------------------------------------------ the decision object

  /** `OutputDecision`, which the accumulators update in place. */
  class OutputDecision {
    var verdict: Verdict
    var l1: Option<Check>
    var l2: Option<Check>
    var revisions: int
    var trend: seq<Check>
    var cycles: int

    function View(): Decision
      reads this
    {
      Decision(verdict, l1, l2, revisions, trend, cycles)
    }

    constructor ()
      ensures View() == FRESH
    {
      verdict, l1, l2, revisions, trend, cycles := Accept, None, None, 0, [], 1;
    }

    method AccumulateQuality(outcome: Check)
      modifies this
      ensures View() == FoldQuality(Some(old(View())), outcome)
    {
      l1 := Some(outcome);
      trend := trend + [outcome];
      match outcome
      case Revise =>
        revisions := revisions + 1;
        cycles := cycles + 1;
      case Escalate =>
        verdict := Escalated;
      case Pass =>
        verdict := Accept;
    }

    method AccumulateSafety(outcome: Check)
      modifies this
      ensures View() == FoldSafety(Some(old(View())), outcome)
    {
      l2 := Some(outcome);
      if outcome == Escalate { verdict := Escalated; }
    }
  }
}
