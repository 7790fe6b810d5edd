/** The run state machine: one table, and no transition outside it. */
module StateMachine {
  import opened Prelude
  import opened Contracts

  function Transition(current: RunState, trigger: Trigger): Option<RunState> {
    match (current, trigger)
    case (Proposed, SchemaPass) => Some(Validated)
    case (Proposed, SchemaFail) => Some(Rejected)
    case (Validated, PolicyDeny) => Some(Denied)
    case (Validated, HighRisk) => Some(ApprovalRequired)
    case (Validated, LowRiskPolicyAllow) => Some(Authorized)
    case (ApprovalRequired, MatchingApproval) => Some(Authorized)
    case (ApprovalRequired, TtlElapsed) => Some(ExpiredState)
    case (ApprovalRequired, CapabilityRevoked) => Some(RevokedState)
    case (ApprovalRequired, ConcurrentApprovalConflict) => Some(Conflict)
    case (Authorized, FreshPreconditions) => Some(Executing)
    case (Authorized, PlanOrResourceChanged) => Some(Stale)
    case (Authorized, CapabilityRevoked) => Some(RevokedState)
    case (Executing, PostconditionPass) => Some(Verified)
    case (Executing, DeterministicToolFailure) => Some(Failed)
    case (Executing, TimeoutTransportAmbiguity) => Some(UnknownOutcome)
    case (UnknownOutcome, LookupConfirmsSuccess) => Some(Verified)
    case (UnknownOutcome, LookupConfirmsFailure) => Some(Failed)
    case (UnknownOutcome, LookupInconclusive) => Some(ReconciliationRequired)
    case _ => None
  }

  /** The eighteen edges of the diagram, by where they lead. */
  lemma {:induction false} EdgesExact(s: RunState, t: Trigger, next: RunState)
    ensures Transition(s, t) == Some(next) <==>
      match next
      case Validated => s == Proposed && t == SchemaPass
      case Rejected => s == Proposed && t == SchemaFail
      case Denied => s == Validated && t == PolicyDeny
      case ApprovalRequired => s == Validated && t == HighRisk
      case Authorized =>
        (s == Validated && t == LowRiskPolicyAllow) || (s == ApprovalRequired && t == MatchingApproval)
      case ExpiredState => s == ApprovalRequired && t == TtlElapsed
      case RevokedState => (s == ApprovalRequired || s == Authorized) && t == CapabilityRevoked
      case Conflict => s == ApprovalRequired && t == ConcurrentApprovalConflict
      case Executing => s == Authorized && t == FreshPreconditions
      case Stale => s == Authorized && t == PlanOrResourceChanged
      case Verified =>
        (s == Executing && t == PostconditionPass) || (s == UnknownOutcome && t == LookupConfirmsSuccess)
      case Failed =>
        (s == Executing && t == DeterministicToolFailure) || (s == UnknownOutcome && t == LookupConfirmsFailure)
      case UnknownOutcome => s == Executing && t == TimeoutTransportAmbiguity
      case ReconciliationRequired => s == UnknownOutcome && t == LookupInconclusive
      case Proposed => false
  {
  }

  /** A state the table gives no way out of. */
  ghost predicate IsTerminal(s: RunState) {
    forall t :: Transition(s, t) == None
  }

  /** The states that stand for progress of a run, in the order a run passes them. */
  function Rank(s: RunState): nat {
    match s
    case Proposed => 0
    case Validated => 1
    case ApprovalRequired => 2
    case Authorized => 3
    case Executing => 4
    case UnknownOutcome => 5
    case _ => 6
  }

  /** Every transition leads forward, so no run visits a state twice; the last rank is terminal. */
  lemma {:induction false} TransitionsLeadForward(s: RunState, t: Trigger)
    ensures Transition(s, t).Some? ==> Rank(Transition(s, t).value) > Rank(s)
    ensures IsTerminal(s) <==> Rank(s) == 6
  {
    assert Transition(Proposed, SchemaPass).Some? && Transition(Validated, PolicyDeny).Some?;
    assert Transition(ApprovalRequired, TtlElapsed).Some? && Transition(Authorized, FreshPreconditions).Some?;
    assert Transition(Executing, PostconditionPass).Some? && Transition(UnknownOutcome, LookupInconclusive).Some?;
  }

  /** Whatever the triggers, execution is reached through authorization only. */
  function RunTriggers(s: RunState, triggers: seq<Trigger>): Option<RunState>
    decreases |triggers|
  {
    if triggers == [] then Some(s)
    else if Transition(s, triggers[0]).None? then None
    else RunTriggers(Transition(s, triggers[0]).value, triggers[1..])
  }

  predicate PassesAuthorized(s: RunState, triggers: seq<Trigger>)
    decreases |triggers|
  {
    || s == Authorized
    || (&& triggers != [] && Transition(s, triggers[0]).Some?
        && PassesAuthorized(Transition(s, triggers[0]).value, triggers[1..]))
  }

  lemma {:induction false} ExecutionNeedsAuthorization(s: RunState, triggers: seq<Trigger>)
    requires Rank(s) <= 3
    requires RunTriggers(s, triggers).Some?
    requires RunTriggers(s, triggers).value in {Executing, Verified, Failed, UnknownOutcome, ReconciliationRequired, Stale}
    ensures PassesAuthorized(s, triggers)
    decreases |triggers|
  {
    if s != Authorized {
      assert triggers != [];
      var next := Transition(s, triggers[0]).value;
      if Rank(next) <= 3 {
        ExecutionNeedsAuthorization(next, triggers[1..]);
      } else {
        TerminalStops(next, triggers[1..]);
      }
    }
  }

  lemma {:induction false} TerminalStops(s: RunState, triggers: seq<Trigger>)
    requires Rank(s) == 6
    ensures RunTriggers(s, triggers).Some? ==> RunTriggers(s, triggers).value == s
  {
    if triggers != [] {
      TransitionsLeadForward(s, triggers[0]);
    }
  }
}
