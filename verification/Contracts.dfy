/** Shapes shared by the packages. Times are integers in milliseconds. */
module Contracts {
  import opened Prelude

  datatype ActionType = CreateInternalTicket | SendCustomerMessage | IssueRefund | UpdateTicketStatus

  function ActionName(a: ActionType): (s: string)
    ensures |s| > 0
  {
    match a
    case CreateInternalTicket => "create_internal_ticket"
    case SendCustomerMessage => "send_customer_message"
    case IssueRefund => "issue_refund"
    case UpdateTicketStatus => "update_ticket_status"
  }

  /** `ActionType.safeParse`. */
  function ParseAction(s: string): (a: Option<ActionType>)
    ensures forall t | a == Some(t) :: ActionName(t) == s
    ensures a.None? ==> forall t :: ActionName(t) != s
  {
    if s == ActionName(CreateInternalTicket) then Some(CreateInternalTicket)
    else if s == ActionName(SendCustomerMessage) then Some(SendCustomerMessage)
    else if s == ActionName(IssueRefund) then Some(IssueRefund)
    else if s == ActionName(UpdateTicketStatus) then Some(UpdateTicketStatus)
    else None
  }

  lemma {:induction false} ActionNameInjective(a: ActionType, b: ActionType)
    ensures ActionName(a) == ActionName(b) ==> a == b
  {
    assert ActionName(CreateInternalTicket)[0] == 'c' && ActionName(SendCustomerMessage)[0] == 's';
    assert ActionName(IssueRefund)[0] == 'i' && ActionName(UpdateTicketStatus)[0] == 'u';
  }

  /** What `new Date(text).getTime()` makes of a date text; `NotATime` is `NaN`. */
  datatype Timestamp = At(ms: int) | NotATime

  datatype CapabilityStatus = Active | Consumed | Revoked | Expired

  datatype Capability = Capability(
    id: string,
    principalId: string,
    actionType: ActionType,
    resourceId: string,
    proposalHash: string,
    expiresAt: Timestamp,
    nonce: string,
    status: CapabilityStatus)

  datatype CapabilityRequest = CapabilityRequest(
    principalId: string,
    actionType: ActionType,
    resourceId: string,
    proposalHash: string)

  datatype CapabilityRejection =
    | CapabilityStatusInvalid
    | CapabilityExpired
    | CapabilityScopeMismatch
    | CapabilityMalformed
    | CapabilityUnknown
    | CapabilityNonceMismatch
    | CapabilityAlreadyConsumed

  datatype ApprovalStatus = ApprovalActive | ApprovalConsumed | ApprovalInvalidated

  datatype Approval = Approval(
    id: string,
    proposalHash: string,
    approverId: string,
    scopeAction: ActionType,
    scopeResource: string,
    policyVersion: string,
    expiresAt: Timestamp,
    approvedAt: int,
    status: ApprovalStatus)

  datatype ApprovalRequest = ApprovalRequest(proposalHash: string, actionType: ActionType, resourceId: string)

  datatype ApprovalRejection =
    | ApprovalStatusInvalid
    | ApprovalAlreadyConsumed
    | ApprovalExpired
    | ApprovalPlanHashMismatch
    | ApprovalOutOfScope

  datatype PreconditionRejection = PlanHashMismatch | PreconditionFailed | ResourceVersionChanged

  datatype MintRejection = PolicyDidNotAllow | ApprovalNotConsumed | MintPlanHashMismatch | MintScopeMismatch

  datatype RunState =
    | Proposed | Validated | Rejected | Denied | ApprovalRequired | Authorized | Stale | ExpiredState
    | Executing | Verified | Failed | UnknownOutcome | ReconciliationRequired | RevokedState | Conflict

  datatype Trigger =
    | SchemaPass | SchemaFail | PolicyDeny | HighRisk | LowRiskPolicyAllow | MatchingApproval | TtlElapsed
    | FreshPreconditions | PlanOrResourceChanged | PostconditionPass | DeterministicToolFailure
    | TimeoutTransportAmbiguity | LookupConfirmsSuccess | LookupConfirmsFailure | LookupInconclusive
    | CapabilityRevoked | ConcurrentApprovalConflict

  datatype AuditEventType =
    | ModelProposalRecorded | PolicyDecision | ApprovalConsumedEvent | CapabilityMinted | ExecutionStarted
    | PreconditionFailedEvent | PostconditionVerified | PostconditionFailed | ExecutionUnknown
    | ReconciliationRequiredEvent | AuditIntegrityChecked | DuplicateReplayDetected

  function EventName(t: AuditEventType): string {
    match t
    case ModelProposalRecorded => "MODEL_PROPOSAL_RECORDED"
    case PolicyDecision => "POLICY_DECISION"
    case ApprovalConsumedEvent => "APPROVAL_CONSUMED"
    case CapabilityMinted => "CAPABILITY_MINTED"
    case ExecutionStarted => "EXECUTION_STARTED"
    case PreconditionFailedEvent => "PRECONDITION_FAILED"
    case PostconditionVerified => "POSTCONDITION_VERIFIED"
    case PostconditionFailed => "POSTCONDITION_FAILED"
    case ExecutionUnknown => "EXECUTION_UNKNOWN"
    case ReconciliationRequiredEvent => "RECONCILIATION_REQUIRED"
    case AuditIntegrityChecked => "AUDIT_INTEGRITY_CHECKED"
    case DuplicateReplayDetected => "DUPLICATE_REPLAY_DETECTED"
  }

  /** Event names as they are written. */
  lemma {:induction false} EventNamesExact()
    ensures EventName(ModelProposalRecorded) == "MODEL_PROPOSAL_RECORDED" && EventName(PolicyDecision) == "POLICY_DECISION"
    ensures EventName(ApprovalConsumedEvent) == "APPROVAL_CONSUMED" && EventName(CapabilityMinted) == "CAPABILITY_MINTED"
    ensures EventName(ExecutionStarted) == "EXECUTION_STARTED" && EventName(PreconditionFailedEvent) == "PRECONDITION_FAILED"
    ensures EventName(PostconditionVerified) == "POSTCONDITION_VERIFIED"
    ensures EventName(PostconditionFailed) == "POSTCONDITION_FAILED"
    ensures EventName(ExecutionUnknown) == "EXECUTION_UNKNOWN"
    ensures EventName(ReconciliationRequiredEvent) == "RECONCILIATION_REQUIRED"
    ensures EventName(AuditIntegrityChecked) == "AUDIT_INTEGRITY_CHECKED"
    ensures EventName(DuplicateReplayDetected) == "DUPLICATE_REPLAY_DETECTED"
  {
  }

  /** Action, actor and subject names as they are written. */
  lemma {:induction false} NamesExact()
    ensures ActionName(CreateInternalTicket) == "create_internal_ticket"
    ensures ActionName(SendCustomerMessage) == "send_customer_message"
    ensures ActionName(IssueRefund) == "issue_refund" && ActionName(UpdateTicketStatus) == "update_ticket_status"
    ensures ActorName(ServerActor) == "server" && ActorName(HumanActor) == "human"
    ensures ActorName(ModelActor) == "model" && ActorName(ToolActor) == "tool"
    ensures SubjectName(ActionSubject) == "action" && SubjectName(ApprovalSubject) == "approval"
    ensures SubjectName(CapabilitySubject) == "capability" && SubjectName(ResourceSubject) == "resource"
    ensures SubjectName(OperationSubject) == "operation"
  {
  }

  lemma {:induction false} EventNameInjective(a: AuditEventType, b: AuditEventType)
    ensures EventName(a) == EventName(b) ==> a == b
  {
    if |EventName(a)| == |EventName(b)| {
      assert |EventName(a)| == 15 ==> a == PolicyDecision;
      assert |EventName(a)| == 23 ==>
        EventName(a)[0] == if a == ModelProposalRecorded then 'M' else if a == AuditIntegrityChecked then 'A' else 'R';
      assert |EventName(a)| == 17 ==>
        EventName(a)[0] == if a == ApprovalConsumedEvent then 'A' else if a == CapabilityMinted then 'C' else 'E';
      assert |EventName(a)| == 17 && EventName(a)[0] == 'E' ==>
        EventName(a)[10] == if a == ExecutionStarted then 'S' else 'U';
      assert |EventName(a)| == 19 ==>
        EventName(a)[0] == 'P' && EventName(a)[1] == if a == PreconditionFailedEvent then 'R' else 'O';
    }
  }

  datatype ActorKind = ServerActor | HumanActor | ModelActor | ToolActor

  function ActorName(k: ActorKind): string {
    match k
    case ServerActor => "server"
    case HumanActor => "human"
    case ModelActor => "model"
    case ToolActor => "tool"
  }

  datatype SubjectKind = ActionSubject | ApprovalSubject | CapabilitySubject | ResourceSubject | OperationSubject

  function SubjectName(k: SubjectKind): string {
    match k
    case ActionSubject => "action"
    case ApprovalSubject => "approval"
    case CapabilitySubject => "capability"
    case ResourceSubject => "resource"
    case OperationSubject => "operation"
  }

  lemma {:induction false} ActorNameInjective(a: ActorKind, b: ActorKind)
    ensures ActorName(a) == ActorName(b) ==> a == b
  {
    assert ActorName(a)[0] == match a case ServerActor => 's' case HumanActor => 'h' case ModelActor => 'm' case ToolActor => 't';
    assert ActorName(b)[0] == match b case ServerActor => 's' case HumanActor => 'h' case ModelActor => 'm' case ToolActor => 't';
  }

  lemma {:induction false} SubjectNameInjective(a: SubjectKind, b: SubjectKind)
    ensures SubjectName(a) == SubjectName(b) ==> a == b
  {
    if |SubjectName(a)| == |SubjectName(b)| {
      assert SubjectName(ApprovalSubject)[0] == 'a' && SubjectName(ResourceSubject)[0] == 'r';
    }
  }
}
