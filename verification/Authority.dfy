/** Where authority comes from: policy, approval, capability, and the checks that consume them. */
module Authority {
  import opened Prelude
  import opened Contracts

  // ----- capability checks -----

  function ValidateCapability(c: Capability, r: CapabilityRequest, now: int): Option<CapabilityRejection> {
    if c.status != Active then Some(CapabilityStatusInvalid)
    else if c.expiresAt.NotATime? || c.expiresAt.ms <= now then Some(CapabilityExpired)
    else if c.principalId == r.principalId && c.actionType == r.actionType
         && c.resourceId == r.resourceId && c.proposalHash == r.proposalHash then None
    else Some(CapabilityScopeMismatch)
  }

  /** What `Capability.safeParse` demands beyond the types of the fields. */
  predicate CapabilitySchema(c: Capability) {
    c.id != "" && c.principalId != "" && c.resourceId != "" && c.proposalHash != "" && c.nonce != ""
  }

  /** `parseAndValidateCapability`; `None` is a raw value that is not shaped like a capability. */
  function ParseAndValidate(raw: Option<Capability>, r: CapabilityRequest, now: int)
    : Result<Capability, CapabilityRejection>
  {
    if raw.None? || !CapabilitySchema(raw.value) then Failure(CapabilityMalformed)
    else
      match ValidateCapability(raw.value, r, now)
      case Some(reason) => Failure(reason)
      case None => Success(raw.value)
  }

  // ----- preconditions -----

  function CheckPreconditions(c: Capability, currentHash: string, currentVersion: int, expectedVersion: int)
    : seq<PreconditionRejection>
  {
    if c.proposalHash != currentHash then [PlanHashMismatch]
    else if currentVersion != expectedVersion then [PreconditionFailed, ResourceVersionChanged]
    else []
  }

  // ----- approvals -----

  /** An expiry that is no time never compares as passed. */
  predicate Passed(t: Timestamp, now: int) {
    t.At? && t.ms <= now
  }

  function CheckApproval(a: Approval, r: ApprovalRequest, now: int): Option<ApprovalRejection> {
    if a.status == ApprovalConsumed then Some(ApprovalAlreadyConsumed)
    else if a.status != ApprovalActive then Some(ApprovalStatusInvalid)
    else if Passed(a.expiresAt, now) then Some(ApprovalExpired)
    else if a.proposalHash != r.proposalHash then Some(ApprovalPlanHashMismatch)
    else if !(a.scopeAction == r.actionType && a.scopeResource == r.resourceId) then Some(ApprovalOutOfScope)
    else None
  }

  function ConsumeApproval(a: Approval, r: ApprovalRequest, now: int): Result<Approval, ApprovalRejection> {
    match CheckApproval(a, r, now)
    case Some(reason) => Failure(reason)
    case None => Success(a.(status := ApprovalConsumed))
  }

  /** `selectApprovalTrigger`. */
  function SelectApprovalTrigger(result: Option<ApprovalRejection>): Option<Trigger> {
    match result
    case None => Some(MatchingApproval)
    case Some(ApprovalExpired) => Some(TtlElapsed)
    case Some(ApprovalAlreadyConsumed) => Some(ConcurrentApprovalConflict)
    case Some(_) => None
  }

  // ----- policy -----

  datatype Outcome = Allow | RequireApproval | Deny

  datatype PolicyReason =
    | MissingPrincipal | UnknownActionType | AuditWriteForbidden | ModelHasNoAuthority | CrossTenantResource
    | IntentExpired | MissingFinanceRole | HighImpact | EvidenceNotFound | ResourceNotActive
    | ExternalCommunication | IrreversibleAction | AffectsOtherPrincipal | PolicyUnavailable

  datatype PolicyVerdict = PolicyVerdict(outcome: Outcome, reasonCodes: seq<PolicyReason>, policyVersion: string)

  const CURRENT_POLICY_VERSION := "policy-2026-08-22.1"

  datatype Principal = Principal(id: string, role: string, tenantId: string)

  datatype Resource = Resource(id: string, ownerId: string, tenantId: string, version: int, status: string)

  datatype PolicyInput = PolicyInput(
    principal: Option<Principal>,
    actionType: string,
    resource: Resource,
    evidenceRefs: seq<string>,
    now: int,
    knownEvidenceIds: set<string>,
    intentTtlMs: Option<int>,
    intentCreatedAt: Option<Timestamp>)

  const AUDIT_TAMPERING_OPERATIONS: set<string> := {"delete_audit_event", "alter_audit_event", "rewrite_audit_event"}

  const CAPABILITY_SELF_GRANT_OPERATIONS: set<string> :=
    {"mint_capability", "grant_capability", "approve_action", "self_approve", "set_policy_decision"}

  predicate ValidRole(role: string) {
    role == "operator" || role == "finance" || role == "admin"
  }

  predicate ValidResourceStatus(status: string) {
    status == "active" || status == "closed" || status == "archived"
  }

  predicate CustomerImpacting(a: ActionType) {
    a == SendCustomerMessage || a == IssueRefund
  }

  predicate IntentTooOld(i: PolicyInput) {
    && i.intentTtlMs.Some? && i.intentCreatedAt.Some? && i.intentCreatedAt.value.At?
    && i.now - i.intentCreatedAt.value.ms > i.intentTtlMs.value
  }

  predicate DanglingEvidence(i: PolicyInput) {
    exists k | 0 <= k < |i.evidenceRefs| :: i.evidenceRefs[k] !in i.knownEvidenceIds
  }

  function Verdict(outcome: Outcome, reasons: seq<PolicyReason>): PolicyVerdict {
    PolicyVerdict(outcome, reasons, CURRENT_POLICY_VERSION)
  }

  /** `evaluateUnsafe`; `None` is a thrown internal fault. */
  function EvaluateUnsafe(i: PolicyInput): Option<PolicyVerdict> {
    if i.principal.None? then Some(Verdict(Deny, [MissingPrincipal]))
    else if !ValidRole(i.principal.value.role) then None
    else if i.actionType in AUDIT_TAMPERING_OPERATIONS then Some(Verdict(Deny, [AuditWriteForbidden]))
    else if i.actionType in CAPABILITY_SELF_GRANT_OPERATIONS then Some(Verdict(Deny, [ModelHasNoAuthority]))
    else
      match ParseAction(i.actionType)
      case None => Some(Verdict(Deny, [UnknownActionType]))
      case Some(action) =>
        if !ValidResourceStatus(i.resource.status) then None
        else Some(DecideKnown(i, i.principal.value, action))
  }

  /** The rules from the tenant check on, for a known principal and action. */
  function DecideKnown(i: PolicyInput, principal: Principal, action: ActionType): PolicyVerdict {
    if principal.tenantId != i.resource.tenantId then Verdict(Deny, [CrossTenantResource])
    else if IntentTooOld(i) then Verdict(Deny, [IntentExpired])
    else if action == IssueRefund && principal.role != "finance" then Verdict(Deny, [MissingFinanceRole, HighImpact])
    else if CustomerImpacting(action) && DanglingEvidence(i) then Verdict(Deny, [EvidenceNotFound])
    else if i.resource.status != "active" then Verdict(Deny, [ResourceNotActive])
    else if action == SendCustomerMessage then Verdict(RequireApproval, [ExternalCommunication])
    else if action == IssueRefund then Verdict(RequireApproval, [IrreversibleAction])
    else if i.resource.ownerId != principal.id then Verdict(RequireApproval, [AffectsOtherPrincipal])
    else Verdict(Allow, [])
  }

  function EvaluatePolicy(i: PolicyInput): PolicyVerdict {
    match EvaluateUnsafe(i)
    case Some(v) => v
    case None => Verdict(Deny, [PolicyUnavailable])
  }

  /** The grounds for a denial, each by itself. */
  datatype DenyRule =
    | NoPrincipal | StrangeRole | TampersWithAudit | GrantsItself | StrangeAction | StrangeStatus
    | OtherTenant | TooOld | NotFinance | Dangling | NotActive

  /** The order in which they count. */
  const DENY_RULES: seq<DenyRule> :=
    [NoPrincipal, StrangeRole, TampersWithAudit, GrantsItself, StrangeAction, StrangeStatus,
     OtherTenant, TooOld, NotFinance, Dangling, NotActive]

  ghost predicate Breaks(rule: DenyRule, i: PolicyInput) {
    match rule
    case NoPrincipal => i.principal.None?
    case StrangeRole => i.principal.Some? && i.principal.value.role !in {"operator", "finance", "admin"}
    case TampersWithAudit =>
      i.actionType == "delete_audit_event" || i.actionType == "alter_audit_event" || i.actionType == "rewrite_audit_event"
    case GrantsItself =>
      || i.actionType == "mint_capability" || i.actionType == "grant_capability" || i.actionType == "approve_action"
      || i.actionType == "self_approve" || i.actionType == "set_policy_decision"
    case StrangeAction => ParseAction(i.actionType).None?
    case StrangeStatus => i.resource.status !in {"active", "closed", "archived"}
    case OtherTenant => i.principal.Some? && i.principal.value.tenantId != i.resource.tenantId
    case TooOld =>
      exists ttl, created :: i.intentTtlMs == Some(ttl) && i.intentCreatedAt == Some(At(created)) && created + ttl < i.now
    case NotFinance => i.actionType == ActionName(IssueRefund) && i.principal.Some? && i.principal.value.role != "finance"
    case Dangling =>
      && (i.actionType == ActionName(SendCustomerMessage) || i.actionType == ActionName(IssueRefund))
      && exists ref :: ref in i.evidenceRefs && ref !in i.knownEvidenceIds
    case NotActive => i.resource.status != "active"
  }

  function DenyReasons(rule: DenyRule): seq<PolicyReason> {
    match rule
    case NoPrincipal => [MissingPrincipal]
    case StrangeRole => [PolicyUnavailable]
    case TampersWithAudit => [AuditWriteForbidden]
    case GrantsItself => [ModelHasNoAuthority]
    case StrangeAction => [UnknownActionType]
    case StrangeStatus => [PolicyUnavailable]
    case OtherTenant => [CrossTenantResource]
    case TooOld => [IntentExpired]
    case NotFinance => [MissingFinanceRole, HighImpact]
    case Dangling => [EvidenceNotFound]
    case NotActive => [ResourceNotActive]
  }

  lemma {:induction false} OldAndDangling(i: PolicyInput)
    ensures Breaks(TooOld, i) <==> IntentTooOld(i)
    ensures (exists ref :: ref in i.evidenceRefs && ref !in i.knownEvidenceIds) <==> DanglingEvidence(i)
  {
    if IntentTooOld(i) {
      assert i.intentTtlMs == Some(i.intentTtlMs.value) && i.intentCreatedAt == Some(At(i.intentCreatedAt.value.ms));
    }
    if ref :| ref in i.evidenceRefs && ref !in i.knownEvidenceIds {
      var k :| 0 <= k < |i.evidenceRefs| && i.evidenceRefs[k] == ref;
    }
    if DanglingEvidence(i) {
      var k :| 0 <= k < |i.evidenceRefs| && i.evidenceRefs[k] !in i.knownEvidenceIds;
      assert i.evidenceRefs[k] in i.evidenceRefs;
    }
  }

  /** Before the action is known: the rules on principal, names and resource status. */
  lemma {:induction false} EarlyDenials(i: PolicyInput, n: nat)
    requires n <= 5 && Breaks(DENY_RULES[n], i) && forall m | 0 <= m < n :: !Breaks(DENY_RULES[m], i)
    ensures EvaluatePolicy(i) == Verdict(Deny, DenyReasons(DENY_RULES[n]))
  {
    EarlierHold(i, n);
  }

  lemma {:induction false} KnownAction(i: PolicyInput, action: ActionType)
    requires forall m | 0 <= m < 6 :: !Breaks(DENY_RULES[m], i)
    requires ParseAction(i.actionType) == Some(action)
    ensures i.principal.Some? && EvaluatePolicy(i) == DecideKnown(i, i.principal.value, action)
  {
    EarlierHold(i, 6);
  }

  /** A denial names the first rule that is broken. */
  lemma {:induction false} DenialsExact(i: PolicyInput, n: nat)
    requires n < |DENY_RULES| && Breaks(DENY_RULES[n], i) && forall m | 0 <= m < n :: !Breaks(DENY_RULES[m], i)
    ensures EvaluatePolicy(i) == Verdict(Deny, DenyReasons(DENY_RULES[n]))
  {
    if n <= 5 {
      EarlyDenials(i, n);
    } else {
      EarlierHold(i, n);
      ActionKnown(i.actionType);
      OldAndDangling(i);
      KnownAction(i, ParseAction(i.actionType).value);
      LateDenials(i, n, ParseAction(i.actionType).value);
    }
  }

  /** The rules on a known action. */
  lemma {:induction false} LateDenials(i: PolicyInput, n: nat, action: ActionType)
    requires 6 <= n < |DENY_RULES| && Breaks(DENY_RULES[n], i) && forall m | 0 <= m < n :: !Breaks(DENY_RULES[m], i)
    requires i.principal.Some? && forall a :: i.actionType == ActionName(a) <==> a == action
    ensures DecideKnown(i, i.principal.value, action) == Verdict(Deny, DenyReasons(DENY_RULES[n]))
  {
    EarlierHold(i, n);
    OldAndDangling(i);
  }

  /** The rules before the first broken one, spelled out. */
  lemma {:induction false} EarlierHold(i: PolicyInput, n: nat)
    requires n <= |DENY_RULES| && forall m | 0 <= m < n :: !Breaks(DENY_RULES[m], i)
    ensures n > 0 ==> !Breaks(NoPrincipal, i)
    ensures n > 1 ==> !Breaks(StrangeRole, i)
    ensures n > 2 ==> !Breaks(TampersWithAudit, i)
    ensures n > 3 ==> !Breaks(GrantsItself, i)
    ensures n > 4 ==> !Breaks(StrangeAction, i)
    ensures n > 5 ==> !Breaks(StrangeStatus, i)
    ensures n > 6 ==> !Breaks(OtherTenant, i)
    ensures n > 7 ==> !Breaks(TooOld, i)
    ensures n > 8 ==> !Breaks(NotFinance, i)
    ensures n > 9 ==> !Breaks(Dangling, i)
    ensures n > 10 ==> !Breaks(NotActive, i)
  {
    assert n > 0 ==> !Breaks(DENY_RULES[0], i);
    assert n > 1 ==> !Breaks(DENY_RULES[1], i);
    assert n > 2 ==> !Breaks(DENY_RULES[2], i);
    assert n > 3 ==> !Breaks(DENY_RULES[3], i);
    assert n > 4 ==> !Breaks(DENY_RULES[4], i);
    assert n > 5 ==> !Breaks(DENY_RULES[5], i);
    assert n > 6 ==> !Breaks(DENY_RULES[6], i);
    assert n > 7 ==> !Breaks(DENY_RULES[7], i);
    assert n > 8 ==> !Breaks(DENY_RULES[8], i);
    assert n > 9 ==> !Breaks(DENY_RULES[9], i);
    assert n > 10 ==> !Breaks(DENY_RULES[10], i);
  }

  /** A name is parsed as the one action that bears it. */
  lemma {:induction false} ActionKnown(name: string)
    ensures forall a :: ParseAction(name) == Some(a) <==> name == ActionName(a)
  {
    forall a ensures ParseAction(name) == Some(a) <==> name == ActionName(a) {
      if ParseAction(name).Some? {
        ActionNameInjective(ParseAction(name).value, a);
      }
    }
  }

  ghost predicate BreaksNone(i: PolicyInput) {
    forall n | 0 <= n < |DENY_RULES| :: !Breaks(DENY_RULES[n], i)
  }

  /**
   Policy, outcome by outcome. It allows outright exactly the ticket actions of a recognised principal
   on its own active resource in its own tenant with no stale intent. It asks for an approval exactly
   if no rule is broken and the action is a message, a refund, or one on somebody else's resource, and
   says which; and it denies exactly if some rule is broken.
   */
  lemma {:induction false} PolicyExact(i: PolicyInput)
    ensures EvaluatePolicy(i).outcome == Allow <==>
      && i.principal.Some? && i.principal.value.role in {"operator", "finance", "admin"}
      && (i.actionType == ActionName(CreateInternalTicket) || i.actionType == ActionName(UpdateTicketStatus))
      && i.resource.status == "active"
      && i.resource.tenantId == i.principal.value.tenantId
      && i.resource.ownerId == i.principal.value.id
      && !Breaks(TooOld, i)
    ensures EvaluatePolicy(i).outcome == RequireApproval <==>
      && BreaksNone(i)
      && (|| i.actionType == ActionName(SendCustomerMessage) || i.actionType == ActionName(IssueRefund)
          || (i.principal.Some? && i.resource.ownerId != i.principal.value.id))
    ensures EvaluatePolicy(i).outcome == RequireApproval ==>
      EvaluatePolicy(i).reasonCodes
      == if i.actionType == ActionName(SendCustomerMessage) then [ExternalCommunication]
         else if i.actionType == ActionName(IssueRefund) then [IrreversibleAction]
         else [AffectsOtherPrincipal]
    ensures EvaluatePolicy(i).outcome == Deny <==> !BreaksNone(i)
  {
    if BreaksNone(i) {
      EarlierHold(i, |DENY_RULES|);
      ActionKnown(i.actionType);
      NoneBroken(i, ParseAction(i.actionType).value);
    } else {
      FirstBroken(i, |DENY_RULES|);
      var n: nat :| n < |DENY_RULES| && Breaks(DENY_RULES[n], i) && forall m | 0 <= m < n :: !Breaks(DENY_RULES[m], i);
      DenialsExact(i, n);
    }
    if && i.principal.Some? && i.principal.value.role in {"operator", "finance", "admin"}
       && (i.actionType == ActionName(CreateInternalTicket) || i.actionType == ActionName(UpdateTicketStatus))
       && i.resource.status == "active" && i.resource.tenantId == i.principal.value.tenantId
    {
      OwnTicketsBreakNone(i);
    }
  }

  /** With no rule broken, action and owner decide. */
  lemma {:induction false} NoneBroken(i: PolicyInput, action: ActionType)
    requires BreaksNone(i) && i.principal.Some? && ParseAction(i.actionType) == Some(action)
    ensures EvaluatePolicy(i)
         == if action == SendCustomerMessage then Verdict(RequireApproval, [ExternalCommunication])
            else if action == IssueRefund then Verdict(RequireApproval, [IrreversibleAction])
            else if i.resource.ownerId != i.principal.value.id then Verdict(RequireApproval, [AffectsOtherPrincipal])
            else Verdict(Allow, [])
  {
    EarlierHold(i, |DENY_RULES|);
    OldAndDangling(i);
    KnownAction(i, action);
    assert action == IssueRefund ==> i.actionType == ActionName(IssueRefund);
    assert action == SendCustomerMessage ==> i.actionType == ActionName(SendCustomerMessage);
  }

  /** A ticket action on one's own active resource, with no stale intent, breaks no rule. */
  lemma {:induction false} OwnTicketsBreakNone(i: PolicyInput)
    requires i.principal.Some? ==>
      && i.principal.value.role in {"operator", "finance", "admin"}
      && (i.actionType == ActionName(CreateInternalTicket) || i.actionType == ActionName(UpdateTicketStatus))
      && i.resource.status == "active" && i.resource.tenantId == i.principal.value.tenantId
    ensures i.principal.Some? && !Breaks(TooOld, i) ==> BreaksNone(i)
  {
    TicketNamesAreActions();
    ActionKnown(i.actionType);
  }

  lemma {:induction false} FirstBroken(i: PolicyInput, k: nat)
    requires k <= |DENY_RULES| && exists n :: 0 <= n < k && Breaks(DENY_RULES[n], i)
    ensures exists n: nat ::
      n < k && Breaks(DENY_RULES[n], i) && forall m | 0 <= m < n :: !Breaks(DENY_RULES[m], i)
  {
    var n :| 0 <= n < k && Breaks(DENY_RULES[n], i);
    if exists m :: 0 <= m < n && Breaks(DENY_RULES[m], i) {
      FirstBroken(i, n);
    }
  }

  lemma {:induction false} TicketNamesAreActions()
    ensures ActionName(CreateInternalTicket) !in AUDIT_TAMPERING_OPERATIONS
    ensures ActionName(CreateInternalTicket) !in CAPABILITY_SELF_GRANT_OPERATIONS
    ensures ActionName(UpdateTicketStatus) !in AUDIT_TAMPERING_OPERATIONS
    ensures ActionName(UpdateTicketStatus) !in CAPABILITY_SELF_GRANT_OPERATIONS
  {
    assert |ActionName(CreateInternalTicket)| == 22 && |ActionName(UpdateTicketStatus)| == 20;
    assert forall s | s in AUDIT_TAMPERING_OPERATIONS :: |s| < 20;
    assert forall s | s in CAPABILITY_SELF_GRANT_OPERATIONS :: |s| < 20;
  }

  // ----- minting -----

  const MAX_CAPABILITY_TTL_MS := 300_000

  datatype Evidence = PolicyAllow(verdict: PolicyVerdict) | Approved(approval: Approval)

  /** The reason evidence is refused, if it is. */
  function RefuseEvidence(e: Evidence, r: CapabilityRequest): Option<MintRejection> {
    match e
    case PolicyAllow(verdict) => if verdict.outcome != Allow then Some(PolicyDidNotAllow) else None
    case Approved(a) =>
      if a.status != ApprovalConsumed then Some(ApprovalNotConsumed)
      else if a.proposalHash != r.proposalHash then Some(MintPlanHashMismatch)
      else if a.scopeAction != r.actionType || a.scopeResource != r.resourceId then Some(MintScopeMismatch)
      else None
  }

  function MintCapability(
    e: Evidence, r: CapabilityRequest, capabilityId: string, nonce: string, now: int, ttlMs: int)
    : Result<Capability, MintRejection>
  {
    match RefuseEvidence(e, r)
    case Some(reason) => Failure(reason)
    case None =>
      var capped := if ttlMs < MAX_CAPABILITY_TTL_MS then ttlMs else MAX_CAPABILITY_TTL_MS;
      Success(Capability(
        capabilityId, r.principalId, r.actionType, r.resourceId, r.proposalHash, At(now + capped), nonce, Active))
  }

  /**
   From approval to use: a capability minted from an approval that was consumed for the request
   authorizes that request and no other, and only strictly before an expiry at most five minutes
   after minting; and the approval was active, unexpired and matching when it was consumed.
   */
  lemma {:induction false} ApprovalAuthorizesOnlyItsPlan(
    a: Approval, r: ApprovalRequest, consumedAt: int,
    m: CapabilityRequest, id: string, nonce: string, mintedAt: int, ttlMs: int,
    used: CapabilityRequest, usedAt: int)
    requires ConsumeApproval(a, r, consumedAt).Success?
    requires MintCapability(Approved(ConsumeApproval(a, r, consumedAt).value), m, id, nonce, mintedAt, ttlMs).Success?
    requires ValidateCapability(
      MintCapability(Approved(ConsumeApproval(a, r, consumedAt).value), m, id, nonce, mintedAt, ttlMs).value, used, usedAt) == None
    ensures a.status == ApprovalActive && !Passed(a.expiresAt, consumedAt)
    ensures used == m
    ensures used.proposalHash == a.proposalHash == r.proposalHash
    ensures used.actionType == a.scopeAction == r.actionType && used.resourceId == a.scopeResource == r.resourceId
    ensures usedAt < mintedAt + 300_000 && usedAt < mintedAt + ttlMs
  {
  }

  /** An approval is good for one consumption, and only a fresh one moves the run on. */
  lemma {:induction false} ApprovalConsumedOnce(a: Approval, r: ApprovalRequest, now: int, later: ApprovalRequest, t: int)
    requires ConsumeApproval(a, r, now).Success?
    ensures ConsumeApproval(ConsumeApproval(a, r, now).value, later, t) == Failure(ApprovalAlreadyConsumed)
    ensures SelectApprovalTrigger(CheckApproval(ConsumeApproval(a, r, now).value, later, t)) == Some(ConcurrentApprovalConflict)
  {
  }

  // ----- approval and minting, ground by ground -----

  /** The action and resource an approval is for are those of the request. */
  predicate Covers(a: Approval, r: ApprovalRequest) {
    a.scopeAction == r.actionType && a.scopeResource == r.resourceId
  }

  /** Why an approval is refused, in the order of the checks, and what consuming it leaves. */
  lemma {:induction false} ApprovalExact(a: Approval, r: ApprovalRequest, now: int)
    ensures CheckApproval(a, r, now)
         == match a.status
            case ApprovalConsumed => Some(ApprovalAlreadyConsumed)
            case ApprovalInvalidated => Some(ApprovalStatusInvalid)
            case ApprovalActive =>
              if a.expiresAt.At? && a.expiresAt.ms <= now then Some(ApprovalExpired)
              else if a.proposalHash != r.proposalHash then Some(ApprovalPlanHashMismatch)
              else if !Covers(a, r) then Some(ApprovalOutOfScope)
              else None
    ensures ConsumeApproval(a, r, now).Success? <==>
      && a.status == ApprovalActive && !(a.expiresAt.At? && a.expiresAt.ms <= now)
      && a.proposalHash == r.proposalHash && Covers(a, r)
    ensures ConsumeApproval(a, r, now).Success? ==> ConsumeApproval(a, r, now).value == a.(status := ApprovalConsumed)
  {
  }

  /** Only a matching, an expired and a consumed approval move a waiting run, each along its own edge. */
  lemma {:induction false} TriggerExact(result: Option<ApprovalRejection>)
    ensures SelectApprovalTrigger(result) == Some(MatchingApproval) <==> result == None
    ensures SelectApprovalTrigger(result) == Some(TtlElapsed) <==> result == Some(ApprovalExpired)
    ensures SelectApprovalTrigger(result) == Some(ConcurrentApprovalConflict) <==> result == Some(ApprovalAlreadyConsumed)
    ensures SelectApprovalTrigger(result) == None <==>
      result in {Some(ApprovalStatusInvalid), Some(ApprovalPlanHashMismatch), Some(ApprovalOutOfScope)}
  {
  }

  /** What evidence mints a capability, why other evidence does not, and what the capability says. */
  lemma {:induction false} MintExact(e: Evidence, r: CapabilityRequest, id: string, nonce: string, now: int, ttlMs: int)
    ensures e.PolicyAllow? ==>
      (MintCapability(e, r, id, nonce, now, ttlMs).Success? <==> e.verdict.outcome == Allow)
    ensures e.PolicyAllow? && e.verdict.outcome != Allow ==>
      MintCapability(e, r, id, nonce, now, ttlMs) == Failure(PolicyDidNotAllow)
    ensures e.Approved? && e.approval.status != ApprovalConsumed ==>
      MintCapability(e, r, id, nonce, now, ttlMs) == Failure(ApprovalNotConsumed)
    ensures e.Approved? && e.approval.status == ApprovalConsumed && e.approval.proposalHash != r.proposalHash ==>
      MintCapability(e, r, id, nonce, now, ttlMs) == Failure(MintPlanHashMismatch)
    ensures e.Approved? && e.approval.status == ApprovalConsumed && e.approval.proposalHash == r.proposalHash ==>
      (MintCapability(e, r, id, nonce, now, ttlMs).Success? <==>
         e.approval.scopeAction == r.actionType && e.approval.scopeResource == r.resourceId)
    ensures MintCapability(e, r, id, nonce, now, ttlMs).Success? ==>
      MintCapability(e, r, id, nonce, now, ttlMs).value
      == Capability(
           id, r.principalId, r.actionType, r.resourceId, r.proposalHash,
           At(if ttlMs <= 300_000 then now + ttlMs else now + 300_000), nonce, Active)
  {
  }
}
