/**
 The run orchestrator. A run owns its ledger, operation store and adapter; all runs share one
 capability registry. An entry call is one atomic piece up to the first await of `executeAction`;
 the gateway's later pieces and the application of a call's result are events of their own, so entry
 calls on one run may overlap in any way.
 */
module Orchestrator {
  import opened Prelude
  import opened Json
  import opened CanonicalHash
  import opened PlanHash
  import opened Contracts
  import opened HashChain
  import opened Ledger
  import opened Authority
  import opened StateMachine
  import opened Receipts
  import opened Adapters
  import opened Stores
  import opened Gateway
  import opened GatewayProtocol

  const SCHEMA_VERSION := "w3-proposal-1"
  const CAPABILITY_TTL_MS := 60_000
  const APPROVAL_TTL_MS := 600_000

  /** The action a parsed model proposal asks for. */
  datatype Proposal = Proposal(actionType: ActionType, resourceId: string, params: Params, evidenceRefs: seq<string>)

  /** What the server computes with: the two hashes, the text of a time, and the hash of a ledger entry. */
  datatype Server = Server(
    payloadHash: Params -> string,
    planHash: Proposal -> string,
    isoText: int -> string,
    entryHash: LedgerEntry -> string)

  function PlanOf(p: Proposal): Plan {
    Plan(SCHEMA_VERSION, p.actionType, p.resourceId, Compact(ParamsSlots(p.params)), p.evidenceRefs)
  }

  /** `computeProposalHash` of a proposal, for a given SHA-256. */
  function PlanHashOf(sha: string -> string): Proposal -> string {
    (p: Proposal) => ComputeProposalHash(sha, PlanOf(p))
  }

  /** What `createRun` fixes for the life of a run. */
  datatype RunConfig = RunConfig(
    runId: string,
    principal: Principal,
    proposal: Proposal,
    proposalHash: string,
    verdict: PolicyVerdict,
    operationId: string,
    idempotencyKey: string,
    adapterKind: ActionType)

  datatype ExecutionSummary = NotMinted(reason: MintRejection) | Ran(result: ActionResult)

  /**
   A run with the objects it owns. `callCount` is the adapter's counter; `calls` are the calls of
   `executeAction` made for the run, `applied` those whose result `executeForRun` has dealt with.
   */
  datatype RunRecord = RunRecord(
    config: RunConfig,
    state: RunState,
    resourceVersionAtProposal: int,
    resourceVersionNow: int,
    drifted: bool,
    approval: Option<Approval>,
    capability: Option<Capability>,
    execution: Option<ExecutionSummary>,
    store: StoreState,
    log: seq<Appended>,
    adapter: AdapterState,
    callCount: nat,
    calls: seq<Call>,
    applied: set<nat>)

  datatype AppState = AppState(registry: RegistryState, runs: map<string, RunRecord>)

  // ----- what generator, clock and model supply -----

  datatype BeginEnv = BeginEnv(now: int, recheckAt: int, stamp: Stamp)

  datatype MintEnv = MintEnv(capabilityId: string, nonce: string, now: int, stamp: Stamp)

  datatype ApprovalEnv = ApprovalEnv(id: string, builtAt: int, approvedAt: int, checkedAt: int, stamp: Stamp)

  datatype Creation = Creation(
    runId: string, role: string, goal: string, raw: string, resourceId: string, proposal: Proposal,
    adapterKind: ActionType, operationId: string, idempotencyKey: string, now: int,
    proposalStamp: Stamp, policyStamp: Stamp)

  // ----- the events the orchestrator logs -----

  function OutcomeName(o: Outcome): string {
    match o case Allow => "ALLOW" case RequireApproval => "REQUIRE_APPROVAL" case Deny => "DENY"
  }

  function PolicyReasonName(r: PolicyReason): string {
    match r
    case MissingPrincipal => "MISSING_PRINCIPAL"
    case UnknownActionType => "UNKNOWN_ACTION_TYPE"
    case AuditWriteForbidden => "AUDIT_WRITE_FORBIDDEN"
    case ModelHasNoAuthority => "MODEL_HAS_NO_AUTHORITY"
    case CrossTenantResource => "CROSS_TENANT_RESOURCE"
    case IntentExpired => "INTENT_EXPIRED"
    case MissingFinanceRole => "MISSING_FINANCE_ROLE"
    case HighImpact => "HIGH_IMPACT"
    case EvidenceNotFound => "EVIDENCE_NOT_FOUND"
    case ResourceNotActive => "RESOURCE_NOT_ACTIVE"
    case ExternalCommunication => "EXTERNAL_COMMUNICATION"
    case IrreversibleAction => "IRREVERSIBLE_ACTION"
    case AffectsOtherPrincipal => "AFFECTS_OTHER_PRINCIPAL"
    case PolicyUnavailable => "POLICY_UNAVAILABLE"
  }

  function PolicyReasonNames(rs: seq<PolicyReason>): seq<Json> {
    seq(|rs|, i requires 0 <= i < |rs| => Str(PolicyReasonName(rs[i])))
  }

  function ProposalEvent(i: Creation): AuditEventInput {
    AuditEventInput(
      ModelProposalRecorded, ModelActor, "fake-model-adapter-v1", ActionSubject, i.runId,
      Compact([TextOf("goal", i.goal), TextOf("raw", i.raw)]), None, Some(i.operationId), None, None)
  }

  function PolicyEvent(i: Creation, v: PolicyVerdict): AuditEventInput {
    AuditEventInput(
      PolicyDecision, ServerActor, "policy-engine-v1", ActionSubject, i.runId,
      Compact([TextOf("outcome", OutcomeName(v.outcome)), Slot("reasonCodes", Some(Arr(PolicyReasonNames(v.reasonCodes))))]),
      None, Some(i.operationId), Some(v.policyVersion), None)
  }

  function ScopeSlots(a: Approval): seq<Slot> {
    [TextOf("actionType", ActionName(a.scopeAction)), TextOf("resourceId", a.scopeResource)]
  }

  function ApprovalEvent(c: RunConfig, a: Approval): AuditEventInput {
    AuditEventInput(
      ApprovalConsumedEvent, HumanActor, a.approverId, ApprovalSubject, a.id,
      Compact([TextOf("proposalHash", a.proposalHash), Slot("scope", Some(Obj(Compact(ScopeSlots(a)))))]),
      None, Some(c.operationId), None, None)
  }

  function ExpiryText(isoText: int -> string, t: Timestamp): string {
    match t case At(ms) => isoText(ms) case NotATime => ""
  }

  function MintedEvent(isoText: int -> string, c: RunConfig, cap: Capability): AuditEventInput {
    AuditEventInput(
      CapabilityMinted, ServerActor, "capability-minter-v1", CapabilitySubject, cap.id,
      Compact([TextOf("actionType", ActionName(cap.actionType)), TextOf("resourceId", cap.resourceId),
               TextOf("expiresAt", ExpiryText(isoText, cap.expiresAt))]),
      None, Some(c.operationId), None, None)
  }

  function IntegrityReasonName(r: IntegrityReason): string {
    match r
    case SequenceGap => "SEQUENCE_GAP"
    case PrevHashMismatch => "PREV_HASH_MISMATCH"
    case HashMismatch => "HASH_MISMATCH"
    case ChainLengthMismatch => "CHAIN_LENGTH_MISMATCH"
  }

  function IntegritySlots(r: IntegrityResult): seq<Slot> {
    match r
    case Intact(n) => [Slot("ok", Some(Bool(true))), Slot("checkedEntries", Some(Num(IntNumber(n))))]
    case Broken(reason, at) =>
      [Slot("ok", Some(Bool(false))), TextOf("reasonCode", IntegrityReasonName(reason)),
       Slot("brokenAtSequence", Some(Num(IntNumber(at))))]
  }

  function IntegrityEvent(c: RunConfig, r: IntegrityResult): AuditEventInput {
    AuditEventInput(
      AuditIntegrityChecked, ServerActor, "audit-verifier-v1", OperationSubject, c.operationId,
      Compact(IntegritySlots(r)), None, Some(c.operationId), None, None)
  }

  function Logged(r: RunRecord, input: AuditEventInput, stamp: Stamp): RunRecord {
    r.(log := r.log + [Appended(input, stamp)])
  }

  // ----- the gateway on behalf of one run -----

  function RequestFor(c: RunConfig): CapabilityRequest {
    CapabilityRequest(c.principal.id, c.proposal.actionType, c.proposal.resourceId, c.proposalHash)
  }

  function InputFor(r: RunRecord, cap: Capability): CallInput {
    CallInput(
      Some(cap), RequestFor(r.config), Operation(r.config.operationId, r.config.idempotencyKey), r.config.proposal.params,
      r.config.proposalHash, r.resourceVersionNow, r.resourceVersionAtProposal,
      ExpectationFor(r.config.idempotencyKey, r.config.proposal.params))
  }

  function RunWorld(registry: RegistryState, r: RunRecord): World {
    World(Gate(registry, r.store, r.log), r.adapter, r.calls)
  }

  function SettingFor(server: Server, r: RunRecord): Setting {
    Setting(r.config.adapterKind, server.payloadHash)
  }

  /** One piece of a gateway call of this run; the counting adapter counts the calls of `execute`. */
  function GatewayStep(server: Server, registry: RegistryState, r: RunRecord, e: Event): (RegistryState, RunRecord)
    requires Enabled(RunWorld(registry, r), e)
  {
    var w := Step(SettingFor(server, r), RunWorld(registry, r), e);
    var entered := e.BeginCall? && w.calls[|r.calls|].exec != NotCalled;
    (w.gate.registry,
     r.(store := w.gate.store, log := w.gate.log, adapter := w.adapter, calls := w.calls,
        callCount := r.callCount + if entered then 1 else 0))
  }

  /** The action types `executeForRun` has a path for; for others it throws. */
  predicate Executable(a: ActionType) {
    a == SendCustomerMessage || a == CreateInternalTicket
  }

  function ExecuteForRun(server: Server, registry: RegistryState, r: RunRecord, cap: Capability, env: BeginEnv)
    : (RegistryState, RunRecord)
  {
    if !Executable(r.config.proposal.actionType) then (registry, r)
    else GatewayStep(server, registry, r, BeginCall(InputFor(r, cap), env.now, env.recheckAt, env.stamp))
  }

  function AuthorizeAndExecute(
    server: Server, registry: RegistryState, r: RunRecord, evidence: Evidence, mint: MintEnv, env: BeginEnv)
    : (RegistryState, RunRecord)
  {
    match MintCapability(evidence, RequestFor(r.config), mint.capabilityId, mint.nonce, mint.now, CAPABILITY_TTL_MS)
    case Failure(reason) => (registry, r.(execution := Some(NotMinted(reason))))
    case Success(cap) =>
      var minted := Logged(r, MintedEvent(server.isoText, r.config, cap), mint.stamp).(capability := Some(cap));
      ExecuteForRun(server, registry[cap.id := cap], minted, cap, env)
  }

  // ----- entry calls -----

  /** `mustTransition` where the table has the edge. */
  function Must(s: RunState, t: Trigger): RunState
    requires Transition(s, t).Some?
  {
    Transition(s, t).value
  }

  function PolicyInputFor(i: Creation, principal: Principal): PolicyInput {
    PolicyInput(
      Some(principal), ActionName(i.proposal.actionType),
      Resource(i.resourceId, principal.id, principal.tenantId, 1, "active"),
      i.proposal.evidenceRefs, i.now, {}, None, None)
  }

  /** The record `createRun` files, before policy has its effect. */
  function NewRun(server: Server, i: Creation): RunRecord {
    var principal := Principal("principal-1", i.role, "t1");
    var verdict := EvaluatePolicy(PolicyInputFor(i, principal));
    var config := RunConfig(
      i.runId, principal, i.proposal, server.planHash(i.proposal), verdict, i.operationId, i.idempotencyKey, i.adapterKind);
    RunRecord(
      config, Must(Proposed, SchemaPass), 1, 1, false, None, None, None, StoreState(map[], map[]),
      [Appended(ProposalEvent(i), i.proposalStamp), Appended(PolicyEvent(i, verdict), i.policyStamp)],
      AdapterState(map[], map[]), 0, [], {})
  }

  function CreateRun(server: Server, registry: RegistryState, i: Creation, mint: MintEnv, env: BeginEnv)
    : (RegistryState, RunRecord)
  {
    var r := NewRun(server, i);
    match r.config.verdict.outcome
    case Deny => (registry, r.(state := Must(r.state, PolicyDeny)))
    case RequireApproval => (registry, r.(state := Must(r.state, HighRisk)))
    case Allow =>
      AuthorizeAndExecute(
        server, registry, r.(state := Must(r.state, LowRiskPolicyAllow)), PolicyAllow(r.config.verdict), mint, env)
  }

  function ApprovalRequestFor(c: RunConfig): ApprovalRequest {
    ApprovalRequest(c.proposalHash, c.proposal.actionType, c.proposal.resourceId)
  }

  function FreshApproval(c: RunConfig, a: ApprovalEnv): Approval {
    Approval(
      a.id, c.proposalHash, "human-approver-1", c.proposal.actionType, c.proposal.resourceId, c.verdict.policyVersion,
      At(a.builtAt + APPROVAL_TTL_MS), a.approvedAt, ApprovalActive)
  }

  function ApproveRun(
    server: Server, registry: RegistryState, r: RunRecord, a: ApprovalEnv, mint: MintEnv, env: BeginEnv)
    : (RegistryState, RunRecord)
  {
    if r.state != ApprovalRequired then (registry, r)
    else
      match ConsumeApproval(FreshApproval(r.config, a), ApprovalRequestFor(r.config), a.checkedAt)
      case Failure(_) => (registry, r)
      case Success(approval) =>
        var approved := Logged(r, ApprovalEvent(r.config, approval), a.stamp)
          .(approval := Some(approval), state := Must(r.state, MatchingApproval));
        AuthorizeAndExecute(server, registry, approved, Approved(approval), mint, env)
  }

  function ReplayRun(server: Server, registry: RegistryState, r: RunRecord, env: BeginEnv): (RegistryState, RunRecord) {
    if r.state != Verified || r.capability.None? then (registry, r)
    else ExecuteForRun(server, registry, r, r.capability.value, env)
  }

  function ReconcileRun(server: Server, registry: RegistryState, r: RunRecord, env: BeginEnv): (RegistryState, RunRecord) {
    if (r.state != UnknownOutcome && r.state != ReconciliationRequired) || r.capability.None? then (registry, r)
    else ExecuteForRun(server, registry, r, r.capability.value, env)
  }

  function SimulateDrift(r: RunRecord): RunRecord {
    if r.state != ApprovalRequired then r
    else r.(resourceVersionNow := r.resourceVersionNow + 1, drifted := true)
  }

  /** `verifyRunLedger` once the check has answered `result`. */
  function VerifyRunLedger(r: RunRecord, result: IntegrityResult, stamp: Stamp): RunRecord {
    Logged(r, IntegrityEvent(r.config, result), stamp)
  }

  // ----- applying a result -----

  function Twice(s: RunState, first: Trigger, second: Trigger): Option<RunState> {
    match Transition(s, first)
    case None => None
    case Some(next) => Transition(next, second)
  }

  /** `applyExecutionResult`: the next state, or `None` where `mustTransition` throws. */
  function NextState(s: RunState, result: ActionResult): Option<RunState> {
    match result
    case Done(_, _, _, reason) =>
      if reason == ReconciledSuccess then Transition(s, LookupConfirmsSuccess)
      else if s == Authorized then Twice(s, FreshPreconditions, PostconditionPass)
      else Some(s)
    case PreconditionFailure(_) => Transition(s, PlanOrResourceChanged)
    case UnknownOutcomeResult(_) => Twice(s, FreshPreconditions, TimeoutTransportAmbiguity)
    case ReconciliationRequiredResult(_) => Transition(s, LookupInconclusive)
    case PostconditionFailure => Twice(s, FreshPreconditions, DeterministicToolFailure)
    case CapabilityFailure(_) => Some(s)
    case IdempotencyConflict => Some(s)
    case AdapterFailure(_) => Some(s)
  }

  /** Where a success, a timeout or a failed check leads from each state, and where it leads nowhere. */
  lemma {:induction false} AttemptResultsExact(s: RunState, result: ActionResult, next: RunState)
    requires result.Done? || result.UnknownOutcomeResult? || result.PostconditionFailure? || result.PreconditionFailure?
    ensures NextState(s, result) == Some(next) <==>
      if result.Done? && result.reason == ReconciledSuccess then s == UnknownOutcome && next == Verified
      else if result.Done? then (s == Authorized && next == Verified) || (s != Authorized && next == s)
      else if result.UnknownOutcomeResult? then s == Authorized && next == UnknownOutcome
      else if result.PostconditionFailure? then s == Authorized && next == Failed
      else s == Authorized && next == Stale
  {
    TwiceExact(s, PostconditionPass, next);
    TwiceExact(s, TimeoutTransportAmbiguity, next);
    TwiceExact(s, DeterministicToolFailure, next);
  }

  /** A fruitless lookup leads on from UNKNOWN_OUTCOME only; the other results leave the state alone. */
  lemma {:induction false} OtherResultsExact(s: RunState, result: ActionResult, next: RunState)
    requires
      || result.ReconciliationRequiredResult? || result.CapabilityFailure? || result.IdempotencyConflict?
      || result.AdapterFailure?
    ensures NextState(s, result) == Some(next) <==>
      if result.ReconciliationRequiredResult? then s == UnknownOutcome && next == ReconciliationRequired else next == s
  {
  }

  /** Two transitions on end, the first into EXECUTING. */
  lemma {:induction false} TwiceExact(s: RunState, second: Trigger, next: RunState)
    ensures Twice(s, FreshPreconditions, second) == Some(next) <==> s == Authorized && Transition(Executing, second) == Some(next)
  {
    EdgesExact(s, FreshPreconditions, Executing);
    if Transition(s, FreshPreconditions).Some? {
      EdgesExact(s, FreshPreconditions, Transition(s, FreshPreconditions).value);
    }
  }

  /** The end of `executeForRun` for call `c`; a throw leaves the run as it is. */
  function ApplyResult(r: RunRecord, c: nat): RunRecord
    requires c < |r.calls| && r.calls[c].phase.Returned?
  {
    var result := r.calls[c].phase.result;
    var seen := r.(applied := r.applied + {c});
    match NextState(r.state, result)
    case None => seen
    case Some(next) => seen.(state := next, execution := Some(Ran(result)))
  }

  // ----- the server as a state machine -----

  datatype AppEvent =
    | Create(creation: Creation, mint: MintEnv, begin: BeginEnv)
    | Approve(runId: string, approval: ApprovalEnv, mint: MintEnv, begin: BeginEnv)
    | Replay(runId: string, begin: BeginEnv)
    | Reconcile(runId: string, begin: BeginEnv)
    | Drift(runId: string)
    | Verify(runId: string, result: IntegrityResult, stamp: Stamp)
    | Continue(runId: string, event: Event)
    | Apply(runId: string, c: nat)

  /** The later pieces of a gateway call; its start is part of an entry call, minting registers. */
  predicate LaterPiece(e: Event) {
    !e.Register? && !e.BeginCall?
  }

  function RunIdOf(e: AppEvent): string {
    if e.Create? then e.creation.runId else e.runId
  }

  /** What the model proposal's schema guarantees about the parameters of an action. */
  predicate Parsed(p: Proposal) {
    p.actionType == UpdateTicketStatus || Fits(p.actionType, p.params)
  }

  ghost predicate AppEnabled(server: Server, a: AppState, e: AppEvent) {
    if e.Create? then e.creation.runId !in a.runs && Parsed(e.creation.proposal)
    else
      && e.runId in a.runs
      && var r := a.runs[e.runId];
         match e
         case Verify(_, result, _) => IntegrityVerdict(server.entryHash, Build(server.entryHash, r.log), None, result)
         case Continue(_, event) => LaterPiece(event) && Enabled(RunWorld(a.registry, r), event)
         case Apply(_, c) => c < |r.calls| && r.calls[c].phase.Returned? && c !in r.applied
         case _ => true
  }

  /** What one event makes of the registry and of the run it is about. */
  ghost function RunStep(server: Server, a: AppState, e: AppEvent): (RegistryState, RunRecord)
    requires AppEnabled(server, a, e)
  {
    match e
    case Create(creation, mint, begin) => CreateRun(server, a.registry, creation, mint, begin)
    case Approve(id, approval, mint, begin) => ApproveRun(server, a.registry, a.runs[id], approval, mint, begin)
    case Replay(id, begin) => ReplayRun(server, a.registry, a.runs[id], begin)
    case Reconcile(id, begin) => ReconcileRun(server, a.registry, a.runs[id], begin)
    case Drift(id) => (a.registry, SimulateDrift(a.runs[id]))
    case Verify(id, result, stamp) => (a.registry, VerifyRunLedger(a.runs[id], result, stamp))
    case Continue(id, event) => GatewayStep(server, a.registry, a.runs[id], event)
    case Apply(id, c) => (a.registry, ApplyResult(a.runs[id], c))
  }

  ghost function AppStep(server: Server, a: AppState, e: AppEvent): AppState
    requires AppEnabled(server, a, e)
  {
    var (registry, r) := RunStep(server, a, e);
    AppState(registry, a.runs[RunIdOf(e) := r])
  }

  function AppStart(): AppState {
    AppState(map[], map[])
  }

  ghost predicate AppCanRun(server: Server, a: AppState, es: seq<AppEvent>)
    decreases |es|
  {
    es == [] || (AppEnabled(server, a, es[0]) && AppCanRun(server, AppStep(server, a, es[0]), es[1..]))
  }

  ghost function AppRun(server: Server, a: AppState, es: seq<AppEvent>): AppState
    requires AppCanRun(server, a, es)
    decreases |es|
  {
    if es == [] then a else AppRun(server, AppStep(server, a, es[0]), es[1..])
  }

  /** A rule about when an event may happen, kept at every event of a run. */
  ghost predicate Obeys(server: Server, rule: (AppState, AppEvent) -> bool, a: AppState, es: seq<AppEvent>)
    requires AppCanRun(server, a, es)
    decreases |es|
  {
    es == [] || (rule(a, es[0]) && Obeys(server, rule, AppStep(server, a, es[0]), es[1..]))
  }

  predicate Anything(a: AppState, e: AppEvent) {
    true
  }

  lemma {:induction false} ObeysAnything(server: Server, a: AppState, es: seq<AppEvent>)
    requires AppCanRun(server, a, es)
    ensures Obeys(server, Anything, a, es)
    decreases |es|
  {
    if es != [] {
      ObeysAnything(server, AppStep(server, a, es[0]), es[1..]);
    }
  }

  /** What every event keeps of the run it is about holds of every run, always. */
  lemma {:induction false} EveryRun(
    server: Server, rule: (AppState, AppEvent) -> bool, inv: RunRecord -> bool, a: AppState, es: seq<AppEvent>)
    requires AppCanRun(server, a, es) && Obeys(server, rule, a, es)
    requires forall b, e | AppEnabled(server, b, e) && rule(b, e) && (RunIdOf(e) in b.runs ==> inv(b.runs[RunIdOf(e)])) ::
      inv(RunStep(server, b, e).1)
    requires forall id | id in a.runs :: inv(a.runs[id])
    ensures forall id | id in AppRun(server, a, es).runs :: inv(AppRun(server, a, es).runs[id])
    decreases |es|
  {
    if es != [] {
      assert RunIdOf(es[0]) in a.runs ==> inv(a.runs[RunIdOf(es[0])]);
      EveryRun(server, rule, inv, AppStep(server, a, es[0]), es[1..]);
    }
  }
}
