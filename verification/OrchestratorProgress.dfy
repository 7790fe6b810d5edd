/** The path on which everything goes right: an approved message is sent once and the run verified. */
module OrchestratorProgress {
  import opened Prelude
  import opened Contracts
  import opened HashChain
  import opened Authority
  import opened Receipts
  import opened Adapters
  import opened Stores
  import opened Gateway
  import opened GatewayProtocol
  import opened Orchestrator
  import opened OrchestratorViews

  /** What a message run is created, approved and executed with. */
  datatype Inputs = Inputs(
    creation: Creation, unused: MintEnv, approval: ApprovalEnv, mint: MintEnv, begin: BeginEnv, exec: ExecInputs, stamp: Stamp)

  function ReceiptOf(x: Inputs): Receipt {
    BuildReceipt(
      x.creation.proposal.params, x.creation.idempotencyKey, x.creation.proposal.resourceId, x.exec.freshId, x.exec.createdAt)
  }

  /** A well-formed message proposal of a known role, prompt approval and a prompt adapter. */
  predicate GoesRight(server: Server, x: Inputs) {
    var i := x.creation; var expiry := x.mint.now + CAPABILITY_TTL_MS;
    && i.proposal.actionType == i.adapterKind == SendCustomerMessage && Parsed(i.proposal)
    && ValidRole(i.role) && i.proposal.evidenceRefs == []
    && i.proposal.resourceId != "" && server.planHash(i.proposal) != "" && x.mint.capabilityId != "" && x.mint.nonce != ""
    && x.approval.checkedAt < x.approval.builtAt + APPROVAL_TTL_MS
    && x.begin.now < expiry && x.begin.recheckAt < expiry && x.exec.checkedAt < expiry
    && ParsesAs(SendCustomerMessage, ReceiptOf(x))
  }

  function CapabilityOf(server: Server, x: Inputs): Capability {
    var p := x.creation.proposal;
    Capability(
      x.mint.capabilityId, "principal-1", p.actionType, p.resourceId, server.planHash(p),
      At(x.mint.now + CAPABILITY_TTL_MS), x.mint.nonce, Active)
  }

  predicate ConfigOf(server: Server, x: Inputs, c: RunConfig) {
    && c.runId == x.creation.runId && c.principal.id == "principal-1" && c.proposal == x.creation.proposal
    && c.proposalHash == server.planHash(c.proposal) && c.operationId == x.creation.operationId
    && c.idempotencyKey == x.creation.idempotencyKey && c.adapterKind == x.creation.adapterKind
  }

  /** The adapter holds the receipt of the message. */
  predicate HasSent(x: Inputs, r: RunRecord) {
    x.creation.idempotencyKey in r.adapter.byKey && r.adapter.byKey[x.creation.idempotencyKey].receipt == ReceiptOf(x)
  }

  function Asked(server: Server, x: Inputs): Phase {
    Racing(CapabilityOf(server, x), server.payloadHash(x.creation.proposal.params))
  }

  function Answered(server: Server, x: Inputs): Phase {
    Settled(CapabilityOf(server, x), server.payloadHash(x.creation.proposal.params), Resolved(ReceiptOf(x)))
  }

  function Sent(server: Server, x: Inputs): ExecStatus {
    Fired(CapabilityOf(server, x), Receipted(ReceiptOf(x)), x.exec.checkedAt)
  }

  function FreshDone(x: Inputs): ActionResult {
    Done(ReceiptOf(x), false, x.creation.operationId, FreshSuccess)
  }

  predicate Waiting(server: Server, x: Inputs, r: RunRecord) {
    && ConfigOf(server, x, r.config) && r.state == ApprovalRequired && r.calls == [] && r.applied == {}
    && r.store == StoreState(map[], map[]) && r.adapter == AdapterState(map[], map[]) && r.callCount == 0
    && r.resourceVersionNow == r.resourceVersionAtProposal
  }

  /** The one call of the run, at this phase and with this much of its execution done. */
  predicate Underway(server: Server, x: Inputs, r: RunRecord, phase: Phase, exec: ExecStatus) {
    && ConfigOf(server, x, r.config) && r.state == Authorized && |r.calls| == 1 && r.applied == {} && r.callCount == 1
    && r.calls[0].phase == phase && r.calls[0].exec == exec
    && r.calls[0].input.request == RequestFor(r.config)
    && r.calls[0].input.operation == Operation(r.config.operationId, r.config.idempotencyKey)
    && r.calls[0].input.params == r.config.proposal.params
    && r.calls[0].input.expectation == ExpectationFor(r.config.idempotencyKey, r.config.proposal.params)
  }

  lemma {:induction false} Created(server: Server, registry: RegistryState, x: Inputs)
    requires GoesRight(server, x)
    ensures Waiting(server, x, CreateRun(server, registry, x.creation, x.unused, x.begin).1)
  {
    var i := x.creation;
    var principal := Principal("principal-1", i.role, "t1");
    MessageNeedsApproval(PolicyInputFor(i, principal));
  }

  /** A message that no rule denies goes to an approver, whoever owns the resource. */
  lemma {:induction false} MessageNeedsApproval(i: PolicyInput)
    requires i.principal.Some? && ValidRole(i.principal.value.role) && i.actionType == ActionName(SendCustomerMessage)
    requires i.principal.value.tenantId == i.resource.tenantId && i.resource.status == "active"
    requires !Breaks(Dangling, i) && !Breaks(TooOld, i)
    ensures EvaluatePolicy(i).outcome == RequireApproval
  {
    var name := ActionName(SendCustomerMessage);
    assert |name| == 21;
    assert forall s | s in AUDIT_TAMPERING_OPERATIONS :: |s| < 21;
    assert forall s | s in CAPABILITY_SELF_GRANT_OPERATIONS :: |s| < 21;
    ActionNameInjective(ParseAction(name).value, SendCustomerMessage);
  }

  lemma {:induction false} Approves(server: Server, registry: RegistryState, x: Inputs, r: RunRecord)
    requires GoesRight(server, x) && Waiting(server, x, r)
    ensures var r' := ApproveRun(server, registry, r, x.approval, x.mint, x.begin).1; var cap := CapabilityOf(server, x);
      && Underway(server, x, r', Asked(server, x), InFlight(cap)) && r'.adapter == r.adapter
  {
    var approval := ConsumeApproval(FreshApproval(r.config, x.approval), ApprovalRequestFor(r.config), x.approval.checkedAt).value;
    var approved := Logged(r, ApprovalEvent(r.config, approval), x.approval.stamp)
      .(approval := Some(approval), state := Must(r.state, MatchingApproval));
    var cap := CapabilityOf(server, x);
    assert MintCapability(
      Approved(approval), RequestFor(r.config), x.mint.capabilityId, x.mint.nonce, x.mint.now, CAPABILITY_TTL_MS) == Success(cap);
    var minted := Logged(approved, MintedEvent(server.isoText, r.config, cap), x.mint.stamp).(capability := Some(cap));
    Starts(server, registry[cap.id := cap], x, minted);
  }

  lemma {:induction false} Starts(server: Server, registry: RegistryState, x: Inputs, r: RunRecord)
    requires GoesRight(server, x) && Waiting(server, x, r.(state := ApprovalRequired)) && r.state == Authorized
    requires var cap := CapabilityOf(server, x); cap.id in registry && registry[cap.id] == cap
    ensures var cap := CapabilityOf(server, x); var r' := ExecuteForRun(server, registry, r, cap, x.begin).1;
      && Underway(server, x, r', Asked(server, x), InFlight(cap)) && r'.adapter == r.adapter
  {
    var cap := CapabilityOf(server, x);
    var i := InputFor(r, cap);
    assert ParseAndValidate(i.raw, i.request, x.begin.now) == Success(cap);
    assert ValidateCapability(cap, i.request, x.begin.recheckAt) == None;
  }

  lemma {:induction false} Sends(server: Server, registry: RegistryState, x: Inputs, r: RunRecord)
    requires GoesRight(server, x) && r.adapter == AdapterState(map[], map[])
    requires Underway(server, x, r, Asked(server, x), InFlight(CapabilityOf(server, x)))
    ensures Enabled(RunWorld(registry, r), Fire(0, x.exec))
    ensures var r' := GatewayStep(server, registry, r, Fire(0, x.exec)).1;
      Underway(server, x, r', Asked(server, x), Sent(server, x)) && HasSent(x, r')
  {
  }

  lemma {:induction false} Answers(server: Server, registry: RegistryState, x: Inputs, r: RunRecord)
    requires Underway(server, x, r, Asked(server, x), Sent(server, x))
    ensures Enabled(RunWorld(registry, r), Settle(0, false))
    ensures var r' := GatewayStep(server, registry, r, Settle(0, false)).1;
      Underway(server, x, r', Answered(server, x), Sent(server, x)) && r'.adapter == r.adapter
  {
  }

  lemma {:induction false} AttemptEnds(server: Server, registry: RegistryState, x: Inputs, r: RunRecord)
    requires GoesRight(server, x) && Underway(server, x, r, Answered(server, x), Sent(server, x))
    ensures Enabled(RunWorld(registry, r), FinishCall(0, x.stamp))
    ensures var r' := GatewayStep(server, registry, r, FinishCall(0, x.stamp)).1;
      Underway(server, x, r', Returned(FreshDone(x)), Sent(server, x)) && r'.adapter == r.adapter
  {
    BuiltReceiptVerifies(
      SendCustomerMessage, x.creation.proposal.params, x.creation.idempotencyKey, x.creation.proposal.resourceId, x.exec.freshId, x.exec.createdAt);
  }

  /** The message was sent, once, and the run is verified with its receipt. */
  predicate SentOnce(x: Inputs, r: RunRecord) {
    r.state == Verified && r.callCount == 1 && r.execution == Some(Ran(FreshDone(x))) && HasSent(x, r)
  }

  lemma {:induction false} Applies(server: Server, x: Inputs, r: RunRecord)
    requires Underway(server, x, r, Returned(FreshDone(x)), Sent(server, x))
    requires HasSent(x, r)
    ensures SentOnce(x, ApplyResult(r, 0))
  {
  }

  // ----- as a run of the server -----

  function ApprovalEntry(x: Inputs): AppEvent {
    Approve(x.creation.runId, x.approval, x.mint, x.begin)
  }

  function Later(x: Inputs, e: Event): AppEvent {
    Continue(x.creation.runId, e)
  }

  function Execution(x: Inputs): seq<AppEvent> {
    [Later(x, Fire(0, x.exec))] + Answering(x)
  }

  function Answering(x: Inputs): seq<AppEvent> {
    [Later(x, Settle(0, false))] + Ending(x)
  }

  function Ending(x: Inputs): seq<AppEvent> {
    [Later(x, FinishCall(0, x.stamp))] + [Apply(x.creation.runId, 0)]
  }

  function HappyPath(x: Inputs): seq<AppEvent> {
    [Create(x.creation, x.unused, x.begin)] + ([ApprovalEntry(x)] + Execution(x))
  }

  /** These events can follow, in an orderly way, and end with the message sent once. */
  ghost predicate LeadsTo(server: Server, a: AppState, es: seq<AppEvent>, x: Inputs) {
    && AppCanRun(server, a, es) && Obeys(server, Orderly, a, es)
    && var runs := AppRun(server, a, es).runs; x.creation.runId in runs && SentOnce(x, runs[x.creation.runId])
  }

  lemma {:induction false} OneFirst(server: Server, a: AppState, e: AppEvent, es: seq<AppEvent>, x: Inputs)
    requires AppEnabled(server, a, e) && Orderly(a, e) && LeadsTo(server, AppStep(server, a, e), es, x)
    ensures LeadsTo(server, a, [e] + es, x)
  {
    assert ([e] + es)[1..] == es;
  }

  lemma {:induction false} NothingLeft(server: Server, a: AppState, x: Inputs)
    requires x.creation.runId in a.runs && SentOnce(x, a.runs[x.creation.runId])
    ensures LeadsTo(server, a, [], x)
  {
  }

  lemma {:induction false} ApplyStep(server: Server, a: AppState, x: Inputs)
    requires x.creation.runId in a.runs && HasSent(x, a.runs[x.creation.runId])
    requires Underway(server, x, a.runs[x.creation.runId], Returned(FreshDone(x)), Sent(server, x))
    ensures var e := Apply(x.creation.runId, 0);
      && AppEnabled(server, a, e) && Orderly(a, e)
      && x.creation.runId in AppStep(server, a, e).runs && SentOnce(x, AppStep(server, a, e).runs[x.creation.runId])
  {
    Applies(server, x, a.runs[x.creation.runId]);
  }

  lemma {:induction false} ApplyLeads(server: Server, a: AppState, x: Inputs)
    requires x.creation.runId in a.runs && HasSent(x, a.runs[x.creation.runId])
    requires Underway(server, x, a.runs[x.creation.runId], Returned(FreshDone(x)), Sent(server, x))
    ensures LeadsTo(server, a, [Apply(x.creation.runId, 0)], x)
  {
    var e := Apply(x.creation.runId, 0);
    ApplyStep(server, a, x);
    NothingLeft(server, AppStep(server, a, e), x);
    OneFirst(server, a, e, [], x);
    assert [e] + [] == [e];
  }

  lemma {:induction false} EndLeads(server: Server, a: AppState, x: Inputs)
    requires GoesRight(server, x) && x.creation.runId in a.runs && HasSent(x, a.runs[x.creation.runId])
    requires Underway(server, x, a.runs[x.creation.runId], Answered(server, x), Sent(server, x))
    ensures LeadsTo(server, a, Ending(x), x)
  {
    var e := Later(x, FinishCall(0, x.stamp));
    AttemptEnds(server, a.registry, x, a.runs[x.creation.runId]);
    ApplyLeads(server, AppStep(server, a, e), x);
    OneFirst(server, a, e, [Apply(x.creation.runId, 0)], x);
  }

  lemma {:induction false} AnswerLeads(server: Server, a: AppState, x: Inputs)
    requires GoesRight(server, x) && x.creation.runId in a.runs && HasSent(x, a.runs[x.creation.runId])
    requires Underway(server, x, a.runs[x.creation.runId], Asked(server, x), Sent(server, x))
    ensures LeadsTo(server, a, Answering(x), x)
  {
    var e := Later(x, Settle(0, false));
    Answers(server, a.registry, x, a.runs[x.creation.runId]);
    EndLeads(server, AppStep(server, a, e), x);
    OneFirst(server, a, e, Ending(x), x);
  }

  lemma {:induction false} FireStep(server: Server, a: AppState, x: Inputs)
    requires GoesRight(server, x) && x.creation.runId in a.runs
    requires a.runs[x.creation.runId].adapter == AdapterState(map[], map[])
    requires Underway(server, x, a.runs[x.creation.runId], Asked(server, x), InFlight(CapabilityOf(server, x)))
    ensures var e := Later(x, Fire(0, x.exec));
      && AppEnabled(server, a, e) && Orderly(a, e)
      && x.creation.runId in AppStep(server, a, e).runs
      && HasSent(x, AppStep(server, a, e).runs[x.creation.runId])
      && Underway(server, x, AppStep(server, a, e).runs[x.creation.runId], Asked(server, x), Sent(server, x))
  {
    Sends(server, a.registry, x, a.runs[x.creation.runId]);
  }

  lemma {:induction false} ExecutionLeads(server: Server, a: AppState, x: Inputs)
    requires GoesRight(server, x) && x.creation.runId in a.runs
    requires a.runs[x.creation.runId].adapter == AdapterState(map[], map[])
    requires Underway(server, x, a.runs[x.creation.runId], Asked(server, x), InFlight(CapabilityOf(server, x)))
    ensures LeadsTo(server, a, Execution(x), x)
  {
    var e := Later(x, Fire(0, x.exec));
    FireStep(server, a, x);
    AnswerLeads(server, AppStep(server, a, e), x);
    OneFirst(server, a, e, Answering(x), x);
  }

  lemma {:induction false} ApprovalLeads(server: Server, a: AppState, x: Inputs)
    requires GoesRight(server, x) && x.creation.runId in a.runs && Waiting(server, x, a.runs[x.creation.runId])
    ensures LeadsTo(server, a, [ApprovalEntry(x)] + Execution(x), x)
  {
    var e := ApprovalEntry(x);
    Approves(server, a.registry, x, a.runs[x.creation.runId]);
    ExecutionLeads(server, AppStep(server, a, e), x);
    OneFirst(server, a, e, Execution(x), x);
  }

  /**
   From any state of the server, a well-formed message proposal that is approved and answered in time
   is sent exactly once and ends verified, with entry calls taking turns and a fake adapter.
   */
  lemma {:induction false} ApprovedMessageIsSent(server: Server, a: AppState, x: Inputs)
    requires GoesRight(server, x) && x.creation.runId !in a.runs
    ensures LeadsTo(server, a, HappyPath(x), x)
  {
    var e := Create(x.creation, x.unused, x.begin);
    Created(server, a.registry, x);
    ApprovalLeads(server, AppStep(server, a, e), x);
    OneFirst(server, a, e, [ApprovalEntry(x)] + Execution(x), x);
  }
}
