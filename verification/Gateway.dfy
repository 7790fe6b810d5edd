/**
 `executeAction`, cut at its awaits. JavaScript runs each piece to completion, so a call is a
 sequence of atomic pieces: `Begin` up to the race or the lookup, `Finish` once the race is decided,
 `FinishLookup` once the lookup has answered. Each piece is a function on the shared state; module
 GatewayObjects carries them out on the shared objects.
 */
module Gateway {
  import opened Prelude
  import opened Json
  import opened Contracts
  import opened HashChain
  import opened Ledger
  import opened Authority
  import opened Receipts
  import opened Adapters
  import opened Stores

  /** The state all calls share, apart from the adapter. */
  datatype Gate = Gate(registry: RegistryState, store: StoreState, log: seq<Appended>)

  datatype CallInput = CallInput(
    raw: Option<Capability>,
    request: CapabilityRequest,
    operation: Operation,
    params: Params,
    currentProposalHash: string,
    currentResourceVersion: int,
    expectedResourceVersion: int,
    expectation: Expectation)

  /** How the race between adapter and timer was decided. */
  datatype RaceOutcome =
    | Resolved(receipt: Receipt)
    | Rejected(error: AdapterError)
    | GatewayRefused(reason: CapabilityRejection)
    | TimedOut

  datatype SuccessReason = FreshSuccess | ReconciledSuccess | IdempotentReplay

  datatype ActionResult =
    | Done(receipt: Receipt, replay: bool, operationId: string, reason: SuccessReason)
    | CapabilityFailure(capabilityReason: CapabilityRejection)
    | PreconditionFailure(reasons: seq<PreconditionRejection>)
    | IdempotencyConflict
    | PostconditionFailure
    | UnknownOutcomeResult(operationId: string)
    | ReconciliationRequiredResult(operationId: string)
    | AdapterFailure(note: Option<FailureNote>)

  /** Where a call stands between two pieces. */
  datatype Phase =
    | Racing(capability: Capability, payloadHash: string)
    | Settled(capability: Capability, payloadHash: string, outcome: RaceOutcome)
    | LookingUp(prior: OperationRecord)
    | LookedUp(prior: OperationRecord, found: Option<Receipt>)
    | Returned(result: ActionResult)

  // ----- audit events -----

  function PreconditionName(r: PreconditionRejection): string {
    match r
    case PlanHashMismatch => "PLAN_HASH_MISMATCH"
    case PreconditionFailed => "PRECONDITION_FAILED"
    case ResourceVersionChanged => "RESOURCE_VERSION_CHANGED"
  }

  function PreconditionNames(rs: seq<PreconditionRejection>): seq<Json> {
    seq(|rs|, i requires 0 <= i < |rs| => Str(PreconditionName(rs[i])))
  }

  function ReasonCode(code: string): seq<Field> {
    [Field("reasonCode", Str(code))]
  }

  /** The `audit` closure: every event of the gateway is attributed to one server identity. */
  function GatewayEvent(t: AuditEventType, operationId: string, payload: seq<Field>): AuditEventInput {
    AuditEventInput(
      t, ServerActor, "execution-gateway-v1", OperationSubject, operationId, payload,
      None, Some(operationId), None, None)
  }

  function Audit(g: Gate, t: AuditEventType, operationId: string, payload: seq<Field>, stamp: Stamp): Gate {
    g.(log := g.log + [Appended(GatewayEvent(t, operationId, payload), stamp)])
  }

  // ----- the pieces -----

  /** From the call to its first await. */
  function Begin(payloadHash: Params -> string, g: Gate, i: CallInput, now: int, recheckAt: int, stamp: Stamp): (Gate, Phase) {
    var op := i.operation.operationId;
    match ParseAndValidate(i.raw, i.request, now)
    case Failure(reason) => (g, Returned(CapabilityFailure(reason)))
    case Success(capability) =>
      var stale := CheckPreconditions(capability, i.currentProposalHash, i.currentResourceVersion, i.expectedResourceVersion);
      if stale != [] then
        (Audit(g, PreconditionFailedEvent, op, [Field("reasonCodes", Arr(PreconditionNames(stale)))], stamp),
         Returned(PreconditionFailure(stale)))
      else
        var hash := payloadHash(i.params);
        match CheckKey(g.store, i.operation.idempotencyKey, hash)
        case ConflictingPayload =>
          (Audit(g, DuplicateReplayDetected, op, ReasonCode("IDEMPOTENCY_KEY_PAYLOAD_MISMATCH"), stamp),
           Returned(IdempotencyConflict))
        case Duplicate(prior) => BeginDuplicate(g, op, prior, stamp)
        case New => BeginExecution(g, i, capability, hash, recheckAt, stamp)
  }

  /** `reconcileDuplicate` up to its lookup. */
  function BeginDuplicate(g: Gate, op: string, prior: OperationRecord, stamp: Stamp): (Gate, Phase) {
    if prior.state == Succeeded && prior.receipt.Some? then
      (Audit(g, DuplicateReplayDetected, op, ReasonCode("IDEMPOTENT_REPLAY"), stamp),
       Returned(Done(prior.receipt.value, true, prior.operationId, IdempotentReplay)))
    else if prior.state == FailedOperation then (g, Returned(AdapterFailure(prior.failure)))
    else (g, LookingUp(prior))
  }

  /**
   A genuinely new attempt: consume the capability, log the start, and enter `invokeAdapter`, whose
   own check of the capability either lets `adapter.execute` be called or decides the race at once.
   */
  function BeginExecution(g: Gate, i: CallInput, c: Capability, hash: string, recheckAt: int, stamp: Stamp): (Gate, Phase) {
    match RefuseConsume(g.registry, c.id, c.nonce)
    case Some(reason) => (g, Returned(CapabilityFailure(reason)))
    case None =>
      var started := Audit(g.(registry := AfterConsume(g.registry, c.id)), ExecutionStarted, i.operation.operationId,
                           [Field("actionType", Str(ActionName(i.request.actionType)))], stamp);
      match ValidateCapability(c, i.request, recheckAt)
      case Some(reason) => (started, Settled(c, hash, GatewayRefused(reason)))
      case None => (started, Racing(c, hash))
  }

  function NewRecord(
    i: CallInput, capabilityId: string, hash: string, state: OperationState,
    receipt: Option<Receipt>, failure: Option<FailureNote>): OperationRecord
  {
    OperationRecord(i.operation.operationId, i.operation.idempotencyKey, capabilityId, hash, state, receipt, failure)
  }

  function Recorded(g: Gate, r: OperationRecord): Gate {
    g.(store := AfterRecord(g.store, r))
  }

  /** The rest of a fresh attempt once the race is decided. */
  function Finish(g: Gate, i: CallInput, c: Capability, hash: string, outcome: RaceOutcome, stamp: Stamp): (Gate, ActionResult) {
    var op := i.operation.operationId;
    match outcome
    case TimedOut =>
      (Audit(Recorded(g, NewRecord(i, c.id, hash, UnknownOperation, None, None)),
             ExecutionUnknown, op, ReasonCode("UNKNOWN_OUTCOME"), stamp),
       UnknownOutcomeResult(op))
    case Rejected(error) =>
      (Recorded(g, NewRecord(i, c.id, hash, FailedOperation, None, Some(AdapterFailed(error)))),
       AdapterFailure(Some(AdapterFailed(error))))
    case GatewayRefused(reason) =>
      (Recorded(g, NewRecord(i, c.id, hash, FailedOperation, None, Some(GatewayRejected(reason)))),
       CapabilityFailure(reason))
    case Resolved(receipt) => Finalize(g, i, receipt, hash, c.id, false, stamp)
  }

  /** The rest of a reconciliation once the lookup has answered. */
  function FinishLookup(g: Gate, i: CallInput, prior: OperationRecord, found: Option<Receipt>, stamp: Stamp): (Gate, ActionResult) {
    match found
    case None =>
      (Audit(g, ReconciliationRequiredEvent, i.operation.operationId, ReasonCode("UNKNOWN_OUTCOME"), stamp),
       ReconciliationRequiredResult(prior.operationId))
    case Some(receipt) => Finalize(g, i, receipt, prior.payloadHash, prior.capabilityId, true, stamp)
  }

  /** `finalizeFromReceipt`. */
  function Finalize(
    g: Gate, i: CallInput, receipt: Receipt, hash: string, capabilityId: string, reconciled: bool, stamp: Stamp)
    : (Gate, ActionResult)
  {
    var op := i.operation.operationId;
    if !VerifyPostcondition(i.request.actionType, receipt, i.expectation) then
      (Audit(Recorded(g, NewRecord(i, capabilityId, hash, FailedOperation, None, Some(PostconditionNotMet))),
             PostconditionFailed, op, ReasonCode("POSTCONDITION_UNVERIFIED"), stamp),
       PostconditionFailure)
    else
      (Audit(Recorded(g, NewRecord(i, capabilityId, hash, Succeeded, Some(receipt), None)),
             PostconditionVerified, op, if reconciled then ReasonCode("RECONCILED_SUCCESS") else [], stamp),
       Done(receipt, reconciled, op, if reconciled then ReconciledSuccess else FreshSuccess))
  }
}
