/**
 What `executeAction` decides, row by row: the checks of a call in the order they count, each stated
 on the fields it looks at, with the answer, the ledger entry and the new tables of every row.
 */
module GatewayDecisions {
  import opened Prelude
  import opened Json
  import opened Contracts
  import opened HashChain
  import opened Ledger
  import opened Authority
  import opened Receipts
  import opened Adapters
  import opened Stores
  import opened Gateway

  // ----- the checks -----

  /** A capability-shaped value, none of its texts empty. */
  predicate Shaped(i: CallInput) {
    && i.raw.Some?
    && i.raw.value.id != "" && i.raw.value.principalId != "" && i.raw.value.resourceId != ""
    && i.raw.value.proposalHash != "" && i.raw.value.nonce != ""
  }

  predicate Unexpired(c: Capability, now: int) {
    c.expiresAt.At? && now < c.expiresAt.ms
  }

  predicate InScope(c: Capability, r: CapabilityRequest) {
    && c.principalId == r.principalId && c.actionType == r.actionType
    && c.resourceId == r.resourceId && c.proposalHash == r.proposalHash
  }

  /** The capability is shaped, active, unexpired and for this very request. */
  predicate Valid(i: CallInput, now: int) {
    Shaped(i) && i.raw.value.status == Active && Unexpired(i.raw.value, now) && InScope(i.raw.value, i.request)
  }

  /** Besides, plan and resource are as they were. */
  predicate Fresh(i: CallInput, now: int) {
    && Valid(i, now)
    && i.raw.value.proposalHash == i.currentProposalHash && i.currentResourceVersion == i.expectedResourceVersion
  }

  function KeyOf(i: CallInput): string {
    i.operation.idempotencyKey
  }

  /** The entry the gateway makes of an event. */
  function Entry(t: AuditEventType, i: CallInput, payload: seq<Field>, stamp: Stamp): Appended {
    Appended(
      AuditEventInput(
        t, ServerActor, "execution-gateway-v1", OperationSubject, i.operation.operationId, payload,
        None, Some(i.operation.operationId), None, None),
      stamp)
  }

  function Reason(code: string): seq<Field> {
    [Field("reasonCode", Str(code))]
  }

  function Logging(g: Gate, entry: Appended): Gate {
    Gate(g.registry, g.store, g.log + [entry])
  }

  lemma {:induction false} CapabilityExact(c: Capability, r: CapabilityRequest, now: int)
    ensures ValidateCapability(c, r, now)
         == if c.status != Active then Some(CapabilityStatusInvalid)
            else if !Unexpired(c, now) then Some(CapabilityExpired)
            else if !InScope(c, r) then Some(CapabilityScopeMismatch)
            else None
  {
  }

  // ----- a call up to its first await -----

  /** A call whose capability does not do, for the first reason that applies; nothing changes. */
  lemma {:induction false} InvalidCapability(
    payloadHash: Params -> string, g: Gate, i: CallInput, now: int, recheckAt: int, stamp: Stamp)
    requires !Valid(i, now)
    ensures Begin(payloadHash, g, i, now, recheckAt, stamp)
         == (g, Returned(CapabilityFailure(
              if !Shaped(i) then CapabilityMalformed
              else if i.raw.value.status != Active then CapabilityStatusInvalid
              else if !Unexpired(i.raw.value, now) then CapabilityExpired
              else CapabilityScopeMismatch)))
  {
  }

  /** A valid capability for another plan, or a resource that has moved on. */
  lemma {:induction false} StalePreconditions(
    payloadHash: Params -> string, g: Gate, i: CallInput, now: int, recheckAt: int, stamp: Stamp)
    requires Valid(i, now) && !Fresh(i, now)
    ensures var otherPlan := i.raw.value.proposalHash != i.currentProposalHash;
      var reasons := if otherPlan then [PlanHashMismatch] else [PreconditionFailed, ResourceVersionChanged];
      var codes := if otherPlan then [Str("PLAN_HASH_MISMATCH")]
                   else [Str("PRECONDITION_FAILED"), Str("RESOURCE_VERSION_CHANGED")];
      Begin(payloadHash, g, i, now, recheckAt, stamp)
      == (Logging(g, Entry(PreconditionFailedEvent, i, [Field("reasonCodes", Arr(codes))], stamp)),
          Returned(PreconditionFailure(reasons)))
  {
    var reasons := CheckPreconditions(
      i.raw.value, i.currentProposalHash, i.currentResourceVersion, i.expectedResourceVersion);
    assert PreconditionNames(reasons)
        == if i.raw.value.proposalHash != i.currentProposalHash then [Str("PLAN_HASH_MISMATCH")]
           else [Str("PRECONDITION_FAILED"), Str("RESOURCE_VERSION_CHANGED")];
  }

  /** The key is known with another payload: a conflict, logged, and neither tables nor registry change. */
  lemma {:induction false} PayloadConflict(
    payloadHash: Params -> string, g: Gate, i: CallInput, now: int, recheckAt: int, stamp: Stamp)
    requires Fresh(i, now) && KeyOf(i) in g.store.byKey && g.store.byKey[KeyOf(i)].payloadHash != payloadHash(i.params)
    ensures Begin(payloadHash, g, i, now, recheckAt, stamp)
         == (Logging(g, Entry(DuplicateReplayDetected, i, Reason("IDEMPOTENCY_KEY_PAYLOAD_MISMATCH"), stamp)),
             Returned(IdempotencyConflict))
  {
  }

  /** The key is known with this payload: the recorded outcome, or a lookup if it is unknown. */
  lemma {:induction false} KnownOutcome(
    payloadHash: Params -> string, g: Gate, i: CallInput, now: int, recheckAt: int, stamp: Stamp)
    requires Fresh(i, now) && KeyOf(i) in g.store.byKey && g.store.byKey[KeyOf(i)].payloadHash == payloadHash(i.params)
    ensures var rec := g.store.byKey[KeyOf(i)];
      Begin(payloadHash, g, i, now, recheckAt, stamp)
      == if rec.state == Succeeded && rec.receipt != None then
           (Logging(g, Entry(DuplicateReplayDetected, i, Reason("IDEMPOTENT_REPLAY"), stamp)),
            Returned(Done(rec.receipt.value, true, rec.operationId, IdempotentReplay)))
         else if rec.state == FailedOperation then (g, Returned(AdapterFailure(rec.failure)))
         else (g, LookingUp(rec))
  {
  }

  /** The registry holds the capability under its id, with its nonce, unspent. */
  predicate Spendable(g: Gate, c: Capability) {
    c.id in g.registry && g.registry[c.id].nonce == c.nonce && g.registry[c.id].status == Active
  }

  /** A new key with a capability the registry does not accept: refused, and nothing changes. */
  lemma {:induction false} UnspendableCapability(
    payloadHash: Params -> string, g: Gate, i: CallInput, now: int, recheckAt: int, stamp: Stamp)
    requires Fresh(i, now) && KeyOf(i) !in g.store.byKey && !Spendable(g, i.raw.value)
    ensures var c := i.raw.value;
      Begin(payloadHash, g, i, now, recheckAt, stamp)
      == (g, Returned(CapabilityFailure(
           if c.id !in g.registry then CapabilityUnknown
           else if g.registry[c.id].nonce != c.nonce then CapabilityNonceMismatch
           else CapabilityAlreadyConsumed)))
  {
    ConsumeExact(g.registry, i.raw.value.id, i.raw.value.nonce);
  }

  /** A new key with a spendable capability: it is spent and the start logged, and the re-check decides on `execute`. */
  lemma {:induction false} NewAttempt(
    payloadHash: Params -> string, g: Gate, i: CallInput, now: int, recheckAt: int, stamp: Stamp)
    requires Fresh(i, now) && KeyOf(i) !in g.store.byKey && Spendable(g, i.raw.value)
    ensures var c := i.raw.value;
      var spent := Gate(g.registry[c.id := g.registry[c.id].(status := Consumed)], g.store, g.log);
      Begin(payloadHash, g, i, now, recheckAt, stamp)
      == (Logging(spent, Entry(ExecutionStarted, i, [Field("actionType", Str(ActionName(i.request.actionType)))], stamp)),
          if Unexpired(c, recheckAt) then Racing(c, payloadHash(i.params))
          else Settled(c, payloadHash(i.params), GatewayRefused(CapabilityExpired)))
  {
    ConsumeExact(g.registry, i.raw.value.id, i.raw.value.nonce);
    CapabilityExact(i.raw.value, i.request, recheckAt);
  }

  // ----- a fresh attempt once its race is decided -----

  function RecordOf(
    i: CallInput, capabilityId: string, hash: string, state: OperationState,
    receipt: Option<Receipt>, failure: Option<FailureNote>): OperationRecord
  {
    OperationRecord(i.operation.operationId, i.operation.idempotencyKey, capabilityId, hash, state, receipt, failure)
  }

  /** The gate with this record filed under its key and its operation. */
  function Filing(g: Gate, r: OperationRecord): Gate {
    Gate(g.registry, StoreState(g.store.byKey[r.idempotencyKey := r], g.store.byOp[r.operationId := r]), g.log)
  }

  lemma {:induction false} TimeoutDecides(g: Gate, i: CallInput, c: Capability, hash: string, stamp: Stamp)
    ensures Finish(g, i, c, hash, TimedOut, stamp)
         == (Logging(Filing(g, RecordOf(i, c.id, hash, UnknownOperation, None, None)),
                     Entry(ExecutionUnknown, i, Reason("UNKNOWN_OUTCOME"), stamp)),
             UnknownOutcomeResult(i.operation.operationId))
  {
  }

  /** An error of the adapter, and a refusal of the re-check, fail the operation without a ledger entry. */
  lemma {:induction false} FailureDecides(
    g: Gate, i: CallInput, c: Capability, hash: string, error: AdapterError, refused: CapabilityRejection, stamp: Stamp)
    ensures Finish(g, i, c, hash, RaceOutcome.Rejected(error), stamp)
         == (Filing(g, RecordOf(i, c.id, hash, FailedOperation, None, Some(AdapterFailed(error)))),
             AdapterFailure(Some(AdapterFailed(error))))
    ensures Finish(g, i, c, hash, GatewayRefused(refused), stamp)
         == (Filing(g, RecordOf(i, c.id, hash, FailedOperation, None, Some(GatewayRejected(refused)))),
             CapabilityFailure(refused))
  {
  }

  /** The receipt is schema-valid and meets, field by field, what the call expects for its action. */
  predicate Satisfies(i: CallInput, receipt: Receipt) {
    && ReceiptSchema(receipt) && Meets(i.expectation, receipt)
    && ExpectsFor(i.request.actionType, i.expectation)
  }

  /** A receipt that is not what was expected fails the operation, one that is completes it. */
  lemma {:induction false} ReceiptDecides(g: Gate, i: CallInput, c: Capability, hash: string, receipt: Receipt, stamp: Stamp)
    ensures Finish(g, i, c, hash, Resolved(receipt), stamp)
         == if Satisfies(i, receipt) then
              (Logging(Filing(g, RecordOf(i, c.id, hash, Succeeded, Some(receipt), None)),
                       Entry(PostconditionVerified, i, [], stamp)),
               Done(receipt, false, i.operation.operationId, FreshSuccess))
            else
              (Logging(Filing(g, RecordOf(i, c.id, hash, FailedOperation, None, Some(PostconditionNotMet))),
                       Entry(PostconditionFailed, i, Reason("POSTCONDITION_UNVERIFIED"), stamp)),
               PostconditionFailure)
  {
    PostconditionExact(i.request.actionType, receipt, i.expectation);
  }

  // ----- a reconciliation once its lookup has answered -----

  lemma {:induction false} LookupDecides(g: Gate, i: CallInput, prior: OperationRecord, found: Option<Receipt>, stamp: Stamp)
    ensures FinishLookup(g, i, prior, found, stamp)
         == if found == None then
              (Logging(g, Entry(ReconciliationRequiredEvent, i, Reason("UNKNOWN_OUTCOME"), stamp)),
               ReconciliationRequiredResult(prior.operationId))
            else if Satisfies(i, found.value) then
              (Logging(Filing(g, RecordOf(i, prior.capabilityId, prior.payloadHash, Succeeded, Some(found.value), None)),
                       Entry(PostconditionVerified, i, Reason("RECONCILED_SUCCESS"), stamp)),
               Done(found.value, true, i.operation.operationId, ReconciledSuccess))
            else
              (Logging(Filing(g, RecordOf(i, prior.capabilityId, prior.payloadHash, FailedOperation, None, Some(PostconditionNotMet))),
                       Entry(PostconditionFailed, i, Reason("POSTCONDITION_UNVERIFIED"), stamp)),
               PostconditionFailure)
  {
    if found.Some? {
      PostconditionExact(i.request.actionType, found.value, i.expectation);
    }
  }

  // ----- what one call leaves for the next -----

  /** What a later call with the same key and payload is told of an attempt's outcome. */
  function Retold(i: CallInput, first: CallInput, c: Capability, hash: string, outcome: RaceOutcome): Phase {
    match outcome
    case TimedOut => LookingUp(RecordOf(first, c.id, hash, UnknownOperation, None, None))
    case Rejected(error) => Returned(AdapterFailure(Some(AdapterFailed(error))))
    case GatewayRefused(reason) => Returned(AdapterFailure(Some(GatewayRejected(reason))))
    case Resolved(receipt) =>
      if Satisfies(first, receipt) then Returned(Done(receipt, true, first.operation.operationId, IdempotentReplay))
      else Returned(AdapterFailure(Some(PostconditionNotMet)))
  }

  /**
   An attempt is remembered: the next fresh call on its key with the same parameters is told its outcome,
   and one with parameters of another hash meets a conflict, whatever the outcome was; neither spends
   its capability.
   */
  lemma {:induction false} OutcomeIsRemembered(
    payloadHash: Params -> string, g: Gate, first: CallInput, c: Capability, outcome: RaceOutcome, stamp: Stamp,
    next: CallInput, now: int, recheckAt: int, later: Stamp)
    requires Fresh(next, now) && KeyOf(next) == KeyOf(first)
    ensures var hash := payloadHash(first.params);
      var after := Finish(g, first, c, hash, outcome, stamp).0;
      var (end, phase) := Begin(payloadHash, after, next, now, recheckAt, later);
      && end.registry == after.registry && end.store == after.store
      && phase == if payloadHash(next.params) == hash then Retold(next, first, c, hash, outcome) else Returned(IdempotencyConflict)
  {
    var hash := payloadHash(first.params);
    match outcome
    case TimedOut => TimeoutDecides(g, first, c, hash, stamp);
    case Rejected(error) => FailureDecides(g, first, c, hash, error, CapabilityExpired, stamp);
    case GatewayRefused(reason) => FailureDecides(g, first, c, hash, InvalidReceipt, reason, stamp);
    case Resolved(receipt) => ReceiptDecides(g, first, c, hash, receipt, stamp);
    var after := Finish(g, first, c, hash, outcome, stamp).0;
    if payloadHash(next.params) == hash {
      KnownOutcome(payloadHash, after, next, now, recheckAt, later);
    } else {
      PayloadConflict(payloadHash, after, next, now, recheckAt, later);
    }
  }
}
