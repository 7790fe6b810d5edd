/** The pieces of `executeAction` on the objects the calls share, and the race between adapter and timer. */
module GatewayObjects {
  import opened Prelude
  import opened Json
  import opened CanonicalHash
  import opened Contracts
  import opened HashChain
  import opened Ledger
  import opened Authority
  import opened Receipts
  import opened Adapters
  import opened Stores
  import opened Gateway

  /** What the shared objects hold together. */
  ghost function View(registry: CapabilityRegistry, store: OperationStore, ledger: AuditLedger): Gate
    reads registry, store, ledger
  {
    Gate(registry.byId, store.State(), ledger.log)
  }

  /** The events one piece added, as the result's `auditEvents` lists them. */
  ghost predicate Reports(before: seq<LedgerEntry>, after: seq<LedgerEntry>, soFar: seq<LedgerEntry>, auditEvents: seq<LedgerEntry>) {
    && |before| <= |after| && after[..|before|] == before
    && auditEvents == soFar + after[|before|..]
  }

  // ----- every payload the gateway logs is plain JSON -----

  lemma {:induction false} OneFieldPlain(key: string, v: Json)
    requires NamedKey(key) && Plain(v)
    ensures Plain(Obj([Field(key, v)]))
  {
    var slots := [Slot(key, Some(v))];
    CompactPlain(slots);
    assert Compact(slots[1..]) == [];
    assert Compact(slots) == [Field(key, v)];
  }

  lemma {:induction false} EmptyPlain()
    ensures Plain(Obj([]))
  {
  }

  lemma {:induction false} ReasonCodePlain(code: string)
    ensures Plain(Obj(ReasonCode(code)))
  {
    assert Plain(Str(code));
    OneFieldPlain("reasonCode", Str(code));
  }

  lemma {:induction false} ReasonCodesPlain(rs: seq<PreconditionRejection>)
    ensures Plain(Obj([Field("reasonCodes", Arr(PreconditionNames(rs)))]))
  {
    assert Plain(Arr(PreconditionNames(rs)));
    OneFieldPlain("reasonCodes", Arr(PreconditionNames(rs)));
  }

  lemma {:induction false} StartedPlain(a: ActionType)
    ensures Plain(Obj([Field("actionType", Str(ActionName(a)))]))
  {
    OneFieldPlain("actionType", Str(ActionName(a)));
  }

  /** The `audit` closure. */
  method AuditEvent(ledger: AuditLedger, t: AuditEventType, operationId: string, payload: seq<Field>, stamp: Stamp)
    returns (entry: LedgerEntry)
    requires ledger.Valid() && Plain(Obj(payload))
    modifies ledger
    ensures ledger.Valid()
    ensures ledger.log == old(ledger.log) + [Appended(GatewayEvent(t, operationId, payload), stamp)]
    ensures ledger.entries == old(ledger.entries) + [entry]
  {
    var r := ledger.Append(GatewayEvent(t, operationId, payload), stamp);
    entry := r.value;
  }

  // ----- the pieces -----

  /**
   `executeAction` from its call to its first await. The adapter's `execute` is entered, and counted,
   exactly when the call goes on to race it.
   */
  method BeginAction(
    payloadHash: Params -> string, registry: CapabilityRegistry, store: OperationStore, ledger: AuditLedger,
    adapter: CountingAdapter, input: CallInput, now: int, recheckAt: int, stamp: Stamp)
    returns (phase: Phase, auditEvents: seq<LedgerEntry>)
    requires ledger.Valid()
    modifies registry, ledger, adapter
    ensures ledger.Valid()
    ensures (View(registry, store, ledger), phase)
         == Begin(payloadHash, old(View(registry, store, ledger)), input, now, recheckAt, stamp)
    ensures adapter.callCount == old(adapter.callCount) + (if phase.Racing? then 1 else 0)
    ensures Reports(old(ledger.entries), ledger.entries, [], auditEvents)
  {
    var operationId := input.operation.operationId;
    var checked := ParseAndValidate(input.raw, input.request, now);
    if checked.Failure? {
      return Returned(CapabilityFailure(checked.error)), [];
    }
    var capability := checked.value;
    var stale := CheckPreconditions(
      capability, input.currentProposalHash, input.currentResourceVersion, input.expectedResourceVersion);
    if stale != [] {
      ReasonCodesPlain(stale);
      var entry := AuditEvent(
        ledger, PreconditionFailedEvent, operationId, [Field("reasonCodes", Arr(PreconditionNames(stale)))], stamp);
      return Returned(PreconditionFailure(stale)), [entry];
    }
    var hash := payloadHash(input.params);
    var lookup := store.Check(input.operation.idempotencyKey, hash);
    if lookup.ConflictingPayload? {
      ReasonCodePlain("IDEMPOTENCY_KEY_PAYLOAD_MISMATCH");
      var entry := AuditEvent(
        ledger, DuplicateReplayDetected, operationId, ReasonCode("IDEMPOTENCY_KEY_PAYLOAD_MISMATCH"), stamp);
      return Returned(IdempotencyConflict), [entry];
    }
    if lookup.Duplicate? {
      phase, auditEvents := BeginDuplicateAction(registry, store, ledger, operationId, lookup.operation, stamp);
      return;
    }
    phase, auditEvents := BeginNewAction(registry, store, ledger, adapter, input, capability, hash, recheckAt, stamp);
  }

  /** `reconcileDuplicate` up to its lookup. */
  method BeginDuplicateAction(
    ghost registry: CapabilityRegistry, ghost store: OperationStore, ledger: AuditLedger,
    operationId: string, prior: OperationRecord, stamp: Stamp)
    returns (phase: Phase, auditEvents: seq<LedgerEntry>)
    requires ledger.Valid()
    modifies ledger
    ensures ledger.Valid()
    ensures (View(registry, store, ledger), phase)
         == BeginDuplicate(old(View(registry, store, ledger)), operationId, prior, stamp)
    ensures !phase.Racing?
    ensures Reports(old(ledger.entries), ledger.entries, [], auditEvents)
  {
    if prior.state == Succeeded && prior.receipt.Some? {
      ReasonCodePlain("IDEMPOTENT_REPLAY");
      var entry := AuditEvent(ledger, DuplicateReplayDetected, operationId, ReasonCode("IDEMPOTENT_REPLAY"), stamp);
      return Returned(Done(prior.receipt.value, true, prior.operationId, IdempotentReplay)), [entry];
    }
    if prior.state == FailedOperation {
      return Returned(AdapterFailure(prior.failure)), [];
    }
    return LookingUp(prior), [];
  }

  /** A new attempt up to the race, with `invokeAdapter`'s own check. */
  method BeginNewAction(
    registry: CapabilityRegistry, ghost store: OperationStore, ledger: AuditLedger, adapter: CountingAdapter,
    input: CallInput, capability: Capability, hash: string, recheckAt: int, stamp: Stamp)
    returns (phase: Phase, auditEvents: seq<LedgerEntry>)
    requires ledger.Valid()
    modifies registry, ledger, adapter
    ensures ledger.Valid()
    ensures (View(registry, store, ledger), phase)
         == BeginExecution(old(View(registry, store, ledger)), input, capability, hash, recheckAt, stamp)
    ensures adapter.callCount == old(adapter.callCount) + (if phase.Racing? then 1 else 0)
    ensures Reports(old(ledger.entries), ledger.entries, [], auditEvents)
  {
    var refused := registry.Consume(capability.id, capability.nonce);
    if refused.Some? {
      return Returned(CapabilityFailure(refused.value)), [];
    }
    StartedPlain(input.request.actionType);
    var entry := AuditEvent(
      ledger, ExecutionStarted, input.operation.operationId,
      [Field("actionType", Str(ActionName(input.request.actionType)))], stamp);
    var rejected := ValidateCapability(capability, input.request, recheckAt);
    if rejected.Some? {
      return Settled(capability, hash, GatewayRefused(rejected.value)), [entry];
    }
    adapter.BeginExecute();
    return Racing(capability, hash), [entry];
  }

  /** `executeAction` from the decided race to its return. */
  method FinishRace(
    ghost registry: CapabilityRegistry, store: OperationStore, ledger: AuditLedger,
    input: CallInput, capability: Capability, hash: string, outcome: RaceOutcome,
    soFar: seq<LedgerEntry>, stamp: Stamp)
    returns (result: ActionResult, auditEvents: seq<LedgerEntry>)
    requires ledger.Valid()
    modifies store, ledger
    ensures ledger.Valid()
    ensures (View(registry, store, ledger), result)
         == Finish(old(View(registry, store, ledger)), input, capability, hash, outcome, stamp)
    ensures Reports(old(ledger.entries), ledger.entries, soFar, auditEvents)
  {
    var operationId := input.operation.operationId;
    match outcome
    case TimedOut =>
      store.Record(NewRecord(input, capability.id, hash, UnknownOperation, None, None));
      ReasonCodePlain("UNKNOWN_OUTCOME");
      var entry := AuditEvent(ledger, ExecutionUnknown, operationId, ReasonCode("UNKNOWN_OUTCOME"), stamp);
      return UnknownOutcomeResult(operationId), soFar + [entry];
    case Rejected(error) =>
      store.Record(NewRecord(input, capability.id, hash, FailedOperation, None, Some(AdapterFailed(error))));
      return AdapterFailure(Some(AdapterFailed(error))), soFar;
    case GatewayRefused(reason) =>
      store.Record(NewRecord(input, capability.id, hash, FailedOperation, None, Some(GatewayRejected(reason))));
      return CapabilityFailure(reason), soFar;
    case Resolved(receipt) =>
      result, auditEvents := FinalizeFromReceipt(
        registry, store, ledger, input, receipt, hash, capability.id, false, soFar, stamp);
  }

  /** The lookup of a reconciliation, which reads the adapter and changes nothing. */
  method LookUpPrior(adapter: CountingAdapter, prior: OperationRecord) returns (found: Option<Receipt>)
    ensures found == Found(adapter.inner.State(), prior.operationId)
  {
    found := adapter.Lookup(prior.operationId);
  }

  /** `reconcileDuplicate` from the lookup's answer to its return. */
  method FinishReconciliation(
    ghost registry: CapabilityRegistry, store: OperationStore, ledger: AuditLedger,
    input: CallInput, prior: OperationRecord, found: Option<Receipt>, stamp: Stamp)
    returns (result: ActionResult, auditEvents: seq<LedgerEntry>)
    requires ledger.Valid()
    modifies store, ledger
    ensures ledger.Valid()
    ensures (View(registry, store, ledger), result)
         == FinishLookup(old(View(registry, store, ledger)), input, prior, found, stamp)
    ensures Reports(old(ledger.entries), ledger.entries, [], auditEvents)
  {
    if found.None? {
      ReasonCodePlain("UNKNOWN_OUTCOME");
      var entry := AuditEvent(
        ledger, ReconciliationRequiredEvent, input.operation.operationId, ReasonCode("UNKNOWN_OUTCOME"), stamp);
      return ReconciliationRequiredResult(prior.operationId), [entry];
    }
    result, auditEvents := FinalizeFromReceipt(
      registry, store, ledger, input, found.value, prior.payloadHash, prior.capabilityId, true, [], stamp);
  }

  /** `finalizeFromReceipt`. */
  method FinalizeFromReceipt(
    ghost registry: CapabilityRegistry, store: OperationStore, ledger: AuditLedger,
    input: CallInput, receipt: Receipt, hash: string, capabilityId: string, reconciled: bool,
    soFar: seq<LedgerEntry>, stamp: Stamp)
    returns (result: ActionResult, auditEvents: seq<LedgerEntry>)
    requires ledger.Valid()
    modifies store, ledger
    ensures ledger.Valid()
    ensures (View(registry, store, ledger), result)
         == Finalize(old(View(registry, store, ledger)), input, receipt, hash, capabilityId, reconciled, stamp)
    ensures Reports(old(ledger.entries), ledger.entries, soFar, auditEvents)
  {
    var operationId := input.operation.operationId;
    if !VerifyPostcondition(input.request.actionType, receipt, input.expectation) {
      store.Record(NewRecord(input, capabilityId, hash, FailedOperation, None, Some(PostconditionNotMet)));
      ReasonCodePlain("POSTCONDITION_UNVERIFIED");
      var entry := AuditEvent(ledger, PostconditionFailed, operationId, ReasonCode("POSTCONDITION_UNVERIFIED"), stamp);
      return PostconditionFailure, soFar + [entry];
    }
    store.Record(NewRecord(input, capabilityId, hash, Succeeded, Some(receipt), None));
    var payload := if reconciled then ReasonCode("RECONCILED_SUCCESS") else [];
    ReasonCodePlain("RECONCILED_SUCCESS");
    EmptyPlain();
    var entry := AuditEvent(ledger, PostconditionVerified, operationId, payload, stamp);
    return Done(receipt, reconciled, operationId, if reconciled then ReconciledSuccess else FreshSuccess),
      soFar + [entry];
  }

  // ----- the race -----

  /** `raceWithTimeout`: whichever signal comes first decides, later ones are dropped. */
  class Race {
    var settled: bool
    var outcome: Option<RaceOutcome>
    /** Every signal so far, in order. */
    ghost var signals: seq<RaceOutcome>

    ghost predicate Valid()
      reads this
    {
      && (settled <==> signals != [])
      && outcome == if signals == [] then None else Some(signals[0])
    }

    constructor ()
      ensures Valid() && signals == []
    {
      settled := false;
      outcome := None;
      signals := [];
    }

    method TimerFires()
      requires Valid()
      modifies this
      ensures Valid() && signals == old(signals) + [TimedOut]
    {
      if !settled {
        settled := true;
        outcome := Some(TimedOut);
      }
      signals := signals + [TimedOut];
    }

    /** The adapter call answers, with a receipt, a refusal of the gateway or an error. */
    method AdapterAnswers(answer: RaceOutcome)
      requires Valid() && !answer.TimedOut?
      modifies this
      ensures Valid() && signals == old(signals) + [answer]
    {
      if !settled {
        settled := true;
        outcome := Some(answer);
      }
      signals := signals + [answer];
    }
  }
}
