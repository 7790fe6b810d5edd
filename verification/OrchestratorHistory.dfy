/**
 The ledger of a run, when the entry calls on it take turns: its events always follow the grammar of
 module RunHistory, and tell what the store holds. The adapter may answer anything, at any time.
 */
module OrchestratorHistory {
  import opened Prelude
  import opened Contracts
  import opened HashChain
  import opened Ledger
  import opened Authority
  import opened Receipts
  import opened Stores
  import opened Gateway
  import opened GatewayProtocol
  import opened Orchestrator
  import opened OrchestratorRuns
  import opened OrchestratorAuthority
  import opened RunHistory

  // ----- taking turns -----

  /** No result of an earlier entry call is still outstanding. */
  predicate AllApplied(r: RunRecord) {
    forall i | 0 <= i < |r.calls| :: i in r.applied
  }

  /** An entry call that reaches the gateway waits until earlier ones on its run are done. */
  predicate TakesTurn(a: AppState, e: AppEvent) {
    (e.Approve? || e.Replay? || e.Reconcile?) && e.runId in a.runs ==> AllApplied(a.runs[e.runId])
  }

  // ----- what each piece tells the ledger -----

  lemma {:induction false} BeginTellsNew(payloadHash: Params -> string, g: Gate, i: CallInput, now: int, recheckAt: int, stamp: Stamp)
    requires i.operation.idempotencyKey !in g.store.byKey
    ensures var (g', phase) := Begin(payloadHash, g, i, now, recheckAt, stamp);
      && (phase.Racing? || phase.Settled? ==>
            && OneMore(g.log, g'.log, ExecutionStarted)
            && i.currentResourceVersion == i.expectedResourceVersion
            && i.raw.Some? && CapabilitySchema(i.raw.value))
      && (phase.Returned? && phase.result.PreconditionFailure? ==> OneMore(g.log, g'.log, PreconditionFailedEvent))
      && (phase.Returned? && phase.result.CapabilityFailure? ==> g'.log == g.log)
  {
  }

  /** A call with the same parameters and unchanged preconditions on a recorded key. */
  lemma {:induction false} BeginTellsAgain(payloadHash: Params -> string, g: Gate, i: CallInput, now: int, recheckAt: int, stamp: Stamp)
    requires i.operation.idempotencyKey in g.store.byKey
    requires g.store.byKey[i.operation.idempotencyKey].payloadHash == payloadHash(i.params)
    requires g.store.byKey[i.operation.idempotencyKey].state == Succeeded ==> g.store.byKey[i.operation.idempotencyKey].receipt.Some?
    requires i.currentResourceVersion == i.expectedResourceVersion
    requires i.raw.Some? && i.raw.value.proposalHash == i.currentProposalHash
    ensures var (g', phase) := Begin(payloadHash, g, i, now, recheckAt, stamp); var rec := g.store.byKey[i.operation.idempotencyKey];
      && g'.store == g.store
      && (if phase.LookingUp? then g'.log == g.log && phase.prior == rec && rec.state == UnknownOperation
          else
            && phase.Returned?
            && match phase.result
               case Done(_, _, _, reason) =>
                 reason == IdempotentReplay && rec.state == Succeeded && OneMore(g.log, g'.log, DuplicateReplayDetected)
               case CapabilityFailure(_) => g'.log == g.log
               case AdapterFailure(_) => g'.log == g.log
               case _ => false)
  {
  }

  /** A failed record that a postcondition failure left, and so told the ledger about. */
  predicate ToldFailure(rec: OperationRecord) {
    rec.failure == Some(PostconditionNotMet)
  }

  /** The record and event an attempt or a lookup leaves behind. */
  predicate Tells(before: seq<Appended>, after: seq<Appended>, rec: OperationRecord, result: ActionResult) {
    match result
    case Done(_, _, _, _) => OneMore(before, after, PostconditionVerified) && rec.state == Succeeded && rec.receipt.Some?
    case PostconditionFailure => OneMore(before, after, PostconditionFailed) && rec.state == FailedOperation && ToldFailure(rec)
    case UnknownOutcomeResult(_) => OneMore(before, after, ExecutionUnknown) && rec.state == UnknownOperation
    case AdapterFailure(_) => after == before && rec.state == FailedOperation && !ToldFailure(rec)
    case CapabilityFailure(_) => after == before && rec.state == FailedOperation && !ToldFailure(rec)
    case _ => false
  }

  lemma {:induction false} FinishTells(g: Gate, i: CallInput, c: Capability, hash: string, outcome: RaceOutcome, stamp: Stamp)
    ensures var (g', result) := Finish(g, i, c, hash, outcome, stamp); var key := i.operation.idempotencyKey;
      && key in g'.store.byKey && g'.store.byKey[key].payloadHash == hash
      && g'.store.byKey[key].operationId == i.operation.operationId
      && Tells(g.log, g'.log, g'.store.byKey[key], result)
  {
  }

  lemma {:induction false} FinishLookupTells(g: Gate, i: CallInput, prior: OperationRecord, found: Option<Receipt>, stamp: Stamp)
    ensures var (g', result) := FinishLookup(g, i, prior, found, stamp); var key := i.operation.idempotencyKey;
      if found.None? then
        g'.store == g.store && OneMore(g.log, g'.log, ReconciliationRequiredEvent) && result.ReconciliationRequiredResult?
      else
        && key in g'.store.byKey && g'.store.byKey[key].payloadHash == prior.payloadHash
        && g'.store.byKey[key].operationId == i.operation.operationId
        && (result.Done? || result.PostconditionFailure?) && (result.Done? ==> result.reason == ReconciledSuccess)
        && Tells(g.log, g'.log, g'.store.byKey[key], result)
  {
  }

  // ----- the invariant -----

  predicate FirstConsumed(r: RunRecord) {
    r.calls != [] && r.calls[0].consumed.Some?
  }

  /** What the ledger tells agrees with what the store holds. */
  predicate TailFits(tail: Tail, r: RunRecord) {
    if !FirstConsumed(r) then
      tail == if FirstReturned(r) && FirstResult(r).PreconditionFailure? then Stopped else NoStart
    else if !HasRecord(r) then tail == Started
    else
      match r.store.byKey[RunKey(r)].state
      case UnknownOperation => tail.Unresolved?
      case Succeeded => tail.Proved?
      case FailedOperation => if ToldFailure(r.store.byKey[RunKey(r)]) then tail.Refuted? else tail == Started
  }

  predicate ShapeFits(shape: Shape, r: RunRecord) {
    if r.capability.None? then shape == Withheld
    else shape.Granted? && shape.approved == r.approval.Some? && TailFits(shape.tail, r)
  }

  predicate RecordFits(payloadHash: Params -> string, r: RunRecord) {
    HasRecord(r) ==>
      && FirstConsumed(r)
      && r.store.byKey[RunKey(r)].operationId == r.config.operationId
      && r.store.byKey[RunKey(r)].payloadHash == payloadHash(r.config.proposal.params)
      && (r.store.byKey[RunKey(r)].state == Succeeded ==> r.store.byKey[RunKey(r)].receipt.Some?)
  }

  /** A reconciliation under way knows the record as it is. */
  predicate LookupFits(r: RunRecord, c: Call) {
    c.phase.LookingUp? || c.phase.LookedUp? ==>
      HasRecord(r) && r.store.byKey[RunKey(r)] == c.phase.prior && c.phase.prior.state == UnknownOperation
  }

  /** What an attempt has found: an unchanged resource and a well-formed capability. */
  predicate Frozen(r: RunRecord) {
    && r.resourceVersionNow == r.resourceVersionAtProposal
    && r.capability.Some? && CapabilitySchema(r.capability.value)
  }

  /** Only the last call may be outstanding; an attempt froze resource version and capability. */
  predicate TurnFits(r: RunRecord) {
    && (forall i | 0 <= i < |r.calls| - 1 :: i in r.applied)
    && (forall i | i in r.applied && 0 <= i < |r.calls| :: r.calls[i].phase.Returned?)
    && (FirstConsumed(r) ==> Frozen(r))
    && (forall i | 0 <= i < |r.calls| :: LookupFits(r, r.calls[i]))
  }

  predicate HistoryInv(server: Server, r: RunRecord) {
    && (r.capability.None? <==> r.state in {Denied, ApprovalRequired})
    && RecordFits(server.payloadHash, r)
    && TurnFits(r)
    && ShapeOf(r.log).Some? && ShapeFits(ShapeOf(r.log).value, r)
  }

  // ----- gateway pieces -----

  /** Only the outstanding call can move. */
  lemma {:induction false} MovesLast(r: RunRecord, c: nat)
    requires TurnFits(r) && c < |r.calls| && !r.calls[c].phase.Returned?
    ensures c == |r.calls| - 1 && c !in r.applied
  {
  }

  lemma {:induction false} QuietPieces(s: Setting, w: World, e: Event)
    requires Enabled(w, e) && LaterPiece(e) && !e.FinishCall? && !e.FinishReconcile?
    ensures var w' := Step(s, w, e);
      && w'.gate == w.gate && |w'.calls| == |w.calls|
      && forall i | 0 <= i < |w.calls| ::
           && w'.calls[i].consumed == w.calls[i].consumed
           && (w'.calls[i].phase.Returned? || w.calls[i].phase.Returned? ==> w'.calls[i].phase == w.calls[i].phase)
           && (w'.calls[i].phase.LookingUp? || w'.calls[i].phase.LookedUp? ==>
                 && (w.calls[i].phase.LookingUp? || w.calls[i].phase.LookedUp?)
                 && w'.calls[i].phase.prior == w.calls[i].phase.prior)
  {
  }

  lemma {:induction false} QuietHistory(server: Server, registry: RegistryState, r: RunRecord, e: Event)
    requires HistoryInv(server, r) && LaterPiece(e) && Enabled(RunWorld(registry, r), e)
    requires !e.FinishCall? && !e.FinishReconcile?
    ensures HistoryInv(server, GatewayStep(server, registry, r, e).1)
    ensures GatewayStep(server, registry, r, e).1.log == r.log
  {
    var r' := GatewayStep(server, registry, r, e).1;
    QuietPieces(SettingFor(server, r), RunWorld(registry, r), e);
    forall i | 0 <= i < |r'.calls| ensures LookupFits(r', r'.calls[i]) {
      assert LookupFits(r, r.calls[i]);
    }
  }

  /** The state after call `c` returned `result`, leaving the record `rec`. */
  ghost predicate Returns(r: RunRecord, r': RunRecord, c: nat, result: ActionResult, rec: OperationRecord) {
    && c < |r.calls|
    && r' == r.(store := r'.store, log := r'.log, calls := r.calls[c := r.calls[c].(phase := Returned(result))])
    && RunKey(r) in r'.store.byKey && r'.store.byKey[RunKey(r)] == rec
  }

  lemma {:induction false} ReturnsTurn(r: RunRecord, r': RunRecord, c: nat, result: ActionResult, rec: OperationRecord)
    requires TurnFits(r) && Returns(r, r', c, result, rec) && !r.calls[c].phase.Returned?
    ensures TurnFits(r')
  {
    MovesLast(r, c);
    forall i | 0 <= i < |r'.calls| ensures LookupFits(r', r'.calls[i]) {
      assert i != c ==> r'.calls[i] == r.calls[i] && r.calls[i].phase.Returned?;
    }
  }

  lemma {:induction false} FinishPiece(server: Server, registry: RegistryState, r: RunRecord, c: nat, stamp: Stamp)
    returns (result: ActionResult, rec: OperationRecord)
    requires TurnFits(r) && CallsOk(SettingFor(server, r), RunWorld(map[], r)) && CallsInv(r)
    requires Enabled(RunWorld(registry, r), FinishCall(c, stamp))
    ensures var r' := GatewayStep(server, registry, r, FinishCall(c, stamp)).1;
      && c == 0 && |r.calls| == 1 && FirstConsumed(r) && !HasRecord(r)
      && Returns(r, r', c, result, rec) && rec.payloadHash == server.payloadHash(r.config.proposal.params)
      && rec.operationId == r.config.operationId
      && Tells(r.log, r'.log, rec, result)
  {
    var p := r.calls[c].phase;
    assert ForRun(r, r.calls[c]);
    assert CallOk(SettingFor(server, r), RunWorld(map[], r).calls[c]);
    assert c >= 1 ==> Passive(r.calls[c]);
    MovesLast(r, c);
    FinishTells(Gate(registry, r.store, r.log), r.calls[c].input, p.capability, p.payloadHash, p.outcome, stamp);
    var (g, res) := Finish(Gate(registry, r.store, r.log), r.calls[c].input, p.capability, p.payloadHash, p.outcome, stamp);
    result, rec := res, g.store.byKey[RunKey(r)];
  }

  /** The finished attempt takes the ledger from started to its outcome. */
  lemma {:induction false} AttemptShape(r: RunRecord, r': RunRecord, result: ActionResult, rec: OperationRecord)
    requires ShapeOf(r.log).Some? && ShapeFits(ShapeOf(r.log).value, r) && r.capability.Some?
    requires FirstConsumed(r) && !HasRecord(r) && |r.calls| == 1
    requires Returns(r, r', 0, result, rec) && Tells(r.log, r'.log, rec, result)
    ensures ShapeOf(r'.log).Some? && ShapeFits(ShapeOf(r'.log).value, r')
    ensures ShapeOf(r'.log).value.tail ==
      match result
      case Done(_, _, _, _) => Proved(None, 0)
      case PostconditionFailure => Refuted(None)
      case UnknownOutcomeResult(_) => Unresolved(0)
      case _ => Started
  {
    if r'.log != r.log {
      ShapeSnoc(r.log, r'.log, r'.log[|r.log|].input.eventType);
    }
  }

  lemma {:induction false} FinishHistory(server: Server, registry: RegistryState, r: RunRecord, c: nat, stamp: Stamp)
    requires HistoryInv(server, r) && CallsOk(SettingFor(server, r), RunWorld(map[], r)) && CallsInv(r)
    requires StateInv(r) && Enabled(RunWorld(registry, r), FinishCall(c, stamp))
    ensures HistoryInv(server, GatewayStep(server, registry, r, FinishCall(c, stamp)).1)
  {
    var r' := GatewayStep(server, registry, r, FinishCall(c, stamp)).1;
    var result, rec := FinishPiece(server, registry, r, c, stamp);
    ReturnsTurn(r, r', c, result, rec);
    AttemptShape(r, r', result, rec);
  }

  lemma {:induction false} FinishReconcilePiece(server: Server, registry: RegistryState, r: RunRecord, c: nat, stamp: Stamp)
    returns (result: ActionResult, rec: OperationRecord)
    requires TurnFits(r) && CallsInv(r) && Enabled(RunWorld(registry, r), FinishReconcile(c, stamp))
    ensures var r' := GatewayStep(server, registry, r, FinishReconcile(c, stamp)).1;
      && c == |r.calls| - 1 && c >= 1 && HasRecord(r) && r.store.byKey[RunKey(r)].state == UnknownOperation
      && Returns(r, r', c, result, rec) && rec.payloadHash == r.store.byKey[RunKey(r)].payloadHash
      && (rec.operationId == r.config.operationId || rec == r.store.byKey[RunKey(r)])
      && (if r.calls[c].phase.found.None? then
            && rec == r.store.byKey[RunKey(r)] && OneMore(r.log, r'.log, ReconciliationRequiredEvent)
            && result.ReconciliationRequiredResult?
          else
            && Tells(r.log, r'.log, rec, result) && (result.Done? || result.PostconditionFailure?)
            && (result.Done? ==> result.reason == ReconciledSuccess))
  {
    var p := r.calls[c].phase;
    assert ForRun(r, r.calls[c]) && LookupFits(r, r.calls[c]);
    MovesLast(r, c);
    FinishLookupTells(Gate(registry, r.store, r.log), r.calls[c].input, p.prior, p.found, stamp);
    var (g, res) := FinishLookup(Gate(registry, r.store, r.log), r.calls[c].input, p.prior, p.found, stamp);
    result, rec := res, g.store.byKey[RunKey(r)];
  }

  /** The finished lookup adds to the fruitless ones or ends the doubt. */
  lemma {:induction false} LookupShape(r: RunRecord, r': RunRecord, c: nat, result: ActionResult, rec: OperationRecord)
    requires ShapeOf(r.log).Some? && ShapeFits(ShapeOf(r.log).value, r) && r.capability.Some?
    requires FirstConsumed(r) && HasRecord(r) && r.store.byKey[RunKey(r)].state == UnknownOperation && c >= 1
    requires Returns(r, r', c, result, rec)
    requires if result.ReconciliationRequiredResult? then
               rec.state == UnknownOperation && OneMore(r.log, r'.log, ReconciliationRequiredEvent)
             else Tells(r.log, r'.log, rec, result) && (result.Done? || result.PostconditionFailure?)
    ensures ShapeOf(r.log).value.tail.Unresolved?
    ensures ShapeOf(r'.log).Some? && ShapeFits(ShapeOf(r'.log).value, r')
    ensures var n := ShapeOf(r.log).value.tail.lookups;
      ShapeOf(r'.log).value.tail ==
        if result.Done? then Proved(Some(n), 0)
        else if result.PostconditionFailure? then Refuted(Some(n))
        else Unresolved(n + 1)
  {
    ShapeSnoc(r.log, r'.log, r'.log[|r.log|].input.eventType);
  }

  lemma {:induction false} FinishReconcileHistory(server: Server, registry: RegistryState, r: RunRecord, c: nat, stamp: Stamp)
    requires HistoryInv(server, r) && CallsInv(r) && StateInv(r)
    requires Enabled(RunWorld(registry, r), FinishReconcile(c, stamp))
    ensures HistoryInv(server, GatewayStep(server, registry, r, FinishReconcile(c, stamp)).1)
  {
    var r' := GatewayStep(server, registry, r, FinishReconcile(c, stamp)).1;
    var result, rec := FinishReconcilePiece(server, registry, r, c, stamp);
    ReturnsTurn(r, r', c, result, rec);
    LookupShape(r, r', c, result, rec);
  }

  lemma {:induction false} LaterHistory(server: Server, registry: RegistryState, r: RunRecord, e: Event)
    requires RunInv(server, r) && HistoryInv(server, r) && LaterPiece(e) && Enabled(RunWorld(registry, r), e)
    ensures HistoryInv(server, GatewayStep(server, registry, r, e).1)
  {
    match e
    case FinishCall(c, stamp) => FinishHistory(server, registry, r, c, stamp);
    case FinishReconcile(c, stamp) => FinishReconcileHistory(server, registry, r, c, stamp);
    case _ => QuietHistory(server, registry, r, e);
  }

  // ----- starting calls -----

  /** A call was added at the end, with everything else but the ledger as it was. */
  predicate CallAdded(r: RunRecord, r': RunRecord) {
    && |r'.calls| == |r.calls| + 1 && r'.calls[..|r.calls|] == r.calls
    && r' == r.(log := r'.log, calls := r'.calls, callCount := r'.callCount)
  }

  lemma {:induction false} AddedTurn(r: RunRecord, r': RunRecord)
    requires TurnFits(r) && AllApplied(r) && CallAdded(r, r') && LookupFits(r', r'.calls[|r.calls|])
    requires |r.calls| !in r.applied
    requires FirstConsumed(r') ==> Frozen(r)
    ensures TurnFits(r')
  {
    forall i | 0 <= i < |r.calls| ensures r'.calls[i] == r.calls[i] {
      assert r'.calls[i] == r'.calls[..|r.calls|][i];
    }
    forall i | 0 <= i < |r'.calls| ensures LookupFits(r', r'.calls[i]) {
      assert i < |r.calls| ==> LookupFits(r, r.calls[i]);
    }
  }

  /** The first call of a run whose capability has just been minted. */
  lemma {:induction false} FirstCallHistory(server: Server, registry: RegistryState, r: RunRecord, cap: Capability, env: BeginEnv)
    requires HistoryInv(server, r) && CallsOk(SettingFor(server, r), RunWorld(map[], r))
    requires r.state == Authorized && r.calls == [] && r.applied == {} && r.capability == Some(cap)
    requires !HasRecord(r) && ShapeOf(r.log).value.tail == NoStart
    ensures HistoryInv(server, ExecuteForRun(server, registry, r, cap, env).1)
  {
    if Executable(r.config.proposal.actionType) {
      var r' := ExecuteForRun(server, registry, r, cap, env).1;
      BeginAdds(server, registry, r, cap, env);
      FirstCallTells(server, registry, r, cap, env);
      FirstShape(r, r');
      AddedTurn(r, r');
    }
  }

  predicate TellsFirst(r: RunRecord, r': RunRecord) {
    && |r'.calls| == 1
    && (FirstConsumed(r') ==> OneMore(r.log, r'.log, ExecutionStarted) && Frozen(r))
    && (!FirstConsumed(r') ==>
          && FirstReturned(r')
          && if FirstResult(r').PreconditionFailure? then OneMore(r.log, r'.log, PreconditionFailedEvent) else r'.log == r.log)
  }

  lemma {:induction false} FirstCallTells(server: Server, registry: RegistryState, r: RunRecord, cap: Capability, env: BeginEnv)
    requires r.calls == [] && !HasRecord(r) && Executable(r.config.proposal.actionType) && r.capability == Some(cap)
    ensures var r' := ExecuteForRun(server, registry, r, cap, env).1;
      TellsFirst(r, r') && LookupFits(r', r'.calls[0])
  {
    var g, i := Gate(registry, r.store, r.log), InputFor(r, cap);
    BeginTellsNew(server.payloadHash, g, i, env.now, env.recheckAt, env.stamp);
    BeginFirst(SettingFor(server, r), g, i, env.now, env.recheckAt, env.stamp);
  }

  lemma {:induction false} FirstShape(r: RunRecord, r': RunRecord)
    requires r.capability.Some? && !HasRecord(r) && CallAdded(r, r') && TellsFirst(r, r')
    requires ShapeOf(r.log) == Some(Granted(r.approval.Some?, NoStart))
    ensures ShapeOf(r'.log).Some? && ShapeFits(ShapeOf(r'.log).value, r')
  {
    if r'.log != r.log {
      ShapeSnoc(r.log, r'.log, r'.log[|r.log|].input.eventType);
    }
  }

  /** What a replay or reconciliation finds: its attempt recorded, its plan and version unchanged. */
  predicate ReadyAgain(payloadHash: Params -> string, r: RunRecord) {
    && r.capability.Some? && HasRecord(r) && FirstConsumed(r)
    && RecordFits(payloadHash, r) && Frozen(r)
    && r.capability.value.proposalHash == r.config.proposalHash
  }

  lemma {:induction false} OutcomeRecorded(r: RunRecord)
    requires CallsInv(r) && StateInv(r) && r.state in {Verified, UnknownOutcome, ReconciliationRequired}
    ensures HasRecord(r)
  {
    assert FirstOk(r.calls[0], HasRecord(r));
  }

  lemma {:induction false} OutcomesAreReady(server: Server, r: RunRecord)
    requires RunInv(server, r) && HistoryInv(server, r) && CapabilityForPlan(r)
    requires r.state in {Verified, UnknownOutcome, ReconciliationRequired}
    ensures ReadyAgain(server.payloadHash, r)
  {
    OutcomeRecorded(r);
  }

  predicate TellsAgain(r: RunRecord, r': RunRecord, c: Call) {
    if c.phase.LookingUp? then r'.log == r.log
    else
      && c.phase.Returned?
      && match c.phase.result
         case Done(_, _, _, reason) =>
           && reason == IdempotentReplay && HasRecord(r) && r.store.byKey[RunKey(r)].state == Succeeded
           && OneMore(r.log, r'.log, DuplicateReplayDetected)
         case CapabilityFailure(_) => r'.log == r.log
         case AdapterFailure(_) => r'.log == r.log
         case _ => false
  }

  /** What a replay or reconciliation tells at once. */
  lemma {:induction false} LaterCallTells(server: Server, registry: RegistryState, r: RunRecord, env: BeginEnv)
    requires ReadyAgain(server.payloadHash, r) && Executable(r.config.proposal.actionType)
    ensures var r' := ExecuteForRun(server, registry, r, r.capability.value, env).1; var n := |r.calls|;
      |r'.calls| == n + 1 && LookupFits(r', r'.calls[n]) && TellsAgain(r, r', r'.calls[n])
  {
    BeginTellsAgain(
      server.payloadHash, Gate(registry, r.store, r.log), InputFor(r, r.capability.value), env.now, env.recheckAt, env.stamp);
  }

  lemma {:induction false} AgainShape(r: RunRecord, r': RunRecord)
    requires r.capability.Some? && HasRecord(r) && FirstConsumed(r) && CallAdded(r, r') && TellsAgain(r, r', r'.calls[|r.calls|])
    requires ShapeOf(r.log).Some? && ShapeFits(ShapeOf(r.log).value, r)
    ensures ShapeOf(r'.log).Some? && ShapeFits(ShapeOf(r'.log).value, r')
    ensures FirstConsumed(r')
    ensures ShapeOf(r'.log) == ShapeOf(r.log) || ShapeOf(r'.log).value.tail.Proved?
  {
    assert r'.calls[0] == r'.calls[..|r.calls|][0];
    if r'.log != r.log {
      ShapeSnoc(r.log, r'.log, DuplicateReplayDetected);
    }
  }

  lemma {:induction false} LaterCallHistory(server: Server, registry: RegistryState, r: RunRecord, env: BeginEnv)
    requires HistoryInv(server, r) && CallsOk(SettingFor(server, r), RunWorld(map[], r)) && ReadyAgain(server.payloadHash, r)
    requires AllApplied(r) && (forall c | c in r.applied :: c < |r.calls|)
    ensures HistoryInv(server, ExecuteForRun(server, registry, r, r.capability.value, env).1)
  {
    if Executable(r.config.proposal.actionType) {
      var r' := ExecuteForRun(server, registry, r, r.capability.value, env).1;
      BeginAdds(server, registry, r, r.capability.value, env);
      LaterCallTells(server, registry, r, env);
      AgainShape(r, r');
      AddedTurn(r, r');
    }
  }

  // ----- entry calls -----

  /** The evidence the orchestrator builds is never refused. */
  lemma {:induction false} MintSucceeds(c: RunConfig, a: ApprovalEnv, mint: MintEnv)
    ensures c.verdict.outcome == Allow ==>
      MintCapability(PolicyAllow(c.verdict), RequestFor(c), mint.capabilityId, mint.nonce, mint.now, CAPABILITY_TTL_MS).Success?
    ensures ConsumeApproval(FreshApproval(c, a), ApprovalRequestFor(c), a.checkedAt).Success? ==>
      MintCapability(
        Approved(ConsumeApproval(FreshApproval(c, a), ApprovalRequestFor(c), a.checkedAt).value),
        RequestFor(c), mint.capabilityId, mint.nonce, mint.now, CAPABILITY_TTL_MS).Success?
  {
  }

  /** The run just before its capability is minted, as its ledger shows it. */
  predicate ReadyToTell(r: RunRecord) {
    && r.state == Authorized && r.calls == [] && r.applied == {} && r.capability.None? && !HasRecord(r)
    && ShapeOf(r.log) == Some(if r.approval.Some? then ApprovalGiven else Withheld)
  }

  lemma {:induction false} MintedHistory(server: Server, r: RunRecord, cap: Capability, stamp: Stamp)
    requires ReadyToTell(r)
    ensures var minted := Logged(r, MintedEvent(server.isoText, r.config, cap), stamp).(capability := Some(cap));
      HistoryInv(server, minted) && ShapeOf(minted.log).value.tail == NoStart
  {
    var minted := Logged(r, MintedEvent(server.isoText, r.config, cap), stamp).(capability := Some(cap));
    ShapeSnoc(r.log, minted.log, CapabilityMinted);
  }

  lemma {:induction false} MintHistory(
    server: Server, registry: RegistryState, r: RunRecord, evidence: Evidence, mint: MintEnv, env: BeginEnv)
    requires ReadyToTell(r) && CallsOk(SettingFor(server, r), RunWorld(map[], r))
    requires MintCapability(evidence, RequestFor(r.config), mint.capabilityId, mint.nonce, mint.now, CAPABILITY_TTL_MS).Success?
    ensures HistoryInv(server, AuthorizeAndExecute(server, registry, r, evidence, mint, env).1)
  {
    var cap := MintCapability(evidence, RequestFor(r.config), mint.capabilityId, mint.nonce, mint.now, CAPABILITY_TTL_MS).value;
    var minted := Logged(r, MintedEvent(server.isoText, r.config, cap), mint.stamp).(capability := Some(cap));
    MintedHistory(server, r, cap, mint.stamp);
    assert CallsOk(SettingFor(server, minted), RunWorld(map[], minted));
    FirstCallHistory(server, registry[cap.id := cap], minted, cap, env);
  }

  lemma {:induction false} NewRunShape(server: Server, i: Creation)
    ensures ShapeOf(NewRun(server, i).log) == Some(Withheld)
  {
    var log := NewRun(server, i).log;
    assert Types([]) == [] && Parse([]) == Some(Nothing);
    ShapeSnoc([], log[..1], ModelProposalRecorded);
    ShapeSnoc(log[..1], log, PolicyDecision);
  }

  lemma {:induction false} CreateHistory(server: Server, registry: RegistryState, i: Creation, mint: MintEnv, env: BeginEnv)
    ensures HistoryInv(server, CreateRun(server, registry, i, mint, env).1)
  {
    var r := NewRun(server, i);
    NewRunShape(server, i);
    if r.config.verdict.outcome == Allow {
      var allowed := r.(state := Must(r.state, LowRiskPolicyAllow));
      assert CallsOk(SettingFor(server, allowed), RunWorld(map[], allowed));
      MintSucceeds(r.config, ApprovalEnv("", 0, 0, 0, Stamp("", "")), mint);
      MintHistory(server, registry, allowed, PolicyAllow(r.config.verdict), mint, env);
    }
  }

  /** The run right after its approval was consumed. */
  ghost function Approving(r: RunRecord, approval: Approval, stamp: Stamp): RunRecord
    requires r.state == ApprovalRequired
  {
    Logged(r, ApprovalEvent(r.config, approval), stamp).(approval := Some(approval), state := Must(r.state, MatchingApproval))
  }

  lemma {:induction false} ApprovedReady(server: Server, r: RunRecord, approval: Approval, stamp: Stamp)
    requires HistoryInv(server, r) && r.state == ApprovalRequired && r.calls == [] && r.applied == {} && !HasRecord(r)
    requires CallsOk(SettingFor(server, r), RunWorld(map[], r))
    ensures var approved := Approving(r, approval, stamp);
      ReadyToTell(approved) && CallsOk(SettingFor(server, approved), RunWorld(map[], approved))
  {
    var approved := Approving(r, approval, stamp);
    ShapeSnoc(r.log, approved.log, ApprovalConsumedEvent);
  }

  lemma {:induction false} ApproveHistory(
    server: Server, registry: RegistryState, r: RunRecord, a: ApprovalEnv, mint: MintEnv, env: BeginEnv)
    requires HistoryInv(server, r) && CallsOk(SettingFor(server, r), RunWorld(map[], r))
    requires r.state == ApprovalRequired ==> r.calls == [] && r.applied == {} && !HasRecord(r)
    ensures HistoryInv(server, ApproveRun(server, registry, r, a, mint, env).1)
  {
    if r.state == ApprovalRequired && ConsumeApproval(FreshApproval(r.config, a), ApprovalRequestFor(r.config), a.checkedAt).Success? {
      var approval := ConsumeApproval(FreshApproval(r.config, a), ApprovalRequestFor(r.config), a.checkedAt).value;
      ApprovedReady(server, r, approval, a.stamp);
      MintSucceeds(r.config, a, mint);
      MintHistory(server, registry, Approving(r, approval, a.stamp), Approved(approval), mint, env);
    }
  }

  lemma {:induction false} UntouchedBefore(server: Server, r: RunRecord)
    requires RunInv(server, r) && r.state == ApprovalRequired
    ensures r.calls == [] && r.applied == {} && !HasRecord(r)
  {
    assert forall c | c in r.applied :: c < |r.calls|;
  }

  // ----- the other events -----

  lemma {:induction false} VerifyHistory(server: Server, r: RunRecord, result: IntegrityResult, stamp: Stamp)
    requires HistoryInv(server, r)
    ensures HistoryInv(server, VerifyRunLedger(r, result, stamp))
    ensures ShapeOf(VerifyRunLedger(r, result, stamp).log) == ShapeOf(r.log)
  {
    var r' := VerifyRunLedger(r, result, stamp);
    ShapeSnoc(r.log, r'.log, AuditIntegrityChecked);
    assert forall i | 0 <= i < |r.calls| :: LookupFits(r, r.calls[i]) ==> LookupFits(r', r'.calls[i]);
  }

  lemma {:induction false} DriftHistory(server: Server, r: RunRecord)
    requires HistoryInv(server, r) && StateInv(r)
    ensures HistoryInv(server, SimulateDrift(r))
  {
  }

  lemma {:induction false} AppliedTurn(r: RunRecord, r': RunRecord, c: nat)
    requires TurnFits(r) && c < |r.calls| && r.calls[c].phase.Returned? && r'.applied == r.applied + {c}
    requires r'.config == r.config && r'.calls == r.calls && r'.store == r.store && r'.capability == r.capability
    requires r'.resourceVersionNow == r.resourceVersionNow && r'.resourceVersionAtProposal == r.resourceVersionAtProposal
    ensures TurnFits(r')
  {
    forall i | 0 <= i < |r'.calls| ensures LookupFits(r', r'.calls[i]) {
      assert LookupFits(r, r.calls[i]);
    }
  }

  /** Applying a result keeps a run out of the states without a capability. */
  lemma {:induction false} AppliedState(r: RunRecord, c: nat)
    requires StateInv(r) && c < |r.calls| && r.calls[c].phase.Returned?
    ensures ApplyResult(r, c).state !in {Denied, ApprovalRequired} && r.state !in {Denied, ApprovalRequired}
  {
  }

  lemma {:induction false} AppliedShape(payloadHash: Params -> string, r: RunRecord, r': RunRecord)
    requires ShapeOf(r.log).Some? && ShapeFits(ShapeOf(r.log).value, r) && RecordFits(payloadHash, r)
    requires r' == r.(state := r'.state, execution := r'.execution, applied := r'.applied)
    ensures ShapeOf(r'.log).Some? && ShapeFits(ShapeOf(r'.log).value, r') && RecordFits(payloadHash, r')
  {
  }

  lemma {:induction false} ApplyChanges(r: RunRecord, c: nat)
    requires c < |r.calls| && r.calls[c].phase.Returned?
    ensures var r' := ApplyResult(r, c);
      && r' == r.(state := r'.state, execution := r'.execution, applied := r'.applied)
      && r'.applied == r.applied + {c}
  {
  }

  lemma {:induction false} ApplyHistory(server: Server, r: RunRecord, c: nat)
    requires HistoryInv(server, r) && StateInv(r) && c < |r.calls| && r.calls[c].phase.Returned?
    ensures HistoryInv(server, ApplyResult(r, c))
    ensures ApplyResult(r, c).log == r.log
  {
    var r' := ApplyResult(r, c);
    ApplyChanges(r, c);
    AppliedState(r, c);
    AppliedTurn(r, r', c);
    AppliedShape(server.payloadHash, r, r');
  }

  lemma {:induction false} OutcomeCallHistory(server: Server, registry: RegistryState, r: RunRecord, env: BeginEnv)
    requires AuthorityInv(server, r) && HistoryInv(server, r) && AllApplied(r)
    requires r.state in {Verified, UnknownOutcome, ReconciliationRequired} && r.capability.Some?
    ensures HistoryInv(server, ExecuteForRun(server, registry, r, r.capability.value, env).1)
  {
    OutcomesAreReady(server, r);
    LaterCallHistory(server, registry, r, env);
  }

  lemma {:induction false} StepHistory(server: Server, a: AppState, e: AppEvent)
    requires AppEnabled(server, a, e) && TakesTurn(a, e)
    requires RunIdOf(e) in a.runs ==> AuthorityInv(server, a.runs[RunIdOf(e)]) && HistoryInv(server, a.runs[RunIdOf(e)])
    ensures HistoryInv(server, RunStep(server, a, e).1)
  {
    match e
    case Create(creation, mint, begin) => CreateHistory(server, a.registry, creation, mint, begin);
    case Approve(id, approval, mint, begin) =>
      if a.runs[id].state == ApprovalRequired {
        UntouchedBefore(server, a.runs[id]);
      }
      ApproveHistory(server, a.registry, a.runs[id], approval, mint, begin);
    case Replay(id, begin) =>
      if a.runs[id].state == Verified && a.runs[id].capability.Some? {
        OutcomeCallHistory(server, a.registry, a.runs[id], begin);
      }
    case Reconcile(id, begin) =>
      if (a.runs[id].state == UnknownOutcome || a.runs[id].state == ReconciliationRequired) && a.runs[id].capability.Some? {
        OutcomeCallHistory(server, a.registry, a.runs[id], begin);
      }
    case Drift(id) => DriftHistory(server, a.runs[id]);
    case Verify(id, result, stamp) => VerifyHistory(server, a.runs[id], result, stamp);
    case Continue(id, event) => LaterHistory(server, a.registry, a.runs[id], event);
    case Apply(id, c) => ApplyHistory(server, a.runs[id], c);
  }

  lemma {:induction false} HistoryEverywhere(server: Server, es: seq<AppEvent>)
    requires AppCanRun(server, AppStart(), es) && Obeys(server, TakesTurn, AppStart(), es)
    ensures forall id | id in AppRun(server, AppStart(), es).runs ::
      AuthorityInv(server, AppRun(server, AppStart(), es).runs[id]) && HistoryInv(server, AppRun(server, AppStart(), es).runs[id])
  {
    var inv := (r: RunRecord) => AuthorityInv(server, r) && HistoryInv(server, r);
    forall a, e | AppEnabled(server, a, e) && TakesTurn(a, e) && (RunIdOf(e) in a.runs ==> inv(a.runs[RunIdOf(e)]))
      ensures inv(RunStep(server, a, e).1)
    {
      RunAuthority(server, a, e);
      StepHistory(server, a, e);
    }
    EveryRun(server, TakesTurn, inv, AppStart(), es);
  }

  /**
   When entry calls on a run take turns, its ledger, integrity checks left out, is always the
   rendering of one shape: proposal, policy, then nothing before a capability; otherwise an approval
   exactly if the run holds one, the capability, and a tail that fits the store.
   */
  lemma {:induction false} LedgerFollowsGrammar(server: Server, es: seq<AppEvent>, id: string)
    requires AppCanRun(server, AppStart(), es) && Obeys(server, TakesTurn, AppStart(), es)
    requires id in AppRun(server, AppStart(), es).runs
    ensures var r := AppRun(server, AppStart(), es).runs[id];
      && ShapeOf(r.log).Some?
      && Types(r.log) == Render(ShapeOf(r.log).value)
      && ShapeFits(ShapeOf(r.log).value, r)
  {
    HistoryEverywhere(server, es);
    var r := AppRun(server, AppStart(), es).runs[id];
    GrammarExact(Types(r.log), ShapeOf(r.log).value);
  }
}
