/**
 The projection of a run's ledger against the state of the run, with entry calls taking turns: exactly
 when the two agree with any adapter, and that they always do in front of the fake adapters as long as
 no reconciliation is tried from RECONCILIATION_REQUIRED.
 */
module OrchestratorViews {
  import opened Prelude
  import opened Contracts
  import opened HashChain
  import opened Ledger
  import opened Authority
  import opened Receipts
  import opened Adapters
  import opened Stores
  import opened Gateway
  import opened GatewayProtocol
  import opened Orchestrator
  import opened OrchestratorRuns
  import opened OrchestratorAuthority
  import opened OrchestratorHistory
  import opened RunHistory
  import P = Projection

  // ----- the projection of a run's ledger -----

  /** The final state the projection's fold reaches over these event types. */
  function StateAfter(ts: seq<AuditEventType>): P.FinalState {
    if ts == [] then P.ProjProposed else P.FinalStateForEventType(ts[|ts| - 1], StateAfter(ts[..|ts| - 1]))
  }

  lemma {:induction false} StateAfterSnoc(ts: seq<AuditEventType>, t: AuditEventType)
    ensures StateAfter(ts + [t]) == P.FinalStateForEventType(t, StateAfter(ts))
  {
    assert (ts + [t])[..|ts|] == ts;
  }

  /** Integrity checks leave no trace in the fold. */
  lemma {:induction false} FoldIsStateAfter(entries: seq<LedgerEntry>, log: seq<Appended>)
    requires |entries| == |log|
    requires forall i | 0 <= i < |log| :: entries[i].eventType == log[i].input.eventType
    ensures P.Fold(entries).1 == StateAfter(Types(log))
  {
    if log != [] {
      var n := |log| - 1;
      FoldIsStateAfter(entries[..n], log[..n]);
      StateAfterSnoc(Types(log[..n]), log[n].input.eventType);
    }
  }

  lemma {:induction false} AllOfOperation(entries: seq<LedgerEntry>, op: string)
    requires forall i | 0 <= i < |entries| :: entries[i].operationId == Some(op)
    ensures P.OfOperation(entries, op) == entries
  {
    if entries != [] {
      AllOfOperation(entries[..|entries| - 1], op);
    }
  }

  lemma {:induction false} ProjectionOfRun(entryHash: LedgerEntry -> string, log: seq<Appended>, op: string)
    requires LogOk(log, op) && log != []
    ensures P.Project(Build(entryHash, log), op).finalState == StateAfter(Types(log))
  {
    var entries := Build(entryHash, log);
    forall i | 0 <= i < |entries|
      ensures entries[i].operationId == Some(op) && entries[i].sequence == i + 1
      ensures entries[i].eventType == log[i].input.eventType
    {
      BuiltFrom(entryHash, log, i);
    }
    AllOfOperation(entries, op);
    P.ProjectSorted(entries, op);
    FoldIsStateAfter(entries, log);
  }

  /** What the projection shows of a ledger of each shape. */
  function ViewOf(s: Shape): P.FinalState {
    match s
    case Nothing => P.ProjProposed
    case ProposedOnly => P.ProjProposed
    case Withheld => P.ProjPolicyDecided
    case ApprovalGiven => P.ProjApproved
    case Granted(_, tail) =>
      match tail
      case NoStart => P.ProjCapabilityMinted
      case Stopped => P.ProjFailed
      case Started => P.ProjExecuting
      case Unresolved(n) => if n == 0 then P.ProjUnknownOutcome else P.ProjReconciliationRequired
      case Proved(_, _) => P.ProjVerified
      case Refuted(_) => P.ProjFailed
  }

  lemma {:induction false} ViewNext(s: Shape, t: AuditEventType)
    requires NextShape(s, t).Some?
    ensures ViewOf(NextShape(s, t).value) == P.FinalStateForEventType(t, ViewOf(s))
  {
  }

  lemma {:induction false} ViewOfTypes(ts: seq<AuditEventType>)
    requires Parse(ts).Some?
    ensures StateAfter(ts) == ViewOf(Parse(ts).value)
  {
    if ts != [] {
      ViewOfTypes(ts[..|ts| - 1]);
      ViewNext(Parse(ts[..|ts| - 1]).value, ts[|ts| - 1]);
    }
  }

  // ----- the fake adapter of a run -----

  predicate GoodReceipt(r: RunRecord, receipt: Receipt) {
    VerifyPostcondition(
      r.config.proposal.actionType, receipt, ExpectationFor(r.config.idempotencyKey, r.config.proposal.params))
  }

  predicate GoodCall(r: RunRecord, c: Call) {
    && (c.exec.Fired? && c.exec.result.Receipted? ==> GoodReceipt(r, c.exec.result.receipt))
    && (c.phase.Settled? && c.phase.outcome.Resolved? ==> GoodReceipt(r, c.phase.outcome.receipt))
    && (c.phase.LookedUp? && c.phase.found.Some? ==> GoodReceipt(r, c.phase.found.value))
  }

  /** Whatever the run's adapter holds or has handed over verifies. */
  predicate ReceiptsGood(r: RunRecord) {
    && (forall k | k in r.adapter.byKey :: k == RunKey(r) ==> GoodReceipt(r, r.adapter.byKey[k].receipt))
    && (forall op | op in r.adapter.byOp :: GoodReceipt(r, r.adapter.byOp[op]))
    && (forall i | 0 <= i < |r.calls| :: GoodCall(r, r.calls[i]))
  }

  lemma {:induction false} FireIsGood(server: Server, r: RunRecord, call: Call, env: ExecInputs)
    requires ReceiptsGood(r) && ForRun(r, call) && call.exec.InFlight?
    requires call.exec.capability.actionType == r.config.proposal.actionType
    ensures var (a, result) := AfterExecute(
        r.config.adapterKind, server.payloadHash, r.adapter, call.input.operation, call.exec.capability, call.input.params, env);
      && (result.Receipted? ==> GoodReceipt(r, result.receipt))
      && (forall k | k in a.byKey :: k == RunKey(r) ==> GoodReceipt(r, a.byKey[k].receipt))
      && (forall op | op in a.byOp :: GoodReceipt(r, a.byOp[op]))
  {
    var candidate := BuildReceipt(
      call.input.params, call.input.operation.idempotencyKey, call.exec.capability.resourceId, env.freshId, env.createdAt);
    if call.exec.capability.actionType == r.config.adapterKind && ParsesAs(r.config.adapterKind, candidate) {
      BuiltReceiptVerifies(
        r.config.adapterKind, call.input.params, RunKey(r), call.exec.capability.resourceId, env.freshId, env.createdAt);
    }
  }

  /** A run whose calls moved only in call `c`. */
  lemma {:induction false} GoodElsewhere(r: RunRecord, r': RunRecord, c: nat)
    requires ReceiptsGood(r) && c < |r.calls| == |r'.calls|
    requires r'.config == r.config && r'.adapter == r.adapter
    requires r'.calls == r.calls[c := r'.calls[c]] && GoodCall(r', r'.calls[c])
    ensures ReceiptsGood(r')
  {
    forall i | 0 <= i < |r'.calls| ensures GoodCall(r', r'.calls[i]) {
      assert i != c ==> r'.calls[i] == r.calls[i] && GoodCall(r, r.calls[i]);
    }
  }

  lemma {:induction false} FireGood(server: Server, registry: RegistryState, r: RunRecord, c: nat, env: ExecInputs)
    requires ReceiptsGood(r) && Enabled(RunWorld(registry, r), Fire(c, env)) && ForRun(r, r.calls[c])
    requires r.calls[c].exec.capability.actionType == r.config.proposal.actionType
    ensures ReceiptsGood(GatewayStep(server, registry, r, Fire(c, env)).1)
  {
    var r' := GatewayStep(server, registry, r, Fire(c, env)).1;
    FireIsGood(server, r, r.calls[c], env);
    forall i | 0 <= i < |r'.calls| ensures GoodCall(r', r'.calls[i]) {
      assert GoodCall(r, r.calls[i]);
    }
  }

  lemma {:induction false} PieceGood(server: Server, registry: RegistryState, r: RunRecord, e: Event)
    requires ReceiptsGood(r) && Enabled(RunWorld(registry, r), e) && LaterPiece(e) && FakeAdapterEvent(e) && !e.Fire?
    ensures ReceiptsGood(GatewayStep(server, registry, r, e).1)
  {
    var r' := GatewayStep(server, registry, r, e).1;
    assert GoodCall(r, r.calls[e.c]);
    GoodElsewhere(r, r', e.c);
  }

  lemma {:induction false} LaterGood(server: Server, registry: RegistryState, r: RunRecord, e: Event)
    requires AuthorityInv(server, r) && ReceiptsGood(r)
    requires LaterPiece(e) && FakeAdapterEvent(e) && Enabled(RunWorld(registry, r), e)
    ensures ReceiptsGood(GatewayStep(server, registry, r, e).1)
  {
    match e
    case Fire(c, env) =>
      assert Presents(r, r.calls[c]) && ForRun(r, r.calls[c]);
      FireGood(server, registry, r, c, env);
    case _ => PieceGood(server, registry, r, e);
  }

  /** Begun calls hold no receipt, so a run stays good when one is added. */
  lemma {:induction false} BegunGood(server: Server, registry: RegistryState, r: RunRecord, cap: Capability, env: BeginEnv)
    requires ReceiptsGood(r)
    ensures ReceiptsGood(ExecuteForRun(server, registry, r, cap, env).1)
  {
    if Executable(r.config.proposal.actionType) {
      var r' := ExecuteForRun(server, registry, r, cap, env).1;
      NoReceiptYet(SettingFor(server, r), Gate(registry, r.store, r.log), InputFor(r, cap), env.now, env.recheckAt, env.stamp);
      forall i | 0 <= i < |r'.calls| ensures GoodCall(r', r'.calls[i]) {
        assert i < |r.calls| ==> r'.calls[i] == r.calls[i] && GoodCall(r, r.calls[i]);
      }
    }
  }

  lemma {:induction false} NoReceiptYet(s: Setting, g: Gate, i: CallInput, now: int, recheckAt: int, stamp: Stamp)
    ensures var phase := Begin(s.payloadHash, g, i, now, recheckAt, stamp).1;
      !phase.LookedUp? && (phase.Settled? ==> phase.outcome.GatewayRefused?)
  {
  }

  lemma {:induction false} AuthorizeGood(
    server: Server, registry: RegistryState, r: RunRecord, evidence: Evidence, mint: MintEnv, env: BeginEnv)
    requires ReceiptsGood(r) && r.calls == []
    ensures ReceiptsGood(AuthorizeAndExecute(server, registry, r, evidence, mint, env).1)
  {
    match MintCapability(evidence, RequestFor(r.config), mint.capabilityId, mint.nonce, mint.now, CAPABILITY_TTL_MS)
    case Failure(_) =>
    case Success(cap) =>
      var minted := Logged(r, MintedEvent(server.isoText, r.config, cap), mint.stamp).(capability := Some(cap));
      BegunGood(server, registry[cap.id := cap], minted, cap, env);
  }

  lemma {:induction false} SameGood(r: RunRecord, r': RunRecord)
    requires ReceiptsGood(r) && r'.config == r.config && r'.adapter == r.adapter && r'.calls == r.calls
    ensures ReceiptsGood(r')
  {
    forall i | 0 <= i < |r'.calls| ensures GoodCall(r', r'.calls[i]) {
      assert GoodCall(r, r.calls[i]);
    }
  }

  lemma {:induction false} AgainGood(server: Server, registry: RegistryState, r: RunRecord, env: BeginEnv)
    requires ReceiptsGood(r)
    ensures ReceiptsGood(ReplayRun(server, registry, r, env).1)
    ensures ReceiptsGood(ReconcileRun(server, registry, r, env).1)
  {
    if r.capability.Some? {
      BegunGood(server, registry, r, r.capability.value, env);
    }
  }

  /** No piece of a fake adapter brings in a receipt that does not verify. */
  lemma {:induction false} StepGood(server: Server, a: AppState, e: AppEvent)
    requires AppEnabled(server, a, e) && (e.Continue? ==> FakeAdapterEvent(e.event))
    requires RunIdOf(e) in a.runs ==> AuthorityInv(server, a.runs[RunIdOf(e)]) && ReceiptsGood(a.runs[RunIdOf(e)])
    ensures ReceiptsGood(RunStep(server, a, e).1)
  {
    match e
    case Create(creation, mint, begin) => CreateGood(server, a.registry, creation, mint, begin);
    case Approve(id, approval, mint, begin) => ApproveGood(server, a.registry, a.runs[id], approval, mint, begin);
    case Replay(id, begin) => AgainGood(server, a.registry, a.runs[id], begin);
    case Reconcile(id, begin) => AgainGood(server, a.registry, a.runs[id], begin);
    case Drift(id) => SameGood(a.runs[id], SimulateDrift(a.runs[id]));
    case Verify(id, result, stamp) => SameGood(a.runs[id], VerifyRunLedger(a.runs[id], result, stamp));
    case Continue(id, event) => LaterGood(server, a.registry, a.runs[id], event);
    case Apply(id, c) => SameGood(a.runs[id], ApplyResult(a.runs[id], c));
  }

  lemma {:induction false} CreateGood(server: Server, registry: RegistryState, i: Creation, mint: MintEnv, env: BeginEnv)
    ensures ReceiptsGood(CreateRun(server, registry, i, mint, env).1)
  {
    var r := NewRun(server, i);
    if r.config.verdict.outcome == Allow {
      AuthorizeGood(
        server, registry, r.(state := Must(r.state, LowRiskPolicyAllow)), PolicyAllow(r.config.verdict), mint, env);
    }
  }

  lemma {:induction false} ApproveGood(
    server: Server, registry: RegistryState, r: RunRecord, a: ApprovalEnv, mint: MintEnv, env: BeginEnv)
    requires RunInv(server, r) && ReceiptsGood(r)
    ensures ReceiptsGood(ApproveRun(server, registry, r, a, mint, env).1)
  {
    if r.state == ApprovalRequired && ConsumeApproval(FreshApproval(r.config, a), ApprovalRequestFor(r.config), a.checkedAt).Success? {
      var approval := ConsumeApproval(FreshApproval(r.config, a), ApprovalRequestFor(r.config), a.checkedAt).value;
      AuthorizeGood(
        server, registry,
        Logged(r, ApprovalEvent(r.config, approval), a.stamp)
          .(approval := Some(approval), state := Must(r.state, MatchingApproval)),
        Approved(approval), mint, env);
    }
  }

  // ----- state and ledger in step -----

  /**
   The tails of the ledger that go with a run state. Strictly, they are the ones the projection shows
   as that state; loosely, a lookup may have resolved the record of a run that stays in doubt.
   */
  predicate Matches(strict: bool, s: RunState, tail: Tail) {
    match s
    case Authorized => tail == NoStart || tail == Started
    case Stale => tail == Stopped
    case Failed => tail.Refuted?
    case Verified => tail.Proved?
    case UnknownOutcome => tail == Unresolved(0) || (!strict && tail == Refuted(Some(0)))
    case ReconciliationRequired =>
      || (tail.Unresolved? && tail.lookups > 0)
      || (!strict && (tail.Proved? || tail.Refuted?) && tail.unknownFirst.Some? && tail.unknownFirst.value > 0)
    case _ => false
  }

  /** The last call has returned and its result has not been applied yet. */
  predicate Pending(r: RunRecord) {
    r.calls != [] && r.calls[|r.calls| - 1].phase.Returned? && |r.calls| - 1 !in r.applied
  }

  /** The state the run is in, or will be in once the outstanding result is applied. */
  function DueState(r: RunRecord): RunState {
    if Pending(r) then
      match NextState(r.state, r.calls[|r.calls| - 1].phase.result)
      case None => r.state
      case Some(next) => next
    else r.state
  }

  predicate LookupsInDoubt(strict: bool, r: RunRecord) {
    forall i | 0 <= i < |r.calls| && (r.calls[i].phase.LookingUp? || r.calls[i].phase.LookedUp?) ::
      r.state == UnknownOutcome || (!strict && r.state == ReconciliationRequired)
  }

  predicate InStep(strict: bool, r: RunRecord) {
    && LookupsInDoubt(strict, r)
    && (r.capability.Some? ==>
          && ShapeOf(r.log).Some? && ShapeOf(r.log).value.Granted?
          && Matches(strict, DueState(r), ShapeOf(r.log).value.tail))
  }

  /** Entry calls take turns, adapters are the fake ones, and RECONCILIATION_REQUIRED is left alone. */
  predicate Orderly(a: AppState, e: AppEvent) {
    && TakesTurn(a, e)
    && (e.Continue? ==> FakeAdapterEvent(e.event))
    && (e.Reconcile? && e.runId in a.runs ==> a.runs[e.runId].state != ReconciliationRequired)
  }

  // ----- gateway pieces -----

  lemma {:induction false} QuietInStep(strict: bool, server: Server, registry: RegistryState, r: RunRecord, e: Event)
    requires InStep(strict, r) && LaterPiece(e) && Enabled(RunWorld(registry, r), e) && !e.FinishCall? && !e.FinishReconcile?
    ensures InStep(strict, GatewayStep(server, registry, r, e).1)
  {
    var r' := GatewayStep(server, registry, r, e).1;
    QuietPieces(SettingFor(server, r), RunWorld(registry, r), e);
    assert DueState(r') == DueState(r);
  }

  lemma {:induction false} FinishInStep(strict: bool, server: Server, registry: RegistryState, r: RunRecord, c: nat, stamp: Stamp)
    requires RunInv(server, r) && HistoryInv(server, r) && InStep(strict, r) && Enabled(RunWorld(registry, r), FinishCall(c, stamp))
    ensures InStep(strict, GatewayStep(server, registry, r, FinishCall(c, stamp)).1)
  {
    var r' := GatewayStep(server, registry, r, FinishCall(c, stamp)).1;
    var result, rec := FinishPiece(server, registry, r, c, stamp);
    var p := r.calls[c].phase;
    assert 0 !in r.applied && r.state == Authorized;
    FinishReturns(Gate(registry, r.store, r.log), r.calls[c].input, p.capability, p.payloadHash, p.outcome, stamp);
    AttemptShape(r, r', result, rec);
    AttemptDue(strict, r, r', result);
  }

  lemma {:induction false} AttemptDue(strict: bool, r: RunRecord, r': RunRecord, result: ActionResult)
    requires r.state == r'.state == Authorized && r'.applied == r.applied && 0 !in r.applied && |r'.calls| == 1
    requires r'.calls[0].phase == Returned(result)
    requires result.Done? ==> result.reason == FreshSuccess
    requires
      result.Done? || result.PostconditionFailure? || result.UnknownOutcomeResult? || result.CapabilityFailure? || result.AdapterFailure?
    requires ShapeOf(r'.log).Some? && ShapeOf(r'.log).value.Granted?
    requires ShapeOf(r'.log).value.tail ==
      match result
      case Done(_, _, _, _) => Proved(None, 0)
      case PostconditionFailure => Refuted(None)
      case UnknownOutcomeResult(_) => Unresolved(0)
      case _ => Started
    ensures InStep(strict, r')
  {
    assert Pending(r');
  }

  /** What a finished reconciliation leaves: one more fruitless lookup, or the end of the doubt. */
  predicate LookupEnds(r: RunRecord, r': RunRecord, c: nat) {
    && c == |r.calls| - 1 && |r'.calls| == |r.calls| && c !in r.applied && r.calls[c].phase.LookedUp?
    && r' == r.(store := r'.store, log := r'.log, calls := r'.calls)
    && r'.calls[..c] == r.calls[..c] && r'.calls[c].phase.Returned?
    && ShapeOf(r.log).Some? && ShapeOf(r.log).value.Granted? && ShapeOf(r.log).value.tail.Unresolved?
    && ShapeOf(r'.log).Some? && ShapeOf(r'.log).value.Granted?
    && var n := ShapeOf(r.log).value.tail.lookups;
       var tail, result := ShapeOf(r'.log).value.tail, r'.calls[c].phase.result;
       if r.calls[c].phase.found.None? then tail == Unresolved(n + 1) && result.ReconciliationRequiredResult?
       else
         || (tail == Proved(Some(n), 0) && result.Done? && result.reason == ReconciledSuccess)
         || (tail == Refuted(Some(n)) && result.PostconditionFailure?)
  }

  lemma {:induction false} ReconciledTail(server: Server, registry: RegistryState, r: RunRecord, c: nat, stamp: Stamp)
    requires RunInv(server, r) && HistoryInv(server, r) && Enabled(RunWorld(registry, r), FinishReconcile(c, stamp))
    ensures LookupEnds(r, GatewayStep(server, registry, r, FinishReconcile(c, stamp)).1, c)
  {
    var r' := GatewayStep(server, registry, r, FinishReconcile(c, stamp)).1;
    var result, rec := FinishReconcilePiece(server, registry, r, c, stamp);
    MovesLast(r, c);
    CapabilityHeld(r);
    LookupShape(r, r', c, result, rec);
  }

  /** A lookup that finds a good receipt ends in success. */
  lemma {:induction false} GoodLookup(server: Server, registry: RegistryState, r: RunRecord, c: nat, stamp: Stamp)
    requires CallsInv(r) && ReceiptsGood(r) && Enabled(RunWorld(registry, r), FinishReconcile(c, stamp))
    ensures var r' := GatewayStep(server, registry, r, FinishReconcile(c, stamp)).1;
      c < |r'.calls| && r'.calls[c].phase.Returned? && !r'.calls[c].phase.result.PostconditionFailure?
  {
    assert ForRun(r, r.calls[c]) && GoodCall(r, r.calls[c]);
  }

  lemma {:induction false} CapabilityHeld(r: RunRecord)
    requires StateInv(r) && r.calls != [] && (r.capability.None? <==> r.state in {Denied, ApprovalRequired})
    ensures r.capability.Some?
  {
  }

  /** The outstanding result of a reconciliation is due to take the run where the ledger already is. */
  lemma {:induction false} ReconciledDue(strict: bool, r: RunRecord, r': RunRecord, c: nat)
    requires LookupEnds(r, r', c) && Matches(strict, r.state, ShapeOf(r.log).value.tail)
    requires r.state == UnknownOutcome || (!strict && r.state == ReconciliationRequired)
    requires strict ==> !r'.calls[c].phase.result.PostconditionFailure?
    ensures InStep(strict, r')
  {
    assert Pending(r');
  }

  lemma {:induction false} InDoubt(strict: bool, r: RunRecord, c: nat)
    requires InStep(strict, r) && r.capability.Some? && c == |r.calls| - 1 && c < |r.calls| && r.calls[c].phase.LookedUp?
    ensures r.state == UnknownOutcome || (!strict && r.state == ReconciliationRequired)
    ensures ShapeOf(r.log).Some? && ShapeOf(r.log).value.Granted? && Matches(strict, r.state, ShapeOf(r.log).value.tail)
  {
    assert !Pending(r);
  }

  lemma {:induction false} FinishReconcileInStep(
    strict: bool, server: Server, registry: RegistryState, r: RunRecord, c: nat, stamp: Stamp)
    requires RunInv(server, r) && HistoryInv(server, r) && (strict ==> ReceiptsGood(r)) && InStep(strict, r)
    requires Enabled(RunWorld(registry, r), FinishReconcile(c, stamp))
    ensures InStep(strict, GatewayStep(server, registry, r, FinishReconcile(c, stamp)).1)
  {
    ReconciledTail(server, registry, r, c, stamp);
    CapabilityHeld(r);
    InDoubt(strict, r, c);
    if strict {
      GoodLookup(server, registry, r, c, stamp);
    }
    ReconciledDue(strict, r, GatewayStep(server, registry, r, FinishReconcile(c, stamp)).1, c);
  }

  // ----- starting calls -----

  lemma {:induction false} FirstInStep(strict: bool, r: RunRecord, r': RunRecord)
    requires r.state == Authorized && r.calls == [] && r.applied == {} && r.capability.Some? && !HasRecord(r)
    requires ShapeOf(r.log) == Some(Granted(r.approval.Some?, NoStart))
    requires CallAdded(r, r') && TellsFirst(r, r') && !r'.calls[0].phase.LookingUp? && !r'.calls[0].phase.LookedUp?
    requires FirstConsumed(r') ==> !FirstReturned(r')
    requires FirstReturned(r') ==> FirstResult(r').CapabilityFailure? || FirstResult(r').PreconditionFailure?
    ensures InStep(strict, r')
  {
    if r'.log != r.log {
      ShapeSnoc(r.log, r'.log, r'.log[|r.log|].input.eventType);
    }
  }

  lemma {:induction false} FirstCallInStep(strict: bool, server: Server, registry: RegistryState, r: RunRecord, cap: Capability, env: BeginEnv)
    requires CallsOk(SettingFor(server, r), RunWorld(map[], r))
    requires r.state == Authorized && r.calls == [] && r.applied == {} && r.capability == Some(cap) && !HasRecord(r)
    requires ShapeOf(r.log) == Some(Granted(r.approval.Some?, NoStart))
    ensures InStep(strict, ExecuteForRun(server, registry, r, cap, env).1)
  {
    if Executable(r.config.proposal.actionType) {
      BeginAdds(server, registry, r, cap, env);
      FirstCallTells(server, registry, r, cap, env);
      BeginFirst(
        SettingFor(server, r), Gate(registry, r.store, r.log), InputFor(r, cap), env.now, env.recheckAt, env.stamp);
      FirstInStep(strict, r, ExecuteForRun(server, registry, r, cap, env).1);
    }
  }

  lemma {:induction false} AgainInStep(strict: bool, r: RunRecord, r': RunRecord)
    requires InStep(strict, r) && AllApplied(r) && r.capability.Some?
    requires r.state in {Verified, UnknownOutcome} || (!strict && r.state == ReconciliationRequired)
    requires HasRecord(r) && FirstConsumed(r) && ShapeFits(ShapeOf(r.log).value, r)
    requires |r.calls| !in r.applied
    requires CallAdded(r, r') && TellsAgain(r, r', r'.calls[|r.calls|]) && LookupFits(r', r'.calls[|r.calls|])
    ensures InStep(strict, r')
  {
    AgainShape(r, r');
    assert !Pending(r);
    forall i | 0 <= i < |r'.calls| && (r'.calls[i].phase.LookingUp? || r'.calls[i].phase.LookedUp?)
      ensures r'.state == UnknownOutcome || (!strict && r'.state == ReconciliationRequired)
    {
      assert i < |r.calls| ==> r'.calls[i] == r'.calls[..|r.calls|][i];
    }
    if r'.log != r.log {
      ShapeSnoc(r.log, r'.log, DuplicateReplayDetected);
    }
  }

  lemma {:induction false} LaterCallInStep(strict: bool, server: Server, registry: RegistryState, r: RunRecord, env: BeginEnv)
    requires HistoryInv(server, r) && CallsOk(SettingFor(server, r), RunWorld(map[], r)) && ReadyAgain(server.payloadHash, r)
    requires AllApplied(r) && (forall c | c in r.applied :: c < |r.calls|)
    requires InStep(strict, r) && (r.state in {Verified, UnknownOutcome} || (!strict && r.state == ReconciliationRequired))
    ensures InStep(strict, ExecuteForRun(server, registry, r, r.capability.value, env).1)
  {
    if Executable(r.config.proposal.actionType) {
      BeginAdds(server, registry, r, r.capability.value, env);
      LaterCallTells(server, registry, r, env);
      AgainInStep(strict, r, ExecuteForRun(server, registry, r, r.capability.value, env).1);
    }
  }

  // ----- every event -----

  lemma {:induction false} MintInStep(
    strict: bool, server: Server, registry: RegistryState, r: RunRecord, evidence: Evidence, mint: MintEnv, env: BeginEnv)
    requires ReadyToTell(r) && CallsOk(SettingFor(server, r), RunWorld(map[], r))
    requires MintCapability(evidence, RequestFor(r.config), mint.capabilityId, mint.nonce, mint.now, CAPABILITY_TTL_MS).Success?
    ensures InStep(strict, AuthorizeAndExecute(server, registry, r, evidence, mint, env).1)
  {
    var cap := MintCapability(evidence, RequestFor(r.config), mint.capabilityId, mint.nonce, mint.now, CAPABILITY_TTL_MS).value;
    var minted := Logged(r, MintedEvent(server.isoText, r.config, cap), mint.stamp).(capability := Some(cap));
    MintedHistory(server, r, cap, mint.stamp);
    assert CallsOk(SettingFor(server, minted), RunWorld(map[], minted));
    FirstCallInStep(strict, server, registry[cap.id := cap], minted, cap, env);
  }

  lemma {:induction false} CreateInStep(strict: bool, server: Server, registry: RegistryState, i: Creation, mint: MintEnv, env: BeginEnv)
    ensures InStep(strict, CreateRun(server, registry, i, mint, env).1)
  {
    var r := NewRun(server, i);
    NewRunShape(server, i);
    if r.config.verdict.outcome == Allow {
      var allowed := r.(state := Must(r.state, LowRiskPolicyAllow));
      assert CallsOk(SettingFor(server, allowed), RunWorld(map[], allowed));
      MintSucceeds(r.config, ApprovalEnv("", 0, 0, 0, Stamp("", "")), mint);
      MintInStep(strict, server, registry, allowed, PolicyAllow(r.config.verdict), mint, env);
    }
  }

  lemma {:induction false} ApproveInStep(
    strict: bool, server: Server, registry: RegistryState, r: RunRecord, a: ApprovalEnv, mint: MintEnv, env: BeginEnv)
    requires HistoryInv(server, r) && CallsOk(SettingFor(server, r), RunWorld(map[], r)) && InStep(strict, r)
    requires r.state == ApprovalRequired ==> r.calls == [] && r.applied == {} && !HasRecord(r)
    ensures InStep(strict, ApproveRun(server, registry, r, a, mint, env).1)
  {
    if r.state == ApprovalRequired && ConsumeApproval(FreshApproval(r.config, a), ApprovalRequestFor(r.config), a.checkedAt).Success? {
      var approval := ConsumeApproval(FreshApproval(r.config, a), ApprovalRequestFor(r.config), a.checkedAt).value;
      ApprovedReady(server, r, approval, a.stamp);
      MintSucceeds(r.config, a, mint);
      MintInStep(strict, server, registry, Approving(r, approval, a.stamp), Approved(approval), mint, env);
    }
  }

  lemma {:induction false} OutcomeCallInStep(strict: bool, server: Server, registry: RegistryState, r: RunRecord, env: BeginEnv)
    requires AuthorityInv(server, r) && HistoryInv(server, r) && InStep(strict, r) && AllApplied(r)
    requires r.state in {Verified, UnknownOutcome} || (!strict && r.state == ReconciliationRequired)
    requires r.capability.Some?
    ensures InStep(strict, ExecuteForRun(server, registry, r, r.capability.value, env).1)
  {
    OutcomesAreReady(server, r);
    LaterCallInStep(strict, server, registry, r, env);
  }

  lemma {:induction false} VerifyInStep(strict: bool, server: Server, r: RunRecord, result: IntegrityResult, stamp: Stamp)
    requires HistoryInv(server, r) && InStep(strict, r)
    ensures InStep(strict, VerifyRunLedger(r, result, stamp))
  {
    var r' := VerifyRunLedger(r, result, stamp);
    VerifyHistory(server, r, result, stamp);
    assert DueState(r') == DueState(r);
  }

  lemma {:induction false} ApplyInStep(strict: bool, server: Server, r: RunRecord, c: nat)
    requires HistoryInv(server, r) && StateInv(r) && InStep(strict, r)
    requires c < |r.calls| && r.calls[c].phase.Returned? && c !in r.applied
    ensures InStep(strict, ApplyResult(r, c))
  {
    ApplyChanges(r, c);
    CapabilityHeld(r);
    assert c == |r.calls| - 1 && Pending(r);
  }

  lemma {:induction false} LaterInStep(strict: bool, server: Server, registry: RegistryState, r: RunRecord, e: Event)
    requires RunInv(server, r) && HistoryInv(server, r) && InStep(strict, r) && (strict ==> ReceiptsGood(r))
    requires LaterPiece(e) && Enabled(RunWorld(registry, r), e)
    ensures InStep(strict, GatewayStep(server, registry, r, e).1)
  {
    match e
    case FinishCall(c, stamp) => FinishInStep(strict, server, registry, r, c, stamp);
    case FinishReconcile(c, stamp) => FinishReconcileInStep(strict, server, registry, r, c, stamp);
    case _ => QuietInStep(strict, server, registry, r, e);
  }

  lemma {:induction false} StepInStep(strict: bool, server: Server, a: AppState, e: AppEvent)
    requires AppEnabled(server, a, e) && TakesTurn(a, e) && (strict ==> Orderly(a, e))
    requires RunIdOf(e) in a.runs ==> var r := a.runs[RunIdOf(e)];
      AuthorityInv(server, r) && HistoryInv(server, r) && InStep(strict, r) && (strict ==> ReceiptsGood(r))
    ensures InStep(strict, RunStep(server, a, e).1)
  {
    match e
    case Create(creation, mint, begin) => CreateInStep(strict, server, a.registry, creation, mint, begin);
    case Approve(id, approval, mint, begin) =>
      if a.runs[id].state == ApprovalRequired {
        UntouchedBefore(server, a.runs[id]);
      }
      ApproveInStep(strict, server, a.registry, a.runs[id], approval, mint, begin);
    case Replay(id, begin) =>
      if a.runs[id].state == Verified && a.runs[id].capability.Some? {
        OutcomeCallInStep(strict, server, a.registry, a.runs[id], begin);
      }
    case Reconcile(id, begin) =>
      if (a.runs[id].state == UnknownOutcome || a.runs[id].state == ReconciliationRequired) && a.runs[id].capability.Some? {
        OutcomeCallInStep(strict, server, a.registry, a.runs[id], begin);
      }
    case Drift(id) => assert InStep(strict, SimulateDrift(a.runs[id]));
    case Verify(id, result, stamp) => VerifyInStep(strict, server, a.runs[id], result, stamp);
    case Continue(id, event) => LaterInStep(strict, server, a.registry, a.runs[id], event);
    case Apply(id, c) => ApplyInStep(strict, server, a.runs[id], c);
  }

  // ----- the theorems -----

  lemma {:induction false} InStepEverywhere(server: Server, es: seq<AppEvent>)
    requires AppCanRun(server, AppStart(), es) && Obeys(server, Orderly, AppStart(), es)
    ensures forall id | id in AppRun(server, AppStart(), es).runs :: var r := AppRun(server, AppStart(), es).runs[id];
      AuthorityInv(server, r) && HistoryInv(server, r) && InStep(true, r) && ReceiptsGood(r)
  {
    var inv := (r: RunRecord) => AuthorityInv(server, r) && HistoryInv(server, r) && InStep(true, r) && ReceiptsGood(r);
    forall a, e | AppEnabled(server, a, e) && Orderly(a, e) && (RunIdOf(e) in a.runs ==> inv(a.runs[RunIdOf(e)]))
      ensures inv(RunStep(server, a, e).1)
    {
      RunAuthority(server, a, e);
      StepHistory(server, a, e);
      StepGood(server, a, e);
      StepInStep(true, server, a, e);
    }
    EveryRun(server, Orderly, inv, AppStart(), es);
  }

  /** What the projection may show for a run in this state. */
  predicate Agrees(s: RunState, view: P.FinalState) {
    match s
    case Denied => view == P.ProjPolicyDecided
    case ApprovalRequired => view == P.ProjPolicyDecided
    case Authorized => view == P.ProjCapabilityMinted || view == P.ProjExecuting
    case Stale => view == P.ProjFailed
    case Failed => view == P.ProjFailed
    case Verified => view == P.ProjVerified
    case UnknownOutcome => view == P.ProjUnknownOutcome
    case ReconciliationRequired => view == P.ProjReconciliationRequired
    case _ => false
  }

  function ViewOfRun(server: Server, r: RunRecord): P.FinalState {
    P.Project(Build(server.entryHash, r.log), r.config.operationId).finalState
  }

  lemma {:induction false} ViewIsShape(server: Server, r: RunRecord)
    requires LogOk(r.log, r.config.operationId) && ShapeOf(r.log).Some? && ShapeOf(r.log).value != Nothing
    ensures ViewOfRun(server, r) == ViewOf(ShapeOf(r.log).value)
  {
    ProjectionOfRun(server.entryHash, r.log, r.config.operationId);
    ViewOfTypes(Types(r.log));
  }

  /** A tail that goes loosely with a state is shown as that state unless it has been resolved in doubt. */
  lemma {:induction false} MatchAgrees(s: RunState, approved: bool, tail: Tail)
    requires Matches(false, s, tail)
    ensures Agrees(s, ViewOf(Granted(approved, tail))) <==> !(s in {UnknownOutcome, ReconciliationRequired} && !tail.Unresolved?)
    ensures Matches(true, s, tail) ==> Agrees(s, ViewOf(Granted(approved, tail)))
  {
  }

  lemma {:induction false} InStepAgrees(server: Server, r: RunRecord)
    requires LogOk(r.log, r.config.operationId) && HistoryInv(server, r) && InStep(true, r) && !Pending(r)
    ensures Agrees(r.state, ViewOfRun(server, r))
  {
    ViewIsShape(server, r);
    if r.capability.Some? {
      MatchAgrees(r.state, ShapeOf(r.log).value.approved, ShapeOf(r.log).value.tail);
    }
  }

  /**
   With entry calls taking turns, the fake adapters, late effects and any number of integrity checks:
   whenever no result is waiting to be applied, the projection of the run's ledger agrees with the
   state of the run, until a reconciliation is tried from RECONCILIATION_REQUIRED.
   */
  lemma {:induction false} ProjectionAgrees(server: Server, es: seq<AppEvent>, id: string)
    requires AppCanRun(server, AppStart(), es) && Obeys(server, Orderly, AppStart(), es)
    requires id in AppRun(server, AppStart(), es).runs && !Pending(AppRun(server, AppStart(), es).runs[id])
    ensures var r := AppRun(server, AppStart(), es).runs[id]; Agrees(r.state, ViewOfRun(server, r))
  {
    InStepEverywhere(server, es);
    InStepAgrees(server, AppRun(server, AppStart(), es).runs[id]);
  }

  /** The end of a reconciliation: its last piece and the application of its result. */
  ghost function Reconciled(server: Server, registry: RegistryState, r: RunRecord, c: nat, stamp: Stamp): RunRecord
    requires Enabled(RunWorld(registry, r), FinishReconcile(c, stamp))
  {
    ApplyResult(GatewayStep(server, registry, r, FinishReconcile(c, stamp)).1, c)
  }

  /** No result of a lookup takes a run out of RECONCILIATION_REQUIRED: `mustTransition` throws. */
  lemma {:induction false} NoWayOut(r: RunRecord, c: nat)
    requires r.state == ReconciliationRequired && c < |r.calls| && r.calls[c].phase.Returned?
    requires var result := r.calls[c].phase.result;
      || result.ReconciliationRequiredResult? || result.PostconditionFailure?
      || (result.Done? && result.reason == ReconciledSuccess)
    ensures NextState(r.state, r.calls[c].phase.result) == None
    ensures ApplyResult(r, c) == r.(applied := r.applied + {c})
  {
  }

  lemma {:induction false} LookupEndsBeyond(r: RunRecord, r': RunRecord, c: nat)
    requires LookupEnds(r, r', c) && r.state == ReconciliationRequired
    ensures var after := ApplyResult(r', c);
      && after.state == ReconciliationRequired && after.config == r.config && after.log == r'.log
      && ShapeOf(after.log).Some? && ShapeOf(after.log).value != Nothing
      && (ViewOf(ShapeOf(after.log).value) == P.ProjReconciliationRequired <==> r.calls[c].phase.found.None?)
  {
    NoWayOut(r', c);
  }

  lemma {:induction false} ReconciledBeyond(server: Server, registry: RegistryState, r: RunRecord, c: nat, stamp: Stamp)
    requires RunInv(server, r) && HistoryInv(server, r) && r.state == ReconciliationRequired
    requires Enabled(RunWorld(registry, r), FinishReconcile(c, stamp))
    ensures var after := Reconciled(server, registry, r, c, stamp);
      && after.state == ReconciliationRequired && after.config == r.config
      && after.log == GatewayStep(server, registry, r, FinishReconcile(c, stamp)).1.log
      && ShapeOf(after.log).Some? && ShapeOf(after.log).value != Nothing
      && (ViewOf(ShapeOf(after.log).value) == P.ProjReconciliationRequired <==> r.calls[c].phase.found.None?)
  {
    ReconciledTail(server, registry, r, c, stamp);
    LookupEndsBeyond(r, GatewayStep(server, registry, r, FinishReconcile(c, stamp)).1, c);
  }

  lemma {:induction false} InStepLoosely(server: Server, es: seq<AppEvent>)
    requires AppCanRun(server, AppStart(), es) && Obeys(server, TakesTurn, AppStart(), es)
    ensures forall id | id in AppRun(server, AppStart(), es).runs :: var r := AppRun(server, AppStart(), es).runs[id];
      AuthorityInv(server, r) && HistoryInv(server, r) && InStep(false, r)
  {
    var inv := (r: RunRecord) => AuthorityInv(server, r) && HistoryInv(server, r) && InStep(false, r);
    forall a, e | AppEnabled(server, a, e) && TakesTurn(a, e) && (RunIdOf(e) in a.runs ==> inv(a.runs[RunIdOf(e)]))
      ensures inv(RunStep(server, a, e).1)
    {
      RunAuthority(server, a, e);
      StepHistory(server, a, e);
      StepInStep(false, server, a, e);
    }
    EveryRun(server, TakesTurn, inv, AppStart(), es);
  }

  /** The run stays in doubt although a lookup has resolved its record. */
  predicate ResolvedInDoubt(r: RunRecord) {
    && r.state in {UnknownOutcome, ReconciliationRequired}
    && HasRecord(r) && r.store.byKey[RunKey(r)].state != UnknownOperation
  }

  lemma {:induction false} DoubtfulTail(r: RunRecord)
    requires CallsInv(r) && StateInv(r) && r.capability.Some? && r.state in {UnknownOutcome, ReconciliationRequired}
    requires ShapeOf(r.log).Some? && ShapeFits(ShapeOf(r.log).value, r) && FirstConsumed(r)
    ensures HasRecord(r)
    ensures Matches(false, r.state, ShapeOf(r.log).value.tail) ==>
      (ShapeOf(r.log).value.tail.Unresolved? <==> r.store.byKey[RunKey(r)].state == UnknownOperation)
  {
    OutcomeRecorded(r);
  }

  lemma {:induction false} LooseAgrees(server: Server, r: RunRecord)
    requires CallsInv(r) && StateInv(r) && LogOk(r.log, r.config.operationId) && HistoryInv(server, r)
    requires InStep(false, r) && !Pending(r)
    ensures Agrees(r.state, ViewOfRun(server, r)) <==> !ResolvedInDoubt(r)
  {
    ViewIsShape(server, r);
    if r.capability.Some? {
      var shape := ShapeOf(r.log).value;
      MatchAgrees(r.state, shape.approved, shape.tail);
      if r.state in {UnknownOutcome, ReconciliationRequired} {
        ConsumedFirst(server, r);
        DoubtfulTail(r);
      }
    }
  }

  lemma {:induction false} ConsumedFirst(server: Server, r: RunRecord)
    requires CallsInv(r) && StateInv(r) && RecordFits(server.payloadHash, r)
    requires r.state in {Verified, UnknownOutcome, ReconciliationRequired}
    ensures FirstConsumed(r)
  {
    OutcomeRecorded(r);
  }

  /**
   With entry calls taking turns and any adapter: whenever no result is waiting to be applied, the
   projection of a run's ledger agrees with the state of the run, except exactly for a run that is
   still UNKNOWN_OUTCOME or RECONCILIATION_REQUIRED although a lookup has resolved its record.
   */
  lemma {:induction false} ProjectionAgreesExactly(server: Server, es: seq<AppEvent>, id: string)
    requires AppCanRun(server, AppStart(), es) && Obeys(server, TakesTurn, AppStart(), es)
    requires id in AppRun(server, AppStart(), es).runs && !Pending(AppRun(server, AppStart(), es).runs[id])
    ensures var r := AppRun(server, AppStart(), es).runs[id]; Agrees(r.state, ViewOfRun(server, r)) <==> !ResolvedInDoubt(r)
  {
    InStepLoosely(server, es);
    LooseAgrees(server, AppRun(server, AppStart(), es).runs[id]);
  }

  /**
   Beyond that boundary: a reconciliation from RECONCILIATION_REQUIRED never moves the run, since the
   table has no way out, but the ledger goes on. The projection then agrees with the state exactly
   if the lookup found nothing.
   */
  lemma {:induction false} BeyondReconciliationRequired(server: Server, es: seq<AppEvent>, id: string, c: nat, stamp: Stamp)
    requires AppCanRun(server, AppStart(), es) && Obeys(server, TakesTurn, AppStart(), es)
    requires var a := AppRun(server, AppStart(), es);
      && id in a.runs && a.runs[id].state == ReconciliationRequired
      && Enabled(RunWorld(a.registry, a.runs[id]), FinishReconcile(c, stamp))
    ensures var a := AppRun(server, AppStart(), es);
      var after := Reconciled(server, a.registry, a.runs[id], c, stamp);
      && after.state == ReconciliationRequired
      && (Agrees(after.state, ViewOfRun(server, after)) <==> a.runs[id].calls[c].phase.found.None?)
  {
    HistoryEverywhere(server, es);
    var a := AppRun(server, AppStart(), es);
    BeyondAgrees(server, a.registry, a.runs[id], c, stamp);
  }

  lemma {:induction false} BeyondAgrees(server: Server, registry: RegistryState, r: RunRecord, c: nat, stamp: Stamp)
    requires AuthorityInv(server, r) && HistoryInv(server, r) && r.state == ReconciliationRequired
    requires Enabled(RunWorld(registry, r), FinishReconcile(c, stamp))
    ensures var after := Reconciled(server, registry, r, c, stamp);
      && after.state == ReconciliationRequired
      && (Agrees(after.state, ViewOfRun(server, after)) <==> r.calls[c].phase.found.None?)
  {
    ReconciledLog(server, registry, r, c, stamp);
    ReconciledBeyond(server, registry, r, c, stamp);
    ViewIsShape(server, Reconciled(server, registry, r, c, stamp));
  }

  lemma {:induction false} ReconciledLog(server: Server, registry: RegistryState, r: RunRecord, c: nat, stamp: Stamp)
    requires AuthorityInv(server, r) && Enabled(RunWorld(registry, r), FinishReconcile(c, stamp))
    ensures LogOk(GatewayStep(server, registry, r, FinishReconcile(c, stamp)).1.log, r.config.operationId)
  {
    LaterAuthority(server, registry, r, FinishReconcile(c, stamp));
  }
}
