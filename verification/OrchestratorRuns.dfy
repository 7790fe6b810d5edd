/**
 What every run keeps to, over every interleaving of entry calls, gateway pieces and late effects,
 with an adapter that may answer anything: `execute` is called at most once per run.
 */
module OrchestratorRuns {
  import opened Prelude
  import opened Contracts
  import opened HashChain
  import opened Ledger
  import opened Authority
  import opened Receipts
  import opened Adapters
  import opened Stores
  import opened Gateway
  import opened GatewayProtocol
  import opened Orchestrator

  function RunKey(r: RunRecord): string {
    r.config.idempotencyKey
  }

  predicate HasRecord(r: RunRecord) {
    RunKey(r) in r.store.byKey
  }

  /** A call made for this run: its operation, parameters, request and expectation. */
  predicate ForRun(r: RunRecord, c: Call) {
    && c.input.request == RequestFor(r.config)
    && c.input.operation == Operation(r.config.operationId, r.config.idempotencyKey)
    && c.input.params == r.config.proposal.params
    && c.input.expectation == ExpectationFor(r.config.idempotencyKey, r.config.proposal.params)
  }

  /** A call that consumed nothing and can no longer reach the adapter's `execute`. */
  predicate Passive(c: Call) {
    c.consumed.None? && c.exec == NotCalled && !c.phase.Racing? && !c.phase.Settled?
  }

  /** The first call is the only attempt; what became of it shows in the store. */
  predicate FirstOk(c: Call, recorded: bool) {
    match c.phase
    case Racing(_, _) => Executed(c) && !recorded
    case Settled(_, _, o) => !recorded && (o.GatewayRefused? <==> !Executed(c))
    case Returned(result) =>
      (match result
       case Done(_, _, _, reason) => reason == FreshSuccess && Executed(c) && recorded
       case UnknownOutcomeResult(_) => Executed(c) && recorded
       case PostconditionFailure => Executed(c) && recorded
       case PreconditionFailure(_) => !Executed(c)
       case CapabilityFailure(_) => true
       case AdapterFailure(_) => true
       case _ => false)
    case _ => false
  }

  predicate CallsInv(r: RunRecord) {
    && (forall i | 0 <= i < |r.calls| :: ForRun(r, r.calls[i]))
    && (forall i | 1 <= i < |r.calls| :: Passive(r.calls[i]))
    && (r.calls != [] ==> FirstOk(r.calls[0], HasRecord(r)))
    && (r.calls == [] ==> !HasRecord(r))
    && r.callCount == (if r.calls != [] && Executed(r.calls[0]) then 1 else 0)
  }

  predicate FirstReturned(r: RunRecord) {
    r.calls != [] && r.calls[0].phase.Returned?
  }

  function FirstResult(r: RunRecord): ActionResult
    requires FirstReturned(r)
  {
    r.calls[0].phase.result
  }

  /** The state tells how far the first call has come and whether its result has been applied. */
  predicate StateInv(r: RunRecord) {
    match r.state
    case Denied => r.calls == []
    case ApprovalRequired => r.calls == []
    case Authorized =>
      && |r.calls| <= 1
      && (0 in r.applied ==> FirstReturned(r) && (FirstResult(r).CapabilityFailure? || FirstResult(r).AdapterFailure?))
    case Stale => |r.calls| == 1 && FirstReturned(r) && FirstResult(r).PreconditionFailure? && 0 in r.applied
    case Failed => |r.calls| == 1 && FirstReturned(r) && FirstResult(r).PostconditionFailure? && 0 in r.applied
    case Verified => FirstReturned(r) && (FirstResult(r).Done? || FirstResult(r).UnknownOutcomeResult?) && 0 in r.applied
    case UnknownOutcome => FirstReturned(r) && FirstResult(r).UnknownOutcomeResult? && 0 in r.applied
    case ReconciliationRequired => FirstReturned(r) && FirstResult(r).UnknownOutcomeResult? && 0 in r.applied
    case _ => false
  }

  ghost predicate RunInv(server: Server, r: RunRecord) {
    && CallsOk(SettingFor(server, r), RunWorld(map[], r))
    && CallsInv(r)
    && StateInv(r)
    && (forall c | c in r.applied :: c < |r.calls|)
  }

  // ----- pieces of gateway calls -----

  lemma {:induction false} CallsOkAnyRegistry(s: Setting, w: World, registry: RegistryState)
    requires CallsOk(s, w)
    ensures CallsOk(s, w.(gate := w.gate.(registry := registry)))
  {
  }

  /** How a later piece moves the calls of a run, and that it never adds one. */
  lemma {:induction false} LaterCalls(s: Setting, w: World, e: Event)
    requires CallsOk(s, w) && Enabled(w, e) && LaterPiece(e)
    ensures var w' := Step(s, w, e);
      && CallsOk(s, w') && |w'.calls| == |w.calls| && Extends(w.calls, w'.calls)
      && (forall k | k in w.gate.store.byKey :: k in w'.gate.store.byKey)
      && forall i | 0 <= i < |w.calls| ::
           && (Passive(w.calls[i]) ==> Passive(w'.calls[i]))
           && (w.calls[i] != w'.calls[i] ==> i == e.c)
  {
    CallsOkStep(s, w, e);
    StepExtends(s, w, e);
  }

  /** What finishing an attempt records and returns. */
  lemma {:induction false} FinishReturns(g: Gate, i: CallInput, c: Capability, hash: string, outcome: RaceOutcome, stamp: Stamp)
    ensures var (g', result) := Finish(g, i, c, hash, outcome, stamp);
      && i.operation.idempotencyKey in g'.store.byKey
      && (outcome.GatewayRefused? ==> result.CapabilityFailure?)
      && (outcome.TimedOut? ==> result.UnknownOutcomeResult?)
      && (outcome.Rejected? ==> result.AdapterFailure?)
      && (outcome.Resolved? ==> result.PostconditionFailure? || (result.Done? && result.reason == FreshSuccess))
  {
  }

  lemma {:induction false} LaterFirst(s: Setting, w: World, e: Event, key: string)
    requires CallsOk(s, w) && Enabled(w, e) && LaterPiece(e)
    requires w.calls != [] && Key(w.calls[0]) == key && FirstOk(w.calls[0], key in w.gate.store.byKey)
    requires forall i | 1 <= i < |w.calls| :: Passive(w.calls[i]) && !w.calls[0].phase.Racing? && !w.calls[0].phase.Settled?
    ensures var w' := Step(s, w, e);
      |w'.calls| == |w.calls| && FirstOk(w'.calls[0], key in w'.gate.store.byKey)
  {
    LaterCalls(s, w, e);
    assert CallOk(s, w.calls[0]);
    var w' := Step(s, w, e);
    if e.c == 0 {
      match e
      case FinishCall(c, stamp) =>
        var p := w.calls[0].phase;
        FinishReturns(w.gate, w.calls[0].input, p.capability, p.payloadHash, p.outcome, stamp);
      case _ =>
        QuietStore(s, w, e);
    } else {
      assert w'.calls[0] == w.calls[0];
      assert Passive(w.calls[e.c]);
    }
  }

  lemma {:induction false} QuietStore(s: Setting, w: World, e: Event)
    requires Enabled(w, e) && LaterPiece(e) && !e.FinishCall? && !e.FinishReconcile?
    ensures Step(s, w, e).gate.store == w.gate.store
  {
  }

  lemma {:induction false} LaterKeeps(server: Server, registry: RegistryState, r: RunRecord, e: Event)
    requires RunInv(server, r) && LaterPiece(e) && Enabled(RunWorld(registry, r), e)
    ensures RunInv(server, GatewayStep(server, registry, r, e).1)
  {
    var s, w := SettingFor(server, r), RunWorld(registry, r);
    var r' := GatewayStep(server, registry, r, e).1;
    CallsOkAnyRegistry(s, RunWorld(map[], r), registry);
    LaterCalls(s, w, e);
    LaterFirst(s, w, e, RunKey(r));
    CallsOkAnyRegistry(s, Step(s, w, e), map[]);
    LaterCallsInv(r, r');
    LaterStateInv(r, r');
  }

  lemma {:induction false} LaterCallsInv(r: RunRecord, r': RunRecord)
    requires CallsInv(r) && r.calls != []
    requires r'.config == r.config && r'.callCount == r.callCount && Extends(r.calls, r'.calls) && |r'.calls| == |r.calls|
    requires FirstOk(r'.calls[0], HasRecord(r'))
    requires forall i | 0 <= i < |r.calls| :: Passive(r.calls[i]) ==> Passive(r'.calls[i])
    ensures CallsInv(r')
  {
    forall i | 0 <= i < |r'.calls| ensures ForRun(r', r'.calls[i]) {
      assert ForRun(r, r.calls[i]);
    }
  }

  lemma {:induction false} LaterStateInv(r: RunRecord, r': RunRecord)
    requires StateInv(r) && r'.state == r.state && r'.applied == r.applied
    requires Extends(r.calls, r'.calls) && |r'.calls| == |r.calls|
    ensures StateInv(r')
  {
  }

  // ----- starting a gateway call -----

  /** With nothing recorded a call is an attempt or returns at once; with a record it is never an attempt. */
  lemma {:induction false} BeginFirst(s: Setting, g: Gate, i: CallInput, now: int, recheckAt: int, stamp: Stamp)
    ensures var (g', phase) := Begin(s.payloadHash, g, i, now, recheckAt, stamp);
      && g'.store == g.store
      && (i.operation.idempotencyKey in g.store.byKey ==> Passive(NewCall(i, phase)))
      && (i.operation.idempotencyKey !in g.store.byKey ==>
            && FirstOk(NewCall(i, phase), false)
            && (phase.Returned? ==> phase.result.CapabilityFailure? || phase.result.PreconditionFailure?))
  {
  }

  lemma {:induction false} BeginAdds(server: Server, registry: RegistryState, r: RunRecord, cap: Capability, env: BeginEnv)
    requires CallsOk(SettingFor(server, r), RunWorld(map[], r))
    requires Executable(r.config.proposal.actionType)
    ensures var r' := ExecuteForRun(server, registry, r, cap, env).1; var n := |r.calls|;
      && r' == r.(log := r'.log, calls := r'.calls, callCount := r'.callCount)
      && |r'.calls| == n + 1 && r'.calls[..n] == r.calls
      && ForRun(r, r'.calls[n])
      && CallsOk(SettingFor(server, r), RunWorld(map[], r'))
      && (HasRecord(r) ==> Passive(r'.calls[n]))
      && (!HasRecord(r) ==> FirstOk(r'.calls[n], false))
      && r'.callCount == r.callCount + (if Executed(r'.calls[n]) then 1 else 0)
  {
    var s, w := SettingFor(server, r), RunWorld(registry, r);
    var e := BeginCall(InputFor(r, cap), env.now, env.recheckAt, env.stamp);
    CallsOkAnyRegistry(s, RunWorld(map[], r), registry);
    CallsOkStep(s, w, e);
    BeginFirst(s, w.gate, e.input, env.now, env.recheckAt, env.stamp);
    CallsOkAnyRegistry(s, Step(s, w, e), map[]);
  }

  /** The first call of a freshly authorized run. */
  lemma {:induction false} FirstCallKeeps(server: Server, registry: RegistryState, r: RunRecord, cap: Capability, env: BeginEnv)
    requires RunInv(server, r) && r.state == Authorized && r.calls == []
    ensures RunInv(server, ExecuteForRun(server, registry, r, cap, env).1)
  {
    if Executable(r.config.proposal.actionType) {
      BeginAdds(server, registry, r, cap, env);
    }
  }

  /** A replay or reconciliation finds the record of the first call. */
  lemma {:induction false} LaterCallKeeps(server: Server, registry: RegistryState, r: RunRecord, cap: Capability, env: BeginEnv)
    requires RunInv(server, r) && r.state in {Verified, UnknownOutcome, ReconciliationRequired}
    ensures RunInv(server, ExecuteForRun(server, registry, r, cap, env).1)
  {
    if Executable(r.config.proposal.actionType) {
      BeginAdds(server, registry, r, cap, env);
      var r' := ExecuteForRun(server, registry, r, cap, env).1;
      assert r'.calls[0] == r'.calls[..|r.calls|][0];
      forall i | 0 <= i < |r'.calls| ensures ForRun(r', r'.calls[i]) && (i > 0 ==> Passive(r'.calls[i])) {
        if i < |r.calls| {
          assert r'.calls[i] == r'.calls[..|r.calls|][i];
        }
      }
    }
  }

  lemma {:induction false} AuthorizeKeeps(
    server: Server, registry: RegistryState, r: RunRecord, evidence: Evidence, mint: MintEnv, env: BeginEnv)
    requires RunInv(server, r) && r.state == Authorized && r.calls == []
    ensures RunInv(server, AuthorizeAndExecute(server, registry, r, evidence, mint, env).1)
  {
    match MintCapability(evidence, RequestFor(r.config), mint.capabilityId, mint.nonce, mint.now, CAPABILITY_TTL_MS)
    case Failure(_) =>
    case Success(cap) =>
      var minted := Logged(r, MintedEvent(server.isoText, r.config, cap), mint.stamp).(capability := Some(cap));
      assert CallsOk(SettingFor(server, minted), RunWorld(map[], minted));
      FirstCallKeeps(server, registry[cap.id := cap], minted, cap, env);
  }

  // ----- the other events -----

  lemma {:induction false} CreateKeeps(server: Server, registry: RegistryState, i: Creation, mint: MintEnv, env: BeginEnv)
    ensures RunInv(server, CreateRun(server, registry, i, mint, env).1)
  {
    var r := NewRun(server, i);
    if r.config.verdict.outcome == Allow {
      AuthorizeKeeps(
        server, registry, r.(state := Must(r.state, LowRiskPolicyAllow)), PolicyAllow(r.config.verdict), mint, env);
    }
  }

  lemma {:induction false} ApproveKeeps(
    server: Server, registry: RegistryState, r: RunRecord, a: ApprovalEnv, mint: MintEnv, env: BeginEnv)
    requires RunInv(server, r)
    ensures RunInv(server, ApproveRun(server, registry, r, a, mint, env).1)
  {
    if r.state == ApprovalRequired {
      match ConsumeApproval(FreshApproval(r.config, a), ApprovalRequestFor(r.config), a.checkedAt)
      case Failure(_) =>
      case Success(approval) =>
        var approved := Logged(r, ApprovalEvent(r.config, approval), a.stamp)
          .(approval := Some(approval), state := Must(r.state, MatchingApproval));
        assert CallsOk(SettingFor(server, approved), RunWorld(map[], approved));
        AuthorizeKeeps(server, registry, approved, Approved(approval), mint, env);
    }
  }

  /** From a state with an outcome the only way on is by a lookup, and no result leads back. */
  lemma {:induction false} OutcomeStates(s: RunState, result: ActionResult)
    requires s in {Verified, UnknownOutcome, ReconciliationRequired}
    ensures NextState(s, result).Some? ==>
      NextState(s, result).value == s || (s == UnknownOutcome && NextState(s, result).value in {Verified, ReconciliationRequired})
  {
  }

  /** The first result, applied in AUTHORIZED, decides the state. */
  lemma {:induction false} ApplyFirst(r: RunRecord)
    requires CallsInv(r) && StateInv(r) && r.state == Authorized && FirstReturned(r) && 0 !in r.applied
    ensures StateInv(ApplyResult(r, 0))
  {
  }

  lemma {:induction false} ApplyLater(r: RunRecord, c: nat)
    requires CallsInv(r) && StateInv(r) && r.state != Authorized
    requires c < |r.calls| && r.calls[c].phase.Returned? && c !in r.applied
    ensures StateInv(ApplyResult(r, c))
  {
    OutcomeStates(r.state, r.calls[c].phase.result);
  }

  lemma {:induction false} ApplyKeeps(server: Server, r: RunRecord, c: nat)
    requires RunInv(server, r) && c < |r.calls| && r.calls[c].phase.Returned? && c !in r.applied
    ensures RunInv(server, ApplyResult(r, c))
  {
    var r' := ApplyResult(r, c);
    if r.state == Authorized {
      ApplyFirst(r);
    } else {
      ApplyLater(r, c);
    }
    assert RunWorld(map[], r') == RunWorld(map[], r) && SettingFor(server, r') == SettingFor(server, r);
    SameCalls(r, r');
  }

  lemma {:induction false} SameCalls(r: RunRecord, r': RunRecord)
    requires CallsInv(r)
    requires r'.config == r.config && r'.calls == r.calls && r'.store == r.store && r'.callCount == r.callCount
    ensures CallsInv(r')
  {
    forall i | 0 <= i < |r'.calls| ensures ForRun(r', r'.calls[i]) {
      assert ForRun(r, r.calls[i]);
    }
  }

  lemma {:induction false} RunInvStep(server: Server, a: AppState, e: AppEvent)
    requires AppEnabled(server, a, e)
    requires RunIdOf(e) in a.runs ==> RunInv(server, a.runs[RunIdOf(e)])
    ensures RunInv(server, RunStep(server, a, e).1)
  {
    match e
    case Create(creation, mint, begin) => CreateKeeps(server, a.registry, creation, mint, begin);
    case Approve(id, approval, mint, begin) => ApproveKeeps(server, a.registry, a.runs[id], approval, mint, begin);
    case Replay(id, begin) => ReplayKeeps(server, a.registry, a.runs[id], begin);
    case Reconcile(id, begin) => ReconcileKeeps(server, a.registry, a.runs[id], begin);
    case Drift(id) => DriftKeeps(server, a.runs[id]);
    case Verify(id, result, stamp) => VerifyKeeps(server, a.runs[id], result, stamp);
    case Continue(id, event) => LaterKeeps(server, a.registry, a.runs[id], event);
    case Apply(id, c) => ApplyKeeps(server, a.runs[id], c);
  }

  lemma {:induction false} ReplayKeeps(server: Server, registry: RegistryState, r: RunRecord, env: BeginEnv)
    requires RunInv(server, r)
    ensures RunInv(server, ReplayRun(server, registry, r, env).1)
  {
    if r.state == Verified && r.capability.Some? {
      LaterCallKeeps(server, registry, r, r.capability.value, env);
    }
  }

  lemma {:induction false} ReconcileKeeps(server: Server, registry: RegistryState, r: RunRecord, env: BeginEnv)
    requires RunInv(server, r)
    ensures RunInv(server, ReconcileRun(server, registry, r, env).1)
  {
    if (r.state == UnknownOutcome || r.state == ReconciliationRequired) && r.capability.Some? {
      LaterCallKeeps(server, registry, r, r.capability.value, env);
    }
  }

  lemma {:induction false} DriftKeeps(server: Server, r: RunRecord)
    requires RunInv(server, r)
    ensures RunInv(server, SimulateDrift(r))
  {
    assert CallsOk(SettingFor(server, SimulateDrift(r)), RunWorld(map[], SimulateDrift(r)));
  }

  lemma {:induction false} VerifyKeeps(server: Server, r: RunRecord, result: IntegrityResult, stamp: Stamp)
    requires RunInv(server, r)
    ensures RunInv(server, VerifyRunLedger(r, result, stamp))
  {
    assert CallsOk(SettingFor(server, VerifyRunLedger(r, result, stamp)), RunWorld(map[], VerifyRunLedger(r, result, stamp)));
  }

  lemma {:induction false} RunInvEverywhere(server: Server, es: seq<AppEvent>)
    requires AppCanRun(server, AppStart(), es)
    ensures forall id | id in AppRun(server, AppStart(), es).runs :: RunInv(server, AppRun(server, AppStart(), es).runs[id])
  {
    var inv := (r: RunRecord) => RunInv(server, r);
    forall a, e | AppEnabled(server, a, e) && Anything(a, e) && (RunIdOf(e) in a.runs ==> inv(a.runs[RunIdOf(e)]))
      ensures inv(RunStep(server, a, e).1)
    {
      RunInvStep(server, a, e);
    }
    ObeysAnything(server, AppStart(), es);
    EveryRun(server, Anything, inv, AppStart(), es);
  }

  lemma {:induction false} CountTells(r: RunRecord)
    requires CallsInv(r) && StateInv(r)
    ensures r.callCount <= 1
    ensures r.state in {Denied, ApprovalRequired, Stale} ==> r.callCount == 0
    ensures r.state in {Verified, Failed, UnknownOutcome, ReconciliationRequired} ==> r.callCount == 1
    ensures r.state in {Denied, ApprovalRequired, Stale, Authorized, Verified, Failed, UnknownOutcome, ReconciliationRequired}
    ensures r.callCount == 1 <==> exists i :: 0 <= i < |r.calls| && Executed(r.calls[i])
  {
    forall i | 0 <= i < |r.calls| && Executed(r.calls[i]) ensures i == 0 {
      assert i >= 1 ==> Passive(r.calls[i]);
    }
  }

  /**
   Over any number and interleaving of create, approve, replay, reconcile, drift and verify calls,
   and whatever the adapters answer: a run's `execute` count is at most 1, it is 0 where nothing may
   have happened and exactly 1 where something has or may have. No other state but AUTHORIZED is
   ever reached, and there the count tells whether the single attempt has entered the adapter.
   */
  lemma {:induction false} ExecutedAtMostOnce(server: Server, es: seq<AppEvent>, id: string)
    requires AppCanRun(server, AppStart(), es) && id in AppRun(server, AppStart(), es).runs
    ensures var r := AppRun(server, AppStart(), es).runs[id];
      && r.callCount <= 1
      && (r.state in {Denied, ApprovalRequired, Stale} ==> r.callCount == 0)
      && (r.state in {Verified, Failed, UnknownOutcome, ReconciliationRequired} ==> r.callCount == 1)
      && r.state in {Denied, ApprovalRequired, Stale, Authorized, Verified, Failed, UnknownOutcome, ReconciliationRequired}
      && (r.callCount == 1 <==> exists i :: 0 <= i < |r.calls| && Executed(r.calls[i]))
  {
    RunInvEverywhere(server, es);
    CountTells(AppRun(server, AppStart(), es).runs[id]);
  }
}
