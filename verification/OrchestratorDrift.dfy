/** What drift does to a run: over every interleaving, a drifted run never executes. */
module OrchestratorDrift {
  import opened Prelude
  import opened Contracts
  import opened HashChain
  import opened Ledger
  import opened Authority
  import opened Receipts
  import opened Adapters
  import opened Stores
  import opened Gateway
  import opened GatewayProtocol
  import opened GatewayDecisions
  import opened Orchestrator
  import opened OrchestratorRuns
  import opened OrchestratorAuthority

  /** The version has moved exactly if the run drifted, and a run with a call tells which of the two it was. */
  predicate DriftInv(r: RunRecord) {
    && (r.drifted <==> r.resourceVersionNow != r.resourceVersionAtProposal)
    && r.resourceVersionNow >= r.resourceVersionAtProposal
    && (r.drifted && r.calls != [] ==> !Executed(r.calls[0]) && r.calls[0].consumed.None?)
    && (FirstReturned(r) && FirstResult(r).PreconditionFailure? ==>
          r.drifted && FirstResult(r) == PreconditionFailure([PreconditionFailed, ResourceVersionChanged]))
  }

  lemma {:induction false} FirstCallDrift(server: Server, registry: RegistryState, r: RunRecord, cap: Capability, env: BeginEnv)
    requires DriftInv(r) && r.calls == [] && !HasRecord(r) && cap.proposalHash == r.config.proposalHash
    ensures DriftInv(ExecuteForRun(server, registry, r, cap, env).1)
  {
    if Executable(r.config.proposal.actionType) {
      BeginOfDrifted(server, Gate(registry, r.store, r.log), InputFor(r, cap), env);
    }
  }

  /** With the plan unchanged and no record, the version alone decides on a precondition failure. */
  lemma {:induction false} BeginOfDrifted(server: Server, g: Gate, i: CallInput, env: BeginEnv)
    requires KeyOf(i) !in g.store.byKey && i.raw.Some? && i.raw.value.proposalHash == i.currentProposalHash
    ensures var phase := Begin(server.payloadHash, g, i, env.now, env.recheckAt, env.stamp).1;
      && (i.currentResourceVersion != i.expectedResourceVersion ==> !phase.Racing? && !phase.Settled?)
      && (phase.Returned? && phase.result.PreconditionFailure? ==>
            && i.currentResourceVersion != i.expectedResourceVersion
            && phase.result == PreconditionFailure([PreconditionFailed, ResourceVersionChanged]))
  {
    if !Valid(i, env.now) {
      InvalidCapability(server.payloadHash, g, i, env.now, env.recheckAt, env.stamp);
    } else if !Fresh(i, env.now) {
      StalePreconditions(server.payloadHash, g, i, env.now, env.recheckAt, env.stamp);
    } else if !Spendable(g, i.raw.value) {
      UnspendableCapability(server.payloadHash, g, i, env.now, env.recheckAt, env.stamp);
    } else {
      NewAttempt(server.payloadHash, g, i, env.now, env.recheckAt, env.stamp);
    }
  }

  lemma {:induction false} AuthorizeDrift(
    server: Server, registry: RegistryState, r: RunRecord, evidence: Evidence, mint: MintEnv, env: BeginEnv)
    requires DriftInv(r) && r.calls == [] && !HasRecord(r)
    ensures DriftInv(AuthorizeAndExecute(server, registry, r, evidence, mint, env).1)
  {
    match MintCapability(evidence, RequestFor(r.config), mint.capabilityId, mint.nonce, mint.now, CAPABILITY_TTL_MS)
    case Failure(_) =>
    case Success(cap) =>
      var minted := Logged(r, MintedEvent(server.isoText, r.config, cap), mint.stamp).(capability := Some(cap));
      FirstCallDrift(server, registry[cap.id := cap], minted, cap, env);
  }

  /** A call that is not the first leaves the first as it is. */
  lemma {:induction false} LaterCallDrift(server: Server, registry: RegistryState, r: RunRecord, cap: Capability, env: BeginEnv)
    requires DriftInv(r) && r.calls != [] && CallsOk(SettingFor(server, r), RunWorld(map[], r))
    ensures DriftInv(ExecuteForRun(server, registry, r, cap, env).1)
  {
    if Executable(r.config.proposal.actionType) {
      BeginAdds(server, registry, r, cap, env);
      var r' := ExecuteForRun(server, registry, r, cap, env).1;
      assert r'.calls[0] == r'.calls[..|r.calls|][0];
    }
  }

  lemma {:induction false} PieceDrift(server: Server, registry: RegistryState, r: RunRecord, e: Event)
    requires RunInv(server, r) && DriftInv(r) && LaterPiece(e) && Enabled(RunWorld(registry, r), e)
    ensures DriftInv(GatewayStep(server, registry, r, e).1)
  {
    var s, w := SettingFor(server, r), RunWorld(registry, r);
    CallsOkAnyRegistry(s, RunWorld(map[], r), registry);
    LaterCalls(s, w, e);
    assert CallOk(s, w.calls[0]);
    if e.FinishCall? && e.c == 0 {
      var p := w.calls[0].phase;
      FinishReturns(w.gate, w.calls[0].input, p.capability, p.payloadHash, p.outcome, e.stamp);
    }
    FirstMoves(s, w, e);
  }

  /** The first call returns by finishing only, or had returned before. */
  lemma {:induction false} FirstMoves(s: Setting, w: World, e: Event)
    requires CallsOk(s, w) && Enabled(w, e) && LaterPiece(e) && w.calls != []
    ensures var w' := Step(s, w, e);
      && |w'.calls| == |w.calls|
      && (w'.calls[0].phase.Returned? && w'.calls[0].phase != w.calls[0].phase ==> (e.FinishCall? || e.FinishReconcile?) && e.c == 0)
      && (e.FinishReconcile? && e.c == 0 ==> w.calls[0].phase.LookedUp?)
  {
  }

  lemma {:induction false} StepDrift(server: Server, a: AppState, e: AppEvent)
    requires AppEnabled(server, a, e)
    requires RunIdOf(e) in a.runs ==> AuthorityInv(server, a.runs[RunIdOf(e)]) && DriftInv(a.runs[RunIdOf(e)])
    ensures DriftInv(RunStep(server, a, e).1)
  {
    match e
    case Create(creation, mint, begin) => CreateDrift(server, a.registry, creation, mint, begin);
    case Approve(id, approval, mint, begin) => ApproveDrift(server, a.registry, a.runs[id], approval, mint, begin);
    case Replay(id, begin) => AgainDrift(server, a.registry, a.runs[id], begin);
    case Reconcile(id, begin) => AgainDrift(server, a.registry, a.runs[id], begin);
    case Drift(id) => OtherDrift(a.runs[id]);
    case Verify(id, result, stamp) =>
    case Continue(id, event) => PieceDrift(server, a.registry, a.runs[id], event);
    case Apply(id, c) => ApplyDrift(a.runs[id], c);
  }

  lemma {:induction false} CreateDrift(server: Server, registry: RegistryState, i: Creation, mint: MintEnv, env: BeginEnv)
    ensures DriftInv(CreateRun(server, registry, i, mint, env).1)
  {
    var r := NewRun(server, i);
    if r.config.verdict.outcome == Allow {
      AuthorizeDrift(
        server, registry, r.(state := Must(r.state, LowRiskPolicyAllow)), PolicyAllow(r.config.verdict), mint, env);
    }
  }

  /** Drift itself, in the one state it is allowed in. */
  lemma {:induction false} OtherDrift(r: RunRecord)
    requires StateInv(r) && DriftInv(r)
    ensures DriftInv(SimulateDrift(r))
  {
  }

  lemma {:induction false} ApplyDrift(r: RunRecord, c: nat)
    requires DriftInv(r) && c < |r.calls| && r.calls[c].phase.Returned?
    ensures DriftInv(ApplyResult(r, c))
  {
  }

  lemma {:induction false} ApproveDrift(
    server: Server, registry: RegistryState, r: RunRecord, a: ApprovalEnv, mint: MintEnv, env: BeginEnv)
    requires RunInv(server, r) && DriftInv(r)
    ensures DriftInv(ApproveRun(server, registry, r, a, mint, env).1)
  {
    if r.state == ApprovalRequired && ConsumeApproval(FreshApproval(r.config, a), ApprovalRequestFor(r.config), a.checkedAt).Success? {
      var approval := ConsumeApproval(FreshApproval(r.config, a), ApprovalRequestFor(r.config), a.checkedAt).value;
      AuthorizeDrift(
        server, registry,
        Logged(r, ApprovalEvent(r.config, approval), a.stamp)
          .(approval := Some(approval), state := Must(r.state, MatchingApproval)),
        Approved(approval), mint, env);
    }
  }

  lemma {:induction false} AgainDrift(server: Server, registry: RegistryState, r: RunRecord, env: BeginEnv)
    requires AuthorityInv(server, r) && DriftInv(r)
    ensures DriftInv(ReplayRun(server, registry, r, env).1)
    ensures DriftInv(ReconcileRun(server, registry, r, env).1)
  {
    if r.state in {Verified, UnknownOutcome, ReconciliationRequired} && r.capability.Some? {
      LaterCallDrift(server, registry, r, r.capability.value, env);
    }
  }

  lemma {:induction false} DriftEverywhere(server: Server, es: seq<AppEvent>)
    requires AppCanRun(server, AppStart(), es)
    ensures forall id | id in AppRun(server, AppStart(), es).runs ::
      AuthorityInv(server, AppRun(server, AppStart(), es).runs[id]) && DriftInv(AppRun(server, AppStart(), es).runs[id])
  {
    var inv := (r: RunRecord) => AuthorityInv(server, r) && DriftInv(r);
    forall a, e | AppEnabled(server, a, e) && Anything(a, e) && (RunIdOf(e) in a.runs ==> inv(a.runs[RunIdOf(e)]))
      ensures inv(RunStep(server, a, e).1)
    {
      RunAuthority(server, a, e);
      StepDrift(server, a, e);
    }
    ObeysAnything(server, AppStart(), es);
    EveryRun(server, Anything, inv, AppStart(), es);
  }

  lemma {:induction false} DriftTells(r: RunRecord)
    requires CallsInv(r) && StateInv(r) && DriftInv(r)
    ensures r.drifted ==> r.callCount == 0 && r.state in {Denied, ApprovalRequired, Authorized, Stale}
    ensures r.state == Stale ==>
      r.drifted && FirstReturned(r) && FirstResult(r) == PreconditionFailure([PreconditionFailed, ResourceVersionChanged])
  {
    if r.calls != [] {
      assert FirstOk(r.calls[0], HasRecord(r));
    }
  }

  /**
   Over every interleaving, with any adapter: a run's resource version has moved exactly if the run has
   drifted; a drifted run never enters `execute` and never gets an outcome; and a run is STALE only if it
   has drifted, with the version named as the reason.
   */
  lemma {:induction false} DriftedNeverExecutes(server: Server, es: seq<AppEvent>, id: string)
    requires AppCanRun(server, AppStart(), es) && id in AppRun(server, AppStart(), es).runs
    ensures var r := AppRun(server, AppStart(), es).runs[id];
      && (r.drifted <==> r.resourceVersionNow != r.resourceVersionAtProposal)
      && (r.drifted ==> r.callCount == 0 && r.state in {Denied, ApprovalRequired, Authorized, Stale})
      && (r.state == Stale ==>
            && r.drifted && FirstReturned(r)
            && FirstResult(r) == PreconditionFailure([PreconditionFailed, ResourceVersionChanged]))
  {
    DriftEverywhere(server, es);
    DriftTells(AppRun(server, AppStart(), es).runs[id]);
  }

  /** An approval and an execution attempt in time, with well-formed ids, for an action with an execution path. */
  predicate InTime(r: RunRecord, a: ApprovalEnv, mint: MintEnv, env: BeginEnv) {
    && Executable(r.config.proposal.actionType)
    && a.checkedAt < a.builtAt + 600_000 && env.now < mint.now + 60_000
    && mint.capabilityId != "" && mint.nonce != ""
    && r.config.principal.id != "" && r.config.proposal.resourceId != "" && r.config.proposalHash != ""
  }

  lemma {:induction false} DriftedCall(server: Server, registry: RegistryState, r: RunRecord, cap: Capability, env: BeginEnv)
    requires Executable(r.config.proposal.actionType) && r.calls == [] && r.state == Authorized
    requires r.resourceVersionNow != r.resourceVersionAtProposal && Valid(InputFor(r, cap), env.now)
    requires cap.proposalHash == r.config.proposalHash
    ensures var r' := ExecuteForRun(server, registry, r, cap, env).1;
      && |r'.calls| == 1 && r'.calls[0].phase == Returned(PreconditionFailure([PreconditionFailed, ResourceVersionChanged]))
      && r'.state == Authorized && r'.callCount == r.callCount
      && ApplyResult(r', 0).state == Stale && ApplyResult(r', 0).callCount == r.callCount
  {
    StalePreconditions(
      server.payloadHash, Gate(registry, r.store, r.log), InputFor(r, cap), env.now, env.recheckAt, env.stamp);
  }

  lemma {:induction false} DriftedStops(
    server: Server, registry: RegistryState, r: RunRecord, a: ApprovalEnv, mint: MintEnv, env: BeginEnv)
    requires RunInv(server, r) && DriftInv(r) && r.state == ApprovalRequired && r.drifted && InTime(r, a, mint, env)
    ensures var r' := ApproveRun(server, registry, r, a, mint, env).1;
      && |r'.calls| == 1 && r'.calls[0].phase == Returned(PreconditionFailure([PreconditionFailed, ResourceVersionChanged]))
      && ApplyResult(r', 0).state == Stale && ApplyResult(r', 0).callCount == r.callCount
  {
    var approval := ConsumeApproval(FreshApproval(r.config, a), ApprovalRequestFor(r.config), a.checkedAt).value;
    var approved := Logged(r, ApprovalEvent(r.config, approval), a.stamp)
      .(approval := Some(approval), state := Must(r.state, MatchingApproval));
    var cap := MintCapability(
      Approved(approval), RequestFor(r.config), mint.capabilityId, mint.nonce, mint.now, CAPABILITY_TTL_MS).value;
    var minted := Logged(approved, MintedEvent(server.isoText, r.config, cap), mint.stamp).(capability := Some(cap));
    DriftedCall(server, registry[cap.id := cap], minted, cap, env);
  }

  /** Over every interleaving: a drifted run that is approved in time fails its preconditions and ends STALE. */
  lemma {:induction false} DriftedIsStopped(
    server: Server, es: seq<AppEvent>, id: string, a: ApprovalEnv, mint: MintEnv, env: BeginEnv)
    requires AppCanRun(server, AppStart(), es) && id in AppRun(server, AppStart(), es).runs
    requires var r := AppRun(server, AppStart(), es).runs[id];
      r.state == ApprovalRequired && r.drifted && InTime(r, a, mint, env)
    ensures var app := AppRun(server, AppStart(), es);
      var r' := ApproveRun(server, app.registry, app.runs[id], a, mint, env).1;
      && |r'.calls| == 1 && r'.calls[0].phase == Returned(PreconditionFailure([PreconditionFailed, ResourceVersionChanged]))
      && ApplyResult(r', 0).state == Stale && ApplyResult(r', 0).callCount == 0
  {
    DriftEverywhere(server, es);
    var app := AppRun(server, AppStart(), es);
    DriftTells(app.runs[id]);
    DriftedStops(server, app.registry, app.runs[id], a, mint, env);
  }
}
