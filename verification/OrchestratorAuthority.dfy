/**
 The authority behind every effect of a run, and the soundness of every run's ledger, over every
 interleaving.
 */
module OrchestratorAuthority {
  import opened Prelude
  import opened Json
  import opened CanonicalHash
  import opened Contracts
  import opened HashChain
  import opened Ledger
  import opened Authority
  import opened Receipts
  import opened Adapters
  import opened Stores
  import opened Gateway
  import opened GatewayObjects
  import opened GatewayProtocol
  import opened Orchestrator
  import opened OrchestratorRuns

  // ----- what the gateway adds to a ledger -----

  /** At most one event more, with a plain payload and about operation `op`. */
  ghost predicate AddsOwn(before: seq<Appended>, after: seq<Appended>, op: string) {
    || after == before
    || (&& |after| == |before| + 1 && after[..|before|] == before
        && Plain(Obj(after[|before|].input.payload)) && after[|before|].input.operationId == Some(op))
  }

  lemma {:induction false} BeginLogsOwn(payloadHash: Params -> string, g: Gate, i: CallInput, now: int, recheckAt: int, stamp: Stamp)
    ensures AddsOwn(g.log, Begin(payloadHash, g, i, now, recheckAt, stamp).0.log, i.operation.operationId)
  {
    var op := i.operation.operationId;
    ReasonCodePlain("IDEMPOTENCY_KEY_PAYLOAD_MISMATCH");
    ReasonCodePlain("IDEMPOTENT_REPLAY");
    StartedPlain(i.request.actionType);
    match ParseAndValidate(i.raw, i.request, now)
    case Failure(_) =>
    case Success(c) =>
      ReasonCodesPlain(CheckPreconditions(c, i.currentProposalHash, i.currentResourceVersion, i.expectedResourceVersion));
  }

  lemma {:induction false} FinalizeAdds(
    g: Gate, i: CallInput, receipt: Receipt, hash: string, capabilityId: string, reconciled: bool, stamp: Stamp)
    ensures AddsOwn(g.log, Finalize(g, i, receipt, hash, capabilityId, reconciled, stamp).0.log, i.operation.operationId)
  {
    ReasonCodePlain("POSTCONDITION_UNVERIFIED");
    ReasonCodePlain("RECONCILED_SUCCESS");
    EmptyPlain();
  }

  lemma {:induction false} StepAdds(s: Setting, w: World, e: Event, op: string)
    requires Enabled(w, e)
    requires forall i | 0 <= i < |w.calls| :: w.calls[i].input.operation.operationId == op
    requires e.BeginCall? ==> e.input.operation.operationId == op
    ensures AddsOwn(w.gate.log, Step(s, w, e).gate.log, op)
  {
    match e
    case BeginCall(i, now, recheckAt, stamp) => BeginLogsOwn(s.payloadHash, w.gate, i, now, recheckAt, stamp);
    case FinishCall(c, stamp) => FinishAdds(w.gate, w.calls[c], stamp);
    case FinishReconcile(c, stamp) => FinishLookupAdds(w.gate, w.calls[c], stamp);
    case _ =>
  }

  lemma {:induction false} FinishAdds(g: Gate, c: Call, stamp: Stamp)
    requires c.phase.Settled?
    ensures var p := c.phase;
      AddsOwn(g.log, Finish(g, c.input, p.capability, p.payloadHash, p.outcome, stamp).0.log, c.input.operation.operationId)
  {
    ReasonCodePlain("UNKNOWN_OUTCOME");
    var p := c.phase;
    if p.outcome.Resolved? {
      FinalizeAdds(g, c.input, p.outcome.receipt, p.payloadHash, p.capability.id, false, stamp);
    }
  }

  lemma {:induction false} FinishLookupAdds(g: Gate, c: Call, stamp: Stamp)
    requires c.phase.LookedUp?
    ensures var p := c.phase;
      AddsOwn(g.log, FinishLookup(g, c.input, p.prior, p.found, stamp).0.log, c.input.operation.operationId)
  {
    ReasonCodePlain("UNKNOWN_OUTCOME");
    var p := c.phase;
    if p.found.Some? {
      FinalizeAdds(g, c.input, p.found.value, p.prior.payloadHash, p.prior.capabilityId, true, stamp);
    }
  }

  // ----- what the orchestrator adds -----

  lemma {:induction false} TextsPlain(a: string, s: string, b: string, t: string)
    requires NamedKey(a) && NamedKey(b) && a != b
    ensures Plain(Obj(Compact([TextOf(a, s), TextOf(b, t)])))
  {
    var slots := [TextOf(a, s), TextOf(b, t)];
    assert Plain(Str(s)) && Plain(Str(t));
    CompactPlain(slots);
  }

  lemma {:induction false} ProposalEventPlain(i: Creation)
    ensures Plain(Obj(ProposalEvent(i).payload))
  {
    TextsPlain("goal", i.goal, "raw", i.raw);
  }

  lemma {:induction false} PolicyEventPlain(i: Creation, v: PolicyVerdict)
    ensures Plain(Obj(PolicyEvent(i, v).payload))
  {
    var slots := [TextOf("outcome", OutcomeName(v.outcome)), Slot("reasonCodes", Some(Arr(PolicyReasonNames(v.reasonCodes))))];
    assert Plain(Str(OutcomeName(v.outcome))) && Plain(Arr(PolicyReasonNames(v.reasonCodes)));
    assert slots[0].key[0] == 'o' && slots[1].key[0] == 'r';
    CompactPlain(slots);
  }

  lemma {:induction false} ApprovalEventPlain(c: RunConfig, a: Approval)
    ensures Plain(Obj(ApprovalEvent(c, a).payload))
  {
    TextsPlain("actionType", ActionName(a.scopeAction), "resourceId", a.scopeResource);
    var slots := [TextOf("proposalHash", a.proposalHash), Slot("scope", Some(Obj(Compact(ScopeSlots(a)))))];
    assert slots[0].key[0] == 'p' && slots[1].key[0] == 's';
    assert Plain(Str(a.proposalHash));
    CompactPlain(slots);
  }

  lemma {:induction false} MintedEventPlain(isoText: int -> string, c: RunConfig, cap: Capability)
    ensures Plain(Obj(MintedEvent(isoText, c, cap).payload))
  {
    var slots := [TextOf("actionType", ActionName(cap.actionType)), TextOf("resourceId", cap.resourceId),
                  TextOf("expiresAt", ExpiryText(isoText, cap.expiresAt))];
    assert slots[0].key[0] == 'a' && slots[1].key[0] == 'r' && slots[2].key[0] == 'e';
    forall i | 0 <= i < |slots| ensures Plain(slots[i].value.value) {
      assert slots[i].value.value.Str?;
    }
    CompactPlain(slots);
  }

  lemma {:induction false} IntegrityEventPlain(c: RunConfig, r: IntegrityResult)
    ensures Plain(Obj(IntegrityEvent(c, r).payload))
  {
    var slots := IntegritySlots(r);
    assert slots[0].key[0] == 'o' && (slots[1].key[0] == if r.Intact? then 'c' else 'r') && (r.Broken? ==> slots[2].key[0] == 'b');
    forall i | 0 <= i < |slots| ensures Plain(slots[i].value.value) {
      assert slots[i].value.value.Str? || slots[i].value.value.Num? || slots[i].value.value.Bool?;
    }
    CompactPlain(slots);
  }

  // ----- the invariant -----

  function EvidenceOf(r: RunRecord): Evidence {
    if r.approval.Some? then Approved(r.approval.value) else PolicyAllow(r.config.verdict)
  }

  /** The capability is one for this run's plan, and without an approval policy allowed it outright. */
  predicate CapabilityForPlan(r: RunRecord) {
    && r.capability.Some?
    && r.capability.value.principalId == r.config.principal.id
    && r.capability.value.actionType == r.config.proposal.actionType
    && r.capability.value.resourceId == r.config.proposal.resourceId
    && r.capability.value.proposalHash == r.config.proposalHash
    && r.capability.value.status == Active && r.capability.value.expiresAt.At?
    && (r.approval.None? ==> r.config.verdict.outcome == Allow)
  }

  /** The approval is a consumed one for this run's plan. */
  predicate ApprovalForPlan(r: RunRecord) {
    && r.approval.Some? && r.approval.value.status == ApprovalConsumed
    && r.approval.value.proposalHash == r.config.proposalHash
    && r.approval.value.scopeAction == r.config.proposal.actionType
    && r.approval.value.scopeResource == r.config.proposal.resourceId
  }

  /** The ledger tells the approval before the minting. */
  predicate ToldAt(isoText: int -> string, r: RunRecord, i: nat, j: nat) {
    && r.approval.Some? && r.capability.Some? && i < j < |r.log|
    && r.log[i].input == ApprovalEvent(r.config, r.approval.value)
    && r.log[j].input == MintedEvent(isoText, r.config, r.capability.value)
  }

  ghost predicate LogOk(log: seq<Appended>, op: string) {
    forall i | 0 <= i < |log| :: Plain(Obj(log[i].input.payload)) && log[i].input.operationId == Some(op)
  }

  /** Every call of the run presents the run's own capability. */
  predicate Presents(r: RunRecord, c: Call) {
    && c.input.raw == r.capability
    && (c.exec.InFlight? || c.exec.Fired? ==> r.capability == Some(c.exec.capability))
    && (c.phase.Racing? ==> r.capability == Some(c.phase.capability))
  }

  ghost predicate AuthorityInv(server: Server, r: RunRecord) {
    && RunInv(server, r)
    && LogOk(r.log, r.config.operationId)
    && (r.config.verdict.outcome == Allow ==> r.config.proposal.actionType in {CreateInternalTicket, UpdateTicketStatus})
    && r.config.proposalHash == server.planHash(r.config.proposal)
    && (r.capability.Some? ==> CapabilityForPlan(r))
    && (r.approval.Some? ==> ApprovalForPlan(r))
    && (r.approval.Some? && r.capability.Some? ==> exists i: nat, j: nat :: ToldAt(server.isoText, r, i, j))
    && (forall i | 0 <= i < |r.calls| :: Presents(r, r.calls[i]))
    && (r.state in {Denied, ApprovalRequired} ==> r.capability.None? && r.approval.None?)
  }

  // ----- it is kept -----

  lemma {:induction false} LogGrows(before: seq<Appended>, after: seq<Appended>, op: string)
    requires LogOk(before, op) && AddsOwn(before, after, op)
    ensures LogOk(after, op)
  {
    forall i | 0 <= i < |after| ensures Plain(Obj(after[i].input.payload)) && after[i].input.operationId == Some(op) {
      if i < |before| {
        assert after[i] == after[..|before|][i];
      }
    }
  }

  /** A longer ledger, a move of the calls, nothing else: the evidence stands. */
  lemma {:induction false} EvidenceStands(server: Server, r: RunRecord, r': RunRecord)
    requires AuthorityInv(server, r) && RunInv(server, r')
    requires r'.config == r.config && r'.approval == r.approval && r'.capability == r.capability
    requires r'.state in {Denied, ApprovalRequired} ==> r.state in {Denied, ApprovalRequired}
    requires AddsOwn(r.log, r'.log, r.config.operationId)
    requires forall i | 0 <= i < |r'.calls| :: Presents(r', r'.calls[i])
    ensures AuthorityInv(server, r')
  {
    LogGrows(r.log, r'.log, r.config.operationId);
    if r.approval.Some? && r.capability.Some? {
      var i: nat, j: nat :| ToldAt(server.isoText, r, i, j);
      if r'.log != r.log {
        assert r'.log[i] == r'.log[..|r.log|][i] && r'.log[j] == r'.log[..|r.log|][j];
      }
      assert ToldAt(server.isoText, r', i, j);
    }
  }

  lemma {:induction false} LaterPresents(server: Server, registry: RegistryState, r: RunRecord, e: Event)
    requires AuthorityInv(server, r) && LaterPiece(e) && Enabled(RunWorld(registry, r), e)
    ensures var r' := GatewayStep(server, registry, r, e).1;
      |r'.calls| == |r.calls| && forall i | 0 <= i < |r'.calls| :: Presents(r', r'.calls[i])
  {
    var s, w := SettingFor(server, r), RunWorld(registry, r);
    CallsOkAnyRegistry(s, RunWorld(map[], r), registry);
    LaterCalls(s, w, e);
    var r' := GatewayStep(server, registry, r, e).1;
    forall i | 0 <= i < |r'.calls| ensures Presents(r', r'.calls[i]) {
      assert Presents(r, r.calls[i]);
      SameExec(s, w, e, i);
    }
  }

  /** Firing an effect does not change which capability a call presented. */
  lemma {:induction false} SameExec(s: Setting, w: World, e: Event, i: nat)
    requires CallsOk(s, w) && Enabled(w, e) && LaterPiece(e) && i < |w.calls| == |Step(s, w, e).calls|
    ensures var c, c' := w.calls[i], Step(s, w, e).calls[i];
      && c'.input == c.input
      && (c'.exec == NotCalled <==> c.exec == NotCalled)
      && (c'.exec != NotCalled ==> c'.exec.capability == c.exec.capability)
      && (c'.phase.Racing? ==> c'.phase == c.phase)
  {
  }

  lemma {:induction false} LaterAuthority(server: Server, registry: RegistryState, r: RunRecord, e: Event)
    requires AuthorityInv(server, r) && LaterPiece(e) && Enabled(RunWorld(registry, r), e)
    ensures AuthorityInv(server, GatewayStep(server, registry, r, e).1)
  {
    LaterKeeps(server, registry, r, e);
    LaterPresents(server, registry, r, e);
    forall i | 0 <= i < |r.calls| ensures r.calls[i].input.operation.operationId == r.config.operationId {
      assert ForRun(r, r.calls[i]);
    }
    StepAdds(SettingFor(server, r), RunWorld(registry, r), e, r.config.operationId);
    EvidenceStands(server, r, GatewayStep(server, registry, r, e).1);
  }

  /** A call begun with the run's own capability presents it. */
  lemma {:induction false} BeginPresents(server: Server, registry: RegistryState, r: RunRecord, cap: Capability, env: BeginEnv)
    requires CallsOk(SettingFor(server, r), RunWorld(map[], r)) && r.capability == Some(cap)
    requires Executable(r.config.proposal.actionType)
    ensures var r' := ExecuteForRun(server, registry, r, cap, env).1;
      |r'.calls| == |r.calls| + 1 && Presents(r', r'.calls[|r.calls|])
  {
    BeginEffect(SettingFor(server, r), Gate(registry, r.store, r.log), InputFor(r, cap), env.now, env.recheckAt, env.stamp);
  }

  lemma {:induction false} CallAuthority(server: Server, registry: RegistryState, r: RunRecord, cap: Capability, env: BeginEnv)
    requires AuthorityInv(server, r) && r.capability == Some(cap)
    requires RunInv(server, ExecuteForRun(server, registry, r, cap, env).1)
    ensures AuthorityInv(server, ExecuteForRun(server, registry, r, cap, env).1)
  {
    if Executable(r.config.proposal.actionType) {
      var r' := ExecuteForRun(server, registry, r, cap, env).1;
      BeginAdds(server, registry, r, cap, env);
      BeginPresents(server, registry, r, cap, env);
      BeginLogsOwn(server.payloadHash, Gate(registry, r.store, r.log), InputFor(r, cap), env.now, env.recheckAt, env.stamp);
      forall i | 0 <= i < |r'.calls| ensures Presents(r', r'.calls[i]) {
        if i < |r.calls| {
          assert r'.calls[i] == r'.calls[..|r.calls|][i];
          assert Presents(r, r.calls[i]);
        }
      }
      EvidenceStands(server, r, r');
    }
  }

  /** The run just before its capability is minted. */
  ghost predicate ReadyToMint(server: Server, r: RunRecord, evidence: Evidence) {
    && RunInv(server, r) && r.state == Authorized && r.calls == [] && r.capability.None?
    && LogOk(r.log, r.config.operationId)
    && (r.config.verdict.outcome == Allow ==> r.config.proposal.actionType in {CreateInternalTicket, UpdateTicketStatus})
    && r.config.proposalHash == server.planHash(r.config.proposal)
    && (r.approval.Some? ==> ApprovalForPlan(r))
    && (r.approval.Some? ==> r.log != [] && r.log[|r.log| - 1].input == ApprovalEvent(r.config, r.approval.value))
    && evidence == EvidenceOf(r)
  }

  lemma {:induction false} MintAuthority(
    server: Server, registry: RegistryState, r: RunRecord, evidence: Evidence, mint: MintEnv, env: BeginEnv)
    requires ReadyToMint(server, r, evidence)
    ensures AuthorityInv(server, AuthorizeAndExecute(server, registry, r, evidence, mint, env).1)
  {
    AuthorizeKeeps(server, registry, r, evidence, mint, env);
    match MintCapability(evidence, RequestFor(r.config), mint.capabilityId, mint.nonce, mint.now, CAPABILITY_TTL_MS)
    case Failure(_) =>
    case Success(cap) =>
      MintedAuthority(server, r, evidence, mint, cap);
      var minted := Logged(r, MintedEvent(server.isoText, r.config, cap), mint.stamp).(capability := Some(cap));
      FirstCallKeeps(server, registry[cap.id := cap], minted, cap, env);
      CallAuthority(server, registry[cap.id := cap], minted, cap, env);
  }

  lemma {:induction false} MintedAuthority(server: Server, r: RunRecord, evidence: Evidence, mint: MintEnv, cap: Capability)
    requires ReadyToMint(server, r, evidence)
    requires MintCapability(evidence, RequestFor(r.config), mint.capabilityId, mint.nonce, mint.now, CAPABILITY_TTL_MS) == Success(cap)
    ensures AuthorityInv(server, Logged(r, MintedEvent(server.isoText, r.config, cap), mint.stamp).(capability := Some(cap)))
  {
    var minted := Logged(r, MintedEvent(server.isoText, r.config, cap), mint.stamp).(capability := Some(cap));
    assert CallsOk(SettingFor(server, minted), RunWorld(map[], minted));
    MintedEventPlain(server.isoText, r.config, cap);
    LogGrows(r.log, minted.log, r.config.operationId);
    if r.approval.Some? {
      assert ToldAt(server.isoText, minted, |r.log| - 1, |r.log|);
    }
  }

  lemma {:induction false} VerdictKnowsAction(i: Creation, principal: Principal)
    ensures EvaluatePolicy(PolicyInputFor(i, principal)).outcome == Allow ==>
      i.proposal.actionType in {CreateInternalTicket, UpdateTicketStatus}
  {
    PolicyExact(PolicyInputFor(i, principal));
    ActionNameInjective(i.proposal.actionType, CreateInternalTicket);
    ActionNameInjective(i.proposal.actionType, UpdateTicketStatus);
  }

  lemma {:induction false} NewRunLog(server: Server, i: Creation)
    ensures LogOk(NewRun(server, i).log, i.operationId)
  {
    ProposalEventPlain(i);
    PolicyEventPlain(i, NewRun(server, i).config.verdict);
  }

  lemma {:induction false} NewRunReady(server: Server, i: Creation)
    requires NewRun(server, i).config.verdict.outcome == Allow
    ensures var r := NewRun(server, i);
      ReadyToMint(server, r.(state := Must(r.state, LowRiskPolicyAllow)), PolicyAllow(r.config.verdict))
  {
    var r := NewRun(server, i);
    NewRunLog(server, i);
    VerdictKnowsAction(i, r.config.principal);
    var allowed := r.(state := Must(r.state, LowRiskPolicyAllow));
    assert CallsOk(SettingFor(server, allowed), RunWorld(map[], allowed));
  }

  lemma {:induction false} NewRunAuthority(server: Server, i: Creation, state: RunState)
    requires NewRun(server, i).config.verdict.outcome != Allow && state in {Denied, ApprovalRequired}
    ensures AuthorityInv(server, NewRun(server, i).(state := state))
  {
    var r := NewRun(server, i).(state := state);
    NewRunLog(server, i);
    assert CallsOk(SettingFor(server, r), RunWorld(map[], r));
  }

  lemma {:induction false} CreateAuthority(server: Server, registry: RegistryState, i: Creation, mint: MintEnv, env: BeginEnv)
    ensures AuthorityInv(server, CreateRun(server, registry, i, mint, env).1)
  {
    var r := NewRun(server, i);
    match r.config.verdict.outcome
    case Allow =>
      NewRunReady(server, i);
      MintAuthority(
        server, registry, r.(state := Must(r.state, LowRiskPolicyAllow)), PolicyAllow(r.config.verdict), mint, env);
    case Deny => NewRunAuthority(server, i, Denied);
    case RequireApproval => NewRunAuthority(server, i, ApprovalRequired);
  }

  lemma {:induction false} ApproveAuthority(
    server: Server, registry: RegistryState, r: RunRecord, a: ApprovalEnv, mint: MintEnv, env: BeginEnv)
    requires AuthorityInv(server, r)
    ensures AuthorityInv(server, ApproveRun(server, registry, r, a, mint, env).1)
  {
    if r.state == ApprovalRequired {
      match ConsumeApproval(FreshApproval(r.config, a), ApprovalRequestFor(r.config), a.checkedAt)
      case Failure(_) =>
      case Success(approval) =>
        var approved := Logged(r, ApprovalEvent(r.config, approval), a.stamp)
          .(approval := Some(approval), state := Must(r.state, MatchingApproval));
        assert CallsOk(SettingFor(server, approved), RunWorld(map[], approved));
        ApprovalEventPlain(r.config, approval);
        LogGrows(r.log, approved.log, r.config.operationId);
        assert approval.(status := ApprovalActive) == FreshApproval(r.config, a);
        MintAuthority(server, registry, approved, Approved(approval), mint, env);
    }
  }

  lemma {:induction false} LaterCallAuthority(server: Server, registry: RegistryState, r: RunRecord, env: BeginEnv)
    requires AuthorityInv(server, r) && r.state in {Verified, UnknownOutcome, ReconciliationRequired} && r.capability.Some?
    ensures AuthorityInv(server, ExecuteForRun(server, registry, r, r.capability.value, env).1)
  {
    LaterCallKeeps(server, registry, r, r.capability.value, env);
    CallAuthority(server, registry, r, r.capability.value, env);
  }

  lemma {:induction false} QuietAuthority(server: Server, r: RunRecord, r': RunRecord)
    requires AuthorityInv(server, r) && RunInv(server, r')
    requires r'.config == r.config && r'.approval == r.approval && r'.capability == r.capability && r'.calls == r.calls
    requires r'.state in {Denied, ApprovalRequired} ==> r.state in {Denied, ApprovalRequired}
    requires AddsOwn(r.log, r'.log, r.config.operationId)
    ensures AuthorityInv(server, r')
  {
    forall i | 0 <= i < |r'.calls| ensures Presents(r', r'.calls[i]) {
      assert Presents(r, r.calls[i]);
    }
    EvidenceStands(server, r, r');
  }

  lemma {:induction false} ApplyAuthority(server: Server, r: RunRecord, c: nat)
    requires AuthorityInv(server, r) && c < |r.calls| && r.calls[c].phase.Returned? && c !in r.applied
    ensures AuthorityInv(server, ApplyResult(r, c))
  {
    ApplyKeeps(server, r, c);
    QuietAuthority(server, r, ApplyResult(r, c));
  }

  lemma {:induction false} VerifyAuthority(server: Server, r: RunRecord, result: IntegrityResult, stamp: Stamp)
    requires AuthorityInv(server, r)
    ensures AuthorityInv(server, VerifyRunLedger(r, result, stamp))
  {
    VerifyKeeps(server, r, result, stamp);
    IntegrityEventPlain(r.config, result);
    QuietAuthority(server, r, VerifyRunLedger(r, result, stamp));
  }

  lemma {:induction false} DriftAuthority(server: Server, r: RunRecord)
    requires AuthorityInv(server, r)
    ensures AuthorityInv(server, SimulateDrift(r))
  {
    DriftKeeps(server, r);
    QuietAuthority(server, r, SimulateDrift(r));
  }

  lemma {:induction false} ReplayAuthority(server: Server, registry: RegistryState, r: RunRecord, env: BeginEnv)
    requires AuthorityInv(server, r)
    ensures AuthorityInv(server, ReplayRun(server, registry, r, env).1)
  {
    if r.state == Verified && r.capability.Some? {
      LaterCallAuthority(server, registry, r, env);
    }
  }

  lemma {:induction false} ReconcileAuthority(server: Server, registry: RegistryState, r: RunRecord, env: BeginEnv)
    requires AuthorityInv(server, r)
    ensures AuthorityInv(server, ReconcileRun(server, registry, r, env).1)
  {
    if (r.state == UnknownOutcome || r.state == ReconciliationRequired) && r.capability.Some? {
      LaterCallAuthority(server, registry, r, env);
    }
  }

  lemma {:induction false} RunAuthority(server: Server, a: AppState, e: AppEvent)
    requires AppEnabled(server, a, e)
    requires RunIdOf(e) in a.runs ==> AuthorityInv(server, a.runs[RunIdOf(e)])
    ensures AuthorityInv(server, RunStep(server, a, e).1)
  {
    match e
    case Create(creation, mint, begin) => CreateAuthority(server, a.registry, creation, mint, begin);
    case Approve(id, approval, mint, begin) => ApproveAuthority(server, a.registry, a.runs[id], approval, mint, begin);
    case Replay(id, begin) => ReplayAuthority(server, a.registry, a.runs[id], begin);
    case Reconcile(id, begin) => ReconcileAuthority(server, a.registry, a.runs[id], begin);
    case Drift(id) => DriftAuthority(server, a.runs[id]);
    case Verify(id, result, stamp) => VerifyAuthority(server, a.runs[id], result, stamp);
    case Continue(id, event) => LaterAuthority(server, a.registry, a.runs[id], event);
    case Apply(id, c) => ApplyAuthority(server, a.runs[id], c);
  }

  lemma {:induction false} AuthorityEverywhere(server: Server, es: seq<AppEvent>)
    requires AppCanRun(server, AppStart(), es)
    ensures forall id | id in AppRun(server, AppStart(), es).runs ::
      AuthorityInv(server, AppRun(server, AppStart(), es).runs[id])
  {
    var inv := (r: RunRecord) => AuthorityInv(server, r);
    forall a, e | AppEnabled(server, a, e) && Anything(a, e) && (RunIdOf(e) in a.runs ==> inv(a.runs[RunIdOf(e)]))
      ensures inv(RunStep(server, a, e).1)
    {
      RunAuthority(server, a, e);
    }
    ObeysAnything(server, AppStart(), es);
    EveryRun(server, Anything, inv, AppStart(), es);
  }

  // ----- the ledger -----

  lemma {:induction false} OwnLedgerVerdict(entryHash: LedgerEntry -> string, log: seq<Appended>, op: string, result: IntegrityResult)
    requires LogOk(log, op)
    ensures !Throws(entryHash, Build(entryHash, log))
    ensures IntegrityVerdict(entryHash, Build(entryHash, log), None, result) ==> result == Intact(|log|)
  {
    BuiltPayloadsPlain(entryHash, log);
    BuiltIsWellChained(entryHash, log);
    PlainNeverThrows(entryHash, Build(entryHash, log));
  }

  /** The integrity check of the run's ledger does not throw, and answers intact. */
  ghost predicate LedgerSound(server: Server, r: RunRecord) {
    && !Throws(server.entryHash, Build(server.entryHash, r.log))
    && forall result | IntegrityVerdict(server.entryHash, Build(server.entryHash, r.log), None, result) :: result == Intact(|r.log|)
  }

  lemma {:induction false} AuthorityLedger(server: Server, r: RunRecord)
    requires AuthorityInv(server, r)
    ensures LedgerSound(server, r)
  {
    forall result ensures
      IntegrityVerdict(server.entryHash, Build(server.entryHash, r.log), None, result) ==> result == Intact(|r.log|)
    {
      OwnLedgerVerdict(server.entryHash, r.log, r.config.operationId, result);
    }
    OwnLedgerVerdict(server.entryHash, r.log, r.config.operationId, Intact(0));
  }

  lemma {:induction false} LedgersSound(server: Server, es: seq<AppEvent>)
    requires AppCanRun(server, AppStart(), es)
    ensures forall id | id in AppRun(server, AppStart(), es).runs :: LedgerSound(server, AppRun(server, AppStart(), es).runs[id])
  {
    AuthorityEverywhere(server, es);
    forall id | id in AppRun(server, AppStart(), es).runs ensures LedgerSound(server, AppRun(server, AppStart(), es).runs[id]) {
      AuthorityLedger(server, AppRun(server, AppStart(), es).runs[id]);
    }
  }

  /** The integrity check never fails on a ledger of this server, nor does it throw. */
  lemma {:induction false} LedgersStayIntact(server: Server, es: seq<AppEvent>, id: string, result: IntegrityResult, stamp: Stamp)
    requires AppCanRun(server, AppStart(), es) && id in AppRun(server, AppStart(), es).runs
    ensures var r := AppRun(server, AppStart(), es).runs[id];
      && !Throws(server.entryHash, Build(server.entryHash, r.log))
      && (AppEnabled(server, AppRun(server, AppStart(), es), Verify(id, result, stamp)) ==> result == Intact(|r.log|))
  {
    LedgersSound(server, es);
  }
}
