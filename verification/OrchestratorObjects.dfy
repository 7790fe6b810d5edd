/** The orchestrator's entry points on the objects a run owns and the registry all runs share. */
module OrchestratorObjects {
  import opened Prelude
  import opened Json
  import opened Contracts
  import opened HashChain
  import opened Ledger
  import opened Authority
  import opened Receipts
  import opened Adapters
  import opened Stores
  import opened Gateway
  import opened GatewayProtocol
  import opened Orchestrator
  import G = GatewayObjects
  import A = OrchestratorAuthority

  /** What an entry call throws. */
  datatype Thrown = InvalidState | NoExecutionPath | IllegalTransition

  /** What the start of a call makes of a run, in the gateway's terms. */
  lemma {:induction false} CallBegins(
    server: Server, registry: RegistryState, r: RunRecord, i: CallInput, env: BeginEnv, g: Gate, phase: Phase)
    requires (g, phase)
          == Begin(server.payloadHash, Gate(registry, r.store, r.log), i, env.now, env.recheckAt, env.stamp)
    ensures GatewayStep(server, registry, r, BeginCall(i, env.now, env.recheckAt, env.stamp))
         == (g.registry, r.(store := g.store, log := g.log, calls := r.calls + [NewCall(i, phase)],
                            callCount := r.callCount + if phase.Racing? then 1 else 0))
  {
  }

  lemma {:induction false} CallFinishes(server: Server, registry: RegistryState, r: RunRecord, c: nat, stamp: Stamp)
    requires c < |r.calls| && r.calls[c].phase.Settled?
    ensures var p := r.calls[c].phase;
      var (g, result) :=
        Finish(Gate(registry, r.store, r.log), r.calls[c].input, p.capability, p.payloadHash, p.outcome, stamp);
      GatewayStep(server, registry, r, Event.FinishCall(c, stamp))
      == (g.registry, r.(store := g.store, log := g.log, calls := r.calls[c := r.calls[c].(phase := Returned(result))]))
  {
  }

  lemma {:induction false} ReconciliationFinishes(server: Server, registry: RegistryState, r: RunRecord, c: nat, stamp: Stamp)
    requires c < |r.calls| && r.calls[c].phase.LookedUp?
    ensures var p := r.calls[c].phase;
      var (g, result) := FinishLookup(Gate(registry, r.store, r.log), r.calls[c].input, p.prior, p.found, stamp);
      GatewayStep(server, registry, r, Event.FinishReconcile(c, stamp))
      == (g.registry, r.(store := g.store, log := g.log, calls := r.calls[c := r.calls[c].(phase := Returned(result))]))
  {
  }

  class MutableRun {
    const config: RunConfig
    const resourceVersionAtProposal: int
    const ledger: AuditLedger
    const store: OperationStore
    const adapter: CountingAdapter
    var state: RunState
    var resourceVersionNow: int
    var drifted: bool
    var approval: Option<Approval>
    var capability: Option<Capability>
    var execution: Option<ExecutionSummary>
    /** The calls of `executeAction` made for the run, and those whose result was dealt with. */
    ghost var calls: seq<Call>
    ghost var applied: set<nat>

    ghost predicate Valid(server: Server)
      reads this, ledger
    {
      && ledger.Valid() && ledger.entryHash == server.entryHash
      && adapter.inner.kind == config.adapterKind && adapter.inner.payloadHash == server.payloadHash
    }

    ghost function Record(): RunRecord
      reads this, ledger, store, adapter, adapter.inner
    {
      RunRecord(
        config, state, resourceVersionAtProposal, resourceVersionNow, drifted, approval, capability, execution,
        store.State(), ledger.log, adapter.inner.State(), adapter.callCount, calls, applied)
    }

    /** The run `createRun` files, its proposal and policy decision already logged. */
    constructor (server: Server, i: Creation)
      ensures Valid(server) && Record() == NewRun(server, i)
      ensures fresh(ledger) && fresh(store) && fresh(adapter) && fresh(adapter.inner)
    {
      var principal := Principal("principal-1", i.role, "t1");
      var log := new AuditLedger(server.entryHash);
      A.ProposalEventPlain(i);
      var _ := log.Append(ProposalEvent(i), i.proposalStamp);
      assert log.log == [Appended(ProposalEvent(i), i.proposalStamp)];
      var verdict := EvaluatePolicy(PolicyInputFor(i, principal));
      A.PolicyEventPlain(i, verdict);
      var _ := log.Append(PolicyEvent(i, verdict), i.policyStamp);
      assert log.log == [Appended(ProposalEvent(i), i.proposalStamp), Appended(PolicyEvent(i, verdict), i.policyStamp)];
      config := RunConfig(
        i.runId, principal, i.proposal, server.planHash(i.proposal), verdict, i.operationId, i.idempotencyKey, i.adapterKind);
      resourceVersionAtProposal := 1;
      resourceVersionNow := 1;
      drifted := false;
      approval := None;
      capability := None;
      execution := None;
      state := Must(Proposed, SchemaPass);
      ledger := log;
      store := new OperationStore();
      var inner := new FakeAdapter(i.adapterKind, server.payloadHash);
      adapter := new CountingAdapter(inner);
      calls := [];
      applied := {};
    }

    method Log(server: Server, input: AuditEventInput, stamp: Stamp)
      requires Valid(server) && Plain(Obj(input.payload))
      modifies ledger
      ensures Valid(server) && Record() == Logged(old(Record()), input, stamp)
    {
      var _ := ledger.Append(input, stamp);
    }

    /** The gateway's first piece on the run's own objects. */
    method EnterGateway(server: Server, registry: CapabilityRegistry, input: CallInput, env: BeginEnv) returns (phase: Phase)
      requires Valid(server)
      modifies this`calls, registry, ledger, adapter
      ensures Valid(server)
      ensures (Gate(registry.byId, Record().store, Record().log), phase)
           == Begin(
                server.payloadHash, old(Gate(registry.byId, Record().store, Record().log)), input, env.now, env.recheckAt, env.stamp)
      ensures Record() == old(Record()).(
        store := Record().store, log := Record().log, calls := Record().calls, callCount := Record().callCount)
      ensures Record().calls == old(Record().calls) + [NewCall(input, phase)]
      ensures Record().callCount == old(Record().callCount) + (if phase.Racing? then 1 else 0)
    {
      var events;
      phase, events := G.BeginAction(
        server.payloadHash, registry, store, ledger, adapter, input, env.now, env.recheckAt, env.stamp);
      calls := calls + [NewCall(input, phase)];
    }

    /** One call of `executeAction` for the run, up to its first await, as a step of the server's machine. */
    method StartCall(server: Server, registry: CapabilityRegistry, input: CallInput, env: BeginEnv) returns (phase: Phase)
      requires Valid(server)
      modifies this`calls, registry, ledger, adapter
      ensures Valid(server)
      ensures (registry.byId, Record())
           == GatewayStep(server, old(registry.byId), old(Record()), BeginCall(input, env.now, env.recheckAt, env.stamp))
      ensures calls == old(calls) + [NewCall(input, phase)]
    {
      ghost var before, known := Record(), registry.byId;
      phase := EnterGateway(server, registry, input, env);
      CallBegins(server, known, before, input, env, Gate(registry.byId, Record().store, Record().log), phase);
    }

    /** `executeForRun` up to its first await. */
    method ExecuteAction(server: Server, registry: CapabilityRegistry, cap: Capability, env: BeginEnv)
      returns (r: Result<Phase, Thrown>)
      requires Valid(server)
      modifies this`calls, registry, ledger, adapter
      ensures Valid(server)
      ensures (registry.byId, Record()) == ExecuteForRun(server, old(registry.byId), old(Record()), cap, env)
      ensures r == Failure(NoExecutionPath) <==> config.proposal.actionType in {IssueRefund, UpdateTicketStatus}
      ensures r.Failure? ==> calls == old(calls) && adapter.callCount == old(adapter.callCount)
      ensures r.Success? ==> calls == old(calls) + [NewCall(InputFor(old(Record()), cap), r.value)]
    {
      if !Executable(config.proposal.actionType) {
        return Failure(NoExecutionPath);
      }
      var input := CallInput(
        Some(cap), RequestFor(config), Operation(config.operationId, config.idempotencyKey), config.proposal.params,
        config.proposalHash, resourceVersionNow, resourceVersionAtProposal,
        ExpectationFor(config.idempotencyKey, config.proposal.params));
      var phase := StartCall(server, registry, input, env);
      return Success(phase);
    }

    /** `authorizeAndExecute` up to its first await. */
    method Authorize(server: Server, registry: CapabilityRegistry, evidence: Evidence, mint: MintEnv, env: BeginEnv)
      returns (thrown: Option<Thrown>)
      requires Valid(server)
      modifies this`capability, this`execution, this`calls, registry, ledger, adapter
      ensures Valid(server)
      ensures (registry.byId, Record())
           == AuthorizeAndExecute(server, old(registry.byId), old(Record()), evidence, mint, env)
    {
      var minted := MintCapability(evidence, RequestFor(config), mint.capabilityId, mint.nonce, mint.now, CAPABILITY_TTL_MS);
      if minted.Failure? {
        execution := Some(NotMinted(minted.error));
        return None;
      }
      A.MintedEventPlain(server.isoText, config, minted.value);
      Log(server, MintedEvent(server.isoText, config, minted.value), mint.stamp);
      registry.Record(minted.value);
      capability := Some(minted.value);
      assert Record() == Logged(old(Record()), MintedEvent(server.isoText, config, minted.value), mint.stamp)
        .(capability := Some(minted.value));
      var started := ExecuteAction(server, registry, minted.value, env);
      return if started.Failure? then Some(started.error) else None;
    }

    /** `createRun` from the policy verdict on. */
    method FollowPolicy(server: Server, registry: CapabilityRegistry, ghost i: Creation, mint: MintEnv, env: BeginEnv)
      returns (thrown: Option<Thrown>)
      requires Valid(server) && Record() == NewRun(server, i)
      modifies this`state, this`capability, this`execution, this`calls, registry, ledger, adapter
      ensures Valid(server)
      ensures (registry.byId, Record()) == CreateRun(server, old(registry.byId), i, mint, env)
    {
      match config.verdict.outcome {
        case Deny =>
          state := Must(state, PolicyDeny);
          return None;
        case RequireApproval =>
          state := Must(state, HighRisk);
          return None;
        case Allow =>
          state := Must(state, LowRiskPolicyAllow);
          assert Record() == NewRun(server, i).(state := state);
          thrown := Authorize(server, registry, PolicyAllow(config.verdict), mint, env);
      }
    }

    /** The consumed approval is logged and authorizes the run. */
    method Accept(server: Server, consumed: Approval, stamp: Stamp)
      requires Valid(server) && state == ApprovalRequired
      modifies this`state, this`approval, ledger
      ensures Valid(server)
      ensures Record() == Logged(old(Record()), ApprovalEvent(config, consumed), stamp)
        .(approval := Some(consumed), state := Must(ApprovalRequired, MatchingApproval))
    {
      A.ApprovalEventPlain(config, consumed);
      Log(server, ApprovalEvent(config, consumed), stamp);
      approval := Some(consumed);
      state := Must(state, MatchingApproval);
    }

    method Approve(server: Server, registry: CapabilityRegistry, a: ApprovalEnv, mint: MintEnv, env: BeginEnv)
      returns (thrown: Option<Thrown>)
      requires Valid(server)
      modifies this`state, this`approval, this`capability, this`execution, this`calls, registry, ledger, adapter
      ensures Valid(server)
      ensures (registry.byId, Record()) == ApproveRun(server, old(registry.byId), old(Record()), a, mint, env)
      ensures old(state) != ApprovalRequired ==> thrown == Some(InvalidState)
    {
      if state != ApprovalRequired {
        return Some(InvalidState);
      }
      var consumed := ConsumeApproval(FreshApproval(config, a), ApprovalRequestFor(config), a.checkedAt);
      if consumed.Failure? {
        return Some(InvalidState);
      }
      Accept(server, consumed.value, a.stamp);
      thrown := Authorize(server, registry, Approved(consumed.value), mint, env);
    }

    method Replay(server: Server, registry: CapabilityRegistry, env: BeginEnv) returns (thrown: Option<Thrown>)
      requires Valid(server)
      modifies this`calls, registry, ledger, adapter
      ensures Valid(server)
      ensures (registry.byId, Record()) == ReplayRun(server, old(registry.byId), old(Record()), env)
      ensures old(state) != Verified ==> thrown == Some(InvalidState)
    {
      if state != Verified || capability.None? {
        return Some(InvalidState);
      }
      var started := ExecuteAction(server, registry, capability.value, env);
      return if started.Failure? then Some(started.error) else None;
    }

    method Reconcile(server: Server, registry: CapabilityRegistry, env: BeginEnv) returns (thrown: Option<Thrown>)
      requires Valid(server)
      modifies this`calls, registry, ledger, adapter
      ensures Valid(server)
      ensures (registry.byId, Record()) == ReconcileRun(server, old(registry.byId), old(Record()), env)
      ensures old(state) != UnknownOutcome && old(state) != ReconciliationRequired ==> thrown == Some(InvalidState)
    {
      if state != UnknownOutcome && state != ReconciliationRequired {
        return Some(InvalidState);
      }
      if capability.None? {
        return Some(InvalidState);
      }
      var started := ExecuteAction(server, registry, capability.value, env);
      return if started.Failure? then Some(started.error) else None;
    }

    method Drift(ghost server: Server) returns (thrown: Option<Thrown>)
      requires Valid(server)
      modifies this`resourceVersionNow, this`drifted
      ensures Valid(server) && Record() == SimulateDrift(old(Record()))
      ensures thrown.Some? <==> old(state) != ApprovalRequired
      ensures thrown.None? ==> resourceVersionNow == old(resourceVersionNow) + 1 && drifted
      ensures thrown.Some? ==> resourceVersionNow == old(resourceVersionNow) && drifted == old(drifted)
    {
      if state != ApprovalRequired {
        return Some(InvalidState);
      }
      resourceVersionNow := resourceVersionNow + 1;
      drifted := true;
      return None;
    }

    /** `verifyRunLedger`: on a ledger only appends have touched the check succeeds, and is logged. */
    method VerifyLedger(server: Server, stamp: Stamp) returns (result: IntegrityResult)
      requires Valid(server)
      modifies ledger
      ensures Valid(server) && Record() == VerifyRunLedger(old(Record()), result, stamp)
      ensures IntegrityVerdict(server.entryHash, Build(server.entryHash, old(ledger.log)), None, result)
      ensures result == Intact(|old(ledger.log)|)
    {
      BuiltPayloadsPlain(server.entryHash, ledger.log);
      BuiltIsWellChained(server.entryHash, ledger.log);
      var entries := ledger.List();
      PlainNeverThrows(server.entryHash, ledger.entries);
      var checked := VerifyLedgerIntegrity(server.entryHash, entries, None);
      result := checked.value;
      A.IntegrityEventPlain(config, result);
      Log(server, IntegrityEvent(config, result), stamp);
    }

    // ----- the later pieces of a call -----

    /** The inner adapter's `execute`, whenever it gets to run. */
    method Fire(server: Server, ghost registry: CapabilityRegistry, ghost c: nat, cap: Capability, env: ExecInputs)
      returns (result: ExecResult)
      requires Valid(server) && c < |calls| && calls[c].exec == InFlight(cap)
      requires calls[c].input.operation == Operation(config.operationId, config.idempotencyKey)
      requires calls[c].input.params == config.proposal.params
      modifies this`calls, adapter.inner
      ensures Valid(server)
      ensures Record() == GatewayStep(server, registry.byId, old(Record()), Event.Fire(c, env)).1
    {
      result := adapter.inner.Execute(
        Operation(config.operationId, config.idempotencyKey), cap, config.proposal.params, env);
      calls := calls[c := calls[c].(exec := Fired(cap, result, env.checkedAt))];
    }

    /**
     The race of call `c` is decided, by the timer or by the adapter's answer: the call goes on with
     whatever signal came first.
     */
    method Settle(server: Server, ghost registry: CapabilityRegistry, ghost c: nat, race: G.Race) returns (outcome: RaceOutcome)
      requires Valid(server) && race.Valid() && race.signals != []
      requires c < |calls| && calls[c].phase.Racing?
      requires race.signals[0] == TimedOut || (calls[c].exec.Fired? && race.signals[0] == AnswerOf(calls[c].exec.result))
      modifies this`calls
      ensures Valid(server)
      ensures Record() == GatewayStep(server, registry.byId, old(Record()), Event.Settle(c, race.signals[0] == TimedOut)).1
      ensures outcome == race.signals[0] && c < |calls|
      ensures calls[c].phase == Settled(old(calls)[c].phase.capability, old(calls)[c].phase.payloadHash, outcome)
    {
      outcome := race.outcome.value;
      calls := calls[c := Settling(calls[c], outcome == TimedOut)];
    }

    method FinishCall(
      server: Server, ghost registry: CapabilityRegistry, ghost c: nat, input: CallInput, cap: Capability, hash: string,
      outcome: RaceOutcome, soFar: seq<LedgerEntry>, stamp: Stamp)
      returns (result: ActionResult)
      requires Valid(server) && c < |calls| && calls[c].input == input && calls[c].phase == Settled(cap, hash, outcome)
      modifies this`calls, store, ledger
      ensures Valid(server)
      ensures Record() == GatewayStep(server, registry.byId, old(Record()), Event.FinishCall(c, stamp)).1
      ensures c < |calls| && calls[c].phase == Returned(result)
    {
      var events;
      result, events := G.FinishRace(registry, store, ledger, input, cap, hash, outcome, soFar, stamp);
      calls := calls[c := calls[c].(phase := Returned(result))];
      CallFinishes(server, registry.byId, old(Record()), c, stamp);
    }

    method LookUp(server: Server, ghost registry: CapabilityRegistry, ghost c: nat, prior: OperationRecord)
      returns (found: Option<Receipt>)
      requires Valid(server) && c < |calls| && calls[c].phase == LookingUp(prior)
      modifies this`calls
      ensures Valid(server)
      ensures Record() == GatewayStep(server, registry.byId, old(Record()), Event.LookUp(c)).1
      ensures c < |calls| && calls[c].phase == LookedUp(prior, found)
    {
      found := G.LookUpPrior(adapter, prior);
      calls := calls[c := LookedUpWith(calls[c], found)];
    }

    method FinishReconcile(
      server: Server, ghost registry: CapabilityRegistry, ghost c: nat, input: CallInput, prior: OperationRecord,
      found: Option<Receipt>, stamp: Stamp)
      returns (result: ActionResult)
      requires Valid(server) && c < |calls| && calls[c].input == input && calls[c].phase == LookedUp(prior, found)
      modifies this`calls, store, ledger
      ensures Valid(server)
      ensures Record() == GatewayStep(server, registry.byId, old(Record()), Event.FinishReconcile(c, stamp)).1
      ensures c < |calls| && calls[c].phase == Returned(result)
    {
      ghost var before := Record();
      ReconciliationFinishes(server, registry.byId, before, c, stamp);
      var events;
      result, events := G.FinishReconciliation(registry, store, ledger, input, prior, found, stamp);
      calls := calls[c := calls[c].(phase := Returned(result))];
      assert Record() == before.(store := store.State(), log := ledger.log, calls := calls);
    }

    /** `applyExecutionResult` and the summary after it; a throw of `mustTransition` leaves both undone. */
    method ApplyExecutionResult(ghost server: Server, ghost c: nat, result: ActionResult) returns (thrown: Option<Thrown>)
      requires Valid(server) && c < |calls| && calls[c].phase == Returned(result)
      modifies this`state, this`execution, this`applied
      ensures Valid(server) && Record() == ApplyResult(old(Record()), c)
      ensures thrown.Some? <==> NextState(old(state), result).None?
      ensures thrown.Some? ==> state == old(state) && execution == old(execution)
      ensures thrown.None? ==> execution == Some(Ran(result))
    {
      applied := applied + {c};
      var next := NextState(state, result);
      if next.None? {
        return Some(IllegalTransition);
      }
      state := next.value;
      execution := Some(Ran(result));
      return None;
    }
  }
}
