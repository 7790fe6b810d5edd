/** What a reconciliation achieves: exactly when it gets as far as the adapter, and where it leaves the run. */
module OrchestratorReconcile {
  import opened Prelude
  import opened Contracts
  import opened HashChain
  import opened Ledger
  import opened Authority
  import opened Receipts
  import opened Adapters
  import opened Stores
  import opened Gateway
  import opened GatewayProtocol
  import opened Orchestrator
  import opened OrchestratorRuns
  import opened OrchestratorAuthority
  import opened OrchestratorHistory
  import opened OrchestratorViews

  /** The run's own capability, presented for the run's own plan, is refused only for its age. */
  lemma {:induction false} OnlyExpiryRefuses(r: RunRecord, now: int)
    requires CapabilityForPlan(r) && CapabilitySchema(r.capability.value)
    ensures ParseAndValidate(r.capability, RequestFor(r.config), now)
         == if now < r.capability.value.expiresAt.ms then Success(r.capability.value) else Failure(CapabilityExpired)
  {
  }

  /** What a reconciliation finds: an attempt whose recorded outcome is unknown. */
  predicate InDoubtYet(r: RunRecord) {
    r.state in {UnknownOutcome, ReconciliationRequired} && HasRecord(r) && r.store.byKey[RunKey(r)].state == UnknownOperation
  }

  lemma {:induction false} ReconcileBegins(server: Server, registry: RegistryState, r: RunRecord, env: BeginEnv)
    requires CapabilityForPlan(r) && ReadyAgain(server.payloadHash, r) && InDoubtYet(r) && Executable(r.config.proposal.actionType)
    ensures var (registry', r') := ReconcileRun(server, registry, r, env); var n := |r.calls|;
      && registry' == registry && |r'.calls| == n + 1 && r'.calls[..n] == r.calls
      && r' == r.(calls := r'.calls)
      && ForRun(r', r'.calls[n])
      && r'.calls[n].phase
         == if env.now < r.capability.value.expiresAt.ms then LookingUp(r.store.byKey[RunKey(r)])
            else Returned(CapabilityFailure(CapabilityExpired))
  {
    OnlyExpiryRefuses(r, env.now);
  }

  /** There is an execution path for messages and new tickets only. */
  predicate HasPath(r: RunRecord) {
    r.calls != [] ==> r.config.proposal.actionType in {SendCustomerMessage, CreateInternalTicket}
  }

  lemma {:induction false} StepHasPath(server: Server, a: AppState, e: AppEvent)
    requires AppEnabled(server, a, e)
    requires RunIdOf(e) in a.runs ==> HasPath(a.runs[RunIdOf(e)])
    ensures HasPath(RunStep(server, a, e).1)
  {
  }

  lemma {:induction false} PathEverywhere(server: Server, es: seq<AppEvent>)
    requires AppCanRun(server, AppStart(), es)
    ensures forall id | id in AppRun(server, AppStart(), es).runs :: HasPath(AppRun(server, AppStart(), es).runs[id])
  {
    forall a, e | AppEnabled(server, a, e) && Anything(a, e) && (RunIdOf(e) in a.runs ==> HasPath(a.runs[RunIdOf(e)]))
      ensures HasPath(RunStep(server, a, e).1)
    {
      StepHasPath(server, a, e);
    }
    ObeysAnything(server, AppStart(), es);
    EveryRun(server, Anything, HasPath, AppStart(), es);
  }

  /** Over every interleaving: a refund or a status update, even when approved or allowed, calls nothing. */
  lemma {:induction false} RefundsAndUpdatesNeverExecute(server: Server, es: seq<AppEvent>, id: string)
    requires AppCanRun(server, AppStart(), es) && id in AppRun(server, AppStart(), es).runs
    requires AppRun(server, AppStart(), es).runs[id].config.proposal.actionType in {IssueRefund, UpdateTicketStatus}
    ensures AppRun(server, AppStart(), es).runs[id].calls == [] && AppRun(server, AppStart(), es).runs[id].callCount == 0
  {
    PathEverywhere(server, es);
    RunInvEverywhere(server, es);
  }

  /**
   With entry calls taking turns and any adapter: a reconciliation of a run whose recorded outcome is
   unknown asks the adapter exactly if the run's capability has not expired yet; after that it returns
   at once, having changed neither store nor ledger nor registry.
   */
  lemma {:induction false} ReconciliationAsksExactly(server: Server, es: seq<AppEvent>, id: string, env: BeginEnv)
    requires AppCanRun(server, AppStart(), es) && Obeys(server, TakesTurn, AppStart(), es)
    requires id in AppRun(server, AppStart(), es).runs && InDoubtYet(AppRun(server, AppStart(), es).runs[id])
    ensures var a := AppRun(server, AppStart(), es); var r := a.runs[id]; var n := |r.calls|;
      var (registry', r') := ReconcileRun(server, a.registry, r, env);
      && CapabilityForPlan(r) && registry' == a.registry && |r'.calls| == n + 1 && r' == r.(calls := r'.calls)
      && (r'.calls[n].phase.LookingUp? <==> env.now < r.capability.value.expiresAt.ms)
      && (r'.calls[n].phase.LookingUp? || r'.calls[n].phase == Returned(CapabilityFailure(CapabilityExpired)))
  {
    HistoryEverywhere(server, es);
    PathEverywhere(server, es);
    var a := AppRun(server, AppStart(), es);
    ReadyInDoubt(server, a.runs[id]);
    ReconcileBegins(server, a.registry, a.runs[id], env);
  }

  lemma {:induction false} ReadyInDoubt(server: Server, r: RunRecord)
    requires AuthorityInv(server, r) && HistoryInv(server, r) && HasPath(r) && InDoubtYet(r)
    ensures CapabilityForPlan(r) && ReadyAgain(server.payloadHash, r) && Executable(r.config.proposal.actionType)
  {
    CapabilityThere(server, r);
    OutcomesAreReady(server, r);
  }

  lemma {:induction false} CapabilityThere(server: Server, r: RunRecord)
    requires AuthorityInv(server, r) && HistoryInv(server, r) && r.state !in {Denied, ApprovalRequired}
    ensures CapabilityForPlan(r)
  {
  }

  // ----- a whole reconciliation -----

  /** A reconciliation from its call to the application of its result, with nothing in between. */
  ghost function FullReconcile(server: Server, registry: RegistryState, r: RunRecord, env: BeginEnv, stamp: Stamp): RunRecord {
    var (registry1, begun) := ReconcileRun(server, registry, r, env);
    var n := |r.calls|;
    if n < |begun.calls| && begun.calls[n].phase.LookingUp? then
      Concluded(server, registry1, begun, n, stamp)
    else if n < |begun.calls| && begun.calls[n].phase.Returned? then ApplyResult(begun, n)
    else begun
  }

  ghost function Concluded(server: Server, registry: RegistryState, r: RunRecord, n: nat, stamp: Stamp): RunRecord
    requires n < |r.calls| && r.calls[n].phase.LookingUp?
  {
    var asked := GatewayStep(server, registry, r, LookUp(n)).1;
    Reconciled(server, registry, asked, n, stamp)
  }

  lemma {:induction false} Asks(server: Server, registry: RegistryState, r: RunRecord, n: nat)
    requires n < |r.calls| && r.calls[n].phase.LookingUp?
    ensures var asked := GatewayStep(server, registry, r, LookUp(n)).1; var prior := r.calls[n].phase.prior;
      && |asked.calls| == |r.calls| && asked.state == r.state && asked.config == r.config
      && asked.calls[n].phase == LookedUp(prior, Found(r.adapter, prior.operationId))
      && asked.calls[n].input == r.calls[n].input
  {
  }

  lemma {:induction false} AnswerReturns(server: Server, registry: RegistryState, r: RunRecord, n: nat, stamp: Stamp)
    requires n < |r.calls| && r.calls[n].phase.LookedUp?
    ensures var p := r.calls[n].phase;
      var ended := GatewayStep(server, registry, r, FinishReconcile(n, stamp)).1;
      && |ended.calls| == |r.calls| && ended.state == r.state
      && ended.calls[n].phase
         == Returned(FinishLookup(Gate(registry, r.store, r.log), r.calls[n].input, p.prior, p.found, stamp).1)
  {
  }

  lemma {:induction false} Concludes(server: Server, registry: RegistryState, r: RunRecord, n: nat, stamp: Stamp)
    requires n < |r.calls| && ForRun(r, r.calls[n]) && r.state == UnknownOutcome
    requires r.calls[n].phase.LookingUp? && r.calls[n].phase.prior.operationId == r.config.operationId
    requires forall op | op in r.adapter.byOp :: GoodReceipt(r, r.adapter.byOp[op])
    ensures Concluded(server, registry, r, n, stamp).state
         == if r.config.operationId in r.adapter.byOp then Verified else ReconciliationRequired
  {
    var asked := GatewayStep(server, registry, r, LookUp(n)).1;
    Asks(server, registry, r, n);
    AnswerReturns(server, registry, asked, n, stamp);
    LookupResult(
      Gate(registry, asked.store, asked.log), r.calls[n].input, r.calls[n].phase.prior,
      Found(r.adapter, r.config.operationId), stamp);
    Settles(GatewayStep(server, registry, asked, FinishReconcile(n, stamp)).1, n);
  }

  /** How the results of a reconciliation leave a run whose outcome is unknown. */
  lemma {:induction false} Settles(r: RunRecord, n: nat)
    requires n < |r.calls| && r.calls[n].phase.Returned? && r.state == UnknownOutcome
    ensures var result := r.calls[n].phase.result;
      && (result.Done? && result.reason == ReconciledSuccess ==> ApplyResult(r, n).state == Verified)
      && (result.ReconciliationRequiredResult? ==> ApplyResult(r, n).state == ReconciliationRequired)
  {
  }

  lemma {:induction false} LookupResult(g: Gate, i: CallInput, prior: OperationRecord, found: Option<Receipt>, stamp: Stamp)
    requires found.Some? ==> VerifyPostcondition(i.request.actionType, found.value, i.expectation)
    ensures var result := FinishLookup(g, i, prior, found, stamp).1;
      if found.Some? then result.Done? && result.reason == ReconciledSuccess else result.ReconciliationRequiredResult?
  {
  }

  lemma {:induction false} FullReconcileEnds(server: Server, registry: RegistryState, r: RunRecord, env: BeginEnv, stamp: Stamp)
    requires CapabilityForPlan(r) && ReadyAgain(server.payloadHash, r) && InDoubtYet(r) && Executable(r.config.proposal.actionType)
    requires r.state == UnknownOutcome && ReceiptsGood(r)
    ensures FullReconcile(server, registry, r, env, stamp).state
         == if env.now >= r.capability.value.expiresAt.ms then UnknownOutcome
            else if r.config.operationId in r.adapter.byOp then Verified
            else ReconciliationRequired
  {
    var (registry1, begun) := ReconcileRun(server, registry, r, env);
    var n := |r.calls|;
    ReconcileBegins(server, registry, r, env);
    if begun.calls[n].phase.LookingUp? {
      forall op | op in begun.adapter.byOp ensures GoodReceipt(begun, begun.adapter.byOp[op]) {
        assert GoodReceipt(r, r.adapter.byOp[op]);
      }
      Concludes(server, registry1, begun, n, stamp);
    }
  }

  /** In front of the fake adapters a run whose outcome is unknown has an unknown record. */
  lemma {:induction false} UnknownIsInDoubt(server: Server, r: RunRecord)
    requires CallsInv(r) && StateInv(r) && HistoryInv(server, r) && InStep(true, r) && !Pending(r) && r.state == UnknownOutcome
    ensures InDoubtYet(r)
  {
    OutcomeRecorded(r);
  }

  lemma {:induction false} NonePending(r: RunRecord)
    requires AllApplied(r)
    ensures !Pending(r)
  {
  }

  /**
   In front of the fake adapters, a whole reconciliation of a waiting UNKNOWN_OUTCOME run, for every
   such run: it leaves the run as it is exactly if the capability has expired; otherwise it ends in
   VERIFIED exactly if the effect has landed by then, and in RECONCILIATION_REQUIRED exactly if not.
   */
  lemma {:induction false} ReconciliationEndsExactly(server: Server, es: seq<AppEvent>, id: string, env: BeginEnv, stamp: Stamp)
    requires AppCanRun(server, AppStart(), es) && Obeys(server, Orderly, AppStart(), es)
    requires var runs := AppRun(server, AppStart(), es).runs;
      id in runs && runs[id].state == UnknownOutcome && AllApplied(runs[id])
    ensures var a := AppRun(server, AppStart(), es); var r := a.runs[id];
      && CapabilityForPlan(r)
      && FullReconcile(server, a.registry, r, env, stamp).state
         == if env.now >= r.capability.value.expiresAt.ms then UnknownOutcome
            else if r.config.operationId in r.adapter.byOp then Verified
            else ReconciliationRequired
  {
    InStepEverywhere(server, es);
    PathEverywhere(server, es);
    var a := AppRun(server, AppStart(), es);
    WaitingReconciles(server, a.registry, a.runs[id], env, stamp);
  }

  lemma {:induction false} WaitingReconciles(server: Server, registry: RegistryState, r: RunRecord, env: BeginEnv, stamp: Stamp)
    requires AuthorityInv(server, r) && HistoryInv(server, r) && InStep(true, r) && ReceiptsGood(r) && HasPath(r)
    requires r.state == UnknownOutcome && AllApplied(r)
    ensures CapabilityForPlan(r)
    ensures FullReconcile(server, registry, r, env, stamp).state
         == if env.now >= r.capability.value.expiresAt.ms then UnknownOutcome
            else if r.config.operationId in r.adapter.byOp then Verified
            else ReconciliationRequired
  {
    NonePending(r);
    UnknownIsInDoubt(server, r);
    ReadyInDoubt(server, r);
    FullReconcileEnds(server, registry, r, env, stamp);
  }
}
