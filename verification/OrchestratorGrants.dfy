/**
 Where the authority behind an effect comes from: the one event of the run's past that consumed its
 approval and minted its capability, with the clock readings it was done at.
 */
module OrchestratorGrants {
  import opened Prelude
  import opened CanonicalHash
  import opened PlanHash
  import opened Json
  import opened Contracts
  import opened HashChain
  import opened Authority
  import opened Receipts
  import opened Adapters
  import opened Stores
  import opened Gateway
  import opened GatewayProtocol
  import opened Orchestrator
  import opened OrchestratorRuns
  import opened OrchestratorAuthority

  // ----- the grant -----

  /** This minting, at this reading of the clock, made the run's capability on the run's evidence. */
  predicate MintedWith(r: RunRecord, mint: MintEnv) {
    && r.capability.Some?
    && MintCapability(EvidenceOf(r), RequestFor(r.config), mint.capabilityId, mint.nonce, mint.now, CAPABILITY_TTL_MS)
       == Success(r.capability.value)
  }

  /** This approval, fresh for the run's plan, was consumed at this reading of the clock. */
  predicate ConsumedWith(r: RunRecord, a: ApprovalEnv) {
    && r.approval.Some?
    && ConsumeApproval(FreshApproval(r.config, a), ApprovalRequestFor(r.config), a.checkedAt) == Success(r.approval.value)
    && !Passed(FreshApproval(r.config, a).expiresAt, a.checkedAt)
  }

  /**
   In state `before` the run had no capability yet, and event `e` gave it the one it has: by the
   approval of a waiting run, or at its creation because policy allowed the action outright.
   */
  ghost predicate GrantedHere(server: Server, before: AppState, e: AppEvent, r: RunRecord) {
    && AppEnabled(server, before, e)
    && match e
       case Approve(id, a, mint, _) =>
         && before.runs[id].state == ApprovalRequired && before.runs[id].config == r.config
         && before.runs[id].capability.None? && before.runs[id].approval.None?
         && ConsumedWith(r, a) && MintedWith(r, mint)
       case Create(i, mint, _) =>
         && r.approval.None? && r.config.verdict.outcome == Allow
         && r.config == NewRun(server, i).config && MintedWith(r, mint)
       case _ => false
  }

  /** The clock reading at which an event mints. */
  function MintTime(e: AppEvent): int {
    if e.Create? || e.Approve? then e.mint.now else 0
  }

  /** Event `k` of the run of the server gave this run its capability. */
  ghost predicate GrantedBy(server: Server, es: seq<AppEvent>, k: nat, id: string, r: RunRecord) {
    && k < |es| && AppCanRun(server, AppStart(), es[..k]) && RunIdOf(es[k]) == id
    && GrantedHere(server, AppRun(server, AppStart(), es[..k]), es[k], r)
  }

  lemma {:induction false} CallKeepsGrant(server: Server, registry: RegistryState, r: RunRecord, cap: Capability, env: BeginEnv)
    ensures var r' := ExecuteForRun(server, registry, r, cap, env).1;
      r'.config == r.config && r'.capability == r.capability && r'.approval == r.approval
  {
  }

  lemma {:induction false} AuthorizeGrants(
    server: Server, registry: RegistryState, r: RunRecord, evidence: Evidence, mint: MintEnv, env: BeginEnv)
    requires r.capability.None? && evidence == EvidenceOf(r)
    ensures var r' := AuthorizeAndExecute(server, registry, r, evidence, mint, env).1;
      r'.config == r.config && r'.approval == r.approval && (r'.capability.Some? ==> MintedWith(r', mint))
  {
    match MintCapability(evidence, RequestFor(r.config), mint.capabilityId, mint.nonce, mint.now, CAPABILITY_TTL_MS)
    case Failure(_) =>
    case Success(cap) =>
      var minted := Logged(r, MintedEvent(server.isoText, r.config, cap), mint.stamp).(capability := Some(cap));
      CallKeepsGrant(server, registry[cap.id := cap], minted, cap, env);
  }

  lemma {:induction false} CreateGrants(server: Server, a: AppState, e: AppEvent)
    requires AppEnabled(server, a, e) && e.Create?
    ensures var r := RunStep(server, a, e).1; r.capability.Some? ==> GrantedHere(server, a, e, r)
  {
    var r := NewRun(server, e.creation);
    if r.config.verdict.outcome == Allow {
      AuthorizeGrants(
        server, a.registry, r.(state := Must(r.state, LowRiskPolicyAllow)), PolicyAllow(r.config.verdict), e.mint, e.begin);
    }
  }

  /** Nothing about the grant has changed. */
  predicate SameGrant(r: RunRecord, r': RunRecord) {
    r'.config == r.config && r'.capability == r.capability && r'.approval == r.approval
  }

  lemma {:induction false} ApproveGrants(server: Server, a: AppState, e: AppEvent)
    requires AppEnabled(server, a, e) && e.Approve? && AuthorityInv(server, a.runs[e.runId])
    ensures var r := RunStep(server, a, e).1;
      SameGrant(a.runs[e.runId], r) || (r.capability.Some? ==> GrantedHere(server, a, e, r))
  {
    var r := a.runs[e.runId];
    if r.state == ApprovalRequired {
      match ConsumeApproval(FreshApproval(r.config, e.approval), ApprovalRequestFor(r.config), e.approval.checkedAt)
      case Failure(_) =>
      case Success(approval) =>
        var approved := Logged(r, ApprovalEvent(r.config, approval), e.approval.stamp)
          .(approval := Some(approval), state := Must(r.state, MatchingApproval));
        AuthorizeGrants(server, a.registry, approved, Approved(approval), e.mint, e.begin);
    }
  }

  lemma {:induction false} OthersKeepGrant(server: Server, a: AppState, e: AppEvent)
    requires AppEnabled(server, a, e) && !e.Create? && !e.Approve?
    ensures SameGrant(a.runs[e.runId], RunStep(server, a, e).1)
  {
    var r := a.runs[e.runId];
    match e
    case Replay(_, begin) =>
      if r.capability.Some? {
        CallKeepsGrant(server, a.registry, r, r.capability.value, begin);
      }
    case Reconcile(_, begin) =>
      if r.capability.Some? {
        CallKeepsGrant(server, a.registry, r, r.capability.value, begin);
      }
    case _ =>
  }

  lemma {:induction false} StepGrants(server: Server, a: AppState, e: AppEvent)
    requires AppEnabled(server, a, e)
    requires RunIdOf(e) in a.runs ==> AuthorityInv(server, a.runs[RunIdOf(e)])
    ensures var r := RunStep(server, a, e).1;
      r.capability.Some? ==>
        || GrantedHere(server, a, e, r)
        || (RunIdOf(e) in a.runs && SameGrant(a.runs[RunIdOf(e)], r))
  {
    if e.Create? {
      CreateGrants(server, a, e);
    } else if e.Approve? {
      ApproveGrants(server, a, e);
    } else {
      OthersKeepGrant(server, a, e);
    }
  }

  // ----- over a whole run -----

  lemma {:induction false} AppRunSplit(server: Server, a: AppState, es: seq<AppEvent>, n: nat)
    requires AppCanRun(server, a, es) && n <= |es|
    ensures AppCanRun(server, a, es[..n]) && AppCanRun(server, AppRun(server, a, es[..n]), es[n..])
    ensures AppRun(server, a, es) == AppRun(server, AppRun(server, a, es[..n]), es[n..])
    decreases n
  {
    if n == 0 {
      assert es[..0] == [] && es[0..] == es;
    } else {
      assert es[..n][1..] == es[1..][..n - 1] && es[1..][n - 1..] == es[n..];
      AppRunSplit(server, AppStep(server, a, es[0]), es[1..], n - 1);
    }
  }

  lemma {:induction false} AppRunLast(server: Server, es: seq<AppEvent>)
    requires AppCanRun(server, AppStart(), es) && es != []
    ensures var n := |es| - 1;
      && AppCanRun(server, AppStart(), es[..n])
      && AppEnabled(server, AppRun(server, AppStart(), es[..n]), es[n])
      && AppRun(server, AppStart(), es) == AppStep(server, AppRun(server, AppStart(), es[..n]), es[n])
  {
    var n := |es| - 1;
    AppRunSplit(server, AppStart(), es, n);
    assert es[n..] == [es[n]];
    OneStep(server, AppRun(server, AppStart(), es[..n]), es[n]);
  }

  lemma {:induction false} OneStep(server: Server, a: AppState, e: AppEvent)
    requires AppCanRun(server, a, [e])
    ensures AppEnabled(server, a, e) && AppRun(server, a, [e]) == AppStep(server, a, e)
  {
    assert [e][1..] == [];
  }

  lemma {:induction false} GrantStays(server: Server, es: seq<AppEvent>, n: nat, k: nat, id: string, r: RunRecord, r': RunRecord)
    requires n <= |es| && GrantedBy(server, es[..n], k, id, r) && SameGrant(r, r')
    ensures GrantedBy(server, es, k, id, r')
  {
    assert es[..n][..k] == es[..k] && es[..n][k] == es[k];
  }

  /** Every capability a run holds was granted by one event of the past. */
  lemma {:induction false} EveryGrant(server: Server, es: seq<AppEvent>, id: string)
    requires AppCanRun(server, AppStart(), es) && id in AppRun(server, AppStart(), es).runs
    requires AppRun(server, AppStart(), es).runs[id].capability.Some?
    ensures exists k: nat :: GrantedBy(server, es, k, id, AppRun(server, AppStart(), es).runs[id])
    decreases |es|
  {
    AppRunLast(server, es);
    var n := |es| - 1;
    var before := AppRun(server, AppStart(), es[..n]);
    var r := AppRun(server, AppStart(), es).runs[id];
    GrantOrBefore(server, es[..n], before, es[n], id);
    if GrantedHere(server, before, es[n], r) && RunIdOf(es[n]) == id {
      assert GrantedBy(server, es, n, id, r);
    } else {
      EveryGrant(server, es[..n], id);
      var k: nat :| GrantedBy(server, es[..n], k, id, before.runs[id]);
      GrantStays(server, es, n, k, id, before.runs[id], r);
    }
  }

  lemma {:induction false} GrantOrBefore(server: Server, es: seq<AppEvent>, before: AppState, e: AppEvent, id: string)
    requires AppCanRun(server, AppStart(), es) && before == AppRun(server, AppStart(), es) && AppEnabled(server, before, e)
    requires id in AppStep(server, before, e).runs && AppStep(server, before, e).runs[id].capability.Some?
    ensures var r := AppStep(server, before, e).runs[id];
      || (RunIdOf(e) == id && GrantedHere(server, before, e, r))
      || (id in before.runs && SameGrant(before.runs[id], r))
  {
    AuthorityEverywhere(server, es);
    if RunIdOf(e) == id {
      StepGrants(server, before, e);
    }
  }

  // ----- effects -----

  /** Call `c` presents the run's capability for the run's plan, and asks for that plan's parameters. */
  predicate AsksForPlan(server: Server, r: RunRecord, c: nat) {
    && c < |r.calls| && Executed(r.calls[c]) && CapabilityForPlan(r)
    && r.calls[c].exec.capability == r.capability.value
    && r.capability.value.actionType == r.config.adapterKind
    && r.calls[c].input.params == r.config.proposal.params
    && r.config.proposalHash == server.planHash(r.config.proposal)
  }

  /**
   Event `k` granted the run's capability less than its lifetime, and never more than five minutes,
   before `now`; for a message or a refund it was the consumption of an approval for this plan, and the
   ledger told that approval before the minting.
   */
  ghost predicate GrantedInTime(server: Server, es: seq<AppEvent>, k: nat, id: string, r: RunRecord, now: int) {
    && GrantedBy(server, es, k, id, r) && r.capability.Some?
    && r.capability.value.expiresAt == At(MintTime(es[k]) + 60_000)
    && now < MintTime(es[k]) + 60_000 <= MintTime(es[k]) + 300_000
    && (r.config.proposal.actionType in {SendCustomerMessage, IssueRefund} ==>
          && es[k].Approve? && ConsumedWith(r, es[k].approval)
          && es[k].approval.checkedAt < es[k].approval.builtAt + 600_000
          && ApprovalForPlan(r)
          && exists i: nat, j: nat :: ToldAt(server.isoText, r, i, j))
  }

  lemma {:induction false} EffectAsks(server: Server, registry: RegistryState, r: RunRecord, c: nat, env: ExecInputs)
    requires AuthorityInv(server, r) && Enabled(RunWorld(registry, r), Fire(c, env))
    requires GatewayStep(server, registry, r, Fire(c, env)).1.adapter != r.adapter
    ensures AsksForPlan(server, r, c) && env.checkedAt < r.capability.value.expiresAt.ms
  {
    var call := r.calls[c];
    assert Presents(r, call) && ForRun(r, call);
    EffectNeedsCapability(
      r.config.adapterKind, server.payloadHash, r.adapter, call.input.operation, call.exec.capability, call.input.params, env);
  }

  lemma {:induction false} GrantTimes(server: Server, es: seq<AppEvent>, k: nat, id: string, r: RunRecord, now: int)
    requires CapabilityForPlan(r) && GrantedBy(server, es, k, id, r)
    requires r.config.verdict.outcome == Allow ==> r.config.proposal.actionType in {CreateInternalTicket, UpdateTicketStatus}
    requires r.approval.Some? ==> ApprovalForPlan(r) && exists i: nat, j: nat :: ToldAt(server.isoText, r, i, j)
    requires now < r.capability.value.expiresAt.ms
    ensures GrantedInTime(server, es, k, id, r, now)
  {
    assert r.capability.value.expiresAt == At(MintTime(es[k]) + CAPABILITY_TTL_MS);
  }

  /**
   Over every interleaving: whenever a run's adapter has an effect, however late it lands, it is the
   run's own plan that takes effect, under the capability that one event of the past granted for that
   plan; and that event's clock readings are in time. For a message or a refund that event is an
   approval that was unexpired and matching when it was consumed.
   */
  lemma {:induction false} EveryEffectIsAuthorized(server: Server, es: seq<AppEvent>, id: string, c: nat, env: ExecInputs)
    requires AppCanRun(server, AppStart(), es)
    requires AppEnabled(server, AppRun(server, AppStart(), es), Continue(id, Fire(c, env)))
    requires var a := AppRun(server, AppStart(), es);
      GatewayStep(server, a.registry, a.runs[id], Fire(c, env)).1.adapter != a.runs[id].adapter
    ensures AsksForPlan(server, AppRun(server, AppStart(), es).runs[id], c)
    ensures exists k: nat :: GrantedInTime(server, es, k, id, AppRun(server, AppStart(), es).runs[id], env.checkedAt)
  {
    AuthorityEverywhere(server, es);
    var a := AppRun(server, AppStart(), es);
    EffectAsks(server, a.registry, a.runs[id], c, env);
    EveryGrant(server, es, id);
    var k: nat :| GrantedBy(server, es, k, id, a.runs[id]);
    GrantTimes(server, es, k, id, a.runs[id], env.checkedAt);
  }

  // ----- what an approved hash pins down -----

  /** With a collision-free SHA-256 a plan hash has one plan, evidence up to order. */
  lemma {:induction false} OnePlanPerHash(sha: string -> string, p: Proposal, q: Proposal)
    requires Injective(sha)
    ensures PlanHashOf(sha)(p) == PlanHashOf(sha)(q) <==>
      && p.actionType == q.actionType && p.resourceId == q.resourceId && p.params == q.params
      && multiset(p.evidenceRefs) == multiset(q.evidenceRefs)
  {
    var f, g := PlanOf(p), PlanOf(q);
    ParamsPlain(p.params);
    ParamsPlain(q.params);
    ParamsMeaning(p.params, q.params);
    PlanHashExact(sha, f, g);
  }

  lemma {:induction false} ParamsMeaning(p: Params, q: Params)
    ensures Meaning(Obj(Compact(ParamsSlots(p)))) == Meaning(Obj(Compact(ParamsSlots(q)))) <==> p == q
  {
    ParamsKeys(p);
    CompactExact(ParamsSlots(p), ParamsSlots(q));
    if SameSlots(ParamsSlots(p), ParamsSlots(q)) {
      SameSlotsSameParams(p, q);
    }
  }

  /**
   Whatever plan `seen` a human had in mind when approving a hash: an effect under that approval is
   for exactly that plan's action, resource and parameters.
   */
  lemma {:induction false} EffectIsTheApprovedPlan(
    sha: string -> string, server: Server, es: seq<AppEvent>, id: string, c: nat, env: ExecInputs, seen: Proposal)
    requires Injective(sha) && server.planHash == PlanHashOf(sha)
    requires AppCanRun(server, AppStart(), es)
    requires AppEnabled(server, AppRun(server, AppStart(), es), Continue(id, Fire(c, env)))
    requires var a := AppRun(server, AppStart(), es);
      && GatewayStep(server, a.registry, a.runs[id], Fire(c, env)).1.adapter != a.runs[id].adapter
      && a.runs[id].approval.Some? && a.runs[id].approval.value.proposalHash == PlanHashOf(sha)(seen)
    ensures var call := AppRun(server, AppStart(), es).runs[id].calls[c];
      && call.input.params == seen.params
      && call.exec.capability.actionType == seen.actionType && call.exec.capability.resourceId == seen.resourceId
  {
    AuthorityEverywhere(server, es);
    var a := AppRun(server, AppStart(), es);
    var r := a.runs[id];
    EffectAsks(server, a.registry, r, c, env);
    assert r.approval.value.proposalHash == server.planHash(r.config.proposal);
    OnePlanPerHash(sha, r.config.proposal, seen);
  }
}
