/** What `createRun` makes of a proposal, and what the orchestrator writes into a run's ledger. */
module OrchestratorCreation {
  import opened Prelude
  import opened Json
  import opened CanonicalHash
  import opened Contracts
  import opened HashChain
  import opened Ledger
  import opened Authority
  import opened Receipts
  import opened Adapters
  import opened Stores
  import opened Gateway
  import opened GatewayProtocol
  import opened Orchestrator

  /** Which way a proposal goes, by the role of the principal, the action, and whether it cites evidence. */
  function Route(role: string, action: ActionType, citesEvidence: bool): Outcome {
    if role !in {"operator", "finance", "admin"} then Deny
    else
      match action
      case CreateInternalTicket => Allow
      case UpdateTicketStatus => Allow
      case SendCustomerMessage => if citesEvidence then Deny else RequireApproval
      case IssueRefund => if role == "finance" && !citesEvidence then RequireApproval else Deny
  }

  /** No evidence is known to the server, so citing any is citing something that cannot be found. */
  lemma {:induction false} CreationBreaks(i: Creation, principal: Principal)
    ensures var p := PolicyInputFor(i, principal);
      && !Breaks(TooOld, p) && !Breaks(NoPrincipal, p) && !Breaks(OtherTenant, p)
      && !Breaks(StrangeStatus, p) && !Breaks(NotActive, p) && !Breaks(StrangeAction, p)
      && !Breaks(TampersWithAudit, p) && !Breaks(GrantsItself, p)
      && (Breaks(StrangeRole, p) <==> principal.role !in {"operator", "finance", "admin"})
      && (Breaks(NotFinance, p) <==> i.proposal.actionType == IssueRefund && principal.role != "finance")
      && (Breaks(Dangling, p) <==>
            i.proposal.actionType in {SendCustomerMessage, IssueRefund} && i.proposal.evidenceRefs != [])
  {
    var name := ActionName(i.proposal.actionType);
    ActionKnown(name);
    ActionNameInjective(i.proposal.actionType, IssueRefund);
    ActionNameInjective(i.proposal.actionType, SendCustomerMessage);
    NoActionTampers(i.proposal.actionType);
    if i.proposal.evidenceRefs != [] {
      assert i.proposal.evidenceRefs[0] in i.proposal.evidenceRefs;
    }
  }

  lemma {:induction false} NoActionTampers(a: ActionType)
    ensures ActionName(a) !in
      {"delete_audit_event", "alter_audit_event", "rewrite_audit_event", "mint_capability", "grant_capability",
       "approve_action", "self_approve", "set_policy_decision"}
  {
    assert ActionName(IssueRefund)[0] == 'i';
    assert |ActionName(CreateInternalTicket)| == 22 && |ActionName(SendCustomerMessage)| == 21;
    assert |ActionName(UpdateTicketStatus)| == 20;
  }

  /** The verdict of a new run, by role, action and evidence alone. */
  lemma {:induction false} VerdictExact(server: Server, i: Creation)
    ensures NewRun(server, i).config.verdict.outcome == Route(i.role, i.proposal.actionType, i.proposal.evidenceRefs != [])
  {
    var principal := Principal("principal-1", i.role, "t1");
    var p := PolicyInputFor(i, principal);
    CreationBreaks(i, principal);
    ActionKnown(p.actionType);
    PolicyExact(p);
    BreaksSpelled(p);
    ActionNameInjective(i.proposal.actionType, CreateInternalTicket);
    ActionNameInjective(i.proposal.actionType, UpdateTicketStatus);
    ActionNameInjective(i.proposal.actionType, SendCustomerMessage);
    ActionNameInjective(i.proposal.actionType, IssueRefund);
  }

  lemma {:induction false} BreaksSpelled(p: PolicyInput)
    ensures BreaksNone(p) <==>
      && !Breaks(NoPrincipal, p) && !Breaks(StrangeRole, p) && !Breaks(TampersWithAudit, p) && !Breaks(GrantsItself, p)
      && !Breaks(StrangeAction, p) && !Breaks(StrangeStatus, p) && !Breaks(OtherTenant, p) && !Breaks(TooOld, p)
      && !Breaks(NotFinance, p) && !Breaks(Dangling, p) && !Breaks(NotActive, p)
  {
    if BreaksNone(p) {
      EarlierHold(p, |DENY_RULES|);
    }
  }

  /**
   A proposal is denied, left to an approver, or authorized at once, as its route says; until it is
   authorized the run holds no capability and nothing of it has been executed.
   */
  lemma {:induction false} CreationExact(server: Server, registry: RegistryState, i: Creation, mint: MintEnv, env: BeginEnv)
    ensures var (registry', r) := CreateRun(server, registry, i, mint, env);
      && r.config.runId == i.runId && r.config.operationId == i.operationId && r.config.idempotencyKey == i.idempotencyKey
      && r.config.proposal == i.proposal && r.config.proposalHash == server.planHash(i.proposal)
      && r.resourceVersionNow == r.resourceVersionAtProposal == 1 && !r.drifted && r.approval == None
      && match Route(i.role, i.proposal.actionType, i.proposal.evidenceRefs != [])
         case Deny => r.state == Denied && r.capability == None && registry' == registry && r.calls == []
         case RequireApproval => r.state == ApprovalRequired && r.capability == None && registry' == registry && r.calls == []
         case Allow => r.state == Authorized && r.capability != None
  {
    VerdictExact(server, i);
    var r := NewRun(server, i);
    if r.config.verdict.outcome == Allow {
      AllowedMints(server, registry, r.(state := Authorized), mint, env);
    }
  }

  lemma {:induction false} AllowedMints(server: Server, registry: RegistryState, r: RunRecord, mint: MintEnv, env: BeginEnv)
    requires r.config.verdict.outcome == Allow
    ensures var r' := AuthorizeAndExecute(server, registry, r, PolicyAllow(r.config.verdict), mint, env).1;
      && r'.config == r.config && r'.state == r.state && r'.capability != None && r'.approval == r.approval
      && r'.resourceVersionNow == r.resourceVersionNow && r'.resourceVersionAtProposal == r.resourceVersionAtProposal
      && r'.drifted == r.drifted
  {
  }

  /** The approval the orchestrator builds: fresh, for this very plan, good for ten minutes. */
  lemma {:induction false} FreshApprovalExact(c: RunConfig, a: ApprovalEnv)
    ensures FreshApproval(c, a)
         == Approval(
              a.id, c.proposalHash, "human-approver-1", c.proposal.actionType, c.proposal.resourceId,
              c.verdict.policyVersion, At(a.builtAt + 600_000), a.approvedAt, ApprovalActive)
    ensures ConsumeApproval(FreshApproval(c, a), ApprovalRequestFor(c), a.checkedAt).Success? <==>
      a.checkedAt < a.builtAt + 600_000
  {
  }

  // ----- the orchestrator's entries -----

  /** Who, about what, and with which payload: the five events the orchestrator itself logs. */
  lemma {:induction false} EventsExact(i: Creation, v: PolicyVerdict, c: RunConfig, a: Approval)
    ensures ProposalEvent(i)
         == AuditEventInput(
              ModelProposalRecorded, ModelActor, "fake-model-adapter-v1", ActionSubject, i.runId,
              [Field("goal", Str(i.goal)), Field("raw", Str(i.raw))], None, Some(i.operationId), None, None)
    ensures PolicyEvent(i, v)
         == AuditEventInput(
              PolicyDecision, ServerActor, "policy-engine-v1", ActionSubject, i.runId,
              [Field("outcome", Str(OutcomeName(v.outcome))), Field("reasonCodes", Arr(PolicyReasonNames(v.reasonCodes)))],
              None, Some(i.operationId), Some(v.policyVersion), None)
    ensures ApprovalEvent(c, a)
         == AuditEventInput(
              ApprovalConsumedEvent, HumanActor, a.approverId, ApprovalSubject, a.id,
              [Field("proposalHash", Str(a.proposalHash)),
               Field("scope", Obj([Field("actionType", Str(ActionName(a.scopeAction))), Field("resourceId", Str(a.scopeResource))]))],
              None, Some(c.operationId), None, None)
  {
    TwoTexts("goal", i.goal, "raw", i.raw);
    TwoSlots("outcome", Str(OutcomeName(v.outcome)), "reasonCodes", Arr(PolicyReasonNames(v.reasonCodes)));
    TwoTexts("actionType", ActionName(a.scopeAction), "resourceId", a.scopeResource);
    TwoSlots("proposalHash", Str(a.proposalHash), "scope", Obj(Compact(ScopeSlots(a))));
  }

  lemma {:induction false} MintedExact(isoText: int -> string, c: RunConfig, cap: Capability, expiry: int)
    requires cap.expiresAt == At(expiry)
    ensures MintedEvent(isoText, c, cap)
         == AuditEventInput(
              CapabilityMinted, ServerActor, "capability-minter-v1", CapabilitySubject, cap.id,
              [Field("actionType", Str(ActionName(cap.actionType))), Field("resourceId", Str(cap.resourceId)),
               Field("expiresAt", Str(isoText(expiry)))],
              None, Some(c.operationId), None, None)
  {
    ThreeSlots(
      "actionType", Str(ActionName(cap.actionType)), "resourceId", Str(cap.resourceId), "expiresAt", Str(isoText(expiry)));
  }

  lemma {:induction false} IntegrityExact(c: RunConfig, n: nat, reason: IntegrityReason, at: int)
    ensures IntegrityEvent(c, Intact(n))
         == AuditEventInput(
              AuditIntegrityChecked, ServerActor, "audit-verifier-v1", OperationSubject, c.operationId,
              [Field("ok", Bool(true)), Field("checkedEntries", Num(IntNumber(n)))], None, Some(c.operationId), None, None)
    ensures IntegrityEvent(c, Broken(reason, at))
         == AuditEventInput(
              AuditIntegrityChecked, ServerActor, "audit-verifier-v1", OperationSubject, c.operationId,
              [Field("ok", Bool(false)), Field("reasonCode", Str(IntegrityReasonName(reason))),
               Field("brokenAtSequence", Num(IntNumber(at)))],
              None, Some(c.operationId), None, None)
  {
    TwoSlots("ok", Bool(true), "checkedEntries", Num(IntNumber(n)));
    ThreeSlots("ok", Bool(false), "reasonCode", Str(IntegrityReasonName(reason)), "brokenAtSequence", Num(IntNumber(at)));
  }

  lemma {:induction false} OneSlot(k: string, v: Json)
    ensures Compact([Slot(k, Some(v))]) == [Field(k, v)]
  {
    assert [Slot(k, Some(v))][1..] == [] && Compact([]) == [];
  }

  lemma {:induction false} TwoSlots(k: string, v: Json, l: string, w: Json)
    ensures Compact([Slot(k, Some(v)), Slot(l, Some(w))]) == [Field(k, v), Field(l, w)]
  {
    assert [Slot(k, Some(v)), Slot(l, Some(w))][1..] == [Slot(l, Some(w))];
    OneSlot(l, w);
  }

  lemma {:induction false} TwoTexts(k: string, s: string, l: string, t: string)
    ensures Compact([TextOf(k, s), TextOf(l, t)]) == [Field(k, Str(s)), Field(l, Str(t))]
  {
    TwoSlots(k, Str(s), l, Str(t));
  }

  lemma {:induction false} ThreeSlots(k: string, v: Json, l: string, w: Json, m: string, x: Json)
    ensures Compact([Slot(k, Some(v)), Slot(l, Some(w)), Slot(m, Some(x))]) == [Field(k, v), Field(l, w), Field(m, x)]
  {
    assert [Slot(k, Some(v)), Slot(l, Some(w)), Slot(m, Some(x))][1..] == [Slot(l, Some(w)), Slot(m, Some(x))];
    TwoSlots(l, w, m, x);
  }
}
