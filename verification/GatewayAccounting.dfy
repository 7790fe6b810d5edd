/**
 Capability accounting over every interleaving and any adapter: consumed capabilities, attempts that
 consumed one, and EXECUTION_STARTED entries correspond one to one.
 */
module GatewayAccounting {
  import opened Prelude
  import opened Contracts
  import opened Authority
  import opened Json
  import opened HashChain
  import opened Ledger
  import opened Receipts
  import opened Stores
  import opened Gateway
  import opened GatewayProtocol

  /** The operation ids of the EXECUTION_STARTED entries, in ledger order. */
  function StartedOps(log: seq<Appended>): seq<Option<string>> {
    if log == [] then []
    else if log[|log| - 1].input.eventType == ExecutionStarted then
      StartedOps(log[..|log| - 1]) + [log[|log| - 1].input.operationId]
    else StartedOps(log[..|log| - 1])
  }

  /** The operation ids of the calls that consumed a capability, in the order they began. */
  function ConsumerOps(calls: seq<Call>): seq<Option<string>> {
    if calls == [] then []
    else if calls[|calls| - 1].consumed.Some? then
      ConsumerOps(calls[..|calls| - 1]) + [Some(calls[|calls| - 1].input.operation.operationId)]
    else ConsumerOps(calls[..|calls| - 1])
  }

  ghost predicate Consumes(calls: seq<Call>, i: nat, id: string) {
    i < |calls| && calls[i].consumed == Some(id)
  }

  ghost predicate Accounted(s: Setting, w: World) {
    && CallsOk(s, w)
    && StartedOps(w.gate.log) == ConsumerOps(w.calls)
    && (forall i, j, id | 0 <= i < j :: !(Consumes(w.calls, i, id) && Consumes(w.calls, j, id)))
    && (forall i, id | 0 <= i && Consumes(w.calls, i, id) :: id in w.gate.registry && w.gate.registry[id].status == Consumed)
    && (forall id | id in w.gate.registry && w.gate.registry[id].status == Consumed :: exists i :: 0 <= i && Consumes(w.calls, i, id))
  }

  lemma {:induction false} StartedSnoc(log: seq<Appended>, a: Appended)
    ensures StartedOps(log + [a])
         == if a.input.eventType == ExecutionStarted then StartedOps(log) + [a.input.operationId] else StartedOps(log)
  {
    assert (log + [a])[..|log|] == log;
  }

  lemma {:induction false} ConsumersSnoc(calls: seq<Call>, c: Call)
    ensures ConsumerOps(calls + [c])
         == if c.consumed.Some? then ConsumerOps(calls) + [Some(c.input.operation.operationId)] else ConsumerOps(calls)
  {
    assert (calls + [c])[..|calls|] == calls;
  }

  lemma {:induction false} ConsumersSame(a: seq<Call>, b: seq<Call>)
    requires |a| == |b|
    requires forall i | 0 <= i < |a| :: a[i].consumed == b[i].consumed && a[i].input == b[i].input
    ensures ConsumerOps(a) == ConsumerOps(b)
  {
    if a != [] {
      ConsumersSame(a[..|a| - 1], b[..|b| - 1]);
    }
  }

  /** Outside `Begin` no EXECUTION_STARTED entry is written. */
  lemma {:induction false} FinishLogs(g: Gate, i: CallInput, c: Capability, hash: string, outcome: RaceOutcome, stamp: Stamp)
    ensures StartedOps(Finish(g, i, c, hash, outcome, stamp).0.log) == StartedOps(g.log)
    ensures Finish(g, i, c, hash, outcome, stamp).0.registry == g.registry
  {
    forall a: Appended | a.input.eventType != ExecutionStarted ensures StartedOps(g.log + [a]) == StartedOps(g.log) {
      StartedSnoc(g.log, a);
    }
  }

  lemma {:induction false} FinishLookupLogs(g: Gate, i: CallInput, prior: OperationRecord, found: Option<Receipt>, stamp: Stamp)
    ensures StartedOps(FinishLookup(g, i, prior, found, stamp).0.log) == StartedOps(g.log)
    ensures FinishLookup(g, i, prior, found, stamp).0.registry == g.registry
  {
    forall a: Appended | a.input.eventType != ExecutionStarted ensures StartedOps(g.log + [a]) == StartedOps(g.log) {
      StartedSnoc(g.log, a);
    }
  }

  lemma {:induction false} AuditStarts(g: Gate, t: AuditEventType, op: string, payload: seq<Field>, stamp: Stamp)
    ensures StartedOps(Audit(g, t, op, payload, stamp).log)
         == if t == ExecutionStarted then StartedOps(g.log) + [Some(op)] else StartedOps(g.log)
  {
    StartedSnoc(g.log, Appended(GatewayEvent(t, op, payload), stamp));
  }

  lemma {:induction false} BeginExecutionLogs(g: Gate, i: CallInput, c: Capability, hash: string, recheckAt: int, stamp: Stamp)
    ensures var (g', phase) := BeginExecution(g, i, c, hash, recheckAt, stamp);
      StartedOps(g'.log)
      == if phase.Racing? || phase.Settled? then StartedOps(g.log) + [Some(i.operation.operationId)] else StartedOps(g.log)
  {
    if RefuseConsume(g.registry, c.id, c.nonce) == None {
      AuditStarts(g.(registry := AfterConsume(g.registry, c.id)), ExecutionStarted, i.operation.operationId,
                  [Field("actionType", Str(ActionName(i.request.actionType)))], stamp);
    }
  }

  lemma {:induction false} BeginDuplicateLogs(g: Gate, op: string, prior: OperationRecord, stamp: Stamp)
    ensures StartedOps(BeginDuplicate(g, op, prior, stamp).0.log) == StartedOps(g.log)
    ensures !BeginDuplicate(g, op, prior, stamp).1.Racing? && !BeginDuplicate(g, op, prior, stamp).1.Settled?
  {
    AuditStarts(g, DuplicateReplayDetected, op, ReasonCode("IDEMPOTENT_REPLAY"), stamp);
  }

  /** `Begin` writes the entry exactly when it consumes. */
  lemma {:induction false} BeginLogs(payloadHash: Params -> string, g: Gate, i: CallInput, now: int, recheckAt: int, stamp: Stamp)
    ensures var (g', phase) := Begin(payloadHash, g, i, now, recheckAt, stamp);
      StartedOps(g'.log)
      == if phase.Racing? || phase.Settled? then StartedOps(g.log) + [Some(i.operation.operationId)] else StartedOps(g.log)
  {
    var op := i.operation.operationId;
    match ParseAndValidate(i.raw, i.request, now)
    case Failure(_) =>
    case Success(c) =>
      var stale := CheckPreconditions(c, i.currentProposalHash, i.currentResourceVersion, i.expectedResourceVersion);
      AuditStarts(g, PreconditionFailedEvent, op, [Field("reasonCodes", Arr(PreconditionNames(stale)))], stamp);
      AuditStarts(g, DuplicateReplayDetected, op, ReasonCode("IDEMPOTENCY_KEY_PAYLOAD_MISMATCH"), stamp);
      BeginExecutionLogs(g, i, c, payloadHash(i.params), recheckAt, stamp);
      match CheckKey(g.store, i.operation.idempotencyKey, payloadHash(i.params))
      case Duplicate(prior) => BeginDuplicateLogs(g, op, prior, stamp);
      case _ =>
  }

  /** What a `Begin` adds to registry and calls. */
  lemma {:induction false} BeginSpends(s: Setting, w: World, e: Event)
    requires Accounted(s, w) && e.BeginCall?
    ensures var w' := Step(s, w, e); var n := |w.calls|;
      && |w'.calls| == n + 1 && w'.calls[..n] == w.calls
      && StartedOps(w'.gate.log) == ConsumerOps(w'.calls)
      && (w'.calls[n].consumed.None? ==> w'.gate.registry == w.gate.registry)
      && (w'.calls[n].consumed.Some? ==>
            var id := w'.calls[n].consumed.value;
            && id in w.gate.registry && w.gate.registry[id].status == Active
            && w'.gate.registry == AfterConsume(w.gate.registry, id))
  {
    var w' := Step(s, w, e);
    BeginEffect(s, w.gate, e.input, e.now, e.recheckAt, e.beginStamp);
    BeginLogs(s.payloadHash, w.gate, e.input, e.now, e.recheckAt, e.beginStamp);
    ConsumersSnoc(w.calls, w'.calls[|w.calls|]);
  }

  lemma {:induction false} BeginAccounted(s: Setting, w: World, e: Event)
    requires Accounted(s, w) && e.BeginCall?
    ensures Accounted(s, Step(s, w, e))
  {
    CallsOkStep(s, w, e);
    BeginSpends(s, w, e);
    OneMoreAccounted(s, w, Step(s, w, e));
  }

  lemma {:induction false} OneMoreAccounted(s: Setting, w: World, w': World)
    requires Accounted(s, w) && CallsOk(s, w') && StartedOps(w'.gate.log) == ConsumerOps(w'.calls)
    requires var n := |w.calls|;
      && |w'.calls| == n + 1 && w'.calls[..n] == w.calls
      && (w'.calls[n].consumed.None? ==> w'.gate.registry == w.gate.registry)
      && (w'.calls[n].consumed.Some? ==>
            var id := w'.calls[n].consumed.value;
            && id in w.gate.registry && w.gate.registry[id].status == Active
            && w'.gate.registry == AfterConsume(w.gate.registry, id))
    ensures Accounted(s, w')
  {
    var n := |w.calls|;
    forall i, id | 0 <= i
      ensures Consumes(w'.calls, i, id) <==> Consumes(w.calls, i, id) || (i == n && w'.calls[n].consumed == Some(id))
    {
      assert i < n ==> w'.calls[i] == w'.calls[..n][i];
    }
    forall id | id in w'.gate.registry && w'.gate.registry[id].status == Consumed
      ensures exists i :: 0 <= i && Consumes(w'.calls, i, id)
    {
      if w'.calls[n].consumed == Some(id) {
        assert Consumes(w'.calls, n, id);
      } else {
        var i :| 0 <= i && Consumes(w.calls, i, id);
        assert Consumes(w'.calls, i, id);
      }
    }
  }

  /** An event that leaves registry, consumption and started entries as they are. */
  lemma {:induction false} QuietAccounted(s: Setting, w: World, e: Event)
    requires Accounted(s, w) && Enabled(w, e) && !e.BeginCall?
    requires StartedOps(Step(s, w, e).gate.log) == StartedOps(w.gate.log)
    requires Step(s, w, e).gate.registry == w.gate.registry
    ensures Accounted(s, Step(s, w, e))
  {
    var w' := Step(s, w, e);
    CallsOkStep(s, w, e);
    StepExtends(s, w, e);
    ConsumersSame(w.calls, w'.calls);
    assert forall i, id | 0 <= i :: Consumes(w'.calls, i, id) <==> Consumes(w.calls, i, id);
    forall id | id in w'.gate.registry && w'.gate.registry[id].status == Consumed
      ensures exists i :: 0 <= i && Consumes(w'.calls, i, id)
    {
      var i :| 0 <= i && Consumes(w.calls, i, id);
      assert Consumes(w'.calls, i, id);
    }
  }

  lemma {:induction false} AccountedStep(s: Setting, w: World, e: Event)
    requires Accounted(s, w) && Enabled(w, e)
    ensures Accounted(s, Step(s, w, e))
  {
    match e
    case Register(_) => CallsOkStep(s, w, e);
    case BeginCall(_, _, _, _) => BeginAccounted(s, w, e);
    case FinishCall(c, stamp) =>
      var p := w.calls[c].phase;
      FinishLogs(w.gate, w.calls[c].input, p.capability, p.payloadHash, p.outcome, stamp);
      QuietAccounted(s, w, e);
    case FinishReconcile(c, stamp) =>
      var p := w.calls[c].phase;
      FinishLookupLogs(w.gate, w.calls[c].input, p.prior, p.found, stamp);
      QuietAccounted(s, w, e);
    case _ => QuietAccounted(s, w, e);
  }

  lemma {:induction false} AccountedRun(s: Setting, w: World, es: seq<Event>)
    requires Accounted(s, w) && CanRun(s, w, es)
    ensures Accounted(s, Run(s, w, es))
    decreases |es|
  {
    if es != [] {
      AccountedStep(s, w, es[0]);
      AccountedRun(s, Step(s, w, es[0]), es[1..]);
    }
  }

  /** No two calls consumed the same capability. */
  ghost predicate SpentOnce(calls: seq<Call>) {
    forall i, j | 0 <= i < j < |calls| && calls[i].consumed.Some? :: calls[i].consumed != calls[j].consumed
  }

  ghost predicate ConsumedBy(calls: seq<Call>, id: string) {
    exists i :: 0 <= i < |calls| && calls[i].consumed == Some(id)
  }

  /** The registry's consumed capabilities are those the calls consumed. */
  ghost predicate RegistryExact(registry: RegistryState, calls: seq<Call>) {
    forall id :: (id in registry && registry[id].status == Consumed) <==> ConsumedBy(calls, id)
  }

  /** `execute` is called only with the capability its own call consumed. */
  ghost predicate OwnCapability(calls: seq<Call>) {
    forall i | 0 <= i < |calls| && calls[i].exec != NotCalled :: calls[i].consumed == Some(calls[i].exec.capability.id)
  }

  lemma {:induction false} AccountedSpentOnce(s: Setting, w: World)
    requires Accounted(s, w)
    ensures SpentOnce(w.calls)
  {
    forall i, j | 0 <= i < j < |w.calls| && w.calls[i].consumed.Some? ensures w.calls[i].consumed != w.calls[j].consumed {
      assert Consumes(w.calls, i, w.calls[i].consumed.value);
      assert !Consumes(w.calls, j, w.calls[i].consumed.value);
    }
  }

  lemma {:induction false} AccountedExact(s: Setting, w: World, id: string)
    requires Accounted(s, w)
    ensures (id in w.gate.registry && w.gate.registry[id].status == Consumed) <==> ConsumedBy(w.calls, id)
  {
    if ConsumedBy(w.calls, id) {
      var i :| 0 <= i < |w.calls| && w.calls[i].consumed == Some(id);
      assert Consumes(w.calls, i, id);
    }
  }

  lemma {:induction false} CallsOkOwn(s: Setting, w: World)
    requires CallsOk(s, w)
    ensures OwnCapability(w.calls)
  {
    forall i | 0 <= i < |w.calls| && w.calls[i].exec != NotCalled
      ensures w.calls[i].consumed == Some(w.calls[i].exec.capability.id)
    {
      assert CallOk(s, w.calls[i]);
    }
  }

  /**
   In every run: the EXECUTION_STARTED entries list, in order, the operations of exactly the calls
   that consumed a capability; no two calls consumed the same one; the registry's consumed
   capabilities are those the calls consumed; and `execute` was called only with the capability its
   own call consumed.
   */
  lemma {:induction false} CapabilityAccounting(s: Setting, es: seq<Event>)
    requires CanRun(s, Start(), es)
    ensures var w := Run(s, Start(), es);
      && StartedOps(w.gate.log) == ConsumerOps(w.calls)
      && SpentOnce(w.calls)
      && RegistryExact(w.gate.registry, w.calls)
      && OwnCapability(w.calls)
  {
    var w := Run(s, Start(), es);
    AccountedRun(s, Start(), es);
    AccountedSpentOnce(s, w);
    CallsOkOwn(s, w);
    forall id ensures (id in w.gate.registry && w.gate.registry[id].status == Consumed) <==> ConsumedBy(w.calls, id) {
      AccountedExact(s, w, id);
    }
  }

  /**
   A call spends a capability exactly when it is a new attempt the registry accepts; malformed or
   expired capabilities, failed preconditions, conflicts and duplicates leave the registry alone.
   */
  lemma {:induction false} OnlyNewAttemptsSpend(s: Setting, g: Gate, i: CallInput, now: int, recheckAt: int, stamp: Stamp)
    requires StoreKeyed(g.store)
    ensures var (g', phase) := Begin(s.payloadHash, g, i, now, recheckAt, stamp);
      && (g'.registry != g.registry <==> phase.Racing? || phase.Settled?)
      && (phase.Racing? || phase.Settled? ==>
            && i.operation.idempotencyKey !in g.store.byKey
            && phase.capability.id in g.registry && g.registry[phase.capability.id].status == Active
            && g'.registry == g.registry[phase.capability.id := g.registry[phase.capability.id].(status := Consumed)])
  {
    BeginEffect(s, g, i, now, recheckAt, stamp);
    var (g', phase) := Begin(s.payloadHash, g, i, now, recheckAt, stamp);
    if phase.Racing? || phase.Settled? {
      assert g'.registry[phase.capability.id].status == Consumed;
    }
  }

  // ----- where a spent capability comes from -----

  lemma {:induction false} RunSplit(s: Setting, w: World, es: seq<Event>, n: nat)
    requires CanRun(s, w, es) && n <= |es|
    ensures CanRun(s, w, es[..n]) && CanRun(s, Run(s, w, es[..n]), es[n..])
    ensures Run(s, w, es) == Run(s, Run(s, w, es[..n]), es[n..])
    decreases n
  {
    if n == 0 {
      assert es[..0] == [] && es[0..] == es;
    } else {
      assert es[..n][1..] == es[1..][..n - 1] && es[1..][n - 1..] == es[n..];
      RunSplit(s, Step(s, w, es[0]), es[1..], n - 1);
    }
  }

  lemma {:induction false} RunLast(s: Setting, es: seq<Event>)
    requires CanRun(s, Start(), es) && es != []
    ensures var n := |es| - 1;
      && CanRun(s, Start(), es[..n]) && Enabled(Run(s, Start(), es[..n]), es[n])
      && Run(s, Start(), es) == Step(s, Run(s, Start(), es[..n]), es[n])
  {
    var n := |es| - 1;
    RunSplit(s, Start(), es, n);
    assert es[n..] == [es[n]] && [es[n]][1..] == [];
    OneStep(s, Run(s, Start(), es[..n]), es[n]);
  }

  lemma {:induction false} OneStep(s: Setting, w: World, e: Event)
    requires CanRun(s, w, [e])
    ensures Enabled(w, e) && Run(s, w, [e]) == Step(s, w, e)
  {
    assert [e][1..] == [];
  }

  /** Event `k` registered a capability with this id and nonce. */
  predicate Registers(es: seq<Event>, k: nat, id: string, nonce: string) {
    k < |es| && es[k].Register? && es[k].capability.id == id && es[k].capability.nonce == nonce
  }

  lemma {:induction false} NoncesStay(s: Setting, w: World, e: Event)
    requires Enabled(w, e) && CallsOk(s, w)
    ensures forall id | id in Step(s, w, e).gate.registry ::
      || (id in w.gate.registry && w.gate.registry[id].nonce == Step(s, w, e).gate.registry[id].nonce)
      || (e.Register? && e.capability.id == id && e.capability.nonce == Step(s, w, e).gate.registry[id].nonce)
  {
    match e
    case BeginCall(i, now, recheckAt, stamp) => BeginEffect(s, w.gate, i, now, recheckAt, stamp);
    case FinishCall(c, stamp) =>
      var p := w.calls[c].phase;
      FinishLogs(w.gate, w.calls[c].input, p.capability, p.payloadHash, p.outcome, stamp);
    case FinishReconcile(c, stamp) =>
      var p := w.calls[c].phase;
      FinishLookupLogs(w.gate, w.calls[c].input, p.prior, p.found, stamp);
    case _ =>
  }

  /** Whatever the registry knows was registered, with the nonce it knows. */
  lemma {:induction false} RegistryFromEvents(s: Setting, es: seq<Event>, id: string)
    requires CanRun(s, Start(), es) && id in Run(s, Start(), es).gate.registry
    ensures exists k: nat :: Registers(es, k, id, Run(s, Start(), es).gate.registry[id].nonce)
    decreases |es|
  {
    if es != [] {
      var n := |es| - 1;
      RunLast(s, es);
      AccountedRun(s, Start(), es[..n]);
      var before, after := Run(s, Start(), es[..n]), Run(s, Start(), es);
      NoncesStay(s, before, es[n]);
      if id in before.gate.registry && before.gate.registry[id].nonce == after.gate.registry[id].nonce {
        RegistryFromEvents(s, es[..n], id);
        var k: nat :| Registers(es[..n], k, id, before.gate.registry[id].nonce);
        assert Registers(es, k, id, after.gate.registry[id].nonce);
      } else {
        assert Registers(es, n, id, after.gate.registry[id].nonce);
      }
    }
  }

  /** Event `m` began this call, which presented the id and nonce that event `k` before it registered. */
  predicate PresentedAt(es: seq<Event>, k: nat, m: nat, c: Call) {
    && k < m < |es| && es[m].BeginCall? && es[m].input == c.input
    && c.input.raw.Some? && c.consumed == Some(c.input.raw.value.id)
    && Registers(es, k, c.input.raw.value.id, c.input.raw.value.nonce)
  }

  /**
   In every run: each call that consumed a capability presented the id and the nonce of a capability
   that was registered before that call began.
   */
  lemma {:induction false} SpentWasRegistered(s: Setting, es: seq<Event>, i: nat)
    requires CanRun(s, Start(), es)
    requires i < |Run(s, Start(), es).calls| && Run(s, Start(), es).calls[i].consumed.Some?
    ensures exists k: nat, m: nat :: PresentedAt(es, k, m, Run(s, Start(), es).calls[i])
    decreases |es|
  {
    var n := |es| - 1;
    RunLast(s, es);
    AccountedRun(s, Start(), es[..n]);
    var before, after := Run(s, Start(), es[..n]), Run(s, Start(), es);
    StepExtends(s, before, es[n]);
    if i < |before.calls| {
      SpentWasRegistered(s, es[..n], i);
      var k: nat, m: nat :| PresentedAt(es[..n], k, m, before.calls[i]);
      assert PresentedAt(es, k, m, after.calls[i]);
    } else {
      NewSpender(s, before, es[n]);
      RegistryFromEvents(s, es[..n], after.calls[i].consumed.value);
      var k: nat :| Registers(es[..n], k, after.calls[i].consumed.value, after.calls[i].input.raw.value.nonce);
      assert PresentedAt(es, k, n, after.calls[i]);
    }
  }

  /** A new call that consumes presented a known id with its nonce, active until then. */
  lemma {:induction false} NewSpender(s: Setting, w: World, e: Event)
    requires CallsOk(s, w) && Enabled(w, e) && |Step(s, w, e).calls| > |w.calls|
    ensures |Step(s, w, e).calls| == |w.calls| + 1
    ensures var c := Step(s, w, e).calls[|w.calls|];
      && e.BeginCall? && c.input == e.input
      && (c.consumed.Some? ==>
            && c.input.raw.Some? && c.consumed == Some(c.input.raw.value.id)
            && c.consumed.value in w.gate.registry
            && w.gate.registry[c.consumed.value].nonce == c.input.raw.value.nonce
            && w.gate.registry[c.consumed.value].status == Active)
  {
    if e.BeginCall? {
      BeginEffect(s, w.gate, e.input, e.now, e.recheckAt, e.beginStamp);
      if e.input.raw.Some? {
        ConsumeExact(w.gate.registry, e.input.raw.value.id, e.input.raw.value.nonce);
      }
    }
  }
}
