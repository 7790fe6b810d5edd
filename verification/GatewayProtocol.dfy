/**
 Any number of `executeAction` calls over one registry, store, adapter and ledger. An event is one
 atomic piece of one call, the firing of an adapter effect, or the registration of a capability;
 a run is any list of events. Effects may fire at any time after the call that asked for them has
 begun, also after it has returned.
 */
module GatewayProtocol {
  import opened Prelude
  import opened Contracts
  import opened HashChain
  import opened Receipts
  import opened Adapters
  import opened Stores
  import opened Gateway

  /** Whether `adapter.execute` was called for a call, and whether its effect has fired yet. */
  datatype ExecStatus =
    | NotCalled
    | InFlight(capability: Capability)
    | Fired(capability: Capability, result: ExecResult, firedAt: int)

  /**
   One call. `consumed` is the capability it consumed and `handed` the receipt the adapter handed it
   through `execute` or `lookup`; both only record what happened.
   */
  datatype Call = Call(
    input: CallInput, phase: Phase, exec: ExecStatus, consumed: Option<string>, handed: Option<Receipt>)

  datatype World = World(gate: Gate, adapter: AdapterState, calls: seq<Call>)

  /** What does not change in a run: the adapter's action type and the payload hash. */
  datatype Setting = Setting(kind: ActionType, payloadHash: Params -> string)

  datatype Event =
    | Register(capability: Capability)
    | BeginCall(input: CallInput, now: int, recheckAt: int, beginStamp: Stamp)
    | Fire(c: nat, env: ExecInputs)
    | FireForeign(c: nat, result: ExecResult, firedAt: int)
    | Settle(c: nat, timedOut: bool)
    | FinishCall(c: nat, stamp: Stamp)
    | LookUp(c: nat)
    | LookUpForeign(c: nat, found: Option<Receipt>)
    | FinishReconcile(c: nat, stamp: Stamp)

  predicate Enabled(w: World, e: Event) {
    match e
    case Register(cap) => cap.id !in w.gate.registry && cap.status == Active
    case BeginCall(_, _, _, _) => true
    case Fire(c, _) => c < |w.calls| && w.calls[c].exec.InFlight?
    case FireForeign(c, _, _) => c < |w.calls| && w.calls[c].exec.InFlight?
    case Settle(c, timedOut) => c < |w.calls| && w.calls[c].phase.Racing? && (timedOut || w.calls[c].exec.Fired?)
    case FinishCall(c, _) => c < |w.calls| && w.calls[c].phase.Settled?
    case LookUp(c) => c < |w.calls| && w.calls[c].phase.LookingUp?
    case LookUpForeign(c, _) => c < |w.calls| && w.calls[c].phase.LookingUp?
    case FinishReconcile(c, _) => c < |w.calls| && w.calls[c].phase.LookedUp?
  }

  /** The events of a world whose adapter is one of the fake adapters; the others allow any adapter. */
  predicate FakeAdapterEvent(e: Event) {
    !e.FireForeign? && !e.LookUpForeign?
  }

  function Update(w: World, c: nat, call: Call): World
    requires c < |w.calls|
  {
    w.(calls := w.calls[c := call])
  }

  function NewCall(input: CallInput, phase: Phase): Call {
    Call(input, phase, if phase.Racing? then InFlight(phase.capability) else NotCalled,
         if phase.Racing? || phase.Settled? then Some(phase.capability.id) else None, None)
  }

  /** The adapter's answer, as the race sees it. */
  function AnswerOf(r: ExecResult): RaceOutcome {
    match r
    case Receipted(receipt) => Resolved(receipt)
    case Threw(error) => RaceOutcome.Rejected(error)
  }

  function Settling(call: Call, timedOut: bool): Call
    requires call.phase.Racing? && (timedOut || call.exec.Fired?)
  {
    var outcome := if timedOut then TimedOut else AnswerOf(call.exec.result);
    call.(phase := Settled(call.phase.capability, call.phase.payloadHash, outcome),
          handed := if outcome.Resolved? then Some(outcome.receipt) else None)
  }

  function Step(s: Setting, w: World, e: Event): World
    requires Enabled(w, e)
  {
    match e
    case Register(cap) => w.(gate := w.gate.(registry := w.gate.registry[cap.id := cap]))
    case BeginCall(input, now, recheckAt, stamp) =>
      var (g, phase) := Begin(s.payloadHash, w.gate, input, now, recheckAt, stamp);
      w.(gate := g, calls := w.calls + [NewCall(input, phase)])
    case Fire(c, env) =>
      var call := w.calls[c];
      var (a, result) := AfterExecute(s.kind, s.payloadHash, w.adapter, call.input.operation,
                                      call.exec.capability, call.input.params, env);
      Update(w, c, call.(exec := Fired(call.exec.capability, result, env.checkedAt))).(adapter := a)
    case FireForeign(c, result, at) =>
      Update(w, c, w.calls[c].(exec := Fired(w.calls[c].exec.capability, result, at)))
    case Settle(c, timedOut) => Update(w, c, Settling(w.calls[c], timedOut))
    case FinishCall(c, stamp) =>
      var p := w.calls[c].phase;
      var (g, result) := Finish(w.gate, w.calls[c].input, p.capability, p.payloadHash, p.outcome, stamp);
      Update(w, c, w.calls[c].(phase := Returned(result))).(gate := g)
    case LookUp(c) => Update(w, c, LookedUpWith(w.calls[c], Found(w.adapter, w.calls[c].phase.prior.operationId)))
    case LookUpForeign(c, found) => Update(w, c, LookedUpWith(w.calls[c], found))
    case FinishReconcile(c, stamp) =>
      var p := w.calls[c].phase;
      var (g, result) := FinishLookup(w.gate, w.calls[c].input, p.prior, p.found, stamp);
      Update(w, c, w.calls[c].(phase := Returned(result))).(gate := g)
  }

  function LookedUpWith(call: Call, found: Option<Receipt>): Call
    requires call.phase.LookingUp?
  {
    call.(phase := LookedUp(call.phase.prior, found), handed := found)
  }

  function Start(): World {
    World(Gate(map[], StoreState(map[], map[]), []), AdapterState(map[], map[]), [])
  }

  /** Every event of the list can happen when its turn comes. */
  ghost predicate CanRun(s: Setting, w: World, es: seq<Event>)
    decreases |es|
  {
    es == [] || (Enabled(w, es[0]) && CanRun(s, Step(s, w, es[0]), es[1..]))
  }

  ghost function Run(s: Setting, w: World, es: seq<Event>): World
    requires CanRun(s, w, es)
    decreases |es|
  {
    if es == [] then w else Run(s, Step(s, w, es[0]), es[1..])
  }

  function Key(c: Call): string {
    c.input.operation.idempotencyKey
  }

  /** `adapter.execute` was called for this call. */
  predicate Executed(c: Call) {
    c.exec != NotCalled
  }

  // ----- what every call keeps to -----

  /** The history fields of a call agree with its phase. */
  ghost predicate CallOk(s: Setting, c: Call) {
    && (c.exec != NotCalled ==> c.consumed == Some(c.exec.capability.id))
    && match c.phase
       case Racing(cap, h) =>
         && c.exec != NotCalled && c.exec.capability == cap && c.consumed == Some(cap.id) && c.handed == None
         && h == s.payloadHash(c.input.params)
       case Settled(cap, h, o) =>
         && c.consumed == Some(cap.id) && h == s.payloadHash(c.input.params)
         && (o.Resolved? ==> c.handed == Some(o.receipt)) && (o.GatewayRefused? <==> c.exec == NotCalled)
       case LookingUp(prior) => c.exec == NotCalled && c.consumed == None && c.handed == None && prior.idempotencyKey == Key(c)
       case LookedUp(prior, found) =>
         c.exec == NotCalled && c.consumed == None && c.handed == found && prior.idempotencyKey == Key(c)
       case Returned(_) => true
  }

  /** Records are filed under the key they carry. */
  ghost predicate StoreKeyed(store: StoreState) {
    forall k | k in store.byKey :: store.byKey[k].idempotencyKey == k
  }

  ghost predicate CallsOk(s: Setting, w: World) {
    StoreKeyed(w.gate.store) && forall i | 0 <= i < |w.calls| :: CallOk(s, w.calls[i])
  }

  /** What `Begin` does to the shared state, by the phase it leaves the call in. */
  lemma {:induction false} BeginEffect(s: Setting, g: Gate, input: CallInput, now: int, recheckAt: int, stamp: Stamp)
    requires StoreKeyed(g.store)
    ensures var (g', phase) := Begin(s.payloadHash, g, input, now, recheckAt, stamp);
      && g'.store == g.store
      && CallOk(s, NewCall(input, phase))
      && (phase.Racing? || phase.Settled? ==>
            && input.raw == Some(phase.capability)
            && RefuseConsume(g.registry, phase.capability.id, phase.capability.nonce) == None
            && g'.registry == AfterConsume(g.registry, phase.capability.id)
            && input.operation.idempotencyKey !in g.store.byKey)
      && (!phase.Racing? && !phase.Settled? ==> g'.registry == g.registry)
      && (phase.LookingUp? ==>
            && input.operation.idempotencyKey in g.store.byKey
            && phase.prior == g.store.byKey[input.operation.idempotencyKey]
            && phase.prior.payloadHash == s.payloadHash(input.params))
      && (phase.Returned? && phase.result.Done? ==>
            && input.operation.idempotencyKey in g.store.byKey
            && g.store.byKey[input.operation.idempotencyKey].state == Succeeded
            && g.store.byKey[input.operation.idempotencyKey].receipt == Some(phase.result.receipt)
            && g.store.byKey[input.operation.idempotencyKey].payloadHash == s.payloadHash(input.params))
      && !phase.LookedUp?
  {
  }

  lemma {:induction false} FinishKeyed(g: Gate, i: CallInput, c: Capability, hash: string, outcome: RaceOutcome, stamp: Stamp)
    requires StoreKeyed(g.store)
    ensures StoreKeyed(Finish(g, i, c, hash, outcome, stamp).0.store)
  {
  }

  lemma {:induction false} FinishLookupKeyed(g: Gate, i: CallInput, prior: OperationRecord, found: Option<Receipt>, stamp: Stamp)
    requires StoreKeyed(g.store)
    ensures StoreKeyed(FinishLookup(g, i, prior, found, stamp).0.store)
  {
  }

  lemma {:induction false} CallsOkStep(s: Setting, w: World, e: Event)
    requires CallsOk(s, w) && Enabled(w, e)
    ensures CallsOk(s, Step(s, w, e))
  {
    match e
    case Register(_) =>
    case BeginCall(input, now, recheckAt, stamp) => BeginEffect(s, w.gate, input, now, recheckAt, stamp);
    case FinishCall(c, stamp) =>
      var p := w.calls[c].phase;
      FinishKeyed(w.gate, w.calls[c].input, p.capability, p.payloadHash, p.outcome, stamp);
    case FinishReconcile(c, stamp) =>
      var p := w.calls[c].phase;
      FinishLookupKeyed(w.gate, w.calls[c].input, p.prior, p.found, stamp);
    case Settle(c, timedOut) => assert CallOk(s, w.calls[c]);
    case Fire(c, _) => assert CallOk(s, w.calls[c]);
    case FireForeign(c, _, _) => assert CallOk(s, w.calls[c]);
    case LookUp(c) => assert CallOk(s, w.calls[c]);
    case LookUpForeign(c, _) => assert CallOk(s, w.calls[c]);
  }

  /** Calls are only added; what a call was given, consumed and handed stays with it. */
  ghost predicate Extends(a: seq<Call>, b: seq<Call>) {
    && |a| <= |b|
    && forall i | 0 <= i < |a| ::
         && b[i].input == a[i].input
         && b[i].consumed == a[i].consumed
         && (a[i].handed.Some? ==> b[i].handed == a[i].handed)
         && (a[i].exec != NotCalled <==> b[i].exec != NotCalled)
         && (a[i].phase.Returned? ==> b[i].phase == a[i].phase)
  }

  lemma {:induction false} StepExtends(s: Setting, w: World, e: Event)
    requires CallsOk(s, w) && Enabled(w, e)
    ensures Extends(w.calls, Step(s, w, e).calls)
  {
  }
}
