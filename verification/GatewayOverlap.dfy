/**
 What overlap can do, with an input that shows it, and exactly when it does: two executions on one key,
 and records that are overwritten instead of resolved.
 */
module GatewayOverlap {
  import opened Prelude
  import opened Contracts
  import opened HashChain
  import opened Receipts
  import opened Adapters
  import opened Stores
  import opened Gateway
  import opened GatewayProtocol
  import opened GatewayEvidence
  import opened GatewayAccounting
  import opened GatewaySequential

  function Ticket(): Params {
    TicketParams("t", None, None)
  }

  function Granted(id: string): Capability {
    Capability(id, "p", CreateInternalTicket, "r", "h", At(10), "n", Active)
  }

  /** Both calls are alike but for the capability. */
  function Asking(c: Capability): CallInput {
    CallInput(Some(c), CapabilityRequest("p", CreateInternalTicket, "r", "h"), Operation("op", "key"), Ticket(),
              "h", 1, 1, ExpectTicket("key"))
  }

  const S: Stamp := Stamp("e", "t")

  /** Two calls on one key begin before either has returned. */
  function BothBegin(): seq<Event> {
    [Register(Granted("1")), Register(Granted("2")), BeginCall(Asking(Granted("1")), 0, 0, S), BeginCall(Asking(Granted("2")), 0, 0, S)]
  }

  /** The first succeeds; then the second runs into its timeout. */
  function ThenFinish(): seq<Event> {
    [Fire(0, ExecInputs(0, "id", 0)), Settle(0, false), FinishCall(0, S)]
  }

  function ThenTimeOut(): seq<Event> {
    [Settle(1, true), FinishCall(1, S)]
  }

  lemma {:induction false} RunOn(s: Setting, w: World, e: Event, es: seq<Event>)
    requires Enabled(w, e) && CanRun(s, Step(s, w, e), es)
    ensures CanRun(s, w, [e] + es) && Run(s, w, [e] + es) == Run(s, Step(s, w, e), es)
  {
    assert ([e] + es)[1..] == es;
  }

  lemma {:induction false} OneCallBegins(s: Setting, w: World, c: Capability)
    requires c.id in w.gate.registry && w.gate.registry[c.id] == c && c == Granted(c.id) && c.id != ""
    requires "key" !in w.gate.store.byKey
    ensures var w' := Step(s, w, BeginCall(Asking(c), 0, 0, S));
      && w'.calls == w.calls + [NewCall(Asking(c), Racing(c, s.payloadHash(Ticket())))]
      && w'.gate.registry == AfterConsume(w.gate.registry, c.id)
      && w'.gate.store == w.gate.store && w'.adapter == w.adapter
  {
  }

  /** Both calls have consumed their capability and entered `execute`. */
  ghost predicate BothRacing(s: Setting, w: World) {
    && |w.calls| == 2 && w.adapter.byKey == map[] && w.gate.store.byKey == map[]
    && w.calls[0] == NewCall(Asking(Granted("1")), Racing(Granted("1"), s.payloadHash(Ticket())))
    && w.calls[1] == NewCall(Asking(Granted("2")), Racing(Granted("2"), s.payloadHash(Ticket())))
  }

  lemma {:induction false} BothAreRacing(s: Setting)
    ensures CanRun(s, Start(), BothBegin()) && BothRacing(s, Run(s, Start(), BothBegin()))
  {
    var w0 := Start();
    var es := BothBegin();
    var w1 := Step(s, w0, es[0]);
    var w2 := Step(s, w1, es[1]);
    var w3 := Step(s, w2, es[2]);
    assert "1" != "2";
    OneCallBegins(s, w2, Granted("1"));
    OneCallBegins(s, w3, Granted("2"));
    var w4 := Step(s, w3, es[3]);
    assert CanRun(s, w4, []);
    RunOn(s, w3, es[3], []);
    RunOn(s, w2, es[2], [es[3]]);
    RunOn(s, w1, es[1], [es[2], es[3]]);
    RunOn(s, w0, es[0], [es[1], es[2], es[3]]);
    assert [es[0]] + [es[1], es[2], es[3]] == es;
    assert [es[1]] + [es[2], es[3]] == [es[1], es[2], es[3]];
    assert [es[2]] + [es[3]] == [es[2], es[3]];
    assert [es[3]] + [] == [es[3]];
  }

  lemma {:induction false} FirstSucceeds(s: Setting, w: World)
    requires s.kind == CreateInternalTicket && BothRacing(s, w)
    ensures CanRun(s, w, ThenFinish())
    ensures var w' := Run(s, w, ThenFinish());
      && |w'.calls| == 2 && w'.calls[1] == w.calls[1]
      && "key" in w'.gate.store.byKey && w'.gate.store.byKey["key"].state == Succeeded
  {
    var es := ThenFinish();
    var w1 := Step(s, w, es[0]);
    var receipt := BuildReceipt(Ticket(), "key", "r", "id", 0);
    assert JsLength("t") == 1;
    assert w1.calls[0].exec == Fired(Granted("1"), Receipted(receipt), 0);
    var w2 := Step(s, w1, es[1]);
    var w3 := Step(s, w2, es[2]);
    assert CanRun(s, w3, []);
    RunOn(s, w2, es[2], []);
    RunOn(s, w1, es[1], [es[2]]);
    RunOn(s, w, es[0], [es[1], es[2]]);
    assert [es[0]] + [es[1], es[2]] == es && [es[1]] + [es[2]] == [es[1], es[2]] && [es[2]] + [] == [es[2]];
  }

  lemma {:induction false} SecondTimesOut(s: Setting, w: World)
    requires |w.calls| == 2 && w.calls[1] == NewCall(Asking(Granted("2")), Racing(Granted("2"), s.payloadHash(Ticket())))
    ensures CanRun(s, w, ThenTimeOut())
    ensures var w' := Run(s, w, ThenTimeOut());
      "key" in w'.gate.store.byKey && w'.gate.store.byKey["key"].state == UnknownOperation
  {
    var es := ThenTimeOut();
    var w1 := Step(s, w, es[0]);
    var w2 := Step(s, w1, es[1]);
    assert CanRun(s, w2, []);
    RunOn(s, w1, es[1], []);
    RunOn(s, w, es[0], [es[1]]);
    assert [es[0]] + [es[1]] == es && [es[1]] + [] == [es[1]];
  }

  /**
   Taking turns is needed: two overlapping calls on one key can both call `execute`, and the slower
   one then replaces a succeeded record by an unknown one.
   */
  lemma {:induction false} OverlapExecutesTwice(s: Setting)
    requires s.kind == CreateInternalTicket
    ensures CanRun(s, Start(), BothBegin())
    ensures var both := Run(s, Start(), BothBegin());
      && |both.calls| == 2 && Key(both.calls[0]) == Key(both.calls[1])
      && Executed(both.calls[0]) && Executed(both.calls[1])
      && CanRun(s, both, ThenFinish())
      && var done := Run(s, both, ThenFinish());
         && "key" in done.gate.store.byKey && done.gate.store.byKey["key"].state == Succeeded
         && CanRun(s, done, ThenTimeOut())
         && !Moves(done.gate.store.byKey, Run(s, done, ThenTimeOut()).gate.store.byKey, "key")
  {
    BothAreRacing(s);
    var both := Run(s, Start(), BothBegin());
    FirstSucceeds(s, both);
    SecondTimesOut(s, Run(s, both, ThenFinish()));
  }

  /** Or: the first call times out after its effect, and a third call starts to reconcile. */
  function ThenFirstTimesOut(): seq<Event> {
    [Fire(0, ExecInputs(0, "id", 0)), Settle(0, true), FinishCall(0, S)]
  }

  function ThenLookUp(): seq<Event> {
    [BeginCall(Asking(Granted("1")), 0, 0, S), LookUp(2)]
  }

  function FoundReceipt(): Receipt {
    BuildReceipt(Ticket(), "key", "r", "id", 0)
  }

  function TimedOutRecord(s: Setting): OperationRecord {
    NewRecord(Asking(Granted("1")), "1", s.payloadHash(Ticket()), UnknownOperation, None, None)
  }

  lemma {:induction false} RunTwo(s: Setting, w: World, e: Event, f: Event)
    requires Enabled(w, e) && Enabled(Step(s, w, e), f)
    ensures CanRun(s, w, [e, f]) && Run(s, w, [e, f]) == Step(s, Step(s, w, e), f)
  {
    var v := Step(s, w, e);
    assert CanRun(s, Step(s, v, f), []);
    RunOn(s, v, f, []);
    RunOn(s, w, e, [f]);
    assert [f] + [] == [f] && [e] + [f] == [e, f];
  }

  /** The first call's timeout is recorded after its effect has landed. */
  lemma {:induction false} FirstTimesOut(s: Setting, w: World)
    requires s.kind == CreateInternalTicket && BothRacing(s, w)
    ensures CanRun(s, w, ThenFirstTimesOut())
    ensures var w' := Run(s, w, ThenFirstTimesOut());
      && |w'.calls| == 2 && w'.calls[1] == w.calls[1]
      && "op" in w'.adapter.byOp && w'.adapter.byOp["op"] == FoundReceipt()
      && w'.gate.store.byKey == map["key" := TimedOutRecord(s)]
  {
    var es := ThenFirstTimesOut();
    var w1 := Step(s, w, es[0]);
    assert JsLength("t") == 1;
    assert w1.calls[0].exec == Fired(Granted("1"), Receipted(FoundReceipt()), 0);
    RunTwo(s, w1, es[1], es[2]);
    RunOn(s, w, es[0], [es[1], es[2]]);
    assert [es[0]] + [es[1], es[2]] == es;
  }

  /** A third call, not an attempt, looks the operation up and finds its receipt. */
  lemma {:induction false} ThirdLooksUp(s: Setting, w: World)
    requires |w.calls| == 2 && "op" in w.adapter.byOp && w.adapter.byOp["op"] == FoundReceipt()
    requires w.gate.store.byKey == map["key" := TimedOutRecord(s)]
    ensures CanRun(s, w, ThenLookUp())
    ensures var w' := Run(s, w, ThenLookUp());
      && |w'.calls| == 3 && w'.calls[1] == w.calls[1] && w'.gate.store == w.gate.store
      && w'.calls[2].input == Asking(Granted("1"))
      && w'.calls[2].phase == LookedUp(TimedOutRecord(s), Some(FoundReceipt()))
  {
    var es := ThenLookUp();
    RunTwo(s, w, es[0], es[1]);
    assert es == [es[0], es[1]];
  }

  /** The second attempt's timeout overwrites the record, and then the reconciliation's success does. */
  lemma {:induction false} BothOverwrite(s: Setting, w: World)
    requires |w.calls| == 3 && w.calls[1] == NewCall(Asking(Granted("2")), Racing(Granted("2"), s.payloadHash(Ticket())))
    requires w.calls[2].input == Asking(Granted("1"))
    requires w.calls[2].phase == LookedUp(TimedOutRecord(s), Some(FoundReceipt()))
    ensures CanRun(s, w, ThenTimeOut()) && Enabled(Run(s, w, ThenTimeOut()), FinishReconcile(2, S))
    ensures var late := Run(s, w, ThenTimeOut());
      !Moves(late.gate.store.byKey, Step(s, late, FinishReconcile(2, S)).gate.store.byKey, "key")
  {
    var es := ThenTimeOut();
    RunTwo(s, w, es[0], es[1]);
    assert es == [es[0], es[1]] && "1" != "2" && JsLength("t") == 1;
  }

  /** A reconciliation can overwrite a record too: one an overlapping attempt has left there meanwhile. */
  lemma {:induction false} ReconciliationOverwritesToo(s: Setting)
    requires s.kind == CreateInternalTicket
    ensures CanRun(s, Start(), BothBegin())
    ensures var both := Run(s, Start(), BothBegin());
      && CanRun(s, both, ThenFirstTimesOut())
      && var unknown := Run(s, both, ThenFirstTimesOut());
         && CanRun(s, unknown, ThenLookUp())
         && var asked := Run(s, unknown, ThenLookUp());
            && CanRun(s, asked, ThenTimeOut())
            && var late := Run(s, asked, ThenTimeOut());
               && Enabled(late, FinishReconcile(2, S))
               && !Moves(late.gate.store.byKey, Step(s, late, FinishReconcile(2, S)).gate.store.byKey, "key")
  {
    BothAreRacing(s);
    var both := Run(s, Start(), BothBegin());
    FirstTimesOut(s, both);
    ThirdLooksUp(s, Run(s, both, ThenFirstTimesOut()));
    BothOverwrite(s, Run(s, Run(s, both, ThenFirstTimesOut()), ThenLookUp()));
  }

  // ----- exactly when a record is overwritten -----

  /** The capability this record names is not one a call under way is spending. */
  predicate NotSpending(calls: seq<Call>, rec: OperationRecord) {
    forall i | 0 <= i < |calls| && Attempting(calls[i]) :: calls[i].consumed != Some(rec.capabilityId)
  }

  /** Call `i` timed out and left this record. */
  ghost predicate TimedOutAt(s: Setting, calls: seq<Call>, i: nat, rec: OperationRecord) {
    && i < |calls| && calls[i].consumed == Some(rec.capabilityId)
    && rec == NewRecord(calls[i].input, rec.capabilityId, s.payloadHash(calls[i].input.params), UnknownOperation, None, None)
  }

  /** A record nobody is about to write; if its outcome is unknown, some call's timeout wrote it. */
  ghost predicate Written(s: Setting, calls: seq<Call>, rec: OperationRecord) {
    && NotSpending(calls, rec)
    && (rec.state == UnknownOperation ==> exists i: nat :: TimedOutAt(s, calls, i, rec))
  }

  ghost predicate PriorWritten(s: Setting, calls: seq<Call>, c: Call) {
    c.phase.LookingUp? || c.phase.LookedUp? ==> Written(s, calls, c.phase.prior)
  }

  ghost predicate RecordsWritten(s: Setting, w: World) {
    && (forall k | k in w.gate.store.byKey :: Written(s, w.calls, w.gate.store.byKey[k]))
    && (forall i | 0 <= i < |w.calls| :: PriorWritten(s, w.calls, w.calls[i]))
    && (forall i | 0 <= i < |w.calls| && (w.calls[i].phase.LookingUp? || w.calls[i].phase.LookedUp?) ::
          Key(w.calls[i]) in w.gate.store.byKey)
  }

  ghost predicate OverlapOk(s: Setting, w: World) {
    AttemptsOk(s, w) && EvidenceOk(s, w) && Accounted(s, w) && RecordsWritten(s, w)
  }

  /** What an event may do to the calls as far as attempts are concerned. */
  predicate NoNewAttempt(a: seq<Call>, b: seq<Call>) {
    && |a| <= |b|
    && (forall i | 0 <= i < |a| ::
          b[i].input == a[i].input && b[i].consumed == a[i].consumed && (Attempting(b[i]) ==> Attempting(a[i])))
    && (forall i | |a| <= i < |b| :: !Attempting(b[i]))
  }

  lemma {:induction false} WrittenKept(s: Setting, a: seq<Call>, b: seq<Call>, rec: OperationRecord)
    requires Written(s, a, rec) && NoNewAttempt(a, b)
    ensures Written(s, b, rec)
  {
    if rec.state == UnknownOperation {
      var i: nat :| TimedOutAt(s, a, i, rec);
      assert TimedOutAt(s, b, i, rec);
    }
  }

  /** A new attempt spends a capability that no record names. */
  lemma {:induction false} WrittenBefore(s: Setting, w: World, w': World, rec: OperationRecord, key: string)
    requires Written(s, w.calls, rec) && RecordOk(s, w.calls, key, rec)
    requires |w'.calls| == |w.calls| + 1 && w'.calls[..|w.calls|] == w.calls && SpentOnce(w'.calls)
    ensures Written(s, w'.calls, rec)
  {
    var n := |w.calls|;
    forall i | 0 <= i < n ensures w'.calls[i] == w.calls[i] {
      assert w'.calls[i] == w'.calls[..n][i];
    }
    var p: nat :| Pays(s, w.calls, p, key, rec.capabilityId, rec.payloadHash);
    assert w'.calls[p].consumed == Some(rec.capabilityId);
    if rec.state == UnknownOperation {
      var i: nat :| TimedOutAt(s, w.calls, i, rec);
      assert TimedOutAt(s, w'.calls, i, rec);
    }
  }

  lemma {:induction false} BeginWritten(s: Setting, w: World, w': World)
    requires RecordsWritten(s, w) && EvidenceOk(s, w) && w'.gate.store == w.gate.store
    requires |w'.calls| == |w.calls| + 1 && w'.calls[..|w.calls|] == w.calls && SpentOnce(w'.calls)
    requires var c := w'.calls[|w.calls|];
      && !c.phase.LookedUp?
      && (c.phase.LookingUp? ==> Key(c) in w.gate.store.byKey && c.phase.prior == w.gate.store.byKey[Key(c)])
    ensures RecordsWritten(s, w')
  {
    var n := |w.calls|;
    forall i | 0 <= i < n ensures w'.calls[i] == w.calls[i] {
      assert w'.calls[i] == w'.calls[..n][i];
    }
    forall k | k in w'.gate.store.byKey ensures Written(s, w'.calls, w'.gate.store.byKey[k]) {
      WrittenBefore(s, w, w', w.gate.store.byKey[k], k);
    }
    forall i | 0 <= i < |w'.calls| ensures PriorWritten(s, w'.calls, w'.calls[i]) {
      if i < n && (w.calls[i].phase.LookingUp? || w.calls[i].phase.LookedUp?) {
        assert PriorWritten(s, w.calls, w.calls[i]) && PhaseOk(s, w.calls, w.calls[i]);
        WrittenBefore(s, w, w', w.calls[i].phase.prior, Key(w.calls[i]));
      }
    }
  }

  lemma {:induction false} BeginOverlap(s: Setting, w: World, e: Event)
    requires OverlapOk(s, w) && e.BeginCall?
    ensures OverlapOk(s, Step(s, w, e))
  {
    var w' := Step(s, w, e);
    AttemptsStep(s, w, e);
    EvidenceStep(s, w, e);
    AccountedStep(s, w, e);
    AccountedSpentOnce(s, w');
    BeginAddsCall(s, w, e);
    BeginWritten(s, w, w');
  }

  lemma {:induction false} BeginAddsCall(s: Setting, w: World, e: Event)
    requires CallsOk(s, w) && e.BeginCall?
    ensures var w' := Step(s, w, e); var n := |w.calls|;
      && w'.gate.store == w.gate.store && |w'.calls| == n + 1 && w'.calls[..n] == w.calls
      && !w'.calls[n].phase.LookedUp?
      && (w'.calls[n].phase.LookingUp? ==>
            Key(w'.calls[n]) in w.gate.store.byKey && w'.calls[n].phase.prior == w.gate.store.byKey[Key(w'.calls[n])])
  {
    BeginEffect(s, w.gate, e.input, e.now, e.recheckAt, e.beginStamp);
  }

  /** Lookups are only left, never begun anew, and keep the record they set out from. */
  predicate LookupsStay(a: seq<Call>, b: seq<Call>) {
    && |a| == |b|
    && forall i | 0 <= i < |a| ::
         b[i].phase.LookingUp? || b[i].phase.LookedUp? ==>
           (a[i].phase.LookingUp? || a[i].phase.LookedUp?) && b[i].phase.prior == a[i].phase.prior
  }

  /** At most the record of `key` is written. */
  lemma {:induction false} LaterWritten(s: Setting, w: World, w': World, key: string)
    requires RecordsWritten(s, w) && NoNewAttempt(w.calls, w'.calls) && LookupsStay(w.calls, w'.calls)
    requires var after := w'.gate.store.byKey;
      || after == w.gate.store.byKey
      || (key in after && after == w.gate.store.byKey[key := after[key]] && Written(s, w'.calls, after[key]))
    ensures RecordsWritten(s, w')
  {
    forall k | k in w'.gate.store.byKey ensures Written(s, w'.calls, w'.gate.store.byKey[k]) {
      if k in w.gate.store.byKey && w'.gate.store.byKey[k] == w.gate.store.byKey[k] {
        WrittenKept(s, w.calls, w'.calls, w.gate.store.byKey[k]);
      }
    }
    forall i | 0 <= i < |w'.calls| ensures PriorWritten(s, w'.calls, w'.calls[i]) {
      assert PriorWritten(s, w.calls, w.calls[i]);
      if w'.calls[i].phase.LookingUp? || w'.calls[i].phase.LookedUp? {
        WrittenKept(s, w.calls, w'.calls, w.calls[i].phase.prior);
      }
    }
  }

  /** How any event but a new call moves the calls. */
  lemma {:induction false} LaterMoves(s: Setting, w: World, e: Event)
    requires CallsOk(s, w) && Enabled(w, e) && !e.BeginCall?
    ensures var w' := Step(s, w, e);
      && NoNewAttempt(w.calls, w'.calls)
      && (e.FinishCall? ==> !Attempting(w'.calls[e.c]))
      && (!e.FinishCall? && !e.FinishReconcile? ==> w'.gate.store == w.gate.store)
      && LookupsStay(w.calls, w'.calls)
  {
  }

  /** The record a finished attempt writes names the capability of that attempt, which no one else spends. */
  lemma {:induction false} FinishWritten(s: Setting, w: World, c: nat, stamp: Stamp)
    requires CallsOk(s, w) && SpentOnce(w.calls) && Enabled(w, FinishCall(c, stamp))
    ensures var w' := Step(s, w, FinishCall(c, stamp)); var k := Key(w.calls[c]);
      && k in w'.gate.store.byKey && w'.gate.store.byKey == w.gate.store.byKey[k := w'.gate.store.byKey[k]]
      && w.calls[c].consumed == Some(w'.gate.store.byKey[k].capabilityId)
      && Written(s, w'.calls, w'.gate.store.byKey[k])
  {
    var w' := Step(s, w, FinishCall(c, stamp));
    var p := w.calls[c].phase;
    assert CallOk(s, w.calls[c]);
    FinishRecord(w.gate, w.calls[c].input, p.capability, p.payloadHash, p.outcome, stamp);
    LaterMoves(s, w, FinishCall(c, stamp));
    var rec := w'.gate.store.byKey[Key(w.calls[c])];
    forall i | 0 <= i < |w'.calls| && Attempting(w'.calls[i]) ensures w'.calls[i].consumed != Some(rec.capabilityId) {
      assert i != c;
    }
    if rec.state == UnknownOperation {
      UnknownIsTimeout(w.gate, w.calls[c].input, p.capability, p.payloadHash, p.outcome, stamp);
      assert TimedOutAt(s, w'.calls, c, rec);
    }
  }

  lemma {:induction false} UnknownIsTimeout(g: Gate, i: CallInput, c: Capability, hash: string, outcome: RaceOutcome, stamp: Stamp)
    ensures var rec := Finish(g, i, c, hash, outcome, stamp).0.store.byKey[i.operation.idempotencyKey];
      rec.state == UnknownOperation ==> rec == NewRecord(i, c.id, hash, UnknownOperation, None, None)
  {
  }

  /** The record a reconciliation writes when its lookup has found `receipt`. */
  function Resolution(i: CallInput, prior: OperationRecord, receipt: Receipt): OperationRecord {
    if VerifyPostcondition(i.request.actionType, receipt, i.expectation)
    then NewRecord(i, prior.capabilityId, prior.payloadHash, Succeeded, Some(receipt), None)
    else NewRecord(i, prior.capabilityId, prior.payloadHash, FailedOperation, None, Some(PostconditionNotMet))
  }

  lemma {:induction false} ReconcileWrites(g: Gate, i: CallInput, prior: OperationRecord, found: Option<Receipt>, stamp: Stamp)
    ensures FinishLookup(g, i, prior, found, stamp).0.store.byKey
         == if found.None? then g.store.byKey
            else g.store.byKey[i.operation.idempotencyKey := Resolution(i, prior, found.value)]
  {
  }

  lemma {:induction false} OverlapStep(s: Setting, w: World, e: Event)
    requires OverlapOk(s, w) && Enabled(w, e)
    ensures OverlapOk(s, Step(s, w, e))
  {
    if e.BeginCall? {
      BeginOverlap(s, w, e);
    } else {
      AttemptsStep(s, w, e);
      EvidenceStep(s, w, e);
      AccountedStep(s, w, e);
      WrittenStep(s, w, e);
    }
  }

  lemma {:induction false} WrittenStep(s: Setting, w: World, e: Event)
    requires CallsOk(s, w) && Accounted(s, w) && RecordsWritten(s, w) && Enabled(w, e) && !e.BeginCall?
    ensures RecordsWritten(s, Step(s, w, e))
  {
    LaterMoves(s, w, e);
    if e.FinishCall? {
      AccountedSpentOnce(s, w);
      FinishWritten(s, w, e.c, e.stamp);
      LaterWritten(s, w, Step(s, w, e), Key(w.calls[e.c]));
    } else if e.FinishReconcile? {
      ReconcileWritten(s, w, e.c, e.stamp);
      LaterWritten(s, w, Step(s, w, e), Key(w.calls[e.c]));
    } else {
      LaterWritten(s, w, Step(s, w, e), "");
    }
  }

  lemma {:induction false} ReconcileWritten(s: Setting, w: World, c: nat, stamp: Stamp)
    requires CallsOk(s, w) && Enabled(w, FinishReconcile(c, stamp)) && PriorWritten(s, w.calls, w.calls[c])
    ensures var w' := Step(s, w, FinishReconcile(c, stamp)); var k := Key(w.calls[c]); var p := w.calls[c].phase;
      if p.found.None? then w'.gate.store.byKey == w.gate.store.byKey
      else
        && w'.gate.store.byKey == w.gate.store.byKey[k := Resolution(w.calls[c].input, p.prior, p.found.value)]
        && Written(s, w'.calls, w'.gate.store.byKey[k])
  {
    var p := w.calls[c].phase;
    LaterMoves(s, w, FinishReconcile(c, stamp));
    ReconcileWrites(w.gate, w.calls[c].input, p.prior, p.found, stamp);
    WrittenKept(s, w.calls, Step(s, w, FinishReconcile(c, stamp)).calls, p.prior);
  }

  lemma {:induction false} OverlapRun(s: Setting, w: World, es: seq<Event>)
    requires OverlapOk(s, w) && CanRun(s, w, es)
    ensures OverlapOk(s, Run(s, w, es))
    decreases |es|
  {
    if es != [] {
      OverlapStep(s, w, es[0]);
      OverlapRun(s, Step(s, w, es[0]), es[1..]);
    }
  }

  /**
   The events that overwrite a record: an attempt that finishes although its key has been recorded
   meanwhile, and a reconciliation that has found a receipt although the record is no longer the one
   it set out from, nor already the one it is about to write.
   */
  predicate Overwrites(w: World, e: Event)
    requires Enabled(w, e)
  {
    match e
    case FinishCall(c, _) => Key(w.calls[c]) in w.gate.store.byKey
    case FinishReconcile(c, _) =>
      var k := Key(w.calls[c]); var p := w.calls[c].phase;
      && p.found.Some? && k in w.gate.store.byKey
      && w.gate.store.byKey[k] != p.prior
      && w.gate.store.byKey[k] != Resolution(w.calls[c].input, p.prior, p.found.value)
    case _ => false
  }

  /** Unknown records that name the same capability are the same record. */
  lemma {:induction false} SameTimeout(s: Setting, calls: seq<Call>, a: OperationRecord, b: OperationRecord)
    requires SpentOnce(calls) && Written(s, calls, a) && Written(s, calls, b)
    requires a.state == b.state == UnknownOperation && a.capabilityId == b.capabilityId
    ensures a == b
  {
    var i: nat :| TimedOutAt(s, calls, i, a);
    var j: nat :| TimedOutAt(s, calls, j, b);
    assert i == j;
  }

  lemma {:induction false} FinishOverwrites(s: Setting, w: World, c: nat, stamp: Stamp)
    requires OverlapOk(s, w) && Enabled(w, FinishCall(c, stamp))
    ensures var after := Step(s, w, FinishCall(c, stamp)).gate.store.byKey; var k := Key(w.calls[c]);
      && (!Moves(w.gate.store.byKey, after, k) <==> k in w.gate.store.byKey)
      && forall other | other != k :: Moves(w.gate.store.byKey, after, other)
  {
    AccountedSpentOnce(s, w);
    FinishWritten(s, w, c, stamp);
    var k := Key(w.calls[c]);
    if k in w.gate.store.byKey {
      assert Written(s, w.calls, w.gate.store.byKey[k]);
      assert Attempting(w.calls[c]);
    }
  }

  lemma {:induction false} ResolvedMoves(before: Records, k: string, prior: OperationRecord, res: OperationRecord)
    requires prior.state == UnknownOperation && res.state != UnknownOperation
    requires res.capabilityId == prior.capabilityId && res.payloadHash == prior.payloadHash
    requires k in before && before[k].state == UnknownOperation && before[k].capabilityId == prior.capabilityId ==> before[k] == prior
    ensures !Moves(before, before[k := res], k) <==> k in before && before[k] != prior && before[k] != res
  {
  }

  lemma {:induction false} ReconcileOverwrites(s: Setting, w: World, c: nat, stamp: Stamp)
    requires OverlapOk(s, w) && Enabled(w, FinishReconcile(c, stamp))
    ensures var after := Step(s, w, FinishReconcile(c, stamp)).gate.store.byKey; var k := Key(w.calls[c]);
      && (!Moves(w.gate.store.byKey, after, k) <==> Overwrites(w, FinishReconcile(c, stamp)))
      && forall other | other != k :: Moves(w.gate.store.byKey, after, other)
  {
    var k, p := Key(w.calls[c]), w.calls[c].phase;
    assert PriorWritten(s, w.calls, w.calls[c]) && PhaseOk(s, w.calls, w.calls[c]);
    ReconcileWritten(s, w, c, stamp);
    KnownTimeout(s, w, k, p.prior);
    if p.found.Some? {
      ResolvedMoves(w.gate.store.byKey, k, p.prior, Resolution(w.calls[c].input, p.prior, p.found.value));
    }
  }

  lemma {:induction false} KnownTimeout(s: Setting, w: World, k: string, prior: OperationRecord)
    requires OverlapOk(s, w) && Written(s, w.calls, prior) && prior.state == UnknownOperation
    requires k in w.gate.store.byKey
    ensures var now := w.gate.store.byKey[k];
      now.state == UnknownOperation && now.capabilityId == prior.capabilityId ==> now == prior
  {
    AccountedSpentOnce(s, w);
    var now := w.gate.store.byKey[k];
    if now.state == UnknownOperation && now.capabilityId == prior.capabilityId {
      SameTimeout(s, w.calls, now, prior);
    }
  }

  /**
   Over any run, with any overlap and any adapter: an event makes some record move otherwise than from
   absent to present or from unknown to resolved exactly if it overwrites in the sense above. Every
   other event, in particular every other end of a call, keeps to the order of the records.
   */
  lemma {:induction false} RecordsMoveExactly(s: Setting, es: seq<Event>, e: Event)
    requires CanRun(s, Start(), es) && Enabled(Run(s, Start(), es), e)
    ensures var w := Run(s, Start(), es);
      (exists k :: !Moves(w.gate.store.byKey, Step(s, w, e).gate.store.byKey, k)) <==> Overwrites(w, e)
  {
    OverlapRun(s, Start(), es);
    var w := Run(s, Start(), es);
    match e
    case FinishCall(c, stamp) => FinishOverwrites(s, w, c, stamp);
    case FinishReconcile(c, stamp) => ReconcileOverwrites(s, w, c, stamp);
    case BeginCall(i, now, recheckAt, stamp) => BeginStore(s, w.gate, i, now, recheckAt, stamp);
    case _ => LaterMoves(s, w, e);
  }
}
