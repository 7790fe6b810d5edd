/**
 No unproved success, over every interleaving and with an adapter that may answer anything: behind
 every ok result stands a receipt the adapter handed over and a check it passed.
 */
module GatewayEvidence {
  import opened Prelude
  import opened HashChain
  import opened Receipts
  import opened Adapters
  import opened Stores
  import opened Gateway
  import opened GatewayProtocol

  /**
   Call `i` is on `key`, was handed `r` by the adapter, and `r` is schema-valid and meets, field by
   field, what that call expects for its action type.
   */
  ghost predicate Proves(calls: seq<Call>, i: nat, key: string, r: Receipt) {
    && i < |calls| && Key(calls[i]) == key && calls[i].handed == Some(r)
    && ReceiptSchema(r) && Meets(calls[i].input.expectation, r)
    && ExpectsFor(calls[i].input.request.actionType, calls[i].input.expectation)
  }

  ghost predicate Backed(calls: seq<Call>, key: string, r: Receipt) {
    exists i :: Proves(calls, i, key, r)
  }

  /** Call `i` on `key` consumed this capability, for parameters with this hash. */
  ghost predicate Pays(s: Setting, calls: seq<Call>, i: nat, key: string, capabilityId: string, hash: string) {
    && i < |calls| && Key(calls[i]) == key && calls[i].consumed == Some(capabilityId)
    && s.payloadHash(calls[i].input.params) == hash
  }

  /** Call `i` on `key` was an attempt for parameters with this hash. */
  ghost predicate Attempts(s: Setting, calls: seq<Call>, i: nat, key: string, hash: string) {
    && i < |calls| && Key(calls[i]) == key && calls[i].consumed.Some?
    && s.payloadHash(calls[i].input.params) == hash
  }

  /** The key was attempted for the same payload as this call's. */
  ghost predicate SamePayload(s: Setting, calls: seq<Call>, c: Call) {
    exists i :: Attempts(s, calls, i, Key(c), s.payloadHash(c.input.params))
  }

  ghost predicate Names(calls: seq<Call>, i: nat, key: string, operationId: string) {
    i < |calls| && Key(calls[i]) == key && calls[i].input.operation.operationId == operationId
  }

  /** The record can be traced to a call that paid for it and to one that bears its operation id. */
  ghost predicate Traced(s: Setting, calls: seq<Call>, key: string, rec: OperationRecord) {
    (exists i :: Pays(s, calls, i, key, rec.capabilityId, rec.payloadHash)) && (exists i :: Names(calls, i, key, rec.operationId))
  }

  ghost predicate RecordOk(s: Setting, calls: seq<Call>, key: string, rec: OperationRecord) {
    && Traced(s, calls, key, rec)
    && (rec.state == Succeeded ==> rec.receipt.Some? && Backed(calls, key, rec.receipt.value))
  }

  ghost predicate PhaseOk(s: Setting, calls: seq<Call>, c: Call) {
    match c.phase
    case LookingUp(prior) =>
      && RecordOk(s, calls, Key(c), prior) && prior.state == UnknownOperation
      && prior.payloadHash == s.payloadHash(c.input.params)
    case LookedUp(prior, _) =>
      && RecordOk(s, calls, Key(c), prior) && prior.state == UnknownOperation
      && prior.payloadHash == s.payloadHash(c.input.params)
    case Returned(Done(r, _, _, _)) => Backed(calls, Key(c), r) && SamePayload(s, calls, c)
    case _ => true
  }

  ghost predicate EvidenceOk(s: Setting, w: World) {
    && CallsOk(s, w)
    && (forall k | k in w.gate.store.byKey :: RecordOk(s, w.calls, k, w.gate.store.byKey[k]))
    && (forall i | 0 <= i < |w.calls| :: PhaseOk(s, w.calls, w.calls[i]))
  }

  // ----- evidence is never lost -----

  lemma {:induction false} RecordKept(s: Setting, a: seq<Call>, b: seq<Call>, key: string, rec: OperationRecord)
    requires Extends(a, b) && RecordOk(s, a, key, rec)
    ensures RecordOk(s, b, key, rec)
  {
    var i :| Pays(s, a, i, key, rec.capabilityId, rec.payloadHash);
    assert Pays(s, b, i, key, rec.capabilityId, rec.payloadHash);
    var j :| Names(a, j, key, rec.operationId);
    assert Names(b, j, key, rec.operationId);
    if rec.state == Succeeded {
      BackedKept(a, b, key, rec.receipt.value);
    }
  }

  lemma {:induction false} BackedKept(a: seq<Call>, b: seq<Call>, key: string, r: Receipt)
    requires Extends(a, b) && Backed(a, key, r)
    ensures Backed(b, key, r)
  {
    var i :| Proves(a, i, key, r);
    assert Proves(b, i, key, r);
  }

  lemma {:induction false} PhaseKept(s: Setting, a: seq<Call>, b: seq<Call>, c: Call)
    requires Extends(a, b) && PhaseOk(s, a, c)
    ensures PhaseOk(s, b, c)
  {
    match c.phase
    case LookingUp(prior) => RecordKept(s, a, b, Key(c), prior);
    case LookedUp(prior, _) => RecordKept(s, a, b, Key(c), prior);
    case Returned(Done(r, _, _, _)) =>
      BackedKept(a, b, Key(c), r);
      SamePayloadKept(s, a, b, c);
    case _ =>
  }

  lemma {:induction false} SamePayloadKept(s: Setting, a: seq<Call>, b: seq<Call>, c: Call)
    requires Extends(a, b) && SamePayload(s, a, c)
    ensures SamePayload(s, b, c)
  {
    var i :| Attempts(s, a, i, Key(c), s.payloadHash(c.input.params));
    assert Attempts(s, b, i, Key(c), s.payloadHash(c.input.params));
  }

  /** A record for the call's own payload was paid for by an attempt for that payload. */
  lemma {:induction false} TracedPayload(s: Setting, calls: seq<Call>, c: Call, rec: OperationRecord)
    requires Traced(s, calls, Key(c), rec) && rec.payloadHash == s.payloadHash(c.input.params)
    ensures SamePayload(s, calls, c)
  {
    var i :| Pays(s, calls, i, Key(c), rec.capabilityId, rec.payloadHash);
    assert Attempts(s, calls, i, Key(c), s.payloadHash(c.input.params));
  }

  /** Everything but the call the event is about, and the store. */
  lemma {:induction false} OthersKept(s: Setting, w: World, e: Event, c: nat)
    requires EvidenceOk(s, w) && Enabled(w, e) && c < |w.calls|
    requires Step(s, w, e).gate.store == w.gate.store
    requires |Step(s, w, e).calls| == |w.calls|
    requires forall i | 0 <= i < |w.calls| && i != c :: Step(s, w, e).calls[i] == w.calls[i]
    requires PhaseOk(s, Step(s, w, e).calls, Step(s, w, e).calls[c])
    ensures EvidenceOk(s, Step(s, w, e))
  {
    CallsOkStep(s, w, e);
    StepExtends(s, w, e);
    var w' := Step(s, w, e);
    forall k | k in w'.gate.store.byKey ensures RecordOk(s, w'.calls, k, w'.gate.store.byKey[k]) {
      RecordKept(s, w.calls, w'.calls, k, w.gate.store.byKey[k]);
    }
    forall i | 0 <= i < |w'.calls| ensures PhaseOk(s, w'.calls, w'.calls[i]) {
      if i != c {
        PhaseKept(s, w.calls, w'.calls, w.calls[i]);
      }
    }
  }

  // ----- the pieces that write -----

  lemma {:induction false} FinalizeOk(
    s: Setting, calls: seq<Call>, c: nat, g: Gate, receipt: Receipt, hash: string, capabilityId: string,
    reconciled: bool, stamp: Stamp)
    requires c < |calls| && calls[c].handed == Some(receipt)
    requires exists i :: Pays(s, calls, i, Key(calls[c]), capabilityId, hash)
    ensures var (g', result) := Finalize(g, calls[c].input, receipt, hash, capabilityId, reconciled, stamp);
      && g'.store.byKey == g.store.byKey[Key(calls[c]) := g'.store.byKey[Key(calls[c])]]
      && RecordOk(s, calls, Key(calls[c]), g'.store.byKey[Key(calls[c])])
      && (result.Done? ==> Backed(calls, Key(calls[c]), result.receipt))
  {
    var (g', result) := Finalize(g, calls[c].input, receipt, hash, capabilityId, reconciled, stamp);
    var rec := g'.store.byKey[Key(calls[c])];
    assert rec.capabilityId == capabilityId && rec.payloadHash == hash;
    assert Names(calls, c, Key(calls[c]), rec.operationId);
    PostconditionExact(calls[c].input.request.actionType, receipt, calls[c].input.expectation);
    if result.Done? {
      assert Proves(calls, c, Key(calls[c]), receipt);
    }
  }

  lemma {:induction false} FinishOk(s: Setting, calls: seq<Call>, c: nat, g: Gate, stamp: Stamp)
    requires c < |calls| && CallOk(s, calls[c]) && calls[c].phase.Settled?
    ensures var p := calls[c].phase;
      var (g', result) := Finish(g, calls[c].input, p.capability, p.payloadHash, p.outcome, stamp);
      && g'.store.byKey == g.store.byKey[Key(calls[c]) := g'.store.byKey[Key(calls[c])]]
      && RecordOk(s, calls, Key(calls[c]), g'.store.byKey[Key(calls[c])])
      && (result.Done? ==> Backed(calls, Key(calls[c]), result.receipt) && SamePayload(s, calls, calls[c]))
  {
    var p := calls[c].phase;
    assert Attempts(s, calls, c, Key(calls[c]), s.payloadHash(calls[c].input.params));
    var (g', result) := Finish(g, calls[c].input, p.capability, p.payloadHash, p.outcome, stamp);
    assert Pays(s, calls, c, Key(calls[c]), p.capability.id, p.payloadHash);
    if p.outcome.Resolved? {
      FinalizeOk(s, calls, c, g, p.outcome.receipt, p.payloadHash, p.capability.id, false, stamp);
    } else {
      var rec := g'.store.byKey[Key(calls[c])];
      assert rec.capabilityId == p.capability.id && rec.payloadHash == p.payloadHash;
      assert Names(calls, c, Key(calls[c]), rec.operationId);
    }
  }

  lemma {:induction false} FinishLookupOk(s: Setting, calls: seq<Call>, c: nat, g: Gate, stamp: Stamp)
    requires c < |calls| && CallOk(s, calls[c]) && calls[c].phase.LookedUp?
    requires RecordOk(s, calls, Key(calls[c]), calls[c].phase.prior)
    requires calls[c].phase.prior.payloadHash == s.payloadHash(calls[c].input.params)
    ensures var p := calls[c].phase;
      var (g', result) := FinishLookup(g, calls[c].input, p.prior, p.found, stamp);
      && (g'.store.byKey == g.store.byKey
          || (&& Key(calls[c]) in g'.store.byKey
              && g'.store.byKey == g.store.byKey[Key(calls[c]) := g'.store.byKey[Key(calls[c])]]
              && RecordOk(s, calls, Key(calls[c]), g'.store.byKey[Key(calls[c])])))
      && (result.Done? ==> Backed(calls, Key(calls[c]), result.receipt) && SamePayload(s, calls, calls[c]))
  {
    var p := calls[c].phase;
    TracedPayload(s, calls, calls[c], p.prior);
    if p.found.Some? {
      FinalizeOk(s, calls, c, g, p.found.value, p.prior.payloadHash, p.prior.capabilityId, true, stamp);
    }
  }

  /** The event writes at most the record of call `c`'s key and leaves the other calls alone. */
  lemma {:induction false} WriteKept(s: Setting, w: World, e: Event, c: nat)
    requires EvidenceOk(s, w) && Enabled(w, e) && c < |w.calls|
    requires |Step(s, w, e).calls| == |w.calls|
    requires forall i | 0 <= i < |w.calls| && i != c :: Step(s, w, e).calls[i] == w.calls[i]
    requires PhaseOk(s, w.calls, Step(s, w, e).calls[c])
    requires var k := Key(w.calls[c]); var after := Step(s, w, e).gate.store.byKey;
      || after == w.gate.store.byKey
      || (k in after && after == w.gate.store.byKey[k := after[k]] && RecordOk(s, w.calls, k, after[k]))
    ensures EvidenceOk(s, Step(s, w, e))
  {
    CallsOkStep(s, w, e);
    StepExtends(s, w, e);
    var w' := Step(s, w, e);
    forall k | k in w'.gate.store.byKey ensures RecordOk(s, w'.calls, k, w'.gate.store.byKey[k]) {
      RecordKept(s, w.calls, w'.calls, k, w'.gate.store.byKey[k]);
    }
    forall i | 0 <= i < |w'.calls| ensures PhaseOk(s, w'.calls, w'.calls[i]) {
      PhaseKept(s, w.calls, w'.calls, w'.calls[i]);
    }
  }

  lemma {:induction false} BeginKept(s: Setting, w: World, e: Event)
    requires EvidenceOk(s, w) && e.BeginCall?
    ensures EvidenceOk(s, Step(s, w, e))
  {
    CallsOkStep(s, w, e);
    StepExtends(s, w, e);
    BeginEffect(s, w.gate, e.input, e.now, e.recheckAt, e.beginStamp);
    var w' := Step(s, w, e);
    forall k | k in w'.gate.store.byKey ensures RecordOk(s, w'.calls, k, w'.gate.store.byKey[k]) {
      RecordKept(s, w.calls, w'.calls, k, w.gate.store.byKey[k]);
    }
    forall i | 0 <= i < |w'.calls| ensures PhaseOk(s, w'.calls, w'.calls[i]) {
      if i < |w.calls| {
        PhaseKept(s, w.calls, w'.calls, w.calls[i]);
      } else {
        BeginPhaseOk(s, w, e);
      }
    }
  }

  lemma {:induction false} BeginPhaseOk(s: Setting, w: World, e: Event)
    requires EvidenceOk(s, w) && e.BeginCall?
    ensures PhaseOk(s, Step(s, w, e).calls, Step(s, w, e).calls[|w.calls|])
  {
    StepExtends(s, w, e);
    BeginEffect(s, w.gate, e.input, e.now, e.recheckAt, e.beginStamp);
    var k := e.input.operation.idempotencyKey;
    if k in w.gate.store.byKey {
      var rec := w.gate.store.byKey[k];
      RecordKept(s, w.calls, Step(s, w, e).calls, k, rec);
      if rec.payloadHash == s.payloadHash(e.input.params) {
        TracedPayload(s, Step(s, w, e).calls, Step(s, w, e).calls[|w.calls|], rec);
      }
      LookingUpIsUnknown(s, w.gate, e.input, e.now, e.recheckAt, e.beginStamp);
    }
  }

  lemma {:induction false} LookingUpIsUnknown(s: Setting, g: Gate, input: CallInput, now: int, recheckAt: int, stamp: Stamp)
    ensures var (_, phase) := Begin(s.payloadHash, g, input, now, recheckAt, stamp);
      phase.LookingUp? && (phase.prior.state == Succeeded ==> phase.prior.receipt.Some?) ==>
        phase.prior.state == UnknownOperation
  {
  }

  lemma {:induction false} EvidenceStep(s: Setting, w: World, e: Event)
    requires EvidenceOk(s, w) && Enabled(w, e)
    ensures EvidenceOk(s, Step(s, w, e))
  {
    match e
    case Register(_) =>
    case BeginCall(_, _, _, _) => BeginKept(s, w, e);
    case Fire(c, _) => FirePhase(s, w, e, c);
    case FireForeign(c, _, _) => FirePhase(s, w, e, c);
    case Settle(c, _) => OthersKept(s, w, e, c);
    case LookUp(c) => LookUpPhase(s, w, e, c);
    case LookUpForeign(c, _) => LookUpPhase(s, w, e, c);
    case FinishCall(c, stamp) =>
      FinishOk(s, w.calls, c, w.gate, stamp);
      WriteKept(s, w, e, c);
    case FinishReconcile(c, stamp) =>
      FinishLookupOk(s, w.calls, c, w.gate, stamp);
      WriteKept(s, w, e, c);
  }

  lemma {:induction false} FirePhase(s: Setting, w: World, e: Event, c: nat)
    requires EvidenceOk(s, w) && Enabled(w, e)
    requires (e.Fire? || e.FireForeign?) && e.c == c
    ensures EvidenceOk(s, Step(s, w, e))
  {
    StepExtends(s, w, e);
    PhaseKept(s, w.calls, Step(s, w, e).calls, w.calls[c]);
    OthersKept(s, w, e, c);
  }

  lemma {:induction false} LookUpPhase(s: Setting, w: World, e: Event, c: nat)
    requires EvidenceOk(s, w) && Enabled(w, e)
    requires (e.LookUp? || e.LookUpForeign?) && e.c == c
    ensures EvidenceOk(s, Step(s, w, e))
  {
    StepExtends(s, w, e);
    PhaseKept(s, w.calls, Step(s, w, e).calls, w.calls[c]);
    OthersKept(s, w, e, c);
  }

  lemma {:induction false} EvidenceRun(s: Setting, w: World, es: seq<Event>)
    requires EvidenceOk(s, w) && CanRun(s, w, es)
    ensures EvidenceOk(s, Run(s, w, es))
    decreases |es|
  {
    if es != [] {
      EvidenceStep(s, w, es[0]);
      EvidenceRun(s, Step(s, w, es[0]), es[1..]);
    }
  }

  /**
   In every run, whatever the adapter answers, an ok result's receipt was handed over by the adapter
   to a call on the same key, is schema-valid and meets that call's expectation field by field.
   */
  lemma {:induction false} NoUnprovedSuccess(s: Setting, es: seq<Event>, c: nat)
    requires CanRun(s, Start(), es)
    requires c < |Run(s, Start(), es).calls|
    requires Run(s, Start(), es).calls[c].phase.Returned? && Run(s, Start(), es).calls[c].phase.result.Done?
    ensures exists i :: Proves(Run(s, Start(), es).calls, i, Key(Run(s, Start(), es).calls[c]),
                               Run(s, Start(), es).calls[c].phase.result.receipt)
  {
    EvidenceRun(s, Start(), es);
    var w := Run(s, Start(), es);
    assert PhaseOk(s, w.calls, w.calls[c]);
  }

  /** A call that is answered with a receipt, or on its way to reconcile. */
  predicate Trusting(c: Call) {
    c.phase.LookingUp? || c.phase.LookedUp? || (c.phase.Returned? && c.phase.result.Done?)
  }

  lemma {:induction false} TrustingPayload(s: Setting, calls: seq<Call>, c: Call)
    requires PhaseOk(s, calls, c) && Trusting(c)
    ensures SamePayload(s, calls, c)
  {
    if c.phase.LookingUp? || c.phase.LookedUp? {
      TracedPayload(s, calls, c, c.phase.prior);
    }
  }

  /**
   In every run, whatever SHA-256 does: such a call presents the payload hash of an attempt on its key,
   and a reconciling one that of the record it found.
   */
  lemma {:induction false} AnsweredForItsPayload(s: Setting, es: seq<Event>, c: nat)
    requires CanRun(s, Start(), es) && c < |Run(s, Start(), es).calls|
    requires Trusting(Run(s, Start(), es).calls[c])
    ensures var calls := Run(s, Start(), es).calls;
      && SamePayload(s, calls, calls[c])
      && (calls[c].phase.LookingUp? || calls[c].phase.LookedUp? ==>
            calls[c].phase.prior.payloadHash == s.payloadHash(calls[c].input.params))
  {
    EvidenceRun(s, Start(), es);
    var calls := Run(s, Start(), es).calls;
    assert PhaseOk(s, calls, calls[c]);
    TrustingPayload(s, calls, calls[c]);
  }

  /** Call `i` attempted this key for these parameters. */
  predicate AttemptedFor(calls: seq<Call>, i: nat, key: string, params: Params) {
    i < |calls| && Key(calls[i]) == key && calls[i].consumed.Some? && calls[i].input.params == params
  }

  /**
   In every run, a call that is answered with a receipt, fresh, reconciled or replayed, or that goes on
   to reconcile, is on a key that was attempted for the very parameters it presents itself.
   */
  lemma {:induction false} AnsweredForItsParameters(s: Setting, es: seq<Event>, c: nat)
    requires HashInjective(s.payloadHash) && CanRun(s, Start(), es) && c < |Run(s, Start(), es).calls|
    requires Trusting(Run(s, Start(), es).calls[c])
    ensures var calls := Run(s, Start(), es).calls;
      exists i: nat :: AttemptedFor(calls, i, Key(calls[c]), calls[c].input.params)
  {
    EvidenceRun(s, Start(), es);
    AttemptedForIts(s, Run(s, Start(), es).calls, Run(s, Start(), es).calls[c]);
  }

  lemma {:induction false} AttemptedForIts(s: Setting, calls: seq<Call>, c: Call)
    requires HashInjective(s.payloadHash) && PhaseOk(s, calls, c) && Trusting(c)
    ensures exists i: nat :: AttemptedFor(calls, i, Key(c), c.input.params)
  {
    TrustingPayload(s, calls, c);
    var i: nat :| Attempts(s, calls, i, Key(c), s.payloadHash(c.input.params));
    assert AttemptedFor(calls, i, Key(c), c.input.params);
  }

  /**
   In every run, each record is filed under its own key, names a capability that a call on that key
   consumed for parameters with the recorded hash and an operation id such a call bears, and a
   succeeded record holds a receipt that was handed over and verified on that key.
   */
  lemma {:induction false} RecordsAreTraced(s: Setting, es: seq<Event>, key: string)
    requires CanRun(s, Start(), es)
    requires key in Run(s, Start(), es).gate.store.byKey
    ensures var w := Run(s, Start(), es);
      w.gate.store.byKey[key].idempotencyKey == key && RecordOk(s, w.calls, key, w.gate.store.byKey[key])
  {
    EvidenceRun(s, Start(), es);
  }
}
