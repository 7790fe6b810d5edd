/**
 At most one receipt per idempotency key, over every interleaving of calls, overlapping ones and
 late effects included, in front of a fake adapter.
 */
module GatewayReceipts {
  import opened Prelude
  import opened Adapters
  import opened Stores
  import opened Gateway
  import opened GatewayProtocol
  import opened GatewayEvidence

  function OpId(c: Call): string {
    c.input.operation.operationId
  }

  /** A call on `key` and a call on `receiptKey` bear the same operation id. */
  ghost predicate Linked(calls: seq<Call>, key: string, receiptKey: string, i: nat, j: nat) {
    i < |calls| && j < |calls| && Key(calls[i]) == key && Key(calls[j]) == receiptKey && OpId(calls[i]) == OpId(calls[j])
  }

  ghost predicate Origin(calls: seq<Call>, i: nat, op: string, receiptKey: string) {
    i < |calls| && OpId(calls[i]) == op && Key(calls[i]) == receiptKey
  }

  ghost predicate HandedOk(w: World, c: Call) {
    && (c.exec.Fired? && c.exec.result.Receipted? ==>
          Minted(w.adapter, c.exec.result.receipt) && c.exec.result.receipt.idempotencyKey == Key(c))
    && (c.handed.Some? ==>
          && Minted(w.adapter, c.handed.value)
          && exists i: nat, j: nat :: Linked(w.calls, Key(c), c.handed.value.idempotencyKey, i, j))
  }

  ghost predicate MintOk(s: Setting, w: World) {
    && EvidenceOk(s, w)
    && AdapterOk(s.kind, s.payloadHash, w.adapter)
    && (forall i | 0 <= i < |w.calls| :: HandedOk(w, w.calls[i]))
    && (forall op | op in w.adapter.byOp :: exists i: nat :: Origin(w.calls, i, op, w.adapter.byOp[op].idempotencyKey))
  }

  /** What the fake adapter has recorded stays as it is. */
  ghost predicate Keeps(a: AdapterState, b: AdapterState) {
    forall k | k in a.byKey :: k in b.byKey && b.byKey[k] == a.byKey[k]
  }

  lemma {:induction false} StepKeeps(s: Setting, w: World, e: Event)
    requires Enabled(w, e)
    ensures Keeps(w.adapter, Step(s, w, e).adapter)
  {
    if e.Fire? {
      var call := w.calls[e.c];
      forall k | k in w.adapter.byKey ensures k in Step(s, w, e).adapter.byKey && Step(s, w, e).adapter.byKey[k] == w.adapter.byKey[k] {
        EntriesAreForever(s.kind, s.payloadHash, w.adapter, call.input.operation, call.exec.capability, call.input.params, e.env, k);
      }
    }
  }

  lemma {:induction false} HandedKept(w: World, w': World, c: Call)
    requires Extends(w.calls, w'.calls) && Keeps(w.adapter, w'.adapter)
    requires HandedOk(w, c)
    ensures HandedOk(w', c)
  {
    if c.handed.Some? {
      var i: nat, j: nat :| Linked(w.calls, Key(c), c.handed.value.idempotencyKey, i, j);
      assert Linked(w'.calls, Key(c), c.handed.value.idempotencyKey, i, j);
    }
  }

  lemma {:induction false} OriginsKept(w: World, w': World)
    requires Extends(w.calls, w'.calls) && w'.adapter.byOp == w.adapter.byOp
    requires forall op | op in w.adapter.byOp :: !w.adapter.byOp[op].Malformed?
    requires forall op | op in w.adapter.byOp :: exists i: nat :: Origin(w.calls, i, op, w.adapter.byOp[op].idempotencyKey)
    ensures forall op | op in w'.adapter.byOp :: exists i: nat :: Origin(w'.calls, i, op, w'.adapter.byOp[op].idempotencyKey)
  {
    forall op | op in w'.adapter.byOp ensures exists i: nat :: Origin(w'.calls, i, op, w'.adapter.byOp[op].idempotencyKey) {
      var i: nat :| Origin(w.calls, i, op, w.adapter.byOp[op].idempotencyKey);
      assert Origin(w'.calls, i, op, w'.adapter.byOp[op].idempotencyKey);
    }
  }

  /** An effect's receipt carries the key it was asked for and is the one the table holds for it. */
  lemma {:induction false} FireMints(s: Setting, w: World, c: nat, env: ExecInputs)
    requires MintOk(s, w) && Enabled(w, Fire(c, env))
    ensures var w' := Step(s, w, Fire(c, env));
      && AdapterOk(s.kind, s.payloadHash, w'.adapter)
      && (w'.calls[c].exec.result.Receipted? ==>
            && Minted(w'.adapter, w'.calls[c].exec.result.receipt)
            && w'.calls[c].exec.result.receipt.idempotencyKey == Key(w'.calls[c])
            && w'.adapter.byOp == w.adapter.byOp[OpId(w.calls[c]) := w'.calls[c].exec.result.receipt])
      && (w'.calls[c].exec.result.Threw? ==> w'.adapter == w.adapter)
  {
    var call := w.calls[c];
    ExecuteKeepsOk(s.kind, s.payloadHash, w.adapter, call.input.operation, call.exec.capability, call.input.params, env);
    ExecuteMints(s.kind, s.payloadHash, w.adapter, call.input.operation, call.exec.capability, call.input.params, env);
  }

  lemma {:induction false} FireStep(s: Setting, w: World, c: nat, env: ExecInputs)
    requires MintOk(s, w) && Enabled(w, Fire(c, env))
    ensures MintOk(s, Step(s, w, Fire(c, env)))
  {
    var e := Fire(c, env);
    var w' := Step(s, w, e);
    EvidenceStep(s, w, e);
    StepExtends(s, w, e);
    StepKeeps(s, w, e);
    FireMints(s, w, c, env);
    forall i | 0 <= i < |w'.calls| ensures HandedOk(w', w'.calls[i]) {
      HandedKept(w, w', w.calls[i]);
      if i == c && w.calls[c].handed.Some? {
        var j: nat, k: nat :| Linked(w'.calls, Key(w.calls[c]), w.calls[c].handed.value.idempotencyKey, j, k);
        assert Linked(w'.calls, Key(w'.calls[c]), w'.calls[c].handed.value.idempotencyKey, j, k);
      }
    }
    forall op | op in w'.adapter.byOp ensures exists i: nat :: Origin(w'.calls, i, op, w'.adapter.byOp[op].idempotencyKey) {
      if w'.calls[c].exec.result.Receipted? && op == OpId(w.calls[c]) {
        assert Origin(w'.calls, c, op, w'.adapter.byOp[op].idempotencyKey);
      } else {
        assert Minted(w.adapter, w.adapter.byOp[op]);
        var i: nat :| Origin(w.calls, i, op, w.adapter.byOp[op].idempotencyKey);
        assert Origin(w'.calls, i, op, w'.adapter.byOp[op].idempotencyKey);
      }
    }
  }

  /** Any other event: the adapter stays, and only call `c` may have been handed something. */
  lemma {:induction false} QuietStep(s: Setting, w: World, e: Event, c: nat)
    requires MintOk(s, w) && Enabled(w, e) && Step(s, w, e).adapter == w.adapter
    requires forall i | 0 <= i < |w.calls| && i != c :: Step(s, w, e).calls[i] == w.calls[i]
    requires forall i | |w.calls| <= i < |Step(s, w, e).calls| :: HandedOk(Step(s, w, e), Step(s, w, e).calls[i])
    requires c < |w.calls| ==> HandedOk(Step(s, w, e), Step(s, w, e).calls[c])
    ensures MintOk(s, Step(s, w, e))
  {
    var w' := Step(s, w, e);
    EvidenceStep(s, w, e);
    StepExtends(s, w, e);
    forall i | 0 <= i < |w'.calls| ensures HandedOk(w', w'.calls[i]) {
      if i < |w.calls| && i != c {
        HandedKept(w, w', w.calls[i]);
      }
    }
    forall op | op in w.adapter.byOp ensures !w.adapter.byOp[op].Malformed? {
      assert Minted(w.adapter, w.adapter.byOp[op]);
    }
    OriginsKept(w, w');
  }

  lemma {:induction false} SettleHanded(s: Setting, w: World, c: nat, timedOut: bool)
    requires MintOk(s, w) && Enabled(w, Settle(c, timedOut))
    ensures var w' := Step(s, w, Settle(c, timedOut)); HandedOk(w', w'.calls[c])
  {
    var w' := Step(s, w, Settle(c, timedOut));
    if w'.calls[c].handed.Some? {
      assert HandedOk(w, w.calls[c]);
      assert Linked(w'.calls, Key(w'.calls[c]), w'.calls[c].handed.value.idempotencyKey, c, c);
    }
  }

  /** What a lookup finds under a record's operation id is linked to the record's key. */
  lemma {:induction false} FoundLinked(s: Setting, w: World, key: string, rec: OperationRecord)
    requires MintOk(s, w) && RecordOk(s, w.calls, key, rec) && rec.operationId in w.adapter.byOp
    ensures Minted(w.adapter, w.adapter.byOp[rec.operationId])
    ensures exists i: nat, j: nat :: Linked(w.calls, key, w.adapter.byOp[rec.operationId].idempotencyKey, i, j)
  {
    var r := w.adapter.byOp[rec.operationId];
    assert Minted(w.adapter, r);
    var i: nat :| Names(w.calls, i, key, rec.operationId);
    var j: nat :| Origin(w.calls, j, rec.operationId, r.idempotencyKey);
    assert Linked(w.calls, key, r.idempotencyKey, i, j);
  }

  /** A call that was handed a receipt the adapter holds, linked to the key of the call. */
  lemma {:induction false} HandedLinked(w: World, w': World, c: Call, i: nat, j: nat)
    requires Extends(w.calls, w'.calls) && w'.adapter == w.adapter
    requires c.exec == NotCalled && c.handed.Some? && Minted(w.adapter, c.handed.value)
    requires Linked(w.calls, Key(c), c.handed.value.idempotencyKey, i, j)
    ensures HandedOk(w', c)
  {
    assert Linked(w'.calls, Key(c), c.handed.value.idempotencyKey, i, j);
  }

  lemma {:induction false} LookUpStep(s: Setting, w: World, c: nat)
    requires CallsOk(s, w) && Enabled(w, LookUp(c))
    ensures var w' := Step(s, w, LookUp(c)); var op := w.calls[c].phase.prior.operationId;
      && w'.adapter == w.adapter && c < |w'.calls|
      && Key(w'.calls[c]) == Key(w.calls[c]) && w'.calls[c].exec == NotCalled
      && w'.calls[c].handed == if op in w.adapter.byOp then Some(w.adapter.byOp[op]) else None
  {
    assert CallOk(s, w.calls[c]);
  }

  lemma {:induction false} LookUpHanded(s: Setting, w: World, c: nat)
    requires MintOk(s, w) && Enabled(w, LookUp(c))
    ensures var w' := Step(s, w, LookUp(c)); c < |w'.calls| && HandedOk(w', w'.calls[c])
  {
    var w' := Step(s, w, LookUp(c));
    var rec := w.calls[c].phase.prior;
    LookUpStep(s, w, c);
    StepExtends(s, w, LookUp(c));
    if rec.operationId in w.adapter.byOp {
      assert PhaseOk(s, w.calls, w.calls[c]);
      FoundLinked(s, w, Key(w.calls[c]), rec);
      var i: nat, j: nat :| Linked(w.calls, Key(w.calls[c]), w.adapter.byOp[rec.operationId].idempotencyKey, i, j);
      HandedLinked(w, w', w'.calls[c], i, j);
    }
  }

  /** Returning changes nothing about what a call was handed. */
  lemma {:induction false} PhaseIsNotHanded(w: World, c: Call, p: Phase)
    requires HandedOk(w, c)
    ensures HandedOk(w, c.(phase := p))
  {
    if c.handed.Some? {
      var i: nat, j: nat :| Linked(w.calls, Key(c), c.handed.value.idempotencyKey, i, j);
      assert Linked(w.calls, Key(c.(phase := p)), c.handed.value.idempotencyKey, i, j);
    }
  }

  lemma {:induction false} WriteHanded(s: Setting, w: World, e: Event, c: nat)
    requires MintOk(s, w) && Enabled(w, e)
    requires (e.FinishCall? || e.FinishReconcile?) && e.c == c
    ensures HandedOk(Step(s, w, e), Step(s, w, e).calls[c])
  {
    StepExtends(s, w, e);
    HandedKept(w, Step(s, w, e), w.calls[c]);
    PhaseIsNotHanded(Step(s, w, e), w.calls[c], Step(s, w, e).calls[c].phase);
    assert Step(s, w, e).calls[c] == w.calls[c].(phase := Step(s, w, e).calls[c].phase);
  }

  lemma {:induction false} MintStep(s: Setting, w: World, e: Event)
    requires MintOk(s, w) && Enabled(w, e) && FakeAdapterEvent(e)
    ensures MintOk(s, Step(s, w, e))
  {
    match e
    case Register(_) => QuietStep(s, w, e, |w.calls|);
    case BeginCall(_, _, _, _) => QuietStep(s, w, e, |w.calls|);
    case Fire(c, env) => FireStep(s, w, c, env);
    case Settle(c, timedOut) =>
      SettleHanded(s, w, c, timedOut);
      QuietStep(s, w, e, c);
    case LookUp(c) =>
      LookUpHanded(s, w, c);
      QuietStep(s, w, e, c);
    case FinishCall(c, _) =>
      WriteHanded(s, w, e, c);
      QuietStep(s, w, e, c);
    case FinishReconcile(c, _) =>
      WriteHanded(s, w, e, c);
      QuietStep(s, w, e, c);
  }

  ghost predicate FakeRun(es: seq<Event>) {
    forall i | 0 <= i < |es| :: FakeAdapterEvent(es[i])
  }

  lemma {:induction false} MintRun(s: Setting, w: World, es: seq<Event>)
    requires MintOk(s, w) && CanRun(s, w, es) && FakeRun(es)
    ensures MintOk(s, Run(s, w, es))
    ensures Keeps(w.adapter, Run(s, w, es).adapter)
    decreases |es|
  {
    if es != [] {
      assert FakeAdapterEvent(es[0]);
      assert forall i | 0 <= i < |es[1..]| :: es[1..][i] == es[i + 1];
      MintStep(s, w, es[0]);
      StepKeeps(s, w, es[0]);
      MintRun(s, Step(s, w, es[0]), es[1..]);
    }
  }

  /** Each call's expectation carries the key of the call, the way every caller builds it. */
  ghost predicate OwnExpectations(calls: seq<Call>) {
    forall i | 0 <= i < |calls| :: calls[i].input.expectation.idempotencyKey == Key(calls[i])
  }

  /** Calls that share an operation id share the key. */
  ghost predicate Paired(calls: seq<Call>) {
    forall i, j | 0 <= i < |calls| && 0 <= j < |calls| && OpId(calls[i]) == OpId(calls[j]) :: Key(calls[i]) == Key(calls[j])
  }

  /** The receipt of an ok result is the one the adapter minted for the call's key. */
  lemma {:induction false} OkCarriesTheReceipt(s: Setting, w: World, c: nat)
    requires MintOk(s, w) && (OwnExpectations(w.calls) || Paired(w.calls))
    requires c < |w.calls| && w.calls[c].phase.Returned? && w.calls[c].phase.result.Done?
    ensures Key(w.calls[c]) in w.adapter.byKey
    ensures w.adapter.byKey[Key(w.calls[c])].receipt == w.calls[c].phase.result.receipt
  {
    var r := w.calls[c].phase.result.receipt;
    assert PhaseOk(s, w.calls, w.calls[c]);
    var p: nat :| Proves(w.calls, p, Key(w.calls[c]), r);
    assert HandedOk(w, w.calls[p]);
    var i: nat, j: nat :| Linked(w.calls, Key(w.calls[p]), r.idempotencyKey, i, j);
    if Paired(w.calls) {
      assert r.idempotencyKey == Key(w.calls[c]);
    } else {
      assert r.idempotencyKey == w.calls[p].input.expectation.idempotencyKey;
    }
  }

  /**
   In every run, whatever overlaps and however late effects fire: all ok results on a key carry one
   and the same receipt, the one the adapter holds for that key. It is enough that callers expect
   their own key, or that operation ids are paired with keys.
   */
  lemma {:induction false} OneReceiptPerKey(s: Setting, es: seq<Event>, c: nat, d: nat)
    requires CanRun(s, Start(), es) && FakeRun(es)
    requires var w := Run(s, Start(), es);
      && (OwnExpectations(w.calls) || Paired(w.calls))
      && c < |w.calls| && w.calls[c].phase.Returned? && w.calls[c].phase.result.Done?
      && d < |w.calls| && w.calls[d].phase.Returned? && w.calls[d].phase.result.Done?
      && Key(w.calls[c]) == Key(w.calls[d])
    ensures var w := Run(s, Start(), es);
      && w.calls[c].phase.result.receipt == w.calls[d].phase.result.receipt
      && Key(w.calls[c]) in w.adapter.byKey
      && w.calls[c].phase.result.receipt == w.adapter.byKey[Key(w.calls[c])].receipt
  {
    MintRun(s, Start(), es);
    OkCarriesTheReceipt(s, Run(s, Start(), es), c);
    OkCarriesTheReceipt(s, Run(s, Start(), es), d);
  }

  /** A key's receipt is minted once: whatever follows in a run leaves it as it is. */
  lemma {:induction false} MintedOnce(s: Setting, es: seq<Event>, more: seq<Event>, key: string)
    requires CanRun(s, Start(), es) && FakeRun(es) && key in Run(s, Start(), es).adapter.byKey
    requires CanRun(s, Run(s, Start(), es), more) && FakeRun(more)
    ensures var w := Run(s, Start(), es);
      && key in Run(s, w, more).adapter.byKey
      && Run(s, w, more).adapter.byKey[key] == w.adapter.byKey[key]
  {
    MintRun(s, Start(), es);
    MintRun(s, Run(s, Start(), es), more);
  }
}
