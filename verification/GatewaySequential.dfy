/**
 What holds when calls on one key do not overlap, and exactly when an overlap breaks it. Timed-out
 effects may still land at any time.
 */
module GatewaySequential {
  import opened Prelude
  import opened Contracts
  import opened HashChain
  import opened Authority
  import opened Receipts
  import opened Adapters
  import opened Stores
  import opened Gateway
  import opened GatewayProtocol
  import opened GatewayEvidence
  import opened GatewayReceipts

  type Records = map<string, OperationRecord>

  /** No call on this key is under way. */
  ghost predicate Idle(calls: seq<Call>, key: string) {
    forall i | 0 <= i < |calls| && Key(calls[i]) == key :: calls[i].phase.Returned?
  }

  /** A call starts only when its key is idle. */
  ghost predicate InTurn(w: World, e: Event) {
    e.BeginCall? ==> Idle(w.calls, e.input.operation.idempotencyKey)
  }

  /** Calls on one key never overlap in this run. */
  ghost predicate SequentialRun(s: Setting, w: World, es: seq<Event>)
    requires CanRun(s, w, es)
    decreases |es|
  {
    es == [] || (InTurn(w, es[0]) && SequentialRun(s, Step(s, w, es[0]), es[1..]))
  }

  predicate Attempting(c: Call) {
    c.phase.Racing? || c.phase.Settled?
  }

  /** Where each attempt stands towards the records: under way and unrecorded, or recorded. */
  ghost predicate AttemptOk(byKey: Records, c: Call) {
    && (Attempting(c) ==> c.consumed.Some?)
    && (c.consumed.Some? && !Attempting(c) ==> Key(c) in byKey)
  }

  ghost predicate AttemptsOk(s: Setting, w: World) {
    CallsOk(s, w) && forall i | 0 <= i < |w.calls| :: AttemptOk(w.gate.store.byKey, w.calls[i])
  }

  // ----- with or without overlap -----

  lemma {:induction false} RecordsStay(s: Setting, w: World, e: Event)
    requires Enabled(w, e)
    ensures forall k | k in w.gate.store.byKey :: k in Step(s, w, e).gate.store.byKey
    ensures e.FinishCall? ==> Key(w.calls[e.c]) in Step(s, w, e).gate.store.byKey
  {
    if e.BeginCall? {
      BeginStore(s, w.gate, e.input, e.now, e.recheckAt, e.beginStamp);
    }
  }

  lemma {:induction false} BeginStore(s: Setting, g: Gate, i: CallInput, now: int, recheckAt: int, stamp: Stamp)
    ensures Begin(s.payloadHash, g, i, now, recheckAt, stamp).0.store == g.store
  {
  }

  lemma {:induction false} AttemptsStep(s: Setting, w: World, e: Event)
    requires AttemptsOk(s, w) && Enabled(w, e)
    ensures AttemptsOk(s, Step(s, w, e))
  {
    var w' := Step(s, w, e);
    CallsOkStep(s, w, e);
    RecordsStay(s, w, e);
    forall i | 0 <= i < |w'.calls| ensures AttemptOk(w'.gate.store.byKey, w'.calls[i]) {
      assert CallOk(s, w'.calls[i]);
      if i < |w.calls| {
        assert AttemptOk(w.gate.store.byKey, w.calls[i]) && CallOk(s, w.calls[i]);
        StepsOfCall(s, w, e, i);
      }
    }
  }

  /** A call stops attempting only by finishing. */
  lemma {:induction false} StepsOfCall(s: Setting, w: World, e: Event, i: nat)
    requires CallsOk(s, w) && Enabled(w, e) && i < |w.calls|
    ensures var w' := Step(s, w, e);
      && i < |w'.calls| && w'.calls[i].input == w.calls[i].input && w'.calls[i].consumed == w.calls[i].consumed
      && (Attempting(w'.calls[i]) ==> Attempting(w.calls[i]))
      && (Attempting(w.calls[i]) && !Attempting(w'.calls[i]) ==> e.FinishCall? && e.c == i)
      && (w.calls[i].phase.Returned? ==> w'.calls[i].phase == w.calls[i].phase)
  {
    StepExtends(s, w, e);
  }

  lemma {:induction false} AttemptsRun(s: Setting, w: World, es: seq<Event>)
    requires AttemptsOk(s, w) && CanRun(s, w, es)
    ensures AttemptsOk(s, Run(s, w, es))
    decreases |es|
  {
    if es != [] {
      AttemptsStep(s, w, es[0]);
      AttemptsRun(s, Step(s, w, es[0]), es[1..]);
    }
  }

  predicate AttemptedBy(calls: seq<Call>, i: nat, key: string) {
    i < |calls| && Key(calls[i]) == key && calls[i].consumed.Some?
  }

  predicate UnderWay(calls: seq<Call>, i: nat, key: string) {
    i < |calls| && Key(calls[i]) == key && Attempting(calls[i])
  }

  /** The checks a new attempt has to pass, other than that its key is new. */
  predicate Admitted(g: Gate, i: CallInput, now: int) {
    && ParseAndValidate(i.raw, i.request, now).Success?
    && CheckPreconditions(i.raw.value, i.currentProposalHash, i.currentResourceVersion, i.expectedResourceVersion) == []
    && RefuseConsume(g.registry, i.raw.value.id, i.raw.value.nonce) == None
  }

  lemma {:induction false} NewAttemptExactly(s: Setting, g: Gate, i: CallInput, now: int, recheckAt: int, stamp: Stamp)
    ensures var phase := Begin(s.payloadHash, g, i, now, recheckAt, stamp).1;
      phase.Racing? || phase.Settled? <==> Admitted(g, i, now) && i.operation.idempotencyKey !in g.store.byKey
  {
  }

  /**
   Over any run, with any overlap: a call makes another attempt on a key that was attempted before
   exactly when it is admitted while the key has no record and an earlier attempt is still under way.
   */
  lemma {:induction false} SecondAttemptExactly(
    s: Setting, es: seq<Event>, i: CallInput, now: int, recheckAt: int, stamp: Stamp)
    requires CanRun(s, Start(), es)
    ensures var w := Run(s, Start(), es); var key := i.operation.idempotencyKey;
      var phase := Begin(s.payloadHash, w.gate, i, now, recheckAt, stamp).1;
      (phase.Racing? || phase.Settled?) && (exists j: nat :: AttemptedBy(w.calls, j, key))
      <==> Admitted(w.gate, i, now) && key !in w.gate.store.byKey && (exists j: nat :: UnderWay(w.calls, j, key))
  {
    var w := Run(s, Start(), es);
    var key := i.operation.idempotencyKey;
    AttemptsRun(s, Start(), es);
    NewAttemptExactly(s, w.gate, i, now, recheckAt, stamp);
    forall j: nat ensures UnderWay(w.calls, j, key) ==> AttemptedBy(w.calls, j, key) {
      assert j < |w.calls| ==> AttemptOk(w.gate.store.byKey, w.calls[j]);
    }
    forall j: nat ensures AttemptedBy(w.calls, j, key) && key !in w.gate.store.byKey ==> UnderWay(w.calls, j, key) {
      assert j < |w.calls| ==> AttemptOk(w.gate.store.byKey, w.calls[j]);
    }
  }

  predicate ExecutedBy(calls: seq<Call>, i: nat, key: string) {
    i < |calls| && Key(calls[i]) == key && Executed(calls[i])
  }

  predicate ExecutingNow(calls: seq<Call>, i: nat, key: string) {
    UnderWay(calls, i, key) && Executed(calls[i])
  }

  lemma {:induction false} EntersExactly(s: Setting, g: Gate, i: CallInput, now: int, recheckAt: int, stamp: Stamp)
    ensures Begin(s.payloadHash, g, i, now, recheckAt, stamp).1.Racing? <==>
      && Admitted(g, i, now) && ValidateCapability(i.raw.value, i.request, recheckAt) == None
      && i.operation.idempotencyKey !in g.store.byKey
  {
  }

  /**
   Over any run, with any overlap and any adapter: a call enters `execute` on a key for which `execute`
   was entered before exactly when it is admitted, passes the re-check, meets no record, and an
   earlier call that entered `execute` is still under way.
   */
  lemma {:induction false} SecondExecutionExactly(
    s: Setting, es: seq<Event>, i: CallInput, now: int, recheckAt: int, stamp: Stamp)
    requires CanRun(s, Start(), es)
    ensures var w := Run(s, Start(), es); var key := i.operation.idempotencyKey;
      Begin(s.payloadHash, w.gate, i, now, recheckAt, stamp).1.Racing? && (exists j: nat :: ExecutedBy(w.calls, j, key))
      <==> && Admitted(w.gate, i, now) && ValidateCapability(i.raw.value, i.request, recheckAt) == None
           && key !in w.gate.store.byKey && (exists j: nat :: ExecutingNow(w.calls, j, key))
  {
    var w := Run(s, Start(), es);
    var key := i.operation.idempotencyKey;
    AttemptsRun(s, Start(), es);
    EntersExactly(s, w.gate, i, now, recheckAt, stamp);
    forall j: nat ensures ExecutingNow(w.calls, j, key) ==> ExecutedBy(w.calls, j, key) {
    }
    forall j: nat ensures ExecutedBy(w.calls, j, key) && key !in w.gate.store.byKey ==> ExecutingNow(w.calls, j, key) {
      assert j < |w.calls| ==> AttemptOk(w.gate.store.byKey, w.calls[j]) && CallOk(s, w.calls[j]);
    }
  }

  // ----- without overlap -----

  /** Of the calls on one key only the last may be under way, and only one made an attempt. */
  ghost predicate Alone(calls: seq<Call>) {
    forall i: nat, j: nat | i < j < |calls| && Key(calls[i]) == Key(calls[j]) ::
      calls[i].phase.Returned? && (calls[i].consumed.None? || calls[j].consumed.None?)
  }

  /** What a call and the record of its key have to do with each other. */
  ghost predicate KnownOk(s: Setting, byKey: Records, c: Call) {
    && (Attempting(c) ==> c.consumed.Some? && Key(c) !in byKey)
    && (c.consumed.Some? && !Attempting(c) ==>
          && Key(c) in byKey
          && byKey[Key(c)].payloadHash == s.payloadHash(c.input.params)
          && byKey[Key(c)].capabilityId == c.consumed.value)
    && (c.phase.LookingUp? || c.phase.LookedUp? ==> Key(c) in byKey && byKey[Key(c)] == c.phase.prior)
  }

  ghost predicate SequentialOk(s: Setting, w: World) {
    && EvidenceOk(s, w)
    && Alone(w.calls)
    && forall i | 0 <= i < |w.calls| :: KnownOk(s, w.gate.store.byKey, w.calls[i])
  }

  /** How the record of a key may move: once it is there it keeps what it is about, and only an unknown outcome is resolved. */
  predicate Moves(before: Records, after: Records, key: string) {
    key in before ==>
      && key in after
      && (|| after[key] == before[key]
          || (&& before[key].state == UnknownOperation && after[key].state != UnknownOperation
              && after[key].payloadHash == before[key].payloadHash
              && after[key].capabilityId == before[key].capabilityId))
  }

  lemma {:induction false} BeginSequential(s: Setting, w: World, e: Event)
    requires SequentialOk(s, w) && e.BeginCall? && InTurn(w, e)
    ensures SequentialOk(s, Step(s, w, e))
    ensures Step(s, w, e).gate.store == w.gate.store
  {
    var w' := Step(s, w, e);
    var n := |w.calls|;
    EvidenceStep(s, w, e);
    BeginEffect(s, w.gate, e.input, e.now, e.recheckAt, e.beginStamp);
    BeginKnown(s, w, e);
    forall i: nat, j: nat | i < j < |w'.calls| && Key(w'.calls[i]) == Key(w'.calls[j])
      ensures w'.calls[i].phase.Returned? && (w'.calls[i].consumed.None? || w'.calls[j].consumed.None?)
    {
      assert w'.calls[i] == w.calls[i] && KnownOk(s, w.gate.store.byKey, w.calls[i]);
      assert j < n ==> w'.calls[j] == w.calls[j];
    }
  }

  /** A new attempt meets no record; a lookup starts from the record. */
  lemma {:induction false} BeginKnown(s: Setting, w: World, e: Event)
    requires SequentialOk(s, w) && e.BeginCall?
    ensures var w' := Step(s, w, e); var n := |w.calls|;
      && |w'.calls| == n + 1 && w'.calls[..n] == w.calls
      && Key(w'.calls[n]) == e.input.operation.idempotencyKey
      && (w'.calls[n].consumed.Some? ==> Key(w'.calls[n]) !in w.gate.store.byKey)
      && KnownOk(s, w.gate.store.byKey, w'.calls[n])
  {
    BeginEffect(s, w.gate, e.input, e.now, e.recheckAt, e.beginStamp);
  }

  /** No attempt is made or ended. */
  ghost predicate Quiet(w: World, w': World)
    requires |w'.calls| == |w.calls|
  {
    forall i | 0 <= i < |w.calls| ::
      && w'.calls[i].input == w.calls[i].input && w'.calls[i].consumed == w.calls[i].consumed
      && (Attempting(w'.calls[i]) <==> Attempting(w.calls[i]))
      && (w.calls[i].phase.Returned? ==> w'.calls[i].phase.Returned?)
      && (w'.calls[i].phase.LookingUp? || w'.calls[i].phase.LookedUp? ==>
            && (w.calls[i].phase.LookingUp? || w.calls[i].phase.LookedUp?)
            && w'.calls[i].phase.prior == w.calls[i].phase.prior)
  }

  lemma {:induction false} QuietSequential(s: Setting, w: World, w': World)
    requires SequentialOk(s, w) && EvidenceOk(s, w') && w'.gate.store.byKey == w.gate.store.byKey
    requires |w'.calls| == |w.calls| && Quiet(w, w')
    ensures SequentialOk(s, w')
  {
    forall i | 0 <= i < |w'.calls| ensures KnownOk(s, w'.gate.store.byKey, w'.calls[i]) {
      assert KnownOk(s, w.gate.store.byKey, w.calls[i]);
    }
  }

  /** A live call `c` returns and leaves `rec` under its key. */
  lemma {:induction false} WriteSequential(s: Setting, w: World, w': World, c: nat, rec: OperationRecord)
    requires SequentialOk(s, w) && EvidenceOk(s, w') && c < |w.calls| == |w'.calls|
    requires w'.gate.store.byKey == w.gate.store.byKey[Key(w.calls[c]) := rec]
    requires w'.calls == w.calls[c := w'.calls[c]] && w'.calls[c].phase.Returned? && !w.calls[c].phase.Returned?
    requires w'.calls[c].input == w.calls[c].input && w'.calls[c].consumed == w.calls[c].consumed
    requires if Attempting(w.calls[c]) then
               w.calls[c].consumed == Some(rec.capabilityId) && rec.payloadHash == s.payloadHash(w.calls[c].input.params)
             else
               && w.calls[c].phase.LookedUp? && w.calls[c].consumed.None?
               && rec.capabilityId == w.calls[c].phase.prior.capabilityId
               && rec.payloadHash == w.calls[c].phase.prior.payloadHash
    ensures SequentialOk(s, w')
  {
    var byKey, byKey' := w.gate.store.byKey, w'.gate.store.byKey;
    assert KnownOk(s, byKey, w.calls[c]);
    forall i: nat | i < |w'.calls| ensures KnownOk(s, byKey', w'.calls[i]) {
      assert KnownOk(s, byKey, w.calls[i]);
      if i != c && Key(w.calls[i]) == Key(w.calls[c]) {
        assert w.calls[i].phase.Returned?;
      }
    }
  }

  lemma {:induction false} FinishRecord(g: Gate, i: CallInput, c: Capability, hash: string, outcome: RaceOutcome, stamp: Stamp)
    ensures var after := Finish(g, i, c, hash, outcome, stamp).0.store.byKey; var k := i.operation.idempotencyKey;
      k in after && after == g.store.byKey[k := after[k]] && after[k].capabilityId == c.id && after[k].payloadHash == hash
  {
  }

  lemma {:induction false} FinishLookupRecord(g: Gate, i: CallInput, prior: OperationRecord, found: Option<Receipt>, stamp: Stamp)
    ensures var after := FinishLookup(g, i, prior, found, stamp).0.store.byKey; var k := i.operation.idempotencyKey;
      if found.None? then after == g.store.byKey
      else
        && k in after && after == g.store.byKey[k := after[k]] && after[k].state != UnknownOperation
        && after[k].capabilityId == prior.capabilityId && after[k].payloadHash == prior.payloadHash
  {
  }

  lemma {:induction false} FinishCallSequential(s: Setting, w: World, c: nat, stamp: Stamp)
    requires SequentialOk(s, w) && Enabled(w, FinishCall(c, stamp))
    ensures SequentialOk(s, Step(s, w, FinishCall(c, stamp)))
    ensures forall k :: Moves(w.gate.store.byKey, Step(s, w, FinishCall(c, stamp)).gate.store.byKey, k)
  {
    var e := FinishCall(c, stamp);
    var w' := Step(s, w, e);
    var p := w.calls[c].phase;
    EvidenceStep(s, w, e);
    assert CallOk(s, w.calls[c]) && KnownOk(s, w.gate.store.byKey, w.calls[c]);
    FinishRecord(w.gate, w.calls[c].input, p.capability, p.payloadHash, p.outcome, stamp);
    WriteSequential(s, w, w', c, w'.gate.store.byKey[Key(w.calls[c])]);
  }

  /** A reconciliation about to end: it made no attempt, and its record is still the one it found. */
  lemma {:induction false} LookedUpKnown(s: Setting, w: World, c: nat)
    requires SequentialOk(s, w) && c < |w.calls| && w.calls[c].phase.LookedUp?
    ensures var k := Key(w.calls[c]);
      && w.calls[c].consumed.None?
      && k in w.gate.store.byKey && w.gate.store.byKey[k] == w.calls[c].phase.prior
      && w.gate.store.byKey[k].state == UnknownOperation
  {
    assert CallOk(s, w.calls[c]) && KnownOk(s, w.gate.store.byKey, w.calls[c]) && PhaseOk(s, w.calls, w.calls[c]);
  }

  lemma {:induction false} ReconcileEffect(s: Setting, w: World, c: nat, stamp: Stamp)
    requires Enabled(w, FinishReconcile(c, stamp))
    ensures var w' := Step(s, w, FinishReconcile(c, stamp)); var p := w.calls[c].phase; var k := Key(w.calls[c]);
      && c < |w'.calls| && w'.calls == w.calls[c := w'.calls[c]]
      && w'.calls[c] == w.calls[c].(phase := w'.calls[c].phase) && w'.calls[c].phase.Returned?
      && if p.found.None? then w'.gate.store.byKey == w.gate.store.byKey
         else
           && k in w'.gate.store.byKey && w'.gate.store.byKey == w.gate.store.byKey[k := w'.gate.store.byKey[k]]
           && w'.gate.store.byKey[k].state != UnknownOperation
           && w'.gate.store.byKey[k].capabilityId == p.prior.capabilityId
           && w'.gate.store.byKey[k].payloadHash == p.prior.payloadHash
  {
    var p := w.calls[c].phase;
    FinishLookupRecord(w.gate, w.calls[c].input, p.prior, p.found, stamp);
  }

  lemma {:induction false} ReconcileMoves(s: Setting, w: World, c: nat, stamp: Stamp)
    requires SequentialOk(s, w) && Enabled(w, FinishReconcile(c, stamp))
    ensures forall k :: Moves(w.gate.store.byKey, Step(s, w, FinishReconcile(c, stamp)).gate.store.byKey, k)
  {
    LookedUpKnown(s, w, c);
    ReconcileEffect(s, w, c, stamp);
  }

  lemma {:induction false} FinishReconcileSequential(s: Setting, w: World, c: nat, stamp: Stamp)
    requires SequentialOk(s, w) && Enabled(w, FinishReconcile(c, stamp))
    ensures SequentialOk(s, Step(s, w, FinishReconcile(c, stamp)))
    ensures forall k :: Moves(w.gate.store.byKey, Step(s, w, FinishReconcile(c, stamp)).gate.store.byKey, k)
  {
    var e := FinishReconcile(c, stamp);
    var w' := Step(s, w, e);
    EvidenceStep(s, w, e);
    LookedUpKnown(s, w, c);
    ReconcileEffect(s, w, c, stamp);
    ReconcileMoves(s, w, c, stamp);
    if w.calls[c].phase.found.Some? {
      WriteSequential(s, w, w', c, w'.gate.store.byKey[Key(w.calls[c])]);
    } else {
      QuietSequential(s, w, w');
    }
  }

  lemma {:induction false} OtherSequential(s: Setting, w: World, e: Event)
    requires SequentialOk(s, w) && Enabled(w, e) && !e.BeginCall? && !e.FinishCall? && !e.FinishReconcile?
    ensures SequentialOk(s, Step(s, w, e))
    ensures Step(s, w, e).gate.store == w.gate.store
  {
    EvidenceStep(s, w, e);
    OtherEffect(s, w, e);
    QuietSequential(s, w, Step(s, w, e));
  }

  lemma {:induction false} OtherEffect(s: Setting, w: World, e: Event)
    requires Enabled(w, e) && !e.BeginCall? && !e.FinishCall? && !e.FinishReconcile?
    ensures var w' := Step(s, w, e); w'.gate.store == w.gate.store && |w'.calls| == |w.calls| && Quiet(w, w')
  {
  }

  lemma {:induction false} SequentialStep(s: Setting, w: World, e: Event)
    requires SequentialOk(s, w) && Enabled(w, e) && InTurn(w, e)
    ensures SequentialOk(s, Step(s, w, e))
    ensures forall k :: Moves(w.gate.store.byKey, Step(s, w, e).gate.store.byKey, k)
  {
    match e
    case BeginCall(_, _, _, _) => BeginSequential(s, w, e);
    case FinishCall(c, stamp) => FinishCallSequential(s, w, c, stamp);
    case FinishReconcile(c, stamp) => FinishReconcileSequential(s, w, c, stamp);
    case _ => OtherSequential(s, w, e);
  }

  lemma {:induction false} MovesOn(a: Records, b: Records, c: Records, key: string)
    requires Moves(a, b, key) && Moves(b, c, key)
    ensures Moves(a, c, key)
  {
  }

  lemma {:induction false} SequentialRuns(s: Setting, w: World, es: seq<Event>)
    requires SequentialOk(s, w) && CanRun(s, w, es) && SequentialRun(s, w, es)
    ensures SequentialOk(s, Run(s, w, es))
    ensures forall k :: Moves(w.gate.store.byKey, Run(s, w, es).gate.store.byKey, k)
    decreases |es|
  {
    if es != [] {
      var next := Step(s, w, es[0]);
      SequentialStep(s, w, es[0]);
      SequentialRuns(s, next, es[1..]);
      forall k ensures Moves(w.gate.store.byKey, Run(s, w, es).gate.store.byKey, k) {
        MovesOn(w.gate.store.byKey, next.gate.store.byKey, Run(s, w, es).gate.store.byKey, k);
      }
    }
  }

  /**
   When calls on one key take turns, whatever the adapter does and however late effects land:
   `execute` is called at most once per key, ever, and a record, once there, keeps its payload hash
   and capability and only ever moves from unknown to succeeded or failed.
   */
  lemma {:induction false} ExecutedOncePerKey(s: Setting, es: seq<Event>, more: seq<Event>)
    requires CanRun(s, Start(), es) && SequentialRun(s, Start(), es)
    requires CanRun(s, Run(s, Start(), es), more) && SequentialRun(s, Run(s, Start(), es), more)
    ensures var w := Run(s, Start(), es);
      && (forall i: nat, j: nat | i < j < |w.calls| && Executed(w.calls[i]) && Executed(w.calls[j]) ::
            Key(w.calls[i]) != Key(w.calls[j]))
      && forall k :: Moves(w.gate.store.byKey, Run(s, w, more).gate.store.byKey, k)
  {
    var w := Run(s, Start(), es);
    SequentialRuns(s, Start(), es);
    SequentialRuns(s, w, more);
    forall i: nat, j: nat | i < j < |w.calls| && Executed(w.calls[i]) && Executed(w.calls[j])
      ensures Key(w.calls[i]) != Key(w.calls[j])
    {
      assert CallOk(s, w.calls[i]) && CallOk(s, w.calls[j]);
    }
  }

  // ----- the adapter's table against the records -----

  /** Call `i` on `key` was executed for parameters with this hash. */
  ghost predicate Fires(s: Setting, calls: seq<Call>, i: nat, key: string, hash: string) {
    i < |calls| && Key(calls[i]) == key && Executed(calls[i]) && s.payloadHash(calls[i].input.params) == hash
  }

  ghost predicate TableTraced(s: Setting, w: World) {
    forall k | k in w.adapter.byKey :: exists i: nat :: Fires(s, w.calls, i, k, w.adapter.byKey[k].payloadHash)
  }

  lemma {:induction false} FireFills(s: Setting, w: World, c: nat, env: ExecInputs)
    requires Enabled(w, Fire(c, env))
    ensures var after := Step(s, w, Fire(c, env)).adapter.byKey; var k := Key(w.calls[c]);
      after == w.adapter.byKey
      || (k in after && after == w.adapter.byKey[k := after[k]] && after[k].payloadHash == s.payloadHash(w.calls[c].input.params))
  {
  }

  lemma {:induction false} TableStep(s: Setting, w: World, e: Event)
    requires CallsOk(s, w) && TableTraced(s, w) && Enabled(w, e) && FakeAdapterEvent(e)
    ensures TableTraced(s, Step(s, w, e))
  {
    var w' := Step(s, w, e);
    StepExtends(s, w, e);
    if e.Fire? {
      FireFills(s, w, e.c, e.env);
    }
    forall k | k in w'.adapter.byKey ensures exists i: nat :: Fires(s, w'.calls, i, k, w'.adapter.byKey[k].payloadHash) {
      if k in w.adapter.byKey && w'.adapter.byKey[k] == w.adapter.byKey[k] {
        var i: nat :| Fires(s, w.calls, i, k, w.adapter.byKey[k].payloadHash);
        assert Fires(s, w'.calls, i, k, w.adapter.byKey[k].payloadHash);
      } else {
        assert Fires(s, w'.calls, e.c, k, w'.adapter.byKey[k].payloadHash);
      }
    }
  }

  lemma {:induction false} TableRun(s: Setting, w: World, es: seq<Event>)
    requires CallsOk(s, w) && TableTraced(s, w) && CanRun(s, w, es)
    requires forall i | 0 <= i < |es| :: FakeAdapterEvent(es[i])
    ensures TableTraced(s, Run(s, w, es))
    decreases |es|
  {
    if es != [] {
      assert FakeAdapterEvent(es[0]);
      assert forall i | 0 <= i < |es[1..]| :: es[1..][i] == es[i + 1];
      CallsOkStep(s, w, es[0]);
      TableStep(s, w, es[0]);
      TableRun(s, Step(s, w, es[0]), es[1..]);
    }
  }

  /** In front of a fake adapter, the effect behind a recorded key is the one the record is about. */
  lemma {:induction false} EffectMatchesRecord(s: Setting, es: seq<Event>, key: string)
    requires CanRun(s, Start(), es) && SequentialRun(s, Start(), es)
    requires forall i | 0 <= i < |es| :: FakeAdapterEvent(es[i])
    requires key in Run(s, Start(), es).gate.store.byKey && key in Run(s, Start(), es).adapter.byKey
    ensures var w := Run(s, Start(), es); w.adapter.byKey[key].payloadHash == w.gate.store.byKey[key].payloadHash
  {
    var w := Run(s, Start(), es);
    SequentialRuns(s, Start(), es);
    TableRun(s, Start(), es);
    var i: nat :| Fires(s, w.calls, i, key, w.adapter.byKey[key].payloadHash);
    assert CallOk(s, w.calls[i]) && KnownOk(s, w.gate.store.byKey, w.calls[i]);
  }

  /**
   When calls on one key take turns in front of a fake adapter, every ok result's receipt repeats, field
   by field, the parameters of the very call it answers.
   */
  lemma {:induction false} OkRepeatsItsParameters(s: Setting, es: seq<Event>, c: nat)
    requires HashInjective(s.payloadHash)
    requires CanRun(s, Start(), es) && SequentialRun(s, Start(), es) && FakeRun(es)
    requires var w := Run(s, Start(), es);
      && (OwnExpectations(w.calls) || Paired(w.calls))
      && c < |w.calls| && w.calls[c].phase.Returned? && w.calls[c].phase.result.Done?
    ensures var call := Run(s, Start(), es).calls[c];
      Echoes(s.kind, call.input.params, Key(call), call.phase.result.receipt)
  {
    OneReceiptPerKey(s, es, c, c);
    AnsweredForItsParameters(s, es, c);
    var w := Run(s, Start(), es);
    EntryRepeats(s, es, Key(w.calls[c]), w.calls[c].input.params);
  }

  lemma {:induction false} EntryRepeats(s: Setting, es: seq<Event>, key: string, params: Params)
    requires HashInjective(s.payloadHash)
    requires CanRun(s, Start(), es) && SequentialRun(s, Start(), es) && FakeRun(es)
    requires var w := Run(s, Start(), es); key in w.adapter.byKey && exists i: nat :: AttemptedFor(w.calls, i, key, params)
    ensures Echoes(s.kind, params, key, Run(s, Start(), es).adapter.byKey[key].receipt)
  {
    SequentialRuns(s, Start(), es);
    TableRun(s, Start(), es);
    MintRun(s, Start(), es);
    EntryIsForParameters(s, Run(s, Start(), es), key, params);
    EntryEchoes(s, Run(s, Start(), es), key, params);
  }

  /** The adapter's entry for a key is for the parameters the key was attempted for. */
  lemma {:induction false} EntryIsForParameters(s: Setting, w: World, key: string, params: Params)
    requires SequentialOk(s, w) && TableTraced(s, w) && key in w.adapter.byKey
    requires exists i: nat :: AttemptedFor(w.calls, i, key, params)
    ensures w.adapter.byKey[key].payloadHash == s.payloadHash(params)
  {
    var i: nat :| AttemptedFor(w.calls, i, key, params);
    var j: nat :| Fires(s, w.calls, j, key, w.adapter.byKey[key].payloadHash);
    OneAttempt(s, w, i, j);
  }

  lemma {:induction false} OneAttempt(s: Setting, w: World, i: nat, j: nat)
    requires SequentialOk(s, w) && i < |w.calls| && j < |w.calls| && Key(w.calls[i]) == Key(w.calls[j])
    requires w.calls[i].consumed.Some? && Executed(w.calls[j])
    ensures i == j
  {
    assert CallOk(s, w.calls[j]);
  }

  lemma {:induction false} EntryEchoes(s: Setting, w: World, key: string, params: Params)
    requires HashInjective(s.payloadHash) && AdapterOk(s.kind, s.payloadHash, w.adapter) && key in w.adapter.byKey
    requires w.adapter.byKey[key].payloadHash == s.payloadHash(params)
    ensures Echoes(s.kind, params, key, w.adapter.byKey[key].receipt)
  {
    assert HonestEntry(s.kind, s.payloadHash, key, w.adapter.byKey[key]);
    var p :| s.payloadHash(p) == w.adapter.byKey[key].payloadHash && Echoes(s.kind, p, key, w.adapter.byKey[key].receipt);
  }
}
