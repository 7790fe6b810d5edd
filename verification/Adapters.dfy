/**
 The three fake adapters. They follow one protocol and differ in the parameters they take and the
 receipt they build, so one class covers them, told apart by its action type.
 */
module Adapters {
  import opened Prelude
  import opened CanonicalHash
  import opened Contracts
  import opened Receipts

  datatype AdapterError =
    | CapabilityActionTypeMismatch
    | CapabilityNotActive
    | IdempotencyKeyPayloadMismatch
    | InvalidReceipt
    | OtherError(message: string)

  /** How an `execute` call ends. */
  datatype ExecResult = Receipted(receipt: Receipt) | Threw(error: AdapterError)

  datatype IdempotencyRecord = IdempotencyRecord(payloadHash: string, receipt: Receipt)

  /** The two tables of an adapter. */
  datatype AdapterState = AdapterState(byKey: map<string, IdempotencyRecord>, byOp: map<string, Receipt>)

  datatype Operation = Operation(operationId: string, idempotencyKey: string)

  /** `assertCapabilityActive`. */
  predicate CapabilityUsable(c: Capability, now: int) {
    c.status == Active && c.expiresAt.At? && now < c.expiresAt.ms
  }

  /** What the clock and the id generator supply to one `execute` call. */
  datatype ExecInputs = ExecInputs(checkedAt: int, freshId: string, createdAt: int)

  function AfterExecute(
    kind: ActionType, payloadHash: Params -> string, s: AdapterState,
    op: Operation, c: Capability, p: Params, env: ExecInputs): (AdapterState, ExecResult)
  {
    if c.actionType != kind then (s, Threw(CapabilityActionTypeMismatch))
    else if !CapabilityUsable(c, env.checkedAt) then (s, Threw(CapabilityNotActive))
    else if op.idempotencyKey in s.byKey then
      var existing := s.byKey[op.idempotencyKey];
      if existing.payloadHash != payloadHash(p) then (s, Threw(IdempotencyKeyPayloadMismatch))
      else (s.(byOp := s.byOp[op.operationId := existing.receipt]), Receipted(existing.receipt))
    else
      var candidate := BuildReceipt(p, op.idempotencyKey, c.resourceId, env.freshId, env.createdAt);
      if !ParsesAs(kind, candidate) then (s, Threw(InvalidReceipt))
      else
        (AdapterState(s.byKey[op.idempotencyKey := IdempotencyRecord(payloadHash(p), candidate)],
                      s.byOp[op.operationId := candidate]),
         Receipted(candidate))
  }

  function Found(s: AdapterState, operationId: string): Option<Receipt> {
    if operationId in s.byOp then Some(s.byOp[operationId]) else None
  }

  class FakeAdapter {
    const kind: ActionType
    const payloadHash: Params -> string
    var byIdempotencyKey: map<string, IdempotencyRecord>
    var byOperationId: map<string, Receipt>

    constructor (kind: ActionType, payloadHash: Params -> string)
      ensures this.kind == kind && this.payloadHash == payloadHash && State() == AdapterState(map[], map[])
    {
      this.kind := kind;
      this.payloadHash := payloadHash;
      byIdempotencyKey := map[];
      byOperationId := map[];
    }

    function State(): AdapterState
      reads this
    {
      AdapterState(byIdempotencyKey, byOperationId)
    }

    method Execute(op: Operation, capability: Capability, params: Params, env: ExecInputs) returns (r: ExecResult)
      modifies this
      ensures (State(), r) == AfterExecute(kind, payloadHash, old(State()), op, capability, params, env)
    {
      if capability.actionType != kind {
        return Threw(CapabilityActionTypeMismatch);
      }
      if !CapabilityUsable(capability, env.checkedAt) {
        return Threw(CapabilityNotActive);
      }
      var hash := payloadHash(params);
      var receipt;
      if op.idempotencyKey in byIdempotencyKey {
        var existing := byIdempotencyKey[op.idempotencyKey];
        if existing.payloadHash != hash {
          return Threw(IdempotencyKeyPayloadMismatch);
        }
        receipt := existing.receipt;
      } else {
        receipt := BuildReceipt(params, op.idempotencyKey, capability.resourceId, env.freshId, env.createdAt);
        if !ParsesAs(kind, receipt) {
          return Threw(InvalidReceipt);
        }
        byIdempotencyKey := byIdempotencyKey[op.idempotencyKey := IdempotencyRecord(hash, receipt)];
      }
      byOperationId := byOperationId[op.operationId := receipt];
      return Receipted(receipt);
    }

    method Lookup(operationId: string) returns (r: Option<Receipt>)
      ensures r == Found(State(), operationId)
    {
      if operationId in byOperationId {
        return Some(byOperationId[operationId]);
      }
      return None;
    }
  }

  /**
   `CountingAdapter`: counts calls of `execute` when they are made, then delegates. In front of a slow
   adapter the two halves of `Execute` come apart: `BeginExecute` now, the inner `execute` later.
   */
  class CountingAdapter {
    const inner: FakeAdapter
    var callCount: nat

    constructor (inner: FakeAdapter)
      ensures this.inner == inner && callCount == 0
    {
      this.inner := inner;
      callCount := 0;
    }

    /** The part of `execute` that runs before anything is awaited. */
    method BeginExecute()
      modifies this
      ensures callCount == old(callCount) + 1
    {
      callCount := callCount + 1;
    }

    method Execute(op: Operation, capability: Capability, params: Params, env: ExecInputs) returns (r: ExecResult)
      modifies this, inner
      ensures callCount == old(callCount) + 1
      ensures (inner.State(), r) == AfterExecute(inner.kind, inner.payloadHash, old(inner.State()), op, capability, params, env)
    {
      BeginExecute();
      r := inner.Execute(op, capability, params, env);
    }

    method Lookup(operationId: string) returns (r: Option<Receipt>)
      ensures r == Found(inner.State(), operationId)
    {
      r := inner.Lookup(operationId);
    }
  }

  // ----- the two tables agree -----

  /** The receipt repeats what was asked for, field by field, under the key it was asked for. */
  predicate Echoes(kind: ActionType, p: Params, key: string, r: Receipt) {
    && ReceiptSchema(r)
    && match p
       case TicketParams(title, description, priority) =>
         && kind == CreateInternalTicket && r.TicketReceipt? && r.idempotencyKey == key
         && r.title == title && r.description == description
         && r.priority == if priority == None then Medium else priority.value
       case MessageParams(customer, body, channel) =>
         && kind == SendCustomerMessage && r.MessageReceipt? && r.idempotencyKey == key
         && r.customerId == customer && r.body == body && r.channel == channel
       case RefundParams(order, amount, currency, reason) =>
         && kind == IssueRefund && r.RefundReceipt? && r.idempotencyKey == key
         && r.orderId == order && r.amountMinorInteger == amount && r.currency == currency && r.reason == reason
  }

  /** The entry under `key` answers parameters with the recorded hash. */
  ghost predicate HonestEntry(kind: ActionType, payloadHash: Params -> string, key: string, e: IdempotencyRecord) {
    exists p :: payloadHash(p) == e.payloadHash && Echoes(kind, p, key, e.receipt)
  }

  ghost predicate AdapterOk(kind: ActionType, payloadHash: Params -> string, s: AdapterState) {
    && (forall k | k in s.byKey :: HonestEntry(kind, payloadHash, k, s.byKey[k]))
    && (forall op | op in s.byOp :: Minted(s, s.byOp[op]))
  }

  /** The receipt is the one minted for the key it carries. */
  predicate Minted(s: AdapterState, r: Receipt) {
    !r.Malformed? && r.idempotencyKey in s.byKey && s.byKey[r.idempotencyKey].receipt == r
  }

  ghost predicate HashInjective(payloadHash: Params -> string) {
    forall p, q :: payloadHash(p) == payloadHash(q) ==> p == q
  }

  /** The payload hash the adapters use is such a hash. */
  lemma {:induction false} PayloadHashDiscriminates(sha: string -> string)
    requires Injective(sha)
    ensures HashInjective(PayloadHash(sha))
  {
    forall p, q ensures PayloadHash(sha)(p) == PayloadHash(sha)(q) ==> p == q {
      PayloadHashInjective(sha, p, q);
    }
  }

  lemma {:induction false} ExecuteKeepsOk(
    kind: ActionType, payloadHash: Params -> string, s: AdapterState,
    op: Operation, c: Capability, p: Params, env: ExecInputs)
    requires AdapterOk(kind, payloadHash, s)
    ensures AdapterOk(kind, payloadHash, AfterExecute(kind, payloadHash, s, op, c, p, env).0)
  {
    var (s', r) := AfterExecute(kind, payloadHash, s, op, c, p, env);
    if r.Receipted? && op.idempotencyKey !in s.byKey {
      assert Echoes(kind, p, op.idempotencyKey, r.receipt);
      assert HonestEntry(kind, payloadHash, op.idempotencyKey, s'.byKey[op.idempotencyKey]);
      forall o | o in s'.byOp ensures Minted(s', s'.byOp[o]) {
        if o != op.operationId {
          assert Minted(s, s.byOp[o]);
        }
      }
    } else if r.Receipted? {
      assert HonestEntry(kind, payloadHash, op.idempotencyKey, s.byKey[op.idempotencyKey]);
    }
  }

  /** Entries of the idempotency table are written once: no later call changes or removes them. */
  lemma {:induction false} EntriesAreForever(
    kind: ActionType, payloadHash: Params -> string, s: AdapterState,
    op: Operation, c: Capability, p: Params, env: ExecInputs, key: string)
    requires key in s.byKey
    ensures key in AfterExecute(kind, payloadHash, s, op, c, p, env).0.byKey
    ensures AfterExecute(kind, payloadHash, s, op, c, p, env).0.byKey[key] == s.byKey[key]
  {
  }

  /**
   Every receipt `execute` returns, fresh or from the idempotency table, verifies against the
   expectation built from the same key and parameters, and `lookup` then finds it.
   */
  lemma {:induction false} ReceiptVerifies(
    kind: ActionType, payloadHash: Params -> string, s: AdapterState,
    op: Operation, c: Capability, p: Params, env: ExecInputs)
    requires AdapterOk(kind, payloadHash, s) && HashInjective(payloadHash)
    requires AfterExecute(kind, payloadHash, s, op, c, p, env).1.Receipted?
    ensures var (s', r) := AfterExecute(kind, payloadHash, s, op, c, p, env);
      && Echoes(kind, p, op.idempotencyKey, r.receipt)
      && VerifyPostcondition(kind, r.receipt, ExpectationFor(op.idempotencyKey, p))
      && Found(s', op.operationId) == Some(r.receipt)
      && Minted(s', r.receipt)
  {
    if op.idempotencyKey in s.byKey {
      var e := s.byKey[op.idempotencyKey];
      assert HonestEntry(kind, payloadHash, op.idempotencyKey, e);
      var q :| payloadHash(q) == e.payloadHash && Echoes(kind, q, op.idempotencyKey, e.receipt);
      assert q == p;
    }
  }

  /** An effect happens only through a usable capability for this adapter's own action type. */
  lemma {:induction false} EffectNeedsCapability(
    kind: ActionType, payloadHash: Params -> string, s: AdapterState,
    op: Operation, c: Capability, p: Params, env: ExecInputs)
    requires AfterExecute(kind, payloadHash, s, op, c, p, env).0 != s
    ensures c.actionType == kind && c.status == Active && c.expiresAt.At? && env.checkedAt < c.expiresAt.ms
    ensures AfterExecute(kind, payloadHash, s, op, c, p, env).1.Receipted?
  {
  }

  /** What a receipt from `execute` leaves behind in the two tables; an error leaves nothing. */
  lemma {:induction false} ExecuteMints(
    kind: ActionType, payloadHash: Params -> string, s: AdapterState,
    op: Operation, c: Capability, p: Params, env: ExecInputs)
    requires AdapterOk(kind, payloadHash, s)
    ensures var (s', r) := AfterExecute(kind, payloadHash, s, op, c, p, env);
      && (r.Threw? ==> s' == s)
      && (r.Receipted? ==>
            && Minted(s', r.receipt) && r.receipt.idempotencyKey == op.idempotencyKey
            && s'.byOp == s.byOp[op.operationId := r.receipt])
  {
    var (s', r) := AfterExecute(kind, payloadHash, s, op, c, p, env);
    if r.Receipted? && op.idempotencyKey in s.byKey {
      assert HonestEntry(kind, payloadHash, op.idempotencyKey, s.byKey[op.idempotencyKey]);
    }
  }

  /** What one `execute` call does, check by check in the order they count. */
  lemma {:induction false} ExecuteExact(
    kind: ActionType, payloadHash: Params -> string, s: AdapterState,
    op: Operation, c: Capability, p: Params, env: ExecInputs)
    ensures var key, hash := op.idempotencyKey, payloadHash(p);
      var candidate := BuildReceipt(p, key, c.resourceId, env.freshId, env.createdAt);
      AfterExecute(kind, payloadHash, s, op, c, p, env)
      == if c.actionType != kind then (s, Threw(CapabilityActionTypeMismatch))
         else if c.status != Active || c.expiresAt == NotATime || c.expiresAt.ms <= env.checkedAt then
           (s, Threw(CapabilityNotActive))
         else if key in s.byKey && s.byKey[key].payloadHash != hash then (s, Threw(IdempotencyKeyPayloadMismatch))
         else if key in s.byKey then
           (AdapterState(s.byKey, s.byOp[op.operationId := s.byKey[key].receipt]), Receipted(s.byKey[key].receipt))
         else if ReceiptSchema(candidate) && ReceiptOfKind(kind, candidate) then
           (AdapterState(s.byKey[key := IdempotencyRecord(hash, candidate)], s.byOp[op.operationId := candidate]),
            Receipted(candidate))
         else (s, Threw(InvalidReceipt))
  {
  }

  predicate ReceiptOfKind(kind: ActionType, r: Receipt) {
    || (kind == CreateInternalTicket && r.TicketReceipt?)
    || (kind == SendCustomerMessage && r.MessageReceipt?)
    || (kind == IssueRefund && r.RefundReceipt?)
  }

  // ----- over any use of an adapter -----

  datatype AdapterCall =
    | Executes(op: Operation, capability: Capability, params: Params, env: ExecInputs)
    | LooksUp(operationId: string)

  /** The tables after a history of calls on a new adapter; `lookup` leaves them alone. */
  function AfterCalls(kind: ActionType, payloadHash: Params -> string, calls: seq<AdapterCall>): AdapterState {
    if calls == [] then AdapterState(map[], map[])
    else
      var before := AfterCalls(kind, payloadHash, calls[..|calls| - 1]);
      match calls[|calls| - 1]
      case Executes(op, c, p, env) => AfterExecute(kind, payloadHash, before, op, c, p, env).0
      case LooksUp(_) => before
  }

  /** What the `i`-th call of a history answers, if it answers with a receipt. */
  function Answer(kind: ActionType, payloadHash: Params -> string, calls: seq<AdapterCall>, i: nat): Option<Receipt>
    requires i < |calls|
  {
    var before := AfterCalls(kind, payloadHash, calls[..i]);
    match calls[i]
    case Executes(op, c, p, env) =>
      var r := AfterExecute(kind, payloadHash, before, op, c, p, env).1;
      if r.Receipted? then Some(r.receipt) else None
    case LooksUp(operationId) => Found(before, operationId)
  }

  lemma {:induction false} HistoryOk(kind: ActionType, payloadHash: Params -> string, calls: seq<AdapterCall>)
    ensures AdapterOk(kind, payloadHash, AfterCalls(kind, payloadHash, calls))
    decreases |calls|
  {
    if calls != [] {
      var n := |calls| - 1;
      HistoryOk(kind, payloadHash, calls[..n]);
      match calls[n]
      case Executes(op, c, p, env) =>
        ExecuteKeepsOk(kind, payloadHash, AfterCalls(kind, payloadHash, calls[..n]), op, c, p, env);
      case LooksUp(_) =>
    }
  }

  /** The `j`-th call executed this operation and was answered with this receipt. */
  ghost predicate AnsweredAt(
    kind: ActionType, payloadHash: Params -> string, calls: seq<AdapterCall>, j: nat, operationId: string, r: Receipt)
  {
    && j < |calls| && calls[j].Executes? && calls[j].op.operationId == operationId
    && Answer(kind, payloadHash, calls, j) == Some(r)
  }

  lemma {:induction false} FoundWasExecuted(
    kind: ActionType, payloadHash: Params -> string, calls: seq<AdapterCall>, n: nat, operationId: string)
    requires n <= |calls| && Found(AfterCalls(kind, payloadHash, calls[..n]), operationId).Some?
    ensures exists j: nat :: j < n && AnsweredAt(
      kind, payloadHash, calls, j, operationId, Found(AfterCalls(kind, payloadHash, calls[..n]), operationId).value)
    decreases n
  {
    if n > 0 {
      var m := n - 1;
      var before := AfterCalls(kind, payloadHash, calls[..m]);
      var after := AfterCalls(kind, payloadHash, calls[..n]);
      assert calls[..n][..m] == calls[..m] && calls[..n][m] == calls[m];
      if Found(after, operationId) == Found(before, operationId) {
        FoundWasExecuted(kind, payloadHash, calls, m, operationId);
      } else {
        LandsAt(kind, payloadHash, calls, m, operationId);
      }
    }
  }

  /** A lookup's answer changes only by an `execute` for its operation, to what that call returns. */
  lemma {:induction false} LandsAt(
    kind: ActionType, payloadHash: Params -> string, calls: seq<AdapterCall>, m: nat, operationId: string)
    requires m < |calls|
    requires Found(AfterCalls(kind, payloadHash, calls[..m + 1]), operationId)
          != Found(AfterCalls(kind, payloadHash, calls[..m]), operationId)
    ensures Found(AfterCalls(kind, payloadHash, calls[..m + 1]), operationId).Some?
    ensures AnsweredAt(
      kind, payloadHash, calls, m, operationId, Found(AfterCalls(kind, payloadHash, calls[..m + 1]), operationId).value)
  {
    assert calls[..m + 1][..m] == calls[..m] && calls[..m + 1][m] == calls[m];
  }

  /**
   Over any sequence of `execute` and `lookup` calls on a new adapter: every receipt `execute` answers
   with verifies against the expectation built from its own key and parameters.
   */
  lemma {:induction false} EveryReceiptVerifies(kind: ActionType, payloadHash: Params -> string, calls: seq<AdapterCall>, i: nat)
    requires HashInjective(payloadHash) && i < |calls| && calls[i].Executes? && Answer(kind, payloadHash, calls, i).Some?
    ensures Echoes(kind, calls[i].params, calls[i].op.idempotencyKey, Answer(kind, payloadHash, calls, i).value)
    ensures VerifyPostcondition(
      kind, Answer(kind, payloadHash, calls, i).value, ExpectationFor(calls[i].op.idempotencyKey, calls[i].params))
  {
    HistoryOk(kind, payloadHash, calls[..i]);
    var e := calls[i];
    ReceiptVerifies(
      kind, payloadHash, AfterCalls(kind, payloadHash, calls[..i]), e.op, e.capability, e.params, e.env);
  }

  /** And every receipt `lookup` finds is one that an earlier `execute` for that operation answered with. */
  lemma {:induction false} EveryFindingWasExecuted(kind: ActionType, payloadHash: Params -> string, calls: seq<AdapterCall>, i: nat)
    requires HashInjective(payloadHash) && i < |calls| && calls[i].LooksUp? && Answer(kind, payloadHash, calls, i).Some?
    ensures exists j: nat ::
      && j < i
      && AnsweredAt(kind, payloadHash, calls, j, calls[i].operationId, Answer(kind, payloadHash, calls, i).value)
      && VerifyPostcondition(
           kind, Answer(kind, payloadHash, calls, i).value, ExpectationFor(calls[j].op.idempotencyKey, calls[j].params))
  {
    FoundWasExecuted(kind, payloadHash, calls, i, calls[i].operationId);
    var j: nat :| j < i && AnsweredAt(kind, payloadHash, calls, j, calls[i].operationId, Answer(kind, payloadHash, calls, i).value);
    EveryReceiptVerifies(kind, payloadHash, calls, j);
  }
}
