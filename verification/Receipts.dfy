/** Action parameters, the receipts that answer them, and the check between the two. */
module Receipts {
  import opened Prelude
  import opened DecimalText
  import opened KeyOrder
  import opened Json
  import opened CanonicalHash
  import opened HashChain
  import opened Contracts

  datatype Priority = Low | Medium | High

  datatype Channel = Email | Sms

  datatype Params =
    | TicketParams(title: string, description: Option<string>, priority: Option<Priority>)
    | MessageParams(customerId: string, body: string, channel: Channel)
    | RefundParams(orderId: string, amountMinorInteger: int, currency: string, reason: string)

  /** What an adapter hands back; `Malformed` is anything the receipt schema does not parse. */
  datatype Receipt =
    | TicketReceipt(ticketId: string, title: string, description: Option<string>, priority: Priority,
                    idempotencyKey: string, resourceId: string, createdAt: int)
    | MessageReceipt(messageId: string, customerId: string, body: string, channel: Channel,
                     idempotencyKey: string, resourceId: string, sentAt: int)
    | RefundReceipt(refundId: string, orderId: string, amountMinorInteger: int, currency: string, reason: string,
                    idempotencyKey: string, resourceId: string, issuedAt: int)
    | Malformed(text: string)

  /** `string.length`: UTF-16 code units. */
  function JsLength(s: string): nat {
    if s == [] then 0 else (if s[0] as int >= 0x10000 then 2 else 1) + JsLength(s[1..])
  }

  /** The receipt schemas. */
  predicate ReceiptSchema(r: Receipt) {
    match r
    case TicketReceipt(id, title, description, _, key, resource, _) =>
      && id != "" && title != "" && JsLength(title) <= 120 && (description.Some? ==> JsLength(description.value) <= 2000)
      && key != "" && resource != ""
    case MessageReceipt(id, customer, body, _, key, resource, _) =>
      id != "" && customer != "" && body != "" && JsLength(body) <= 2000 && key != "" && resource != ""
    case RefundReceipt(id, order, amount, currency, reason, key, resource, _) =>
      && id != "" && order != "" && amount > 0 && JsLength(currency) == 3
      && reason != "" && JsLength(reason) <= 300 && key != "" && resource != ""
    case Malformed(_) => false
  }

  /** `validateAdapterReceipt` and the parse inside the postcondition checks. */
  predicate ParsesAs(a: ActionType, r: Receipt) {
    && ReceiptSchema(r)
    && match a
       case CreateInternalTicket => r.TicketReceipt?
       case SendCustomerMessage => r.MessageReceipt?
       case IssueRefund => r.RefundReceipt?
       case UpdateTicketStatus => false
  }

  datatype Expectation =
    | ExpectTicket(idempotencyKey: string)
    | ExpectMessage(idempotencyKey: string, customerId: string, body: string, channel: Channel)
    | ExpectRefund(idempotencyKey: string, orderId: string, amountMinorInteger: int)

  /** `verifyPostcondition`: true is `VERIFIED`, false is `POSTCONDITION_UNVERIFIED`. */
  predicate VerifyPostcondition(a: ActionType, r: Receipt, e: Expectation) {
    match a
    case CreateInternalTicket =>
      e.ExpectTicket? && ParsesAs(a, r) && r.idempotencyKey == e.idempotencyKey
    case SendCustomerMessage =>
      && e.ExpectMessage? && ParsesAs(a, r) && r.idempotencyKey == e.idempotencyKey
      && r.customerId == e.customerId && r.body == e.body && r.channel == e.channel
    case IssueRefund =>
      && e.ExpectRefund? && ParsesAs(a, r) && r.idempotencyKey == e.idempotencyKey
      && r.orderId == e.orderId && r.amountMinorInteger == e.amountMinorInteger
    case UpdateTicketStatus => false
  }

  /** The expectation a caller builds from the key and the parameters of its own call. */
  function ExpectationFor(key: string, p: Params): Expectation {
    match p
    case TicketParams(_, _, _) => ExpectTicket(key)
    case MessageParams(customer, body, channel) => ExpectMessage(key, customer, body, channel)
    case RefundParams(order, amount, _, _) => ExpectRefund(key, order, amount)
  }

  predicate Fits(a: ActionType, p: Params) {
    match a
    case CreateInternalTicket => p.TicketParams?
    case SendCustomerMessage => p.MessageParams?
    case IssueRefund => p.RefundParams?
    case UpdateTicketStatus => false
  }

  /** The candidate receipt the adapters build. */
  function BuildReceipt(p: Params, key: string, resourceId: string, freshId: string, now: int): Receipt {
    match p
    case TicketParams(title, description, priority) =>
      TicketReceipt(freshId, title, description, if priority.Some? then priority.value else Medium, key, resourceId, now)
    case MessageParams(customer, body, channel) =>
      MessageReceipt(freshId, customer, body, channel, key, resourceId, now)
    case RefundParams(order, amount, currency, reason) =>
      RefundReceipt(freshId, order, amount, currency, reason, key, resourceId, now)
  }

  // ----- the checks, field by field -----

  lemma {:induction false} JsLengthIsUtf16(s: string)
    ensures JsLength(s) == |Utf16(s)|
  {
    if s != [] {
      JsLengthIsUtf16(s[1..]);
    }
  }

  /** A text of at least one and at most `most` UTF-16 code units. */
  predicate Between1And(most: int, s: string) {
    s != "" && |Utf16(s)| <= most
  }

  /** The three receipt schemas, with their lengths in UTF-16 code units. */
  lemma {:induction false} SchemaExact(r: Receipt)
    ensures ReceiptSchema(r) <==>
      && !r.Malformed? && r.idempotencyKey != "" && r.resourceId != ""
      && (r.TicketReceipt? ==>
            && r.ticketId != "" && Between1And(120, r.title)
            && (r.description.Some? ==> |Utf16(r.description.value)| <= 2000))
      && (r.MessageReceipt? ==> r.messageId != "" && r.customerId != "" && Between1And(2000, r.body))
      && (r.RefundReceipt? ==>
            && r.refundId != "" && r.orderId != "" && r.amountMinorInteger >= 1
            && |Utf16(r.currency)| == 3 && Between1And(300, r.reason))
  {
    match r
    case TicketReceipt(_, title, description, _, _, _, _) =>
      JsLengthIsUtf16(title);
      if description.Some? {
        JsLengthIsUtf16(description.value);
      }
    case MessageReceipt(_, _, body, _, _, _, _) =>
      JsLengthIsUtf16(body);
    case RefundReceipt(_, _, _, currency, reason, _, _, _) =>
      JsLengthIsUtf16(currency);
      JsLengthIsUtf16(reason);
    case Malformed(_) =>
  }

  /** The receipt repeats what is expected, field by field. */
  predicate Meets(e: Expectation, r: Receipt) {
    match e
    case ExpectTicket(key) => r.TicketReceipt? && r.idempotencyKey == key
    case ExpectMessage(key, customer, body, channel) =>
      r.MessageReceipt? && r.idempotencyKey == key && r.customerId == customer && r.body == body && r.channel == channel
    case ExpectRefund(key, order, amount) =>
      r.RefundReceipt? && r.idempotencyKey == key && r.orderId == order && r.amountMinorInteger == amount
  }

  /** The expectation is one for this action type. */
  predicate ExpectsFor(a: ActionType, e: Expectation) {
    || (a == CreateInternalTicket && e.ExpectTicket?)
    || (a == SendCustomerMessage && e.ExpectMessage?)
    || (a == IssueRefund && e.ExpectRefund?)
  }

  /** The postcondition holds exactly for a schema-valid receipt that meets an expectation of the right kind. */
  lemma {:induction false} PostconditionExact(a: ActionType, r: Receipt, e: Expectation)
    ensures VerifyPostcondition(a, r, e) <==> ReceiptSchema(r) && ExpectsFor(a, e) && Meets(e, r)
  {
  }

  /** What a candidate receipt is made of. */
  lemma {:induction false} BuiltFieldByField(p: Params, key: string, resourceId: string, freshId: string, now: int)
    ensures var r := BuildReceipt(p, key, resourceId, freshId, now);
      && !r.Malformed? && r.idempotencyKey == key && r.resourceId == resourceId
      && (p.TicketParams? ==>
            && r.TicketReceipt? && r.ticketId == freshId && r.createdAt == now && r.title == p.title
            && r.description == p.description && r.priority == if p.priority == None then Medium else p.priority.value)
      && (p.MessageParams? ==>
            && r.MessageReceipt? && r.messageId == freshId && r.sentAt == now
            && r.customerId == p.customerId && r.body == p.body && r.channel == p.channel)
      && (p.RefundParams? ==>
            && r.RefundReceipt? && r.refundId == freshId && r.issuedAt == now && r.orderId == p.orderId
            && r.amountMinorInteger == p.amountMinorInteger && r.currency == p.currency && r.reason == p.reason)
  {
  }

  /** A valid receipt built from these parameters satisfies the expectation built from them. */
  lemma {:induction false} BuiltReceiptVerifies(a: ActionType, p: Params, key: string, resourceId: string, freshId: string, now: int)
    requires ParsesAs(a, BuildReceipt(p, key, resourceId, freshId, now))
    ensures VerifyPostcondition(a, BuildReceipt(p, key, resourceId, freshId, now), ExpectationFor(key, p))
    ensures Meets(ExpectationFor(key, p), BuildReceipt(p, key, resourceId, freshId, now))
  {
  }

  // ----- hashing parameters -----

  function PriorityName(p: Priority): string {
    match p case Low => "low" case Medium => "medium" case High => "high"
  }

  function ChannelName(c: Channel): string {
    match c case Email => "email" case Sms => "sms"
  }

  /** The parameters as an object; each action type fills its own properties. */
  function ParamsSlots(p: Params): seq<Slot> {
    [ OptionalText("title", if p.TicketParams? then Some(p.title) else None),
      OptionalText("description", if p.TicketParams? then p.description else None),
      OptionalText("priority", if p.TicketParams? && p.priority.Some? then Some(PriorityName(p.priority.value)) else None),
      OptionalText("customerId", if p.MessageParams? then Some(p.customerId) else None),
      OptionalText("body", if p.MessageParams? then Some(p.body) else None),
      OptionalText("channel", if p.MessageParams? then Some(ChannelName(p.channel)) else None),
      OptionalText("orderId", if p.RefundParams? then Some(p.orderId) else None),
      Slot("amountMinorInteger", if p.RefundParams? then Some(Num(IntNumber(p.amountMinorInteger))) else None),
      OptionalText("currency", if p.RefundParams? then Some(p.currency) else None),
      OptionalText("reason", if p.RefundParams? then Some(p.reason) else None) ]
  }

  /** `hashCanonical(params)`. */
  function PayloadHash(sha: string -> string): Params -> string {
    (p: Params) => HashCanonical(sha, Obj(Compact(ParamsSlots(p))))
  }

  lemma {:induction false} ParamsKeys(p: Params)
    ensures DistinctSlots(ParamsSlots(p))
    ensures forall i | 0 <= i < 10 :: NamedKey(ParamsSlots(p)[i].key)
  {
    var f := ParamsSlots(p);
    assert |f[0].key| == 5 && |f[1].key| == 11 && |f[2].key| == 8 && |f[3].key| == 10 && |f[4].key| == 4;
    assert |f[5].key| == 7 && |f[6].key| == 7 && |f[7].key| == 18 && |f[8].key| == 8 && |f[9].key| == 6;
    assert f[5].key[0] == 'c' && f[6].key[0] == 'o' && f[2].key[0] == 'p' && f[8].key[0] == 'c';
    assert f[0].key[0] == 't' && f[1].key[0] == 'd' && f[3].key[0] == 'c' && f[4].key[0] == 'b';
    assert f[7].key[0] == 'a' && f[9].key[0] == 'r';
  }

  lemma {:induction false} ParamsPlain(p: Params)
    ensures Plain(Obj(Compact(ParamsSlots(p))))
  {
    var f := ParamsSlots(p);
    ParamsKeys(p);
    forall i | 0 <= i < |f| && f[i].value.Some? ensures Plain(f[i].value.value) {
      assert f[i].value.value.Str? || f[i].value.value.Num?;
    }
    CompactPlain(f);
  }

  /** The hashed parameters: each action type fills its own properties, under their own names. */
  lemma {:induction false} HashedTexts(p: Params)
    ensures var m := FieldsMeaning(Compact(ParamsSlots(p)));
      && IsOptionalText(m, "title", if p.TicketParams? then Some(p.title) else None)
      && IsOptionalText(m, "description", if p.TicketParams? then p.description else None)
      && IsOptionalText(m, "customerId", if p.MessageParams? then Some(p.customerId) else None)
      && IsOptionalText(m, "body", if p.MessageParams? then Some(p.body) else None)
      && IsOptionalText(m, "orderId", if p.RefundParams? then Some(p.orderId) else None)
      && IsOptionalText(m, "currency", if p.RefundParams? then Some(p.currency) else None)
      && IsOptionalText(m, "reason", if p.RefundParams? then Some(p.reason) else None)
  {
    var f := ParamsSlots(p);
    ParamsKeys(p);
    CompactAt(f, 0);
    CompactAt(f, 1);
    CompactAt(f, 3);
    CompactAt(f, 4);
    CompactAt(f, 6);
    CompactAt(f, 8);
    CompactAt(f, 9);
  }

  /** Channel, priority and amount among them. */
  lemma {:induction false} HashedChoices(p: Params)
    ensures var m := FieldsMeaning(Compact(ParamsSlots(p)));
      && IsOptionalText(m, "channel", if p.MessageParams? then Some(if p.channel == Email then "email" else "sms") else None)
      && IsOptionalText(m, "priority",
           if p.TicketParams? && p.priority != None
           then Some(if p.priority == Some(Low) then "low" else if p.priority == Some(Medium) then "medium" else "high")
           else None)
      && ("amountMinorInteger" in m <==> p.RefundParams?)
      && (p.RefundParams? ==> m["amountMinorInteger"] == TNum(IntText(p.amountMinorInteger)))
  {
    var f := ParamsSlots(p);
    ParamsKeys(p);
    CompactAt(f, 2);
    CompactAt(f, 5);
    CompactAt(f, 7);
  }

  lemma {:induction false} NamesInjective(p: Priority, q: Priority, c: Channel, d: Channel)
    ensures PriorityName(p) == PriorityName(q) ==> p == q
    ensures ChannelName(c) == ChannelName(d) ==> c == d
  {
    assert |PriorityName(Low)| == 3 && |PriorityName(Medium)| == 6 && |PriorityName(High)| == 4;
    assert |ChannelName(Email)| == 5 && |ChannelName(Sms)| == 3;
  }

  lemma {:induction false} SameSlotsSameParams(p: Params, q: Params)
    requires SameSlots(ParamsSlots(p), ParamsSlots(q))
    ensures p == q
  {
    var f, g := ParamsSlots(p), ParamsSlots(q);
    assert SameSlot(f[0], g[0]) && SameSlot(f[1], g[1]) && SameSlot(f[2], g[2]) && SameSlot(f[3], g[3]);
    assert SameSlot(f[4], g[4]) && SameSlot(f[5], g[5]) && SameSlot(f[6], g[6]) && SameSlot(f[7], g[7]);
    assert SameSlot(f[8], g[8]) && SameSlot(f[9], g[9]);
    match p
    case TicketParams(_, _, _) =>
      if p.priority.Some? && q.priority.Some? {
        NamesInjective(p.priority.value, q.priority.value, Email, Email);
      }
    case MessageParams(_, _, _) =>
      NamesInjective(Low, Low, p.channel, q.channel);
    case RefundParams(_, _, _, _) =>
      SequenceSlot(p.amountMinorInteger, q.amountMinorInteger);
  }

  /** Payload hashes tell parameters apart. */
  lemma {:induction false} PayloadHashInjective(sha: string -> string, p: Params, q: Params)
    requires Injective(sha)
    ensures PayloadHash(sha)(p) == PayloadHash(sha)(q) ==> p == q
  {
    ParamsPlain(p);
    ParamsPlain(q);
    ParamsKeys(p);
    CompactExact(ParamsSlots(p), ParamsSlots(q));
    HashExact(sha, Obj(Compact(ParamsSlots(p))), Obj(Compact(ParamsSlots(q))));
    if PayloadHash(sha)(p) == PayloadHash(sha)(q) {
      SameSlotsSameParams(p, q);
    }
  }
}
