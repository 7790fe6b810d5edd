/**
 The grammar of a run's ledger: the sequences of event types a run can show when its entry calls take
 turns, as a parser and in closed form.
 */
module RunHistory {
  import opened Prelude
  import opened Contracts
  import opened Ledger

  /** What follows the minting of a capability. `lookups` counts the lookups that found nothing. */
  datatype Tail =
    | NoStart
    | Stopped
    | Started
    | Unresolved(lookups: nat)
    | Proved(unknownFirst: Option<nat>, replays: nat)
    | Refuted(unknownFirst: Option<nat>)

  datatype Shape =
    | Nothing
    | ProposedOnly
    | Withheld
    | ApprovalGiven
    | Granted(approved: bool, tail: Tail)

  function Repeat(t: AuditEventType, n: nat): seq<AuditEventType> {
    if n == 0 then [] else Repeat(t, n - 1) + [t]
  }

  /** An execution that started, with `n` fruitless lookups if its outcome was unknown first. */
  function RenderStart(unknownFirst: Option<nat>): seq<AuditEventType> {
    match unknownFirst
    case None => [ExecutionStarted]
    case Some(n) => [ExecutionStarted, ExecutionUnknown] + Repeat(ReconciliationRequiredEvent, n)
  }

  function RenderTail(tail: Tail): seq<AuditEventType> {
    match tail
    case NoStart => []
    case Stopped => [PreconditionFailedEvent]
    case Started => RenderStart(None)
    case Unresolved(n) => RenderStart(Some(n))
    case Proved(u, k) => RenderStart(u) + [PostconditionVerified] + Repeat(DuplicateReplayDetected, k)
    case Refuted(u) => RenderStart(u) + [PostconditionFailed]
  }

  /** The event types of a ledger of this shape, integrity checks left out. */
  function Render(s: Shape): seq<AuditEventType> {
    match s
    case Nothing => []
    case ProposedOnly => [ModelProposalRecorded]
    case Withheld => [ModelProposalRecorded, PolicyDecision]
    case ApprovalGiven => [ModelProposalRecorded, PolicyDecision, ApprovalConsumedEvent]
    case Granted(approved, tail) =>
      [ModelProposalRecorded, PolicyDecision] + (if approved then [ApprovalConsumedEvent] else [])
      + [CapabilityMinted] + RenderTail(tail)
  }

  /** The tail after one more event, if the grammar allows it. */
  function NextTail(tail: Tail, t: AuditEventType): Option<Tail> {
    match (tail, t)
    case (NoStart, PreconditionFailedEvent) => Some(Stopped)
    case (NoStart, ExecutionStarted) => Some(Started)
    case (Started, ExecutionUnknown) => Some(Unresolved(0))
    case (Started, PostconditionVerified) => Some(Proved(None, 0))
    case (Started, PostconditionFailed) => Some(Refuted(None))
    case (Unresolved(n), ReconciliationRequiredEvent) => Some(Unresolved(n + 1))
    case (Unresolved(n), PostconditionVerified) => Some(Proved(Some(n), 0))
    case (Unresolved(n), PostconditionFailed) => Some(Refuted(Some(n)))
    case (Proved(u, k), DuplicateReplayDetected) => Some(Proved(u, k + 1))
    case _ => None
  }

  function NextShape(s: Shape, t: AuditEventType): Option<Shape> {
    match (s, t)
    case (Nothing, ModelProposalRecorded) => Some(ProposedOnly)
    case (ProposedOnly, PolicyDecision) => Some(Withheld)
    case (Withheld, ApprovalConsumedEvent) => Some(ApprovalGiven)
    case (Withheld, CapabilityMinted) => Some(Granted(false, NoStart))
    case (ApprovalGiven, CapabilityMinted) => Some(Granted(true, NoStart))
    case (Granted(approved, tail), _) =>
      (match NextTail(tail, t)
       case None => None
       case Some(next) => Some(Granted(approved, next)))
    case _ => None
  }

  function Parse(ts: seq<AuditEventType>): Option<Shape> {
    if ts == [] then Some(Nothing)
    else
      match Parse(ts[..|ts| - 1])
      case None => None
      case Some(s) => NextShape(s, ts[|ts| - 1])
  }

  lemma {:induction false} ParseSnoc(ts: seq<AuditEventType>, t: AuditEventType)
    ensures Parse(ts + [t]) == (if Parse(ts).None? then None else NextShape(Parse(ts).value, t))
  {
    assert (ts + [t])[..|ts|] == ts;
  }

  lemma {:induction false} RenderNextTail(tail: Tail, t: AuditEventType)
    requires NextTail(tail, t).Some?
    ensures RenderTail(NextTail(tail, t).value) == RenderTail(tail) + [t]
  {
    match tail
    case Unresolved(n) =>
      if t == ReconciliationRequiredEvent {
        assert Repeat(t, n + 1) == Repeat(t, n) + [t];
      }
    case Proved(u, k) =>
      assert Repeat(t, k + 1) == Repeat(t, k) + [t];
    case _ =>
  }

  lemma {:induction false} RenderNext(s: Shape, t: AuditEventType)
    requires NextShape(s, t).Some?
    ensures Render(NextShape(s, t).value) == Render(s) + [t]
  {
    if s.Granted? {
      RenderNextTail(s.tail, t);
    }
  }

  /** The last event of a shape and the shape before it. */
  function Last(s: Shape): (AuditEventType, Shape)
    requires s != Nothing
  {
    match s
    case ProposedOnly => (ModelProposalRecorded, Nothing)
    case Withheld => (PolicyDecision, ProposedOnly)
    case ApprovalGiven => (ApprovalConsumedEvent, Withheld)
    case Granted(approved, tail) =>
      match tail
      case NoStart => (CapabilityMinted, if approved then ApprovalGiven else Withheld)
      case Stopped => (PreconditionFailedEvent, Granted(approved, NoStart))
      case Started => (ExecutionStarted, Granted(approved, NoStart))
      case Unresolved(n) =>
        if n == 0 then (ExecutionUnknown, Granted(approved, Started))
        else (ReconciliationRequiredEvent, Granted(approved, Unresolved(n - 1)))
      case Refuted(u) => (PostconditionFailed, Granted(approved, Open(u)))
      case Proved(u, k) =>
        if k == 0 then (PostconditionVerified, Granted(approved, Open(u)))
        else (DuplicateReplayDetected, Granted(approved, Proved(u, k - 1)))
  }

  function Open(unknownFirst: Option<nat>): Tail {
    match unknownFirst case None => Started case Some(n) => Unresolved(n)
  }

  lemma {:induction false} LastIsNext(s: Shape)
    requires s != Nothing
    ensures NextShape(Last(s).1, Last(s).0) == Some(s)
  {
  }

  lemma {:induction false} ParseRender(s: Shape)
    ensures Parse(Render(s)) == Some(s)
    decreases |Render(s)|
  {
    if s != Nothing {
      LastIsNext(s);
      RenderNext(Last(s).1, Last(s).0);
      ParseRender(Last(s).1);
      ParseSnoc(Render(Last(s).1), Last(s).0);
    }
  }

  /** The parser accepts exactly the closed form, and a sequence has one shape only. */
  lemma {:induction false} GrammarExact(ts: seq<AuditEventType>, s: Shape)
    ensures Parse(ts) == Some(s) <==> ts == Render(s)
    decreases |ts|
  {
    ParseRender(s);
    if Parse(ts) == Some(s) && ts != [] {
      var before := ts[..|ts| - 1];
      GrammarExact(before, Parse(before).value);
      RenderNext(Parse(before).value, ts[|ts| - 1]);
      assert ts == before + [ts[|ts| - 1]];
    }
  }

  // ----- ledgers -----

  /** The event types of a ledger, integrity checks left out. */
  function Types(log: seq<Appended>): seq<AuditEventType> {
    if log == [] then []
    else
      var t := log[|log| - 1].input.eventType;
      if t == AuditIntegrityChecked then Types(log[..|log| - 1]) else Types(log[..|log| - 1]) + [t]
  }

  predicate OneMore(before: seq<Appended>, after: seq<Appended>, t: AuditEventType) {
    |after| == |before| + 1 && after[..|before|] == before && after[|before|].input.eventType == t
  }

  function ShapeOf(log: seq<Appended>): Option<Shape> {
    Parse(Types(log))
  }

  lemma {:induction false} ShapeSnoc(before: seq<Appended>, after: seq<Appended>, t: AuditEventType)
    requires OneMore(before, after, t)
    ensures t == AuditIntegrityChecked ==> ShapeOf(after) == ShapeOf(before)
    ensures t != AuditIntegrityChecked ==>
      ShapeOf(after) == if ShapeOf(before).None? then None else NextShape(ShapeOf(before).value, t)
  {
    assert after[..|after| - 1] == before;
    ParseSnoc(Types(before), t);
  }
}
