/** `projectOperation`: the coarse view of one operation, folded from the ledger. */
module Projection {
  import opened Prelude
  import opened Sorting
  import opened Contracts
  import opened HashChain
  import opened Ledger

  datatype Stage = ProposalStage | PolicyStage | ApprovalStage | CapabilityStage | ExecutionStage | VerificationStage

  datatype FinalState =
    | NoEvents | ProjProposed | ProjPolicyDecided | ProjApproved | ProjCapabilityMinted | ProjExecuting
    | ProjVerified | ProjFailed | ProjUnknownOutcome | ProjReconciliationRequired

  datatype Projected = Projected(stagesSeen: seq<Stage>, finalState: FinalState, events: seq<LedgerEntry>)

  function StageForEventType(t: AuditEventType): Option<Stage> {
    match t
    case ModelProposalRecorded => Some(ProposalStage)
    case PolicyDecision => Some(PolicyStage)
    case ApprovalConsumedEvent => Some(ApprovalStage)
    case CapabilityMinted => Some(CapabilityStage)
    case ExecutionStarted => Some(ExecutionStage)
    case PreconditionFailedEvent => Some(ExecutionStage)
    case DuplicateReplayDetected => Some(ExecutionStage)
    case PostconditionVerified => Some(VerificationStage)
    case PostconditionFailed => Some(VerificationStage)
    case ExecutionUnknown => Some(VerificationStage)
    case ReconciliationRequiredEvent => Some(VerificationStage)
    case AuditIntegrityChecked => None
  }

  function FinalStateForEventType(t: AuditEventType, previous: FinalState): FinalState {
    match t
    case ModelProposalRecorded => ProjProposed
    case PolicyDecision => ProjPolicyDecided
    case ApprovalConsumedEvent => ProjApproved
    case CapabilityMinted => ProjCapabilityMinted
    case ExecutionStarted => ProjExecuting
    case PreconditionFailedEvent => ProjFailed
    case PostconditionVerified => ProjVerified
    case PostconditionFailed => ProjFailed
    case ExecutionUnknown => ProjUnknownOutcome
    case ReconciliationRequiredEvent => ProjReconciliationRequired
    case AuditIntegrityChecked => previous
    case DuplicateReplayDetected => previous
  }

  predicate Before(a: LedgerEntry, b: LedgerEntry) {
    a.sequence < b.sequence
  }

  lemma {:induction false} BeforeOrder()
    ensures StrictWeakOrder(Before)
  {
  }

  /** The entries of one operation, in the order they are listed. */
  function OfOperation(entries: seq<LedgerEntry>, operationId: string): seq<LedgerEntry> {
    Filter(entries, ByOperation(operationId))
  }

  function AddStage(stages: seq<Stage>, t: AuditEventType): seq<Stage> {
    match StageForEventType(t)
    case None => stages
    case Some(stage) => if stage in stages then stages else stages + [stage]
  }

  /** Stages seen and final state after a list of events, one step per event. */
  function Fold(events: seq<LedgerEntry>): (seq<Stage>, FinalState) {
    if events == [] then ([], ProjProposed)
    else
      var (stages, state) := Fold(events[..|events| - 1]);
      var t := events[|events| - 1].eventType;
      (AddStage(stages, t), FinalStateForEventType(t, state))
  }

  function Project(entries: seq<LedgerEntry>, operationId: string): Projected {
    var relevant := Sort(Before, OfOperation(entries, operationId));
    Projected(Fold(relevant).0, if relevant == [] then NoEvents else Fold(relevant).1, relevant)
  }

  /** `projectOperation`. */
  method ProjectOperation(entries: seq<LedgerEntry>, operationId: string) returns (p: Projected)
    ensures p == Project(entries, operationId)
  {
    var mine := SelectEntries(entries, ByOperation(operationId));
    var relevant := Sort(Before, mine);
    var stages: seq<Stage> := [];
    var finalState := if |relevant| == 0 then NoEvents else ProjProposed;
    for k := 0 to |relevant|
      invariant stages == Fold(relevant[..k]).0
      invariant finalState == if relevant == [] then NoEvents else Fold(relevant[..k]).1
    {
      assert relevant[..k + 1][..k] == relevant[..k];
      var stage := StageForEventType(relevant[k].eventType);
      if stage.Some? && stage.value !in stages {
        stages := stages + [stage.value];
      }
      finalState := FinalStateForEventType(relevant[k].eventType, finalState);
    }
    assert relevant[..|relevant|] == relevant;
    p := Projected(stages, finalState, relevant);
  }

  // ----- what the fold says -----

  /** Events that say nothing about the outcome by themselves. */
  predicate Silent(t: AuditEventType) {
    t == AuditIntegrityChecked || t == DuplicateReplayDetected
  }

  /** The final state is the one the last telling event names. */
  lemma {:induction false} FoldFinal(events: seq<LedgerEntry>, i: nat)
    requires i < |events| && !Silent(events[i].eventType)
    requires forall j | i < j < |events| :: Silent(events[j].eventType)
    ensures Fold(events).1 == FinalStateForEventType(events[i].eventType, ProjProposed)
    decreases |events|
  {
    if i < |events| - 1 {
      FoldFinal(events[..|events| - 1], i);
    }
  }

  lemma {:induction false} FoldAllSilent(events: seq<LedgerEntry>)
    requires forall j | 0 <= j < |events| :: Silent(events[j].eventType)
    ensures Fold(events).1 == ProjProposed
    decreases |events|
  {
    if events != [] {
      FoldAllSilent(events[..|events| - 1]);
    }
  }

  predicate Shows(events: seq<LedgerEntry>, i: nat, stage: Stage) {
    i < |events| && StageForEventType(events[i].eventType) == Some(stage)
  }

  /** A stage is seen exactly when some event belongs to it, and is listed once. */
  lemma {:induction false} FoldStages(events: seq<LedgerEntry>, stage: Stage)
    ensures stage in Fold(events).0 <==> exists i: nat :: Shows(events, i, stage)
    ensures multiset(Fold(events).0)[stage] <= 1
    decreases |events|
  {
    if events != [] {
      var n := |events| - 1;
      FoldStages(events[..n], stage);
      StageAdded(Fold(events[..n]).0, events[n].eventType, stage);
      ShowsOneMore(events, stage);
    }
  }

  lemma {:induction false} ShowsOneMore(events: seq<LedgerEntry>, stage: Stage)
    requires events != []
    ensures var n := |events| - 1;
      (exists i: nat :: Shows(events, i, stage))
      <==> (exists i: nat :: Shows(events[..n], i, stage)) || StageForEventType(events[n].eventType) == Some(stage)
  {
    var n := |events| - 1;
    if i: nat :| Shows(events[..n], i, stage) {
      assert Shows(events, i, stage);
    }
    if StageForEventType(events[n].eventType) == Some(stage) {
      assert Shows(events, n, stage);
    }
    if i: nat :| Shows(events, i, stage) {
      assert i < n ==> Shows(events[..n], i, stage);
    }
  }

  lemma {:induction false} StageAdded(stages: seq<Stage>, t: AuditEventType, stage: Stage)
    ensures stage in AddStage(stages, t) <==> stage in stages || StageForEventType(t) == Some(stage)
    ensures multiset(stages)[stage] <= 1 ==> multiset(AddStage(stages, t))[stage] <= 1
  {
  }

  /** Some event of one of these types is there. */
  predicate Has(events: seq<LedgerEntry>, types: set<AuditEventType>) {
    exists i :: 0 <= i < |events| && events[i].eventType in types
  }

  /** Each stage is seen exactly for the event types that belong to it. */
  lemma {:induction false} StagesExact(events: seq<LedgerEntry>)
    ensures ProposalStage in Fold(events).0 <==> Has(events, {ModelProposalRecorded})
    ensures PolicyStage in Fold(events).0 <==> Has(events, {PolicyDecision})
    ensures ApprovalStage in Fold(events).0 <==> Has(events, {ApprovalConsumedEvent})
    ensures CapabilityStage in Fold(events).0 <==> Has(events, {CapabilityMinted})
    ensures ExecutionStage in Fold(events).0
       <==> Has(events, {ExecutionStarted, PreconditionFailedEvent, DuplicateReplayDetected})
    ensures VerificationStage in Fold(events).0
       <==> Has(events, {PostconditionVerified, PostconditionFailed, ExecutionUnknown, ReconciliationRequiredEvent})
  {
    StageExact(events, ProposalStage, {ModelProposalRecorded});
    StageExact(events, PolicyStage, {PolicyDecision});
    StageExact(events, ApprovalStage, {ApprovalConsumedEvent});
    StageExact(events, CapabilityStage, {CapabilityMinted});
    StageExact(events, ExecutionStage, {ExecutionStarted, PreconditionFailedEvent, DuplicateReplayDetected});
    StageExact(
      events, VerificationStage, {PostconditionVerified, PostconditionFailed, ExecutionUnknown, ReconciliationRequiredEvent});
  }

  lemma {:induction false} StageExact(events: seq<LedgerEntry>, stage: Stage, types: set<AuditEventType>)
    requires forall t :: t in types <==> StageForEventType(t) == Some(stage)
    ensures stage in Fold(events).0 <==> Has(events, types)
    decreases |events|
  {
    if events != [] {
      var n := |events| - 1;
      StageExact(events[..n], stage, types);
      HasOneMore(events, types);
      StageAdded(Fold(events[..n]).0, events[n].eventType, stage);
    }
  }

  lemma {:induction false} HasOneMore(events: seq<LedgerEntry>, types: set<AuditEventType>)
    requires events != []
    ensures Has(events, types) <==> Has(events[..|events| - 1], types) || events[|events| - 1].eventType in types
  {
    var n := |events| - 1;
    if i :| 0 <= i < |events[..n]| && events[..n][i].eventType in types {
      assert events[i].eventType in types;
    }
    if i :| 0 <= i < |events| && events[i].eventType in types {
      assert i < n ==> events[..n][i].eventType in types;
    }
  }

  /** The state the last telling event leaves, event type by event type. */
  lemma {:induction false} LastEventDecides(events: seq<LedgerEntry>, i: nat)
    requires i < |events| && events[i].eventType !in {AuditIntegrityChecked, DuplicateReplayDetected}
    requires forall j | i < j < |events| :: events[j].eventType in {AuditIntegrityChecked, DuplicateReplayDetected}
    ensures var t, state := events[i].eventType, Fold(events).1;
      && (t == ModelProposalRecorded <==> state == ProjProposed)
      && (t == PolicyDecision <==> state == ProjPolicyDecided)
      && (t == ApprovalConsumedEvent <==> state == ProjApproved)
      && (t == CapabilityMinted <==> state == ProjCapabilityMinted)
      && (t == ExecutionStarted <==> state == ProjExecuting)
      && (t == PostconditionVerified <==> state == ProjVerified)
      && (t in {PreconditionFailedEvent, PostconditionFailed} <==> state == ProjFailed)
      && (t == ExecutionUnknown <==> state == ProjUnknownOutcome)
      && (t == ReconciliationRequiredEvent <==> state == ProjReconciliationRequired)
  {
    FoldFinal(events, i);
  }

  // ----- order, other operations, growth -----

  ghost predicate DistinctSequences(entries: seq<LedgerEntry>) {
    forall a, b | a in entries && b in entries && a.sequence == b.sequence :: a == b
  }

  lemma {:induction false} OfOperationMember(entries: seq<LedgerEntry>, operationId: string, e: LedgerEntry)
    ensures e in OfOperation(entries, operationId) <==> e in entries && e.operationId == Some(operationId)
  {
    FilterExact(entries, ByOperation(operationId), e);
    var mine := OfOperation(entries, operationId);
    assert e in mine <==> multiset(mine)[e] > 0;
    assert e in entries <==> multiset(entries)[e] > 0;
  }

  /** The order in which entries are handed over does not matter, only their sequence numbers. */
  lemma {:induction false} ProjectIgnoresOrder(a: seq<LedgerEntry>, b: seq<LedgerEntry>, operationId: string)
    requires multiset(a) == multiset(b) && DistinctSequences(a)
    ensures Project(a, operationId) == Project(b, operationId)
  {
    var ma, mb := OfOperation(a, operationId), OfOperation(b, operationId);
    forall e ensures multiset(ma)[e] == multiset(mb)[e] {
      FilterExact(a, ByOperation(operationId), e);
      FilterExact(b, ByOperation(operationId), e);
    }
    assert multiset(ma) == multiset(mb);
    forall x, y | x in ma && y in ma && !Before(x, y) && !Before(y, x) ensures x == y {
      OfOperationMember(a, operationId, x);
      OfOperationMember(a, operationId, y);
    }
    BeforeOrder();
    SortForgetsOrder(Before, ma, mb);
  }

  /** Entries of other operations have no say, wherever they stand. */
  lemma {:induction false} ProjectIgnoresOthers(
    a: seq<LedgerEntry>, others: seq<LedgerEntry>, b: seq<LedgerEntry>, operationId: string)
    requires forall i | 0 <= i < |others| :: others[i].operationId != Some(operationId)
    ensures Project(a + others + b, operationId) == Project(a + b, operationId)
  {
    FilterInOrder(a + others, b, ByOperation(operationId));
    FilterInOrder(a, others, ByOperation(operationId));
    FilterInOrder(a, b, ByOperation(operationId));
    NoneOfOperation(others, operationId);
    assert OfOperation(a, operationId) + [] == OfOperation(a, operationId);
  }

  lemma {:induction false} NoneOfOperation(others: seq<LedgerEntry>, operationId: string)
    requires forall i | 0 <= i < |others| :: others[i].operationId != Some(operationId)
    ensures OfOperation(others, operationId) == []
  {
    if others != [] {
      NoneOfOperation(others[..|others| - 1], operationId);
    }
  }

  /** Entries in ascending sequence are projected in the order they stand. */
  lemma {:induction false} OfOperationSorted(entries: seq<LedgerEntry>, operationId: string)
    requires forall i, j | 0 <= i < j < |entries| :: entries[i].sequence < entries[j].sequence
    ensures Sorted(Before, OfOperation(entries, operationId))
    ensures Sort(Before, OfOperation(entries, operationId)) == OfOperation(entries, operationId)
  {
    if entries != [] {
      var front := entries[..|entries| - 1];
      OfOperationSorted(front, operationId);
      var mine := OfOperation(front, operationId);
      forall i | 0 <= i < |mine| ensures mine[i] in front {
        OfOperationMember(front, operationId, mine[i]);
      }
    }
    SortedStays(Before, OfOperation(entries, operationId));
  }

  lemma {:induction false} FoldSnoc(events: seq<LedgerEntry>, e: LedgerEntry)
    ensures Fold(events + [e]).0 == AddStage(Fold(events).0, e.eventType)
    ensures Fold(events + [e]).1 == FinalStateForEventType(e.eventType, Fold(events).1)
  {
    assert (events + [e])[..|events|] == events;
  }

  lemma {:induction false} ProjectSorted(entries: seq<LedgerEntry>, operationId: string)
    requires forall i, j | 0 <= i < j < |entries| :: entries[i].sequence < entries[j].sequence
    ensures var mine := OfOperation(entries, operationId);
      Project(entries, operationId) == Projected(Fold(mine).0, if mine == [] then NoEvents else Fold(mine).1, mine)
  {
    OfOperationSorted(entries, operationId);
  }

  lemma {:induction false} OfOperationSnoc(entries: seq<LedgerEntry>, e: LedgerEntry, operationId: string)
    ensures OfOperation(entries + [e], operationId)
         == OfOperation(entries, operationId) + (if e.operationId == Some(operationId) then [e] else [])
  {
    assert (entries + [e])[..|entries|] == entries;
  }

  /** Appending one event to a ledger extends its projection by one step of the fold. */
  lemma {:induction false} ProjectExtends(entries: seq<LedgerEntry>, e: LedgerEntry, operationId: string)
    requires forall i, j | 0 <= i < j < |entries| :: entries[i].sequence < entries[j].sequence
    requires forall i | 0 <= i < |entries| :: entries[i].sequence < e.sequence
    ensures var p := Project(entries, operationId);
      Project(entries + [e], operationId)
      == if e.operationId != Some(operationId) then p
         else Projected(
           AddStage(p.stagesSeen, e.eventType),
           FinalStateForEventType(e.eventType, if p.finalState == NoEvents then ProjProposed else p.finalState),
           p.events + [e])
  {
    var mine := OfOperation(entries, operationId);
    ProjectSorted(entries, operationId);
    ProjectSorted(entries + [e], operationId);
    OfOperationSnoc(entries, e, operationId);
    FoldSnoc(mine, e);
    FoldNotEmpty(mine);
  }

  lemma {:induction false} FoldNotEmpty(events: seq<LedgerEntry>)
    ensures Fold(events).1 != NoEvents
  {
    if events != [] {
      FoldNotEmpty(events[..|events| - 1]);
    }
  }

  /** Without an entry of its own an operation has no events, stages or state; with one it has a state. */
  lemma {:induction false} ProjectNothing(entries: seq<LedgerEntry>, operationId: string)
    ensures var none := forall e | e in entries :: e.operationId != Some(operationId);
      && (Project(entries, operationId) == Projected([], NoEvents, []) <==> none)
      && (Project(entries, operationId).finalState == NoEvents <==> none)
  {
    var mine := OfOperation(entries, operationId);
    if mine != [] {
      OfOperationMember(entries, operationId, mine[0]);
      FoldNotEmpty(Sort(Before, mine));
    }
    forall e | e in entries && e.operationId == Some(operationId) ensures mine != [] {
      OfOperationMember(entries, operationId, e);
    }
  }
}
