/** The append-only audit ledger, the integrity check over it, and what the check is worth. */
module Ledger {
  import opened Prelude
  import opened Json
  import opened CanonicalHash
  import opened Redaction
  import opened HashChain

  datatype IntegrityReason = SequenceGap | PrevHashMismatch | HashMismatch | ChainLengthMismatch

  datatype IntegrityResult =
    | Intact(checkedEntries: nat)
    | Broken(reason: IntegrityReason, brokenAtSequence: int)

  // ----- what a well-formed chain is -----

  /** The hash entry `i` has to point back to. */
  function PredecessorHash(entries: seq<LedgerEntry>, i: nat): string
    requires i <= |entries|
  {
    if i == 0 then GENESIS_HASH else entries[i - 1].hash
  }

  ghost predicate GoodAt(entryHash: LedgerEntry -> string, entries: seq<LedgerEntry>, i: nat)
    requires i < |entries|
  {
    && entries[i].sequence == i + 1
    && entries[i].prevHash == PredecessorHash(entries, i)
    && entries[i].hash == entryHash(WithoutHash(entries[i]))
  }

  ghost predicate WellChained(entryHash: LedgerEntry -> string, entries: seq<LedgerEntry>) {
    forall i | 0 <= i < |entries| :: GoodAt(entryHash, entries, i)
  }

  /** The first of the three checks entry `i` fails. */
  ghost predicate FailsWith(entryHash: LedgerEntry -> string, entries: seq<LedgerEntry>, i: nat, reason: IntegrityReason)
    requires i < |entries|
  {
    match reason
    case SequenceGap => entries[i].sequence != i + 1
    case PrevHashMismatch => entries[i].sequence == i + 1 && entries[i].prevHash != PredecessorHash(entries, i)
    case HashMismatch =>
      && entries[i].sequence == i + 1 && entries[i].prevHash == PredecessorHash(entries, i)
      && entries[i].hash != entryHash(WithoutHash(entries[i]))
    case ChainLengthMismatch => false
  }

  /** Length of the longest well-formed prefix. */
  ghost predicate LongestGoodPrefix(entryHash: LedgerEntry -> string, entries: seq<LedgerEntry>, n: nat) {
    && n <= |entries|
    && WellChained(entryHash, entries[..n])
    && (n < |entries| ==> !GoodAt(entryHash, entries, n))
  }

  ghost predicate PlainPayloads(entries: seq<LedgerEntry>) {
    forall i | 0 <= i < |entries| :: Plain(Obj(entries[i].payload))
  }

  /**
   Without an expected count exactly the well-formed chains are accepted; otherwise the verdict names
   the first check that the first bad entry fails.
   */
  ghost predicate IntegrityVerdict(
    entryHash: LedgerEntry -> string, entries: seq<LedgerEntry>, expectedSequenceCount: Option<int>, r: IntegrityResult)
  {
    && (r.Intact? <==>
          WellChained(entryHash, entries) && (expectedSequenceCount.None? || expectedSequenceCount.value == |entries|))
    && (r.Intact? ==> r.checkedEntries == |entries|)
    && (r.Broken? && !WellChained(entryHash, entries) ==>
          && 1 <= r.brokenAtSequence <= |entries|
          && LongestGoodPrefix(entryHash, entries, r.brokenAtSequence - 1)
          && FailsWith(entryHash, entries, r.brokenAtSequence - 1, r.reason))
    && (r.Broken? && WellChained(entryHash, entries) ==>
          r.reason == ChainLengthMismatch && expectedSequenceCount == Some(r.brokenAtSequence))
  }

  /** Entry `i` ends a well-formed prefix, passes the first two checks, and has no hash. */
  ghost predicate ThrowsAt(entryHash: LedgerEntry -> string, entries: seq<LedgerEntry>, i: nat) {
    && i < |entries|
    && GoodBefore(entryHash, entries, i) && HashableBefore(entries, i)
    && entries[i].sequence == i + 1 && entries[i].prevHash == PredecessorHash(entries, i)
    && !HasHash(entries[i])
  }

  ghost predicate Throws(entryHash: LedgerEntry -> string, entries: seq<LedgerEntry>) {
    exists i: nat :: ThrowsAt(entryHash, entries, i)
  }

  /** `verifyLedgerIntegrity`; `None` is the error thrown while hashing an entry with an unhashable payload. */
  method VerifyLedgerIntegrity(entryHash: LedgerEntry -> string, entries: seq<LedgerEntry>, expectedSequenceCount: Option<int>)
    returns (r: Option<IntegrityResult>)
    ensures r.None? <==> Throws(entryHash, entries)
    ensures r.Some? ==> IntegrityVerdict(entryHash, entries, expectedSequenceCount, r.value)
  {
    var index: nat := 0;
    var prevHash := GENESIS_HASH;
    while index < |entries|
      invariant index <= |entries|
      invariant prevHash == PredecessorHash(entries, index)
      invariant GoodBefore(entryHash, entries, index) && HashableBefore(entries, index)
    {
      var entry := entries[index];
      if entry.sequence != index + 1 {
        FirstBad(entryHash, entries, index, SequenceGap, expectedSequenceCount);
        return Some(Broken(SequenceGap, index + 1));
      }
      if entry.prevHash != prevHash {
        FirstBad(entryHash, entries, index, PrevHashMismatch, expectedSequenceCount);
        return Some(Broken(PrevHashMismatch, entry.sequence));
      }
      if !HasHash(entry) {
        assert ThrowsAt(entryHash, entries, index);
        return None;
      }
      var recomputed := entryHash(WithoutHash(entry));
      if recomputed != entry.hash {
        FirstBad(entryHash, entries, index, HashMismatch, expectedSequenceCount);
        return Some(Broken(HashMismatch, entry.sequence));
      }
      prevHash := entry.hash;
      index := index + 1;
    }
    NoneBad(entryHash, entries, expectedSequenceCount);
    if expectedSequenceCount.Some? && |entries| != expectedSequenceCount.value {
      return Some(Broken(ChainLengthMismatch, expectedSequenceCount.value));
    }
    return Some(Intact(|entries|));
  }

  ghost predicate GoodBefore(entryHash: LedgerEntry -> string, entries: seq<LedgerEntry>, n: nat)
    requires n <= |entries|
  {
    forall i | 0 <= i < n :: GoodAt(entryHash, entries, i)
  }

  predicate HasHash(e: LedgerEntry) {
    Hashable(Obj(e.payload))
  }

  ghost predicate HashableBefore(entries: seq<LedgerEntry>, n: nat)
    requires n <= |entries|
  {
    forall i | 0 <= i < n :: HasHash(entries[i])
  }

  lemma {:induction false} BadVerdict(
    entryHash: LedgerEntry -> string, entries: seq<LedgerEntry>, n: nat, reason: IntegrityReason, expected: Option<int>)
    requires n < |entries| && GoodBefore(entryHash, entries, n) && FailsWith(entryHash, entries, n, reason)
    ensures IntegrityVerdict(entryHash, entries, expected, Broken(reason, n + 1))
  {
    PrefixChained(entryHash, entries, n);
    assert !GoodAt(entryHash, entries, n);
  }

  lemma {:induction false} ThrowsOnlyThere(entryHash: LedgerEntry -> string, entries: seq<LedgerEntry>, n: nat, i: nat)
    requires n < |entries| && GoodBefore(entryHash, entries, n) && !GoodAt(entryHash, entries, n)
    requires HashableBefore(entries, n) && ThrowsAt(entryHash, entries, i)
    ensures i == n
  {
  }

  lemma {:induction false} PlainNeverThrows(entryHash: LedgerEntry -> string, entries: seq<LedgerEntry>)
    requires PlainPayloads(entries)
    ensures !Throws(entryHash, entries)
  {
    forall i: nat ensures !ThrowsAt(entryHash, entries, i) {
      assert i < |entries| ==> Plain(Obj(entries[i].payload));
    }
  }

  /** Without a bad entry only the expected count can be wrong. */
  lemma {:induction false} NoneBad(entryHash: LedgerEntry -> string, entries: seq<LedgerEntry>, expected: Option<int>)
    requires GoodBefore(entryHash, entries, |entries|) && HashableBefore(entries, |entries|)
    ensures IntegrityVerdict(
      entryHash, entries, expected,
      if expected.Some? && |entries| != expected.value then Broken(ChainLengthMismatch, expected.value) else Intact(|entries|))
    ensures !Throws(entryHash, entries)
  {
    forall i: nat ensures !ThrowsAt(entryHash, entries, i) {
      assert i < |entries| ==> HasHash(entries[i]);
    }
  }

  /** The first bad entry decides the verdict, and no entry makes the check throw. */
  lemma {:induction false} FirstBad(
    entryHash: LedgerEntry -> string, entries: seq<LedgerEntry>, n: nat, reason: IntegrityReason, expected: Option<int>)
    requires n < |entries| && GoodBefore(entryHash, entries, n) && FailsWith(entryHash, entries, n, reason)
    requires HashableBefore(entries, n) && (reason == HashMismatch ==> HasHash(entries[n]))
    ensures IntegrityVerdict(entryHash, entries, expected, Broken(reason, n + 1))
    ensures !Throws(entryHash, entries)
  {
    BadVerdict(entryHash, entries, n, reason, expected);
    forall i: nat ensures !ThrowsAt(entryHash, entries, i) {
      if ThrowsAt(entryHash, entries, i) {
        ThrowsOnlyThere(entryHash, entries, n, i);
      }
    }
  }

  lemma {:induction false} PrefixChained(entryHash: LedgerEntry -> string, entries: seq<LedgerEntry>, n: nat)
    requires n <= |entries|
    requires forall i | 0 <= i < n :: GoodAt(entryHash, entries, i)
    ensures WellChained(entryHash, entries[..n])
  {
    forall i | 0 <= i < n ensures GoodAt(entryHash, entries[..n], i) {
      assert GoodAt(entryHash, entries, i);
      assert PredecessorHash(entries[..n], i) == PredecessorHash(entries, i);
    }
  }

  /** There is only one longest well-formed prefix: a longer one is not well-formed. */
  lemma {:induction false} LongestIsLongest(entryHash: LedgerEntry -> string, entries: seq<LedgerEntry>, n: nat, m: nat)
    requires LongestGoodPrefix(entryHash, entries, n) && m <= |entries|
    ensures WellChained(entryHash, entries[..m]) <==> m <= n
  {
    if m <= n {
      forall i | 0 <= i < m ensures GoodAt(entryHash, entries[..m], i) {
        assert GoodAt(entryHash, entries[..n], i);
        assert PredecessorHash(entries[..m], i) == PredecessorHash(entries[..n], i);
      }
    } else {
      assert PredecessorHash(entries[..m], n) == PredecessorHash(entries, n);
      assert GoodAt(entryHash, entries[..m], n) <==> GoodAt(entryHash, entries, n);
    }
  }

  // ----- tamper evidence -----

  /**
   Two accepted ledgers whose last entries have the same hash have the same length and the same
   entries throughout. Whoever remembers the last hash notices any change before it.
   */
  lemma {:induction false} TamperEvident(sha: string -> string, a: seq<LedgerEntry>, b: seq<LedgerEntry>)
    requires Injective(sha) && PlainPayloads(a) && PlainPayloads(b)
    requires WellChained(ComputeEntryHash(sha), a) && WellChained(ComputeEntryHash(sha), b)
    requires a != [] && b != []
    requires a[|a| - 1].hash == b[|b| - 1].hash
    ensures |a| == |b|
    ensures forall i | 0 <= i < |a| :: SameContent(a[i], b[i]) && a[i].hash == b[i].hash
  {
    EntryHashBinds(sha);
    SameHeadSameChain(ComputeEntryHash(sha), a, b);
  }

  lemma {:induction false} SameHeadSameChain(entryHash: LedgerEntry -> string, a: seq<LedgerEntry>, b: seq<LedgerEntry>)
    requires Binding(entryHash) && PlainPayloads(a) && PlainPayloads(b)
    requires WellChained(entryHash, a) && WellChained(entryHash, b)
    requires a != [] && b != []
    requires a[|a| - 1].hash == b[|b| - 1].hash
    ensures |a| == |b|
    ensures forall i | 0 <= i < |a| :: SameContent(a[i], b[i]) && a[i].hash == b[i].hash
  {
    var m, n := |a| - 1, |b| - 1;
    assert GoodAt(entryHash, a, m) && GoodAt(entryHash, b, n);
    EqualHashes(entryHash, a[m], b[n]);
    SameBackwards(entryHash, a, b, m);
  }

  lemma {:induction false} EqualHashes(entryHash: LedgerEntry -> string, a: LedgerEntry, b: LedgerEntry)
    requires Binding(entryHash) && Plain(Obj(a.payload)) && Plain(Obj(b.payload))
    requires entryHash(WithoutHash(a)) == entryHash(WithoutHash(b))
    ensures SameContent(a, b) && a.sequence == b.sequence && a.prevHash == b.prevHash
  {
    assert SameContent(WithoutHash(a), WithoutHash(b));
    assert a.(payload := [], hash := "") == b.(payload := [], hash := "");
    assert a.(payload := [], hash := "").sequence == b.(payload := [], hash := "").sequence;
    assert a.(payload := [], hash := "").prevHash == b.(payload := [], hash := "").prevHash;
  }

  lemma {:induction false} SameBackwards(entryHash: LedgerEntry -> string, a: seq<LedgerEntry>, b: seq<LedgerEntry>, k: nat)
    requires Binding(entryHash) && PlainPayloads(a) && PlainPayloads(b)
    requires WellChained(entryHash, a) && WellChained(entryHash, b)
    requires k < |a| && k < |b| && a[k].hash == b[k].hash
    ensures forall i | 0 <= i <= k :: SameContent(a[i], b[i]) && a[i].hash == b[i].hash
    decreases k
  {
    assert GoodAt(entryHash, a, k) && GoodAt(entryHash, b, k);
    EqualHashes(entryHash, a[k], b[k]);
    if k > 0 {
      SameBackwards(entryHash, a, b, k - 1);
    }
  }

  // ----- the ledger as it grows -----

  /** One `append` that went through: its input and what generator and clock gave it. */
  datatype Appended = Appended(input: AuditEventInput, stamp: Stamp)

  /** The entries a history of appends leaves behind. */
  function Build(entryHash: LedgerEntry -> string, log: seq<Appended>): (r: seq<LedgerEntry>)
    ensures |r| == |log|
  {
    if log == [] then []
    else
      var before := Build(entryHash, log[..|log| - 1]);
      before + [NextEntry(entryHash, before, log[|log| - 1])]
  }

  function NextEntry(entryHash: LedgerEntry -> string, entries: seq<LedgerEntry>, a: Appended): LedgerEntry {
    BuildLedgerEntry(entryHash, a.input, |entries| + 1, PredecessorHash(entries, |entries|), a.stamp)
  }

  /** An append adds one entry at the end and leaves the earlier ones as they were. */
  lemma {:induction false} BuildSnoc(entryHash: LedgerEntry -> string, log: seq<Appended>, a: Appended)
    ensures Build(entryHash, log + [a]) == Build(entryHash, log) + [NextEntry(entryHash, Build(entryHash, log), a)]
  {
    assert (log + [a])[..|log|] == log;
  }

  /** Earlier entries never change, however many appends follow. */
  lemma {:induction false} BuildPrefix(entryHash: LedgerEntry -> string, log: seq<Appended>, more: seq<Appended>)
    ensures Build(entryHash, log + more)[..|log|] == Build(entryHash, log)
    decreases |more|
  {
    if more == [] {
      assert log + more == log;
    } else {
      var k := |more| - 1;
      assert log + more == (log + more[..k]) + [more[k]];
      BuildSnoc(entryHash, log + more[..k], more[k]);
      BuildPrefix(entryHash, log, more[..k]);
    }
  }

  /** Every ledger that appends can build is accepted by the integrity check. */
  lemma {:induction false} BuiltIsWellChained(entryHash: LedgerEntry -> string, log: seq<Appended>)
    ensures WellChained(entryHash, Build(entryHash, log))
    ensures log != [] ==> Build(entryHash, log)[0].prevHash == "sha256:genesis"
    decreases |log|
  {
    if log != [] {
      var before := Build(entryHash, log[..|log| - 1]);
      var all := Build(entryHash, log);
      BuiltIsWellChained(entryHash, log[..|log| - 1]);
      forall i | 0 <= i < |all| ensures GoodAt(entryHash, all, i) {
        assert PredecessorHash(all, i) == PredecessorHash(before, i);
        if i < |before| {
          assert GoodAt(entryHash, before, i);
        } else {
          assert WithoutHash(all[i]) == Unhashed(log[i].input, i + 1, PredecessorHash(before, i), log[i].stamp);
        }
      }
    }
  }

  /** What an entry keeps of the append that made it: everything, the payload redacted. */
  lemma {:induction false} BuiltFrom(entryHash: LedgerEntry -> string, log: seq<Appended>, i: nat)
    requires i < |log|
    ensures var e := Build(entryHash, log)[i]; var input := log[i].input;
      && e.sequence == i + 1
      && e.eventType == input.eventType
      && e.actorKind == input.actorKind && e.actorId == input.actorId
      && e.subjectKind == input.subjectKind && e.subjectId == input.subjectId
      && e.payload == RedactFields(input.payload)
      && e.runId == input.runId && e.operationId == input.operationId
      && e.policyVersion == input.policyVersion && e.requestId == input.requestId
      && e.eventId == log[i].stamp.eventId && e.occurredAt == log[i].stamp.occurredAt
    decreases |log|
  {
    if i < |log| - 1 {
      BuiltFrom(entryHash, log[..|log| - 1], i);
    }
  }

  ghost predicate PlainInputs(log: seq<Appended>) {
    forall i | 0 <= i < |log| :: Plain(Obj(log[i].input.payload))
  }

  lemma {:induction false} BuiltPayloadsPlain(entryHash: LedgerEntry -> string, log: seq<Appended>)
    requires PlainInputs(log)
    ensures PlainPayloads(Build(entryHash, log))
  {
    forall i | 0 <= i < |log| ensures Plain(Obj(Build(entryHash, log)[i].payload)) {
      BuiltFrom(entryHash, log, i);
      RedactPlain("", Obj(log[i].input.payload));
    }
  }

  /** The entries a predicate on them keeps, in order. */
  function Filter(entries: seq<LedgerEntry>, keep: LedgerEntry -> bool): seq<LedgerEntry> {
    if entries == [] then []
    else if keep(entries[|entries| - 1]) then Filter(entries[..|entries| - 1], keep) + [entries[|entries| - 1]]
    else Filter(entries[..|entries| - 1], keep)
  }

  function ByOperation(operationId: string): LedgerEntry -> bool {
    (e: LedgerEntry) => e.operationId == Some(operationId)
  }

  function ByRun(runId: string): LedgerEntry -> bool {
    (e: LedgerEntry) => e.runId == Some(runId)
  }

  /** A filtered list holds exactly the entries that qualify, as often as the list does. */
  lemma {:induction false} FilterExact(entries: seq<LedgerEntry>, keep: LedgerEntry -> bool, e: LedgerEntry)
    ensures multiset(Filter(entries, keep))[e] == if keep(e) then multiset(entries)[e] else 0
  {
    if entries != [] {
      FilterExact(entries[..|entries| - 1], keep, e);
      assert entries == entries[..|entries| - 1] + [entries[|entries| - 1]];
    }
  }

  /** Kept entries stand in the order of the list. */
  lemma {:induction false} FilterInOrder(a: seq<LedgerEntry>, b: seq<LedgerEntry>, keep: LedgerEntry -> bool)
    ensures Filter(a + b, keep) == Filter(a, keep) + Filter(b, keep)
    decreases |b|
  {
    if b == [] {
      assert a + b == a;
    } else {
      var n := |b| - 1;
      assert (a + b)[..|a + b| - 1] == a + b[..n];
      FilterInOrder(a, b[..n], keep);
    }
  }

  /** Redaction neither takes away nor gives an entry its hash. */
  lemma {:induction false} RedactedHash(input: AuditEventInput, sequence: int, prevHash: string, stamp: Stamp)
    requires Ordinary(Obj(input.payload))
    ensures HasHash(Unhashed(input, sequence, prevHash, stamp)) <==> Hashable(Obj(input.payload))
  {
    RedactPlain("", Obj(input.payload));
  }

  lemma {:induction false} PlainSnoc(log: seq<Appended>, a: Appended)
    requires PlainInputs(log) && Plain(Obj(a.input.payload))
    ensures PlainInputs(log + [a])
  {
  }

  class AuditLedger {
    const entryHash: LedgerEntry -> string
    var entries: seq<LedgerEntry>
    /** Every append so far; the entries are a function of it. */
    ghost var log: seq<Appended>

    ghost predicate Valid()
      reads this
    {
      entries == Build(entryHash, log) && PlainInputs(log)
    }

    constructor (entryHash: LedgerEntry -> string)
      ensures Valid() && log == [] && this.entryHash == entryHash
    {
      this.entryHash := entryHash;
      entries := [];
      log := [];
    }

    /** `append`. An unhashable payload throws before anything is stored. */
    method Append(input: AuditEventInput, stamp: Stamp) returns (r: Option<LedgerEntry>)
      requires Valid() && Ordinary(Obj(input.payload))
      modifies this
      ensures Valid()
      ensures r.Some? <==> Hashable(Obj(input.payload))
      ensures r.Some? ==> log == old(log) + [Appended(input, stamp)] && entries == old(entries) + [r.value]
      ensures r.None? ==> log == old(log) && entries == old(entries)
    {
      var sequence := |entries| + 1;
      var prevHash := if entries == [] then GENESIS_HASH else entries[|entries| - 1].hash;
      var redacted := RedactPayload(input.payload);
      var entry := Unhashed(input, sequence, prevHash, stamp);
      assert entry.payload == redacted;
      RedactedHash(input, sequence, prevHash, stamp);
      if !HasHash(entry) {
        return None;
      }
      PlainSnoc(log, Appended(input, stamp));
      BuildSnoc(entryHash, log, Appended(input, stamp));
      entries := entries + [entry.(hash := entryHash(entry))];
      log := log + [Appended(input, stamp)];
      return Some(entries[|entries| - 1]);
    }

    method List() returns (r: seq<LedgerEntry>)
      ensures r == entries
    {
      return entries;
    }

    method FindByOperation(operationId: string) returns (r: seq<LedgerEntry>)
      ensures r == Filter(entries, ByOperation(operationId))
      ensures forall e :: multiset(r)[e] == if e.operationId == Some(operationId) then multiset(entries)[e] else 0
    {
      r := SelectEntries(entries, ByOperation(operationId));
      forall e ensures multiset(r)[e] == if e.operationId == Some(operationId) then multiset(entries)[e] else 0 {
        FilterExact(entries, ByOperation(operationId), e);
      }
    }

    method FindByRun(runId: string) returns (r: seq<LedgerEntry>)
      ensures r == Filter(entries, ByRun(runId))
      ensures forall e :: multiset(r)[e] == if e.runId == Some(runId) then multiset(entries)[e] else 0
    {
      r := SelectEntries(entries, ByRun(runId));
      forall e ensures multiset(r)[e] == if e.runId == Some(runId) then multiset(entries)[e] else 0 {
        FilterExact(entries, ByRun(runId), e);
      }
    }
  }

  method SelectEntries(entries: seq<LedgerEntry>, keep: LedgerEntry -> bool) returns (r: seq<LedgerEntry>)
    ensures r == Filter(entries, keep)
  {
    r := [];
    for i := 0 to |entries|
      invariant r == Filter(entries[..i], keep)
    {
      assert entries[..i + 1][..i] == entries[..i];
      if keep(entries[i]) {
        r := r + [entries[i]];
      }
    }
    assert entries[..|entries|] == entries;
  }
}
