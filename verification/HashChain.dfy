/** One audit entry, its hash, and what that hash pins down. */
module HashChain {
  import opened Prelude
  import opened DecimalText
  import opened Json
  import opened CanonicalHash
  import opened Contracts
  import opened Redaction

  const GENESIS_HASH := "sha256:genesis"

  /** What a caller supplies for one event. */
  datatype AuditEventInput = AuditEventInput(
    eventType: AuditEventType,
    actorKind: ActorKind,
    actorId: string,
    subjectKind: SubjectKind,
    subjectId: string,
    payload: seq<Field>,
    runId: Option<string>,
    operationId: Option<string>,
    policyVersion: Option<string>,
    requestId: Option<string>)

  /** What the generator and the clock supply for it. */
  datatype Stamp = Stamp(eventId: string, occurredAt: string)

  datatype LedgerEntry = LedgerEntry(
    eventId: string,
    sequence: int,
    eventType: AuditEventType,
    actorKind: ActorKind,
    actorId: string,
    subjectKind: SubjectKind,
    subjectId: string,
    payload: seq<Field>,
    occurredAt: string,
    prevHash: string,
    runId: Option<string>,
    operationId: Option<string>,
    policyVersion: Option<string>,
    requestId: Option<string>,
    hash: string)

  function IntNumber(n: int): NumberText {
    var s := IntText(n);
    assert forall i | 0 <= i < |s| :: IsNumberChar(s[i]);
    s
  }

  /** `{kind, id}`. */
  function KindAndId(kind: string, id: string): seq<Slot> {
    [TextOf("kind", kind), TextOf("id", id)]
  }

  /** The entry without its hash, property by property; undefined ones are left out. */
  function EntrySlots(e: LedgerEntry): seq<Slot> {
    [ TextOf("eventId", e.eventId),
      Slot("sequence", Some(Num(IntNumber(e.sequence)))),
      TextOf("type", EventName(e.eventType)),
      Slot("actor", Some(Obj(Compact(KindAndId(ActorName(e.actorKind), e.actorId))))),
      Slot("subject", Some(Obj(Compact(KindAndId(SubjectName(e.subjectKind), e.subjectId))))),
      Slot("payload", Some(Obj(e.payload))),
      TextOf("occurredAt", e.occurredAt),
      TextOf("prevHash", e.prevHash),
      OptionalText("runId", e.runId),
      OptionalText("operationId", e.operationId),
      OptionalText("policyVersion", e.policyVersion),
      OptionalText("requestId", e.requestId) ]
  }

  /** The object that is hashed. */
  function EntryJson(e: LedgerEntry): Json {
    Obj(Compact(EntrySlots(e)))
  }

  /** `computeEntryHash`, for a given SHA-256. */
  function ComputeEntryHash(sha: string -> string): LedgerEntry -> string {
    (e: LedgerEntry) => HashCanonical(sha, EntryJson(e))
  }

  /** An entry as it is handed to the hash: everything but the hash itself. */
  function WithoutHash(e: LedgerEntry): LedgerEntry {
    e.(hash := "")
  }

  function Unhashed(input: AuditEventInput, sequence: int, prevHash: string, stamp: Stamp): LedgerEntry {
    LedgerEntry(
      stamp.eventId, sequence, input.eventType, input.actorKind, input.actorId, input.subjectKind,
      input.subjectId, RedactFields(input.payload), stamp.occurredAt, prevHash, input.runId,
      input.operationId, input.policyVersion, input.requestId, "")
  }

  function BuildLedgerEntry(
    entryHash: LedgerEntry -> string, input: AuditEventInput, sequence: int, prevHash: string, stamp: Stamp): LedgerEntry
  {
    var e := Unhashed(input, sequence, prevHash, stamp);
    e.(hash := entryHash(e))
  }

  /** Everything the hash covers, the payload up to key order. */
  ghost predicate SameContent(a: LedgerEntry, b: LedgerEntry) {
    && Meaning(Obj(a.payload)) == Meaning(Obj(b.payload))
    && a.(payload := [], hash := "") == b.(payload := [], hash := "")
  }

  lemma {:induction false} EntryKeys(e: LedgerEntry)
    ensures DistinctSlots(EntrySlots(e))
    ensures forall i | 0 <= i < 12 :: NamedKey(EntrySlots(e)[i].key)
  {
    var f := EntrySlots(e);
    assert |f[0].key| == 7 && |f[1].key| == 8 && |f[2].key| == 4 && |f[3].key| == 5;
    assert |f[4].key| == 7 && |f[5].key| == 7 && |f[6].key| == 10 && |f[7].key| == 8;
    assert |f[8].key| == 5 && |f[9].key| == 11 && |f[10].key| == 13 && |f[11].key| == 9;
    assert f[0].key[0] == 'e' && f[4].key[0] == 's' && f[5].key[0] == 'p';
    assert f[1].key[0] == 's' && f[7].key[0] == 'p' && f[3].key[0] == 'a' && f[8].key[0] == 'r';
    assert f[2].key[0] == 't' && f[6].key[0] == 'o' && f[9].key[0] == 'o' && f[10].key[0] == 'p' && f[11].key[0] == 'r';
  }

  lemma {:induction false} KindAndIdKeys(kind: string, id: string)
    ensures DistinctSlots(KindAndId(kind, id)) && Plain(Obj(Compact(KindAndId(kind, id))))
  {
    var f := KindAndId(kind, id);
    assert |f[0].key| == 4 && |f[1].key| == 2;
    assert Plain(f[0].value.value) && Plain(f[1].value.value);
    CompactPlain(f);
  }

  lemma {:induction false} KindAndIdExact(kind: string, id: string, kind': string, id': string)
    ensures Meaning(Obj(Compact(KindAndId(kind, id)))) == Meaning(Obj(Compact(KindAndId(kind', id'))))
       <==> kind == kind' && id == id'
  {
    var f, g := KindAndId(kind, id), KindAndId(kind', id');
    KindAndIdKeys(kind, id);
    CompactExact(f, g);
    TextSlot("kind", kind, kind');
    TextSlot("id", id, id');
    assert SameSlots(f, g) <==> SameSlot(f[0], g[0]) && SameSlot(f[1], g[1]);
  }

  lemma {:induction false} EntryOrdinary(e: LedgerEntry)
    requires Ordinary(Obj(e.payload))
    ensures Ordinary(EntryJson(e))
  {
    var f := EntrySlots(e);
    EntryKeys(e);
    KindAndIdKeys(ActorName(e.actorKind), e.actorId);
    KindAndIdKeys(SubjectName(e.subjectKind), e.subjectId);
    forall i | 0 <= i < |f| && f[i].value.Some? ensures Ordinary(f[i].value.value) {
      if i == 3 || i == 4 || i == 5 {
      } else {
        assert f[i].value.value.Str? || f[i].value.value.Num?;
      }
    }
    CompactOrdinary(f);
  }

  lemma {:induction false} EntryPlain(e: LedgerEntry)
    requires Plain(Obj(e.payload))
    ensures Plain(EntryJson(e))
  {
    var f := EntrySlots(e);
    EntryOrdinary(e);
    KindAndIdKeys(ActorName(e.actorKind), e.actorId);
    KindAndIdKeys(SubjectName(e.subjectKind), e.subjectId);
    forall i | 0 <= i < |f| && f[i].value.Some? ensures Hashable(f[i].value.value) {
      if i == 3 || i == 4 || i == 5 {
      } else {
        assert f[i].value.value.Str? || f[i].value.value.Num?;
      }
    }
    CompactHashable(f);
  }

  lemma {:induction false} SequenceSlot(m: int, n: int)
    ensures SameSlot(Slot("sequence", Some(Num(IntNumber(m)))), Slot("sequence", Some(Num(IntNumber(n))))) <==> m == n
  {
    if IntText(m) == IntText(n) {
      IntTextInjective(m, n);
    }
  }

  lemma {:induction false} NamesSame(a: LedgerEntry, b: LedgerEntry)
    ensures SameSlot(EntrySlots(a)[2], EntrySlots(b)[2]) <==> a.eventType == b.eventType
    ensures SameSlot(EntrySlots(a)[3], EntrySlots(b)[3]) <==> a.actorKind == b.actorKind && a.actorId == b.actorId
    ensures SameSlot(EntrySlots(a)[4], EntrySlots(b)[4]) <==> a.subjectKind == b.subjectKind && a.subjectId == b.subjectId
  {
    TextSlot("type", EventName(a.eventType), EventName(b.eventType));
    EventNameInjective(a.eventType, b.eventType);
    KindAndIdExact(ActorName(a.actorKind), a.actorId, ActorName(b.actorKind), b.actorId);
    ActorNameInjective(a.actorKind, b.actorKind);
    KindAndIdExact(SubjectName(a.subjectKind), a.subjectId, SubjectName(b.subjectKind), b.subjectId);
    SubjectNameInjective(a.subjectKind, b.subjectKind);
  }

  lemma {:induction false} PlainTextsSame(a: LedgerEntry, b: LedgerEntry)
    ensures SameSlot(EntrySlots(a)[0], EntrySlots(b)[0]) <==> a.eventId == b.eventId
    ensures SameSlot(EntrySlots(a)[1], EntrySlots(b)[1]) <==> a.sequence == b.sequence
    ensures SameSlot(EntrySlots(a)[5], EntrySlots(b)[5]) <==> Meaning(Obj(a.payload)) == Meaning(Obj(b.payload))
    ensures SameSlot(EntrySlots(a)[6], EntrySlots(b)[6]) <==> a.occurredAt == b.occurredAt
    ensures SameSlot(EntrySlots(a)[7], EntrySlots(b)[7]) <==> a.prevHash == b.prevHash
  {
    TextSlot("eventId", a.eventId, b.eventId);
    SequenceSlot(a.sequence, b.sequence);
    TextSlot("occurredAt", a.occurredAt, b.occurredAt);
    TextSlot("prevHash", a.prevHash, b.prevHash);
  }

  lemma {:induction false} OptionalsSame(a: LedgerEntry, b: LedgerEntry)
    ensures SameSlot(EntrySlots(a)[8], EntrySlots(b)[8]) <==> a.runId == b.runId
    ensures SameSlot(EntrySlots(a)[9], EntrySlots(b)[9]) <==> a.operationId == b.operationId
    ensures SameSlot(EntrySlots(a)[10], EntrySlots(b)[10]) <==> a.policyVersion == b.policyVersion
    ensures SameSlot(EntrySlots(a)[11], EntrySlots(b)[11]) <==> a.requestId == b.requestId
  {
    OptionalSlot("runId", a.runId, b.runId);
    OptionalSlot("operationId", a.operationId, b.operationId);
    OptionalSlot("policyVersion", a.policyVersion, b.policyVersion);
    OptionalSlot("requestId", a.requestId, b.requestId);
  }

  lemma {:induction false} TwelveSlots(ss: seq<Slot>, ts: seq<Slot>)
    requires |ss| == |ts| == 12
    ensures SameSlots(ss, ts) <==>
      (&& SameSlot(ss[0], ts[0]) && SameSlot(ss[1], ts[1]) && SameSlot(ss[2], ts[2]) && SameSlot(ss[3], ts[3])
       && SameSlot(ss[4], ts[4]) && SameSlot(ss[5], ts[5]) && SameSlot(ss[6], ts[6]) && SameSlot(ss[7], ts[7])
       && SameSlot(ss[8], ts[8]) && SameSlot(ss[9], ts[9]) && SameSlot(ss[10], ts[10]) && SameSlot(ss[11], ts[11]))
  {
  }

  lemma {:induction false} SlotsAreContent(a: LedgerEntry, b: LedgerEntry)
    ensures SameSlots(EntrySlots(a), EntrySlots(b)) <==> SameContent(a, b)
  {
    TwelveSlots(EntrySlots(a), EntrySlots(b));
    NamesSame(a, b);
    PlainTextsSame(a, b);
    OptionalsSame(a, b);
  }

  /** `computeEntryHash` on canonical text; an unhashable payload makes it throw. */
  method HashEntry(sha: string -> string, e: LedgerEntry) returns (r: Option<string>)
    requires Ordinary(Obj(e.payload))
    ensures r == if Hashable(Obj(e.payload)) then Some(ComputeEntryHash(sha)(e)) else None
  {
    EntryOrdinary(e);
    if Hashable(Obj(e.payload)) {
      EntryPlain(e);
    } else {
      CompactHolds(EntrySlots(e), 5);
    }
    r := ComputeHash(sha, EntryJson(e));
  }

  /** The hash covers every property of an entry: equal hashes are equal contents. */
  lemma {:induction false} EntryHashExact(sha: string -> string, a: LedgerEntry, b: LedgerEntry)
    requires Injective(sha) && Plain(Obj(a.payload)) && Plain(Obj(b.payload))
    ensures ComputeEntryHash(sha)(a) == ComputeEntryHash(sha)(b) <==> SameContent(a, b)
  {
    EntryPlain(a);
    EntryPlain(b);
    EntryKeys(a);
    CompactExact(EntrySlots(a), EntrySlots(b));
    SlotsAreContent(a, b);
    HashExact(sha, EntryJson(a), EntryJson(b));
  }

  // ----- what exactly is hashed -----

  predicate IsText(m: map<string, Tree>, key: string, text: string) {
    key in m && m[key] == TStr(text)
  }

  predicate IsOptionalText(m: map<string, Tree>, key: string, text: Option<string>) {
    (key in m <==> text.Some?) && (text.Some? ==> m[key] == TStr(text.value))
  }

  lemma {:induction false} KindAndIdMeaning(kind: string, id: string)
    ensures Meaning(Obj(Compact(KindAndId(kind, id)))) == TObj(map["kind" := TStr(kind), "id" := TStr(id)])
  {
    var f := KindAndId(kind, id);
    FirstSlot(f);
    FirstSlot(f[1..]);
    assert f[1..][1..] == [] && Compact([]) == [];
    assert f[1..][0] == f[1];
    var m := FieldsMeaning(Compact(f));
    assert "kind" != "id";
    assert m == map["kind" := TStr(kind), "id" := TStr(id)];
  }

  /** The hashed object says of an entry everything but its hash, each property under its own name: its texts. */
  lemma {:induction false} HashedEntryTexts(e: LedgerEntry)
    ensures var m := FieldsMeaning(Compact(EntrySlots(e)));
      && IsText(m, "eventId", e.eventId) && IsText(m, "type", EventName(e.eventType))
      && IsText(m, "occurredAt", e.occurredAt) && IsText(m, "prevHash", e.prevHash)
  {
    var f := EntrySlots(e);
    EntryKeys(e);
    CompactAt(f, 0);
    CompactAt(f, 2);
    CompactAt(f, 6);
    CompactAt(f, 7);
  }

  /** Its number, who did what to whom, and the payload. */
  lemma {:induction false} HashedParts(e: LedgerEntry)
    ensures var m := FieldsMeaning(Compact(EntrySlots(e)));
      && "sequence" in m && m["sequence"] == TNum(IntText(e.sequence))
      && "actor" in m && m["actor"] == TObj(map["kind" := TStr(ActorName(e.actorKind)), "id" := TStr(e.actorId)])
      && "subject" in m && m["subject"] == TObj(map["kind" := TStr(SubjectName(e.subjectKind)), "id" := TStr(e.subjectId)])
      && "payload" in m && m["payload"] == Meaning(Obj(e.payload))
  {
    var f := EntrySlots(e);
    EntryKeys(e);
    CompactAt(f, 1);
    CompactAt(f, 3);
    CompactAt(f, 4);
    CompactAt(f, 5);
    KindAndIdMeaning(ActorName(e.actorKind), e.actorId);
    KindAndIdMeaning(SubjectName(e.subjectKind), e.subjectId);
  }

  /** Of the optional properties it says those that are there. */
  lemma {:induction false} HashedOptionals(e: LedgerEntry)
    ensures var m := FieldsMeaning(Compact(EntrySlots(e)));
      && IsOptionalText(m, "runId", e.runId) && IsOptionalText(m, "operationId", e.operationId)
      && IsOptionalText(m, "policyVersion", e.policyVersion) && IsOptionalText(m, "requestId", e.requestId)
  {
    var f := EntrySlots(e);
    EntryKeys(e);
    CompactAt(f, 8);
    CompactAt(f, 9);
    CompactAt(f, 10);
    CompactAt(f, 11);
  }

  /** An entry hash that tells any two entries apart whose contents differ. */
  ghost predicate Binding(entryHash: LedgerEntry -> string) {
    forall a: LedgerEntry, b: LedgerEntry | Plain(Obj(a.payload)) && Plain(Obj(b.payload)) :: entryHash(a) == entryHash(b) ==> SameContent(a, b)
  }

  lemma {:induction false} EntryHashBinds(sha: string -> string)
    requires Injective(sha)
    ensures Binding(ComputeEntryHash(sha))
  {
    forall a: LedgerEntry, b: LedgerEntry | Plain(Obj(a.payload)) && Plain(Obj(b.payload))
      ensures ComputeEntryHash(sha)(a) == ComputeEntryHash(sha)(b) ==> SameContent(a, b)
    {
      EntryHashExact(sha, a, b);
    }
  }
}
