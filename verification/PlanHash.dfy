/** `computeProposalHash`: what a human approves is pinned down by this hash and by nothing less. */
module PlanHash {
  import opened Prelude
  import opened KeyOrder
  import opened Sorting
  import opened Json
  import opened CanonicalHash
  import opened Contracts

  datatype Plan = Plan(
    schemaVersion: string,
    actionType: ActionType,
    resourceId: string,
    parameters: seq<Field>,
    evidenceRefs: seq<string>)

  function Strings(s: seq<string>): (r: seq<Json>)
    ensures |r| == |s| && forall i | 0 <= i < |s| :: r[i] == Str(s[i])
  {
    seq(|s|, i requires 0 <= i < |s| => Str(s[i]))
  }

  /** The references in sorted order. */
  function RefsJson(p: Plan): Json {
    Arr(Strings(Sort(UnitLess, p.evidenceRefs)))
  }

  function PlanSlots(p: Plan): seq<Slot> {
    [ TextOf("schemaVersion", p.schemaVersion),
      TextOf("actionType", ActionName(p.actionType)),
      TextOf("resourceId", p.resourceId),
      Slot("parameters", Some(Obj(p.parameters))),
      Slot("evidenceRefs", Some(RefsJson(p))) ]
  }

  function ComputeProposalHash(sha: string -> string, p: Plan): string {
    HashCanonical(sha, Obj(Compact(PlanSlots(p))))
  }

  /** Same plan: parameters up to key order, evidence as a multiset, everything else to the letter. */
  ghost predicate SamePlan(p: Plan, q: Plan) {
    && p.schemaVersion == q.schemaVersion
    && p.actionType == q.actionType
    && p.resourceId == q.resourceId
    && Meaning(Obj(p.parameters)) == Meaning(Obj(q.parameters))
    && multiset(p.evidenceRefs) == multiset(q.evidenceRefs)
  }

  lemma {:induction false} PlanKeys(p: Plan)
    ensures DistinctSlots(PlanSlots(p))
    ensures forall i | 0 <= i < 5 :: NamedKey(PlanSlots(p)[i].key)
  {
    var f := PlanSlots(p);
    assert |f[0].key| == 13 && |f[1].key| == 10 && |f[2].key| == 10 && |f[3].key| == 10 && |f[4].key| == 12;
    assert f[1].key[0] == 'a' && f[2].key[0] == 'r' && f[3].key[0] == 'p';
    assert f[0].key[0] == 's' && f[4].key[0] == 'e';
  }

  lemma {:induction false} PlanIsPlain(p: Plan)
    requires Plain(Obj(p.parameters))
    ensures Plain(Obj(Compact(PlanSlots(p))))
  {
    var f := PlanSlots(p);
    PlanKeys(p);
    assert Plain(f[0].value.value) && Plain(f[1].value.value) && Plain(f[2].value.value);
    assert Plain(f[3].value.value) && Plain(f[4].value.value);
    CompactPlain(f);
  }

  lemma {:induction false} SortedRefs(p: Plan, q: Plan)
    ensures Sort(UnitLess, p.evidenceRefs) == Sort(UnitLess, q.evidenceRefs)
       <==> multiset(p.evidenceRefs) == multiset(q.evidenceRefs)
  {
    UnitOrder();
    forall a, b | !UnitLess(a, b) && !UnitLess(b, a) ensures a == b {
      UnitTotal(a, b);
    }
    if multiset(p.evidenceRefs) == multiset(q.evidenceRefs) {
      SortForgetsOrder(UnitLess, p.evidenceRefs, q.evidenceRefs);
    }
  }

  lemma {:induction false} StringsMeaning(s: seq<string>, t: seq<string>)
    ensures Meaning(Arr(Strings(s))) == Meaning(Arr(Strings(t))) <==> s == t
  {
    if Meaning(Arr(Strings(s))) == Meaning(Arr(Strings(t))) {
      forall i | 0 <= i < |s| ensures s[i] == t[i] {
        ItemsMeaningAt(Strings(s), i);
        ItemsMeaningAt(Strings(t), i);
      }
    }
  }

  lemma {:induction false} RefsExact(p: Plan, q: Plan)
    ensures Meaning(RefsJson(p)) == Meaning(RefsJson(q)) <==> multiset(p.evidenceRefs) == multiset(q.evidenceRefs)
  {
    SortedRefs(p, q);
    StringsMeaning(Sort(UnitLess, p.evidenceRefs), Sort(UnitLess, q.evidenceRefs));
  }

  lemma {:induction false} FiveSlots(ss: seq<Slot>, ts: seq<Slot>)
    requires |ss| == |ts| == 5
    ensures SameSlots(ss, ts) <==>
      (&& SameSlot(ss[0], ts[0]) && SameSlot(ss[1], ts[1]) && SameSlot(ss[2], ts[2]) && SameSlot(ss[3], ts[3])
       && SameSlot(ss[4], ts[4]))
  {
  }

  lemma {:induction false} TextSlotsSame(p: Plan, q: Plan)
    ensures SameSlot(PlanSlots(p)[0], PlanSlots(q)[0]) <==> p.schemaVersion == q.schemaVersion
    ensures SameSlot(PlanSlots(p)[1], PlanSlots(q)[1]) <==> p.actionType == q.actionType
    ensures SameSlot(PlanSlots(p)[2], PlanSlots(q)[2]) <==> p.resourceId == q.resourceId
  {
    TextSlot("schemaVersion", p.schemaVersion, q.schemaVersion);
    TextSlot("actionType", ActionName(p.actionType), ActionName(q.actionType));
    ActionNameInjective(p.actionType, q.actionType);
    TextSlot("resourceId", p.resourceId, q.resourceId);
  }

  lemma {:induction false} PlanSlotsSame(p: Plan, q: Plan)
    ensures SameSlots(PlanSlots(p), PlanSlots(q)) <==> SamePlan(p, q)
  {
    FiveSlots(PlanSlots(p), PlanSlots(q));
    TextSlotsSame(p, q);
    RefsExact(p, q);
  }

  /** The hashed plan says everything of it, each property under its own name, the evidence in sorted order. */
  lemma {:induction false} HashedPlan(p: Plan)
    ensures var m := FieldsMeaning(Compact(PlanSlots(p)));
      && "schemaVersion" in m && m["schemaVersion"] == TStr(p.schemaVersion)
      && "actionType" in m && m["actionType"] == TStr(ActionName(p.actionType))
      && "resourceId" in m && m["resourceId"] == TStr(p.resourceId)
      && "parameters" in m && m["parameters"] == Meaning(Obj(p.parameters))
      && "evidenceRefs" in m && m["evidenceRefs"] == Meaning(Arr(Strings(Sort(UnitLess, p.evidenceRefs))))
  {
    var f := PlanSlots(p);
    PlanKeys(p);
    CompactAt(f, 0);
    CompactAt(f, 1);
    CompactAt(f, 2);
    CompactAt(f, 3);
    CompactAt(f, 4);
  }

  /** Two plans have the same hash exactly when they are the same plan. */
  lemma {:induction false} PlanHashExact(sha: string -> string, p: Plan, q: Plan)
    requires Injective(sha) && Plain(Obj(p.parameters)) && Plain(Obj(q.parameters))
    ensures ComputeProposalHash(sha, p) == ComputeProposalHash(sha, q) <==> SamePlan(p, q)
  {
    PlanIsPlain(p);
    PlanIsPlain(q);
    PlanKeys(p);
    CompactExact(PlanSlots(p), PlanSlots(q));
    PlanSlotsSame(p, q);
    HashExact(sha, Obj(Compact(PlanSlots(p))), Obj(Compact(PlanSlots(q))));
  }

  /**
   Evidence is not hashed as a set: the same plan with one reference listed twice is another plan,
   although the set of references is the same.
   */
  lemma {:induction false} EvidenceIsNoSet(sha: string -> string, p: Plan)
    requires Injective(sha) && Plain(Obj(p.parameters))
    ensures var once, twice := p.(evidenceRefs := ["e"]), p.(evidenceRefs := ["e", "e"]);
      && (set r | r in once.evidenceRefs) == (set r | r in twice.evidenceRefs)
      && ComputeProposalHash(sha, once) != ComputeProposalHash(sha, twice)
  {
    var once, twice := p.(evidenceRefs := ["e"]), p.(evidenceRefs := ["e", "e"]);
    assert multiset(once.evidenceRefs)["e"] == 1 && multiset(twice.evidenceRefs)["e"] == 2;
    PlanHashExact(sha, once, twice);
  }
}
