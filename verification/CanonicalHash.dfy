/**
 Hashes of canonical text. SHA-256 (FIPS 180-4) enters as the parameter `sha`; where a result
 rests on it never colliding, the lemma says so with `Injective(sha)`.
 */
module CanonicalHash {
  import opened DecimalText
  import opened Prelude
  import opened KeyOrder
  import opened Json
  import opened Canonical
  import opened JsonText

  ghost predicate Injective(sha: string -> string) {
    forall a, b :: sha(a) == sha(b) ==> a == b
  }

  /** `hashCanonical` on a value that has a hash. */
  function HashCanonical(sha: string -> string, v: Json): string {
    "sha256:" + sha(Text(Canon(v)))
  }

  /** `hashCanonical`; the `TypeError` of a value that cannot be hashed is `None`. */
  method ComputeHash(sha: string -> string, v: Json) returns (r: Option<string>)
    requires Ordinary(v)
    ensures r == if Hashable(v) then Some(HashCanonical(sha, v)) else None
  {
    var c := Canonicalize(v);
    if c.None? {
      return None;
    }
    return Some("sha256:" + sha(Text(c.value)));
  }

  /** Canonical text is the same exactly when the values agree up to key order at every depth. */
  lemma {:induction false} CanonicalTextExact(a: Json, b: Json)
    requires Plain(a) && Plain(b)
    ensures Text(Canon(a)) == Text(Canon(b)) <==> Meaning(a) == Meaning(b)
  {
    CanonDecidesMeaning(a, b);
    CanonPlain(a);
    CanonPlain(b);
    if Text(Canon(a)) == Text(Canon(b)) {
      TextInjective(Canon(a), Canon(b));
    }
  }

  /** So is the hash. */
  lemma {:induction false} HashExact(sha: string -> string, a: Json, b: Json)
    requires Injective(sha) && Plain(a) && Plain(b)
    ensures HashCanonical(sha, a) == HashCanonical(sha, b) <==> Meaning(a) == Meaning(b)
  {
    CanonicalTextExact(a, b);
    var s, t := sha(Text(Canon(a))), sha(Text(Canon(b)));
    if "sha256:" + s == "sha256:" + t {
      Peel("sha256:", s, "sha256:", t);
    }
  }

  // ----- objects written out property by property, some of them optional -----

  /** One property of an object literal; `None` is a property that is left out. */
  datatype Slot = Slot(key: string, value: Option<Json>)

  function Compact(slots: seq<Slot>): seq<Field> {
    if slots == [] then []
    else if slots[0].value.Some? then [Field(slots[0].key, slots[0].value.value)] + Compact(slots[1..])
    else Compact(slots[1..])
  }

  ghost predicate DistinctSlots(slots: seq<Slot>) {
    forall i, j | 0 <= i < j < |slots| :: slots[i].key != slots[j].key
  }

  /** Keys that start with a small letter: no array index and not `__proto__`. */
  predicate NamedKey(k: string) {
    |k| > 0 && 'a' <= k[0] <= 'z'
  }

  ghost predicate SameSlot(s: Slot, t: Slot) {
    && s.value.Some? == t.value.Some?
    && (s.value.Some? ==> Meaning(s.value.value) == Meaning(t.value.value))
  }

  ghost predicate SameSlots(ss: seq<Slot>, ts: seq<Slot>) {
    |ss| == |ts| && forall i | 0 <= i < |ss| :: SameSlot(ss[i], ts[i])
  }

  /** Every field of the compacted object comes from a slot. */
  lemma {:induction false} CompactOrigin(slots: seq<Slot>, f: Field)
    requires f in Compact(slots)
    ensures exists i :: 0 <= i < |slots| && slots[i] == Slot(f.key, Some(f.value))
  {
    if slots[0].value.Some? && f == Compact(slots)[0] {
      assert slots[0] == Slot(f.key, Some(f.value));
    } else {
      CompactOrigin(slots[1..], f);
      var i :| 0 <= i < |slots[1..]| && slots[1..][i] == Slot(f.key, Some(f.value));
      assert slots[i + 1] == Slot(f.key, Some(f.value));
    }
  }

  lemma {:induction false} CompactDistinct(slots: seq<Slot>)
    requires DistinctSlots(slots)
    ensures DistinctKeys(Compact(slots))
  {
    if slots != [] {
      CompactDistinct(slots[1..]);
      forall f | f in Compact(slots[1..]) ensures f.key != slots[0].key {
        CompactOrigin(slots[1..], f);
      }
    }
  }

  lemma {:induction false} CompactOrdinary(slots: seq<Slot>)
    requires DistinctSlots(slots)
    requires forall i | 0 <= i < |slots| :: NamedKey(slots[i].key)
    requires forall i | 0 <= i < |slots| && slots[i].value.Some? :: Ordinary(slots[i].value.value)
    ensures Ordinary(Obj(Compact(slots)))
  {
    var fields := Compact(slots);
    CompactDistinct(slots);
    forall i | 0 <= i < |fields|
      ensures !IsIndex(fields[i].key) && fields[i].key != "__proto__" && Ordinary(fields[i].value)
    {
      CompactOrigin(slots, fields[i]);
      assert !IsDigit(fields[i].key[0]);
    }
  }

  lemma {:induction false} CompactHashable(slots: seq<Slot>)
    requires forall i | 0 <= i < |slots| && slots[i].value.Some? :: Hashable(slots[i].value.value)
    ensures Hashable(Obj(Compact(slots)))
  {
    var fields := Compact(slots);
    forall i | 0 <= i < |fields| ensures Hashable(fields[i].value) {
      CompactOrigin(slots, fields[i]);
    }
  }

  lemma {:induction false} CompactPlain(slots: seq<Slot>)
    requires DistinctSlots(slots)
    requires forall i | 0 <= i < |slots| :: NamedKey(slots[i].key)
    requires forall i | 0 <= i < |slots| && slots[i].value.Some? :: Plain(slots[i].value.value)
    ensures Plain(Obj(Compact(slots)))
  {
    CompactOrdinary(slots);
    CompactHashable(slots);
  }

  /** A filled slot ends up in the object. */
  lemma {:induction false} CompactHolds(slots: seq<Slot>, i: nat)
    requires i < |slots| && slots[i].value.Some?
    ensures Field(slots[i].key, slots[i].value.value) in Compact(slots)
    ensures Hashable(Obj(Compact(slots))) ==> Hashable(slots[i].value.value)
  {
    if i > 0 {
      CompactHolds(slots[1..], i - 1);
    }
    var f := Field(slots[i].key, slots[i].value.value);
    assert f in Compact(slots);
    var k :| 0 <= k < |Compact(slots)| && Compact(slots)[k] == f;
  }

  /** The object has a key exactly when the slot is filled, and then with the slot's value. */
  lemma {:induction false} CompactAt(slots: seq<Slot>, i: nat)
    requires DistinctSlots(slots) && i < |slots|
    ensures slots[i].key in FieldsMeaning(Compact(slots)) <==> slots[i].value.Some?
    ensures slots[i].value.Some? ==> FieldsMeaning(Compact(slots))[slots[i].key] == Meaning(slots[i].value.value)
  {
    if i > 0 {
      CompactAt(slots[1..], i - 1);
      assert slots[1..][i - 1] == slots[i];
      FirstSlot(slots);
    } else {
      FirstSlot(slots);
      NotInRest(slots);
    }
  }

  lemma {:induction false} FirstSlot(slots: seq<Slot>)
    requires slots != []
    ensures FieldsMeaning(Compact(slots))
         == if slots[0].value.Some?
            then FieldsMeaning(Compact(slots[1..]))[slots[0].key := Meaning(slots[0].value.value)]
            else FieldsMeaning(Compact(slots[1..]))
  {
    if slots[0].value.Some? {
      assert Compact(slots)[1..] == Compact(slots[1..]);
    }
  }

  lemma {:induction false} NotInRest(slots: seq<Slot>)
    requires DistinctSlots(slots) && slots != []
    ensures slots[0].key !in FieldsMeaning(Compact(slots[1..]))
  {
    var rest := Compact(slots[1..]);
    forall i | 0 <= i < |rest| ensures rest[i].key != slots[0].key {
      CompactOrigin(slots[1..], rest[i]);
    }
    FieldsMeaningKeys(rest, slots[0].key);
  }

  lemma {:induction false} CompactSame(ss: seq<Slot>, ts: seq<Slot>)
    requires SameSlots(ss, ts)
    requires forall i | 0 <= i < |ss| :: ss[i].key == ts[i].key
    ensures FieldsMeaning(Compact(ss)) == FieldsMeaning(Compact(ts))
  {
    if ss != [] {
      FirstSlot(ss);
      FirstSlot(ts);
      assert SameSlot(ss[0], ts[0]);
      assert forall i | 0 <= i < |ss[1..]| :: ss[1..][i] == ss[i + 1] && ts[1..][i] == ts[i + 1];
      CompactSame(ss[1..], ts[1..]);
    }
  }

  /** Objects with the same property list mean the same exactly when they agree slot by slot. */
  lemma {:induction false} CompactExact(ss: seq<Slot>, ts: seq<Slot>)
    requires DistinctSlots(ss) && |ss| == |ts|
    requires forall i | 0 <= i < |ss| :: ss[i].key == ts[i].key
    ensures Meaning(Obj(Compact(ss))) == Meaning(Obj(Compact(ts))) <==> SameSlots(ss, ts)
  {
    if FieldsMeaning(Compact(ss)) == FieldsMeaning(Compact(ts)) {
      forall i | 0 <= i < |ss| ensures SameSlot(ss[i], ts[i]) {
        CompactAt(ss, i);
        CompactAt(ts, i);
      }
    }
    if SameSlots(ss, ts) {
      CompactSame(ss, ts);
    }
  }

  function TextOf(key: string, s: string): Slot {
    Slot(key, Some(Str(s)))
  }

  function OptionalText(key: string, s: Option<string>): Slot {
    Slot(key, if s.Some? then Some(Str(s.value)) else None)
  }

  lemma {:induction false} TextSlot(k: string, s: string, t: string)
    ensures SameSlot(TextOf(k, s), TextOf(k, t)) <==> s == t
  {
  }

  lemma {:induction false} OptionalSlot(k: string, s: Option<string>, t: Option<string>)
    ensures SameSlot(OptionalText(k, s), OptionalText(k, t)) <==> s == t
  {
  }
}
