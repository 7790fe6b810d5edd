/** `canonicalize`: the value it builds, and that the value depends on the meaning alone. */
module Canonical {
  import opened Prelude
  import opened DecimalText
  import opened KeyOrder
  import opened Sorting
  import opened Json

  /** The canonical form: every object lists its keys in `KeyLess` order. */
  function Canon(v: Json): Json
    decreases v
  {
    match v
    case Arr(items) => Arr(CanonItems(items))
    case Obj(fields) => Obj(Sort(FieldLess, CanonFields(fields)))
    case _ => v
  }

  function CanonItems(items: seq<Json>): (r: seq<Json>)
    ensures |r| == |items|
    decreases items
  {
    if items == [] then [] else [Canon(items[0])] + CanonItems(items[1..])
  }

  function CanonFields(fields: seq<Field>): (r: seq<Field>)
    ensures |r| == |fields|
    decreases fields
  {
    if fields == [] then []
    else
      assert fields[0] in fields;
      [Field(fields[0].key, Canon(fields[0].value))] + CanonFields(fields[1..])
  }

  /** `object[key] = value`: overwrite in place, or add where enumeration will list the key. */
  function SetProperty(fields: seq<Field>, f: Field): seq<Field> {
    if HasKey(fields, f.key) then Overwrite(fields, f)
    else if IsIndex(f.key) then PlaceIndex(fields, f)
    else fields + [f]
  }

  function Overwrite(fields: seq<Field>, f: Field): seq<Field> {
    if fields == [] then []
    else if fields[0].key == f.key then [f] + fields[1..]
    else [fields[0]] + Overwrite(fields[1..], f)
  }

  function PlaceIndex(fields: seq<Field>, f: Field): seq<Field>
    requires IsIndex(f.key)
  {
    if fields != [] && IsIndex(fields[0].key) && Value(fields[0].key) < Value(f.key) then
      [fields[0]] + PlaceIndex(fields[1..], f)
    else
      [f] + fields
  }

  lemma {:induction false} PlaceIndexInserts(fields: seq<Field>, f: Field)
    requires IsIndex(f.key)
    ensures PlaceIndex(fields, f) == Insert(FieldLess, f, fields)
  {
    if fields != [] && FieldLess(fields[0], f) {
      PlaceIndexInserts(fields[1..], f);
    }
  }

  /** Adding a key that is new, and last among the non-index keys, keeps the object in key order. */
  lemma {:induction false} SetPropertyInserts(fields: seq<Field>, f: Field)
    requires forall g | g in fields :: UnitLess(g.key, f.key)
    ensures SetProperty(fields, f) == Insert(FieldLess, f, fields)
  {
    UnitTotal(f.key, f.key);
    assert !HasKey(fields, f.key);
    if IsIndex(f.key) {
      PlaceIndexInserts(fields, f);
    } else {
      forall g | g in fields ensures FieldLess(g, f) {
        assert UnitLess(g.key, f.key);
      }
      InsertLast(FieldLess, f, fields);
    }
  }

  lemma {:induction false} CanonItemsAt(items: seq<Json>, i: nat)
    requires i < |items|
    ensures CanonItems(items)[i] == Canon(items[i])
  {
    if i > 0 {
      CanonItemsAt(items[1..], i - 1);
    }
  }

  lemma {:induction false} CanonFieldsAt(fields: seq<Field>, i: nat)
    requires i < |fields|
    ensures CanonFields(fields)[i] == Field(fields[i].key, Canon(fields[i].value))
  {
    if i > 0 {
      CanonFieldsAt(fields[1..], i - 1);
    }
  }

  lemma {:induction false} CanonFieldsDistinct(fields: seq<Field>)
    requires DistinctKeys(fields)
    ensures DistinctKeys(CanonFields(fields))
  {
    forall i, j | 0 <= i < j < |fields| ensures CanonFields(fields)[i].key != CanonFields(fields)[j].key {
      CanonFieldsAt(fields, i);
      CanonFieldsAt(fields, j);
    }
  }

  lemma {:induction false} CanonFieldsInsert(f: Field, fields: seq<Field>)
    ensures CanonFields(Insert(FieldUnitLess, f, fields))
         == Insert(FieldUnitLess, Field(f.key, Canon(f.value)), CanonFields(fields))
  {
    if fields == [] || !FieldUnitLess(fields[0], f) {
      assert ([f] + fields)[1..] == fields;
    } else {
      CanonFieldsInsert(f, fields[1..]);
      var rest := Insert(FieldUnitLess, f, fields[1..]);
      assert ([fields[0]] + rest)[1..] == rest;
    }
  }

  lemma {:induction false} CanonFieldsSort(fields: seq<Field>)
    ensures CanonFields(Sort(FieldUnitLess, fields)) == Sort(FieldUnitLess, CanonFields(fields))
  {
    if fields != [] {
      CanonFieldsSort(fields[1..]);
      CanonFieldsInsert(fields[0], Sort(FieldUnitLess, fields[1..]));
      assert CanonFields(fields)[1..] == CanonFields(fields[1..]);
    }
  }

  lemma {:induction false} CanonFieldsSnoc(fields: seq<Field>, f: Field)
    ensures CanonFields(fields + [f]) == CanonFields(fields) + [Field(f.key, Canon(f.value))]
  {
    if fields != [] {
      CanonFieldsSnoc(fields[1..], f);
      assert (fields + [f])[1..] == fields[1..] + [f];
    } else {
      assert fields + [f] == [f];
      assert CanonFields([f][1..]) == [];
    }
  }

  /** Which order the properties are visited in does not matter to the canonical object. */
  lemma {:induction false} CanonObjectFromSorted(fields: seq<Field>)
    requires DistinctKeys(fields)
    ensures Sort(FieldLess, CanonFields(Sort(FieldUnitLess, fields))) == Sort(FieldLess, CanonFields(fields))
  {
    CanonFieldsSort(fields);
    CanonFieldsDistinct(fields);
    FieldsDiscriminated(CanonFields(fields));
    FieldOrder();
    SortForgetsOrder(FieldLess, CanonFields(fields), Sort(FieldUnitLess, CanonFields(fields)));
  }

  lemma {:induction false} SortedPrefixFresh(sorted: seq<Field>, i: nat)
    requires DistinctKeys(sorted) && Sorted(FieldUnitLess, sorted) && i < |sorted|
    ensures forall j | 0 <= j < i :: UnitLess(sorted[j].key, sorted[i].key)
  {
    forall j | 0 <= j < i ensures UnitLess(sorted[j].key, sorted[i].key) {
      assert !FieldUnitLess(sorted[i], sorted[j]);
      UnitTotal(sorted[j].key, sorted[i].key);
    }
  }

  lemma {:induction false} DoneBefore(sorted: seq<Field>, i: nat)
    requires DistinctKeys(sorted) && Sorted(FieldUnitLess, sorted) && i < |sorted|
    ensures forall g | g in Sort(FieldLess, CanonFields(sorted[..i])) :: UnitLess(g.key, sorted[i].key)
  {
    var done := CanonFields(sorted[..i]);
    SortedPrefixFresh(sorted, i);
    forall g | g in Sort(FieldLess, done) ensures UnitLess(g.key, sorted[i].key) {
      SameElements(Sort(FieldLess, done), done, g);
      var j :| 0 <= j < |done| && done[j] == g;
      CanonFieldsAt(sorted[..i], j);
    }
  }

  lemma {:induction false} SortNext(fields: seq<Field>, f: Field)
    requires DistinctKeys(fields + [f])
    ensures Sort(FieldLess, CanonFields(fields + [f]))
         == Insert(FieldLess, Field(f.key, Canon(f.value)), Sort(FieldLess, CanonFields(fields)))
  {
    CanonFieldsSnoc(fields, f);
    CanonFieldsDistinct(fields + [f]);
    FieldsDiscriminated(CanonFields(fields + [f]));
    FieldOrder();
    SortSnoc(FieldLess, CanonFields(fields), Field(f.key, Canon(f.value)));
  }

  /** The object built once the first `i` properties have been stored. */
  function Done(sorted: seq<Field>, i: nat): seq<Field>
    requires i <= |sorted|
  {
    if i == 0 then [] else Sort(FieldLess, CanonFields(sorted[..i]))
  }

  lemma {:induction false} SetNext(fields: seq<Field>, f: Field)
    requires DistinctKeys(fields + [f])
    requires forall g | g in Sort(FieldLess, CanonFields(fields)) :: UnitLess(g.key, f.key)
    ensures SetProperty(Sort(FieldLess, CanonFields(fields)), Field(f.key, Canon(f.value)))
         == Sort(FieldLess, CanonFields(fields + [f]))
  {
    SetPropertyInserts(Sort(FieldLess, CanonFields(fields)), Field(f.key, Canon(f.value)));
    SortNext(fields, f);
  }

  /** One turn of the loop over the sorted keys. */
  lemma {:induction false} CanonStep(sorted: seq<Field>, i: nat)
    requires DistinctKeys(sorted) && Sorted(FieldUnitLess, sorted) && i < |sorted|
    ensures SetProperty(Done(sorted, i), Field(sorted[i].key, Canon(sorted[i].value))) == Done(sorted, i + 1)
  {
    var before := sorted[..i];
    DoneBefore(sorted, i);
    assert sorted[..i + 1] == before + [sorted[i]];
    SetNext(before, sorted[i]);
  }

  /**
   `canonicalize`. A thrown `TypeError` is `None`. The keys are visited in code-unit order and
   stored one by one; the object then lists index keys by number whatever the visiting order was.
   */
  method Canonicalize(v: Json) returns (r: Option<Json>)
    requires Ordinary(v)
    ensures r == if Hashable(v) then Some(Canon(v)) else None
    decreases v, 1
  {
    match v {
      case Foreign =>
        return None;
      case Arr(items) =>
        r := CanonicalizeItems(items);
      case Obj(fields) =>
        r := CanonicalizeFields(fields);
      case _ =>
        return Some(v);
    }
  }

  method CanonicalizeItems(items: seq<Json>) returns (r: Option<Json>)
    requires Ordinary(Arr(items))
    ensures r == if Hashable(Arr(items)) then Some(Canon(Arr(items))) else None
    decreases items, 0
  {
    var result: seq<Json> := [];
    for i := 0 to |items|
      invariant |result| == i
      invariant forall j | 0 <= j < i :: Hashable(items[j]) && result[j] == Canon(items[j])
    {
      var item := Canonicalize(items[i]);
      if item.None? {
        return None;
      }
      result := result + [item.value];
    }
    forall j | 0 <= j < |items| ensures CanonItems(items)[j] == result[j] {
      CanonItemsAt(items, j);
    }
    assert result == CanonItems(items);
    return Some(Arr(result));
  }

  method CanonicalizeFields(fields: seq<Field>) returns (r: Option<Json>)
    requires Ordinary(Obj(fields))
    ensures r == if Hashable(Obj(fields)) then Some(Canon(Obj(fields))) else None
    decreases fields, 1
  {
    SortedFields(fields);
    forall f | f in fields ensures Ordinary(f.value) {
    }
    var stored := StoreSorted(Sort(FieldUnitLess, fields), fields);
    AllHashable(fields);
    if stored.None? {
      return None;
    }
    CanonObjectFromSorted(fields);
    return Some(Obj(stored.value));
  }

  /** The loop over the sorted keys, filling the result object property by property. */
  method StoreSorted(sorted: seq<Field>, ghost fields: seq<Field>) returns (r: Option<seq<Field>>)
    requires DistinctKeys(sorted) && Sorted(FieldUnitLess, sorted)
    requires forall f | f in sorted :: f in fields && Ordinary(f.value)
    ensures r.Some? <==> forall f | f in sorted :: Hashable(f.value)
    ensures r.Some? ==> r.value == Sort(FieldLess, CanonFields(sorted))
    decreases fields, 0
  {
    var result := [];
    for i := 0 to |sorted|
      invariant result == Done(sorted, i)
      invariant forall f | f in sorted[..i] :: Hashable(f.value)
    {
      assert sorted[i] in sorted;
      var property := Canonicalize(sorted[i].value);
      if property.None? {
        return None;
      }
      CanonStep(sorted, i);
      result := SetProperty(result, Field(sorted[i].key, property.value));
    }
    assert sorted[..|sorted|] == sorted;
    return Some(result);
  }

  lemma {:induction false} AllHashable(fields: seq<Field>)
    ensures Hashable(Obj(fields)) <==> forall f | f in fields :: Hashable(f.value)
  {
    if forall f | f in fields :: Hashable(f.value) {
      forall i | 0 <= i < |fields| ensures Hashable(fields[i].value) {
        assert fields[i] in fields;
      }
    }
  }

  lemma {:induction false} SortedFields(fields: seq<Field>)
    requires DistinctKeys(fields)
    ensures DistinctKeys(Sort(FieldUnitLess, fields)) && Sorted(FieldUnitLess, Sort(FieldUnitLess, fields))
    ensures forall f :: f in Sort(FieldUnitLess, fields) <==> f in fields
  {
    var sorted := Sort(FieldUnitLess, fields);
    FieldUnitOrder();
    SortSorted(FieldUnitLess, fields);
    DistinctPermuted(fields, sorted);
    forall f ensures f in sorted <==> f in fields {
      SameElements(fields, sorted, f);
    }
  }

  /** Canonical at every depth: keys strictly in order. */
  ghost predicate IsCanonical(v: Json)
    decreases v
  {
    match v
    case Arr(items) => forall i | 0 <= i < |items| :: IsCanonical(items[i])
    case Obj(fields) => StrictlySorted(fields) && forall i | 0 <= i < |fields| :: IsCanonical(fields[i].value)
    case _ => true
  }

  ghost predicate StrictlySorted(fields: seq<Field>) {
    forall i, j | 0 <= i < j < |fields| :: KeyLess(fields[i].key, fields[j].key)
  }

  lemma {:induction false} SortStrictly(fields: seq<Field>)
    requires DistinctKeys(fields)
    ensures StrictlySorted(Sort(FieldLess, fields))
  {
    var s := Sort(FieldLess, fields);
    FieldOrder();
    SortSorted(FieldLess, fields);
    DistinctPermuted(fields, s);
    forall i, j | 0 <= i < j < |s| ensures KeyLess(s[i].key, s[j].key) {
      assert !FieldLess(s[j], s[i]);
      KeyTotal(s[i].key, s[j].key);
    }
  }

  lemma {:induction false} InsertMeaning(f: Field, fields: seq<Field>)
    requires !HasKey(fields, f.key)
    ensures FieldsMeaning(Insert(FieldLess, f, fields)) == FieldsMeaning(fields)[f.key := Meaning(f.value)]
  {
    if fields == [] || !FieldLess(fields[0], f) {
      assert ([f] + fields)[1..] == fields;
    } else {
      forall i | 0 <= i < |fields[1..]| ensures fields[1..][i].key != f.key {
        assert fields[1..][i] == fields[i + 1];
      }
      InsertMeaning(f, fields[1..]);
      var rest := Insert(FieldLess, f, fields[1..]);
      assert ([fields[0]] + rest)[1..] == rest;
      assert fields[0].key != f.key;
    }
  }

  lemma {:induction false} SortMeaning(fields: seq<Field>)
    requires DistinctKeys(fields)
    ensures FieldsMeaning(Sort(FieldLess, fields)) == FieldsMeaning(fields)
  {
    if fields != [] {
      SortMeaning(fields[1..]);
      var s := Sort(FieldLess, fields[1..]);
      forall i | 0 <= i < |s| ensures s[i].key != fields[0].key {
        SameElements(s, fields[1..], s[i]);
      }
      InsertMeaning(fields[0], s);
    }
  }

  /** Canonicalizing changes the order of keys and nothing else. */
  lemma {:induction false} CanonMeaning(v: Json)
    requires Ordinary(v)
    ensures Meaning(Canon(v)) == Meaning(v)
    decreases v, 1
  {
    match v
    case Arr(items) =>
      forall i | 0 <= i < |items| ensures ItemsMeaning(CanonItems(items))[i] == ItemsMeaning(items)[i] {
        CanonItemsAt(items, i);
        ItemsMeaningAt(CanonItems(items), i);
        ItemsMeaningAt(items, i);
        CanonMeaning(items[i]);
      }
      assert ItemsMeaning(CanonItems(items)) == ItemsMeaning(items);
    case Obj(fields) =>
      CanonFieldsDistinct(fields);
      SortMeaning(CanonFields(fields));
      forall i | 0 <= i < |fields| ensures Meaning(Canon(fields[i].value)) == Meaning(fields[i].value) {
        CanonMeaning(fields[i].value);
      }
      CanonFieldsMeaning(fields);
    case _ =>
  }

  lemma {:induction false} CanonFieldsMeaning(fields: seq<Field>)
    requires forall i | 0 <= i < |fields| :: Meaning(Canon(fields[i].value)) == Meaning(fields[i].value)
    ensures FieldsMeaning(CanonFields(fields)) == FieldsMeaning(fields)
  {
    if fields != [] {
      assert forall i | 0 <= i < |fields[1..]| :: fields[1..][i] == fields[i + 1];
      CanonFieldsMeaning(fields[1..]);
      assert CanonFields(fields)[1..] == CanonFields(fields[1..]);
    }
  }

  lemma {:induction false} CanonIsCanonical(v: Json)
    requires Ordinary(v)
    ensures IsCanonical(Canon(v))
    decreases v
  {
    match v
    case Arr(items) =>
      forall i | 0 <= i < |items| ensures IsCanonical(CanonItems(items)[i]) {
        CanonItemsAt(items, i);
        CanonIsCanonical(items[i]);
      }
    case Obj(fields) =>
      var c := CanonFields(fields);
      var s := Sort(FieldLess, c);
      CanonFieldsDistinct(fields);
      SortStrictly(c);
      forall i | 0 <= i < |s| ensures IsCanonical(s[i].value) {
        CanonFieldOrigin(fields, i);
        var j :| 0 <= j < |fields| && s[i] == Field(fields[j].key, Canon(fields[j].value));
        CanonIsCanonical(fields[j].value);
      }
    case _ =>
  }

  /** Two canonical values with the same meaning are the same value, key order included. */
  lemma {:induction false} CanonicalUnique(a: Json, b: Json)
    requires IsCanonical(a) && IsCanonical(b)
    requires Meaning(a) == Meaning(b)
    ensures a == b
    decreases a
  {
    match a
    case Arr(items) =>
      forall i | 0 <= i < |items| ensures items[i] == b.items[i] {
        ItemsMeaningAt(items, i);
        ItemsMeaningAt(b.items, i);
        CanonicalUnique(items[i], b.items[i]);
      }
      assert items == b.items;
    case Obj(fields) =>
      CanonicalFieldsUnique(fields, b.fields);
    case _ =>
  }

  lemma {:induction false} CanonicalFieldsUnique(fs: seq<Field>, gs: seq<Field>)
    requires StrictlySorted(fs) && StrictlySorted(gs)
    requires forall i | 0 <= i < |fs| :: IsCanonical(fs[i].value)
    requires forall i | 0 <= i < |gs| :: IsCanonical(gs[i].value)
    requires FieldsMeaning(fs) == FieldsMeaning(gs)
    ensures fs == gs
    decreases fs
  {
    MeaningEmpty(fs);
    MeaningEmpty(gs);
    if fs != [] {
      LeastKey(fs, gs);
      assert fs[0] in fs;
      CanonicalUnique(fs[0].value, gs[0].value);
      TailMeaning(fs);
      TailMeaning(gs);
      assert forall i | 0 <= i < |fs[1..]| :: fs[1..][i] == fs[i + 1];
      assert forall i | 0 <= i < |gs[1..]| :: gs[1..][i] == gs[i + 1];
      CanonicalFieldsUnique(fs[1..], gs[1..]);
      assert fs == [fs[0]] + fs[1..] && gs == [gs[0]] + gs[1..];
    }
  }

  lemma {:induction false} MeaningEmpty(fs: seq<Field>)
    ensures FieldsMeaning(fs) == map[] <==> fs == []
  {
    if fs != [] {
      assert fs[0].key in FieldsMeaning(fs);
    }
  }

  lemma {:induction false} HeadIsLeast(fs: seq<Field>, k: string)
    requires StrictlySorted(fs) && fs != [] && k in FieldsMeaning(fs)
    ensures k == fs[0].key || KeyLess(fs[0].key, k)
  {
    FieldsMeaningKeys(fs, k);
  }

  lemma {:induction false} LeastKey(fs: seq<Field>, gs: seq<Field>)
    requires StrictlySorted(fs) && StrictlySorted(gs) && fs != [] && gs != []
    requires FieldsMeaning(fs) == FieldsMeaning(gs)
    ensures fs[0].key == gs[0].key
    ensures Meaning(fs[0].value) == Meaning(gs[0].value)
  {
    assert fs[0].key in FieldsMeaning(fs) && gs[0].key in FieldsMeaning(gs);
    HeadIsLeast(fs, gs[0].key);
    HeadIsLeast(gs, fs[0].key);
    KeyTotal(fs[0].key, gs[0].key);
    assert FieldsMeaning(fs)[fs[0].key] == Meaning(fs[0].value);
    assert FieldsMeaning(gs)[gs[0].key] == Meaning(gs[0].value);
  }

  lemma {:induction false} HeadNotInTail(fs: seq<Field>)
    requires StrictlySorted(fs) && fs != []
    ensures fs[0].key !in FieldsMeaning(fs[1..])
  {
    forall i | 0 <= i < |fs[1..]| ensures fs[1..][i].key != fs[0].key {
      KeyTotal(fs[0].key, fs[i + 1].key);
    }
    FieldsMeaningKeys(fs[1..], fs[0].key);
  }

  lemma {:induction false} TailMeaning(fs: seq<Field>)
    requires StrictlySorted(fs) && fs != []
    ensures FieldsMeaning(fs[1..]) == FieldsMeaning(fs) - {fs[0].key}
  {
    HeadNotInTail(fs);
    RemoveAdded(FieldsMeaning(fs[1..]), fs[0].key, Meaning(fs[0].value));
  }

  lemma {:induction false} RemoveAdded<K, V>(m: map<K, V>, k: K, v: V)
    requires k !in m
    ensures m[k := v] - {k} == m
  {
  }

  /** The canonical form decides equality up to key order at every depth. */
  lemma {:induction false} CanonDecidesMeaning(a: Json, b: Json)
    requires Ordinary(a) && Ordinary(b)
    ensures Canon(a) == Canon(b) <==> Meaning(a) == Meaning(b)
  {
    CanonMeaning(a);
    CanonMeaning(b);
    CanonIsCanonical(a);
    CanonIsCanonical(b);
    if Meaning(a) == Meaning(b) {
      CanonicalUnique(Canon(a), Canon(b));
    }
  }

  lemma {:induction false} StrictlySortedEnumerates(fs: seq<Field>)
    requires StrictlySorted(fs)
    ensures DistinctKeys(fs) && EnumerationOrder(fs)
  {
    forall i, j | 0 <= i < j < |fs| ensures fs[i].key != fs[j].key {
      KeyTotal(fs[i].key, fs[j].key);
    }
  }

  lemma {:induction false} CanonPlain(v: Json)
    requires Ordinary(v)
    ensures Ordinary(Canon(v))
    ensures Hashable(v) ==> Hashable(Canon(v))
    decreases v
  {
    match v
    case Arr(items) =>
      forall i | 0 <= i < |items|
        ensures CanonItems(items)[i] == Canon(items[i])
        ensures Ordinary(Canon(items[i])) && (Hashable(items[i]) ==> Hashable(Canon(items[i])))
      {
        CanonItemsAt(items, i);
        CanonPlain(items[i]);
      }
    case Obj(fields) =>
      forall i | 0 <= i < |fields|
        ensures Ordinary(Canon(fields[i].value)) && (Hashable(fields[i].value) ==> Hashable(Canon(fields[i].value)))
      {
        CanonPlain(fields[i].value);
      }
      CanonFieldsDistinct(fields);
      SortStrictly(CanonFields(fields));
      StrictlySortedEnumerates(Sort(FieldLess, CanonFields(fields)));
      forall i | 0 <= i < |fields| {
        CanonFieldOrigin(fields, i);
      }
    case _ =>
  }

  /** Every field of the canonical object is the canonical form of one of the given fields. */
  lemma {:induction false} CanonFieldOrigin(fields: seq<Field>, i: nat)
    requires i < |fields|
    ensures exists j :: 0 <= j < |fields| && Sort(FieldLess, CanonFields(fields))[i] == Field(fields[j].key, Canon(fields[j].value))
  {
    var c := CanonFields(fields);
    var s := Sort(FieldLess, c);
    SameElements(s, c, s[i]);
    var j :| 0 <= j < |c| && c[j] == s[i];
    CanonFieldsAt(fields, j);
  }

  /** Canonicalizing twice is canonicalizing once. */
  lemma {:induction false} CanonIdempotent(v: Json)
    requires Ordinary(v)
    ensures Canon(Canon(v)) == Canon(v)
  {
    CanonPlain(v);
    CanonMeaning(v);
    CanonDecidesMeaning(Canon(v), v);
  }
}
