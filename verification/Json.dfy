/**
 Values a program may hand to `canonicalize`, and what two of them have in common when they
 differ in key order only.
 */
module Json {
  import opened KeyOrder
  import opened Sorting

  /** A finite number is carried as the text `Number::toString` gives it. */
  predicate IsNumberText(s: string) {
    |s| > 0 && forall i | 0 <= i < |s| :: IsNumberChar(s[i])
  }

  predicate IsNumberChar(c: char) {
    '0' <= c <= '9' || c == '-' || c == '+' || c == '.' || c == 'e'
  }

  type NumberText = s: string | IsNumberText(s) witness "0"

  /** One own property of an object. */
  datatype Field = Field(key: string, value: Json)

  /**
   A JavaScript value. `Obj` lists own properties in enumeration order; `Foreign` is whatever
   has no JSON form: `undefined`, a non-finite number, a function, a symbol, a bigint.
   */
  datatype Json =
    | Null
    | Bool(b: bool)
    | Num(text: NumberText)
    | Str(s: string)
    | Arr(items: seq<Json>)
    | Obj(fields: seq<Field>)
    | Foreign

  /** The meaning of a JSON value: objects are finite maps, so key order is gone at every depth. */
  datatype Tree =
    | TNull
    | TBool(b: bool)
    | TNum(text: string)
    | TStr(s: string)
    | TArr(items: seq<Tree>)
    | TObj(fields: map<string, Tree>)
    | TForeign

  function Meaning(v: Json): Tree
    decreases v
  {
    match v
    case Null => TNull
    case Bool(b) => TBool(b)
    case Num(t) => TNum(t)
    case Str(s) => TStr(s)
    case Arr(items) => TArr(ItemsMeaning(items))
    case Obj(fields) => TObj(FieldsMeaning(fields))
    case Foreign => TForeign
  }

  function ItemsMeaning(items: seq<Json>): (r: seq<Tree>)
    ensures |r| == |items|
    decreases items
  {
    if items == [] then [] else [Meaning(items[0])] + ItemsMeaning(items[1..])
  }

  function FieldsMeaning(fields: seq<Field>): map<string, Tree>
    decreases fields
  {
    if fields == [] then map[]
    else
      assert fields[0] in fields;
      FieldsMeaning(fields[1..])[fields[0].key := Meaning(fields[0].value)]
  }

  function Keys(fields: seq<Field>): (r: seq<string>)
    ensures |r| == |fields|
  {
    seq(|fields|, i requires 0 <= i < |fields| => fields[i].key)
  }

  predicate HasKey(fields: seq<Field>, k: string) {
    exists i | 0 <= i < |fields| :: fields[i].key == k
  }

  ghost predicate DistinctKeys(fields: seq<Field>) {
    forall i, j | 0 <= i < j < |fields| :: fields[i].key != fields[j].key
  }

  /** What every JavaScript object satisfies: array-index keys come first, in ascending order. */
  ghost predicate EnumerationOrder(fields: seq<Field>) {
    forall i, j | 0 <= i < j < |fields| && IsIndex(fields[j].key) :: KeyLess(fields[i].key, fields[j].key)
  }

  /** Objects throughout the value are ordinary ones: distinct keys, none of them `__proto__`. */
  ghost predicate Ordinary(v: Json)
    decreases v
  {
    match v
    case Arr(items) => forall i | 0 <= i < |items| :: Ordinary(items[i])
    case Obj(fields) =>
      && DistinctKeys(fields) && EnumerationOrder(fields)
      && (forall i | 0 <= i < |fields| :: fields[i].key != "__proto__" && Ordinary(fields[i].value))
    case _ => true
  }

  /** No part of the value is one `canonicalize` throws on. */
  predicate Hashable(v: Json)
    decreases v
  {
    match v
    case Arr(items) => forall i | 0 <= i < |items| :: Hashable(items[i])
    case Obj(fields) => forall i | 0 <= i < |fields| :: Hashable(fields[i].value)
    case Foreign => false
    case _ => true
  }

  /** Plain JSON data. */
  ghost predicate Plain(v: Json) {
    Ordinary(v) && Hashable(v)
  }

  lemma {:induction false} ItemsMeaningAt(items: seq<Json>, i: nat)
    requires i < |items|
    ensures ItemsMeaning(items)[i] == Meaning(items[i])
  {
    if i > 0 {
      ItemsMeaningAt(items[1..], i - 1);
    }
  }

  lemma {:induction false} FieldsMeaningKeys(fields: seq<Field>, k: string)
    ensures k in FieldsMeaning(fields) <==> HasKey(fields, k)
  {
    if fields != [] {
      FieldsMeaningKeys(fields[1..], k);
      if HasKey(fields, k) && fields[0].key != k {
        var i :| 0 <= i < |fields| && fields[i].key == k;
        assert fields[1..][i - 1].key == k;
      }
      if HasKey(fields[1..], k) {
        var i :| 0 <= i < |fields[1..]| && fields[1..][i].key == k;
        assert fields[i + 1].key == k;
      }
    }
  }

  lemma {:induction false} FieldsMeaningAt(fields: seq<Field>, i: nat)
    requires DistinctKeys(fields) && i < |fields|
    ensures fields[i].key in FieldsMeaning(fields)
    ensures FieldsMeaning(fields)[fields[i].key] == Meaning(fields[i].value)
  {
    if i > 0 {
      FieldsMeaningAt(fields[1..], i - 1);
    }
  }

  predicate FieldLess(f: Field, g: Field) {
    KeyLess(f.key, g.key)
  }

  predicate FieldUnitLess(f: Field, g: Field) {
    UnitLess(f.key, g.key)
  }

  lemma {:induction false} FieldOrder()
    ensures StrictWeakOrder(FieldLess)
  {
    forall f, g ensures FieldLess(f, g) ==> !FieldLess(g, f) {
      KeyTotal(f.key, g.key);
    }
    forall f, g, h | !FieldLess(g, f) && !FieldLess(h, g) ensures !FieldLess(h, f) {
      KeyNegativelyTransitive(f.key, g.key, h.key);
    }
  }

  lemma {:induction false} FieldUnitOrder()
    ensures StrictWeakOrder(FieldUnitLess)
  {
    UnitOrder();
    forall f, g ensures FieldUnitLess(f, g) ==> !FieldUnitLess(g, f) {
      UnitTotal(f.key, g.key);
    }
  }

  lemma {:induction false} DistinctMembers(fields: seq<Field>, f: Field, g: Field)
    requires DistinctKeys(fields) && f in fields && g in fields && f.key == g.key
    ensures f == g
  {
    var i :| 0 <= i < |fields| && fields[i] == f;
    var j :| 0 <= j < |fields| && fields[j] == g;
  }

  lemma {:induction false} FieldsDiscriminated(fields: seq<Field>)
    requires DistinctKeys(fields)
    ensures Discriminates(FieldLess, fields)
    ensures Discriminates(FieldUnitLess, fields)
  {
    forall f, g | f in fields && g in fields ensures !FieldLess(f, g) && !FieldLess(g, f) ==> f == g {
      KeyTotal(f.key, g.key);
      if f.key == g.key {
        DistinctMembers(fields, f, g);
      }
    }
    forall f, g | f in fields && g in fields ensures !FieldUnitLess(f, g) && !FieldUnitLess(g, f) ==> f == g {
      UnitTotal(f.key, g.key);
      if f.key == g.key {
        DistinctMembers(fields, f, g);
      }
    }
  }

  /** Rearranging fields keeps their keys distinct. */
  lemma {:induction false} DistinctPermuted(fs: seq<Field>, gs: seq<Field>)
    requires DistinctKeys(fs) && multiset(fs) == multiset(gs)
    ensures DistinctKeys(gs)
  {
    forall i, j | 0 <= i < j < |gs| ensures gs[i].key != gs[j].key {
      SameElements(fs, gs, gs[i]);
      SameElements(fs, gs, gs[j]);
      if gs[i].key == gs[j].key {
        DistinctMembers(fs, gs[i], gs[j]);
        OccursOnce(fs, gs[i]);
        OccursTwice(gs, i, j);
        assert false;
      }
    }
  }

  lemma {:induction false} OccursOnce(fs: seq<Field>, f: Field)
    requires DistinctKeys(fs)
    ensures multiset(fs)[f] <= 1
  {
    if fs != [] {
      OccursOnce(fs[1..], f);
      assert fs == [fs[0]] + fs[1..];
      if f == fs[0] {
        assert f !in fs[1..];
      }
    }
  }

  lemma {:induction false} OccursTwice(s: seq<Field>, i: nat, j: nat)
    requires i < j < |s| && s[i] == s[j]
    ensures multiset(s)[s[i]] >= 2
  {
    assert s == s[..i] + [s[i]] + s[i + 1..j] + [s[j]] + s[j + 1..];
  }
}
