/** `Array.prototype.sort` on a comparison: a stable sort, described by insertion. */
module Sorting {

  ghost predicate StrictWeakOrder<T(!new)>(less: (T, T) -> bool) {
    && (forall x, y :: less(x, y) ==> !less(y, x))
    && (forall x, y, z :: !less(y, x) && !less(z, y) ==> !less(z, x))
  }

  ghost predicate Sorted<T>(less: (T, T) -> bool, s: seq<T>) {
    forall i, j | 0 <= i < j < |s| :: !less(s[j], s[i])
  }

  /** Elements the order cannot tell apart are equal. */
  ghost predicate Discriminates<T>(less: (T, T) -> bool, s: seq<T>) {
    forall x, y | x in s && y in s && !less(x, y) && !less(y, x) :: x == y
  }

  /** Places `x` before the first element that is not less than it. */
  function Insert<T>(less: (T, T) -> bool, x: T, s: seq<T>): (r: seq<T>)
    ensures |r| == |s| + 1
    ensures multiset(r) == multiset(s) + multiset{x}
  {
    if s == [] || !less(s[0], x) then
      [x] + s
    else
      var r := [s[0]] + Insert(less, x, s[1..]);
      assert s == [s[0]] + s[1..];
      r
  }

  function Sort<T>(less: (T, T) -> bool, s: seq<T>): (r: seq<T>)
    ensures |r| == |s|
    ensures multiset(r) == multiset(s)
  {
    if s == [] then
      []
    else
      assert s == [s[0]] + s[1..];
      Insert(less, s[0], Sort(less, s[1..]))
  }

  lemma {:induction false} SameElements<T>(s: seq<T>, t: seq<T>, x: T)
    requires multiset(s) == multiset(t)
    ensures x in s <==> x in t
  {
    assert x in multiset(s) <==> x in s;
    assert x in multiset(t) <==> x in t;
  }

  lemma {:induction false} InsertSorted<T(!new)>(less: (T, T) -> bool, x: T, s: seq<T>)
    requires StrictWeakOrder(less) && Sorted(less, s)
    ensures Sorted(less, Insert(less, x, s))
  {
    if s == [] || !less(s[0], x) {
      forall j | 0 <= j < |s| ensures !less(s[j], x) {
        if j > 0 {
          assert !less(s[j], s[0]);
        }
      }
    } else {
      var rest := Insert(less, x, s[1..]);
      InsertSorted(less, x, s[1..]);
      forall j | 0 <= j < |rest| ensures !less(rest[j], s[0]) {
        assert rest[j] in multiset(rest);
        if rest[j] != x {
          assert rest[j] in multiset(s[1..]);
          var k :| 0 <= k < |s[1..]| && s[1..][k] == rest[j];
          assert s[k + 1] == rest[j];
        }
      }
    }
  }

  lemma {:induction false} SortSorted<T(!new)>(less: (T, T) -> bool, s: seq<T>)
    requires StrictWeakOrder(less)
    ensures Sorted(less, Sort(less, s))
  {
    if s != [] {
      SortSorted(less, s[1..]);
      InsertSorted(less, s[0], Sort(less, s[1..]));
    }
  }

  lemma {:induction false} SortedHeads<T(!new)>(less: (T, T) -> bool, s: seq<T>, t: seq<T>)
    requires Sorted(less, s) && Sorted(less, t)
    requires multiset(s) == multiset(t)
    requires Discriminates(less, s)
    requires s != [] && t != []
    ensures s[0] == t[0]
  {
    SameElements(s, t, s[0]);
    SameElements(s, t, t[0]);
    var i :| 0 <= i < |t| && t[i] == s[0];
    var j :| 0 <= j < |s| && s[j] == t[0];
    assert i > 0 ==> !less(s[0], t[0]);
    assert j > 0 ==> !less(t[0], s[0]);
  }

  lemma {:induction false} TailElements<T>(s: seq<T>)
    requires s != []
    ensures multiset(s[1..]) == multiset(s) - multiset{s[0]}
  {
    assert s == [s[0]] + s[1..];
  }

  /** A sorted arrangement is determined by the elements alone. */
  lemma {:induction false} SortedUnique<T(!new)>(less: (T, T) -> bool, s: seq<T>, t: seq<T>)
    requires Sorted(less, s) && Sorted(less, t)
    requires multiset(s) == multiset(t)
    requires Discriminates(less, s)
    ensures s == t
    decreases |s|
  {
    assert |s| == |multiset(s)| == |multiset(t)| == |t|;
    if s != [] {
      SortedHeads(less, s, t);
      TailElements(s);
      TailElements(t);
      assert Discriminates(less, s[1..]) by {
        forall x, y | x in s[1..] && y in s[1..] && !less(x, y) && !less(y, x) ensures x == y {
          assert x in s && y in s;
        }
      }
      SortedUnique(less, s[1..], t[1..]);
      assert s == [s[0]] + s[1..] && t == [t[0]] + t[1..];
    }
  }

  /** Sorting forgets the order it started from. */
  lemma {:induction false} SortForgetsOrder<T(!new)>(less: (T, T) -> bool, s: seq<T>, t: seq<T>)
    requires StrictWeakOrder(less)
    requires multiset(s) == multiset(t)
    requires Discriminates(less, s)
    ensures Sort(less, s) == Sort(less, t)
  {
    SortSorted(less, s);
    SortSorted(less, t);
    forall x, y | x in Sort(less, s) && y in Sort(less, s) && !less(x, y) && !less(y, x) ensures x == y {
      SameElements(Sort(less, s), s, x);
      SameElements(Sort(less, s), s, y);
    }
    SortedUnique(less, Sort(less, s), Sort(less, t));
  }

  /** A new greatest element goes last. */
  lemma {:induction false} InsertLast<T>(less: (T, T) -> bool, x: T, s: seq<T>)
    requires forall y | y in s :: less(y, x)
    ensures Insert(less, x, s) == s + [x]
  {
    if s != [] {
      InsertLast(less, x, s[1..]);
      assert s == [s[0]] + s[1..];
    }
  }

  /** Sorting a list with one more element is inserting that element into the sorted list. */
  lemma {:induction false} SortSnoc<T(!new)>(less: (T, T) -> bool, s: seq<T>, x: T)
    requires StrictWeakOrder(less)
    requires Discriminates(less, s + [x])
    ensures Sort(less, s + [x]) == Insert(less, x, Sort(less, s))
  {
    SortSorted(less, s);
    InsertSorted(less, x, Sort(less, s));
    SortSorted(less, s + [x]);
    var a, b := Sort(less, s + [x]), Insert(less, x, Sort(less, s));
    forall y, z | y in a && z in a && !less(y, z) && !less(z, y) ensures y == z {
      SameElements(a, s + [x], y);
      SameElements(a, s + [x], z);
    }
    SortedUnique(less, a, b);
  }

  /** Sorting changes nothing that is sorted already. */
  lemma {:induction false} SortedStays<T>(less: (T, T) -> bool, s: seq<T>)
    requires Sorted(less, s)
    ensures Sort(less, s) == s
  {
    if s != [] {
      SortedTail(less, s);
      SortedStays(less, s[1..]);
      assert s == [s[0]] + s[1..];
    }
  }

  lemma {:induction false} SortedTail<T>(less: (T, T) -> bool, s: seq<T>)
    requires Sorted(less, s) && s != []
    ensures Sorted(less, s[1..])
    ensures |s| > 1 ==> !less(s[1..][0], s[0])
  {
    forall i, j | 0 <= i < j < |s[1..]| ensures !less(s[1..][j], s[1..][i]) {
      assert !less(s[j + 1], s[i + 1]);
    }
  }
}
