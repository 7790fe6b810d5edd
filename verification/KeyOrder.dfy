/**
 The two orders JavaScript puts on property keys: `Array.prototype.sort` compares UTF-16 code
 units, while an object lists its array-index keys first, by number, and the others as inserted.
 */
module KeyOrder {
  import opened DecimalText
  import opened Sorting

  /** Order of a character by its UTF-16 code units: surrogate pairs sort below U+E000. */
  function UnitRank(c: char): nat {
    var n := c as int;
    if 0xE000 <= n < 0x10000 then n + 0x110000 else n
  }

  /** `a < b` on strings, code unit by code unit. */
  predicate UnitLess(a: string, b: string) {
    b != [] && (a == [] || UnitRank(a[0]) < UnitRank(b[0]) || (a[0] == b[0] && UnitLess(a[1..], b[1..])))
  }

  /** An array index in the sense of ECMAScript: decimal text of a number below 2^32 - 1. */
  predicate IsIndex(k: string) {
    IsDecimal(k) && Value(k) < 0xFFFF_FFFF
  }

  /** The order in which a canonical object lists its keys; it depends on the keys alone. */
  predicate KeyLess(a: string, b: string) {
    if IsIndex(a) then
      !IsIndex(b) || Value(a) < Value(b)
    else
      !IsIndex(b) && UnitLess(a, b)
  }

  lemma {:induction false} UnitTotal(a: string, b: string)
    ensures UnitLess(a, b) || a == b || UnitLess(b, a)
    ensures UnitLess(a, b) ==> !UnitLess(b, a) && a != b
  {
    if a != [] && b != [] && a[0] == b[0] {
      UnitTotal(a[1..], b[1..]);
      assert a == [a[0]] + a[1..] && b == [b[0]] + b[1..];
    }
  }

  lemma {:induction false} UnitTransitive(a: string, b: string, c: string)
    requires UnitLess(a, b) && UnitLess(b, c)
    ensures UnitLess(a, c)
  {
    if a != [] && a[0] == b[0] && b[0] == c[0] {
      UnitTransitive(a[1..], b[1..], c[1..]);
    }
  }

  lemma {:induction false} UnitOrder()
    ensures StrictWeakOrder(UnitLess)
  {
    forall a, b ensures UnitLess(a, b) ==> !UnitLess(b, a) {
      UnitTotal(a, b);
    }
    forall a, b, c | !UnitLess(b, a) && !UnitLess(c, b) ensures !UnitLess(c, a) {
      UnitTotal(a, b);
      UnitTotal(b, c);
      UnitTotal(a, c);
      if UnitLess(c, a) {
        if a != b {
          UnitTransitive(c, a, b);
        }
      }
    }
  }

  lemma {:induction false} KeyTotal(a: string, b: string)
    ensures KeyLess(a, b) || a == b || KeyLess(b, a)
    ensures KeyLess(a, b) ==> !KeyLess(b, a) && a != b
  {
    UnitTotal(a, b);
    if IsIndex(a) && IsIndex(b) {
      DecimalIsText(a);
      DecimalIsText(b);
    }
  }

  lemma {:induction false} KeyTransitive(a: string, b: string, c: string)
    requires KeyLess(a, b) && KeyLess(b, c)
    ensures KeyLess(a, c)
  {
    if !IsIndex(a) && !IsIndex(b) && !IsIndex(c) {
      UnitTransitive(a, b, c);
    }
  }

  lemma {:induction false} KeyNegativelyTransitive(a: string, b: string, c: string)
    requires !KeyLess(b, a) && !KeyLess(c, b)
    ensures !KeyLess(c, a)
  {
    KeyTotal(a, b);
    KeyTotal(b, c);
    KeyTotal(a, c);
    if KeyLess(c, a) && a != b {
      KeyTransitive(c, a, b);
    }
  }

  // ----- against UTF-16 -----

  /** The UTF-16 code units of a character (RFC 2781, section 2.1). */
  function Units(c: char): seq<int> {
    var n := c as int;
    if n < 0x10000 then [n] else [0xD800 + (n - 0x10000) / 0x400, 0xDC00 + (n - 0x10000) % 0x400]
  }

  function Utf16(s: string): seq<int> {
    if s == [] then [] else Units(s[0]) + Utf16(s[1..])
  }

  predicate LexLess(a: seq<int>, b: seq<int>) {
    b != [] && (a == [] || a[0] < b[0] || (a[0] == b[0] && LexLess(a[1..], b[1..])))
  }

  lemma {:induction false} LexSamePrefix(p: seq<int>, a: seq<int>, b: seq<int>)
    ensures LexLess(p + a, p + b) <==> LexLess(a, b)
  {
    if p == [] {
      assert p + a == a && p + b == b;
    } else {
      assert (p + a)[1..] == p[1..] + a && (p + b)[1..] == p[1..] + b;
      LexSamePrefix(p[1..], a, b);
    }
  }

  /** Units of different characters part at their first or second unit, as their ranks do. */
  lemma {:induction false} RankIsUnits(c: char, d: char, a: seq<int>, b: seq<int>)
    requires c != d
    ensures LexLess(Units(c) + a, Units(d) + b) <==> UnitRank(c) < UnitRank(d)
  {
    var m, n := c as int, d as int;
    var x, y := Units(c) + a, Units(d) + b;
    if m >= 0x10000 && n >= 0x10000 {
      var p, q := m - 0x10000, n - 0x10000;
      assert p == p / 0x400 * 0x400 + p % 0x400 && q == q / 0x400 * 0x400 + q % 0x400;
      assert x[1..][0] == 0xDC00 + p % 0x400 && y[1..][0] == 0xDC00 + q % 0x400;
    } else {
      assert x[0] != y[0];
    }
  }

  /** The order keys are sorted in is the order of their UTF-16 code units. */
  lemma {:induction false} UnitLessIsUtf16(a: string, b: string)
    ensures UnitLess(a, b) <==> LexLess(Utf16(a), Utf16(b))
  {
    if a != [] && b != [] {
      if a[0] == b[0] {
        UnitLessIsUtf16(a[1..], b[1..]);
        LexSamePrefix(Units(a[0]), Utf16(a[1..]), Utf16(b[1..]));
      } else {
        RankIsUnits(a[0], b[0], Utf16(a[1..]), Utf16(b[1..]));
        RanksDiffer(a[0], b[0]);
      }
    }
  }

  lemma {:induction false} RanksDiffer(c: char, d: char)
    ensures UnitRank(c) == UnitRank(d) ==> c == d
  {
  }

  /** Array indices are the texts of the numbers below 2^32 - 1, and no other key is one. */
  lemma {:induction false} IndexExact(k: string)
    ensures IsIndex(k) <==> exists n: nat :: n < 4294967295 && k == NatText(n)
  {
    if IsIndex(k) {
      DecimalIsText(k);
    }
    if n: nat :| n < 4294967295 && k == NatText(n) {
      NatTextValue(n);
    }
  }

  /** An object lists index keys by number, then the other keys by UTF-16 code units. */
  lemma {:induction false} KeyLessExact(a: string, b: string)
    ensures forall m: nat, n: nat | m < 4294967295 && n < 4294967295 && a == NatText(m) && b == NatText(n) ::
      KeyLess(a, b) <==> m < n
    ensures IsIndex(a) && !IsIndex(b) ==> KeyLess(a, b) && !KeyLess(b, a)
    ensures !IsIndex(a) && !IsIndex(b) ==> (KeyLess(a, b) <==> LexLess(Utf16(a), Utf16(b)))
  {
    forall m: nat, n: nat | m < 4294967295 && n < 4294967295 && a == NatText(m) && b == NatText(n)
      ensures KeyLess(a, b) <==> m < n
    {
      NatTextValue(m);
      NatTextValue(n);
    }
    UnitLessIsUtf16(a, b);
  }
}
