/** Decimal text as JavaScript writes it: `String(n)` for integers and `padStart` with zeros. */
module DecimalText {

  function Digit(d: nat): (c: char)
    requires d < 10
    ensures '0' <= c <= '9'
  {
    ('0' as int + d) as char
  }

  predicate IsDigit(c: char) {
    '0' <= c <= '9'
  }

  predicate AllDigits(s: string) {
    forall i | 0 <= i < |s| :: IsDigit(s[i])
  }

  /** The number a run of digits denotes; the empty run denotes 0. */
  function Value(s: string): nat
    requires AllDigits(s)
  {
    if s == [] then 0 else 10 * Value(s[..|s| - 1]) + (s[|s| - 1] as int - '0' as int)
  }

  /** `String(n)` for a natural number. */
  function NatText(n: nat): (s: string)
    ensures |s| > 0 && AllDigits(s)
  {
    if n < 10 then [Digit(n)] else NatText(n / 10) + [Digit(n % 10)]
  }

  /** `String(n)` for any integer. */
  function IntText(n: int): (s: string)
    ensures |s| > 0
  {
    if n < 0 then "-" + NatText(-n) else NatText(n)
  }

  /** Decimal text without a leading zero, the form `String` produces. */
  predicate IsDecimal(s: string) {
    |s| > 0 && AllDigits(s) && (s[0] == '0' ==> |s| == 1)
  }

  function Zeros(n: nat): (s: string)
    ensures |s| == n && AllDigits(s)
    ensures forall i | 0 <= i < n :: s[i] == '0'
  {
    seq(n, i => '0')
  }

  /** `s.padStart(width, "0")`. */
  function PadStart(s: string, width: nat): string {
    if |s| < width then Zeros(width - |s|) + s else s
  }

  /** Text and value are inverse to one another, so distinct naturals have distinct text. */
  lemma {:induction false} NatTextValue(n: nat)
    ensures Value(NatText(n)) == n
    ensures IsDecimal(NatText(n))
    ensures n > 0 ==> NatText(n)[0] != '0'
  {
    if n >= 10 {
      NatTextValue(n / 10);
      assert NatText(n)[..|NatText(n)| - 1] == NatText(n / 10);
    }
  }

  lemma {:induction false} ValuePositive(s: string)
    requires IsDecimal(s) && s[0] != '0'
    ensures Value(s) > 0
  {
    if |s| > 1 {
      ValuePositive(s[..|s| - 1]);
    }
  }

  lemma {:induction false} DecimalIsText(s: string)
    requires IsDecimal(s)
    ensures NatText(Value(s)) == s
  {
    if |s| > 1 {
      var p := s[..|s| - 1];
      DecimalIsText(p);
      ValuePositive(p);
      var d := s[|s| - 1] as int - '0' as int;
      assert Value(s) == 10 * Value(p) + d;
      assert Value(s) / 10 == Value(p) && Value(s) % 10 == d;
      assert s == p + [s[|s| - 1]];
    } else {
      assert s == [s[0]];
      assert s[..|s| - 1] == [];
    }
  }

  lemma {:induction false} IntTextSign(n: int)
    ensures IntText(n)[0] == '-' <==> n < 0
  {
    if n >= 0 {
      assert IsDigit(NatText(n)[0]);
    }
  }

  lemma {:induction false} IntTextInjective(m: int, n: int)
    requires IntText(m) == IntText(n)
    ensures m == n
  {
    IntTextSign(m);
    IntTextSign(n);
    if m < 0 {
      assert NatText(-m) == IntText(m)[1..] == NatText(-n);
      NatTextValue(-m);
      NatTextValue(-n);
    } else {
      NatTextValue(m);
      NatTextValue(n);
    }
  }

  lemma {:induction false} ZerosValue(n: nat, s: string)
    requires AllDigits(s)
    ensures Value(Zeros(n) + s) == Value(s)
    decreases |s|, n
  {
    var z := Zeros(n) + s;
    if s != [] {
      assert z[..|z| - 1] == Zeros(n) + s[..|s| - 1];
      ZerosValue(n, s[..|s| - 1]);
    } else if n > 0 {
      assert z[..|z| - 1] == Zeros(n - 1) + s;
      ZerosValue(n - 1, s);
    }
  }

  /** Padding keeps the value, so padded numbers stay distinct, also past the padding width. */
  lemma {:induction false} PaddedValue(n: nat, width: nat)
    ensures AllDigits(PadStart(NatText(n), width))
    ensures Value(PadStart(NatText(n), width)) == n
  {
    NatTextValue(n);
    if |NatText(n)| < width {
      ZerosValue(width - |NatText(n)|, NatText(n));
    }
  }
}
