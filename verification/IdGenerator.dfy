/** `CounterIdGenerator`: ids of the form `cap_000001`, and that no two of them are ever the same. */
module IdGenerator {
  import opened DecimalText

  const WIDTH := 6

  function IdText(prefix: string, count: nat): string {
    prefix + "_" + PadStart(NatText(count), WIDTH)
  }

  function Count(requests: seq<string>, prefix: string): nat {
    if requests == [] then 0
    else Count(requests[..|requests| - 1], prefix) + if requests[|requests| - 1] == prefix then 1 else 0
  }

  /** The id handed out for the `i`-th request of a history. */
  function IdAt(requests: seq<string>, i: nat): string
    requires i < |requests|
  {
    IdText(requests[i], Count(requests[..i + 1], requests[i]))
  }

  function LastUnderscore(s: string): int {
    if s == [] then -1
    else if s[|s| - 1] == '_' then |s| - 1
    else LastUnderscore(s[..|s| - 1])
  }

  lemma {:induction false} LastUnderscoreAt(p: string, digits: string)
    requires AllDigits(digits)
    ensures LastUnderscore(p + "_" + digits) == |p|
    decreases |digits|
  {
    var s := p + "_" + digits;
    if digits == [] {
      assert s[|s| - 1] == '_';
    } else {
      assert s[|s| - 1] == digits[|digits| - 1] && IsDigit(digits[|digits| - 1]);
      assert s[..|s| - 1] == p + "_" + digits[..|digits| - 1];
      LastUnderscoreAt(p, digits[..|digits| - 1]);
    }
  }

  /** An id is its prefix, an underscore, and the count in decimal, padded with zeros to six digits. */
  lemma {:induction false} IdExact(prefix: string, count: nat)
    ensures var digits := IdText(prefix, count)[|prefix| + 1..];
      && IdText(prefix, count) == prefix + "_" + digits
      && AllDigits(digits) && Value(digits) == count
      && |digits| >= 6 && (|digits| > 6 ==> digits[0] != '0')
  {
    var text := NatText(count);
    var digits := PadStart(text, WIDTH);
    assert IdText(prefix, count)[|prefix| + 1..] == digits;
    PaddedValue(count, WIDTH);
    NatTextValue(count);
  }

  /** The count of an id is how often its prefix has been asked for by then. */
  lemma {:induction false} CountExact(requests: seq<string>, prefix: string)
    ensures Count(requests, prefix) == multiset(requests)[prefix]
  {
    if requests != [] {
      CountExact(requests[..|requests| - 1], prefix);
      assert requests == requests[..|requests| - 1] + [requests[|requests| - 1]];
    }
  }

  /** The id of a request counts the earlier requests for its prefix, and itself. */
  lemma {:induction false} IdAtExact(requests: seq<string>, i: nat)
    requires i < |requests|
    ensures IdAt(requests, i) == IdText(requests[i], multiset(requests[..i])[requests[i]] + 1)
  {
    CountExact(requests[..i + 1], requests[i]);
    assert requests[..i + 1] == requests[..i] + [requests[i]];
  }

  /** Prefix and count can be read back from an id: the split is at the last underscore. */
  lemma {:induction false} IdTextInjective(p: string, m: nat, q: string, n: nat)
    requires IdText(p, m) == IdText(q, n)
    ensures p == q && m == n
  {
    var d, e := PadStart(NatText(m), WIDTH), PadStart(NatText(n), WIDTH);
    PaddedValue(m, WIDTH);
    PaddedValue(n, WIDTH);
    LastUnderscoreAt(p, d);
    LastUnderscoreAt(q, e);
    assert p == IdText(p, m)[..|p|] && q == IdText(q, n)[..|q|];
    assert d == IdText(p, m)[|p| + 1..] && e == IdText(q, n)[|q| + 1..];
  }

  lemma {:induction false} CountGrows(requests: seq<string>, i: nat, j: nat, prefix: string)
    requires i <= j <= |requests|
    ensures Count(requests[..i], prefix) <= Count(requests[..j], prefix)
    decreases j
  {
    if i < j {
      assert requests[..j][..j - 1] == requests[..j - 1];
      CountGrows(requests, i, j - 1, prefix);
    }
  }

  /** Any two ids one generator ever returns differ, across prefixes and past six digits. */
  lemma {:induction false} AllIdsDistinct(requests: seq<string>, i: nat, j: nat)
    requires i < j < |requests|
    ensures IdAt(requests, i) != IdAt(requests, j)
  {
    var p := requests[i];
    CountGrows(requests, i + 1, j, p);
    assert requests[..j + 1][..j] == requests[..j];
    assert requests[j] == p ==> Count(requests[..j + 1], p) > Count(requests[..i + 1], p);
    if IdAt(requests, i) == IdAt(requests, j) {
      IdTextInjective(p, Count(requests[..i + 1], p), requests[j], Count(requests[..j + 1], requests[j]));
    }
  }

  class CounterIdGenerator {
    var counters: map<string, nat>
    /** The prefixes asked for so far. */
    ghost var requests: seq<string>

    ghost predicate Valid()
      reads this
    {
      forall p :: Count(requests, p) == if p in counters then counters[p] else 0
    }

    constructor ()
      ensures Valid() && requests == []
    {
      counters := map[];
      requests := [];
    }

    method Next(prefix: string) returns (id: string)
      requires Valid()
      modifies this
      ensures Valid() && requests == old(requests) + [prefix]
      ensures id == IdAt(requests, |old(requests)|)
    {
      var count := (if prefix in counters then counters[prefix] else 0) + 1;
      counters := counters[prefix := count];
      requests := requests + [prefix];
      assert requests[..|requests| - 1] == old(requests);
      assert requests[..|requests|] == requests;
      id := prefix + "_" + PadStart(NatText(count), WIDTH);
    }
  }
}
