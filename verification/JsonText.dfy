/**
 `JSON.stringify` on plain data (RFC 8259, sections 4, 5 and 7), and that no two values share a
 text. Uniqueness is shown by unique readability: even with more text behind it, a value's text
 tells the value and where it ends.
 */
module JsonText {
  import opened Json

  function HexDigit(d: nat): (c: char)
    requires d < 16
  {
    if d < 10 then ('0' as int + d) as char else ('a' as int + (d - 10)) as char
  }

  /** The escape of one character inside a string. */
  function Escape(c: char): (s: string)
    ensures |s| > 0 && s[0] != '"'
  {
    if c == '"' then "\\\""
    else if c == '\\' then "\\\\"
    else if c as int == 8 then "\\b"
    else if c as int == 9 then "\\t"
    else if c as int == 10 then "\\n"
    else if c as int == 12 then "\\f"
    else if c as int == 13 then "\\r"
    else if (c as int) < 0x20 then "\\u00" + [HexDigit(c as int / 16), HexDigit(c as int % 16)]
    else [c]
  }

  /** The rest of a string literal after its opening quote, closing quote included. */
  function Quoted(s: string): (r: string)
    ensures |r| > 0
  {
    if s == [] then "\"" else Escape(s[0]) + Quoted(s[1..])
  }

  function StringText(s: string): string {
    "\"" + Quoted(s)
  }

  function Text(v: Json): (r: string)
    ensures v != Foreign ==> |r| > 0
    decreases v, 1
  {
    match v
    case Null => "null"
    case Bool(b) => if b then "true" else "false"
    case Num(t) => t
    case Str(s) => StringText(s)
    case Arr(items) => if items == [] then "[]" else "[" + Text(items[0]) + ItemsTail(items[1..])
    case Obj(fields) =>
      if fields == [] then "{}"
      else
        assert fields[0] in fields;
        "{" + StringText(fields[0].key) + ":" + Text(fields[0].value) + FieldsTail(fields[1..])
    case Foreign => ""
  }

  /** The elements after the first, each behind its comma, and the closing bracket. */
  function ItemsTail(items: seq<Json>): (r: string)
    ensures |r| > 0 && (r[0] == if items == [] then ']' else ',')
    decreases items, 0
  {
    if items == [] then "]" else "," + Text(items[0]) + ItemsTail(items[1..])
  }

  function FieldsTail(fields: seq<Field>): (r: string)
    ensures |r| > 0 && (r[0] == if fields == [] then '}' else ',')
    decreases fields, 0
  {
    if fields == [] then "}"
    else
      assert fields[0] in fields;
      "," + StringText(fields[0].key) + ":" + Text(fields[0].value) + FieldsTail(fields[1..])
  }

  /** Nothing that follows a value inside a text can be taken for more digits. */
  predicate Ends(x: string) {
    x == [] || x[0] == ',' || x[0] == ']' || x[0] == '}'
  }

  lemma {:induction false} Peel(p: string, x: string, q: string, y: string)
    requires p + x == q + y && |p| == |q|
    ensures p == q && x == y
  {
    assert p == (p + x)[..|p|] && q == (q + y)[..|q|];
    assert x == (p + x)[|p|..] && y == (q + y)[|q|..];
  }

  lemma {:induction false} Assoc(a: string, b: string, c: string)
    ensures (a + b) + c == a + (b + c)
  {
  }

  /** Regroups `open + a + b`, with `x` behind it, so that `open` can be peeled off. */
  lemma {:induction false} Regroup(open: string, a: string, b: string, x: string)
    ensures (open + a + b) + x == open + (a + (b + x))
  {
    Assoc(open + a, b, x);
    Assoc(open, a, b + x);
  }

  lemma {:induction false} RegroupField(open: string, k: string, v: string, b: string, x: string)
    ensures (open + k + ":" + v + b) + x == open + (k + (":" + (v + (b + x))))
  {
    Assoc(open + k + ":" + v, b, x);
    Assoc(open + k + ":", v, b + x);
    Assoc(open + k, ":", v + (b + x));
    Assoc(open, k, ":" + (v + (b + x)));
  }

  lemma {:induction false} EscapeShape(c: char)
    ensures |Escape(c)| == 1 <==> Escape(c)[0] != '\\'
    ensures |Escape(c)| == 1 ==> Escape(c) == [c]
    ensures |Escape(c)| > 1 ==> |Escape(c)| == if Escape(c)[1] == 'u' then 6 else 2
  {
  }

  lemma {:induction false} EscapeSameLength(c: char, d: char)
    requires Escape(c) == Escape(d)
    ensures c == d
  {
    if |Escape(c)| == 6 {
      assert Escape(c)[4] == HexDigit(c as int / 16) && Escape(d)[4] == HexDigit(d as int / 16);
      assert Escape(c)[5] == HexDigit(c as int % 16) && Escape(d)[5] == HexDigit(d as int % 16);
      assert c as int / 16 == d as int / 16 && c as int % 16 == d as int % 16;
      assert c as int == d as int;
    } else if |Escape(c)| == 2 {
      assert Escape(c)[1] == Escape(d)[1];
    }
  }

  /** An escape tells its character and its own length. */
  lemma {:induction false} EscapeReadable(c: char, x: string, d: char, y: string)
    requires Escape(c) + x == Escape(d) + y
    ensures c == d && x == y
  {
    EscapeShape(c);
    EscapeShape(d);
    var z := Escape(c) + x;
    assert z[0] == Escape(c)[0] && z[0] == Escape(d)[0];
    if |Escape(c)| > 1 {
      assert z[1] == Escape(c)[1] && z[1] == Escape(d)[1];
    }
    Peel(Escape(c), x, Escape(d), y);
    EscapeSameLength(c, d);
  }

  lemma {:induction false} QuotedEnd(s: string, x: string)
    ensures (Quoted(s) + x)[0] == '"' <==> s == []
  {
    assert (Quoted(s) + x)[0] == Quoted(s)[0];
  }

  lemma {:induction false} QuotedReadable(s: string, x: string, t: string, y: string)
    requires Quoted(s) + x == Quoted(t) + y
    ensures s == t && x == y
  {
    QuotedEnd(s, x);
    QuotedEnd(t, y);
    if s == [] {
      Peel("\"", x, "\"", y);
    } else {
      Assoc(Escape(s[0]), Quoted(s[1..]), x);
      Assoc(Escape(t[0]), Quoted(t[1..]), y);
      EscapeReadable(s[0], Quoted(s[1..]) + x, t[0], Quoted(t[1..]) + y);
      QuotedReadable(s[1..], x, t[1..], y);
      assert s == [s[0]] + s[1..] && t == [t[0]] + t[1..];
    }
  }

  lemma {:induction false} StringReadable(s: string, x: string, t: string, y: string)
    requires StringText(s) + x == StringText(t) + y
    ensures s == t && x == y
  {
    Assoc("\"", Quoted(s), x);
    Assoc("\"", Quoted(t), y);
    Peel("\"", Quoted(s) + x, "\"", Quoted(t) + y);
    QuotedReadable(s, x, t, y);
  }

  /** How far a number reaches into a text. */
  function NumberLength(z: string): nat {
    if z == [] || !IsNumberChar(z[0]) then 0 else 1 + NumberLength(z[1..])
  }

  lemma {:induction false} NumberStops(s: string, x: string)
    requires forall i | 0 <= i < |s| :: IsNumberChar(s[i])
    requires Ends(x)
    ensures NumberLength(s + x) == |s|
  {
    if s == [] {
      assert s + x == x;
    } else {
      NumberStops(s[1..], x);
      assert (s + x)[1..] == s[1..] + x;
    }
  }

  lemma {:induction false} NumberReadable(s: string, x: string, t: string, y: string)
    requires forall i | 0 <= i < |s| :: IsNumberChar(s[i])
    requires forall i | 0 <= i < |t| :: IsNumberChar(t[i])
    requires Ends(x) && Ends(y) && s + x == t + y
    ensures s == t && x == y
  {
    NumberStops(s, x);
    NumberStops(t, y);
    Peel(s, x, t, y);
  }

  /** The first character of a text tells which kind of value it is. */
  function Kind(c: char): nat {
    if c == 'n' then 0 else if c == 't' then 1 else if c == 'f' then 2
    else if c == '"' then 3 else if c == '[' then 4 else if c == '{' then 5 else 6
  }

  function KindOf(v: Json): nat {
    match v
    case Null => 0
    case Bool(b) => if b then 1 else 2
    case Str(_) => 3
    case Arr(_) => 4
    case Obj(_) => 5
    case Num(_) => 6
    case Foreign => 7
  }

  lemma {:induction false} FirstChar(v: Json)
    requires v != Foreign
    ensures Kind(Text(v)[0]) == KindOf(v)
  {
    match v
    case Num(t) => assert IsNumberChar(t[0]);
    case _ =>
  }

  lemma {:induction false} SameKind(a: Json, x: string, b: Json, y: string)
    requires a != Foreign && b != Foreign
    requires Text(a) + x == Text(b) + y
    ensures KindOf(a) == KindOf(b)
  {
    FirstChar(a);
    FirstChar(b);
    assert (Text(a) + x)[0] == Text(a)[0];
    assert (Text(b) + y)[0] == Text(b)[0];
  }

  /** A value's text can be read back, whatever follows it. */
  lemma {:induction false} TextReadable(a: Json, x: string, b: Json, y: string)
    requires Hashable(a) && Hashable(b)
    requires Ends(x) && Ends(y) && Text(a) + x == Text(b) + y
    ensures a == b && x == y
    decreases a, 2
  {
    SameKind(a, x, b, y);
    match a
    case Null =>
      Peel(Text(a), x, Text(b), y);
    case Bool(_) =>
      Peel(Text(a), x, Text(b), y);
    case Num(t) =>
      NumberReadable(t, x, b.text, y);
    case Str(s) =>
      StringReadable(s, x, b.s, y);
    case Arr(items) =>
      ArrayReadable(items, x, b.items, y);
    case Obj(fields) =>
      ObjectReadable(fields, x, b.fields, y);
  }

  lemma {:induction false} ArrayStart(items: seq<Json>, x: string)
    requires Hashable(Arr(items))
    ensures |Text(Arr(items)) + x| >= 2
    ensures (Text(Arr(items)) + x)[1] == ']' <==> items == []
  {
    if items != [] {
      FirstChar(items[0]);
      Regroup("[", Text(items[0]), ItemsTail(items[1..]), x);
      assert (Text(Arr(items)) + x)[1] == Text(items[0])[0];
      assert items[0].Num? ==> IsNumberChar(Text(items[0])[0]);
    }
  }

  lemma {:induction false} ArrayReadable(items: seq<Json>, x: string, others: seq<Json>, y: string)
    requires Hashable(Arr(items)) && Hashable(Arr(others)) && Ends(x) && Ends(y)
    requires Text(Arr(items)) + x == Text(Arr(others)) + y
    ensures items == others && x == y
    decreases items, 1
  {
    ArrayStart(items, x);
    ArrayStart(others, y);
    if items == [] {
      Peel("[]", x, "[]", y);
    } else {
      Regroup("[", Text(items[0]), ItemsTail(items[1..]), x);
      Regroup("[", Text(others[0]), ItemsTail(others[1..]), y);
      ElementReadable("[", items, x, others, y);
    }
  }

  lemma {:induction false} ItemsReadable(items: seq<Json>, x: string, others: seq<Json>, y: string)
    requires Hashable(Arr(items)) && Hashable(Arr(others)) && Ends(x) && Ends(y)
    requires ItemsTail(items) + x == ItemsTail(others) + y
    ensures items == others && x == y
    decreases items, 1
  {
    assert (ItemsTail(items) + x)[0] == ItemsTail(items)[0];
    assert (ItemsTail(others) + y)[0] == ItemsTail(others)[0];
    if items == [] {
      Peel("]", x, "]", y);
    } else {
      Regroup(",", Text(items[0]), ItemsTail(items[1..]), x);
      Regroup(",", Text(others[0]), ItemsTail(others[1..]), y);
      ElementReadable(",", items, x, others, y);
    }
  }

  /** One element behind a bracket or a comma, then the others. */
  lemma {:induction false} ElementReadable(open: string, items: seq<Json>, x: string, others: seq<Json>, y: string)
    requires Hashable(Arr(items)) && Hashable(Arr(others)) && Ends(x) && Ends(y)
    requires items != [] && others != []
    requires open + (Text(items[0]) + (ItemsTail(items[1..]) + x)) == open + (Text(others[0]) + (ItemsTail(others[1..]) + y))
    ensures items == others && x == y
    decreases items, 0
  {
    var u, v := ItemsTail(items[1..]) + x, ItemsTail(others[1..]) + y;
    Peel(open, Text(items[0]) + u, open, Text(others[0]) + v);
    TextReadable(items[0], u, others[0], v);
    ItemsReadable(items[1..], x, others[1..], y);
    assert items == [items[0]] + items[1..] && others == [others[0]] + others[1..];
  }

  /** One property: its key, a colon, its value. */
  lemma {:induction false} FieldReadable(f: Field, x: string, g: Field, y: string)
    requires Hashable(f.value) && Hashable(g.value) && Ends(x) && Ends(y)
    requires StringText(f.key) + (":" + (Text(f.value) + x)) == StringText(g.key) + (":" + (Text(g.value) + y))
    ensures f == g && x == y
    decreases f, 3
  {
    StringReadable(f.key, ":" + (Text(f.value) + x), g.key, ":" + (Text(g.value) + y));
    Peel(":", Text(f.value) + x, ":", Text(g.value) + y);
    TextReadable(f.value, x, g.value, y);
  }

  lemma {:induction false} ObjectStart(fields: seq<Field>, x: string)
    ensures |Text(Obj(fields)) + x| >= 2
    ensures (Text(Obj(fields)) + x)[1] == '}' <==> fields == []
  {
    if fields != [] {
      RegroupField("{", StringText(fields[0].key), Text(fields[0].value), FieldsTail(fields[1..]), x);
      assert (Text(Obj(fields)) + x)[1] == StringText(fields[0].key)[0];
    }
  }

  lemma {:induction false} ObjectReadable(fields: seq<Field>, x: string, others: seq<Field>, y: string)
    requires Hashable(Obj(fields)) && Hashable(Obj(others)) && Ends(x) && Ends(y)
    requires Text(Obj(fields)) + x == Text(Obj(others)) + y
    ensures fields == others && x == y
    decreases fields, 1
  {
    ObjectStart(fields, x);
    ObjectStart(others, y);
    if fields == [] {
      Peel("{}", x, "{}", y);
    } else {
      RegroupField("{", StringText(fields[0].key), Text(fields[0].value), FieldsTail(fields[1..]), x);
      RegroupField("{", StringText(others[0].key), Text(others[0].value), FieldsTail(others[1..]), y);
      PropertyReadable("{", fields, x, others, y);
    }
  }

  lemma {:induction false} FieldsReadable(fields: seq<Field>, x: string, others: seq<Field>, y: string)
    requires Hashable(Obj(fields)) && Hashable(Obj(others)) && Ends(x) && Ends(y)
    requires FieldsTail(fields) + x == FieldsTail(others) + y
    ensures fields == others && x == y
    decreases fields, 1
  {
    assert (FieldsTail(fields) + x)[0] == FieldsTail(fields)[0];
    assert (FieldsTail(others) + y)[0] == FieldsTail(others)[0];
    if fields == [] {
      Peel("}", x, "}", y);
    } else {
      RegroupField(",", StringText(fields[0].key), Text(fields[0].value), FieldsTail(fields[1..]), x);
      RegroupField(",", StringText(others[0].key), Text(others[0].value), FieldsTail(others[1..]), y);
      PropertyReadable(",", fields, x, others, y);
    }
  }

  /** The text of one property with the rest of the object and `x` behind it. */
  function FieldRest(fields: seq<Field>, x: string): string
    requires fields != []
  {
    StringText(fields[0].key) + (":" + (Text(fields[0].value) + (FieldsTail(fields[1..]) + x)))
  }

  lemma {:induction false} PropertyReadable(open: string, fields: seq<Field>, x: string, others: seq<Field>, y: string)
    requires Hashable(Obj(fields)) && Hashable(Obj(others)) && Ends(x) && Ends(y)
    requires fields != [] && others != []
    requires open + FieldRest(fields, x) == open + FieldRest(others, y)
    ensures fields == others && x == y
    decreases fields, 0
  {
    var f, g := fields[0], others[0];
    assert f in fields;
    Peel(open, FieldRest(fields, x), open, FieldRest(others, y));
    FieldReadable(f, FieldsTail(fields[1..]) + x, g, FieldsTail(others[1..]) + y);
    FieldsReadable(fields[1..], x, others[1..], y);
    assert fields == [f] + fields[1..] && others == [g] + others[1..];
  }

  /** No two JSON values have the same text. */
  lemma {:induction false} TextInjective(a: Json, b: Json)
    requires Hashable(a) && Hashable(b) && Text(a) == Text(b)
    ensures a == b
  {
    assert Text(a) + [] == Text(a) && Text(b) + [] == Text(b);
    TextReadable(a, [], b, []);
  }

  // ----- the texts, form by form -----

  /** Texts one after the other, each but the last followed by a separator. */
  function Join(parts: seq<string>, separator: string): string {
    if parts == [] then "" else if |parts| == 1 then parts[0] else parts[0] + separator + Join(parts[1..], separator)
  }

  function ItemTexts(items: seq<Json>): seq<string> {
    seq(|items|, i requires 0 <= i < |items| => Text(items[i]))
  }

  function FieldText(f: Field): string {
    StringText(f.key) + ":" + Text(f.value)
  }

  function FieldTexts(fields: seq<Field>): seq<string> {
    seq(|fields|, i requires 0 <= i < |fields| => FieldText(fields[i]))
  }

  lemma {:induction false} JoinMore(first: string, rest: string, close: string)
    ensures first + ("," + (rest + close)) == (first + "," + rest) + close
  {
    Assoc(first, ",", rest);
    Assoc(first + ",", rest, close);
    Assoc(first, ",", rest + close);
  }

  lemma {:induction false} TailJoined(items: seq<Json>)
    requires items != []
    ensures Text(items[0]) + ItemsTail(items[1..]) == Join(ItemTexts(items), ",") + "]"
  {
    if |items| > 1 {
      var rest := items[1..];
      TailJoined(rest);
      Assoc(",", Text(rest[0]), ItemsTail(rest[1..]));
      assert ItemTexts(items)[1..] == ItemTexts(rest);
      JoinMore(Text(items[0]), Join(ItemTexts(rest), ","), "]");
    }
  }

  lemma {:induction false} FieldsJoined(fields: seq<Field>)
    requires fields != []
    ensures FieldText(fields[0]) + FieldsTail(fields[1..]) == Join(FieldTexts(fields), ",") + "}"
  {
    if |fields| > 1 {
      var rest := fields[1..];
      FieldsJoined(rest);
      FieldBehindComma(rest);
      assert FieldTexts(fields)[1..] == FieldTexts(rest);
      JoinMore(FieldText(fields[0]), Join(FieldTexts(rest), ","), "}");
    }
  }

  lemma {:induction false} GroupField(open: string, k: string, v: string, tail: string)
    ensures open + k + ":" + v + tail == open + ((k + ":" + v) + tail)
  {
    RegroupField(open, k, v, tail, "");
    Assoc(k + ":", v, tail);
    Assoc(k, ":", v + tail);
    assert open + k + ":" + v + tail + "" == open + k + ":" + v + tail && tail + "" == tail;
  }

  lemma {:induction false} FieldBehindComma(fields: seq<Field>)
    requires fields != []
    ensures FieldsTail(fields) == "," + (FieldText(fields[0]) + FieldsTail(fields[1..]))
  {
    assert fields[0] in fields;
    GroupField(",", StringText(fields[0].key), Text(fields[0].value), FieldsTail(fields[1..]));
  }

  lemma {:induction false} ArrayText(items: seq<Json>)
    ensures Text(Arr(items)) == "[" + Join(ItemTexts(items), ",") + "]"
  {
    if items == [] {
      assert Join(ItemTexts(items), ",") == "";
    } else {
      var body := Join(ItemTexts(items), ",");
      TailJoined(items);
      Assoc("[", Text(items[0]), ItemsTail(items[1..]));
      Assoc("[", body, "]");
    }
  }

  lemma {:induction false} ObjectText(fields: seq<Field>)
    ensures Text(Obj(fields)) == "{" + Join(FieldTexts(fields), ",") + "}"
  {
    if fields == [] {
      assert Join(FieldTexts(fields), ",") == "";
    } else {
      assert fields[0] in fields;
      FieldsJoined(fields);
      GroupField("{", StringText(fields[0].key), Text(fields[0].value), FieldsTail(fields[1..]));
      Assoc("{", Join(FieldTexts(fields), ","), "}");
    }
  }

  /** The grammar of RFC 8259: elements and members joined by commas between brackets and braces. */
  lemma {:induction false} TextExact(v: Json)
    ensures v == Null ==> Text(v) == "null"
    ensures v == Bool(true) ==> Text(v) == "true"
    ensures v == Bool(false) ==> Text(v) == "false"
    ensures v.Num? ==> Text(v) == v.text
    ensures v.Str? ==> Text(v) == StringText(v.s)
    ensures v.Arr? ==> Text(v) == "[" + Join(ItemTexts(v.items), ",") + "]"
    ensures v.Obj? ==> Text(v) == "{" + Join(FieldTexts(v.fields), ",") + "}"
  {
    match v
    case Arr(items) => ArrayText(items);
    case Obj(fields) => ObjectText(fields);
    case _ =>
  }

  function EscapedEach(s: string): seq<string> {
    seq(|s|, i requires 0 <= i < |s| => Escape(s[i]))
  }

  /** A string is its characters between quotes, each escaped by itself. */
  lemma {:induction false} StringExact(s: string)
    ensures StringText(s) == "\"" + Join(EscapedEach(s), "") + "\""
  {
    QuotedJoined(s);
  }

  lemma {:induction false} QuotedJoined(s: string)
    ensures Quoted(s) == Join(EscapedEach(s), "") + "\""
  {
    if |s| > 1 {
      QuotedJoined(s[1..]);
      assert EscapedEach(s)[1..] == EscapedEach(s[1..]);
    } else if |s| == 1 {
      assert s[1..] == [] && Quoted([]) == "\"";
    }
  }

  /** Quote, backslash and the control characters are escaped (section 7 of RFC 8259), all others stand for themselves. */
  lemma {:induction false} EscapeExact(c: char)
    ensures c == '"' ==> Escape(c) == ['\\', '"']
    ensures c == '\\' ==> Escape(c) == ['\\', '\\']
    ensures c as int == 0x08 ==> Escape(c) == ['\\', 'b']
    ensures c as int == 0x09 ==> Escape(c) == ['\\', 't']
    ensures c as int == 0x0A ==> Escape(c) == ['\\', 'n']
    ensures c as int == 0x0C ==> Escape(c) == ['\\', 'f']
    ensures c as int == 0x0D ==> Escape(c) == ['\\', 'r']
    ensures (c as int) < 0x20 && c as int !in {0x08, 0x09, 0x0A, 0x0C, 0x0D} ==>
      exists high, low :: Escape(c) == ['\\', 'u', '0', '0', high, low] && HexValue(high) * 16 + HexValue(low) == c as int
    ensures (c as int) >= 0x20 && c != '"' && c != '\\' ==> Escape(c) == [c]
  {
    var n := c as int;
    if n < 0x20 && n !in {0x08, 0x09, 0x0A, 0x0C, 0x0D} {
      assert Escape(c) == ['\\', 'u', '0', '0', HexDigit(n / 16), HexDigit(n % 16)];
    }
  }

  function HexValue(c: char): int {
    if '0' <= c <= '9' then c as int - '0' as int else if 'a' <= c <= 'f' then c as int - 'a' as int + 10 else -1
  }
}
