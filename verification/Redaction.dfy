/** Redaction of audit payloads: which strings are replaced, and that nothing else changes. */
module Redaction {
  import opened Prelude
  import opened DecimalText
  import opened KeyOrder
  import opened Sorting
  import opened Json
  import opened Canonical

  const REDACTED := "[REDACTED]"

  /** The alternatives of the key pattern, with each optional separator written out. */
  const SECRET_WORDS: seq<string> := [
    "token", "secret", "password", "passwd", "apikey", "api_key", "api-key", "credential", "bearer",
    "authorization", "privatekey", "private_key", "private-key", "accesskey", "access_key", "access-key"]

  function Lower(c: char): char {
    if 'A' <= c <= 'Z' then (c as int + 32) as char else c
  }

  function LowerAll(s: string): (r: string)
    ensures |r| == |s|
  {
    seq(|s|, i requires 0 <= i < |s| => Lower(s[i]))
  }

  predicate Contains(s: string, word: string) {
    exists i | 0 <= i <= |s| :: word <= s[i..]
  }

  predicate SecretKey(key: string) {
    exists i | 0 <= i < |SECRET_WORDS| :: Contains(LowerAll(key), SECRET_WORDS[i])
  }

  /** `\s` of an ECMAScript pattern. */
  predicate IsSpace(c: char) {
    var n := c as int;
    || 9 <= n <= 13 || n == 0x20 || n == 0xA0 || n == 0x1680 || 0x2000 <= n <= 0x200A
    || n == 0x2028 || n == 0x2029 || n == 0x202F || n == 0x205F || n == 0x3000 || n == 0xFEFF
  }

  /** `/^bearer\s+\S+/i`. */
  predicate BearerShaped(s: string) {
    && |s| > 7 && LowerAll(s)[..6] == "bearer" && IsSpace(s[6])
    && exists j | 7 <= j < |s| :: !IsSpace(s[j]) && forall i | 7 <= i < j :: IsSpace(s[i])
  }

  predicate TokenRun(s: string) {
    |s| > 0 && forall i | 0 <= i < |s| :: 'a' <= Lower(s[i]) <= 'z' || IsDigit(s[i]) || s[i] == '_' || s[i] == '-'
  }

  /** `/^eyj[a-z0-9_-]+\.[a-z0-9_-]+\.[a-z0-9_-]+$/i`. */
  predicate JwtShaped(s: string) {
    && |s| > 3 && LowerAll(s)[..3] == "eyj"
    && exists i, j | 3 <= i < j < |s| ::
         s[i] == '.' && s[j] == '.' && TokenRun(s[3..i]) && TokenRun(s[i + 1..j]) && TokenRun(s[j + 1..])
  }

  predicate SecretShaped(s: string) {
    BearerShaped(s) || JwtShaped(s)
  }

  /** What becomes of a string under the property name `key`. */
  function RedactString(key: string, s: string): string {
    if SecretKey(key) || SecretShaped(s) then REDACTED else s
  }

  // ----- what the patterns mean -----

  /** The stretch reads as this lower-case word, each letter in either case. */
  predicate Reads(stretch: string, word: string) {
    && |stretch| == |word|
    && forall i | 0 <= i < |word| ::
         stretch[i] == word[i] || ('a' <= word[i] <= 'z' && stretch[i] as int == word[i] as int - 32)
  }

  /** One of the words, or `api`, `private` or `access`, perhaps a separator, and `key`. */
  predicate GivesAway(stretch: string) {
    || Reads(stretch, "token") || Reads(stretch, "secret") || Reads(stretch, "password") || Reads(stretch, "passwd")
    || Reads(stretch, "credential") || Reads(stretch, "bearer") || Reads(stretch, "authorization")
    || Reads(stretch, "apikey") || Reads(stretch, "api_key") || Reads(stretch, "api-key")
    || Reads(stretch, "privatekey") || Reads(stretch, "private_key") || Reads(stretch, "private-key")
    || Reads(stretch, "accesskey") || Reads(stretch, "access_key") || Reads(stretch, "access-key")
  }

  /** Some stretch of the property name gives it away. */
  predicate NamesASecret(key: string) {
    exists i, j | 0 <= i <= j <= |key| :: GivesAway(key[i..j])
  }

  /** The white space and line terminators of ECMAScript. */
  const WHITE_SPACE: set<int> :=
    {0x09, 0x0A, 0x0B, 0x0C, 0x0D, 0x20, 0xA0, 0x1680, 0x2000, 0x2001, 0x2002, 0x2003, 0x2004, 0x2005, 0x2006,
     0x2007, 0x2008, 0x2009, 0x200A, 0x2028, 0x2029, 0x202F, 0x205F, 0x3000, 0xFEFF}

  /** "bearer" in any case, a space, and later something that is no space. */
  predicate IsBearerHeader(s: string) {
    && |s| > 7 && Reads(s[..6], "bearer") && s[6] as int in WHITE_SPACE
    && exists j | 7 <= j < |s| :: s[j] as int !in WHITE_SPACE
  }

  /** A letter, a digit, `_` or `-`. */
  predicate IsTokenChar(c: char) {
    'a' <= c <= 'z' || 'A' <= c <= 'Z' || '0' <= c <= '9' || c == '_' || c == '-'
  }

  /** "eyj" in any case, and three non-empty runs of token characters, parted by two dots, to the end. */
  predicate IsJwt(s: string) {
    && |s| > 3 && Reads(s[..3], "eyj")
    && exists i, j | 4 <= i && i + 1 < j < |s| - 1 ::
         && s[i] == '.' && s[j] == '.'
         && forall k | 3 <= k < |s| && k != i && k != j :: IsTokenChar(s[k])
  }

  lemma {:induction false} ReadsIsLower(stretch: string, word: string)
    requires forall i | 0 <= i < |word| :: Lower(word[i]) == word[i]
    ensures Reads(stretch, word) <==> LowerAll(stretch) == word
  {
    if |stretch| == |word| {
      forall i | 0 <= i < |word|
        ensures Lower(stretch[i]) == word[i]
           <==> stretch[i] == word[i] || ('a' <= word[i] <= 'z' && stretch[i] as int == word[i] as int - 32)
      {
        LowerOne(stretch[i], word[i]);
      }
    }
  }

  lemma {:induction false} LowerOne(c: char, w: char)
    requires Lower(w) == w
    ensures Lower(c) == w <==> c == w || ('a' <= w <= 'z' && c as int == w as int - 32)
  {
  }

  /** A word is contained, case folded, exactly if some stretch reads as it. */
  lemma {:induction false} ContainsExact(key: string, word: string)
    requires forall i | 0 <= i < |word| :: Lower(word[i]) == word[i]
    ensures Contains(LowerAll(key), word) <==> exists i, j | 0 <= i <= j <= |key| :: Reads(key[i..j], word)
  {
    var low := LowerAll(key);
    if i, j :| 0 <= i <= j <= |key| && Reads(key[i..j], word) {
      ReadsIsLower(key[i..j], word);
      assert low[i..][..|word|] == LowerAll(key[i..j]);
    }
    if i :| 0 <= i <= |low| && word <= low[i..] {
      var j := i + |word|;
      assert LowerAll(key[i..j]) == low[i..][..|word|];
      ReadsIsLower(key[i..j], word);
    }
  }

  predicate IsSecretWord(word: string) {
    || word == "token" || word == "secret" || word == "password" || word == "passwd"
    || word == "credential" || word == "bearer" || word == "authorization"
    || word == "apikey" || word == "api_key" || word == "api-key"
    || word == "privatekey" || word == "private_key" || word == "private-key"
    || word == "accesskey" || word == "access_key" || word == "access-key"
  }

  lemma {:induction false} SecretWords(word: string)
    ensures word in SECRET_WORDS <==> IsSecretWord(word)
    ensures IsSecretWord(word) ==> forall i | 0 <= i < |word| :: Lower(word[i]) == word[i]
  {
  }

  lemma {:induction false} GivesAwayWord(stretch: string)
    ensures GivesAway(stretch) <==> exists word :: IsSecretWord(word) && Reads(stretch, word)
  {
  }

  /** The key pattern matches exactly the names with a stretch that gives them away, whatever the case. */
  lemma {:induction false} SecretKeyExact(key: string)
    ensures SecretKey(key) <==> NamesASecret(key)
  {
    if SecretKey(key) {
      var n :| 0 <= n < |SECRET_WORDS| && Contains(LowerAll(key), SECRET_WORDS[n]);
      SecretWords(SECRET_WORDS[n]);
      ContainsExact(key, SECRET_WORDS[n]);
      var i, j :| 0 <= i <= j <= |key| && Reads(key[i..j], SECRET_WORDS[n]);
      GivesAwayWord(key[i..j]);
    }
    if NamesASecret(key) {
      var i, j :| 0 <= i <= j <= |key| && GivesAway(key[i..j]);
      GivesAwayWord(key[i..j]);
      var word :| IsSecretWord(word) && Reads(key[i..j], word);
      SecretWords(word);
      ContainsExact(key, word);
    }
  }

  lemma {:induction false} SpaceExact(c: char)
    ensures IsSpace(c) <==> c as int in WHITE_SPACE
  {
  }

  lemma {:induction false} BearerExact(s: string)
    ensures BearerShaped(s) <==> IsBearerHeader(s)
  {
    forall c ensures IsSpace(c) <==> c as int in WHITE_SPACE {
      SpaceExact(c);
    }
    if |s| > 7 {
      ReadsIsLower(s[..6], "bearer");
      assert LowerAll(s[..6]) == LowerAll(s)[..6];
      if j :| 7 <= j < |s| && !IsSpace(s[j]) {
        FirstNonSpace(s, j);
      }
    }
  }

  lemma {:induction false} FirstNonSpace(s: string, j: int)
    requires 7 <= j < |s| && !IsSpace(s[j])
    ensures exists k | 7 <= k < |s| :: !IsSpace(s[k]) && forall i | 7 <= i < k :: IsSpace(s[i])
    decreases j
  {
    if i :| 7 <= i < j && !IsSpace(s[i]) {
      FirstNonSpace(s, i);
    }
  }

  lemma {:induction false} TokenRunExact(s: string, i: int, j: int)
    requires 0 <= i <= j <= |s|
    ensures TokenRun(s[i..j]) <==> i < j && forall k | i <= k < j :: IsTokenChar(s[k])
  {
    if TokenRun(s[i..j]) {
      forall k | i <= k < j ensures IsTokenChar(s[k]) {
        assert s[i..j][k - i] == s[k];
      }
    }
  }

  lemma {:induction false} JwtParts(s: string, i: int, j: int)
    requires 3 <= i < j < |s| && s[i] == '.' && s[j] == '.'
    ensures TokenRun(s[3..i]) && TokenRun(s[i + 1..j]) && TokenRun(s[j + 1..])
       <==> 4 <= i && i + 1 < j < |s| - 1 && forall k | 3 <= k < |s| && k != i && k != j :: IsTokenChar(s[k])
  {
    TokenRunExact(s, 3, i);
    TokenRunExact(s, i + 1, j);
    TokenRunExact(s, j + 1, |s|);
    assert s[j + 1..] == s[j + 1..|s|];
  }

  lemma {:induction false} JwtExact(s: string)
    ensures JwtShaped(s) <==> IsJwt(s)
  {
    if |s| > 3 {
      ReadsIsLower(s[..3], "eyj");
      assert LowerAll(s[..3]) == LowerAll(s)[..3];
      forall i, j | 3 <= i < j < |s| && s[i] == '.' && s[j] == '.'
        ensures TokenRun(s[3..i]) && TokenRun(s[i + 1..j]) && TokenRun(s[j + 1..])
           <==> 4 <= i && i + 1 < j < |s| - 1 && forall k | 3 <= k < |s| && k != i && k != j :: IsTokenChar(s[k])
      {
        JwtParts(s, i, j);
      }
    }
  }

  function Redact(key: string, v: Json): Json
    decreases v
  {
    match v
    case Str(s) => Str(RedactString(key, s))
    case Arr(items) => Arr(RedactItems(key, items))
    case Obj(fields) => Obj(RedactFields(fields))
    case _ => v
  }

  function RedactItems(key: string, items: seq<Json>): (r: seq<Json>)
    ensures |r| == |items|
    decreases items
  {
    if items == [] then [] else [Redact(key, items[0])] + RedactItems(key, items[1..])
  }

  function RedactFields(fields: seq<Field>): (r: seq<Field>)
    ensures |r| == |fields|
    decreases fields
  {
    if fields == [] then []
    else
      assert fields[0] in fields;
      [Field(fields[0].key, Redact(fields[0].key, fields[0].value))] + RedactFields(fields[1..])
  }

  lemma {:induction false} RedactItemsAt(key: string, items: seq<Json>, i: nat)
    requires i < |items|
    ensures RedactItems(key, items)[i] == Redact(key, items[i])
  {
    if i > 0 {
      RedactItemsAt(key, items[1..], i - 1);
    }
  }

  lemma {:induction false} RedactFieldsAt(fields: seq<Field>, i: nat)
    requires i < |fields|
    ensures RedactFields(fields)[i] == Field(fields[i].key, Redact(fields[i].key, fields[i].value))
  {
    if i > 0 {
      RedactFieldsAt(fields[1..], i - 1);
    }
  }

  lemma {:induction false} RedactFieldsSnoc(fields: seq<Field>, f: Field)
    ensures RedactFields(fields + [f]) == RedactFields(fields) + [Field(f.key, Redact(f.key, f.value))]
  {
    if fields == [] {
      assert fields + [f] == [f];
      assert RedactFields([f][1..]) == [];
    } else {
      RedactFieldsSnoc(fields[1..], f);
      assert (fields + [f])[1..] == fields[1..] + [f];
    }
  }

  lemma {:induction false} PlaceIndexLast(fields: seq<Field>, f: Field)
    requires IsIndex(f.key)
    requires forall i | 0 <= i < |fields| :: KeyLess(fields[i].key, f.key)
    ensures PlaceIndex(fields, f) == fields + [f]
  {
    if fields != [] {
      assert forall i | 0 <= i < |fields[1..]| :: fields[1..][i] == fields[i + 1];
      PlaceIndexLast(fields[1..], f);
    }
  }

  /** Storing properties in enumeration order stores them at the end. */
  lemma {:induction false} SetPropertyLast(fields: seq<Field>, f: Field)
    requires forall i | 0 <= i < |fields| :: fields[i].key != f.key
    requires IsIndex(f.key) ==> forall i | 0 <= i < |fields| :: KeyLess(fields[i].key, f.key)
    ensures SetProperty(fields, f) == fields + [f]
  {
    if IsIndex(f.key) {
      PlaceIndexLast(fields, f);
    }
  }

  /** `redactValue`. */
  method RedactValue(key: string, v: Json) returns (r: Json)
    requires Ordinary(v)
    ensures r == Redact(key, v)
    decreases v, 1
  {
    match v {
      case Str(s) =>
        return Str(if SecretKey(key) || SecretShaped(s) then REDACTED else s);
      case Arr(items) =>
        var result: seq<Json> := [];
        for i := 0 to |items|
          invariant |result| == i && forall j | 0 <= j < i :: result[j] == Redact(key, items[j])
        {
          var item := RedactValue(key, items[i]);
          result := result + [item];
        }
        forall j | 0 <= j < |items| ensures RedactItems(key, items)[j] == result[j] {
          RedactItemsAt(key, items, j);
        }
        assert result == RedactItems(key, items);
        return Arr(result);
      case Obj(fields) =>
        var result := RedactPayload(fields);
        return Obj(result);
      case _ =>
        return v;
    }
  }

  /** `redactPayload`. */
  method RedactPayload(fields: seq<Field>) returns (result: seq<Field>)
    requires Ordinary(Obj(fields))
    ensures result == RedactFields(fields)
    decreases fields, 0
  {
    result := [];
    for i := 0 to |fields|
      invariant result == RedactFields(fields[..i])
    {
      assert fields[i] in fields;
      var value := RedactValue(fields[i].key, fields[i].value);
      forall j | 0 <= j < i ensures result[j].key == fields[j].key {
        RedactFieldsAt(fields[..i], j);
      }
      SetPropertyLast(result, Field(fields[i].key, value));
      RedactFieldsSnoc(fields[..i], fields[i]);
      assert fields[..i + 1] == fields[..i] + [fields[i]];
      result := SetProperty(result, Field(fields[i].key, value));
    }
    assert fields[..|fields|] == fields;
  }

  // ----- where things end up -----

  datatype PathStep = Prop(key: string) | Item(index: nat)

  function ValueOf(fields: seq<Field>, key: string): Option<Json> {
    if fields == [] then None
    else if fields[0].key == key then Some(fields[0].value)
    else ValueOf(fields[1..], key)
  }

  /** The part of a value a path of property names and indices leads to. */
  function At(v: Json, path: seq<PathStep>): Option<Json>
    decreases |path|
  {
    if path == [] then Some(v)
    else
      match path[0]
      case Prop(k) =>
        if v.Obj? && ValueOf(v.fields, k).Some? then At(ValueOf(v.fields, k).value, path[1..]) else None
      case Item(i) =>
        if v.Arr? && i < |v.items| then At(v.items[i], path[1..]) else None
  }

  /** The nearest property name on the way, or `key` when there is none. */
  function NearestName(key: string, path: seq<PathStep>): string
    decreases |path|
  {
    if path == [] then key
    else NearestName(if path[0].Prop? then path[0].key else key, path[1..])
  }

  lemma {:induction false} ValueOfRedacted(fields: seq<Field>, k: string)
    ensures ValueOf(RedactFields(fields), k)
         == if ValueOf(fields, k).Some? then Some(Redact(k, ValueOf(fields, k).value)) else None
  {
    if fields != [] {
      ValueOfRedacted(fields[1..], k);
      assert RedactFields(fields)[1..] == RedactFields(fields[1..]);
    }
  }

  lemma {:induction false} RedactPath(key: string, v: Json, path: seq<PathStep>)
    ensures At(Redact(key, v), path)
         == if At(v, path).Some? then Some(Redact(NearestName(key, path), At(v, path).value)) else None
    decreases |path|
  {
    if path != [] {
      match path[0]
      case Prop(k) =>
        if v.Obj? {
          ValueOfRedacted(v.fields, k);
          if ValueOf(v.fields, k).Some? {
            RedactPath(k, ValueOf(v.fields, k).value, path[1..]);
          }
        }
      case Item(i) =>
        if v.Arr? && i < |v.items| {
          RedactItemsAt(key, v.items, i);
          RedactPath(key, v.items[i], path[1..]);
        }
    }
  }

  /**
   Redaction read off path by path: the same paths exist, containers keep their length and keys,
   leaves that are no strings stay, and a string stays or is replaced by what its nearest property
   name and its own shape say.
   */
  lemma {:induction false} RedactAtPath(key: string, v: Json, path: seq<PathStep>)
    ensures match At(v, path)
            case None => At(Redact(key, v), path) == None
            case Some(Str(s)) =>
              At(Redact(key, v), path)
              == Some(Str(if NamesASecret(NearestName(key, path)) || IsBearerHeader(s) || IsJwt(s) then "[REDACTED]" else s))
            case Some(Arr(items)) =>
              var r := At(Redact(key, v), path); r.Some? && r.value.Arr? && |r.value.items| == |items|
            case Some(Obj(fields)) =>
              var r := At(Redact(key, v), path); r.Some? && r.value.Obj? && Keys(r.value.fields) == Keys(fields)
            case Some(leaf) => At(Redact(key, v), path) == Some(leaf)
  {
    RedactPath(key, v, path);
    match At(v, path)
    case Some(Str(s)) =>
      SecretKeyExact(NearestName(key, path));
      BearerExact(s);
      JwtExact(s);
    case Some(Obj(fields)) =>
      forall i | 0 <= i < |fields| ensures RedactFields(fields)[i].key == fields[i].key {
        RedactFieldsAt(fields, i);
      }
      assert Keys(RedactFields(fields)) == Keys(fields);
    case _ =>
  }

  lemma {:induction false} MarkerIsHarmless()
    ensures !SecretShaped(REDACTED)
  {
    assert LowerAll(REDACTED)[..6][0] == '[' && "bearer"[0] == 'b';
    assert LowerAll(REDACTED)[..3][0] == '[' && "eyj"[0] == 'e';
  }

  /** What the ledger stores of one text property: the marker exactly for a secret name or a secret shape. */
  lemma {:induction false} RedactionExact(key: string, s: string)
    ensures RedactFields([Field(key, Str(s))])
         == [Field(key, Str(if NamesASecret(key) || IsBearerHeader(s) || IsJwt(s) then "[REDACTED]" else s))]
  {
    SecretKeyExact(key);
    BearerExact(s);
    JwtExact(s);
    assert RedactFields([Field(key, Str(s))][1..]) == [];
  }

  /** After redaction no string is left that a secret name or a secret shape gives away. */
  lemma {:induction false} NothingSecretRemains(key: string, v: Json, path: seq<PathStep>)
    ensures At(Redact(key, v), path).Some? && At(Redact(key, v), path).value.Str? ==>
              var s := At(Redact(key, v), path).value.s;
              && (NamesASecret(NearestName(key, path)) ==> s == "[REDACTED]")
              && !IsBearerHeader(s) && !IsJwt(s)
  {
    RedactPath(key, v, path);
    SecretKeyExact(NearestName(key, path));
    if At(Redact(key, v), path).Some? && At(Redact(key, v), path).value.Str? {
      BearerExact(At(Redact(key, v), path).value.s);
      JwtExact(At(Redact(key, v), path).value.s);
    }
    MarkerIsHarmless();
  }

  lemma {:induction false} RedactIdempotent(key: string, v: Json)
    ensures Redact(key, Redact(key, v)) == Redact(key, v)
    decreases v
  {
    match v
    case Str(s) =>
      MarkerIsHarmless();
    case Arr(items) =>
      var once := RedactItems(key, items);
      forall i | 0 <= i < |items| ensures RedactItems(key, once)[i] == once[i] {
        RedactItemsAt(key, items, i);
        RedactItemsAt(key, once, i);
        RedactIdempotent(key, items[i]);
      }
      assert RedactItems(key, once) == once;
    case Obj(fields) =>
      var once := RedactFields(fields);
      forall i | 0 <= i < |fields| ensures RedactFields(once)[i] == once[i] {
        RedactFieldsAt(fields, i);
        RedactFieldsAt(once, i);
        RedactIdempotent(fields[i].key, fields[i].value);
      }
      assert RedactFields(once) == once;
    case _ =>
  }

  lemma {:induction false} RedactFieldsInsert(f: Field, fields: seq<Field>)
    ensures RedactFields(Insert(FieldLess, f, fields))
         == Insert(FieldLess, Field(f.key, Redact(f.key, f.value)), RedactFields(fields))
  {
    if fields == [] || !FieldLess(fields[0], f) {
      assert ([f] + fields)[1..] == fields;
    } else {
      RedactFieldsInsert(f, fields[1..]);
      var rest := Insert(FieldLess, f, fields[1..]);
      assert ([fields[0]] + rest)[1..] == rest;
    }
  }

  lemma {:induction false} RedactFieldsSort(fields: seq<Field>)
    ensures RedactFields(Sort(FieldLess, fields)) == Sort(FieldLess, RedactFields(fields))
  {
    if fields != [] {
      RedactFieldsSort(fields[1..]);
      RedactFieldsInsert(fields[0], Sort(FieldLess, fields[1..]));
      assert RedactFields(fields)[1..] == RedactFields(fields[1..]);
    }
  }

  lemma {:induction false} ItemsCommute(key: string, items: seq<Json>)
    requires forall i | 0 <= i < |items| :: Redact(key, Canon(items[i])) == Canon(Redact(key, items[i]))
    ensures RedactItems(key, CanonItems(items)) == CanonItems(RedactItems(key, items))
  {
    forall i | 0 <= i < |items| ensures RedactItems(key, CanonItems(items))[i] == CanonItems(RedactItems(key, items))[i] {
      RedactItemsAt(key, CanonItems(items), i);
      CanonItemsAt(items, i);
      CanonItemsAt(RedactItems(key, items), i);
      RedactItemsAt(key, items, i);
    }
  }

  lemma {:induction false} FieldsCommute(fields: seq<Field>)
    requires forall i | 0 <= i < |fields| ::
               Redact(fields[i].key, Canon(fields[i].value)) == Canon(Redact(fields[i].key, fields[i].value))
    ensures RedactFields(CanonFields(fields)) == CanonFields(RedactFields(fields))
  {
    if fields != [] {
      assert forall i | 0 <= i < |fields[1..]| :: fields[1..][i] == fields[i + 1];
      FieldsCommute(fields[1..]);
      assert CanonFields(fields)[1..] == CanonFields(fields[1..]);
      assert RedactFields(fields)[1..] == RedactFields(fields[1..]);
    }
  }

  lemma {:induction false} ArrayCommutes(key: string, items: seq<Json>)
    requires forall i | 0 <= i < |items| :: Redact(key, Canon(items[i])) == Canon(Redact(key, items[i]))
    ensures Redact(key, Canon(Arr(items))) == Canon(Redact(key, Arr(items)))
  {
    ItemsCommute(key, items);
  }

  lemma {:induction false} ObjectCommutes(key: string, fields: seq<Field>)
    requires forall i | 0 <= i < |fields| ::
               Redact(fields[i].key, Canon(fields[i].value)) == Canon(Redact(fields[i].key, fields[i].value))
    ensures Redact(key, Canon(Obj(fields))) == Canon(Redact(key, Obj(fields)))
  {
    SortedCommutes(fields);
    assert Canon(Obj(fields)) == Obj(Sort(FieldLess, CanonFields(fields)));
    assert Canon(Obj(RedactFields(fields))) == Obj(Sort(FieldLess, CanonFields(RedactFields(fields))));
  }

  lemma {:induction false} SortedCommutes(fields: seq<Field>)
    requires forall i | 0 <= i < |fields| ::
               Redact(fields[i].key, Canon(fields[i].value)) == Canon(Redact(fields[i].key, fields[i].value))
    ensures RedactFields(Sort(FieldLess, CanonFields(fields))) == Sort(FieldLess, CanonFields(RedactFields(fields)))
  {
    FieldsCommute(fields);
    RedactFieldsSort(CanonFields(fields));
  }

  /** Redacting before or after canonicalizing makes no difference. */
  lemma {:induction false} RedactCommutesWithCanon(key: string, v: Json)
    ensures Redact(key, Canon(v)) == Canon(Redact(key, v))
    decreases v
  {
    match v
    case Arr(items) =>
      forall i | 0 <= i < |items| ensures Redact(key, Canon(items[i])) == Canon(Redact(key, items[i])) {
        RedactCommutesWithCanon(key, items[i]);
      }
      ArrayCommutes(key, items);
    case Obj(fields) =>
      forall i | 0 <= i < |fields|
        ensures Redact(fields[i].key, Canon(fields[i].value)) == Canon(Redact(fields[i].key, fields[i].value))
      {
        RedactCommutesWithCanon(fields[i].key, fields[i].value);
      }
      ObjectCommutes(key, fields);
    case _ =>
  }

  /** A redacted value is hashable exactly when the original is. */
  lemma {:induction false} RedactPlain(key: string, v: Json)
    requires Ordinary(v)
    ensures Ordinary(Redact(key, v))
    ensures Hashable(Redact(key, v)) <==> Hashable(v)
    decreases v
  {
    match v
    case Arr(items) =>
      forall i | 0 <= i < |items|
        ensures RedactItems(key, items)[i] == Redact(key, items[i])
        ensures Ordinary(Redact(key, items[i])) && (Hashable(Redact(key, items[i])) <==> Hashable(items[i]))
      {
        RedactItemsAt(key, items, i);
        RedactPlain(key, items[i]);
      }
    case Obj(fields) =>
      forall i | 0 <= i < |fields|
        ensures RedactFields(fields)[i] == Field(fields[i].key, Redact(fields[i].key, fields[i].value))
        ensures Ordinary(RedactFields(fields)[i].value)
        ensures Hashable(RedactFields(fields)[i].value) <==> Hashable(fields[i].value)
      {
        RedactFieldsAt(fields, i);
        RedactPlain(fields[i].key, fields[i].value);
      }
    case _ =>
  }
}
