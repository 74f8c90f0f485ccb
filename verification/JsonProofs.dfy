/** Round trip, injectivity and idempotence of the canonical JSON codec. */
module JsonProofs {
  import opened Text
  import opened StringOrder
  import opened Json

  // ---------- Numbers ----------

  /** What may follow a number without being read as part of it. */
  predicate Delimited(t: string) {
    t == "" || !(IsDigit(t[0]) || t[0] in {'.', 'e', 'E'})
  }

  lemma {:induction false} SkipDigitsAppend(a: string, b: string)
    requires b == "" || !IsDigit(b[0])
    ensures SkipDigits(a + b) == SkipDigits(a) + b
  {
    if a == "" {
      assert a + b == b;
    } else {
      assert (a + b)[1..] == a[1..] + b;
      SkipDigitsAppend(a[1..], b);
    }
  }

  lemma SkipDigits1Append(a: string, b: string)
    requires b == "" || !IsDigit(b[0])
    requires SkipDigits1(a).Some?
    ensures SkipDigits1(a + b) == Some(SkipDigits1(a).value + b)
  {
    assert (a + b)[1..] == a[1..] + b;
    SkipDigitsAppend(a[1..], b);
  }

  lemma SkipIntegerAppend(a: string, b: string)
    requires SkipInteger(a).Some? && Delimited(b)
    ensures SkipInteger(a + b) == Some(SkipInteger(a).value + b)
  {
    assert (a + b)[1..] == a[1..] + b;
    SkipDigitsAppend(a[1..], b);
  }

  lemma SkipUnsignedAppend(a: string, b: string)
    requires SkipUnsigned(a).Some? && Delimited(b)
    ensures SkipUnsigned(a + b) == Some(SkipUnsigned(a).value + b)
  {
    var f := SkipInteger(a).value;
    var e := SkipFraction(f).value;
    assert SkipInteger(a + b) == Some(f + b) by { SkipIntegerAppend(a, b); }
    assert SkipFraction(f + b) == Some(e + b) by { SkipFractionAppend(f, b); }
    assert SkipExponent(e + b) == Some(SkipExponent(e).value + b) by { SkipExponentAppend(e, b); }
  }

  lemma SkipNumberAppend(a: string, b: string)
    requires SkipNumber(a).Some? && Delimited(b)
    ensures SkipNumber(a + b) == Some(SkipNumber(a).value + b)
  {
    if a[0] == '-' {
      assert (a + b)[0] == '-' && (a + b)[1..] == a[1..] + b;
      SkipUnsignedAppend(a[1..], b);
    } else {
      assert (a + b)[0] != '-';
      SkipUnsignedAppend(a, b);
    }
  }

  lemma SkipFractionAppend(a: string, b: string)
    requires SkipFraction(a).Some? && Delimited(b)
    ensures SkipFraction(a + b) == Some(SkipFraction(a).value + b)
  {
    if a == "" {
      assert a + b == b;
    } else if a[0] == '.' {
      assert (a + b)[1..] == a[1..] + b;
      SkipDigits1Append(a[1..], b);
    }
  }

  lemma SkipExponentAppend(a: string, b: string)
    requires SkipExponent(a).Some? && Delimited(b)
    ensures SkipExponent(a + b) == Some(SkipExponent(a).value + b)
  {
    if a == "" {
      assert a + b == b;
    } else if a[0] in {'e', 'E'} {
      assert (a + b)[1..] == a[1..] + b;
      if |a| > 1 && a[1] in {'+', '-'} {
        assert (a + b)[2..] == a[2..] + b;
        SkipDigits1Append(a[2..], b);
      } else {
        SkipDigits1Append(a[1..], b);
      }
    }
  }

  lemma {:induction false} SkipDigitsCut(a: string, b: string, r: string)
    requires SkipDigits(a + b) == r + b
    ensures SkipDigits(a) == r
  {
    if a == "" {
      assert a + b == b;
    } else {
      assert (a + b)[1..] == a[1..] + b;
      if IsDigit(a[0]) {
        SkipDigitsCut(a[1..], b, r);
      } else {
        assert a == (a + b)[..|a|] && r == (r + b)[..|r|];
      }
    }
  }

  lemma SkipDigits1Cut(a: string, b: string, r: string)
    requires SkipDigits1(a + b) == Some(r + b)
    ensures SkipDigits1(a) == Some(r)
  {
    assert a != "";
    assert (a + b)[1..] == a[1..] + b;
    SkipDigitsCut(a[1..], b, r);
  }

  predicate Suffix(r: string, t: string) {
    |r| <= |t| && t[|t| - |r|..] == r
  }

  lemma TailSuffix(t: string, n: nat)
    requires n <= |t|
    ensures Suffix(t[n..], t)
  {
  }

  lemma SuffixTransitive(r: string, u: string, t: string)
    requires Suffix(r, u) && Suffix(u, t)
    ensures Suffix(r, t)
  {
    assert t[|t| - |r|..] == t[|t| - |u|..][|u| - |r|..];
  }

  lemma {:induction false} SkipDigitsSuffix(t: string)
    ensures Suffix(SkipDigits(t), t)
  {
    hide Suffix;
    TailSuffix(t, 0);
    assert t[0..] == t;
    if t != "" && IsDigit(t[0]) {
      SkipDigitsSuffix(t[1..]);
      TailSuffix(t, 1);
      SuffixTransitive(SkipDigits(t[1..]), t[1..], t);
    }
  }

  lemma Digits1Suffix(t: string)
    requires SkipDigits1(t).Some?
    ensures Suffix(SkipDigits1(t).value, t)
  {
    hide Suffix, SkipDigits;
    SkipDigitsSuffix(t[1..]);
    TailSuffix(t, 1);
    SuffixTransitive(SkipDigits(t[1..]), t[1..], t);
  }

  lemma SkipIntegerSuffix(t: string)
    requires SkipInteger(t).Some?
    ensures Suffix(SkipInteger(t).value, t)
  {
    hide Suffix, SkipDigits;
    SkipDigitsSuffix(t[1..]);
    TailSuffix(t, 1);
    SuffixTransitive(SkipDigits(t[1..]), t[1..], t);
  }

  /** What is left after digits that follow `n` other characters. */
  lemma Digits1SuffixAt(t: string, n: nat)
    requires n <= |t| && SkipDigits1(t[n..]).Some?
    ensures Suffix(SkipDigits1(t[n..]).value, t)
  {
    hide Suffix, SkipDigits1;
    Digits1Suffix(t[n..]);
    TailSuffix(t, n);
    SuffixTransitive(SkipDigits1(t[n..]).value, t[n..], t);
  }

  lemma SkipFractionSuffix(t: string)
    requires SkipFraction(t).Some?
    ensures Suffix(SkipFraction(t).value, t)
  {
    hide Suffix, SkipDigits1;
    TailSuffix(t, 0);
    assert t[0..] == t;
    if t != "" && t[0] == '.' { Digits1SuffixAt(t, 1); }
  }

  lemma SkipExponentSuffix(t: string)
    requires SkipExponent(t).Some?
    ensures Suffix(SkipExponent(t).value, t)
  {
    hide Suffix, SkipDigits1;
    TailSuffix(t, 0);
    assert t[0..] == t;
    if t != "" && t[0] in {'e', 'E'} { Digits1SuffixAt(t, if |t| > 1 && t[1] in {'+', '-'} then 2 else 1); }
  }

  lemma SkipNumberSuffix(t: string)
    requires SkipNumber(t).Some?
    ensures Suffix(SkipNumber(t).value, t)
  {
    hide Suffix, SkipInteger, SkipFraction, SkipExponent;
    TailSuffix(t, 0);
    assert t[0..] == t;
    if t[0] == '-' { TailSuffix(t, 1); }
    var s := if t[0] == '-' then t[1..] else t;
    var u1 := SkipInteger(s).value;
    var u2 := SkipFraction(u1).value;
    SkipIntegerSuffix(s);
    SkipFractionSuffix(u1);
    SkipExponentSuffix(u2);
    SuffixTransitive(SkipExponent(u2).value, u2, u1);
    SuffixTransitive(SkipExponent(u2).value, u1, s);
    SuffixTransitive(SkipExponent(u2).value, s, t);
  }

  lemma SuffixSplit(a: string, b: string, u: string) returns (r: string)
    requires |b| <= |u| && Suffix(u, a + b)
    ensures u == r + b && |r| <= |a|
  {
    r := a[|a| - (|u| - |b|)..];
    assert (a + b)[|a + b| - |u|..] == r + b;
  }

  lemma SkipIntegerCut(a: string, b: string, r: string)
    requires SkipInteger(a + b) == Some(r + b)
    ensures SkipInteger(a) == Some(r)
  {
    assert a != "";
    assert (a + b)[1..] == a[1..] + b;
    if a[0] == '0' {
      AppendCancel(r, a[1..], b);
    } else {
      SkipDigitsCut(a[1..], b, r);
    }
  }

  /** Cutting the input where a number ended leaves a number. */
  lemma SkipUnsignedCut(a: string, b: string)
    requires SkipUnsigned(a + b) == Some(b)
    ensures SkipUnsigned(a) == Some("")
  {
    hide SkipInteger, SkipFraction, SkipExponent;
    var u1 := SkipInteger(a + b).value;
    var u2 := SkipFraction(u1).value;
    SkipIntegerSuffix(a + b);
    SkipFractionSuffix(u1);
    var r1 := SuffixSplit(a, b, u1);
    var r2 := SuffixSplit(r1, b, u2);
    assert "" + b == b;
    assert SkipInteger(a) == Some(r1) by { SkipIntegerCut(a, b, r1); }
    assert SkipFraction(r1) == Some(r2) by { SkipFractionCut(r1, b, r2); }
    assert SkipExponent(r2) == Some("") by { SkipExponentCut(r2, b, ""); }
  }

  lemma AppendCancel(x: string, y: string, b: string)
    requires x + b == y + b
    ensures x == y
  {
    assert |x| == |y|;
    assert x == (x + b)[..|x|] && y == (y + b)[..|y|];
  }

  lemma SkipFractionCut(a: string, b: string, r: string)
    requires SkipFraction(a + b) == Some(r + b) && |r| <= |a|
    ensures SkipFraction(a) == Some(r)
  {
    if a == "" {
    } else if a[0] == '.' {
      assert (a + b)[1..] == a[1..] + b;
      SkipDigits1Cut(a[1..], b, r);
    } else {
      AppendCancel(a, r, b);
    }
  }

  lemma SkipExponentCut(a: string, b: string, r: string)
    requires SkipExponent(a + b) == Some(r + b) && |r| <= |a|
    ensures SkipExponent(a) == Some(r)
  {
    if a == "" {
    } else if a[0] in {'e', 'E'} {
      assert (a + b)[1..] == a[1..] + b;
      if |a + b| > 1 && (a + b)[1] in {'+', '-'} {
        assert |a| > 1;
        assert (a + b)[2..] == a[2..] + b;
        SkipDigits1Cut(a[2..], b, r);
      } else {
        SkipDigits1Cut(a[1..], b, r);
      }
    } else {
      AppendCancel(a, r, b);
    }
  }

  lemma NumberTokenIsNumber(t: string)
    requires SkipNumber(t).Some?
    ensures IsNumber(t[..|t| - |SkipNumber(t).value|])
  {
    var b := SkipNumber(t).value;
    var a := t[..|t| - |b|];
    SkipNumberSuffix(t);
    assert t == a + b;
    if t[0] == '-' {
      assert t[1..] == a[1..] + b;
      SkipUnsignedCut(a[1..], b);
    } else {
      SkipUnsignedCut(a, b);
    }
  }

  lemma NormalizeNumberValid(t: string)
    requires IsNumber(t)
    ensures IsNumber(NormalizeNumber(t))
    ensures NormalizeNumber(NormalizeNumber(t)) == NormalizeNumber(t)
    ensures NormalizeNumber(t)[0] == '-' || IsDigit(NormalizeNumber(t)[0])
  {
  }

  // ---------- Strings ----------

  lemma HexRoundTrip(n: nat)
    requires n < 16
    ensures HexValue(HexDigit(n)) == Some(n)
  {
  }

  lemma EscapeShape(c: char, rest: string)
    ensures var e := EscapeChar(c);
      if e == [c] then c >= ' ' && c != '"' && c != '\\'
      else e != "" && e[0] == '\\' && Unescape(e[1..] + rest) == Some((c, rest))
  {
    var e := EscapeChar(c);
    if e != [c] {
      var u := e[1..] + rest;
      if |e| == 2 {
        assert u[1..] == rest;
      } else {
        assert |e| == 6 && u[5..] == rest;
        assert u[1..][0] == e[2] && u[1..][1] == e[3] && u[1..][2] == e[4] && u[1..][3] == e[5];
        if c < ' ' {
          HexRoundTrip(c as int / 16);
          HexRoundTrip(c as int % 16);
        }
      }
    }
  }

  lemma {:induction false} QuoteParses(s: string, rest: string)
    ensures ParseChars(Escape(s) + "\"" + rest) == Some((s, rest))
  {
    if s == "" {
      assert Escape(s) + "\"" + rest == "\"" + rest;
    } else {
      var e := EscapeChar(s[0]);
      var tail := Escape(s[1..]) + "\"" + rest;
      QuoteParses(s[1..], rest);
      assert Escape(s) + "\"" + rest == e + tail;
      assert [s[0]] + s[1..] == s;
      hide Escape;
      CharParses(s[0], tail, s[1..], rest);
    }
  }

  /** One escaped character in front of the rest of a string. */
  lemma CharParses(c: char, tail: string, s: string, rest: string)
    requires ParseChars(tail) == Some((s, rest))
    ensures ParseChars(EscapeChar(c) + tail) == Some(([c] + s, rest))
  {
    var e := EscapeChar(c);
    EscapeShape(c, tail);
    assert (e + tail)[1..] == e[1..] + tail;
    hide EscapeChar, Unescape;
  }

  // ---------- Round trip ----------

  lemma EncodingStarts(v: Value)
    requires Valid(v)
    ensures Encoding(v) != "" && !IsBlank(Encoding(v)[0]) && Encoding(v)[0] !in {',', ']', '}', ':'}
  {
    match v
    case Number(t) => NormalizeNumberValid(t);
    case _ =>
  }

  lemma ScalarStep(t: string, depth: nat, r: Parsed<Value>)
    requires depth <= MAX_DEPTH && t != "" && !IsBlank(t[0]) && t[0] !in {'[', '{'}
    requires r == ParseScalar(t)
    ensures ParseValue(t, depth) == r
  {
  }

  lemma NumberScalar(m: string, rest: string)
    requires m != "" && (m[0] == '-' || IsDigit(m[0]))
    requires SkipNumber(m + rest) == Some(rest)
    ensures ParseScalar(m + rest) == Ok((Number(NormalizeNumber(m)), rest))
  {
    var t := m + rest;
    assert t[..|t| - |rest|] == m;
    assert t[0] == m[0];
  }

  lemma NumberTextParses(m: string, depth: nat, rest: string)
    requires m != "" && (m[0] == '-' || IsDigit(m[0])) && depth <= MAX_DEPTH
    requires SkipNumber(m + rest) == Some(rest) && NormalizeNumber(m) == m
    ensures ParseValue(m + rest, depth) == Ok((Number(m), rest))
  {
    NumberScalar(m, rest);
    ScalarStep(m + rest, depth, ParseScalar(m + rest));
  }

  lemma NumberParses(n: string, depth: nat, rest: string)
    requires IsNumber(n) && Delimited(rest) && depth <= MAX_DEPTH
    ensures ParseValue(NormalizeNumber(n) + rest, depth) == Ok((Number(NormalizeNumber(n)), rest))
  {
    var m := NormalizeNumber(n);
    NormalizeNumberValid(n);
    SkipNumberAppend(m, rest);
    assert "" + rest == rest;
    NumberTextParses(m, depth, rest);
  }

  lemma StringParses(s: string, depth: nat, rest: string)
    requires depth <= MAX_DEPTH
    ensures ParseValue(Quote(s) + rest, depth) == Ok((String(s), rest))
  {
    hide Escape, ParseChars, SkipNumber, ParseValue;
    var t := Quote(s) + rest;
    QuoteParses(s, rest);
    assert t[1..] == Escape(s) + "\"" + rest;
    ScalarStep(t, depth, ParseScalar(t));
  }

  lemma LiteralParses(v: Value, depth: nat, rest: string)
    requires (v.Null? || v.Bool?) && depth <= MAX_DEPTH
    ensures ParseValue(Encoding(v) + rest, depth) == Ok((v, rest))
  {
    var word := Encoding(v);
    var t := word + rest;
    assert t[|word|..] == rest && StartsWith(t, word);
    assert t[0] == word[0];
    ScalarStep(t, depth, ParseScalar(t));
  }

  lemma Enclose(open: string, inner: string, close: string, rest: string)
    ensures open + inner + close + rest == open + (inner + close + rest)
  {
  }

  lemma ArrayParses(items: seq<Value>, depth: nat, rest: string)
    requires depth <= MAX_DEPTH
    requires ParseItems(ItemsEncoding(items, false) + "]" + rest, depth, []) == Ok(([] + NormalizeItems(items), rest))
    ensures ParseValue(Encoding(Array(items)) + rest, depth) == Ok((Normalize(Array(items)), rest))
  {
    assert [] + NormalizeItems(items) == NormalizeItems(items);
    Enclose("[", ItemsEncoding(items, false), "]", rest);
    ArrayStep(Encoding(Array(items)) + rest, ItemsEncoding(items, false) + "]" + rest, depth);
  }

  lemma ObjectParses(m: map<string, Value>, keys: seq<string>, depth: nat, rest: string)
    requires depth <= MAX_DEPTH && keys == Sorted(m.Keys) && Lists(keys, m.Keys)
    requires ParseMembers(MembersEncoding(keys, Object(m), false) + "}" + rest, depth, map[])
          == Ok((map[] + ReadFrom(Object(m), keys), rest))
    ensures ParseValue(Encoding(Object(m)) + rest, depth) == Ok((Normalize(Object(m)), rest))
  {
    var members := MembersEncoding(keys, Object(m), false);
    var t := "{" + members + "}" + rest;
    Enclose("{", members, "}", rest);
    ObjectStep(t, members + "}" + rest, depth);
    ObjectEncoding(m, keys);
    NormalizedObject(m, keys);
  }

  lemma ObjectEncoding(m: map<string, Value>, keys: seq<string>)
    requires keys == Sorted(m.Keys) && Lists(keys, m.Keys)
    ensures Encoding(Object(m)) == "{" + MembersEncoding(keys, Object(m), false) + "}"
  {
  }

  lemma NormalizedObject(m: map<string, Value>, keys: seq<string>)
    requires Lists(keys, m.Keys)
    ensures Normalize(Object(m)) == Object(map[] + ReadFrom(Object(m), keys))
  {
    assert map[] + ReadFrom(Object(m), keys) == (map k | k in m :: Normalize(m[k]));
  }

  /** Printing then parsing, in front of any continuation that cannot extend a number. */
  lemma {:induction false} ParseEncoding(v: Value, depth: nat, rest: string)
    requires Valid(v) && Fits(v, depth) && Delimited(rest)
    ensures ParseValue(Encoding(v) + rest, depth) == Ok((Normalize(v), rest))
    decreases v, 1
  {
    match v
    case Number(n) => NumberParses(n, depth, rest);
    case String(s) => StringParses(s, depth, rest);
    case Array(items) =>
      ParseItemsEncoding(items, depth, [], rest);
      ArrayParses(items, depth, rest);
    case Object(m) =>
      var keys := Sorted(m.Keys);
      SortedLists(m.Keys);
      ParseMembersEncoding(keys, v, depth, map[], rest);
      ObjectParses(m, keys, depth, rest);
    case _ => LiteralParses(v, depth, rest);
  }

  lemma ArrayStep(t: string, inner: string, depth: nat)
    requires depth <= MAX_DEPTH && t == "[" + inner
    requires ParseItems(inner, depth, []).Ok?
    ensures var (items, rest) := ParseItems(inner, depth, []).value;
      ParseValue(t, depth) == Ok((Array(items), rest))
  {
    assert t[1..] == inner;
  }

  lemma ObjectStep(t: string, inner: string, depth: nat)
    requires depth <= MAX_DEPTH && t == "{" + inner
    requires ParseMembers(inner, depth, map[]).Ok?
    ensures var (m, rest) := ParseMembers(inner, depth, map[]).value;
      ParseValue(t, depth) == Ok((Object(m), rest))
  {
    assert t[1..] == inner;
  }

  lemma ItemsStep(t: string, start: string, depth: nat, read: seq<Value>, item: Value, rest: string)
    requires start != "" && !IsBlank(start[0]) && start[0] != ']'
    requires t == if read == [] then start else "," + start
    requires ParseValue(start, depth + 1) == Ok((item, rest))
    ensures ParseItems(t, depth, read) == ParseItems(rest, depth, read + [item])
  {
    assert SkipBlanks(t) == t;
    assert read != [] ==> t[1..] == start;
  }

  lemma {:induction false} ParseItemsEncoding(items: seq<Value>, depth: nat, read: seq<Value>, rest: string)
    requires forall i | 0 <= i < |items| :: Valid(items[i]) && Fits(items[i], depth + 1)
    ensures ParseItems(ItemsEncoding(items, read != []) + "]" + rest, depth, read)
         == Ok((read + NormalizeItems(items), rest))
    decreases items, 0
  {
    var t := ItemsEncoding(items, read != []) + "]" + rest;
    if items == [] {
      assert t == "]" + rest && read + [] == read;
      ItemsEnd(t, depth, read, rest);
    } else {
      var item := Normalize(items[0]);
      var start, after := ItemsTailStarts(items, read != [], rest);
      EncodingStarts(items[0]);
      ParseEncoding(items[0], depth + 1, after);
      ItemsStep(t, start, depth, read, item, after);
      ParseItemsEncoding(items[1..], depth, read + [item], rest);
      ItemsReadOn(items, read);
    }
  }

  lemma ItemsReadOn(items: seq<Value>, read: seq<Value>)
    requires items != []
    ensures read + [Normalize(items[0])] + NormalizeItems(items[1..]) == read + NormalizeItems(items)
  {
  }

  lemma ItemsEnd(t: string, depth: nat, read: seq<Value>, rest: string)
    requires t == "]" + rest
    ensures ParseItems(t, depth, read) == Ok((read, rest))
  {
    assert t[1..] == rest;
  }

  lemma ItemsTailStarts(items: seq<Value>, read: bool, rest: string) returns (start: string, after: string)
    requires items != []
    ensures after == ItemsEncoding(items[1..], true) + "]" + rest
    ensures Delimited(after) && start == Encoding(items[0]) + after
    ensures ItemsEncoding(items, read) + "]" + rest == if read then "," + start else start
  {
    var item, tail := Encoding(items[0]), ItemsEncoding(items[1..], true);
    after := tail + "]" + rest;
    start := item + after;
    assert ItemsEncoding(items, read) == (if read then "," else "") + (item + tail);
    Assembly(if read then "," else "", item, tail, "]", rest);
    assert "" + start == start;
  }

  lemma Assembly(comma: string, item: string, tail: string, close: string, rest: string)
    ensures comma + (item + tail) + close + rest == comma + (item + (tail + close + rest))
  {
  }

  lemma MembersStep(t: string, key: string, value: string, depth: nat, read: map<string, Value>, item: Value,
                    rest: string)
    requires key !in read && depth < MAX_DEPTH
    requires var start := Quote(key) + ":" + value;
      t == if read == map[] then start else "," + start
    requires ParseValue(value, depth + 1) == Ok((item, rest))
    ensures ParseMembers(t, depth, read) == ParseMembers(rest, depth, read[key := item])
  {
    var start := Quote(key) + ":" + value;
    var colon := ":" + value;
    KeyParses(key, colon);
    assert start == Quote(key) + colon;
    NoBlanks(t);
    NoBlanks(start);
    NoBlanks(colon);
    assert colon[1..] == value && (read != map[] ==> t[1..] == start);
    hide Quote, SkipBlanks, ParseKey, ParseValue;
  }

  lemma KeyParses(key: string, after: string)
    ensures ParseKey(Quote(key) + after) == Ok((key, after))
  {
    QuoteParses(key, after);
    hide Escape, ParseChars;
    assert (Quote(key) + after)[1..] == Escape(key) + "\"" + after;
  }

  lemma NoBlanks(t: string)
    requires t != "" && !IsBlank(t[0])
    ensures SkipBlanks(t) == t
  {
  }

  /** The decoded members under some keys. */
  ghost function ReadFrom(v: Value, keys: seq<string>): (m: map<string, Value>)
    requires v.Object? && forall k | k in keys :: k in v.fields
  {
    map k | k in keys :: Normalize(v.fields[k])
  }

  lemma {:induction false} ParseMembersEncoding(
    keys: seq<string>, v: Value, depth: nat, read: map<string, Value>, rest: string)
    requires v.Object? && Valid(v) && Fits(v, depth)
    requires Ascending(keys)
    requires forall k | k in keys :: k in v.fields && k !in read
    ensures ParseMembers(MembersEncoding(keys, v, read != map[]) + "}" + rest, depth, read)
         == Ok((read + ReadFrom(v, keys), rest))
    decreases v, 0, |keys|
  {
    hide ParseValue, SkipBlanks, Quote, Normalize, Below;
    var t := MembersEncoding(keys, v, read != map[]) + "}" + rest;
    if keys == [] {
      assert t == "}" + rest;
      MembersEnd(t, depth, read, rest);
      assert ReadFrom(v, keys) == map[] && read + map[] == read;
    } else {
      var key, item := keys[0], v.fields[keys[0]];
      var value, after := MembersTailStarts(keys, v, read != map[], rest);
      assert Valid(item) && Fits(item, depth + 1);
      ParseEncoding(item, depth + 1, after);
      MembersStep(t, key, value, depth, read, Normalize(item), after);
      BelowIrreflexive(keys, keys);
      var read' := read[key := Normalize(item)];
      ParseMembersEncoding(keys[1..], v, depth, read', rest);
      MembersReadOn(keys, v, read);
    }
  }

  lemma MembersEnd(t: string, depth: nat, read: map<string, Value>, rest: string)
    requires t == "}" + rest
    ensures ParseMembers(t, depth, read) == Ok((read, rest))
  {
    assert t[1..] == rest;
  }

  lemma MembersTailStarts(keys: seq<string>, v: Value, read: bool, rest: string) returns (value: string, after: string)
    requires v.Object? && keys != [] && forall k | k in keys :: k in v.fields
    ensures after == MembersEncoding(keys[1..], v, true) + "}" + rest
    ensures Delimited(after) && value == Encoding(v.fields[keys[0]]) + after
    ensures var start := Quote(keys[0]) + ":" + value;
      MembersEncoding(keys, v, read) + "}" + rest == if read then "," + start else start
  {
    var quoted, item, tail := Quote(keys[0]) + ":", Encoding(v.fields[keys[0]]), MembersEncoding(keys[1..], v, true);
    after := tail + "}" + rest;
    value := item + after;
    Assembly(quoted, item, tail, "}", rest);
    Assembly("", quoted, item + tail, "}", rest);
    Assembly(",", quoted, item + tail, "}", rest);
    Enclose(item, tail, "}", rest);
  }

  lemma MembersReadOn(keys: seq<string>, v: Value, read: map<string, Value>)
    requires v.Object? && keys != [] && forall k | k in keys :: k in v.fields && k !in read
    requires keys[0] !in keys[1..]
    ensures read[keys[0] := Normalize(v.fields[keys[0]])] + ReadFrom(v, keys[1..])
         == read + ReadFrom(v, keys)
  {
    assert keys == [keys[0]] + keys[1..];
  }

  /** decode(encode(v)) is v with negative zeros written "0", for every value the encoder accepts. */
  lemma RoundTrip(v: Value)
    requires Valid(v) && Fits(v, 0)
    ensures Encode(v).Ok? && Decode(Encode(v).value) == Ok(Normalize(v))
  {
    ParseEncoding(v, 0, "\n");
    assert SkipBlanks("\n") == "";
  }

  /** Equal canonical texts exactly when the values agree up to negative zero. */
  lemma EncodingInjective(a: Value, b: Value)
    requires Encode(a).Ok? && Encode(b).Ok?
    ensures Encode(a) == Encode(b) <==> Normalize(a) == Normalize(b)
  {
    RoundTrip(a);
    RoundTrip(b);
    if Normalize(a) == Normalize(b) {
      EncodingNormalized(a);
      EncodingNormalized(b);
    }
  }

  /** Negative zeros do not reach the output. */
  lemma {:induction false} EncodingNormalized(v: Value)
    requires Valid(v)
    ensures Encoding(Normalize(v)) == Encoding(v)
    decreases v, 1
  {
    match v
    case Number(t) => NormalizeNumberValid(t);
    case Array(items) => ItemsEncodingNormalized(items, false);
    case Object(m) =>
      SortedLists(m.Keys);
      assert Normalize(v).fields.Keys == m.Keys;
      MembersEncodingNormalized(Sorted(m.Keys), v, false);
    case _ =>
  }

  lemma {:induction false} ItemsEncodingNormalized(items: seq<Value>, comma: bool)
    requires forall i | 0 <= i < |items| :: Valid(items[i])
    ensures ItemsEncoding(NormalizeItems(items), comma) == ItemsEncoding(items, comma)
    decreases items, 0
  {
    if items != [] {
      EncodingNormalized(items[0]);
      ItemsEncodingNormalized(items[1..], true);
      assert NormalizeItems(items)[1..] == NormalizeItems(items[1..]);
    }
  }

  lemma {:induction false} MembersEncodingNormalized(keys: seq<string>, v: Value, comma: bool)
    requires v.Object? && Valid(v) && forall k | k in keys :: k in v.fields
    ensures Normalize(v).Object? && forall k | k in keys :: k in Normalize(v).fields
    ensures MembersEncoding(keys, Normalize(v), comma) == MembersEncoding(keys, v, comma)
    decreases v, 0, |keys|
  {
    if keys != [] {
      EncodingNormalized(v.fields[keys[0]]);
      MembersEncodingNormalized(keys[1..], v, true);
    }
  }

  // ---------- Accepted input ----------

  /** Everything the decoder returns is valid, within the depth limit, and free of negative zeros. */
  ghost predicate Canonical(v: Value, depth: nat) {
    Valid(v) && Fits(v, depth) && Normalize(v) == v
  }

  lemma ItemsCanonical(items: seq<Value>, depth: nat)
    requires depth <= MAX_DEPTH && forall i | 0 <= i < |items| :: Canonical(items[i], depth + 1)
    ensures Canonical(Array(items), depth)
  {
    assert NormalizeItems(items) == items;
  }

  lemma MembersCanonical(m: map<string, Value>, depth: nat)
    requires depth <= MAX_DEPTH && forall k | k in m :: Canonical(m[k], depth + 1)
    ensures Canonical(Object(m), depth)
  {
    assert (map k | k in m :: Normalize(m[k])) == m;
  }

  lemma ScalarCanonical(u: string, depth: nat)
    requires depth <= MAX_DEPTH && u != "" && ParseScalar(u).Ok?
    ensures Canonical(ParseScalar(u).value.0, depth)
  {
    hide SkipNumber, NegativeZero, ParseChars;
    if u[0] != '"' && !StartsWith(u, "null") && !StartsWith(u, "true") && !StartsWith(u, "false") {
      NumberTokenIsNumber(u);
      NormalizeNumberValid(u[..|u| - |SkipNumber(u).value|]);
    }
  }

  lemma {:induction false} ParsedIsCanonical(t: string, depth: nat)
    requires ParseValue(t, depth).Ok?
    ensures Canonical(ParseValue(t, depth).value.0, depth)
    decreases |t|, 1
  {
    hide Canonical, SkipBlanks, ParseItems, ParseMembers, ParseScalar;
    var u := SkipBlanks(t);
    if u[0] == '[' {
      ParsedItemsAreCanonical(u[1..], depth, []);
      ItemsCanonical(ParseItems(u[1..], depth, []).value.0, depth);
    } else if u[0] == '{' {
      ParsedMembersAreCanonical(u[1..], depth, map[]);
      MembersCanonical(ParseMembers(u[1..], depth, map[]).value.0, depth);
    } else {
      ScalarCanonical(u, depth);
    }
  }

  lemma {:induction false} ParsedItemsAreCanonical(t: string, depth: nat, items: seq<Value>)
    requires ParseItems(t, depth, items).Ok?
    requires forall i | 0 <= i < |items| :: Canonical(items[i], depth + 1)
    ensures var r := ParseItems(t, depth, items).value.0;
      forall i | 0 <= i < |r| :: Canonical(r[i], depth + 1)
    decreases |t|, 2
  {
    hide Canonical, SkipBlanks, ParseValue;
    var u := SkipBlanks(t);
    if u[0] != ']' {
      var start := if items == [] then u else u[1..];
      ParsedIsCanonical(start, depth + 1);
      var (item, rest) := ParseValue(start, depth + 1).value;
      ParsedItemsAreCanonical(rest, depth, items + [item]);
    }
  }

  lemma {:induction false} ParsedMembersAreCanonical(t: string, depth: nat, fields: map<string, Value>)
    requires ParseMembers(t, depth, fields).Ok?
    requires forall k | k in fields :: Canonical(fields[k], depth + 1)
    ensures var r := ParseMembers(t, depth, fields).value.0;
      forall k | k in r :: Canonical(r[k], depth + 1)
    decreases |t|, 2
  {
    hide Canonical, SkipBlanks, ParseValue, ParseKey;
    var u := SkipBlanks(t);
    if u[0] != '}' {
      var (key, after) := ParseKey(if fields == map[] then u else SkipBlanks(u[1..])).value;
      var colon := SkipBlanks(after);
      ParsedIsCanonical(colon[1..], depth + 1);
      var (item, rest) := ParseValue(colon[1..], depth + 1).value;
      ParsedMembersAreCanonical(rest, depth, fields[key := item]);
    }
  }

  /** Any accepted text re-encodes, to a text that decodes to the same value and re-encodes to itself. */
  lemma Idempotent(t: string)
    requires Decode(t).Ok?
    ensures var v := Decode(t).value;
      Encode(v).Ok? && Decode(Encode(v).value) == Ok(v) &&
      Encode(Decode(Encode(v).value).value) == Encode(v)
  {
    ParsedIsCanonical(t, 0);
    RoundTrip(Decode(t).value);
  }

  /** A text is canonical exactly when the encoder produces it from some value. */
  ghost predicate CanonicalText(t: string) {
    Decode(t).Ok? && Encode(Decode(t).value) == Ok(t)
  }

  lemma CanonicalTextsAreEncodings(t: string)
    ensures CanonicalText(t) <==> exists v :: Encode(v) == Ok(t)
  {
    if v :| Encode(v) == Ok(t) {
      RoundTrip(v);
      Idempotent(t);
      EncodingNormalized(v);
      assert Normalize(Normalize(v)) == Normalize(v) by { ParsedIsCanonical(t, 0); }
    }
    if CanonicalText(t) {
      assert Encode(Decode(t).value) == Ok(t);
    }
  }
}
