/** internal/codec/json_value.go: what becomes of each number, and how strings are written. */
module JsonTexts {
  import opened Text
  import opened Json
  import opened JsonProofs
  import StringOrder

  // ---------- Numbers ----------

  predicate StartsExponent(c: char) {
    c == 'e' || c == 'E'
  }

  /** A digit '1'..'9' before the exponent. */
  ghost predicate Significant(t: string) {
    exists i :: 0 <= i < |t| && '1' <= t[i] <= '9' && forall j | 0 <= j < i :: !StartsExponent(t[j])
  }

  /** A number text that says zero with a minus sign. */
  ghost predicate MinusZero(t: string) {
    t != "" && t[0] == '-' && !Significant(t)
  }

  /** Digits and points up to the exponent. */
  predicate Unsigned(t: string) {
    t == "" || StartsExponent(t[0]) || ((IsDigit(t[0]) || t[0] == '.') && Unsigned(t[1..]))
  }

  lemma {:induction false} DigitsUnsigned(t: string)
    requires Unsigned(SkipDigits(t))
    ensures Unsigned(t)
  {
    if t != "" && IsDigit(t[0]) { DigitsUnsigned(t[1..]); }
  }

  lemma Digits1Unsigned(t: string)
    requires SkipDigits1(t).Some? && Unsigned(SkipDigits1(t).value)
    ensures Unsigned(t)
  {
    DigitsUnsigned(t[1..]);
  }

  lemma NumberUnsigned(t: string)
    requires SkipUnsigned(t) == Some("")
    ensures t != "" && IsDigit(t[0]) && Unsigned(t)
  {
    var a := SkipInteger(t).value;
    var b := SkipFraction(a).value;
    assert Unsigned(b);
    if a != b { Digits1Unsigned(a[1..]); }
    if t[0] != '0' { DigitsUnsigned(t[1..]); }
  }

  lemma SignificantHead(t: string)
    requires t != ""
    ensures Significant(t) <==> '1' <= t[0] <= '9' || (!StartsExponent(t[0]) && Significant(t[1..]))
  {
    if Significant(t) {
      var i :| 0 <= i < |t| && '1' <= t[i] <= '9' && forall j | 0 <= j < i :: !StartsExponent(t[j]);
      if i > 0 {
        assert t[1..][i - 1] == t[i] && !StartsExponent(t[0]);
        assert forall j | 0 <= j < i - 1 :: t[1..][j] == t[j + 1];
      }
    }
    if !StartsExponent(t[0]) && Significant(t[1..]) {
      var u := t[1..];
      var i :| 0 <= i < |u| && '1' <= u[i] <= '9' && forall j | 0 <= j < i :: !StartsExponent(u[j]);
      assert t[i + 1] == u[i] && forall j | 1 <= j < i + 1 :: t[j] == u[j - 1];
    }
  }

  predicate Zeros(t: string) {
    forall c | c in t :: c == '0'
  }

  lemma ZerosHead(c: char, rest: string)
    ensures Zeros([c] + rest) <==> c == '0' && Zeros(rest)
  {
    var t := [c] + rest;
    assert t[0] == c && c in t;
    forall d | d in rest ensures d in t {
      var i :| 0 <= i < |rest| && rest[i] == d;
      assert t[i + 1] == d;
    }
    if c == '0' && Zeros(rest) {
      forall d | d in t ensures d == '0' {
        var i :| 0 <= i < |t| && t[i] == d;
        if i > 0 { assert rest[i - 1] == d && d in rest; }
      }
    }
  }

  lemma {:induction false} MantissaIsZero(t: string)
    requires Unsigned(t)
    ensures Zeros(Mantissa(t)) <==> !Significant(t)
    decreases |t|
  {
    if t != "" {
      SignificantHead(t);
      if !StartsExponent(t[0]) {
        MantissaIsZero(t[1..]);
        ZerosHead(t[0], Mantissa(t[1..]));
      }
    }
  }

  /** Among numbers, those rewritten are the zeros with a minus sign. */
  lemma RewrittenNumbers(t: string)
    requires IsNumber(t)
    ensures NormalizeNumber(t) == if MinusZero(t) then "0" else t
  {
    if t[0] == '-' {
      NumberUnsigned(t[1..]);
      MantissaIsZero(t[1..]);
      SignificantHead(t);
      assert Mantissa(t[1..]) == [t[1]] + Mantissa(t[1..][1..]);
    }
  }

  /** A number text is decoded as it stands, unless it is a zero with a minus sign. */
  lemma NumberDecodes(t: string)
    requires IsNumber(t)
    ensures Decode(t) == Ok(Number(if MinusZero(t) then "0" else t))
  {
    assert t + "" == t && t[..|t|] == t;
    NumberScalar(t, "");
    ScalarStep(t, 0, ParseScalar(t));
    RewrittenNumbers(t);
  }

  /** No number in the value is a zero with a minus sign. */
  ghost predicate NoMinusZero(v: Value) {
    match v
    case Number(t) => !MinusZero(t)
    case Array(items) => forall i | 0 <= i < |items| :: NoMinusZero(items[i])
    case Object(m) => forall k | k in m :: NoMinusZero(m[k])
    case _ => true
  }

  lemma {:induction false} NormalExactly(v: Value)
    requires Valid(v)
    ensures Normalize(v) == v <==> NoMinusZero(v)
    decreases v
  {
    match v {
      case Number(t) => RewrittenNumbers(t);
      case Array(items) => forall i | 0 <= i < |items| { NormalExactly(items[i]); }
        if forall i | 0 <= i < |items| :: NoMinusZero(items[i]) { assert NormalizeItems(items) == items; }
      case Object(m) => forall k | k in m { NormalExactly(m[k]); }
      case _ =>
    }
  }

  /** A value comes back as itself exactly when no number in it is a zero with a minus sign. */
  lemma RoundTripIsIdentity(v: Value)
    requires Valid(v) && Fits(v, 0)
    ensures Encode(v).Ok? && (Decode(Encode(v).value) == Ok(v) <==> NoMinusZero(v))
  {
    RoundTrip(v);
    NormalExactly(v);
  }

  // ---------- Strings ----------

  /** Written as itself between the quotes. */
  predicate Verbatim(c: char) {
    c >= ' ' && c != '"' && c != '\\' && c != '\U{2028}' && c != '\U{2029}'
  }

  lemma {:induction false} EscapeAppend(a: string, b: string)
    ensures Escape(a + b) == Escape(a) + Escape(b)
    decreases |a|
  {
    if a == "" {
      assert a + b == b;
    } else {
      assert (a + b)[0] == a[0] && (a + b)[1..] == a[1..] + b;
      EscapeAppend(a[1..], b);
    }
  }

  lemma {:induction false} VerbatimText(s: string)
    requires forall c | c in s :: Verbatim(c)
    ensures Escape(s) == s
  {
    if s != "" {
      assert s[0] in s;
      VerbatimOne(s[0]);
      hide EscapeChar, Verbatim;
      VerbatimText(s[1..]);
      assert s == [s[0]] + s[1..];
    }
  }

  lemma VerbatimOne(c: char)
    requires Verbatim(c)
    ensures EscapeChar(c) == [c]
  {
  }

  /** The two-character escapes of RFC 8259, section 7, that are used, and the two line separators. */
  lemma NamedEscapes()
    ensures Escape("\"") == "\\\"" && Escape("\\") == "\\\\"
    ensures Escape("\n") == "\\n" && Escape("\r") == "\\r" && Escape("\t") == "\\t"
    ensures Escape("\U{0008}") == "\\b" && Escape("\U{000C}") == "\\f"
    ensures Escape("\U{2028}") == "\\u2028" && Escape("\U{2029}") == "\\u2029"
  {
    EscapeOne('"');
    EscapeOne('\\');
    EscapeOne('\n');
    EscapeOne('\r');
    EscapeOne('\t');
    EscapeOne('\U{0008}');
    EscapeOne('\U{000C}');
    EscapeOne('\U{2028}');
    EscapeOne('\U{2029}');
    hide Escape;
  }

  lemma EscapeOne(c: char)
    ensures Escape([c]) == EscapeChar(c)
  {
    assert [c][1..] == "" && EscapeChar(c) + "" == EscapeChar(c);
  }

  /** Any other control character is written as its code, with lower-case digits. */
  lemma ControlEscape(c: char)
    requires c < ' ' && c !in {'\n', '\r', '\t', '\U{0008}', '\U{000C}'}
    ensures var e := Escape([c]);
      |e| == 6 && e[..4] == "\\u00" && Hex4(e[2..]) == Some(c as int) && !('A' <= e[4] <= 'F') && !('A' <= e[5] <= 'F')
  {
    assert [c][1..] == "" && Escape([c]) == EscapeChar(c) + "" == EscapeChar(c);
    var n := c as int;
    HexRoundTrip(n / 16);
    HexRoundTrip(n % 16);
    var e := EscapeChar(c);
    assert e[2..] == ['0', '0', HexDigit(n / 16), HexDigit(n % 16)];
    hide HexDigit;
  }

  /** A string is written character by character between quotes, most characters as themselves. */
  lemma StringText(s: string)
    ensures Encode(String(s)) == Ok("\"" + Escape(s) + "\"\n")
    ensures (forall c | c in s :: Verbatim(c)) ==> Encode(String(s)) == Ok("\"" + s + "\"\n")
  {
    assert "\"" + Escape(s) + "\"" + "\n" == "\"" + Escape(s) + "\"\n";
    if forall c | c in s :: Verbatim(c) { VerbatimText(s); }
    hide Escape;
  }

  // ---------- Arrays and objects ----------

  lemma {:induction false} FitsHigher(v: Value, depth: nat)
    requires Fits(v, depth + 1)
    ensures Fits(v, depth)
    decreases v
  {
    match v {
      case Array(items) => forall i | 0 <= i < |items| { FitsHigher(items[i], depth + 1); }
      case Object(m) => forall k | k in m { FitsHigher(m[k], depth + 1); }
      case _ =>
    }
  }

  /** The parts with a comma between each two. */
  function Commas(parts: seq<string>): (t: string) {
    if parts == [] then "" else if |parts| == 1 then parts[0] else parts[0] + "," + Commas(parts[1..])
  }

  lemma {:induction false} ItemsAre(items: seq<Value>, texts: seq<string>)
    requires |texts| == |items| && forall i | 0 <= i < |items| :: texts[i] == Encoding(items[i])
    ensures ItemsEncoding(items, false) == Commas(texts)
    ensures items != [] ==> ItemsEncoding(items, true) == "," + Commas(texts)
    decreases |items|
  {
    hide Encoding;
    if items != [] {
      ItemsAre(items[1..], texts[1..]);
      if |items| == 1 { assert items[1..] == [] && texts[0] + "" == texts[0]; }
    }
  }

  /** An array is its items' texts between brackets, in order, with commas between them. */
  lemma ArrayText(items: seq<Value>) returns (texts: seq<string>)
    requires Encode(Array(items)).Ok?
    ensures |texts| == |items|
    ensures forall i | 0 <= i < |items| :: Encode(items[i]) == Ok(texts[i] + "\n")
    ensures Encode(Array(items)) == Ok("[" + Commas(texts) + "]\n")
  {
    forall i | 0 <= i < |items| { FitsHigher(items[i], 0); }
    texts := seq(|items|, i requires 0 <= i < |items| => Encoding(items[i]));
    ItemsAre(items, texts);
    assert "[" + Commas(texts) + "]" + "\n" == "[" + Commas(texts) + "]\n";
  }

  /** `a` comes before `b`: at the first place where they differ its character is smaller, or it ends there. */
  predicate Before(a: string, b: string) {
    exists i :: 0 <= i <= |a| && i < |b| && a[..i] == b[..i] && (i == |a| || a[i] < b[i])
  }

  lemma {:induction false} BelowIsBefore(a: string, b: string)
    ensures StringOrder.Below(a, b) ==> Before(a, b)
    decreases |a|
  {
    if StringOrder.Below(a, b) {
      if a != "" && a[0] == b[0] {
        BelowIsBefore(a[1..], b[1..]);
        var u, v := a[1..], b[1..];
        var i :| 0 <= i <= |u| && i < |v| && u[..i] == v[..i] && (i == |u| || u[i] < v[i]);
        assert a[..i + 1] == [a[0]] + u[..i] && b[..i + 1] == [b[0]] + v[..i];
        assert i + 1 == |a| || a[i + 1] < b[i + 1];
      } else {
        assert a[..0] == b[..0];
      }
    }
  }

  lemma {:induction false} MembersAre(keys: seq<string>, v: Value, texts: seq<string>)
    requires v.Object? && (forall k | k in keys :: k in v.fields) && |texts| == |keys|
    requires forall i | 0 <= i < |keys| ::
      keys[i] in v.fields && texts[i] == Quote(keys[i]) + ":" + Encoding(v.fields[keys[i]])
    ensures MembersEncoding(keys, v, false) == Commas(texts)
    ensures keys != [] ==> MembersEncoding(keys, v, true) == "," + Commas(texts)
    decreases |keys|
  {
    hide Encoding, Quote;
    if keys != [] {
      var one, rest := Encoding(v.fields[keys[0]]), MembersEncoding(keys[1..], v, true);
      assert Quote(keys[0]) + ":" + (one + rest) == texts[0] + rest;
      MembersAre(keys[1..], v, texts[1..]);
      if |keys| == 1 { assert keys[1..] == [] && texts[0] + "" == texts[0]; }
    }
  }

  lemma SortedIsBefore(m: map<string, Value>) returns (keys: seq<string>)
    ensures keys == StringOrder.Sorted(m.Keys) && forall k :: k in keys <==> k in m
    ensures forall i, j | 0 <= i < j < |keys| :: Before(keys[i], keys[j])
  {
    StringOrder.SortedLists(m.Keys);
    hide StringOrder.Below, StringOrder.Sorted, Before;
    keys := StringOrder.Sorted(m.Keys);
    forall i, j | 0 <= i < j < |keys| ensures Before(keys[i], keys[j]) { BelowIsBefore(keys[i], keys[j]); }
  }

  /** Each member: a quoted key, a colon, the value's text. */
  function Members(keys: seq<string>, texts: seq<string>): (members: seq<string>)
    requires |texts| == |keys|
    ensures |members| == |keys|
  {
    seq(|keys|, i requires 0 <= i < |keys| => "\"" + Escape(keys[i]) + "\":" + texts[i])
  }

  ghost function TextsOf(m: map<string, Value>, keys: seq<string>): (texts: seq<string>)
    requires forall k | k in keys :: k in m
    ensures |texts| == |keys| && forall i | 0 <= i < |keys| :: keys[i] in m && texts[i] == Encoding(m[keys[i]])
  {
    if keys == [] then [] else [Encoding(m[keys[0]])] + TextsOf(m, keys[1..])
  }

  lemma MembersQuote(m: map<string, Value>, keys: seq<string>)
    requires forall k | k in keys :: k in m
    ensures forall i | 0 <= i < |keys| ::
      keys[i] in m && Members(keys, TextsOf(m, keys))[i] == Quote(keys[i]) + ":" + Encoding(m[keys[i]])
  {
    hide Escape, Encoding, TextsOf;
    forall i | 0 <= i < |keys|
      ensures keys[i] in m && Members(keys, TextsOf(m, keys))[i] == Quote(keys[i]) + ":" + Encoding(m[keys[i]])
    {
      assert "\"" + Escape(keys[i]) + "\":" == Quote(keys[i]) + ":";
    }
  }

  lemma Braced(t: string)
    ensures "{" + t + "}" + "\n" == "{" + t + "}\n"
  {
  }

  /** An object is its members between braces, with commas between them, in ascending order of their keys and each
      key once. */
  lemma ObjectText(m: map<string, Value>) returns (keys: seq<string>, texts: seq<string>)
    requires Encode(Object(m)).Ok?
    ensures (forall k :: k in keys <==> k in m) && |texts| == |keys|
    ensures forall i, j | 0 <= i < j < |keys| :: Before(keys[i], keys[j])
    ensures forall i | 0 <= i < |keys| :: keys[i] in m && Encode(m[keys[i]]) == Ok(texts[i] + "\n")
    ensures Encode(Object(m)) == Ok("{" + Commas(Members(keys, texts)) + "}\n")
  {
    MembersEncode(m);
    EncodesTo(Object(m));
    keys := SortedIsBefore(m);
    hide *;
    texts := TextsOf(m, keys);
    MembersQuote(m, keys);
    MembersAre(keys, Object(m), Members(keys, texts));
    Braced(Commas(Members(keys, texts)));
  }

  lemma MembersEncode(m: map<string, Value>)
    requires Encode(Object(m)).Ok?
    ensures forall k | k in m :: Encode(m[k]) == Ok(Encoding(m[k]) + "\n")
  {
    hide Encoding;
    forall k | k in m { FitsHigher(m[k], 0); }
  }

  lemma EncodesTo(v: Value)
    requires Encode(v).Ok? && v.Object?
    ensures (forall k | k in StringOrder.Sorted(v.fields.Keys) :: k in v.fields)
    ensures Encode(v) == Ok("{" + MembersEncoding(StringOrder.Sorted(v.fields.Keys), v, false) + "}" + "\n")
  {
    StringOrder.SortedLists(v.fields.Keys);
  }
}
