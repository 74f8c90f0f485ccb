/** internal/codec/json_value.go: the canonical JSON printer and the token parser (RFC 8259).
    `Encoding` and `ParseValue` specify the buffer writer and the token reader in JsonCodec.dfy. */
module Json {
  import opened Text
  import opened StringOrder

  datatype Value =
    | Null
    | Bool(flag: bool)
    | Number(text: string)
    | String(text: string)
    | Array(items: seq<Value>)
    | Object(fields: map<string, Value>)

  datatype Error = TooDeep | Syntax | DuplicateKey | Trailing | InvalidNumber

  const MAX_DEPTH := 100

  // ---------- Numbers ----------

  predicate IsDigit(c: char) {
    '0' <= c <= '9'
  }

  function SkipDigits(t: string): (r: string)
    ensures |r| <= |t|
  {
    if t != "" && IsDigit(t[0]) then SkipDigits(t[1..]) else t
  }

  function SkipInteger(t: string): (r: Option<string>)
    ensures r.Some? ==> |r.value| < |t|
  {
    if t == "" || !IsDigit(t[0]) then None
    else if t[0] == '0' then Some(t[1..])
    else Some(SkipDigits(t[1..]))
  }

  function SkipDigits1(t: string): (r: Option<string>)
    ensures r.Some? ==> |r.value| < |t|
  {
    if t == "" || !IsDigit(t[0]) then None else Some(SkipDigits(t[1..]))
  }

  function SkipFraction(t: string): (r: Option<string>)
    ensures r.Some? ==> |r.value| <= |t|
  {
    if t != "" && t[0] == '.' then SkipDigits1(t[1..]) else Some(t)
  }

  function SkipExponent(t: string): (r: Option<string>)
    ensures r.Some? ==> |r.value| <= |t|
  {
    if t != "" && t[0] in {'e', 'E'} then
      if |t| > 1 && t[1] in {'+', '-'} then SkipDigits1(t[2..]) else SkipDigits1(t[1..])
    else Some(t)
  }

  function SkipUnsigned(t: string): (r: Option<string>)
    ensures r.Some? ==> |r.value| < |t|
  {
    match SkipInteger(t)
    case None => None
    case Some(a) =>
      match SkipFraction(a)
      case None => None
      case Some(b) => SkipExponent(b)
  }

  /** The input after the longest JSON number it starts with. */
  function SkipNumber(t: string): (r: Option<string>)
    ensures r.Some? ==> |r.value| < |t|
  {
    if t != "" && t[0] == '-' then SkipUnsigned(t[1..]) else SkipUnsigned(t)
  }

  /** The pattern of internal/domain/json.go: the whole text is one number. */
  predicate IsNumber(t: string) {
    SkipNumber(t) == Some("")
  }

  function Mantissa(t: string): (r: string) {
    if t == "" || t[0] in {'e', 'E'} then ""
    else if t[0] == '.' then Mantissa(t[1..])
    else [t[0]] + Mantissa(t[1..])
  }

  predicate NegativeZero(t: string) {
    t != "" && t[0] == '-' && Mantissa(t[1..]) != "" && forall c | c in Mantissa(t[1..]) :: c == '0'
  }

  function NormalizeNumber(t: string): (r: string) {
    if NegativeZero(t) then "0" else t
  }

  // ---------- Strings ----------

  function HexDigit(n: nat): (c: char)
    requires n < 16
  {
    if n < 10 then '0' + n as char else 'a' + (n - 10) as char
  }

  function HexValue(c: char): (n: Option<nat>)
    ensures n.Some? ==> n.value < 16
  {
    if IsDigit(c) then Some(c as int - '0' as int)
    else if 'a' <= c <= 'f' then Some(c as int - 'a' as int + 10)
    else if 'A' <= c <= 'F' then Some(c as int - 'A' as int + 10)
    else None
  }

  /** Four hexadecimal digits at the start of the text. */
  function Hex4(t: string): (n: Option<nat>)
    ensures n.Some? ==> n.value < 0x10000 && |t| >= 4
  {
    if |t| < 4 then None
    else
      match (HexValue(t[0]), HexValue(t[1]), HexValue(t[2]), HexValue(t[3]))
      case (Some(a), Some(b), Some(c), Some(d)) => Some(a * 0x1000 + b * 0x100 + c * 0x10 + d)
      case _ => None
  }

  function EscapeChar(c: char): (r: string) {
    if c == '"' then "\\\""
    else if c == '\\' then "\\\\"
    else if c == '\U{0008}' then "\\b"
    else if c == '\U{000C}' then "\\f"
    else if c == '\n' then "\\n"
    else if c == '\r' then "\\r"
    else if c == '\t' then "\\t"
    else if c < ' ' then "\\u00" + [HexDigit(c as int / 16), HexDigit(c as int % 16)]
    else if c == '\U{2028}' then "\\u2028"
    else if c == '\U{2029}' then "\\u2029"
    else [c]
  }

  function Escape(s: string): (r: string) {
    if s == "" then "" else EscapeChar(s[0]) + Escape(s[1..])
  }

  function Quote(s: string): (r: string) {
    "\"" + Escape(s) + "\""
  }

  predicate Surrogate(n: nat) {
    0xD800 <= n < 0xE000
  }

  /** One backslash escape; `t` is the text after the backslash. A lone surrogate becomes U+FFFD. */
  function Unescape(t: string): (r: Option<(char, string)>)
    ensures r.Some? ==> |r.value.1| < |t|
  {
    if t == "" then None
    else if t[0] in {'"', '\\', '/'} then Some((t[0], t[1..]))
    else if t[0] == 'b' then Some(('\U{0008}', t[1..]))
    else if t[0] == 'f' then Some(('\U{000C}', t[1..]))
    else if t[0] == 'n' then Some(('\n', t[1..]))
    else if t[0] == 'r' then Some(('\r', t[1..]))
    else if t[0] == 't' then Some(('\t', t[1..]))
    else if t[0] != 'u' then None
    else
      match Hex4(t[1..])
      case None => None
      case Some(high) =>
        var rest := t[5..];
        if !Surrogate(high) then Some((high as char, rest))
        else
          var low := if |rest| >= 2 && rest[..2] == "\\u" then Hex4(rest[2..]) else None;
          if high < 0xDC00 && low.Some? && 0xDC00 <= low.value < 0xE000 then
            Some((((high - 0xD800) * 0x400 + (low.value - 0xDC00) + 0x10000) as char, rest[6..]))
          else Some(('\U{FFFD}', rest))
  }

  /** The characters of a string after its opening quote, and the input after its closing quote. */
  function ParseChars(t: string): (r: Option<(string, string)>)
    ensures r.Some? ==> |r.value.1| < |t|
    decreases |t|
  {
    if t == "" || t[0] < ' ' then None
    else if t[0] == '"' then Some(("", t[1..]))
    else if t[0] == '\\' then
      match Unescape(t[1..])
      case None => None
      case Some((c, rest)) =>
        (match ParseChars(rest)
         case None => None
         case Some((s, after)) => Some(([c] + s, after)))
    else
      match ParseChars(t[1..])
      case None => None
      case Some((s, after)) => Some(([t[0]] + s, after))
  }

  // ---------- Values: parsing ----------

  predicate IsBlank(c: char) {
    c in {' ', '\t', '\r', '\n'}
  }

  function SkipBlanks(t: string): (r: string)
    ensures |r| <= |t|
    ensures r != "" ==> !IsBlank(r[0])
  {
    if t != "" && IsBlank(t[0]) then SkipBlanks(t[1..]) else t
  }

  predicate StartsWith(t: string, prefix: string) {
    prefix <= t
  }

  type Parsed<T> = Result<(T, string), Error>

  function ParseScalar(t: string): (r: Parsed<Value>)
    requires t != ""
    ensures r.Ok? ==> |r.value.1| < |t|
  {
    if t[0] == '"' then
      match ParseChars(t[1..])
      case None => Err(Syntax)
      case Some((s, rest)) => Ok((String(s), rest))
    else if StartsWith(t, "null") then Ok((Null, t[4..]))
    else if StartsWith(t, "true") then Ok((Bool(true), t[4..]))
    else if StartsWith(t, "false") then Ok((Bool(false), t[5..]))
    else
      match SkipNumber(t)
      case None => Err(Syntax)
      case Some(rest) => Ok((Number(NormalizeNumber(t[..|t| - |rest|])), rest))
  }

  /** `decodeJSONToken` at a nesting depth. */
  function ParseValue(t: string, depth: nat): (r: Parsed<Value>)
    ensures r.Ok? ==> |r.value.1| < |t|
    decreases |t|, 1
  {
    if depth > MAX_DEPTH then Err(TooDeep)
    else
      var u := SkipBlanks(t);
      if u == "" then Err(Syntax)
      else if u[0] == '[' then
        (match ParseItems(u[1..], depth, [])
         case Err(e) => Err(e)
         case Ok((items, rest)) => Ok((Array(items), rest)))
      else if u[0] == '{' then
        (match ParseMembers(u[1..], depth, map[])
         case Err(e) => Err(e)
         case Ok((fields, rest)) => Ok((Object(fields), rest)))
      else ParseScalar(u)
  }

  /** The text of an array after `[` or after an item, given the items read so far. */
  function ParseItems(t: string, depth: nat, items: seq<Value>): (r: Parsed<seq<Value>>)
    ensures r.Ok? ==> |r.value.1| < |t|
    decreases |t|, 2
  {
    var u := SkipBlanks(t);
    if u == "" then Err(Syntax)
    else if u[0] == ']' then Ok((items, u[1..]))
    else if items != [] && u[0] != ',' then Err(Syntax)
    else
      match ParseValue(if items == [] then u else u[1..], depth + 1)
      case Err(e) => Err(e)
      case Ok((item, rest)) => ParseItems(rest, depth, items + [item])
  }

  /** The text of an object after `{` or after a member, given the members read so far. */
  function ParseMembers(t: string, depth: nat, fields: map<string, Value>): (r: Parsed<map<string, Value>>)
    ensures r.Ok? ==> |r.value.1| < |t|
    decreases |t|, 2
  {
    var u := SkipBlanks(t);
    if u == "" then Err(Syntax)
    else if u[0] == '}' then Ok((fields, u[1..]))
    else if fields != map[] && u[0] != ',' then Err(Syntax)
    else
      match ParseKey(if fields == map[] then u else SkipBlanks(u[1..]))
      case Err(e) => Err(e)
      case Ok((key, after)) =>
        if key in fields then Err(DuplicateKey)
        else if depth >= MAX_DEPTH then Err(TooDeep)
        else
          var colon := SkipBlanks(after);
          if colon == "" || colon[0] != ':' then Err(Syntax)
          else
            match ParseValue(colon[1..], depth + 1)
            case Err(e) => Err(e)
            case Ok((item, rest)) => ParseMembers(rest, depth, fields[key := item])
  }

  function ParseKey(t: string): (r: Parsed<string>)
    ensures r.Ok? ==> |r.value.1| < |t|
  {
    if t == "" || t[0] != '"' then Err(Syntax)
    else
      match ParseChars(t[1..])
      case None => Err(Syntax)
      case Some((key, rest)) => Ok((key, rest))
  }

  /** `DecodeJSONValue` on valid UTF-8. */
  function Decode(t: string): (r: Result<Value, Error>) {
    match ParseValue(t, 0)
    case Err(e) => Err(e)
    case Ok((v, rest)) => if SkipBlanks(rest) == "" then Ok(v) else Err(Trailing)
  }

  // ---------- Values: printing ----------

  /** `JSONValue.Validate`: every number text matches the number pattern. */
  predicate Valid(v: Value) {
    match v
    case Number(t) => IsNumber(t)
    case Array(items) => forall i | 0 <= i < |items| :: Valid(items[i])
    case Object(m) => forall k | k in m :: Valid(m[k])
    case _ => true
  }

  /** No node below this one is nested deeper than the limit. */
  predicate Fits(v: Value, depth: nat) {
    depth <= MAX_DEPTH &&
    match v
    case Array(items) => forall i | 0 <= i < |items| :: Fits(items[i], depth + 1)
    case Object(m) => forall k | k in m :: Fits(m[k], depth + 1)
    case _ => true
  }

  /** The same value with every negative zero written "0". */
  ghost function Normalize(v: Value): (r: Value) {
    match v
    case Number(t) => Number(NormalizeNumber(t))
    case Array(items) => Array(NormalizeItems(items))
    case Object(m) => Object(map k | k in m :: Normalize(m[k]))
    case _ => v
  }

  ghost function NormalizeItems(items: seq<Value>): (r: seq<Value>)
    ensures |r| == |items|
    ensures forall i | 0 <= i < |items| :: r[i] == Normalize(items[i])
  {
    if items == [] then [] else [Normalize(items[0])] + NormalizeItems(items[1..])
  }

  ghost function Encoding(v: Value): (r: string)
    decreases v, 1
  {
    match v
    case Null => "null"
    case Bool(flag) => if flag then "true" else "false"
    case Number(t) => NormalizeNumber(t)
    case String(t) => Quote(t)
    case Array(items) => "[" + ItemsEncoding(items, false) + "]"
    case Object(m) => SortedLists(m.Keys); "{" + MembersEncoding(Sorted(m.Keys), v, false) + "}"
  }

  /** The items still to print; each is preceded by a comma once something was printed. */
  ghost function ItemsEncoding(items: seq<Value>, comma: bool): (r: string)
    decreases items, 0
  {
    if items == [] then ""
    else (if comma then "," else "") + (Encoding(items[0]) + ItemsEncoding(items[1..], true))
  }

  ghost function MembersEncoding(keys: seq<string>, v: Value, comma: bool): (r: string)
    requires v.Object? && forall k | k in keys :: k in v.fields
    decreases v, 0, |keys|
  {
    if keys == [] then ""
    else
      (if comma then "," else "") +
      (Quote(keys[0]) + ":" + (Encoding(v.fields[keys[0]]) + MembersEncoding(keys[1..], v, true)))
  }

  /** `EncodeJSONValue`: validation, the depth limit, and one final newline. */
  ghost function Encode(v: Value): (r: Result<string, Error>) {
    if !Valid(v) then Err(InvalidNumber)
    else if !Fits(v, 0) then Err(TooDeep)
    else Ok(Encoding(v) + "\n")
  }
}
