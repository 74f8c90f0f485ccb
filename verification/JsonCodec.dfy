/** internal/codec/json_value.go as it runs: a writer that appends to a buffer and a
    decoder that consumes its input, each proved against the functions of module Json. */
module JsonCodec {
  import opened Text
  import opened StringOrder
  import opened Json

  class Buffer {
    var data: string

    constructor ()
      ensures data == ""
    {
      data := "";
    }

    method Write(s: string)
      modifies this
      ensures data == old(data) + s
    {
      data := data + s;
    }
  }

  method EncodeInto(output: Buffer, v: Value, depth: nat) returns (ok: bool)
    requires Valid(v)
    modifies output
    ensures ok <==> Fits(v, depth)
    ensures ok ==> output.data == old(output.data) + Encoding(v)
    decreases v, 2
  {
    if depth > MAX_DEPTH { return false; }
    ok := true;
    match v {
      case Null => output.Write("null");
      case Bool(flag) => output.Write(if flag then "true" else "false");
      case Number(t) => output.Write(NormalizeNumber(t));
      case String(t) => output.Write(Quote(t));
      case Array(items) =>
        output.Write("[");
        ok := EncodeItems(output, items, depth);
        output.Write("]");
        Bracketed(old(output.data), "[", ItemsEncoding(items, false), "]");
      case Object(m) =>
        output.Write("{");
        ok := EncodeMembers(output, m, depth);
        output.Write("}");
        SortedLists(m.Keys);
        Bracketed(old(output.data), "{", MembersEncoding(Sorted(m.Keys), v, false), "}");
    }
  }

  /** Writing a separator and a value moves them from what is left to what is written. */
  lemma Written(data: string, separator: string, value: string, tail: string)
    ensures data + (separator + (value + tail)) == data + separator + value + tail
  {
  }

  lemma Bracketed(data: string, open: string, inner: string, close: string)
    ensures data + open + inner + close == data + (open + inner + close)
  {
  }

  lemma ItemsUnfold(items: seq<Value>, i: nat)
    requires i < |items|
    ensures ItemsEncoding(items[i..], i > 0)
         == (if i > 0 then "," else "") + (Encoding(items[i]) + ItemsEncoding(items[i + 1..], true))
  {
    assert items[i..][1..] == items[i + 1..];
  }

  lemma MembersUnfold(keys: seq<string>, m: map<string, Value>, i: nat)
    requires i < |keys| && forall k | k in keys :: k in m
    ensures MembersEncoding(keys[i..], Object(m), i > 0)
         == (if i > 0 then "," else "") +
            (Quote(keys[i]) + ":" + (Encoding(m[keys[i]]) + MembersEncoding(keys[i + 1..], Object(m), true)))
  {
    assert keys[i..][1..] == keys[i + 1..];
  }

  method EncodeItems(output: Buffer, items: seq<Value>, depth: nat) returns (ok: bool)
    requires forall i | 0 <= i < |items| :: Valid(items[i])
    modifies output
    ensures ok <==> forall i | 0 <= i < |items| :: Fits(items[i], depth + 1)
    ensures ok ==> output.data == old(output.data) + ItemsEncoding(items, false)
    decreases items, 0
  {
    ghost var goal := output.data + ItemsEncoding(items, false);
    assert items[0..] == items;
    var i := 0;
    while i < |items|
      invariant 0 <= i <= |items|
      invariant forall j | 0 <= j < i :: Fits(items[j], depth + 1)
      invariant output.data + ItemsEncoding(items[i..], i > 0) == goal
    {
      ghost var printed, comma := output.data, if i > 0 then "," else "";
      ItemsUnfold(items, i);
      Written(printed, comma, Encoding(items[i]), ItemsEncoding(items[i + 1..], true));
      output.Write(if i > 0 then "," else "");
      ok := EncodeInto(output, items[i], depth + 1);
      if !ok { return; }
      i := i + 1;
    }
    assert output.data + "" == output.data;
    ok := true;
  }

  method EncodeMembers(output: Buffer, m: map<string, Value>, depth: nat) returns (ok: bool)
    requires forall k | k in m :: Valid(m[k])
    modifies output
    ensures ok <==> forall k | k in m :: Fits(m[k], depth + 1)
    ensures Lists(Sorted(m.Keys), m.Keys)
    ensures ok ==> output.data == old(output.data) + MembersEncoding(Sorted(m.Keys), Object(m), false)
    decreases Object(m), 1
  {
    hide Fits, Encoding, Quote, Valid, Sorted;
    var keys := SortKeys(m.Keys);
    ghost var goal := output.data + MembersEncoding(keys, Object(m), false);
    assert keys[0..] == keys;
    var i := 0;
    while i < |keys|
      invariant 0 <= i <= |keys|
      invariant forall j | 0 <= j < i :: Fits(m[keys[j]], depth + 1)
      invariant output.data + MembersEncoding(keys[i..], Object(m), i > 0) == goal
    {
      ghost var printed := output.data;
      ghost var tail := MembersEncoding(keys[i + 1..], Object(m), true);
      MembersUnfold(keys, m, i);
      ok := EncodeMember(output, m, keys[i], i > 0, depth);
      if !ok { return; }
      MemberWritten(printed, if i > 0 then "," else "", Quote(keys[i]) + ":", Encoding(m[keys[i]]), tail);
      i := i + 1;
    }
    assert output.data + "" == output.data;
    ok := true;
  }

  lemma MemberWritten(data: string, comma: string, quoted: string, value: string, tail: string)
    ensures data + (comma + (quoted + (value + tail))) == data + comma + quoted + value + tail
  {
    Written(data, comma, quoted, value + tail);
    Written(data + comma, quoted, value, tail);
  }

  method EncodeMember(output: Buffer, m: map<string, Value>, key: string, comma: bool, depth: nat) returns (ok: bool)
    requires key in m && Valid(m[key])
    modifies output
    ensures ok <==> Fits(m[key], depth + 1)
    ensures ok ==>
      output.data == old(output.data) + (if comma then "," else "") + (Quote(key) + ":") + Encoding(m[key])
    decreases Object(m), 0
  {
    output.Write(if comma then "," else "");
    output.Write(Quote(key) + ":");
    ok := EncodeInto(output, m[key], depth + 1);
  }

  method EncodeJSONValue(v: Value) returns (r: Result<string, Error>)
    ensures r == Encode(v)
  {
    if !Valid(v) { return Err(InvalidNumber); }
    var output := new Buffer();
    var ok := EncodeInto(output, v, 0);
    if !ok { return Err(TooDeep); }
    assert "" + Encoding(v) == Encoding(v);
    output.Write("\n");
    r := Ok(output.data);
  }

  class Decoder {
    var input: string

    constructor (t: string)
      ensures input == t
    {
      input := t;
    }

    /** The result of a reading step agrees with the parsing function, and so does what is left to read. */
    ghost predicate Agrees<T>(r: Result<T, Error>, spec: Parsed<T>)
      reads this
    {
      match spec
      case Err(e) => r == Err(e)
      case Ok((v, rest)) => r == Ok(v) && input == rest
    }

    method ReadValue(depth: nat) returns (r: Result<Value, Error>)
      modifies this
      ensures Agrees(r, ParseValue(old(input), depth))
      decreases |input|, 1
    {
      if depth > MAX_DEPTH { return Err(TooDeep); }
      input := SkipBlanks(input);
      if input == "" { return Err(Syntax); }
      if input[0] == '[' {
        var items := ReadItems(depth);
        r := match items case Err(e) => Err(e) case Ok(s) => Ok(Array(s));
      } else if input[0] == '{' {
        var fields := ReadMembers(depth);
        r := match fields case Err(e) => Err(e) case Ok(m) => Ok(Object(m));
      } else {
        match ParseScalar(input)
        case Err(e) => r := Err(e);
        case Ok((v, rest)) => r := Ok(v); input := rest;
      }
    }

    method ReadItems(depth: nat) returns (r: Result<seq<Value>, Error>)
      requires input != ""
      modifies this
      ensures Agrees(r, ParseItems(old(input)[1..], depth, []))
      decreases |input|, 0
    {
      ghost var goal := ParseItems(input[1..], depth, []);
      ghost var size := |input|;
      input := input[1..];
      var items: seq<Value> := [];
      while true
        invariant |input| < size
        invariant ParseItems(input, depth, items) == goal
        decreases |input|
      {
        input := SkipBlanks(input);
        if input == "" { return Err(Syntax); }
        if input[0] == ']' {
          input := input[1..];
          return Ok(items);
        }
        if items != [] {
          if input[0] != ',' { return Err(Syntax); }
          input := input[1..];
        }
        var item := ReadValue(depth + 1);
        match item
        case Err(e) => return Err(e);
        case Ok(v) => items := items + [v];
      }
    }

    method ReadMembers(depth: nat) returns (r: Result<map<string, Value>, Error>)
      requires input != ""
      modifies this
      ensures Agrees(r, ParseMembers(old(input)[1..], depth, map[]))
      decreases |input|, 0
    {
      hide ParseKey, ParseValue;
      ghost var goal := ParseMembers(input[1..], depth, map[]);
      ghost var size := |input|;
      input := input[1..];
      var fields: map<string, Value> := map[];
      while true
        invariant |input| < size
        invariant ParseMembers(input, depth, fields) == goal
        decreases |input|
      {
        input := SkipBlanks(input);
        if input == "" { return Err(Syntax); }
        if input[0] == '}' {
          input := input[1..];
          return Ok(fields);
        }
        if fields != map[] {
          if input[0] != ',' { return Err(Syntax); }
          input := SkipBlanks(input[1..]);
        }
        match ParseKey(input)
        case Err(e) => return Err(e);
        case Ok((key, after)) =>
          if key in fields { return Err(DuplicateKey); }
          if depth >= MAX_DEPTH { return Err(TooDeep); }
          input := SkipBlanks(after);
          if input == "" || input[0] != ':' { return Err(Syntax); }
          input := input[1..];
          var item := ReadValue(depth + 1);
          match item
          case Err(e) => return Err(e);
          case Ok(v) => fields := fields[key := v];
      }
    }
  }

  method DecodeJSONValue(t: string) returns (r: Result<Value, Error>)
    ensures r == Decode(t)
  {
    var decoder := new Decoder(t);
    var value := decoder.ReadValue(0);
    match value
    case Err(e) => r := Err(e);
    case Ok(v) => r := if SkipBlanks(decoder.input) == "" then Ok(v) else Err(Trailing);
  }
}
