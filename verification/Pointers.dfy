/** JSON Pointers as internal/config/value.go builds them (RFC 6901, section 3): distinct key paths have
    distinct pointers, and a pointer followed by "/" begins exactly the pointers below it. */
module Pointers {

  /** `strings.ReplaceAll` for a one-character pattern. */
  function Replaced(s: string, c: char, other: string): (r: string) {
    if s == "" then "" else (if s[0] == c then other else [s[0]]) + Replaced(s[1..], c, other)
  }

  function Escaped(key: string): (r: string) {
    Replaced(Replaced(key, '~', "~0"), '/', "~1")
  }

  function Pointer(keys: seq<string>): (p: string) {
    if keys == [] then "" else "/" + Escaped(keys[0]) + Pointer(keys[1..])
  }

  /** `pointer(parent, key)`. */
  function Child(parent: string, key: string): (p: string) {
    parent + "/" + Escaped(key)
  }

  // ---------- Escaping ----------

  function EscapedChar(c: char): (r: string) {
    if c == '~' then "~0" else if c == '/' then "~1" else [c]
  }

  lemma {:induction false} ReplacedAppend(a: string, b: string, c: char, other: string)
    ensures Replaced(a + b, c, other) == Replaced(a, c, other) + Replaced(b, c, other)
    decreases |a|
  {
    if a == "" {
      assert a + b == b;
    } else {
      assert (a + b)[0] == a[0] && (a + b)[1..] == a[1..] + b;
      ReplacedAppend(a[1..], b, c, other);
    }
  }

  lemma ReplacedOne(x: char, c: char, other: string)
    ensures Replaced([x], c, other) == if x == c then other else [x]
  {
    assert [x][1..] == "" && Replaced("", c, other) == "";
  }

  /** The two replacements together work character by character. */
  lemma EscapedHead(key: string)
    requires key != ""
    ensures Escaped(key) == EscapedChar(key[0]) + Escaped(key[1..])
  {
    var first := if key[0] == '~' then "~0" else [key[0]];
    var rest := Replaced(key[1..], '~', "~0");
    assert Replaced(key, '~', "~0") == first + rest;
    ReplacedAppend(first, rest, '/', "~1");
    if key[0] == '~' {
      assert first == "~" + "0";
      ReplacedAppend("~", "0", '/', "~1");
      ReplacedOne('~', '/', "~1");
      ReplacedOne('0', '/', "~1");
    } else {
      ReplacedOne(key[0], '/', "~1");
    }
  }

  lemma {:induction false} EscapedHasNoSlash(key: string)
    ensures '/' !in Escaped(key)
  {
    if key != "" {
      EscapedHead(key);
      EscapedHasNoSlash(key[1..]);
    }
  }

  lemma {:induction false} EscapedInjective(a: string, b: string)
    requires Escaped(a) == Escaped(b)
    ensures a == b
    decreases |a|
  {
    if a != "" { EscapedHead(a); }
    if b != "" { EscapedHead(b); }
    if a != "" && b != "" {
      var x, y := EscapedChar(a[0]), EscapedChar(b[0]);
      hide Escaped;
      assert Escaped(a)[0] == x[0] && Escaped(b)[0] == y[0];
      assert |x| == |y|;
      if |x| == 2 { assert Escaped(a)[1] == x[1] && Escaped(b)[1] == y[1]; }
      assert Escaped(a)[|x|..] == Escaped(a[1..]) && Escaped(b)[|y|..] == Escaped(b[1..]);
      EscapedInjective(a[1..], b[1..]);
      assert a == [a[0]] + a[1..] && b == [b[0]] + b[1..];
    }
  }

  // ---------- Pointers ----------

  lemma {:induction false} PointerAppend(a: seq<string>, b: seq<string>)
    ensures Pointer(a + b) == Pointer(a) + Pointer(b)
    decreases |a|
  {
    hide Escaped;
    if a == [] {
      assert a + b == b;
    } else {
      assert (a + b)[0] == a[0] && (a + b)[1..] == a[1..] + b;
      PointerAppend(a[1..], b);
    }
  }

  lemma PointerOfChild(keys: seq<string>, key: string)
    ensures Pointer(keys + [key]) == Child(Pointer(keys), key)
  {
    hide Escaped;
    PointerAppend(keys, [key]);
    assert [key][1..] == [] && Pointer([]) == "";
    assert Pointer(keys) + ("/" + Escaped(key)) == Pointer(keys) + "/" + Escaped(key);
  }

  /** The text up to the first slash. */
  function Segment(t: string): (r: string) {
    if t == "" || t[0] == '/' then "" else [t[0]] + Segment(t[1..])
  }

  lemma {:induction false} SegmentOf(x: string, u: string)
    requires '/' !in x && (u == "" || u[0] == '/')
    ensures Segment(x + u) == x
  {
    if x == "" {
      assert x + u == u;
    } else {
      assert (x + u)[0] == x[0] && (x + u)[1..] == x[1..] + u;
      SegmentOf(x[1..], u);
    }
  }

  lemma {:induction false} SegmentOfPrefix(t: string, longer: string)
    requires t <= longer && '/' in t
    ensures Segment(t) == Segment(longer)
  {
    if t[0] != '/' { SegmentOfPrefix(t[1..], longer[1..]); }
  }

  /** Two ways of continuing a path agree on its first segment. */
  lemma SegmentsAgree(x: string, u: string, y: string, v: string)
    requires '/' !in x && '/' !in y && u != "" && u[0] == '/' && (v == "" || v[0] == '/')
    requires x + u <= y + v
    ensures x == y && u <= v
  {
    assert (x + u)[|x|] == '/';
    SegmentOf(x, u);
    SegmentOf(y, v);
    SegmentOfPrefix(x + u, y + v);
    assert u == (x + u)[|x|..] && v == (y + v)[|x|..];
  }

  /** Starts with a slash, or is empty. */
  lemma PointerShape(keys: seq<string>)
    ensures Pointer(keys) == "" || Pointer(keys)[0] == '/'
    ensures Pointer(keys) == "" <==> keys == []
  {
  }

  lemma PointerHead(p: seq<string>)
    requires p != []
    ensures Pointer(p) + "/" == "/" + (Escaped(p[0]) + (Pointer(p[1..]) + "/"))
    ensures (Pointer(p[1..]) + "/")[0] == '/' && '/' !in Escaped(p[0])
  {
    hide Escaped;
    EscapedHasNoSlash(p[0]);
    PointerShape(p[1..]);
    Regroup(Escaped(p[0]), Pointer(p[1..]));
  }

  lemma Regroup(x: string, rest: string)
    ensures ("/" + x + rest) + "/" == "/" + (x + (rest + "/"))
  {
  }

  lemma CutSlash(a: string, b: string)
    requires "/" + a <= "/" + b
    ensures a <= b
  {
    assert a == ("/" + a)[1..] && b == ("/" + b)[1..];
  }

  lemma Heads(p: seq<string>, q: seq<string>)
    requires p != [] && q != [] && Pointer(p) + "/" <= Pointer(q) + "/"
    ensures p[0] == q[0] && Pointer(p[1..]) + "/" <= Pointer(q[1..]) + "/"
  {
    hide *;
    PointerHead(p);
    PointerHead(q);
    var u, v := Pointer(p[1..]) + "/", Pointer(q[1..]) + "/";
    CutSlash(Escaped(p[0]) + u, Escaped(q[0]) + v);
    SegmentsAgree(Escaped(p[0]), u, Escaped(q[0]), v);
    EscapedInjective(p[0], q[0]);
  }

  lemma {:induction false} PointerPrefix(p: seq<string>, q: seq<string>)
    requires Pointer(p) + "/" <= Pointer(q) + "/"
    ensures p <= q
    decreases |p|
  {
    PointerShape(q);
    PointerShape(p);
    hide Pointer;
    if p != [] && q != [] {
      Heads(p, q);
      PointerPrefix(p[1..], q[1..]);
      assert p == [p[0]] + p[1..] && q == [q[0]] + q[1..];
    }
  }

  lemma PointerInjective(p: seq<string>, q: seq<string>)
    ensures Pointer(p) == Pointer(q) <==> p == q
  {
    if Pointer(p) == Pointer(q) {
      hide Pointer;
      PointerPrefix(p, q);
      PointerPrefix(q, p);
    }
  }

  /** The test of `clearOrigins` on pointers: equal, or below. */
  predicate AtOrUnder(key: string, path: string) {
    key == path || path + "/" <= key
  }

  lemma UnderIsPrefix(p: seq<string>, q: seq<string>)
    ensures AtOrUnder(Pointer(q), Pointer(p)) <==> p <= q
  {
    PointerInjective(p, q);
    if Pointer(p) + "/" <= Pointer(q) {
      assert Pointer(q) <= Pointer(q) + "/";
      PointerPrefix(p, q);
    }
    if p <= q && p != q {
      var rest := q[|p|..];
      assert q == p + rest && rest != [];
      PointerAppend(p, rest);
      PointerShape(rest);
      assert Pointer(q)[|Pointer(p)|] == '/';
    }
  }

  // ---------- Reading pointers ----------

  /** A reference token as RFC 6901, section 4 reads it: "~1" stands for a slash and "~0" for a tilde. */
  function Unescaped(token: string): (key: string) {
    if token == "" then ""
    else if |token| > 1 && token[..2] == "~1" then "/" + Unescaped(token[2..])
    else if |token| > 1 && token[..2] == "~0" then "~" + Unescaped(token[2..])
    else [token[0]] + Unescaped(token[1..])
  }

  /** The keys of a pointer, each after a slash. */
  function Read(pointer: string): (keys: seq<string>) {
    if pointer == "" then []
    else
      var token := Segment(pointer[1..]);
      SegmentShort(pointer[1..]);
      [Unescaped(token)] + Read(pointer[1 + |token|..])
  }

  lemma {:induction false} SegmentShort(t: string)
    ensures |Segment(t)| <= |t|
  {
    if t != "" && t[0] != '/' { SegmentShort(t[1..]); }
  }

  lemma {:induction false} EscapedReadsBack(key: string)
    ensures Unescaped(Escaped(key)) == key
    decreases |key|
  {
    if key != "" {
      EscapedHead(key);
      EscapedReadsBack(key[1..]);
      var x, rest := EscapedChar(key[0]), Escaped(key[1..]);
      assert key == [key[0]] + key[1..];
      assert (x + rest)[|x|..] == rest && (x + rest)[0] == x[0];
      if |x| == 2 { assert (x + rest)[..2] == x; }
      if |x| == 1 && |x + rest| > 1 { assert (x + rest)[..2][0] == x[0]; }
    }
  }

  /** Every path can be read back from its pointer. */
  lemma {:induction false} PointerReadsBack(keys: seq<string>)
    ensures Read(Pointer(keys)) == keys
    decreases |keys|
  {
    if keys != [] {
      EscapedHasNoSlash(keys[0]);
      EscapedReadsBack(keys[0]);
      PointerShape(keys[1..]);
      PointerReadsBack(keys[1..]);
      hide Escaped, Unescaped;
      var token, rest := Escaped(keys[0]), Pointer(keys[1..]);
      var pointer := Pointer(keys);
      assert pointer == "/" + token + rest && pointer[1..] == token + rest;
      SegmentOf(token, rest);
      assert pointer[1 + |token|..] == rest;
      assert keys == [keys[0]] + keys[1..];
    }
  }
}
