/** internal/baseline/typescript_semantic.go: the token helpers of the static evaluator. A template token
    carries its parts: decoded literal text, the tokens of a hole, or something that does not scan. */
module Tokens {

  datatype Kind = Identifier | Text | Template | Number | Punctuation

  datatype Token = Token(kind: Kind, raw: string, value: string, parts: seq<Part>)

  datatype Part = Literal(text: string) | Hole(tokens: seq<Token>) | Broken

  // ---------- Sizes ----------

  function TokenSize(t: Token): (n: nat)
    ensures n > 0
  {
    1 + PartsSize(t.parts)
  }

  function PartsSize(parts: seq<Part>): (n: nat) {
    if parts == [] then 0 else PartSize(parts[0]) + PartsSize(parts[1..])
  }

  function PartSize(p: Part): (n: nat)
    ensures n > 0
  {
    if p.Hole? then 1 + Size(p.tokens) else 1
  }

  function Size(tokens: seq<Token>): (n: nat) {
    if tokens == [] then 0 else TokenSize(tokens[0]) + Size(tokens[1..])
  }

  function SumOfSizes(list: seq<seq<Token>>): (n: nat) {
    if list == [] then 0 else Size(list[0]) + SumOfSizes(list[1..])
  }

  lemma {:induction false} SizeAppend(a: seq<Token>, b: seq<Token>)
    ensures Size(a + b) == Size(a) + Size(b)
    decreases |a|
  {
    if a == [] {
      assert a + b == b;
    } else {
      assert (a + b)[0] == a[0] && (a + b)[1..] == a[1..] + b;
      SizeAppend(a[1..], b);
    }
  }

  lemma SizeSlice(t: seq<Token>, i: nat, j: nat)
    requires i <= j <= |t|
    ensures Size(t[i..j]) <= Size(t) && (j - i < |t| ==> Size(t[i..j]) < Size(t))
  {
    hide Size;
    assert t == t[..i] + (t[i..j] + t[j..]);
    SizeAppend(t[..i], t[i..j] + t[j..]);
    SizeAppend(t[i..j], t[j..]);
    if i > 0 { NotEmptySize(t[..i]); }
    if j < |t| { NotEmptySize(t[j..]); }
  }

  lemma NotEmptySize(t: seq<Token>)
    requires t != []
    ensures Size(t) > 0
  {
  }

  // ---------- Matching ----------

  function MatchFrom(tokens: seq<Token>, i: nat, depth: int, open: string, close: string): (r: int)
    requires i <= |tokens|
    ensures -1 <= r < |tokens|
    decreases |tokens| - i
  {
    if i == |tokens| then -1
    else if tokens[i].raw == open then MatchFrom(tokens, i + 1, depth + 1, open, close)
    else if tokens[i].raw == close then
      (if depth - 1 == 0 then i else MatchFrom(tokens, i + 1, depth - 1, open, close))
    else MatchFrom(tokens, i + 1, depth, open, close)
  }

  function Match(tokens: seq<Token>, start: int, open: string, close: string): (r: int)
    ensures -1 <= r < |tokens|
  {
    if start < 0 || start >= |tokens| || tokens[start].raw != open then -1
    else MatchFrom(tokens, start, 0, open, close)
  }

  /** `matchToken`. */
  method MatchToken(tokens: seq<Token>, start: int, open: string, close: string) returns (r: int)
    ensures r == Match(tokens, start, open, close)
  {
    if start < 0 || start >= |tokens| || tokens[start].raw != open { return -1; }
    var depth := 0;
    for i := start to |tokens|
      invariant MatchFrom(tokens, i, depth, open, close) == MatchFrom(tokens, start, 0, open, close)
    {
      if tokens[i].raw == open {
        depth := depth + 1;
      } else if tokens[i].raw == close {
        depth := depth - 1;
        if depth == 0 { return i; }
      }
    }
    r := -1;
  }

  /** How far the brackets of one kind are open after tokens start..end-1. */
  function Depth(tokens: seq<Token>, start: nat, end: nat, open: string, close: string): (d: int)
    requires start <= end <= |tokens|
    decreases end - start
  {
    if start == end then 0
    else
      Depth(tokens, start, end - 1, open, close) +
      if tokens[end - 1].raw == open then 1 else if tokens[end - 1].raw == close then -1 else 0
  }

  lemma {:induction false} MatchFromCloses(tokens: seq<Token>, start: nat, i: nat, open: string, close: string)
    requires start < |tokens| && tokens[start].raw == open && open != close && start < i <= |tokens|
    requires forall k | start < k <= i :: Depth(tokens, start, k, open, close) > 0
    ensures var r := MatchFrom(tokens, i, Depth(tokens, start, i, open, close), open, close);
      if r == -1 then forall k | start < k <= |tokens| :: Depth(tokens, start, k, open, close) > 0
      else
        i <= r && Depth(tokens, start, r + 1, open, close) == 0 &&
        forall k | start < k <= r :: Depth(tokens, start, k, open, close) > 0
    decreases |tokens| - i
  {
    if i < |tokens| {
      if Depth(tokens, start, i + 1, open, close) != 0 { MatchFromCloses(tokens, start, i + 1, open, close); }
    }
  }

  /** The match of an opening token is the first place where as many closed as opened; -1 if there is none. */
  lemma MatchIsFirstBalance(tokens: seq<Token>, start: nat, open: string, close: string)
    requires start < |tokens| && tokens[start].raw == open && open != close
    ensures var r := Match(tokens, start, open, close);
      if r == -1 then forall k | start < k <= |tokens| :: Depth(tokens, start, k, open, close) > 0
      else
        start < r && Depth(tokens, start, r + 1, open, close) == 0 &&
        forall k | start < k <= r :: Depth(tokens, start, k, open, close) > 0
  {
    assert Depth(tokens, start, start, open, close) == 0;
    assert Depth(tokens, start, start + 1, open, close) == 1;
    MatchFromCloses(tokens, start, start + 1, open, close);
  }

  // ---------- Trimming ----------

  predicate Separates(t: Token) {
    t.raw == "," || t.raw == ";"
  }

  function TrimFront(t: seq<Token>): (r: seq<Token>)
    ensures |r| <= |t| && Size(r) <= Size(t)
  {
    if t != [] && Separates(t[0]) then TrimFront(t[1..]) else t
  }

  function TrimBack(t: seq<Token>): (r: seq<Token>)
    ensures |r| <= |t| && Size(r) <= Size(t)
  {
    if t != [] && Separates(t[|t| - 1]) then
      SizeSlice(t, 0, |t| - 1);
      assert t[0..|t| - 1] == t[..|t| - 1];
      TrimBack(t[..|t| - 1])
    else t
  }

  function TrimConst(t: seq<Token>): (r: seq<Token>)
    ensures |r| <= |t| && Size(r) <= Size(t)
  {
    if |t| >= 2 && t[|t| - 2].raw == "as" && t[|t| - 1].raw == "const" then
      SizeSlice(t, 0, |t| - 2);
      assert t[0..|t| - 2] == t[..|t| - 2];
      TrimConst(t[..|t| - 2])
    else t
  }

  predicate Wrapped(t: seq<Token>) {
    |t| >= 2 && t[0].raw == "(" && Match(t, 0, "(", ")") == |t| - 1
  }

  function TrimParens(t: seq<Token>): (r: seq<Token>)
    ensures |r| <= |t| && Size(r) <= Size(t)
  {
    if Wrapped(t) then
      SizeSlice(t, 1, |t| - 1);
      TrimParens(t[1..|t| - 1])
    else t
  }

  function Trim(t: seq<Token>): (r: seq<Token>)
    ensures |r| <= |t| && Size(r) <= Size(t)
  {
    TrimParens(TrimConst(TrimBack(TrimFront(t))))
  }

  /** `trimTokens`. */
  method TrimTokens(tokens: seq<Token>) returns (t: seq<Token>)
    ensures t == Trim(tokens)
  {
    t := tokens;
    while t != [] && Separates(t[0])
      invariant TrimFront(t) == TrimFront(tokens)
      decreases |t|
    {
      t := t[1..];
    }
    ghost var front := t;
    while t != [] && Separates(t[|t| - 1])
      invariant TrimBack(t) == TrimBack(front)
      decreases |t|
    {
      t := t[..|t| - 1];
    }
    ghost var back := t;
    while |t| >= 2 && t[|t| - 2].raw == "as" && t[|t| - 1].raw == "const"
      invariant TrimConst(t) == TrimConst(back)
      decreases |t|
    {
      t := t[..|t| - 2];
    }
    ghost var plain := t;
    while true
      invariant TrimParens(t) == TrimParens(plain)
      decreases |t|
    {
      if |t| < 2 || t[0].raw != "(" { break; }
      var close := MatchToken(t, 0, "(", ")");
      if close != |t| - 1 { break; }
      t := t[1..|t| - 1];
    }
  }

  // ---------- What trimming leaves ----------

  /** One pair of parentheses around the whole: closed at the end and not before. */
  predicate Enclosed(t: seq<Token>) {
    |t| >= 2 && t[0].raw == "(" && Depth(t, 0, |t|, "(", ")") == 0 &&
    forall k | 0 < k < |t| :: Depth(t, 0, k, "(", ")") > 0
  }

  /** "as const" repeated. */
  predicate ConstChain(t: seq<Token>) {
    |t| % 2 == 0 && forall x | 0 <= x < |t| :: t[x].raw == if x % 2 == 0 then "as" else "const"
  }

  predicate EndsConst(t: seq<Token>) {
    |t| >= 2 && t[|t| - 2].raw == "as" && t[|t| - 1].raw == "const"
  }

  predicate AllSeparate(t: seq<Token>) {
    forall x | x in t :: x.raw == "," || x.raw == ";"
  }

  lemma WrappedExactly(t: seq<Token>)
    ensures Wrapped(t) <==> Enclosed(t)
  {
    if |t| >= 2 && t[0].raw == "(" { MatchIsFirstBalance(t, 0, "(", ")"); }
  }

  lemma {:induction false} FrontTrimmed(t: seq<Token>) returns (i: nat)
    ensures i <= |t| && TrimFront(t) == t[i..] && AllSeparate(t[..i])
    ensures i < |t| ==> t[i].raw != "," && t[i].raw != ";"
    decreases |t|
  {
    i := 0;
    if t != [] && Separates(t[0]) {
      var more := FrontTrimmed(t[1..]);
      i := more + 1;
      assert t[..i] == [t[0]] + t[1..][..more] && t[1..][more..] == t[i..];
    }
  }

  lemma {:induction false} BackTrimmed(t: seq<Token>) returns (k: nat)
    ensures k <= |t| && TrimBack(t) == t[..k] && AllSeparate(t[k..])
    ensures k > 0 ==> t[k - 1].raw != "," && t[k - 1].raw != ";"
    decreases |t|
  {
    k := |t|;
    if t != [] && Separates(t[|t| - 1]) {
      k := BackTrimmed(t[..|t| - 1]);
      assert t[k..] == t[..|t| - 1][k..] + [t[|t| - 1]] && t[..|t| - 1][..k] == t[..k];
    }
  }

  lemma ChainGrows(c: seq<Token>, a: Token, b: Token)
    requires ConstChain(c) && a.raw == "as" && b.raw == "const"
    ensures ConstChain(c + [a, b])
  {
    var all := c + [a, b];
    forall x | 0 <= x < |all| ensures all[x].raw == if x % 2 == 0 then "as" else "const" {
      if x < |c| { assert all[x] == c[x]; }
    }
  }

  lemma {:induction false} ConstTrimmed(t: seq<Token>) returns (j: nat)
    ensures j <= |t| && TrimConst(t) == t[..j] && ConstChain(t[j..]) && !EndsConst(t[..j])
    decreases |t|
  {
    j := |t|;
    assert t[..|t|] == t;
    if EndsConst(t) {
      var front := t[..|t| - 2];
      j := ConstTrimmed(front);
      ChainGrows(front[j..], t[|t| - 2], t[|t| - 1]);
      hide ConstChain, EndsConst;
      assert t[j..] == front[j..] + [t[|t| - 2], t[|t| - 1]] && front[..j] == t[..j];
    }
  }

  /** The tokens without the first and the last `x`. */
  function Inner(t: seq<Token>, x: nat): (r: seq<Token>)
    requires 2 * x <= |t|
  {
    t[x..|t| - x]
  }

  lemma InnerOfInner(t: seq<Token>, x: nat)
    requires 2 * (x + 1) <= |t|
    ensures Inner(Inner(t, 1), x) == Inner(t, x + 1)
  {
    var a, b := Inner(Inner(t, 1), x), Inner(t, x + 1);
    assert |a| == |b| && forall y | 0 <= y < |a| :: a[y] == b[y];
  }

  lemma {:induction false} ParensTrimmed(t: seq<Token>) returns (n: nat)
    ensures 2 * n <= |t| && TrimParens(t) == Inner(t, n) && !Enclosed(Inner(t, n))
    ensures forall x | 0 <= x < n :: Enclosed(Inner(t, x))
    decreases |t|
  {
    WrappedExactly(t);
    assert Inner(t, 0) == t;
    hide Enclosed;
    n := 0;
    if Wrapped(t) {
      var more := ParensTrimmed(Inner(t, 1));
      n := more + 1;
      InnerOfInner(t, more);
      hide Inner, Wrapped, TrimParens;
      forall x | 0 <= x < n ensures Enclosed(Inner(t, x)) {
        if x > 0 { InnerOfInner(t, x - 1); }
      }
    }
  }

  /** Separators at neither end. */
  predicate Bare(t: seq<Token>) {
    t != [] ==> t[0].raw != "," && t[0].raw != ";" && t[|t| - 1].raw != "," && t[|t| - 1].raw != ";"
  }

  /** What trimming takes off, outside in: separators on both sides, then every "as const" at the end, then every
      pair of parentheses around all that is left. */
  lemma TrimLeaves(t: seq<Token>)
    returns (before: seq<Token>, core: seq<Token>, chain: seq<Token>, after: seq<Token>, n: nat)
    ensures t == before + (core + chain) + after
    ensures AllSeparate(before) && AllSeparate(after) && Bare(core + chain)
    ensures ConstChain(chain) && !EndsConst(core)
    ensures 2 * n <= |core| && forall x | 0 <= x < n :: Enclosed(Inner(core, x))
    ensures Trim(t) == Inner(core, n) && !Enclosed(Trim(t))
  {
    var plain;
    before, plain, after := SeparatorsTrimmed(t);
    var j := ConstTrimmed(plain);
    core, chain := plain[..j], plain[j..];
    n := ParensTrimmed(core);
    hide *;
    Cut(plain, j);
    TrimUnfolds(t);
  }

  lemma Cut(t: seq<Token>, i: nat)
    requires i <= |t|
    ensures t == t[..i] + t[i..]
  {
  }

  lemma TrimUnfolds(t: seq<Token>)
    ensures Trim(t) == TrimParens(TrimConst(TrimBack(TrimFront(t))))
  {
  }

  lemma SeparatorsTrimmed(t: seq<Token>) returns (before: seq<Token>, plain: seq<Token>, after: seq<Token>)
    ensures t == before + plain + after && AllSeparate(before) && AllSeparate(after) && Bare(plain)
    ensures plain == TrimBack(TrimFront(t))
  {
    var i := FrontTrimmed(t);
    var front := t[i..];
    var back := BackTrimmed(front);
    before, plain, after := t[..i], front[..back], front[back..];
    hide AllSeparate, TrimBack, TrimFront;
    Cut(t, i);
    Cut(front, back);
    assert before + plain + after == before + (plain + after);
    assert plain != [] ==> plain[0] == front[0] == t[i] && plain[|plain| - 1] == front[back - 1];
  }

  // ---------- Splitting ----------

  datatype Nesting = Nesting(paren: int, brace: int, bracket: int)

  const FLAT := Nesting(0, 0, 0)

  predicate IsBracket(raw: string) {
    raw == "(" || raw == ")" || raw == "{" || raw == "}" || raw == "[" || raw == "]"
  }

  function Nested(n: Nesting, raw: string): (r: Nesting) {
    if raw == "(" then n.(paren := n.paren + 1)
    else if raw == ")" then n.(paren := n.paren - 1)
    else if raw == "{" then n.(brace := n.brace + 1)
    else if raw == "}" then n.(brace := n.brace - 1)
    else if raw == "[" then n.(bracket := n.bracket + 1)
    else if raw == "]" then n.(bracket := n.bracket - 1)
    else n
  }

  predicate SplitsAt(t: Token, n: Nesting, separator: string) {
    !IsBracket(t.raw) && t.raw == separator && n == FLAT
  }

  /** The untrimmed pieces of tokens[start..], when start..i-1 hold no separator outside brackets. */
  function Pieces(tokens: seq<Token>, start: nat, i: nat, n: Nesting, separator: string): (r: seq<seq<Token>>)
    requires start <= i <= |tokens|
    ensures r != []
    decreases |tokens| - i
  {
    if i == |tokens| then [tokens[start..]]
    else if SplitsAt(tokens[i], n, separator) then
      [tokens[start..i]] + Pieces(tokens, i + 1, i + 1, n, separator)
    else Pieces(tokens, start, i + 1, Nested(n, tokens[i].raw), separator)
  }

  function TrimAll(pieces: seq<seq<Token>>): (r: seq<seq<Token>>)
    ensures |r| == |pieces|
  {
    if pieces == [] then [] else [Trim(pieces[0])] + TrimAll(pieces[1..])
  }

  function Split(tokens: seq<Token>, separator: string): (r: seq<seq<Token>>) {
    TrimAll(Pieces(tokens, 0, 0, FLAT, separator))
  }

  lemma {:induction false} TrimAllAppend(a: seq<seq<Token>>, b: seq<seq<Token>>)
    ensures TrimAll(a + b) == TrimAll(a) + TrimAll(b)
    decreases |a|
  {
    hide Trim;
    if a == [] {
      assert a + b == b;
    } else {
      assert (a + b)[0] == a[0] && (a + b)[1..] == a[1..] + b;
      TrimAllAppend(a[1..], b);
    }
  }

  /** `splitTopLevel`. */
  method SplitTopLevel(tokens: seq<Token>, separator: string) returns (result: seq<seq<Token>>)
    ensures result == Split(tokens, separator)
  {
    hide Trim, TrimAll;
    result := [];
    var start := 0;
    var n := FLAT;
    ghost var done: seq<seq<Token>> := [];
    ghost var whole := Pieces(tokens, 0, 0, FLAT, separator);
    assert [] + whole == whole;
    TrimNothing();
    for i := 0 to |tokens|
      invariant start <= i && done + Pieces(tokens, start, i, n, separator) == whole && result == TrimAll(done)
    {
      if IsBracket(tokens[i].raw) {
        n := Nested(n, tokens[i].raw);
      } else if tokens[i].raw == separator && n == FLAT {
        ghost var piece := tokens[start..i];
        assert done + ([piece] + Pieces(tokens, i + 1, i + 1, n, separator)) ==
          done + [piece] + Pieces(tokens, i + 1, i + 1, n, separator);
        var trimmed := TrimTokens(tokens[start..i]);
        TrimAllAppend(done, [piece]);
        TrimOne(piece);
        result := result + [trimmed];
        done := done + [piece];
        start := i + 1;
      }
    }
    var last := TrimTokens(tokens[start..]);
    TrimAllAppend(done, [tokens[start..]]);
    TrimOne(tokens[start..]);
    result := result + [last];
  }

  lemma TrimNothing()
    ensures TrimAll([]) == []
  {
  }

  lemma TrimOne(piece: seq<Token>)
    ensures TrimAll([piece]) == [Trim(piece)]
  {
    hide Trim;
    assert [piece][1..] == [];
  }

  /** The pieces put together again, one separator between each two. */
  function Joined(pieces: seq<seq<Token>>, separators: seq<Token>): (r: seq<Token>)
    requires |separators| == |pieces| - 1
  {
    if |pieces| == 1 then pieces[0] else pieces[0] + [separators[0]] + Joined(pieces[1..], separators[1..])
  }

  /** Splitting loses nothing but separators. */
  lemma {:induction false} PiecesJoin(tokens: seq<Token>, start: nat, i: nat, n: Nesting, separator: string)
    returns (separators: seq<Token>)
    requires start <= i <= |tokens|
    ensures var pieces := Pieces(tokens, start, i, n, separator);
      |separators| == |pieces| - 1 && Joined(pieces, separators) == tokens[start..] &&
      forall t | t in separators :: t.raw == separator && !IsBracket(t.raw)
    decreases |tokens| - i
  {
    separators := [];
    if i < |tokens| {
      if SplitsAt(tokens[i], n, separator) {
        var more := PiecesJoin(tokens, i + 1, i + 1, n, separator);
        separators := [tokens[i]] + more;
        var rest := Pieces(tokens, i + 1, i + 1, n, separator);
        assert ([tokens[start..i]] + rest)[1..] == rest && separators[1..] == more;
        assert tokens[start..] == tokens[start..i] + [tokens[i]] + tokens[i + 1..];
      } else {
        separators := PiecesJoin(tokens, start, i + 1, Nested(n, tokens[i].raw), separator);
      }
    }
  }

  /** The brackets open after some tokens. */
  function NestingOf(t: seq<Token>): (n: Nesting) {
    if t == [] then FLAT else Nested(NestingOf(t[..|t| - 1]), t[|t| - 1].raw)
  }

  /** No separator outside brackets. */
  predicate Whole(t: seq<Token>, separator: string) {
    forall j | 0 <= j < |t| :: !SplitsAt(t[j], NestingOf(t[..j]), separator)
  }

  /** Pieces without separators outside brackets, all brackets closed where one ends and another follows. */
  predicate AreWhole(pieces: seq<seq<Token>>, separator: string) {
    forall k | 0 <= k < |pieces| :: Whole(pieces[k], separator) && (k < |pieces| - 1 ==> NestingOf(pieces[k]) == FLAT)
  }

  /** Tokens cut at separators outside brackets, and at every one of them. */
  predicate IsSplit(tokens: seq<Token>, pieces: seq<seq<Token>>, separators: seq<Token>, separator: string) {
    |separators| == |pieces| - 1 && Joined(pieces, separators) == tokens && AreWhole(pieces, separator) &&
    forall t | t in separators :: t.raw == separator && !IsBracket(t.raw)
  }

  lemma WholeHead(piece: seq<Token>, rest: seq<seq<Token>>, separator: string)
    ensures AreWhole([piece] + rest, separator) <==>
      Whole(piece, separator) && (rest != [] ==> NestingOf(piece) == FLAT) && AreWhole(rest, separator)
  {
    hide Whole, NestingOf;
    var all := [piece] + rest;
    assert all[0] == piece;
    if AreWhole(all, separator) {
      forall k | 0 <= k < |rest|
        ensures Whole(rest[k], separator) && (k < |rest| - 1 ==> NestingOf(rest[k]) == FLAT)
      {
        assert rest[k] == all[k + 1];
      }
    }
  }

  lemma WholeSnoc(t: seq<Token>, x: Token, separator: string)
    ensures NestingOf(t + [x]) == Nested(NestingOf(t), x.raw)
    ensures Whole(t + [x], separator) <==> Whole(t, separator) && !SplitsAt(x, NestingOf(t), separator)
  {
    var all := t + [x];
    assert all[..|t|] == t && all[|t|] == x;
    assert forall j | 0 <= j < |t| :: all[j] == t[j] && all[..j] == t[..j];
    hide NestingOf, SplitsAt;
    if Whole(all, separator) {
      forall j | 0 <= j < |t| ensures !SplitsAt(t[j], NestingOf(t[..j]), separator) {
        assert !SplitsAt(all[j], NestingOf(all[..j]), separator);
      }
    }
  }

  lemma {:induction false} PiecesAreWhole(tokens: seq<Token>, start: nat, i: nat, n: Nesting, separator: string)
    requires start <= i <= |tokens| && n == NestingOf(tokens[start..i]) && Whole(tokens[start..i], separator)
    ensures AreWhole(Pieces(tokens, start, i, n, separator), separator)
    decreases |tokens| - i
  {
    hide Whole, NestingOf, AreWhole;
    if i == |tokens| {
      assert tokens[start..i] == tokens[start..];
      OneWhole(tokens[start..], separator);
    } else if SplitsAt(tokens[i], n, separator) {
      assert tokens[i + 1..i + 1] == [];
      NoTokens(separator);
      PiecesAreWhole(tokens, i + 1, i + 1, n, separator);
      WholeHead(tokens[start..i], Pieces(tokens, i + 1, i + 1, n, separator), separator);
    } else {
      assert tokens[start..i + 1] == tokens[start..i] + [tokens[i]];
      WholeSnoc(tokens[start..i], tokens[i], separator);
      PiecesAreWhole(tokens, start, i + 1, Nested(n, tokens[i].raw), separator);
    }
  }

  lemma OneWhole(piece: seq<Token>, separator: string)
    requires Whole(piece, separator)
    ensures AreWhole([piece], separator)
  {
    hide Whole, NestingOf;
  }

  lemma NoTokens(separator: string)
    ensures NestingOf([]) == FLAT && Whole([], separator)
  {
  }

  /** The pieces are a split. */
  lemma PiecesSplit(tokens: seq<Token>, separator: string) returns (separators: seq<Token>)
    ensures IsSplit(tokens, Pieces(tokens, 0, 0, FLAT, separator), separators, separator)
  {
    separators := PiecesJoin(tokens, 0, 0, FLAT, separator);
    assert tokens[0..] == tokens && tokens[0..0] == [];
    PiecesAreWhole(tokens, 0, 0, FLAT, separator);
  }

  /** Nothing is cut inside a whole piece. */
  lemma {:induction false} NoCutInside(piece: seq<Token>, rest: seq<Token>, j: nat, separator: string)
    requires Whole(piece, separator) && j <= |piece|
    ensures Pieces(piece + rest, 0, 0, FLAT, separator) == Pieces(piece + rest, 0, j, NestingOf(piece[..j]), separator)
    decreases j
  {
    if j > 0 {
      NoCutInside(piece, rest, j - 1, separator);
      assert piece[..j][..j - 1] == piece[..j - 1] && (piece + rest)[j - 1] == piece[j - 1];
      assert !SplitsAt(piece[j - 1], NestingOf(piece[..j - 1]), separator);
    }
  }

  /** What stands before the start plays no part. */
  lemma {:induction false} PiecesOfTail(tokens: seq<Token>, from: nat, start: nat, i: nat, n: Nesting,
                                        separator: string)
    requires from <= |tokens| && start <= i <= |tokens| - from
    ensures Pieces(tokens, from + start, from + i, n, separator) == Pieces(tokens[from..], start, i, n, separator)
    decreases |tokens| - from - i
  {
    var tail := tokens[from..];
    assert tokens[from + start..] == tail[start..] && tokens[from + start..from + i] == tail[start..i];
    if i < |tail| {
      assert tokens[from + i] == tail[i];
      if SplitsAt(tail[i], n, separator) {
        PiecesOfTail(tokens, from, i + 1, i + 1, n, separator);
      } else {
        PiecesOfTail(tokens, from, start, i + 1, Nested(n, tail[i].raw), separator);
      }
    }
  }

  /** A whole piece is cut off at the separator that follows it. */
  lemma CutAfterWhole(piece: seq<Token>, cut: Token, after: seq<Token>, separator: string)
    requires Whole(piece, separator) && NestingOf(piece) == FLAT && cut.raw == separator && !IsBracket(cut.raw)
    ensures Pieces(piece + [cut] + after, 0, 0, FLAT, separator) == [piece] + Pieces(after, 0, 0, FLAT, separator)
  {
    var tokens, n := piece + [cut] + after, |piece|;
    assert tokens == piece + ([cut] + after) && piece[..n] == piece;
    NoCutInside(piece, [cut] + after, n, separator);
    assert tokens[n] == cut && tokens[0..n] == piece && tokens[n + 1..] == after;
    hide NestingOf, Whole;
    PiecesOfTail(tokens, n + 1, 0, 0, FLAT, separator);
  }

  lemma LastPiece(piece: seq<Token>, separator: string)
    requires Whole(piece, separator)
    ensures Pieces(piece, 0, 0, FLAT, separator) == [piece]
  {
    assert piece + [] == piece && piece[..|piece|] == piece && piece[0..] == piece;
    NoCutInside(piece, [], |piece|, separator);
    hide NestingOf, Whole;
  }

  /** The pieces are the only split. */
  lemma {:induction false} OnlySplit(
      tokens: seq<Token>, pieces: seq<seq<Token>>, separators: seq<Token>, separator: string)
    requires IsSplit(tokens, pieces, separators, separator)
    ensures pieces == Pieces(tokens, 0, 0, FLAT, separator)
    decreases |pieces|
  {
    hide NestingOf, Whole, Pieces, AreWhole;
    var piece, rest := pieces[0], pieces[1..];
    assert pieces == [piece] + rest;
    WholeHead(piece, rest, separator);
    if rest == [] {
      LastPiece(piece, separator);
    } else {
      assert separators[0] in separators;
      CutAfterWhole(piece, separators[0], Joined(rest, separators[1..]), separator);
      OnlySplit(Joined(rest, separators[1..]), rest, separators[1..], separator);
    }
  }

  lemma {:induction false} TrimAllShrinks(pieces: seq<seq<Token>>)
    ensures SumOfSizes(TrimAll(pieces)) <= SumOfSizes(pieces)
  {
    hide Trim;
    if pieces != [] {
      TrimAllShrinks(pieces[1..]);
      assert TrimAll(pieces)[1..] == TrimAll(pieces[1..]);
    }
  }

  lemma {:induction false} JoinedSize(pieces: seq<seq<Token>>, separators: seq<Token>)
    requires |separators| == |pieces| - 1
    ensures SumOfSizes(pieces) + |separators| <= Size(Joined(pieces, separators))
    decreases |pieces|
  {
    if |pieces| > 1 {
      JoinedSize(pieces[1..], separators[1..]);
      var rest := Joined(pieces[1..], separators[1..]);
      SizeAppend(pieces[0] + [separators[0]], rest);
      SizeAppend(pieces[0], [separators[0]]);
      NotEmptySize([separators[0]]);
    }
  }

  /** Two or more parts are together smaller than what was split. */
  lemma SplitShrinks(tokens: seq<Token>, separator: string)
    ensures |Split(tokens, separator)| > 1 ==> SumOfSizes(Split(tokens, separator)) < Size(tokens)
  {
    var pieces := Pieces(tokens, 0, 0, FLAT, separator);
    var separators := PiecesJoin(tokens, 0, 0, FLAT, separator);
    assert tokens[0..] == tokens;
    JoinedSize(pieces, separators);
    TrimAllShrinks(pieces);
  }

  lemma {:induction false} PartSmaller(list: seq<seq<Token>>, i: nat)
    requires i < |list|
    ensures Size(list[i]) <= SumOfSizes(list)
  {
    if i > 0 { PartSmaller(list[1..], i - 1); }
  }

  lemma {:induction false} HoleSmaller(parts: seq<Part>, i: nat)
    requires i < |parts| && parts[i].Hole?
    ensures Size(parts[i].tokens) < PartsSize(parts)
  {
    if i > 0 { HoleSmaller(parts[1..], i - 1); }
  }

  // ---------- Dotted names ----------

  /** ". identifier" repeated. */
  function DottedRest(t: seq<Token>): (r: seq<string>) {
    if |t| < 2 then [] else [t[1].raw] + DottedRest(t[2..])
  }

  predicate IsDotted(t: seq<Token>) {
    t == [] || (|t| >= 2 && t[0].raw == "." && t[1].kind.Identifier? && IsDotted(t[2..]))
  }

  function Join(parts: seq<string>): (r: string) {
    if parts == [] then "" else if |parts| == 1 then parts[0] else parts[0] + "." + Join(parts[1..])
  }

  /** The name that identifiers joined by dots spell. */
  function NameOf(tokens: seq<Token>): (r: (string, bool)) {
    var t := Trim(tokens);
    if t == [] || !t[0].kind.Identifier? || !IsDotted(t[1..]) then ("", false)
    else (Join([t[0].raw] + DottedRest(t[1..])), true)
  }

  /** Identifiers with a dot between each two. */
  predicate Alternates(t: seq<Token>) {
    |t| % 2 == 1 && forall x | 0 <= x < |t| :: if x % 2 == 0 then t[x].kind.Identifier? else t[x].raw == "."
  }

  /** The tokens written one after the other. */
  function Written(t: seq<Token>): (r: string) {
    if t == [] then "" else t[0].raw + Written(t[1..])
  }

  lemma AlternatesMore(a: Token, dot: Token, rest: seq<Token>)
    ensures Alternates([a, dot] + rest) <==> a.kind.Identifier? && dot.raw == "." && Alternates(rest)
  {
    var all := [a, dot] + rest;
    assert all[0] == a && all[1] == dot && forall x | 0 <= x < |rest| :: all[x + 2] == rest[x];
    if Alternates(all) {
      forall x | 0 <= x < |rest| ensures if x % 2 == 0 then rest[x].kind.Identifier? else rest[x].raw == "." {
        assert if (x + 2) % 2 == 0 then all[x + 2].kind.Identifier? else all[x + 2].raw == ".";
      }
    }
    if a.kind.Identifier? && dot.raw == "." && Alternates(rest) {
      forall x | 0 <= x < |all| ensures if x % 2 == 0 then all[x].kind.Identifier? else all[x].raw == "." {
        if x >= 2 { assert all[x] == rest[x - 2]; }
      }
    }
  }

  lemma AlternatesOne(a: Token)
    ensures Alternates([a]) <==> a.kind.Identifier?
    ensures Written([a]) == a.raw
  {
    assert |[a]| == 1 && [a][0] == a;
    assert Written([a][1..]) == "";
  }

  lemma WrittenMore(a: Token, dot: Token, rest: seq<Token>)
    ensures Written([a, dot] + rest) == a.raw + (dot.raw + Written(rest))
  {
    var all := [a, dot] + rest;
    assert all[1..] == [dot] + rest && all[1..][1..] == rest;
  }

  lemma JoinMore(name: string, names: seq<string>)
    requires names != []
    ensures Join([name] + names) == name + ("." + Join(names))
  {
    assert ([name] + names)[1..] == names;
    assert name + "." + Join(names) == name + ("." + Join(names));
  }

  lemma {:induction false} DottedAlternates(head: Token, t: seq<Token>)
    ensures head.kind.Identifier? && IsDotted(t) <==> Alternates([head] + t)
    ensures IsDotted(t) ==> Join([head.raw] + DottedRest(t)) == Written([head] + t)
    decreases |t|
  {
    if t == [] {
      assert [head] + t == [head] && [head.raw] + DottedRest(t) == [head.raw];
      AlternatesOne(head);
    } else if |t| == 1 {
      assert |[head] + t| == 2;
    } else {
      hide Alternates, Written, Join;
      var rest := [t[1]] + t[2..];
      assert [head] + t == [head, t[0]] + rest;
      DottedAlternates(t[1], t[2..]);
      AlternatesMore(head, t[0], rest);
      WrittenMore(head, t[0], rest);
      JoinMore(head.raw, [t[1].raw] + DottedRest(t[2..]));
    }
  }

  /** A name is found exactly in identifiers separated by dots, and is those tokens as written. */
  lemma NameIsAsWritten(tokens: seq<Token>)
    ensures NameOf(tokens) == if Alternates(Trim(tokens)) then (Written(Trim(tokens)), true) else ("", false)
  {
    hide Trim, Join, Written;
    var t := Trim(tokens);
    if t != [] {
      assert [t[0]] + t[1..] == t;
      DottedAlternates(t[0], t[1..]);
    }
  }

  /** `dottedName`. */
  method DottedName(tokens: seq<Token>) returns (name: string, ok: bool)
    ensures (name, ok) == NameOf(tokens)
  {
    hide Trim, Join;
    var t := TrimTokens(tokens);
    if t == [] || !t[0].kind.Identifier? { return "", false; }
    var parts := [t[0].raw];
    var i := 1;
    assert [t[0].raw] + DottedRest(t[1..]) == parts + DottedRest(t[i..]);
    while i < |t|
      invariant 1 <= i <= |t|
      invariant IsDotted(t[i..]) == IsDotted(t[1..])
      invariant parts + DottedRest(t[i..]) == [t[0].raw] + DottedRest(t[1..])
      decreases |t| - i
    {
      ghost var rest := t[i..];
      assert rest[0] == t[i];
      if i + 1 >= |t| || t[i].raw != "." || !t[i + 1].kind.Identifier? { return "", false; }
      assert rest[1] == t[i + 1] && rest[2..] == t[i + 2..];
      assert parts + ([t[i + 1].raw] + DottedRest(t[i + 2..])) == parts + [t[i + 1].raw] + DottedRest(t[i + 2..]);
      parts := parts + [t[i + 1].raw];
      i := i + 2;
    }
    assert t[i..] == [] && parts + [] == parts;
    return Join(parts), true;
  }
}
