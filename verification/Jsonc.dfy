/** internal/config/value.go: stripping comments and trailing commas from configuration text. Each `char`
    stands for one byte of the text. */
module Jsonc {
  import opened Text

  datatype Mode = Normal | InString(escaped: bool) | LineComment | BlockComment

  predicate Starts(t: string, first: char, second: char) {
    |t| >= 2 && t[0] == first && t[1] == second
  }

  /** The mode after one byte of a string. */
  function InStringNext(escaped: bool, c: char): (m: Mode) {
    if escaped then InString(false)
    else if c == '\\' then InString(true)
    else if c == '"' then Normal
    else InString(false)
  }

  // ---------- Comments ----------

  /** How many bytes one step of the scanner takes: two where a comment begins or a block comment ends. */
  function Width(mode: Mode, t: string): (n: nat)
    requires t != ""
    ensures 1 <= n <= |t|
  {
    if (mode.Normal? && (Starts(t, '/', '/') || Starts(t, '/', '*'))) || (mode.BlockComment? && Starts(t, '*', '/'))
    then 2
    else 1
  }

  function NextMode(mode: Mode, t: string): (r: Mode)
    requires t != ""
  {
    match mode
    case Normal =>
      if Starts(t, '/', '/') then LineComment
      else if Starts(t, '/', '*') then BlockComment
      else if t[0] == '"' then InString(false) else Normal
    case InString(escaped) => InStringNext(escaped, t[0])
    case LineComment => if t[0] == '\n' then Normal else LineComment
    case BlockComment => if Starts(t, '*', '/') then Normal else BlockComment
  }

  /** What one step leaves of the bytes it takes. */
  function Kept(mode: Mode, t: string): (r: string)
    requires t != ""
    ensures |r| == Width(mode, t)
  {
    if Width(mode, t) == 2 then "  "
    else if mode.InString? || mode.Normal? || t[0] == '\n' then [t[0]]
    else " "
  }

  /** The text with every comment blanked, newlines kept. */
  function Stripped(mode: Mode, t: string): (r: string)
    ensures |r| == |t|
    decreases |t|
  {
    if t == "" then "" else Kept(mode, t) + Stripped(NextMode(mode, t), t[Width(mode, t)..])
  }

  /** The mode at the end of the text. */
  function FinalMode(mode: Mode, t: string): (r: Mode)
    decreases |t|
  {
    if t == "" then mode else FinalMode(NextMode(mode, t), t[Width(mode, t)..])
  }

  /** `stripComments`, editing a copy of the text in place. */
  method StripComments(content: string) returns (r: Option<string>)
    ensures r == if FinalMode(Normal, content).BlockComment? then None else Some(Stripped(Normal, content))
  {
    hide Stripped, FinalMode;
    var result := new char[|content|](i requires 0 <= i < |content| => content[i]);
    var mode: Mode := Normal;
    var i := 0;
    ghost var target := Stripped(Normal, content);
    assert content[0..] == content && target[0..] == target;
    while i < result.Length
      invariant 0 <= i <= result.Length == |content|
      invariant FinalMode(mode, content[i..]) == FinalMode(Normal, content)
      invariant Stripped(mode, content[i..]) == target[i..]
      invariant forall k | 0 <= k < i :: result[k] == target[k]
      invariant forall k | i <= k < result.Length :: result[k] == content[k]
    {
      StripAligns(mode, content, i, target);
      match mode {
        case Normal =>
          if result[i] == '"' {
            mode := InString(false);
          } else if result[i] == '/' && i + 1 < result.Length && result[i + 1] in {'/', '*'} {
            mode := if result[i + 1] == '/' then LineComment else BlockComment;
            result[i], result[i + 1] := ' ', ' ';
            i := i + 1;
          }
        case InString(escaped) => mode := InStringNext(escaped, result[i]);
        case LineComment =>
          if result[i] == '\n' { mode := Normal; } else { result[i] := ' '; }
        case BlockComment =>
          if result[i] == '*' && i + 1 < result.Length && result[i + 1] == '/' {
            result[i], result[i + 1] := ' ', ' ';
            i := i + 1;
            mode := Normal;
          } else if result[i] != '\n' {
            result[i] := ' ';
          }
      }
      i := i + 1;
    }
    assert content[i..] == "" by { assert i == |content|; }
    Finished(mode);
    if mode.BlockComment? { return None; }
    assert result[..] == target;
    r := Some(result[..]);
  }

  lemma Finished(mode: Mode)
    ensures FinalMode(mode, "") == mode
  {
  }

  /** One step of the scanner, in positions of the whole text. */
  lemma StripAligns(mode: Mode, content: string, i: nat, target: string)
    requires i < |content| == |target| && Stripped(mode, content[i..]) == target[i..]
    ensures var rest := content[i..];
      var n := Width(mode, rest);
      FinalMode(mode, rest) == FinalMode(NextMode(mode, rest), content[i + n..]) &&
      Stripped(NextMode(mode, rest), content[i + n..]) == target[i + n..] &&
      target[i] == Kept(mode, rest)[0] && (n == 2 ==> target[i + 1] == ' ')
    ensures content[i..][0] == content[i] && (i + 1 < |content| ==> content[i..][1] == content[i + 1])
  {
    var rest := content[i..];
    var n := Width(mode, rest);
    assert rest[n..] == content[i + n..];
    assert target[i..][n..] == target[i + n..] && target[i..][0] == target[i];
    if n == 2 { assert target[i..][1] == target[i + 1]; }
  }

  // ---------- What stripping keeps ----------

  /** The mode in which a byte is read, when it is a byte that a step starts with. */
  ghost predicate ReadsIn(mode: Mode, t: string, i: nat, at: Mode)
    requires i < |t|
    decreases |t|
  {
    if i == 0 then at == mode
    else
      var n := Width(mode, t);
      i >= n && ReadsIn(NextMode(mode, t), t[n..], i - n, at)
  }

  /** Newlines stay where they are, bytes of strings are untouched, and every other byte is kept or blanked. */
  lemma {:induction false} StrippedBytes(mode: Mode, t: string, i: nat)
    requires i < |t|
    ensures var r := Stripped(mode, t);
      (r[i] == '\n' <==> t[i] == '\n') && (r[i] == t[i] || r[i] == ' ') &&
      (forall e :: ReadsIn(mode, t, i, InString(e)) ==> r[i] == t[i])
    decreases |t|
  {
    var n := Width(mode, t);
    var r := Stripped(mode, t);
    assert r[..n] == Kept(mode, t) && r[n..] == Stripped(NextMode(mode, t), t[n..]);
    if i >= n {
      StrippedBytes(NextMode(mode, t), t[n..], i - n);
      assert r[i] == r[n..][i - n] && t[i] == t[n..][i - n];
    } else {
      assert r[i] == Kept(mode, t)[i];
    }
  }

  /** The mode a stripped text is read in: comments have become blanks. */
  function Plain(mode: Mode): (r: Mode) {
    if mode.InString? then mode else Normal
  }

  /** In a stripped text no comment begins. */
  lemma {:induction false} StrippedHasNoComment(mode: Mode, t: string)
    requires t != "" && Plain(mode).Normal?
    ensures var r := Stripped(mode, t); !Starts(r, '/', '/') && !Starts(r, '/', '*')
    decreases |t|
  {
    var n := Width(mode, t);
    var r, rest := Stripped(mode, t), t[n..];
    assert r[0] == Kept(mode, t)[0];
    if r[0] == '/' {
      assert n == 1 && mode.Normal? && t[0] == '/' && NextMode(mode, t).Normal?;
      if |t| > 1 {
        StrippedBytes(Normal, rest, 0);
        assert r[1] == Stripped(Normal, rest)[0] && rest[0] == t[1];
      }
    }
  }

  lemma StrippedStep(mode: Mode, t: string)
    requires t != ""
    ensures Stripped(mode, t) == Kept(mode, t) + Stripped(NextMode(mode, t), t[Width(mode, t)..])
  {
  }

  /** Stripping twice is stripping once. */
  lemma {:induction false} StrippedTwice(mode: Mode, t: string)
    ensures Stripped(Plain(mode), Stripped(mode, t)) == Stripped(mode, t)
    decreases |t|
  {
    if t != "" {
      hide Stripped;
      StrippedStep(mode, t);
      var n := Width(mode, t);
      var next, rest := NextMode(mode, t), Stripped(NextMode(mode, t), t[Width(mode, t)..]);
      StrippedTwice(next, t[n..]);
      if Plain(mode).Normal? { StrippedHasNoComment(mode, t); }
      if n == 2 { BlanksStep(rest); } else { OtherStep(mode, t, Stripped(mode, t), rest); }
    }
  }

  lemma BlanksStep(rest: string)
    ensures Stripped(Normal, "  " + rest) == "  " + Stripped(Normal, rest)
  {
    assert "  " + rest == [' '] + ([' '] + rest);
    BlankStep([' '] + ([' '] + rest));
    BlankStep([' '] + rest);
    assert ([' '] + rest)[1..] == rest && ([' '] + ([' '] + rest))[1..] == [' '] + rest;
  }

  lemma OtherStep(mode: Mode, t: string, r: string, rest: string)
    requires t != "" && Width(mode, t) == 1 && r == Kept(mode, t) + rest
    requires Plain(mode).Normal? ==> !Starts(r, '/', '/') && !Starts(r, '/', '*')
    ensures Stripped(Plain(mode), r) == Kept(mode, t) + Stripped(Plain(NextMode(mode, t)), rest)
  {
    assert r[1..] == rest && r[0] == Kept(mode, t)[0];
  }

  lemma BlankStep(r: string)
    requires r != "" && r[0] == ' '
    ensures Stripped(Normal, r) == [' '] + Stripped(Normal, r[1..])
  {
  }

  // ---------- Tokens ----------

  /** A string with its quotes (unclosed at the end of the text), a punctuation byte, or a run of other bytes. */
  datatype Token = Text(bytes: string) | Punct(byte: char) | Word(bytes: string)

  predicate IsPunct(c: char) {
    c in {'{', '}', '[', ']', ':', ','}
  }

  predicate IsBlank(c: char) {
    c in {' ', '\t', '\r', '\n'}
  }

  function Flush(word: string): (tokens: seq<Token>) {
    if word == "" then [] else [Word(word)]
  }

  /** Comment-aware lexing; `word` holds the bytes of the string or run being read. */
  function Lex(mode: Mode, word: string, t: string): (tokens: seq<Token>)
    decreases |t|
  {
    if t == "" then
      match mode
      case Normal => Flush(word)
      case InString(_) => [Text(word)]
      case _ => []
    else
      var n, next := Width(mode, t), NextMode(mode, t);
      match mode
      case Normal =>
        if n == 2 then Flush(word) + Lex(next, "", t[2..])
        else LexByte(word, t)
      case InString(_) =>
        if next.Normal? then [Text(word + [t[0]])] + Lex(Normal, "", t[1..]) else Lex(next, word + [t[0]], t[1..])
      case _ => Lex(next, "", t[n..])
  }

  /** One byte outside strings and comments. */
  function LexByte(word: string, t: string): (tokens: seq<Token>)
    requires t != ""
    decreases |t|, 0
  {
    if t[0] == '"' then Flush(word) + Lex(InString(false), "\"", t[1..])
    else if IsPunct(t[0]) then Flush(word) + ([Punct(t[0])] + Lex(Normal, "", t[1..]))
    else if IsBlank(t[0]) then Flush(word) + Lex(Normal, "", t[1..])
    else Lex(Normal, word + [t[0]], t[1..])
  }

  /** Lexing by a scanner that knows no comments. */
  function PlainLex(mode: Mode, word: string, t: string): (tokens: seq<Token>)
    requires mode.Normal? || mode.InString?
    decreases |t|
  {
    if t == "" then (if mode.Normal? then Flush(word) else [Text(word)])
    else if mode.InString? then
      var next := InStringNext(mode.escaped, t[0]);
      if next.Normal? then [Text(word + [t[0]])] + PlainLex(Normal, "", t[1..])
      else PlainLex(next, word + [t[0]], t[1..])
    else if t[0] == '"' then Flush(word) + PlainLex(InString(false), "\"", t[1..])
    else if IsPunct(t[0]) then Flush(word) + ([Punct(t[0])] + PlainLex(Normal, "", t[1..]))
    else if IsBlank(t[0]) then Flush(word) + PlainLex(Normal, "", t[1..])
    else PlainLex(Normal, word + [t[0]], t[1..])
  }

  lemma PlainBlank(word: string, rest: string)
    ensures PlainLex(Normal, word, [' '] + rest) == Flush(word) + PlainLex(Normal, "", rest)
  {
    assert ([' '] + rest)[1..] == rest;
  }

  lemma PlainBlanks(word: string, rest: string)
    ensures PlainLex(Normal, word, "  " + rest) == Flush(word) + PlainLex(Normal, "", rest)
  {
    assert "  " + rest == [' '] + ([' '] + rest);
    PlainBlank(word, [' '] + rest);
    PlainBlank("", rest);
    assert Flush(word) + ([] + PlainLex(Normal, "", rest)) == Flush(word) + PlainLex(Normal, "", rest);
  }

  /** The stripped text, read as plain JSON, has the tokens that the commented text has. */
  lemma {:induction false} StrippingKeepsTokens(mode: Mode, word: string, t: string)
    requires mode.LineComment? || mode.BlockComment? ==> word == ""
    ensures PlainLex(Plain(mode), word, Stripped(mode, t)) == Lex(mode, word, t)
    decreases |t|
  {
    if t != "" {
      var n, next := Width(mode, t), NextMode(mode, t);
      var rest := Stripped(next, t[n..]);
      assert Stripped(mode, t) == Kept(mode, t) + rest;
      hide Stripped;
      if mode.Normal? && n == 1 {
        StrippingKeepsTokens(next, NextWord(word, t[0]), t[1..]);
        ByteTokens(word, t, rest);
      } else if mode.InString? {
        StrippingKeepsTokens(next, if next.Normal? then "" else word + [t[0]], t[1..]);
        StringByteTokens(mode, word, t, rest);
      } else {
        StrippingKeepsTokens(next, "", t[n..]);
        CommentTokens(mode, word, t, rest);
      }
    }
  }

  lemma ByteTokens(word: string, t: string, rest: string)
    requires t != "" && Width(Normal, t) == 1
    requires var next := NextMode(Normal, t);
      PlainLex(next, NextWord(word, t[0]), rest) == Lex(next, NextWord(word, t[0]), t[1..])
    ensures PlainLex(Normal, word, [t[0]] + rest) == Lex(Normal, word, t)
  {
    assert ([t[0]] + rest)[1..] == rest;
  }

  lemma StringByteTokens(mode: Mode, word: string, t: string, rest: string)
    requires mode.InString? && t != ""
    requires var next := NextMode(mode, t);
      var w := if next.Normal? then "" else word + [t[0]];
      PlainLex(next, w, rest) == Lex(next, w, t[1..])
    ensures PlainLex(mode, word, [t[0]] + rest) == Lex(mode, word, t)
  {
    assert ([t[0]] + rest)[1..] == rest;
  }

  /** The bytes at which a comment begins, goes on or ends. */
  lemma CommentTokens(mode: Mode, word: string, t: string, rest: string)
    requires t != "" && !mode.InString? && (mode.Normal? ==> Width(mode, t) == 2) && (!mode.Normal? ==> word == "")
    requires PlainLex(Normal, "", rest) == Lex(NextMode(mode, t), "", t[Width(mode, t)..])
    ensures PlainLex(Normal, word, Kept(mode, t) + rest) == Lex(mode, word, t)
  {
    assert [] + PlainLex(Normal, "", rest) == PlainLex(Normal, "", rest);
    if Width(mode, t) == 2 {
      PlainBlanks(word, rest);
    } else {
      var r := Kept(mode, t) + rest;
      assert IsBlank(r[0]) && r[1..] == rest;
    }
  }

  /** The run being read after a byte that is not a comment. */
  function NextWord(word: string, c: char): (r: string) {
    if c == '"' then "\"" else if IsPunct(c) || IsBlank(c) then "" else word + [c]
  }

  // ---------- Trailing commas ----------

  /** The first byte at or after the start that is not blank. */
  function NextVisible(t: string): (c: Option<char>) {
    if t == "" then None else if IsBlank(t[0]) then NextVisible(t[1..]) else Some(t[0])
  }

  predicate Closes(t: string) {
    NextVisible(t) in {Some('}'), Some(']')}
  }

  /** One pass from the left, deciding each comma by the text after it. */
  function WithoutTrailing(mode: Mode, t: string): (r: string)
    requires mode.Normal? || mode.InString?
    ensures |r| == |t|
    decreases |t|
  {
    if t == "" then ""
    else if mode.InString? then [t[0]] + WithoutTrailing(InStringNext(mode.escaped, t[0]), t[1..])
    else
      [if t[0] == ',' && Closes(t[1..]) then ' ' else t[0]] +
      WithoutTrailing(if t[0] == '"' then InString(false) else Normal, t[1..])
  }

  lemma {:induction false} VisibleFrom(t: string, i: nat)
    requires i <= |t| && forall k | 0 <= k < i :: IsBlank(t[k])
    ensures NextVisible(t[i..]) == NextVisible(t)
    decreases i
  {
    if i > 0 {
      assert t[1..][i - 1..] == t[i..];
      VisibleFrom(t[1..], i - 1);
    } else {
      assert t[0..] == t;
    }
  }

  /** `stripTrailingCommas`. */
  method StripTrailingCommas(content: string) returns (r: string)
    ensures r == WithoutTrailing(Normal, content)
  {
    hide WithoutTrailing;
    var result := new char[|content|](i requires 0 <= i < |content| => content[i]);
    var mode: Mode := Normal;
    ghost var target := WithoutTrailing(Normal, content);
    assert content[0..] == content && target[0..] == target;
    for i := 0 to result.Length
      invariant mode.Normal? || mode.InString?
      invariant WithoutTrailing(mode, content[i..]) == target[i..]
      invariant forall k | 0 <= k < i :: result[k] == target[k]
      invariant forall k | i <= k < result.Length :: result[k] == content[k]
    {
      CommaAligns(mode, content, i, target);
      if mode.InString? {
        mode := InStringNext(mode.escaped, result[i]);
      } else if result[i] == '"' {
        mode := InString(false);
      } else if result[i] == ',' {
        var next := i + 1;
        while next < result.Length && IsBlank(result[next])
          invariant i < next <= result.Length
          invariant forall k | i < k < next :: IsBlank(content[k])
        {
          next := next + 1;
        }
        VisibleFrom(content[i + 1..], next - i - 1);
        assert content[i + 1..][next - i - 1..] == content[next..];
        VisibleAt(content, next);
        if next < result.Length && result[next] in {'}', ']'} { result[i] := ' '; }
      }
    }
    assert result[..] == target;
    r := result[..];
  }

  lemma VisibleAt(t: string, i: nat)
    requires i <= |t| && (i < |t| ==> !IsBlank(t[i]))
    ensures NextVisible(t[i..]) == if i < |t| then Some(t[i]) else None
  {
  }

  lemma CommaAligns(mode: Mode, content: string, i: nat, target: string)
    requires (mode.Normal? || mode.InString?) && i < |content| == |target|
    requires WithoutTrailing(mode, content[i..]) == target[i..]
    ensures var next :=
        if mode.InString? then InStringNext(mode.escaped, content[i])
        else if content[i] == '"' then InString(false)
        else Normal;
      WithoutTrailing(next, content[i + 1..]) == target[i + 1..]
    ensures target[i] == if mode.Normal? && content[i] == ',' && Closes(content[i + 1..]) then ' ' else content[i]
  {
    assert content[i..][1..] == content[i + 1..] && content[i..][0] == content[i];
    assert target[i..][1..] == target[i + 1..] && target[i..][0] == target[i];
  }

  /** The tokens without the commas that stand right before a closing bracket or brace. */
  function DropTrailing(tokens: seq<Token>): (r: seq<Token>) {
    if tokens == [] then []
    else if tokens[0] == Punct(',') && |tokens| > 1 && tokens[1] in {Punct('}'), Punct(']')}
    then DropTrailing(tokens[1..])
    else [tokens[0]] + DropTrailing(tokens[1..])
  }

  /** What the next visible byte says about the next token. */
  lemma {:induction false} NextToken(t: string)
    ensures var tokens := PlainLex(Normal, "", t);
      Closes(t) <==> tokens != [] && tokens[0] in {Punct('}'), Punct(']')}
    decreases |t|
  {
    if t != "" && IsBlank(t[0]) {
      NextToken(t[1..]);
      assert [] + PlainLex(Normal, "", t[1..]) == PlainLex(Normal, "", t[1..]);
    } else if t != "" && !IsPunct(t[0]) {
      if t[0] == '"' {
        StringToken(InString(false), "\"", t[1..]);
        assert [] + PlainLex(InString(false), "\"", t[1..]) == PlainLex(InString(false), "\"", t[1..]);
      } else {
        WordToken([t[0]], t[1..]);
        assert "" + [t[0]] == [t[0]];
      }
    }
  }

  lemma {:induction false} StringToken(mode: Mode, word: string, t: string)
    requires mode.InString?
    ensures var tokens := PlainLex(mode, word, t); tokens != [] && tokens[0].Text?
    decreases |t|
  {
    if t != "" && !InStringNext(mode.escaped, t[0]).Normal? {
      StringToken(InStringNext(mode.escaped, t[0]), word + [t[0]], t[1..]);
    }
  }

  lemma {:induction false} WordToken(word: string, t: string)
    requires word != ""
    ensures var tokens := PlainLex(Normal, word, t); tokens != [] && tokens[0].Word?
    decreases |t|
  {
    if t != "" && !IsPunct(t[0]) && !IsBlank(t[0]) && t[0] != '"' { WordToken(word + [t[0]], t[1..]); }
  }

  lemma DropKeeps(token: Token, rest: seq<Token>)
    requires token != Punct(',') || rest == [] || rest[0] !in {Punct('}'), Punct(']')}
    ensures DropTrailing([token] + rest) == [token] + DropTrailing(rest)
  {
    assert ([token] + rest)[1..] == rest;
  }

  lemma DropFlush(word: string, rest: seq<Token>)
    ensures DropTrailing(Flush(word) + rest) == Flush(word) + DropTrailing(rest)
  {
    if word == "" {
      assert [] + rest == rest && [] + DropTrailing(rest) == DropTrailing(rest);
    } else {
      DropKeeps(Word(word), rest);
    }
  }

  /** The pass removes exactly the comma tokens that a closing token follows, and no other. */
  lemma {:induction false} TrailingCommasDropped(mode: Mode, word: string, t: string)
    requires mode.Normal? || mode.InString?
    ensures PlainLex(mode, word, WithoutTrailing(mode, t)) == DropTrailing(PlainLex(mode, word, t))
    decreases |t|
  {
    if t == "" {
      if mode.InString? {
        DropKeeps(Text(word), []);
        assert [Text(word)] + [] == [Text(word)];
      } else {
        DropFlush(word, []);
        assert Flush(word) + [] == Flush(word);
      }
    } else {
      var c, rest := t[0], t[1..];
      var r := WithoutTrailing(mode, t);
      if mode.InString? {
        var next := InStringNext(mode.escaped, c);
        assert r[0] == c && r[1..] == WithoutTrailing(next, rest);
        TrailingCommasDropped(next, if next.Normal? then "" else word + [c], rest);
        if next.Normal? { DropKeeps(Text(word + [c]), PlainLex(Normal, "", rest)); }
      } else {
        TrailingByte(word, t);
      }
    }
  }

  lemma {:induction false} TrailingByte(word: string, t: string)
    requires t != ""
    ensures PlainLex(Normal, word, WithoutTrailing(Normal, t)) == DropTrailing(PlainLex(Normal, word, t))
    decreases |t|, 0
  {
    var c, rest := t[0], t[1..];
    var r := WithoutTrailing(Normal, t);
    var next := if c == '"' then InString(false) else Normal;
    var after := WithoutTrailing(next, rest);
    assert r[1..] == after;
    TrailingCommasDropped(next, NextWord(word, c), rest);
    NextToken(rest);
    hide WithoutTrailing, DropTrailing;
    if c == ',' && Closes(rest) {
      var tokens := PlainLex(Normal, "", rest);
      assert r == [' '] + after;
      PlainBlank(word, after);
      DropFlush(word, [Punct(',')] + tokens);
      CommaDropped(tokens);
    } else if c == '"' {
      DropFlush(word, PlainLex(next, "\"", rest));
    } else if IsPunct(c) {
      DropFlush(word, [Punct(c)] + PlainLex(Normal, "", rest));
      DropKeeps(Punct(c), PlainLex(Normal, "", rest));
    } else if IsBlank(c) {
      DropFlush(word, PlainLex(Normal, "", rest));
    }
  }

  lemma CommaDropped(tokens: seq<Token>)
    requires tokens != [] && tokens[0] in {Punct('}'), Punct(']')}
    ensures DropTrailing([Punct(',')] + tokens) == DropTrailing(tokens)
  {
    assert ([Punct(',')] + tokens)[1..] == tokens;
  }

  // ---------- A single pass ----------

  /** The text after its first visible byte. */
  function AfterVisible(t: string): (r: string) {
    if t == "" then "" else if IsBlank(t[0]) then AfterVisible(t[1..]) else t[1..]
  }

  /** Somewhere outside strings a comma is followed by another comma, and that one by a closing byte. */
  predicate Doubled(mode: Mode, t: string)
    requires mode.Normal? || mode.InString?
    decreases |t|
  {
    t != "" &&
    if mode.InString? then Doubled(InStringNext(mode.escaped, t[0]), t[1..])
    else
      (t[0] == ',' && NextVisible(t[1..]) == Some(',') && Closes(AfterVisible(t[1..]))) ||
      Doubled(if t[0] == '"' then InString(false) else Normal, t[1..])
  }

  /** Blanking can only uncover a closing byte behind a comma that was itself trailing. */
  lemma {:induction false} ClosesAfterPass(t: string)
    ensures NextVisible(t) != Some(',') ==> NextVisible(WithoutTrailing(Normal, t)) == NextVisible(t)
    ensures Closes(WithoutTrailing(Normal, t)) <==>
      Closes(t) || (NextVisible(t) == Some(',') && Closes(AfterVisible(t)))
    decreases |t|
  {
    if t != "" {
      var r := WithoutTrailing(Normal, t);
      if IsBlank(t[0]) {
        assert r[0] == t[0] && r[1..] == WithoutTrailing(Normal, t[1..]);
        ClosesAfterPass(t[1..]);
      } else if t[0] == ',' {
        assert r[1..] == WithoutTrailing(Normal, t[1..]);
        ClosesAfterPass(t[1..]);
      }
    }
  }

  /** The pass is idempotent on a text exactly when no trailing comma stands right behind another comma. */
  lemma {:induction false} IdempotentUnlessDoubled(mode: Mode, t: string)
    requires mode.Normal? || mode.InString?
    ensures var r := WithoutTrailing(mode, t); WithoutTrailing(mode, r) == r <==> !Doubled(mode, t)
    decreases |t|
  {
    if t != "" {
      var r := WithoutTrailing(mode, t);
      var next :=
        if mode.InString? then InStringNext(mode.escaped, t[0])
        else if t[0] == '"' then InString(false)
        else Normal;
      var rest := WithoutTrailing(next, t[1..]);
      IdempotentUnlessDoubled(next, t[1..]);
      assert r[1..] == rest;
      if mode.Normal? { ClosesAfterPass(t[1..]); }
      hide WithoutTrailing;
      PassTwice(mode, r, next);
      assert WithoutTrailing(mode, r) == r <==>
        WithoutTrailing(mode, r)[0] == r[0] && WithoutTrailing(mode, r)[1..] == r[1..];
    }
  }

  lemma PassTwice(mode: Mode, r: string, next: Mode)
    requires (mode.Normal? || mode.InString?) && r != "" && (next.Normal? || next.InString?)
    requires next ==
      if mode.InString? then InStringNext(mode.escaped, r[0])
      else if r[0] == '"' then InString(false)
      else Normal
    ensures WithoutTrailing(mode, r)[1..] == WithoutTrailing(next, r[1..])
    ensures WithoutTrailing(mode, r)[0] == if mode.Normal? && r[0] == ',' && Closes(r[1..]) then ' ' else r[0]
  {
  }

  lemma DoubledExample()
    ensures WithoutTrailing(Normal, ",,]") == ", ]" && WithoutTrailing(Normal, ", ]") == "  ]"
  {
    assert ",,]"[1..] == ",]" && ",]"[1..] == "]" && ", ]"[1..] == " ]" && " ]"[1..] == "]" && "]"[1..] == "";
    assert NextVisible("]") == Some(']') && NextVisible(",]") == Some(',') && NextVisible(" ]") == Some(']');
  }
}
