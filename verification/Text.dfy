/** Text helpers the Go sources take from `strings` and `strconv`.
    A Go string holding valid UTF-8 is modelled as a sequence of Unicode scalar values. */
module Text {

  datatype Option<+T> = None | Some(value: T) {
    function GetOr(default: T): (r: T) {
      if Some? then value else default
    }
  }

  datatype Result<+T, +E> = Ok(value: T) | Err(error: E)

  /** The characters that `unicode.IsSpace` accepts. */
  predicate IsSpace(c: char) {
    c in {'\t', '\n', '\U{000B}', '\U{000C}', '\r', ' ', '\U{0085}', '\U{00A0}', '\U{1680}',
          '\U{2028}', '\U{2029}', '\U{202F}', '\U{205F}', '\U{3000}'} ||
    '\U{2000}' <= c <= '\U{200A}'
  }

  function TrimLeft(s: string): (r: string) {
    if s != "" && IsSpace(s[0]) then TrimLeft(s[1..]) else s
  }

  function TrimRight(s: string): (r: string) {
    if s != "" && IsSpace(s[|s| - 1]) then TrimRight(s[..|s| - 1]) else s
  }

  function TrimSpace(s: string): (r: string) {
    TrimRight(TrimLeft(s))
  }

  /** Non-empty and equal to its own trimmed form: the identity test of every validator here. */
  predicate Identity(s: string) {
    TrimSpace(s) != "" && s == TrimSpace(s)
  }

  /** Whether a text trims to nothing. */
  predicate Blank(s: string) {
    TrimSpace(s) == ""
  }

  lemma TrimKeeps(s: string)
    requires s != "" ==> !IsSpace(s[0]) && !IsSpace(s[|s| - 1])
    ensures TrimSpace(s) == s
  {
  }

  /** A prefix that begins with a visible character keeps a trimmed, non-empty tail an identity. */
  lemma PrefixedIdentity(prefix: string, s: string)
    requires prefix != "" && !IsSpace(prefix[0])
    requires Identity(s)
    ensures Identity(prefix + s)
  {
    TrimRightEnd(TrimLeft(s));
    TrimKeeps(prefix + s);
  }

  lemma TrimRightEnd(s: string)
    ensures var r := TrimRight(s); r != "" ==> !IsSpace(r[|r| - 1])
  {
  }
}
