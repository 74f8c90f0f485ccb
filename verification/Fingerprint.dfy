/** The byte stream that a projection rebuild feeds its hasher (internal/store/sqlite/rebuild.go), and that
    no two lists of events feed it the same bytes. */
module Fingerprint {
  import opened EventStore

  type Byte = x: int | 0 <= x < 256

  type Bytes = seq<Byte>

  // ---------- UTF-8 ----------

  function Utf8Char(c: char): (b: Bytes) {
    var n := c as int;
    if n < 0x80 then [n]
    else if n < 0x800 then [0xC0 + n / 64, 0x80 + n % 64]
    else if n < 0x10000 then [0xE0 + n / 4096, 0x80 + n / 64 % 64, 0x80 + n % 64]
    else [0xF0 + n / 262144, 0x80 + n / 4096 % 64, 0x80 + n / 64 % 64, 0x80 + n % 64]
  }

  /** A Go string's bytes. */
  function Utf8(s: string): (b: Bytes) {
    if s == "" then [] else Utf8Char(s[0]) + Utf8(s[1..])
  }

  /** The first byte tells how long a character is. */
  function LengthAt(first: Byte): (n: nat) {
    if first < 0x80 then 1 else if first < 0xE0 then 2 else if first < 0xF0 then 3 else 4
  }

  function CharValue(b: Bytes): (n: int)
    requires b != [] && |b| == LengthAt(b[0])
  {
    if |b| == 1 then b[0]
    else if |b| == 2 then (b[0] as int - 0xC0) * 64 + (b[1] as int - 0x80)
    else if |b| == 3 then (b[0] as int - 0xE0) * 4096 + (b[1] as int - 0x80) * 64 + (b[2] as int - 0x80)
    else (b[0] as int - 0xF0) * 262144 + (b[1] as int - 0x80) * 4096 + (b[2] as int - 0x80) * 64 + (b[3] as int - 0x80)
  }

  lemma Split3(n: int)
    requires 0 <= n
    ensures n / 4096 * 4096 + n / 64 % 64 * 64 + n % 64 == n
  {
    assert n / 64 / 64 == n / 4096;
    assert n == n / 64 * 64 + n % 64;
    assert n / 64 == n / 64 / 64 * 64 + n / 64 % 64;
  }

  lemma Split4(n: int)
    requires 0 <= n
    ensures n / 262144 * 262144 + n / 4096 % 64 * 4096 + n / 64 % 64 * 64 + n % 64 == n
  {
    Split3(n);
    assert n / 4096 / 64 == n / 262144;
    assert n / 4096 == n / 4096 / 64 * 64 + n / 4096 % 64;
  }

  lemma CharBytes(c: char)
    ensures var b := Utf8Char(c); b != [] && |b| == LengthAt(b[0]) && CharValue(b) == c as int
  {
    Split3(c as int);
    Split4(c as int);
  }

  lemma {:induction false} Utf8Injective(s: string, t: string)
    ensures Utf8(s) == Utf8(t) ==> s == t
    decreases |s|
  {
    if Utf8(s) == Utf8(t) {
      if s != "" { CharBytes(s[0]); }
      if t != "" { CharBytes(t[0]); }
      if s != "" && t != "" {
        var x, y := Utf8Char(s[0]), Utf8Char(t[0]);
        assert Utf8(s)[0] == x[0] && Utf8(t)[0] == y[0];
        Cut(x, Utf8(s[1..]), y, Utf8(t[1..]));
        Utf8Injective(s[1..], t[1..]);
        assert s[0] as int == t[0] as int;
        assert s == [s[0]] + s[1..] && t == [t[0]] + t[1..];
      }
    }
  }

  /** Equal concatenations with heads of one length have equal heads and tails. */
  lemma Cut(a: Bytes, u: Bytes, b: Bytes, v: Bytes)
    requires a + u == b + v && |a| == |b|
    ensures a == b && u == v
  {
    assert a == (a + u)[..|a|] && u == (a + u)[|a|..];
    assert b == (b + v)[..|b|] && v == (b + v)[|b|..];
  }

  // ---------- Framing ----------

  const WORD := 0x1_0000_0000_0000_0000

  function Power256(k: nat): (p: nat)
    ensures p > 0
  {
    if k == 0 then 1 else 256 * Power256(k - 1)
  }

  /** The low `k` bytes of a number, highest first. */
  function BigEndian(n: nat, k: nat): (b: Bytes)
    ensures |b| == k
  {
    if k == 0 then [] else BigEndian(n / 256, k - 1) + [n % 256]
  }

  lemma {:induction false} BigEndianInjective(m: nat, n: nat, k: nat)
    requires m < Power256(k) && n < Power256(k) && BigEndian(m, k) == BigEndian(n, k)
    ensures m == n
    decreases k
  {
    if k > 0 {
      Cut(BigEndian(m / 256, k - 1), [m % 256], BigEndian(n / 256, k - 1), [n % 256]);
      assert m % 256 == [m % 256][0] && n % 256 == [n % 256][0];
      BigEndianInjective(m / 256, n / 256, k - 1);
    }
  }

  lemma WordInjective(m: nat, n: nat)
    requires m < WORD && n < WORD && BigEndian(m, 8) == BigEndian(n, 8)
    ensures m == n
  {
    assert Power256(8) == WORD by {
      assert Power256(2) == 0x1_0000 && Power256(4) == 0x1_0000_0000;
    }
    BigEndianInjective(m, n, 8);
  }

  /** `writeRebuildHashField`: the length as a 64-bit word, then the bytes. */
  function Field(value: Bytes): (b: Bytes) {
    BigEndian(|value| % WORD, 8) + value
  }

  /** `uint64(sequence)`. */
  function SequenceWord(sequence: Int64): (b: Bytes) {
    BigEndian(sequence % WORD, 8)
  }

  function RowBytes(row: StoredEvent): (b: Bytes) {
    Field(Utf8(row.id)) + (Field(Utf8(row.aggregate)) + (SequenceWord(row.sequence) +
      (Field(Utf8(row.name)) + Field(Utf8(row.data)))))
  }

  function RowsBytes(rows: seq<StoredEvent>): (b: Bytes) {
    if rows == [] then [] else RowBytes(rows[0]) + RowsBytes(rows[1..])
  }

  /** A Go slice is shorter than a 64-bit word can say. */
  predicate Sized(row: StoredEvent) {
    |Utf8(row.id)| < WORD && |Utf8(row.aggregate)| < WORD && |Utf8(row.name)| < WORD && |Utf8(row.data)| < WORD
  }

  lemma FieldCut(x: Bytes, u: Bytes, y: Bytes, v: Bytes)
    requires |x| < WORD && |y| < WORD && Field(x) + u == Field(y) + v
    ensures x == y && u == v
  {
    hide BigEndian;
    var a, b := BigEndian(|x| % WORD, 8), BigEndian(|y| % WORD, 8);
    assert |x| % WORD == |x| && |y| % WORD == |y|;
    assert Field(x) + u == a + (x + u) && Field(y) + v == b + (y + v);
    Cut(a, x + u, b, y + v);
    WordInjective(|x|, |y|);
    Cut(x, u, y, v);
  }

  lemma TextCut(s: string, u: Bytes, t: string, v: Bytes)
    requires |Utf8(s)| < WORD && |Utf8(t)| < WORD && Field(Utf8(s)) + u == Field(Utf8(t)) + v
    ensures s == t && u == v
  {
    FieldCut(Utf8(s), u, Utf8(t), v);
    Utf8Injective(s, t);
  }

  lemma SequenceCut(x: Int64, u: Bytes, y: Int64, v: Bytes)
    requires SequenceWord(x) + u == SequenceWord(y) + v
    ensures x == y && u == v
  {
    Cut(SequenceWord(x), u, SequenceWord(y), v);
    WordInjective(x % WORD, y % WORD);
  }

  /** A row's bytes in front of any continuation determine the row. */
  lemma RowCut(r: StoredEvent, u: Bytes, s: StoredEvent, v: Bytes)
    requires Sized(r) && Sized(s) && RowBytes(r) + u == RowBytes(s) + v
    ensures r == s && u == v
  {
    hide Utf8, Field, SequenceWord;
    var r4, s4 := Field(Utf8(r.data)) + u, Field(Utf8(s.data)) + v;
    var r3, s3 := Field(Utf8(r.name)) + r4, Field(Utf8(s.name)) + s4;
    var r2, s2 := SequenceWord(r.sequence) + r3, SequenceWord(s.sequence) + s3;
    var r1, s1 := Field(Utf8(r.aggregate)) + r2, Field(Utf8(s.aggregate)) + s2;
    assert RowBytes(r) + u == Field(Utf8(r.id)) + r1 && RowBytes(s) + v == Field(Utf8(s.id)) + s1;
    TextCut(r.id, r1, s.id, s1);
    TextCut(r.aggregate, r2, s.aggregate, s2);
    SequenceCut(r.sequence, r3, s.sequence, s3);
    TextCut(r.name, r4, s.name, s4);
    TextCut(r.data, u, s.data, v);
  }

  // ---------- Reading the stream ----------

  /** The number that bytes stand for, the first being the most significant. */
  function Number(b: Bytes): (n: nat) {
    if b == [] then 0 else Number(b[..|b| - 1]) * 256 + b[|b| - 1]
  }

  lemma {:induction false} NumberOfBigEndian(n: nat, k: nat)
    requires n < Power256(k)
    ensures Number(BigEndian(n, k)) == n
    decreases k
  {
    if k > 0 {
      NumberOfBigEndian(n / 256, k - 1);
      assert BigEndian(n, k)[..k - 1] == BigEndian(n / 256, k - 1) && BigEndian(n, k)[k - 1] == n % 256;
    }
  }

  lemma WordReads(n: nat, rest: Bytes)
    requires n < WORD
    ensures var b := BigEndian(n, 8) + rest; |b| >= 8 && Number(b[..8]) == n && b[8..] == rest
  {
    assert Power256(8) == WORD by {
      assert Power256(2) == 0x1_0000 && Power256(4) == 0x1_0000_0000;
    }
    NumberOfBigEndian(n, 8);
    hide BigEndian, Number;
    var b := BigEndian(n, 8) + rest;
    assert b[..8] == BigEndian(n, 8);
  }

  /** A value that its length, as a word, precedes. */
  predicate Starts(b: Bytes, value: Bytes, rest: Bytes) {
    |b| == 8 + |value| + |rest| && Number(b[..8]) == |value| && b[8..8 + |value|] == value && b[8 + |value|..] == rest
  }

  lemma FieldStarts(value: Bytes, rest: Bytes)
    requires |value| < WORD
    ensures Starts(Field(value) + rest, value, rest)
  {
    WordReads(|value|, value + rest);
    hide BigEndian, Number;
    assert |value| % WORD == |value|;
    var b := Field(value) + rest;
    assert b == BigEndian(|value|, 8) + (value + rest);
    assert b[8..8 + |value|] == (value + rest)[..|value|] && b[8 + |value|..] == (value + rest)[|value|..];
  }

  /** A sequence as a word of two's complement. */
  predicate StartsWithSequence(b: Bytes, sequence: Int64, rest: Bytes) {
    |b| == 8 + |rest| && b[8..] == rest && Number(b[..8]) == if sequence >= 0 then sequence else sequence + WORD
  }

  lemma SequenceStarts(sequence: Int64, rest: Bytes)
    ensures StartsWithSequence(SequenceWord(sequence) + rest, sequence, rest)
  {
    assert sequence % WORD == if sequence >= 0 then sequence else sequence + WORD;
    WordReads(sequence % WORD, rest);
    hide BigEndian, Number;
  }

  lemma RowJoins(row: StoredEvent, rest: Bytes)
    ensures RowBytes(row) + rest ==
      Field(Utf8(row.id)) + (Field(Utf8(row.aggregate)) + (SequenceWord(row.sequence) + (Field(Utf8(row.name)) +
        (Field(Utf8(row.data)) + rest))))
  {
    hide Utf8, Field, SequenceWord;
  }

  /** The layout of a row: id, aggregate, sequence, type and data, the texts framed by their lengths. */
  lemma RowLayout(row: StoredEvent, rest: Bytes) returns (b1: Bytes, b2: Bytes, b3: Bytes, b4: Bytes)
    requires Sized(row)
    ensures Starts(RowBytes(row) + rest, Utf8(row.id), b1) && Starts(b1, Utf8(row.aggregate), b2)
    ensures StartsWithSequence(b2, row.sequence, b3)
    ensures Starts(b3, Utf8(row.name), b4) && Starts(b4, Utf8(row.data), rest)
  {
    RowJoins(row, rest);
    hide Utf8, Field, Starts, SequenceWord, StartsWithSequence, RowBytes;
    b4 := Field(Utf8(row.data)) + rest;
    b3 := Field(Utf8(row.name)) + b4;
    b2 := SequenceWord(row.sequence) + b3;
    b1 := Field(Utf8(row.aggregate)) + b2;
    FieldStarts(Utf8(row.data), rest);
    FieldStarts(Utf8(row.name), b4);
    SequenceStarts(row.sequence, b3);
    FieldStarts(Utf8(row.aggregate), b2);
    FieldStarts(Utf8(row.id), b1);
  }

  lemma RowNotEmpty(r: StoredEvent)
    ensures RowBytes(r) != []
  {
  }

  /** The bytes fed to the hasher determine the list of events. */
  lemma {:induction false} FingerprintInjective(a: seq<StoredEvent>, b: seq<StoredEvent>)
    requires (forall r | r in a :: Sized(r)) && forall r | r in b :: Sized(r)
    ensures RowsBytes(a) == RowsBytes(b) <==> a == b
    decreases |a|
  {
    hide RowBytes, Sized;
    if a != [] { RowNotEmpty(a[0]); }
    if b != [] { RowNotEmpty(b[0]); }
    if a != [] && b != [] && RowsBytes(a) == RowsBytes(b) {
      RowCut(a[0], RowsBytes(a[1..]), b[0], RowsBytes(b[1..]));
      FingerprintInjective(a[1..], b[1..]);
      assert a == [a[0]] + a[1..] && b == [b[0]] + b[1..];
    }
  }

  lemma {:induction false} RowsBytesSnoc(rows: seq<StoredEvent>, row: StoredEvent)
    ensures RowsBytes(rows + [row]) == RowsBytes(rows) + RowBytes(row)
    decreases |rows|
  {
    hide RowBytes;
    if rows == [] {
      assert [row][1..] == [] && [] + [row] == [row];
    } else {
      assert (rows + [row])[0] == rows[0] && (rows + [row])[1..] == rows[1..] + [row];
      RowsBytesSnoc(rows[1..], row);
    }
  }

  /** The hasher, as the bytes written to it. */
  class Hasher {
    var bytes: Bytes

    constructor ()
      ensures bytes == []
    {
      bytes := [];
    }

    method Write(value: Bytes)
      modifies this
      ensures bytes == old(bytes) + value
    {
      bytes := bytes + value;
    }

    method WriteField(value: Bytes)
      modifies this
      ensures bytes == old(bytes) + Field(value)
    {
      Write(BigEndian(|value| % WORD, 8));
      Write(value);
    }

    method WriteEvent(row: StoredEvent)
      modifies this
      ensures bytes == old(bytes) + RowBytes(row)
    {
      hide Field, Utf8, SequenceWord;
      WriteField(Utf8(row.id));
      WriteField(Utf8(row.aggregate));
      WriteSequence(row.sequence);
      WriteField(Utf8(row.name));
      WriteField(Utf8(row.data));
    }

    method WriteSequence(sequence: Int64)
      modifies this
      ensures bytes == old(bytes) + SequenceWord(sequence)
    {
      Write(BigEndian(sequence % WORD, 8));
    }
  }
}
