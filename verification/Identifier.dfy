/** internal/domain/id.go: identifiers whose first twelve hexadecimal digits pack a millisecond clock and a
    counter into 48 bits. */
module Identifier {
  import opened Text
  import opened StringOrder

  const WORD := 0x1_0000_0000_0000_0000
  const LIMIT := 0x1_0000_0000_0000
  const PER_MILLISECOND := 0x1000
  const TIME_DIGITS := 12
  const RANDOM_CHARACTERS := 14
  const CHARACTERS := "0123456789ABCDEFGHIJKLMNOPQRSTUVWXYZabcdefghijklmnopqrstuvwxyz"

  // ---------- Hexadecimal ----------

  function Digit(n: nat): (c: char)
    requires n < 16
  {
    if n < 10 then ('0' as int + n) as char else ('a' as int + (n - 10)) as char
  }

  /** The low `k` hexadecimal digits, highest first. */
  function Hex(n: nat, k: nat): (t: string)
    ensures |t| == k
  {
    if k == 0 then "" else Hex(n / 16, k - 1) + [Digit(n % 16)]
  }

  function Power16(k: nat): (p: nat)
    ensures p > 0
  {
    if k == 0 then 1 else 16 * Power16(k - 1)
  }

  lemma {:induction false} BelowAppend(a: string, b: string, x: char, y: char)
    requires |a| == |b|
    ensures Below(a + [x], b + [y]) <==> Below(a, b) || (a == b && x < y)
  {
    if a == "" {
      assert a + [x] == [x] && b + [y] == [y];
    } else {
      assert (a + [x])[0] == a[0] && (b + [y])[0] == b[0];
      assert (a + [x])[1..] == a[1..] + [x] && (b + [y])[1..] == b[1..] + [y];
      assert a == [a[0]] + a[1..] && b == [b[0]] + b[1..];
      BelowAppend(a[1..], b[1..], x, y);
    }
  }

  /** Digit strings of one length compare as the numbers do. */
  lemma {:induction false} HexOrder(m: nat, n: nat, k: nat)
    requires m < Power16(k) && n < Power16(k)
    ensures Below(Hex(m, k), Hex(n, k)) <==> m < n
    ensures Hex(m, k) == Hex(n, k) <==> m == n
    decreases k
  {
    if k > 0 {
      HexOrder(m / 16, n / 16, k - 1);
      BelowAppend(Hex(m / 16, k - 1), Hex(n / 16, k - 1), Digit(m % 16), Digit(n % 16));
      AppendEqual(Hex(m / 16, k - 1), Hex(n / 16, k - 1), Digit(m % 16), Digit(n % 16));
    }
  }

  lemma AppendEqual(a: string, b: string, x: char, y: char)
    requires |a| == |b|
    ensures a + [x] == b + [y] <==> a == b && x == y
  {
    if a + [x] == b + [y] {
      assert a == (a + [x])[..|a|] && b == (b + [y])[..|b|] && x == (a + [x])[|a|] && y == (b + [y])[|b|];
    }
  }

  lemma TwelveDigits()
    ensures Power16(TIME_DIGITS) == LIMIT
  {
    assert Power16(4) == 0x1_0000 && Power16(8) == 0x1_0000_0000;
  }

  // ---------- The generator ----------

  datatype State = State(last: int, counter: nat)

  /** The clock reading moves the counter on, or restarts it. */
  function Advance(s: State, timestamp: int): (r: State) {
    State(timestamp, ((if timestamp != s.last then 0 else s.counter) + 1) % WORD)
  }

  /** The packed value: 64-bit arithmetic, then the low 48 bits. */
  function Packed(s: State): (v: nat)
    requires s.last >= 0
    ensures v < LIMIT
  {
    (s.last % WORD * PER_MILLISECOND % WORD + s.counter) % WORD % LIMIT
  }

  function TimePart(s: State, descending: bool): (t: string)
    requires s.last >= 0
  {
    Hex(if descending then LIMIT - 1 - Packed(s) else Packed(s), TIME_DIGITS)
  }

  function RandomPart(bytes: seq<nat>): (t: string) {
    seq(|bytes|, i requires 0 <= i < |bytes| => CHARACTERS[bytes[i] % 62])
  }

  datatype IdError = BeforeEpoch | NoRandomness

  class Generator {
    var last: int
    var counter: nat

    constructor ()
      ensures Abstract() == State(0, 0)
    {
      last, counter := 0, 0;
    }

    function Abstract(): (s: State)
      reads this
    {
      State(last, counter)
    }

    /** `create`: the counter moves on even when there is no randomness to finish with. */
    method Create(timestamp: int, random: Option<seq<nat>>, prefix: string, descending: bool)
      returns (r: Result<string, IdError>)
      requires random.Some? ==> |random.value| == RANDOM_CHARACTERS
      modifies this
      ensures timestamp < 0 ==> r == Err(BeforeEpoch) && Abstract() == old(Abstract())
      ensures timestamp >= 0 ==> Abstract() == Advance(old(Abstract()), timestamp)
      ensures timestamp >= 0 ==>
        r == if random.None? then Err(NoRandomness)
             else Ok(prefix + TimePart(Advance(old(Abstract()), timestamp), descending) + RandomPart(random.value))
    {
      if timestamp < 0 { return Err(BeforeEpoch); }
      if timestamp != last {
        last := timestamp;
        counter := 0;
      }
      counter := (counter + 1) % WORD;
      if random.None? { return Err(NoRandomness); }
      r := Ok(prefix + TimePart(Abstract(), descending) + RandomPart(random.value));
    }
  }

  // ---------- Runs ----------

  /** A clock that never goes back, from the epoch on. */
  predicate Monotone(clock: seq<int>) {
    forall i | 0 <= i < |clock| :: clock[i] >= 0 && (i > 0 ==> clock[i - 1] <= clock[i])
  }

  /** The generator's state after the first `n` readings. */
  function After(clock: seq<int>, n: nat): (s: State)
    requires n <= |clock|
  {
    if n == 0 then State(0, 0) else Advance(After(clock, n - 1), clock[n - 1])
  }

  function PartAt(clock: seq<int>, i: nat, descending: bool): (t: string)
    requires i < |clock| && Monotone(clock)
  {
    TimePart(After(clock, i + 1), descending)
  }

  /** How many identifiers the current millisecond has given out, this one included. */
  function Count(clock: seq<int>, i: nat): (n: nat)
    requires i < |clock|
    ensures 0 < n <= i + 1
  {
    if i > 0 && clock[i] == clock[i - 1] then Count(clock, i - 1) + 1 else 1
  }

  lemma {:induction false} CounterIsCount(clock: seq<int>, i: nat)
    requires i < |clock| < WORD && Monotone(clock)
    ensures After(clock, i + 1) == State(clock[i], Count(clock, i))
  {
    if i > 0 { CounterIsCount(clock, i - 1); }
  }

  /** The unbounded number that is packed. */
  function ValueAt(clock: seq<int>, i: nat): (v: int)
    requires i < |clock|
  {
    clock[i] * PER_MILLISECOND + Count(clock, i)
  }

  /** Packing keeps the value up to multiples of 2^48: 64-bit overflow on the way does no further harm. */
  lemma PackedIsTheResidue(clock: seq<int>, i: nat)
    requires i < |clock| < WORD && Monotone(clock)
    ensures Packed(After(clock, i + 1)) == ValueAt(clock, i) % LIMIT
  {
    CounterIsCount(clock, i);
    Residues(clock[i], Count(clock, i));
  }

  lemma Residues(t: int, c: nat)
    requires t >= 0
    ensures (t % WORD * PER_MILLISECOND % WORD + c) % WORD % LIMIT == (t * PER_MILLISECOND + c) % LIMIT
  {
    var a := t % WORD * PER_MILLISECOND % WORD;
    var v := t * PER_MILLISECOND + c;
    var k := t / WORD * PER_MILLISECOND + t % WORD * PER_MILLISECOND / WORD;
    assert t == t / WORD * WORD + t % WORD;
    assert t * PER_MILLISECOND == t / WORD * PER_MILLISECOND * WORD + t % WORD * PER_MILLISECOND;
    assert t * PER_MILLISECOND == a + k * WORD;
    assert v == (a + c) + k * WORD;
    SameResidue(a + c, k, WORD);
    DividesOut(v);
  }

  lemma SameResidue(x: int, k: int, m: nat)
    requires m > 0
    ensures (x + k * m) % m == x % m
  {
    var q := x / m;
    assert x + k * m == (q + k) * m + x % m;
    Unique(x + k * m, q + k, x % m, m);
  }

  lemma Unique(x: int, q: int, r: nat, m: nat)
    requires r < m && x == q * m + r
    ensures x / m == q && x % m == r
  {
    var d := q - x / m;
    assert d * m == x % m - r;
    assert d >= 1 ==> d * m >= m;
    assert d <= -1 ==> d * m <= -1 * m;
  }

  lemma DividesOut(v: int)
    ensures v % WORD % LIMIT == v % LIMIT
  {
    var q := v / WORD;
    assert v == v % WORD + q * 0x1_0000 * LIMIT;
    SameResidue(v % WORD, q * 0x1_0000, LIMIT);
  }

  /** When the clock moves on, the finished burst did not outrun it. */
  predicate KeepsUp(clock: seq<int>, i: nat)
    requires 0 < i < |clock|
  {
    clock[i] != clock[i - 1] ==> Count(clock, i - 1) <= (clock[i] - clock[i - 1]) * PER_MILLISECOND
  }

  lemma NextValue(clock: seq<int>, i: nat)
    requires 0 < i < |clock| && Monotone(clock)
    ensures ValueAt(clock, i - 1) < ValueAt(clock, i) <==> KeepsUp(clock, i)
  {
  }

  predicate AllKeepUp(clock: seq<int>) {
    forall k | 0 < k < |clock| :: KeepsUp(clock, k)
  }

  lemma {:induction false} ValuesIncrease(clock: seq<int>, i: nat, j: nat)
    requires i < j < |clock| && Monotone(clock) && AllKeepUp(clock)
    ensures ValueAt(clock, i) < ValueAt(clock, j)
    decreases j
  {
    NextValue(clock, j);
    assert KeepsUp(clock, j);
    if i < j - 1 { ValuesIncrease(clock, i, j - 1); }
  }

  /** Which multiple of 2^48 a value lies above. */
  function Window(clock: seq<int>, i: nat): (w: int)
    requires i < |clock|
  {
    ValueAt(clock, i) / LIMIT
  }

  /** The 48 bits do not wrap during the run. */
  predicate OneWindow(clock: seq<int>) {
    forall i | 0 <= i < |clock| :: Window(clock, i) == Window(clock, 0)
  }

  /** The run is shorter than the 48 bits reach, some two years. */
  predicate Short(clock: seq<int>) {
    forall i | 0 <= i < |clock| :: ValueAt(clock, i) - ValueAt(clock, 0) < LIMIT
  }

  function Residue(clock: seq<int>, i: nat): (r: nat)
    requires i < |clock|
  {
    ValueAt(clock, i) % LIMIT
  }

  lemma PartsCompare(clock: seq<int>, i: nat, j: nat)
    requires i < |clock| < WORD && j < |clock| && Monotone(clock)
    ensures Below(PartAt(clock, i, false), PartAt(clock, j, false)) <==> Residue(clock, i) < Residue(clock, j)
    ensures Below(PartAt(clock, j, true), PartAt(clock, i, true)) <==> Residue(clock, i) < Residue(clock, j)
  {
    hide *;
    PartIs(clock, i, false);
    PartIs(clock, j, false);
    PartIs(clock, i, true);
    PartIs(clock, j, true);
    DigitsCompare(Residue(clock, i), Residue(clock, j));
  }

  lemma PartIs(clock: seq<int>, i: nat, descending: bool)
    requires i < |clock| < WORD && Monotone(clock)
    ensures Residue(clock, i) < LIMIT
    ensures PartAt(clock, i, descending) ==
      Hex(if descending then LIMIT - 1 - Residue(clock, i) else Residue(clock, i), TIME_DIGITS)
  {
    hide Packed, Hex, ValueAt;
    PackedIsTheResidue(clock, i);
  }

  lemma DigitsCompare(a: nat, b: nat)
    requires a < LIMIT && b < LIMIT
    ensures Below(Hex(a, TIME_DIGITS), Hex(b, TIME_DIGITS)) <==> a < b
    ensures Below(Hex(LIMIT - 1 - b, TIME_DIGITS), Hex(LIMIT - 1 - a, TIME_DIGITS)) <==> a < b
  {
    hide Power16, Hex, Below;
    TwelveDigits();
    HexOrder(a, b, TIME_DIGITS);
    HexOrder(LIMIT - 1 - b, LIMIT - 1 - a, TIME_DIGITS);
  }

  /** The time parts of a run, in order: increasing, or decreasing for the complemented kind. */
  predicate InOrder(clock: seq<int>, descending: bool)
    requires Monotone(clock)
  {
    forall i, j | 0 <= i < j < |clock| ::
      if descending then Below(PartAt(clock, j, true), PartAt(clock, i, true))
      else Below(PartAt(clock, i, false), PartAt(clock, j, false))
  }

  predicate ResiduesIncrease(clock: seq<int>) {
    forall i, j | 0 <= i < j < |clock| :: Residue(clock, i) < Residue(clock, j)
  }

  lemma OrderIsOfResidues(clock: seq<int>, descending: bool)
    requires |clock| < WORD && Monotone(clock)
    ensures InOrder(clock, descending) <==> ResiduesIncrease(clock)
  {
    hide PartAt, Residue, Below, Monotone;
    forall i, j | 0 <= i < j < |clock|
      ensures Below(PartAt(clock, i, false), PartAt(clock, j, false)) <==> Residue(clock, i) < Residue(clock, j)
      ensures Below(PartAt(clock, j, true), PartAt(clock, i, true)) <==> Residue(clock, i) < Residue(clock, j)
    {
      PartsCompare(clock, i, j);
    }
  }

  lemma ResidueInWindow(clock: seq<int>, i: nat)
    requires i < |clock|
    ensures ValueAt(clock, i) == Window(clock, i) * LIMIT + Residue(clock, i)
  {
  }

  lemma InOneWindow(clock: seq<int>)
    requires Monotone(clock) && OneWindow(clock)
    ensures ResiduesIncrease(clock) <==> AllKeepUp(clock)
  {
    hide Residue, Window, ValueAt, KeepsUp;
    forall i | 0 <= i < |clock| ensures ValueAt(clock, i) == Window(clock, 0) * LIMIT + Residue(clock, i) {
      ResidueInWindow(clock, i);
    }
    if AllKeepUp(clock) {
      forall i, j | 0 <= i < j < |clock| ensures Residue(clock, i) < Residue(clock, j) { ValuesIncrease(clock, i, j); }
    }
    if ResiduesIncrease(clock) {
      forall k | 0 < k < |clock| ensures KeepsUp(clock, k) {
        assert Residue(clock, k - 1) < Residue(clock, k);
        NextValue(clock, k);
      }
    }
  }

  /** With a clock that never goes back and no wrap during the run, the time parts are in order exactly when no
      burst of identifiers outruns the clock: at most 4096 for each millisecond that then passes. */
  lemma OrderedExactlyWhenKeepingUp(clock: seq<int>, descending: bool)
    requires |clock| < WORD && Monotone(clock) && OneWindow(clock)
    ensures InOrder(clock, descending) <==> AllKeepUp(clock)
  {
    OrderIsOfResidues(clock, descending);
    InOneWindow(clock);
  }

  // ---------- Wrapping ----------

  lemma {:induction false} NotBeforeFirst(clock: seq<int>, i: nat)
    requires i < |clock| && Monotone(clock)
    ensures clock[0] <= clock[i] && ValueAt(clock, 0) <= ValueAt(clock, i)
    decreases i
  {
    if i > 0 { NotBeforeFirst(clock, i - 1); }
  }

  /** A value less than a window's length ahead and with a larger residue lies in the same window. */
  lemma NoWrapBetween(v: int, w: int)
    requires v <= w < v + LIMIT
    ensures w / LIMIT == v / LIMIT <==> v % LIMIT <= w % LIMIT
  {
    var q, p := v / LIMIT, w / LIMIT;
    assert v == q * LIMIT + v % LIMIT && w == p * LIMIT + w % LIMIT;
    assert (p - q) * LIMIT == (w - v) - (w % LIMIT - v % LIMIT);
    assert p - q >= 2 ==> (p - q) * LIMIT >= 2 * LIMIT;
    assert p - q <= -1 ==> (p - q) * LIMIT <= -1 * LIMIT;
  }

  lemma IncreasingStaysInWindow(clock: seq<int>)
    requires Monotone(clock) && Short(clock) && ResiduesIncrease(clock)
    ensures OneWindow(clock)
  {
    forall i | 0 <= i < |clock| ensures Window(clock, i) == Window(clock, 0) {
      NotBeforeFirst(clock, i);
      NoWrapBetween(ValueAt(clock, 0), ValueAt(clock, i));
      assert i > 0 ==> Residue(clock, 0) < Residue(clock, i);
    }
  }

  /** Without assuming that the 48 bits do not wrap: a run of less than two years is in order exactly when they
      do not, and no burst outruns the clock. */
  lemma OrderedExactlyWithoutWrap(clock: seq<int>, descending: bool)
    requires |clock| < WORD && Monotone(clock) && Short(clock)
    ensures InOrder(clock, descending) <==> AllKeepUp(clock) && OneWindow(clock)
  {
    hide InOrder, AllKeepUp, OneWindow, ResiduesIncrease, Short, Monotone;
    OrderIsOfResidues(clock, descending);
    if ResiduesIncrease(clock) { IncreasingStaysInWindow(clock); }
    if OneWindow(clock) { InOneWindow(clock); }
  }

  /** At most 4096 identifiers in a millisecond is always slow enough. */
  lemma FourThousandKeepUp(clock: seq<int>)
    requires Monotone(clock) && forall i | 0 <= i < |clock| :: Count(clock, i) <= PER_MILLISECOND
    ensures AllKeepUp(clock)
  {
    forall k | 0 < k < |clock| ensures KeepsUp(clock, k) {
      assert Count(clock, k - 1) <= PER_MILLISECOND && clock[k - 1] <= clock[k];
    }
  }

  /** The bound is tight: the next identifier of a millisecond has the time part of the first of the following one,
      wrapped or not. */
  lemma OneMoreCollides(clock: seq<int>, i: nat, descending: bool)
    requires 0 < i < |clock| < WORD && Monotone(clock)
    requires Count(clock, i - 1) == PER_MILLISECOND + 1 && clock[i] == clock[i - 1] + 1
    ensures PartAt(clock, i, descending) == PartAt(clock, i - 1, descending)
  {
    PackedIsTheResidue(clock, i - 1);
    PackedIsTheResidue(clock, i);
    assert ValueAt(clock, i) == ValueAt(clock, i - 1);
    hide Packed, Hex, ValueAt;
  }
}
