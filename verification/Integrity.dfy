/** internal/store/sqlite/integrity.go: the checker that collects violations of the event tables. SQL
    trims only spaces, and the minimised form of a JSON text comes from the database's own function. */
module Integrity {
  import opened Text
  import opened StringOrder
  import opened EventStore
  import opened EventLog
  import Json

  // ---------- Row tests in SQL's terms ----------

  /** `trim(t)` changes nothing, the text is not blank, and it holds no NUL. */
  predicate SqlIdentity(t: string) {
    t != "" && t[0] != ' ' && t[|t| - 1] != ' ' && '\0' !in t
  }

  /** `json(data)`, or None when the text is not a JSON object. */
  type Minify = string -> Option<string>

  predicate SqlRow(minify: Minify, row: StoredEvent) {
    SqlIdentity(row.id) && IsEventID(row.id) && SqlIdentity(row.aggregate) && row.sequence >= 0 &&
    SqlIdentity(row.name) &&
    minify(row.data).Some? && minify(row.data).value + "\n" == row.data
  }

  predicate SqlSequence(a: string, state: SequenceState) {
    SqlIdentity(a) && state.latest >= 0 && (state.owner != "" ==> SqlIdentity(state.owner))
  }

  // ---------- The range test ----------

  /** The sequences of an aggregate's events. */
  function Sequences(db: Db, a: string): (s: set<int>) {
    set k | k in db.events && k.aggregate == a :: k.sequence as int
  }

  /** MIN, MAX and COUNT over a set; -1 for an empty one. */
  predicate Summarizes(s: set<int>, min: int, max: int, count: nat) {
    count == |s| &&
    (if s == {} then min == -1 && max == -1 else min in s && max in s && forall x | x in s :: min <= x <= max)
  }

  predicate RangeTest(min: int, max: int, count: nat, latest: int) {
    count != 0 && min == 0 && max == latest && count == latest + 1
  }

  function UpTo(n: int): (s: set<int>)
    ensures forall i :: i in s <==> 0 <= i <= n
    decreases n + 1
  {
    if n < 0 then {} else UpTo(n - 1) + {n}
  }

  lemma {:induction false} UpToSize(n: int)
    requires n >= -1
    ensures |UpTo(n)| == n + 1
    decreases n + 1
  {
    if n >= 0 {
      UpToSize(n - 1);
      assert UpTo(n) == UpTo(n - 1) + {n};
    } else {
      assert UpTo(n) == {};
    }
  }

  lemma SubsetOfSameSize(s: set<int>, t: set<int>)
    requires s <= t && |s| == |t|
    ensures s == t
  {
    assert t == s + (t - s) && |t| == |s| + |t - s|;
  }

  /** The test on minimum, maximum and count holds exactly of the range 0..latest. */
  lemma RangeTestIsExact(s: set<int>, min: int, max: int, count: nat, latest: int)
    requires Summarizes(s, min, max, count) && latest >= 0
    ensures RangeTest(min, max, count, latest) <==> s == UpTo(latest)
  {
    UpToSize(latest);
    if RangeTest(min, max, count, latest) {
      SubsetOfSameSize(s, UpTo(latest));
    }
    if s == UpTo(latest) {
      assert 0 in s && latest in s;
    }
  }

  // ---------- The collectors ----------

  datatype SequenceViolation =
    SequenceViolation(aggregate: string, declared: int, minimum: int, maximum: int, count: nat)

  class Report {
    var foreignKeys: seq<Key>
    var events: seq<Key>
    var sequences: seq<SequenceViolation>

    constructor ()
      ensures Healthy()
    {
      foreignKeys, events, sequences := [], [], [];
    }

    predicate Healthy()
      reads this
    {
      foreignKeys == [] && events == [] && sequences == []
    }
  }

  predicate Names(violations: seq<SequenceViolation>, a: string) {
    exists v :: v in violations && v.aggregate == a
  }

  method CollectForeignKeys(db: Db, report: Report)
    modifies report`foreignKeys
    ensures forall k ::
      k in report.foreignKeys <==> k in old(report.foreignKeys) || (k in db.events && k.aggregate !in db.sequences)
  {
    var left := db.events.Keys;
    while left != {}
      invariant left <= db.events.Keys
      invariant forall k :: k in report.foreignKeys <==>
        k in old(report.foreignKeys) || (k in db.events && k !in left && k.aggregate !in db.sequences)
      decreases |left|
    {
      var k :| k in left;
      if k.aggregate !in db.sequences { report.foreignKeys := report.foreignKeys + [k]; }
      left := left - {k};
    }
  }

  method CollectEvents(db: Db, minify: Minify, report: Report)
    modifies report`events
    ensures forall k ::
      k in report.events <==> k in old(report.events) || (k in db.events && !SqlRow(minify, db.events[k]))
  {
    var left := db.events.Keys;
    while left != {}
      invariant left <= db.events.Keys
      invariant forall k :: k in report.events <==>
        k in old(report.events) || (k in db.events && k !in left && !SqlRow(minify, db.events[k]))
      decreases |left|
    {
      var k :| k in left;
      if !SqlRow(minify, db.events[k]) { report.events := report.events + [k]; }
      left := left - {k};
    }
  }

  method Summarize(db: Db, a: string) returns (min: int, max: int, count: nat)
    ensures Summarizes(Sequences(db, a), min, max, count)
  {
    min, max, count := -1, -1, 0;
    var left := db.events.Keys;
    ghost var seen: set<int> := {};
    while left != {}
      invariant left <= db.events.Keys
      invariant seen == set k | k in db.events && k !in left && k.aggregate == a :: k.sequence as int
      invariant Summarizes(seen, min, max, count)
      decreases |left|
    {
      var k :| k in left;
      left := left - {k};
      if k.aggregate == a {
        NewSequence(db, a, k, left + {k});
        if count == 0 || k.sequence < min { min := k.sequence; }
        if count == 0 || k.sequence > max { max := k.sequence; }
        count := count + 1;
        seen := seen + {k.sequence as int};
      }
    }
    assert seen == Sequences(db, a);
  }

  /** A key met for the first time brings a sequence not seen before. */
  lemma NewSequence(db: Db, a: string, k: Key, left: set<Key>)
    requires k in left && k.aggregate == a
    ensures (k.sequence as int) !in set j | j in db.events && j !in left && j.aggregate == a :: j.sequence as int
  {
    forall j | j in db.events && j !in left && j.aggregate == a ensures j.sequence != k.sequence {
      assert j.sequence == k.sequence ==> j == k;
    }
  }

  /** What a sound sequence row says, event rows included. */
  predicate SequenceHolds(db: Db, a: string)
    requires a in db.sequences
  {
    SqlSequence(a, db.sequences[a]) && Sequences(db, a) == UpTo(db.sequences[a].latest)
  }

  predicate Malformed(db: Db, a: string) {
    a in db.sequences && !SqlSequence(a, db.sequences[a])
  }

  method CollectMalformed(db: Db, keys: seq<string>, report: Report)
    requires forall a :: a in keys <==> a in db.sequences
    modifies report`sequences
    ensures forall a :: Names(report.sequences, a) <==> Names(old(report.sequences), a) || Malformed(db, a)
  {
    hide SqlSequence, Names;
    for i := 0 to |keys|
      invariant forall a :: Names(report.sequences, a) <==>
        Names(old(report.sequences), a) || (a in keys[..i] && Malformed(db, a))
    {
      var a := keys[i];
      assert a in keys && keys[..i + 1] == keys[..i] + [a];
      if !SqlSequence(a, db.sequences[a]) {
        ghost var before := report.sequences;
        var v := SequenceViolation(a, db.sequences[a].latest, -1, -1, 0);
        report.sequences := report.sequences + [v];
        NamesSnoc(before, v);
      }
    }
    assert keys[..|keys|] == keys;
  }

  predicate RangeFails(db: Db, a: string) {
    a in db.sequences && db.sequences[a].latest >= 0 && Sequences(db, a) != UpTo(db.sequences[a].latest)
  }

  method CollectRanges(db: Db, keys: seq<string>, report: Report)
    requires forall a :: a in keys <==> a in db.sequences
    modifies report`sequences
    ensures forall a :: Names(report.sequences, a) <==> Names(old(report.sequences), a) || RangeFails(db, a)
  {
    hide Names, Sequences, UpTo, Summarizes, RangeTest;
    for i := 0 to |keys|
      invariant forall a :: Names(report.sequences, a) <==>
        Names(old(report.sequences), a) || (a in keys[..i] && RangeFails(db, a))
    {
      var a := keys[i];
      assert a in keys && keys[..i + 1] == keys[..i] + [a];
      var latest := db.sequences[a].latest;
      if latest >= 0 {
        var min, max, count := Summarize(db, a);
        RangeTestIsExact(Sequences(db, a), min, max, count, latest);
        if !RangeTest(min, max, count, latest) {
          ghost var before := report.sequences;
          var v := SequenceViolation(a, latest, min, max, count);
          report.sequences := report.sequences + [v];
          NamesSnoc(before, v);
        }
      }
    }
    assert keys[..|keys|] == keys;
  }

  /** Both queries together name every aggregate whose sequence row does not hold. */
  method CollectSequences(db: Db, report: Report)
    modifies report`sequences
    ensures forall a :: Names(report.sequences, a) <==>
      Names(old(report.sequences), a) || (a in db.sequences && !SequenceHolds(db, a))
  {
    hide Names, Sequences, UpTo;
    var keys := SortKeys(db.sequences.Keys);
    CollectMalformed(db, keys, report);
    CollectRanges(db, keys, report);
    assert forall a :: a in db.sequences && !SequenceHolds(db, a) <==> Malformed(db, a) || RangeFails(db, a);
  }

  lemma NamesSnoc(violations: seq<SequenceViolation>, v: SequenceViolation)
    ensures forall a :: Names(violations + [v], a) <==> Names(violations, a) || a == v.aggregate
  {
    forall a | Names(violations, a) || a == v.aggregate ensures Names(violations + [v], a) {
      if Names(violations, a) {
        var w :| w in violations && w.aggregate == a;
        assert w in violations + [v];
      } else {
        assert v in violations + [v];
      }
    }
  }

  /** The tables satisfy everything the checker looks at. */
  predicate Sound(db: Db, minify: Minify) {
    (forall k | k in db.events :: k.aggregate in db.sequences && SqlRow(minify, db.events[k])) &&
    (forall a | a in db.sequences :: SequenceHolds(db, a))
  }

  /** The check reports nothing exactly when the tables are sound. */
  method CheckIntegrity(db: Db, minify: Minify) returns (report: Report)
    ensures fresh(report)
    ensures report.Healthy() <==> Sound(db, minify)
    ensures forall k :: k in report.foreignKeys <==> k in db.events && k.aggregate !in db.sequences
    ensures forall k :: k in report.events <==> k in db.events && !SqlRow(minify, db.events[k])
    ensures forall a :: Names(report.sequences, a) <==> a in db.sequences && !SequenceHolds(db, a)
  {
    report := new Report();
    CollectForeignKeys(db, report);
    CollectEvents(db, minify, report);
    CollectSequences(db, report);
    hide SqlRow, SequenceHolds, SqlSequence;
    EmptyReport(db, minify, report.foreignKeys, report.events, report.sequences);
  }

  lemma EmptyReport(db: Db, minify: Minify, foreignKeys: seq<Key>, events: seq<Key>, sequences: seq<SequenceViolation>)
    requires forall k :: k in foreignKeys <==> k in db.events && k.aggregate !in db.sequences
    requires forall k :: k in events <==> k in db.events && !SqlRow(minify, db.events[k])
    requires forall a :: Names(sequences, a) <==> a in db.sequences && !SequenceHolds(db, a)
    ensures foreignKeys == [] && events == [] && sequences == [] <==> Sound(db, minify)
  {
    hide SqlRow, SequenceHolds;
    if foreignKeys != [] { assert foreignKeys[0] in foreignKeys; }
    if events != [] { assert events[0] in events; }
    if sequences != [] { assert sequences[0] in sequences; assert Names(sequences, sequences[0].aggregate); }
    if sequences == [] { assert forall a :: !Names(sequences, a); }
  }

  // ---------- Reachable tables pass ----------

  /** The database's minimised form of a canonical object is the text without its final newline. */
  ghost predicate MinifiesCanonical(minify: Minify) {
    forall t :: CanonicalObjectText(t + "\n") ==> minify(t + "\n") == Some(t)
  }

  lemma IdentityIsSql(t: string)
    requires StoreIdentity(t)
    ensures SqlIdentity(t)
  {
    TrimmedEnds(t);
  }

  lemma TrimmedEnds(t: string)
    requires Identity(t)
    ensures t != "" && t[0] != ' ' && t[|t| - 1] != ' '
  {
    TrimRightEnd(TrimLeft(t));
    TrimLeftStart(t);
    TrimRightPrefix(TrimLeft(t));
  }

  lemma {:induction false} TrimLeftStart(t: string)
    ensures var r := TrimLeft(t); r != "" ==> !IsSpace(r[0])
    ensures |TrimLeft(t)| <= |t|
  {
    if t != "" && IsSpace(t[0]) { TrimLeftStart(t[1..]); }
  }

  lemma {:induction false} TrimRightPrefix(t: string)
    ensures TrimRight(t) <= t
  {
    if t != "" && IsSpace(t[|t| - 1]) { TrimRightPrefix(t[..|t| - 1]); }
  }

  lemma CanonicalEndsInNewline(t: string)
    requires CanonicalObjectText(t)
    ensures t != "" && t == t[..|t| - 1] + "\n"
  {
    hide Json.Decode, Json.Encoding, Json.Valid, Json.Fits;
  }

  lemma ValidRowPasses(minify: Minify, row: StoredEvent)
    requires MinifiesCanonical(minify) && ValidRow(row)
    ensures SqlRow(minify, row)
  {
    IdentityIsSql(row.id);
    IdentityIsSql(row.aggregate);
    IdentityIsSql(row.name);
    CanonicalEndsInNewline(row.data);
    hide CanonicalObjectText, StoreIdentity, SqlIdentity;
    assert minify(row.data[..|row.data| - 1] + "\n") == Some(row.data[..|row.data| - 1]);
  }

  lemma WholeLogHolds(db: Db, a: string)
    requires a in db.sequences && WholeLog(db, a)
    ensures SequenceHolds(db, a)
  {
    var state := db.sequences[a];
    IdentityIsSql(a);
    if state.owner != "" { IdentityIsSql(state.owner); }
    hide StoreIdentity, SqlIdentity;
    forall i ensures i in Sequences(db, a) <==> i in UpTo(state.latest) {
      if 0 <= i <= state.latest { assert Key(a, i) in db.events; }
      if i in Sequences(db, a) {
        var k :| k in db.events && k.aggregate == a && k.sequence as int == i;
        assert k == Key(a, k.sequence);
      }
    }
  }

  /** Whatever the event service did, the checker finds nothing to report. */
  lemma ReachableTablesAreSound(db: Db, minify: Minify)
    requires LogInv(db) && MinifiesCanonical(minify)
    ensures Sound(db, minify)
  {
    hide ValidRow, SqlRow, SequenceHolds, MinifiesCanonical;
    forall k | k in db.events ensures k.aggregate in db.sequences && SqlRow(minify, db.events[k]) {
      assert RowAt(db, k);
      ValidRowPasses(minify, db.events[k]);
    }
    forall a | a in db.sequences ensures SequenceHolds(db, a) {
      assert WholeLog(db, a);
      WholeLogHolds(db, a);
    }
  }

  /** Conversely, sound tables of valid rows with unique ids are exactly those that satisfy the log invariant. */
  lemma SoundTablesAreLogs(db: Db, minify: Minify)
    requires MinifiesCanonical(minify)
    ensures LogInv(db) <==>
      Sound(db, minify) && UniqueIDs(db) && (forall k | k in db.events :: RowAt(db, k)) &&
      forall a | a in db.sequences ::
        StoreIdentity(a) && (db.sequences[a].owner != "" ==> StoreIdentity(db.sequences[a].owner))
  {
    if LogInv(db) {
      ReachableTablesAreSound(db, minify);
      hide ValidRow, SqlRow, SequenceHolds, StoreIdentity, RowAt, UniqueIDs;
      forall a | a in db.sequences
        ensures StoreIdentity(a) && (db.sequences[a].owner != "" ==> StoreIdentity(db.sequences[a].owner))
      {
        assert WholeLog(db, a);
      }
    }
    hide ValidRow, SqlRow, SqlIdentity, StoreIdentity, RowAt, UniqueIDs;
    forall a | Sound(db, minify) && a in db.sequences && StoreIdentity(a) &&
               (db.sequences[a].owner != "" ==> StoreIdentity(db.sequences[a].owner))
      ensures WholeLog(db, a)
    {
      assert SequenceHolds(db, a);
      HoldsIsWhole(db, a);
    }
  }

  lemma HoldsIsWhole(db: Db, a: string)
    requires a in db.sequences && SequenceHolds(db, a) && StoreIdentity(a)
    requires db.sequences[a].owner != "" ==> StoreIdentity(db.sequences[a].owner)
    ensures WholeLog(db, a)
  {
    hide StoreIdentity, SqlIdentity;
    var n := db.sequences[a].latest;
    forall s: Int64 ensures Key(a, s) in db.events <==> 0 <= s <= n {
      if Key(a, s) in db.events { assert (s as int) in Sequences(db, a); }
      if 0 <= s <= n {
        assert (s as int) in UpTo(n);
        var k :| k in db.events && k.aggregate == a && k.sequence as int == s as int;
        assert k == Key(a, s);
      }
    }
  }
}
