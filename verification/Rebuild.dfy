/** internal/store/sqlite/rebuild.go: rebuilding a projection from the whole log in one fenced transaction. */
module Rebuild {
  import opened Text
  import opened StringOrder
  import opened EventStore
  import opened Fingerprint
  import Integrity

  /** The live projection tables, and the shadow that a rebuild fills. */
  datatype Tables = Tables(live: Projection, shadow: Projection)

  /** `bytes` is what the hash is taken of. */
  datatype Summary = Summary(events: nat, aggregates: nat, maximum: int, bytes: Bytes)

  datatype Callbacks = Callbacks(
    name: string, create: Tables -> Option<Tables>, project: (Tables, StoredEvent) -> Option<Tables>,
    verify: (Tables, Summary) -> bool, swap: Tables -> Option<Tables>)

  predicate RowBelow(r: StoredEvent, s: StoredEvent) {
    Below(r.aggregate, s.aggregate) || (r.aggregate == s.aggregate && r.sequence < s.sequence)
  }

  /** `rows` are all event rows, ordered by aggregate and then sequence. */
  ghost predicate Query(db: Db, rows: seq<StoredEvent>) {
    (forall i, j | 0 <= i < j < |rows| :: RowBelow(rows[i], rows[j])) &&
    forall r :: r in rows <==> exists k :: k in db.events && db.events[k] == r
  }

  // ---------- What a rebuild computes ----------

  function Aggregates(rows: seq<StoredEvent>): (s: set<string>) {
    set r | r in rows :: r.aggregate
  }

  function Maximum(rows: seq<StoredEvent>): (m: int) {
    if rows == [] then -1
    else
      var before, last := Maximum(rows[..|rows| - 1]), rows[|rows| - 1].sequence;
      if last > before then last else before
  }

  /** The number of events, of distinct aggregates, the largest sequence, and the bytes to hash. */
  function SummaryOf(rows: seq<StoredEvent>): (s: Summary) {
    Summary(|rows|, |Aggregates(rows)|, Maximum(rows), RowsBytes(rows))
  }

  /** Projecting rows in turn; an invalid row or a refusing callback ends the rebuild. */
  ghost function Folded(project: (Tables, StoredEvent) -> Option<Tables>, t: Tables, rows: seq<StoredEvent>)
    : (r: Outcome<Tables>)
    decreases |rows|
  {
    if rows == [] then Ok(t)
    else if !ValidRow(rows[0]) then Err(Storage)
    else
      var next := project(t, rows[0]);
      if next.None? then Err(Refused) else Folded(project, next.value, rows[1..])
  }

  ghost function Rebuilt(db: Db, minify: Integrity.Minify, c: Callbacks, rows: seq<StoredEvent>)
    : (r: Outcome<(Db, Summary)>)
  {
    if !StoreIdentity(c.name) then Err(InvalidInput)
    else if !Integrity.Sound(db, minify) then Err(Storage)
    else
      var created := c.create(Tables(db.projection, map[]));
      if created.None? then Err(Refused)
      else
        var filled := Folded(c.project, created.value, rows);
        if filled.Err? then Err(filled.error)
        else if !c.verify(filled.value, SummaryOf(rows)) then Err(Refused)
        else
          var swapped := c.swap(filled.value);
          if swapped.None? then Err(Refused) else Ok((db.(projection := swapped.value.live), SummaryOf(rows)))
  }

  /** The tables of a rebuild one after the other: the shadow created next to the live projection, and each row,
      which must be valid, projected into what the rows before it left. */
  ghost predicate Chain(project: (Tables, StoredEvent) -> Option<Tables>, rows: seq<StoredEvent>, ts: seq<Tables>)
    requires |ts| == |rows| + 1
  {
    forall i | 0 <= i < |rows| :: ValidRow(rows[i]) && project(ts[i], rows[i]) == Some(ts[i + 1])
  }

  /** Every step of a rebuild goes well. */
  ghost predicate GoesWell(db: Db, minify: Integrity.Minify, c: Callbacks, rows: seq<StoredEvent>, ts: seq<Tables>) {
    StoreIdentity(c.name) && Integrity.Sound(db, minify) && |ts| == |rows| + 1 && Chain(c.project, rows, ts) &&
    c.create(Tables(db.projection, map[])) == Some(ts[0]) && c.verify(ts[|rows|], SummaryOf(rows)) &&
    c.swap(ts[|rows|]).Some?
  }

  lemma {:induction false} FoldIsChain(
      project: (Tables, StoredEvent) -> Option<Tables>, rows: seq<StoredEvent>, ts: seq<Tables>)
    requires |ts| == |rows| + 1 && Chain(project, rows, ts)
    ensures Folded(project, ts[0], rows) == Ok(ts[|rows|])
    decreases |rows|
  {
    hide ValidRow;
    if rows != [] { FoldIsChain(project, rows[1..], ts[1..]); }
  }

  lemma {:induction false} ChainOfFold(
      project: (Tables, StoredEvent) -> Option<Tables>, t: Tables, rows: seq<StoredEvent>)
    returns (ts: seq<Tables>)
    requires Folded(project, t, rows).Ok?
    ensures |ts| == |rows| + 1 && Chain(project, rows, ts) && ts[0] == t && Folded(project, t, rows) == Ok(ts[|rows|])
    decreases |rows|
  {
    hide ValidRow;
    ts := [t];
    if rows != [] {
      var rest := ChainOfFold(project, project(t, rows[0]).value, rows[1..]);
      ts := [t] + rest;
    }
  }

  /** A rebuild succeeds if and only if the name is proper, the tables are sound, every row is valid and projected in
      turn, and no callback refuses; what it leaves differs in the projection alone, which is the swapped one. */
  lemma RebuildsExactly(db: Db, minify: Integrity.Minify, c: Callbacks, rows: seq<StoredEvent>)
    ensures Rebuilt(db, minify, c, rows).Ok? <==> exists ts :: GoesWell(db, minify, c, rows, ts)
    ensures forall ts | GoesWell(db, minify, c, rows, ts) ::
      Rebuilt(db, minify, c, rows) ==
      Ok((Db(db.sequences, db.events, c.swap(ts[|rows|]).value.live), SummaryOf(rows)))
  {
    hide Integrity.Sound, SummaryOf, StoreIdentity, Folded, Chain;
    if Rebuilt(db, minify, c, rows).Ok? {
      var created := c.create(Tables(db.projection, map[])).value;
      var ts := ChainOfFold(c.project, created, rows);
      assert GoesWell(db, minify, c, rows, ts);
    }
    forall ts | GoesWell(db, minify, c, rows, ts)
      ensures Rebuilt(db, minify, c, rows) ==
        Ok((Db(db.sequences, db.events, c.swap(ts[|rows|]).value.live), SummaryOf(rows)))
    {
      FoldIsChain(c.project, rows, ts);
    }
  }

  // ---------- The rebuild ----------

  /** In sorted order an aggregate that differs from the last one is new. */
  lemma AggregateIsNew(rows: seq<StoredEvent>, i: nat)
    requires i < |rows| && forall j, k | 0 <= j < k < |rows| :: RowBelow(rows[j], rows[k])
    requires i > 0 ==> rows[i].aggregate != rows[i - 1].aggregate
    ensures rows[i].aggregate !in Aggregates(rows[..i])
  {
    forall j | 0 <= j < i ensures rows[j].aggregate != rows[i].aggregate {
      assert RowBelow(rows[i - 1], rows[i]);
      assert j == i - 1 || RowBelow(rows[j], rows[i - 1]);
      if Below(rows[j].aggregate, rows[i - 1].aggregate) {
        BelowTransitive(rows[j].aggregate, rows[i - 1].aggregate, rows[i].aggregate);
      }
      BelowAsymmetricAt(rows[j].aggregate, rows[i].aggregate);
    }
  }

  lemma BelowAsymmetricAt(a: string, b: string)
    ensures Below(a, b) ==> a != b
  {
    if Below(a, b) { BelowAsymmetric(a, b); }
  }

  lemma SummaryNext(rows: seq<StoredEvent>, i: nat)
    requires i < |rows|
    ensures Aggregates(rows[..i + 1]) == Aggregates(rows[..i]) + {rows[i].aggregate}
    ensures Maximum(rows[..i + 1]) ==
      if rows[i].sequence > Maximum(rows[..i]) then rows[i].sequence else Maximum(rows[..i])
    ensures RowsBytes(rows[..i + 1]) == RowsBytes(rows[..i]) + RowBytes(rows[i])
  {
    hide RowBytes, RowsBytes;
    assert rows[..i + 1] == rows[..i] + [rows[i]];
    assert rows[..i + 1][..i] == rows[..i];
    RowsBytesSnoc(rows[..i], rows[i]);
  }

  /** The row loop: the projection folded over the rows, and their summary. */
  method ProjectRows(connection: Connection, c: Callbacks, created: Tables, rows: seq<StoredEvent>)
    returns (r: Outcome<(Tables, Summary)>)
    requires forall j, k | 0 <= j < k < |rows| :: RowBelow(rows[j], rows[k])
    modifies connection`operations
    ensures r == (var f := Folded(c.project, created, rows);
                  if f.Err? then Err(f.error) else Ok((f.value, SummaryOf(rows)))) ||
      (!connection.Reliable() && r == Err(Storage))
  {
    hide RowsBytes, RowBytes, Aggregates, Maximum, ValidRow, RowBelow;
    var hasher := new Hasher();
    var tables, events, aggregates, maximum, lastAggregate := created, 0, 0, -1, "";
    assert rows[0..] == rows && rows[..0] == [];
    EmptySummary();
    for i := 0 to |rows|
      invariant Folded(c.project, tables, rows[i..]) == Folded(c.project, created, rows)
      invariant lastAggregate == if i == 0 then "" else rows[i - 1].aggregate
      invariant events == i && aggregates == |Aggregates(rows[..i])| && maximum == Maximum(rows[..i])
      invariant hasher.bytes == RowsBytes(rows[..i])
    {
      assert rows[i..][0] == rows[i] && rows[i..][1..] == rows[i + 1..];
      var row := rows[i];
      var interrupted := connection.Strike();
      if interrupted { return Err(Storage); }
      var valid := ValidateRow(row);
      if !valid { return Err(Storage); }
      SummaryNext(rows, i);
      ValidAggregate(row);
      if row.aggregate != lastAggregate {
        AggregateIsNew(rows, i);
        aggregates := aggregates + 1;
        lastAggregate := row.aggregate;
      } else {
        SameAggregate(rows, i);
      }
      events := events + 1;
      if row.sequence > maximum { maximum := row.sequence; }
      hasher.WriteEvent(row);
      var next := c.project(tables, row);
      if next.None? { return Err(Refused); }
      tables := next.value;
    }
    assert rows[..|rows|] == rows;
    r := Ok((tables, Summary(events, aggregates, maximum, hasher.bytes)));
  }

  lemma EmptySummary()
    ensures Aggregates([]) == {} && Maximum([]) == -1 && RowsBytes([]) == []
  {
  }

  lemma ValidAggregate(row: StoredEvent)
    requires ValidRow(row)
    ensures row.aggregate != ""
  {
    hide CanonicalObjectText;
  }

  lemma SameAggregate(rows: seq<StoredEvent>, i: nat)
    requires 0 < i < |rows| && rows[i].aggregate == rows[i - 1].aggregate
    ensures Aggregates(rows[..i]) + {rows[i].aggregate} == Aggregates(rows[..i])
  {
    assert rows[..i][i - 1] in rows[..i];
  }

  /** `RebuildProjection` with the writer token held. Unless it returns a summary the live projection, and
      everything else that is committed, is as before. */
  method RebuildProjection(connection: Connection, minify: Integrity.Minify, c: Callbacks, rows: seq<StoredEvent>)
    returns (r: Outcome<Summary>)
    requires Query(connection.committed, rows)
    modifies connection
    ensures var spec := Rebuilt(old(connection.committed), minify, c, rows);
      match r
      case Ok(summary) => spec == Ok((connection.committed, summary))
      case Err(e) =>
        connection.committed == old(connection.committed) &&
        (spec == Err(e) || (!connection.Reliable() && e == Storage))
  {
    hide Folded, SummaryOf, Integrity.Sound, StoreIdentity, RowBelow;
    if !StoreIdentity(c.name) { return Err(InvalidInput); }
    r := RebuildInside(connection, minify, c, rows);
  }

  method RebuildInside(connection: Connection, minify: Integrity.Minify, c: Callbacks, rows: seq<StoredEvent>)
    returns (r: Outcome<Summary>)
    requires StoreIdentity(c.name)
    requires forall j, k | 0 <= j < k < |rows| :: RowBelow(rows[j], rows[k])
    modifies connection
    ensures var spec := Rebuilt(old(connection.committed), minify, c, rows);
      match r
      case Ok(summary) => spec == Ok((connection.committed, summary))
      case Err(e) =>
        connection.committed == old(connection.committed) &&
        (spec == Err(e) || (!connection.Reliable() && e == Storage))
  {
    hide Folded, SummaryOf, Integrity.Sound, StoreIdentity, RowBelow;
    var begun := connection.Begin();
    if begun.Err? { return Err(begun.error); }
    var report := Integrity.CheckIntegrity(connection.working, minify);
    if !report.Healthy() { return Err(Storage); }
    var created := c.create(Tables(connection.working.projection, map[]));
    if created.None? { return Err(Refused); }
    var filled := ProjectRows(connection, c, created.value, rows);
    if filled.Err? { return Err(filled.error); }
    var interrupted := connection.Strike();
    if interrupted { return Err(Storage); }
    if !c.verify(filled.value.0, filled.value.1) { return Err(Refused); }
    var swapped := c.swap(filled.value.0);
    if swapped.None? { return Err(Refused); }
    connection.working := connection.working.(projection := swapped.value.live);
    var committed := connection.Commit();
    if committed.Err? { return Err(committed.error); }
    r := Ok(filled.value.1);
  }

  /** The summary's maximum is the largest sequence, or -1 when there is none. */
  lemma {:induction false} MaximumIsLargest(rows: seq<StoredEvent>)
    requires forall r | r in rows :: r.sequence >= 0
    ensures if rows == [] then Maximum(rows) == -1 else exists r :: r in rows && r.sequence == Maximum(rows)
    ensures forall r | r in rows :: r.sequence <= Maximum(rows)
    decreases |rows|
  {
    if rows != [] {
      var front, last := rows[..|rows| - 1], rows[|rows| - 1];
      assert rows == front + [last] && last in rows;
      MaximumIsLargest(front);
      if last.sequence <= Maximum(front) {
        assert last.sequence >= 0;
        var r :| r in front && r.sequence == Maximum(front);
        assert r in rows;
      }
    }
  }
}
