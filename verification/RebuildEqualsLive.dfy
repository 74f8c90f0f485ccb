/** A projection rebuilt from the log in (aggregate, sequence) order is the one that the event service kept
    up to date in commit order, provided events of different aggregates commute. */
module RebuildEqualsLive {
  import opened Text
  import opened StringOrder
  import opened EventStore
  import opened EventService
  import opened EventLog
  import opened StoredEvents
  import opened Convergence
  import Json
  import Rebuild
  import Integrity

  /** A projector as a function of the stored fields. */
  type Apply = (Projection, StoredEvent) -> Option<Projection>

  function Fold(g: Apply, p: Projection, rows: seq<StoredEvent>): (r: Option<Projection>)
    decreases |rows|
  {
    if rows == [] then Some(p)
    else
      var next := g(p, rows[0]);
      if next.None? then None else Fold(g, next.value, rows[1..])
  }

  /** The rows of one aggregate, in order. */
  function Of(rows: seq<StoredEvent>, a: string): (r: seq<StoredEvent>) {
    if rows == [] then []
    else (if rows[0].aggregate == a then [rows[0]] else []) + Of(rows[1..], a)
  }

  ghost predicate Commutes(g: Apply) {
    forall p: Projection, r: StoredEvent, s: StoredEvent | r.aggregate != s.aggregate ::
      Fold(g, p, [r, s]) == Fold(g, p, [s, r])
  }

  ghost predicate SameTraces(a: seq<StoredEvent>, b: seq<StoredEvent>) {
    forall x :: Of(a, x) == Of(b, x)
  }

  // ---------- Traces ----------

  lemma {:induction false} OfAppend(u: seq<StoredEvent>, v: seq<StoredEvent>, a: string)
    ensures Of(u + v, a) == Of(u, a) + Of(v, a)
    decreases |u|
  {
    if u == [] {
      assert u + v == v;
    } else {
      assert (u + v)[0] == u[0] && (u + v)[1..] == u[1..] + v;
      OfAppend(u[1..], v, a);
    }
  }

  lemma {:induction false} FoldAppend(g: Apply, p: Projection, u: seq<StoredEvent>, v: seq<StoredEvent>)
    ensures Fold(g, p, u + v) == if Fold(g, p, u).None? then None else Fold(g, Fold(g, p, u).value, v)
    decreases |u|
  {
    if u == [] {
      assert u + v == v;
    } else {
      assert (u + v)[0] == u[0] && (u + v)[1..] == u[1..] + v;
      if g(p, u[0]).Some? { FoldAppend(g, g(p, u[0]).value, u[1..], v); }
    }
  }

  lemma FoldTwo(g: Apply, p: Projection, r: StoredEvent, s: StoredEvent)
    ensures Fold(g, p, [r, s]) == if g(p, r).None? then None else g(g(p, r).value, s)
  {
    assert [r, s][1..] == [s] && [s][1..] == [];
    if g(p, r).Some? { assert Fold(g, g(p, r).value, [s]) == g(g(p, r).value, s); }
  }

  lemma FoldHead(g: Apply, p: Projection, r: StoredEvent, rest: seq<StoredEvent>)
    ensures Fold(g, p, [r] + rest) == if g(p, r).None? then None else Fold(g, g(p, r).value, rest)
  {
    assert ([r] + rest)[1..] == rest;
  }

  /** A row moves in front of rows of other aggregates. */
  lemma {:induction false} MoveToFront(g: Apply, p: Projection, u: seq<StoredEvent>, r: StoredEvent,
                                       v: seq<StoredEvent>)
    requires Commutes(g) && Of(u, r.aggregate) == []
    ensures Fold(g, p, u + [r] + v) == Fold(g, p, [r] + u + v)
    decreases |u|
  {
    if u == [] {
      assert u + [r] == [r] + u;
    } else {
      var s, rest := u[0], u[1..];
      assert s.aggregate != r.aggregate;
      assert u + [r] + v == [s] + (rest + [r] + v);
      assert [r] + u + v == [r] + ([s] + (rest + v));
      FoldHead(g, p, s, rest + [r] + v);
      FoldHead(g, p, r, [s] + (rest + v));
      if g(p, s).Some? {
        MoveToFront(g, g(p, s).value, rest, r, v);
        assert [r] + rest + v == [r] + (rest + v);
        FoldHead(g, g(p, s).value, r, rest + v);
      }
      if g(p, r).Some? { FoldHead(g, g(p, r).value, s, rest + v); }
      FoldTwo(g, p, r, s);
      FoldTwo(g, p, s, r);
      assert Fold(g, p, [r, s]) == Fold(g, p, [s, r]);
    }
  }

  /** The first row of an aggregate, with what comes before it. */
  lemma {:induction false} FirstOf(rows: seq<StoredEvent>, a: string) returns (i: nat)
    requires Of(rows, a) != []
    ensures i < |rows| && rows[i].aggregate == a && Of(rows[..i], a) == [] && rows[i] == Of(rows, a)[0]
  {
    if rows[0].aggregate == a {
      i := 0;
    } else {
      var j := FirstOf(rows[1..], a);
      i := j + 1;
      assert rows[..i] == [rows[0]] + rows[1..][..j];
      OfAppend([rows[0]], rows[1..][..j], a);
      assert [rows[0]][1..] == [];
    }
  }

  lemma {:induction false} NoTraces(rows: seq<StoredEvent>)
    requires forall a :: Of(rows, a) == []
    ensures rows == []
  {
    assert rows != [] ==> |Of(rows, rows[0].aggregate)| > 0;
  }

  lemma RestTraces(b: seq<StoredEvent>, u: seq<StoredEvent>, v: seq<StoredEvent>, r: StoredEvent,
                   rest: seq<StoredEvent>)
    requires b == [r] + rest && SameTraces(u + [r] + v, b) && Of(u, r.aggregate) == []
    ensures SameTraces(u + v, rest)
  {
    forall x ensures Of(u + v, x) == Of(rest, x) {
      OfAppend(u + [r], v, x);
      OfAppend(u, [r], x);
      OfAppend(u, v, x);
      OfAppend([r], rest, x);
      assert [r][1..] == [] && Of([r], x) == if r.aggregate == x then [r] else [];
      assert Of(u, x) + [] == Of(u, x) && [] + Of(rest, x) == Of(rest, x) && [] + Of(v, x) == Of(v, x);
      if r.aggregate == x {
        assert [] + [r] == [r];
        assert [r] + Of(v, x) == [r] + Of(rest, x);
        assert Of(v, x) == ([r] + Of(v, x))[1..] && Of(rest, x) == ([r] + Of(rest, x))[1..];
      }
    }
  }

  /** Two orders with the same rows for every aggregate fold to the same projection. */
  lemma {:induction false} TracesDecideTheFold(g: Apply, p: Projection, a: seq<StoredEvent>, b: seq<StoredEvent>)
    requires Commutes(g) && SameTraces(a, b)
    ensures Fold(g, p, a) == Fold(g, p, b)
    decreases |b|
  {
    if b == [] {
      assert forall x :: Of(a, x) == [];
      NoTraces(a);
    } else {
      var r, rest := b[0], b[1..];
      assert b == [r] + rest && Of(b, r.aggregate)[0] == r && Of(a, r.aggregate) == Of(b, r.aggregate);
      var i := FirstOf(a, r.aggregate);
      var u, v := a[..i], a[i + 1..];
      assert a == u + [r] + v;
      hide Commutes;
      MoveToFront(g, p, u, r, v);
      RestTraces(b, u, v, r, rest);
      hide SameTraces;
      assert [r] + u + v == [r] + (u + v);
      FoldHead(g, p, r, u + v);
      FoldHead(g, p, r, rest);
      if g(p, r).Some? { TracesDecideTheFold(g, g(p, r).value, u + v, rest); }
    }
  }

  // ---------- The rebuild's order ----------

  /** Ordered by aggregate and sequence, the rows of one aggregate are its log. */
  lemma {:induction false} OfSorted(rows: seq<StoredEvent>, a: string)
    requires forall i, j | 0 <= i < j < |rows| :: Rebuild.RowBelow(rows[i], rows[j])
    ensures var r := Of(rows, a);
      (forall x :: x in r <==> x in rows && x.aggregate == a) &&
      forall i, j | 0 <= i < j < |r| :: r[i].sequence < r[j].sequence
  {
    if rows != [] {
      OfSorted(rows[1..], a);
      var rest := Of(rows[1..], a);
      assert rows == [rows[0]] + rows[1..];
      forall j | 0 <= j < |rest| && rows[0].aggregate == a ensures rows[0].sequence < rest[j].sequence {
        assert rest[j] in rest && rest[j] in rows[1..];
        var k :| 0 <= k < |rows[1..]| && rows[1..][k] == rest[j];
        assert Rebuild.RowBelow(rows[0], rows[k + 1]);
        BelowIrreflexiveAt(a);
      }
    }
  }

  lemma BelowIrreflexiveAt(a: string)
    ensures !Below(a, a)
  {
    if Below(a, a) { BelowAsymmetric(a, a); }
  }

  /** Strictly increasing sequences of the same rows are equal. */
  lemma {:induction false} SameSorted(a: seq<StoredEvent>, b: seq<StoredEvent>)
    requires forall i, j | 0 <= i < j < |a| :: a[i].sequence < a[j].sequence
    requires forall i, j | 0 <= i < j < |b| :: b[i].sequence < b[j].sequence
    requires forall x :: x in a <==> x in b
    ensures a == b
    decreases |a|
  {
    assert b != [] ==> b[0] in b;
    if a != [] {
      assert a[0] in b && b != [] && b[0] in a;
      assert a[0].sequence <= b[0].sequence && b[0].sequence <= a[0].sequence;
      var j :| 0 <= j < |b| && b[j] == a[0];
      assert j == 0;
      assert a == [a[0]] + a[1..] && b == [b[0]] + b[1..];
      assert forall i | 1 <= i < |a| :: a[i] != a[0];
      assert forall i | 1 <= i < |b| :: b[i] != b[0];
      forall x ensures x in a[1..] <==> x in b[1..] {
        assert x in a[1..] <==> x in a && x != a[0];
        assert x in b[1..] <==> x in b && x != b[0];
      }
      SameSorted(a[1..], b[1..]);
    }
  }

  lemma RowHasItsKey(db: Db, k: Key)
    requires LogInv(db) && k in db.events
    ensures k == Key(db.events[k].aggregate, db.events[k].sequence)
  {
    hide ValidRow, StoreIdentity;
    assert RowAt(db, k);
  }

  lemma KeyOfRow(db: Db, rows: seq<StoredEvent>, x: StoredEvent) returns (k: Key)
    requires Rebuild.Query(db, rows) && x in rows
    ensures k in db.events && db.events[k] == x
  {
    k :| k in db.events && db.events[k] == x;
  }

  lemma KeyedRow(db: Db, rows: seq<StoredEvent>, k: Key)
    requires Rebuild.Query(db, rows) && k in db.events
    ensures db.events[k] in rows
  {
  }

  lemma LogMembers(db: Db, rows: seq<StoredEvent>, a: string, x: StoredEvent)
    requires LogInv(db) && Rebuild.Query(db, rows)
    ensures x in Log(db, a) <==> x in rows && x.aggregate == a
  {
    LogFacts(db, a);
    LogRows(db, a);
    hide *;
    var log := Log(db, a);
    if x in rows && x.aggregate == a {
      var k := KeyOfRow(db, rows, x);
      RowHasItsKey(db, k);
      assert log[k.sequence] == x;
    }
    if x in log {
      var i :| 0 <= i < |log| && log[i] == x;
      KeyedRow(db, rows, Key(a, i));
    }
  }

  lemma LogAscends(db: Db, a: string)
    requires LogInv(db)
    ensures var log := Log(db, a); forall i, j | 0 <= i < j < |log| :: log[i].sequence < log[j].sequence
  {
    LogRows(db, a);
    hide Log, LogInv, ValidRow, StoreIdentity;
  }

  lemma SortedRowsAreLogs(db: Db, rows: seq<StoredEvent>, a: string)
    requires LogInv(db) && Rebuild.Query(db, rows)
    ensures Of(rows, a) == Log(db, a)
  {
    hide LogInv, Log, ValidRow, Of;
    OfSorted(rows, a);
    hide Rebuild.Query;
    LogAscends(db, a);
    forall x ensures x in Of(rows, a) <==> x in Log(db, a) { LogMembers(db, rows, a, x); }
    SameSorted(Of(rows, a), Log(db, a));
  }

  // ---------- The live projection ----------

  /** Every registered projector does to the projection what `g` does with the stored row. */
  ghost predicate StoredOnly(projectors: Projectors, g: Apply) {
    forall key, p, e: Envelope, encoded | e.durable.Some? && Json.Encode(e.data) == Ok(encoded) ::
      ProjectAll(ProjectorsOf(projectors, key), p, e) == g(p, RowOf(e, key, encoded))
  }

  /** A commit hook that leaves the projection alone. */
  ghost predicate Quiet(commit: Option<Hook>) {
    commit.Some? ==> forall p, n :: commit.value(p, n).Some? ==> commit.value(p, n).value == p
  }

  /** The history that the tables record: it folds to the projection, and holds each aggregate's log. */
  ghost predicate Tells(db: Db, g: Apply, history: seq<StoredEvent>)
    requires LogInv(db)
  {
    Fold(g, map[], history) == Some(db.projection) && forall a :: Of(history, a) == Log(db, a)
  }

  lemma ExtendedLogIs(db: Db, after: Db, owner: string, row: StoredEvent, p: Projection, a: string)
    requires LogInv(db) && LogInv(after) && Continues(db, row) && after == Extended(db.(projection := p), owner, row)
    ensures Log(after, a) == Log(db, a) + if a == row.aggregate then [row] else []
  {
    hide LogInv, Log, StoreIdentity;
    LogFacts(db, a);
    LogFacts(after, a);
    var old_, new_ := Log(db, a), Log(after, a);
    assert LatestIn(after, a) == if a == row.aggregate then row.sequence else LatestIn(db, a);
    assert LatestIn(after, a) == LatestIn(db, a) + if a == row.aggregate then 1 else 0;
    hide Continues;
    forall i | 0 <= i < |old_| ensures new_[i] == old_[i] {
      assert Key(a, i) in after.events && Key(a, i) in db.events;
    }
  }

  lemma ExtendedTells(db: Db, after: Db, g: Apply, history: seq<StoredEvent>, owner: string, row: StoredEvent)
    requires LogInv(db) && LogInv(after) && Tells(db, g, history) && Continues(db, row)
    requires after == Extended(db.(projection := after.projection), owner, row)
    requires g(db.projection, row) == Some(after.projection)
    ensures Tells(after, g, history + [row])
  {
    FoldAppend(g, map[], history, [row]);
    assert [row][1..] == [];
    forall a ensures Of(history + [row], a) == Log(after, a) {
      OfAppend(history, [row], a);
      assert Of([row], a) == if row.aggregate == a then [row] else [];
      hide LogInv, Log;
      ExtendedLogIs(db, after, owner, row, after.projection, a);
    }
  }

  lemma UnchangedTells(db: Db, after: Db, g: Apply, history: seq<StoredEvent>)
    requires LogInv(db) && LogInv(after) && Tells(db, g, history)
    requires after.events == db.events && after.projection == db.projection
    requires forall a :: LatestIn(after, a) == LatestIn(db, a)
    ensures Tells(after, g, history)
  {
    forall a ensures Log(after, a) == Log(db, a) {
      LogFacts(db, a);
      LogFacts(after, a);
      hide LogInv, Log;
      assert forall i | 0 <= i < |Log(db, a)| :: Key(a, i) in db.events;
    }
  }

  // ---------- Operations ----------

  lemma PublishedTells(db: Db, g: Apply, history: seq<StoredEvent>, projectors: Projectors, commit: Option<Hook>,
                       key: string, version: Int64, e: Envelope, payload: Payload)
    returns (longer: seq<StoredEvent>)
    requires LogInv(db) && Tells(db, g, history) && StoredOnly(projectors, g) && Quiet(commit)
    requires e.data == payload.data && Json.Encode(payload.data) == Ok(payload.encoded)
    ensures var published := Published(db, ProjectorsOf(projectors, key), commit, key, version, e, payload);
      history <= longer && (published.Ok? ==> LogInv(published.value.0) && Tells(published.value.0, g, longer))
  {
    hide LogInv, Tells, Recorded, FindID, ValidRow, StoreIdentity, ProjectAll, Continues, Fold;
    longer := history;
    var list := ProjectorsOf(projectors, key);
    var published := Published(db, list, commit, key, version, e, payload);
    if published.Ok? {
      PublishedKeepsLog(db, list, commit, key, version, e, payload);
      var found := FindSequence(db, payload.aggregate).value;
      var placed := Placed(e, payload.aggregate, LatestOf(found) + 1, version);
      var row := RowOf(placed, key, payload.encoded);
      var p := Projected(list, commit, db.projection, placed).value;
      RecordedExtends(db.(projection := p), OwnerOf(found), row);
      assert ProjectAll(list, db.projection, placed) == g(db.projection, row);
      assert g(db.projection, row) == Some(p);
      assert Continues(db, row) by { FoundContinues(db, row); }
      longer := history + [row];
      ExtendedTells(db, published.value.0, g, history, OwnerOf(found), row);
    }
  }

  lemma FoundContinues(db: Db, row: StoredEvent)
    requires FindSequence(db, row.aggregate).Ok?
    requires row.sequence as int == LatestOf(FindSequence(db, row.aggregate).value) as int + 1
    ensures Continues(db, row)
  {
    hide StoreIdentity;
  }

  lemma FreshTells(db: Db, g: Apply, history: seq<StoredEvent>, projectors: Projectors, key: string, e: Envelope,
                   encoded: string, owner: string)
    requires LogInv(db) && Tells(db, g, history) && StoredOnly(projectors, g)
    requires e.durable.Some? && Json.Encode(e.data) == Ok(encoded)
    requires var row := RowOf(e, key, encoded);
      FindSequence(db, row.aggregate).Ok? &&
      row.sequence as int == LatestOf(FindSequence(db, row.aggregate).value) as int + 1 &&
      (OwnerOf(FindSequence(db, row.aggregate).value) != "" ==> owner == OwnerOf(FindSequence(db, row.aggregate).value))
    ensures var row := RowOf(e, key, encoded);
      var r := Fresh(db, ProjectorsOf(projectors, key), e, row, owner);
      r.Ok? ==> LogInv(r.value.0) && Tells(r.value.0, g, history + [row])
  {
    var row, list := RowOf(e, key, encoded), ProjectorsOf(projectors, key);
    var r := Fresh(db, list, e, row, owner);
    if r.Ok? {
      FreshKeepsLog(db, list, e, row, owner);
      FreshRow(db, list, e, row, owner);
      FoundContinues(db, row);
      assert ProjectAll(list, db.projection, e) == g(db.projection, row);
      hide LogInv, Tells, StoredOnly, Continues, FindSequence;
      ExtendedTells(db, r.value.0, g, history, owner, row);
    }
  }

  lemma StaleTells(db: Db, g: Apply, history: seq<StoredEvent>, row: StoredEvent, owner: string)
    requires LogInv(db) && Tells(db, g, history) && row.aggregate in db.sequences
    ensures var r := Stale(db, row, db.sequences[row.aggregate], owner);
      r.Ok? ==> LogInv(r.value.0) && Tells(r.value.0, g, history)
  {
    var r := Stale(db, row, db.sequences[row.aggregate], owner);
    if r.Ok? {
      StaleKeepsLog(db, row, owner);
      StaleKeepsLengths(db, row, owner);
      hide LogInv, Tells, Stale;
      UnchangedTells(db, r.value.0, g, history);
    }
  }

  lemma StaleKeepsLengths(db: Db, row: StoredEvent, owner: string)
    requires row.aggregate in db.sequences && Stale(db, row, db.sequences[row.aggregate], owner).Ok?
    ensures var after := Stale(db, row, db.sequences[row.aggregate], owner).value.0;
      after.projection == db.projection && forall a :: LatestIn(after, a) == LatestIn(db, a)
  {
    hide StoreIdentity, SameRow;
  }

  lemma ReplayedTells(db: Db, g: Apply, history: seq<StoredEvent>, projectors: Projectors, key: string, e: Envelope,
                      encoded: string, options: ReplayOptions) returns (longer: seq<StoredEvent>)
    requires LogInv(db) && Tells(db, g, history) && StoredOnly(projectors, g)
    requires e.durable.Some? && e.durable.value.sequence >= 0 && Json.Encode(e.data) == Ok(encoded)
    ensures var r := Replayed(db, ProjectorsOf(projectors, key), e, RowOf(e, key, encoded), options);
      history <= longer && (r.Ok? ==> LogInv(r.value.0) && Tells(r.value.0, g, longer))
  {
    longer := history;
    var row := RowOf(e, key, encoded);
    var r := Replayed(db, ProjectorsOf(projectors, key), e, row, options);
    if r.Ok? {
      var found := FindSequence(db, row.aggregate).value;
      var latest, owner := LatestOf(found), OwnerOf(found);
      hide LogInv, Tells, StoredOnly, Stale, Fresh, Json.Encode;
      if row.sequence <= latest {
        StaleTells(db, g, history, row, options.owner);
      } else if r.value.1 {
        longer := history + [row];
        FreshTells(db, g, history, projectors, key, e, encoded, if owner == "" then options.owner else owner);
      }
    }
  }

  /** The envelope that a publication starts from. */
  function Draft(d: Definition, payload: Payload, options: PublishOptions, generated: Option<string>)
    : (e: Option<Envelope>)
  {
    var id := if options.id == "" then generated else Some(options.id);
    if id.None? then None else Some(Envelope(id.value, d.name, payload.data, None, payload.metadata))
  }

  /** A publication leaves the tables alone, or leaves them as its transaction does. */
  lemma PublishWrites(s: State, projectors: Projectors, d: Definition, data: Json.Value, options: PublishOptions,
                      generated: Option<string>)
    ensures var s1 := PublishStep(s, projectors, d, data, options, generated).0;
      s1.db == s.db ||
      (ValidDefinition(d) && d.durable.Some? && PayloadOf(d, data, options.metadata).Ok? &&
       var payload := PayloadOf(d, data, options.metadata).value;
       var e := Draft(d, payload, options, generated);
       e.Some? &&
       var key := VersionedType(d);
       var published :=
         Published(s.db, ProjectorsOf(projectors, key), options.commit, key, d.durable.value.version, e.value, payload);
       published.Ok? && s1.db == published.value.0)
  {
    hide Published, PayloadOf, Bind, ValidDefinition, VersionedType;
  }

  lemma PayloadEncodes(d: Definition, data: Json.Value, metadata: Option<map<string, Json.Value>>)
    requires PayloadOf(d, data, metadata).Ok?
    ensures var p := PayloadOf(d, data, metadata).value; Json.Encode(p.data) == Ok(p.encoded)
  {
    CanonicalObjectFacts(data);
    hide CanonicalMetadata, Json.Encode, Json.Decode, CanonicalObjectText;
  }

  lemma PublishTells(s: State, g: Apply, history: seq<StoredEvent>, projectors: Projectors, d: Definition,
                     data: Json.Value, options: PublishOptions, generated: Option<string>)
    returns (longer: seq<StoredEvent>)
    requires LogInv(s.db) && Tells(s.db, g, history) && StoredOnly(projectors, g) && Quiet(options.commit)
    ensures var s1 := PublishStep(s, projectors, d, data, options, generated).0;
      history <= longer && LogInv(s1.db) && Tells(s1.db, g, longer)
  {
    hide *;
    longer := history;
    PublishWrites(s, projectors, d, data, options, generated);
    var s1 := PublishStep(s, projectors, d, data, options, generated).0;
    if s1.db != s.db {
      var payload := PayloadOf(d, data, options.metadata).value;
      PayloadEncodes(d, data, options.metadata);
      DraftCarries(d, payload, options, generated);
      longer := PublishedTells(s.db, g, history, projectors, options.commit, VersionedType(d), d.durable.value.version,
                               Draft(d, payload, options, generated).value, payload);
    }
  }

  lemma DraftCarries(d: Definition, payload: Payload, options: PublishOptions, generated: Option<string>)
    ensures var e := Draft(d, payload, options, generated); e.Some? ==> e.value.data == payload.data
  {
  }

  lemma ReplayTells(s: State, g: Apply, history: seq<StoredEvent>, projectors: Projectors, d: Definition, e: Envelope,
                    options: ReplayOptions) returns (longer: seq<StoredEvent>)
    requires LogInv(s.db) && Tells(s.db, g, history) && StoredOnly(projectors, g)
    ensures var s1 := ReplayStep(s, projectors, d, e, options).0;
      history <= longer && LogInv(s1.db) && Tells(s1.db, g, longer)
  {
    longer := history;
    ReplayKeepsLog(s, projectors, d, e, options);
    var s1 := ReplayStep(s, projectors, d, e, options).0;
    var payload := ReplayPayload(d, e);
    if payload.Ok? && s1.db != s.db {
      CanonicalObjectFacts(e.data);
      assert Json.Encode(payload.value.0.data) == Ok(payload.value.1) && payload.value.0.durable.value.sequence >= 0;
      hide LogInv, Tells, StoredOnly, Replayed, ReplayPayload, Bind, VersionedType, Json.Encode;
      longer := ReplayedTells(s.db, g, history, projectors, VersionedType(d), payload.value.0, payload.value.1,
                              options);
    }
  }

  lemma {:induction false} ReplayEachTells(s: State, g: Apply, history: seq<StoredEvent>, projectors: Projectors,
                                           entries: seq<ReplayEntry>, options: ReplayOptions)
    returns (longer: seq<StoredEvent>)
    requires LogInv(s.db) && Tells(s.db, g, history) && StoredOnly(projectors, g)
    ensures var s1 := ReplayEach(s, projectors, entries, options).0;
      history <= longer && LogInv(s1.db) && Tells(s1.db, g, longer)
    decreases |entries|
  {
    longer := history;
    if entries != [] {
      hide LogInv, Tells, StoredOnly, ReplayStep;
      var (s1, first) := ReplayStep(s, projectors, entries[0].definition, entries[0].event, options);
      longer := ReplayTells(s, g, history, projectors, entries[0].definition, entries[0].event, options);
      if first.Ok? { longer := ReplayEachTells(s1, g, longer, projectors, entries[1..], options); }
    }
  }

  // ---------- Runs ----------

  ghost predicate Peaceful(c: Command) {
    !c.Remove? && (c.Publish? ==> Quiet(c.options.commit))
  }

  lemma ClaimTells(db: Db, g: Apply, history: seq<StoredEvent>, aggregate: string, owner: string)
    requires LogInv(db) && Tells(db, g, history)
    ensures var r := ClaimTables(db, aggregate, owner); r.Ok? ==> LogInv(r.value) && Tells(r.value, g, history)
  {
    ClaimKeepsLog(db, aggregate, owner);
    if ClaimTables(db, aggregate, owner).Ok? {
      ClaimKeepsLengths(db, aggregate, owner);
      hide LogInv, Tells, ClaimTables;
      UnchangedTells(db, ClaimTables(db, aggregate, owner).value, g, history);
    }
  }

  lemma ClaimKeepsLengths(db: Db, aggregate: string, owner: string)
    requires ClaimTables(db, aggregate, owner).Ok?
    ensures var after := ClaimTables(db, aggregate, owner).value;
      after.projection == db.projection && forall a :: LatestIn(after, a) == LatestIn(db, a)
  {
    hide StoreIdentity, Identity;
  }

  lemma EffectTells(s: State, g: Apply, history: seq<StoredEvent>, projectors: Projectors, c: Command)
    returns (longer: seq<StoredEvent>)
    requires LogInv(s.db) && Tells(s.db, g, history) && StoredOnly(projectors, g) && Peaceful(c)
    ensures history <= longer && LogInv(Effect(s, projectors, c).db) && Tells(Effect(s, projectors, c).db, g, longer)
  {
    longer := history;
    hide LogInv, Tells, StoredOnly, PublishStep, ReplayStep, ReplayEach, ClaimTables, Quiet, ChunkBound;
    match c {
      case Publish(d, data, options, generated) =>
        longer := PublishTells(s, g, history, projectors, d, data, options, generated);
      case Replay(d, e, options) => longer := ReplayTells(s, g, history, projectors, d, e, options);
      case ReplayAll(entries, options) =>
        var bound := ChunkBound(s, entries);
        if bound.Ok? {
          BoundDb(s, entries);
          longer := ReplayEachTells(bound.value, g, history, projectors, entries, options);
        }
      case Claim(aggregate, owner) => ClaimTells(s.db, g, history, aggregate, owner);
    }
  }

  lemma BoundDb(s: State, entries: seq<ReplayEntry>)
    requires ChunkBound(s, entries).Ok?
    ensures ChunkBound(s, entries).value.db == s.db
  {
  }

  lemma NextTells(s: State, g: Apply, history: seq<StoredEvent>, projectors: Projectors, step: Step)
    returns (longer: seq<StoredEvent>)
    requires LogInv(s.db) && Tells(s.db, g, history) && StoredOnly(projectors, g) && Peaceful(step.command)
    ensures history <= longer && LogInv(Next(s, projectors, step).db) && Tells(Next(s, projectors, step).db, g, longer)
  {
    hide LogInv, Tells, StoredOnly, Effect, ReplayEach, ChunkError, Peaceful;
    longer := history;
    match step.fate {
      case Whole => longer := EffectTells(s, g, history, projectors, step.command);
      case Undone =>
      case After(n) =>
        if step.command.ReplayAll? && n <= |step.command.entries| && ChunkError(step.command.entries, 0).None? {
          var bound := s.(definitions := Effect(s, projectors, step.command).definitions);
          longer := ReplayEachTells(bound, g, history, projectors, step.command.entries[..n],
                                    step.command.replayOptions);
        }
    }
  }

  /** A history of the rows as committed in the course of a run: it tells the tables after every step, and grows
      by what the step adds. */
  ghost predicate IsHistory(s: State, g: Apply, projectors: Projectors, steps: seq<Step>,
                            histories: seq<seq<StoredEvent>>)
  {
    |histories| == |steps| + 1 &&
    (forall i | 0 <= i <= |steps| :: Told(Run(s, projectors, steps[..i]).db, g, histories[i])) &&
    (forall i | 0 <= i < |steps| :: histories[i] <= histories[i + 1])
  }

  ghost predicate Told(db: Db, g: Apply, history: seq<StoredEvent>) {
    LogInv(db) && Tells(db, g, history)
  }

  /** Along every run the projection is the fold of the rows in commit order. */
  lemma {:induction false} RunTells(s: State, g: Apply, history: seq<StoredEvent>, projectors: Projectors,
                                    steps: seq<Step>)
    returns (histories: seq<seq<StoredEvent>>)
    requires LogInv(s.db) && Tells(s.db, g, history) && StoredOnly(projectors, g)
    requires forall step | step in steps :: Peaceful(step.command)
    ensures IsHistory(s, g, projectors, steps, histories) && histories[0] == history
    decreases |steps|
  {
    hide LogInv, Tells, StoredOnly, Next, Peaceful;
    assert Told(s.db, g, history);
    hide Told;
    assert Run(s, projectors, []) == s;
    if steps == [] {
      histories := [history];
    } else {
      var s1, rest := Next(s, projectors, steps[0]), steps[1..];
      var longer := NextTells(s, g, history, projectors, steps[0]);
      var later := RunTells(s1, g, longer, projectors, rest);
      histories := [history] + later;
      forall i | 0 <= i <= |steps| ensures Told(Run(s, projectors, steps[..i]).db, g, histories[i]) {
        if i > 0 {
          assert steps[..i][0] == steps[0] && steps[..i][1..] == rest[..i - 1];
          assert Told(Run(s1, projectors, rest[..i - 1]).db, g, later[i - 1]);
        }
      }
      forall i | 0 <= i < |steps| ensures histories[i] <= histories[i + 1] {
        if i > 0 { assert later[i - 1] <= later[i - 1 + 1]; }
      }
    }
  }

  /** Whatever a run without Remove did, failures included: folding its log in the rebuild's order gives the
      projection that was kept up to date event by event. */
  lemma RebuildEqualsLive(projectors: Projectors, g: Apply, steps: seq<Step>, rows: seq<StoredEvent>)
    requires StoredOnly(projectors, g) && Commutes(g) && forall step | step in steps :: Peaceful(step.command)
    requires Rebuild.Query(Run(FRESH, projectors, steps).db, rows)
    ensures Fold(g, map[], rows) == Some(Run(FRESH, projectors, steps).db.projection)
  {
    FreshTellsNothing(g);
    hide LogInv, Tells, StoredOnly, Run, Peaceful, Commutes, Rebuild.Query;
    var histories := RunTells(FRESH, g, [], projectors, steps);
    var db := Run(FRESH, projectors, steps).db;
    assert steps[..|steps|] == steps;
    assert Told(db, g, histories[|steps|]);
    TellsInAnyOrder(db, g, histories[|steps|], rows);
  }

  lemma FreshTellsNothing(g: Apply)
    ensures LogInv(FRESH.db) && Tells(FRESH.db, g, [])
  {
  }

  lemma TellsInAnyOrder(db: Db, g: Apply, history: seq<StoredEvent>, rows: seq<StoredEvent>)
    requires LogInv(db) && Tells(db, g, history) && Commutes(g) && Rebuild.Query(db, rows)
    ensures Fold(g, map[], rows) == Some(db.projection)
  {
    forall a ensures Of(history, a) == Of(rows, a) {
      hide LogInv, Commutes, Rebuild.Query;
      SortedRowsAreLogs(db, rows, a);
    }
    hide LogInv, Commutes, Rebuild.Query;
    TracesDecideTheFold(g, map[], history, rows);
  }

  // ---------- Rebuilding a reachable store ----------

  /** Callbacks that fill an empty shadow with `g` and then make it the live projection. */
  function ShadowCallbacks(name: string, g: Apply): (c: Rebuild.Callbacks) {
    Rebuild.Callbacks(
      name,
      (t: Rebuild.Tables) => Some(t.(shadow := map[])),
      (t: Rebuild.Tables, row: StoredEvent) =>
        (var p := g(t.shadow, row); if p.None? then None else Some(t.(shadow := p.value))),
      (t: Rebuild.Tables, s: Rebuild.Summary) => true,
      (t: Rebuild.Tables) => Some(Rebuild.Tables(t.shadow, map[])))
  }

  lemma {:induction false} FoldedIsFold(name: string, g: Apply, t: Rebuild.Tables, rows: seq<StoredEvent>)
    requires (forall r | r in rows :: ValidRow(r)) && Fold(g, t.shadow, rows).Some?
    ensures Rebuild.Folded(ShadowCallbacks(name, g).project, t, rows) == Ok(t.(shadow := Fold(g, t.shadow, rows).value))
    decreases |rows|
  {
    hide ValidRow;
    if rows != [] { FoldedIsFold(name, g, t.(shadow := g(t.shadow, rows[0]).value), rows[1..]); }
  }

  lemma QueriedRowsAreValid(db: Db, rows: seq<StoredEvent>)
    requires LogInv(db) && Rebuild.Query(db, rows)
    ensures forall r | r in rows :: ValidRow(r)
  {
    hide ValidRow;
    forall r | r in rows ensures ValidRow(r) {
      var k :| k in db.events && db.events[k] == r;
      assert RowAt(db, k);
    }
  }

  /** Rebuilding the projection of a store that the event service maintained finds it sound, and replaces the
      projection by itself. */
  lemma RebuildingReachableChangesNothing(
    projectors: Projectors, g: Apply, steps: seq<Step>, rows: seq<StoredEvent>, minify: Integrity.Minify, name: string)
    requires StoredOnly(projectors, g) && Commutes(g) && forall step | step in steps :: Peaceful(step.command)
    requires Rebuild.Query(Run(FRESH, projectors, steps).db, rows)
    requires Integrity.MinifiesCanonical(minify) && StoreIdentity(name)
    ensures var db := Run(FRESH, projectors, steps).db;
      Rebuild.Rebuilt(db, minify, ShadowCallbacks(name, g), rows) == Ok((db, Rebuild.SummaryOf(rows)))
  {
    hide LogInv, StoredOnly, Run, Peaceful, Commutes, Rebuild.Query, Rebuild.Folded, Rebuild.SummaryOf, ValidRow,
         Integrity.Sound, Integrity.MinifiesCanonical, StoreIdentity, Fold;
    var db := Run(FRESH, projectors, steps).db;
    RebuildEqualsLive(projectors, g, steps, rows);
    ReachableLogs(projectors, steps);
    Integrity.ReachableTablesAreSound(db, minify);
    QueriedRowsAreValid(db, rows);
    FoldedIsFold(name, g, Rebuild.Tables(db.projection, map[]), rows);
  }
}
