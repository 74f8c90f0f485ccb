/** Where replicas end up: foreign and divergent histories change nothing, compatible ones converge. */
module Convergence {
  import opened Text
  import opened EventStore
  import opened EventService
  import opened EventLog
  import opened StoredEvents
  import opened Replication
  import Json

  // ---------- Foreign owners ----------

  predicate Foreign(db: Db, aggregate: string, options: ReplayOptions) {
    aggregate in db.sequences && db.sequences[aggregate].owner != "" && db.sequences[aggregate].owner != options.owner
  }

  lemma ForeignRowChangesNothing(db: Db, list: seq<Projector>, e: Envelope, row: StoredEvent, options: ReplayOptions)
    requires Foreign(db, row.aggregate, options)
    ensures var r := Replayed(db, list, e, row, options); r.Ok? ==> r.value == (db, false)
  {
    hide Fresh;
  }

  lemma ForeignEntryChangesNothing(s: State, projectors: Projectors, entry: ReplayEntry, options: ReplayOptions)
    requires entry.event.durable.Some? && Foreign(s.db, entry.event.durable.value.aggregate, options)
    ensures var s1 := ReplayStep(s, projectors, entry.definition, entry.event, options).0;
      s1.db == s.db && s1.notified == s.notified
  {
    var payload := ReplayPayload(entry.definition, entry.event);
    if payload.Ok? {
      var key := VersionedType(entry.definition);
      hide ReplayPayload, Replayed, ValidDefinition, Bind, VersionedType;
      ForeignRowChangesNothing(s.db, ProjectorsOf(projectors, key), payload.value.0,
                               RowOf(payload.value.0, key, payload.value.1), options);
    }
  }

  /** Replaying a chunk into an aggregate that belongs to someone else changes no table and notifies no one. */
  lemma {:induction false} ForeignChunkChangesNothing(
    s: State, projectors: Projectors, entries: seq<ReplayEntry>, aggregate: string, options: ReplayOptions)
    requires Foreign(s.db, aggregate, options)
    requires forall e | e in entries :: e.event.durable.Some? && e.event.durable.value.aggregate == aggregate
    ensures var s1 := ReplayEach(s, projectors, entries, options).0; s1.db == s.db && s1.notified == s.notified
    decreases |entries|
  {
    hide ReplayStep;
    if entries != [] {
      ForeignEntryChangesNothing(s, projectors, entries[0], options);
      var (s1, first) := ReplayStep(s, projectors, entries[0].definition, entries[0].event, options);
      if first.Ok? { ForeignChunkChangesNothing(s1, projectors, entries[1..], aggregate, options); }
    }
  }

  // ---------- Divergent histories ----------

  /** The aggregate holds another event where this entry wants to be. */
  ghost predicate Diverges(db: Db, entry: ReplayEntry) {
    var payload := ReplayPayload(entry.definition, entry.event);
    payload.Ok? &&
    var row := RowOf(payload.value.0, VersionedType(entry.definition), payload.value.1);
    row.aggregate in db.sequences && 0 <= row.sequence <= db.sequences[row.aggregate].latest &&
    var key := Key(row.aggregate, row.sequence);
    !SameRow(if key in db.events then Some(db.events[key]) else None, row)
  }

  predicate Within(db: Db, entry: ReplayEntry) {
    entry.event.durable.Some? &&
    var position := entry.event.durable.value;
    position.aggregate in db.sequences && 0 <= position.sequence <= db.sequences[position.aggregate].latest
  }

  lemma DivergentEntryIsRefused(s: State, projectors: Projectors, entry: ReplayEntry, options: ReplayOptions)
    requires Diverges(s.db, entry)
    ensures var (s1, r) := ReplayStep(s, projectors, entry.definition, entry.event, options);
      r.Err? && s1.db == s.db && s1.notified == s.notified
  {
    hide ReplayPayload, ValidDefinition, Bind, VersionedType, SameRow, Fresh;
  }

  /** An entry inside the log adds no row and moves no sequence. */
  lemma EntryWithin(s: State, projectors: Projectors, entry: ReplayEntry, options: ReplayOptions)
    requires Within(s.db, entry)
    ensures var s1 := ReplayStep(s, projectors, entry.definition, entry.event, options).0;
      SameHistory(s.db, s1.db)
  {
    var payload := ReplayPayload(entry.definition, entry.event);
    if payload.Ok? {
      var row := RowOf(payload.value.0, VersionedType(entry.definition), payload.value.1);
      StaleKeepsHistory(s.db, row, options);
    }
    hide ReplayPayload, ValidDefinition, Bind, VersionedType, Stale, Fresh;
  }

  /** The same rows, in aggregates as long as before. */
  ghost predicate SameHistory(before: Db, after: Db) {
    after.events == before.events && after.sequences.Keys == before.sequences.Keys &&
    forall a | a in before.sequences :: after.sequences[a].latest == before.sequences[a].latest
  }

  lemma StaleKeepsHistory(db: Db, row: StoredEvent, options: ReplayOptions)
    requires row.aggregate in db.sequences
    ensures var stale := Stale(db, row, db.sequences[row.aggregate], options.owner);
      stale.Ok? ==> SameHistory(db, stale.value.0)
  {
    hide StoreIdentity, SameRow;
  }

  lemma HistoryDecidesDivergence(before: Db, after: Db, entry: ReplayEntry)
    requires SameHistory(before, after)
    ensures Diverges(after, entry) <==> Diverges(before, entry)
    ensures Within(after, entry) <==> Within(before, entry)
  {
    hide ReplayPayload, SameRow;
  }

  /** A chunk with an entry that diverges from the log is refused and adds no row. */
  lemma {:induction false} DivergentChunkIsRefused(
    s: State, projectors: Projectors, entries: seq<ReplayEntry>, i: nat, options: ReplayOptions)
    requires i < |entries| && Diverges(s.db, entries[i])
    requires forall j | 0 <= j < i :: Within(s.db, entries[j])
    ensures var (s1, r) := ReplayEach(s, projectors, entries, options);
      r.Err? && SameHistory(s.db, s1.db)
    decreases i
  {
    hide ReplayStep, Diverges, Within;
    if i == 0 {
      DivergentEntryIsRefused(s, projectors, entries[0], options);
    } else {
      var (s1, first) := ReplayStep(s, projectors, entries[0].definition, entries[0].event, options);
      EntryWithin(s, projectors, entries[0], options);
      if first.Ok? {
        forall j | 0 <= j < i - 1 ensures Within(s1.db, entries[1..][j]) {
          HistoryDecidesDivergence(s.db, s1.db, entries[j + 1]);
        }
        HistoryDecidesDivergence(s.db, s1.db, entries[i]);
        DivergentChunkIsRefused(s1, projectors, entries[1..], i - 1, options);
      }
    }
  }

  // ---------- Pages of a history ----------

  /** Rows from..from+|rows|-1 of an aggregate, each written under the definition bound to its type. */
  ghost predicate Page(definitions: Bindings, rows: seq<StoredEvent>, aggregate: string, from: nat) {
    StoreIdentity(aggregate) &&
    forall i | 0 <= i < |rows| :: PageRow(definitions, rows[i], aggregate, from + i)
  }

  ghost predicate PageRow(definitions: Bindings, row: StoredEvent, aggregate: string, sequence: nat) {
    row.aggregate == aggregate && row.sequence == sequence && ValidRow(row) &&
    row.name in definitions && Suits(definitions[row.name], row)
  }

  ghost function EntryOf(definitions: Bindings, row: StoredEvent): (entry: ReplayEntry)
    requires row.name in definitions && Suits(definitions[row.name], row)
  {
    ReplayEntry(definitions[row.name], Decoded(row).value)
  }

  ghost predicate Listed(rows: seq<StoredEvent>, definitions: Bindings) {
    forall i | 0 <= i < |rows| :: rows[i].name in definitions && Suits(definitions[rows[i].name], rows[i])
  }

  ghost function EntriesOf(definitions: Bindings, rows: seq<StoredEvent>): (entries: seq<ReplayEntry>)
    requires Listed(rows, definitions)
    ensures |entries| == |rows|
  {
    if rows == [] then [] else [EntryOf(definitions, rows[0])] + EntriesOf(definitions, rows[1..])
  }

  /** What the projectors of a row make of a projection; `None` when one of them refuses. */
  ghost function RowProjected(projectors: Projectors, p: Projection, row: StoredEvent): (r: Option<Projection>)
    requires Decoded(row).Ok?
  {
    ProjectAll(ProjectorsOf(projectors, row.name), p, Decoded(row).value)
  }

  /** How many rows go in before a projector refuses one. Rows up to `latest` are held already, and not projected. */
  ghost function Accepted(projectors: Projectors, p: Projection, latest: int, rows: seq<StoredEvent>): (n: nat)
    requires forall i | 0 <= i < |rows| :: Decoded(rows[i]).Ok?
    ensures n <= |rows|
    decreases |rows|
  {
    if rows == [] then 0
    else if rows[0].sequence <= latest then 1 + Accepted(projectors, p, latest, rows[1..])
    else
      var next := RowProjected(projectors, p, rows[0]);
      if next.None? then 0 else 1 + Accepted(projectors, next.value, rows[0].sequence, rows[1..])
  }

  /** The event of a row, if it decodes. */
  ghost function EventsOf(row: StoredEvent): (events: seq<Envelope>) {
    if Decoded(row).Ok? then [Decoded(row).value] else []
  }

  /** The events of the rows beyond `latest`, in order. */
  ghost function NewEvents(latest: int, rows: seq<StoredEvent>): (events: seq<Envelope>) {
    if rows == [] then []
    else (if rows[0].sequence > latest then EventsOf(rows[0]) else []) + NewEvents(latest, rows[1..])
  }

  /** What replaying rows announces. */
  ghost function Announced(latest: int, rows: seq<StoredEvent>, options: ReplayOptions): (events: seq<Envelope>) {
    if options.publish then NewEvents(latest, rows) else []
  }

  lemma {:induction false} AllNew(latest: int, later: int, rows: seq<StoredEvent>)
    requires latest <= later && forall i | 0 <= i < |rows| :: rows[i].sequence > later
    ensures NewEvents(latest, rows) == NewEvents(later, rows)
    decreases |rows|
  {
    hide EventsOf;
    if rows != [] { AllNew(latest, later, rows[1..]); }
  }

  /** Projectors that refuse nothing let every row in. */
  lemma {:induction false} NoRefusalAcceptsAll(projectors: Projectors, p: Projection, latest: int,
                                               rows: seq<StoredEvent>)
    requires forall i | 0 <= i < |rows| :: Decoded(rows[i]).Ok?
    requires forall key, q, e | key in projectors :: ProjectAll(projectors[key], q, e).Some?
    ensures Accepted(projectors, p, latest, rows) == |rows|
    decreases |rows|
  {
    hide Decoded;
    if rows != [] {
      if rows[0].sequence <= latest {
        NoRefusalAcceptsAll(projectors, p, latest, rows[1..]);
      } else {
        assert RowProjected(projectors, p, rows[0]).Some?;
        NoRefusalAcceptsAll(projectors, RowProjected(projectors, p, rows[0]).value, rows[0].sequence, rows[1..]);
      }
    }
  }

  function OwnerIn(db: Db, a: string): (owner: string) {
    if a in db.sequences then db.sequences[a].owner else ""
  }

  function LatestIn(db: Db, a: string): (latest: int) {
    if a in db.sequences then db.sequences[a].latest else -1
  }

  /** The target holds the same rows where it has any, a compatible owner, and none of the new ids. */
  ghost predicate Mergeable(db: Db, rows: seq<StoredEvent>, a: string, from: nat, options: ReplayOptions) {
    LogInv(db) && (options.owner != "" ==> StoreIdentity(options.owner)) &&
    OwnerIn(db, a) in {"", options.owner} && from <= LatestIn(db, a) + 1 &&
    (forall i | 0 <= i < |rows| :: RowMerges(db, rows[i], a)) &&
    (forall i, j | 0 <= i < j < |rows| :: rows[i].id != rows[j].id)
  }

  ghost predicate RowMerges(db: Db, row: StoredEvent, a: string) {
    if row.sequence <= LatestIn(db, a) then Key(a, row.sequence) in db.events && db.events[Key(a, row.sequence)] == row
    else !HasID(db, row.id)
  }

  function Later(a: int, b: int): (r: int) {
    if a < b then b else a
  }

  /** The union of two logs of an aggregate, everything else unchanged. */
  ghost predicate Merged(before: Db, after: Db, rows: seq<StoredEvent>, a: string, from: nat, options: ReplayOptions) {
    MergedRows(before, after, rows, a, from) && MergedStates(before, after, rows, a, from, options)
  }

  ghost predicate MergedRows(before: Db, after: Db, rows: seq<StoredEvent>, a: string, from: nat) {
    (forall k ::
       k in after.events <==> k in before.events || (k.aggregate == a && from <= k.sequence < from + |rows|)) &&
    (forall k | k in before.events :: k in after.events && after.events[k] == before.events[k]) &&
    (forall k | k in after.events && k.aggregate == a && from <= k.sequence < from + |rows| ::
       after.events[k] == rows[k.sequence - from])
  }

  ghost predicate MergedStates(
    before: Db, after: Db, rows: seq<StoredEvent>, a: string, from: nat, options: ReplayOptions)
  {
    (forall b | b != a :: (b in after.sequences <==> b in before.sequences) &&
       (b in before.sequences ==> after.sequences[b] == before.sequences[b])) &&
    LatestIn(after, a) == Later(LatestIn(before, a), from + |rows| - 1) &&
    OwnerIn(after, a) == (if OwnerIn(before, a) == "" && rows != [] then options.owner else OwnerIn(before, a))
  }

  // ---------- Merging one row ----------

  /** The event of a stored row, replayed under the row's own definition, is that row again. */
  lemma ReplayOfRow(s: State, projectors: Projectors, definitions: Bindings, row: StoredEvent, options: ReplayOptions)
    requires row.name in definitions && Suits(definitions[row.name], row)
    requires Bind(s.definitions, definitions[row.name]) == Ok(s.definitions)
    ensures var entry := EntryOf(definitions, row);
      ReplayStep(s, projectors, entry.definition, entry.event, options) ==
        ReplayBound(s, projectors, row.name, Decoded(row).value, row.data, options) &&
      RowOf(Decoded(row).value, row.name, row.data) == row
  {
    hide ReplayPayload, Replayed, ValidDefinition, Bind, Json.Decode, LastDot, ParseInt64;
  }

  /** The conditions for one row. */
  ghost predicate Acceptable(db: Db, row: StoredEvent, options: ReplayOptions) {
    LogInv(db) && ValidRow(row) && (options.owner != "" ==> StoreIdentity(options.owner)) &&
    OwnerIn(db, row.aggregate) in {"", options.owner} && row.sequence <= LatestIn(db, row.aggregate) + 1 &&
    RowMerges(db, row, row.aggregate)
  }

  function OwnerAfter(db: Db, a: string, options: ReplayOptions): (owner: string) {
    if OwnerIn(db, a) == "" then options.owner else OwnerIn(db, a)
  }

  lemma NewRowInserts(db: Db, row: StoredEvent, options: ReplayOptions, p: Projection)
    requires Acceptable(db, row, options) && row.sequence > LatestIn(db, row.aggregate)
    ensures Recorded(db.(projection := p), OwnerAfter(db, row.aggregate, options), row).Ok?
    ensures var found := FindSequence(db, row.aggregate);
      found.Ok? && LatestOf(found.value) == LatestIn(db, row.aggregate) &&
      OwnerOf(found.value) == OwnerIn(db, row.aggregate)
  {
    var a := row.aggregate;
    if a in db.sequences { assert WholeLog(db, a); } else { NoRowsOutside(db, a); }
    var put := SequencePut(db.(projection := p), a, SequenceState(row.sequence, OwnerAfter(db, a, options)));
    assert put.Ok?;
    SameIDs(db, put.value, row.id);
    hide LogInv, ValidRow, HasID;
  }

  lemma NewRowMerges(db: Db, list: seq<Projector>, e: Envelope, row: StoredEvent, options: ReplayOptions)
    requires Acceptable(db, row, options) && row.sequence > LatestIn(db, row.aggregate)
    ensures var r := Replayed(db, list, e, row, options);
      var p := ProjectAll(list, db.projection, e);
      if p.None? then r == Err(Refused)
      else r == Ok((Extended(db.(projection := p.value), OwnerAfter(db, row.aggregate, options), row), true))
  {
    var projected := ProjectAll(list, db.projection, e);
    var p := projected.GetOr(db.projection);
    NewRowInserts(db, row, options, p);
    assert FindID(db, row.id) == Ok(false);
    var owner := OwnerAfter(db, row.aggregate, options);
    RecordedExtends(db.(projection := p), owner, row);
    hide LogInv, ProjectAll, ValidRow, StoreIdentity, HasID, Recorded, FindSequence, Extended;
  }

  lemma HeldRowFacts(db: Db, row: StoredEvent, options: ReplayOptions)
    requires Acceptable(db, row, options) && row.sequence <= LatestIn(db, row.aggregate)
    ensures StoreIdentity(row.aggregate) && row.sequence >= 0 && row.aggregate in db.sequences
    ensures db.sequences[row.aggregate].latest >= 0
    ensures FindAt(db, row.aggregate, row.sequence) == Ok(Some(row))
    ensures options.owner != "" ==> StoreIdentity(options.owner)
  {
    assert row.aggregate in db.sequences && WholeLog(db, row.aggregate);
    hide LogInv, StoreIdentity, HasID;
  }

  lemma HeldRowIsStale(db: Db, row: StoredEvent, options: ReplayOptions)
    requires Acceptable(db, row, options) && row.sequence <= LatestIn(db, row.aggregate)
    ensures var a := row.aggregate;
      a in db.sequences &&
      Stale(db, row, db.sequences[a], options.owner) ==
        Ok((db.(sequences := db.sequences[a := db.sequences[a].(owner := OwnerAfter(db, a, options))]), false))
  {
    hide Acceptable, StoreIdentity, FindAt;
    HeldRowFacts(db, row, options);
    var a := row.aggregate;
    assert db.sequences[a := db.sequences[a]] == db.sequences;
    assert db.(sequences := db.sequences) == db;
  }

  lemma HeldRowMerges(db: Db, list: seq<Projector>, e: Envelope, row: StoredEvent, options: ReplayOptions)
    requires Acceptable(db, row, options) && row.sequence <= LatestIn(db, row.aggregate)
    ensures var a := row.aggregate;
      a in db.sequences && Replayed(db, list, e, row, options) ==
        Ok((db.(sequences := db.sequences[a := db.sequences[a].(owner := OwnerAfter(db, a, options))]), false))
  {
    HeldRowIsStale(db, row, options);
    HeldRowFacts(db, row, options);
    assert OwnerIn(db, row.aggregate) in {"", options.owner};
    hide Acceptable, StoreIdentity, Fresh, Stale;
  }

  /** One row merged: it is there afterwards, and nothing else changed but the owner and the length. */
  lemma RowMerged(db: Db, list: seq<Projector>, e: Envelope, row: StoredEvent, options: ReplayOptions)
    requires Acceptable(db, row, options)
    ensures var r := Replayed(db, list, e, row, options);
      var held := row.sequence <= LatestIn(db, row.aggregate);
      var p := if held then Some(db.projection) else ProjectAll(list, db.projection, e);
      if p.None? then r == Err(Refused)
      else
        r.Ok? && LogInv(r.value.0) && Merged(db, r.value.0, [row], row.aggregate, row.sequence, options) &&
        r.value.0.projection == p.value && (r.value.1 <==> !held)
  {
    ReplayedKeepsLog(db, list, e, row, options);
    var r := Replayed(db, list, e, row, options);
    if row.sequence > LatestIn(db, row.aggregate) {
      NewRowMerges(db, list, e, row, options);
      NewRowIsNew(db, row);
      hide LogInv, Replayed, ValidRow, StoreIdentity, RowMerges;
      if r.Ok? { ExtendedIsMerged(db, r.value.0, row, options); }
    } else {
      HeldRowMerges(db, list, e, row, options);
      hide LogInv, Replayed, ValidRow, StoreIdentity;
      ClaimedIsMerged(db, r.value.0, row, options);
    }
  }

  lemma NewRowIsNew(db: Db, row: StoredEvent)
    requires LogInv(db) && row.sequence > LatestIn(db, row.aggregate)
    ensures Key(row.aggregate, row.sequence) !in db.events
  {
    if row.aggregate in db.sequences { assert WholeLog(db, row.aggregate); } else { NoRowsOutside(db, row.aggregate); }
  }

  lemma ExtendedIsMerged(db: Db, after: Db, row: StoredEvent, options: ReplayOptions)
    requires 0 <= row.sequence && row.sequence == LatestIn(db, row.aggregate) + 1
    requires Key(row.aggregate, row.sequence) !in db.events
    requires after == Extended(db.(projection := after.projection), OwnerAfter(db, row.aggregate, options), row)
    ensures Merged(db, after, [row], row.aggregate, row.sequence, options)
  {
    forall k: Key
      ensures k in after.events <==> k in db.events || (k.aggregate == row.aggregate && k.sequence == row.sequence)
    {
      assert k == Key(k.aggregate, k.sequence);
    }
  }

  lemma ClaimedIsMerged(db: Db, after: Db, row: StoredEvent, options: ReplayOptions)
    requires 0 <= row.sequence <= LatestIn(db, row.aggregate) && row.aggregate in db.sequences
    requires RowMerges(db, row, row.aggregate)
    requires after == db.(sequences := db.sequences[row.aggregate :=
      db.sequences[row.aggregate].(owner := OwnerAfter(db, row.aggregate, options))])
    ensures Merged(db, after, [row], row.aggregate, row.sequence, options)
  {
    forall k: Key | k.aggregate == row.aggregate && k.sequence == row.sequence
      ensures k in db.events && db.events[k] == row
    {
      assert k == Key(row.aggregate, row.sequence);
    }
    hide HasID;
  }

  // ---------- Merging a page ----------

  lemma MergedRowsThen(before: Db, mid: Db, after: Db, row: StoredEvent, rest: seq<StoredEvent>, a: string, from: nat)
    requires MergedRows(before, mid, [row], a, from) && MergedRows(mid, after, rest, a, from + 1)
    ensures MergedRows(before, after, [row] + rest, a, from)
  {
    var rows := [row] + rest;
    forall k: Key
      ensures k in after.events <==> k in before.events || (k.aggregate == a && from <= k.sequence < from + |rows|)
    {
      assert k in mid.events <==> k in before.events || (k.aggregate == a && from <= k.sequence < from + 1);
    }
    forall k | k in after.events && k.aggregate == a && from <= k.sequence < from + |rows|
      ensures after.events[k] == rows[k.sequence - from]
    {
      if k.sequence == from { assert k in mid.events; }
    }
  }

  lemma MergedStatesThen(before: Db, mid: Db, after: Db, row: StoredEvent, rest: seq<StoredEvent>, a: string, from: nat,
                         options: ReplayOptions)
    requires MergedStates(before, mid, [row], a, from, options) && MergedStates(mid, after, rest, a, from + 1, options)
    ensures MergedStates(before, after, [row] + rest, a, from, options)
  {
    hide LatestIn, OwnerIn;
  }

  lemma MergedThen(before: Db, mid: Db, after: Db, row: StoredEvent, rest: seq<StoredEvent>, a: string, from: nat,
                   options: ReplayOptions)
    requires Merged(before, mid, [row], a, from, options) && Merged(mid, after, rest, a, from + 1, options)
    ensures Merged(before, after, [row] + rest, a, from, options)
  {
    hide MergedRows, MergedStates;
    MergedRowsThen(before, mid, after, row, rest, a, from);
    MergedStatesThen(before, mid, after, row, rest, a, from, options);
  }

  lemma MergedNothing(db: Db, a: string, from: nat, options: ReplayOptions)
    requires from <= LatestIn(db, a) + 1
    ensures Merged(db, db, [], a, from, options)
  {
  }

  /** The rest of a page still merges once its first row is in. */
  lemma RestMerges(before: Db, mid: Db, rows: seq<StoredEvent>, a: string, from: nat, options: ReplayOptions)
    requires Mergeable(before, rows, a, from, options) && rows != [] && LogInv(mid)
    requires forall i | 0 <= i < |rows| :: rows[i].aggregate == a && rows[i].sequence == from + i
    requires Merged(before, mid, [rows[0]], a, from, options)
    ensures Mergeable(mid, rows[1..], a, from + 1, options)
  {
    hide LogInv, StoreIdentity;
    forall j | 1 <= j < |rows| ensures RowMerges(mid, rows[j], a) {
      assert RowMerges(before, rows[j], a) && RowMerges(before, rows[0], a);
      assert rows[0].id != rows[j].id;
      StillFresh(before, mid, rows[0], rows[j], a, from, options);
    }
    forall i, j | 0 <= i < j < |rows[1..]| ensures rows[1..][i].id != rows[1..][j].id {
      assert rows[i + 1].id != rows[j + 1].id;
    }
  }

  lemma StillFresh(before: Db, mid: Db, row: StoredEvent, other: StoredEvent, a: string, from: nat,
                   options: ReplayOptions)
    requires Merged(before, mid, [row], a, from, options) && RowMerges(before, other, a)
    requires other.sequence > from && row.id != other.id
    ensures RowMerges(mid, other, a)
  {
    if other.sequence > LatestIn(before, a) {
      forall k | k in mid.events ensures mid.events[k].id != other.id {
        assert k in before.events && before.events[k].id == other.id ==> HasID(before, other.id);
      }
    }
  }

  lemma PageHead(definitions: Bindings, rows: seq<StoredEvent>, a: string, from: nat)
    requires Page(definitions, rows, a, from) && rows != []
    ensures PageRow(definitions, rows[0], a, from) && Page(definitions, rows[1..], a, from + 1)
    ensures forall i | 0 <= i < |rows| :: rows[i].aggregate == a && rows[i].sequence == from + i
  {
    hide ValidRow, Suits, StoreIdentity;
    assert PageRow(definitions, rows[0], a, from + 0);
    forall i | 0 <= i < |rows[1..]| ensures PageRow(definitions, rows[1..][i], a, from + 1 + i) {
      assert PageRow(definitions, rows[i + 1], a, from + (i + 1));
    }
  }

  lemma FirstAcceptable(db: Db, rows: seq<StoredEvent>, a: string, from: nat, options: ReplayOptions)
    requires Mergeable(db, rows, a, from, options) && rows != []
    requires rows[0].aggregate == a && rows[0].sequence == from && ValidRow(rows[0])
    ensures Acceptable(db, rows[0], options)
  {
    hide LogInv, ValidRow, StoreIdentity;
    assert RowMerges(db, rows[0], a);
  }

  lemma PageListed(definitions: Bindings, rows: seq<StoredEvent>, a: string, from: nat)
    requires Page(definitions, rows, a, from)
    ensures Listed(rows, definitions)
  {
    hide ValidRow, Suits, StoreIdentity;
    assert forall i | 0 <= i < |rows| :: PageRow(definitions, rows[i], a, from + i);
  }

  /** The projection after a row: a row already held is not projected. */
  ghost function FirstProjected(db: Db, projectors: Projectors, row: StoredEvent): (r: Option<Projection>)
    requires Decoded(row).Ok?
  {
    if row.sequence <= LatestIn(db, row.aggregate) then Some(db.projection)
    else RowProjected(projectors, db.projection, row)
  }

  /** What a bound replay makes of the state, by what its transaction comes to. */
  lemma BoundReplayIs(s: State, projectors: Projectors, row: StoredEvent, e: Envelope, options: ReplayOptions)
    requires e.durable.Some? && RowOf(e, row.name, row.data) == row
    ensures var replayed := Replayed(s.db, ProjectorsOf(projectors, row.name), e, row, options);
      ReplayBound(s, projectors, row.name, e, row.data, options) ==
        if replayed.Err? then (s, Err(replayed.error))
        else
          (s.(db := replayed.value.0,
              notified := s.notified + if replayed.value.1 && options.publish then [e] else []), Ok(replayed.value.1))
  {
    hide Replayed;
    assert s.notified + [] == s.notified;
  }

  lemma FirstEntryMerges(s: State, projectors: Projectors, definitions: Bindings, row: StoredEvent,
                         options: ReplayOptions)
    requires row.name in definitions && Suits(definitions[row.name], row) && Decoded(row).Ok?
    requires Bind(s.definitions, definitions[row.name]) == Ok(s.definitions) && Acceptable(s.db, row, options)
    ensures var entry := EntryOf(definitions, row);
      var (s1, r) := ReplayStep(s, projectors, entry.definition, entry.event, options);
      var p := FirstProjected(s.db, projectors, row);
      if p.None? then s1 == s && r == Err(Refused)
      else
        r.Ok? && LogInv(s1.db) && s1.definitions == s.definitions && s1.db.projection == p.value &&
        Merged(s.db, s1.db, [row], row.aggregate, row.sequence, options) &&
        s1.notified == s.notified + Announced(LatestIn(s.db, row.aggregate), [row], options)
  {
    DecodedHasPlace(row);
    hide *;
    ReplayOfRow(s, projectors, definitions, row, options);
    BoundReplayIs(s, projectors, row, Decoded(row).value, options);
    RowMerged(s.db, ProjectorsOf(projectors, row.name), Decoded(row).value, row, options);
    FirstProjectedIs(s.db, projectors, row);
    OneAnnounced(LatestIn(s.db, row.aggregate), row, options);
  }

  lemma DecodedHasPlace(row: StoredEvent)
    requires Decoded(row).Ok?
    ensures Decoded(row).value.durable.Some?
  {
    hide LastDot, ParseInt64, Json.Decode;
  }

  lemma FirstProjectedIs(db: Db, projectors: Projectors, row: StoredEvent)
    requires Decoded(row).Ok?
    ensures FirstProjected(db, projectors, row) ==
      if row.sequence <= LatestIn(db, row.aggregate) then Some(db.projection)
      else ProjectAll(ProjectorsOf(projectors, row.name), db.projection, Decoded(row).value)
  {
    hide Decoded, ProjectAll;
  }

  lemma OneAnnounced(latest: int, row: StoredEvent, options: ReplayOptions)
    requires Decoded(row).Ok?
    ensures Announced(latest, [row], options) ==
      if row.sequence > latest && options.publish then [Decoded(row).value] else []
  {
    hide Decoded;
    assert [row][1..] == [] && EventsOf(row) + [] == EventsOf(row) && [] + NewEvents(latest, []) == [];
  }

  ghost predicate BindsRows(bound: Bindings, definitions: Bindings, rows: seq<StoredEvent>)
    requires Listed(rows, definitions)
  {
    forall i | 0 <= i < |rows| :: Bind(bound, definitions[rows[i].name]) == Ok(bound)
  }

  lemma ReplayEachCons(s: State, projectors: Projectors, entry: ReplayEntry, rest: seq<ReplayEntry>,
                       options: ReplayOptions)
    ensures var (s1, first) := ReplayStep(s, projectors, entry.definition, entry.event, options);
      ReplayEach(s, projectors, [entry] + rest, options) ==
        if first.Err? then (s1, Err(first.error)) else ReplayEach(s1, projectors, rest, options)
  {
    hide ReplayStep;
    assert ([entry] + rest)[1..] == rest;
  }

  lemma ListedHead(definitions: Bindings, rows: seq<StoredEvent>, bound: Bindings)
    requires Listed(rows, definitions) && rows != [] && BindsRows(bound, definitions, rows)
    ensures Suits(definitions[rows[0].name], rows[0]) && Bind(bound, definitions[rows[0].name]) == Ok(bound)
    ensures Listed(rows[1..], definitions) && BindsRows(bound, definitions, rows[1..])
    ensures EntriesOf(definitions, rows) == [EntryOf(definitions, rows[0])] + EntriesOf(definitions, rows[1..])
  {
    hide Suits, Bind;
  }

  /** A page that a state can take. */
  ghost predicate Takes(s: State, definitions: Bindings, rows: seq<StoredEvent>, a: string, from: nat,
                        options: ReplayOptions)
  {
    Page(definitions, rows, a, from) && Listed(rows, definitions) &&
    BindsRows(s.definitions, definitions, rows) && Mergeable(s.db, rows, a, from, options)
  }

  /** The state after the first row of a page. */
  ghost function AfterFirst(s: State, projectors: Projectors, definitions: Bindings, rows: seq<StoredEvent>,
                            options: ReplayOptions): (s1: State)
    requires rows != [] && Listed(rows, definitions)
  {
    var entry := EntryOf(definitions, rows[0]);
    ReplayStep(s, projectors, entry.definition, entry.event, options).0
  }

  lemma FirstOfPage(s: State, projectors: Projectors, definitions: Bindings, rows: seq<StoredEvent>,
                    a: string, from: nat, options: ReplayOptions)
    requires rows != [] && Takes(s, definitions, rows, a, from, options)
    ensures Listed(rows[1..], definitions) && Listed(rows, definitions)
    ensures rows[0].aggregate == a && rows[0].sequence == from
    ensures var s1 := AfterFirst(s, projectors, definitions, rows, options);
      var p := FirstProjected(s.db, projectors, rows[0]);
      if p.None? then ReplayEach(s, projectors, EntriesOf(definitions, rows), options) == (s, Err(Refused))
      else
        s1.definitions == s.definitions && s1.db.projection == p.value &&
        s1.notified == s.notified + Announced(LatestIn(s.db, a), [rows[0]], options) &&
        Merged(s.db, s1.db, [rows[0]], a, from, options) && Takes(s1, definitions, rows[1..], a, from + 1, options) &&
        ReplayEach(s, projectors, EntriesOf(definitions, rows), options) ==
          ReplayEach(s1, projectors, EntriesOf(definitions, rows[1..]), options)
  {
    var row, rest := rows[0], rows[1..];
    PageHead(definitions, rows, a, from);
    ListedHead(definitions, rows, s.definitions);
    assert ValidRow(row) && row.aggregate == a && row.sequence == from;
    FirstAcceptable(s.db, rows, a, from, options);
    hide Suits, Bind, Acceptable, Merged, LogInv, ReplayStep, Mergeable, Page, PageRow, ValidRow, ReplayEach, EntriesOf,
      FirstProjected;
    FirstEntryMerges(s, projectors, definitions, row, options);
    var entry := EntryOf(definitions, row);
    ReplayEachCons(s, projectors, entry, EntriesOf(definitions, rest), options);
    if FirstProjected(s.db, projectors, row).Some? {
      RestMerges(s.db, ReplayStep(s, projectors, entry.definition, entry.event, options).0.db, rows, a, from, options);
    }
  }

  /** Before any row of a page is in. */
  lemma NothingMerges(s: State, projectors: Projectors, definitions: Bindings, rows: seq<StoredEvent>,
                      a: string, from: nat, options: ReplayOptions)
    requires Takes(s, definitions, rows, a, from, options)
    ensures ReplayEach(s, projectors, EntriesOf(definitions, []), options) == (s, Ok(()))
    ensures LogInv(s.db) && Merged(s.db, s.db, rows[..0], a, from, options)
  {
    hide LogInv, StoreIdentity;
    MergedNothing(s.db, a, from, options);
  }

  lemma TakesListed(s: State, definitions: Bindings, rows: seq<StoredEvent>, a: string, from: nat,
                    options: ReplayOptions)
    requires Takes(s, definitions, rows, a, from, options)
    ensures Listed(rows, definitions)
    ensures forall i | 0 <= i < |rows| :: Decoded(rows[i]).Ok? && rows[i].sequence == from + i
  {
    hide Mergeable, Decoded, ValidRow, ReplayPayload, StoreIdentity;
    assert forall i | 0 <= i < |rows| :: PageRow(definitions, rows[i], a, from + i);
  }

  lemma AcceptedHead(before: Db, mid: Db, projectors: Projectors, rows: seq<StoredEvent>, a: string, from: nat,
                     options: ReplayOptions)
    requires rows != [] && rows[0].aggregate == a && rows[0].sequence == from
    requires forall i | 0 <= i < |rows| :: Decoded(rows[i]).Ok?
    ensures var p := FirstProjected(before, projectors, rows[0]);
      var n := Accepted(projectors, before.projection, LatestIn(before, a), rows);
      if p.None? then n == 0
      else
        mid.projection == p.value && Merged(before, mid, [rows[0]], a, from, options) ==>
          n == 1 + Accepted(projectors, mid.projection, LatestIn(mid, a), rows[1..])
  {
    hide Decoded, RowProjected;
  }

  /** Replaying a page into a store that can take it leaves the union of its log and the rows before the first
      that a projector refuses, and ends well exactly when there is none. With `publish` the rows that were new are
      announced, in order, and without it none is. */
  lemma {:induction false} PageMerges(s: State, projectors: Projectors, definitions: Bindings, rows: seq<StoredEvent>,
                                      a: string, from: nat, options: ReplayOptions)
    requires Takes(s, definitions, rows, a, from, options)
    ensures Listed(rows, definitions) && forall i | 0 <= i < |rows| :: Decoded(rows[i]).Ok?
    ensures var (s1, r) := ReplayEach(s, projectors, EntriesOf(definitions, rows), options);
      var n := Accepted(projectors, s.db.projection, LatestIn(s.db, a), rows);
      r == (if n == |rows| then Ok(()) else Err(Refused)) && LogInv(s1.db) &&
      Merged(s.db, s1.db, rows[..n], a, from, options) &&
      s1.notified == s.notified + Announced(LatestIn(s.db, a), rows[..n], options)
    decreases |rows|
  {
    hide *;
    TakesListed(s, definitions, rows, a, from, options);
    NothingMerges(s, projectors, definitions, rows, a, from, options);
    NoneAnnounced(LatestIn(s.db, a), rows, options);
    assert s.notified + [] == s.notified;
    if rows == [] {
      NoneAccepted(projectors, s.db.projection, LatestIn(s.db, a));
    } else {
      FirstOfPage(s, projectors, definitions, rows, a, from, options);
      var s1 := AfterFirst(s, projectors, definitions, rows, options);
      AcceptedHead(s.db, s1.db, projectors, rows, a, from, options);
      if FirstProjected(s.db, projectors, rows[0]).Some? {
        PageMerges(s1, projectors, definitions, rows[1..], a, from + 1, options);
        var n := Accepted(projectors, s1.db.projection, LatestIn(s1.db, a), rows[1..]);
        assert rows[..n + 1] == [rows[0]] + rows[1..][..n];
        AnnouncedHead(s.db, s1.db, rows[..n + 1], a, from, options);
        MergedThen(s.db, s1.db, ReplayEach(s1, projectors, EntriesOf(definitions, rows[1..]), options).0.db, rows[0],
                   rows[1..][..n], a, from, options);
      }
    }
  }

  lemma NoneAnnounced(latest: int, rows: seq<StoredEvent>, options: ReplayOptions)
    ensures Announced(latest, rows[..0], options) == []
  {
  }

  lemma AnnouncedHead(before: Db, mid: Db, rows: seq<StoredEvent>, a: string, from: nat, options: ReplayOptions)
    requires rows != [] && Merged(before, mid, [rows[0]], a, from, options)
    requires forall i | 0 <= i < |rows| :: rows[i].sequence == from + i
    ensures Announced(LatestIn(before, a), rows, options) ==
      Announced(LatestIn(before, a), [rows[0]], options) + Announced(LatestIn(mid, a), rows[1..], options)
  {
    hide EventsOf, MergedRows, OwnerIn;
    var latest := LatestIn(before, a);
    var first := if rows[0].sequence > latest then EventsOf(rows[0]) else [];
    assert [rows[0]][1..] == [] && first + [] == first && NewEvents(latest, [rows[0]]) == first;
    assert NewEvents(latest, rows) == first + NewEvents(latest, rows[1..]);
    if from > LatestIn(before, a) { AllNew(LatestIn(before, a), LatestIn(mid, a), rows[1..]); }
  }

  lemma NoneAccepted(projectors: Projectors, p: Projection, latest: int)
    ensures Accepted(projectors, p, latest, []) == 0
  {
  }

  // ---------- Binding a page's definitions ----------

  /** The target binds none of the page's types to something else. */
  predicate Agree(bound: Bindings, definitions: Bindings) {
    forall k | k in bound && k in definitions :: bound[k] == definitions[k]
  }

  predicate Known(definitions: Bindings, d: Definition) {
    ValidDefinition(d) && VersionedType(d) in definitions && definitions[VersionedType(d)] == d
  }

  lemma BindAgrees(bound: Bindings, definitions: Bindings, d: Definition)
    requires Agree(bound, definitions) && Known(definitions, d)
    ensures ValidDefinition(d) && Bind(bound, d).Ok? && Agree(Bind(bound, d).value, definitions)
  {
  }

  lemma {:induction false} BindAllAgrees(bound: Bindings, definitions: Bindings, list: seq<Definition>)
    requires Agree(bound, definitions) && forall d | d in list :: Known(definitions, d)
    ensures (forall d | d in list :: ValidDefinition(d)) && BindAll(bound, list).Ok?
    decreases |list|
  {
    if list != [] {
      BindAgrees(bound, definitions, list[0]);
      hide ValidDefinition, VersionedType, Bind, Agree;
      BindAllAgrees(Bind(bound, list[0]).value, definitions, list[1..]);
      assert list == [list[0]] + list[1..];
    }
  }

  lemma {:induction false} EntriesAt(definitions: Bindings, rows: seq<StoredEvent>)
    requires Listed(rows, definitions)
    ensures forall i | 0 <= i < |rows| :: EntriesOf(definitions, rows)[i] == EntryOf(definitions, rows[i])
    decreases |rows|
  {
    hide Suits;
    if rows != [] { EntriesAt(definitions, rows[1..]); }
  }

  lemma RowEntry(definitions: Bindings, row: StoredEvent)
    requires row.name in definitions && Suits(definitions[row.name], row)
    ensures var entry := EntryOf(definitions, row);
      var payload := ReplayPayload(entry.definition, entry.event);
      Known(definitions, entry.definition) && payload.Ok? && payload.value.0 == entry.event &&
      entry.event.durable.Some? &&
      entry.event.durable.value.aggregate == row.aggregate && entry.event.durable.value.sequence == row.sequence
  {
    hide ReplayPayload, ValidDefinition, Json.Decode, LastDot, ParseInt64;
  }

  lemma PageEntry(definitions: Bindings, rows: seq<StoredEvent>, a: string, from: nat, i: nat)
    requires Page(definitions, rows, a, from) && Listed(rows, definitions) && i < |rows|
    ensures EntryError(EntriesOf(definitions, rows), i).None?
  {
    hide Suits, ReplayPayload, ValidRow, Page, EntryOf, EntriesOf, Known, PageRow, StoreIdentity;
    PageHead(definitions, rows, a, from);
    EntriesAt(definitions, rows);
    RowEntry(definitions, rows[i]);
    RowEntry(definitions, rows[0]);
  }

  /** A page passes the checks of a chunk. */
  lemma {:induction false} PageIsAChunk(definitions: Bindings, rows: seq<StoredEvent>, a: string, from: nat, i: nat)
    requires Page(definitions, rows, a, from) && Listed(rows, definitions) && i <= |rows|
    ensures ChunkError(EntriesOf(definitions, rows), i).None?
    decreases |rows| - i
  {
    hide EntryError, Page, Listed, EntriesOf;
    if i < |rows| {
      PageIsAChunk(definitions, rows, a, from, i + 1);
      PageEntry(definitions, rows, a, from, i);
    }
  }

  lemma PageBinds(s: State, definitions: Bindings, rows: seq<StoredEvent>, a: string, from: nat)
    requires Page(definitions, rows, a, from) && Listed(rows, definitions) && Agree(s.definitions, definitions)
    ensures var bound := ChunkBound(s, EntriesOf(definitions, rows));
      bound.Ok? && bound.value.db == s.db && bound.value.notified == s.notified &&
      BindsRows(bound.value.definitions, definitions, rows)
  {
    var entries := EntriesOf(definitions, rows);
    PageIsAChunk(definitions, rows, a, from, 0);
    EntriesAt(definitions, rows);
    var list := DefinitionsOf(entries);
    forall i | 0 <= i < |rows| ensures Known(definitions, list[i]) { RowEntry(definitions, rows[i]); }
    hide Suits, Page, ChunkError, ValidDefinition, VersionedType, Known;
    BindAllAgrees(s.definitions, definitions, list);
    BindAllBinds(s.definitions, list);
    forall i | 0 <= i < |rows| ensures list[i] in list && list[i] == definitions[rows[i].name] {
      assert entries[i] == EntryOf(definitions, rows[i]);
    }
  }

  // ---------- Convergence ----------

  /** An aggregate's rows in order. */
  ghost function Log(db: Db, a: string): (rows: seq<StoredEvent>)
    requires LogInv(db)
  {
    if a !in db.sequences then []
    else
      assert WholeLog(db, a);
      seq(db.sequences[a].latest + 1, i requires 0 <= i <= db.sequences[a].latest => db.events[Key(a, i)])
  }

  lemma LogFacts(db: Db, a: string)
    requires LogInv(db)
    ensures var rows := Log(db, a);
      |rows| == LatestIn(db, a) + 1 &&
      (forall i | 0 <= i < |rows| :: Key(a, i) in db.events && rows[i] == db.events[Key(a, i)]) &&
      (forall i: Int64 | Key(a, i) in db.events :: 0 <= i < |rows|)
  {
    if a in db.sequences { assert WholeLog(db, a); } else { NoRowsOutside(db, a); }
  }

  lemma LogRows(db: Db, a: string)
    requires LogInv(db)
    ensures var rows := Log(db, a);
      (rows != [] ==> StoreIdentity(a)) &&
      (forall i | 0 <= i < |rows| :: rows[i].aggregate == a && rows[i].sequence == i && ValidRow(rows[i])) &&
      (forall i, j | 0 <= i < j < |rows| :: rows[i].id != rows[j].id)
  {
    LogFacts(db, a);
    if a in db.sequences { assert WholeLog(db, a); }
    hide ValidRow, StoreIdentity, Log;
    var rows := Log(db, a);
    forall i | 0 <= i < |rows| ensures rows[i].aggregate == a && rows[i].sequence == i && ValidRow(rows[i]) {
      assert RowAt(db, Key(a, i));
    }
  }

  /** The whole log of an aggregate is a page of its service. */
  lemma LogIsAPage(s: State, a: string)
    requires LogInv(s.db) && Typed(s) && a in s.db.sequences
    ensures Page(s.definitions, Log(s.db, a), a, 0) && Listed(Log(s.db, a), s.definitions)
  {
    LogFacts(s.db, a);
    LogRows(s.db, a);
    assert WholeLog(s.db, a);
    hide ValidRow, Log, Suits, LogInv;
    var rows := Log(s.db, a);
    forall i | 0 <= i < |rows| ensures PageRow(s.definitions, rows[i], a, 0 + i) {
      assert Key(a, i) in s.db.events;
    }
    PageListed(s.definitions, rows, a, 0);
  }

  /** One of two logs continues the other. */
  ghost predicate Compatible(a: seq<StoredEvent>, b: seq<StoredEvent>) {
    a <= b || b <= a
  }

  function Longer(a: seq<StoredEvent>, b: seq<StoredEvent>): (r: seq<StoredEvent>) {
    if |a| < |b| then b else a
  }

  /** What a target must be like to take a history: a compatible log and owner, no use of the ids it lacks,
      no other binding of the types. */
  ghost predicate CanTake(t: State, definitions: Bindings, rows: seq<StoredEvent>, a: string, options: ReplayOptions)
    requires LogInv(t.db)
  {
    Compatible(Log(t.db, a), rows) && OwnerIn(t.db, a) in {"", options.owner} &&
    (options.owner != "" ==> StoreIdentity(options.owner)) && Agree(t.definitions, definitions) &&
    forall i | |Log(t.db, a)| <= i < |rows| :: !HasID(t.db, rows[i].id)
  }

  lemma HistoryMerges(t: Db, rows: seq<StoredEvent>, a: string, options: ReplayOptions)
    requires LogInv(t) && Compatible(Log(t, a), rows) && OwnerIn(t, a) in {"", options.owner}
    requires options.owner != "" ==> StoreIdentity(options.owner)
    requires forall i | |Log(t, a)| <= i < |rows| :: !HasID(t, rows[i].id)
    requires forall i | 0 <= i < |rows| :: rows[i].aggregate == a && rows[i].sequence == i
    requires forall i, j | 0 <= i < j < |rows| :: rows[i].id != rows[j].id
    ensures Mergeable(t, rows, a, 0, options)
  {
    LogFacts(t, a);
    hide LogInv, Log, StoreIdentity, HasID;
    forall i | 0 <= i < |rows| ensures RowMerges(t, rows[i], a) {
      if i < |Log(t, a)| { assert Log(t, a)[i] == rows[i]; }
    }
  }

  lemma MergedLogs(before: Db, after: Db, rows: seq<StoredEvent>, a: string, options: ReplayOptions)
    requires LogInv(before) && LogInv(after) && Merged(before, after, rows, a, 0, options)
    requires Compatible(Log(before, a), rows)
    ensures Log(after, a) == Longer(Log(before, a), rows)
  {
    LogFacts(before, a);
    LogFacts(after, a);
    var old_, new_ := Log(before, a), Log(after, a);
    assert |new_| == |Longer(old_, rows)|;
    hide LogInv, Log, MergedStates, LatestIn;
    forall i | 0 <= i < |new_| ensures new_[i] == Longer(old_, rows)[i] {
      assert Key(a, i) in after.events;
      if i < |old_| { assert Key(a, i) in before.events; }
    }
  }

  lemma OtherLogs(before: Db, after: Db, rows: seq<StoredEvent>, a: string, options: ReplayOptions, b: string)
    requires LogInv(before) && LogInv(after) && Merged(before, after, rows, a, 0, options) && b != a
    ensures Log(after, b) == Log(before, b) && OwnerIn(after, b) == OwnerIn(before, b)
  {
    LogFacts(before, b);
    LogFacts(after, b);
    var old_, new_ := Log(before, b), Log(after, b);
    forall i | 0 <= i < |new_| ensures new_[i] == old_[i] {
      assert Key(b, i) in before.events;
    }
  }

  lemma PrefixCompatible(log: seq<StoredEvent>, rows: seq<StoredEvent>, n: nat)
    requires Compatible(log, rows) && n <= |rows|
    ensures Compatible(log, rows[..n])
  {
    if log <= rows {
      assert n < |log| ==> rows[..n] <= log;
      assert n >= |log| ==> log <= rows[..n];
    }
  }

  /** Replaying one store's whole history of an aggregate into another yields, byte for byte, the longer of
      the two logs, as far as the target's projectors let its new rows in, and changes no other log. What was new
      is announced, in order, if `publish` is set. */
  lemma ReplicationConverges(source: State, t: State, projectors: Projectors, a: string, options: ReplayOptions)
    requires LogInv(source.db) && Typed(source) && a in source.db.sequences && LogInv(t.db)
    requires CanTake(t, source.definitions, Log(source.db, a), a, options)
    ensures var rows := Log(source.db, a);
      Listed(rows, source.definitions) && forall i | 0 <= i < |rows| :: Decoded(rows[i]).Ok?
    ensures var rows := Log(source.db, a);
      var n := Accepted(projectors, t.db.projection, LatestIn(t.db, a), rows);
      var (t1, r) := ReplayAllStep(t, projectors, EntriesOf(source.definitions, rows), options);
      r == (if n == |rows| then Ok(()) else Err(Refused)) &&
      LogInv(t1.db) && Log(t1.db, a) == Longer(Log(t.db, a), rows[..n]) &&
      OwnerIn(t1.db, a) == (if n > 0 then OwnerAfter(t.db, a, options) else OwnerIn(t.db, a)) &&
      t1.notified == t.notified + Announced(LatestIn(t.db, a), rows[..n], options) &&
      forall b | b != a :: Log(t1.db, b) == Log(t.db, b) && OwnerIn(t1.db, b) == OwnerIn(t.db, b)
  {
    hide *;
    var rows, definitions := Log(source.db, a), source.definitions;
    LogIsAPage(source, a);
    TakesHistory(source, t, a, options);
    PageBinds(t, definitions, rows, a, 0);
    var entries := EntriesOf(definitions, rows);
    var bound := ChunkBound(t, entries).value;
    BoundTakes(t, bound, definitions, rows, a, options);
    PageMerges(bound, projectors, definitions, rows, a, 0, options);
    BoundReplays(t, projectors, entries, options);
    var t1 := ReplayEach(bound, projectors, entries, options).0;
    var n := Accepted(projectors, t.db.projection, LatestIn(t.db, a), rows);
    PrefixCompatible(Log(t.db, a), rows, n);
    MergedLogs(t.db, t1.db, rows[..n], a, options);
    MergedOwner(t.db, t1.db, rows[..n], a, options);
    forall b | b != a ensures Log(t1.db, b) == Log(t.db, b) && OwnerIn(t1.db, b) == OwnerIn(t.db, b) {
      OtherLogs(t.db, t1.db, rows[..n], a, options, b);
    }
  }

  lemma TakesHistory(source: State, t: State, a: string, options: ReplayOptions)
    requires LogInv(source.db) && a in source.db.sequences && LogInv(t.db)
    requires CanTake(t, source.definitions, Log(source.db, a), a, options)
    ensures Mergeable(t.db, Log(source.db, a), a, 0, options) && Log(source.db, a) != []
    ensures Compatible(Log(t.db, a), Log(source.db, a)) && Agree(t.definitions, source.definitions)
  {
    assert WholeLog(source.db, a);
    LogRows(source.db, a);
    LogFacts(source.db, a);
    hide LogInv, Log, Mergeable, HasID, StoreIdentity, ValidRow;
    HistoryMerges(t.db, Log(source.db, a), a, options);
  }

  lemma BoundTakes(t: State, bound: State, definitions: Bindings, rows: seq<StoredEvent>, a: string,
                   options: ReplayOptions)
    requires Page(definitions, rows, a, 0) && Listed(rows, definitions)
    requires BindsRows(bound.definitions, definitions, rows)
    requires Mergeable(t.db, rows, a, 0, options) && bound.db == t.db
    ensures Takes(bound, definitions, rows, a, 0, options)
  {
    hide Page, Listed, BindsRows, Mergeable;
  }

  lemma MergedOwner(before: Db, after: Db, rows: seq<StoredEvent>, a: string, options: ReplayOptions)
    requires Merged(before, after, rows, a, 0, options)
    ensures OwnerIn(after, a) == if rows != [] then OwnerAfter(before, a, options) else OwnerIn(before, a)
  {
  }
}
