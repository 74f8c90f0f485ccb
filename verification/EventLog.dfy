/** What every run of the event service keeps: contiguous logs, unique ids, owners that only Claim and
    Remove take away, and rows that are never rewritten. */
module EventLog {
  import opened Text
  import opened EventStore
  import opened EventService
  import Json

  /** An aggregate with a sequence row holds exactly the events 0..latest. */
  ghost predicate WholeLog(db: Db, aggregate: string)
    requires aggregate in db.sequences
  {
    var state := db.sequences[aggregate];
    StoreIdentity(aggregate) && state.latest >= 0 && (state.owner != "" ==> StoreIdentity(state.owner)) &&
    forall s: Int64 :: Key(aggregate, s) in db.events <==> 0 <= s <= state.latest
  }

  ghost predicate RowAt(db: Db, k: Key)
    requires k in db.events
  {
    var row := db.events[k];
    k.aggregate in db.sequences && row.aggregate == k.aggregate && row.sequence == k.sequence && ValidRow(row)
  }

  ghost predicate UniqueIDs(db: Db) {
    forall j, k | j in db.events && k in db.events && db.events[j].id == db.events[k].id :: j == k
  }

  ghost predicate LogInv(db: Db) {
    (forall a | a in db.sequences :: WholeLog(db, a)) && (forall k | k in db.events :: RowAt(db, k)) && UniqueIDs(db)
  }

  /** Rows stay, and an aggregate that has an owner keeps it. */
  ghost predicate Grows(before: Db, after: Db) {
    (forall k | k in before.events :: k in after.events && after.events[k] == before.events[k]) &&
    (forall a | a in before.sequences ::
       a in after.sequences && before.sequences[a].latest <= after.sequences[a].latest &&
       (before.sequences[a].owner != "" ==> after.sequences[a].owner == before.sequences[a].owner))
  }

  // ---------- Single writes ----------

  /** The tables with one more event, at the end of its aggregate. */
  function Extended(db: Db, owner: string, row: StoredEvent): (after: Db) {
    db.(sequences := db.sequences[row.aggregate := SequenceState(row.sequence, owner)],
        events := db.events[Key(row.aggregate, row.sequence) := row])
  }

  ghost predicate Continues(db: Db, row: StoredEvent) {
    StoreIdentity(row.aggregate) && row.sequence >= 0 &&
    row.sequence as int == 1 + if row.aggregate in db.sequences then db.sequences[row.aggregate].latest as int else -1
  }

  lemma ExtendedLog(db: Db, owner: string, row: StoredEvent)
    requires Continues(db, row) && (owner != "" ==> StoreIdentity(owner))
    requires row.aggregate in db.sequences ==> WholeLog(db, row.aggregate)
    requires row.aggregate !in db.sequences ==> forall s: Int64 :: Key(row.aggregate, s) !in db.events
    ensures WholeLog(Extended(db, owner, row), row.aggregate)
  {
    hide StoreIdentity;
  }

  lemma OtherLog(db: Db, owner: string, row: StoredEvent, a: string)
    requires a in db.sequences && WholeLog(db, a) && a != row.aggregate
    ensures WholeLog(Extended(db, owner, row), a)
  {
    hide StoreIdentity;
  }

  lemma ExtendedLogs(db: Db, owner: string, row: StoredEvent)
    requires LogInv(db) && Continues(db, row) && (owner != "" ==> StoreIdentity(owner))
    ensures var after := Extended(db, owner, row); forall a | a in after.sequences :: WholeLog(after, a)
  {
    if row.aggregate !in db.sequences { NoRowsOutside(db, row.aggregate); }
    ExtendedLog(db, owner, row);
    forall a | a in db.sequences && a != row.aggregate ensures WholeLog(Extended(db, owner, row), a) {
      OtherLog(db, owner, row, a);
    }
    hide WholeLog;
  }

  lemma ExtendedRows(db: Db, owner: string, row: StoredEvent)
    requires LogInv(db) && ValidRow(row)
    ensures var after := Extended(db, owner, row); forall k | k in after.events :: RowAt(after, k)
  {
    var after := Extended(db, owner, row);
    hide ValidRow;
    forall k | k in after.events ensures RowAt(after, k) {
      assert k != Key(row.aggregate, row.sequence) ==> RowAt(db, k);
    }
  }

  lemma ExtendedIDs(db: Db, owner: string, row: StoredEvent)
    requires UniqueIDs(db) && !HasID(db, row.id)
    ensures UniqueIDs(Extended(db, owner, row))
  {
    forall k | k in db.events ensures db.events[k].id != row.id {
      assert db.events[k].id == row.id ==> HasID(db, row.id);
    }
  }

  lemma RecordedExtends(db: Db, owner: string, row: StoredEvent)
    requires Recorded(db, owner, row).Ok?
    ensures Recorded(db, owner, row) == Ok(Extended(db, owner, row))
    ensures ValidRow(row) && !HasID(db, row.id) && StoreIdentity(row.aggregate)
    ensures owner != "" ==> StoreIdentity(owner)
    ensures Key(row.aggregate, row.sequence) !in db.events
  {
    var put := SequencePut(db, row.aggregate, SequenceState(row.sequence, owner)).value;
    SameIDs(db, put, row.id);
    hide ValidRow, StoreIdentity, HasID;
  }

  lemma SameIDs(db: Db, other: Db, id: string)
    requires db.events == other.events
    ensures HasID(db, id) <==> HasID(other, id)
  {
  }

  lemma RecordedKeepsLog(db: Db, owner: string, row: StoredEvent)
    requires LogInv(db) && Recorded(db, owner, row).Ok?
    requires FindSequence(db, row.aggregate).Ok? && row.sequence >= 0
    requires row.sequence as int == LatestOf(FindSequence(db, row.aggregate).value) as int + 1
    ensures LogInv(Recorded(db, owner, row).value)
  {
    RecordedExtends(db, owner, row);
    assert Continues(db, row);
    ExtendedLogs(db, owner, row);
    ExtendedRows(db, owner, row);
    ExtendedIDs(db, owner, row);
    hide Recorded, Extended, ValidRow, WholeLog, RowAt, UniqueIDs;
  }

  /** An aggregate without a sequence row holds nothing. */
  lemma NoRowsOutside(db: Db, aggregate: string)
    requires LogInv(db) && aggregate !in db.sequences
    ensures forall s: Int64 :: Key(aggregate, s) !in db.events
  {
    forall s: Int64 ensures Key(aggregate, s) !in db.events {
      assert Key(aggregate, s) in db.events ==> RowAt(db, Key(aggregate, s));
    }
  }

  lemma RecordedGrows(db: Db, owner: string, row: StoredEvent)
    requires Recorded(db, owner, row).Ok? && FindSequence(db, row.aggregate).Ok?
    requires row.sequence as int == LatestOf(FindSequence(db, row.aggregate).value) as int + 1
    requires var held := OwnerOf(FindSequence(db, row.aggregate).value); held != "" ==> owner == held
    ensures Grows(db, Recorded(db, owner, row).value)
  {
    hide ValidRow;
  }

  /** A change of projections only. */
  lemma ProjectionAside(db: Db, p: Projection)
    ensures LogInv(db.(projection := p)) <==> LogInv(db)
    ensures forall a :: FindSequence(db.(projection := p), a) == FindSequence(db, a)
    ensures forall id :: FindID(db.(projection := p), id) == FindID(db, id)
    ensures forall after :: Grows(db.(projection := p), after) <==> Grows(db, after)
  {
    var db1 := db.(projection := p);
    hide ValidRow, StoreIdentity, StoredEventID;
    assert forall a | a in db.sequences :: WholeLog(db1, a) <==> WholeLog(db, a);
    assert forall k | k in db.events :: RowAt(db1, k) <==> RowAt(db, k);
    assert forall id :: HasID(db1, id) <==> HasID(db, id);
  }

  lemma SameLog(db: Db, after: Db, a: string)
    requires a in db.sequences && WholeLog(db, a) && a in after.sequences
    requires after.sequences[a].latest == db.sequences[a].latest
    requires after.sequences[a].owner != "" ==> StoreIdentity(after.sequences[a].owner)
    requires forall s: Int64 :: Key(a, s) in after.events <==> Key(a, s) in db.events
    ensures WholeLog(after, a)
  {
    hide StoreIdentity;
  }

  lemma SameRows(db: Db, after: Db)
    requires forall k | k in db.events :: RowAt(db, k)
    requires forall k | k in after.events ::
      k in db.events && after.events[k] == db.events[k] && k.aggregate in after.sequences
    requires UniqueIDs(db)
    ensures (forall k | k in after.events :: RowAt(after, k)) && UniqueIDs(after)
  {
    hide ValidRow;
    forall k | k in after.events ensures RowAt(after, k) { assert RowAt(db, k); }
  }

  lemma OwnerPutKeepsLog(db: Db, aggregate: string, state: SequenceState)
    requires LogInv(db) && SequencePut(db, aggregate, state).Ok?
    requires aggregate in db.sequences && db.sequences[aggregate].latest == state.latest
    ensures LogInv(SequencePut(db, aggregate, state).value)
  {
    var after := SequencePut(db, aggregate, state).value;
    hide ValidRow, StoreIdentity;
    forall k | k in after.events ensures k.aggregate in after.sequences { assert RowAt(db, k); }
    SameRows(db, after);
    OwnerPutKeepsLogs(db, aggregate, state);
    hide WholeLog, RowAt, UniqueIDs;
  }

  lemma OwnerPutKeepsLogs(db: Db, aggregate: string, state: SequenceState)
    requires LogInv(db) && SequencePut(db, aggregate, state).Ok?
    requires aggregate in db.sequences && db.sequences[aggregate].latest == state.latest
    ensures var after := SequencePut(db, aggregate, state).value; forall a | a in after.sequences :: WholeLog(after, a)
  {
    hide RowAt, UniqueIDs, ValidRow, StoreIdentity;
    var after := SequencePut(db, aggregate, state).value;
    forall a | a in after.sequences ensures WholeLog(after, a) {
      assert WholeLog(db, a);
      SameLog(db, after, a);
    }
  }

  lemma DeletedKeepsLog(db: Db, aggregate: string)
    requires LogInv(db) && AggregateDeleted(db, aggregate).Ok?
    ensures var after := AggregateDeleted(db, aggregate).value;
      LogInv(after) && aggregate !in after.sequences && (forall k | k in after.events :: k.aggregate != aggregate) &&
      forall a | a != aggregate :: KeepsAggregate(db, after, a)
  {
    DeletedKeepsOthers(db, aggregate);
    if aggregate !in db.sequences { NothingDeleted(db, aggregate); } else { DeletedKeepsRows(db, aggregate); }
    if aggregate in db.sequences { DeletedKeepsLogs(db, aggregate); }
    hide WholeLog, RowAt, UniqueIDs, StoreIdentity, KeepsAggregate;
  }

  lemma NothingDeleted(db: Db, aggregate: string)
    requires LogInv(db) && AggregateDeleted(db, aggregate).Ok? && aggregate !in db.sequences
    ensures AggregateDeleted(db, aggregate).value == db && forall k | k in db.events :: k.aggregate != aggregate
  {
    hide StoreIdentity, WholeLog, RowAt, UniqueIDs;
    NoRowsOutside(db, aggregate);
    assert db.sequences - {aggregate} == db.sequences;
    forall k | k in db.events ensures k.aggregate != aggregate { assert k == Key(k.aggregate, k.sequence); }
  }

  lemma DeletedKeepsRows(db: Db, aggregate: string)
    requires LogInv(db) && AggregateDeleted(db, aggregate).Ok? && aggregate in db.sequences
    ensures var after := AggregateDeleted(db, aggregate).value;
      (forall k | k in after.events :: RowAt(after, k)) && UniqueIDs(after)
  {
    hide ValidRow, StoreIdentity, WholeLog, UniqueIDs;
    var after := AggregateDeleted(db, aggregate).value;
    forall k | k in after.events ensures k.aggregate in after.sequences { assert RowAt(db, k); }
    SameRows(db, after);
  }

  lemma DeletedKeepsLogs(db: Db, aggregate: string)
    requires LogInv(db) && AggregateDeleted(db, aggregate).Ok? && aggregate in db.sequences
    ensures var after := AggregateDeleted(db, aggregate).value; forall a | a in after.sequences :: WholeLog(after, a)
  {
    hide RowAt, UniqueIDs, StoreIdentity;
    var after := AggregateDeleted(db, aggregate).value;
    forall a | a in after.sequences ensures WholeLog(after, a) {
      assert WholeLog(db, a);
      SameLog(db, after, a);
    }
  }

  // ---------- Transactions ----------

  lemma FoundLatest(db: Db, aggregate: string)
    requires FindSequence(db, aggregate).Ok?
    ensures LatestOf(FindSequence(db, aggregate).value) >= -1
  {
    hide StoreIdentity;
  }

  lemma PublishedKeepsLog(db: Db, projectors: seq<Projector>, commit: Option<Hook>, key: string, version: Int64,
                          e: Envelope, payload: Payload)
    requires LogInv(db)
    ensures var published := Published(db, projectors, commit, key, version, e, payload);
      published.Ok? ==> LogInv(published.value.0) && Grows(db, published.value.0)
  {
    hide LogInv, Grows, Recorded, FindSequence, FindID, Projected;
    var published := Published(db, projectors, commit, key, version, e, payload);
    if published.Ok? {
      FoundLatest(db, payload.aggregate);
      var found := FindSequence(db, payload.aggregate).value;
      var placed := Placed(e, payload.aggregate, LatestOf(found) + 1, version);
      var p := Projected(projectors, commit, db.projection, placed).value;
      ProjectionAside(db, p);
      RecordedKeepsLog(db.(projection := p), OwnerOf(found), RowOf(placed, key, payload.encoded));
      RecordedGrows(db.(projection := p), OwnerOf(found), RowOf(placed, key, payload.encoded));
    }
  }

  lemma FreshKeepsLog(db: Db, projectors: seq<Projector>, e: Envelope, row: StoredEvent, owner: string)
    requires LogInv(db) && FindSequence(db, row.aggregate).Ok?
    requires row.sequence as int == LatestOf(FindSequence(db, row.aggregate).value) as int + 1
    requires var held := OwnerOf(FindSequence(db, row.aggregate).value); held != "" ==> owner == held
    ensures var r := Fresh(db, projectors, e, row, owner);
      r.Ok? ==> LogInv(r.value.0) && Grows(db, r.value.0)
  {
    if Fresh(db, projectors, e, row, owner).Ok? {
      var p := ProjectAll(projectors, db.projection, e).value;
      ProjectionAside(db, p);
      hide LogInv, Grows, Recorded, FindSequence, FindID, ProjectAll;
      RecordedKeepsLog(db.(projection := p), owner, row);
      RecordedGrows(db.(projection := p), owner, row);
    }
  }

  lemma OwnerPutGrows(db: Db, aggregate: string, state: SequenceState)
    requires aggregate in db.sequences && SequencePut(db, aggregate, state).Ok?
    requires db.sequences[aggregate].latest == state.latest && db.sequences[aggregate].owner == ""
    ensures var after := SequencePut(db, aggregate, state).value; Grows(db, after) && after.events == db.events
  {
    hide StoreIdentity;
  }

  lemma StaleKeepsLog(db: Db, row: StoredEvent, owner: string)
    requires LogInv(db) && row.aggregate in db.sequences
    ensures var stale := Stale(db, row, db.sequences[row.aggregate], owner);
      stale.Ok? ==> LogInv(stale.value.0) && Grows(db, stale.value.0) && stale.value.0.events == db.events
  {
    hide LogInv, Grows, FindAt, SameRow, SequencePut;
    var found := db.sequences[row.aggregate];
    var claimed := found.(owner := owner);
    GrowsReflexive(db);
    if found.owner == "" && SequencePut(db, row.aggregate, claimed).Ok? {
      OwnerPutKeepsLog(db, row.aggregate, claimed);
      OwnerPutGrows(db, row.aggregate, claimed);
    }
  }

  lemma GrowsReflexive(db: Db)
    ensures Grows(db, db)
  {
  }

  lemma ReplayedKeepsLog(db: Db, projectors: seq<Projector>, e: Envelope, row: StoredEvent, options: ReplayOptions)
    requires LogInv(db) && row.sequence >= 0
    ensures var replayed := Replayed(db, projectors, e, row, options);
      replayed.Ok? ==> LogInv(replayed.value.0) && Grows(db, replayed.value.0)
  {
    var found := FindSequence(db, row.aggregate);
    if found.Ok? {
      var latest, owner := LatestOf(found.value), OwnerOf(found.value);
      hide LogInv, Stale, Fresh;
      if row.sequence <= latest {
        StaleKeepsLog(db, row, options.owner);
      } else if row.sequence as int == latest as int + 1 {
        FreshKeepsLog(db, projectors, e, row, if owner == "" then options.owner else owner);
      }
    }
  }

  // ---------- Operations ----------

  lemma PublishKeepsLog(s: State, projectors: Projectors, d: Definition, data: Json.Value, options: PublishOptions,
                        generated: Option<string>)
    requires LogInv(s.db)
    ensures var s1 := PublishStep(s, projectors, d, data, options, generated).0; LogInv(s1.db) && Grows(s.db, s1.db)
  {
    hide LogInv, PayloadOf, Published, ValidDefinition, Bind, VersionedType;
    forall list, commit, key, version, e, payload
      ensures var published := Published(s.db, list, commit, key, version, e, payload);
        published.Ok? ==> LogInv(published.value.0) && Grows(s.db, published.value.0)
    {
      PublishedKeepsLog(s.db, list, commit, key, version, e, payload);
    }
  }

  lemma ReplayKeepsLog(s: State, projectors: Projectors, d: Definition, e: Envelope, options: ReplayOptions)
    requires LogInv(s.db)
    ensures var s1 := ReplayStep(s, projectors, d, e, options).0; LogInv(s1.db) && Grows(s.db, s1.db)
  {
    var payload := ReplayPayload(d, e);
    if payload.Ok? {
      assert payload.value.0.durable.value.sequence >= 0;
      hide LogInv, ReplayPayload, Replayed, Bind, ValidDefinition, VersionedType;
      var key := VersionedType(d);
      ReplayedKeepsLog(s.db, ProjectorsOf(projectors, key), payload.value.0,
                       RowOf(payload.value.0, key, payload.value.1), options);
    }
  }

  lemma GrowsTransitive(a: Db, b: Db, c: Db)
    requires Grows(a, b) && Grows(b, c)
    ensures Grows(a, c)
  {
  }

  lemma {:induction false} ReplayEachKeepsLog(s: State, projectors: Projectors, entries: seq<ReplayEntry>,
                                              options: ReplayOptions)
    requires LogInv(s.db)
    ensures var s1 := ReplayEach(s, projectors, entries, options).0; LogInv(s1.db) && Grows(s.db, s1.db)
    decreases |entries|
  {
    if entries != [] {
      var (s1, first) := ReplayStep(s, projectors, entries[0].definition, entries[0].event, options);
      ReplayKeepsLog(s, projectors, entries[0].definition, entries[0].event, options);
      hide LogInv, Grows, ReplayStep;
      if first.Ok? {
        ReplayEachKeepsLog(s1, projectors, entries[1..], options);
        GrowsTransitive(s.db, s1.db, ReplayEach(s1, projectors, entries[1..], options).0.db);
      }
    }
  }

  // ---------- Runs ----------

  datatype Command =
    | Publish(definition: Definition, data: Json.Value, options: PublishOptions, generated: Option<string>)
    | Replay(definition: Definition, event: Envelope, replayOptions: ReplayOptions)
    | ReplayAll(entries: seq<ReplayEntry>, replayOptions: ReplayOptions)
    | Claim(aggregate: string, owner: string)
    | Remove(aggregate: string)

  /** How far a step gets: to its end, to a storage failure, or to one after `n` replayed entries. */
  datatype Fate = Whole | Undone | After(n: nat)

  datatype Step = Step(command: Command, fate: Fate)

  ghost function Administered(s: State, r: Outcome<Db>): (s1: State) {
    if r.Ok? then s.(db := r.value) else s
  }

  /** The state a whole command leaves. */
  ghost function Effect(s: State, projectors: Projectors, c: Command): (s1: State) {
    match c
    case Publish(d, data, options, generated) => PublishStep(s, projectors, d, data, options, generated).0
    case Replay(d, e, options) => ReplayStep(s, projectors, d, e, options).0
    case ReplayAll(entries, options) => ReplayAllStep(s, projectors, entries, options).0
    case Claim(aggregate, owner) => Administered(s, ClaimTables(s.db, aggregate, owner))
    case Remove(aggregate) => Administered(s, RemoveTables(s.db, aggregate))
  }

  /** The definitions are bound before the first write, whatever becomes of it. */
  ghost function Next(s: State, projectors: Projectors, step: Step): (s1: State) {
    var whole := Effect(s, projectors, step.command);
    match step.fate
    case Whole => whole
    case Undone => s.(definitions := whole.definitions)
    case After(n) =>
      if step.command.ReplayAll? && n <= |step.command.entries| && ChunkError(step.command.entries, 0).None? then
        ReplayEach(s.(definitions := whole.definitions), projectors, step.command.entries[..n],
                   step.command.replayOptions).0
      else s
  }

  ghost function Run(s: State, projectors: Projectors, steps: seq<Step>): (s1: State)
    decreases |steps|
  {
    if steps == [] then s else Run(Next(s, projectors, steps[0]), projectors, steps[1..])
  }

  const FRESH := State(map[], EMPTY_DB, [])

  predicate Names(c: Command, aggregate: string) {
    (c.Claim? || c.Remove?) && c.aggregate == aggregate
  }

  /** What one aggregate sees of a step: its rows stay and its owner, once there, too. */
  ghost predicate KeepsAggregate(before: Db, after: Db, a: string) {
    (forall s: Int64 | Key(a, s) in before.events ::
       Key(a, s) in after.events && after.events[Key(a, s)] == before.events[Key(a, s)]) &&
    (a in before.sequences ==>
       a in after.sequences && before.sequences[a].latest <= after.sequences[a].latest &&
       (before.sequences[a].owner != "" ==> after.sequences[a].owner == before.sequences[a].owner))
  }

  lemma ClaimKeepsLog(db: Db, aggregate: string, owner: string)
    requires LogInv(db)
    ensures var r := ClaimTables(db, aggregate, owner);
      r.Ok? ==>
        LogInv(r.value) && r.value.events == db.events &&
        forall a | a != aggregate :: KeepsAggregate(db, r.value, a)
  {
    hide LogInv, StoreIdentity, Identity, KeepsAggregate;
    var found := FindSequence(db, aggregate);
    if found.Ok? && found.value.Some? && ClaimTables(db, aggregate, owner).Ok? {
      OwnerPutKeepsLog(db, aggregate, found.value.value.(owner := owner));
    }
    ClaimKeepsOthers(db, aggregate, owner);
  }

  lemma ClaimKeepsOthers(db: Db, aggregate: string, owner: string)
    ensures var r := ClaimTables(db, aggregate, owner);
      r.Ok? ==> forall a | a != aggregate :: KeepsAggregate(db, r.value, a)
  {
    hide StoreIdentity, Identity;
  }

  lemma RemoveKeepsLog(db: Db, aggregate: string)
    requires LogInv(db)
    ensures var r := RemoveTables(db, aggregate);
      r.Ok? ==> LogInv(r.value) && forall a | a != aggregate :: KeepsAggregate(db, r.value, a)
  {
    if RemoveTables(db, aggregate).Ok? {
      DeletedKeepsLog(db, aggregate);
      DeletedKeepsOthers(db, aggregate);
    }
    hide LogInv, AggregateDeleted, KeepsAggregate;
  }

  lemma DeletedKeepsOthers(db: Db, aggregate: string)
    requires AggregateDeleted(db, aggregate).Ok?
    ensures forall a | a != aggregate :: KeepsAggregate(db, AggregateDeleted(db, aggregate).value, a)
  {
    hide StoreIdentity;
  }

  lemma EffectKeepsLog(s: State, projectors: Projectors, c: Command)
    requires LogInv(s.db)
    ensures LogInv(Effect(s, projectors, c).db)
    ensures !(c.Claim? || c.Remove?) ==> Grows(s.db, Effect(s, projectors, c).db)
    ensures forall a | !Names(c, a) :: KeepsAggregate(s.db, Effect(s, projectors, c).db, a)
  {
    var s1 := Effect(s, projectors, c);
    match c {
      case Publish(d, data, options, generated) => PublishKeepsLog(s, projectors, d, data, options, generated);
      case Replay(d, e, options) => ReplayKeepsLog(s, projectors, d, e, options);
      case ReplayAll(entries, options) => ReplayAllKeepsLog(s, projectors, entries, options);
      case Claim(aggregate, owner) => ClaimKeepsLog(s.db, aggregate, owner);
      case Remove(aggregate) => RemoveKeepsLog(s.db, aggregate);
    }
    hide LogInv, Effect;
  }

  lemma ReplayAllKeepsLog(s: State, projectors: Projectors, entries: seq<ReplayEntry>, options: ReplayOptions)
    requires LogInv(s.db)
    ensures var s1 := ReplayAllStep(s, projectors, entries, options).0; LogInv(s1.db) && Grows(s.db, s1.db)
  {
    hide LogInv, ReplayEach, ChunkError, BindAll;
    var bound := ChunkBound(s, entries);
    if bound.Ok? { ReplayEachKeepsLog(bound.value, projectors, entries, options); }
  }

  lemma NextKeepsLog(s: State, projectors: Projectors, step: Step)
    requires LogInv(s.db)
    ensures LogInv(Next(s, projectors, step).db)
    ensures forall a | !Names(step.command, a) :: KeepsAggregate(s.db, Next(s, projectors, step).db, a)
  {
    EffectKeepsLog(s, projectors, step.command);
    hide LogInv, Effect, ReplayEach, ChunkError;
    if step.fate.After? && step.command.ReplayAll? && step.fate.n <= |step.command.entries| {
      var bound := s.(definitions := Effect(s, projectors, step.command).definitions);
      ReplayEachKeepsLog(bound, projectors, step.command.entries[..step.fate.n], step.command.replayOptions);
    }
  }

  /** Over every run, failed writes included, each log is whole and each id unique. */
  lemma {:induction false} EveryRunKeepsLog(s: State, projectors: Projectors, steps: seq<Step>)
    requires LogInv(s.db)
    ensures LogInv(Run(s, projectors, steps).db)
    decreases |steps|
  {
    hide LogInv, Next;
    if steps != [] {
      NextKeepsLog(s, projectors, steps[0]);
      EveryRunKeepsLog(Next(s, projectors, steps[0]), projectors, steps[1..]);
    }
  }

  lemma ReachableLogs(projectors: Projectors, steps: seq<Step>)
    ensures LogInv(Run(FRESH, projectors, steps).db)
  {
    EveryRunKeepsLog(FRESH, projectors, steps);
  }

  /** In a run without Claim or Remove of an aggregate its log only grows, and its owner, once there, stays. */
  lemma {:induction false} AggregateOverRun(s: State, projectors: Projectors, steps: seq<Step>, a: string)
    requires LogInv(s.db) && forall i | 0 <= i < |steps| :: !Names(steps[i].command, a)
    ensures KeepsAggregate(s.db, Run(s, projectors, steps).db, a)
    decreases |steps|
  {
    if steps != [] {
      var s1 := Next(s, projectors, steps[0]);
      NextKeepsLog(s, projectors, steps[0]);
      assert KeepsAggregate(s.db, s1.db, a);
      hide LogInv, Next;
      AggregateOverRun(s1, projectors, steps[1..], a);
    }
  }
}
