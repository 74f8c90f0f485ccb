/** Replaying one store's history into another: retries are harmless, foreign or divergent histories change
    nothing, and compatible logs converge to the longer one. */
module Replication {
  import opened Text
  import opened EventStore
  import opened EventService
  import opened EventLog
  import opened StoredEvents

  // ---------- One replayed row ----------

  /** Replaying this row once more would do nothing. */
  predicate Settled(db: Db, row: StoredEvent, options: ReplayOptions) {
    var found := FindSequence(db, row.aggregate);
    found.Ok? &&
    var latest, owner := LatestOf(found.value), OwnerOf(found.value);
    var foreign := owner != "" && owner != options.owner;
    !(options.strictOwner && foreign) &&
    if row.sequence <= latest then
      var stored := FindAt(db, row.aggregate, row.sequence);
      stored.Ok? && SameRow(stored.value, row) && (options.owner == "" || owner != "")
    else foreign
  }

  lemma SettledChangesNothing(db: Db, list: seq<Projector>, e: Envelope, row: StoredEvent, options: ReplayOptions)
    requires Settled(db, row, options)
    ensures Replayed(db, list, e, row, options) == Ok((db, false))
  {
    hide Fresh;
  }

  lemma ExtendedSettles(db: Db, row: StoredEvent, owner: string, options: ReplayOptions)
    requires StoreIdentity(row.aggregate) && row.sequence >= 0
    requires (options.owner == "" || owner != "") && (owner == "" || owner == options.owner)
    ensures Settled(Extended(db, owner, row), row, options)
  {
    hide StoreIdentity;
  }

  lemma FreshSettles(db: Db, list: seq<Projector>, e: Envelope, row: StoredEvent, owner: string, options: ReplayOptions)
    requires Fresh(db, list, e, row, owner).Ok? && row.sequence >= 0
    requires (options.owner == "" || owner != "") && (owner == "" || owner == options.owner)
    ensures Settled(Fresh(db, list, e, row, owner).value.0, row, options)
  {
    var p := ProjectAll(list, db.projection, e).value;
    FreshRow(db, list, e, row, owner);
    RecordedExtends(db.(projection := p), owner, row);
    hide Fresh, Settled, Recorded, Extended, ProjectAll, ValidRow, StoreIdentity, HasID;
    ExtendedSettles(db.(projection := p), row, owner, options);
  }

  lemma StaleSettles(db: Db, row: StoredEvent, options: ReplayOptions)
    requires row.aggregate in db.sequences && Stale(db, row, db.sequences[row.aggregate], options.owner).Ok?
    requires var state := db.sequences[row.aggregate];
      0 <= row.sequence <= state.latest && !(options.strictOwner && state.owner != "" && state.owner != options.owner)
    ensures Settled(Stale(db, row, db.sequences[row.aggregate], options.owner).value.0, row, options)
  {
    hide StoreIdentity;
  }

  /** A replay that succeeds leaves its row settled. */
  lemma ReplayedSettles(db: Db, list: seq<Projector>, e: Envelope, row: StoredEvent, options: ReplayOptions)
    requires row.sequence >= 0 && Replayed(db, list, e, row, options).Ok?
    ensures Settled(Replayed(db, list, e, row, options).value.0, row, options)
  {
    var found := FindSequence(db, row.aggregate).value;
    var latest, owner := LatestOf(found), OwnerOf(found);
    hide Stale, Fresh;
    if row.sequence <= latest {
      StaleSettles(db, row, options);
    } else if Replayed(db, list, e, row, options).value.1 {
      FreshSettles(db, list, e, row, if owner == "" then options.owner else owner, options);
    }
  }

  /** Replaying another row of the same aggregate keeps a row settled. */
  lemma SettledStays(db: Db, row: StoredEvent, list: seq<Projector>, e: Envelope, other: StoredEvent,
                     options: ReplayOptions)
    requires Settled(db, row, options) && other.aggregate == row.aggregate && other.sequence >= 0
    requires Replayed(db, list, e, other, options).Ok?
    ensures Settled(Replayed(db, list, e, other, options).value.0, row, options)
  {
    var found := FindSequence(db, row.aggregate).value;
    var latest, owner := LatestOf(found), OwnerOf(found);
    var (after, inserted) := Replayed(db, list, e, other, options).value;
    hide Fresh, Stale, Settled;
    if inserted {
      var kept := if owner == "" then options.owner else owner;
      FreshRow(db, list, e, other, kept);
      ExtendedKeepsSettled(db, row, ProjectAll(list, db.projection, e).value, kept, other, options);
    } else if other.sequence <= latest {
      StaleKeepsState(db, other, SequenceState(latest, owner), options);
    }
  }

  lemma ExtendedKeepsSettled(db: Db, row: StoredEvent, p: Projection, kept: string, other: StoredEvent,
                             options: ReplayOptions)
    requires Settled(db, row, options) && other.aggregate == row.aggregate
    requires var found := FindSequence(db, row.aggregate).value;
      other.sequence > LatestOf(found) && OwnerOf(found) in {"", options.owner} &&
      kept == if OwnerOf(found) == "" then options.owner else OwnerOf(found)
    ensures Settled(Extended(db.(projection := p), kept, other), row, options)
  {
    hide StoreIdentity;
  }

  lemma StaleKeepsState(db: Db, row: StoredEvent, found: SequenceState, options: ReplayOptions)
    requires Stale(db, row, found, options.owner).Ok? && (options.owner == "" || found.owner != "")
    ensures Stale(db, row, found, options.owner).value.0 == db
  {
  }

  // ---------- One replayed entry ----------

  ghost predicate Done(s: State, entry: ReplayEntry, options: ReplayOptions) {
    var payload := ReplayPayload(entry.definition, entry.event);
    payload.Ok? && Bind(s.definitions, entry.definition) == Ok(s.definitions) &&
    Settled(s.db, RowOf(payload.value.0, VersionedType(entry.definition), payload.value.1), options)
  }

  lemma DoneChangesNothing(s: State, projectors: Projectors, entry: ReplayEntry, options: ReplayOptions)
    requires Done(s, entry, options)
    ensures ReplayStep(s, projectors, entry.definition, entry.event, options) == (s, Ok(false))
  {
    var payload := ReplayPayload(entry.definition, entry.event);
    var key := VersionedType(entry.definition);
    hide ReplayPayload, Settled, Replayed, ValidDefinition, Bind, VersionedType;
    SettledChangesNothing(s.db, ProjectorsOf(projectors, key), payload.value.0,
                          RowOf(payload.value.0, key, payload.value.1), options);
  }

  lemma BoundStays(definitions: Bindings, d: Definition, e: Definition)
    requires ValidDefinition(d) && ValidDefinition(e)
    requires Bind(definitions, d) == Ok(definitions) && Bind(definitions, e).Ok?
    ensures Bind(Bind(definitions, e).value, d) == Ok(Bind(definitions, e).value)
  {
    var key := VersionedType(d);
    var after := Bind(definitions, e).value;
    assert key in definitions && definitions[key] == d by { assert definitions[key := d] == definitions; }
    hide ValidDefinition, VersionedType;
    assert after[key := d] == after;
  }

  lemma BoundAtOnce(definitions: Bindings, d: Definition)
    requires ValidDefinition(d) && Bind(definitions, d).Ok?
    ensures Bind(Bind(definitions, d).value, d) == Bind(definitions, d)
  {
    var after := Bind(definitions, d).value;
    assert after[VersionedType(d) := d] == after;
  }

  lemma PayloadSequence(d: Definition, e: Envelope)
    requires ReplayPayload(d, e).Ok?
    ensures e.durable.value.sequence >= 0
  {
    hide PayloadOf;
  }

  lemma StepIsDone(s: State, projectors: Projectors, entry: ReplayEntry, options: ReplayOptions)
    requires ReplayStep(s, projectors, entry.definition, entry.event, options).1.Ok?
    ensures Done(ReplayStep(s, projectors, entry.definition, entry.event, options).0, entry, options)
  {
    var payload := ReplayPayload(entry.definition, entry.event).value;
    var key := VersionedType(entry.definition);
    BoundAtOnce(s.definitions, entry.definition);
    PayloadSequence(entry.definition, entry.event);
    hide ReplayPayload, Settled, Replayed, ValidDefinition, Bind, VersionedType;
    ReplayedSettles(s.db, ProjectorsOf(projectors, key), payload.0, RowOf(payload.0, key, payload.1), options);
  }

  lemma DoneStays(s: State, projectors: Projectors, entry: ReplayEntry, other: ReplayEntry, options: ReplayOptions)
    requires Done(s, entry, options) && ReplayStep(s, projectors, other.definition, other.event, options).1.Ok?
    requires AggregateIs(entry, other)
    ensures Done(ReplayStep(s, projectors, other.definition, other.event, options).0, entry, options)
  {
    var payload := ReplayPayload(entry.definition, entry.event).value;
    var next := ReplayPayload(other.definition, other.event).value;
    BoundStays(s.definitions, entry.definition, other.definition);
    PayloadSequence(other.definition, other.event);
    var key, nextKey := VersionedType(entry.definition), VersionedType(other.definition);
    hide ReplayPayload, Settled, Replayed, ValidDefinition, Bind, VersionedType;
    SettledStays(s.db, RowOf(payload.0, key, payload.1), ProjectorsOf(projectors, nextKey), next.0,
                 RowOf(next.0, nextKey, next.1), options);
  }

  predicate AggregateIs(entry: ReplayEntry, other: ReplayEntry) {
    entry.event.durable.Some? && other.event.durable.Some? &&
    entry.event.durable.value.aggregate == other.event.durable.value.aggregate
  }

  // ---------- Chunks ----------

  ghost predicate OneAggregate(entries: seq<ReplayEntry>) {
    forall i, j | 0 <= i < |entries| && 0 <= j < |entries| :: AggregateIs(entries[i], entries[j])
  }

  /** What the checks of a chunk establish: entry `i` is `i` places after the first, in the same aggregate. */
  lemma {:induction false} ChunkFacts(entries: seq<ReplayEntry>, i: nat)
    requires i <= |entries| && ChunkError(entries, i).None?
    ensures forall j | i <= j < |entries| ::
      ReplayPayload(entries[j].definition, entries[j].event).Ok? && EntryError(entries, j).None?
    decreases |entries| - i
  {
    hide ReplayPayload;
    if i < |entries| { ChunkFacts(entries, i + 1); }
  }

  lemma ChunkIsOneAggregate(entries: seq<ReplayEntry>)
    requires ChunkError(entries, 0).None?
    ensures OneAggregate(entries)
  {
    ChunkFacts(entries, 0);
    hide ReplayPayload, ChunkError;
    forall j | 0 <= j < |entries| ensures AggregateIs(entries[0], entries[j]) {
      assert EntryError(entries, j).None? && EntryError(entries, 0).None?;
    }
  }

  /** The entries that were replayed are all done where the replay got to. */
  lemma {:induction false} ReplayedAreDone(s: State, projectors: Projectors, entries: seq<ReplayEntry>, n: nat,
                                           options: ReplayOptions)
    requires n <= |entries| && OneAggregate(entries)
    requires ReplayEach(s, projectors, entries[..n], options).1.Ok?
    ensures var at := ReplayEach(s, projectors, entries[..n], options).0;
      forall i | 0 <= i < n :: Done(at, entries[i], options)
  {
    hide ReplayStep, Done;
    if n > 0 {
      assert entries[..n] == entries[..n - 1] + [entries[n - 1]];
      ReplayEachAppend(s, projectors, entries[..n - 1], [entries[n - 1]], options);
      ReplayedAreDone(s, projectors, entries, n - 1, options);
      ReplayEachNext(s, projectors, entries, n - 1, options);
      var before := ReplayEach(s, projectors, entries[..n - 1], options).0;
      StepIsDone(before, projectors, entries[n - 1], options);
      forall i | 0 <= i < n - 1 ensures Done(ReplayEach(s, projectors, entries[..n], options).0, entries[i], options) {
        DoneStays(before, projectors, entries[i], entries[n - 1], options);
      }
    }
  }

  lemma {:induction false} DoneEntriesChangeNothing(s: State, projectors: Projectors, entries: seq<ReplayEntry>,
                                                    options: ReplayOptions)
    requires forall i | 0 <= i < |entries| :: Done(s, entries[i], options)
    ensures ReplayEach(s, projectors, entries, options) == (s, Ok(()))
    decreases |entries|
  {
    hide ReplayStep, Done;
    if entries != [] {
      DoneChangesNothing(s, projectors, entries[0], options);
      DoneEntriesChangeNothing(s, projectors, entries[1..], options);
    }
  }

  lemma {:induction false} BindAllKnown(bound: Bindings, list: seq<Definition>)
    requires (forall d | d in list :: ValidDefinition(d)) && forall d | d in list :: Bind(bound, d) == Ok(bound)
    ensures BindAll(bound, list) == Ok(bound)
    decreases |list|
  {
    if list != [] { BindAllKnown(bound, list[1..]); }
  }

  lemma {:induction false} BindAllBinds(definitions: Bindings, list: seq<Definition>)
    requires (forall d | d in list :: ValidDefinition(d)) && BindAll(definitions, list).Ok?
    ensures forall d | d in list :: Bind(BindAll(definitions, list).value, d) == BindAll(definitions, list)
    decreases |list|
  {
    if list != [] {
      var first := Bind(definitions, list[0]).value;
      BindAllBinds(first, list[1..]);
      BindExtends(definitions, list[0]);
      BindAllExtends(first, list[1..]);
      hide ValidDefinition, VersionedType;
      var after := BindAll(definitions, list).value;
      assert after[VersionedType(list[0]) := list[0]] == after;
      assert list == [list[0]] + list[1..];
    }
  }

  /** Bound definitions stay as they are through a replay of entries under them. */
  lemma {:induction false} ReplayKeepsBindings(s: State, projectors: Projectors, entries: seq<ReplayEntry>,
                                               options: ReplayOptions)
    requires BindsEach(s.definitions, entries)
    ensures ReplayEach(s, projectors, entries, options).0.definitions == s.definitions
    decreases |entries|
  {
    hide ReplayPayload, Replayed, ValidDefinition, Bind, VersionedType;
    if entries != [] {
      ReplayKeepsBindings(ReplayStep(s, projectors, entries[0].definition, entries[0].event, options).0, projectors,
                          entries[1..], options);
    }
  }

  /** A chunk that stopped after any entry can be replayed whole: the outcome is the one it would have had. */
  lemma RetryReachesTheSameState(s: State, projectors: Projectors, entries: seq<ReplayEntry>, n: nat,
                                 options: ReplayOptions)
    requires n <= |entries| && ChunkBound(s, entries).Ok?
    requires ReplayEach(ChunkBound(s, entries).value, projectors, entries[..n], options).1.Ok?
    ensures var stopped := ReplayEach(ChunkBound(s, entries).value, projectors, entries[..n], options).0;
      ReplayAllStep(stopped, projectors, entries, options) == ReplayAllStep(s, projectors, entries, options)
  {
    hide *;
    var bound, front, back := ChunkBound(s, entries).value, entries[..n], entries[n..];
    assert entries == front + back;
    ChunkBindsAll(s, entries);
    ChunkIsOneAggregate(entries);
    FrontBinds(bound.definitions, entries, n);
    ReplayKeepsBindings(bound, projectors, front, options);
    var stopped := ReplayEach(bound, projectors, front, options).0;
    ChunkAlreadyBound(bound, stopped, entries);
    BoundReplays(s, projectors, entries, options);
    BoundReplays(stopped, projectors, entries, options);
    ReplayedAreDone(bound, projectors, entries, n, options);
    DoneEntriesChangeNothing(stopped, projectors, front, options);
    ReplayEachAppend(bound, projectors, front, back, options);
    ReplayEachAppend(stopped, projectors, front, back, options);
  }

  lemma FrontBinds(definitions: Bindings, entries: seq<ReplayEntry>, n: nat)
    requires n <= |entries| && BindsEach(definitions, entries)
    ensures BindsEach(definitions, entries[..n])
  {
    hide ValidDefinition, Bind;
  }

  lemma BoundReplays(s: State, projectors: Projectors, entries: seq<ReplayEntry>, options: ReplayOptions)
    requires ChunkBound(s, entries).Ok?
    ensures ReplayAllStep(s, projectors, entries, options) ==
      ReplayEach(ChunkBound(s, entries).value, projectors, entries, options)
  {
    hide ChunkBound, ReplayEach;
  }

  ghost predicate BindsEach(definitions: Bindings, entries: seq<ReplayEntry>) {
    forall i | 0 <= i < |entries| ::
      ValidDefinition(entries[i].definition) && Bind(definitions, entries[i].definition) == Ok(definitions)
  }

  lemma ChunkBindsAll(s: State, entries: seq<ReplayEntry>)
    requires ChunkBound(s, entries).Ok?
    ensures ChunkError(entries, 0).None? && BindsEach(ChunkBound(s, entries).value.definitions, entries)
  {
    var list := DefinitionsOf(entries);
    ChunkDefinitionsValid(entries, 0);
    BindAllBinds(s.definitions, list);
    hide ValidDefinition, Bind, ChunkError;
    assert forall i | 0 <= i < |entries| :: list[i] in list && list[i] == entries[i].definition;
  }

  lemma ChunkAlreadyBound(bound: State, stopped: State, entries: seq<ReplayEntry>)
    requires ChunkError(entries, 0).None? && BindsEach(bound.definitions, entries)
    requires stopped.definitions == bound.definitions
    ensures ChunkBound(stopped, entries) == Ok(stopped)
  {
    var list := DefinitionsOf(entries);
    hide ValidDefinition, Bind, ChunkError;
    BindAllKnown(bound.definitions, list);
  }
}
