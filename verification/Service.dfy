/** internal/event/service.go, continued: the service object. Each method does what its specification in
    EventService says, or reports that the storage failed and leaves the tables alone. */
module ServiceObject {
  import opened Text
  import opened Json
  import opened JsonCodec
  import opened EventStore
  import opened EventService

  class Service {
    const connection: Connection
    var definitions: Bindings
    var projectors: Projectors
    var notified: seq<Envelope>

    constructor (connection: Connection)
      ensures this.connection == connection
      ensures Abstract() == State(map[], connection.committed, []) && projectors == map[]
    {
      this.connection := connection;
      definitions, projectors, notified := map[], map[], [];
    }

    function Abstract(): (s: State)
      reads this, connection
    {
      State(definitions, connection.committed, notified)
    }

    /** The operation took place, or a storage failure undid everything but the binding of definitions. */
    ghost predicate Did<T(!new)>(before: State, spec: (State, Outcome<T>), r: Outcome<T>)
      reads this, connection
    {
      (Abstract() == spec.0 && r == spec.1) || Undone(before, spec.0.definitions, r)
    }

    ghost predicate Undone<T(!new)>(before: State, bound: Bindings, r: Outcome<T>)
      reads this, connection
    {
      !connection.Reliable() && r == Err(Storage) && Abstract() == before.(definitions := bound)
    }

    /** A transaction body either made the working tables what it should, or reports an error. */
    ghost predicate Worked<T(!new)>(spec: Outcome<(Db, T)>, r: Outcome<T>)
      reads this, connection
    {
      match r
      case Ok(x) => spec == Ok((connection.working, x))
      case Err(e) => spec == Err(e) || (!connection.Reliable() && e == Storage)
    }

    // ---------- Definitions ----------

    method BindDefinition(d: Definition) returns (r: Outcome<()>)
      requires ValidDefinition(d)
      modifies this`definitions
      ensures match Bind(old(definitions), d)
        case Ok(bound) => r == Ok(()) && definitions == bound
        case Err(e) => r == Err(e) && definitions == old(definitions)
    {
      var key := VersionedType(d);
      if key in definitions {
        if definitions[key] != d { return Err(InvalidDefinition); }
        assert definitions[key := d] == definitions;
        return Ok(());
      }
      definitions := definitions[key := d];
      r := Ok(());
    }

    /** All or none of the definitions become bound. */
    method BindDefinitions(list: seq<Definition>) returns (r: Outcome<()>)
      requires forall d | d in list :: ValidDefinition(d)
      modifies this`definitions
      ensures match BindAll(old(definitions), list)
        case Ok(bound) => r == Ok(()) && definitions == bound
        case Err(e) => r == Err(e) && definitions == old(definitions)
    {
      var pending: Bindings := map[];
      assert definitions + pending == definitions;
      assert list[0..] == list;
      for i := 0 to |list|
        invariant definitions == old(definitions)
        invariant BindAll(definitions + pending, list[i..]) == BindAll(definitions, list)
        invariant pending.Keys !! definitions.Keys
      {
        var d := list[i];
        assert d in list;
        var key := VersionedType(d);
        assert list[i..][0] == d && list[i..][1..] == list[i + 1..];
        var bound := key in definitions || key in pending;
        if bound && (if key in definitions then definitions[key] else pending[key]) != d {
          return Err(InvalidDefinition);
        }
        if bound {
          assert (definitions + pending)[key := d] == definitions + pending;
        } else {
          assert (definitions + pending)[key := d] == definitions + pending[key := d];
          pending := pending[key := d];
        }
      }
      definitions := definitions + pending;
      r := Ok(());
    }

    method Project(d: Definition, projector: Projector) returns (r: Outcome<()>)
      modifies this`definitions, this`projectors
      ensures r.Ok? <==> ValidDefinition(d) && d.durable.Some? && Bind(old(definitions), d).Ok?
      ensures r.Err? ==> definitions == old(definitions) && projectors == old(projectors)
      ensures r.Ok? ==>
        var key := VersionedType(d);
        definitions == Bind(old(definitions), d).value &&
        projectors == old(projectors)[key := ProjectorsOf(old(projectors), key) + [projector]]
    {
      if !ValidDefinition(d) || d.durable.None? { return Err(InvalidDefinition); }
      r := BindDefinition(d);
      if r.Err? { return; }
      var key := VersionedType(d);
      projectors := projectors[key := ProjectorsOf(projectors, key) + [projector]];
    }

    // ---------- Payloads ----------

    method Canonicalize(data: Value) returns (r: Outcome<(Value, string)>)
      ensures r == CanonicalObject(data)
    {
      if !data.Object? { return Err(InvalidEvent); }
      var encoded := EncodeJSONValue(data);
      if encoded.Err? { return Err(InvalidEvent); }
      var canonical := DecodeJSONValue(encoded.value);
      if canonical.Err? { return Err(InvalidEvent); }
      r := Ok((canonical.value, encoded.value));
    }

    method CloneMetadata(metadata: Option<map<string, Value>>) returns (r: Outcome<Option<map<string, Value>>>)
      ensures r == CanonicalMetadata(metadata)
    {
      if metadata.None? { return Ok(None); }
      var c := Canonicalize(Object(metadata.value));
      if c.Err? { return Err(c.error); }
      if !c.value.0.Object? { return Err(InvalidEvent); }
      r := Ok(Some(c.value.0.fields));
    }

    method PreparePayload(d: Definition, data: Value, metadata: Option<map<string, Value>>)
      returns (r: Outcome<Payload>)
      ensures r == PayloadOf(d, data, metadata)
    {
      hide CanonicalObject, CanonicalMetadata;
      var c := Canonicalize(data);
      if c.Err? { return Err(InvalidEvent); }
      var aggregate := if d.durable.None? then Ok("") else AggregateOf(d.durable.value.field, c.value.0);
      if aggregate.Err? { return Err(InvalidEvent); }
      var m := CloneMetadata(metadata);
      if m.Err? { return Err(InvalidEvent); }
      r := Ok(Payload(aggregate.value, c.value.0, c.value.1, m.value));
    }

    // ---------- Transactions ----------

    method RunProjectors(list: seq<Projector>, p: Projection, e: Envelope) returns (r: Option<Projection>)
      ensures r == ProjectAll(list, p, e)
    {
      var current := p;
      assert list[0..] == list;
      for i := 0 to |list|
        invariant ProjectAll(list[i..], current, e) == ProjectAll(list, p, e)
      {
        assert list[i..][0] == list[i] && list[i..][1..] == list[i + 1..];
        var next := list[i](current, e);
        if next.None? { return None; }
        current := next.value;
      }
      r := Some(current);
    }

    method Record(owner: string, row: StoredEvent, p: Projection) returns (r: Outcome<()>)
      modifies connection`working, connection`operations
      ensures match r
        case Ok(_) => Recorded(old(connection.working).(projection := p), owner, row) == Ok(connection.working)
        case Err(e) =>
          Recorded(old(connection.working).(projection := p), owner, row) == Err(e) ||
          (!connection.Reliable() && e == Storage)
    {
      connection.working := connection.working.(projection := p);
      r := connection.PutSequence(row.aggregate, SequenceState(row.sequence, owner));
      if r.Err? { return; }
      r := connection.InsertEvent(row);
    }

    method PublishIn(list: seq<Projector>, commit: Option<Hook>, key: string, version: Int64, e: Envelope,
                     payload: Payload)
      returns (r: Outcome<Envelope>)
      modifies connection`working, connection`operations
      ensures Worked(Published(old(connection.working), list, commit, key, version, e, payload), r)
    {
      hide FindID, Recorded;
      var known := connection.EventByID(e.id);
      if known.Err? { return Err(known.error); }
      if known.value { return Err(EventConflict); }
      var found := connection.Sequence(payload.aggregate);
      if found.Err? { return Err(found.error); }
      if LatestOf(found.value) == MAX_INT64 { return Err(EventConflict); }
      var placed := Placed(e, payload.aggregate, LatestOf(found.value) + 1, version);
      var p := RunProjectors(list, connection.working.projection, placed);
      if p.None? { return Err(Refused); }
      if commit.Some? {
        p := commit.value(p.value, placed.durable.value.sequence);
        if p.None? { return Err(Refused); }
      }
      var recorded := Record(OwnerOf(found.value), RowOf(placed, key, payload.encoded), p.value);
      if recorded.Err? { return Err(recorded.error); }
      r := Ok(placed);
    }

    method ReplayStale(row: StoredEvent, found: SequenceState, owner: string) returns (r: Outcome<bool>)
      modifies connection`working, connection`operations
      ensures Worked(Stale(old(connection.working), row, found, owner), r)
    {
      var stored := connection.EventAt(row.aggregate, row.sequence);
      if stored.Err? { return Err(stored.error); }
      if !SameRow(stored.value, row) { return Err(ReplayConflict); }
      if owner != "" && found.owner == "" {
        var put := connection.PutSequence(row.aggregate, found.(owner := owner));
        if put.Err? { return Err(put.error); }
      }
      r := Ok(false);
    }

    method ReplayFresh(list: seq<Projector>, e: Envelope, row: StoredEvent, owner: string) returns (r: Outcome<bool>)
      modifies connection`working, connection`operations
      ensures Worked(Fresh(old(connection.working), list, e, row, owner), r)
    {
      hide FindID, Recorded;
      var known := connection.EventByID(row.id);
      if known.Err? { return Err(known.error); }
      if known.value { return Err(EventConflict); }
      var p := RunProjectors(list, connection.working.projection, e);
      if p.None? { return Err(Refused); }
      var recorded := Record(owner, row, p.value);
      if recorded.Err? { return Err(recorded.error); }
      r := Ok(true);
    }

    method ReplayIn(list: seq<Projector>, e: Envelope, row: StoredEvent, options: ReplayOptions)
      returns (r: Outcome<bool>)
      modifies connection`working, connection`operations
      ensures Worked(Replayed(old(connection.working), list, e, row, options), r)
    {
      hide Stale, Fresh;
      var found := connection.Sequence(row.aggregate);
      if found.Err? { return Err(found.error); }
      var latest, owner := LatestOf(found.value), OwnerOf(found.value);
      var foreign := owner != "" && owner != options.owner;
      if options.strictOwner && foreign { return Err(OwnerConflict); }
      if row.sequence <= latest {
        r := ReplayStale(row, SequenceState(latest, owner), options.owner);
        return;
      }
      if foreign { return Ok(false); }
      if row.sequence != latest + 1 { return Err(SequenceConflict); }
      r := ReplayFresh(list, e, row, if owner == "" then options.owner else owner);
    }

    // ---------- Operations ----------

    method Notify(e: Envelope)
      modifies this`notified
      ensures notified == old(notified) + [e]
    {
      notified := notified + [e];
    }

    /** The write that publishes a durable event, and its notification. */
    method PublishDurable(key: string, version: Int64, e: Envelope, payload: Payload, commit: Option<Hook>)
      returns (r: Outcome<Envelope>)
      modifies this`notified, connection
      ensures var published :=
          Published(old(connection.committed), ProjectorsOf(projectors, key), commit, key, version, e, payload);
        if published.Ok? && r.Ok? then
          r.value == published.value.1 && connection.committed == published.value.0 &&
          notified == old(notified) + [r.value]
        else
          r.Err? && connection.committed == old(connection.committed) && notified == old(notified) &&
          (published == Err(r.error) || (!connection.Reliable() && r.error == Storage))
    {
      var begun := connection.Begin();
      if begun.Err? { return Err(begun.error); }
      r := PublishIn(ProjectorsOf(projectors, key), commit, key, version, e, payload);
      if r.Err? { return; }
      var committed := connection.Commit();
      if committed.Err? { return Err(committed.error); }
      Notify(r.value);
    }

    method Publish(d: Definition, data: Value, options: PublishOptions, generated: Option<string>)
      returns (r: Outcome<Envelope>)
      modifies this`definitions, this`notified, connection
      ensures Did(old(Abstract()), PublishStep(old(Abstract()), projectors, d, data, options, generated), r)
    {
      hide PayloadOf, Published;
      if !ValidDefinition(d) { return Err(InvalidDefinition); }
      var payload := PreparePayload(d, data, options.metadata);
      if payload.Err? { return Err(InvalidEvent); }
      if d.durable.None? && options.commit.Some? { return Err(InvalidEvent); }
      var bound := BindDefinition(d);
      if bound.Err? { return Err(bound.error); }
      var id := if options.id == "" then generated else Some(options.id);
      if id.None? { return Err(Refused); }
      if !IsEventID(id.value) { return Err(InvalidEvent); }
      var e := Envelope(id.value, d.name, payload.value.data, None, payload.value.metadata);
      if d.durable.None? {
        Notify(e);
        return Ok(e);
      }
      r := PublishDurable(VersionedType(d), d.durable.value.version, e, payload.value, options.commit);
    }

    method PrepareReplay(d: Definition, e: Envelope) returns (r: Outcome<(Envelope, string)>)
      ensures r == ReplayPayload(d, e)
    {
      hide PayloadOf;
      if !ValidDefinition(d) { return Err(InvalidDefinition); }
      if d.durable.None? || !IsEventID(e.id) || e.name != d.name { return Err(InvalidEvent); }
      if e.durable.None? || e.durable.value.sequence < 0 || e.durable.value.version != d.durable.value.version {
        return Err(InvalidEvent);
      }
      var payload := PreparePayload(d, e.data, e.metadata);
      if payload.Err? || payload.value.aggregate != e.durable.value.aggregate { return Err(InvalidEvent); }
      r := Ok((Envelope(e.id, e.name, payload.value.data, e.durable, payload.value.metadata), payload.value.encoded));
    }

    method ReplayDurable(key: string, e: Envelope, encoded: string, options: ReplayOptions) returns (r: Outcome<bool>)
      requires e.durable.Some?
      modifies this`notified, connection
      ensures Did(old(Abstract()), ReplayBound(old(Abstract()), projectors, key, e, encoded, options), r)
    {
      hide Replayed;
      var begun := connection.Begin();
      if begun.Err? { return Err(begun.error); }
      r := ReplayIn(ProjectorsOf(projectors, key), e, RowOf(e, key, encoded), options);
      if r.Err? { return; }
      var committed := connection.Commit();
      if committed.Err? { return Err(committed.error); }
      if r.value && options.publish { Notify(e); }
    }

    method Replay(d: Definition, e: Envelope, options: ReplayOptions) returns (r: Outcome<bool>)
      modifies this`definitions, this`notified, connection
      ensures Did(old(Abstract()), ReplayStep(old(Abstract()), projectors, d, e, options), r)
    {
      hide ReplayBound;
      var payload := PrepareReplay(d, e);
      if payload.Err? { return Err(payload.error); }
      var bound := BindDefinition(d);
      if bound.Err? { return Err(bound.error); }
      r := ReplayDurable(VersionedType(d), payload.value.0, payload.value.1, options);
    }

    method CheckChunk(entries: seq<ReplayEntry>) returns (error: Option<StoreError>)
      ensures error == ChunkError(entries, 0)
    {
      hide ReplayPayload;
      for i := 0 to |entries|
        invariant ChunkError(entries, i) == ChunkError(entries, 0)
      {
        var entry := entries[i];
        var payload := PrepareReplay(entry.definition, entry.event);
        if payload.Err? { return Some(payload.error); }
        var first, position := entries[0].event.durable, payload.value.0.durable.value;
        if first.Some? && position.aggregate != first.value.aggregate { return Some(InvalidEvent); }
        if first.Some? && position.sequence != first.value.sequence + i { return Some(SequenceConflict); }
      }
      error := None;
    }

    /** What replaying the first `n` entries leaves. */
    ghost predicate ReplayedFirst(bound: State, entries: seq<ReplayEntry>, options: ReplayOptions, n: nat)
      reads this, connection
    {
      n <= |entries| &&
      var (s, r) := ReplayEach(bound, projectors, entries[..n], options);
      r.Ok? && connection.committed == s.db && notified == s.notified
    }

    /** A storage failure leaves what replaying some first entries leaves, all definitions being bound: each entry
        is its own write. This is where `Replication.RetryReachesTheSameState` starts from. */
    method ReplayAll(entries: seq<ReplayEntry>, options: ReplayOptions) returns (r: Outcome<()>)
      modifies this`definitions, this`notified, connection
      ensures var before := old(Abstract());
        var spec := ReplayAllStep(before, projectors, entries, options);
        (Abstract() == spec.0 && r == spec.1) ||
        (!connection.Reliable() && r == Err(Storage) && ChunkBound(before, entries).Ok? &&
         exists n: nat :: ReplayedFirst(ChunkBound(before, entries).value, entries, options, n))
    {
      hide EntryError, ReplayStep;
      var error := CheckChunk(entries);
      if error.Some? { return Err(error.value); }
      ChunkDefinitionsValid(entries, 0);
      r := BindDefinitions(DefinitionsOf(entries));
      if r.Err? { return; }
      ghost var bound := Abstract();
      assert ChunkBound(old(Abstract()), entries) == Ok(bound);
      assert entries[..0] == [];
      for i := 0 to |entries|
        invariant ReplayEach(bound, projectors, entries[..i], options) == (Abstract(), Ok(()))
      {
        ReplayEachNext(bound, projectors, entries, i, options);
        var replayed := Replay(entries[i].definition, entries[i].event, options);
        if replayed.Err? {
          assert ReplayedFirst(bound, entries, options, i) ||
            Abstract() == ReplayEach(bound, projectors, entries, options).0;
          return Err(replayed.error);
        }
      }
      assert entries[..|entries|] == entries;
      r := Ok(());
    }

    method Claim(aggregate: string, owner: string) returns (r: Outcome<()>)
      modifies connection
      ensures Administered(old(Abstract()), ClaimTables(old(connection.committed), aggregate, owner), r)
    {
      if !Identity(aggregate) || !Identity(owner) { return Err(InvalidEvent); }
      var begun := connection.Begin();
      if begun.Err? { return Err(begun.error); }
      var found := connection.Sequence(aggregate);
      if found.Err? { return Err(found.error); }
      if found.value.Some? {
        r := connection.PutSequence(aggregate, found.value.value.(owner := owner));
        if r.Err? { return; }
      }
      r := connection.Commit();
    }

    method Remove(aggregate: string) returns (r: Outcome<()>)
      modifies connection
      ensures Administered(old(Abstract()), RemoveTables(old(connection.committed), aggregate), r)
    {
      if !Identity(aggregate) { return Err(InvalidEvent); }
      var begun := connection.Begin();
      if begun.Err? { return Err(begun.error); }
      r := connection.DeleteAggregate(aggregate);
      if r.Err? { return; }
      r := connection.Commit();
    }

    /** An operation on the tables alone. */
    ghost predicate Administered(before: State, spec: Outcome<Db>, r: Outcome<()>)
      reads this, connection
    {
      (spec.Ok? && r == Ok(()) && Abstract() == before.(db := spec.value)) ||
      (Abstract() == before && r.Err? && (spec == Err(r.error) || (!connection.Reliable() && r.error == Storage)))
    }
  }
}
