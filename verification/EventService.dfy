/** internal/event/service.go: publishing, replaying, claiming and removing aggregates. The functions say
    what each operation does to the service; the class carries them out against a connection whose
    statements may fail. */
module EventService {
  import opened Text
  import opened Json
  import opened JsonCodec
  import opened EventStore

  datatype Durable = Durable(version: Int64, field: string)

  datatype Definition = Definition(name: string, durable: Option<Durable>)

  datatype Position = Position(aggregate: string, sequence: Int64, version: Int64)

  datatype Envelope = Envelope(
    id: string, name: string, data: Value, durable: Option<Position>, metadata: Option<map<string, Value>>)

  type Projector = (Projection, Envelope) -> Option<Projection>

  type Hook = (Projection, Int64) -> Option<Projection>

  datatype PublishOptions = PublishOptions(id: string, metadata: Option<map<string, Value>>, commit: Option<Hook>)

  datatype ReplayOptions = ReplayOptions(owner: string, strictOwner: bool, publish: bool)

  datatype ReplayEntry = ReplayEntry(definition: Definition, event: Envelope)

  type Bindings = map<string, Definition>

  type Projectors = map<string, seq<Projector>>

  /** `notified` lists what was handed to observers, in order. */
  datatype State = State(definitions: Bindings, db: Db, notified: seq<Envelope>)

  // ---------- Definitions ----------

  function Decimal(n: nat): (t: string) {
    (if n < 10 then "" else Decimal(n / 10)) + [('0' as int + n % 10) as char]
  }

  predicate ValidDefinition(d: Definition) {
    Identity(d.name) && (d.durable.Some? ==> d.durable.value.version > 0 && Identity(d.durable.value.field))
  }

  function VersionedType(d: Definition): (name: string)
    requires ValidDefinition(d)
  {
    if d.durable.None? then d.name else d.name + "." + Decimal(d.durable.value.version)
  }

  function Bind(definitions: Bindings, d: Definition): (r: Outcome<Bindings>)
    requires ValidDefinition(d)
  {
    var key := VersionedType(d);
    if key in definitions && definitions[key] != d then Err(InvalidDefinition) else Ok(definitions[key := d])
  }

  function BindAll(definitions: Bindings, list: seq<Definition>): (r: Outcome<Bindings>)
    requires forall d | d in list :: ValidDefinition(d)
    decreases |list|
  {
    if list == [] then Ok(definitions)
    else
      var first := Bind(definitions, list[0]);
      if first.Err? then first else BindAll(first.value, list[1..])
  }

  // ---------- Payloads ----------

  /** `canonicalObject`: the decoded canonical bytes, and the bytes. */
  ghost function CanonicalObject(data: Value): (r: Outcome<(Value, string)>) {
    if !data.Object? || Encode(data).Err? || Decode(Encode(data).value).Err? then Err(InvalidEvent)
    else Ok((Decode(Encode(data).value).value, Encode(data).value))
  }

  ghost function CanonicalMetadata(metadata: Option<map<string, Value>>): (r: Outcome<Option<map<string, Value>>>) {
    if metadata.None? then Ok(None)
    else
      var c := CanonicalObject(Object(metadata.value));
      if c.Err? then Err(c.error)
      else if !c.value.0.Object? then Err(InvalidEvent)
      else Ok(Some(c.value.0.fields))
  }

  /** The aggregate a durable payload names. */
  function AggregateOf(field: string, data: Value): (r: Outcome<string>) {
    if data.Object? && field in data.fields && data.fields[field].String? && data.fields[field].text != ""
    then Ok(data.fields[field].text)
    else Err(InvalidEvent)
  }

  datatype Payload = Payload(aggregate: string, data: Value, encoded: string, metadata: Option<map<string, Value>>)

  ghost function PayloadOf(d: Definition, data: Value, metadata: Option<map<string, Value>>): (r: Outcome<Payload>) {
    var c, m := CanonicalObject(data), CanonicalMetadata(metadata);
    if c.Err? || m.Err? then Err(InvalidEvent)
    else
      var aggregate := if d.durable.None? then Ok("") else AggregateOf(d.durable.value.field, c.value.0);
      if aggregate.Err? then Err(InvalidEvent)
      else Ok(Payload(aggregate.value, c.value.0, c.value.1, m.value))
  }

  // ---------- Transactions ----------

  function ProjectAll(projectors: seq<Projector>, p: Projection, e: Envelope): (r: Option<Projection>) {
    if projectors == [] then Some(p)
    else
      var first := projectors[0](p, e);
      if first.None? then None else ProjectAll(projectors[1..], first.value, e)
  }

  function RowOf(e: Envelope, key: string, encoded: string): (row: StoredEvent)
    requires e.durable.Some?
  {
    StoredEvent(e.id, e.durable.value.aggregate, e.durable.value.sequence, key, encoded)
  }

  /** The sequence row, then the event row. */
  ghost function Recorded(db: Db, owner: string, row: StoredEvent): (r: Outcome<Db>) {
    var put := SequencePut(db, row.aggregate, SequenceState(row.sequence, owner));
    if put.Err? then put else EventInserted(put.value, row)
  }

  function LatestOf(found: Option<SequenceState>): (latest: Int64) {
    if found.Some? then found.value.latest else -1
  }

  function OwnerOf(found: Option<SequenceState>): (owner: string) {
    if found.Some? then found.value.owner else ""
  }

  function Placed(e: Envelope, aggregate: string, sequence: Int64, version: Int64): (r: Envelope) {
    e.(durable := Some(Position(aggregate, sequence, version)))
  }

  /** The projections as one event leaves them, the commit hook last. */
  function Projected(projectors: seq<Projector>, commit: Option<Hook>, p: Projection, e: Envelope)
    : (r: Option<Projection>)
    requires e.durable.Some?
  {
    var projected := ProjectAll(projectors, p, e);
    if projected.Some? && commit.Some? then commit.value(projected.value, e.durable.value.sequence) else projected
  }

  /** The transaction of `Publish`. */
  ghost function Published(db: Db, projectors: seq<Projector>, commit: Option<Hook>, key: string, version: Int64,
                           e: Envelope, payload: Payload): (r: Outcome<(Db, Envelope)>) {
    var known, found := FindID(db, e.id), FindSequence(db, payload.aggregate);
    if known.Err? then Err(known.error)
    else if known.value then Err(EventConflict)
    else if found.Err? then Err(found.error)
    else if LatestOf(found.value) == MAX_INT64 then Err(EventConflict)
    else
      var placed := Placed(e, payload.aggregate, LatestOf(found.value) + 1, version);
      var projected := Projected(projectors, commit, db.projection, placed);
      if projected.None? then Err(Refused)
      else
        var recorded :=
          Recorded(db.(projection := projected.value), OwnerOf(found.value), RowOf(placed, key, payload.encoded));
        if recorded.Err? then Err(recorded.error) else Ok((recorded.value, placed))
  }

  predicate SameRow(stored: Option<StoredEvent>, row: StoredEvent) {
    stored.Some? && stored.value.id == row.id && stored.value.name == row.name && stored.value.data == row.data
  }

  /** An event the aggregate already holds: it must be the same, and may bring the first owner. */
  function Stale(db: Db, row: StoredEvent, found: SequenceState, owner: string): (r: Outcome<(Db, bool)>) {
    var stored := FindAt(db, row.aggregate, row.sequence);
    if stored.Err? then Err(stored.error)
    else if !SameRow(stored.value, row) then Err(ReplayConflict)
    else if owner != "" && found.owner == "" then
      var put := SequencePut(db, row.aggregate, found.(owner := owner));
      if put.Err? then Err(put.error) else Ok((put.value, false))
    else Ok((db, false))
  }

  /** An event that continues the aggregate. */
  ghost function Fresh(db: Db, projectors: seq<Projector>, e: Envelope, row: StoredEvent, owner: string)
    : (r: Outcome<(Db, bool)>) {
    var known := FindID(db, row.id);
    if known.Err? then Err(known.error)
    else if known.value then Err(EventConflict)
    else
      var projected := ProjectAll(projectors, db.projection, e);
      if projected.None? then Err(Refused)
      else
        var recorded := Recorded(db.(projection := projected.value), owner, row);
        if recorded.Err? then Err(recorded.error) else Ok((recorded.value, true))
  }

  /** The transaction of `Replay`: the tables it leaves, and whether it added a row. */
  ghost function Replayed(db: Db, projectors: seq<Projector>, e: Envelope, row: StoredEvent, options: ReplayOptions)
    : (r: Outcome<(Db, bool)>) {
    var found := FindSequence(db, row.aggregate);
    if found.Err? then Err(found.error)
    else
      var latest, owner := LatestOf(found.value), OwnerOf(found.value);
      var foreign := owner != "" && owner != options.owner;
      if options.strictOwner && foreign then Err(OwnerConflict)
      else if row.sequence <= latest then
        Stale(db, row, SequenceState(latest, owner), options.owner)
      else if foreign then Ok((db, false))
      else if row.sequence != latest + 1 then Err(SequenceConflict)
      else Fresh(db, projectors, e, row, if owner == "" then options.owner else owner)
  }

  // ---------- Operations ----------

  function ProjectorsOf(projectors: Projectors, key: string): (r: seq<Projector>) {
    if key in projectors then projectors[key] else []
  }

  /** Where a publication gets to once its payload is canonical and its definition bound. */
  ghost function PublishedBy(s: State, projectors: Projectors, d: Definition, payload: Payload,
                             options: PublishOptions, generated: Option<string>): (r: (State, Outcome<Envelope>))
    requires ValidDefinition(d)
  {
    var id := if options.id == "" then generated else Some(options.id);
    if id.None? then (s, Err(Refused))
    else if !IsEventID(id.value) then (s, Err(InvalidEvent))
    else
      var e := Envelope(id.value, d.name, payload.data, None, payload.metadata);
      if d.durable.None? then (s.(notified := s.notified + [e]), Ok(e))
      else
        var key := VersionedType(d);
        var published :=
          Published(s.db, ProjectorsOf(projectors, key), options.commit, key, d.durable.value.version, e, payload);
        if published.Err? then (s, Err(published.error))
        else
          (s.(db := published.value.0, notified := s.notified + [published.value.1]), Ok(published.value.1))
  }

  /** `Publish`. A definition stays bound even when the write fails. */
  ghost function PublishStep(s: State, projectors: Projectors, d: Definition, data: Value, options: PublishOptions,
                             generated: Option<string>): (r: (State, Outcome<Envelope>)) {
    if !ValidDefinition(d) then (s, Err(InvalidDefinition))
    else
      var payload := PayloadOf(d, data, options.metadata);
      if payload.Err? || (d.durable.None? && options.commit.Some?) then (s, Err(InvalidEvent))
      else
        var bound := Bind(s.definitions, d);
        if bound.Err? then (s, Err(bound.error))
        else PublishedBy(s.(definitions := bound.value), projectors, d, payload.value, options, generated)
  }

  /** The checks of `Replay` before it opens a transaction: the event to record, and its bytes. */
  ghost function ReplayPayload(d: Definition, e: Envelope): (r: Outcome<(Envelope, string)>)
    ensures r.Ok? ==> ValidDefinition(d) && e.durable.Some? && r.value.0.durable == e.durable && r.value.0.id == e.id
  {
    if !ValidDefinition(d) then Err(InvalidDefinition)
    else if d.durable.None? || !IsEventID(e.id) || e.name != d.name then Err(InvalidEvent)
    else if e.durable.None? || e.durable.value.sequence < 0 || e.durable.value.version != d.durable.value.version
    then Err(InvalidEvent)
    else
      var payload := PayloadOf(d, e.data, e.metadata);
      if payload.Err? || payload.value.aggregate != e.durable.value.aggregate then Err(InvalidEvent)
      else Ok((Envelope(e.id, e.name, payload.value.data, e.durable, payload.value.metadata), payload.value.encoded))
  }

  /** `Replay`. */
  ghost function ReplayStep(s: State, projectors: Projectors, d: Definition, e: Envelope, options: ReplayOptions)
    : (r: (State, Outcome<bool>)) {
    var payload := ReplayPayload(d, e);
    if payload.Err? then (s, Err(payload.error))
    else
      var bound := Bind(s.definitions, d);
      if bound.Err? then (s, Err(bound.error))
      else
        ReplayBound(s.(definitions := bound.value), projectors, VersionedType(d), payload.value.0,
                    payload.value.1, options)
  }

  ghost function ReplayBound(s: State, projectors: Projectors, key: string, e: Envelope, encoded: string,
                             options: ReplayOptions): (r: (State, Outcome<bool>))
    requires e.durable.Some?
  {
    var replayed := Replayed(s.db, ProjectorsOf(projectors, key), e, RowOf(e, key, encoded), options);
    if replayed.Err? then (s, Err(replayed.error))
    else
      var (db, inserted) := replayed.value;
      (s.(db := db, notified := if inserted && options.publish then s.notified + [e] else s.notified), Ok(inserted))
  }

  /** Entry `i` of a chunk: well formed, of the chunk's aggregate, and next in sequence. */
  ghost function EntryError(entries: seq<ReplayEntry>, i: nat): (r: Option<StoreError>)
    requires i < |entries|
  {
    var entry := entries[i];
    var payload := ReplayPayload(entry.definition, entry.event);
    if payload.Err? then Some(payload.error)
    else
      var first := entries[0].event.durable;
      var position := payload.value.0.durable.value;
      if first.Some? && position.aggregate != first.value.aggregate then Some(InvalidEvent)
      else if first.Some? && position.sequence != first.value.sequence + i then Some(SequenceConflict)
      else None
  }

  ghost function ChunkError(entries: seq<ReplayEntry>, i: nat): (r: Option<StoreError>)
    requires i <= |entries|
    decreases |entries| - i
  {
    if i == |entries| then None
    else if EntryError(entries, i).Some? then EntryError(entries, i)
    else ChunkError(entries, i + 1)
  }

  /** Replaying entry after entry up to the first failure. */
  ghost function ReplayEach(s: State, projectors: Projectors, entries: seq<ReplayEntry>, options: ReplayOptions)
    : (r: (State, Outcome<()>))
    decreases |entries|
  {
    if entries == [] then (s, Ok(()))
    else
      var (s1, first) := ReplayStep(s, projectors, entries[0].definition, entries[0].event, options);
      if first.Err? then (s1, Err(first.error)) else ReplayEach(s1, projectors, entries[1..], options)
  }

  function DefinitionsOf(entries: seq<ReplayEntry>): (list: seq<Definition>) {
    seq(|entries|, i requires 0 <= i < |entries| => entries[i].definition)
  }

  /** The whole chunk is checked and its definitions bound before any entry is replayed. */
  ghost function ChunkBound(s: State, entries: seq<ReplayEntry>): (r: Outcome<State>) {
    var error := ChunkError(entries, 0);
    if error.Some? then Err(error.value)
    else
      ChunkDefinitionsValid(entries, 0);
      var bound := BindAll(s.definitions, DefinitionsOf(entries));
      if bound.Err? then Err(bound.error) else Ok(s.(definitions := bound.value))
  }

  /** `ReplayAll`. */
  ghost function ReplayAllStep(s: State, projectors: Projectors, entries: seq<ReplayEntry>, options: ReplayOptions)
    : (r: (State, Outcome<()>)) {
    var bound := ChunkBound(s, entries);
    if bound.Err? then (s, Err(bound.error)) else ReplayEach(bound.value, projectors, entries, options)
  }

  lemma {:induction false} ChunkDefinitionsValid(entries: seq<ReplayEntry>, i: nat)
    requires i <= |entries| && ChunkError(entries, i).None?
    ensures forall j | i <= j < |entries| :: ValidDefinition(entries[j].definition)
    decreases |entries| - i
  {
    hide EntryError, ValidDefinition, Identity, PayloadOf, ReplayPayload;
    if i < |entries| {
      EntryDefinitionValid(entries, i);
      ChunkDefinitionsValid(entries, i + 1);
    }
  }

  lemma EntryDefinitionValid(entries: seq<ReplayEntry>, i: nat)
    requires i < |entries| && EntryError(entries, i).None?
    ensures ValidDefinition(entries[i].definition)
  {
    hide PayloadOf;
  }

  /** `Claim`. */
  function ClaimTables(db: Db, aggregate: string, owner: string): (r: Outcome<Db>) {
    if !Identity(aggregate) || !Identity(owner) then Err(InvalidEvent)
    else
      var found := FindSequence(db, aggregate);
      if found.Err? then Err(found.error)
      else if found.value.None? then Ok(db)
      else SequencePut(db, aggregate, found.value.value.(owner := owner))
  }

  /** `Remove`. */
  function RemoveTables(db: Db, aggregate: string): (r: Outcome<Db>) {
    if !Identity(aggregate) then Err(InvalidEvent) else AggregateDeleted(db, aggregate)
  }

  lemma {:induction false} ReplayEachAppend(s: State, projectors: Projectors, a: seq<ReplayEntry>, b: seq<ReplayEntry>,
                                            options: ReplayOptions)
    ensures var (s1, first) := ReplayEach(s, projectors, a, options);
      ReplayEach(s, projectors, a + b, options) ==
        if first.Err? then (s1, first) else ReplayEach(s1, projectors, b, options)
    decreases |a|
  {
    hide ReplayStep;
    if a == [] {
      assert a + b == b;
    } else {
      assert (a + b)[0] == a[0] && (a + b)[1..] == a[1..] + b;
      var (s1, first) := ReplayStep(s, projectors, a[0].definition, a[0].event, options);
      if first.Ok? { ReplayEachAppend(s1, projectors, a[1..], b, options); }
    }
  }

  /** One entry after those before it. */
  lemma ReplayEachNext(s: State, projectors: Projectors, entries: seq<ReplayEntry>, i: nat, options: ReplayOptions)
    requires i < |entries| && ReplayEach(s, projectors, entries[..i], options).1.Ok?
    ensures var s1 := ReplayEach(s, projectors, entries[..i], options).0;
      var (s2, r) := ReplayStep(s1, projectors, entries[i].definition, entries[i].event, options);
      ReplayEach(s, projectors, entries[..i + 1], options) == (s2, if r.Err? then Err(r.error) else Ok(())) &&
      (r.Err? ==> ReplayEach(s, projectors, entries, options) == (s2, Err(r.error)))
  {
    hide *;
    var front, one := entries[..i], [entries[i]];
    assert entries[..i + 1] == front + one && entries == front + entries[i..];
    ReplayEachAppend(s, projectors, front, one, options);
    ReplayEachAppend(s, projectors, front, entries[i..], options);
    var s1 := ReplayEach(s, projectors, front, options).0;
    ReplayOne(s1, projectors, one, options);
    ReplayHead(s1, projectors, entries[i..], options);
  }

  lemma ReplayOne(s: State, projectors: Projectors, one: seq<ReplayEntry>, options: ReplayOptions)
    requires |one| == 1
    ensures var (s1, r) := ReplayStep(s, projectors, one[0].definition, one[0].event, options);
      ReplayEach(s, projectors, one, options) == (s1, if r.Err? then Err(r.error) else Ok(()))
  {
    hide ReplayStep;
    assert one[1..] == [];
  }

  lemma ReplayHead(s: State, projectors: Projectors, entries: seq<ReplayEntry>, options: ReplayOptions)
    requires entries != []
    ensures var (s1, r) := ReplayStep(s, projectors, entries[0].definition, entries[0].event, options);
      r.Err? ==> ReplayEach(s, projectors, entries, options) == (s1, Err(r.error))
  {
    hide ReplayStep;
  }
}
