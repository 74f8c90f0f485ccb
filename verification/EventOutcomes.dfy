/** internal/event/service.go: what publishing, replaying and claiming come to, said of the logs and observers
    alone: exactly when each succeeds, and what is there afterwards. */
module EventOutcomes {
  import opened Text
  import opened EventStore
  import opened EventService
  import opened EventLog
  import opened Convergence
  import Json
  import JsonProofs

  // ---------- Requests ----------

  ghost predicate EncodesAsObject(fields: map<string, Json.Value>) {
    Json.Valid(Json.Object(fields)) && Json.Fits(Json.Object(fields), 0)
  }

  /** Every field with its negative zeros written "0". */
  ghost function NormalFields(fields: map<string, Json.Value>): (r: map<string, Json.Value>) {
    map k | k in fields :: Json.Normalize(fields[k])
  }

  /** Metadata as an envelope carries it. */
  ghost function StoredMetadata(metadata: Option<map<string, Json.Value>>): (r: Option<map<string, Json.Value>>) {
    if metadata.None? then None else Some(NormalFields(metadata.value))
  }

  /** A non-empty string under the aggregate field names the aggregate. */
  predicate Names(fields: map<string, Json.Value>, field: string, a: string) {
    field in fields && fields[field] == Json.String(a) && a != ""
  }

  predicate MayBind(definitions: Bindings, d: Definition)
    requires ValidDefinition(d)
  {
    VersionedType(d) in definitions ==> definitions[VersionedType(d)] == d
  }

  /** A payload and metadata that encode. */
  ghost predicate Encodes(fields: map<string, Json.Value>, metadata: Option<map<string, Json.Value>>) {
    EncodesAsObject(fields) && (metadata.Some? ==> EncodesAsObject(metadata.value))
  }

  /** The projection once every projector and the commit hook have accepted the event at its position. */
  function AcceptedProjection(projectors: seq<Projector>, commit: Option<Hook>, p: Projection, e: Envelope,
    sequence: Int64)
    : (r: Option<Projection>)
  {
    var projected := ProjectAll(projectors, p, e);
    if projected.None? || commit.None? then projected else commit.value(projected.value, sequence)
  }

  lemma CanonicalOf(fields: map<string, Json.Value>)
    ensures var r := CanonicalObject(Json.Object(fields));
      if EncodesAsObject(fields)
      then
        Json.Encode(Json.Object(fields)).Ok? &&
        r == Ok((Json.Object(NormalFields(fields)), Json.Encode(Json.Object(fields)).value))
      else r.Err?
  {
    var v := Json.Object(fields);
    assert Json.Normalize(v) == Json.Object(NormalFields(fields));
    if EncodesAsObject(fields) { JsonProofs.RoundTrip(v); }
    hide Json.Valid, Json.Fits, Json.Normalize, Json.Encoding, Json.Decode, NormalFields;
  }

  lemma StringNormal(v: Json.Value, a: string)
    ensures Json.Normalize(v) == Json.String(a) <==> v == Json.String(a)
  {
  }

  lemma NormalAggregate(fields: map<string, Json.Value>, field: string)
    ensures var r := AggregateOf(field, Json.Object(NormalFields(fields)));
      (r.Ok? <==> Named(fields, field)) && (r.Ok? ==> Names(fields, field, r.value))
  {
    if field in fields {
      var v := NormalFields(fields)[field];
      if v.String? { StringNormal(fields[field], v.text); }
      if fields[field].String? { StringNormal(fields[field], fields[field].text); }
    }
  }

  predicate Named(fields: map<string, Json.Value>, field: string) {
    field in fields && fields[field].String? && fields[field].text != ""
  }

  /** What a request's payload amounts to. */
  lemma PayloadIs(d: Definition, fields: map<string, Json.Value>, metadata: Option<map<string, Json.Value>>)
    ensures var r := PayloadOf(d, Json.Object(fields), metadata);
      var named := d.durable.Some? ==> Named(fields, d.durable.value.field);
      if Encodes(fields, metadata) && named
      then
        r.Ok? && r.value.data == Json.Object(NormalFields(fields)) &&
          Json.Encode(Json.Object(fields)) == Ok(r.value.encoded) &&
        r.value.metadata == StoredMetadata(metadata) &&
        (d.durable.Some? ==> Names(fields, d.durable.value.field, r.value.aggregate))
      else r.Err?
  {
    CanonicalOf(fields);
    if metadata.Some? { CanonicalOf(metadata.value); }
    if d.durable.Some? { NormalAggregate(fields, d.durable.value.field); }
    hide CanonicalObject, EncodesAsObject, NormalFields, Json.Encode, Named, AggregateOf;
  }

  // ---------- Tables ----------

  /** The tables with one more row: its aggregate one longer, with this owner, and this projection. */
  function WithRow(db: Db, row: StoredEvent, owner: string, p: Projection): (after: Db) {
    Db(db.sequences[row.aggregate := SequenceState(row.sequence, owner)],
       db.events[Key(row.aggregate, row.sequence) := row], p)
  }

  lemma FoundIs(db: Db, a: string)
    requires LogInv(db)
    ensures var found := FindSequence(db, a);
      (found.Ok? <==> StoreIdentity(a)) &&
      (found.Ok? ==>
         LatestOf(found.value) == LatestIn(db, a) && OwnerOf(found.value) == OwnerIn(db, a) &&
         LatestIn(db, a) >= -1 && (OwnerIn(db, a) != "" ==> StoreIdentity(OwnerIn(db, a))))
    ensures a in db.sequences ==> StoreIdentity(a)
  {
    if a in db.sequences { assert WholeLog(db, a); }
    hide LogInv, StoreIdentity;
  }

  lemma NextIsFree(db: Db, row: StoredEvent)
    requires LogInv(db) && row.sequence as int == LatestIn(db, row.aggregate) + 1
    ensures Key(row.aggregate, row.sequence) !in db.events
  {
    if row.aggregate in db.sequences { assert WholeLog(db, row.aggregate); } else { NoRowsOutside(db, row.aggregate); }
  }

  lemma RecordedIs(db: Db, row: StoredEvent, owner: string, p: Projection)
    requires LogInv(db) && row.sequence as int == LatestIn(db, row.aggregate) + 1 && row.sequence >= 0
    requires StoreIdentity(row.aggregate) && CanonicalObjectText(row.data) && StoredEventID(row.id) &&
      !HasID(db, row.id)
    ensures var r := Recorded(db.(projection := p), owner, row);
      if StoreIdentity(row.name) && (owner != "" ==> StoreIdentity(owner)) then r == Ok(WithRow(db, row, owner, p))
      else r.Err?
  {
    NextIsFree(db, row);
    hide LogInv, CanonicalObjectText, StoreIdentity, HasID, LatestIn;
    var put := SequencePut(db.(projection := p), row.aggregate, SequenceState(row.sequence, owner));
    if put.Ok? { SameIDs(db, put.value, row.id); }
  }

  lemma EncodedIsCanonical(fields: map<string, Json.Value>)
    requires EncodesAsObject(fields)
    ensures Json.Encode(Json.Object(fields)).Ok? && CanonicalObjectText(Json.Encode(Json.Object(fields)).value)
  {
    JsonProofs.RoundTrip(Json.Object(fields));
    var t := Json.Encode(Json.Object(fields)).value;
    assert exists v :: Json.Encode(v) == Ok(t);
    JsonProofs.CanonicalTextsAreEncodings(t);
    assert Json.Normalize(Json.Object(fields)).Object?;
  }

  // ---------- Publishing ----------

  function ChosenID(options: PublishOptions, generated: Option<string>): (id: Option<string>) {
    if options.id == "" then generated else Some(options.id)
  }

  /** The event that a publication records: next in its aggregate's log. */
  ghost function NextEvent(db: Db, d: Definition, fields: map<string, Json.Value>, options: PublishOptions, id: string,
                           a: string): (e: Envelope)
    requires d.durable.Some? && LatestIn(db, a) < MAX_INT64
  {
    Envelope(id, d.name, Json.Object(NormalFields(fields)),
             Some(Position(a, LatestIn(db, a) + 1, d.durable.value.version)), StoredMetadata(options.metadata))
  }

  /** The row that records an event under a definition. */
  ghost function RowFor(d: Definition, fields: map<string, Json.Value>, id: string, a: string, sequence: Int64)
    : (row: StoredEvent)
    requires ValidDefinition(d) && EncodesAsObject(fields)
  {
    StoredEvent(id, a, sequence, VersionedType(d), Json.Encode(Json.Object(fields)).value)
  }

  lemma PublishedUnfolds(db: Db, list: seq<Projector>, commit: Option<Hook>, key: string, version: Int64, e: Envelope,
                         payload: Payload, placed: Envelope, row: StoredEvent, owner: string)
    requires FindID(db, e.id) == Ok(false) && FindSequence(db, payload.aggregate).Ok?
    requires LatestOf(FindSequence(db, payload.aggregate).value) < MAX_INT64
    requires OwnerOf(FindSequence(db, payload.aggregate).value) == owner
    requires row == StoredEvent(e.id, payload.aggregate, LatestOf(FindSequence(db, payload.aggregate).value) + 1, key,
                                payload.encoded)
    requires placed == e.(durable := Some(Position(payload.aggregate, row.sequence, version)))
    ensures var q := AcceptedProjection(list, commit, db.projection, placed, row.sequence);
      var r := Published(db, list, commit, key, version, e, payload);
      if q.None? then r == Err(Refused)
      else
        var recorded := Recorded(db.(projection := q.value), owner, row);
        recorded.Ok? ==> r == Ok((recorded.value, placed))
  {
    hide FindID, FindSequence, LatestOf, OwnerOf, ProjectAll, Recorded;
  }

  lemma PublishedGoes(db: Db, list: seq<Projector>, commit: Option<Hook>, key: string, version: Int64, e: Envelope,
                      payload: Payload, placed: Envelope, row: StoredEvent)
    requires LogInv(db) && CanonicalObjectText(payload.encoded)
    requires StoredEventID(e.id) && StoreIdentity(payload.aggregate) && StoreIdentity(key) && !HasID(db, e.id)
    requires LatestIn(db, payload.aggregate) < MAX_INT64
    requires row == StoredEvent(e.id, payload.aggregate, LatestIn(db, payload.aggregate) + 1, key, payload.encoded)
    requires placed == e.(durable := Some(Position(payload.aggregate, row.sequence, version)))
    ensures var q := AcceptedProjection(list, commit, db.projection, placed, row.sequence);
      var r := Published(db, list, commit, key, version, e, payload);
      if q.None? then r == Err(Refused)
      else r == Ok((WithRow(db, row, OwnerIn(db, payload.aggregate), q.value), placed))
  {
    hide *;
    FoundIs(db, payload.aggregate);
    FindIDIs(db, e.id);
    PublishedUnfolds(db, list, commit, key, version, e, payload, placed, row, OwnerIn(db, payload.aggregate));
    var q := AcceptedProjection(list, commit, db.projection, placed, row.sequence);
    if q.Some? { RecordedIs(db, row, OwnerIn(db, payload.aggregate), q.value); }
  }

  lemma PublishedFails(db: Db, list: seq<Projector>, commit: Option<Hook>, key: string, version: Int64, e: Envelope,
                       payload: Payload)
    requires LogInv(db)
    requires !StoredEventID(e.id) || !StoreIdentity(payload.aggregate) || !StoreIdentity(key) || HasID(db, e.id) ||
      LatestIn(db, payload.aggregate) >= MAX_INT64
    ensures Published(db, list, commit, key, version, e, payload).Err?
  {
    FoundIs(db, payload.aggregate);
    FindIDIs(db, e.id);
    hide LogInv, Projected, StoredEventID, HasID, FindID, FindSequence, LatestIn, CanonicalObjectText, StoreIdentity;
  }

  lemma FindIDIs(db: Db, id: string)
    ensures FindID(db, id) == if StoredEventID(id) then Ok(HasID(db, id)) else Err(InvalidInput)
  {
  }

  lemma PublishedByIs(s: State, projectors: Projectors, d: Definition, payload: Payload, options: PublishOptions,
                      generated: Option<string>)
    requires LogInv(s.db) && ValidDefinition(d) && d.durable.Some? && CanonicalObjectText(payload.encoded)
    ensures var (s1, r) := PublishedBy(s, projectors, d, payload, options, generated);
      var id, a, key := ChosenID(options, generated), payload.aggregate, VersionedType(d);
      if id.None? || !StoredEventID(id.value) || !StoreIdentity(a) || !StoreIdentity(key) || HasID(s.db, id.value) ||
         LatestIn(s.db, a) >= MAX_INT64
      then s1 == s && r.Err?
      else
        var e := Envelope(id.value, d.name, payload.data,
                          Some(Position(a, LatestIn(s.db, a) + 1, d.durable.value.version)), payload.metadata);
        var q := AcceptedProjection(ProjectorsOf(projectors, key), options.commit, s.db.projection, e,
          LatestIn(s.db, a) + 1);
        if q.None? then s1 == s && r.Err?
        else
          r == Ok(e) &&
          s1 == s.(db := WithRow(s.db, RowOf(e, key, payload.encoded), OwnerIn(s.db, a), q.value),
                   notified := s.notified + [e])
  {
    hide LogInv, StoreIdentity, HasID, Published, LatestIn, OwnerIn, CanonicalObjectText, AcceptedProjection, WithRow,
      VersionedType, ValidDefinition;
    var id := ChosenID(options, generated);
    if id.Some? {
      var e, key := Envelope(id.value, d.name, payload.data, None, payload.metadata), VersionedType(d);
      var list, version := ProjectorsOf(projectors, key), d.durable.value.version;
      if StoredEventID(id.value) && StoreIdentity(payload.aggregate) && StoreIdentity(key) && !HasID(s.db, id.value) &&
         LatestIn(s.db, payload.aggregate) < MAX_INT64 {
        FoundIs(s.db, payload.aggregate);
        var placed := e.(durable := Some(Position(payload.aggregate, LatestIn(s.db, payload.aggregate) + 1, version)));
        PublishedGoes(s.db, list, options.commit, key, version, e, payload, placed,
          RowOf(placed, key, payload.encoded));
      } else {
        PublishedFails(s.db, list, options.commit, key, version, e, payload);
      }
    }
  }

  /** What a durable publication needs: a payload that encodes and names an aggregate, a free binding, a proper
      unused id, and room in the log. */
  ghost predicate CanPublish(s: State, d: Definition, fields: map<string, Json.Value>, options: PublishOptions,
    id: string,
                             a: string)
    requires ValidDefinition(d) && d.durable.Some?
  {
    Encodes(fields, options.metadata) && Names(fields, d.durable.value.field, a) && MayBind(s.definitions, d) &&
    StoredEventID(id) && StoreIdentity(a) && StoreIdentity(VersionedType(d)) && !HasID(s.db, id) &&
    LatestIn(s.db, a) < MAX_INT64
  }

  /** The projection that a publication would leave; `None` when a projector or the hook refuses. */
  ghost function ProjectionAfter(s: State, projectors: Projectors, d: Definition, fields: map<string, Json.Value>,
                                 options: PublishOptions, id: string, a: string): (q: Option<Projection>)
    requires ValidDefinition(d) && d.durable.Some? && LatestIn(s.db, a) < MAX_INT64
  {
    AcceptedProjection(ProjectorsOf(projectors, VersionedType(d)), options.commit, s.db.projection,
                       NextEvent(s.db, d, fields, options, id, a), LatestIn(s.db, a) + 1)
  }

  lemma PublishSucceeds(s: State, projectors: Projectors, d: Definition, fields: map<string, Json.Value>,
                        options: PublishOptions, generated: Option<string>, id: string, a: string)
    requires LogInv(s.db) && ValidDefinition(d) && d.durable.Some? && ChosenID(options, generated) == Some(id)
    requires CanPublish(s, d, fields, options, id, a)
    ensures var (s1, r) := PublishStep(s, projectors, d, Json.Object(fields), options, generated);
      var q := ProjectionAfter(s, projectors, d, fields, options, id, a);
      if q.Some? then
        var e, row := NextEvent(s.db, d, fields, options, id, a), RowFor(d, fields, id, a, LatestIn(s.db, a) + 1);
        r == Ok(e) &&
        s1 == State(s.definitions[VersionedType(d) := d], WithRow(s.db, row, OwnerIn(s.db, a), q.value),
          s.notified + [e])
      else r.Err? && s1.db == s.db && s1.notified == s.notified
  {
    hide *;
    CanPublishMeans(s, d, fields, options, id, a);
    PayloadIs(d, fields, options.metadata);
    EncodedIsCanonical(fields);
    var payload := PayloadOf(d, Json.Object(fields), options.metadata).value;
    var bound := s.(definitions := s.definitions[VersionedType(d) := d]);
    PublishUnfolds(s, projectors, d, Json.Object(fields), options, generated);
    OneName(fields, d.durable.value.field, payload.aggregate, a);
    PublishedByIs(bound, projectors, d, payload, options, generated);
    NextIs(s, projectors, d, fields, options, id, a, payload);
  }

  lemma CanPublishMeans(s: State, d: Definition, fields: map<string, Json.Value>, options: PublishOptions, id: string,
                        a: string)
    requires ValidDefinition(d) && d.durable.Some? && CanPublish(s, d, fields, options, id, a)
    ensures Encodes(fields, options.metadata) && EncodesAsObject(fields) && Names(fields, d.durable.value.field, a)
    ensures Named(fields, d.durable.value.field) && MayBind(s.definitions, d)
    ensures StoredEventID(id) && StoreIdentity(a) && StoreIdentity(VersionedType(d)) && !HasID(s.db, id)
    ensures LatestIn(s.db, a) < MAX_INT64
  {
    hide StoreIdentity, HasID, VersionedType, EncodesAsObject, StoredEventID;
  }

  lemma OneName(fields: map<string, Json.Value>, field: string, a: string, b: string)
    requires Names(fields, field, a) && Names(fields, field, b)
    ensures a == b
  {
  }

  lemma PublishUnfolds(s: State, projectors: Projectors, d: Definition, data: Json.Value, options: PublishOptions,
                       generated: Option<string>)
    requires ValidDefinition(d) && d.durable.Some? && PayloadOf(d, data, options.metadata).Ok? &&
      MayBind(s.definitions, d)
    ensures PublishStep(s, projectors, d, data, options, generated) ==
      PublishedBy(s.(definitions := s.definitions[VersionedType(d) := d]), projectors, d,
                  PayloadOf(d, data, options.metadata).value, options, generated)
  {
    hide ValidDefinition, PayloadOf, PublishedBy, VersionedType;
  }

  lemma NextIs(s: State, projectors: Projectors, d: Definition, fields: map<string, Json.Value>,
    options: PublishOptions,
               id: string, a: string, payload: Payload)
    requires ValidDefinition(d) && d.durable.Some? && LatestIn(s.db, a) < MAX_INT64 && EncodesAsObject(fields)
    requires payload.data == Json.Object(NormalFields(fields)) && payload.metadata == StoredMetadata(options.metadata)
    requires payload.aggregate == a && Json.Encode(Json.Object(fields)) == Ok(payload.encoded)
    ensures var e := Envelope(id, d.name, payload.data,
                              Some(Position(a, LatestIn(s.db, a) + 1, d.durable.value.version)), payload.metadata);
      e == NextEvent(s.db, d, fields, options, id, a) &&
      RowOf(e, VersionedType(d), payload.encoded) == RowFor(d, fields, id, a, LatestIn(s.db, a) + 1) &&
      ProjectionAfter(s, projectors, d, fields, options, id, a) ==
        AcceptedProjection(ProjectorsOf(projectors, VersionedType(d)), options.commit, s.db.projection, e,
                           LatestIn(s.db, a) + 1)
  {
    hide ValidDefinition, VersionedType, NormalFields, StoredMetadata, AcceptedProjection, Json.Encode, EncodesAsObject;
  }

  lemma PublishRefused(s: State, projectors: Projectors, d: Definition, fields: map<string, Json.Value>,
                       options: PublishOptions, generated: Option<string>, a: string)
    requires LogInv(s.db) && ValidDefinition(d) && d.durable.Some?
    requires Named(fields, d.durable.value.field) ==> Names(fields, d.durable.value.field, a)
    requires var id := ChosenID(options, generated); id.None? || !CanPublish(s, d, fields, options, id.value, a)
    ensures var (s1, r) := PublishStep(s, projectors, d, Json.Object(fields), options, generated);
      r.Err? && s1.db == s.db && s1.notified == s.notified
  {
    PayloadIs(d, fields, options.metadata);
    if Encodes(fields, options.metadata) { EncodedIsCanonical(fields); }
    hide LogInv, PayloadOf, Encodes, EncodesAsObject, StoreIdentity, HasID, PublishedBy, LatestIn, OwnerIn,
      CanonicalObjectText,
      AcceptedProjection, WithRow, VersionedType, ValidDefinition, NormalFields, StoredMetadata, Json.Encode, IsEventID;
    var payload := PayloadOf(d, Json.Object(fields), options.metadata);
    if payload.Ok? && MayBind(s.definitions, d) {
      assert payload.value.aggregate == a;
      var bound := s.(definitions := s.definitions[VersionedType(d) := d]);
      PublishedByIs(bound, projectors, d, payload.value, options, generated);
    }
  }

  /** A durable publication succeeds exactly when it can be made and no projector or hook refuses. Then the event is
      next in its aggregate's log, its one row is added, the owner stays, and it alone is announced; otherwise
      tables and observers are as they were. */
  lemma PublishExactly(s: State, projectors: Projectors, d: Definition, fields: map<string, Json.Value>,
                       options: PublishOptions, generated: Option<string>, a: string)
    requires LogInv(s.db) && ValidDefinition(d) && d.durable.Some?
    requires Named(fields, d.durable.value.field) ==> Names(fields, d.durable.value.field, a)
    ensures var (s1, r) := PublishStep(s, projectors, d, Json.Object(fields), options, generated);
      var id := ChosenID(options, generated);
      if id.Some? && CanPublish(s, d, fields, options, id.value, a) &&
         ProjectionAfter(s, projectors, d, fields, options, id.value, a).Some?
      then
        var e := NextEvent(s.db, d, fields, options, id.value, a);
        var q := ProjectionAfter(s, projectors, d, fields, options, id.value, a).value;
        var row := RowFor(d, fields, id.value, a, LatestIn(s.db, a) + 1);
        r == Ok(e) &&
        s1 == State(s.definitions[VersionedType(d) := d], WithRow(s.db, row, OwnerIn(s.db, a), q), s.notified + [e])
      else r.Err? && s1.db == s.db && s1.notified == s.notified
  {
    hide *;
    var id := ChosenID(options, generated);
    if id.Some? && CanPublish(s, d, fields, options, id.value, a) {
      PublishSucceeds(s, projectors, d, fields, options, generated, id.value, a);
    } else {
      PublishRefused(s, projectors, d, fields, options, generated, a);
    }
  }

  /** A live publication touches no table; it is announced exactly when its payload encodes, its type may be bound,
      its id is an event's, and it brings no hook. */
  lemma PublishLiveExactly(s: State, projectors: Projectors, d: Definition, fields: map<string, Json.Value>,
                           options: PublishOptions, generated: Option<string>)
    requires ValidDefinition(d) && d.durable.None?
    ensures var (s1, r) := PublishStep(s, projectors, d, Json.Object(fields), options, generated);
      var id := ChosenID(options, generated);
      if Encodes(fields, options.metadata) && options.commit.None? && MayBind(s.definitions, d) && id.Some? &&
         IsEventID(id.value)
      then
        var e := Envelope(id.value, d.name, Json.Object(NormalFields(fields)), None, StoredMetadata(options.metadata));
        r == Ok(e) && s1 == State(s.definitions[VersionedType(d) := d], s.db, s.notified + [e])
      else r.Err? && s1.db == s.db && s1.notified == s.notified
  {
    PayloadIs(d, fields, options.metadata);
    hide PayloadOf, Encodes, NormalFields, StoredMetadata, ValidDefinition, IsEventID;
  }

  /** Nothing else is ever published. */
  lemma PublishNeedsAnObject(s: State, projectors: Projectors, d: Definition, data: Json.Value, options: PublishOptions,
                             generated: Option<string>)
    requires !ValidDefinition(d) || !data.Object?
    ensures PublishStep(s, projectors, d, data, options, generated).1.Err?
    ensures PublishStep(s, projectors, d, data, options, generated).0 == s
  {
  }

  // ---------- Replaying ----------

  /** An envelope that fits its definition and names the aggregate it is placed in. */
  ghost predicate WellFormed(d: Definition, e: Envelope) {
    ValidDefinition(d) && d.durable.Some? && IsEventID(e.id) && e.name == d.name && e.durable.Some? &&
    e.durable.value.sequence >= 0 && e.durable.value.version == d.durable.value.version && e.data.Object? &&
    Encodes(e.data.fields, e.metadata) && Names(e.data.fields, d.durable.value.field, e.durable.value.aggregate)
  }

  /** The event as it is recorded. */
  ghost function AsRecorded(e: Envelope): (r: Envelope)
    requires e.data.Object?
  {
    e.(data := Json.Object(NormalFields(e.data.fields)), metadata := StoredMetadata(e.metadata))
  }

  lemma ReplayPayloadIs(d: Definition, e: Envelope)
    ensures var r := ReplayPayload(d, e);
      if WellFormed(d, e)
      then
        Json.Encode(e.data).Ok? && CanonicalObjectText(Json.Encode(e.data).value) &&
        r == Ok((AsRecorded(e), Json.Encode(e.data).value))
      else r.Err?
  {
    if e.data.Object? {
      PayloadIs(d, e.data.fields, e.metadata);
      if Encodes(e.data.fields, e.metadata) { EncodedIsCanonical(e.data.fields); }
      hide Encodes, NormalFields, StoredMetadata, ValidDefinition, Json.Encode, CanonicalObjectText, PayloadOf,
        IsEventID;
      if PayloadOf(d, e.data, e.metadata).Ok? && d.durable.Some? && e.durable.Some? &&
         Names(e.data.fields, d.durable.value.field, e.durable.value.aggregate) {
        OneName(e.data.fields, d.durable.value.field, PayloadOf(d, e.data, e.metadata).value.aggregate,
                e.durable.value.aggregate);
      }
    } else {
      hide ValidDefinition, Json.Encode, IsEventID;
    }
  }

  /** The tables when an aggregate's first owner arrives. */
  function WithOwner(db: Db, a: string, owner: string): (after: Db)
    requires a in db.sequences
  {
    db.(sequences := db.sequences[a := db.sequences[a].(owner := owner)])
  }

  /** What the row of a well-formed event comes to, by its place in the log: held, next, or beyond. */
  ghost predicate RowOutcome(db: Db, list: seq<Projector>, e: Envelope, row: StoredEvent, options: ReplayOptions,
                             r: Outcome<(Db, bool)>) {
    var a := row.aggregate;
    var latest, owner, foreign := LatestIn(db, a), OwnerIn(db, a), Foreign(db, a, options);
    if !StoreIdentity(a) then r.Err?
    else if foreign && options.strictOwner then r == Err(OwnerConflict)
    else if row.sequence <= latest then
      if Key(a, row.sequence) !in db.events || db.events[Key(a, row.sequence)] != row then r == Err(ReplayConflict)
      else if options.owner == "" || owner != "" then r == Ok((db, false))
      else if StoreIdentity(options.owner) && a in db.sequences then r == Ok((WithOwner(db, a, options.owner), false))
      else r.Err?
    else if foreign then r == Ok((db, false))
    else if row.sequence as int != latest + 1 then r == Err(SequenceConflict)
    else
      var q := ProjectAll(list, db.projection, e);
      var next := if owner == "" then options.owner else owner;
      if StoredEventID(row.id) && !HasID(db, row.id) && StoreIdentity(row.name) &&
        (next != "" ==> StoreIdentity(next)) &&
         q.Some?
      then r == Ok((WithRow(db, row, next, q.value), true))
      else r.Err?
  }

  lemma HeldIs(db: Db, row: StoredEvent, owner: string)
    requires LogInv(db) && 0 <= row.sequence <= LatestIn(db, row.aggregate)
    ensures row.aggregate in db.sequences && StoreIdentity(row.aggregate)
    ensures Key(row.aggregate, row.sequence) in db.events
    ensures var r := Stale(db, row, db.sequences[row.aggregate], owner);
      if db.events[Key(row.aggregate, row.sequence)] != row then r == Err(ReplayConflict)
      else if owner == "" || OwnerIn(db, row.aggregate) != "" then r == Ok((db, false))
      else if StoreIdentity(owner) then r == Ok((WithOwner(db, row.aggregate, owner), false))
      else r.Err?
  {
    assert WholeLog(db, row.aggregate);
    var k := Key(row.aggregate, row.sequence);
    assert k in db.events;
    assert RowAt(db, k);
    hide LogInv, StoreIdentity, ValidRow;
  }

  lemma FreshIs(db: Db, list: seq<Projector>, e: Envelope, row: StoredEvent, owner: string)
    requires LogInv(db) && row.sequence as int == LatestIn(db, row.aggregate) + 1 && row.sequence >= 0
    requires StoreIdentity(row.aggregate) && CanonicalObjectText(row.data)
    ensures var r := Fresh(db, list, e, row, owner);
      var q := ProjectAll(list, db.projection, e);
      if StoredEventID(row.id) && !HasID(db, row.id) && StoreIdentity(row.name) &&
        (owner != "" ==> StoreIdentity(owner)) &&
         q.Some?
      then r == Ok((WithRow(db, row, owner, q.value), true))
      else r.Err?
  {
    FindIDIs(db, row.id);
    hide LogInv, ProjectAll, StoreIdentity, StoredEventID, HasID, FindID, Recorded, CanonicalObjectText, LatestIn,
      WithRow;
    var q := ProjectAll(list, db.projection, e);
    if q.Some? && StoredEventID(row.id) && !HasID(db, row.id) { RecordedIs(db, row, owner, q.value); }
  }

  lemma ReplayedIs(db: Db, list: seq<Projector>, e: Envelope, row: StoredEvent, options: ReplayOptions)
    requires LogInv(db) && row.sequence >= 0 && CanonicalObjectText(row.data)
    ensures RowOutcome(db, list, e, row, options, Replayed(db, list, e, row, options))
  {
    var a := row.aggregate;
    FoundIs(db, a);
    var foreign := OwnerIn(db, a) != "" && OwnerIn(db, a) != options.owner;
    assert foreign <==> Foreign(db, a, options);
    if row.sequence <= LatestIn(db, a) {
      HeldIs(db, row, options.owner);
    } else if StoreIdentity(a) && row.sequence as int == LatestIn(db, a) + 1 {
      FreshIs(db, list, e, row, if OwnerIn(db, a) == "" then options.owner else OwnerIn(db, a));
    }
    FoundState(db, a);
    hide LogInv, StoreIdentity, StoredEventID, HasID, Stale, Fresh, ProjectAll, CanonicalObjectText, LatestIn,
      OwnerIn, Foreign,
      FindSequence, WithRow, WithOwner;
  }

  lemma FoundState(db: Db, a: string)
    requires LogInv(db)
    ensures a in db.sequences ==> db.sequences[a] == SequenceState(LatestIn(db, a), OwnerIn(db, a))
  {
  }

  /** A replay, exactly: a malformed or wrongly bound event is refused; otherwise its row's place in the log
      decides, and it is announced if and only if a row was added and `publish` is set. */
  lemma ReplayExactly(s: State, projectors: Projectors, d: Definition, e: Envelope, options: ReplayOptions)
    requires LogInv(s.db)
    ensures var (s1, r) := ReplayStep(s, projectors, d, e, options);
      if !WellFormed(d, e) || !MayBind(s.definitions, d) then r.Err? && s1 == s
      else
        var key, place := VersionedType(d), e.durable.value;
        var row := RowFor(d, e.data.fields, e.id, place.aggregate, place.sequence);
        s1.definitions == s.definitions[key := d] &&
        RowOutcome(s.db, ProjectorsOf(projectors, key), AsRecorded(e), row, options,
                   if r.Ok? then Ok((s1.db, r.value)) else Err(r.error)) &&
        (r.Err? ==> s1.db == s.db) &&
        s1.notified == if r == Ok(true) && options.publish then s.notified + [AsRecorded(e)] else s.notified
  {
    hide *;
    ReplayPayloadIs(d, e);
    if WellFormed(d, e) && MayBind(s.definitions, d) {
      WellFormedMeans(d, e);
      var key := VersionedType(d);
      var row := RowFor(d, e.data.fields, e.id, e.durable.value.aggregate, e.durable.value.sequence);
      RowForIs(d, e, row);
      ReplayUnfolds(s, projectors, d, e, options, AsRecorded(e), row);
      ReplayedIs(s.db, ProjectorsOf(projectors, key), AsRecorded(e), row, options);
    } else {
      ReplayRefused(s, projectors, d, e, options);
    }
  }

  lemma WellFormedMeans(d: Definition, e: Envelope)
    requires WellFormed(d, e)
    ensures ValidDefinition(d) && e.data.Object? && e.durable.Some? && e.durable.value.sequence >= 0
    ensures EncodesAsObject(e.data.fields)
  {
    hide ValidDefinition, EncodesAsObject;
  }

  lemma RowForIs(d: Definition, e: Envelope, row: StoredEvent)
    requires ValidDefinition(d) && e.data.Object? && e.durable.Some? && EncodesAsObject(e.data.fields)
    requires row == RowFor(d, e.data.fields, e.id, e.durable.value.aggregate, e.durable.value.sequence)
    requires Json.Encode(e.data).Ok?
    ensures AsRecorded(e).durable == e.durable && row.sequence == e.durable.value.sequence
    ensures row.data == Json.Encode(e.data).value
    ensures row == RowOf(AsRecorded(e), VersionedType(d), Json.Encode(e.data).value)
  {
    hide ValidDefinition, VersionedType, Json.Encode, EncodesAsObject, NormalFields, StoredMetadata;
  }

  lemma ReplayUnfolds(s: State, projectors: Projectors, d: Definition, e: Envelope, options: ReplayOptions,
    recorded: Envelope,
                      row: StoredEvent)
    requires ReplayPayload(d, e) == Ok((recorded, row.data)) && ValidDefinition(d) && MayBind(s.definitions, d)
    requires recorded.durable.Some? && row == RowOf(recorded, VersionedType(d), row.data)
    ensures var (s1, r) := ReplayStep(s, projectors, d, e, options);
      var replayed := Replayed(s.db, ProjectorsOf(projectors, VersionedType(d)), recorded, row, options);
      s1.definitions == s.definitions[VersionedType(d) := d] &&
      replayed == (if r.Ok? then Ok((s1.db, r.value)) else Err(r.error)) && (r.Err? ==> s1.db == s.db) &&
      s1.notified == if r == Ok(true) && options.publish then s.notified + [recorded] else s.notified
  {
    hide ReplayPayload, Replayed, ValidDefinition, VersionedType;
    var key := VersionedType(d);
    var bound := s.(definitions := s.definitions[key := d]);
    assert Bind(s.definitions, d) == Ok(bound.definitions);
    var (s1, r) := ReplayStep(s, projectors, d, e, options);
    assert (s1, r) == ReplayBound(bound, projectors, key, recorded, row.data, options);
    var replayed := Replayed(s.db, ProjectorsOf(projectors, key), recorded, row, options);
    if replayed.Ok? { assert replayed.value == (s1.db, r.value); }
  }

  lemma ReplayRefused(s: State, projectors: Projectors, d: Definition, e: Envelope, options: ReplayOptions)
    requires ReplayPayload(d, e).Err? || (ValidDefinition(d) && !MayBind(s.definitions, d))
    ensures ReplayStep(s, projectors, d, e, options).1.Err? && ReplayStep(s, projectors, d, e, options).0 == s
  {
    hide ReplayPayload, Replayed, ValidDefinition, VersionedType;
  }

  // ---------- Claiming ----------

  /** A claim gives an aggregate that exists its new owner, and changes nothing else. */
  lemma ClaimExactly(db: Db, a: string, owner: string)
    requires LogInv(db)
    ensures var r := ClaimTables(db, a, owner);
      if !Identity(a) || !Identity(owner) || !StoreIdentity(a) || (a in db.sequences && !StoreIdentity(owner)) then
        r.Err?
      else r == Ok(if a in db.sequences then WithOwner(db, a, owner) else db)
  {
    FoundIs(db, a);
    hide LogInv, Identity, StoreIdentity;
  }

  // ---------- Removing ----------

  /** A removal leaves no trace of its aggregate, and everything else as it is. */
  lemma RemoveExactly(db: Db, a: string)
    requires LogInv(db)
    ensures var r := RemoveTables(db, a);
      if !Identity(a) || !StoreIdentity(a) then r.Err?
      else
        r == Ok(Db(map b | b in db.sequences && b != a :: db.sequences[b],
                   map k | k in db.events && k.aggregate != a :: db.events[k], db.projection))
  {
    if a !in db.sequences { NoRowsOutside(db, a); }
    hide LogInv, Identity, StoreIdentity;
    assert a !in db.sequences ==> db.events == map k | k in db.events && k.aggregate != a :: db.events[k];
    assert db.sequences - {a} == map b | b in db.sequences && b != a :: db.sequences[b];
  }

  // ---------- Chunks ----------

  predicate AllValid(list: seq<Definition>) {
    forall i | 0 <= i < |list| :: ValidDefinition(list[i])
  }

  /** Definitions that contradict neither those already bound nor each other. */
  predicate Agree(definitions: Bindings, list: seq<Definition>)
    requires AllValid(list)
  {
    (forall i | 0 <= i < |list| :: MayBind(definitions, list[i])) &&
    forall i, j | 0 <= i < j < |list| && VersionedType(list[i]) == VersionedType(list[j]) :: list[i] == list[j]
  }

  /** The bindings with those of a list added. */
  ghost predicate Adds(before: Bindings, list: seq<Definition>, after: Bindings)
    requires AllValid(list)
  {
    (forall i | 0 <= i < |list| :: VersionedType(list[i]) in after && after[VersionedType(list[i])] == list[i]) &&
    (forall key | key in before :: key in after && after[key] == before[key]) &&
    forall key | key in after :: key in before || exists i :: 0 <= i < |list| && key == VersionedType(list[i])
  }

  lemma AgreeHead(definitions: Bindings, d: Definition, rest: seq<Definition>)
    requires AllValid([d] + rest) && AllValid(rest) && ValidDefinition(d)
    ensures Agree(definitions, [d] + rest) <==>
      MayBind(definitions, d) && Agree(definitions[VersionedType(d) := d], rest)
  {
    hide ValidDefinition, VersionedType;
    var list, after := [d] + rest, definitions[VersionedType(d) := d];
    assert list[0] == d && forall i | 0 <= i < |rest| :: list[i + 1] == rest[i];
    if Agree(definitions, list) {
      forall i | 0 <= i < |rest| ensures MayBind(after, rest[i]) { assert MayBind(definitions, list[i + 1]); }
      forall i, j | 0 <= i < j < |rest| && VersionedType(rest[i]) == VersionedType(rest[j])
        ensures rest[i] == rest[j]
      {
        assert list[i + 1] == list[j + 1];
      }
    }
    if MayBind(definitions, d) && Agree(after, rest) {
      forall i | 0 <= i < |list| ensures MayBind(definitions, list[i]) {
        if i > 0 { assert MayBind(after, rest[i - 1]); }
      }
      forall i, j | 0 <= i < j < |list| && VersionedType(list[i]) == VersionedType(list[j])
        ensures list[i] == list[j]
      {
        assert MayBind(after, rest[j - 1]) && (i > 0 ==> list[i] == rest[i - 1]);
      }
    }
  }

  lemma AddsHead(before: Bindings, d: Definition, rest: seq<Definition>, after: Bindings)
    requires AllValid([d] + rest) && AllValid(rest) && ValidDefinition(d) && MayBind(before, d)
    requires Adds(before[VersionedType(d) := d], rest, after)
    ensures Adds(before, [d] + rest, after)
  {
    hide ValidDefinition, VersionedType;
    var list, middle := [d] + rest, before[VersionedType(d) := d];
    assert forall i | 0 <= i < |rest| :: list[i + 1] == rest[i];
    assert list[0] == d && VersionedType(d) in middle;
    forall key | key in after ensures key in before || exists i :: 0 <= i < |list| && key == VersionedType(list[i]) {
      if key !in middle {
        var i :| 0 <= i < |rest| && key == VersionedType(rest[i]);
        assert key == VersionedType(list[i + 1]);
      }
    }
    forall i | 0 <= i < |list| ensures VersionedType(list[i]) in after && after[VersionedType(list[i])] == list[i] {
      if i > 0 { assert VersionedType(rest[i - 1]) in after; }
    }
  }

  /** Definitions are bound together if and only if they agree. */
  lemma {:induction false} BindsExactly(definitions: Bindings, list: seq<Definition>)
    requires AllValid(list)
    ensures var r := BindAll(definitions, list);
      if Agree(definitions, list) then r.Ok? && Adds(definitions, list, r.value) else r.Err?
    decreases |list|
  {
    hide ValidDefinition, VersionedType, Adds, Agree;
    if list == [] {
      NothingToBind(definitions);
    } else {
      var d, rest := list[0], list[1..];
      assert list == [d] + rest;
      AgreeHead(definitions, d, rest);
      var middle := definitions[VersionedType(d) := d];
      BindsExactly(middle, rest);
      if Agree(definitions, list) { AddsHead(definitions, d, rest, BindAll(middle, rest).value); }
    }
  }

  lemma NothingToBind(definitions: Bindings)
    ensures Agree(definitions, []) && Adds(definitions, [], definitions)
  {
  }

  /** Every entry well formed, of one aggregate, and one position after the entry before it. */
  ghost predicate Contiguous(entries: seq<ReplayEntry>) {
    (entries != [] ==> WellFormed(entries[0].definition, entries[0].event)) &&
    forall i | 0 <= i < |entries| ::
      WellFormed(entries[i].definition, entries[i].event) &&
      entries[i].event.durable.value.aggregate == entries[0].event.durable.value.aggregate &&
      entries[i].event.durable.value.sequence as int == entries[0].event.durable.value.sequence as int + i
  }

  lemma EntryIs(entries: seq<ReplayEntry>, i: nat)
    requires i < |entries| && WellFormed(entries[0].definition, entries[0].event)
    ensures EntryError(entries, i).None? <==>
      (WellFormed(entries[i].definition, entries[i].event) &&
       entries[i].event.durable.value.aggregate == entries[0].event.durable.value.aggregate &&
       entries[i].event.durable.value.sequence as int == entries[0].event.durable.value.sequence as int + i)
  {
    ReplayPayloadIs(entries[i].definition, entries[i].event);
    hide Encodes, Names, ValidDefinition, ReplayPayload;
  }

  lemma HeadIs(entries: seq<ReplayEntry>)
    requires entries != []
    ensures EntryError(entries, 0).None? ==> WellFormed(entries[0].definition, entries[0].event)
  {
    ReplayPayloadIs(entries[0].definition, entries[0].event);
    hide WellFormed, ReplayPayload;
  }

  lemma {:induction false} NoEntryError(entries: seq<ReplayEntry>, i: nat)
    requires i <= |entries|
    ensures ChunkError(entries, i).None? <==> forall j | i <= j < |entries| :: EntryError(entries, j).None?
    decreases |entries| - i
  {
    hide EntryError;
    if i < |entries| { NoEntryError(entries, i + 1); }
  }

  lemma ChunkIs(entries: seq<ReplayEntry>)
    ensures ChunkError(entries, 0).None? <==> Contiguous(entries)
  {
    NoEntryError(entries, 0);
    if entries != [] { HeadIs(entries); }
    hide EntryError, WellFormed, ChunkError;
    if entries != [] && WellFormed(entries[0].definition, entries[0].event) {
      forall i: nat | i < |entries| { EntryIs(entries, i); }
    }
  }

  lemma ContiguousIsValid(entries: seq<ReplayEntry>)
    requires Contiguous(entries)
    ensures AllValid(DefinitionsOf(entries))
  {
    hide Encodes, Names, ValidDefinition, IsEventID;
  }

  /** Before any entry is replayed: a chunk goes ahead if and only if it is contiguous and its definitions agree,
      and then they are bound, all of them; a chunk that does not changes nothing. */
  lemma ReplayAllExactly(s: State, projectors: Projectors, entries: seq<ReplayEntry>, options: ReplayOptions)
    ensures var (s1, r) := ReplayAllStep(s, projectors, entries, options);
      if Contiguous(entries) && (ContiguousIsValid(entries); Agree(s.definitions, DefinitionsOf(entries)))
      then
        exists bound ::
          AllValid(DefinitionsOf(entries)) && Adds(s.definitions, DefinitionsOf(entries), bound) &&
          (s1, r) == ReplayEach(s.(definitions := bound), projectors, entries, options)
      else s1 == s && r.Err?
  {
    hide *;
    ChunkIs(entries);
    if Contiguous(entries) {
      ContiguousIsValid(entries);
      BindsExactly(s.definitions, DefinitionsOf(entries));
    }
    ChunkUnfolds(s, projectors, entries, options);
  }

  lemma ChunkUnfolds(s: State, projectors: Projectors, entries: seq<ReplayEntry>, options: ReplayOptions)
    ensures var (s1, r) := ReplayAllStep(s, projectors, entries, options);
      if ChunkError(entries, 0).Some? then s1 == s && r.Err?
      else
        AllValid(DefinitionsOf(entries)) &&
        var bound := BindAll(s.definitions, DefinitionsOf(entries));
        if bound.Err? then s1 == s && r.Err?
        else (s1, r) == ReplayEach(s.(definitions := bound.value), projectors, entries, options)
  {
    hide ValidDefinition, BindAll, ReplayEach, ChunkError;
    if ChunkError(entries, 0).None? { ChunkDefinitionsValid(entries, 0); }
  }
}
