/** Decoding stored rows (`decodeStoredEvent`), and that every row a service writes decodes to the event it
    recorded and can be replayed under the definition that wrote it. */
module StoredEvents {
  import opened Text
  import opened Json
  import opened JsonProofs
  import opened EventStore
  import opened EventService
  import opened EventLog

  // ---------- Versioned type names ----------

  /** `strings.LastIndexByte(name, '.')`, -1 when there is none. */
  function LastDot(name: string): (i: int)
    ensures -1 <= i < |name|
  {
    if name == "" then -1
    else if name[|name| - 1] == '.' then |name| - 1
    else LastDot(name[..|name| - 1])
  }

  predicate Digits(t: string) {
    t != "" && forall i | 0 <= i < |t| :: IsDigit(t[i])
  }

  function DecimalValue(t: string): (n: int)
    requires forall i | 0 <= i < |t| :: IsDigit(t[i])
    ensures n >= 0
  {
    if t == "" then 0
    else
      assert IsDigit(t[|t| - 1]);
      DecimalValue(t[..|t| - 1]) * 10 + (t[|t| - 1] as int - '0' as int)
  }

  /** `strconv.ParseInt(t, 10, 64)`. */
  function ParseInt64(t: string): (n: Option<Int64>) {
    var signed := t != "" && t[0] in {'+', '-'};
    var digits := if signed then t[1..] else t;
    if !Digits(digits) then None
    else
      var value: int := if signed && t[0] == '-' then -DecimalValue(digits) else DecimalValue(digits);
      if -MAX_INT64 - 1 <= value <= MAX_INT64 then Some(value) else None
  }

  lemma DecimalSnoc(t: string, c: char)
    requires (forall i | 0 <= i < |t| :: IsDigit(t[i])) && IsDigit(c)
    ensures Digits(t + [c]) && DecimalValue(t + [c]) == DecimalValue(t) * 10 + (c as int - '0' as int)
  {
    assert (t + [c])[..|t|] == t;
  }

  lemma {:induction false} DecimalRoundTrip(n: nat)
    ensures Digits(Decimal(n)) && DecimalValue(Decimal(n)) == n
  {
    var last := ('0' as int + n % 10) as char;
    if n >= 10 { DecimalRoundTrip(n / 10); }
    var front := if n < 10 then "" else Decimal(n / 10);
    assert IsDigit(last) && Decimal(n) == front + [last];
    hide Decimal, DecimalValue, IsDigit;
    DecimalSnoc(front, last);
    assert n < 10 ==> DecimalValue(front) == 0 by { NoDigits(); }
  }

  lemma NoDigits()
    ensures DecimalValue("") == 0
  {
  }

  lemma ParsesBack(n: nat)
    requires n <= MAX_INT64
    ensures ParseInt64(Decimal(n)) == Some(n)
  {
    DecimalRoundTrip(n);
    assert IsDigit(Decimal(n)[0]);
  }

  lemma {:induction false} LastDotOfVersioned(name: string, digits: string)
    requires forall i | 0 <= i < |digits| :: IsDigit(digits[i])
    ensures LastDot(name + "." + digits) == |name|
  {
    var all := name + "." + digits;
    if digits == "" {
      assert all == name + ".";
    } else {
      var front := digits[..|digits| - 1];
      assert all[|all| - 1] == digits[|digits| - 1] && IsDigit(digits[|digits| - 1]);
      assert all[..|all| - 1] == name + "." + front;
      LastDotOfVersioned(name, front);
    }
  }

  // ---------- Stored rows ----------

  /** `decodeStoredEvent`. */
  function Decoded(row: StoredEvent): (r: Outcome<Envelope>) {
    var dot := LastDot(row.name);
    if !IsEventID(row.id) || dot <= 0 || dot == |row.name| - 1 then Err(InvalidEvent)
    else
      var version := ParseInt64(row.name[dot + 1..]);
      if version.None? || version.value <= 0 || row.sequence < 0 || row.aggregate == "" then Err(InvalidEvent)
      else
        var data := Decode(row.data);
        if data.Err? || !data.value.Object? then Err(InvalidEvent)
        else
          Ok(Envelope(row.id, row.name[..dot], data.value,
                      Some(Position(row.aggregate, row.sequence, version.value)), None))
  }

  lemma VersionedTypeSplits(d: Definition)
    requires ValidDefinition(d) && d.durable.Some?
    ensures var key := VersionedType(d);
      var dot := LastDot(key);
      0 < dot < |key| - 1 && key[..dot] == d.name && ParseInt64(key[dot + 1..]) == Some(d.durable.value.version)
  {
    var version := d.durable.value.version;
    var key := VersionedType(d);
    DecimalRoundTrip(version);
    LastDotOfVersioned(d.name, Decimal(version));
    ParsesBack(version);
    assert key[..|d.name|] == d.name && key[|d.name| + 1..] == Decimal(version);
  }

  lemma CanonicalObjectFacts(data: Value)
    requires CanonicalObject(data).Ok?
    ensures var (v, t) := CanonicalObject(data).value;
      v.Object? && Encode(v) == Ok(t) && Decode(t) == Ok(v) &&
      CanonicalObject(v) == Ok((v, t)) && CanonicalObjectText(t)
  {
    var t := Encode(data).value;
    RoundTrip(data);
    assert exists v :: Encode(v) == Ok(t);
    CanonicalTextsAreEncodings(t);
    assert Normalize(data).Object?;
  }

  /** What a row must satisfy to be replayed under a definition. */
  ghost predicate Suits(d: Definition, row: StoredEvent) {
    ValidDefinition(d) && d.durable.Some? && VersionedType(d) == row.name && Decoded(row).Ok? &&
    ReplayPayload(d, Decoded(row).value) == Ok((Decoded(row).value, row.data))
  }

  lemma RowDecodes(d: Definition, e: Envelope, encoded: string)
    requires ValidDefinition(d) && d.durable.Some? && IsEventID(e.id) && e.name == d.name && e.durable.Some?
    requires e.durable.value.sequence >= 0 && e.durable.value.aggregate != ""
    requires e.durable.value.version == d.durable.value.version
    requires Decode(encoded) == Ok(e.data) && e.data.Object?
    ensures Decoded(RowOf(e, VersionedType(d), encoded)) == Ok(e.(metadata := None))
  {
    VersionedTypeSplits(d);
    assert d.durable.value.version > 0;
    hide Decode, LastDot, ParseInt64, VersionedType, ValidDefinition;
  }

  lemma CanonicalPayload(d: Definition, data: Value, metadata: Option<map<string, Value>>)
    requires d.durable.Some? && PayloadOf(d, data, metadata).Ok?
    ensures var p := PayloadOf(d, data, metadata).value;
      p.aggregate != "" && p.data.Object? && Decode(p.encoded) == Ok(p.data) &&
      PayloadOf(d, p.data, None) == Ok(p.(metadata := None))
  {
    CanonicalObjectFacts(data);
    assert CanonicalMetadata(None) == Ok(None);
    hide CanonicalObject, CanonicalMetadata, Decode, Encode, CanonicalObjectText;
  }

  /** The row of an event with a canonical payload decodes to that event, up to its metadata. */
  lemma RowRoundTrip(d: Definition, data: Value, metadata: Option<map<string, Value>>, e: Envelope, sequence: Int64)
    requires ValidDefinition(d) && d.durable.Some? && PayloadOf(d, data, metadata).Ok? && IsEventID(e.id)
    requires sequence >= 0 && e.name == d.name && e.data == PayloadOf(d, data, metadata).value.data
    requires e.durable ==
      Some(Position(PayloadOf(d, data, metadata).value.aggregate, sequence, d.durable.value.version))
    ensures var row := RowOf(e, VersionedType(d), PayloadOf(d, data, metadata).value.encoded);
      Decoded(row) == Ok(e.(metadata := None)) && Suits(d, row)
  {
    hide PayloadOf, VersionedType, ValidDefinition, Decode, Decoded, IsEventID;
    CanonicalPayload(d, data, metadata);
    RowDecodes(d, e, PayloadOf(d, data, metadata).value.encoded);
  }

  // ---------- Every stored row can be replayed ----------

  /** Each row was written under the definition its type is bound to. */
  ghost predicate Typed(s: State) {
    forall k | k in s.db.events ::
      s.db.events[k].name in s.definitions && Suits(s.definitions[s.db.events[k].name], s.db.events[k])
  }

  predicate Extends(before: Bindings, after: Bindings) {
    forall k | k in before :: k in after && after[k] == before[k]
  }

  lemma BindExtends(definitions: Bindings, d: Definition)
    requires ValidDefinition(d) && Bind(definitions, d).Ok?
    ensures Extends(definitions, Bind(definitions, d).value) && Bind(definitions, d).value[VersionedType(d)] == d
  {
  }

  lemma {:induction false} BindAllExtends(definitions: Bindings, list: seq<Definition>)
    requires (forall d | d in list :: ValidDefinition(d)) && BindAll(definitions, list).Ok?
    ensures Extends(definitions, BindAll(definitions, list).value)
    decreases |list|
  {
    hide ValidDefinition, VersionedType;
    if list != [] {
      BindExtends(definitions, list[0]);
      BindAllExtends(Bind(definitions, list[0]).value, list[1..]);
    }
  }

  /** More bindings and fewer rows keep the log typed. */
  lemma BoundIsThere(definitions: Bindings, d: Definition)
    requires ValidDefinition(d) && Bind(definitions, d).Ok?
    ensures VersionedType(d) in Bind(definitions, d).value
  {
  }

  lemma TypedStays(s: State, s1: State)
    requires Typed(s) && Extends(s.definitions, s1.definitions)
    requires forall k | k in s1.db.events :: k in s.db.events && s1.db.events[k] == s.db.events[k]
    ensures Typed(s1)
  {
    hide Suits;
  }

  /** One new row, written under a bound definition. */
  lemma TypedGrows(s: State, s1: State, d: Definition, row: StoredEvent)
    requires Typed(s) && s1.definitions == s.definitions && Suits(d, row)
    requires row.name in s.definitions && s.definitions[row.name] == d
    requires s1.db.events == s.db.events[Key(row.aggregate, row.sequence) := row]
    ensures Typed(s1)
  {
    hide Suits;
  }

  lemma PublishedByTyped(s: State, projectors: Projectors, d: Definition, data: Value, options: PublishOptions,
                         generated: Option<string>)
    requires LogInv(s.db) && Typed(s) && ValidDefinition(d) && PayloadOf(d, data, options.metadata).Ok?
    requires VersionedType(d) in s.definitions && s.definitions[VersionedType(d)] == d
    ensures Typed(PublishedBy(s, projectors, d, PayloadOf(d, data, options.metadata).value, options, generated).0)
  {
    var payload := PayloadOf(d, data, options.metadata).value;
    var id := if options.id == "" then generated else Some(options.id);
    if id.Some? && IsEventID(id.value) {
      var e := Envelope(id.value, d.name, payload.data, None, payload.metadata);
      var key := VersionedType(d);
      if d.durable.Some? {
        var list, version := ProjectorsOf(projectors, key), d.durable.value.version;
        var published := Published(s.db, list, options.commit, key, version, e, payload);
        if published.Ok? {
          PublishedRow(s.db, list, options.commit, key, version, e, payload);
          var placed := published.value.1;
          RowRoundTrip(d, data, options.metadata, placed, placed.durable.value.sequence);
          hide Published, Typed, Suits, PayloadOf, LogInv;
          TypedGrows(s, PublishedBy(s, projectors, d, payload, options, generated).0, d,
                     RowOf(placed, key, payload.encoded));
        }
      }
    }
  }

  lemma PublishedRow(db: Db, list: seq<Projector>, commit: Option<Hook>, key: string, version: Int64, e: Envelope,
                     payload: Payload)
    requires LogInv(db) && Published(db, list, commit, key, version, e, payload).Ok?
    ensures var (after, placed) := Published(db, list, commit, key, version, e, payload).value;
      placed.durable.Some? && placed.durable.value.sequence >= 0 &&
      placed == Placed(e, payload.aggregate, placed.durable.value.sequence, version) &&
      after.events ==
        db.events[Key(payload.aggregate, placed.durable.value.sequence) := RowOf(placed, key, payload.encoded)]
  {
    hide LogInv, Recorded, Projected, ValidRow, FindID, FindSequence, StoreIdentity;
    var found := FindSequence(db, payload.aggregate).value;
    FoundLatest(db, payload.aggregate);
    var placed := Placed(e, payload.aggregate, LatestOf(found) + 1, version);
    var p := Projected(list, commit, db.projection, placed).value;
    RecordedExtends(db.(projection := p), OwnerOf(found), RowOf(placed, key, payload.encoded));
  }

  lemma PublishKeepsTyped(s: State, projectors: Projectors, d: Definition, data: Value, options: PublishOptions,
                          generated: Option<string>)
    requires LogInv(s.db) && Typed(s)
    ensures var s1 := PublishStep(s, projectors, d, data, options, generated).0;
      Typed(s1) && Extends(s.definitions, s1.definitions)
  {
    hide Typed, LogInv, Published, Bind, ValidDefinition, PayloadOf, VersionedType;
    if ValidDefinition(d) {
      var bound := Bind(s.definitions, d);
      var payload := PayloadOf(d, data, options.metadata);
      if bound.Ok? && payload.Ok? {
        BindExtends(s.definitions, d);
        BoundIsThere(s.definitions, d);
        var s1 := s.(definitions := bound.value);
        TypedStays(s, s1);
        PublishedByTyped(s1, projectors, d, data, options, generated);
      }
    }
  }

  lemma FreshRow(db: Db, list: seq<Projector>, e: Envelope, row: StoredEvent, owner: string)
    requires Fresh(db, list, e, row, owner).Ok?
    ensures var (after, inserted) := Fresh(db, list, e, row, owner).value;
      inserted && after == Extended(db.(projection := ProjectAll(list, db.projection, e).value), owner, row)
  {
    var p := ProjectAll(list, db.projection, e).value;
    RecordedExtends(db.(projection := p), owner, row);
    hide Recorded, ProjectAll, FindID, Extended;
  }

  lemma StaleRow(db: Db, row: StoredEvent, found: SequenceState, owner: string)
    requires Stale(db, row, found, owner).Ok?
    ensures var (after, inserted) := Stale(db, row, found, owner).value; !inserted && after.events == db.events
  {
    hide StoreIdentity, SameRow;
  }

  /** The one row a replay can add. */
  lemma ReplayedRow(db: Db, list: seq<Projector>, e: Envelope, row: StoredEvent, options: ReplayOptions)
    requires Replayed(db, list, e, row, options).Ok?
    ensures var (after, inserted) := Replayed(db, list, e, row, options).value;
      after.events == if inserted then db.events[Key(row.aggregate, row.sequence) := row] else db.events
  {
    var found := FindSequence(db, row.aggregate).value;
    var latest, owner := LatestOf(found), OwnerOf(found);
    hide Stale, Fresh, FindSequence;
    if row.sequence <= latest {
      StaleRow(db, row, SequenceState(latest, owner), options.owner);
    } else if Replayed(db, list, e, row, options).value.1 {
      FreshRow(db, list, e, row, if owner == "" then options.owner else owner);
    }
  }

  lemma ReplayKeepsTyped(s: State, projectors: Projectors, d: Definition, e: Envelope, options: ReplayOptions)
    requires LogInv(s.db) && Typed(s)
    ensures var s1 := ReplayStep(s, projectors, d, e, options).0;
      Typed(s1) && Extends(s.definitions, s1.definitions)
  {
    var payload := ReplayPayload(d, e);
    if payload.Ok? && Bind(s.definitions, d).Ok? {
      BindExtends(s.definitions, d);
      var bound := s.(definitions := Bind(s.definitions, d).value);
      TypedStays(s, bound);
      var key, event := VersionedType(d), payload.value.0;
      var row := RowOf(event, key, payload.value.1);
      RowRoundTrip(d, e.data, e.metadata, event, event.durable.value.sequence);
      hide Typed, Suits, LogInv, Bind, ReplayPayload, Replayed, ValidDefinition;
      var replayed := Replayed(s.db, ProjectorsOf(projectors, key), event, row, options);
      if replayed.Ok? {
        ReplayedRow(s.db, ProjectorsOf(projectors, key), event, row, options);
        var s1 := bound.(db := replayed.value.0);
        if replayed.value.1 { TypedGrows(bound, s1, d, row); } else { TypedStays(bound, s1); }
        TypedNotified(s1, ReplayStep(s, projectors, d, e, options).0);
      }
    }
  }

  lemma TypedNotified(s: State, s1: State)
    requires Typed(s) && s1.db == s.db && s1.definitions == s.definitions
    ensures Typed(s1)
  {
    hide Suits;
  }

  lemma ExtendsTransitive(a: Bindings, b: Bindings, c: Bindings)
    requires Extends(a, b) && Extends(b, c)
    ensures Extends(a, c)
  {
  }

  lemma {:induction false} ReplayEachKeepsTyped(s: State, projectors: Projectors, entries: seq<ReplayEntry>,
                                                options: ReplayOptions)
    requires LogInv(s.db) && Typed(s)
    ensures var s1 := ReplayEach(s, projectors, entries, options).0;
      Typed(s1) && Extends(s.definitions, s1.definitions)
    decreases |entries|
  {
    if entries != [] {
      var (s1, first) := ReplayStep(s, projectors, entries[0].definition, entries[0].event, options);
      ReplayKeepsTyped(s, projectors, entries[0].definition, entries[0].event, options);
      ReplayKeepsLog(s, projectors, entries[0].definition, entries[0].event, options);
      hide Typed, LogInv, ReplayStep, Extends;
      if first.Ok? {
        ReplayEachKeepsTyped(s1, projectors, entries[1..], options);
        ExtendsTransitive(s.definitions, s1.definitions,
                          ReplayEach(s1, projectors, entries[1..], options).0.definitions);
      }
    }
  }

  lemma AdministeredTyped(s: State, s1: State)
    requires Typed(s) && s1.definitions == s.definitions
    requires forall k | k in s1.db.events :: k in s.db.events && s1.db.events[k] == s.db.events[k]
    ensures Typed(s1) && Extends(s.definitions, s1.definitions)
  {
    TypedStays(s, s1);
  }

  lemma ReplayAllKeepsTyped(s: State, projectors: Projectors, entries: seq<ReplayEntry>, options: ReplayOptions)
    requires LogInv(s.db) && Typed(s)
    ensures var s1 := ReplayAllStep(s, projectors, entries, options).0;
      Typed(s1) && Extends(s.definitions, s1.definitions)
  {
    AdministeredTyped(s, s);
    var bound := ChunkBound(s, entries);
    if bound.Ok? {
      ChunkDefinitionsValid(entries, 0);
      BindAllExtends(s.definitions, DefinitionsOf(entries));
      TypedStays(s, bound.value);
      hide Typed, LogInv, ReplayEach, ChunkBound, Extends;
      ReplayEachKeepsTyped(bound.value, projectors, entries, options);
      ExtendsTransitive(s.definitions, bound.value.definitions,
                        ReplayAllStep(s, projectors, entries, options).0.definitions);
    }
  }

  lemma EffectKeepsTyped(s: State, projectors: Projectors, c: Command)
    requires LogInv(s.db) && Typed(s)
    ensures Typed(Effect(s, projectors, c)) && Extends(s.definitions, Effect(s, projectors, c).definitions)
  {
    match c {
      case Publish(d, data, options, generated) => PublishKeepsTyped(s, projectors, d, data, options, generated);
      case Replay(d, e, options) => ReplayKeepsTyped(s, projectors, d, e, options);
      case ReplayAll(entries, options) => ReplayAllKeepsTyped(s, projectors, entries, options);
      case Claim(aggregate, owner) =>
        ClaimKeepsLog(s.db, aggregate, owner);
        AdministeredTyped(s, Effect(s, projectors, c));
      case Remove(aggregate) =>
        RemovedRows(s.db, aggregate);
        AdministeredTyped(s, Effect(s, projectors, c));
    }
  }

  lemma RemovedRows(db: Db, aggregate: string)
    ensures var r := RemoveTables(db, aggregate);
      r.Ok? ==> forall k | k in r.value.events :: k in db.events && r.value.events[k] == db.events[k]
  {
    hide StoreIdentity, Identity;
  }

  lemma NextKeepsTyped(s: State, projectors: Projectors, step: Step)
    requires LogInv(s.db) && Typed(s)
    ensures Typed(Next(s, projectors, step))
  {
    hide LogInv, Typed, Effect, ReplayEach, ChunkError, Extends;
    EffectKeepsTyped(s, projectors, step.command);
    var bound := s.(definitions := Effect(s, projectors, step.command).definitions);
    TypedStays(s, bound);
    if step.fate.After? && step.command.ReplayAll? && step.fate.n <= |step.command.entries| {
      ReplayEachKeepsTyped(bound, projectors, step.command.entries[..step.fate.n], step.command.replayOptions);
    }
  }

  /** Over every run, each stored row decodes and would be accepted again under its bound definition. */
  lemma {:induction false} EveryRunKeepsTyped(s: State, projectors: Projectors, steps: seq<Step>)
    requires LogInv(s.db) && Typed(s)
    ensures Typed(Run(s, projectors, steps))
    decreases |steps|
  {
    hide LogInv, Next, Typed;
    if steps != [] {
      NextKeepsLog(s, projectors, steps[0]);
      NextKeepsTyped(s, projectors, steps[0]);
      EveryRunKeepsTyped(Next(s, projectors, steps[0]), projectors, steps[1..]);
    }
  }

  lemma ReachableRowsReplay(projectors: Projectors, steps: seq<Step>)
    ensures Typed(Run(FRESH, projectors, steps))
  {
    EveryRunKeepsTyped(FRESH, projectors, steps);
  }
}
