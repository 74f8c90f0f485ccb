/** The event tables and the transaction methods of internal/store/sqlite/store.go. Any statement may fail;
    a failed or abandoned transaction leaves the committed tables as they were. */
module EventStore {
  import opened Text
  import opened Json
  import opened JsonCodec
  import opened JsonProofs

  const MAX_INT64 := 0x7FFF_FFFF_FFFF_FFFF

  /** Sequences are 64-bit integers: every sum below is proved to stay in range. */
  type Int64 = x: int | -MAX_INT64 - 1 <= x <= MAX_INT64

  /** An absent owner is "". */
  datatype SequenceState = SequenceState(latest: Int64, owner: string)

  datatype StoredEvent = StoredEvent(id: string, aggregate: string, sequence: Int64, name: string, data: string)

  datatype Key = Key(aggregate: string, sequence: Int64)

  /** The cells of the projection tables. */
  type Projection = map<string, string>

  datatype Db = Db(sequences: map<string, SequenceState>, events: map<Key, StoredEvent>, projection: Projection)

  const EMPTY_DB := Db(map[], map[], map[])

  datatype StoreError =
    | InvalidDefinition | InvalidEvent | EventConflict | ReplayConflict | SequenceConflict | OwnerConflict
    | InvalidInput | Storage | Refused

  type Outcome<T> = Result<T, StoreError>

  /** `validateStoreIdentity`. */
  predicate StoreIdentity(s: string) {
    Identity(s) && '\0' !in s
  }

  predicate IsEventID(id: string) {
    "evt_" <= id
  }

  predicate StoredEventID(id: string) {
    StoreIdentity(id) && IsEventID(id)
  }

  ghost predicate CanonicalObjectText(data: string) {
    CanonicalText(data) && Decode(data).value.Object?
  }

  /** `validateStoredEvent`. */
  ghost predicate ValidRow(row: StoredEvent) {
    StoredEventID(row.id) && StoreIdentity(row.aggregate) && row.sequence >= 0 && StoreIdentity(row.name) &&
    CanonicalObjectText(row.data)
  }

  // ---------- Statements ----------

  ghost predicate HasID(db: Db, id: string) {
    exists k :: k in db.events && db.events[k].id == id
  }

  function FindSequence(db: Db, aggregate: string): (r: Outcome<Option<SequenceState>>) {
    if !StoreIdentity(aggregate) then Err(InvalidInput)
    else if aggregate !in db.sequences then Ok(None)
    else if db.sequences[aggregate].latest < 0 then Err(Storage)
    else Ok(Some(db.sequences[aggregate]))
  }

  ghost function FindID(db: Db, id: string): (r: Outcome<bool>) {
    if !StoredEventID(id) then Err(InvalidInput) else Ok(HasID(db, id))
  }

  function FindAt(db: Db, aggregate: string, sequence: Int64): (r: Outcome<Option<StoredEvent>>) {
    if !StoreIdentity(aggregate) || sequence < 0 then Err(InvalidInput)
    else if Key(aggregate, sequence) in db.events then Ok(Some(db.events[Key(aggregate, sequence)]))
    else Ok(None)
  }

  function SequencePut(db: Db, aggregate: string, state: SequenceState): (r: Outcome<Db>) {
    if !StoreIdentity(aggregate) || state.latest < 0 || (state.owner != "" && !StoreIdentity(state.owner))
    then Err(InvalidInput)
    else Ok(db.(sequences := db.sequences[aggregate := state]))
  }

  /** The primary key, the unique (aggregate, sequence) index and the foreign key. */
  ghost predicate Insertable(db: Db, row: StoredEvent) {
    !HasID(db, row.id) && Key(row.aggregate, row.sequence) !in db.events && row.aggregate in db.sequences
  }

  ghost function EventInserted(db: Db, row: StoredEvent): (r: Outcome<Db>) {
    if !ValidRow(row) then Err(InvalidInput)
    else if !Insertable(db, row) then Err(Storage)
    else Ok(db.(events := db.events[Key(row.aggregate, row.sequence) := row]))
  }

  /** Deleting the sequence row cascades to the events. */
  function AggregateDeleted(db: Db, aggregate: string): (r: Outcome<Db>) {
    if !StoreIdentity(aggregate) then Err(InvalidInput)
    else Ok(db.(sequences := db.sequences - {aggregate},
                events := if aggregate in db.sequences
                          then map k | k in db.events && k.aggregate != aggregate :: db.events[k]
                          else db.events))
  }

  // ---------- The connection ----------

  /** The writer connection: `working` is what the open transaction sees. */
  class Connection {
    var committed: Db
    var working: Db
    var operations: nat
    const faults: nat -> bool

    constructor (faults: nat -> bool)
      ensures committed == EMPTY_DB && this.faults == faults
    {
      this.faults := faults;
      committed, working, operations := EMPTY_DB, EMPTY_DB, 0;
    }

    ghost predicate Reliable()
      reads this
    {
      forall n :: !faults(n)
    }

    /** A statement answers what it should, or reports that the storage failed. */
    ghost predicate Answers<T(!new)>(r: Outcome<T>, spec: Outcome<T>)
      reads this
    {
      r == spec || (!Reliable() && r == Err(Storage))
    }

    /** A statement that changes the open transaction, and only that. */
    ghost predicate Changes(r: Outcome<()>, before: Db, spec: Outcome<Db>)
      reads this
    {
      match r
      case Ok(_) => spec == Ok(working)
      case Err(e) => working == before && Answers(Err(e), spec)
    }

    method Strike() returns (failed: bool)
      modifies this`operations
      ensures failed ==> !Reliable()
    {
      failed := faults(operations);
      operations := operations + 1;
    }

    method Begin() returns (r: Outcome<()>)
      modifies this`working, this`operations
      ensures r == Ok(()) || (!Reliable() && r == Err(Storage))
      ensures working == committed
    {
      working := committed;
      var failed := Strike();
      r := if failed then Err(Storage) else Ok(());
    }

    method Commit() returns (r: Outcome<()>)
      modifies this
      ensures r == Ok(()) || (!Reliable() && r == Err(Storage))
      ensures committed == if r.Ok? then old(working) else old(committed)
    {
      var failed := Strike();
      if failed { return Err(Storage); }
      committed := working;
      r := Ok(());
    }

    method Sequence(aggregate: string) returns (r: Outcome<Option<SequenceState>>)
      modifies this`operations
      ensures Answers(r, FindSequence(working, aggregate))
    {
      if !StoreIdentity(aggregate) { return Err(InvalidInput); }
      var failed := Strike();
      if failed { return Err(Storage); }
      r := FindSequence(working, aggregate);
    }

    method EventByID(id: string) returns (r: Outcome<bool>)
      modifies this`operations
      ensures Answers(r, FindID(working, id))
    {
      if !StoredEventID(id) { return Err(InvalidInput); }
      var failed := Strike();
      if failed { return Err(Storage); }
      var left := working.events.Keys;
      while left != {}
        invariant left <= working.events.Keys
        invariant forall k | k in working.events.Keys - left :: working.events[k].id != id
        decreases |left|
      {
        var k :| k in left;
        if working.events[k].id == id { return Ok(true); }
        left := left - {k};
      }
      r := Ok(false);
    }

    method EventAt(aggregate: string, sequence: Int64) returns (r: Outcome<Option<StoredEvent>>)
      modifies this`operations
      ensures Answers(r, FindAt(working, aggregate, sequence))
    {
      if !StoreIdentity(aggregate) || sequence < 0 { return Err(InvalidInput); }
      var failed := Strike();
      if failed { return Err(Storage); }
      r := FindAt(working, aggregate, sequence);
    }

    method PutSequence(aggregate: string, state: SequenceState) returns (r: Outcome<()>)
      modifies this`working, this`operations
      ensures Changes(r, old(working), SequencePut(old(working), aggregate, state))
    {
      var put := SequencePut(working, aggregate, state);
      if put.Err? { return Err(put.error); }
      var failed := Strike();
      if failed { return Err(Storage); }
      working := put.value;
      r := Ok(());
    }

    method InsertEvent(row: StoredEvent) returns (r: Outcome<()>)
      modifies this`working, this`operations
      ensures Changes(r, old(working), EventInserted(old(working), row))
    {
      var valid := ValidateRow(row);
      if !valid { return Err(InvalidInput); }
      var known := EventByID(row.id);
      if known.Err? { return Err(Storage); }
      if known.value || Key(row.aggregate, row.sequence) in working.events || row.aggregate !in working.sequences {
        return Err(Storage);
      }
      working := working.(events := working.events[Key(row.aggregate, row.sequence) := row]);
      r := Ok(());
    }

    method DeleteAggregate(aggregate: string) returns (r: Outcome<()>)
      modifies this`working, this`operations
      ensures Changes(r, old(working), AggregateDeleted(old(working), aggregate))
    {
      var deleted := AggregateDeleted(working, aggregate);
      if deleted.Err? { return Err(deleted.error); }
      var failed := Strike();
      if failed { return Err(Storage); }
      working := deleted.value;
      r := Ok(());
    }
  }

  method ValidateRow(row: StoredEvent) returns (valid: bool)
    ensures valid <==> ValidRow(row)
  {
    if !StoredEventID(row.id) || !StoreIdentity(row.aggregate) || row.sequence < 0 || !StoreIdentity(row.name) {
      return false;
    }
    var decoded := DecodeJSONValue(row.data);
    if decoded.Err? || !decoded.value.Object? { return false; }
    var canonical := EncodeJSONValue(decoded.value);
    valid := canonical == Ok(row.data);
  }
}
