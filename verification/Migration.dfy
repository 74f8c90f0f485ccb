/** internal/store/sqlite/migration.go: the migration catalog, the plan for a database, and any number of
    migrators applying it at once. `digest` stands for the checksum function. */
module Migration {
  import opened Text
  import opened StringOrder

  datatype Script = Script(id: string, sql: string, checksum: string)

  datatype Applied = Applied(id: string, checksum: string)

  datatype MigrationError = Invalid | Checksum | Downgrade | Failed

  type Outcome<T> = Result<T, MigrationError>

  type Digest = string -> string

  // ---------- The catalog ----------

  predicate IdCharacter(c: char) {
    'a' <= c <= 'z' || '0' <= c <= '9' || c == '_'
  }

  /** Six digits, an underscore, and at least one more character. */
  predicate ValidID(id: string) {
    |id| > 7 && (forall i | 0 <= i < 6 :: '0' <= id[i] <= '9') && id[6] == '_' &&
    forall i | 7 <= i < |id| :: IdCharacter(id[i])
  }

  predicate ValidSQL(sql: string) {
    !Blank(sql) && '\r' !in sql && sql[|sql| - 1] == '\n'
  }

  function ScriptError(migrations: seq<Script>, digest: Digest, i: nat): (e: Option<MigrationError>)
    requires i < |migrations|
  {
    var m := migrations[i];
    if !ValidID(m.id) || (i > 0 && !Below(migrations[i - 1].id, m.id)) || !ValidSQL(m.sql) then Some(Invalid)
    else if m.checksum != "" && m.checksum != digest(m.sql) then Some(Checksum)
    else None
  }

  function CatalogError(migrations: seq<Script>, digest: Digest, i: nat): (e: Option<MigrationError>)
    requires i <= |migrations|
    decreases |migrations| - i
  {
    if i == |migrations| then None
    else if ScriptError(migrations, digest, i).Some? then ScriptError(migrations, digest, i)
    else CatalogError(migrations, digest, i + 1)
  }

  function Filled(migrations: seq<Script>, digest: Digest): (r: seq<Script>) {
    seq(|migrations|, i requires 0 <= i < |migrations| => migrations[i].(checksum := digest(migrations[i].sql)))
  }

  function Validated(migrations: seq<Script>, digest: Digest): (r: Outcome<seq<Script>>) {
    if migrations == [] then Err(Invalid)
    else if CatalogError(migrations, digest, 0).Some? then Err(CatalogError(migrations, digest, 0).value)
    else Ok(Filled(migrations, digest))
  }

  method ValidateMigrationCatalog(migrations: seq<Script>, digest: Digest) returns (r: Outcome<seq<Script>>)
    ensures r == Validated(migrations, digest)
  {
    if migrations == [] { return Err(Invalid); }
    hide ValidID, ValidSQL, Below;
    var result: seq<Script> := [];
    var previous := "";
    for i := 0 to |migrations|
      invariant CatalogError(migrations, digest, i) == CatalogError(migrations, digest, 0)
      invariant previous == if i == 0 then "" else migrations[i - 1].id
      invariant i > 0 ==> ValidID(previous)
      invariant |result| == i && result == Filled(migrations, digest)[..i]
    {
      var m := migrations[i];
      NotEmpty(previous);
      if !ValidID(m.id) { return Err(Invalid); }
      if previous != "" && !Below(previous, m.id) { return Err(Invalid); }
      if !ValidSQL(m.sql) { return Err(Invalid); }
      if m.checksum != "" && m.checksum != digest(m.sql) { return Err(Checksum); }
      result := result + [m.(checksum := digest(m.sql))];
      previous := m.id;
    }
    assert Filled(migrations, digest)[..|migrations|] == Filled(migrations, digest);
    r := Ok(result);
  }

  lemma NotEmpty(id: string)
    ensures ValidID(id) ==> id != ""
  {
  }

  /** What a validated catalog is: ids in strictly increasing order, checksums filled in. */
  ghost predicate Catalog(c: seq<Script>, digest: Digest) {
    c != [] && Ascending(Ids(c)) &&
    forall i | 0 <= i < |c| :: ValidID(c[i].id) && ValidSQL(c[i].sql) && c[i].checksum == digest(c[i].sql)
  }

  function Ids(c: seq<Script>): (ids: seq<string>)
    ensures |ids| == |c|
  {
    seq(|c|, i requires 0 <= i < |c| => c[i].id)
  }

  lemma {:induction false} NoErrorFrom(migrations: seq<Script>, digest: Digest, i: nat)
    requires i <= |migrations| && CatalogError(migrations, digest, i).None?
    ensures forall j | i <= j < |migrations| :: ScriptError(migrations, digest, j).None?
    decreases |migrations| - i
  {
    hide ScriptError;
    if i < |migrations| { NoErrorFrom(migrations, digest, i + 1); }
  }

  lemma {:induction false} IdsAscend(migrations: seq<Script>, i: nat, j: nat)
    requires i < j < |migrations| && forall k | 0 < k < |migrations| :: Below(migrations[k - 1].id, migrations[k].id)
    ensures Below(migrations[i].id, migrations[j].id)
    decreases j
  {
    if i < j - 1 {
      IdsAscend(migrations, i, j - 1);
      BelowTransitive(migrations[i].id, migrations[j - 1].id, migrations[j].id);
    }
  }

  lemma ValidatedIsACatalog(migrations: seq<Script>, digest: Digest)
    requires Validated(migrations, digest).Ok?
    ensures Catalog(Validated(migrations, digest).value, digest)
  {
    NoErrorFrom(migrations, digest, 0);
    hide ValidID, ValidSQL, Below, CatalogError;
    var c := Filled(migrations, digest);
    forall j | 0 <= j < |migrations|
      ensures ValidID(migrations[j].id) && ValidSQL(migrations[j].sql) &&
        (j > 0 ==> Below(migrations[j - 1].id, migrations[j].id))
    {
      assert ScriptError(migrations, digest, j).None?;
    }
    forall i, j | 0 <= i < j < |c| ensures Below(Ids(c)[i], Ids(c)[j]) { IdsAscend(migrations, i, j); }
  }

  // ---------- Which catalogs are refused ----------

  /** A script that may stand in a catalog: id and text well formed, a checksum that is empty or right, and an id
      that comes after the one before. */
  predicate Proper(migrations: seq<Script>, digest: Digest, i: nat)
    requires i < |migrations|
  {
    Placed(migrations, i) && (migrations[i].checksum == "" || migrations[i].checksum == digest(migrations[i].sql))
  }

  predicate Placed(migrations: seq<Script>, i: nat)
    requires i < |migrations|
  {
    ValidID(migrations[i].id) && ValidSQL(migrations[i].sql) &&
    (i == 0 || Below(migrations[i - 1].id, migrations[i].id))
  }

  lemma {:induction false} FirstFault(migrations: seq<Script>, digest: Digest, i: nat)
    requires i <= |migrations|
    ensures var e := CatalogError(migrations, digest, i);
      if e.None? then forall j | i <= j < |migrations| :: Proper(migrations, digest, j)
      else
        exists j ::
          i <= j < |migrations| && !Proper(migrations, digest, j) &&
          (forall k | i <= k < j :: Proper(migrations, digest, k)) &&
          e == Some(if Placed(migrations, j) then Checksum else Invalid)
    decreases |migrations| - i
  {
    hide ValidID, ValidSQL, Below;
    if i < |migrations| {
      assert Proper(migrations, digest, i) <==> ScriptError(migrations, digest, i).None?;
      if Proper(migrations, digest, i) { FirstFault(migrations, digest, i + 1); }
    }
  }

  /** A catalog is accepted, its checksums filled in, if and only if it has scripts and all of them are proper; a
      refusal is about the first that is not. */
  lemma ValidatesExactly(migrations: seq<Script>, digest: Digest)
    ensures match Validated(migrations, digest)
      case Ok(c) =>
        migrations != [] && (forall i | 0 <= i < |migrations| :: Proper(migrations, digest, i)) &&
        |c| == |migrations| &&
        forall i | 0 <= i < |c| :: c[i] == Script(migrations[i].id, migrations[i].sql, digest(migrations[i].sql))
      case Err(e) =>
        if migrations == [] then e == Invalid
        else
          exists j ::
            0 <= j < |migrations| && !Proper(migrations, digest, j) &&
            (forall k | 0 <= k < j :: Proper(migrations, digest, k)) &&
            e == (if Placed(migrations, j) then Checksum else Invalid)
  {
    FirstFault(migrations, digest, 0);
    hide Proper, Placed, CatalogError;
  }

  // ---------- The plan ----------

  function Rows(c: seq<Script>): (rows: seq<Applied>) {
    seq(|c|, i requires 0 <= i < |c| => Applied(c[i].id, c[i].checksum))
  }

  function PlanError(c: seq<Script>, applied: seq<Applied>, i: nat): (e: Option<MigrationError>)
    requires i <= |applied| <= |c|
    decreases |applied| - i
  {
    if i == |applied| then None
    else if applied[i].id != c[i].id then Some(Downgrade)
    else if applied[i].checksum != c[i].checksum then Some(Checksum)
    else PlanError(c, applied, i + 1)
  }

  function Plan(migrations: seq<Script>, digest: Digest, applied: seq<Applied>): (r: Outcome<seq<Script>>) {
    var c := Validated(migrations, digest);
    if c.Err? then c
    else if |applied| > |c.value| then Err(Downgrade)
    else if PlanError(c.value, applied, 0).Some? then Err(PlanError(c.value, applied, 0).value)
    else Ok(c.value[|applied|..])
  }

  method PlanMigrations(migrations: seq<Script>, digest: Digest, applied: seq<Applied>)
    returns (r: Outcome<seq<Script>>)
    ensures r == Plan(migrations, digest, applied)
  {
    hide Validated;
    r := ValidateMigrationCatalog(migrations, digest);
    if r.Err? { return; }
    var c := r.value;
    if |applied| > |c| { return Err(Downgrade); }
    for i := 0 to |applied|
      invariant PlanError(c, applied, i) == PlanError(c, applied, 0)
    {
      if applied[i].id != c[i].id { return Err(Downgrade); }
      if applied[i].checksum != c[i].checksum { return Err(Checksum); }
    }
    r := Ok(c[|applied|..]);
  }

  lemma {:induction false} NoPlanError(c: seq<Script>, applied: seq<Applied>, i: nat)
    requires i <= |applied| <= |c|
    ensures PlanError(c, applied, i).None? <==> forall j | i <= j < |applied| :: applied[j] == Rows(c)[j]
    decreases |applied| - i
  {
    if i < |applied| { NoPlanError(c, applied, i + 1); }
  }

  /** A plan exists exactly for the prefixes of the catalog, and is what follows the prefix. */
  lemma PlanAcceptsExactlyPrefixes(migrations: seq<Script>, digest: Digest, applied: seq<Applied>)
    requires Validated(migrations, digest).Ok?
    ensures var c := Validated(migrations, digest).value;
      (Plan(migrations, digest, applied).Ok? <==> applied <= Rows(c)) &&
      (applied <= Rows(c) ==> Rows(c) == applied + Rows(Plan(migrations, digest, applied).value))
  {
    var c := Validated(migrations, digest).value;
    hide Validated;
    if |applied| <= |c| {
      NoPlanError(c, applied, 0);
      assert applied <= Rows(c) <==> forall j | 0 <= j < |applied| :: applied[j] == Rows(c)[j];
    }
  }

  lemma {:induction false} FirstMismatch(c: seq<Script>, applied: seq<Applied>, i: nat)
    requires i <= |applied| <= |c| && PlanError(c, applied, i).Some?
    ensures exists j ::
      i <= j < |applied| && applied[j] != Rows(c)[j] &&
      (forall k | i <= k < j :: applied[k] == Rows(c)[k]) &&
      PlanError(c, applied, i) == Some(if applied[j].id == c[j].id then Checksum else Downgrade)
    decreases |applied| - i
  {
    if applied[i] == Rows(c)[i] { FirstMismatch(c, applied, i + 1); }
  }

  /** A database is refused for its first row that differs from the catalog: a changed checksum under the same id,
      or anything else, rows beyond the catalog included, as a downgrade. */
  lemma PlanRefuses(migrations: seq<Script>, digest: Digest, applied: seq<Applied>)
    requires Validated(migrations, digest).Ok? && Plan(migrations, digest, applied).Err?
    ensures var c := Validated(migrations, digest).value;
      var e := Plan(migrations, digest, applied).error;
      if |applied| > |c| then e == Downgrade
      else
        exists j ::
          0 <= j < |applied| && applied[j] != Rows(c)[j] &&
          (forall k | 0 <= k < j :: applied[k] == Rows(c)[k]) &&
          e == (if applied[j].id == c[j].id then Checksum else Downgrade)
  {
    var c := Validated(migrations, digest).value;
    hide Validated;
    if |applied| <= |c| { FirstMismatch(c, applied, 0); }
  }

  // ---------- The database ----------

  /** The migration table, and the ids of the scripts whose SQL took effect, in order. */
  datatype Database = Database(table: map<string, string>, effects: seq<string>)

  /** Exactly the first `n` migrations, each executed once and in order. */
  ghost predicate HoldsPrefix(db: Database, c: seq<Script>, n: nat) {
    n <= |c| && db.effects == Ids(c)[..n] && db.table.Keys == (set i | 0 <= i < n :: c[i].id) &&
    forall i | 0 <= i < n :: c[i].id in db.table && db.table[c[i].id] == c[i].checksum
  }

  /** The table's rows in id order. */
  ghost function Listing(table: map<string, string>): (rows: seq<Applied>) {
    SortedLists(table.Keys);
    var keys := Sorted(table.Keys);
    seq(|keys|, i requires 0 <= i < |keys| => (assert keys[i] in keys; Applied(keys[i], table[keys[i]])))
  }

  lemma PrefixLists(db: Database, c: seq<Script>, digest: Digest, n: nat)
    requires Catalog(c, digest) && HoldsPrefix(db, c, n)
    ensures Lists(Ids(c)[..n], db.table.Keys)
  {
    hide ValidID, ValidSQL, Below;
    var ids := Ids(c)[..n];
    forall k ensures k in ids <==> k in db.table.Keys {
      if k in ids { var i :| 0 <= i < n && ids[i] == k; }
      if k in db.table.Keys {
        var i :| 0 <= i < n && c[i].id == k;
        assert ids[i] == k;
      }
    }
  }

  lemma PrefixListing(db: Database, c: seq<Script>, digest: Digest, n: nat)
    requires Catalog(c, digest) && HoldsPrefix(db, c, n)
    ensures Listing(db.table) == Rows(c)[..n]
  {
    PrefixLists(db, c, digest, n);
    SortedLists(db.table.Keys);
    hide Catalog, Lists, Sorted, Below;
    ListingUnique(Ids(c)[..n], Sorted(db.table.Keys), db.table.Keys);
  }

  /** One migration, with nothing exposed by a failure; false when it is already recorded. */
  function OneApplied(db: Database, m: Script): (r: Outcome<(Database, bool)>) {
    if m.id in db.table then (if db.table[m.id] != m.checksum then Err(Checksum) else Ok((db, false)))
    else Ok((Database(db.table[m.id := m.checksum], db.effects + [m.id]), true))
  }

  lemma IdsDistinct(c: seq<Script>, digest: Digest, i: nat, j: nat)
    requires Catalog(c, digest) && i < j < |c|
    ensures c[i].id != c[j].id
  {
    assert Below(Ids(c)[i], Ids(c)[j]);
    BelowAsymmetric(c[i].id, c[j].id);
  }

  /** Applying the migration at a position inside or right after the prefix. */
  lemma AppliedKeepsPrefix(db: Database, c: seq<Script>, digest: Digest, n: nat, p: nat)
    requires Catalog(c, digest) && HoldsPrefix(db, c, n) && p <= n && p < |c|
    ensures var r := OneApplied(db, c[p]);
      r.Ok? && (r.value.1 <==> p == n) && HoldsPrefix(r.value.0, c, if p == n then n + 1 else n)
  {
    hide ValidID, Below;
    if p == n {
      forall i | 0 <= i < n ensures c[i].id != c[n].id { IdsDistinct(c, digest, i, n); }
      assert Ids(c)[..n + 1] == Ids(c)[..n] + [c[n].id];
    }
  }

  // ---------- Concurrent migrators ----------

  /** How many of its planned migrations a migrator has dealt with and committed, and whether it returned. */
  datatype Migrator = Running(position: nat, committed: nat) | Done(committed: nat, ok: bool)

  datatype World = World(db: Database, migrators: map<nat, Migrator>)

  /** `fails` stands for an error or a cancellation at that point. */
  datatype Move = Begin(id: nat, fails: bool) | Apply(id: nat, fails: bool)

  ghost predicate CanMove(w: World, m: Move) {
    match m
    case Begin(id, _) => id !in w.migrators
    case Apply(id, _) => id in w.migrators && w.migrators[id].Running?
  }

  ghost function Moved(w: World, c: seq<Script>, m: Move): (r: World)
    requires CanMove(w, m)
  {
    match m
    case Begin(id, fails) =>
      var applied := Listing(w.db.table);
      w.(migrators := w.migrators[id :=
        if fails || !(applied <= Rows(c)) then Done(0, false) else Running(|applied|, 0)])
    case Apply(id, fails) =>
      var s := w.migrators[id];
      if fails then w.(migrators := w.migrators[id := Done(s.committed, false)])
      else if s.position >= |c| then w.(migrators := w.migrators[id := Done(s.committed, true)])
      else
        var r := OneApplied(w.db, c[s.position]);
        if r.Err? then w.(migrators := w.migrators[id := Done(s.committed, false)])
        else
          World(r.value.0, w.migrators[id :=
            Running(s.position + 1, if r.value.1 then s.committed + 1 else s.committed)])
  }

  function Without(migrators: map<nat, Migrator>, id: nat): (r: map<nat, Migrator>)
    ensures r.Keys == migrators.Keys - {id}
    ensures id in migrators ==> |r| < |migrators|
  {
    var r := map j | j in migrators && j != id :: migrators[j];
    assert r.Keys == migrators.Keys - {id};
    r
  }

  ghost function AnyOf(migrators: map<nat, Migrator>): (id: nat)
    requires migrators != map[]
    ensures id in migrators
  {
    var id :| id in migrators;
    id
  }

  ghost function Total(migrators: map<nat, Migrator>): (n: nat)
    decreases |migrators|
  {
    if migrators == map[] then 0
    else
      var id := AnyOf(migrators);
      migrators[id].committed + Total(Without(migrators, id))
  }

  lemma WithoutBoth(migrators: map<nat, Migrator>, i: nat, j: nat)
    ensures Without(Without(migrators, i), j) == Without(Without(migrators, j), i)
  {
  }

  /** The order in which the counts are added does not matter. */
  lemma {:induction false} TotalWithout(migrators: map<nat, Migrator>, id: nat)
    requires id in migrators
    ensures Total(migrators) == migrators[id].committed + Total(Without(migrators, id))
    decreases |migrators|
  {
    var first := AnyOf(migrators);
    assert Total(migrators) == migrators[first].committed + Total(Without(migrators, first));
    hide Total, AnyOf, Without;
    if first != id {
      TotalWithout(Without(migrators, first), id);
      TotalWithout(Without(migrators, id), first);
      WithoutBoth(migrators, first, id);
    }
  }

  lemma TotalPut(migrators: map<nat, Migrator>, id: nat, s: Migrator)
    ensures Total(migrators[id := s]) ==
      s.committed + Total(migrators) - if id in migrators then migrators[id].committed else 0
  {
    hide Total;
    var after := migrators[id := s];
    TotalWithout(after, id);
    assert Without(after, id) == Without(migrators, id);
    if id in migrators { TotalWithout(migrators, id); } else { assert Without(migrators, id) == migrators; }
  }

  /** The table is a prefix, no migrator is ahead of it, one that returned well saw it complete, and the
      committed counts add up to the rows added since the start. */
  ghost predicate Inv(w: World, c: seq<Script>, start: nat, n: nat) {
    start <= n && HoldsPrefix(w.db, c, n) && Total(w.migrators) == n - start &&
    forall id | id in w.migrators :: Behind(w.migrators[id], c, n)
  }

  predicate Behind(s: Migrator, c: seq<Script>, n: nat) {
    match s
    case Running(position, _) => position <= n
    case Done(_, ok) => ok ==> n == |c|
  }

  lemma BeginKeeps(w: World, c: seq<Script>, digest: Digest, start: nat, n: nat, m: Move)
    requires Catalog(c, digest) && Inv(w, c, start, n) && CanMove(w, m) && m.Begin?
    ensures Inv(Moved(w, c, m), c, start, n)
  {
    PrefixListing(w.db, c, digest, n);
    PrefixSize(w.db, c, n);
    hide HoldsPrefix, Total, Listing, Catalog;
    TotalPut(w.migrators, m.id, Moved(w, c, m).migrators[m.id]);
  }

  lemma ApplyKeeps(w: World, c: seq<Script>, digest: Digest, start: nat, n: nat, m: Move) returns (n1: nat)
    requires Catalog(c, digest) && Inv(w, c, start, n) && CanMove(w, m) && m.Apply?
    ensures n <= n1 <= n + 1 && Inv(Moved(w, c, m), c, start, n1)
  {
    hide HoldsPrefix, OneApplied, Total, Catalog;
    n1 := n;
    PrefixSize(w.db, c, n);
    var w1 := Moved(w, c, m);
    TotalPut(w.migrators, m.id, w1.migrators[m.id]);
    var p := w.migrators[m.id].position;
    if !m.fails && p < |c| {
      AppliedKeepsPrefix(w.db, c, digest, n, p);
      if p == n { n1 := n + 1; }
    }
    OthersKeep(w, w1, c, start, n, n1, m.id);
  }

  lemma OthersKeep(w: World, w1: World, c: seq<Script>, start: nat, n: nat, n1: nat, id: nat)
    requires Inv(w, c, start, n) && n <= n1 <= |c|
    requires forall j | j in w1.migrators && j != id :: j in w.migrators && w1.migrators[j] == w.migrators[j]
    ensures forall j | j in w1.migrators && j != id :: Behind(w1.migrators[j], c, n1)
  {
    hide HoldsPrefix, Total;
    forall j | j in w1.migrators && j != id ensures Behind(w1.migrators[j], c, n1) {
      assert Behind(w.migrators[j], c, n);
    }
  }

  lemma MoveKeeps(w: World, c: seq<Script>, digest: Digest, start: nat, n: nat, m: Move) returns (n1: nat)
    requires Catalog(c, digest) && Inv(w, c, start, n) && CanMove(w, m)
    ensures n <= n1 <= n + 1 && Inv(Moved(w, c, m), c, start, n1)
  {
    hide *;
    n1 := n;
    if m.Begin? { BeginKeeps(w, c, digest, start, n, m); } else { n1 := ApplyKeeps(w, c, digest, start, n, m); }
  }

  lemma PrefixSize(db: Database, c: seq<Script>, n: nat)
    requires HoldsPrefix(db, c, n)
    ensures n <= |c|
  {
  }

  ghost predicate IsRun(worlds: seq<World>, moves: seq<Move>, c: seq<Script>) {
    |worlds| == |moves| + 1 && worlds[0].migrators == map[] &&
    forall i | 0 <= i < |moves| :: Steps(worlds[i], moves[i], worlds[i + 1], c)
  }

  ghost predicate Steps(w: World, m: Move, w1: World, c: seq<Script>) {
    CanMove(w, m) && w1 == Moved(w, c, m)
  }

  lemma {:induction false} RunKeeps(worlds: seq<World>, moves: seq<Move>, c: seq<Script>, digest: Digest, start: nat,
                                    i: nat)
    returns (n: nat)
    requires Catalog(c, digest) && IsRun(worlds, moves, c) && HoldsPrefix(worlds[0].db, c, start) && i < |worlds|
    ensures Inv(worlds[i], c, start, n)
    decreases i
  {
    hide Catalog, CanMove, Moved, HoldsPrefix;
    if i == 0 {
      n := start;
    } else {
      n := RunKeeps(worlds, moves, c, digest, start, i - 1);
      hide Inv;
      assert Steps(worlds[i - 1], moves[i - 1], worlds[i - 1 + 1], c);
      n := MoveKeeps(worlds[i - 1], c, digest, start, n, moves[i - 1]);
    }
  }

  /** For any number of migrators and any failures: at every moment the table is a prefix of the catalog whose
      scripts ran exactly once each, in order; the counts of newly committed migrations add up to the growth
      of that prefix; and once a migrator has returned without an error the catalog is complete. */
  lemma EveryRunAppliesAPrefix(worlds: seq<World>, moves: seq<Move>, c: seq<Script>, digest: Digest, start: nat, i: nat)
    requires Catalog(c, digest) && IsRun(worlds, moves, c) && HoldsPrefix(worlds[0].db, c, start) && i < |worlds|
    ensures exists n :: start <= n && HoldsPrefix(worlds[i].db, c, n) && Total(worlds[i].migrators) == n - start
    ensures (exists id :: id in worlds[i].migrators && worlds[i].migrators[id].Done? && worlds[i].migrators[id].ok) ==>
      HoldsPrefix(worlds[i].db, c, |c|)
  {
    var n := RunKeeps(worlds, moves, c, digest, start, i);
    hide Catalog, HoldsPrefix, Total, IsRun;
  }

  // ---------- Retrying ----------

  /** A step that meets no failure of its own does not end in an error: a prefix is never refused, and no
      recorded checksum differs. */
  lemma NoFailureNoError(w: World, c: seq<Script>, digest: Digest, start: nat, n: nat, m: Move)
    requires Catalog(c, digest) && Inv(w, c, start, n) && CanMove(w, m) && !m.fails
    ensures var s := Moved(w, c, m).migrators[m.id];
      match m
      case Begin(_, _) => s == Running(n, 0)
      case Apply(_, _) =>
        var before := w.migrators[m.id];
        if before.position < |c| then s.Running? && s.position == before.position + 1
        else s == Done(before.committed, true)
  {
    hide HoldsPrefix, Total, Listing, Catalog, OneApplied;
    PrefixSize(w.db, c, n);
    if m.Begin? {
      PrefixListing(w.db, c, digest, n);
    } else if w.migrators[m.id].position < |c| {
      AppliedKeepsPrefix(w.db, c, digest, n, w.migrators[m.id].position);
    }
  }

  /** How many of the first `i` moves are a migrator's own. */
  function OwnMoves(moves: seq<Move>, i: nat, id: nat): (n: nat)
    requires i <= |moves|
    ensures n <= i
  {
    if i == 0 then 0 else OwnMoves(moves, i - 1, id) + if moves[i - 1].id == id then 1 else 0
  }

  predicate MeetsNoFailure(moves: seq<Move>, i: nat, id: nat) {
    i <= |moves| && forall j | 0 <= j < i && moves[j].id == id :: !moves[j].fails
  }

  /** A migrator that met no failure: not begun, running with one position for each move, or done well. */
  predicate OnItsWay(w: World, id: nat, own: nat) {
    if id !in w.migrators then own == 0
    else
      match w.migrators[id]
      case Running(position, _) => 0 < own <= position + 1
      case Done(_, ok) => ok
  }

  lemma MoveIsOnItsWay(w: World, c: seq<Script>, digest: Digest, start: nat, n: nat, m: Move, id: nat, own: nat)
    requires Catalog(c, digest) && Inv(w, c, start, n) && CanMove(w, m) && OnItsWay(w, id, own)
    requires m.id == id ==> !m.fails
    ensures OnItsWay(Moved(w, c, m), id, if m.id == id then own + 1 else own)
  {
    if m.id == id { NoFailureNoError(w, c, digest, start, n, m); }
    hide Inv, Catalog, Listing, OneApplied;
  }

  lemma {:induction false} RunIsOnItsWay(worlds: seq<World>, moves: seq<Move>, c: seq<Script>, digest: Digest,
                                         start: nat, i: nat, id: nat)
    requires Catalog(c, digest) && IsRun(worlds, moves, c) && HoldsPrefix(worlds[0].db, c, start)
    requires MeetsNoFailure(moves, i, id)
    ensures OnItsWay(worlds[i], id, OwnMoves(moves, i, id))
    decreases i
  {
    hide Catalog, CanMove, Moved, HoldsPrefix, Inv;
    if i > 0 {
      RunIsOnItsWay(worlds, moves, c, digest, start, i - 1, id);
      var n := RunKeeps(worlds, moves, c, digest, start, i - 1);
      assert Steps(worlds[i - 1], moves[i - 1], worlds[i - 1 + 1], c);
      hide OnItsWay;
      MoveIsOnItsWay(worlds[i - 1], c, digest, start, n, moves[i - 1], id, OwnMoves(moves, i - 1, id));
    }
  }

  /** A retry completes the catalog: a migrator that meets no failure never returns an error, and after one move
      to begin, one for each migration and one to end it has returned well, with every migration applied,
      whatever other migrators did and how they failed. */
  lemma RetryCompletes(worlds: seq<World>, moves: seq<Move>, c: seq<Script>, digest: Digest, start: nat, i: nat,
                       id: nat)
    requires Catalog(c, digest) && IsRun(worlds, moves, c) && HoldsPrefix(worlds[0].db, c, start)
    requires MeetsNoFailure(moves, i, id)
    ensures id in worlds[i].migrators && worlds[i].migrators[id].Done? ==> worlds[i].migrators[id].ok
    ensures OwnMoves(moves, i, id) >= |c| + 2 ==>
      id in worlds[i].migrators && worlds[i].migrators[id].Done? && HoldsPrefix(worlds[i].db, c, |c|)
  {
    hide Catalog, IsRun, HoldsPrefix, Total;
    RunIsOnItsWay(worlds, moves, c, digest, start, i, id);
    SizeOfRun(worlds, moves, c);
    var n := RunKeeps(worlds, moves, c, digest, start, i);
    PrefixSize(worlds[i].db, c, n);
    assert id in worlds[i].migrators ==> Behind(worlds[i].migrators[id], c, n);
  }

  lemma SizeOfRun(worlds: seq<World>, moves: seq<Move>, c: seq<Script>)
    requires IsRun(worlds, moves, c)
    ensures |worlds| == |moves| + 1
  {
  }

  // ---------- One migrator ----------

  lemma ListingAt(table: map<string, string>, i: nat)
    requires i < |Sorted(table.Keys)|
    ensures var keys := Sorted(table.Keys);
      |Listing(table)| == |keys| && keys[i] in table && Listing(table)[i] == Applied(keys[i], table[keys[i]])
  {
    SortedLists(table.Keys);
    assert Sorted(table.Keys)[i] in Sorted(table.Keys);
  }

  lemma ListingSize(table: map<string, string>)
    ensures |Listing(table)| == |Sorted(table.Keys)|
  {
  }

  method ReadRows(table: map<string, string>) returns (rows: seq<Applied>)
    ensures rows == Listing(table)
  {
    hide Listing, Lists, Sorted;
    var keys := SortKeys(table.Keys);
    rows := [];
    ListingSize(table);
    for i := 0 to |keys|
      invariant |rows| == i && rows == Listing(table)[..i]
    {
      ListingAt(table, i);
      rows := rows + [Applied(keys[i], table[keys[i]])];
    }
  }

  /** A migrator's connection, statement by statement. `working` is what the open transaction sees; closing the
      connection gives up whatever is still open. */
  class Backend {
    var committed: Database
    var working: Database
    var open: bool
    var statements: nat
    const fails: nat -> bool

    constructor (db: Database, fails: nat -> bool)
      ensures committed == db && !open && this.fails == fails
    {
      this.fails := fails;
      committed, working, open, statements := db, db, false, 0;
    }

    ghost predicate Reliable()
      reads this
    {
      forall n :: !fails(n)
    }

    method Strike() returns (failed: bool)
      modifies this`statements
      ensures failed ==> !Reliable()
    {
      failed := fails(statements);
      statements := statements + 1;
    }

    /** A new connection has no transaction, so BEGIN opens one or fails. */
    method Begin() returns (ok: bool)
      requires !open
      modifies this`working, this`open, this`statements
      ensures ok ==> open && working == committed
      ensures !ok ==> !open && !Reliable()
    {
      var failed := Strike();
      if failed { return false; }
      working, open := committed, true;
      ok := true;
    }

    method RunScript(m: Script) returns (ok: bool)
      requires open
      modifies this`working, this`statements
      ensures ok ==> working == old(working).(effects := old(working.effects) + [m.id])
      ensures !ok ==> working == old(working) && !Reliable()
    {
      var failed := Strike();
      if failed { return false; }
      working := working.(effects := working.effects + [m.id]);
      ok := true;
    }

    /** The id is the table's primary key. */
    method InsertRow(m: Script) returns (ok: bool)
      requires open
      modifies this`working, this`statements
      ensures ok ==>
        m.id !in old(working.table) &&
        working == old(working).(table := old(working.table)[m.id := m.checksum])
      ensures !ok ==> working == old(working) && (!Reliable() || m.id in working.table)
    {
      var failed := Strike();
      if failed || m.id in working.table { return false; }
      working := working.(table := working.table[m.id := m.checksum]);
      ok := true;
    }

    /** A failed COMMIT commits nothing. */
    method Commit() returns (ok: bool)
      requires open
      modifies this`committed, this`open, this`statements
      ensures ok ==> committed == working && !open
      ensures !ok ==> committed == old(committed) && open && !Reliable()
    {
      var failed := Strike();
      if failed { return false; }
      committed, open := working, false;
      ok := true;
    }

    /** ROLLBACK where the transaction is still active, and closing the connection in any case. */
    method Leave()
      modifies this`working, this`open, this`statements
      ensures !open
    {
      if open {
        var failed := Strike();
        if !failed { working, open := committed, false; }
      }
      working, open := committed, false;
    }

    method AppliedMigrations() returns (r: Outcome<seq<Applied>>)
      requires !open
      modifies this`statements
      ensures r.Ok? ==> r.value == Listing(committed.table)
      ensures r.Err? ==> r.error == Failed && !Reliable()
    {
      var failed := Strike();
      if failed { return Err(Failed); }
      var rows := ReadRows(committed.table);
      r := Ok(rows);
    }

    /** What the statements inside the transaction come to; nothing is committed unless COMMIT succeeds. */
    method ApplyInside(m: Script) returns (r: Outcome<bool>)
      requires open && working == committed
      modifies this
      ensures match r
        case Ok(inserted) => !open && OneApplied(old(committed), m) == Ok((committed, inserted))
        case Err(e) =>
          committed == old(committed) && (OneApplied(old(committed), m) == Err(e) || (!Reliable() && e == Failed))
    {
      var failed := Strike();
      if failed { return Err(Failed); }
      if m.id in working.table {
        if working.table[m.id] != m.checksum { return Err(Checksum); }
        var ended := Commit();
        return if ended then Ok(false) else Err(Failed);
      }
      var ran := RunScript(m);
      if !ran { return Err(Failed); }
      var recorded := InsertRow(m);
      if !recorded { return Err(Failed); }
      var ended := Commit();
      r := if ended then Ok(true) else Err(Failed);
    }

    /** `ApplyMigration`: BEGIN, the look for the row, the script, its row and COMMIT, any of which may fail. The
        outcome is that of one atomic application, or the database is as it was. */
    method ApplyMigration(m: Script, digest: Digest) returns (r: Outcome<bool>)
      requires !open
      modifies this
      ensures !open
      ensures Validated([m], digest).Err? ==> committed == old(committed) && r == Err(Validated([m], digest).error)
      ensures Validated([m], digest).Ok? ==>
        var filled := Validated([m], digest).value[0];
        match r
        case Ok(inserted) => OneApplied(old(committed), filled) == Ok((committed, inserted))
        case Err(e) =>
          committed == old(committed) && (OneApplied(old(committed), filled) == Err(e) || (!Reliable() && e == Failed))
    {
      hide CatalogError, ValidSQL, ValidID;
      var validated := ValidateMigrationCatalog([m], digest);
      if validated.Err? { return Err(validated.error); }
      var begun := Begin();
      if !begun { return Err(Failed); }
      r := ApplyInside(validated.value[0]);
      Leave();
    }
  }

  /** A migration of a catalog is valid on its own. */
  lemma SingleIsValid(c: seq<Script>, digest: Digest, i: nat)
    requires Catalog(c, digest) && i < |c|
    ensures Validated([c[i]], digest) == Ok([c[i]])
  {
    hide ValidID, ValidSQL, Below;
    var one := [c[i]];
    assert ScriptError(one, digest, 0).None? && CatalogError(one, digest, 1).None?;
    assert Filled(one, digest) == one;
  }

  /** The loop over the plan. */
  method ApplyPlan(backend: Backend, plan: seq<Script>, digest: Digest, ghost c: seq<Script>, ghost n: nat)
    returns (committed: nat, error: Option<MigrationError>)
    requires Catalog(c, digest) && HoldsPrefix(backend.committed, c, n) && n <= |c| && plan == c[n..] && !backend.open
    modifies backend
    ensures HoldsPrefix(backend.committed, c, n + committed) && !backend.open
    ensures if error.None? then n + committed == |c| else error == Some(Failed) && !backend.Reliable()
  {
    hide HoldsPrefix, Catalog, OneApplied, Validated;
    committed := 0;
    for i := 0 to |plan|
      invariant committed == i && HoldsPrefix(backend.committed, c, n + committed) && !backend.open
    {
      AppliedKeepsPrefix(backend.committed, c, digest, n + i, n + i);
      assert plan[i] == c[n + i];
      SingleIsValid(c, digest, n + i);
      var inserted := backend.ApplyMigration(plan[i], digest);
      if inserted.Err? { return committed, Some(inserted.error); }
      if inserted.value { committed := committed + 1; }
    }
    error := None;
  }

  /** `ApplyMigrations`: the committed count is what the prefix grew by, with or without an error; an error comes
      from a failing statement or an invalid catalog, and without one the catalog is complete. */
  method ApplyMigrations(backend: Backend, migrations: seq<Script>, digest: Digest, ghost n: nat)
    returns (committed: nat, error: Option<MigrationError>)
    requires !backend.open
    requires var c := Validated(migrations, digest); c.Ok? ==> HoldsPrefix(backend.committed, c.value, n)
    modifies backend
    ensures !backend.open
    ensures var c := Validated(migrations, digest);
      if c.Ok? then
        HoldsPrefix(backend.committed, c.value, n + committed) &&
        (if error.None? then n + committed == |c.value| else error == Some(Failed) && !backend.Reliable())
      else
        backend.committed == old(backend.committed) && committed == 0 &&
        (error == Some(c.error) || (error == Some(Failed) && !backend.Reliable()))
  {
    hide *;
    ghost var c := Validated(migrations, digest);
    if c.Ok? {
      ValidatedIsACatalog(migrations, digest);
      PrefixListing(backend.committed, c.value, digest, n);
      PrefixSize(backend.committed, c.value, n);
      PrefixPlan(migrations, digest, n);
    }
    var applied := backend.AppliedMigrations();
    if applied.Err? { return 0, Some(applied.error); }
    PlanNeedsCatalog(migrations, digest, applied.value);
    var plan := PlanMigrations(migrations, digest, applied.value);
    if plan.Err? { return 0, Some(plan.error); }
    committed, error := ApplyPlan(backend, plan.value, digest, c.value, n);
  }

  lemma PlanNeedsCatalog(migrations: seq<Script>, digest: Digest, applied: seq<Applied>)
    ensures Validated(migrations, digest).Err? ==>
      Plan(migrations, digest, applied) == Err(Validated(migrations, digest).error)
  {
    hide Validated;
  }

  lemma PrefixPlan(migrations: seq<Script>, digest: Digest, n: nat)
    requires Validated(migrations, digest).Ok? && n <= |Validated(migrations, digest).value|
    ensures var c := Validated(migrations, digest).value; Plan(migrations, digest, Rows(c)[..n]) == Ok(c[n..])
  {
    hide Validated;
    PlanAcceptsExactlyPrefixes(migrations, digest, Rows(Validated(migrations, digest).value)[..n]);
  }
}
