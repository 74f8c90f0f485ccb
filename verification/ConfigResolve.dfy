/** internal/config/config.go: resolving sources in order of precedence, and the snapshot a manager keeps.
    Reading, substituting, parsing and validating one source is summed up in its `load`. */
module ConfigResolve {
  import opened Text
  import opened Json
  import opened Pointers
  import opened ConfigMerge
  import opened ConfigOrigins

  datatype Stage = Read | Substitute | Parse | Validate

  datatype ConfigError = ConfigError(stage: Stage, source: string)

  datatype Load = Missing | Failed(stage: Stage) | Parsed(fields: map<string, Value>, digest: string)

  datatype Source = Source(id: string, kind: Kind, path: string, load: Load)

  function Precedence(kind: Kind): (p: int) {
    match kind
    case Remote => 0
    case Global => 10
    case Custom => 20
    case Project => 30
    case Directory => 40
    case Inline => 50
    case Organization => 60
    case Managed => 70
    case ManagedPreference => 80
    case OtherKind => -1
  }

  // ---------- Order ----------

  /** After every source of the same or a lower precedence. */
  function Inserted(sources: seq<Source>, s: Source): (r: seq<Source>) {
    if sources == [] || Precedence(sources[|sources| - 1].kind) <= Precedence(s.kind) then sources + [s]
    else Inserted(sources[..|sources| - 1], s) + [sources[|sources| - 1]]
  }

  /** `slices.SortStableFunc` by precedence. */
  function Ordered(sources: seq<Source>): (r: seq<Source>) {
    if sources == [] then [] else Inserted(Ordered(sources[..|sources| - 1]), sources[|sources| - 1])
  }

  predicate Ascends(sources: seq<Source>) {
    forall i, j | 0 <= i < j < |sources| :: Precedence(sources[i].kind) <= Precedence(sources[j].kind)
  }

  /** The sources of one precedence, in order. */
  function Level(sources: seq<Source>, p: int): (r: seq<Source>) {
    if sources == [] then []
    else
      var last := sources[|sources| - 1];
      Level(sources[..|sources| - 1], p) + if Precedence(last.kind) == p then [last] else []
  }

  lemma LevelSnoc(sources: seq<Source>, s: Source, p: int)
    ensures Level(sources + [s], p) == Level(sources, p) + if Precedence(s.kind) == p then [s] else []
  {
    assert (sources + [s])[..|sources|] == sources;
  }

  lemma {:induction false} InsertedLevels(sources: seq<Source>, s: Source, p: int)
    requires Ascends(sources)
    ensures Level(Inserted(sources, s), p) == Level(sources + [s], p)
    decreases |sources|
  {
    if sources != [] && Precedence(sources[|sources| - 1].kind) > Precedence(s.kind) {
      var front, last := sources[..|sources| - 1], sources[|sources| - 1];
      assert sources == front + [last] && Inserted(sources, s) == Inserted(front, s) + [last];
      InsertedLevels(front, s, p);
      LevelSnoc(Inserted(front, s), last, p);
      LevelSnoc(sources, s, p);
      LevelSnoc(front, s, p);
      LevelSnoc(front, last, p);
      hide Level, Inserted;
    }
  }

  lemma AscendsSnoc(sources: seq<Source>, last: Source)
    ensures Ascends(sources + [last]) <==>
      Ascends(sources) && forall x | x in sources :: Precedence(x.kind) <= Precedence(last.kind)
  {
    hide Precedence;
    var all := sources + [last];
    if Ascends(all) {
      forall x | x in sources ensures Precedence(x.kind) <= Precedence(last.kind) {
        var i :| 0 <= i < |sources| && sources[i] == x;
        assert all[i] == x && all[|sources|] == last;
      }
      forall i, j | 0 <= i < j < |sources|
        ensures Precedence(sources[i].kind) <= Precedence(sources[j].kind)
      {
        assert all[i] == sources[i] && all[j] == sources[j];
      }
    }
  }

  /** Inserting keeps the order, and adds no other source. */
  lemma {:induction false} InsertedKeepsOrder(sources: seq<Source>, s: Source)
    requires Ascends(sources)
    ensures var r := Inserted(sources, s); Ascends(r) && forall x | x in r :: x in sources || x == s
    decreases |sources|
  {
    hide Precedence, Ascends;
    if sources == [] {
      AscendsSnoc([], s);
      NoneAscend();
    } else {
      var front, last := sources[..|sources| - 1], sources[|sources| - 1];
      assert sources == front + [last];
      AscendsSnoc(front, last);
      if Precedence(last.kind) <= Precedence(s.kind) {
        AscendsSnoc(sources, s);
      } else {
        InsertedKeepsOrder(front, s);
        AscendsSnoc(Inserted(front, s), last);
      }
    }
  }

  lemma NoneAscend()
    ensures Ascends([])
  {
  }

  /** Sorting puts precedences in order and keeps the order within each. */
  lemma {:induction false} OrderedIsStable(sources: seq<Source>)
    ensures Ascends(Ordered(sources)) && forall p :: Level(Ordered(sources), p) == Level(sources, p)
    decreases |sources|
  {
    if sources != [] {
      var front, last := sources[..|sources| - 1], sources[|sources| - 1];
      assert sources == front + [last];
      OrderedIsStable(front);
      InsertedKeepsOrder(Ordered(front), last);
      forall p ensures Level(Ordered(sources), p) == Level(sources, p) {
        InsertedLevels(Ordered(front), last, p);
        LevelSnoc(Ordered(front), last, p);
        LevelSnoc(front, last, p);
      }
    }
  }

  // ---------- Layers ----------

  const UNMERGED: set<string> := {"theme", "keybinds", "tui"}

  function RefOf(s: Source): (r: Ref)
    requires s.load.Parsed?
  {
    Ref(s.id, s.kind, s.path, s.load.digest)
  }

  function LayerOf(s: Source): (l: Layer)
    requires s.load.Parsed?
  {
    Layer(RefOf(s), Object(s.load.fields - UNMERGED))
  }

  /** The layers that sources contribute in order, or the first error. */
  function Layers(ordered: seq<Source>, seen: set<string>): (r: Result<seq<Layer>, ConfigError>)
    decreases |ordered|
  {
    if ordered == [] then Ok([])
    else
      var s := ordered[0];
      if s.id == "" || Precedence(s.kind) < 0 || s.id in seen then Err(ConfigError(Validate, s.id))
      else
        match s.load
        case Failed(stage) => Err(ConfigError(stage, s.id))
        case Missing => Layers(ordered[1..], seen + {s.id})
        case Parsed(_, _) =>
          var rest := Layers(ordered[1..], seen + {s.id});
          if rest.Err? then rest else Ok([LayerOf(s)] + rest.value)
  }

  function Continued(done: seq<Layer>, rest: Result<seq<Layer>, ConfigError>): (r: Result<seq<Layer>, ConfigError>) {
    if rest.Err? then rest else Ok(done + rest.value)
  }

  /** `origins` is the map from pointers to references. */
  datatype Resolved = Resolved(value: Value, sources: seq<Ref>, origins: map<string, Ref>, generation: nat)

  /** A resolution of these layers: their value, their references in order, and every path's origin. */
  ghost predicate Resolves(r: Resolved, layers: seq<Layer>) {
    r.value == MergedValue(layers) && r.sources == RefsOf(layers) &&
    (forall path | path in r.origins :: exists keys :: path == Pointer(keys)) &&
    forall keys :: AtIn(r.origins, keys) == OriginAt(layers, keys)
  }

  function RefsOf(layers: seq<Layer>): (r: seq<Ref>) {
    seq(|layers|, i requires 0 <= i < |layers| => layers[i].ref)
  }

  lemma LayersNext(ordered: seq<Source>, i: nat, seen: set<string>, done: seq<Layer>)
    requires i < |ordered|
    ensures var s := ordered[i];
      var rest := Layers(ordered[i..], seen);
      if s.id == "" || Precedence(s.kind) < 0 || s.id in seen then rest == Err(ConfigError(Validate, s.id))
      else
        match s.load
        case Failed(stage) => rest == Err(ConfigError(stage, s.id))
        case Missing => rest == Layers(ordered[i + 1..], seen + {s.id})
        case Parsed(_, _) =>
          Continued(done, rest) == Continued(done + [LayerOf(s)], Layers(ordered[i + 1..], seen + {s.id}))
  {
    assert ordered[i..][0] == ordered[i] && ordered[i..][1..] == ordered[i + 1..];
    if ordered[i].load.Parsed? {
      var rest := Layers(ordered[i + 1..], seen + {ordered[i].id});
      if rest.Ok? { assert done + ([LayerOf(ordered[i])] + rest.value) == done + [LayerOf(ordered[i])] + rest.value; }
    }
  }

  lemma LayerAdded(layers: seq<Layer>, l: Layer)
    ensures MergedValue(layers + [l]) == Merge(true, MergedValue(layers), l.value)
    ensures forall keys ::
      OriginAt(layers + [l], keys) == MergedAt(true, MergedValue(layers), l.value, l.ref, OriginAt(layers, keys), keys)
    ensures RefsOf(layers + [l]) == RefsOf(layers) + [l.ref]
  {
    assert (layers + [l])[..|layers|] == layers;
    hide Merge, MergedAt;
  }

  /** `Resolve`: the merged value of the layers and the origin of every path. */
  method Resolve(sources: seq<Source>, generation: nat) returns (r: Result<Resolved, ConfigError>)
    ensures match Layers(Ordered(sources), {})
      case Err(e) => r == Err(e)
      case Ok(layers) => r.Ok? && Resolves(r.value, layers) && r.value.generation == generation
  {
    hide Layers, Merge, MergedAt, Pointer, Ordered, OriginAt, MergedValue;
    var ordered := Ordered(sources);
    var result: Value := Object(map[]);
    var refs: seq<Ref> := [];
    var seen: set<string> := {};
    var origins := new Origins();
    ghost var done: seq<Layer> := [];
    NoLayers(ordered);
    for i := 0 to |ordered|
      invariant Continued(done, Layers(ordered[i..], seen)) == Layers(ordered, {})
      invariant result == MergedValue(done) && refs == RefsOf(done) && origins.Pointed()
      invariant forall keys :: origins.At(keys) == OriginAt(done, keys)
    {
      var s := ordered[i];
      LayersNext(ordered, i, seen, done);
      if s.id == "" || Precedence(s.kind) < 0 || s.id in seen { return Err(ConfigError(Validate, s.id)); }
      seen := seen + {s.id};
      match s.load {
        case Failed(stage) => return Err(ConfigError(stage, s.id));
        case Missing =>
        case Parsed(fields, digest) =>
          ghost var layer := LayerOf(s);
          LayerAdded(done, layer);
          result := origins.MergeValues("", [], result, Object(fields - UNMERGED), RefOf(s));
          forall keys: Keys ensures Below([], keys) == keys && [] <= keys { }
          refs := refs + [RefOf(s)];
          done := done + [layer];
      }
    }
    assert ordered[|ordered|..] == [];
    NoMoreLayers(done, seen);
    r := Ok(Resolved(result, refs, origins.refs, generation));
  }

  lemma NoLayers(ordered: seq<Source>)
    ensures MergedValue([]) == Object(map[]) && (forall keys :: OriginAt([], keys) == None) && Pointer([]) == ""
    ensures ordered[0..] == ordered && Continued([], Layers(ordered, {})) == Layers(ordered, {})
  {
    var rest := Layers(ordered, {});
    if rest.Ok? { assert [] + rest.value == rest.value; }
  }

  lemma NoMoreLayers(done: seq<Layer>, seen: set<string>)
    ensures Continued(done, Layers([], seen)) == Ok(done)
  {
    assert done + [] == done;
  }

  // ---------- What a resolved configuration says ----------

  lemma FirstIsLowest(ordered: seq<Source>, x: Source)
    requires Ascends(ordered) && ordered != [] && x in ordered[1..]
    ensures Precedence(ordered[0].kind) <= Precedence(x.kind)
  {
    hide Precedence;
    var i :| 0 <= i < |ordered[1..]| && ordered[1..][i] == x;
    assert ordered[i + 1] == x;
  }

  lemma RestAscends(ordered: seq<Source>)
    requires Ascends(ordered) && ordered != []
    ensures Ascends(ordered[1..])
  {
    hide Precedence;
    assert forall i | 0 <= i < |ordered[1..]| :: ordered[1..][i] == ordered[i + 1];
  }

  /** Layers come in order of precedence, none from an unknown kind. */
  lemma {:induction false} LayersAscend(ordered: seq<Source>, seen: set<string>)
    requires Ascends(ordered) && Layers(ordered, seen).Ok?
    ensures var layers := Layers(ordered, seen).value;
      (forall l | l in layers ::
       exists s :: s in ordered && s.load.Parsed? && l == LayerOf(s) && Precedence(s.kind) >= 0) &&
      forall i, j | 0 <= i < j < |layers| :: Precedence(layers[i].ref.kind) <= Precedence(layers[j].ref.kind)
    decreases |ordered|
  {
    hide Precedence, Ascends;
    if ordered != [] {
      var s, rest := ordered[0], ordered[1..];
      assert ordered == [s] + rest;
      RestAscends(ordered);
      LayersAscend(rest, seen + {s.id});
      if s.load.Parsed? {
        var layers := Layers(rest, seen + {s.id}).value;
        forall l | l in layers ensures Precedence(s.kind) <= Precedence(l.ref.kind) {
          var x :| x in rest && x.load.Parsed? && l == LayerOf(x) && Precedence(x.kind) >= 0;
          FirstIsLowest(ordered, x);
        }
      }
    }
  }

  lemma {:induction false} UnmergedStaysOut(layers: seq<Layer>, key: string)
    requires forall l | l in layers :: l.value.Object? && key !in l.value.fields
    ensures var v := MergedValue(layers); v.Object? && key !in v.fields
    decreases |layers|
  {
    if layers != [] {
      assert layers[|layers| - 1] in layers;
      UnmergedStaysOut(layers[..|layers| - 1], key);
    }
  }

  lemma LeavesAreMerged(sources: seq<Source>, keys: Keys)
    requires Layers(Ordered(sources), {}).Ok?
    requires IsLeaf(Get(MergedValue(Layers(Ordered(sources), {}).value), keys))
    ensures keys != [] && keys[0] !in UNMERGED
  {
    hide Layers, Ordered, MergedValue, Level, Precedence;
    var layers := Layers(Ordered(sources), {}).value;
    OrderedIsStable(sources);
    LayersAscend(Ordered(sources), {});
    forall key | key in UNMERGED ensures MergedValue(layers).Object? && key !in MergedValue(layers).fields {
      UnmergedStaysOut(layers, key);
    }
    assert "tui" in UNMERGED;
  }

  // ---------- The manager ----------

  class Manager {
    var current: Option<Resolved>

    constructor ()
      ensures current == None
    {
      current := None;
    }

    /** `Reload`: a failure keeps, and returns, the last good snapshot with its origins and its generation. */
    method Reload(sources: seq<Source>) returns (snapshot: Option<Resolved>, error: Option<ConfigError>)
      modifies this
      ensures snapshot == current
      ensures var before := if old(current).Some? then old(current).value.generation else 0;
        match Layers(Ordered(sources), {})
        case Err(e) => error == Some(e) && current == old(current)
        case Ok(layers) =>
          error == None && current.Some? && Resolves(current.value, layers) && current.value.generation == before + 1
    {
      hide Layers, Ordered, MergedValue, OriginAt;
      var generation := if current.Some? then current.value.generation + 1 else 1;
      var next := Resolve(sources, generation);
      if next.Err? { return current, Some(next.error); }
      current := Some(next.value);
      snapshot, error := current, None;
    }
  }
}
