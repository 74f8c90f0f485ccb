/** internal/config/config.go: a resolved configuration told by its sources, as they were given. */
module ConfigSources {
  import opened Text
  import opened Json
  import opened ConfigMerge
  import opened ConfigResolve

  /** The kinds of sources, each outranked by those after it. */
  const RANKED: seq<Kind> :=
    [Remote, Global, Custom, Project, Directory, Inline, Organization, Managed, ManagedPreference]

  ghost predicate Outranks(a: Kind, b: Kind) {
    exists i, j :: 0 <= j < i < |RANKED| && RANKED[i] == a && RANKED[j] == b
  }

  lemma RankAt(i: nat)
    requires i < |RANKED|
    ensures Precedence(RANKED[i]) == 10 * i
  {
  }

  lemma RankOf(a: Kind) returns (i: nat)
    requires Precedence(a) >= 0
    ensures i < |RANKED| && RANKED[i] == a
  {
    i := Precedence(a) / 10;
  }

  lemma RanksArePrecedences(a: Kind, b: Kind)
    ensures a in RANKED <==> Precedence(a) >= 0
    ensures a in RANKED && b in RANKED ==>
      (Outranks(a, b) <==> Precedence(a) > Precedence(b)) && (Precedence(a) == Precedence(b) <==> a == b)
  {
    hide Precedence, RANKED;
    forall i | 0 <= i < |RANKED| ensures Precedence(RANKED[i]) == 10 * i { RankAt(i); }
    if Precedence(a) >= 0 { var i := RankOf(a); }
    if Precedence(a) >= 0 && Precedence(b) >= 0 {
      var i := RankOf(a);
      var j := RankOf(b);
      assert Precedence(a) > Precedence(b) ==> j < i;
    }
  }

  // ---------- When a resolution succeeds ----------

  predicate DistinctIds(sources: seq<Source>) {
    forall i, j | 0 <= i < j < |sources| :: sources[i].id != sources[j].id
  }

  predicate Usable(s: Source) {
    s.id != "" && s.kind in RANKED && !s.load.Failed?
  }

  /** Every source has an id of its own, a known kind, and loads or may be missing. */
  predicate AllUsable(sources: seq<Source>) {
    DistinctIds(sources) && forall s | s in sources :: Usable(s)
  }

  /** What the sources that are there contribute, in order. */
  function Contributions(sources: seq<Source>): (layers: seq<Layer>) {
    if sources == [] then []
    else (if sources[0].load.Parsed? then [LayerOf(sources[0])] else []) + Contributions(sources[1..])
  }

  lemma {:induction false} LayersAre(ordered: seq<Source>, seen: set<string>)
    ensures var r := Layers(ordered, seen);
      (r.Ok? <==> AllUsable(ordered) && forall s | s in ordered :: s.id !in seen) &&
      (r.Ok? ==> r.value == Contributions(ordered))
    decreases |ordered|
  {
    hide Precedence, LayerOf;
    if ordered != [] {
      var s, rest := ordered[0], ordered[1..];
      RanksArePrecedences(s.kind, s.kind);
      hide RANKED;
      LayersAre(rest, seen + {s.id});
      UsableHead(ordered);
      assert ordered == [s] + rest;
      assert forall x | x in rest :: x.id !in seen + {s.id} <==> x.id !in seen && x.id != s.id;
    }
  }

  lemma UsableHead(sources: seq<Source>)
    requires sources != []
    ensures var s, rest := sources[0], sources[1..];
      AllUsable(sources) <==> Usable(s) && AllUsable(rest) && forall x | x in rest :: x.id != s.id
  {
    hide Usable;
    var s, rest := sources[0], sources[1..];
    assert sources == [s] + rest;
    if DistinctIds(sources) {
      forall x | x in rest ensures x.id != s.id {
        var i :| 0 <= i < |rest| && rest[i] == x;
        assert sources[i + 1] == x;
      }
      forall i, j | 0 <= i < j < |rest| ensures rest[i].id != rest[j].id {
        assert sources[i + 1] == rest[i] && sources[j + 1] == rest[j];
      }
    }
    if DistinctIds(rest) && forall x | x in rest :: x.id != s.id {
      forall i, j | 0 <= i < j < |sources| ensures sources[i].id != sources[j].id {
        assert sources[j] == rest[j - 1] && rest[j - 1] in rest;
        if i > 0 { assert sources[i] == rest[i - 1]; }
      }
    }
  }

  // ---------- Places before and after sorting ----------

  /** The same sources of each precedence, in the same order. */
  ghost predicate SameLevels(a: seq<Source>, b: seq<Source>) {
    forall p :: Level(a, p) == Level(b, p)
  }

  lemma {:induction false} IntoLevel(s: seq<Source>, i: nat, j: nat) returns (k: nat, l: nat)
    requires i <= j < |s| && Precedence(s[i].kind) == Precedence(s[j].kind)
    ensures var level := Level(s, Precedence(s[i].kind));
      k <= l < |level| && level[k] == s[i] && level[l] == s[j] && (k == l <==> i == j)
    decreases |s|
  {
    hide Precedence;
    var n := |s| - 1;
    var front, last := s[..n], s[n];
    var level := Level(front, Precedence(s[i].kind));
    assert s == front + [last];
    if j < n {
      k, l := IntoLevel(front, i, j);
    } else {
      l := |level|;
      if i < n {
        var m: nat;
        k, m := IntoLevel(front, i, i);
      } else {
        k := l;
      }
    }
  }

  lemma {:induction false} OutOfLevel(s: seq<Source>, p: int, k: nat, l: nat) returns (i: nat, j: nat)
    requires k <= l < |Level(s, p)|
    ensures i <= j < |s| && s[i] == Level(s, p)[k] && s[j] == Level(s, p)[l] && (k == l <==> i == j)
    decreases |s|
  {
    hide Precedence;
    var n := |s| - 1;
    var front, last := s[..n], s[n];
    var level := Level(front, p);
    assert s == front + [last];
    if l < |level| {
      i, j := OutOfLevel(front, p, k, l);
    } else {
      j := n;
      if k < |level| {
        var m: nat;
        i, m := OutOfLevel(front, p, k, k);
      } else {
        i := n;
      }
    }
  }

  /** Two places of one precedence have counterparts in the same order. */
  lemma Counterparts(a: seq<Source>, b: seq<Source>, i: nat, j: nat) returns (k: nat, l: nat)
    requires SameLevels(a, b) && i <= j < |a| && Precedence(a[i].kind) == Precedence(a[j].kind)
    ensures k <= l < |b| && b[k] == a[i] && b[l] == a[j] && (k == l <==> i == j)
  {
    hide Precedence, Level;
    var u, v := IntoLevel(a, i, j);
    k, l := OutOfLevel(b, Precedence(a[i].kind), u, v);
  }

  lemma UsableEitherWay(a: seq<Source>, b: seq<Source>)
    requires SameLevels(a, b) && AllUsable(a)
    ensures AllUsable(b)
  {
    hide Precedence, Usable, SameLevels;
    forall i, j | 0 <= i < j < |b| ensures b[i].id != b[j].id {
      if Precedence(b[i].kind) == Precedence(b[j].kind) {
        var k, l := Counterparts2(a, b, i, j);
      } else {
        var k, _ := Counterparts2(a, b, i, i);
        var l, _ := Counterparts2(a, b, j, j);
        assert a[k] != a[l];
      }
    }
    forall s | s in b ensures Usable(s) {
      var i :| 0 <= i < |b| && b[i] == s;
      var k, _ := Counterparts2(a, b, i, i);
    }
  }

  lemma Counterparts2(a: seq<Source>, b: seq<Source>, i: nat, j: nat) returns (k: nat, l: nat)
    requires SameLevels(a, b) && i <= j < |b| && Precedence(b[i].kind) == Precedence(b[j].kind)
    ensures k <= l < |a| && a[k] == b[i] && a[l] == b[j] && (k == l <==> i == j)
  {
    hide Precedence, Level;
    assert SameLevels(b, a);
    k, l := Counterparts(b, a, i, j);
  }

  /** A resolution succeeds exactly when every source is usable. */
  lemma ResolvesExactly(sources: seq<Source>)
    ensures Layers(Ordered(sources), {}).Ok? <==> AllUsable(sources)
    ensures AllUsable(sources) ==> Layers(Ordered(sources), {}).value == Contributions(Ordered(sources))
  {
    hide *;
    LayersAre(Ordered(sources), {});
    OrderedHasSameLevels(sources);
    if AllUsable(sources) { UsableEitherWay(sources, Ordered(sources)); }
    if AllUsable(Ordered(sources)) { UsableEitherWay(Ordered(sources), sources); }
  }

  lemma OrderedHasSameLevels(sources: seq<Source>)
    ensures SameLevels(sources, Ordered(sources)) && SameLevels(Ordered(sources), sources) && Ascends(Ordered(sources))
  {
    hide Precedence, Level, Ordered;
    OrderedIsStable(sources);
  }

  // ---------- Where a leaf comes from ----------

  /** The source of a layer, and the layers of the sources after it. */
  lemma {:induction false} ContributionAt(ordered: seq<Source>, i: nat) returns (o: nat)
    requires i < |Contributions(ordered)|
    ensures o < |ordered| && ordered[o].load.Parsed? && Contributions(ordered)[i] == LayerOf(ordered[o])
    ensures forall p | o < p < |ordered| && ordered[p].load.Parsed? ::
      exists j :: i < j < |Contributions(ordered)| && Contributions(ordered)[j] == LayerOf(ordered[p])
    decreases |ordered|
  {
    hide LayerOf;
    var rest := ordered[1..];
    var layers, later := Contributions(ordered), Contributions(rest);
    var own := if ordered[0].load.Parsed? then 1 else 0;
    assert forall j | 0 <= j < |later| :: layers[j + own] == later[j];
    if i < own {
      o := 0;
      forall p | 0 < p < |ordered| && ordered[p].load.Parsed?
        ensures exists j :: i < j < |layers| && layers[j] == LayerOf(ordered[p])
      {
        var j := ContributionOf(rest, p - 1);
        assert layers[j + own] == LayerOf(ordered[p]);
      }
    } else {
      var u := ContributionAt(rest, i - own);
      o := u + 1;
      forall p | o < p < |ordered| && ordered[p].load.Parsed?
        ensures exists j :: i < j < |layers| && layers[j] == LayerOf(ordered[p])
      {
        assert rest[p - 1] == ordered[p];
        var j :| i - own < j < |later| && later[j] == LayerOf(rest[p - 1]);
        assert layers[j + own] == LayerOf(ordered[p]);
      }
    }
  }

  lemma {:induction false} ContributionOf(ordered: seq<Source>, o: nat) returns (i: nat)
    requires o < |ordered| && ordered[o].load.Parsed?
    ensures i < |Contributions(ordered)| && Contributions(ordered)[i] == LayerOf(ordered[o])
    decreases |ordered|
  {
    hide LayerOf;
    if o == 0 {
      i := 0;
    } else {
      var j := ContributionOf(ordered[1..], o - 1);
      i := if ordered[0].load.Parsed? then j + 1 else j;
    }
  }

  /** Whether a source that is there has something under a path. */
  predicate Has(s: Source, keys: Keys) {
    s.load.Parsed? && Get(Object(s.load.fields), keys).Some?
  }

  lemma MergedPart(s: Source, keys: Keys)
    requires s.load.Parsed? && keys != []
    ensures Get(LayerOf(s).value, keys) == if keys[0] in UNMERGED then None else Get(Object(s.load.fields), keys)
  {
  }

  /** Source `p` has something under a path; every other source that has is outranked by it, or is of the same kind
      and was given earlier. */
  ghost predicate Decides(sources: seq<Source>, keys: Keys, p: nat) {
    p < |sources| && Has(sources[p], keys) &&
    forall q | 0 <= q < |sources| && q != p && Has(sources[q], keys) ::
      Outranks(sources[p].kind, sources[q].kind) || (sources[p].kind == sources[q].kind && q < p)
  }

  /** A leaf of a resolved configuration comes from the source that decides it: that source's reference is the
      recorded origin, and its value, joined instructions apart, is the value. */
  lemma ResolvedProvenance(sources: seq<Source>, keys: Keys)
    requires AllUsable(sources)
    requires IsLeaf(Get(MergedValue(Contributions(Ordered(sources))), keys))
    ensures exists p: nat ::
      Decides(sources, keys, p) &&
      OriginAt(Contributions(Ordered(sources)), keys) ==
        Some(Ref(sources[p].id, sources[p].kind, sources[p].path, sources[p].load.digest)) &&
      (keys != ["instructions"] ==>
         Get(MergedValue(Contributions(Ordered(sources))), keys) == Get(Object(sources[p].load.fields), keys))
    ensures keys != [] && keys[0] !in {"theme", "keybinds", "tui"}
  {
    var p := DecidingSource(sources, keys);
    hide *;
  }

  lemma DecidingSource(sources: seq<Source>, keys: Keys) returns (p: nat)
    requires AllUsable(sources)
    requires IsLeaf(Get(MergedValue(Contributions(Ordered(sources))), keys))
    ensures Decides(sources, keys, p)
    ensures OriginAt(Contributions(Ordered(sources)), keys) ==
      Some(Ref(sources[p].id, sources[p].kind, sources[p].path, sources[p].load.digest))
    ensures keys != ["instructions"] ==>
      Get(MergedValue(Contributions(Ordered(sources))), keys) == Get(Object(sources[p].load.fields), keys)
    ensures keys != [] && keys[0] !in {"theme", "keybinds", "tui"}
  {
    hide *;
    var ordered := Ordered(sources);
    var layers := Contributions(ordered);
    ResolvesExactly(sources);
    OrderedHasSameLevels(sources);
    UsableEitherWay(sources, ordered);
    LeavesAreMerged(sources, keys);
    UnmergedKeys(keys);
    var i := Provenance(layers, keys);
    LastDefiningMeans(layers, keys, i);
    var o := ContributionAt(ordered, i);
    var u: nat;
    p, u := Counterparts(ordered, sources, o, o);
    MergedPart(ordered[o], keys);
    HasMeans(ordered[o], keys);
    RefIs(ordered[o]);
    forall q | 0 <= q < |sources| && q != p && Has(sources[q], keys)
      ensures Outranks(sources[p].kind, sources[q].kind) || (sources[p].kind == sources[q].kind && q < p)
    {
      OthersRankBelow(sources, keys, i, o, p, q);
    }
    DecidesMeans(sources, keys, p);
  }

  lemma DecidesMeans(sources: seq<Source>, keys: Keys, p: nat)
    requires p < |sources| && Has(sources[p], keys)
    requires forall q | 0 <= q < |sources| && q != p && Has(sources[q], keys) ::
      Outranks(sources[p].kind, sources[q].kind) || (sources[p].kind == sources[q].kind && q < p)
    ensures Decides(sources, keys, p)
  {
    hide Has, Outranks;
  }

  lemma UnmergedKeys(keys: Keys)
    requires keys != []
    ensures keys[0] in UNMERGED <==> keys[0] in {"theme", "keybinds", "tui"}
  {
  }

  lemma LastDefiningMeans(layers: seq<Layer>, keys: Keys, i: nat)
    requires LastDefining(layers, keys, i)
    ensures i < |layers| && Get(layers[i].value, keys).Some?
    ensures forall j | i < j < |layers| :: Get(layers[j].value, keys).None?
  {
    hide Get;
    forall j | i < j < |layers| ensures Get(layers[j].value, keys).None? { assert !Defines(layers[j], keys); }
  }

  lemma HasMeans(s: Source, keys: Keys)
    ensures Has(s, keys) <==> s.load.Parsed? && Get(Object(s.load.fields), keys).Some?
  {
  }

  lemma RefIs(s: Source)
    requires s.load.Parsed?
    ensures LayerOf(s).ref == Ref(s.id, s.kind, s.path, s.load.digest)
  {
  }

  lemma UsableMeans(sources: seq<Source>, i: nat, j: nat)
    requires AllUsable(sources) && i < |sources| && j < |sources|
    ensures sources[i].kind in RANKED && (i != j ==> sources[i] != sources[j])
  {
    assert sources[i] in sources && Usable(sources[i]);
    hide RANKED, Usable;
    if i < j { assert sources[i].id != sources[j].id; } else if j < i { assert sources[j].id != sources[i].id; }
  }

  /** Sorting puts what has something at a path, other than the last such source, before it. */
  lemma OthersRankBelow(sources: seq<Source>, keys: Keys, i: nat, o: nat, p: nat, q: nat)
    requires AllUsable(sources) && keys != [] && keys[0] !in UNMERGED
    requires var ordered := Ordered(sources);
      var layers := Contributions(ordered);
      o < |ordered| && p < |sources| && ordered[o] == sources[p] && AllUsable(ordered) &&
      (forall j | i < j < |layers| :: Get(layers[j].value, keys).None?) &&
      forall v | o < v < |ordered| && ordered[v].load.Parsed? ::
        exists j :: i < j < |layers| && layers[j] == LayerOf(ordered[v])
    requires q < |sources| && q != p && Has(sources[q], keys)
    ensures Outranks(sources[p].kind, sources[q].kind) || (sources[p].kind == sources[q].kind && q < p)
  {
    var ordered := Ordered(sources);
    hide *;
    OrderedHasSameLevels(sources);
    var v, w := Counterparts(sources, ordered, q, q);
    HasMeans(sources[q], keys);
    MergedPart(sources[q], keys);
    UsableMeans(sources, p, q);
    UsableMeans(sources, q, p);
    assert v <= o;
    UsableMeans(ordered, v, o);
    assert v != o;
    AscendsAt(ordered, v, o);
    RanksArePrecedences(sources[p].kind, sources[q].kind);
    RanksArePrecedences(sources[q].kind, sources[p].kind);
    if sources[p].kind == sources[q].kind && p < q {
      var k, l := Counterparts(sources, ordered, p, q);
      UsableMeans(ordered, k, o);
      UsableMeans(ordered, l, v);
    }
  }

  lemma AscendsAt(ordered: seq<Source>, i: nat, j: nat)
    requires Ascends(ordered) && i <= j < |ordered|
    ensures Precedence(ordered[i].kind) <= Precedence(ordered[j].kind)
  {
    hide Precedence;
  }

  // ---------- What is not lost ----------

  /** A layer of some source from `start` on. */
  ghost predicate LayerFrom(ordered: seq<Source>, start: nat, l: Layer) {
    exists v :: start <= v < |ordered| && ordered[v].load.Parsed? && l == LayerOf(ordered[v])
  }

  lemma FromTail(ordered: seq<Source>, start: nat, l: Layer)
    requires ordered != [] && LayerFrom(ordered[1..], start, l)
    ensures LayerFrom(ordered, start + 1, l)
  {
    hide LayerOf;
    var v :| start <= v < |ordered[1..]| && ordered[1..][v].load.Parsed? && l == LayerOf(ordered[1..][v]);
    assert ordered[v + 1] == ordered[1..][v];
  }

  /** The layer of a source, and the sources of the layers after it. */
  lemma {:induction false} LayerPlace(ordered: seq<Source>, o: nat) returns (i: nat)
    requires o < |ordered| && ordered[o].load.Parsed?
    ensures i < |Contributions(ordered)| && Contributions(ordered)[i] == LayerOf(ordered[o])
    ensures forall j | i < j < |Contributions(ordered)| :: LayerFrom(ordered, o + 1, Contributions(ordered)[j])
    decreases |ordered|
  {
    hide LayerOf, LayerFrom;
    var rest := ordered[1..];
    var layers, later := Contributions(ordered), Contributions(rest);
    var own := if ordered[0].load.Parsed? then 1 else 0;
    assert |layers| == |later| + own && forall j | 0 <= j < |later| :: layers[j + own] == later[j];
    if o == 0 {
      i := 0;
      forall j | i < j < |layers| ensures LayerFrom(ordered, 1, layers[j]) {
        var v := ContributionAt(rest, j - 1);
        IsFrom(rest, v, later[j - 1]);
        FromTail(ordered, 0, layers[j]);
      }
    } else {
      var u := LayerPlace(rest, o - 1);
      i := u + own;
      forall j | i < j < |layers| ensures LayerFrom(ordered, o + 1, layers[j]) {
        assert layers[j] == later[j - own];
        FromTail(ordered, o, layers[j]);
      }
    }
  }

  lemma IsFrom(ordered: seq<Source>, v: nat, l: Layer)
    requires v < |ordered| && ordered[v].load.Parsed? && l == LayerOf(ordered[v])
    ensures LayerFrom(ordered, 0, l)
  {
  }

  /** A source that is there and says nothing at a path, and nothing but objects above it. */
  ghost predicate SilentAt(s: Source, keys: Keys) {
    s.load.Parsed? ==> !Has(s, keys) && Passes(Object(s.load.fields), keys)
  }

  /** Comes after a source in the order of merging. */
  ghost predicate Follows(sources: seq<Source>, q: nat, p: nat)
    requires p < |sources| && q < |sources|
  {
    Outranks(sources[q].kind, sources[p].kind) || (sources[q].kind == sources[p].kind && p < q)
  }

  lemma LayerPasses(s: Source, keys: Keys)
    requires s.load.Parsed? && keys != [] && Passes(Object(s.load.fields), keys)
    ensures Passes(LayerOf(s).value, keys)
  {
    forall n | 0 <= n < |keys|
      ensures Get(LayerOf(s).value, keys[..n]).Some? ==> Get(LayerOf(s).value, keys[..n]).value.Object?
    {
      if n > 0 {
        MergedPart(s, keys[..n]);
        assert keys[..n][0] == keys[0];
      }
    }
  }

  /** Later in the sorted order is later in the order of merging. */
  lemma LaterFollows(sources: seq<Source>, o: nat, v: nat, p: nat) returns (q: nat)
    requires AllUsable(sources) && o < v < |Ordered(sources)| && p < |sources| && Ordered(sources)[o] == sources[p]
    ensures q < |sources| && sources[q] == Ordered(sources)[v] && Follows(sources, q, p)
  {
    var ordered := Ordered(sources);
    hide *;
    OrderedHasSameLevels(sources);
    UsableEitherWay(sources, ordered);
    UsableMeans(ordered, o, v);
    var w: nat;
    q, w := Counterparts(ordered, sources, v, v);
    AscendsAt(ordered, o, v);
    UsableMeans(sources, p, q);
    UsableMeans(sources, q, p);
    RanksArePrecedences(sources[p].kind, sources[q].kind);
    RanksArePrecedences(sources[q].kind, sources[p].kind);
    if sources[p].kind == sources[q].kind {
      var k, l := Counterparts(ordered, sources, o, v);
      UsableMeans(sources, k, p);
      UsableMeans(sources, l, q);
    }
    FollowsMeans(sources, q, p);
  }

  lemma FollowsMeans(sources: seq<Source>, q: nat, p: nat)
    requires p < |sources| && q < |sources|
    ensures Follows(sources, q, p) <==>
      Outranks(sources[q].kind, sources[p].kind) || (sources[q].kind == sources[p].kind && p < q)
  {
  }

  /** A leaf of a source is in the resolved configuration when every source that follows is silent about it. */
  lemma LeavesSurvive(sources: seq<Source>, p: nat, keys: Keys)
    requires AllUsable(sources) && p < |sources| && Has(sources[p], keys) && keys != []
    requires IsLeaf(Get(Object(sources[p].load.fields), keys)) && keys[0] !in {"theme", "keybinds", "tui"}
    requires forall q | 0 <= q < |sources| && Follows(sources, q, p) :: SilentAt(sources[q], keys)
    ensures IsLeaf(Get(MergedValue(Contributions(Ordered(sources))), keys))
    ensures keys != ["instructions"] ==>
      Get(MergedValue(Contributions(Ordered(sources))), keys) == Get(Object(sources[p].load.fields), keys)
  {
    hide *;
    var ordered := Ordered(sources);
    var layers := Contributions(ordered);
    OrderedHasSameLevels(sources);
    UnmergedKeys(keys);
    HasMeans(sources[p], keys);
    MergedPart(sources[p], keys);
    var o, w := Counterparts(sources, ordered, p, p);
    var i := LayerPlace(ordered, o);
    forall j | i < j < |layers| ensures Get(layers[j].value, keys).None? && Passes(layers[j].value, keys) {
      var v := LaterPlace(ordered, o + 1, layers[j]);
      var q := LaterFollows(sources, o, v, p);
      SilentMeans(sources[q], keys);
      MergedPart(sources[q], keys);
      LayerPasses(sources[q], keys);
    }
    DefinesLast(layers, keys, i);
    Survives(layers, keys, i);
  }

  lemma LaterPlace(ordered: seq<Source>, start: nat, l: Layer) returns (v: nat)
    requires LayerFrom(ordered, start, l)
    ensures start <= v < |ordered| && ordered[v].load.Parsed? && l == LayerOf(ordered[v])
  {
    v :| start <= v < |ordered| && ordered[v].load.Parsed? && l == LayerOf(ordered[v]);
  }

  lemma SilentMeans(s: Source, keys: Keys)
    requires SilentAt(s, keys) && s.load.Parsed?
    ensures Get(Object(s.load.fields), keys).None? && Passes(Object(s.load.fields), keys)
  {
    hide Get, Passes;
  }

  lemma DefinesLast(layers: seq<Layer>, keys: Keys, i: nat)
    requires i < |layers| && Get(layers[i].value, keys).Some?
    requires forall j | i < j < |layers| :: Get(layers[j].value, keys).None?
    ensures LastDefining(layers, keys, i)
  {
    hide Get;
  }
}
