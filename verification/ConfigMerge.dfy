/** internal/config/value.go: merging configuration values, and where each part of the result came from.
    Origins are followed key path by key path; ConfigOrigins carries them in a map keyed by pointers. */
module ConfigMerge {
  import opened Text
  import opened Json

  datatype Kind =
    | Remote | Global | Custom | Project | Directory | Inline | Organization | Managed | ManagedPreference | OtherKind

  datatype Ref = Ref(id: string, kind: Kind, path: string, digest: string)

  type Keys = seq<string>

  /** The part of a value under a key path. */
  function Get(v: Value, keys: Keys): (r: Option<Value>)
    decreases |keys|
  {
    if keys == [] then Some(v)
    else if v.Object? && keys[0] in v.fields then Get(v.fields[keys[0]], keys[1..])
    else None
  }

  predicate NonEmptyObject(v: Value) {
    v.Object? && v.fields != map[]
  }

  // ---------- Instructions ----------

  /** A value that is not a string has the empty text. */
  function TextOf(v: Value): (t: string) {
    if v.String? then v.text else ""
  }

  /** The items whose text was not seen before. */
  function Distinct(items: seq<Value>, seen: set<string>): (r: seq<Value>) {
    if items == [] then []
    else if TextOf(items[0]) in seen then Distinct(items[1..], seen)
    else [items[0]] + Distinct(items[1..], seen + {TextOf(items[0])})
  }

  function MergeInstructions(target: seq<Value>, source: seq<Value>): (r: seq<Value>) {
    Distinct(target + source, {})
  }

  // ---------- Merging ----------

  predicate BothLists(key: string, top: bool, target: Value, source: Value) {
    top && key == "instructions" && target.Array? && source.Array?
  }

  /** Objects merge key by key, the top-level instructions join, anything else is replaced. */
  function Merge(top: bool, target: Value, source: Value): (r: Value)
    decreases source
  {
    if target.Object? && source.Object? then
      Object(map k | k in target.fields.Keys + source.fields.Keys ::
        if k !in source.fields then target.fields[k]
        else if k !in target.fields then source.fields[k]
        else if BothLists(k, top, target.fields[k], source.fields[k]) then
          Array(MergeInstructions(target.fields[k].items, source.fields[k].items))
        else Merge(false, target.fields[k], source.fields[k]))
    else source
  }

  /** The origin that a whole value leaves at a path below it: its leaves and empty objects get one. */
  function SetAt(v: Value, ref: Ref, keys: Keys): (r: Option<Ref>) {
    var part := Get(v, keys);
    if part.Some? && !NonEmptyObject(part.value) then Some(ref) else None
  }

  /** The origin at a path after a merge, from the one before. */
  function MergedAt(top: bool, target: Value, source: Value, ref: Ref, before: Option<Ref>, keys: Keys)
    : (r: Option<Ref>)
    decreases |keys|
  {
    if target.Object? && source.Object? then
      if keys == [] || keys[0] !in source.fields then before
      else
        var k := keys[0];
        if k in target.fields && BothLists(k, top, target.fields[k], source.fields[k]) then
          (if |keys| == 1 then Some(ref) else None)
        else if k in target.fields && target.fields[k].Object? && source.fields[k].Object? then
          MergedAt(false, target.fields[k], source.fields[k], ref, before, keys[1..])
        else SetAt(source.fields[k], ref, keys[1..])
    else SetAt(source, ref, keys)
  }

  predicate IsLeaf(v: Option<Value>) {
    v.Some? && !v.value.Object?
  }

  /** A leaf that the source defines comes from the source. */
  lemma {:induction false} LeafFromSource(top: bool, target: Value, source: Value, ref: Ref, before: Option<Ref>,
                                          keys: Keys)
    requires Get(source, keys).Some? && IsLeaf(Get(Merge(top, target, source), keys))
    ensures MergedAt(top, target, source, ref, before, keys) == Some(ref)
    ensures Get(Merge(top, target, source), keys) == Get(source, keys) || (top && keys == ["instructions"])
    decreases |keys|
  {
    if target.Object? && source.Object? {
      assert keys != [];
      var k, rest := keys[0], keys[1..];
      var merged := Merge(top, target, source);
      assert k in merged.fields && Get(merged, keys) == Get(merged.fields[k], rest);
      if k in target.fields {
        if BothLists(k, top, target.fields[k], source.fields[k]) {
          assert rest == [];
          assert keys == [k] + rest;
        } else if target.fields[k].Object? && source.fields[k].Object? {
          LeafFromSource(false, target.fields[k], source.fields[k], ref, before, rest);
        } else {
          assert Merge(false, target.fields[k], source.fields[k]) == source.fields[k];
          assert merged.fields[k] == source.fields[k];
        }
      } else {
        assert merged.fields[k] == source.fields[k];
      }
    }
  }

  /** What the source does not define is as it was, origin included. */
  lemma {:induction false} KeptFromTarget(top: bool, target: Value, source: Value, ref: Ref, before: Option<Ref>,
                                          keys: Keys)
    requires Get(source, keys).None? && Get(Merge(top, target, source), keys).Some?
    ensures MergedAt(top, target, source, ref, before, keys) == before
    ensures Get(Merge(top, target, source), keys) == Get(target, keys)
    decreases |keys|
  {
    if keys != [] && target.Object? && source.Object? && keys[0] in source.fields && keys[0] in target.fields {
      var k, rest := keys[0], keys[1..];
      if target.fields[k].Object? && source.fields[k].Object? {
        KeptFromTarget(false, target.fields[k], source.fields[k], ref, before, rest);
      }
    }
  }

  /** Origins never point at parts that are gone, and come from the source or were there before. */
  lemma {:induction false} OriginsExist(top: bool, target: Value, source: Value, ref: Ref, before: Option<Ref>,
                                        keys: Keys)
    requires before.Some? ==> Get(target, keys).Some?
    ensures var after := MergedAt(top, target, source, ref, before, keys);
      after.Some? ==>
        Get(Merge(top, target, source), keys).Some? &&
        ((after == Some(ref) && Get(source, keys).Some?) || after == before)
    decreases |keys|
  {
    if keys != [] && target.Object? && source.Object? && keys[0] in source.fields && keys[0] in target.fields {
      var k, rest := keys[0], keys[1..];
      if target.fields[k].Object? && source.fields[k].Object? {
        OriginsExist(false, target.fields[k], source.fields[k], ref, before, rest);
      }
    }
  }

  // ---------- Layers ----------

  /** A parsed source with its reference. */
  datatype Layer = Layer(ref: Ref, value: Value)

  function MergedValue(layers: seq<Layer>): (v: Value)
    decreases |layers|
  {
    if layers == [] then Object(map[]) else Merge(true, MergedValue(layers[..|layers| - 1]), layers[|layers| - 1].value)
  }

  function OriginAt(layers: seq<Layer>, keys: Keys): (r: Option<Ref>)
    decreases |layers|
  {
    if layers == [] then None
    else
      var front, last := layers[..|layers| - 1], layers[|layers| - 1];
      MergedAt(true, MergedValue(front), last.value, last.ref, OriginAt(front, keys), keys)
  }

  predicate Defines(layer: Layer, keys: Keys) {
    Get(layer.value, keys).Some?
  }

  /** The last layer that defines a path. */
  ghost predicate LastDefining(layers: seq<Layer>, keys: Keys, i: nat) {
    i < |layers| && Defines(layers[i], keys) && forall j | i < j < |layers| :: !Defines(layers[j], keys)
  }

  /** Every scalar or array of the merged value is recorded as coming from the last layer that defines its
      path, and is that layer's value there; the joined instructions alone differ from it in value. */
  lemma {:induction false} Provenance(layers: seq<Layer>, keys: Keys) returns (i: nat)
    requires IsLeaf(Get(MergedValue(layers), keys))
    ensures LastDefining(layers, keys, i) && OriginAt(layers, keys) == Some(layers[i].ref)
    ensures keys != ["instructions"] ==> Get(MergedValue(layers), keys) == Get(layers[i].value, keys)
    decreases |layers|
  {
    i := 0;
    if layers != [] {
      var n := |layers| - 1;
      var front, last := layers[..n], layers[n];
      var target := MergedValue(front);
      if Defines(last, keys) {
        i := n;
        LeafFromSource(true, target, last.value, last.ref, OriginAt(front, keys), keys);
      } else {
        KeptFromTarget(true, target, last.value, last.ref, OriginAt(front, keys), keys);
        hide Merge, MergedAt, Get;
        i := Provenance(front, keys);
        LastDefiningSnoc(layers, keys, i);
      }
    }
  }

  lemma LastDefiningSnoc(layers: seq<Layer>, keys: Keys, i: nat)
    requires layers != [] && LastDefining(layers[..|layers| - 1], keys, i) && !Defines(layers[|layers| - 1], keys)
    ensures LastDefining(layers, keys, i)
  {
    hide Get;
    var front := layers[..|layers| - 1];
    assert forall j | 0 <= j < |front| :: front[j] == layers[j];
    forall j | i < j < |layers| ensures !Defines(layers[j], keys) {
      if j < |front| { assert !Defines(front[j], keys); }
    }
  }

  /** Nothing but objects above a path. */
  ghost predicate Passes(v: Value, keys: Keys) {
    forall n | 0 <= n < |keys| :: Get(v, keys[..n]).Some? ==> Get(v, keys[..n]).value.Object?
  }

  lemma {:induction false} PassesBelow(v: Value, keys: Keys)
    requires Passes(v, keys) && keys != []
    ensures v.Object? && (keys[0] in v.fields ==> Passes(v.fields[keys[0]], keys[1..]))
  {
    assert keys[..0] == [] && Get(v, keys[..0]) == Some(v);
    if keys[0] in v.fields {
      var w, rest := v.fields[keys[0]], keys[1..];
      forall n | 0 <= n < |rest| ensures Get(w, rest[..n]).Some? ==> Get(w, rest[..n]).value.Object? {
        assert keys[..n + 1][0] == keys[0] && keys[..n + 1][1..] == rest[..n];
        assert Get(v, keys[..n + 1]) == Get(w, rest[..n]);
      }
    }
  }

  /** A leaf of the source is a leaf of the merge, and its own unless lists of instructions join. */
  lemma {:induction false} MergeTakes(top: bool, target: Value, source: Value, keys: Keys)
    requires IsLeaf(Get(source, keys))
    ensures var r := Get(Merge(top, target, source), keys);
      IsLeaf(r) && (!(top && keys == ["instructions"]) ==> r == Get(source, keys))
    decreases |keys|
  {
    if target.Object? && source.Object? {
      var k, rest := keys[0], keys[1..];
      assert keys == [k] + rest;
      var merged := Merge(top, target, source);
      assert k in merged.fields && Get(merged, keys) == Get(merged.fields[k], rest);
      assert Get(source, keys) == Get(source.fields[k], rest);
      if k in target.fields {
        if BothLists(k, top, target.fields[k], source.fields[k]) {
          assert rest == [];
        } else {
          MergeTakes(false, target.fields[k], source.fields[k], rest);
        }
      }
    }
  }

  /** What the source says nothing about, at the path or above it, stays. */
  lemma {:induction false} MergeKeeps(top: bool, target: Value, source: Value, keys: Keys)
    requires Get(target, keys).Some? && Get(source, keys).None? && Passes(source, keys)
    ensures Get(Merge(top, target, source), keys) == Get(target, keys)
    decreases |keys|
  {
    assert keys != [];
    PassesBelow(source, keys);
    var k, rest := keys[0], keys[1..];
    var merged := Merge(top, target, source);
    assert k in merged.fields && Get(merged, keys) == Get(merged.fields[k], rest);
    if k in source.fields {
      assert Get(source, keys) == Get(source.fields[k], rest) && rest != [];
      PassesBelow(source.fields[k], rest);
      if target.fields[k].Object? { MergeKeeps(false, target.fields[k], source.fields[k], rest); }
    }
  }

  /** A leaf of one layer is in the merged value when no later layer defines its path or puts anything but
      objects above it. */
  lemma {:induction false} Survives(layers: seq<Layer>, keys: Keys, i: nat)
    requires LastDefining(layers, keys, i) && IsLeaf(Get(layers[i].value, keys))
    requires forall j | i < j < |layers| :: Passes(layers[j].value, keys)
    ensures IsLeaf(Get(MergedValue(layers), keys))
    ensures keys != ["instructions"] ==> Get(MergedValue(layers), keys) == Get(layers[i].value, keys)
    decreases |layers|
  {
    var n := |layers| - 1;
    var front, last := layers[..n], layers[n];
    hide Merge, Passes, Get;
    if i == n {
      MergeTakes(true, MergedValue(front), last.value, keys);
    } else {
      assert forall j | 0 <= j < n :: front[j] == layers[j];
      assert LastDefining(front, keys, i);
      Survives(front, keys, i);
      assert !Defines(layers[n], keys) && Passes(layers[n].value, keys);
      MergeKeeps(true, MergedValue(front), last.value, keys);
    }
  }

  /** No origin is left behind: each belongs to a part of the merged value that the named layer defines. */
  lemma {:induction false} NoDanglingOrigins(layers: seq<Layer>, keys: Keys)
    requires OriginAt(layers, keys).Some?
    ensures Get(MergedValue(layers), keys).Some?
    ensures exists i :: 0 <= i < |layers| && Defines(layers[i], keys) && OriginAt(layers, keys) == Some(layers[i].ref)
    decreases |layers|
  {
    var n := |layers| - 1;
    var front, last := layers[..n], layers[n];
    if OriginAt(front, keys).Some? { NoDanglingOrigins(front, keys); }
    OriginsExist(true, MergedValue(front), last.value, last.ref, OriginAt(front, keys), keys);
    hide Merge, MergedAt, Get, MergedValue;
    if OriginAt(layers, keys) == Some(last.ref) && Defines(last, keys) {
      assert Defines(layers[n], keys);
    } else {
      var i :| 0 <= i < |front| && Defines(front[i], keys) && OriginAt(front, keys) == Some(front[i].ref);
      assert Defines(layers[i], keys);
    }
  }

  predicate HasObject(v: Value, keys: Keys) {
    Get(v, keys).Some? && Get(v, keys).value.Object?
  }

  predicate HasEmpty(v: Value, keys: Keys) {
    Get(v, keys) == Some(Object(map[]))
  }

  lemma EmptyBefore(target: Value, source: Value)
    requires target.Object? && source.Object? && Merge(false, target, source) == Object(map[])
    ensures target == Object(map[])
  {
    var merged := Merge(false, target, source);
    assert forall key | key in target.fields :: key in merged.fields;
  }

  /** Where a merge leaves an object, its entry is what it was if there was an object before, and otherwise there
      is one exactly when the object is empty. An object that is empty afterwards was not filled before. */
  lemma {:induction false} ObjectAfterMerge(
      top: bool, target: Value, source: Value, ref: Ref, before: Option<Ref>, keys: Keys)
    requires keys != [] && HasObject(Merge(top, target, source), keys)
    ensures MergedAt(top, target, source, ref, before, keys) ==
            if HasObject(target, keys) then before
            else if HasEmpty(Merge(top, target, source), keys) then Some(ref) else None
    ensures HasObject(target, keys) && HasEmpty(Merge(top, target, source), keys) ==> HasEmpty(target, keys)
    decreases |keys|
  {
    if target.Object? && source.Object? && keys[0] in source.fields && keys[0] in target.fields {
      var k, rest := keys[0], keys[1..];
      var merged := Merge(top, target, source).fields[k];
      assert Get(Merge(top, target, source), keys) == Get(merged, rest) &&
        Get(target, keys) == Get(target.fields[k], rest);
      if target.fields[k].Object? && source.fields[k].Object? {
        if rest != [] {
          ObjectAfterMerge(false, target.fields[k], source.fields[k], ref, before, rest);
        } else {
          if merged == Object(map[]) { EmptyBefore(target.fields[k], source.fields[k]); }
        }
      } else {
        assert Merge(false, target.fields[k], source.fields[k]) == source.fields[k];
      }
    }
  }

  /** Layer `i` put an empty object where there was no object, and there has been an object ever since. */
  ghost predicate StartedEmpty(layers: seq<Layer>, keys: Keys, i: nat) {
    i < |layers| && !HasObject(MergedValue(layers[..i]), keys) && HasEmpty(MergedValue(layers[..i + 1]), keys) &&
    forall n | i < n <= |layers| :: HasObject(MergedValue(layers[..n]), keys)
  }

  lemma StartedEmptySnoc(layers: seq<Layer>, keys: Keys, i: nat)
    requires layers != [] && HasObject(MergedValue(layers), keys)
    ensures var front := layers[..|layers| - 1];
      StartedEmpty(layers, keys, i) <==>
      if i < |front| then StartedEmpty(front, keys, i)
      else i == |front| && !HasObject(MergedValue(front), keys) && HasEmpty(MergedValue(layers), keys)
  {
    hide HasObject, HasEmpty, MergedValue;
    var front := layers[..|layers| - 1];
    assert layers[..|layers|] == layers;
    assert forall n | 0 <= n <= |front| :: front[..n] == layers[..n];
    if i < |front| {
      assert front[..i + 1] == layers[..i + 1];
      forall n | i < n <= |layers|
        ensures StartedEmpty(front, keys, i) ==> HasObject(MergedValue(layers[..n]), keys)
      {
        if n <= |front| { assert front[..n] == layers[..n]; }
      }
      forall n | i < n <= |front|
        ensures StartedEmpty(layers, keys, i) ==> HasObject(MergedValue(front[..n]), keys)
      {
        assert front[..n] == layers[..n];
      }
    }
  }

  /** The entries besides the leaves, exactly: an object below the root has one if and only if it was empty when
      it came to be, and has not been anything else since; the entry names the layer that put it there. */
  lemma {:induction false} ObjectsKeepAnEntry(layers: seq<Layer>, keys: Keys)
    requires keys != [] && HasObject(MergedValue(layers), keys)
    ensures OriginAt(layers, keys).Some? <==> exists i: nat :: StartedEmpty(layers, keys, i)
    ensures forall i: nat :: StartedEmpty(layers, keys, i) ==> OriginAt(layers, keys) == Some(layers[i].ref)
    decreases |layers|
  {
    assert layers != [];
    var n := |layers| - 1;
    var front, last := layers[..n], layers[n];
    var target := MergedValue(front);
    ObjectAfterMerge(true, target, last.value, last.ref, OriginAt(front, keys), keys);
    forall i: nat { StartedEmptySnoc(layers, keys, i); }
    if HasObject(target, keys) {
      ObjectsKeepAnEntry(front, keys);
      hide HasObject, HasEmpty, MergedValue, StartedEmpty, Merge, MergedAt;
      assert OriginAt(layers, keys) == OriginAt(front, keys);
      if OriginAt(front, keys).Some? {
        var i: nat :| StartedEmpty(front, keys, i);
        assert StartedEmpty(layers, keys, i);
      }
    } else if HasEmpty(MergedValue(layers), keys) {
      assert StartedEmpty(layers, keys, n);
    }
  }

  function Single(key: string, v: Value): (r: Value) {
    Object(map[key := v])
  }

  lemma MergeSingles(top: bool, key: string, a: Value, b: Value)
    requires !BothLists(key, top, a, b)
    ensures Merge(top, Single(key, a), Single(key, b)) == Single(key, Merge(false, a, b))
  {
  }

  /** Such an object: empty at first, filled by a later layer, with an entry beside that of its leaf. */
  lemma OnceEmptyKeepsItsOrigin(first: Ref, second: Ref, key: string, inner: string)
    ensures var layers := [Layer(first, Single(key, Object(map[]))), Layer(second, Single(key, Single(inner, Null)))];
      MergedValue(layers) == Single(key, Single(inner, Null)) &&
      OriginAt(layers, [key]) == Some(first) && OriginAt(layers, [key, inner]) == Some(second)
  {
    var a, b := Single(key, Object(map[])), Single(key, Single(inner, Null));
    var layers := [Layer(first, a), Layer(second, b)];
    assert layers[..1] == [Layer(first, a)] && layers[..1][..0] == [];
    assert [key][1..] == [] && [key, inner][1..] == [inner] && [inner][1..] == [];
    assert MergedValue(layers[..1]) == Merge(true, Object(map[]), a) == a;
    assert OriginAt(layers[..1], [key]) == SetAt(Object(map[]), first, []) == Some(first);
    MergeSingles(true, key, Object(map[]), Single(inner, Null));
    assert Merge(false, Object(map[]), Single(inner, Null)) == Single(inner, Null);
    assert OriginAt(layers, [key]) == MergedAt(false, Object(map[]), Single(inner, Null), second, Some(first), []);
    assert OriginAt(layers, [key, inner]) ==
      MergedAt(false, Object(map[]), Single(inner, Null), second, OriginAt(layers[..1], [key, inner]), [inner]);
    assert SetAt(Null, second, []) == Some(second);
  }

  // ---------- Joined instructions ----------

  function Texts(items: seq<Value>): (r: set<string>) {
    set v | v in items :: TextOf(v)
  }

  lemma TextsHead(a: seq<Value>)
    requires a != []
    ensures Texts(a) == {TextOf(a[0])} + Texts(a[1..])
  {
    assert a == [a[0]] + a[1..];
  }

  lemma {:induction false} DistinctAppend(a: seq<Value>, b: seq<Value>, seen: set<string>)
    ensures Distinct(a + b, seen) == Distinct(a, seen) + Distinct(b, seen + Texts(a))
    decreases |a|
  {
    if a == [] {
      assert a + b == b && seen + Texts(a) == seen;
    } else {
      assert (a + b)[0] == a[0] && (a + b)[1..] == a[1..] + b && a == [a[0]] + a[1..];
      var t := TextOf(a[0]);
      TextsHead(a);
      assert seen + Texts(a) == seen + {t} + Texts(a[1..]);
      if t in seen { assert seen + {t} == seen; }
      hide Texts, TextOf;
      DistinctAppend(a[1..], b, seen + {t});
    }
  }

  lemma {:induction false} DistinctKeepsTexts(a: seq<Value>, seen: set<string>)
    ensures seen + Texts(Distinct(a, seen)) == seen + Texts(a)
    decreases |a|
  {
    if a != [] {
      var t := TextOf(a[0]);
      assert a == [a[0]] + a[1..] && Texts(a) == {t} + Texts(a[1..]);
      if t in seen {
        DistinctKeepsTexts(a[1..], seen);
      } else {
        DistinctKeepsTexts(a[1..], seen + {t});
        assert Texts(Distinct(a, seen)) == {t} + Texts(Distinct(a[1..], seen + {t}));
        assert seen + ({t} + Texts(Distinct(a[1..], seen + {t}))) == seen + {t} + Texts(Distinct(a[1..], seen + {t}));
      }
    }
  }

  lemma {:induction false} DistinctTwice(a: seq<Value>, seen: set<string>)
    ensures Distinct(Distinct(a, seen), seen) == Distinct(a, seen)
    decreases |a|
  {
    if a != [] {
      var t := TextOf(a[0]);
      if t in seen {
        DistinctTwice(a[1..], seen);
      } else {
        DistinctTwice(a[1..], seen + {t});
        assert Distinct(a, seen)[1..] == Distinct(a[1..], seen + {t});
      }
    }
  }

  /** Joining again after a join is joining everything at once. */
  lemma JoinOfJoin(a: seq<Value>, b: seq<Value>)
    ensures MergeInstructions(Distinct(a, {}), b) == Distinct(a + b, {})
  {
    DistinctAppend(Distinct(a, {}), b, {});
    DistinctTwice(a, {});
    DistinctKeepsTexts(a, {});
    assert {} + Texts(Distinct(a, {})) == {} + Texts(a);
    DistinctAppend(a, b, {});
  }

  predicate HasInstructions(layer: Layer) {
    layer.value.Object? && "instructions" in layer.value.fields
  }

  /** A layer as validation leaves it: an object whose instructions, if any, are a list. */
  predicate Proper(layer: Layer) {
    layer.value.Object? && (HasInstructions(layer) ==> layer.value.fields["instructions"].Array?)
  }

  function InstructionsOf(layers: seq<Layer>): (items: seq<Value>)
    requires forall l | l in layers :: Proper(l)
    decreases |layers|
  {
    if layers == [] then []
    else
      var last := layers[|layers| - 1];
      assert last in layers && Proper(last);
      InstructionsOf(layers[..|layers| - 1]) +
      if HasInstructions(last) then last.value.fields["instructions"].items else []
  }

  function Givers(layers: seq<Layer>): (n: nat)
    decreases |layers|
  {
    if layers == [] then 0 else Givers(layers[..|layers| - 1]) + if HasInstructions(layers[|layers| - 1]) then 1 else 0
  }

  /** One list is kept as it is; several are joined in order, each text once, at its first place. */
  lemma {:induction false} InstructionsJoin(layers: seq<Layer>)
    requires forall l | l in layers :: Proper(l)
    ensures MergedValue(layers).Object?
    ensures var v := MergedValue(layers);
      if Givers(layers) == 0 then "instructions" !in v.fields && InstructionsOf(layers) == []
      else
        "instructions" in v.fields && v.fields["instructions"] ==
          Array(if Givers(layers) == 1 then InstructionsOf(layers) else Distinct(InstructionsOf(layers), {}))
    decreases |layers|
  {
    if layers != [] {
      var n := |layers| - 1;
      var front, last := layers[..n], layers[n];
      assert last in layers && Proper(last) && forall l | l in front :: l in layers;
      InstructionsJoin(front);
      var items := InstructionsOf(front);
      if HasInstructions(last) {
        var more := last.value.fields["instructions"].items;
        if Givers(front) > 1 { JoinOfJoin(items, more); }
        assert Givers(front) == 0 ==> items + more == more;
      } else {
        assert items + [] == items;
      }
    }
  }
}
