/** internal/config/value.go: the merge as it runs, editing a map of origins keyed by pointers. */
module ConfigOrigins {
  import opened Text
  import opened Json
  import opened Pointers
  import opened ConfigMerge

  lemma InstructionsPointer(keys: Keys, key: string)
    ensures Child(Pointer(keys), key) == "/instructions" <==> keys == [] && key == "instructions"
  {
    PointerOfChild(keys, key);
    PlainPointer();
    PointerInjective(keys + [key], ["instructions"]);
    assert keys + [key] == ["instructions"] ==> |keys| == 0 && (keys + [key])[0] == key;
  }

  lemma PlainPointer()
    ensures Pointer(["instructions"]) == "/instructions"
  {
    hide Pointer, Escaped;
    OneKey("instructions");
  }

  lemma OneKey(key: string)
    requires '~' !in key && '/' !in key
    ensures Pointer([key]) == "/" + key
  {
    NothingToEscape(key);
    assert [key][1..] == [] && Pointer([]) == "";
    assert "/" + key + "" == "/" + key;
  }

  lemma {:induction false} NothingToEscape(key: string)
    requires '~' !in key && '/' !in key
    ensures Escaped(key) == key
  {
    if key != "" {
      EscapedHead(key);
      NothingToEscape(key[1..]);
      assert key == [key[0]] + key[1..];
    }
  }

  /** What follows a path in a longer one. */
  function Below(prefix: Keys, keys: Keys): (rest: Keys)
    requires prefix <= keys
  {
    keys[|prefix|..]
  }

  class Origins {
    var refs: map<string, Ref>

    constructor ()
      ensures Pointed() && forall keys :: At(keys) == None
    {
      refs := map[];
    }

    /** Every entry is keyed by a pointer. */
    ghost predicate Pointed()
      reads this
    {
      forall path | path in refs :: exists keys :: path == Pointer(keys)
    }

    function At(keys: Keys): (r: Option<Ref>)
      reads this
    {
      AtIn(refs, keys)
    }

    /** `clearOrigins`. */
    method Clear(path: string, ghost prefix: Keys)
      requires Pointed() && path == Pointer(prefix)
      modifies this
      ensures Pointed() && forall keys :: At(keys) == if prefix <= keys then None else old(At(keys))
    {
      hide Pointer;
      var left := refs.Keys;
      while left != {}
        invariant left <= refs.Keys <= old(refs.Keys)
        invariant forall p | p in refs :: refs[p] == old(refs)[p]
        invariant forall p | p in old(refs) :: p in refs <==> p in left || !AtOrUnder(p, path)
        decreases |left|
      {
        var p :| p in left;
        left := left - {p};
        if AtOrUnder(p, path) { refs := refs - {p}; }
      }
      forall keys ensures At(keys) == if prefix <= keys then None else old(At(keys)) { UnderIsPrefix(prefix, keys); }
    }

    method Put(path: string, ghost prefix: Keys, ref: Ref)
      requires Pointed() && path == Pointer(prefix)
      modifies this
      ensures Pointed() && forall keys :: At(keys) == if keys == prefix then Some(ref) else old(At(keys))
    {
      hide Pointer;
      refs := refs[path := ref];
      forall keys ensures At(keys) == if keys == prefix then Some(ref) else old(At(keys))
      { PointerInjective(keys, prefix); }
    }

    /** `setOrigins`: each leaf and empty object of the value. */
    method Set(path: string, ghost prefix: Keys, v: Value, ref: Ref)
      requires Pointed() && path == Pointer(prefix)
      modifies this
      ensures Pointed()
      ensures forall keys ::
        At(keys) == if prefix <= keys && SetAt(v, ref, Below(prefix, keys)).Some? then Some(ref) else old(At(keys))
      decreases v
    {
      if !v.Object? || v.fields == map[] {
        Put(path, prefix, ref);
        forall keys ensures prefix <= keys && SetAt(v, ref, Below(prefix, keys)).Some? <==> keys == prefix {
          LeafOrigin(v, ref, prefix, keys);
        }
        return;
      }
      ghost var before := refs;
      var left := v.fields.Keys;
      while left != {}
        invariant left <= v.fields.Keys && Pointed()
        invariant forall keys ::
          At(keys) ==
          if prefix < keys && keys[|prefix|] in v.fields.Keys - left && SetAt(v, ref, Below(prefix, keys)).Some?
          then Some(ref)
          else old(At(keys))
        decreases |left|
      {
        var key :| key in left;
        PointerOfChild(prefix, key);
        label Inner:
        Set(Child(path, key), prefix + [key], v.fields[key], ref);
        forall keys ensures prefix + [key] <= keys && SetAt(v.fields[key], ref, Below(prefix + [key], keys)).Some? <==>
          prefix < keys && keys[|prefix|] == key && SetAt(v, ref, Below(prefix, keys)).Some?
        {
          FieldOrigin(v, ref, prefix, key, keys);
        }
        left := left - {key};
      }
      forall keys ensures prefix <= keys && SetAt(v, ref, Below(prefix, keys)).Some? <==>
        prefix < keys && keys[|prefix|] in v.fields && SetAt(v, ref, Below(prefix, keys)).Some?
      {
        ObjectOrigin(v, ref, prefix, keys);
      }
    }

    /** The part of `mergeValues` that replaces a value. */
    method Replace(path: string, ghost prefix: Keys, v: Value, ref: Ref)
      requires Pointed() && path == Pointer(prefix)
      modifies this
      ensures Pointed()
      ensures forall keys ::
        At(keys) == if prefix <= keys then SetAt(v, ref, Below(prefix, keys)) else old(At(keys))
    {
      hide SetAt, Pointer;
      Clear(path, prefix);
      Set(path, prefix, v, ref);
      forall keys | prefix <= keys && SetAt(v, ref, Below(prefix, keys)).Some?
        ensures SetAt(v, ref, Below(prefix, keys)) == Some(ref)
      {
        SetsItsRef(v, ref, Below(prefix, keys));
      }
    }

    /** The joined instructions belong to the last source as a whole. */
    method Own(path: string, ghost prefix: Keys, ref: Ref)
      requires Pointed() && path == Pointer(prefix)
      modifies this
      ensures Pointed()
      ensures forall keys ::
        At(keys) == if prefix <= keys then (if keys == prefix then Some(ref) else None) else old(At(keys))
    {
      hide Pointer;
      Clear(path, prefix);
      Put(path, prefix, ref);
    }

    /** The origins below one key, after its values were merged. */
    ghost predicate FieldDone(before: map<string, Ref>, prefix: Keys, key: string, top: bool, target: Value,
                              source: Value, ref: Ref)
      reads this
    {
      forall keys ::
        At(keys) ==
        if prefix + [key] <= keys then MergedAt(top, target, source, ref, AtIn(before, keys), Below(prefix, keys))
        else AtIn(before, keys)
    }

    method MergeField(path: string, ghost prefix: Keys, key: string, target: Value, source: Value, ref: Ref)
      returns (v: Value)
      requires Pointed() && path == Pointer(prefix) && target.Object? && source.Object? && key in source.fields
      modifies this
      ensures Pointed() && v == Merge(prefix == [], target, source).fields[key]
      ensures FieldDone(old(refs), prefix, key, prefix == [], target, source, ref)
      decreases source, 0
    {
      hide Pointer, SetAt;
      var child := Child(path, key);
      PointerOfChild(prefix, key);
      InstructionsPointer(prefix, key);
      var new_ := source.fields[key];
      if key in target.fields && child == "/instructions" && target.fields[key].Array? && new_.Array? {
        v := Array(MergeInstructions(target.fields[key].items, new_.items));
        Own(child, prefix + [key], ref);
      } else if key in target.fields && target.fields[key].Object? && new_.Object? {
        v := MergeValues(child, prefix + [key], target.fields[key], new_, ref);
      } else {
        v := new_;
        Replace(child, prefix + [key], new_, ref);
      }
      forall keys | prefix + [key] <= keys ensures Below(prefix, keys) == [key] + Below(prefix + [key], keys) {
        assert keys[|prefix|] == key;
      }
    }

    /** `mergeValues`. Keys are taken in any order; each concerns its own part of the origins. */
    method MergeValues(path: string, ghost prefix: Keys, target: Value, source: Value, ref: Ref) returns (v: Value)
      requires Pointed() && path == Pointer(prefix)
      modifies this
      ensures Pointed() && v == Merge(prefix == [], target, source)
      ensures forall keys ::
        At(keys) ==
        if prefix <= keys then MergedAt(prefix == [], target, source, ref, old(At(keys)), Below(prefix, keys))
        else old(At(keys))
      decreases source, 1
    {
      hide Pointer, SetAt, MergedAt, Merge, FieldsDone, OriginsDone;
      if !target.Object? || !source.Object? {
        Replace(path, prefix, source, ref);
        Replaces(prefix == [], target, source, ref);
        return source;
      }
      ghost var top, before := prefix == [], refs;
      var fields := target.fields;
      var left := source.fields.Keys;
      NothingDone(before, prefix, top, target, source, ref);
      assert source.fields.Keys - left == {};
      while left != {}
        invariant left <= source.fields.Keys && Pointed()
        invariant FieldsDone(fields, top, target, source, source.fields.Keys - left)
        invariant OriginsDone(before, refs, prefix, source.fields.Keys - left, top, target, source, ref)
        decreases |left|
      {
        var key :| key in left;
        ghost var now := refs;
        var merged := MergeField(path, prefix, key, target, source, ref);
        assert source.fields.Keys - (left - {key}) == source.fields.Keys - left + {key};
        OneMoreOrigin(before, now, refs, prefix, source.fields.Keys - left, key, top, target, source, ref);
        OneMoreField(fields, top, target, source, source.fields.Keys - left, key);
        fields := fields[key := merged];
        left := left - {key};
      }
      v := Object(fields);
      assert source.fields.Keys - left == source.fields.Keys;
      AllFieldsDone(fields, top, target, source);
      AllOriginsDone(before, refs, prefix, top, target, source, ref);
    }
  }

  /** The merged object while some of the source's keys are still to come. */
  ghost predicate FieldsDone(fields: map<string, Value>, top: bool, target: Value, source: Value, done: set<string>)
    requires target.Object? && source.Object? && done <= source.fields.Keys
  {
    fields.Keys == target.fields.Keys + done &&
    forall k | k in fields :: fields[k] == if k in done then Merge(top, target, source).fields[k] else target.fields[k]
  }

  ghost predicate OriginsDone(before: map<string, Ref>, after: map<string, Ref>, prefix: Keys, done: set<string>,
                              top: bool, target: Value, source: Value, ref: Ref)
  {
    forall keys ::
      AtIn(after, keys) ==
      if prefix < keys && keys[|prefix|] in done
      then MergedAt(top, target, source, ref, AtIn(before, keys), Below(prefix, keys))
      else AtIn(before, keys)
  }

  lemma NothingDone(before: map<string, Ref>, prefix: Keys, top: bool, target: Value, source: Value, ref: Ref)
    requires target.Object? && source.Object?
    ensures FieldsDone(target.fields, top, target, source, {})
    ensures OriginsDone(before, before, prefix, {}, top, target, source, ref)
  {
    hide AtIn, MergedAt;
  }

  lemma OneMoreField(fields: map<string, Value>, top: bool, target: Value, source: Value, done: set<string>,
                     key: string)
    requires target.Object? && source.Object? && done <= source.fields.Keys && key in source.fields
    requires FieldsDone(fields, top, target, source, done)
    ensures FieldsDone(fields[key := Merge(top, target, source).fields[key]], top, target, source, done + {key})
  {
  }

  lemma AllFieldsDone(fields: map<string, Value>, top: bool, target: Value, source: Value)
    requires target.Object? && source.Object? && FieldsDone(fields, top, target, source, source.fields.Keys)
    ensures Object(fields) == Merge(top, target, source)
  {
    assert fields == Merge(top, target, source).fields;
  }

  lemma AllOriginsDone(before: map<string, Ref>, after: map<string, Ref>, prefix: Keys, top: bool, target: Value,
                       source: Value, ref: Ref)
    requires target.Object? && source.Object?
    requires OriginsDone(before, after, prefix, source.fields.Keys, top, target, source, ref)
    ensures forall keys ::
      AtIn(after, keys) ==
      if prefix <= keys then MergedAt(top, target, source, ref, AtIn(before, keys), Below(prefix, keys))
      else AtIn(before, keys)
  {
    hide AtIn;
    forall keys | prefix <= keys && !(prefix < keys && keys[|prefix|] in source.fields)
      ensures MergedAt(top, target, source, ref, AtIn(before, keys), Below(prefix, keys)) == AtIn(before, keys)
    {
      assert prefix < keys ==> Below(prefix, keys)[0] == keys[|prefix|];
      assert !(prefix < keys) ==> Below(prefix, keys) == [];
    }
  }

  lemma Replaces(top: bool, target: Value, source: Value, ref: Ref)
    requires !target.Object? || !source.Object?
    ensures Merge(top, target, source) == source
    ensures forall before, keys :: MergedAt(top, target, source, ref, before, keys) == SetAt(source, ref, keys)
  {
  }

  function AtIn(refs: map<string, Ref>, keys: Keys): (r: Option<Ref>) {
    if Pointer(keys) in refs then Some(refs[Pointer(keys)]) else None
  }

  lemma SetsItsRef(v: Value, ref: Ref, keys: Keys)
    ensures SetAt(v, ref, keys).Some? ==> SetAt(v, ref, keys) == Some(ref)
  {
  }

  /** A step of the loop: the fields done before, and now one more. */
  lemma OneMoreOrigin(before: map<string, Ref>, now: map<string, Ref>, after: map<string, Ref>, prefix: Keys,
                      done: set<string>, key: string, top: bool, target: Value, source: Value, ref: Ref)
    requires key !in done && OriginsDone(before, now, prefix, done, top, target, source, ref)
    requires forall keys ::
      AtIn(after, keys) ==
      if prefix + [key] <= keys then MergedAt(top, target, source, ref, AtIn(now, keys), Below(prefix, keys))
      else AtIn(now, keys)
    ensures OriginsDone(before, after, prefix, done + {key}, top, target, source, ref)
  {
    hide MergedAt, AtIn;
    forall keys ensures prefix + [key] <= keys <==> prefix < keys && keys[|prefix|] == key {
      if prefix < keys { assert keys == keys[..|prefix|] + [keys[|prefix|]] + keys[|prefix| + 1..]; }
    }
  }

  lemma LeafOrigin(v: Value, ref: Ref, prefix: Keys, keys: Keys)
    requires !NonEmptyObject(v)
    ensures prefix <= keys && SetAt(v, ref, Below(prefix, keys)).Some? <==> keys == prefix
  {
    if prefix <= keys { assert keys == prefix + Below(prefix, keys); }
  }

  lemma FieldOrigin(v: Value, ref: Ref, prefix: Keys, key: string, keys: Keys)
    requires v.Object? && key in v.fields
    ensures prefix + [key] <= keys && SetAt(v.fields[key], ref, Below(prefix + [key], keys)).Some? <==>
      prefix < keys && keys[|prefix|] == key && SetAt(v, ref, Below(prefix, keys)).Some?
  {
    if prefix < keys && keys[|prefix|] == key {
      assert Below(prefix, keys)[0] == key && Below(prefix, keys)[1..] == Below(prefix + [key], keys);
    }
  }

  lemma ObjectOrigin(v: Value, ref: Ref, prefix: Keys, keys: Keys)
    requires NonEmptyObject(v)
    ensures prefix <= keys && SetAt(v, ref, Below(prefix, keys)).Some? ==> prefix < keys && keys[|prefix|] in v.fields
  {
    if prefix <= keys && Below(prefix, keys) != [] { assert Below(prefix, keys)[0] == keys[|prefix|]; }
  }
}
