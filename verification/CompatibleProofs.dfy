/** The compatible adapter simulates the stream validator: exactly when its events are accepted, and
    that every tool call carries the arguments that were streamed. */
module CompatibleProofs {
  import opened Text
  import opened StringOrder
  import opened Stream
  import opened Emitter
  import opened Compatible
  import Json
  import JsonProofs

  // ---------- Running on from a state ----------

  function RunFrom(s: State, events: seq<Event>): (r: Option<State>)
    decreases |events|
  {
    if events == [] then Some(s)
    else
      var x := Accepted(s, events[0]);
      if x.Err? then None else RunFrom(x.value, events[1..])
  }

  lemma {:induction false} RunFromAppend(s: State, a: seq<Event>, b: seq<Event>)
    ensures RunFrom(s, a + b) == if RunFrom(s, a).None? then None else RunFrom(RunFrom(s, a).value, b)
    decreases |a|
  {
    if a == [] {
      assert a + b == b;
    } else {
      assert (a + b)[0] == a[0] && (a + b)[1..] == a[1..] + b;
      var x := Accepted(s, a[0]);
      if x.Ok? { RunFromAppend(x.value, a[1..], b); }
    }
  }

  lemma {:induction false} RunIsRunFrom(events: seq<Event>)
    ensures Run(events) == RunFrom(INITIAL, events)
    decreases |events|
  {
    if events != [] {
      var p, e := events[..|events| - 1], events[|events| - 1];
      RunIsRunFrom(p);
      assert events == p + [e];
      RunFromAppend(INITIAL, p, [e]);
      if Run(p).Some? { One(Run(p).value, e); }
    }
  }

  // ---------- What the adapter's bookkeeping must satisfy ----------

  predicate Started(b: Book, k: string) {
    k in b.tools && b.tools[k].started
  }

  /** True of every reachable bookkeeping before the terminal frame. */
  ghost predicate Consistent(b: Book) {
    (forall id | id in b.text :: exists i :: id == TextId(i)) &&
    (forall id | id in b.reasoning :: exists i :: id == ReasoningId(i)) &&
    (forall k | k in b.tools ::
       !b.tools[k].called && (b.tools[k].started ==> b.tools[k].id != "" && b.tools[k].name != "")) &&
    !b.terminal
  }

  /** A started tool's identity does not collide with any other block. */
  ghost predicate GoodTool(b: Book, k: string)
    requires k in b.tools
  {
    var t := b.tools[k];
    Identity(t.id) && !Blank(t.name) && t.id !in b.text && t.id !in b.reasoning &&
    forall j | Started(b, j) && j != k :: b.tools[j].id != t.id
  }

  /** What the validator demands of the blocks begun so far. */
  ghost predicate GoodIds(b: Book) {
    (forall id | id in b.text :: Identity(id)) && (forall id | id in b.reasoning :: Identity(id)) &&
    (forall k | Started(b, k) :: GoodTool(b, k))
  }

  predicate ToolReady(t: Tool) {
    t.started && ArgumentsDecode(t.args) && InputFits(ToolInput(t.args))
  }

  /** What `[DONE]` needs: all tools started, their arguments decodable within the depth that a tool
      call event leaves them, and usage and metadata that encode. */
  ghost predicate Ready(b: Book) {
    GoodIds(b) && (forall k | k in b.tools :: ToolReady(b.tools[k])) && b.usageEncodes && b.metadataEncodes
  }

  // ---------- The simulation ----------

  /** The validator's block for each id the adapter has open; `done` are the closed text and reasoning
      ids, `called` the keys of the closed tools. */
  ghost predicate SimBlocks(b: Book, s: State, done: set<string>, called: set<string>) {
    (forall id | id in b.text :: id in s.blocks && s.blocks[id] == Block(TextBlock, "", id in done, false, false)) &&
    (forall id | id in b.reasoning ::
       id in s.blocks && s.blocks[id] == Block(ReasoningBlock, "", id in done, false, false)) &&
    (forall k | Started(b, k) ::
       b.tools[k].id in s.blocks &&
       s.blocks[b.tools[k].id] == Block(ToolInputBlock, b.tools[k].name, k in called, k in called, false)) &&
    (forall id | id in s.blocks ::
       id in b.text || id in b.reasoning || exists k :: Started(b, k) && b.tools[k].id == id)
  }

  ghost predicate Sim(b: Book, s: State, done: set<string>, called: set<string>) {
    s.stepActive && s.stepIndex == Finite(0.0) && !s.terminal && SimBlocks(b, s, done, called)
  }

  lemma IdsDiffer(i: string, j: string)
    ensures TextId(i) != ReasoningId(j)
  {
    assert TextId(i)[0] == 't' && ReasoningId(j)[0] == 'r';
  }

  lemma One(s: State, e: Event)
    ensures RunFrom(s, [e]) ==
      var x := Accepted(s, e);
      if x.Err? then None else Some(x.value)
  {
    assert [e][1..] == [];
  }

  lemma OneThen(s: State, e: Event, rest: seq<Event>)
    ensures RunFrom(s, [e] + rest) ==
      var x := Accepted(s, e);
      if x.Err? then None else RunFrom(x.value, rest)
  {
    assert ([e] + rest)[1..] == rest;
  }

  lemma StepKeepsConsistent(b: Book, op: Op)
    requires Consistent(b)
    ensures Consistent(Apply(b, op).0)
  {
  }

  /** Blocks are never forgotten: a good book was good before. */
  lemma StepKeepsBad(b: Book, op: Op)
    requires Consistent(b) && GoodIds(Apply(b, op).0)
    ensures GoodIds(b)
  {
    var b1 := Apply(b, op).0;
    forall k | Started(b, k) ensures GoodTool(b, k) {
      assert Started(b1, k) && GoodTool(b1, k);
      assert b1.tools[k].id == b.tools[k].id && b1.tools[k].name == b.tools[k].name;
      forall j | Started(b, j) && j != k ensures b.tools[j].id != b.tools[k].id {
        assert Started(b1, j) && b1.tools[j].id == b.tools[j].id;
      }
    }
  }

  ghost predicate Unused(b: Book, id: string) {
    id !in b.text && id !in b.reasoning && forall k | Started(b, k) :: b.tools[k].id != id
  }

  lemma SimUnused(b: Book, s: State, done: set<string>, called: set<string>, id: string)
    requires Sim(b, s, done, called)
    ensures id !in s.blocks <==> Unused(b, id)
  {
    forall k | Started(b, k) && b.tools[k].id == id ensures id in s.blocks {
      assert b.tools[k].id in s.blocks;
    }
  }

  lemma TextBegins(b: Book, s: State, id: string)
    requires GoodIds(b) && Sim(b, s, {}, {}) && id !in b.text && id !in b.reasoning
    ensures var b1 := b.(text := b.text + {id});
      (Accepted(s, TextStart(id, true)).Ok? <==> GoodIds(b1)) &&
      (GoodIds(b1) ==> Sim(b1, Accepted(s, TextStart(id, true)).value, {}, {}))
  {
    hide Identity, Blank, Json.Valid, Json.Fits, Json.Decode;
    var b1 := b.(text := b.text + {id});
    assert forall k :: Started(b1, k) <==> Started(b, k);
    SimUnused(b, s, {}, {}, id);
    if GoodIds(b1) {
      assert id in b1.text;
      forall k | Started(b, k) ensures b.tools[k].id != id { assert GoodTool(b1, k); }
    }
    if Identity(id) && Unused(b, id) {
      forall k | Started(b1, k) ensures GoodTool(b1, k) { assert GoodTool(b, k); }
    }
  }

  lemma ReasoningBegins(b: Book, s: State, id: string)
    requires GoodIds(b) && Sim(b, s, {}, {}) && id !in b.text && id !in b.reasoning
    ensures var b1 := b.(reasoning := b.reasoning + {id});
      (Accepted(s, ReasoningStart(id, true)).Ok? <==> GoodIds(b1)) &&
      (GoodIds(b1) ==> Sim(b1, Accepted(s, ReasoningStart(id, true)).value, {}, {}))
  {
    hide Identity, Blank, Json.Valid, Json.Fits, Json.Decode;
    var b1 := b.(reasoning := b.reasoning + {id});
    assert forall k :: Started(b1, k) <==> Started(b, k);
    SimUnused(b, s, {}, {}, id);
    if GoodIds(b1) {
      assert id in b1.reasoning;
      forall k | Started(b, k) ensures b.tools[k].id != id { assert GoodTool(b1, k); }
    }
    if Identity(id) && Unused(b, id) {
      forall k | Started(b1, k) ensures GoodTool(b1, k) { assert GoodTool(b, k); }
    }
  }

  /** The outcome of running a step's events against what the step made of the bookkeeping. */
  ghost predicate Simulates(b1: Book, s: State, events: seq<Event>) {
    var r := RunFrom(s, events);
    (r.Some? <==> GoodIds(b1)) && (r.Some? ==> Sim(b1, r.value, {}, {}))
  }

  lemma TextStep(b: Book, s: State, index: string, content: string)
    requires Consistent(b) && GoodIds(b) && Sim(b, s, {}, {})
    ensures var (b1, events) := Apply(b, TextOp(index, content)); Simulates(b1, s, events)
  {
    hide Identity, Blank, Json.Valid, Json.Fits, Json.Decode;
    var id := TextId(index);
    var delta := TextDelta(id, content, true);
    if content != "" {
      if id in b.text {
        assert b.text + {id} == b.text;
        One(s, delta);
        assert [] + [delta] == [delta];
      } else {
        OneThen(s, TextStart(id, true), [delta]);
        forall i ensures id != ReasoningId(i) { IdsDiffer(index, i); }
        TextBegins(b, s, id);
        var x := Accepted(s, TextStart(id, true));
        if x.Ok? { One(x.value, delta); }
      }
    }
  }

  lemma ReasoningStep(b: Book, s: State, index: string, content: string)
    requires Consistent(b) && GoodIds(b) && Sim(b, s, {}, {})
    ensures var (b1, events) := Apply(b, ReasoningOp(index, content)); Simulates(b1, s, events)
  {
    hide Identity, Blank, Json.Valid, Json.Fits, Json.Decode;
    var id := ReasoningId(index);
    var delta := ReasoningDelta(id, content, true);
    if content != "" {
      if id in b.reasoning {
        assert b.reasoning + {id} == b.reasoning;
        One(s, delta);
        assert [] + [delta] == [delta];
      } else {
        OneThen(s, ReasoningStart(id, true), [delta]);
        forall i ensures id != TextId(i) { IdsDiffer(i, index); }
        ReasoningBegins(b, s, id);
        var x := Accepted(s, ReasoningStart(id, true));
        if x.Ok? { One(x.value, delta); }
      }
    }
  }

  // ---------- Tools ----------

  /** Whether a tool that starts under an id keeps the bookkeeping good. */
  lemma ToolStartGood(b: Book, key: string, t: Tool)
    requires GoodIds(b) && !Started(b, key) && t.started
    ensures GoodIds(b.(tools := b.tools[key := t])) <==> Identity(t.id) && !Blank(t.name) && Unused(b, t.id)
  {
    hide Identity, Blank;
    var b1 := b.(tools := b.tools[key := t]);
    assert forall k :: Started(b1, k) <==> Started(b, k) || k == key;
    if GoodIds(b1) {
      assert GoodTool(b1, key);
      forall k | Started(b, k) ensures b.tools[k].id != t.id { assert Started(b1, k); }
    }
    if Identity(t.id) && !Blank(t.name) && Unused(b, t.id) {
      forall k | Started(b1, k) ensures GoodTool(b1, k) {
        assert k != key ==> GoodTool(b, k);
      }
    }
  }

  lemma ToolStartSim(b: Book, s: State, key: string, t: Tool)
    requires Sim(b, s, {}, {}) && !Started(b, key) && t.started && Unused(b, t.id)
    ensures Sim(b.(tools := b.tools[key := t]),
                s.(blocks := s.blocks[t.id := Block(ToolInputBlock, t.name, false, false, false)]), {}, {})
  {
    var b1 := b.(tools := b.tools[key := t]);
    assert forall k :: Started(b1, k) <==> Started(b, k) || k == key;
  }

  lemma ToolBegins(b: Book, s: State, key: string, t: Tool)
    requires GoodIds(b) && Sim(b, s, {}, {}) && !Started(b, key) && t.started && t.id != ""
    ensures var b1 := b.(tools := b.tools[key := t]);
      var x := Accepted(s, ToolInputStart(t.id, t.name, true));
      (x.Ok? <==> GoodIds(b1)) && (x.Ok? ==> Sim(b1, x.value, {}, {}))
  {
    assert s.stepActive && !s.terminal;
    hide Identity, Blank, GoodIds, Sim, Unused;
    SimUnused(b, s, {}, {}, t.id);
    ToolStartGood(b, key, t);
    if Unused(b, t.id) { ToolStartSim(b, s, key, t); }
  }

  /** A change of tool `key` that keeps its block identity, or keeps it unstarted. */
  predicate SameBlock(b: Book, key: string, t: Tool) {
    if Started(b, key) then t.started && t.id == b.tools[key].id && t.name == b.tools[key].name else !t.started
  }

  lemma UpdateKeepsGood(b: Book, key: string, t: Tool)
    requires GoodIds(b) && SameBlock(b, key, t)
    ensures GoodIds(b.(tools := b.tools[key := t]))
  {
    var b1 := b.(tools := b.tools[key := t]);
    forall k | Started(b1, k) ensures GoodTool(b1, k) {
      assert Started(b, k) && GoodTool(b, k);
      forall j | Started(b1, j) && j != k ensures b1.tools[j].id != b1.tools[k].id {
        assert Started(b, j) && b.tools[j].id != b.tools[k].id;
      }
    }
  }

  lemma UpdateKeepsSim(b: Book, s: State, key: string, t: Tool)
    requires Sim(b, s, {}, {}) && SameBlock(b, key, t)
    ensures Sim(b.(tools := b.tools[key := t]), s, {}, {})
  {
    var b1 := b.(tools := b.tools[key := t]);
    forall k | Started(b1, k)
      ensures Started(b, k) && b1.tools[k].id == b.tools[k].id && b1.tools[k].name == b.tools[k].name
    {
    }
    forall id | id in s.blocks
      ensures id in b1.text || id in b1.reasoning || exists k :: Started(b1, k) && b1.tools[k].id == id
    {
      if id !in b.text && id !in b.reasoning {
        var k :| Started(b, k) && b.tools[k].id == id;
        assert Started(b1, k) && b1.tools[k].id == id;
      }
    }
  }

  lemma ToolDeltaAccepted(b: Book, s: State, key: string, part: string)
    requires Sim(b, s, {}, {}) && Started(b, key)
    ensures Accepted(s, ToolInputDelta(b.tools[key].id, b.tools[key].name, part, true)) == Ok(s)
  {
  }

  lemma CallStep(b: Book, s: State, key: string, call: CallDelta)
    requires Consistent(b) && GoodIds(b) && Sim(b, s, {}, {})
    ensures var (b1, events) := Apply(b, CallOp(key, call)); Simulates(b1, s, events)
  {
    hide Identity, Blank, Json.Valid, Json.Fits, Json.Decode;
    var t := NamedTool(b, key, call);
    var part := call.arguments;
    var (t1, events) := ToolEvents(t, part);
    var b1 := b.(tools := b.tools[key := t1]);
    var delta := ToolInputDelta(t.id, t.name, part, true);
    var tail := if part == "" then [] else [delta];
    if Started(b, key) {
      UpdateKeepsGood(b, key, t1);
      UpdateKeepsSim(b, s, key, t1);
      ToolDeltaAccepted(b, s, key, part);
      assert events == tail;
      if part != "" { One(s, delta); }
    } else if t.id == "" || t.name == "" {
      UpdateKeepsGood(b, key, t1);
      UpdateKeepsSim(b, s, key, t1);
    } else {
      var start := ToolInputStart(t.id, t.name, true);
      assert events == [start] + tail;
      OneThen(s, start, tail);
      ToolBegins(b, s, key, t1);
      var x := Accepted(s, start);
      if x.Ok? {
        assert Started(b1, key);
        ToolDeltaAccepted(b1, x.value, key, part);
        if part != "" { One(x.value, delta); }
      }
    }
  }

  lemma OpStep(b: Book, s: State, op: Op)
    requires Consistent(b) && GoodIds(b) && Sim(b, s, {}, {})
    ensures var (b1, events) := Apply(b, op); Simulates(b1, s, events)
  {
    match op
    case TextOp(index, content) => TextStep(b, s, index, content);
    case ReasoningOp(index, content) => ReasoningStep(b, s, index, content);
    case CallOp(key, call) => CallStep(b, s, key, call);
    case ReasonOp(finish) =>
      var b1 := Apply(b, op).0;
      assert forall k :: Started(b1, k) <==> Started(b, k);
      assert GoodIds(b1) by { forall k | Started(b1, k) ensures GoodTool(b1, k) { assert GoodTool(b, k); } }
  }

  // ---------- Chunks ----------

  lemma {:induction false} OpsKeepBad(b: Book, ops: seq<Op>)
    requires Consistent(b)
    ensures Consistent(ApplyAll(b, ops).0)
    ensures GoodIds(ApplyAll(b, ops).0) ==> GoodIds(b)
    decreases |ops|
  {
    if ops != [] {
      var b1 := Apply(b, ops[0]).0;
      StepKeepsConsistent(b, ops[0]);
      OpsKeepBad(b1, ops[1..]);
      if GoodIds(b1) { StepKeepsBad(b, ops[0]); }
    }
  }

  lemma {:induction false} OpsSimulate(b: Book, s: State, ops: seq<Op>)
    requires Consistent(b) && GoodIds(b) && Sim(b, s, {}, {})
    ensures var (b1, events) := ApplyAll(b, ops); Simulates(b1, s, events)
    decreases |ops|
  {
    if ops != [] {
      var (b1, first) := Apply(b, ops[0]);
      OpStep(b, s, ops[0]);
      StepKeepsConsistent(b, ops[0]);
      RunFromAppend(s, first, ApplyAll(b1, ops[1..]).1);
      if GoodIds(b1) {
        OpsSimulate(b1, RunFrom(s, first).value, ops[1..]);
      } else {
        OpsKeepBad(b1, ops[1..]);
      }
    }
  }

  // ---------- Finishing ----------

  lemma TextApart(b: Book, id: string)
    requires Consistent(b) && id in b.text
    ensures id !in b.reasoning
  {
    var j :| id == TextId(j);
    forall i ensures id != ReasoningId(i) { IdsDiffer(j, i); }
  }

  /** Closing one open text or reasoning block. */
  lemma EndKeepsSim(b: Book, s: State, id: string, done: set<string>)
    requires GoodIds(b) && Sim(b, s, done, {}) && (id in b.text || id in b.reasoning)
    requires id in b.text ==> id !in b.reasoning
    ensures Sim(b, s.(blocks := s.blocks[id := s.blocks[id].(closed := true)]), done + {id}, {})
  {
    hide Identity, Blank, Json.Valid, Json.Fits, Json.Decode;
    forall k | Started(b, k) ensures b.tools[k].id != id { assert GoodTool(b, k); }
  }

  function EndOf(id: string, text: bool): (e: Event) {
    if text then TextEnd(id, true) else ReasoningEnd(id, true)
  }

  lemma EndStep(b: Book, s: State, id: string, text: bool, done: set<string>)
    requires GoodIds(b) && Consistent(b) && Sim(b, s, done, {}) && id !in done
    requires id in if text then b.text else b.reasoning
    ensures var x := Accepted(s, EndOf(id, text));
      x.Ok? && Sim(b, x.value, done + {id}, {})
  {
    hide Identity, Blank, Json.Valid, Json.Fits, Json.Decode;
    if id in b.text { TextApart(b, id); }
    EndKeepsSim(b, s, id, done);
  }

  lemma EndsHead(ids: seq<string>, text: bool)
    requires ids != []
    ensures Ends(ids, text) == [EndOf(ids[0], text)] + Ends(ids[1..], text)
  {
  }

  function Members(ids: seq<string>): (r: set<string>) {
    set id | id in ids
  }

  ghost predicate CanEnd(b: Book, ids: seq<string>, text: bool, done: set<string>) {
    Ascending(ids) && forall id | id in ids :: id in (if text then b.text else b.reasoning) && id !in done
  }

  lemma CanEndHead(b: Book, ids: seq<string>, text: bool, done: set<string>)
    requires CanEnd(b, ids, text, done) && ids != []
    ensures ids[0] in (if text then b.text else b.reasoning) && ids[0] !in done
    ensures CanEnd(b, ids[1..], text, done + {ids[0]})
  {
    MembersHead(ids, done);
    assert forall id | id in ids[1..] :: id in ids;
  }

  lemma MembersHead(ids: seq<string>, done: set<string>)
    requires ids != [] && Ascending(ids)
    ensures done + {ids[0]} + Members(ids[1..]) == done + Members(ids)
    ensures ids[0] !in ids[1..] && Ascending(ids[1..])
  {
    BelowIrreflexive(ids, ids);
    assert ids == [ids[0]] + ids[1..];
  }

  /** Ending blocks that are open, each once. */
  lemma {:induction false} EndsAccepted(b: Book, s: State, ids: seq<string>, text: bool, done: set<string>)
    requires GoodIds(b) && Consistent(b) && Sim(b, s, done, {}) && CanEnd(b, ids, text, done)
    ensures var r := RunFrom(s, Ends(ids, text));
      r.Some? && Sim(b, r.value, done + Members(ids), {})
    decreases |ids|
  {
    if ids == [] {
      assert done + Members(ids) == done;
    } else {
      hide Sim, GoodIds, Consistent, Accepted, Members, CanEnd;
      var id := ids[0];
      EndsHead(ids, text);
      OneThen(s, EndOf(id, text), Ends(ids[1..], text));
      EndStep(b, s, id, text, done);
      MembersHead(ids, done);
      CanEndHead(b, ids, text, done);
      EndsAccepted(b, Accepted(s, EndOf(id, text)).value, ids[1..], text, done + {id});
    }
  }

  lemma ListedMembers(ids: seq<string>, keys: set<string>)
    requires Lists(ids, keys)
    ensures Members(ids) == keys
  {
  }

  lemma BlockEndsAccepted(b: Book, s: State)
    requires GoodIds(b) && Consistent(b) && Sim(b, s, {}, {})
    ensures var r := RunFrom(s, BlockEnds(b)); r.Some? && Sim(b, r.value, b.text + b.reasoning, {})
  {
    var texts, thoughts := Sorted(b.text), Sorted(b.reasoning);
    hide Sim, GoodIds, Consistent, Accepted, Sorted, Ends, RunFrom, Ascending, Members;
    SortedLists(b.text);
    SortedLists(b.reasoning);
    ListedMembers(texts, b.text);
    ListedMembers(thoughts, b.reasoning);
    EndsAccepted(b, s, texts, true, {});
    assert {} + b.text == b.text;
    forall id | id in b.reasoning ensures id !in b.text {
      if id in b.text { TextApart(b, id); }
    }
    EndsAccepted(b, RunFrom(s, Ends(texts, true)).value, thoughts, false, b.text);
    RunFromAppend(s, Ends(texts, true), Ends(thoughts, false));
  }

  /** The call of a closed tool input: accepted exactly when the input fits below the event. */
  lemma ToolCloses(b: Book, s: State, done: set<string>, called: set<string>, key: string)
    requires GoodIds(b) && Sim(b, s, done, called) && Started(b, key) && key !in called
    requires ArgumentsDecode(b.tools[key].args)
    ensures var r := RunFrom(s, ClosingEvents(b.tools[key]));
      (r.Some? <==> ToolReady(b.tools[key])) && (r.Some? ==> Sim(b, r.value, done, called + {key}))
  {
    hide Identity, Blank, Json.Valid, Json.Fits, Json.Decode;
    var t := b.tools[key];
    assert GoodTool(b, key);
    assert s.stepActive && !s.terminal;
    assert t.id in s.blocks && s.blocks[t.id] == Block(ToolInputBlock, t.name, false, false, false);
    hide GoodIds, Sim, GoodTool;
    if ToolReady(t) { CallKeepsSim(b, s, done, called, key); }
    var end, call := ToolInputEnd(t.id, t.name, true), ToolCall(t.id, t.name, ToolInput(t.args), true);
    assert ClosingEvents(t) == [end] + [call];
    InputValid(t.args);
    EndThenCall(s, t.id, t.name, ToolInput(t.args));
    hide Accepted;
    OneThen(s, end, [call]);
    One(Accepted(s, end).value, call);
  }

  /** The end of an open tool input, and the call that follows it. */
  lemma EndThenCall(s: State, id: string, name: string, input: Json.Value)
    requires s.stepActive && !s.terminal && Identity(id) && !Blank(name) && Json.Valid(input)
    requires id in s.blocks && s.blocks[id] == Block(ToolInputBlock, name, false, false, false)
    ensures var end := Accepted(s, ToolInputEnd(id, name, true));
      end.Ok? &&
      var r := Accepted(end.value, ToolCall(id, name, input, true));
      (r.Ok? <==> InputFits(input)) &&
      (r.Ok? ==> r.value == s.(blocks := s.blocks[id := s.blocks[id].(closed := true, called := true)]))
  {
    hide Identity, Blank, Json.Valid, Json.Fits;
  }

  lemma InputValid(args: string)
    requires ArgumentsDecode(args)
    ensures Json.Valid(ToolInput(args))
  {
    if !Blank(args) { JsonProofs.ParsedIsCanonical(args, 0); }
  }

  lemma CallKeepsSim(b: Book, s: State, done: set<string>, called: set<string>, key: string)
    requires GoodIds(b) && Sim(b, s, done, called) && Started(b, key) && key !in called
    ensures var id := b.tools[key].id;
      Sim(b, s.(blocks := s.blocks[id := s.blocks[id].(closed := true, called := true)]), done, called + {key})
  {
    hide Identity, Blank, Json.Valid, Json.Fits, Json.Decode;
    assert GoodTool(b, key);
    forall k | Started(b, k) && k != key ensures b.tools[k].id != b.tools[key].id { }
  }

  predicate AllReady(tools: map<string, Tool>, keys: seq<string>)
    requires forall k | k in keys :: k in tools
  {
    forall k | k in keys :: ToolReady(tools[k])
  }

  lemma AllReadyHead(tools: map<string, Tool>, keys: seq<string>)
    requires keys != [] && forall k | k in keys :: k in tools
    ensures AllReady(tools, keys) <==> ToolReady(tools[keys[0]]) && AllReady(tools, keys[1..])
  {
    assert keys == [keys[0]] + keys[1..];
  }

  lemma CloseToolsHead(tools: map<string, Tool>, keys: seq<string>)
    requires keys != [] && forall k | k in keys :: k in tools
    requires var t := tools[keys[0]]; !t.called && (t.started ==> t.id != "" && t.name != "")
    ensures var t := tools[keys[0]];
      var ready := t.started && ArgumentsDecode(t.args);
      var rest := CloseTools(tools, keys[1..]);
      if ready then CloseTools(tools, keys) == (ClosingEvents(t) + rest.0, rest.1) else CloseTools(tools, keys).1
  {
    var t := tools[keys[0]];
    if t.started && ArgumentsDecode(t.args) {
      var end, call := ToolInputEnd(t.id, t.name, true), ToolCall(t.id, t.name, ToolInput(t.args), true);
      assert [end] + [call] == [end, call];
    }
  }

  predicate Closable(b: Book, keys: seq<string>, called: set<string>) {
    forall k | k in keys :: k in b.tools && k !in called
  }

  lemma ClosableHead(b: Book, keys: seq<string>, called: set<string>)
    requires keys != [] && Closable(b, keys, called) && Ascending(keys) && Consistent(b)
    ensures keys[0] in b.tools && keys[0] !in called && Closable(b, keys[1..], called + {keys[0]})
    ensures var t := b.tools[keys[0]]; !t.called && (t.started ==> t.id != "" && t.name != "")
  {
    BelowIrreflexive(keys, keys);
    assert forall k | k in keys[1..] :: k in keys;
    assert keys[0] in keys;
  }

  lemma NoToolsClose(b: Book, s: State, done: set<string>, called: set<string>)
    requires Sim(b, s, done, called)
    ensures CloseTools(b.tools, []) == ([], false) && RunFrom(s, []) == Some(s) && AllReady(b.tools, [])
    ensures Sim(b, s, done, called + Members([]))
  {
    assert called + Members([]) == called;
  }

  /** Closing the tools in order succeeds exactly when every one of them is ready. */
  lemma {:induction false} ToolsClose(b: Book, s: State, done: set<string>, called: set<string>, keys: seq<string>)
    requires GoodIds(b) && Consistent(b) && Sim(b, s, done, called) && Ascending(keys)
    requires Closable(b, keys, called)
    ensures var (events, failed) := CloseTools(b.tools, keys);
      var r := RunFrom(s, events);
      (!failed && r.Some? <==> AllReady(b.tools, keys)) &&
      (!failed && r.Some? ==> Sim(b, r.value, done, called + Members(keys)))
    decreases |keys|
  {
    hide Sim, GoodIds, Consistent, Accepted, RunFrom, CloseTools,
      AllReady, Ascending, Members, ToolReady, ClosingEvents;
    if keys == [] {
      NoToolsClose(b, s, done, called);
    } else {
      var key, rest := keys[0], keys[1..];
      ClosableHead(b, keys, called);
      var t := b.tools[key];
      CloseToolsHead(b.tools, keys);
      AllReadyHead(b.tools, keys);
      ReadyMeans(t);
      if t.started && ArgumentsDecode(t.args) {
        RunFromAppend(s, ClosingEvents(t), CloseTools(b.tools, rest).0);
        ToolCloses(b, s, done, called, key);
        if ToolReady(t) {
          MembersHead(keys, called);
          ToolsClose(b, RunFrom(s, ClosingEvents(t)).value, done, called + {key}, rest);
        }
      }
    }
  }

  lemma ReadyMeans(t: Tool)
    ensures ToolReady(t) ==> t.started && ArgumentsDecode(t.args)
  {
  }

  lemma FinishAccepted(b: Book, s: State, reason: FinishReason, encodes: bool)
    requires Sim(b, s, b.text + b.reasoning, b.tools.Keys)
    ensures var r := RunFrom(s, FinishEvents(false, reason, encodes));
      (r.Some? <==> encodes) && (r.Some? ==> r.value.terminal)
  {
    var step, last := StepFinish(Finite(0.0), reason, encodes), Finish(reason, encodes);
    assert FinishEvents(false, reason, encodes) == [step] + [last];
    OneThen(s, step, [last]);
    assert NoOpenBlocks(s);
    if encodes { One(Accepted(s, step).value, last); }
  }

  /** `[DONE]` completes the stream exactly when the bookkeeping is ready. */
  lemma DoneAccepted(b: Book, s: State, reason: FinishReason)
    requires GoodIds(b) && Consistent(b) && Sim(b, s, {}, {})
    ensures var p := FinishPlan(b, reason);
      var r := RunFrom(s, p.events);
      (!p.failed && r.Some? <==> Ready(b)) && (!p.failed && r.Some? ==> r.value.terminal)
  {
    hide Sim, GoodIds, Consistent, Accepted, Sorted;
    BlockEndsAccepted(b, s);
    var s1 := RunFrom(s, BlockEnds(b)).value;
    SortedLists(b.tools.Keys);
    var keys := Sorted(b.tools.Keys);
    ToolsClose(b, s1, b.text + b.reasoning, {}, keys);
    ListedMembers(keys, b.tools.Keys);
    assert {} + Members(keys) == b.tools.Keys;
    var (calls, failed) := CloseTools(b.tools, keys);
    var encodes := b.usageEncodes && b.metadataEncodes;
    var tail := FinishEvents(failed, reason, encodes);
    RunFromAppend(s, BlockEnds(b), calls + tail);
    RunFromAppend(s1, calls, tail);
    var r := RunFrom(s1, calls);
    if !failed && r.Some? { FinishAccepted(b, r.value, reason, encodes); }
  }
}
