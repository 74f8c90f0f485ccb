/** internal/provider/compatible/chat.go: the streaming adapter that turns wire chunks into canonical
    events. What it wants to emit depends only on its own bookkeeping, so each frame has a plan; the
    class below carries plans out against an emitter. */
module Compatible {
  import opened Text
  import opened StringOrder
  import opened Stream
  import opened Emitter
  import Json

  /** The fields the adapter reads from a chunk, each already coerced to text; "" when absent. */
  datatype CallDelta = CallDelta(index: string, id: string, name: string, arguments: string)

  datatype Choice = Choice(index: string, content: string, reasoning: string, calls: seq<CallDelta>, finish: string)

  /** One server-sent frame. `metadata` and `usage` say whether the part, when present, encodes. */
  datatype Frame =
    | EmptyFrame
    | DoneFrame
    | Garbage
    | Chunk(metadata: Option<bool>, failed: bool, usage: Option<bool>, choices: seq<Choice>)

  datatype Tool = Tool(id: string, name: string, args: string, started: bool, called: bool)

  datatype Book = Book(
    tools: map<string, Tool>, text: set<string>, reasoning: set<string>,
    usageEncodes: bool, reason: Option<FinishReason>, metadataEncodes: bool, terminal: bool)

  datatype AdapterError = Protocol | Emission(error: EmitError)

  const EMPTY_BOOK := Book(map[], {}, {}, true, None, true, false)

  function TextId(index: string): (id: string) { "text-" + index }

  function ReasoningId(index: string): (id: string) { "reasoning-" + index }

  function FinishReasonOf(value: string): (r: FinishReason) {
    if value == "stop" then Stop
    else if value == "length" then Length
    else if value in {"tool_calls", "function_call"} then ToolCalls
    else if value == "content_filter" then ContentFilter
    else Other
  }

  // ---------- Chunks ----------

  /** The steps a chunk consists of. */
  datatype Op =
    | TextOp(index: string, content: string)
    | ReasoningOp(index: string, content: string)
    | CallOp(key: string, call: CallDelta)
    | ReasonOp(finish: string)

  function CallOps(choice: string, calls: seq<CallDelta>): (ops: seq<Op>) {
    if calls == [] then []
    else [CallOp(choice + ":" + calls[0].index, calls[0])] + CallOps(choice, calls[1..])
  }

  function ChoiceOps(c: Choice): (ops: seq<Op>) {
    [TextOp(c.index, c.content), ReasoningOp(c.index, c.reasoning)] + CallOps(c.index, c.calls) + [ReasonOp(c.finish)]
  }

  function ChoicesOps(choices: seq<Choice>): (ops: seq<Op>) {
    if choices == [] then [] else ChoiceOps(choices[0]) + ChoicesOps(choices[1..])
  }

  /** The tool a delta belongs to, with the identity it brings filled in. */
  function NamedTool(b: Book, key: string, call: CallDelta): (t: Tool) {
    var t :=
      if key in b.tools then b.tools[key]
      else Tool(if call.id == "" then "tool-" + key else call.id, call.name, "", false, false);
    t.(id := if t.id == "" then call.id else t.id, name := if t.name == "" then call.name else t.name)
  }

  function ToolEvents(t: Tool, part: string): (r: (Tool, seq<Event>)) {
    if !t.started && (t.id == "" || t.name == "") then (t, [])
    else
      (t.(started := true, args := t.args + part),
       (if t.started then [] else [ToolInputStart(t.id, t.name, true)]) +
       (if part == "" then [] else [ToolInputDelta(t.id, t.name, part, true)]))
  }

  function Apply(b: Book, op: Op): (r: (Book, seq<Event>)) {
    match op
    case TextOp(index, content) =>
      var id := TextId(index);
      if content == "" then (b, [])
      else
        (b.(text := b.text + {id}),
         (if id in b.text then [] else [TextStart(id, true)]) + [TextDelta(id, content, true)])
    case ReasoningOp(index, content) =>
      var id := ReasoningId(index);
      if content == "" then (b, [])
      else
        (b.(reasoning := b.reasoning + {id}),
         (if id in b.reasoning then [] else [ReasoningStart(id, true)]) + [ReasoningDelta(id, content, true)])
    case CallOp(key, call) =>
      var (t, events) := ToolEvents(NamedTool(b, key, call), call.arguments);
      (b.(tools := b.tools[key := t]), events)
    case ReasonOp(finish) =>
      (if finish == "" then b else b.(reason := Some(FinishReasonOf(finish))), [])
  }

  function ApplyAll(b: Book, ops: seq<Op>): (r: (Book, seq<Event>))
    decreases |ops|
  {
    if ops == [] then (b, [])
    else
      var (b1, first) := Apply(b, ops[0]);
      var (b2, rest) := ApplyAll(b1, ops[1..]);
      (b2, first + rest)
  }

  // ---------- Frames ----------

  /** What handling a frame emits, the bookkeeping it leaves, and whether it then reports a protocol error. */
  datatype Plan = Plan(book: Book, events: seq<Event>, failed: bool)

  function Ends(ids: seq<string>, text: bool): (events: seq<Event>) {
    if ids == [] then []
    else [if text then TextEnd(ids[0], true) else ReasoningEnd(ids[0], true)] + Ends(ids[1..], text)
  }

  predicate ArgumentsDecode(args: string) {
    Blank(args) || Json.Decode(args).Ok?
  }

  function ToolInput(args: string): (input: Json.Value)
    requires ArgumentsDecode(args)
  {
    if Blank(args) then Json.Null else Json.Decode(args).value
  }

  /** Closing the tools in key order: the events sent, and whether an incomplete tool stopped it. */
  function CloseTools(tools: map<string, Tool>, keys: seq<string>): (r: (seq<Event>, bool))
    requires forall k | k in keys :: k in tools
  {
    if keys == [] then ([], false)
    else
      var t := tools[keys[0]];
      if t.called then CloseTools(tools, keys[1..])
      else if !t.started || t.id == "" || t.name == "" then ([], true)
      else
        var end := ToolInputEnd(t.id, t.name, true);
        if !ArgumentsDecode(t.args) then ([end], true)
        else
          var (rest, failed) := CloseTools(tools, keys[1..]);
          ([end, ToolCall(t.id, t.name, ToolInput(t.args), true)] + rest, failed)
  }

  ghost function FinishPlan(b: Book, reason: FinishReason): (p: Plan) {
    var (tail, failed) := ToolTail(b.tools, b.usageEncodes && b.metadataEncodes, reason);
    Plan(if failed then b
         else b.(terminal := true, text := {}, reasoning := {}, reason := Some(reason),
                 tools := Called(b.tools)),
         BlockEnds(b) + tail, failed)
  }

  function FinishEvents(failed: bool, reason: FinishReason, encodes: bool): (events: seq<Event>) {
    if failed then [] else [StepFinish(Finite(0.0), reason, encodes), Finish(reason, encodes)]
  }

  function WithMetadata(b: Book, f: Frame): (r: Book)
    requires f.Chunk?
  {
    b.(metadataEncodes := f.metadata.GetOr(b.metadataEncodes))
  }

  ghost function FramePlan(b: Book, f: Frame): (p: Plan) {
    if f.EmptyFrame? then Plan(b, [], false)
    else if b.terminal then Plan(b, [], true)
    else
      match f
      case Garbage => Plan(b, [], true)
      case DoneFrame => FinishPlan(b, b.reason.GetOr(Stop))
      case Chunk(_, failed, usage, choices) =>
        var b1 := WithMetadata(b, f);
        if failed then Plan(b1.(terminal := true), [ProviderError(true)], false)
        else
          var (b2, events) := ApplyAll(b1.(usageEncodes := usage.GetOr(b1.usageEncodes)), ChoicesOps(choices));
          Plan(b2, events, false)
  }

  ghost function FramesPlan(b: Book, frames: seq<Frame>): (p: Plan)
    decreases |frames|
  {
    if frames == [] then Plan(b, [], false)
    else
      var first := FramePlan(b, frames[0]);
      if first.failed then first
      else
        var rest := FramesPlan(first.book, frames[1..]);
        rest.(events := first.events + rest.events)
  }

  /** Everything one turn asks the emitter to send. */
  ghost function TurnPlan(frames: seq<Frame>): (p: Plan) {
    var p := FramesPlan(EMPTY_BOOK, frames);
    p.(events := [StepStart(Finite(0.0), true)] + p.events)
  }

  // ---------- Carrying plans out ----------

  lemma {:induction false} EmitAllAppend(answers: Answers, s: EmitterState, a: seq<Event>, b: seq<Event>)
    ensures EmitAll(answers, s, a + b) ==
      var (s1, error) := EmitAll(answers, s, a);
      if error.Some? then (s1, error) else EmitAll(answers, s1, b)
    decreases |a|
  {
    if a == [] {
      assert a + b == b;
    } else {
      assert (a + b)[0] == a[0] && (a + b)[1..] == a[1..] + b;
      var (s1, error) := EmitStep(answers, s, a[0]);
      if error.None? { EmitAllAppend(answers, s1, a[1..], b); }
    }
  }

  /** One event at the head of what is left to emit. */
  lemma EmitHead(answers: Answers, s: EmitterState, e: Event, rest: seq<Event>)
    ensures EmitAll(answers, s, [e] + rest) ==
      var (s1, error) := EmitStep(answers, s, e);
      if error.Some? then (s1, error) else EmitAll(answers, s1, rest)
  {
    assert ([e] + rest)[1..] == rest;
  }

  lemma {:induction false} ApplyAllAppend(b: Book, a: seq<Op>, c: seq<Op>)
    ensures ApplyAll(b, a + c) ==
      var (b1, first) := ApplyAll(b, a);
      var (b2, rest) := ApplyAll(b1, c);
      (b2, first + rest)
    decreases |a|
  {
    if a == [] {
      assert a + c == c;
      assert [] + ApplyAll(b, c).1 == ApplyAll(b, c).1;
    } else {
      assert (a + c)[0] == a[0] && (a + c)[1..] == a[1..] + c;
      var (b1, first) := Apply(b, a[0]);
      ApplyAllAppend(b1, a[1..], c);
      var (b2, second) := ApplyAll(b1, a[1..]);
      assert first + (second + ApplyAll(b2, c).1) == (first + second) + ApplyAll(b2, c).1;
    }
  }

  /** Carrying out steps against an emitter: still going, or stopped by the first emission error. */
  datatype Execution = Going(emitter: EmitterState, book: Book) | Stopped(emitter: EmitterState, error: EmitError)

  function ExecuteOp(answers: Answers, s: EmitterState, b: Book, op: Op): (x: Execution) {
    var (b1, events) := Apply(b, op);
    var (s1, e) := EmitAll(answers, s, events);
    if e.Some? then Stopped(s1, e.value) else Going(s1, b1)
  }

  function Execute(answers: Answers, s: EmitterState, b: Book, ops: seq<Op>): (x: Execution)
    decreases |ops|
  {
    if ops == [] then Going(s, b)
    else
      var x := ExecuteOp(answers, s, b, ops[0]);
      if x.Stopped? then x else Execute(answers, x.emitter, x.book, ops[1..])
  }

  /** Going on after an execution, unless it stopped. */
  function Then(answers: Answers, x: Execution, rest: seq<Op>): (y: Execution) {
    if x.Stopped? then x else Execute(answers, x.emitter, x.book, rest)
  }

  lemma ExecuteCons(answers: Answers, s: EmitterState, b: Book, op: Op, rest: seq<Op>)
    ensures Execute(answers, s, b, [op] + rest) == Then(answers, ExecuteOp(answers, s, b, op), rest)
  {
    assert ([op] + rest)[1..] == rest;
  }

  lemma {:induction false} ExecuteAppend(answers: Answers, s: EmitterState, b: Book, group: seq<Op>, rest: seq<Op>)
    ensures Execute(answers, s, b, group + rest) == Then(answers, Execute(answers, s, b, group), rest)
    decreases |group|
  {
    if group == [] {
      assert group + rest == rest;
    } else {
      assert group + rest == [group[0]] + (group[1..] + rest);
      ExecuteCons(answers, s, b, group[0], group[1..] + rest);
      var x := ExecuteOp(answers, s, b, group[0]);
      if x.Going? { ExecuteAppend(answers, x.emitter, x.book, group[1..], rest); }
    }
  }

  function Verdict(e: Option<EmitError>, failed: bool): (r: Option<AdapterError>) {
    if e.Some? then Some(Emission(e.value)) else if failed then Some(Protocol) else None
  }

  function ClosingEvents(t: Tool): (events: seq<Event>) {
    [ToolInputEnd(t.id, t.name, true)] +
    if ArgumentsDecode(t.args) then [ToolCall(t.id, t.name, ToolInput(t.args), true)] else []
  }

  function CloseOne(answers: Answers, s: EmitterState, t: Tool): (r: (EmitterState, Option<AdapterError>)) {
    if t.called then (s, None)
    else if !t.started || t.id == "" || t.name == "" then (s, Some(Protocol))
    else
      var (s1, e) := EmitAll(answers, s, ClosingEvents(t));
      (s1, Verdict(e, !ArgumentsDecode(t.args)))
  }

  /** Closing the tools one after the other against an emitter. */
  function CloseRun(answers: Answers, s: EmitterState, tools: map<string, Tool>, keys: seq<string>)
    : (r: (EmitterState, Option<AdapterError>))
    requires forall k | k in keys :: k in tools
    decreases |keys|
  {
    if keys == [] then (s, None)
    else
      var (s1, verdict) := CloseOne(answers, s, tools[keys[0]]);
      if verdict.Some? then (s1, verdict) else CloseRun(answers, s1, tools, keys[1..])
  }

  lemma CloseRunNext(answers: Answers, s: EmitterState, tools: map<string, Tool>, keys: seq<string>, i: nat)
    requires i < |keys| && forall k | k in keys :: k in tools
    ensures CloseRun(answers, s, tools, keys[i..]) ==
      var (s1, verdict) := CloseOne(answers, s, tools[keys[i]]);
      if verdict.Some? then (s1, verdict) else CloseRun(answers, s1, tools, keys[i + 1..])
  {
    assert keys[i..][0] == keys[i] && keys[i..][1..] == keys[i + 1..];
  }

  lemma {:induction false} CloseRunIsPlanned(answers: Answers, s: EmitterState, tools: map<string, Tool>,
                                             keys: seq<string>)
    requires forall k | k in keys :: k in tools
    ensures var (events, failed) := CloseTools(tools, keys);
      var (s1, e) := EmitAll(answers, s, events);
      CloseRun(answers, s, tools, keys) == (s1, Verdict(e, failed))
    decreases |keys|
  {
    if keys != [] {
      var t := tools[keys[0]];
      if t.called {
        CloseRunIsPlanned(answers, s, tools, keys[1..]);
      } else if t.started && t.id != "" && t.name != "" {
        var (s1, e) := EmitAll(answers, s, ClosingEvents(t));
        if ArgumentsDecode(t.args) {
          EmitAllAppend(answers, s, ClosingEvents(t), CloseTools(tools, keys[1..]).0);
          if e.None? { CloseRunIsPlanned(answers, s1, tools, keys[1..]); }
        }
      }
    }
  }

  /** Executing steps is emitting the events they plan. */
  lemma {:induction false} ExecuteIsPlanned(answers: Answers, s: EmitterState, b: Book, ops: seq<Op>)
    ensures var (b1, events) := ApplyAll(b, ops);
      var (s1, e) := EmitAll(answers, s, events);
      Execute(answers, s, b, ops) == if e.Some? then Stopped(s1, e.value) else Going(s1, b1)
    decreases |ops|
  {
    if ops != [] {
      var (b1, first) := Apply(b, ops[0]);
      EmitAllAppend(answers, s, first, ApplyAll(b1, ops[1..]).1);
      var (s1, e) := EmitAll(answers, s, first);
      if e.None? { ExecuteIsPlanned(answers, s1, b1, ops[1..]); }
    }
  }

  ghost function BlockEnds(b: Book): (events: seq<Event>) {
    Ends(Sorted(b.text), true) + Ends(Sorted(b.reasoning), false)
  }

  ghost function ToolTail(tools: map<string, Tool>, encodes: bool, reason: FinishReason): (r: (seq<Event>, bool)) {
    SortedLists(tools.Keys);
    var (calls, failed) := CloseTools(tools, Sorted(tools.Keys));
    (calls + FinishEvents(failed, reason, encodes), failed)
  }

  function Called(tools: map<string, Tool>): (r: map<string, Tool>) {
    map k | k in tools :: tools[k].(called := true)
  }

  /** Finishing against an emitter: the open blocks, then the tools and the step. */
  ghost function FinishRun(answers: Answers, s: EmitterState, b: Book, reason: FinishReason)
    : (r: (EmitterState, Option<AdapterError>))
  {
    var (s1, e) := EmitAll(answers, s, BlockEnds(b));
    if e.Some? then (s1, Verdict(e, false))
    else
      var (tail, failed) := ToolTail(b.tools, b.usageEncodes && b.metadataEncodes, reason);
      var (s2, e2) := EmitAll(answers, s1, tail);
      (s2, Verdict(e2, failed))
  }

  lemma FinishRunIsPlanned(answers: Answers, s: EmitterState, b: Book, reason: FinishReason)
    ensures var p := FinishPlan(b, reason);
      var (s1, e) := EmitAll(answers, s, p.events);
      FinishRun(answers, s, b, reason) == (s1, Verdict(e, p.failed))
  {
    EmitAllAppend(answers, s, BlockEnds(b), ToolTail(b.tools, b.usageEncodes && b.metadataEncodes, reason).0);
  }

  lemma Distinct(keys: seq<string>)
    requires Ascending(keys)
    ensures forall i, j | 0 <= i < j < |keys| :: keys[i] != keys[j]
  {
    forall i, j | 0 <= i < j < |keys| ensures keys[i] != keys[j] { BelowAsymmetric(keys[i], keys[j]); }
  }

  lemma MarkedCalled(before: map<string, Tool>, after: map<string, Tool>, keys: seq<string>)
    requires Lists(keys, before.Keys) && after.Keys == before.Keys
    requires forall j | 0 <= j < |keys| :: after[keys[j]] == before[keys[j]].(called := true)
    ensures after == Called(before)
  {
    forall k | k in before ensures after[k] == before[k].(called := true) {
      assert k in keys;
    }
  }

  function Listed(ids: seq<string>): (r: set<string>) {
    set id | id in ids
  }

  lemma NoEnds(answers: Answers, s: EmitterState)
    ensures EmitAll(answers, s, []) == (s, None) && Listed([]) == {}
    ensures Ends([], true) == [] && Ends([], false) == []
  {
  }

  /** One end event at the head of those left, and the id that it brings to those done. */
  lemma EmitEnd(answers: Answers, s: EmitterState, ids: seq<string>, i: nat, text: bool)
    requires i < |ids|
    ensures var end := if text then TextEnd(ids[i], true) else ReasoningEnd(ids[i], true);
      var (s1, error) := EmitStep(answers, s, end);
      EmitAll(answers, s, Ends(ids[i..], text)) ==
        if error.Some? then (s1, error) else EmitAll(answers, s1, Ends(ids[i + 1..], text))
    ensures Listed(ids[..i + 1]) == Listed(ids[..i]) + {ids[i]}
  {
    hide EmitStep, EmitAll;
    var end := if text then TextEnd(ids[i], true) else ReasoningEnd(ids[i], true);
    assert ids[i..][1..] == ids[i + 1..] && ids[..i + 1] == ids[..i] + [ids[i]];
    EmitHead(answers, s, end, Ends(ids[i + 1..], text));
  }

  class StreamState {
    const emitter: EventEmitter
    var tools: map<string, Tool>
    var text: set<string>
    var reasoning: set<string>
    var usageEncodes: bool
    var reason: Option<FinishReason>
    var metadataEncodes: bool
    var terminal: bool

    constructor (emitter: EventEmitter)
      ensures this.emitter == emitter && Abstract() == EMPTY_BOOK
    {
      this.emitter := emitter;
      tools, text, reasoning, reason := map[], {}, {}, None;
      usageEncodes, metadataEncodes, terminal := true, true, false;
    }

    function Abstract(): (b: Book)
      reads this
    {
      Book(tools, text, reasoning, usageEncodes, reason, metadataEncodes, terminal)
    }

    /** This state, its emitter and the returned error are those of an execution. */
    ghost predicate Reached(x: Execution, error: Option<AdapterError>)
      reads this, emitter, emitter.sink, emitter.validator
    {
      match x
      case Going(s, b) => emitter.Abstract() == s && Abstract() == b && error == None
      case Stopped(s, e) => emitter.Abstract() == s && error == Some(Emission(e))
    }

    ghost function Ahead(ops: seq<Op>): (x: Execution)
      reads this, emitter, emitter.sink, emitter.validator
    {
      Execute(emitter.sink.answers, emitter.Abstract(), Abstract(), ops)
    }

    ghost function AheadOp(op: Op): (x: Execution)
      reads this, emitter, emitter.sink, emitter.validator
    {
      ExecuteOp(emitter.sink.answers, emitter.Abstract(), Abstract(), op)
    }

    /** One block of a chunk: open it on first use, then send the delta. */
    method SendDelta(known: bool, start: Event, delta: Event) returns (error: Option<EmitError>)
      modifies emitter, emitter.sink, emitter.validator
      ensures (emitter.Abstract(), error) ==
        EmitAll(emitter.sink.answers, old(emitter.Abstract()), (if known then [] else [start]) + [delta])
    {
      EmitHead(emitter.sink.answers, emitter.Abstract(), delta, []);
      EmitHead(emitter.sink.answers, emitter.Abstract(), start, [delta]);
      assert [] + [delta] == [delta] && [delta] + [] == [delta];
      if !known {
        error := emitter.Emit(start);
        if error.Some? { return; }
        EmitHead(emitter.sink.answers, emitter.Abstract(), delta, []);
      }
      error := emitter.Emit(delta);
    }

    method HandleText(index: string, content: string) returns (error: Option<AdapterError>)
      modifies this, emitter, emitter.sink, emitter.validator
      ensures Reached(old(AheadOp(TextOp(index, content))), error)
    {
      if content == "" { return None; }
      var id := TextId(index);
      var e := SendDelta(id in text, TextStart(id, true), TextDelta(id, content, true));
      if e.Some? { return Some(Emission(e.value)); }
      text := text + {id};
      error := None;
    }

    method HandleReasoning(index: string, content: string) returns (error: Option<AdapterError>)
      modifies this, emitter, emitter.sink, emitter.validator
      ensures Reached(old(AheadOp(ReasoningOp(index, content))), error)
    {
      if content == "" { return None; }
      var id := ReasoningId(index);
      var e := SendDelta(id in reasoning, ReasoningStart(id, true), ReasoningDelta(id, content, true));
      if e.Some? { return Some(Emission(e.value)); }
      reasoning := reasoning + {id};
      error := None;
    }

    /** Starting a tool on first use and passing its fragment on. */
    method SendTool(t: Tool, part: string) returns (r: Tool, error: Option<EmitError>)
      modifies emitter, emitter.sink, emitter.validator
      ensures var (t1, events) := ToolEvents(t, part);
        (emitter.Abstract(), error) == EmitAll(emitter.sink.answers, old(emitter.Abstract()), events) &&
        (error.None? ==> r == t1)
    {
      r := t;
      var start, delta := ToolInputStart(t.id, t.name, true), ToolInputDelta(t.id, t.name, part, true);
      ghost var tail := if part == "" then [] else [delta];
      EmitHead(emitter.sink.answers, emitter.Abstract(), start, tail);
      assert [] + tail == tail && tail + [] == tail;
      if !t.started {
        if t.id == "" || t.name == "" { return t, None; }
        error := emitter.Emit(start);
        if error.Some? { return; }
        r := r.(started := true);
      }
      EmitHead(emitter.sink.answers, emitter.Abstract(), delta, []);
      assert [delta] + [] == [delta] && t.args + "" == t.args;
      error := None;
      if part != "" {
        r := r.(args := r.args + part);
        error := emitter.Emit(delta);
      }
    }

    method HandleCall(key: string, call: CallDelta) returns (error: Option<AdapterError>)
      modifies this, emitter, emitter.sink, emitter.validator
      ensures Reached(old(AheadOp(CallOp(key, call))), error)
    {
      var tool :=
        if key in tools then tools[key]
        else Tool(if call.id == "" then "tool-" + key else call.id, call.name, "", false, false);
      if tool.id == "" { tool := tool.(id := call.id); }
      if tool.name == "" { tool := tool.(name := call.name); }
      assert tool == NamedTool(Abstract(), key, call);
      var updated, e := SendTool(tool, call.arguments);
      if e.Some? { return Some(Emission(e.value)); }
      tools := tools[key := updated];
      error := None;
    }

    method HandleCalls(choice: string, calls: seq<CallDelta>) returns (error: Option<AdapterError>)
      modifies this, emitter, emitter.sink, emitter.validator
      ensures Reached(old(Ahead(CallOps(choice, calls))), error)
    {
      ghost var goal := Ahead(CallOps(choice, calls));
      assert calls[0..] == calls;
      for i := 0 to |calls|
        invariant Ahead(CallOps(choice, calls[i..])) == goal
      {
        assert calls[i..][1..] == calls[i + 1..];
        ExecuteCons(emitter.sink.answers, emitter.Abstract(), Abstract(),
                    CallOp(choice + ":" + calls[i].index, calls[i]), CallOps(choice, calls[i + 1..]));
        error := HandleCall(choice + ":" + calls[i].index, calls[i]);
        if error.Some? { return; }
      }
      error := None;
    }

    method HandleReason(finish: string) returns (error: Option<AdapterError>)
      modifies this`reason
      ensures Reached(old(AheadOp(ReasonOp(finish))), error)
    {
      if finish != "" { reason := Some(FinishReasonOf(finish)); }
      error := None;
    }

    method HandleChoice(c: Choice) returns (error: Option<AdapterError>)
      modifies this, emitter, emitter.sink, emitter.validator
      ensures Reached(old(Ahead(ChoiceOps(c))), error)
    {
      ghost var answers := emitter.sink.answers;
      ghost var first, second, calls, last :=
        TextOp(c.index, c.content), ReasoningOp(c.index, c.reasoning), CallOps(c.index, c.calls), ReasonOp(c.finish);
      assert ChoiceOps(c) == [first] + ([second] + (calls + [last]));
      hide ChoiceOps, CallOps, ExecuteOp;
      ExecuteCons(answers, emitter.Abstract(), Abstract(), first, [second] + (calls + [last]));
      error := HandleText(c.index, c.content);
      if error.Some? { return; }
      ExecuteCons(answers, emitter.Abstract(), Abstract(), second, calls + [last]);
      error := HandleReasoning(c.index, c.reasoning);
      if error.Some? { return; }
      ExecuteAppend(answers, emitter.Abstract(), Abstract(), calls, [last]);
      error := HandleCalls(c.index, c.calls);
      if error.Some? { return; }
      ExecuteCons(answers, emitter.Abstract(), Abstract(), last, []);
      assert [last] + [] == [last];
      error := HandleReason(c.finish);
    }

    method HandleChoices(choices: seq<Choice>) returns (error: Option<AdapterError>)
      modifies this, emitter, emitter.sink, emitter.validator
      ensures Reached(old(Ahead(ChoicesOps(choices))), error)
    {
      ghost var goal := Ahead(ChoicesOps(choices));
      assert choices[0..] == choices;
      for i := 0 to |choices|
        invariant Ahead(ChoicesOps(choices[i..])) == goal
      {
        assert choices[i..][1..] == choices[i + 1..];
        ExecuteAppend(emitter.sink.answers, emitter.Abstract(), Abstract(),
                      ChoiceOps(choices[i]), ChoicesOps(choices[i + 1..]));
        error := HandleChoice(choices[i]);
        if error.Some? { return; }
      }
      error := None;
    }

    /** The events went out up to the first emission error; `failed` then reports a protocol error. */
    ghost predicate Sent(before: EmitterState, events: seq<Event>, failed: bool, error: Option<AdapterError>)
      reads this, emitter, emitter.sink, emitter.validator
    {
      var (s, e) := EmitAll(emitter.sink.answers, before, events);
      emitter.Abstract() == s &&
      error == Verdict(e, failed)
    }

    method SendTextEnds(ids: seq<string>) returns (error: Option<AdapterError>)
      modifies this`text, emitter, emitter.sink, emitter.validator
      ensures Sent(old(emitter.Abstract()), Ends(ids, true), false, error)
      ensures error.None? ==> text == old(text) - Listed(ids)
    {
      hide EmitAll, EmitStep, Listed;
      ghost var answers := emitter.sink.answers;
      ghost var goal := EmitAll(answers, emitter.Abstract(), Ends(ids, true));
      NoEnds(answers, emitter.Abstract());
      assert ids[0..] == ids && text - {} == text;
      for i := 0 to |ids|
        invariant EmitAll(answers, emitter.Abstract(), Ends(ids[i..], true)) == goal
        invariant text == old(text) - Listed(ids[..i])
      {
        EmitEnd(answers, emitter.Abstract(), ids, i, true);
        var e := emitter.Emit(TextEnd(ids[i], true));
        if e.Some? { return Some(Emission(e.value)); }
        text := text - {ids[i]};
      }
      NoEnds(answers, emitter.Abstract());
      assert ids[..|ids|] == ids && ids[|ids|..] == [];
      error := None;
    }

    method SendReasoningEnds(ids: seq<string>) returns (error: Option<AdapterError>)
      modifies this`reasoning, emitter, emitter.sink, emitter.validator
      ensures Sent(old(emitter.Abstract()), Ends(ids, false), false, error)
      ensures error.None? ==> reasoning == old(reasoning) - Listed(ids)
    {
      hide EmitAll, EmitStep, Listed;
      ghost var answers := emitter.sink.answers;
      ghost var goal := EmitAll(answers, emitter.Abstract(), Ends(ids, false));
      NoEnds(answers, emitter.Abstract());
      assert ids[0..] == ids && reasoning - {} == reasoning;
      for i := 0 to |ids|
        invariant EmitAll(answers, emitter.Abstract(), Ends(ids[i..], false)) == goal
        invariant reasoning == old(reasoning) - Listed(ids[..i])
      {
        EmitEnd(answers, emitter.Abstract(), ids, i, false);
        var e := emitter.Emit(ReasoningEnd(ids[i], true));
        if e.Some? { return Some(Emission(e.value)); }
        reasoning := reasoning - {ids[i]};
      }
      NoEnds(answers, emitter.Abstract());
      assert ids[..|ids|] == ids && ids[|ids|..] == [];
      error := None;
    }

    method CloseTool(t: Tool) returns (error: Option<AdapterError>)
      requires t.started && t.id != "" && t.name != ""
      modifies emitter, emitter.sink, emitter.validator
      ensures Sent(old(emitter.Abstract()), ClosingEvents(t), !ArgumentsDecode(t.args), error)
    {
      ghost var answers := emitter.sink.answers;
      ghost var rest := if ArgumentsDecode(t.args) then [ToolCall(t.id, t.name, ToolInput(t.args), true)] else [];
      EmitHead(answers, emitter.Abstract(), ToolInputEnd(t.id, t.name, true), rest);
      var e := emitter.Emit(ToolInputEnd(t.id, t.name, true));
      if e.Some? { return Some(Emission(e.value)); }
      var input := Json.Null;
      if !Blank(t.args) {
        var decoded := Json.Decode(t.args);
        if decoded.Err? { return Some(Protocol); }
        input := decoded.value;
      }
      var call := ToolCall(t.id, t.name, input, true);
      assert [call] + [] == [call];
      EmitHead(answers, emitter.Abstract(), call, []);
      e := emitter.Emit(call);
      error := if e.Some? then Some(Emission(e.value)) else None;
    }

    method CloseKey(key: string) returns (error: Option<AdapterError>)
      requires key in tools
      modifies this`tools, emitter, emitter.sink, emitter.validator
      ensures (emitter.Abstract(), error) == CloseOne(emitter.sink.answers, old(emitter.Abstract()), old(tools)[key])
      ensures error.None? ==> tools == old(tools)[key := old(tools)[key].(called := true)]
    {
      var tool := tools[key];
      if tool.called { return None; }
      if !tool.started || tool.id == "" || tool.name == "" { return Some(Protocol); }
      error := CloseTool(tool);
      if error.Some? { return; }
      tools := tools[key := tool.(called := true)];
    }

    method CloseKeys(keys: seq<string>) returns (error: Option<AdapterError>)
      requires forall k | k in keys :: k in tools
      requires forall i, j | 0 <= i < j < |keys| :: keys[i] != keys[j]
      modifies this`tools, emitter, emitter.sink, emitter.validator
      ensures (emitter.Abstract(), error) == CloseRun(emitter.sink.answers, old(emitter.Abstract()), old(tools), keys)
      ensures error.None? ==> tools.Keys == old(tools).Keys
      ensures error.None? ==> forall j | 0 <= j < |keys| :: tools[keys[j]] == old(tools)[keys[j]].(called := true)
    {
      ghost var answers, before := emitter.sink.answers, tools;
      assert keys[0..] == keys;
      for i := 0 to |keys|
        invariant tools.Keys == before.Keys
        invariant forall j | i <= j < |keys| :: tools[keys[j]] == before[keys[j]]
        invariant forall j | 0 <= j < i :: tools[keys[j]] == before[keys[j]].(called := true)
        invariant CloseRun(answers, emitter.Abstract(), before, keys[i..]) ==
                  CloseRun(answers, old(emitter.Abstract()), before, keys)
      {
        CloseRunNext(answers, emitter.Abstract(), before, keys, i);
        error := CloseKey(keys[i]);
        if error.Some? { return; }
      }
      error := None;
    }

    method CloseAllTools(keys: seq<string>) returns (error: Option<AdapterError>)
      requires Lists(keys, tools.Keys)
      modifies this`tools, emitter, emitter.sink, emitter.validator
      ensures var (events, failed) := CloseTools(old(tools), keys);
        Sent(old(emitter.Abstract()), events, failed, error)
      ensures error.None? ==> tools == Called(old(tools))
    {
      ghost var before := tools;
      CloseRunIsPlanned(emitter.sink.answers, emitter.Abstract(), before, keys);
      Distinct(keys);
      error := CloseKeys(keys);
      if error.None? { MarkedCalled(before, tools, keys); }
    }

    /** A plan was carried out up to its first error; without one the bookkeeping is the plan's. */
    ghost predicate Followed(p: Plan, before: EmitterState, error: Option<AdapterError>)
      reads this, emitter, emitter.sink, emitter.validator
    {
      Sent(before, p.events, p.failed, error) && (error.None? ==> Abstract() == p.book)
    }

    method SendFinish(finish: FinishReason, encodes: bool) returns (error: Option<AdapterError>)
      modifies emitter, emitter.sink, emitter.validator
      ensures Sent(old(emitter.Abstract()),
                   [StepFinish(Finite(0.0), finish, encodes), Finish(finish, encodes)], false, error)
    {
      ghost var answers := emitter.sink.answers;
      var step, last := StepFinish(Finite(0.0), finish, encodes), Finish(finish, encodes);
      assert [step, last] == [step] + [last] && [last] + [] == [last];
      EmitHead(answers, emitter.Abstract(), step, [last]);
      var e := emitter.Emit(step);
      if e.Some? { return Some(Emission(e.value)); }
      EmitHead(answers, emitter.Abstract(), last, []);
      e := emitter.Emit(last);
      error := if e.Some? then Some(Emission(e.value)) else None;
    }

    method CloseBlocks() returns (error: Option<AdapterError>)
      modifies this`text, this`reasoning, emitter, emitter.sink, emitter.validator
      ensures Sent(old(emitter.Abstract()), BlockEnds(old(Abstract())), false, error)
      ensures error.None? ==> text == {} && reasoning == {}
    {
      var textIds := SortKeys(text);
      var reasoningIds := SortKeys(reasoning);
      assert Listed(textIds) == text && Listed(reasoningIds) == reasoning;
      EmitAllAppend(emitter.sink.answers, emitter.Abstract(), Ends(textIds, true), Ends(reasoningIds, false));
      error := SendTextEnds(textIds);
      if error.Some? { return; }
      error := SendReasoningEnds(reasoningIds);
    }

    method CloseToolsAndFinish(finish: FinishReason, encodes: bool) returns (error: Option<AdapterError>)
      modifies this`tools, emitter, emitter.sink, emitter.validator
      ensures var (tail, failed) := ToolTail(old(tools), encodes, finish);
        Sent(old(emitter.Abstract()), tail, failed, error)
      ensures error.None? ==> tools == Called(old(tools))
    {
      var keys := SortKeys(tools.Keys);
      ghost var (calls, failed) := CloseTools(tools, keys);
      EmitAllAppend(emitter.sink.answers, emitter.Abstract(), calls, FinishEvents(failed, finish, encodes));
      error := CloseAllTools(keys);
      if error.Some? { return; }
      error := SendFinish(finish, encodes);
    }

    method CompleteRun(finish: FinishReason) returns (error: Option<AdapterError>)
      modifies this, emitter, emitter.sink, emitter.validator
      ensures (emitter.Abstract(), error) ==
        FinishRun(emitter.sink.answers, old(emitter.Abstract()), old(Abstract()), finish)
      ensures error.None? ==>
        terminal && reason == Some(finish) && text == {} && reasoning == {} && tools == Called(old(tools)) &&
        usageEncodes == old(usageEncodes) && metadataEncodes == old(metadataEncodes)
    {
      hide EmitAll, BlockEnds, ToolTail;
      error := CloseBlocks();
      if error.Some? { return; }
      error := CloseToolsAndFinish(finish, usageEncodes && metadataEncodes);
      if error.Some? { return; }
      terminal, reason := true, Some(finish);
    }

    method Complete(finish: FinishReason) returns (error: Option<AdapterError>)
      modifies this, emitter, emitter.sink, emitter.validator
      ensures Followed(FinishPlan(old(Abstract()), finish), old(emitter.Abstract()), error)
    {
      FinishRunIsPlanned(emitter.sink.answers, emitter.Abstract(), Abstract(), finish);
      error := CompleteRun(finish);
    }

    method HandleFrame(f: Frame) returns (error: Option<AdapterError>)
      modifies this, emitter, emitter.sink, emitter.validator
      ensures Followed(FramePlan(old(Abstract()), f), old(emitter.Abstract()), error)
    {
      if f.EmptyFrame? { return None; }
      if terminal { return Some(Protocol); }
      match f {
        case Garbage => error := Some(Protocol);
        case DoneFrame => error := Complete(reason.GetOr(Stop));
        case Chunk(metadata, failed, usage, choices) =>
          metadataEncodes := metadata.GetOr(metadataEncodes);
          if failed {
            terminal := true;
            EmitHead(emitter.sink.answers, emitter.Abstract(), ProviderError(true), []);
            assert [ProviderError(true)] + [] == [ProviderError(true)];
            var e := emitter.Emit(ProviderError(true));
            error := if e.Some? then Some(Emission(e.value)) else None;
          } else {
            usageEncodes := usage.GetOr(usageEncodes);
            ExecuteIsPlanned(emitter.sink.answers, emitter.Abstract(), Abstract(), ChoicesOps(choices));
            error := HandleChoices(choices);
          }
      }
    }

    /** The frame callback of the SSE reader, up to the first error. */
    method HandleFrames(frames: seq<Frame>) returns (error: Option<AdapterError>)
      modifies this, emitter, emitter.sink, emitter.validator
      ensures Followed(FramesPlan(old(Abstract()), frames), old(emitter.Abstract()), error)
    {
      hide FramePlan, EmitAll;
      ghost var answers, start, plan := emitter.sink.answers, emitter.Abstract(), FramesPlan(Abstract(), frames);
      assert frames[0..] == frames;
      for i := 0 to |frames|
        invariant EmitAll(answers, emitter.Abstract(), FramesPlan(Abstract(), frames[i..]).events)
               == EmitAll(answers, start, plan.events)
        invariant FramesPlan(Abstract(), frames[i..]).failed == plan.failed
        invariant FramesPlan(Abstract(), frames[i..]).book == plan.book
      {
        assert frames[i..][0] == frames[i] && frames[i..][1..] == frames[i + 1..];
        FramesPlanNext(answers, emitter.Abstract(), Abstract(), frames[i], frames[i + 1..]);
        assert [frames[i]] + frames[i + 1..] == frames[i..];
        error := HandleFrame(frames[i]);
        if error.Some? { return; }
      }
      NoEnds(answers, emitter.Abstract());
      error := None;
    }
  }

  lemma FramesPlanNext(answers: Answers, s: EmitterState, b: Book, f: Frame, rest: seq<Frame>)
    ensures var first := FramePlan(b, f);
      var all := FramesPlan(b, [f] + rest);
      var (s1, e) := EmitAll(answers, s, first.events);
      if first.failed then all == first
      else
        EmitAll(answers, s, all.events) ==
          (if e.Some? then (s1, e) else EmitAll(answers, s1, FramesPlan(first.book, rest).events)) &&
        all.failed == FramesPlan(first.book, rest).failed && all.book == FramesPlan(first.book, rest).book
  {
    assert ([f] + rest)[1..] == rest;
    var first := FramePlan(b, f);
    if !first.failed { EmitAllAppend(answers, s, first.events, FramesPlan(first.book, rest).events); }
  }
}
