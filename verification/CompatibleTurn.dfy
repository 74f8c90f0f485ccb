/** Whole turns of the compatible adapter: exactly which frame sequences end in an accepted, complete
    stream, and which argument text every tool call carries. */
module CompatibleTurn {
  import opened Text
  import opened StringOrder
  import opened Stream
  import opened Emitter
  import opened Compatible
  import opened CompatibleProofs
  import Json
  import JsonProofs

  /** Frames that neither end the stream nor break the protocol. */
  predicate Plain(f: Frame) {
    f.EmptyFrame? || (f.Chunk? && !f.failed)
  }

  predicate AllPlain(frames: seq<Frame>) {
    forall f | f in frames :: Plain(f)
  }

  predicate AllEmpty(frames: seq<Frame>) {
    forall f | f in frames :: f.EmptyFrame?
  }

  // ---------- Frames ----------

  /** Usage and metadata play no part in the block bookkeeping. */
  lemma FlagsDoNotMatter(b: Book, usage: bool, metadata: bool)
    ensures var b1 := b.(usageEncodes := usage, metadataEncodes := metadata);
      (Consistent(b1) <==> Consistent(b)) && (GoodIds(b1) <==> GoodIds(b)) &&
      forall s, done, called :: Sim(b1, s, done, called) <==> Sim(b, s, done, called)
  {
    var b1 := b.(usageEncodes := usage, metadataEncodes := metadata);
    assert forall k :: Started(b1, k) <==> Started(b, k);
    assert forall k | Started(b, k) :: GoodTool(b1, k) <==> GoodTool(b, k);
  }

  function ChunkBook(b: Book, f: Frame): (b1: Book)
    requires f.Chunk?
  {
    WithMetadata(b, f).(usageEncodes := f.usage.GetOr(b.usageEncodes))
  }

  lemma ChunkPlan(b: Book, f: Frame)
    requires !b.terminal && f.Chunk? && !f.failed
    ensures var (b1, events) := ApplyAll(ChunkBook(b, f), ChoicesOps(f.choices));
      FramePlan(b, f) == Plan(b1, events, false)
  {
  }

  lemma PlainFrameSimulates(b: Book, s: State, f: Frame)
    requires Consistent(b) && Plain(f)
    ensures var p := FramePlan(b, f);
      !p.failed && Consistent(p.book) && (GoodIds(p.book) ==> GoodIds(b)) &&
      (GoodIds(b) && Sim(b, s, {}, {}) ==> Simulates(p.book, s, p.events))
  {
    if f.Chunk? {
      assert !b.terminal;
      ChunkPlan(b, f);
      hide Sim, GoodIds, Consistent, ChoicesOps, FramePlan, Simulates;
      var b1 := ChunkBook(b, f);
      FlagsDoNotMatter(b, b1.usageEncodes, b1.metadataEncodes);
      OpsKeepBad(b1, ChoicesOps(f.choices));
      if GoodIds(b) && Sim(b, s, {}, {}) { OpsSimulate(b1, s, ChoicesOps(f.choices)); }
    }
  }

  lemma {:induction false} PlainFramesSimulate(b: Book, s: State, frames: seq<Frame>)
    requires Consistent(b) && AllPlain(frames)
    ensures var p := FramesPlan(b, frames);
      !p.failed && Consistent(p.book) && (GoodIds(p.book) ==> GoodIds(b)) &&
      (GoodIds(b) && Sim(b, s, {}, {}) ==> Simulates(p.book, s, p.events))
    decreases |frames|
  {
    if frames != [] {
      hide Sim, GoodIds, Consistent, FramePlan;
      var p, rest := FramePlan(b, frames[0]), frames[1..];
      PlainFrameSimulates(b, s, frames[0]);
      PlainFramesSimulate(p.book,
        if Simulates(p.book, s, p.events) && GoodIds(p.book) then RunFrom(s, p.events).value else s, rest);
      RunFromAppend(s, p.events, FramesPlan(p.book, rest).events);
    }
  }

  lemma {:induction false} FramesPlanAppend(b: Book, a: seq<Frame>, c: seq<Frame>)
    requires !FramesPlan(b, a).failed
    ensures var p := FramesPlan(b, a);
      var q := FramesPlan(p.book, c);
      FramesPlan(b, a + c) == q.(events := p.events + q.events)
    decreases |a|
  {
    hide FramePlan;
    if a == [] {
      assert a + c == c;
      assert [] + FramesPlan(b, c).events == FramesPlan(b, c).events;
    } else {
      assert (a + c)[0] == a[0] && (a + c)[1..] == a[1..] + c;
      FramesPlanAppend(FramePlan(b, a[0]).book, a[1..], c);
    }
  }

  /** After the terminal frame only empty frames are harmless. */
  lemma {:induction false} AfterTerminal(b: Book, frames: seq<Frame>)
    requires b.terminal
    ensures var p := FramesPlan(b, frames); p.events == [] && (p.failed <==> !AllEmpty(frames)) && p.book == b
    decreases |frames|
  {
    if frames != [] {
      assert frames == [frames[0]] + frames[1..];
      if frames[0].EmptyFrame? { AfterTerminal(b, frames[1..]); }
    }
  }

  /** A visible choice index, such as a number, gives text and reasoning blocks proper identities. */
  lemma VisibleIndexesAreIdentities(index: string)
    requires Identity(index)
    ensures Identity(TextId(index)) && Identity(ReasoningId(index))
  {
    PrefixedIdentity("text-", index);
    PrefixedIdentity("reasoning-", index);
  }

  // ---------- Which turns complete ----------

  /** How many frames come before the one that ends the stream or breaks it. */
  function PlainLength(frames: seq<Frame>): (n: nat)
    ensures n <= |frames| && AllPlain(frames[..n]) && (n < |frames| ==> !Plain(frames[n]))
  {
    if frames == [] || !Plain(frames[0]) then 0
    else
      var n := PlainLength(frames[1..]);
      assert frames[..n + 1] == [frames[0]] + frames[1..][..n];
      n + 1
  }

  ghost function PlainBook(frames: seq<Frame>): (b: Book) {
    FramesPlan(EMPTY_BOOK, frames[..PlainLength(frames)]).book
  }

  /** The frame that ends the stream, and what it needs: a done marker needs every tool to be ready,
      an error chunk only that no block clashed. */
  ghost predicate EndsWell(b: Book, f: Frame) {
    match f
    case DoneFrame => Ready(b)
    case Chunk(_, failed, _, _) => failed && GoodIds(b)
    case _ => false
  }

  /** The frame sequences that make a complete turn. */
  ghost predicate Completes(frames: seq<Frame>) {
    var n := PlainLength(frames);
    n < |frames| && EndsWell(PlainBook(frames), frames[n]) && AllEmpty(frames[n + 1..])
  }

  const STARTED := INITIAL.(stepActive := true, stepIndex := Finite(0.0))

  lemma StartSimulates()
    ensures Accepted(INITIAL, StepStart(Finite(0.0), true)) == Ok(STARTED)
    ensures Consistent(EMPTY_BOOK) && GoodIds(EMPTY_BOOK) && Sim(EMPTY_BOOK, STARTED, {}, {})
  {
    assert (0.0 as real).Floor as real == 0.0;
  }

  /** One frame that is not plain, in an open stream. */
  lemma LastFrame(b: Book, s: State, f: Frame)
    requires Consistent(b) && !Plain(f)
    ensures var p := FramePlan(b, f); !p.failed ==> p.book.terminal
    ensures GoodIds(b) && Sim(b, s, {}, {}) ==>
      var p := FramePlan(b, f);
      var r := RunFrom(s, p.events);
      (!p.failed && r.Some? <==> EndsWell(b, f)) && (!p.failed && r.Some? ==> r.value.terminal)
  {
    assert !b.terminal;
    hide Consistent, GoodIds, Sim, FinishPlan, Ready;
    match f {
      case Garbage =>
      case DoneFrame =>
        if GoodIds(b) && Sim(b, s, {}, {}) { DoneAccepted(b, s, b.reason.GetOr(Stop)); }
      case Chunk(_, _, _, _) => One(s, ProviderError(true));
    }
  }

  lemma PlainTurnStays(frames: seq<Frame>)
    requires AllPlain(frames)
    ensures var p := FramesPlan(EMPTY_BOOK, frames);
      var r := RunFrom(STARTED, p.events);
      !p.failed && Consistent(p.book) && Simulates(p.book, STARTED, p.events) && (r.Some? ==> !r.value.terminal)
  {
    StartSimulates();
    PlainFramesSimulate(EMPTY_BOOK, STARTED, frames);
  }

  /** What remains of the frames after the plain ones. */
  lemma TailOf(frames: seq<Frame>, n: nat, s: State, b: Book)
    requires n < |frames| && Consistent(b) && !Plain(frames[n])
    ensures var q := FramesPlan(b, frames[n..]);
      GoodIds(b) && Sim(b, s, {}, {}) ==>
        (!q.failed && RunFrom(s, q.events).Some? && RunFrom(s, q.events).value.terminal <==>
         EndsWell(b, frames[n]) && AllEmpty(frames[n + 1..]))
  {
    hide Sim, GoodIds, Consistent, FramePlan, EndsWell, AllEmpty, Accepted;
    var first := FramePlan(b, frames[n]);
    LastFrame(b, s, frames[n]);
    assert frames[n..][0] == frames[n] && frames[n..][1..] == frames[n + 1..];
    if !first.failed {
      AfterTerminal(first.book, frames[n + 1..]);
      assert first.events + [] == first.events;
    }
  }

  lemma TurnRun(frames: seq<Frame>)
    ensures Run(TurnPlan(frames).events) == RunFrom(STARTED, FramesPlan(EMPTY_BOOK, frames).events)
  {
    var events := FramesPlan(EMPTY_BOOK, frames).events;
    StartSimulates();
    RunIsRunFrom(TurnPlan(frames).events);
    OneThen(INITIAL, StepStart(Finite(0.0), true), events);
  }

  /** A turn is its plain frames, then the rest from where those left off. */
  lemma TurnSplits(front: seq<Frame>, back: seq<Frame>)
    requires AllPlain(front)
    ensures var p := FramesPlan(EMPTY_BOOK, front);
      var q := FramesPlan(p.book, back);
      var r := RunFrom(STARTED, p.events);
      TurnPlan(front + back).failed == q.failed &&
      Run(TurnPlan(front + back).events) == if r.None? then None else RunFrom(r.value, q.events)
  {
    PlainTurnStays(front);
    hide FramePlan, Simulates, Consistent, Accepted;
    var p := FramesPlan(EMPTY_BOOK, front);
    FramesPlanAppend(EMPTY_BOOK, front, back);
    TurnRun(front + back);
    RunFromAppend(STARTED, p.events, FramesPlan(p.book, back).events);
  }

  /** The adapter ends without a protocol error in a stream the validator accepts as complete exactly
      for the frame sequences of `Completes`. */
  lemma CompletesExactly(frames: seq<Frame>)
    ensures var p := TurnPlan(frames); !p.failed && ValidStream(p.events) <==> Completes(frames)
  {
    var n := PlainLength(frames);
    var front, back := frames[..n], frames[n..];
    var p := FramesPlan(EMPTY_BOOK, front);
    var events := TurnPlan(frames).events;
    assert frames == front + back;
    assert PlainBook(frames) == p.book;
    assert ValidStream(events) <==> Run(events).Some? && Run(events).value.terminal;
    assert Completes(frames) <==>
      n < |frames| && EndsWell(p.book, frames[n]) && AllEmpty(frames[n + 1..]);
    PlainTurnStays(front);
    assert Simulates(p.book, STARTED, p.events) ==>
      var r := RunFrom(STARTED, p.events);
      (r.Some? <==> GoodIds(p.book)) && (r.Some? ==> Sim(p.book, r.value, {}, {}));
    hide *;
    TurnSplits(front, back);
    var r := RunFrom(STARTED, p.events);
    if n < |frames| {
      TailOf(frames, n, if r.Some? then r.value else STARTED, p.book);
      EndsWellIsGood(p.book, frames[n]);
    } else {
      Nothing(p.book, if r.Some? then r.value else STARTED);
    }
  }

  lemma Nothing(b: Book, s: State)
    ensures FramesPlan(b, []) == Plan(b, [], false) && RunFrom(s, []) == Some(s)
  {
  }

  lemma EndsWellIsGood(b: Book, f: Frame)
    ensures EndsWell(b, f) ==> GoodIds(b)
  {
  }

  // ---------- The arguments of tool calls ----------

  /** The texts streamed for a tool id, put together. */
  function DeltaText(events: seq<Event>, id: string): (t: string) {
    if events == [] then ""
    else
      (if events[0].ToolInputDelta? && events[0].id == id then events[0].text else "") + DeltaText(events[1..], id)
  }

  lemma {:induction false} DeltaTextAppend(a: seq<Event>, b: seq<Event>, id: string)
    ensures DeltaText(a + b, id) == DeltaText(a, id) + DeltaText(b, id)
    decreases |a|
  {
    if a == [] {
      assert a + b == b;
    } else {
      assert (a + b)[0] == a[0] && (a + b)[1..] == a[1..] + b;
      DeltaTextAppend(a[1..], b, id);
      var first := if a[0].ToolInputDelta? && a[0].id == id then a[0].text else "";
      assert first + (DeltaText(a[1..], id) + DeltaText(b, id)) == first + DeltaText(a[1..], id) + DeltaText(b, id);
    }
  }

  lemma {:induction false} NoDeltas(events: seq<Event>, id: string)
    requires forall e | e in events :: !e.ToolInputDelta?
    ensures DeltaText(events, id) == ""
  {
    if events != [] { NoDeltas(events[1..], id); }
  }

  /** What was streamed for each started tool is what the adapter has put together for it, and nothing
      was streamed under another id. */
  ghost predicate Streamed(b: Book, sent: seq<Event>) {
    (forall k | Started(b, k) :: DeltaText(sent, b.tools[k].id) == b.tools[k].args) &&
    (forall k | k in b.tools && !b.tools[k].started :: b.tools[k].args == "") &&
    (forall id | DeltaText(sent, id) != "" :: exists k :: Started(b, k) && b.tools[k].id == id)
  }

  /** A step that streams no arguments. */
  lemma StreamedOther(b: Book, b1: Book, sent: seq<Event>, events: seq<Event>)
    requires Streamed(b, sent) && b1.tools == b.tools && forall e | e in events :: !e.ToolInputDelta?
    ensures Streamed(b1, sent + events)
  {
    forall id ensures DeltaText(sent + events, id) == DeltaText(sent, id) {
      DeltaTextAppend(sent, events, id);
      NoDeltas(events, id);
    }
    assert forall k :: Started(b1, k) <==> Started(b, k);
  }

  /** The text that a call delta streams, and under which id. */
  lemma CallStreams(t: Tool, part: string, id: string)
    ensures var (t1, events) := ToolEvents(t, part);
      DeltaText(events, id) == if t1.started && id == t1.id then part else ""
    ensures var t1 := ToolEvents(t, part).0;
      t1.id == t.id && (t.started ==> t1.started) && t1.args == if t1.started then t.args + part else t.args
  {
    if t.started || (t.id != "" && t.name != "") {
      var start := if t.started then [] else [ToolInputStart(t.id, t.name, true)];
      var delta := if part == "" then [] else [ToolInputDelta(t.id, t.name, part, true)];
      DeltaTextAppend(start, delta, id);
      NoDeltas(start, id);
      if part != "" { assert delta[1..] == []; }
    }
  }

  lemma StreamedCall(b: Book, key: string, call: CallDelta, sent: seq<Event>)
    requires Consistent(b) && Streamed(b, sent) && GoodIds(Apply(b, CallOp(key, call)).0)
    ensures var (b1, events) := Apply(b, CallOp(key, call)); Streamed(b1, sent + events)
  {
    var t := NamedTool(b, key, call);
    var (t1, events) := ToolEvents(t, call.arguments);
    var b1 := b.(tools := b.tools[key := t1]);
    hide ToolEvents, Identity, Blank, DeltaText;
    forall id ensures DeltaText(sent + events, id) ==
      DeltaText(sent, id) + if t1.started && id == t1.id then call.arguments else ""
    {
      DeltaTextAppend(sent, events, id);
      CallStreams(t, call.arguments, id);
    }
    CallStreams(t, call.arguments, t.id);
    assert Started(b, key) ==> t1.id == b.tools[key].id;
    if t1.started && !Started(b, key) { FreshToolHadNoText(b, key, t1, sent); }
    forall k | Started(b1, k) ensures DeltaText(sent + events, b1.tools[k].id) == b1.tools[k].args {
      assert GoodTool(b1, k);
      if k != key { assert Started(b, k) && (t1.started ==> Started(b1, key)); }
    }
    forall id | DeltaText(sent + events, id) != "" ensures exists k :: Started(b1, k) && b1.tools[k].id == id {
      if DeltaText(sent, id) == "" {
        assert Started(b1, key);
      } else {
        var k :| Started(b, k) && b.tools[k].id == id;
        assert Started(b1, k) && b1.tools[k].id == id;
      }
    }
  }

  /** A tool that starts now streamed nothing under its id before, and has no arguments yet. */
  lemma FreshToolHadNoText(b: Book, key: string, t1: Tool, sent: seq<Event>)
    requires Streamed(b, sent) && t1.started && GoodIds(b.(tools := b.tools[key := t1])) && !Started(b, key)
    ensures DeltaText(sent, t1.id) == ""
  {
    var b1 := b.(tools := b.tools[key := t1]);
    assert Started(b1, key) && GoodTool(b1, key);
    if DeltaText(sent, t1.id) != "" {
      var k :| Started(b, k) && b.tools[k].id == t1.id;
      assert Started(b1, k) && k != key;
      assert false;
    }
  }

  lemma StreamedOp(b: Book, op: Op, sent: seq<Event>)
    requires Consistent(b) && Streamed(b, sent) && GoodIds(Apply(b, op).0)
    ensures var (b1, events) := Apply(b, op); Streamed(b1, sent + events)
  {
    if op.CallOp? {
      StreamedCall(b, op.key, op.call, sent);
    } else {
      var (b1, events) := Apply(b, op);
      StreamedOther(b, b1, sent, events);
    }
  }

  lemma {:induction false} StreamedOps(b: Book, ops: seq<Op>, sent: seq<Event>)
    requires Consistent(b) && Streamed(b, sent) && GoodIds(ApplyAll(b, ops).0)
    ensures var (b1, events) := ApplyAll(b, ops); Streamed(b1, sent + events)
    decreases |ops|
  {
    if ops == [] {
      assert sent + [] == sent;
    } else {
      var (b1, first) := Apply(b, ops[0]);
      var rest := ApplyAll(b1, ops[1..]).1;
      StepKeepsConsistent(b, ops[0]);
      OpsKeepBad(b1, ops[1..]);
      hide Streamed, GoodIds, Consistent, Apply;
      StreamedOp(b, ops[0], sent);
      StreamedOps(b1, ops[1..], sent + first);
      assert sent + (first + rest) == sent + first + rest;
    }
  }

  lemma StreamedFrame(b: Book, f: Frame, sent: seq<Event>)
    requires Consistent(b) && Plain(f) && Streamed(b, sent) && GoodIds(FramePlan(b, f).book)
    ensures var p := FramePlan(b, f); Streamed(p.book, sent + p.events)
  {
    if f.Chunk? {
      assert !b.terminal;
      ChunkPlan(b, f);
      var b1 := ChunkBook(b, f);
      StreamedOther(b, b1, sent, []);
      assert sent + [] == sent;
      FlagsDoNotMatter(b, b1.usageEncodes, b1.metadataEncodes);
      hide Streamed, GoodIds, Consistent, ChoicesOps;
      StreamedOps(b1, ChoicesOps(f.choices), sent);
    } else {
      assert sent + [] == sent;
    }
  }

  lemma {:induction false} StreamedFrames(b: Book, frames: seq<Frame>, sent: seq<Event>)
    requires Consistent(b) && AllPlain(frames) && Streamed(b, sent) && GoodIds(FramesPlan(b, frames).book)
    ensures var p := FramesPlan(b, frames); Streamed(p.book, sent + p.events)
    decreases |frames|
  {
    hide Streamed, GoodIds, Consistent, FramePlan, Simulates, Sim;
    if frames == [] {
      assert sent + [] == sent;
    } else {
      var p, rest := FramePlan(b, frames[0]), frames[1..];
      PlainFrameSimulates(b, INITIAL, frames[0]);
      PlainFramesSimulate(p.book, INITIAL, rest);
      StreamedFrame(b, frames[0], sent);
      StreamedFrames(p.book, rest, sent + p.events);
      assert sent + (p.events + FramesPlan(p.book, rest).events) == sent + p.events + FramesPlan(p.book, rest).events;
    }
  }

  /** A tool call carries the decoding of the text streamed for its id before it. */
  predicate CarriesDeltas(events: seq<Event>, i: nat)
    requires i < |events|
  {
    events[i].ToolCall? ==>
      var text := DeltaText(events[..i], events[i].id);
      ArgumentsDecode(text) && events[i].input == ToolInput(text)
  }

  /** The events that close tools: ends, and calls with what was put together for the tool. */
  predicate ClosesTool(tools: map<string, Tool>, e: Event) {
    e.ToolInputEnd? ||
    (e.ToolCall? && exists k :: k in tools && CallFor(tools[k], e))
  }

  predicate CallFor(t: Tool, e: Event) {
    e.ToolCall? && t.started && t.id == e.id && ArgumentsDecode(t.args) && e.input == ToolInput(t.args)
  }

  lemma {:induction false} ClosingTools(tools: map<string, Tool>, keys: seq<string>)
    requires forall k | k in keys :: k in tools
    ensures forall e | e in CloseTools(tools, keys).0 :: ClosesTool(tools, e)
    decreases |keys|
  {
    if keys != [] {
      var t, rest := tools[keys[0]], keys[1..];
      assert keys[0] in keys && forall k | k in rest :: k in keys;
      ClosingTools(tools, rest);
      if !t.called && t.started && t.id != "" && t.name != "" && ArgumentsDecode(t.args) {
        assert CallFor(t, ToolCall(t.id, t.name, ToolInput(t.args), true));
      }
    }
  }

  lemma {:induction false} EndsCallNothing(ids: seq<string>, text: bool)
    ensures forall e | e in Ends(ids, text) :: e.TextEnd? || e.ReasoningEnd?
  {
    if ids != [] { EndsCallNothing(ids[1..], text); }
  }

  /** An event that finishing sends. */
  predicate FinishingEvent(tools: map<string, Tool>, e: Event) {
    e.TextEnd? || e.ReasoningEnd? || e.StepFinish? || e.Finish? || e.ProviderError? || ClosesTool(tools, e)
  }

  predicate AllFinishing(tools: map<string, Tool>, events: seq<Event>) {
    forall e | e in events :: FinishingEvent(tools, e)
  }

  lemma EndsFinish(tools: map<string, Tool>, ids: seq<string>, text: bool)
    ensures AllFinishing(tools, Ends(ids, text))
  {
    EndsCallNothing(ids, text);
  }

  lemma ToolsFinish(tools: map<string, Tool>)
    ensures (forall k | k in Sorted(tools.Keys) :: k in tools) &&
      AllFinishing(tools, CloseTools(tools, Sorted(tools.Keys)).0)
  {
    SortedLists(tools.Keys);
    hide ClosesTool, CloseTools, Sorted;
    ClosingTools(tools, Sorted(tools.Keys));
  }

  lemma FinishEventsClose(b: Book, reason: FinishReason)
    ensures AllFinishing(b.tools, FinishPlan(b, reason).events)
  {
    var texts, thoughts := Ends(Sorted(b.text), true), Ends(Sorted(b.reasoning), false);
    EndsFinish(b.tools, Sorted(b.text), true);
    EndsFinish(b.tools, Sorted(b.reasoning), false);
    ToolsFinish(b.tools);
    hide Ends, Sorted, ClosesTool, CloseTools;
    var (calls, failed) := CloseTools(b.tools, Sorted(b.tools.Keys));
    var tail := FinishEvents(failed, reason, b.usageEncodes && b.metadataEncodes);
    assert FinishPlan(b, reason).events == (texts + thoughts) + (calls + tail);
    assert AllFinishing(b.tools, tail);
  }

  predicate CallsNothing(events: seq<Event>) {
    forall e | e in events :: !e.ToolCall?
  }

  lemma {:induction false} OpsCallNothing(b: Book, ops: seq<Op>)
    ensures CallsNothing(ApplyAll(b, ops).1)
    decreases |ops|
  {
    if ops != [] { OpsCallNothing(Apply(b, ops[0]).0, ops[1..]); }
  }

  lemma {:induction false} PlainFramesCallNothing(b: Book, frames: seq<Frame>)
    requires Consistent(b) && AllPlain(frames)
    ensures CallsNothing(FramesPlan(b, frames).events)
    decreases |frames|
  {
    if frames != [] {
      PlainFrameSimulates(b, INITIAL, frames[0]);
      if frames[0].Chunk? {
        assert !b.terminal;
        ChunkPlan(b, frames[0]);
        OpsCallNothing(ChunkBook(b, frames[0]), ChoicesOps(frames[0].choices));
      }
      PlainFramesCallNothing(FramePlan(b, frames[0]).book, frames[1..]);
    }
  }

  /** Events sent to finish, after a sequence in step with the bookkeeping. */
  lemma FinishCarriesDeltas(b: Book, sent: seq<Event>, last: seq<Event>)
    requires Streamed(b, sent) && CallsNothing(sent) && AllFinishing(b.tools, last)
    ensures forall i | 0 <= i < |sent + last| :: CarriesDeltas(sent + last, i)
  {
    forall i | 0 <= i < |sent + last| ensures CarriesDeltas(sent + last, i) {
      if i < |sent| {
        assert (sent + last)[i] == sent[i] && sent[i] in sent;
      } else {
        CallCarriesDeltas(b, sent, last, i - |sent|);
      }
    }
  }

  lemma NoDeltasYet(tools: map<string, Tool>, last: seq<Event>, j: nat, id: string)
    requires AllFinishing(tools, last) && j <= |last|
    ensures DeltaText(last[..j], id) == ""
  {
    forall e | e in last[..j] ensures !e.ToolInputDelta? { assert e in last && FinishingEvent(tools, e); }
    NoDeltas(last[..j], id);
  }

  lemma CallCarriesDeltas(b: Book, sent: seq<Event>, last: seq<Event>, j: nat)
    requires Streamed(b, sent) && AllFinishing(b.tools, last) && j < |last|
    ensures CarriesDeltas(sent + last, |sent| + j)
  {
    var all, e := sent + last, last[j];
    assert all[|sent| + j] == e && all[..|sent| + j] == sent + last[..j];
    assert e in last && FinishingEvent(b.tools, e);
    if e.ToolCall? {
      var k :| k in b.tools && CallFor(b.tools[k], e);
      assert Started(b, k);
      assert DeltaText(sent, e.id) == b.tools[k].args;
      DeltaTextAppend(sent, last[..j], e.id);
      NoDeltasYet(b.tools, last, j, e.id);
      assert DeltaText(all[..|sent| + j], e.id) == b.tools[k].args;
    }
  }

  /** In every complete turn, each tool call's input is the decoding of exactly the argument text that
      was streamed under its id. */
  lemma ToolCallsCarryTheirDeltas(frames: seq<Frame>)
    requires Completes(frames)
    ensures var events := TurnPlan(frames).events;
      forall i | 0 <= i < |events| :: CarriesDeltas(events, i)
  {
    hide *;
    var n := PlainLength(frames);
    var front, back := frames[..n], frames[n..];
    var b, start := PlainBook(frames), [StepStart(Finite(0.0), true)];
    CompletesMeans(frames);
    PlainTurnStays(front);
    StartIsQuiet(start);
    StartSimulates();
    assert frames == front + back;
    var p, last := FramesPlan(EMPTY_BOOK, front), FramePlan(b, frames[n]).events;
    StreamedFrames(EMPTY_BOOK, front, start);
    FrontCallsNothing(front, start);
    LastFrameCloses(b, frames[n]);
    LastFrameIsLast(frames, n, b);
    FramesPlanAppend(EMPTY_BOOK, front, back);
    FinishCarriesDeltas(b, start + p.events, last);
    TurnEvents(frames);
    assert start + (p.events + last) == start + p.events + last;
  }

  lemma CompletesMeans(frames: seq<Frame>)
    requires Completes(frames)
    ensures var n := PlainLength(frames);
      n < |frames| && FramesPlan(EMPTY_BOOK, frames[..n]).book == PlainBook(frames) &&
      EndsWell(PlainBook(frames), frames[n]) && GoodIds(PlainBook(frames)) && AllEmpty(frames[n + 1..])
  {
    hide FramesPlan, AllEmpty, GoodIds;
    EndsWellIsGood(PlainBook(frames), frames[PlainLength(frames)]);
  }

  lemma TurnEvents(frames: seq<Frame>)
    ensures TurnPlan(frames).events == [StepStart(Finite(0.0), true)] + FramesPlan(EMPTY_BOOK, frames).events
  {
    hide FramesPlan;
  }

  lemma StartIsQuiet(start: seq<Event>)
    requires start == [StepStart(Finite(0.0), true)]
    ensures Streamed(EMPTY_BOOK, start) && CallsNothing(start)
  {
    NothingStreamed(start);
  }

  lemma FrontCallsNothing(front: seq<Frame>, start: seq<Event>)
    requires AllPlain(front) && CallsNothing(start)
    ensures CallsNothing(start + FramesPlan(EMPTY_BOOK, front).events)
  {
    PlainFramesCallNothing(EMPTY_BOOK, front);
    hide FramesPlan;
  }

  lemma NothingStreamed(start: seq<Event>)
    requires forall e | e in start :: !e.ToolInputDelta?
    ensures Streamed(EMPTY_BOOK, start)
  {
    forall id ensures DeltaText(start, id) == "" { NoDeltas(start, id); }
  }

  lemma LastFrameCloses(b: Book, f: Frame)
    requires EndsWell(b, f) && Consistent(b)
    ensures AllFinishing(b.tools, FramePlan(b, f).events)
  {
    if f.DoneFrame? { FinishEventsClose(b, b.reason.GetOr(Stop)); }
  }

  lemma LastFrameIsLast(frames: seq<Frame>, n: nat, b: Book)
    requires n < |frames| && Consistent(b) && EndsWell(b, frames[n]) && AllEmpty(frames[n + 1..])
    ensures FramesPlan(b, frames[n..]).events == FramePlan(b, frames[n]).events
  {
    var first := FramePlan(b, frames[n]);
    assert !Plain(frames[n]);
    LastFrame(b, INITIAL, frames[n]);
    hide FramePlan, EndsWell;
    assert frames[n..][0] == frames[n] && frames[n..][1..] == frames[n + 1..];
    if !first.failed {
      AfterTerminal(first.book, frames[n + 1..]);
      assert first.events + [] == first.events;
    }
  }

  // ---------- Delivery ----------

  /** A sink that takes everything sees an emission error exactly when the validator rejects. */
  lemma {:induction false} WillingSink(
    answers: Answers, s: EmitterState, base: seq<Event>, accepted: seq<Event>, events: seq<Event>)
    requires InStep(s, base, accepted) && forall n :: answers(n)
    ensures EmitAll(answers, s, events).1.None? <==> RunFrom(s.validator, events).Some?
    decreases |events|
  {
    if events != [] {
      var (s1, error) := EmitStep(answers, s, events[0]);
      EmitKeepsInStep(answers, s, base, accepted, events[0]);
      hide Accepted, InStep, Run;
      if error.None? { WillingSink(answers, s1, base, accepted + [events[0]], events[1..]); }
    }
  }

  /** Emission to a sink that takes everything follows the validator. */
  lemma WillingRun(answers: Answers, sink: SinkState, events: seq<Event>)
    requires forall n :: answers(n)
    ensures var (s, error) := EmitAll(answers, Fresh(sink), events);
      (error.None? <==> Run(events).Some?) && (error.None? ==> Some(s.validator) == Run(events))
  {
    var start := Fresh(sink);
    assert sink.received + Held(start) == sink.received + [];
    assert InStep(start, sink.received, []);
    RunIsRunFrom(events);
    hide EmitAll, RunFrom;
    WillingSink(answers, start, sink.received, [], events);
    SinkSeesOnlyValidStreams(answers, start, sink.received, [], events);
    assert [] + events == events;
  }

  /** A complete turn leaves the bookkeeping finished. */
  lemma CompleteIsTerminal(frames: seq<Frame>)
    requires Completes(frames)
    ensures TurnPlan(frames).book.terminal
  {
    hide *;
    var n := PlainLength(frames);
    var front, back := frames[..n], frames[n..];
    CompletesMeans(frames);
    CompletesExactly(frames);
    PlainTurnStays(front);
    assert frames == front + back;
    var b := PlainBook(frames);
    FramesPlanAppend(EMPTY_BOOK, front, back);
    TurnBook(frames);
    LastFrameEnds(b, frames, n);
  }

  lemma TurnBook(frames: seq<Frame>)
    ensures TurnPlan(frames).book == FramesPlan(EMPTY_BOOK, frames).book
    ensures TurnPlan(frames).failed == FramesPlan(EMPTY_BOOK, frames).failed
  {
    hide FramesPlan;
  }

  lemma LastFrameEnds(b: Book, frames: seq<Frame>, n: nat)
    requires n < |frames| && Consistent(b) && EndsWell(b, frames[n]) && !FramesPlan(b, frames[n..]).failed
    ensures FramesPlan(b, frames[n..]).book.terminal
  {
    assert frames[n..][0] == frames[n] && frames[n..][1..] == frames[n + 1..];
    assert !Plain(frames[n]);
    LastFrame(b, INITIAL, frames[n]);
    hide FramePlan, EndsWell, Consistent;
    var first := FramePlan(b, frames[n]);
    if !first.failed { AfterTerminal(first.book, frames[n + 1..]); }
  }

  /** A complete turn against a sink that takes everything delivers the whole stream. */
  lemma TurnDelivers(answers: Answers, sink: SinkState, frames: seq<Frame>)
    requires Completes(frames) && forall n :: answers(n)
    ensures var (s, error) := EmitAll(answers, Fresh(sink), TurnPlan(frames).events);
      error.None? && s.sink.received == sink.received + TurnPlan(frames).events
  {
    var events, start := TurnPlan(frames).events, Fresh(sink);
    assert sink.received + Held(start) == sink.received + [];
    assert InStep(start, sink.received, []);
    CompletesExactly(frames);
    RunIsRunFrom(events);
    WillingSink(answers, start, sink.received, [], events);
    SinkSeesOnlyValidStreams(answers, start, sink.received, [], events);
    assert [] + events == events;
    hide Completes, TurnPlan, EmitAll, RunFrom;
    var s := EmitAll(answers, start, events).0;
    RunUnique(s, sink.received, events);
  }

  lemma RunUnique(s: EmitterState, base: seq<Event>, events: seq<Event>)
    requires InStep(s, base, events) && ValidStream(events)
    ensures s.sink.received == base + events && s.validator.terminal
  {
    assert s.sink.received + [] == s.sink.received;
  }

  // ---------- Arguments at the depth limit ----------

  function Nested(n: nat): (v: Json.Value) {
    if n == 0 then Json.Null else Json.Array([Nested(n - 1)])
  }

  lemma {:induction false} NestedFits(n: nat, depth: nat)
    ensures Json.Valid(Nested(n)) && (Json.Fits(Nested(n), depth) <==> n + depth <= Json.MAX_DEPTH)
    ensures Json.Normalize(Nested(n)) == Nested(n)
  {
    if n > 0 {
      NestedFits(n - 1, depth + 1);
      assert Nested(n).items[0] == Nested(n - 1) && Nested(n).items[1..] == [];
    }
  }

  lemma {:induction false} TrimRightKeeps(s: string)
    requires s != "" && !IsSpace(s[0])
    ensures TrimRight(s) != ""
  {
    if |s| > 1 && IsSpace(s[|s| - 1]) { TrimRightKeeps(s[..|s| - 1]); }
  }

  function DeepArguments(): (args: string) {
    "[" + Brackets(Json.MAX_DEPTH - 1) + "]\n"
  }

  function Brackets(n: nat): (t: string) {
    if n == 0 then "null" else "[" + Brackets(n - 1) + "]"
  }

  lemma {:induction false} NestedEncoding(n: nat)
    ensures Json.Encoding(Nested(n)) == Brackets(n)
  {
    if n > 0 {
      NestedEncoding(n - 1);
      var inner := [Nested(n - 1)];
      assert inner[1..] == [] && Json.ItemsEncoding([], true) == "";
      assert Json.ItemsEncoding(inner, false) == "" + (Brackets(n - 1) + "");
    }
  }

  lemma NestedDecodes(n: nat)
    requires 0 < n <= Json.MAX_DEPTH
    ensures Json.Decode(Brackets(n) + "\n") == Ok(Nested(n))
  {
    NestedFits(n, 0);
    NestedEncoding(n);
    JsonProofs.RoundTrip(Nested(n));
  }

  lemma NestedArguments(n: nat)
    requires 0 < n <= Json.MAX_DEPTH
    ensures var args := "[" + Brackets(n - 1) + "]\n"; ArgumentsDecode(args) && ToolInput(args) == Nested(n)
  {
    var args := "[" + Brackets(n - 1) + "]\n";
    assert args == Brackets(n) + "\n" by { BracketsOpen(n); }
    NestedDecodes(n);
    TrimRightKeeps(args);
  }

  lemma BracketsOpen(n: nat)
    requires n > 0
    ensures Brackets(n) == "[" + Brackets(n - 1) + "]"
  {
  }

  // ---------- A turn with one tool call ----------

  const ONE_TOOL := "call"

  function OneDelta(args: string): (call: CallDelta) {
    CallDelta("0", ONE_TOOL, "lookup", args)
  }

  /** One chunk that brings a whole tool call, then the done marker. */
  function OneCall(args: string): (frames: seq<Frame>) {
    [Chunk(None, false, None, [Choice("0", "", "", [OneDelta(args)], "tool_calls")]), DoneFrame]
  }

  function OneTool(args: string): (t: Tool) {
    Tool(ONE_TOOL, "lookup", args, true, false)
  }

  function OneToolBook(args: string): (b: Book) {
    EMPTY_BOOK.(tools := map["0:0" := OneTool(args)], reason := Some(ToolCalls))
  }

  lemma OneCallOps(args: string)
    ensures ChoicesOps(OneCall(args)[0].choices) ==
      [TextOp("0", "")] + [ReasoningOp("0", ""), CallOp("0:0", OneDelta(args)), ReasonOp("tool_calls")]
  {
    var calls := [OneDelta(args)];
    assert "0" + ":" + calls[0].index == "0:0";
    assert calls[1..] == [] && CallOps("0", []) == [];
    assert CallOps("0", calls) == [CallOp("0:0", calls[0])];
    var choices := OneCall(args)[0].choices;
    assert choices[1..] == [] && ChoicesOps([]) == [];
    assert ChoicesOps(choices) == ChoiceOps(choices[0]) + [];
  }

  /** The steps of the chunk leave one started tool. */
  lemma OneCallBook(args: string)
    ensures ApplyAll(EMPTY_BOOK, ChoicesOps(OneCall(args)[0].choices)).0 == OneToolBook(args)
  {
    OneCallOps(args);
    var first, second, third, fourth :=
      TextOp("0", ""), ReasoningOp("0", ""), CallOp("0:0", OneDelta(args)), ReasonOp("tool_calls");
    hide ChoicesOps, OneCall;
    assert ([first] + [second, third, fourth])[1..] == [second] + [third, fourth];
    assert [second, third, fourth][1..] == [third, fourth] && [third, fourth][1..] == [fourth] && [fourth][1..] == [];
    var b := Apply(EMPTY_BOOK, third).0;
    assert "" + args == args;
    assert b == EMPTY_BOOK.(tools := map["0:0" := OneTool(args)]);
    assert ApplyAll(b, [fourth]).0 == OneToolBook(args);
    assert ApplyAll(EMPTY_BOOK, [third, fourth]).0 == OneToolBook(args);
    assert Apply(EMPTY_BOOK, second) == (EMPTY_BOOK, []) && Apply(EMPTY_BOOK, first) == (EMPTY_BOOK, []);
    assert ApplyAll(EMPTY_BOOK, [second, third, fourth]).0 == OneToolBook(args);
  }

  lemma OneCallPlan(args: string)
    ensures PlainLength(OneCall(args)) == 1 && OneCall(args)[1..] == [DoneFrame] && OneCall(args)[2..] == []
    ensures var p := FramesPlan(EMPTY_BOOK, OneCall(args)[..1]); !p.failed && p.book == OneToolBook(args)
  {
    var frames := OneCall(args);
    assert frames[1..] == [DoneFrame] && frames[..1] == [frames[0]] && [frames[0]][1..] == [];
    OneCallBook(args);
    ChunkPlan(EMPTY_BOOK, frames[0]);
    assert ChunkBook(EMPTY_BOOK, frames[0]) == EMPTY_BOOK;
    hide ChoicesOps, ApplyAll, ChunkBook, OneToolBook, FramePlan;
    var p := FramePlan(EMPTY_BOOK, frames[0]);
    assert FramesPlan(p.book, []) == Plan(p.book, [], false);
  }

  lemma OneToolReady(args: string)
    ensures Ready(OneToolBook(args)) <==> ToolReady(OneTool(args))
  {
    var b := OneToolBook(args);
    TrimKeeps(ONE_TOOL);
    TrimKeeps("lookup");
    hide ToolReady;
    forall k | Started(b, k) ensures GoodTool(b, k) { assert k == "0:0"; }
    assert "0:0" in b.tools;
    assert GoodIds(b);
  }

  /** Such a turn completes exactly when its arguments decode to a value that still fits one level further down. */
  lemma OneCallCompletes(args: string)
    ensures Completes(OneCall(args)) <==> ArgumentsDecode(args) && InputFits(ToolInput(args))
  {
    OneCallPlan(args);
    OneToolReady(args);
    var frames := OneCall(args);
    assert AllEmpty(frames[2..]) && frames[1] == DoneFrame && PlainBook(frames) == OneToolBook(args);
    hide FramesPlan, PlainLength, OneCall, Ready, ArgumentsDecode, InputFits, OneToolBook;
  }

  /** The adapter itself finds fault with such a turn only when the arguments do not decode. */
  lemma OneCallPlanned(args: string)
    ensures TurnPlan(OneCall(args)).failed <==> !ArgumentsDecode(args)
  {
    OneCallPlan(args);
    var frames, b := OneCall(args), OneToolBook(args);
    FramesPlanAppend(EMPTY_BOOK, frames[..1], frames[1..]);
    assert frames == frames[..1] + frames[1..];
    var p := FramePlan(b, DoneFrame);
    hide OneCall, ArgumentsDecode, BlockEnds;
    OneKeySorted();
    assert b.tools.Keys == {"0:0"};
    assert ["0:0"][1..] == [] && CloseTools(b.tools, []) == ([], false);
    assert CloseTools(b.tools, ["0:0"]).1 <==> !ArgumentsDecode(args);
    assert p.failed <==> !ArgumentsDecode(args);
    assert [DoneFrame][1..] == [];
    assert !p.failed ==> FramesPlan(p.book, []) == Plan(p.book, [], false);
  }

  lemma OneKeySorted()
    ensures Sorted({"0:0"}) == ["0:0"]
  {
    SortedLists({"0:0"});
    var keys := Sorted({"0:0"});
    Distinct(keys);
    assert forall k | k in keys :: k == "0:0";
    assert "0:0" in keys;
  }

  /** A whole turn in which nothing is wrong but the depth: its arguments decode, the adapter has no complaint,
      and yet what it emits is not a valid stream. */
  lemma DeepTurnFails()
    ensures ArgumentsDecode(DeepArguments()) && !InputFits(ToolInput(DeepArguments()))
    ensures !TurnPlan(OneCall(DeepArguments())).failed && !ValidStream(TurnPlan(OneCall(DeepArguments())).events)
  {
    var args := DeepArguments();
    NestedArguments(Json.MAX_DEPTH);
    NestedFits(Json.MAX_DEPTH, 1);
    hide DeepArguments, Nested, Json.Fits, Json.Valid, ArgumentsDecode,
      Completes, TurnPlan, ValidStream, OneCall, ToolInput;
    OneCallCompletes(args);
    OneCallPlanned(args);
    CompletesExactly(OneCall(args));
  }

  /** Arguments nested to the limit decode, but the tool call that carries them one level further down
      is refused: the adapter then reports an error although the stream was otherwise well formed. */
  lemma DeepArgumentsAreRefused(b: Book, s: State, done: set<string>, called: set<string>, key: string)
    requires GoodIds(b) && Sim(b, s, done, called) && Started(b, key) && key !in called
    requires b.tools[key].args == DeepArguments()
    ensures RunFrom(s, ClosingEvents(b.tools[key])).None?
  {
    NestedArguments(Json.MAX_DEPTH);
    NestedFits(Json.MAX_DEPTH, 1);
    hide DeepArguments, Nested, Sim, GoodIds, RunFrom, ClosingEvents, Json.Fits, Json.Valid, ArgumentsDecode;
    ToolCloses(b, s, done, called, key);
  }
}
