/** What the compatible adapter says: which texts the deltas of a turn carry, and how a turn is finished, told by
    the fields of the frames alone. */
module CompatibleTexts {
  import opened Text
  import opened Stream
  import opened Compatible
  import opened CompatibleProofs
  import opened CompatibleTurn

  // ---------- What was said ----------

  datatype Channel = TextChannel | ReasoningChannel

  function Part(channel: Channel, e: Event, id: string): (t: string) {
    match channel
    case TextChannel => if e.TextDelta? && e.id == id then e.text else ""
    case ReasoningChannel => if e.ReasoningDelta? && e.id == id then e.text else ""
  }

  /** The texts of a channel's deltas under an id, put together. */
  function Said(channel: Channel, events: seq<Event>, id: string): (t: string) {
    if events == [] then "" else Part(channel, events[0], id) + Said(channel, events[1..], id)
  }

  lemma {:induction false} SaidAppend(channel: Channel, a: seq<Event>, b: seq<Event>, id: string)
    ensures Said(channel, a + b, id) == Said(channel, a, id) + Said(channel, b, id)
    decreases |a|
  {
    if a == [] {
      assert a + b == b;
    } else {
      assert (a + b)[0] == a[0] && (a + b)[1..] == a[1..] + b;
      SaidAppend(channel, a[1..], b, id);
      assert Part(channel, a[0], id) + (Said(channel, a[1..], id) + Said(channel, b, id)) ==
        Part(channel, a[0], id) + Said(channel, a[1..], id) + Said(channel, b, id);
    }
  }

  lemma {:induction false} NothingSaid(channel: Channel, events: seq<Event>, id: string)
    requires forall e | e in events :: !e.TextDelta? && !e.ReasoningDelta?
    ensures Said(channel, events, id) == ""
  {
    if events != [] { NothingSaid(channel, events[1..], id); }
  }

  // ---------- What came over the wire ----------

  function Field(channel: Channel, c: Choice): (t: string) {
    match channel
    case TextChannel => c.content
    case ReasoningChannel => c.reasoning
  }

  function Prefix(channel: Channel): (prefix: string) {
    match channel
    case TextChannel => "text-"
    case ReasoningChannel => "reasoning-"
  }

  /** A field of the choices with an index, in order. */
  function InChoices(channel: Channel, choices: seq<Choice>, index: string): (t: string) {
    if choices == [] then ""
    else
      (if choices[0].index == index then Field(channel, choices[0]) else "") + InChoices(channel, choices[1..], index)
  }

  function ChoicesOf(f: Frame): (choices: seq<Choice>) {
    if f.Chunk? && !f.failed then f.choices else []
  }

  function InFrames(channel: Channel, frames: seq<Frame>, index: string): (t: string) {
    if frames == [] then ""
    else InChoices(channel, ChoicesOf(frames[0]), index) + InFrames(channel, frames[1..], index)
  }

  // ---------- Texts ----------

  function OpText(channel: Channel, op: Op, index: string): (t: string) {
    match channel
    case TextChannel => if op.TextOp? && op.index == index then op.content else ""
    case ReasoningChannel => if op.ReasoningOp? && op.index == index then op.content else ""
  }

  function OpsText(channel: Channel, ops: seq<Op>, index: string): (t: string) {
    if ops == [] then "" else OpText(channel, ops[0], index) + OpsText(channel, ops[1..], index)
  }

  lemma {:induction false} OpsTextAppend(channel: Channel, a: seq<Op>, b: seq<Op>, index: string)
    ensures OpsText(channel, a + b, index) == OpsText(channel, a, index) + OpsText(channel, b, index)
    decreases |a|
  {
    if a == [] {
      assert a + b == b;
    } else {
      assert (a + b)[0] == a[0] && (a + b)[1..] == a[1..] + b;
      OpsTextAppend(channel, a[1..], b, index);
      assert OpText(channel, a[0], index) + (OpsText(channel, a[1..], index) + OpsText(channel, b, index)) ==
        OpText(channel, a[0], index) + OpsText(channel, a[1..], index) + OpsText(channel, b, index);
    }
  }

  lemma PrefixInjective(prefix: string, i: string, j: string)
    ensures prefix + i == prefix + j <==> i == j
  {
    assert (prefix + i)[|prefix|..] == i && (prefix + j)[|prefix|..] == j;
  }

  lemma TwoSaid(channel: Channel, a: Event, b: Event, id: string)
    ensures Said(channel, [a], id) == Part(channel, a, id)
    ensures Said(channel, [a] + [b], id) == Part(channel, a, id) + Part(channel, b, id)
  {
    assert [a][1..] == [] && [b][1..] == [];
    assert ([a] + [b])[1..] == [b];
    assert Part(channel, a, id) + "" == Part(channel, a, id) && Part(channel, b, id) + "" == Part(channel, b, id);
  }

  /** A start, if the block is new, and a delta. */
  lemma BlockSays(channel: Channel, start: Event, delta: Event, id: string, known: bool)
    requires Part(channel, start, id) == ""
    ensures Said(channel, (if known then [] else [start]) + [delta], id) == Part(channel, delta, id)
  {
    TwoSaid(channel, start, delta, id);
    TwoSaid(channel, delta, delta, id);
    assert [] + [delta] == [delta] && "" + Part(channel, delta, id) == Part(channel, delta, id);
  }

  lemma TextSays(channel: Channel, b: Book, i: string, content: string, index: string)
    ensures Said(channel, Apply(b, TextOp(i, content)).1, Prefix(channel) + index) ==
      OpText(channel, TextOp(i, content), index)
  {
    hide Said;
    PrefixInjective("text-", i, index);
    var id := TextId(i);
    if content != "" {
      BlockSays(channel, TextStart(id, true), TextDelta(id, content, true), Prefix(channel) + index, id in b.text);
    } else {
      NothingSaid(channel, [], Prefix(channel) + index);
    }
  }

  lemma ReasoningSays(channel: Channel, b: Book, i: string, content: string, index: string)
    ensures Said(channel, Apply(b, ReasoningOp(i, content)).1, Prefix(channel) + index) ==
      OpText(channel, ReasoningOp(i, content), index)
  {
    hide Said;
    PrefixInjective("reasoning-", i, index);
    var id := ReasoningId(i);
    if content != "" {
      BlockSays(channel, ReasoningStart(id, true), ReasoningDelta(id, content, true), Prefix(channel) + index,
                id in b.reasoning);
    } else {
      NothingSaid(channel, [], Prefix(channel) + index);
    }
  }

  lemma OpSays(channel: Channel, b: Book, op: Op, index: string)
    ensures Said(channel, Apply(b, op).1, Prefix(channel) + index) == OpText(channel, op, index)
  {
    match op {
      case TextOp(i, content) => TextSays(channel, b, i, content, index);
      case ReasoningOp(i, content) => ReasoningSays(channel, b, i, content, index);
      case CallOp(_, _) =>
        hide Said;
        NothingSaid(channel, Apply(b, op).1, Prefix(channel) + index);
      case ReasonOp(_) =>
    }
  }

  lemma {:induction false} OpsSay(channel: Channel, b: Book, ops: seq<Op>, index: string)
    ensures Said(channel, ApplyAll(b, ops).1, Prefix(channel) + index) == OpsText(channel, ops, index)
    decreases |ops|
  {
    if ops != [] {
      var (b1, first) := Apply(b, ops[0]);
      OpSays(channel, b, ops[0], index);
      OpsSay(channel, b1, ops[1..], index);
      SaidAppend(channel, first, ApplyAll(b1, ops[1..]).1, Prefix(channel) + index);
      hide Said, OpText, Apply;
    }
  }

  lemma {:induction false} CallsSayNothing(channel: Channel, choice: string, calls: seq<CallDelta>, index: string)
    ensures OpsText(channel, CallOps(choice, calls), index) == ""
    decreases |calls|
  {
    if calls != [] {
      var op, rest := CallOp(choice + ":" + calls[0].index, calls[0]), CallOps(choice, calls[1..]);
      assert ([op] + rest)[1..] == rest;
      CallsSayNothing(channel, choice, calls[1..], index);
    }
  }

  lemma ChoiceSays(channel: Channel, c: Choice, index: string)
    ensures OpsText(channel, ChoiceOps(c), index) == if c.index == index then Field(channel, c) else ""
  {
    var text, thought, reason := TextOp(c.index, c.content), ReasoningOp(c.index, c.reasoning), ReasonOp(c.finish);
    var calls := CallOps(c.index, c.calls);
    OpsTextAppend(channel, [text, thought] + calls, [reason], index);
    OpsTextAppend(channel, [text, thought], calls, index);
    CallsSayNothing(channel, c.index, c.calls, index);
    assert [text, thought][1..] == [thought] && [thought][1..] == [] && [reason][1..] == [];
  }

  lemma {:induction false} ChoicesSay(channel: Channel, choices: seq<Choice>, index: string)
    ensures OpsText(channel, ChoicesOps(choices), index) == InChoices(channel, choices, index)
    decreases |choices|
  {
    if choices != [] {
      ChoiceSays(channel, choices[0], index);
      ChoicesSay(channel, choices[1..], index);
      OpsTextAppend(channel, ChoiceOps(choices[0]), ChoicesOps(choices[1..]), index);
      hide OpsText, ChoiceOps;
    }
  }

  lemma {:induction false} PlainFramesSay(channel: Channel, b: Book, frames: seq<Frame>, index: string)
    requires Consistent(b) && AllPlain(frames)
    ensures Said(channel, FramesPlan(b, frames).events, Prefix(channel) + index) == InFrames(channel, frames, index)
    decreases |frames|
  {
    if frames != [] {
      var p, rest := FramePlan(b, frames[0]), frames[1..];
      PlainFrameSays(channel, b, frames[0], index);
      PlainFrameSimulates(b, INITIAL, frames[0]);
      hide Consistent, Said, FramePlan, InChoices, Simulates, Sim;
      PlainFramesSay(channel, p.book, rest, index);
      SaidAppend(channel, p.events, FramesPlan(p.book, rest).events, Prefix(channel) + index);
    }
  }

  lemma PlainFrameSays(channel: Channel, b: Book, f: Frame, index: string)
    requires Consistent(b) && Plain(f)
    ensures Said(channel, FramePlan(b, f).events, Prefix(channel) + index) == InChoices(channel, ChoicesOf(f), index)
  {
    if f.Chunk? {
      assert !b.terminal;
      ChunkPlan(b, f);
      hide Consistent, ChoicesOps, ApplyAll;
      OpsSay(channel, ChunkBook(b, f), ChoicesOps(f.choices), index);
      ChoicesSay(channel, f.choices, index);
    }
  }

  /** What follows the first frame that is not plain says nothing. */
  lemma TailSaysNothing(channel: Channel, frames: seq<Frame>, n: nat, b: Book, id: string)
    requires n < |frames| && Consistent(b) && !Plain(frames[n])
    ensures Said(channel, FramesPlan(b, frames[n..]).events, id) == ""
  {
    var first := FramePlan(b, frames[n]);
    assert frames[n..][0] == frames[n] && frames[n..][1..] == frames[n + 1..];
    LastFrame(b, INITIAL, frames[n]);
    FinalEventsAreSilent(b, frames[n]);
    hide FramePlan, Consistent, EndsWell;
    NothingSaid(channel, first.events, id);
    if !first.failed {
      CompatibleTurn.AfterTerminal(first.book, frames[n + 1..]);
      assert first.events + [] == first.events;
    }
  }

  lemma FinalEventsAreSilent(b: Book, f: Frame)
    requires Consistent(b) && !Plain(f)
    ensures forall e | e in FramePlan(b, f).events ::
      !e.TextDelta? && !e.ReasoningDelta? && !e.ToolInputDelta? && !e.ToolInputStart?
  {
    if f.DoneFrame? {
      FinishEventsClose(b, b.reason.GetOr(Stop));
      hide FinishPlan, ClosesTool;
      var events := FinishPlan(b, b.reason.GetOr(Stop)).events;
      forall e | e in events
        ensures !e.TextDelta? && !e.ReasoningDelta? && !e.ToolInputDelta? && !e.ToolInputStart?
      {
        assert FinishingEvent(b.tools, e);
        ClosingIsSilent(b.tools, e);
      }
    }
  }

  lemma ClosingIsSilent(tools: map<string, Tool>, e: Event)
    ensures ClosesTool(tools, e) ==> e.ToolInputEnd? || e.ToolCall?
  {
  }

  /** For every list of frames: the text deltas under a choice's id put together are the contents of the choices
      with that index in the chunks handled, in order; likewise for reasoning. */
  lemma DeltasCarryTheFields(channel: Channel, frames: seq<Frame>, index: string)
    ensures Said(channel, FramesPlan(EMPTY_BOOK, frames).events, Prefix(channel) + index) ==
      InFrames(channel, frames[..PlainLength(frames)], index)
  {
    hide *;
    var n := PlainLength(frames);
    var front, back := frames[..n], frames[n..];
    StartSimulates();
    PlainFramesSay(channel, EMPTY_BOOK, front, index);
    PlainTurnStays(front);
    var p := FramesPlan(EMPTY_BOOK, front);
    assert frames == front + back;
    FramesPlanAppend(EMPTY_BOOK, front, back);
    var id := Prefix(channel) + index;
    if n < |frames| {
      TailSaysNothing(channel, frames, n, p.book, id);
    } else {
      Nothing(p.book, INITIAL);
      NothingSaid(channel, [], id);
    }
    SaidAppend(channel, p.events, FramesPlan(p.book, back).events, id);
  }
}
