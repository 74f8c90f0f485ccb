/** How a turn of the compatible adapter is finished: what is closed, in which order, and with which reason, told
    by the fields of the frames alone. */
module CompatibleFinish {
  import opened Text
  import opened StringOrder
  import opened Stream
  import opened Compatible
  import opened CompatibleProofs
  import opened CompatibleTurn
  import opened CompatibleTexts
  import opened CompatibleCalls
  import Json

  // ---------- Reasons and flags over the wire ----------

  /** The reasons that providers name; any other is `Other`. */
  const REASONS: map<string, FinishReason> :=
    map["stop" := Stop, "length" := Length, "tool_calls" := ToolCalls, "function_call" := ToolCalls,
        "content_filter" := ContentFilter]

  function Reason(value: string): (r: FinishReason) {
    if value in REASONS then REASONS[value] else Other
  }

  /** The last reason that was named. */
  function LastReason(values: seq<string>): (r: Option<FinishReason>) {
    if values == [] then None
    else if values[|values| - 1] != "" then Some(Reason(values[|values| - 1]))
    else LastReason(values[..|values| - 1])
  }

  /** The last flag that was given, true when there was none. */
  function LastFlag(flags: seq<Option<bool>>): (r: bool) {
    if flags == [] then true
    else flags[|flags| - 1].GetOr(LastFlag(flags[..|flags| - 1]))
  }

  function ChoiceReasons(choices: seq<Choice>): (values: seq<string>) {
    if choices == [] then [] else [choices[0].finish] + ChoiceReasons(choices[1..])
  }

  function FrameReasons(frames: seq<Frame>): (values: seq<string>) {
    if frames == [] then [] else ChoiceReasons(ChoicesOf(frames[0])) + FrameReasons(frames[1..])
  }

  function UsageOf(f: Frame): (flag: Option<bool>) {
    if f.Chunk? && !f.failed then f.usage else None
  }

  function MetadataOf(f: Frame): (flag: Option<bool>) {
    if f.Chunk? && !f.failed then f.metadata else None
  }

  function Usages(frames: seq<Frame>): (flags: seq<Option<bool>>) {
    seq(|frames|, i requires 0 <= i < |frames| => UsageOf(frames[i]))
  }

  function Metadatas(frames: seq<Frame>): (flags: seq<Option<bool>>) {
    seq(|frames|, i requires 0 <= i < |frames| => MetadataOf(frames[i]))
  }

  // ---------- Reasons ----------

  /** The later of two reasons. */
  function Over(late: Option<FinishReason>, early: Option<FinishReason>): (r: Option<FinishReason>) {
    if late.Some? then late else early
  }

  lemma {:induction false} LastReasonAppend(a: seq<string>, b: seq<string>)
    ensures LastReason(a + b) == Over(LastReason(b), LastReason(a))
    decreases |b|
  {
    if b == [] {
      assert a + b == a;
    } else {
      assert (a + b)[..|a + b| - 1] == a + b[..|b| - 1];
      LastReasonAppend(a, b[..|b| - 1]);
    }
  }

  function OpReasons(ops: seq<Op>): (values: seq<string>) {
    if ops == [] then [] else (if ops[0].ReasonOp? then [ops[0].finish] else []) + OpReasons(ops[1..])
  }

  lemma {:induction false} OpReasonsAppend(a: seq<Op>, b: seq<Op>)
    ensures OpReasons(a + b) == OpReasons(a) + OpReasons(b)
    decreases |a|
  {
    if a == [] {
      assert a + b == b;
    } else {
      assert (a + b)[0] == a[0] && (a + b)[1..] == a[1..] + b;
      OpReasonsAppend(a[1..], b);
    }
  }

  lemma {:induction false} CallsNameNoReason(choice: string, calls: seq<CallDelta>)
    ensures OpReasons(CallOps(choice, calls)) == []
    decreases |calls|
  {
    if calls != [] {
      var op, rest := CallOp(choice + ":" + calls[0].index, calls[0]), CallOps(choice, calls[1..]);
      assert ([op] + rest)[1..] == rest;
      CallsNameNoReason(choice, calls[1..]);
    }
  }

  lemma ReasonOfChoice(c: Choice)
    ensures OpReasons(ChoiceOps(c)) == [c.finish]
  {
    var front, calls, reason := [TextOp(c.index, c.content), ReasoningOp(c.index, c.reasoning)],
      CallOps(c.index, c.calls),
      [ReasonOp(c.finish)];
    OpReasonsAppend(front + calls, reason);
    OpReasonsAppend(front, calls);
    CallsNameNoReason(c.index, c.calls);
    assert front[1..] == [front[1]] && [front[1]][1..] == [] && reason[1..] == [];
  }

  lemma {:induction false} ReasonsOfChoices(choices: seq<Choice>)
    ensures OpReasons(ChoicesOps(choices)) == ChoiceReasons(choices)
    decreases |choices|
  {
    if choices != [] {
      ReasonOfChoice(choices[0]);
      ReasonsOfChoices(choices[1..]);
      OpReasonsAppend(ChoiceOps(choices[0]), ChoicesOps(choices[1..]));
      hide OpReasons, ChoiceOps;
    }
  }

  lemma OneReason(value: string)
    ensures LastReason([value]) == if value == "" then None else Some(FinishReasonOf(value))
  {
    assert [value][..0] == [];
  }

  lemma {:induction false} OpsReason(b: Book, ops: seq<Op>)
    ensures var b1 := ApplyAll(b, ops).0;
      b1.reason == Over(LastReason(OpReasons(ops)), b.reason) && b1.usageEncodes == b.usageEncodes &&
      b1.metadataEncodes == b.metadataEncodes
    decreases |ops|
  {
    if ops != [] {
      var b1, rest := Apply(b, ops[0]).0, ops[1..];
      var own := if ops[0].ReasonOp? then [ops[0].finish] else [];
      if ops[0].ReasonOp? { OneReason(ops[0].finish); }
      assert b1.reason == Over(LastReason(own), b.reason);
      OpsReason(b1, rest);
      LastReasonAppend(own, OpReasons(rest));
      hide LastReason, Apply;
    }
  }

  lemma FrameReason(b: Book, f: Frame)
    requires Consistent(b) && Plain(f)
    ensures var b1 := FramePlan(b, f).book;
      b1.reason == Over(LastReason(ChoiceReasons(ChoicesOf(f))), b.reason) &&
      b1.usageEncodes == UsageOf(f).GetOr(b.usageEncodes) &&
        b1.metadataEncodes == MetadataOf(f).GetOr(b.metadataEncodes)
  {
    if f.Chunk? {
      assert !b.terminal;
      ChunkPlan(b, f);
      hide Consistent, ChoicesOps, ApplyAll, LastReason;
      OpsReason(ChunkBook(b, f), ChoicesOps(f.choices));
      ReasonsOfChoices(f.choices);
    }
  }

  lemma FlagSnoc(flags: seq<Option<bool>>, flag: Option<bool>)
    ensures LastFlag(flags + [flag]) == flag.GetOr(LastFlag(flags))
  {
    assert (flags + [flag])[..|flags|] == flags;
  }

  lemma {:induction false} FramesReason(frames: seq<Frame>)
    requires AllPlain(frames)
    ensures var b := FramesPlan(EMPTY_BOOK, frames).book;
      b.reason == LastReason(FrameReasons(frames)) && b.usageEncodes == LastFlag(Usages(frames)) &&
      b.metadataEncodes == LastFlag(Metadatas(frames))
    decreases |frames|
  {
    if frames == [] {
      NoFrames();
    } else {
      hide *;
      var n := |frames| - 1;
      var front, f := frames[..n], frames[n];
      assert frames == front + [f];
      PlainSnoc(front, f);
      PlainTurnStays(front);
      var p := FramesPlan(EMPTY_BOOK, front);
      OneFrame(p.book, f);
      FramesReason(front);
      FramesPlanAppend(EMPTY_BOOK, front, [f]);
      FrameReason(p.book, f);
      FrameReasonsSnoc(front, f);
      LastReasonAppend(FrameReasons(front), ChoiceReasons(ChoicesOf(f)));
      FlagsSnoc(front, f);
    }
  }

  lemma NoFrames()
    ensures var b := FramesPlan(EMPTY_BOOK, []).book;
      b.reason == LastReason(FrameReasons([])) && b.usageEncodes == LastFlag(Usages([])) &&
      b.metadataEncodes == LastFlag(Metadatas([]))
  {
  }

  lemma PlainSnoc(frames: seq<Frame>, f: Frame)
    requires AllPlain(frames + [f])
    ensures AllPlain(frames) && Plain(f)
  {
    hide Plain;
    assert forall g | g in frames :: g in frames + [f];
    assert f in frames + [f];
  }

  lemma FlagsSnoc(frames: seq<Frame>, f: Frame)
    ensures LastFlag(Usages(frames + [f])) == UsageOf(f).GetOr(LastFlag(Usages(frames)))
    ensures LastFlag(Metadatas(frames + [f])) == MetadataOf(f).GetOr(LastFlag(Metadatas(frames)))
  {
    assert Usages(frames + [f]) == Usages(frames) + [UsageOf(f)];
    assert Metadatas(frames + [f]) == Metadatas(frames) + [MetadataOf(f)];
    hide Usages, Metadatas, LastFlag;
    FlagSnoc(Usages(frames), UsageOf(f));
    FlagSnoc(Metadatas(frames), MetadataOf(f));
  }

  lemma OneFrame(b: Book, f: Frame)
    ensures FramesPlan(b, [f]) == FramePlan(b, f)
  {
    hide FramePlan;
    var p := FramePlan(b, f);
    assert [f][1..] == [] && p.events + [] == p.events;
  }

  lemma {:induction false} FrameReasonsSnoc(frames: seq<Frame>, f: Frame)
    ensures FrameReasons(frames + [f]) == FrameReasons(frames) + ChoiceReasons(ChoicesOf(f))
    decreases |frames|
  {
    if frames == [] {
      assert [] + [f] == [f] && [f][1..] == [];
      assert ChoiceReasons(ChoicesOf(f)) + [] == [] + ChoiceReasons(ChoicesOf(f));
    } else {
      assert (frames + [f])[0] == frames[0] && (frames + [f])[1..] == frames[1..] + [f];
      FrameReasonsSnoc(frames[1..], f);
    }
  }

  // ---------- Open blocks ----------

  function BlocksOf(channel: Channel, b: Book): (ids: set<string>) {
    match channel
    case TextChannel => b.text
    case ReasoningChannel => b.reasoning
  }

  lemma OpBlock(channel: Channel, b: Book, op: Op, index: string)
    ensures var id := Prefix(channel) + index;
      id in BlocksOf(channel, Apply(b, op).0) <==> id in BlocksOf(channel, b) || OpText(channel, op, index) != ""
  {
    match op {
      case TextOp(i, _) => PrefixInjective("text-", i, index);
      case ReasoningOp(i, _) => PrefixInjective("reasoning-", i, index);
      case CallOp(_, _) =>
      case ReasonOp(_) =>
    }
  }

  lemma NotEmpty(a: string, b: string)
    ensures a + b != "" <==> a != "" || b != ""
  {
    assert |a + b| == |a| + |b|;
  }

  lemma {:induction false} OpsBlock(channel: Channel, b: Book, ops: seq<Op>, index: string)
    ensures var id := Prefix(channel) + index;
      id in BlocksOf(channel, ApplyAll(b, ops).0) <==> id in BlocksOf(channel, b) || OpsText(channel, ops, index) != ""
    decreases |ops|
  {
    if ops != [] {
      OpBlock(channel, b, ops[0], index);
      OpsBlock(channel, Apply(b, ops[0]).0, ops[1..], index);
      NotEmpty(OpText(channel, ops[0], index), OpsText(channel, ops[1..], index));
      hide OpText, Apply, BlocksOf;
    }
  }

  lemma FrameBlock(channel: Channel, b: Book, f: Frame, index: string)
    requires Consistent(b) && Plain(f)
    ensures var id := Prefix(channel) + index;
      id in BlocksOf(channel, FramePlan(b, f).book) <==>
        id in BlocksOf(channel, b) || InChoices(channel, ChoicesOf(f), index) != ""
  {
    if f.Chunk? {
      assert !b.terminal;
      ChunkPlan(b, f);
      hide Consistent, ChoicesOps, ApplyAll;
      OpsBlock(channel, ChunkBook(b, f), ChoicesOps(f.choices), index);
      ChoicesSay(channel, f.choices, index);
    }
  }

  lemma {:induction false} FramesBlock(channel: Channel, b: Book, frames: seq<Frame>, index: string)
    requires Consistent(b) && AllPlain(frames)
    ensures var id := Prefix(channel) + index;
      id in BlocksOf(channel, FramesPlan(b, frames).book) <==>
        id in BlocksOf(channel, b) || InFrames(channel, frames, index) != ""
    decreases |frames|
  {
    if frames != [] {
      var p, rest := FramePlan(b, frames[0]), frames[1..];
      PlainFrameSimulates(b, INITIAL, frames[0]);
      FrameBlock(channel, b, frames[0], index);
      hide Consistent, FramePlan, InChoices, Simulates, Sim, BlocksOf, GoodIds;
      FramesBlock(channel, p.book, rest, index);
      NotEmpty(InChoices(channel, ChoicesOf(frames[0]), index), InFrames(channel, rest, index));
    }
  }

  /** The ids of the blocks for which a field came, in ascending order. */
  ghost predicate Spoken(channel: Channel, frames: seq<Frame>, ids: seq<string>) {
    Ascending(ids) &&
    forall id :: id in ids <==> exists i :: id == Prefix(channel) + i && InFrames(channel, frames, i) != ""
  }

  lemma BlocksAreSpoken(channel: Channel, frames: seq<Frame>)
    requires AllPlain(frames)
    ensures Spoken(channel, frames, Sorted(BlocksOf(channel, FramesPlan(EMPTY_BOOK, frames).book)))
  {
    PlainTurnStays(frames);
    StartSimulates();
    var b := FramesPlan(EMPTY_BOOK, frames).book;
    BlocksHaveIndexes(channel, b);
    NoBlocksYet(channel);
    SortedLists(BlocksOf(channel, b));
    hide *;
    var ids := Sorted(BlocksOf(channel, b));
    ListsMeans(ids, BlocksOf(channel, b));
    forall id ensures id in ids <==> exists i :: id == Prefix(channel) + i && InFrames(channel, frames, i) != "" {
      if id in ids {
        var i :| id == Prefix(channel) + i;
        FramesBlock(channel, EMPTY_BOOK, frames, i);
      }
      if i :| id == Prefix(channel) + i && InFrames(channel, frames, i) != "" {
        FramesBlock(channel, EMPTY_BOOK, frames, i);
      }
    }
    SpokenMeans(channel, frames, ids);
  }

  lemma ListsMeans(ids: seq<string>, keys: set<string>)
    requires Lists(ids, keys)
    ensures Ascending(ids) && forall id :: id in ids <==> id in keys
  {
    hide Ascending;
  }

  lemma SpokenMeans(channel: Channel, frames: seq<Frame>, ids: seq<string>)
    requires Ascending(ids)
    requires forall id :: id in ids <==> exists i :: id == Prefix(channel) + i && InFrames(channel, frames, i) != ""
    ensures Spoken(channel, frames, ids)
  {
    hide Ascending, InFrames, Prefix;
  }

  lemma BlocksHaveIndexes(channel: Channel, b: Book)
    requires Consistent(b)
    ensures forall id | id in BlocksOf(channel, b) :: exists i :: id == Prefix(channel) + i
  {
    forall id | id in BlocksOf(channel, b) ensures exists i :: id == Prefix(channel) + i {
      match channel {
        case TextChannel =>
          var i :| id == TextId(i);
          assert id == Prefix(channel) + i;
        case ReasoningChannel =>
          var i :| id == ReasoningId(i);
          assert id == Prefix(channel) + i;
      }
    }
  }

  lemma NoBlocksYet(channel: Channel)
    ensures BlocksOf(channel, EMPTY_BOOK) == {}
  {
  }

  // ---------- The end of a turn ----------

  function Endings(channel: Channel, ids: seq<string>): (events: seq<Event>) {
    seq(|ids|, i requires 0 <= i < |ids| =>
      if channel.TextChannel? then TextEnd(ids[i], true) else ReasoningEnd(ids[i], true))
  }

  /** The input that an argument text stands for; null when it is blank. */
  function Input(text: string): (input: Json.Value) {
    if Blank(text) then Json.Null
    else
      match Json.Decode(text)
      case Ok(v) => v
      case Err(_) => Json.Null
  }

  /** The end of each key's input, and its call. */
  function Calls(ds: seq<Fragment>, keys: seq<string>): (events: seq<Event>) {
    if keys == [] then []
    else
      var k := keys[0];
      [ToolInputEnd(IdOf(ds, k), NameOf(ds, k), true),
       ToolCall(IdOf(ds, k), NameOf(ds, k), Input(KeyArguments(ds, k)), true)] + Calls(ds, keys[1..])
  }

  /** The keys that fragments came for, in ascending order. */
  ghost predicate KeysOf(ds: seq<Fragment>, keys: seq<string>) {
    Ascending(keys) && forall k :: k in keys <==> IdOf(ds, k) != ""
  }

  lemma {:induction false} EndingsAre(channel: Channel, ids: seq<string>)
    ensures Ends(ids, channel.TextChannel?) == Endings(channel, ids)
    decreases |ids|
  {
    if ids != [] {
      EndingsAre(channel, ids[1..]);
      assert Endings(channel, ids) ==
        [if channel.TextChannel? then TextEnd(ids[0], true) else ReasoningEnd(ids[0], true)] +
        Endings(channel, ids[1..]);
    }
  }

  lemma InputIs(text: string)
    requires ArgumentsDecode(text)
    ensures Input(text) == ToolInput(text)
  {
    hide Blank, Json.Decode;
  }

  lemma {:induction false} CallsAre(b: Book, ds: seq<Fragment>, keys: seq<string>)
    requires Matches(b, ds) && forall k | k in keys :: k in b.tools && ToolReady(b.tools[k]) && !b.tools[k].called
    ensures CloseTools(b.tools, keys) == (Calls(ds, keys), false)
    decreases |keys|
  {
    hide ArgumentsDecode, ToolInput, Input, IdOf, NameOf, KeyArguments, InputFits;
    if keys != [] {
      var k, rest := keys[0], keys[1..];
      assert keys == [k] + rest && k in keys && forall j | j in rest :: j in keys;
      InputIs(b.tools[k].args);
      CallsAre(b, ds, rest);
    }
  }

  lemma ReadyMeansAll(b: Book)
    requires Ready(b) && Consistent(b)
    ensures forall k | k in b.tools :: ToolReady(b.tools[k]) && !b.tools[k].called
    ensures b.usageEncodes && b.metadataEncodes
  {
    hide GoodIds, ToolReady;
  }

  lemma FinishIs(b: Book, ds: seq<Fragment>, reason: FinishReason)
    requires Matches(b, ds) && Ready(b) && Consistent(b)
    ensures var texts, thoughts, keys := Sorted(b.text), Sorted(b.reasoning), Sorted(b.tools.Keys);
      FinishPlan(b, reason).events == Endings(TextChannel, texts) + Endings(ReasoningChannel, thoughts) +
      Calls(ds, keys) +
        [StepFinish(Finite(0.0), reason, true), Finish(reason, true)]
    ensures KeysOf(ds, Sorted(b.tools.Keys))
  {
    SortedLists(b.tools.Keys);
    hide *;
    var keys := Sorted(b.tools.Keys);
    ListsMeans(keys, b.tools.Keys);
    ReadyMeansAll(b);
    EndingsAre(TextChannel, Sorted(b.text));
    EndingsAre(ReasoningChannel, Sorted(b.reasoning));
    CallsAre(b, ds, keys);
    FinishUnfolds(b, reason, Calls(ds, keys));
    Associates(Endings(TextChannel, Sorted(b.text)) + Endings(ReasoningChannel, Sorted(b.reasoning)), Calls(ds, keys),
               [StepFinish(Finite(0.0), reason, true), Finish(reason, true)]);
    KeysMatch(b, ds, keys);
  }

  lemma FinishUnfolds(b: Book, reason: FinishReason, calls: seq<Event>)
    requires forall k | k in Sorted(b.tools.Keys) :: k in b.tools
    requires CloseTools(b.tools, Sorted(b.tools.Keys)) == (calls, false) && b.usageEncodes && b.metadataEncodes
    ensures FinishPlan(b, reason).events == Ends(Sorted(b.text), true) + Ends(Sorted(b.reasoning), false) +
      (calls + [StepFinish(Finite(0.0), reason, true), Finish(reason, true)])
  {
    hide CloseTools, Sorted, Ends, Called;
  }

  lemma KeysMatch(b: Book, ds: seq<Fragment>, keys: seq<string>)
    requires Matches(b, ds) && Ascending(keys) && forall k :: k in keys <==> k in b.tools.Keys
    ensures KeysOf(ds, keys)
  {
    hide Ascending, IdOf, NameOf, KeyArguments;
  }

  /** What a turn ends with. */
  ghost predicate ClosesWith(frames: seq<Frame>, events: seq<Event>, texts: seq<string>, thoughts: seq<string>,
                             keys: seq<string>) {
    var reason, ds := LastReason(FrameReasons(frames)).GetOr(Stop), FrameFragments(frames);
    Spoken(TextChannel, frames, texts) && Spoken(ReasoningChannel, frames, thoughts) && KeysOf(ds, keys) &&
    events == Endings(TextChannel, texts) + Endings(ReasoningChannel, thoughts) + Calls(ds, keys) +
      [StepFinish(Finite(0.0), reason, true), Finish(reason, true)]
  }

  /** A turn that a done marker completes: the last usage and metadata encode, and after the events of its chunks
      come, in this order, the ends of the text blocks by id, those of the reasoning blocks by id, for each key the
      end of its input and its call with the decoded arguments, and the finish with the last reason named. */
  lemma DoneClosesEverything(frames: seq<Frame>) returns (texts: seq<string>, thoughts: seq<string>, keys: seq<string>)
    requires Completes(frames) && frames[PlainLength(frames)].DoneFrame?
    ensures var front := frames[..PlainLength(frames)];
      var sent, all := FramesPlan(EMPTY_BOOK, front).events, FramesPlan(EMPTY_BOOK, frames).events;
      sent <= all && ClosesWith(front, all[|sent|..], texts, thoughts, keys) &&
      LastFlag(Usages(front)) && LastFlag(Metadatas(front))
  {
    hide *;
    var n := PlainLength(frames);
    var front, back := frames[..n], frames[n..];
    CompletesMeans(frames);
    DoneIsReady(PlainBook(frames), frames[n]);
    PlainTurnStays(front);
    var p, ds := FramesPlan(EMPTY_BOOK, front), FrameFragments(front);
    var b := p.book;
    FramesReason(front);
    ReadyMeansAll(b);
    BlocksAreSpoken(TextChannel, front);
    BlocksAreSpoken(ReasoningChannel, front);
    BlocksOfIs(b);
    texts, thoughts, keys := Sorted(b.text), Sorted(b.reasoning), Sorted(b.tools.Keys);
    MatchesFront(front);
    var reason := b.reason.GetOr(Stop);
    FinishIs(b, ds, reason);
    DonePlan(b, frames[n]);
    LastFrameIsLast(frames, n, b);
    FramesPlanAppend(EMPTY_BOOK, front, back);
    assert frames == front + back;
    assert (p.events + FinishPlan(b, reason).events)[|p.events|..] == FinishPlan(b, reason).events;
    ClosesMeans(front, FinishPlan(b, reason).events, texts, thoughts, keys);
  }

  lemma DoneIsReady(b: Book, f: Frame)
    requires f.DoneFrame? && EndsWell(b, f)
    ensures Ready(b)
  {
    hide Ready;
  }

  lemma BlocksOfIs(b: Book)
    ensures BlocksOf(TextChannel, b) == b.text && BlocksOf(ReasoningChannel, b) == b.reasoning
  {
  }

  lemma MatchesFront(front: seq<Frame>)
    requires AllPlain(front)
    ensures Matches(FramesPlan(EMPTY_BOOK, front).book, FrameFragments(front))
  {
    hide *;
    StartSimulates();
    NothingYet();
    FramesStep(EMPTY_BOOK, [], front, [], "");
    assert [] + FrameFragments(front) == FrameFragments(front);
  }

  lemma DonePlan(b: Book, f: Frame)
    requires f.DoneFrame? && Consistent(b)
    ensures FramePlan(b, f) == FinishPlan(b, b.reason.GetOr(Stop))
  {
    hide FinishPlan;
  }

  lemma ClosesMeans(frames: seq<Frame>, events: seq<Event>, texts: seq<string>, thoughts: seq<string>,
    keys: seq<string>)
    requires var reason, ds := LastReason(FrameReasons(frames)).GetOr(Stop), FrameFragments(frames);
      Spoken(TextChannel, frames, texts) && Spoken(ReasoningChannel, frames, thoughts) && KeysOf(ds, keys) &&
      events == Endings(TextChannel, texts) + Endings(ReasoningChannel, thoughts) + Calls(ds, keys) +
        [StepFinish(Finite(0.0), reason, true), Finish(reason, true)]
    ensures ClosesWith(frames, events, texts, thoughts, keys)
  {
    hide Spoken, KeysOf, Endings, Calls, LastReason, FrameReasons, FrameFragments;
  }

  /** An error chunk ends the stream with one event of its own, whatever choices it carries and whatever follows. */
  lemma ErrorEndsTheStream(frames: seq<Frame>)
    requires PlainLength(frames) < |frames| && frames[PlainLength(frames)].Chunk?
    ensures var front := frames[..PlainLength(frames)];
      FramesPlan(EMPTY_BOOK, frames).events == FramesPlan(EMPTY_BOOK, front).events + [ProviderError(true)]
  {
    hide *;
    var n := PlainLength(frames);
    var front, back := frames[..n], frames[n..];
    PlainTurnStays(front);
    var b := FramesPlan(EMPTY_BOOK, front).book;
    ErrorPlan(b, frames[n]);
    var first := FramePlan(b, frames[n]);
    CompatibleTurn.AfterTerminal(first.book, back[1..]);
    ErrorThen(b, back);
    FramesPlanAppend(EMPTY_BOOK, front, back);
    assert frames == front + back;
  }

  lemma ErrorPlan(b: Book, f: Frame)
    requires f.Chunk? && !Plain(f) && Consistent(b)
    ensures var p := FramePlan(b, f); p.events == [ProviderError(true)] && !p.failed && p.book.terminal
  {
  }

  lemma ErrorThen(b: Book, back: seq<Frame>)
    requires back != [] && !FramePlan(b, back[0]).failed
    ensures FramesPlan(b, back).events ==
      FramePlan(b, back[0]).events + FramesPlan(FramePlan(b, back[0]).book, back[1..]).events
  {
    hide FramePlan;
  }
}
