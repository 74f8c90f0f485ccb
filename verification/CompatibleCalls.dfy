/** Which tool call the fragments of a turn belong to, and how the turn is finished, told by the fields of the
    frames alone. */
module CompatibleCalls {
  import opened Text
  import opened Stream
  import opened Compatible
  import opened CompatibleProofs
  import opened CompatibleTurn
  import opened CompatibleTexts

  // ---------- Fragments over the wire ----------

  /** A call fragment under its key: the index of its choice and its own. */
  datatype Fragment = Fragment(key: string, call: CallDelta)

  function CallFragments(choice: string, calls: seq<CallDelta>): (ds: seq<Fragment>) {
    if calls == [] then [] else [Fragment(choice + ":" + calls[0].index, calls[0])] + CallFragments(choice, calls[1..])
  }

  function ChoiceFragments(choices: seq<Choice>): (ds: seq<Fragment>) {
    if choices == [] then []
    else CallFragments(choices[0].index, choices[0].calls) + ChoiceFragments(choices[1..])
  }

  function FrameFragments(frames: seq<Frame>): (ds: seq<Fragment>) {
    if frames == [] then [] else ChoiceFragments(ChoicesOf(frames[0])) + FrameFragments(frames[1..])
  }

  /** The identity of a key: the id of its first fragment, or one made from the key; "" before any. */
  function IdOf(ds: seq<Fragment>, key: string): (id: string) {
    if ds == [] then ""
    else
      var id, last := IdOf(ds[..|ds| - 1], key), ds[|ds| - 1];
      if id != "" || last.key != key then id else if last.call.id == "" then "tool-" + key else last.call.id
  }

  /** The name of a key: the first that one of its fragments brings; "" before. */
  function NameOf(ds: seq<Fragment>, key: string): (name: string) {
    if ds == [] then ""
    else
      var name, last := NameOf(ds[..|ds| - 1], key), ds[|ds| - 1];
      if name != "" || last.key != key then name else last.call.name
  }

  /** The argument texts of the fragments of an id, each from when its key has a name. */
  function Arguments(ds: seq<Fragment>, id: string): (t: string) {
    if ds == [] then ""
    else
      var last := ds[|ds| - 1];
      Arguments(ds[..|ds| - 1], id) +
      if NameOf(ds, last.key) != "" && IdOf(ds, last.key) == id then last.call.arguments else ""
  }

  /** The argument texts of one key. */
  function KeyArguments(ds: seq<Fragment>, key: string): (t: string) {
    if ds == [] then ""
    else
      var last := ds[|ds| - 1];
      KeyArguments(ds[..|ds| - 1], key) + if last.key == key && NameOf(ds, key) != "" then last.call.arguments else ""
  }

  lemma Snoc(ds: seq<Fragment>, d: Fragment, key: string, id: string)
    ensures var longer := ds + [d];
      IdOf(longer, key) == (if IdOf(ds, key) != "" || d.key != key then IdOf(ds, key)
                            else if d.call.id == "" then "tool-" + key else d.call.id) &&
      NameOf(longer, key) == (if NameOf(ds, key) != "" || d.key != key then NameOf(ds, key) else d.call.name) &&
      Arguments(longer, id) == Arguments(ds, id) +
        (if NameOf(longer, d.key) != "" && IdOf(longer, d.key) == id then d.call.arguments else "") &&
      KeyArguments(longer, key) == KeyArguments(ds, key) +
        (if d.key == key && NameOf(longer, key) != "" then d.call.arguments else "")
  {
    assert (ds + [d])[..|ds|] == ds;
  }

  // ---------- Fragments and bookkeeping ----------

  /** The tools of the bookkeeping are those of the fragments. */
  ghost predicate Matches(b: Book, ds: seq<Fragment>) {
    forall k ::
      (k in b.tools <==> IdOf(ds, k) != "") &&
      (k in b.tools ==>
         b.tools[k].id == IdOf(ds, k) && b.tools[k].name == NameOf(ds, k) &&
         (b.tools[k].started <==> NameOf(ds, k) != "") && b.tools[k].args == KeyArguments(ds, k))
  }

  /** A key with an identity and a name. */
  predicate Named(ds: seq<Fragment>, key: string, id: string, name: string) {
    name != "" && NameOf(ds, key) == name && IdOf(ds, key) == id
  }

  /** The inputs started so far are those of the named keys. */
  ghost predicate StartsMatch(ds: seq<Fragment>, sent: seq<Event>) {
    forall id, name :: ToolInputStart(id, name, true) in sent <==> exists k :: Named(ds, k, id, name)
  }

  lemma CallStep(b: Book, ds: seq<Fragment>, d: Fragment, id: string)
    requires Matches(b, ds)
    ensures var (b1, events) := Apply(b, CallOp(d.key, d.call));
      Matches(b1, ds + [d]) && Arguments(ds + [d], id) == Arguments(ds, id) + DeltaText(events, id)
  {
    hide DeltaText, IdOf, NameOf, Arguments, KeyArguments;
    var t := NamedTool(b, d.key, d.call);
    var b1 := Apply(b, CallOp(d.key, d.call)).0;
    CallStreams(t, d.call.arguments, id);
    Snoc(ds, d, d.key, id);
    NoNameBeforeId(ds, d.key);
    forall k ensures
      (k in b1.tools <==> IdOf(ds + [d], k) != "") &&
      (k in b1.tools ==>
         b1.tools[k].id == IdOf(ds + [d], k) && b1.tools[k].name == NameOf(ds + [d], k) &&
         (b1.tools[k].started <==> NameOf(ds + [d], k) != "") && b1.tools[k].args == KeyArguments(ds + [d], k))
    {
      Snoc(ds, d, k, id);
      assert KeyArguments(ds, k) + "" == KeyArguments(ds, k);
    }
  }

  lemma {:induction false} NoNameBeforeId(ds: seq<Fragment>, key: string)
    ensures IdOf(ds, key) == "" ==> NameOf(ds, key) == ""
    ensures NameOf(ds, key) == "" ==> KeyArguments(ds, key) == ""
  {
    if ds != [] {
      NoNameBeforeId(ds[..|ds| - 1], key);
      assert "" + "" == "";
    }
  }

  lemma CallStarts(b: Book, ds: seq<Fragment>, d: Fragment, sent: seq<Event>)
    requires Matches(b, ds) && StartsMatch(ds, sent)
    ensures StartsMatch(ds + [d], sent + Apply(b, CallOp(d.key, d.call)).1)
  {
    hide IdOf, NameOf, Arguments, KeyArguments;
    var events, longer := Apply(b, CallOp(d.key, d.call)).1, ds + [d];
    Snoc(ds, d, d.key, "");
    NoNameBeforeId(ds, d.key);
    var id1, name1 := IdOf(longer, d.key), NameOf(longer, d.key);
    assert forall e | e in events && e.ToolInputStart? ::
      e == ToolInputStart(id1, name1, true) && name1 != "" && NameOf(ds, d.key) == "";
    assert name1 != "" && NameOf(ds, d.key) == "" ==> events[0] == ToolInputStart(id1, name1, true);
    forall id, name
      ensures ToolInputStart(id, name, true) in sent + events <==> exists k :: Named(longer, k, id, name)
    {
      var e := ToolInputStart(id, name, true);
      if e in sent {
        var k :| Named(ds, k, id, name);
        NoNameBeforeId(ds, k);
        Snoc(ds, d, k, "");
        assert Named(longer, k, id, name);
      } else if e in events {
        assert Named(longer, d.key, id, name);
      }
      if k :| Named(longer, k, id, name) {
        Snoc(ds, d, k, "");
        if NameOf(ds, k) != "" {
          NoNameBeforeId(ds, k);
          assert Named(ds, k, id, name);
        }
      }
    }
  }

  // ---------- Whole turns ----------

  function OpFragments(ops: seq<Op>): (ds: seq<Fragment>) {
    if ops == [] then []
    else (if ops[0].CallOp? then [Fragment(ops[0].key, ops[0].call)] else []) + OpFragments(ops[1..])
  }

  lemma {:induction false} OpFragmentsAppend(a: seq<Op>, b: seq<Op>)
    ensures OpFragments(a + b) == OpFragments(a) + OpFragments(b)
    decreases |a|
  {
    if a == [] {
      assert a + b == b;
    } else {
      assert (a + b)[0] == a[0] && (a + b)[1..] == a[1..] + b;
      OpFragmentsAppend(a[1..], b);
    }
  }

  lemma {:induction false} FragmentsOfCalls(choice: string, calls: seq<CallDelta>)
    ensures OpFragments(CallOps(choice, calls)) == CallFragments(choice, calls)
    decreases |calls|
  {
    if calls != [] {
      var op, rest := CallOp(choice + ":" + calls[0].index, calls[0]), CallOps(choice, calls[1..]);
      assert ([op] + rest)[1..] == rest;
      FragmentsOfCalls(choice, calls[1..]);
    }
  }

  lemma FragmentsOfChoice(c: Choice)
    ensures OpFragments(ChoiceOps(c)) == CallFragments(c.index, c.calls)
  {
    var front, calls, reason := [TextOp(c.index, c.content), ReasoningOp(c.index, c.reasoning)],
      CallOps(c.index, c.calls),
      [ReasonOp(c.finish)];
    OpFragmentsAppend(front + calls, reason);
    OpFragmentsAppend(front, calls);
    FragmentsOfCalls(c.index, c.calls);
    assert front[1..] == [front[1]] && [front[1]][1..] == [] && reason[1..] == [];
  }

  lemma {:induction false} FragmentsOfChoices(choices: seq<Choice>)
    ensures OpFragments(ChoicesOps(choices)) == ChoiceFragments(choices)
    decreases |choices|
  {
    if choices != [] {
      FragmentsOfChoice(choices[0]);
      FragmentsOfChoices(choices[1..]);
      OpFragmentsAppend(ChoiceOps(choices[0]), ChoicesOps(choices[1..]));
      hide OpFragments, ChoiceOps, CallFragments;
    }
  }

  /** One step of any kind. */
  lemma OpStep(b: Book, ds: seq<Fragment>, op: Op, sent: seq<Event>, id: string)
    requires Matches(b, ds) && StartsMatch(ds, sent)
    ensures var (b1, events) := Apply(b, op);
      var longer := ds + OpFragments([op]);
      Matches(b1, longer) && StartsMatch(longer, sent + events) &&
      Arguments(longer, id) == Arguments(ds, id) + DeltaText(events, id)
  {
    assert [op][1..] == [];
    hide IdOf, NameOf, Arguments, KeyArguments;
    if op.CallOp? {
      var d := Fragment(op.key, op.call);
      assert OpFragments([op]) == [d];
      CallStep(b, ds, d, id);
      CallStarts(b, ds, d, sent);
    } else {
      var (b1, events) := Apply(b, op);
      assert ds + [] == ds && b1.tools == b.tools && forall e | e in events :: !e.ToolInputDelta? && !e.ToolInputStart?;
      NoDeltas(events, id);
      assert Arguments(ds, id) + "" == Arguments(ds, id);
    }
  }

  lemma {:induction false} OpsStep(b: Book, ds: seq<Fragment>, ops: seq<Op>, sent: seq<Event>, id: string)
    requires Matches(b, ds) && StartsMatch(ds, sent)
    ensures var (b1, events) := ApplyAll(b, ops);
      var longer := ds + OpFragments(ops);
      Matches(b1, longer) && StartsMatch(longer, sent + events) &&
      Arguments(longer, id) == Arguments(ds, id) + DeltaText(events, id)
    decreases |ops|
  {
    hide Matches, StartsMatch, Apply, Arguments;
    if ops == [] {
      assert ds + [] == ds && sent + [] == sent && Arguments(ds, id) + "" == Arguments(ds, id);
    } else {
      hide *;
      var (b1, first) := Apply(b, ops[0]);
      var rest := ops[1..];
      var d, later := OpFragments([ops[0]]), ApplyAll(b1, rest).1;
      OpStep(b, ds, ops[0], sent, id);
      OpsHead(b, ops);
      OpsStep(b1, ds + d, rest, sent + first, id);
      DeltaTextAppend(first, later, id);
      Associates(ds, d, OpFragments(rest));
      Associates(sent, first, later);
      Associates(Arguments(ds, id), DeltaText(first, id), DeltaText(later, id));
    }
  }

  lemma OpsHead(b: Book, ops: seq<Op>)
    requires ops != []
    ensures var (b1, first) := Apply(b, ops[0]);
      ApplyAll(b, ops) == (ApplyAll(b1, ops[1..]).0, first + ApplyAll(b1, ops[1..]).1)
    ensures OpFragments(ops) == OpFragments([ops[0]]) + OpFragments(ops[1..])
  {
    assert ops == [ops[0]] + ops[1..];
    OpFragmentsAppend([ops[0]], ops[1..]);
    hide Apply, OpFragments;
  }

  lemma Associates<T>(a: seq<T>, b: seq<T>, c: seq<T>)
    ensures a + (b + c) == a + b + c
  {
  }

  lemma FrameStep(b: Book, ds: seq<Fragment>, f: Frame, sent: seq<Event>, id: string)
    requires Consistent(b) && Plain(f) && Matches(b, ds) && StartsMatch(ds, sent)
    ensures var p := FramePlan(b, f);
      var longer := ds + ChoiceFragments(ChoicesOf(f));
      Matches(p.book, longer) && StartsMatch(longer, sent + p.events) &&
      Arguments(longer, id) == Arguments(ds, id) + DeltaText(p.events, id)
  {
    if f.Chunk? {
      assert !b.terminal;
      ChunkPlan(b, f);
      var b1 := ChunkBook(b, f);
      assert Matches(b1, ds);
      hide Consistent, Matches, StartsMatch, Arguments, ChoicesOps, ApplyAll;
      OpsStep(b1, ds, ChoicesOps(f.choices), sent, id);
      FragmentsOfChoices(f.choices);
    } else {
      assert ds + [] == ds && sent + [] == sent && Arguments(ds, id) + "" == Arguments(ds, id);
    }
  }

  lemma {:induction false} FramesStep(b: Book, ds: seq<Fragment>, frames: seq<Frame>, sent: seq<Event>, id: string)
    requires Consistent(b) && AllPlain(frames) && Matches(b, ds) && StartsMatch(ds, sent)
    ensures var p := FramesPlan(b, frames);
      var longer := ds + FrameFragments(frames);
      Matches(p.book, longer) && StartsMatch(longer, sent + p.events) &&
      Arguments(longer, id) == Arguments(ds, id) + DeltaText(p.events, id)
    decreases |frames|
  {
    hide Consistent, Matches, StartsMatch, Arguments, FramePlan, Simulates, Sim, GoodIds;
    if frames == [] {
      assert ds + [] == ds && sent + [] == sent && Arguments(ds, id) + "" == Arguments(ds, id);
    } else {
      var p, rest := FramePlan(b, frames[0]), frames[1..];
      var first := ChoiceFragments(ChoicesOf(frames[0]));
      PlainFrameSimulates(b, INITIAL, frames[0]);
      FrameStep(b, ds, frames[0], sent, id);
      FramesStep(p.book, ds + first, rest, sent + p.events, id);
      var later := FramesPlan(p.book, rest).events;
      DeltaTextAppend(p.events, later, id);
      Associates(ds, first, FrameFragments(rest));
      Associates(sent, p.events, later);
      Associates(Arguments(ds, id), DeltaText(p.events, id), DeltaText(later, id));
    }
  }

  lemma NothingYet()
    ensures Matches(EMPTY_BOOK, []) && StartsMatch([], []) && forall id :: Arguments([], id) == ""
  {
  }

  lemma TailStartsNothing(frames: seq<Frame>, n: nat, b: Book, id: string)
    requires n < |frames| && Consistent(b) && !Plain(frames[n])
    ensures var events := FramesPlan(b, frames[n..]).events;
      DeltaText(events, id) == "" && forall e | e in events :: !e.ToolInputStart?
  {
    var first := FramePlan(b, frames[n]);
    assert frames[n..][0] == frames[n] && frames[n..][1..] == frames[n + 1..];
    LastFrame(b, INITIAL, frames[n]);
    FinalEventsAreSilent(b, frames[n]);
    hide FramePlan, Consistent, EndsWell;
    NoDeltas(first.events, id);
    if !first.failed {
      CompatibleTurn.AfterTerminal(first.book, frames[n + 1..]);
      assert first.events + [] == first.events;
    }
  }

  /** For every list of frames: the argument deltas under an id put together are the arguments of the fragments
      whose key has that identity, in order, each from when its key has a name; and an input is started for
      exactly the keys that got a name, under their identity and that name. */
  lemma FragmentsReachTheirCalls(frames: seq<Frame>, id: string)
    ensures var events := FramesPlan(EMPTY_BOOK, frames).events;
      var ds := FrameFragments(frames[..PlainLength(frames)]);
      DeltaText(events, id) == Arguments(ds, id) && StartsMatch(ds, events)
  {
    hide *;
    var n := PlainLength(frames);
    var front, back := frames[..n], frames[n..];
    StartSimulates();
    NothingYet();
    FramesStep(EMPTY_BOOK, [], front, [], id);
    PlainTurnStays(front);
    var p, ds := FramesPlan(EMPTY_BOOK, front), FrameFragments(front);
    assert frames == front + back && [] + ds == ds && [] + p.events == p.events;
    FramesPlanAppend(EMPTY_BOOK, front, back);
    var later := FramesPlan(p.book, back).events;
    if n < |frames| {
      TailStartsNothing(frames, n, p.book, id);
    } else {
      Nothing(p.book, INITIAL);
      NoDeltas([], id);
    }
    DeltaTextAppend(p.events, later, id);
    StartsStay(ds, p.events, later);
  }

  lemma StartsStay(ds: seq<Fragment>, sent: seq<Event>, later: seq<Event>)
    requires StartsMatch(ds, sent) && forall e | e in later :: !e.ToolInputStart?
    ensures StartsMatch(ds, sent + later)
  {
    hide Named;
  }
}
