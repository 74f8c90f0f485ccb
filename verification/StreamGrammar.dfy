/** The language the stream validator accepts, said without its state machine. */
module StreamGrammar {
  import opened Text
  import opened Stream

  predicate Terminal(e: Event) {
    e.Finish? || e.ProviderError?
  }

  predicate IsBlockEvent(e: Event) {
    !(e.StepStart? || e.StepFinish? || e.Finish? || e.ProviderError? || e.Unknown? || e.Nil?)
  }

  predicate OnBlock(e: Event, id: string) {
    IsBlockEvent(e) && e.id == id
  }

  /** What an event needs on its own, before ordering. */
  predicate WellFormed(e: Event) {
    Encodable(e) && LocallyWellFormed(e)
  }

  /** Identities and step indexes. */
  predicate LocallyWellFormed(e: Event) {
    !e.Unknown? &&
    (e.TextStart? || e.ReasoningStart? ==> Identity(e.id)) &&
    (e.ToolInputStart? || e.ToolCall? ==> Identity(e.id) && !Blank(e.name)) &&
    (e.ToolResult? || e.ToolError? ==> !Blank(e.id) && !Blank(e.name)) &&
    (e.StepStart? || e.StepFinish? ==> ValidIndex(e.index))
  }

  /** The events about one block id, in order. */
  function Projection(events: seq<Event>, id: string): (w: seq<Event>) {
    if events == [] then []
    else
      var last := events[|events| - 1];
      Projection(events[..|events| - 1], id) + if OnBlock(last, id) then [last] else []
  }

  function Steps(events: seq<Event>): (w: seq<Event>) {
    if events == [] then []
    else
      var last := events[|events| - 1];
      Steps(events[..|events| - 1]) + if last.StepStart? || last.StepFinish? then [last] else []
  }

  predicate IsStart(e: Event) {
    e.TextStart? || e.ReasoningStart? || e.ToolInputStart?
  }

  predicate DeltaOf(e: Event, start: Event) {
    (start.TextStart? && e.TextDelta?) || (start.ReasoningStart? && e.ReasoningDelta?) ||
    (start.ToolInputStart? && e.ToolInputDelta? && e.name == start.name)
  }

  predicate EndOf(e: Event, start: Event) {
    (start.TextStart? && e.TextEnd?) || (start.ReasoningStart? && e.ReasoningEnd?) ||
    (start.ToolInputStart? && e.ToolInputEnd? && (e.name == "" || e.name == start.name))
  }

  predicate CallOf(e: Event, start: Event) {
    start.ToolInputStart? && e.ToolCall? && e.name == start.name
  }

  predicate OutcomeOf(e: Event, name: string) {
    (e.ToolResult? || e.ToolError?) && e.name == name
  }

  /** What may follow the deltas of a block: its end, then for a tool its call and one outcome. */
  predicate Closing(w: seq<Event>, start: Event) {
    |w| <= 3 &&
    (|w| >= 1 ==> EndOf(w[0], start)) &&
    (|w| >= 2 ==> CallOf(w[1], start)) &&
    (|w| == 3 ==> OutcomeOf(w[2], start.name))
  }

  /** `w` is `Start Delta*` up to position `d`, and closes from there. */
  ghost predicate Shape(w: seq<Event>, d: nat) {
    1 <= d <= |w| && IsStart(w[0]) && (forall i | 1 <= i < d :: DeltaOf(w[i], w[0])) && Closing(w[d..], w[0])
  }

  predicate BareCall(w: seq<Event>) {
    1 <= |w| <= 2 && w[0].ToolCall? && (|w| == 2 ==> OutcomeOf(w[1], w[0].name))
  }

  /** The words one block id may spell. */
  ghost predicate BlockWord(w: seq<Event>) {
    w == [] || BareCall(w) || exists d :: Shape(w, d)
  }

  ghost predicate Unclosed(w: seq<Event>) {
    w != [] && IsStart(w[0]) && forall e | e in w :: !EndOf(e, w[0])
  }

  function IndexOf(e: Event): (index: Float64) {
    if e.StepStart? || e.StepFinish? then e.index else NaN
  }

  /** Even letters start a step; each odd letter finishes it under the same index. */
  predicate StepLetter(w: seq<Event>, i: nat)
    requires i < |w|
  {
    if i % 2 == 0 then w[i].StepStart? else w[i].StepFinish? && IndexOf(w[i]) == IndexOf(w[i - 1])
  }

  predicate StepWord(w: seq<Event>) {
    forall i | 0 <= i < |w| :: StepLetter(w, i)
  }

  ghost predicate SpellsWord(events: seq<Event>, id: string) {
    BlockWord(Projection(events, id))
  }

  ghost predicate LeavesOpen(events: seq<Event>, id: string) {
    Unclosed(Projection(events, id))
  }

  /** Where a step or the stream finishes, no block is open; the stream finishes between steps. */
  ghost predicate FinishesClosed(events: seq<Event>, i: nat)
    requires i < |events|
  {
    (events[i].Finish? ==> |Steps(events[..i])| % 2 == 0) &&
    (events[i].Finish? || events[i].StepFinish? ==> forall id :: !LeavesOpen(events[..i], id))
  }

  /** An accepted stream up to some point: everything but the demand for a terminal event. */
  ghost predicate Prefix(events: seq<Event>) {
    (forall i | 0 <= i < |events| :: WellFormed(events[i])) &&
    (forall i | 0 <= i < |events| - 1 :: !Terminal(events[i])) &&
    (forall id :: SpellsWord(events, id)) &&
    StepWord(Steps(events)) &&
    (forall i | 0 <= i < |events| :: FinishesClosed(events, i))
  }

  ghost predicate Grammar(events: seq<Event>) {
    events != [] && Terminal(events[|events| - 1]) && Prefix(events)
  }

  // ---------- One block ----------

  function KindOf(start: Event): (k: BlockKind) {
    if start.TextStart? then TextBlock
    else if start.ReasoningStart? then ReasoningBlock
    else if start.ToolInputStart? then ToolInputBlock
    else ToolCallBlock
  }

  function NameOf(start: Event): (name: string) {
    if start.ToolInputStart? || start.ToolCall? then start.name else ""
  }

  /** The block record that a word stands for. */
  ghost function BlockOf(w: seq<Event>): (b: Block)
    requires w != []
  {
    Block(KindOf(w[0]), NameOf(w[0]),
          w[0].ToolCall? || exists e :: e in w && EndOf(e, w[0]),
          exists e :: e in w && e.ToolCall?,
          exists e :: e in w && (e.ToolResult? || e.ToolError?))
  }

  ghost predicate BlockTracked(events: seq<Event>, s: State, id: string) {
    var w := Projection(events, id);
    (id in s.blocks <==> w != []) && (w != [] ==> s.blocks[id] == BlockOf(w))
  }

  ghost predicate StepTracked(events: seq<Event>, s: State) {
    var w := Steps(events);
    (s.stepActive <==> |w| % 2 == 1) && (w != [] ==> s.stepIndex == IndexOf(w[(|w| - 1) / 2 * 2]))
  }

  /** The validator state that a prefix stands for. */
  ghost predicate Tracks(events: seq<Event>, s: State) {
    (forall id :: BlockTracked(events, s, id)) && StepTracked(events, s) &&
    (s.terminal <==> events != [] && Terminal(events[|events| - 1]))
  }

  /** The block part of the validator, for the word spelled so far and one more event about it. */
  ghost predicate BlockAccepts(w: seq<Event>, e: Event) {
    if IsStart(e) then w == []
    else if e.ToolCall? then
      w == [] || (var b := BlockOf(w); b.kind.ToolInputBlock? && b.closed && !b.called && b.name == e.name)
    else if e.ToolResult? || e.ToolError? then
      w != [] && (var b := BlockOf(w); b.called && !b.terminal && b.name == e.name)
    else if e.TextDelta? then w != [] && BlockOf(w).kind.TextBlock? && !BlockOf(w).closed
    else if e.ReasoningDelta? then w != [] && BlockOf(w).kind.ReasoningBlock? && !BlockOf(w).closed
    else if e.ToolInputDelta? then
      w != [] && BlockOf(w).kind.ToolInputBlock? && !BlockOf(w).closed && BlockOf(w).name == e.name
    else if e.TextEnd? then w != [] && BlockOf(w).kind.TextBlock? && !BlockOf(w).closed
    else if e.ReasoningEnd? then w != [] && BlockOf(w).kind.ReasoningBlock? && !BlockOf(w).closed
    else
      e.ToolInputEnd? && w != [] && BlockOf(w).kind.ToolInputBlock? && !BlockOf(w).closed &&
      (e.name != "" ==> BlockOf(w).name == e.name)
  }

  /** The flags of a block, read off its shape. */
  lemma ShapeFlags(w: seq<Event>, d: nat)
    requires Shape(w, d)
    ensures BlockOf(w).closed <==> d < |w|
    ensures BlockOf(w).called <==> d + 1 < |w|
    ensures BlockOf(w).terminal <==> d + 2 < |w|
    ensures !BareCall(w)
  {
    var c := w[d..];
    assert forall i | 0 <= i < |c| :: c[i] == w[d + i];
    if d < |w| { assert w[d] in w && EndOf(w[d], w[0]); }
    if d + 1 < |w| { assert w[d + 1] in w && CallOf(w[d + 1], w[0]); }
    if d + 2 < |w| { assert w[d + 2] in w && OutcomeOf(w[d + 2], w[0].name); }
    forall e | e in w ensures EndOf(e, w[0]) ==> d < |w|
      ensures e.ToolCall? ==> d + 1 < |w|
      ensures e.ToolResult? || e.ToolError? ==> d + 2 < |w|
    {
      var i :| 0 <= i < |w| && w[i] == e;
      if i >= d { assert c[i - d] == e; }
    }
  }

  lemma BareCallFlags(w: seq<Event>)
    requires BareCall(w)
    ensures BlockOf(w).closed && BlockOf(w).called && BlockOf(w).kind.ToolCallBlock?
    ensures BlockOf(w).terminal <==> |w| == 2
  {
    assert w[0] in w;
    if |w| == 2 { assert w[1] in w; }
  }

  /** One event extends a block word exactly when the validator's block test passes. */
  lemma WordStep(w: seq<Event>, e: Event, id: string)
    requires BlockWord(w) && OnBlock(e, id)
    ensures BlockWord(w + [e]) <==> BlockAccepts(w, e)
  {
    if w == [] {
      FirstEvent(e, id);
    } else if BareCall(w) {
      AfterBareCall(w, e);
    } else {
      var d :| Shape(w, d);
      AfterStart(w, d, e, id);
    }
  }

  lemma FirstEvent(e: Event, id: string)
    requires OnBlock(e, id)
    ensures BlockWord([] + [e]) <==> BlockAccepts([], e)
  {
    var v := [] + [e];
    assert v == [e];
    if IsStart(e) { assert Shape(v, 1); }
  }

  lemma AfterBareCall(w: seq<Event>, e: Event)
    requires BareCall(w)
    ensures BlockWord(w + [e]) <==> BlockAccepts(w, e)
  {
    BareCallFlags(w);
    assert (w + [e])[0] == w[0];
  }

  lemma AfterStart(w: seq<Event>, d: nat, e: Event, id: string)
    requires Shape(w, d) && OnBlock(e, id)
    ensures BlockWord(w + [e]) <==> BlockAccepts(w, e)
  {
    if BlockAccepts(w, e) { AcceptedExtends(w, d, e); }
    if BlockWord(w + [e]) { ExtensionAccepted(w, d, e, id); }
  }

  lemma AcceptedExtends(w: seq<Event>, d: nat, e: Event)
    requires Shape(w, d) && BlockAccepts(w, e)
    ensures BlockWord(w + [e])
  {
    var v := w + [e];
    ShapeFlags(w, d);
    assert forall i | 1 <= i < d :: v[i] == w[i];
    if d == |w| && DeltaOf(e, w[0]) {
      assert v[d + 1..] == [];
      assert Shape(v, d + 1);
    } else {
      assert v[d..] == w[d..] + [e];
      assert Shape(v, d);
    }
  }

  lemma ExtensionAccepted(w: seq<Event>, d: nat, e: Event, id: string)
    requires Shape(w, d) && OnBlock(e, id) && BlockWord(w + [e])
    ensures BlockAccepts(w, e)
  {
    var v := w + [e];
    assert v[0] == w[0] && !BareCall(v);
    var k: nat :| Shape(v, k);
    assert v[..|v| - 1] == w;
    ShapeCut(v, k, d);
    if k < |v| { assert v[k..][|w| - k] == e; } else { assert v[|w|] == e; }
    ShapeFlags(w, d);
    LetterAccepted(w, BlockOf(w), |w| - d, e);
  }

  /** The letter at each position past the deltas, against the flags at that position. */
  lemma LetterAccepted(w: seq<Event>, b: Block, n: nat, e: Event)
    requires w != [] && IsStart(w[0]) && b == BlockOf(w) && IsBlockEvent(e)
    requires (b.closed <==> n > 0) && (b.called <==> n > 1) && (b.terminal <==> n > 2)
    requires match n
      case 0 => DeltaOf(e, w[0]) || EndOf(e, w[0])
      case 1 => CallOf(e, w[0])
      case 2 => w[0].ToolInputStart? && OutcomeOf(e, w[0].name)
      case _ => false
    ensures BlockAccepts(w, e)
  {
    assert b.kind == KindOf(w[0]) && b.name == NameOf(w[0]);
  }

  /** Deltas, ends, calls and outcomes are disjoint, so a word has one shape. */
  lemma ShapeCut(v: seq<Event>, k: nat, d: nat)
    requires Shape(v, k) && 1 <= d < |v| && Shape(v[..|v| - 1], d)
    ensures if k == |v| then d == |v| - 1 else d == k
  {
    var w := v[..|v| - 1];
    assert d < |w| ==> w[d..][0] == v[d] && EndOf(v[d], v[0]);
    assert k < |v| ==> v[k..][0] == v[k] && EndOf(v[k], v[0]);
    assert forall i | 1 <= i < k :: DeltaOf(v[i], v[0]);
    assert forall i | 1 <= i < d :: DeltaOf(w[i], v[0]) && w[i] == v[i];
  }

  // ---------- Whole streams ----------

  /** What one more event must satisfy for a prefix to stay a prefix. */
  ghost predicate Continues(p: seq<Event>, e: Event) {
    WellFormed(e) &&
    (p != [] ==> !Terminal(p[|p| - 1])) &&
    (IsBlockEvent(e) ==> BlockWord(Projection(p, e.id) + [e])) &&
    (e.StepStart? || e.StepFinish? ==> StepWord(Steps(p) + [e])) &&
    (e.Finish? ==> |Steps(p)| % 2 == 0) &&
    (e.Finish? || e.StepFinish? ==> forall id :: !LeavesOpen(p, id))
  }

  lemma ProjectionSnoc(p: seq<Event>, e: Event, id: string)
    ensures Projection(p + [e], id) == if OnBlock(e, id) then Projection(p, id) + [e] else Projection(p, id)
  {
    assert (p + [e])[..|p|] == p;
    assert Projection(p, id) + [] == Projection(p, id);
  }

  lemma StepsSnoc(p: seq<Event>, e: Event)
    ensures Steps(p + [e]) == if e.StepStart? || e.StepFinish? then Steps(p) + [e] else Steps(p)
  {
    assert (p + [e])[..|p|] == p;
    assert Steps(p) + [] == Steps(p);
  }

  /** Deleting the last letter leaves a word. */
  lemma WordCut(w: seq<Event>, e: Event)
    requires BlockWord(w + [e])
    ensures BlockWord(w)
  {
    var v := w + [e];
    if w != [] {
      assert v[0] == w[0];
      if !BareCall(v) {
        var d: nat :| Shape(v, d);
        forall i | 1 <= i < d && i < |w| ensures DeltaOf(w[i], w[0]) { assert w[i] == v[i]; }
        if d == |v| {
          assert w[d - 1..] == [];
          assert Shape(w, d - 1);
        } else {
          assert w[d..] == v[d..][..|v| - d - 1];
          assert Shape(w, d);
        }
      }
    }
  }

  lemma WordsExtend(p: seq<Event>, e: Event, id: string)
    ensures SpellsWord(p + [e], id) ==> SpellsWord(p, id)
    ensures !OnBlock(e, id) && SpellsWord(p, id) ==> SpellsWord(p + [e], id)
    ensures OnBlock(e, id) ==> (SpellsWord(p + [e], id) <==> BlockWord(Projection(p, id) + [e]))
  {
    ProjectionSnoc(p, e, id);
    if OnBlock(e, id) && SpellsWord(p + [e], id) { WordCut(Projection(p, id), e); }
  }

  lemma FinishesExtend(p: seq<Event>, e: Event)
    ensures forall i | 0 <= i < |p| :: FinishesClosed(p + [e], i) <==> FinishesClosed(p, i)
    ensures FinishesClosed(p + [e], |p|) <==>
      (e.Finish? ==> |Steps(p)| % 2 == 0) && (e.Finish? || e.StepFinish? ==> forall id :: !LeavesOpen(p, id))
  {
    var v := p + [e];
    assert v[..|p|] == p && v[|p|] == e;
    forall i | 0 <= i < |p| ensures FinishesClosed(v, i) <==> FinishesClosed(p, i) {
      assert v[..i] == p[..i] && v[i] == p[i];
    }
  }

  lemma PrefixShrinks(p: seq<Event>, e: Event)
    requires Prefix(p + [e])
    ensures Prefix(p) && Continues(p, e)
  {
    var v := p + [e];
    assert v[|p|] == e && forall i | 0 <= i < |p| :: v[i] == p[i];
    forall id ensures SpellsWord(p, id) {
      assert SpellsWord(v, id);
      WordsExtend(p, e, id);
    }
    if IsBlockEvent(e) {
      assert SpellsWord(v, e.id);
      WordsExtend(p, e, e.id);
    }
    FinishesExtend(p, e);
    forall i | 0 <= i < |p| ensures WellFormed(p[i]) && FinishesClosed(p, i) {
      assert WellFormed(v[i]) && FinishesClosed(v, i);
    }
    forall i | 0 <= i < |p| - 1 ensures !Terminal(p[i]) { assert !Terminal(v[i]); }
    StepsSnoc(p, e);
    StepWordCut(Steps(p), Steps(v));
    assert FinishesClosed(v, |p|) && WellFormed(v[|p|]);
    assert p != [] ==> !Terminal(v[|p| - 1]);
  }

  lemma PrefixGrows(p: seq<Event>, e: Event)
    requires Prefix(p) && Continues(p, e)
    ensures Prefix(p + [e])
  {
    hide SpellsWord, WellFormed, FinishesClosed, StepWord, Terminal, BlockWord, LeavesOpen;
    var v := p + [e];
    assert v[|p|] == e && forall i | 0 <= i < |p| :: v[i] == p[i];
    forall id ensures SpellsWord(v, id) {
      assert SpellsWord(p, id);
      WordsExtend(p, e, id);
    }
    FinishesExtend(p, e);
    forall i | 0 <= i < |v| ensures WellFormed(v[i]) && FinishesClosed(v, i) {
      if i < |p| { assert WellFormed(p[i]) && FinishesClosed(p, i); }
    }
    StepsSnoc(p, e);
    assert Steps(p) + [] == Steps(p);
  }

  lemma StepWordCut(u: seq<Event>, w: seq<Event>)
    requires u <= w && StepWord(w)
    ensures StepWord(u)
  {
    forall i | 0 <= i < |u| ensures StepLetter(u, i) {
      assert StepLetter(w, i) && u[i] == w[i];
      if i > 0 { assert u[i - 1] == w[i - 1]; }
    }
  }

  /** A word stands for an open block exactly when nothing closed it. */
  lemma OpenIsUnclosed(w: seq<Event>)
    requires w != [] && BlockWord(w)
    ensures Open(BlockOf(w)) <==> Unclosed(w)
  {
  }

  /** The block transitions of the validator are the block test on the word so far. */
  lemma BlockMove(s: State, w: seq<Event>, e: Event)
    requires IsBlockEvent(e)
    requires w == [] <==> e.id !in s.blocks
    requires w != [] ==> s.blocks[e.id] == BlockOf(w)
    ensures Move(s, e).Ok? <==> LocallyWellFormed(e) && BlockAccepts(w, e)
  {
    if w != [] { assert BlockOf(w).kind.ToolInputBlock? || !BlockOf(w).kind.ToolInputBlock?; }
  }

  lemma AcceptsBlockEvent(p: seq<Event>, s: State, e: Event)
    requires Prefix(p) && Tracks(p, s) && IsBlockEvent(e)
    ensures Accepted(s, e).Ok? <==> Continues(p, e)
  {
    var w := Projection(p, e.id);
    assert SpellsWord(p, e.id) && BlockTracked(p, s, e.id);
    WordStep(w, e, e.id);
    BlockMove(s, w, e);
  }

  /** A step event is in place in the step word exactly when the validator's step state admits it. */
  lemma StepInPlace(p: seq<Event>, s: State, e: Event)
    requires StepWord(Steps(p)) && StepTracked(p, s) && (e.StepStart? || e.StepFinish?)
    ensures StepWord(Steps(p) + [e]) <==>
      if e.StepStart? then !s.stepActive else s.stepActive && e.index == s.stepIndex
  {
    hide Steps, StepWord;
    var w := Steps(p);
    StepWordNext(w, e);
    if |w| % 2 == 1 { assert (|w| - 1) / 2 * 2 == |w| - 1; }
  }

  lemma AcceptsStepEvent(p: seq<Event>, s: State, e: Event)
    requires Prefix(p) && Tracks(p, s) && (e.StepStart? || e.StepFinish?)
    ensures Accepted(s, e).Ok? <==> Continues(p, e)
  {
    assert StepWord(Steps(p)) && StepTracked(p, s) && (s.terminal <==> p != [] && Terminal(p[|p| - 1]));
    hide Prefix, Tracks, Steps, StepWord, StepTracked, NoOpenBlocks, LeavesOpen, BlockTracked, Encodable, ValidIndex;
    StepInPlace(p, s, e);
    NoOpenMeansClosed(p, s);
  }

  /** The validator accepts the next event exactly when the grammar does. */
  lemma AcceptsContinuation(p: seq<Event>, s: State, e: Event)
    requires Prefix(p) && Tracks(p, s)
    ensures Accepted(s, e).Ok? <==> Continues(p, e)
  {
    if IsBlockEvent(e) {
      AcceptsBlockEvent(p, s, e);
    } else if e.StepStart? || e.StepFinish? {
      AcceptsStepEvent(p, s, e);
    } else {
      NoOpenMeansClosed(p, s);
    }
  }

  lemma StepWordNext(w: seq<Event>, e: Event)
    requires StepWord(w)
    ensures StepWord(w + [e]) <==>
      if |w| % 2 == 0 then e.StepStart? else e.StepFinish? && IndexOf(e) == IndexOf(w[|w| - 1])
  {
    var v := w + [e];
    assert v[|w|] == e;
    forall i | 0 <= i < |w| ensures StepLetter(v, i) {
      assert StepLetter(w, i) && v[i] == w[i];
      if i > 0 { assert v[i - 1] == w[i - 1]; }
    }
    assert StepWord(v) <==> StepLetter(v, |w|);
  }

  lemma NoOpenMeansClosed(p: seq<Event>, s: State)
    requires Prefix(p) && Tracks(p, s)
    ensures NoOpenBlocks(s) <==> forall id :: !LeavesOpen(p, id)
  {
    forall id ensures LeavesOpen(p, id) <==> id in s.blocks && Open(s.blocks[id]) {
      assert SpellsWord(p, id) && BlockTracked(p, s, id);
      if id in s.blocks { OpenIsUnclosed(Projection(p, id)); }
    }
    if forall id :: !LeavesOpen(p, id) {
      forall id | id in s.blocks ensures !Open(s.blocks[id]) {
        assert !LeavesOpen(p, id);
      }
    }
  }

  lemma WordGrows(w: seq<Event>, e: Event)
    requires w != []
    ensures BlockOf(w + [e]) == BlockOf(w).(
      closed := BlockOf(w).closed || EndOf(e, w[0]),
      called := BlockOf(w).called || e.ToolCall?,
      terminal := BlockOf(w).terminal || e.ToolResult? || e.ToolError?)
  {
    var v := w + [e];
    assert v[0] == w[0];
    assert forall x :: x in v <==> x in w || x == e;
  }

  lemma WordBegins(e: Event)
    requires IsStart(e) || e.ToolCall?
    ensures BlockOf([] + [e]) == Block(KindOf(e), NameOf(e), e.ToolCall?, e.ToolCall?, false)
  {
    var v := [] + [e];
    assert v == [e];
    assert forall x :: x in v <==> x == e;
    assert e in v;
  }

  /** Accepting a block event updates its block record as the word grows. */
  lemma BlockTracks(s: State, w: seq<Event>, e: Event)
    requires IsBlockEvent(e) && Move(s, e).Ok?
    requires w == [] <==> e.id !in s.blocks
    requires w != [] ==> s.blocks[e.id] == BlockOf(w)
    ensures Move(s, e).value == s.(blocks := s.blocks[e.id := BlockOf(w + [e])])
  {
    if w == [] {
      WordBegins(e);
    } else {
      WordGrows(w, e);
      assert s.blocks[e.id := s.blocks[e.id]] == s.blocks;
      assert BlockOf(w).kind == KindOf(w[0]) && BlockOf(w).name == NameOf(w[0]);
    }
  }

  lemma BlockStillTracked(p: seq<Event>, s: State, e: Event, s': State, id: string)
    requires BlockTracked(p, s, id) && !OnBlock(e, id)
    requires id in s.blocks <==> id in s'.blocks
    requires id in s.blocks ==> s'.blocks[id] == s.blocks[id]
    ensures BlockTracked(p + [e], s', id)
  {
    hide BlockOf, Projection, OnBlock;
    ProjectionSnoc(p, e, id);
    assert Projection(p, id) + [] == Projection(p, id);
  }

  lemma BlockNowTracked(p: seq<Event>, s: State, e: Event, s': State)
    requires IsBlockEvent(e)
    requires s'.blocks == s.blocks[e.id := BlockOf(Projection(p, e.id) + [e])]
    ensures BlockTracked(p + [e], s', e.id)
  {
    hide BlockOf, Projection;
    ProjectionSnoc(p, e, e.id);
  }

  lemma BlocksStillTracked(p: seq<Event>, s: State, e: Event, s': State)
    requires IsBlockEvent(e) && forall id :: BlockTracked(p, s, id)
    requires s'.blocks == s.blocks[e.id := BlockOf(Projection(p, e.id) + [e])]
    ensures forall id :: BlockTracked(p + [e], s', id)
  {
    hide BlockOf, Projection, BlockTracked;
    BlockNowTracked(p, s, e, s');
    var own := e.id;
    forall id | id != own ensures BlockTracked(p + [e], s', id) {
      BlockStillTracked(p, s, e, s', id);
    }
  }

  lemma BlockEventMoves(p: seq<Event>, s: State, e: Event)
    requires IsBlockEvent(e) && BlockTracked(p, s, e.id) && Accepted(s, e).Ok?
    ensures Accepted(s, e).value == s.(blocks := s.blocks[e.id := BlockOf(Projection(p, e.id) + [e])])
    ensures !s.terminal && !Terminal(e)
  {
    BlockTracks(s, Projection(p, e.id), e);
  }

  lemma StepsStay(p: seq<Event>, s: State, e: Event, s': State)
    requires StepTracked(p, s) && IsBlockEvent(e) && s'.stepActive == s.stepActive && s'.stepIndex == s.stepIndex
    ensures StepTracked(p + [e], s')
  {
    StepsSnoc(p, e);
    assert Steps(p) + [] == Steps(p);
  }

  lemma TracksBlockEvent(p: seq<Event>, s: State, e: Event)
    requires Tracks(p, s) && IsBlockEvent(e) && Accepted(s, e).Ok?
    ensures Tracks(p + [e], Accepted(s, e).value)
  {
    assert forall id :: BlockTracked(p, s, id);
    hide BlockTracked, StepTracked, BlockOf, Projection, Accepted, IsBlockEvent, Terminal;
    BlockEventMoves(p, s, e);
    var s' := Accepted(s, e).value;
    StepsStay(p, s, e, s');
    BlocksStillTracked(p, s, e, s');
    assert (p + [e])[|p|] == e;
  }

  lemma OtherEventMoves(s: State, e: Event)
    requires !IsBlockEvent(e) && Accepted(s, e).Ok?
    ensures Accepted(s, e).value.blocks == s.blocks && !s.terminal
    ensures Accepted(s, e).value.terminal <==> Terminal(e)
  {
    hide Encodable, ValidIndex, NoOpenBlocks;
  }

  lemma BlocksUntouched(p: seq<Event>, s: State, e: Event, s': State)
    requires (forall id :: BlockTracked(p, s, id)) && !IsBlockEvent(e) && s'.blocks == s.blocks
    ensures forall id :: BlockTracked(p + [e], s', id)
  {
    hide BlockTracked;
    forall id ensures BlockTracked(p + [e], s', id) { BlockStillTracked(p, s, e, s', id); }
  }

  lemma TracksOtherEvent(p: seq<Event>, s: State, e: Event)
    requires Prefix(p) && Tracks(p, s) && !IsBlockEvent(e) && Accepted(s, e).Ok?
    ensures Tracks(p + [e], Accepted(s, e).value)
  {
    assert StepWord(Steps(p));
    hide Prefix, BlockTracked, StepTracked, StepWord, Accepted, IsBlockEvent, Terminal;
    OtherEventMoves(s, e);
    BlocksUntouched(p, s, e, Accepted(s, e).value);
    StepMoves(p, s, e);
    assert (p + [e])[|p|] == e;
  }

  lemma StepMoves(p: seq<Event>, s: State, e: Event)
    requires StepTracked(p, s) && StepWord(Steps(p)) && !IsBlockEvent(e) && Accepted(s, e).Ok?
    ensures StepTracked(p + [e], Accepted(s, e).value)
  {
    hide Steps, Encodable, ValidIndex, NoOpenBlocks;
    StepsSnoc(p, e);
    var w := Steps(p);
    assert w + [] == w;
    if e.StepStart? || e.StepFinish? {
      assert (w + [e])[|w|] == e;
      assert |w| / 2 * 2 == if |w| % 2 == 1 then |w| - 1 else |w|;
    }
  }

  /** Accepting an event keeps the state in step with the events. */
  lemma TracksContinuation(p: seq<Event>, s: State, e: Event)
    requires Prefix(p) && Tracks(p, s) && Accepted(s, e).Ok?
    ensures Tracks(p + [e], Accepted(s, e).value)
  {
    if IsBlockEvent(e) { TracksBlockEvent(p, s, e); } else { TracksOtherEvent(p, s, e); }
  }

  lemma {:induction false} PrefixTracks(events: seq<Event>)
    ensures Run(events).Some? <==> Prefix(events)
    ensures Run(events).Some? ==> Tracks(events, Run(events).value)
  {
    if events == [] {
      assert Prefix([]);
      assert Tracks([], INITIAL);
    } else {
      var p, e := events[..|events| - 1], events[|events| - 1];
      assert events == p + [e];
      PrefixTracks(p);
      if Prefix(p + [e]) { PrefixShrinks(p, e); }
      if Prefix(p) && Continues(p, e) { PrefixGrows(p, e); }
      if Run(p).Some? {
        AcceptsContinuation(p, Run(p).value, e);
        if Accepted(Run(p).value, e).Ok? { TracksContinuation(p, Run(p).value, e); }
      }
    }
  }

  /** `ValidateStream` accepts exactly the streams of the grammar. */
  lemma AcceptsExactlyTheGrammar(events: seq<Event>)
    ensures ValidStream(events) <==> Grammar(events)
  {
    PrefixTracks(events);
  }
}
