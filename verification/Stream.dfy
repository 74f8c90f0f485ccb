/** internal/provider/stream.go: the canonical event stream validator. */
module Stream {
  import opened Text
  import Json

  datatype Float64 = NaN | Infinite(negative: bool) | Finite(value: real)

  datatype FinishReason = Stop | Length | ToolCalls | ContentFilter | Failed | Other

  /** A canonical provider event. `encodes` says that the codec accepts the parts which do not take
      part in ordering: metadata, usage and tool results. */
  datatype Event =
    | StepStart(index: Float64, encodes: bool)
    | TextStart(id: string, encodes: bool)
    | TextDelta(id: string, text: string, encodes: bool)
    | TextEnd(id: string, encodes: bool)
    | ReasoningStart(id: string, encodes: bool)
    | ReasoningDelta(id: string, text: string, encodes: bool)
    | ReasoningEnd(id: string, encodes: bool)
    | ToolInputStart(id: string, name: string, encodes: bool)
    | ToolInputDelta(id: string, name: string, text: string, encodes: bool)
    | ToolInputEnd(id: string, name: string, encodes: bool)
    | ToolCall(id: string, name: string, input: Json.Value, encodes: bool)
    | ToolResult(id: string, name: string, encodes: bool)
    | ToolError(id: string, name: string, encodes: bool)
    | StepFinish(index: Float64, reason: FinishReason, encodes: bool)
    | Finish(reason: FinishReason, encodes: bool)
    | ProviderError(encodes: bool)
    | Unknown(name: string, encodes: bool)
    | Nil

  datatype StreamError = AfterTerminal | Invalid | UnknownType | BadState | DuplicateId

  datatype BlockKind = TextBlock | ReasoningBlock | ToolInputBlock | ToolCallBlock

  datatype Block = Block(kind: BlockKind, name: string, closed: bool, called: bool, terminal: bool)

  datatype State = State(blocks: map<string, Block>, stepActive: bool, stepIndex: Float64, terminal: bool)

  const INITIAL := State(map[], false, Finite(0.0), false)

  predicate ValidIndex(index: Float64) {
    index.Finite? && index.value >= 0.0 && index.value.Floor as real == index.value
  }

  /** `EncodeLLMEventJSON` succeeds. A tool call's input sits one level inside the event object,
      so it must fit one level below the depth limit. */
  predicate Encodable(e: Event) {
    !e.Nil? && e.encodes &&
    (e.StepStart? || e.StepFinish? ==> e.index.Finite?) &&
    (e.ToolCall? ==> Json.Valid(e.input) && InputFits(e.input))
  }

  predicate InputFits(input: Json.Value) {
    Json.Fits(input, 1)
  }

  predicate Open(b: Block) {
    !b.kind.ToolCallBlock? && !b.closed
  }

  predicate NoOpenBlocks(s: State) {
    forall id | id in s.blocks :: !Open(s.blocks[id])
  }

  function StartBlock(s: State, id: string, kind: BlockKind, name: string): (r: Result<State, StreamError>) {
    if !Identity(id) || (kind.ToolInputBlock? && Blank(name)) then Err(Invalid)
    else if id in s.blocks then Err(DuplicateId)
    else Ok(s.(blocks := s.blocks[id := Block(kind, name, false, false, false)]))
  }

  function DeltaBlock(s: State, id: string, kind: BlockKind, name: string): (r: Result<State, StreamError>) {
    if id !in s.blocks || s.blocks[id].kind != kind || s.blocks[id].closed ||
       (kind.ToolInputBlock? && s.blocks[id].name != name)
    then Err(BadState)
    else Ok(s)
  }

  function EndBlock(s: State, id: string, kind: BlockKind, name: string): (r: Result<State, StreamError>) {
    if id !in s.blocks || s.blocks[id].kind != kind || s.blocks[id].closed ||
       (name != "" && s.blocks[id].name != name)
    then Err(BadState)
    else Ok(s.(blocks := s.blocks[id := s.blocks[id].(closed := true)]))
  }

  function Call(s: State, id: string, name: string): (r: Result<State, StreamError>) {
    if !Identity(id) || Blank(name) then Err(Invalid)
    else if id !in s.blocks then Ok(s.(blocks := s.blocks[id := Block(ToolCallBlock, name, true, true, false)]))
    else
      var b := s.blocks[id];
      if !b.kind.ToolInputBlock? || !b.closed || b.called || b.name != name then Err(BadState)
      else Ok(s.(blocks := s.blocks[id := b.(called := true)]))
  }

  function ToolOutcome(s: State, id: string, name: string): (r: Result<State, StreamError>) {
    if Blank(id) || Blank(name) then Err(Invalid)
    else if id !in s.blocks || !s.blocks[id].called || s.blocks[id].terminal || s.blocks[id].name != name
    then Err(BadState)
    else Ok(s.(blocks := s.blocks[id := s.blocks[id].(terminal := true)]))
  }

  function StartStep(s: State, index: Float64): (r: Result<State, StreamError>) {
    if !ValidIndex(index) then Err(Invalid)
    else if s.stepActive then Err(BadState)
    else Ok(s.(stepActive := true, stepIndex := index))
  }

  function FinishStep(s: State, index: Float64): (r: Result<State, StreamError>) {
    if !ValidIndex(index) then Err(Invalid)
    else if !s.stepActive || index != s.stepIndex || !NoOpenBlocks(s) then Err(BadState)
    else Ok(s.(stepActive := false))
  }

  /** The state transition behind `Accept` for an event that encodes. */
  function Move(s: State, e: Event): (r: Result<State, StreamError>) {
    match e
    case StepStart(index, _) => StartStep(s, index)
    case TextStart(id, _) => StartBlock(s, id, TextBlock, "")
    case TextDelta(id, _, _) => DeltaBlock(s, id, TextBlock, "")
    case TextEnd(id, _) => EndBlock(s, id, TextBlock, "")
    case ReasoningStart(id, _) => StartBlock(s, id, ReasoningBlock, "")
    case ReasoningDelta(id, _, _) => DeltaBlock(s, id, ReasoningBlock, "")
    case ReasoningEnd(id, _) => EndBlock(s, id, ReasoningBlock, "")
    case ToolInputStart(id, name, _) => StartBlock(s, id, ToolInputBlock, name)
    case ToolInputDelta(id, name, _, _) => DeltaBlock(s, id, ToolInputBlock, name)
    case ToolInputEnd(id, name, _) => EndBlock(s, id, ToolInputBlock, name)
    case ToolCall(id, name, _, _) => Call(s, id, name)
    case ToolResult(id, name, _) => ToolOutcome(s, id, name)
    case ToolError(id, name, _) => ToolOutcome(s, id, name)
    case StepFinish(index, _, _) => FinishStep(s, index)
    case Finish(_, _) => if s.stepActive || !NoOpenBlocks(s) then Err(BadState) else Ok(s.(terminal := true))
    case ProviderError(_) => Ok(s.(terminal := true))
    case Unknown(_, _) => Err(UnknownType)
    case Nil => Err(Invalid)
  }

  /** One `Accept`: the outcome for an event, or the error that leaves the validator unusable. */
  function Accepted(s: State, e: Event): (r: Result<State, StreamError>) {
    if s.terminal then Err(AfterTerminal)
    else if !Encodable(e) then Err(Invalid)
    else Move(s, e)
  }

  /** The state after accepting every event in turn, or None once one is rejected. */
  function Run(events: seq<Event>): (r: Option<State>) {
    if events == [] then Some(INITIAL)
    else
      match Run(events[..|events| - 1])
      case None => None
      case Some(s) =>
        match Accepted(s, events[|events| - 1])
        case Err(_) => None
        case Ok(s') => Some(s')
  }

  predicate ValidStream(events: seq<Event>) {
    var r := Run(events);
    r.Some? && r.value.terminal
  }

  class StreamValidator {
    var blocks: map<string, Block>
    var stepActive: bool
    var stepIndex: Float64
    var terminal: bool
    var eventNumber: nat

    constructor ()
      ensures Abstract() == INITIAL && eventNumber == 0
    {
      blocks, stepActive, stepIndex, terminal, eventNumber := map[], false, Finite(0.0), false, 0;
    }

    function Abstract(): (s: State)
      reads this
    {
      State(blocks, stepActive, stepIndex, terminal)
    }

    /** Whether a method ended where the state function says. */
    predicate Reaches(r: Result<(), StreamError>, before: State, spec: Result<State, StreamError>)
      reads this
    {
      match spec
      case Ok(s) => r == Ok(()) && Abstract() == s
      case Err(kind) => r == Err(kind) && Abstract() == before
    }

    /** On an error the validator is left terminal, whatever it was. */
    method Accept(e: Event) returns (r: Result<(), StreamError>)
      modifies this
      ensures eventNumber == old(eventNumber) + 1
      ensures match Accepted(old(Abstract()), e)
        case Ok(s) => r == Ok(()) && Abstract() == s
        case Err(kind) => r == Err(kind) && Abstract() == old(Abstract()).(terminal := true)
    {
      hide StartStep, FinishStep, StartBlock, DeltaBlock, EndBlock, Call, ToolOutcome, ValidIndex, Encodable,
        NoOpenBlocks;
      eventNumber := eventNumber + 1;
      if terminal { return Err(AfterTerminal); }
      if !Encodable(e) {
        terminal := true;
        return Err(Invalid);
      }
      match e {
        case StepStart(index, _) => r := BeginStep(index);
        case StepFinish(index, _, _) => r := EndStep(index);
        case Finish(_, _) => r := Close();
        case ProviderError(_) => terminal := true; r := Ok(());
        case _ => r := AcceptBlock(e);
      }
      if r.Err? { terminal := true; }
    }

    method BeginStep(index: Float64) returns (r: Result<(), StreamError>)
      modifies this`stepActive, this`stepIndex
      ensures Reaches(r, old(Abstract()), StartStep(old(Abstract()), index))
    {
      if !ValidIndex(index) { return Err(Invalid); }
      if stepActive { return Err(BadState); }
      stepActive := true;
      stepIndex := index;
      return Ok(());
    }

    method EndStep(index: Float64) returns (r: Result<(), StreamError>)
      modifies this`stepActive
      ensures Reaches(r, old(Abstract()), FinishStep(old(Abstract()), index))
    {
      if !ValidIndex(index) { return Err(Invalid); }
      if !stepActive || index != stepIndex { return Err(BadState); }
      var open := HasOpenBlock();
      if open { return Err(BadState); }
      stepActive := false;
      return Ok(());
    }

    method Close() returns (r: Result<(), StreamError>)
      modifies this`terminal
      ensures if stepActive || !NoOpenBlocks(old(Abstract())) then r == Err(BadState) && terminal == old(terminal)
              else r == Ok(()) && terminal
    {
      if stepActive { return Err(BadState); }
      var open := HasOpenBlock();
      if open { return Err(BadState); }
      terminal := true;
      return Ok(());
    }

    /** `noOpenBlocks` as the loop over the block map that it is. */
    method HasOpenBlock() returns (open: bool)
      ensures open <==> !NoOpenBlocks(Abstract())
    {
      var left := blocks.Keys;
      while left != {}
        invariant left <= blocks.Keys
        invariant forall id | id in blocks.Keys - left :: !Open(blocks[id])
        decreases |left|
      {
        var id :| id in left;
        if Open(blocks[id]) { return true; }
        left := left - {id};
      }
      open := false;
    }

    method AcceptBlock(e: Event) returns (r: Result<(), StreamError>)
      requires !e.StepStart? && !e.StepFinish? && !e.Finish? && !e.ProviderError?
      modifies this`blocks
      ensures Reaches(r, old(Abstract()), Move(old(Abstract()), e))
    {
      match e {
        case TextStart(id, _) => r := Begin(id, TextBlock, "");
        case TextDelta(id, _, _) => r := Continue(id, TextBlock, "");
        case TextEnd(id, _) => r := End(id, TextBlock, "");
        case ReasoningStart(id, _) => r := Begin(id, ReasoningBlock, "");
        case ReasoningDelta(id, _, _) => r := Continue(id, ReasoningBlock, "");
        case ReasoningEnd(id, _) => r := End(id, ReasoningBlock, "");
        case ToolInputStart(id, name, _) => r := Begin(id, ToolInputBlock, name);
        case ToolInputDelta(id, name, _, _) => r := Continue(id, ToolInputBlock, name);
        case ToolInputEnd(id, name, _) => r := End(id, ToolInputBlock, name);
        case ToolCall(id, name, _, _) => r := CallTool(id, name);
        case ToolResult(id, name, _) => r := EndTool(id, name);
        case ToolError(id, name, _) => r := EndTool(id, name);
        case Unknown(_, _) => r := Err(UnknownType);
        case Nil => r := Err(Invalid);
      }
    }

    method Begin(id: string, kind: BlockKind, name: string) returns (r: Result<(), StreamError>)
      modifies this`blocks
      ensures Reaches(r, old(Abstract()), StartBlock(old(Abstract()), id, kind, name))
    {
      if !Identity(id) || (kind.ToolInputBlock? && Blank(name)) { return Err(Invalid); }
      if id in blocks { return Err(DuplicateId); }
      blocks := blocks[id := Block(kind, name, false, false, false)];
      return Ok(());
    }

    method Continue(id: string, kind: BlockKind, name: string) returns (r: Result<(), StreamError>)
      ensures Reaches(r, old(Abstract()), DeltaBlock(old(Abstract()), id, kind, name))
    {
      if id !in blocks || blocks[id].kind != kind || blocks[id].closed { return Err(BadState); }
      if kind.ToolInputBlock? && blocks[id].name != name { return Err(BadState); }
      return Ok(());
    }

    method End(id: string, kind: BlockKind, name: string) returns (r: Result<(), StreamError>)
      modifies this`blocks
      ensures Reaches(r, old(Abstract()), EndBlock(old(Abstract()), id, kind, name))
    {
      if id !in blocks || blocks[id].kind != kind || blocks[id].closed { return Err(BadState); }
      if name != "" && blocks[id].name != name { return Err(BadState); }
      blocks := blocks[id := blocks[id].(closed := true)];
      return Ok(());
    }

    method CallTool(id: string, name: string) returns (r: Result<(), StreamError>)
      modifies this`blocks
      ensures Reaches(r, old(Abstract()), Call(old(Abstract()), id, name))
    {
      if !Identity(id) || Blank(name) { return Err(Invalid); }
      if id !in blocks {
        blocks := blocks[id := Block(ToolCallBlock, name, true, true, false)];
        return Ok(());
      }
      var current := blocks[id];
      if !current.kind.ToolInputBlock? || !current.closed || current.called || current.name != name {
        return Err(BadState);
      }
      blocks := blocks[id := current.(called := true)];
      return Ok(());
    }

    method EndTool(id: string, name: string) returns (r: Result<(), StreamError>)
      modifies this`blocks
      ensures Reaches(r, old(Abstract()), ToolOutcome(old(Abstract()), id, name))
    {
      if Blank(id) || Blank(name) { return Err(Invalid); }
      if id !in blocks { return Err(BadState); }
      var current := blocks[id];
      if !current.called || current.terminal || current.name != name { return Err(BadState); }
      blocks := blocks[id := current.(terminal := true)];
      return Ok(());
    }

    method Done() returns (complete: bool)
      ensures complete == terminal
    {
      complete := terminal;
    }
  }

  method ValidateStream(events: seq<Event>) returns (valid: bool)
    ensures valid == ValidStream(events)
  {
    var validator := new StreamValidator();
    for i := 0 to |events|
      invariant Run(events[..i]) == Some(validator.Abstract())
    {
      assert events[..i + 1][..i] == events[..i];
      var r := validator.Accept(events[i]);
      if r.Err? {
        RejectedPrefix(events, i + 1);
        return false;
      }
    }
    assert events[..|events|] == events;
    valid := validator.Done();
  }

  /** A rejection is final. */
  lemma {:induction false} RejectedPrefix(events: seq<Event>, n: nat)
    requires n <= |events| && Run(events[..n]).None?
    ensures Run(events).None?
  {
    if n == |events| {
      assert events[..n] == events;
    } else {
      assert events[..|events| - 1][..n] == events[..n];
      RejectedPrefix(events[..|events| - 1], n);
    }
  }
}
