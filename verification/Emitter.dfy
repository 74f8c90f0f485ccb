/** internal/provider/adapter_helpers.go: the emitter that couples the stream validator to a sink
    and holds a StepStart back until the next event. */
module Emitter {
  import opened Text
  import opened Stream

  datatype EmitError = Rejected(kind: StreamError) | SinkFailed

  /** What a sink was given so far. Send number n succeeds when the sink's answer function says so. */
  datatype SinkState = SinkState(received: seq<Event>, sends: nat)

  type Answers = nat -> bool

  datatype EmitterState = EmitterState(validator: State, pending: Option<Event>, started: bool, sink: SinkState)

  function Fresh(sink: SinkState): (s: EmitterState) {
    EmitterState(INITIAL, None, false, sink)
  }

  function SendStep(answers: Answers, sink: SinkState, e: Event): (r: (SinkState, bool)) {
    if answers(sink.sends) then (SinkState(sink.received + [e], sink.sends + 1), true)
    else (sink.(sends := sink.sends + 1), false)
  }

  function Validate(s: EmitterState, e: Event): (r: (EmitterState, Option<EmitError>)) {
    match Accepted(s.validator, e)
    case Ok(v) => (s.(validator := v), None)
    case Err(kind) => (s.(validator := s.validator.(terminal := true)), Some(Rejected(kind)))
  }

  /** The pending StepStart, if any, goes out before the event that follows it. */
  function Flush(answers: Answers, s: EmitterState): (r: (EmitterState, bool)) {
    match s.pending
    case None => (s, true)
    case Some(p) =>
      var (sink, sent) := SendStep(answers, s.sink, p);
      (s.(sink := sink, pending := if sent then None else s.pending), sent)
  }

  function EmitStep(answers: Answers, s: EmitterState, e: Event): (r: (EmitterState, Option<EmitError>)) {
    if e.StepStart? then
      var (s1, error) := Validate(s, e);
      if error.Some? then (s1, error) else (s1.(pending := Some(e)), None)
    else
      var (s1, flushed) := Flush(answers, s.(started := s.started || !(e.Nil? || e.Finish?)));
      if !flushed then (s1, Some(SinkFailed))
      else
        var (s2, error) := Validate(s1, e);
        if error.Some? then (s2, error)
        else
          var (sink, sent) := SendStep(answers, s2.sink, e);
          (s2.(sink := sink), if sent then None else Some(SinkFailed))
  }

  /** Emitting in turn, stopping at the first error as every adapter does. */
  function EmitAll(answers: Answers, s: EmitterState, events: seq<Event>): (r: (EmitterState, Option<EmitError>))
    decreases |events|
  {
    if events == [] then (s, None)
    else
      var (s1, error) := EmitStep(answers, s, events[0]);
      if error.Some? then (s1, error) else EmitAll(answers, s1, events[1..])
  }

  /** An event whose sending a retry could repeat. */
  predicate Marks(e: Event) {
    !e.StepStart? && !e.Nil? && !e.Finish?
  }

  lemma StepMarks(answers: Answers, s: EmitterState, e: Event)
    ensures EmitStep(answers, s, e).0.started <==> s.started || Marks(e)
  {
    hide Accepted;
  }

  /** A stream counts as started exactly when one of the events tried, the failing one included, is neither a
      StepStart nor a Finish: `n` is how many were tried. */
  lemma {:induction false} StartedExactly(answers: Answers, s: EmitterState, events: seq<Event>) returns (n: nat)
    ensures n <= |events| && EmitAll(answers, s, events[..n]) == EmitAll(answers, s, events)
    ensures var error := EmitAll(answers, s, events).1;
      if error.None? then n == |events| else n > 0 && EmitAll(answers, s, events[..n - 1]).1.None?
    ensures EmitAll(answers, s, events).0.started <==> s.started || exists i :: 0 <= i < n && Marks(events[i])
    decreases |events|
  {
    hide EmitStep, Marks;
    n := 0;
    if events != [] {
      var (s1, error) := EmitStep(answers, s, events[0]);
      StepMarks(answers, s, events[0]);
      if error.Some? {
        n := 1;
        assert events[..1][0] == events[0] && events[..0] == [];
      } else {
        var rest := events[1..];
        var more := StartedExactly(answers, s1, rest);
        n := more + 1;
        AfterFirst(answers, s, events, n);
        if more > 0 { AfterFirst(answers, s, events, more); }
        if exists i :: 0 <= i < more && Marks(rest[i]) {
          var i :| 0 <= i < more && Marks(rest[i]);
          assert Marks(events[i + 1]);
        }
        if exists i :: 0 <= i < n && Marks(events[i]) {
          var i :| 0 <= i < n && Marks(events[i]);
          if i > 0 { assert rest[i - 1] == events[i]; }
        }
      }
    }
  }

  lemma AfterFirst(answers: Answers, s: EmitterState, events: seq<Event>, n: nat)
    requires 0 < n <= |events| && EmitStep(answers, s, events[0]).1.None?
    ensures EmitAll(answers, s, events[..n]) ==
      EmitAll(answers, EmitStep(answers, s, events[0]).0, events[1..][..n - 1])
  {
    hide EmitStep;
    assert events[..n][0] == events[0] && events[..n][1..] == events[1..][..n - 1];
  }

  class Sink {
    var received: seq<Event>
    var sends: nat
    const answers: Answers

    constructor (answers: Answers)
      ensures this.answers == answers && Abstract() == SinkState([], 0)
    {
      this.answers := answers;
      received, sends := [], 0;
    }

    function Abstract(): (s: SinkState)
      reads this
    {
      SinkState(received, sends)
    }

    method Send(e: Event) returns (sent: bool)
      modifies this
      ensures (Abstract(), sent) == SendStep(answers, old(Abstract()), e)
    {
      sent := answers(sends);
      sends := sends + 1;
      if sent { received := received + [e]; }
    }
  }

  class EventEmitter {
    const sink: Sink
    const validator: StreamValidator
    var pending: Option<Event>
    var started: bool

    constructor (sink: Sink)
      ensures this.sink == sink && fresh(validator)
      ensures Abstract() == Fresh(sink.Abstract())
    {
      this.sink := sink;
      validator := new StreamValidator();
      pending, started := None, false;
    }

    function Abstract(): (s: EmitterState)
      reads this, sink, validator
    {
      EmitterState(validator.Abstract(), pending, started, sink.Abstract())
    }

    method Emit(e: Event) returns (error: Option<EmitError>)
      modifies this, sink, validator
      ensures (Abstract(), error) == EmitStep(sink.answers, old(Abstract()), e)
    {
      if e.StepStart? {
        var r := validator.Accept(e);
        match r
        case Err(kind) => return Some(Rejected(kind));
        case Ok(_) => pending := Some(e); return None;
      }
      if !e.Nil? && !e.Finish? { started := true; }
      if pending.Some? {
        var sent := sink.Send(pending.value);
        if !sent { return Some(SinkFailed); }
        pending := None;
      }
      var r := validator.Accept(e);
      if r.Err? { return Some(Rejected(r.error)); }
      var sent := sink.Send(e);
      error := if sent then None else Some(SinkFailed);
    }

    method Done() returns (complete: bool)
      ensures complete == Abstract().validator.terminal
    {
      complete := validator.Done();
    }
  }

  // ---------- What the sink can observe ----------

  function Held(s: EmitterState): (events: seq<Event>) {
    if s.pending.Some? then [s.pending.value] else []
  }

  /** While nothing went wrong: what was sent plus what is held back is what the validator accepted. */
  ghost predicate InStep(s: EmitterState, base: seq<Event>, accepted: seq<Event>) {
    s.sink.received + Held(s) == base + accepted &&
    Run(accepted) == Some(s.validator) &&
    (s.pending.Some? ==> s.pending.value.StepStart? && s.validator.stepActive && !s.validator.terminal)
  }

  lemma RunSnoc(p: seq<Event>, e: Event)
    ensures Run(p + [e]) ==
      match Run(p)
      case None => None
      case Some(s) =>
        match Accepted(s, e)
        case Err(_) => None
        case Ok(s') => Some(s')
  {
    assert (p + [e])[..|p|] == p;
  }

  lemma EmitKeepsInStep(answers: Answers, s: EmitterState, base: seq<Event>, accepted: seq<Event>, e: Event)
    requires InStep(s, base, accepted)
    ensures var (s', error) := EmitStep(answers, s, e);
      error.None? ==> InStep(s', base, accepted + [e])
  {
    RunSnoc(accepted, e);
    var (s', error) := EmitStep(answers, s, e);
    if error.None? {
      assert base + (accepted + [e]) == base + accepted + [e];
      if e.StepStart? {
        assert s.pending.None?;
        assert s.sink.received + [] == s.sink.received;
      } else if s.pending.Some? {
        assert s'.sink.received == s.sink.received + Held(s) + [e];
        assert s'.sink.received + [] == s'.sink.received;
      } else {
        assert s.sink.received + [] == s.sink.received;
        assert s'.sink.received + [] == s'.sink.received;
      }
    }
  }

  /** An error adds at most the held-back event to the sink: still a prefix of accepted events. */
  lemma ErrorAddsNoOther(answers: Answers, s: EmitterState, e: Event)
    requires EmitStep(answers, s, e).1.Some?
    ensures var s' := EmitStep(answers, s, e).0;
      s'.sink.received == s.sink.received || s'.sink.received == s.sink.received + Held(s)
  {
    assert s.sink.received + [] == s.sink.received;
  }

  /** However emission ends, the sink holds a sequence the validator accepts; and when it ends well in a
      terminal state, the sink holds the whole complete stream. */
  lemma {:induction false} SinkSeesOnlyValidStreams(
    answers: Answers, s: EmitterState, base: seq<Event>, accepted: seq<Event>, events: seq<Event>)
    requires InStep(s, base, accepted)
    ensures var (s', error) := EmitAll(answers, s, events);
      exists seen :: s'.sink.received == base + seen && seen <= accepted + events && Run(seen).Some?
    ensures var (s', error) := EmitAll(answers, s, events);
      error.None? ==> InStep(s', base, accepted + events)
    ensures var (s', error) := EmitAll(answers, s, events);
      error.None? && s'.validator.terminal ==>
        s'.sink.received == base + (accepted + events) && ValidStream(accepted + events)
    decreases |events|
  {
    if events == [] {
      assert accepted + [] == accepted;
      HeldIsSuffix(s, base, accepted);
      assert s.pending.None? ==> s.sink.received + [] == s.sink.received;
    } else {
      var (s1, error) := EmitStep(answers, s, events[0]);
      assert accepted + events == accepted + [events[0]] + events[1..];
      if error.None? {
        EmitKeepsInStep(answers, s, base, accepted, events[0]);
        SinkSeesOnlyValidStreams(answers, s1, base, accepted + [events[0]], events[1..]);
      } else {
        ErrorAddsNoOther(answers, s, events[0]);
        HeldIsSuffix(s, base, accepted);
        if s1.sink.received == s.sink.received + Held(s) {
          assert s1.sink.received == base + accepted;
        }
      }
    }
  }

  lemma HeldIsSuffix(s: EmitterState, base: seq<Event>, accepted: seq<Event>)
    requires InStep(s, base, accepted) && |s.sink.received| >= |base|
    ensures exists seen :: s.sink.received == base + seen && seen <= accepted && Run(seen).Some?
  {
    if s.pending.Some? {
      var seen := accepted[..|accepted| - 1];
      assert s.sink.received == (s.sink.received + Held(s))[..|s.sink.received|];
      assert (base + accepted)[..|base + accepted| - 1] == base + seen;
      assert accepted == seen + [accepted[|accepted| - 1]];
      RunSnoc(seen, accepted[|accepted| - 1]);
    } else {
      assert s.sink.received == base + accepted;
    }
  }
}
