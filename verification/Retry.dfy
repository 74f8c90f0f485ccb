/** internal/provider/retry.go, and the tail of the compatible adapter's `RunTurn`: attempts at one turn
    against a shared sink. */
module Retry {
  import opened Text
  import opened Stream
  import opened Emitter
  import opened Compatible
  import CompatibleTurn
  import StringOrder

  /** Delays in nanoseconds. */
  datatype Policy = Policy(maxAttempts: int, baseDelay: int, maxDelay: int)

  const TEN_MINUTES := 600_000_000_000

  predicate ValidPolicy(p: Policy) {
    0 < p.maxAttempts <= 16 && 0 <= p.baseDelay <= p.maxDelay <= TEN_MINUTES
  }

  function Power2(n: nat): (r: nat) {
    if n == 0 then 1 else 2 * Power2(n - 1)
  }

  predicate Retryable(status: int) {
    status in {408, 409, 425, 429, 500, 502, 503, 504}
  }

  /** The floating-point product is exact: the base is below 2^53 and the factor a power of two. */
  function Delay(p: Policy, attempt: nat, retryAfter: int): (d: int) {
    if retryAfter > 0 then (if retryAfter > p.maxDelay then p.maxDelay else retryAfter)
    else if p.baseDelay == 0 then 0
    else
      var d := p.baseDelay * Power2(attempt);
      if d < 0 || d > p.maxDelay then p.maxDelay else d
  }

  function Min(a: int, b: int): (r: int) {
    if a < b then a else b
  }

  /** The statuses worth another attempt: four of the client's and, "not implemented" apart, the server's first five. */
  lemma RetryableStatuses(status: int)
    ensures Retryable(status) <==>
      (status == 408 || status == 409 || status == 425 || status == 429 || (500 <= status < 505 && status != 501))
  {
  }

  /** Delays are capped, double until the cap, and honour Retry-After below it. */
  lemma DelayIsCapped(p: Policy, attempt: nat, retryAfter: int)
    requires ValidPolicy(p)
    ensures 0 <= Delay(p, attempt, retryAfter) <= p.maxDelay
    ensures retryAfter > 0 ==> Delay(p, attempt, retryAfter) == Min(retryAfter, p.maxDelay)
    ensures retryAfter <= 0 ==>
      Delay(p, attempt, retryAfter) == Min(p.baseDelay * Power2(attempt), p.maxDelay) &&
      Delay(p, attempt + 1, retryAfter) == Min(2 * Delay(p, attempt, retryAfter), p.maxDelay)
  {
    var power := Power2(attempt);
    assert p.baseDelay * (2 * power) == 2 * (p.baseDelay * power);
    assert power >= 0 && p.baseDelay * power >= 0;
  }

  // ---------- One attempt ----------

  /** What the transport does in one attempt. */
  datatype Script =
    | HttpFailure(status: int, retryAfter: int, classified: bool)
    | NotEventStream(status: int)
    | Streamed(status: int, frames: seq<Frame>, readFails: bool, cancelled: bool)

  datatype TurnResult = Complete | Attempt(status: int, started: bool, retryAfter: int) | Fatal

  function NewAttempt(status: int, started: bool, retryAfter: int): (r: TurnResult) {
    if status < 0 || status > 599 || retryAfter < 0 then Fatal else Attempt(status, started, retryAfter)
  }

  const REJECTION: seq<Event> := [StepStart(Finite(0.0), true), ProviderError(true)]

  /** What a classified rejection or a stream asks the emitter to send. */
  ghost function Planned(script: Script): (events: seq<Event>) {
    match script
    case HttpFailure(_, _, _) => REJECTION
    case NotEventStream(_) => []
    case Streamed(_, frames, _, _) => TurnPlan(frames).events
  }

  ghost function StreamResult(s: EmitterState, error: Option<EmitError>, script: Script): (r: TurnResult)
    requires script.Streamed?
  {
    var p := TurnPlan(script.frames);
    if error.Some? || p.failed || script.readFails then
      if script.cancelled then Fatal else NewAttempt(script.status, s.started, 0)
    else if !p.book.terminal || !s.validator.terminal then NewAttempt(script.status, s.started, 0)
    else Complete
  }

  /** `RunTurn` against a sink. */
  ghost function Turn(answers: Answers, sink: SinkState, script: Script): (r: (SinkState, TurnResult)) {
    var (s, error) := EmitAll(answers, Fresh(sink), Planned(script));
    match script
    case HttpFailure(status, retryAfter, classified) =>
      var failure := NewAttempt(status, false, retryAfter);
      if failure.Fatal? || !classified then (sink, failure)
      else (s.sink, if error.Some? || !s.validator.terminal then Fatal else Complete)
    case NotEventStream(status) => (sink, NewAttempt(status, false, 0))
    case Streamed(_, _, _, _) => (s.sink, StreamResult(s, error, script))
  }

  method Reject(sink: Sink) returns (r: TurnResult)
    modifies sink
    ensures var (s, error) := EmitAll(sink.answers, Fresh(old(sink.Abstract())), REJECTION);
      (sink.Abstract(), r) == (s.sink, if error.Some? || !s.validator.terminal then Fatal else Complete)
  {
    var emitter := new EventEmitter(sink);
    ghost var answers, start := sink.answers, emitter.Abstract();
    EmitHead(answers, start, StepStart(Finite(0.0), true), [ProviderError(true)]);
    assert REJECTION == [StepStart(Finite(0.0), true)] + [ProviderError(true)];
    assert [ProviderError(true)] + [] == [ProviderError(true)];
    var error := emitter.Emit(StepStart(Finite(0.0), true));
    if error.Some? { return Fatal; }
    EmitHead(answers, emitter.Abstract(), ProviderError(true), []);
    error := emitter.Emit(ProviderError(true));
    if error.Some? { return Fatal; }
    var complete := emitter.Done();
    r := if complete then Complete else Fatal;
  }

  method ReadStream(sink: Sink, script: Script) returns (r: TurnResult)
    requires script.Streamed?
    modifies sink
    ensures (sink.Abstract(), r) == Turn(sink.answers, old(sink.Abstract()), script)
  {
    var emitter := new EventEmitter(sink);
    ghost var answers, start := sink.answers, emitter.Abstract();
    EmitHead(answers, start, StepStart(Finite(0.0), true), FramesPlan(EMPTY_BOOK, script.frames).events);
    StepStartIsHeld(answers, sink.Abstract());
    var error := emitter.Emit(StepStart(Finite(0.0), true));
    var state := new StreamState(emitter);
    var failure := state.HandleFrames(script.frames);
    if failure.Some? || script.readFails {
      return if script.cancelled then Fatal else NewAttempt(script.status, emitter.started, 0);
    }
    if !state.terminal { return NewAttempt(script.status, emitter.started, 0); }
    var complete := emitter.Done();
    r := if complete then Complete else NewAttempt(script.status, emitter.started, 0);
  }

  method RunTurn(sink: Sink, script: Script) returns (r: TurnResult)
    modifies sink
    ensures (sink.Abstract(), r) == Turn(sink.answers, old(sink.Abstract()), script)
  {
    match script {
      case HttpFailure(status, retryAfter, classified) =>
        var failure := NewAttempt(status, false, retryAfter);
        if failure.Fatal? || !classified { return failure; }
        r := Reject(sink);
      case NotEventStream(status) => r := NewAttempt(status, false, 0);
      case Streamed(_, _, _, _) => r := ReadStream(sink, script);
    }
  }

  // ---------- Nothing is sent before the first meaningful event ----------

  lemma StepStartIsHeld(answers: Answers, sink: SinkState)
    ensures EmitStep(answers, Fresh(sink), StepStart(Finite(0.0), true)) ==
      (Fresh(sink).(validator := INITIAL.(stepActive := true), pending := Some(StepStart(Finite(0.0), true))), None)
  {
    assert (0.0 as real).Floor as real == 0.0;
  }

  /** A first event that marks the stream as started. */
  predicate Meaningful(events: seq<Event>) {
    events != [] ==> !(events[0].StepStart? || events[0].Finish? || events[0].Nil?)
  }

  lemma EndsAreMeaningful(b: Book, reason: FinishReason)
    ensures Meaningful(FinishPlan(b, reason).events)
  {
    var texts, thoughts := Ends(StringOrder.Sorted(b.text), true), Ends(StringOrder.Sorted(b.reasoning), false);
    assert Meaningful(texts) && Meaningful(thoughts);
    StringOrder.SortedLists(b.tools.Keys);
    ToolsAreMeaningful(b.tools, StringOrder.Sorted(b.tools.Keys));
    var (calls, failed) := CloseTools(b.tools, StringOrder.Sorted(b.tools.Keys));
    var tail := FinishEvents(failed, reason, b.usageEncodes && b.metadataEncodes);
    assert FinishPlan(b, reason).events == (texts + thoughts) + (calls + tail);
  }

  lemma {:induction false} ToolsAreMeaningful(tools: map<string, Tool>, keys: seq<string>)
    requires forall k | k in keys :: k in tools
    ensures Meaningful(CloseTools(tools, keys).0)
    decreases |keys|
  {
    if keys != [] && tools[keys[0]].called { ToolsAreMeaningful(tools, keys[1..]); }
  }

  lemma {:induction false} OpsAreMeaningful(b: Book, ops: seq<Op>)
    ensures Meaningful(ApplyAll(b, ops).1)
    decreases |ops|
  {
    if ops != [] {
      assert Meaningful(Apply(b, ops[0]).1);
      OpsAreMeaningful(Apply(b, ops[0]).0, ops[1..]);
    }
  }

  lemma FrameIsMeaningful(b: Book, f: Frame)
    ensures Meaningful(FramePlan(b, f).events)
  {
    if f.DoneFrame? { EndsAreMeaningful(b, b.reason.GetOr(Stop)); }
    if f.Chunk? {
      OpsAreMeaningful(WithMetadata(b, f).(usageEncodes := f.usage.GetOr(b.usageEncodes)), ChoicesOps(f.choices));
    }
  }

  lemma {:induction false} FramesAreMeaningful(b: Book, frames: seq<Frame>)
    ensures Meaningful(FramesPlan(b, frames).events)
    decreases |frames|
  {
    if frames != [] {
      FrameIsMeaningful(b, frames[0]);
      hide FramePlan;
      FramesAreMeaningful(FramePlan(b, frames[0]).book, frames[1..]);
    }
  }

  lemma {:induction false} StartedStays(answers: Answers, s: EmitterState, events: seq<Event>)
    requires s.started
    ensures EmitAll(answers, s, events).0.started
    decreases |events|
  {
    if events != [] {
      var (s1, error) := EmitStep(answers, s, events[0]);
      hide Accepted;
      if error.None? { StartedStays(answers, s1, events[1..]); }
    }
  }

  /** A stream not marked as started has sent nothing: the step start was held back. */
  lemma UnstartedSentNothing(answers: Answers, sink: SinkState, rest: seq<Event>)
    requires Meaningful(rest)
    ensures var s := EmitAll(answers, Fresh(sink), [StepStart(Finite(0.0), true)] + rest).0;
      !s.started ==> s.sink == sink
  {
    EmitHead(answers, Fresh(sink), StepStart(Finite(0.0), true), rest);
    StepStartIsHeld(answers, sink);
    if rest != [] {
      var s1 := EmitStep(answers, Fresh(sink), StepStart(Finite(0.0), true)).0;
      var (s2, error) := EmitStep(answers, s1, rest[0]);
      assert s2.started;
      if error.None? { StartedStays(answers, s2, rest[1..]); }
    }
  }

  /** An attempt error without a started stream left the sink as it was. */
  lemma UnstartedAttempt(answers: Answers, sink: SinkState, script: Script)
    ensures var (after, r) := Turn(answers, sink, script);
      r.Attempt? && !r.started ==> after == sink
  {
    if script.Streamed? {
      var rest := FramesPlan(EMPTY_BOOK, script.frames).events;
      FramesAreMeaningful(EMPTY_BOOK, script.frames);
      hide FramesPlan, Meaningful;
      UnstartedSentNothing(answers, sink, rest);
    }
  }

  // ---------- Retrying ----------

  /** The environment of one round: when the context is cancelled, and whether the pause is cut short. */
  datatype Round = Round(script: Script, cancelledBefore: bool, cancelledAfter: bool, sleepFails: bool)

  datatype Outcome = Success | InvalidPolicy | Failed(last: TurnResult) | Cancelled

  /** Round `k` failed in a way that allows another attempt, and left the sink alone. */
  ghost predicate Retried(policy: Policy, answers: Answers, sink: SinkState, rounds: nat -> Round, k: nat, delay: int) {
    var (after, r) := Turn(answers, sink, rounds(k).script);
    after == sink && r.Attempt? && !r.started && Retryable(r.status) && delay == Delay(policy, k, r.retryAfter)
  }

  /** `RunWithRetry`: whatever the number of attempts, the sink is as if the last one had been the only
      one, each earlier one having failed before its stream started. */
  method RunWithRetry(sink: Sink, policy: Policy, rounds: nat -> Round)
    returns (r: Outcome, attempts: nat, delays: seq<int>)
    modifies sink
    ensures r == InvalidPolicy <==> !ValidPolicy(policy)
    ensures attempts <= if ValidPolicy(policy) then policy.maxAttempts else 0
    ensures attempts == 0 ==> sink.Abstract() == old(sink.Abstract()) && r in {InvalidPolicy, Cancelled}
    ensures attempts > 0 ==>
      var (after, turn) := Turn(sink.answers, old(sink.Abstract()), rounds(attempts - 1).script);
      sink.Abstract() == after && (r == Success <==> turn == Complete) && (r.Failed? ==> r.last == turn)
    ensures attempts <= |delays| + 1 && |delays| <= attempts
    ensures forall k | 0 <= k < |delays| :: Retried(policy, sink.answers, old(sink.Abstract()), rounds, k, delays[k])
    ensures r.Failed? ==> |delays| + 1 == attempts
    ensures r.Failed? && r.last.Attempt? && Retryable(r.last.status) && !r.last.started ==>
      attempts == policy.maxAttempts
    ensures r == Cancelled ==>
      if |delays| == attempts then rounds(attempts).cancelledBefore || (attempts > 0 && rounds(attempts - 1).sleepFails)
      else rounds(attempts - 1).cancelledAfter
    ensures r.Failed? ==> !rounds(attempts - 1).cancelledAfter
    ensures forall k | 0 <= k < |delays| :: !rounds(k).cancelledBefore && !rounds(k).cancelledAfter
    ensures forall k | 0 <= k < attempts - 1 :: !rounds(k).sleepFails
  {
    hide Turn, Delay;
    attempts, delays := 0, [];
    if !ValidPolicy(policy) { return InvalidPolicy, 0, []; }
    while attempts < policy.maxAttempts
      invariant attempts <= policy.maxAttempts && |delays| == attempts
      invariant sink.Abstract() == old(sink.Abstract())
      invariant attempts < policy.maxAttempts
      invariant forall k | 0 <= k < attempts ::
        Retried(policy, sink.answers, old(sink.Abstract()), rounds, k, delays[k])
      invariant forall k | 0 <= k < attempts ::
        !rounds(k).cancelledBefore && !rounds(k).cancelledAfter && !rounds(k).sleepFails
    {
      var round := rounds(attempts);
      assert attempts > 0 ==>
        Retried(policy, sink.answers, old(sink.Abstract()), rounds, attempts - 1, delays[attempts - 1]);
      if round.cancelledBefore { return Cancelled, attempts, delays; }
      UnstartedAttempt(sink.answers, sink.Abstract(), round.script);
      var turn := RunTurn(sink, round.script);
      attempts := attempts + 1;
      if turn == Complete { return Success, attempts, delays; }
      if round.cancelledAfter { return Cancelled, attempts, delays; }
      if !turn.Attempt? || !Retryable(turn.status) || turn.started || attempts >= policy.maxAttempts {
        return Outcome.Failed(turn), attempts, delays;
      }
      delays := delays + [Delay(policy, attempts - 1, turn.retryAfter)];
      if round.sleepFails { return Cancelled, attempts, delays; }
    }
    assert false;
  }

  /** Where an attempt leaves the sink: untouched, or where emitting its plan leaves it. */
  lemma TurnEmits(answers: Answers, sink: SinkState, script: Script)
    ensures var (s, error) := EmitAll(answers, Fresh(sink), Planned(script));
      var (after, r) := Turn(answers, sink, script);
      if after == sink && !r.Complete? then true
      else after == s.sink && (r.Complete? ==> error.None? && s.validator.terminal)
  {
    hide EmitAll, Planned, TurnPlan;
    var (s, error) := EmitAll(answers, Fresh(sink), Planned(script));
    if script.Streamed? { assert Turn(answers, sink, script) == (s.sink, StreamResult(s, error, script)); }
    if script.HttpFailure? {
      var failure := NewAttempt(script.status, false, script.retryAfter);
      assert !failure.Fatal? && script.classified ==> Turn(answers, sink, script).0 == s.sink;
    }
  }

  lemma FreshInStep(sink: SinkState)
    ensures InStep(Fresh(sink), sink.received, [])
  {
    assert sink.received + [] == sink.received;
  }

  lemma NothingSeen(sink: SinkState, events: seq<Event>)
    ensures sink.received == sink.received + [] && [] <= events && Run([]).Some?
  {
  }

  /** Every event that an attempt sends belongs to that attempt's own stream: one the validator accepts
      so far, and the complete stream when the attempt succeeds. */
  lemma AttemptSendsItsOwnStream(answers: Answers, sink: SinkState, script: Script)
    ensures var (after, r) := Turn(answers, sink, script);
      exists seen ::
        after.received == sink.received + seen && seen <= Planned(script) && Run(seen).Some? &&
        (r.Complete? ==> seen == Planned(script) && ValidStream(seen))
  {
    hide *;
    var events, start := Planned(script), Fresh(sink);
    TurnEmits(answers, sink, script);
    FreshInStep(sink);
    SinkSeesOnlyValidStreams(answers, start, sink.received, [], events);
    assert [] + events == events;
    NothingSeen(sink, events);
    var (s, error) := EmitAll(answers, start, events);
    var (after, r) := Turn(answers, sink, script);
    if r.Complete? {
      ValidMeansRun(events);
      assert after.received == sink.received + events && events <= events;
    }
  }

  /** Against a sink that takes everything an attempt completes exactly when its stream is read to the end of a
      complete turn, or when its rejection is a classified one with a proper status. */
  lemma AttemptCompletesExactly(answers: Answers, sink: SinkState, script: Script)
    requires forall n :: answers(n)
    ensures Turn(answers, sink, script).1.Complete? <==>
      match script
      case HttpFailure(status, retryAfter, classified) => classified && 0 <= status <= 599 && retryAfter >= 0
      case NotEventStream(_) => false
      case Streamed(_, frames, readFails, _) => CompatibleTurn.Completes(frames) && !readFails
  {
    match script {
      case HttpFailure(_, _, _) => RejectionIsTaken(answers, sink);
      case NotEventStream(_) =>
      case Streamed(_, _, _, _) => StreamIsTaken(answers, sink, script);
    }
  }

  lemma RejectionIsTaken(answers: Answers, sink: SinkState)
    requires forall n :: answers(n)
    ensures var (s, error) := EmitAll(answers, Fresh(sink), REJECTION); error.None? && s.validator.terminal
  {
    RejectionRuns();
    hide EmitAll, Run;
    CompatibleTurn.WillingRun(answers, sink, REJECTION);
  }

  lemma RejectionRuns()
    ensures Run(REJECTION).Some? && Run(REJECTION).value.terminal
  {
    CompatibleTurn.StartSimulates();
    var start, error := StepStart(Finite(0.0), true), ProviderError(true);
    assert [] + [start] == [start] && REJECTION == [start] + [error];
    RunSnoc([], start);
    RunSnoc([start], error);
    assert Run([]) == Some(INITIAL);
  }

  lemma StreamIsTaken(answers: Answers, sink: SinkState, script: Script)
    requires script.Streamed? && forall n :: answers(n)
    ensures Turn(answers, sink, script).1.Complete? <==> CompatibleTurn.Completes(script.frames) && !script.readFails
  {
    var p := TurnPlan(script.frames);
    var (s, error) := EmitAll(answers, Fresh(sink), p.events);
    assert ValidStream(p.events) <==> Run(p.events).Some? && Run(p.events).value.terminal;
    hide EmitAll, Run, TurnPlan, CompatibleTurn.Completes, ValidStream;
    CompatibleTurn.WillingRun(answers, sink, p.events);
    CompatibleTurn.CompletesExactly(script.frames);
    if CompatibleTurn.Completes(script.frames) { CompatibleTurn.CompleteIsTerminal(script.frames); }
  }

  lemma ValidMeansRun(events: seq<Event>)
    ensures ValidStream(events) ==> Run(events).Some?
  {
    hide Run;
  }
}
