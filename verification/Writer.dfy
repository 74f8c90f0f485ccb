/** internal/store/sqlite/store.go and rebuild.go: the single writer. Writes, projection rebuilds and Close
    interleave step by step around one token and one connection; SQL statements may fail at any point. */
module Writer {
  import opened Text

  // ---------- Statements ----------

  /** What a statement or callback comes to; SQLite may roll the transaction back by itself. */
  datatype Luck = Fine | Fails | FailsRolledBack | FineRolledBack

  /** BEGIN fails inside a transaction, and otherwise opens one or nothing. */
  function Begun(open: bool, luck: Luck): (r: (bool, bool)) {
    if open then (false, true) else (luck.Fine?, luck.Fine?)
  }

  /** COMMIT and ROLLBACK need a transaction; a failure may have ended it all the same. */
  function Ended(open: bool, luck: Luck): (r: (bool, bool)) {
    if !open then (false, false) else (luck.Fine?, luck.Fails?)
  }

  // ---------- The protocol ----------

  datatype Pc =
    | Entering | Waiting | Checking | Beginning | Running | Committing
    | RollingBack | Probing | EndingProbe | Releasing(ok: bool)
    | Closing | CloseWaiting | Freeing | Closed
    | Returned(ok: bool)

  /** `open` is the operation whose transaction is open; `committed` the operations whose COMMIT took effect. */
  datatype World = World(
    open: Option<nat>, token: Option<nat>, closed: bool, broken: bool, freed: bool, ops: map<nat, Pc>,
    committed: set<nat>)

  const START := World(None, None, false, false, false, map[], {})

  datatype Move = Write(id: nat) | Close(id: nat) | Go(id: nat, luck: Luck)

  predicate CanMove(w: World, m: Move) {
    match m
    case Write(id) => id !in w.ops
    case Close(id) => id !in w.ops && !w.closed && forall i | i in w.ops :: !w.ops[i].Closing?
    case Go(id, luck) =>
      id in w.ops && !w.ops[id].Returned? && !w.ops[id].Closed? &&
      ((w.ops[id].Waiting? && luck.Fine?) || w.ops[id].CloseWaiting? ==> w.token == None)
  }

  function At(w: World, id: nat, pc: Pc): (r: World) {
    w.(ops := w.ops[id := pc])
  }

  /** What a step of an operation does to the store, and where the operation goes on. Statements of whoever holds
      the token run on the one connection. */
  function Stepped(w: World, id: nat, luck: Luck): (r: (World, Pc))
    requires CanMove(w, Go(id, luck))
    ensures r.0.ops == w.ops && r.0.committed - {id} == w.committed - {id}
  {
    var open := w.open.Some?;
    match w.ops[id]
    case Entering => (w, if luck.Fails? || w.closed || w.broken then Returned(false) else Waiting)
    case Waiting => if luck.Fine? then (w.(token := Some(id)), Checking) else (w, Returned(false))
    case Checking => (w, if w.closed || w.broken then Releasing(false) else Beginning)
    case Beginning =>
      var (ok, open1) := Begun(open, luck);
      if ok then (w.(open := Some(id)), Running) else (w, Releasing(false))
    case Running =>
      var w1 := if luck.FailsRolledBack? || luck.FineRolledBack? then w.(open := None) else w;
      (w1, if luck.Fine? || luck.FineRolledBack? then Committing else RollingBack)
    case Committing =>
      var (ok, open1) := Ended(open, luck);
      var w1 := w.(open := if open1 then w.open else None);
      if ok then (w1.(committed := w.committed + {id}), Releasing(true)) else (w1, RollingBack)
    case RollingBack =>
      var (ok, open1) := Ended(open, luck);
      (w.(open := if open1 then w.open else None), if ok then Releasing(false) else Probing)
    case Probing =>
      var (ok, open1) := Begun(open, luck);
      if ok then (w.(open := Some(id)), EndingProbe) else (w.(broken := true), Releasing(false))
    case EndingProbe =>
      var (ok, open1) := Ended(open, luck);
      (w.(open := if open1 then w.open else None, broken := w.broken || !ok), Releasing(false))
    case Releasing(ok) => (w.(token := None), Returned(ok))
    case Closing => (w.(closed := true), CloseWaiting)
    case CloseWaiting => (w.(token := Some(id)), Freeing)
    case Freeing => (w.(freed := true), Closed)
    case _ => (w, Closed)
  }

  /** One step of an operation. */
  function Gone(w: World, id: nat, luck: Luck): (r: World)
    requires CanMove(w, Go(id, luck))
  {
    var (w1, pc) := Stepped(w, id, luck);
    At(w1, id, pc)
  }

  function Moved(w: World, m: Move): (r: World)
    requires CanMove(w, m)
  {
    match m
    case Write(id) => At(w, id, Entering)
    case Close(id) => At(w, id, Closing)
    case Go(id, luck) => Gone(w, id, luck)
  }

  // ---------- Invariants ----------

  /** The places at which an operation holds the token. */
  predicate Holds(pc: Pc) {
    pc.Checking? || pc.Beginning? || InTransaction(pc) || pc.Releasing? || pc.Freeing?
  }

  /** From a successful BEGIN to the end of the clean-up. */
  predicate InTransaction(pc: Pc) {
    pc.Running? || pc.Committing? || pc.RollingBack? || pc.Probing? || pc.EndingProbe?
  }

  predicate Released(w: World, id: nat) {
    id in w.ops && w.ops[id].Closed? && w.freed
  }

  predicate Place(w: World, id: nat)
    requires id in w.ops
  {
    var pc := w.ops[id];
    (Holds(pc) ==> w.token == Some(id)) &&
    (pc.Beginning? || InTransaction(pc) ==> !w.broken && !w.freed) &&
    (pc.Beginning? ==> w.open == None) &&
    (InTransaction(pc) ==> w.open == None || w.open == Some(id)) &&
    (pc.Releasing? && w.open.Some? ==> w.broken) &&
    (pc.Freeing? || pc.CloseWaiting? ==> w.closed) &&
    (pc.Freeing? ==> !w.freed) &&
    (id in w.committed <==> (pc.Releasing? || pc.Returned?) && pc.ok)
  }

  predicate Inv(w: World) {
    (forall id | id in w.ops :: Place(w, id)) &&
    (w.token.Some? ==> w.token.value in w.ops && (Holds(w.ops[w.token.value]) || Released(w, w.token.value))) &&
    (w.open.Some? && !w.broken ==> w.token.Some? && InTransaction(w.ops[w.token.value]) && w.open == w.token) &&
    (w.freed ==> w.closed && w.token.Some? && w.ops[w.token.value].Closed?) &&
    (forall id | id in w.committed :: id in w.ops)
  }

  /** The steps that run a statement on the connection. */
  predicate Executes(w: World, m: Move) {
    m.Go? && m.id in w.ops && (w.ops[m.id].Beginning? || InTransaction(w.ops[m.id]))
  }

  lemma GoKeepsOthers(w: World, id: nat, luck: Luck)
    requires Inv(w) && CanMove(w, Go(id, luck))
    ensures var w1 := Gone(w, id, luck); forall i | i in w1.ops && i != id :: Place(w1, i)
  {
    assert id in w.ops;
    hide CanMove, Begun, Ended;
    var w1 := Gone(w, id, luck);
    forall i | i in w1.ops && i != id ensures Place(w1, i) {
      assert Place(w, i) && Place(w, id);
      assert Holds(w.ops[id]) ==> !Holds(w.ops[i]);
    }
  }

  lemma TransactionKeepsOwn(w: World, id: nat, luck: Luck)
    requires Inv(w) && CanMove(w, Go(id, luck)) && InTransaction(w.ops[id])
    ensures Place(Gone(w, id, luck), id)
  {
    assert Place(w, id);
    hide Inv;
  }

  lemma GoKeepsOwn(w: World, id: nat, luck: Luck)
    requires Inv(w) && CanMove(w, Go(id, luck))
    ensures Place(Gone(w, id, luck), id)
  {
    assert Place(w, id);
    if InTransaction(w.ops[id]) { TransactionKeepsOwn(w, id, luck); }
  }

  lemma GoKeepsRest(w: World, id: nat, luck: Luck)
    requires Inv(w) && CanMove(w, Go(id, luck))
    requires forall i | i in Gone(w, id, luck).ops :: Place(Gone(w, id, luck), i)
    ensures Inv(Gone(w, id, luck))
  {
    assert Place(w, id);
    if InTransaction(w.ops[id]) { TransactionKeepsRest(w, id, luck); }
  }

  lemma TransactionKeepsRest(w: World, id: nat, luck: Luck)
    requires Inv(w) && CanMove(w, Go(id, luck)) && InTransaction(w.ops[id])
    requires forall i | i in Gone(w, id, luck).ops :: Place(Gone(w, id, luck), i)
    ensures Inv(Gone(w, id, luck))
  {
    assert Place(w, id);
  }

  lemma MoveKeeps(w: World, m: Move)
    requires Inv(w) && CanMove(w, m)
    ensures Inv(Moved(w, m))
  {
    if m.Go? {
      hide Inv, Place, Gone;
      GoKeepsOthers(w, m.id, m.luck);
      GoKeepsOwn(w, m.id, m.luck);
      GoKeepsRest(w, m.id, m.luck);
    } else {
      assert forall i | i in w.ops :: Place(w, i);
    }
  }

  // ---------- Runs ----------

  predicate IsRun(worlds: seq<World>, moves: seq<Move>) {
    |worlds| == |moves| + 1 && worlds[0] == START &&
    forall i | 0 <= i < |moves| :: Steps(worlds[i], moves[i], worlds[i + 1])
  }

  predicate Steps(w: World, m: Move, w1: World) {
    CanMove(w, m) && w1 == Moved(w, m)
  }

  lemma {:induction false} RunKeeps(worlds: seq<World>, moves: seq<Move>, i: nat)
    requires IsRun(worlds, moves) && i < |worlds|
    ensures Inv(worlds[i])
    decreases i
  {
    hide CanMove, Moved, Inv;
    if i == 0 {
      StartHolds();
    } else {
      RunKeeps(worlds, moves, i - 1);
      assert Steps(worlds[i - 1], moves[i - 1], worlds[i - 1 + 1]);
      MoveKeeps(worlds[i - 1], moves[i - 1]);
    }
  }

  lemma StartHolds()
    ensures Inv(START)
  {
  }

  /** Under every interleaving: with the token free and the store not broken the connection is in autocommit;
      an open transaction belongs to the token's holder; a write succeeds exactly when its COMMIT took effect. */
  lemma EveryRunIsSafe(worlds: seq<World>, moves: seq<Move>, i: nat)
    requires IsRun(worlds, moves) && i < |worlds|
    ensures var w := worlds[i];
      (w.token == None && !w.broken ==> w.open == None) &&
      (w.open.Some? && !w.broken ==> w.open == w.token) &&
      (forall j, k | j in w.ops && k in w.ops && Holds(w.ops[j]) && Holds(w.ops[k]) :: j == k) &&
      (forall id | id in w.committed :: id in w.ops) &&
      (forall id | id in w.ops :: id in w.committed <==> (w.ops[id].Releasing? || w.ops[id].Returned?) && w.ops[id].ok)
  {
    RunKeeps(worlds, moves, i);
    var w := worlds[i];
    assert forall id | id in w.ops :: Place(w, id);
  }

  /** No statement runs once the store is broken or its connection freed, and a transaction is only ever begun
      on a connection in autocommit. */
  lemma NothingRunsAfterBroken(worlds: seq<World>, moves: seq<Move>, i: nat)
    requires IsRun(worlds, moves) && i < |moves| && Executes(worlds[i], moves[i])
    ensures var w := worlds[i];
      !w.broken && !w.freed && w.token == Some(moves[i].id) && (w.ops[moves[i].id].Beginning? ==> w.open == None)
  {
    RunKeeps(worlds, moves, i);
    assert Place(worlds[i], moves[i].id);
  }

  /** Closing frees the connection only while no write or rebuild holds the token, and nothing runs on it later. */
  lemma CloseFreesWhenIdle(worlds: seq<World>, moves: seq<Move>, i: nat, j: nat)
    requires IsRun(worlds, moves) && i <= j < |worlds| && worlds[i].freed
    ensures worlds[j].freed && worlds[j].closed
    ensures forall id | id in worlds[j].ops :: !Holds(worlds[j].ops[id])
    decreases j - i
  {
    RunKeeps(worlds, moves, j);
    FreedStays(worlds, moves, i, j);
    var w := worlds[j];
    forall id | id in w.ops ensures !Holds(w.ops[id]) { assert Place(w, id); }
  }

  lemma {:induction false} FreedStays(worlds: seq<World>, moves: seq<Move>, i: nat, j: nat)
    requires IsRun(worlds, moves) && i <= j < |worlds|
    ensures worlds[i].freed ==> worlds[j].freed
    ensures worlds[i].closed ==> worlds[j].closed
    ensures worlds[i].broken ==> worlds[j].broken
    decreases j - i
  {
    if i < j {
      FreedStays(worlds, moves, i, j - 1);
      assert Steps(worlds[j - 1], moves[j - 1], worlds[j - 1 + 1]);
    }
  }

  /** Not begun, or over without a commit. */
  predicate Doomed(w: World, id: nat) {
    id in w.ops && (w.ops[id].Entering? || w.ops[id] == Returned(false)) && id !in w.committed
  }

  lemma DoomedStays(w: World, m: Move, id: nat)
    requires CanMove(w, m) && Doomed(w, id) && (w.closed || w.broken)
    ensures Doomed(Moved(w, m), id)
  {
    if m.Go? && m.id != id { OtherStays(w, m.id, m.luck, id); }
  }

  lemma OtherStays(w: World, id: nat, luck: Luck, other: nat)
    requires CanMove(w, Go(id, luck)) && other != id && other in w.ops
    ensures var w1 := Gone(w, id, luck);
      other in w1.ops && w1.ops[other] == w.ops[other] && (other in w1.committed <==> other in w.committed)
  {
    hide Stepped, CanMove;
    assert other in w.committed <==> other in w.committed - {id};
  }

  /** A write that enters once the store is closed or broken fails, whatever happens in between. */
  lemma {:induction false} LateWritesFail(worlds: seq<World>, moves: seq<Move>, i: nat, j: nat, id: nat)
    requires IsRun(worlds, moves) && i <= j < |worlds| && (worlds[i].closed || worlds[i].broken)
    requires id in worlds[i].ops && worlds[i].ops[id].Entering?
    ensures Doomed(worlds[j], id)
    decreases j - i
  {
    hide CanMove, Moved, Inv;
    if i == j {
      RunKeeps(worlds, moves, i);
      NotYetCommitted(worlds[i], id);
    } else {
      LateWritesFail(worlds, moves, i, j - 1, id);
      FreedStays(worlds, moves, i, j - 1);
      assert Steps(worlds[j - 1], moves[j - 1], worlds[j - 1 + 1]);
      DoomedStays(worlds[j - 1], moves[j - 1], id);
    }
  }

  lemma NotYetCommitted(w: World, id: nat)
    requires Inv(w) && id in w.ops && w.ops[id].Entering?
    ensures Doomed(w, id)
  {
    assert Place(w, id);
  }

  // ---------- One operation at a time ----------

  /** A clean-up that starts at statement `n` proves that the connection is in autocommit: ROLLBACK works, or
      there was nothing left for it to end and a probe transaction begins and ends. */
  predicate Recovers(open: bool, luck: nat -> Luck, n: nat) {
    if open && luck(n).Fine? then true else !(open && luck(n).Fails?) && luck(n + 1).Fine? && luck(n + 2).Fine?
  }

  /** A write whose BEGIN is statement `n` commits: BEGIN, the callback and COMMIT all go well. */
  predicate Commits(luck: nat -> Luck, n: nat, callback: Luck, cancelledLate: bool) {
    luck(n).Fine? && callback.Fine? && !cancelledLate && luck(n + 1).Fine?
  }

  /** A write whose BEGIN is statement `n` fails in a way it cannot clean up. COMMIT was tried if the callback
      returned well before a cancellation; the transaction is open until the database has ended it. */
  predicate Breaks(luck: nat -> Luck, n: nat, callback: Luck, cancelledLate: bool) {
    luck(n).Fine? && !Commits(luck, n, callback, cancelledLate) &&
    if (callback.Fine? || callback.FineRolledBack?) && !cancelledLate
    then !Recovers(callback.Fine? && luck(n + 1).Fails?, luck, n + 2)
    else !Recovers(callback.Fine? || callback.Fails?, luck, n + 1)
  }

  // ---------- The steps of an operation that meets nobody ----------

  /** A callback that a cancellation overtakes has failed. */
  function Overtaken(callback: Luck): (r: Luck) {
    match callback
    case Fine => Fails
    case FineRolledBack => FailsRolledBack
    case _ => callback
  }

  predicate ReadyAlone(w: World, id: nat) {
    id in w.ops && !Closes(w.ops[id]) && (w.ops[id].Entering? || w.ops[id].Waiting? ==> w.token == None)
  }

  predicate RunsStatement(pc: Pc) {
    pc.Beginning? || (InTransaction(pc) && !pc.Running?)
  }

  /** Where a write ends when it steps and nobody else does: statement `n` is its next. */
  function Alone(w: World, id: nat, luck: nat -> Luck, n: nat, callback: Luck): (r: World)
    requires ReadyAlone(w, id)
    decreases Left(w.ops[id])
  {
    var pc := w.ops[id];
    if pc.Returned? then w
    else
      var l := if pc.Running? then callback else if RunsStatement(pc) then luck(n) else Fine;
      Alone(Gone(w, id, l), id, luck, if RunsStatement(pc) then n + 1 else n, callback)
  }

  /** The world in which the operation has returned. */
  function Finished(w: World, id: nat, ok: bool, open: Option<nat>, broken: bool): (r: World) {
    w.(ops := w.ops[id := Returned(ok)], token := None, open := open, broken := broken,
       committed := if ok then w.committed + {id} else w.committed)
  }

  lemma ReleasingAlone(w: World, id: nat, luck: nat -> Luck, n: nat, callback: Luck)
    requires ReadyAlone(w, id) && w.ops[id].Releasing?
    ensures Alone(w, id, luck, n, callback) == w.(ops := w.ops[id := Returned(w.ops[id].ok)], token := None)
  {
    var w1 := Gone(w, id, Fine);
    assert w1.ops[id].Returned?;
    assert Alone(w1, id, luck, n, callback) == w1;
  }

  /** The probe proves that the connection is in autocommit if and only if it begins and ends. */
  lemma ProbingAlone(w: World, id: nat, luck: nat -> Luck, n: nat, callback: Luck)
    requires ReadyAlone(w, id) && w.ops[id].Probing? && !w.broken
    ensures var proved := w.open.None? && luck(n).Fine? && luck(n + 1).Fine?;
      var v := Alone(w, id, luck, n, callback);
      v == Finished(w, id, false, v.open, !proved) && (proved ==> v.open == None)
  {
    hide Alone, Gone, CanMove, ReadyAlone;
    AloneUnfolds(w, id, luck, n, callback);
    ProbingSteps(w, id, luck(n));
    var w1 := Gone(w, id, luck(n));
    if w1.ops[id].EndingProbe? {
      AloneUnfolds(w1, id, luck, n + 1, callback);
      EndingProbeSteps(w1, id, luck(n + 1));
      ReleasingAlone(Gone(w1, id, luck(n + 1)), id, luck, n + 2, callback);
    } else {
      ReleasingAlone(w1, id, luck, n + 1, callback);
    }
  }

  lemma RollingBackAlone(w: World, id: nat, luck: nat -> Luck, n: nat, callback: Luck)
    requires ReadyAlone(w, id) && w.ops[id].RollingBack? && !w.broken
    ensures var recovers := Recovers(w.open.Some?, luck, n);
      var v := Alone(w, id, luck, n, callback);
      v == Finished(w, id, false, v.open, !recovers) && (recovers ==> v.open == None)
  {
    hide Alone, Gone, CanMove, ReadyAlone;
    AloneUnfolds(w, id, luck, n, callback);
    RollingBackSteps(w, id, luck(n));
    var w1 := Gone(w, id, luck(n));
    if w1.ops[id].Probing? {
      ProbingAlone(w1, id, luck, n + 1, callback);
    } else {
      ReleasingAlone(w1, id, luck, n + 1, callback);
    }
  }

  lemma AloneUnfolds(w: World, id: nat, luck: nat -> Luck, n: nat, callback: Luck)
    requires ReadyAlone(w, id) && !w.ops[id].Returned?
    ensures var l := if w.ops[id].Running? then callback else if RunsStatement(w.ops[id]) then luck(n) else Fine;
      CanMove(w, Go(id, l)) && ReadyAlone(Gone(w, id, l), id) &&
      Alone(w, id, luck, n, callback) ==
        Alone(Gone(w, id, l), id, luck, if RunsStatement(w.ops[id]) then n + 1 else n, callback)
  {
  }

  lemma RollingBackSteps(w: World, id: nat, luck: Luck)
    requires ReadyAlone(w, id) && w.ops[id].RollingBack?
    ensures Gone(w, id, luck) ==
      if w.open.Some? && luck.Fine? then At(w.(open := None), id, Releasing(false))
      else At(w.(open := if luck.Fails? then w.open else None), id, Probing)
  {
  }

  lemma ProbingSteps(w: World, id: nat, luck: Luck)
    requires ReadyAlone(w, id) && w.ops[id].Probing?
    ensures Gone(w, id, luck) ==
      if w.open.None? && luck.Fine? then At(w.(open := Some(id)), id, EndingProbe)
      else At(w.(broken := true), id, Releasing(false))
  {
  }

  lemma EndingProbeSteps(w: World, id: nat, luck: Luck)
    requires ReadyAlone(w, id) && w.ops[id].EndingProbe? && w.open.Some?
    ensures Gone(w, id, luck) ==
      At(w.(open := if luck.Fails? then w.open else None, broken := w.broken || !luck.Fine?), id, Releasing(false))
  {
  }

  lemma RunningSteps(w: World, id: nat, callback: Luck)
    requires ReadyAlone(w, id) && w.ops[id].Running?
    ensures Gone(w, id, callback) ==
      At(w.(open := if callback.Fine? || callback.Fails? then w.open else None), id,
         if callback.Fine? || callback.FineRolledBack? then Committing else RollingBack)
  {
  }

  lemma CommittingSteps(w: World, id: nat, luck: Luck)
    requires ReadyAlone(w, id) && w.ops[id].Committing?
    ensures Gone(w, id, luck) ==
      if w.open.Some? && luck.Fine?
      then At(w.(open := None, committed := w.committed + {id}), id, Releasing(true))
      else At(w.(open := if luck.Fails? then w.open else None), id, RollingBack)
  {
  }

  /** From a transaction just begun. */
  lemma RunningAlone(w: World, id: nat, luck: nat -> Luck, n: nat, callback: Luck)
    requires ReadyAlone(w, id) && w.ops[id].Running? && w.open == Some(id) && !w.broken && luck(n).Fine?
    ensures var v := Alone(w, id, luck, n + 1, callback);
      v == Finished(w, id, Commits(luck, n, callback, false), v.open, Breaks(luck, n, callback, false)) &&
      (!v.broken ==> v.open == None)
  {
    hide Alone, Gone, CanMove, ReadyAlone, Recovers;
    AloneUnfolds(w, id, luck, n + 1, callback);
    RunningSteps(w, id, callback);
    var w1 := Gone(w, id, callback);
    if w1.ops[id].Committing? {
      AloneUnfolds(w1, id, luck, n + 1, callback);
      CommittingSteps(w1, id, luck(n + 1));
      var w2 := Gone(w1, id, luck(n + 1));
      if w2.ops[id].Releasing? {
        ReleasingAlone(w2, id, luck, n + 2, callback);
      } else {
        RollingBackAlone(w2, id, luck, n + 2, callback);
      }
    } else {
      RollingBackAlone(w1, id, luck, n + 1, callback);
    }
  }

  /** The step relation and the operation as one call agree: left alone with a free token, a write that enters
      commits and breaks the store exactly as `Store.Write` says, and gives the token back. */
  lemma AloneIsWrite(w: World, id: nat, luck: nat -> Luck, n: nat, callback: Luck, cancelledLate: bool)
    requires Inv(w) && id in w.ops && w.ops[id].Entering? && w.token == None
    ensures var admitted := !w.closed && !w.broken;
      var v := Alone(w, id, luck, n, if cancelledLate then Overtaken(callback) else callback);
      v == Finished(w, id, admitted && Commits(luck, n, callback, cancelledLate), v.open,
                    w.broken || (admitted && Breaks(luck, n, callback, cancelledLate))) &&
      (!v.broken ==> v.open == None)
  {
    var c := if cancelledLate then Overtaken(callback) else callback;
    hide Recovers;
    assert Commits(luck, n, callback, cancelledLate) == Commits(luck, n, c, false);
    assert Breaks(luck, n, callback, cancelledLate) == Breaks(luck, n, c, false);
    FreeMeans(w);
    EnteringAlone(w, id, luck, n, c);
  }

  lemma EnteringAlone(w: World, id: nat, luck: nat -> Luck, n: nat, callback: Luck)
    requires ReadyAlone(w, id) && w.ops[id].Entering? && w.token == None && (!w.broken ==> w.open == None)
    ensures var admitted := !w.closed && !w.broken;
      var v := Alone(w, id, luck, n, callback);
      v == Finished(w, id, admitted && Commits(luck, n, callback, false), v.open,
                    w.broken || (admitted && Breaks(luck, n, callback, false))) &&
      (!v.broken ==> v.open == None)
  {
    hide Alone, Gone, CanMove, ReadyAlone, Commits, Breaks;
    AloneUnfolds(w, id, luck, n, callback);
    EnteringSteps(w, id);
    var w1 := Gone(w, id, Fine);
    if !w.closed && !w.broken {
      WaitingAlone(w1, id, luck, n, callback);
    } else {
      ReturnedAlone(w1, id, luck, n, callback);
    }
  }

  lemma WaitingAlone(w: World, id: nat, luck: nat -> Luck, n: nat, callback: Luck)
    requires ReadyAlone(w, id) && w.ops[id].Waiting? && !w.closed && !w.broken && w.open == None
    ensures var v := Alone(w, id, luck, n, callback);
      v == Finished(w, id, Commits(luck, n, callback, false), v.open, Breaks(luck, n, callback, false)) &&
      (!v.broken ==> v.open == None)
  {
    hide Alone, Gone, CanMove, ReadyAlone, Commits, Breaks;
    AloneUnfolds(w, id, luck, n, callback);
    AdmittedSteps(w, id);
    var w1 := Gone(w, id, Fine);
    AloneUnfolds(w1, id, luck, n, callback);
    BeginningAlone(Gone(w1, id, Fine), id, luck, n, callback);
  }

  lemma ReturnedAlone(w: World, id: nat, luck: nat -> Luck, n: nat, callback: Luck)
    requires ReadyAlone(w, id) && w.ops[id].Returned?
    ensures Alone(w, id, luck, n, callback) == w
  {
  }

  lemma EnteringSteps(w: World, id: nat)
    requires ReadyAlone(w, id) && w.ops[id].Entering? && CanMove(w, Go(id, Fine))
    ensures Gone(w, id, Fine) == At(w, id, if w.closed || w.broken then Returned(false) else Waiting)
  {
  }

  lemma AdmittedSteps(w: World, id: nat)
    requires ReadyAlone(w, id) && w.ops[id].Waiting? && !w.closed && !w.broken && CanMove(w, Go(id, Fine))
    ensures var w1 := Gone(w, id, Fine);
      w1 == At(w.(token := Some(id)), id, Checking) && CanMove(w1, Go(id, Fine)) &&
      Gone(w1, id, Fine) == At(w.(token := Some(id)), id, Beginning)
  {
  }

  lemma BeginningSteps(w: World, id: nat, luck: Luck)
    requires ReadyAlone(w, id) && w.ops[id].Beginning? && w.open == None
    ensures Gone(w, id, luck) ==
      if luck.Fine? then At(w.(open := Some(id)), id, Running) else At(w, id, Releasing(false))
  {
  }

  lemma FreeMeans(w: World)
    requires Inv(w) && w.token == None
    ensures !w.broken ==> w.open == None
  {
  }

  lemma BeginningAlone(w: World, id: nat, luck: nat -> Luck, n: nat, callback: Luck)
    requires ReadyAlone(w, id) && w.ops[id].Beginning? && w.open == None && !w.broken
    ensures var v := Alone(w, id, luck, n, callback);
      v == Finished(w, id, Commits(luck, n, callback, false), v.open, Breaks(luck, n, callback, false)) &&
      (!v.broken ==> v.open == None)
  {
    hide Alone, Gone, CanMove, ReadyAlone, Recovers;
    AloneUnfolds(w, id, luck, n, callback);
    BeginningSteps(w, id, luck(n));
    var w1 := Gone(w, id, luck(n));
    if luck(n).Fine? {
      RunningAlone(w1, id, luck, n, callback);
    } else {
      ReleasingAlone(w1, id, luck, n + 1, callback);
    }
  }

  /** The store as one operation sees it when it finds the token free. */
  class Store {
    var open: bool
    var tokenFree: bool
    var closed: bool
    var broken: bool
    var freed: bool
    var commits: nat
    var statements: nat
    const luck: nat -> Luck

    constructor (luck: nat -> Luck)
      ensures Safe() && tokenFree && !closed && !broken && !freed && commits == 0 && this.luck == luck
    {
      this.luck := luck;
      open, tokenFree, closed, broken, freed, commits, statements := false, true, false, false, false, 0, 0;
    }

    predicate Safe()
      reads this
    {
      (!broken ==> !open) && (freed ==> closed && !tokenFree)
    }

    method Begin() returns (ok: bool)
      modifies this`open, this`statements
      ensures (ok, open) == Begun(old(open), luck(old(statements))) && statements == old(statements) + 1
    {
      var l := luck(statements);
      statements := statements + 1;
      ok := !open && l.Fine?;
      if ok { open := true; }
    }

    method End() returns (ok: bool)
      modifies this`open, this`statements
      ensures (ok, open) == Ended(old(open), luck(old(statements))) && statements == old(statements) + 1
    {
      var l := luck(statements);
      statements := statements + 1;
      ok := open && l.Fine?;
      open := open && l.Fails?;
    }

    /** `rollbackEventTransaction`: a failed ROLLBACK is excused only when a fresh transaction can be begun and
        rolled back, which proves the connection is in autocommit. */
    method RollBack() returns (proved: bool)
      modifies this`open, this`statements
      ensures proved ==> !open
      ensures proved <==> Recovers(old(open), luck, old(statements))
      ensures statements <= old(statements) + 3
    {
      var ended := End();
      if ended { return true; }
      var begun := Begin();
      if !begun { return false; }
      proved := End();
    }

    /** `Write`, and equally a rebuild: `callback` is what the work inside the transaction comes to. */
    method Write(cancelled: bool, cancelledLate: bool, callback: Luck) returns (ok: bool)
      requires Safe() && tokenFree
      modifies this
      ensures Safe() && tokenFree && closed == old(closed) && freed == old(freed)
      ensures commits == if ok then old(commits) + 1 else old(commits)
      ensures cancelled || old(closed) || old(broken) ==> statements == old(statements)
      ensures ok <==>
        !cancelled && !old(closed) && !old(broken) && Commits(luck, old(statements), callback, cancelledLate)
      ensures broken <==>
        old(broken) || (!cancelled && !old(closed) && Breaks(luck, old(statements), callback, cancelledLate))
    {
      hide Recovers;
      if cancelled || closed || broken { return false; }
      tokenFree := false;
      var begun := Begin();
      if !begun {
        tokenFree := true;
        return false;
      }
      if callback.FailsRolledBack? || callback.FineRolledBack? { open := false; }
      ok := callback.Fine? || callback.FineRolledBack?;
      if ok && !cancelledLate {
        ok := End();
      } else {
        ok := false;
      }
      if ok {
        commits := commits + 1;
      } else {
        var proved := RollBack();
        if !proved { broken := true; }
      }
      tokenFree := true;
    }

    method Close()
      requires Safe() && tokenFree
      modifies this
      ensures Safe() && closed && freed && commits == old(commits) && statements == old(statements)
    {
      closed := true;
      tokenFree := false;
      freed := true;
    }
  }

  // ---------- Every operation comes to an end ----------

  predicate Over(pc: Pc) {
    pc.Returned? || pc.Closed?
  }

  /** How many steps an operation takes at most from here. */
  function Left(pc: Pc): (n: nat) {
    match pc
    case Entering => 10
    case Waiting => 9
    case Checking => 8
    case Beginning => 7
    case Running => 6
    case Committing => 5
    case RollingBack => 4
    case Probing => 3
    case EndingProbe => 2
    case Releasing(_) => 1
    case Closing => 3
    case CloseWaiting => 2
    case Freeing => 1
    case _ => 0
  }

  lemma StepCounts(w: World, m: Move, id: nat)
    requires CanMove(w, m) && id in w.ops
    ensures id in Moved(w, m).ops
    ensures Left(Moved(w, m).ops[id]) + (if m.Go? && m.id == id then 1 else 0) <= Left(w.ops[id])
  {
    if m.Go? && m.id != id { OtherStays(w, m.id, m.luck, id); }
  }

  /** How often an operation steps among moves i..j-1. */
  function Turns(moves: seq<Move>, i: nat, j: nat, id: nat): (n: nat)
    requires i <= j <= |moves|
    decreases j - i
  {
    if i == j then 0 else Turns(moves, i, j - 1, id) + if moves[j - 1].Go? && moves[j - 1].id == id then 1 else 0
  }

  /** An operation never takes more than ten steps, whatever the others do. */
  lemma {:induction false} OperationsAreShort(worlds: seq<World>, moves: seq<Move>, i: nat, j: nat, id: nat)
    requires IsRun(worlds, moves) && i <= j < |worlds| && id in worlds[i].ops
    ensures id in worlds[j].ops && Turns(moves, i, j, id) + Left(worlds[j].ops[id]) <= Left(worlds[i].ops[id]) <= 10
    decreases j - i
  {
    hide CanMove, Moved;
    if i < j {
      OperationsAreShort(worlds, moves, i, j - 1, id);
      assert Steps(worlds[j - 1], moves[j - 1], worlds[j - 1 + 1]);
      StepCounts(worlds[j - 1], moves[j - 1], id);
    }
  }

  predicate Closes(pc: Pc) {
    pc.Closing? || pc.CloseWaiting? || pc.Freeing? || pc.Closed?
  }

  predicate OneClose(w: World) {
    (forall i | i in w.ops && Closes(w.ops[i]) && !w.ops[i].Closing? :: w.closed) &&
    forall i, j | i in w.ops && j in w.ops && Closes(w.ops[i]) && Closes(w.ops[j]) :: i == j
  }

  lemma StaysOneClose(w: World, m: Move)
    requires CanMove(w, m) && OneClose(w)
    ensures OneClose(Moved(w, m))
  {
    if m.Go? {
      OwnClose(w, m.id, m.luck);
      hide Stepped, CanMove;
    }
  }

  lemma OwnClose(w: World, id: nat, luck: Luck)
    requires CanMove(w, Go(id, luck))
    ensures var w1 := Gone(w, id, luck);
      (Closes(w1.ops[id]) ==> Closes(w.ops[id])) && (w.closed ==> w1.closed) &&
      (Closes(w1.ops[id]) && !w1.ops[id].Closing? ==> w1.closed || !w.ops[id].Closing?)
  {
  }

  lemma {:induction false} ClosedOnce(worlds: seq<World>, moves: seq<Move>, i: nat)
    requires IsRun(worlds, moves) && i < |worlds|
    ensures OneClose(worlds[i])
    decreases i
  {
    hide CanMove, Moved;
    if i > 0 {
      ClosedOnce(worlds, moves, i - 1);
      assert Steps(worlds[i - 1], moves[i - 1], worlds[i - 1 + 1]);
      StaysOneClose(worlds[i - 1], moves[i - 1]);
    }
  }

  /** No deadlock: an operation that is not over can step, or waits for another one that holds the token and can
      step, or the store is closed for good and its wait can be cancelled. */
  lemma NeverStuck(worlds: seq<World>, moves: seq<Move>, i: nat, id: nat)
    requires IsRun(worlds, moves) && i < |worlds| && id in worlds[i].ops && !Over(worlds[i].ops[id])
    ensures var w := worlds[i];
      CanMove(w, Go(id, Fine)) ||
      (w.token.Some? && w.token.value != id && CanMove(w, Go(w.token.value, Fine))) ||
      (w.freed && w.ops[id].Waiting? && CanMove(w, Go(id, Fails)))
  {
    RunKeeps(worlds, moves, i);
    var w := worlds[i];
    assert Place(w, id) && (w.token.Some? ==> Place(w, w.token.value));
    ClosedOnce(worlds, moves, i);
  }
}
