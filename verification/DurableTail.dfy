/** internal/event/service.go: durable subscriptions to one aggregate. Commits, notifications, wake-ups, reads
    and deliveries are separate steps that interleave freely; `Drain` is the reading loop itself. */
module DurableTail {
  import opened Text
  import opened EventStore
  import opened EventService
  import opened StoredEvents
  import EventLog
  import Convergence

  type Log = seq<StoredEvent>

  const MAXIMUM_PAGE := 10_000

  // ---------- Histories ----------

  /** Row `i` of an aggregate's log has sequence `i`, and decodes. */
  ghost predicate Proper(log: Log, aggregate: string) {
    forall i | 0 <= i < |log| :: log[i].aggregate == aggregate && log[i].sequence == i && Decoded(log[i]).Ok?
  }

  /** `History`: at most `limit` rows after the cursor. */
  function PageOf(log: Log, cursor: int, limit: nat): (page: Log)
    requires cursor >= -1
  {
    if cursor + 1 >= |log| then []
    else if cursor + 1 + limit <= |log| then log[cursor + 1..cursor + 1 + limit]
    else log[cursor + 1..]
  }

  /** The events of the rows after `after`, up to the cursor. */
  function Events(log: Log, after: int, cursor: int): (events: seq<Envelope>)
    requires -1 <= after <= cursor && (cursor == after || cursor < |log|)
    requires forall i | 0 <= i < |log| :: Decoded(log[i]).Ok?
  {
    seq(cursor - after, i requires 0 <= i < cursor - after => Decoded(log[after + 1 + i]).value)
  }

  // ---------- The protocol ----------

  /** Reading next, delivering a page (`full` when it was as long as allowed), or waiting for a wake. */
  datatype Phase = Draining | Delivering(page: Log, full: bool) | Idle

  datatype Subscriber = Subscriber(
    after: int, batch: nat, cursor: int, phase: Phase, wake: bool, delivered: seq<Envelope>)

  /** `owed` counts commits whose notification is still to come; `loud` is the last row committed with one. */
  datatype World = World(log: Log, owed: nat, loud: int, subscribers: map<nat, Subscriber>)

  datatype Move =
    | Commit(row: StoredEvent, notifies: bool)
    | Notify
    | Subscribe(id: nat, after: int, batch: nat)
    | Read(id: nat)
    | Deliver(id: nat)
    | Wake(id: nat)
    | Stop(id: nat)

  predicate Possible(w: World, m: Move) {
    match m
    case Commit(_, _) => true
    case Notify => w.owed > 0
    case Subscribe(id, after, batch) => id !in w.subscribers && after >= -1 && batch > 0
    case Read(id) => id in w.subscribers && w.subscribers[id].phase.Draining?
    case Deliver(id) => id in w.subscribers && w.subscribers[id].phase.Delivering?
    case Wake(id) => id in w.subscribers && w.subscribers[id].phase.Idle? && w.subscribers[id].wake
    case Stop(id) => id in w.subscribers
  }

  /** A commit appends the aggregate's next row. */
  predicate CanMove(w: World, aggregate: string, m: Move) {
    Possible(w, m) &&
    (m.Commit? ==> m.row.aggregate == aggregate && m.row.sequence == |w.log| && Decoded(m.row).Ok?)
  }

  /** What a read makes of a subscriber: an empty page ends the draining, as a short one does once it is
      delivered; a batch beyond the store's page limit is an error that ends the subscription. */
  function AfterRead(s: Subscriber, log: Log): (r: Option<Subscriber>) {
    if s.cursor < -1 || s.batch > MAXIMUM_PAGE then None
    else
      var page := PageOf(log, s.cursor, s.batch);
      Some(s.(phase := if page == [] then Idle else Delivering(page, |page| == s.batch)))
  }

  /** One delivery: a row that does not continue the cursor, or does not decode, ends the subscription. */
  function AfterDelivery(s: Subscriber): (r: Option<Subscriber>)
    requires s.phase.Delivering?
  {
    if s.phase.page == [] then Some(s.(phase := if s.phase.full then Draining else Idle))
    else
      var row := s.phase.page[0];
      if row.sequence != s.cursor + 1 || Decoded(row).Err? then None
      else
        Some(s.(cursor := row.sequence, delivered := s.delivered + [Decoded(row).value],
                phase := Delivering(s.phase.page[1..], s.phase.full)))
  }

  function Woken(subscribers: map<nat, Subscriber>): (r: map<nat, Subscriber>) {
    map id | id in subscribers :: subscribers[id].(wake := true)
  }

  /** The subscribers with one replaced, or gone. */
  function Replaced(subscribers: map<nat, Subscriber>, id: nat, s: Option<Subscriber>): (r: map<nat, Subscriber>) {
    if s.None? then subscribers - {id} else subscribers[id := s.value]
  }

  function Moved(w: World, m: Move): (r: World)
    requires Possible(w, m)
  {
    match m
    case Commit(row, notifies) =>
      World(w.log + [row], if notifies then w.owed + 1 else w.owed, if notifies then |w.log| else w.loud, w.subscribers)
    case Notify => w.(owed := w.owed - 1, subscribers := Woken(w.subscribers))
    case Subscribe(id, after, batch) =>
      w.(subscribers := w.subscribers[id := Subscriber(after, batch, after, Draining, false, [])])
    case Read(id) => w.(subscribers := Replaced(w.subscribers, id, AfterRead(w.subscribers[id], w.log)))
    case Deliver(id) => w.(subscribers := Replaced(w.subscribers, id, AfterDelivery(w.subscribers[id])))
    case Wake(id) => w.(subscribers := w.subscribers[id := w.subscribers[id].(wake := false, phase := Draining)])
    case Stop(id) => w.(subscribers := w.subscribers - {id})
  }

  // ---------- Invariants ----------

  /** What was delivered is what lies between the start and the cursor, and a page continues from there. */
  ghost predicate InOrder(w: World, s: Subscriber)
    requires forall i | 0 <= i < |w.log| :: Decoded(w.log[i]).Ok?
  {
    -1 <= s.after <= s.cursor && (s.cursor == s.after || s.cursor < |w.log|) && 0 < s.batch &&
    s.delivered == Events(w.log, s.after, s.cursor) &&
    (s.phase.Delivering? ==>
       (s.phase.page != [] ==> s.cursor + |s.phase.page| < |w.log|) &&
       forall i | 0 <= i < |s.phase.page| :: s.cursor + 1 + i < |w.log| && s.phase.page[i] == w.log[s.cursor + 1 + i])
  }

  /** How far a subscriber gets without being woken again, when it does not read once more first. */
  predicate Reaches(s: Subscriber, i: int) {
    s.phase.Draining? || (s.phase.Delivering? && (s.phase.full || s.cursor + |s.phase.page| >= i)) || s.cursor >= i
  }

  predicate NotLost(w: World, s: Subscriber) {
    Reaches(s, w.loud) || s.wake || w.owed > 0
  }

  ghost predicate Inv(w: World, aggregate: string) {
    Proper(w.log, aggregate) && w.loud < |w.log| &&
    (forall id | id in w.subscribers :: InOrder(w, w.subscribers[id]) && NotLost(w, w.subscribers[id]))
  }

  lemma EventsGrow(log: Log, row: StoredEvent, after: int, cursor: int)
    requires -1 <= after <= cursor && (cursor == after || cursor < |log|)
    requires (forall i | 0 <= i < |log| :: Decoded(log[i]).Ok?) && Decoded(row).Ok?
    ensures Events(log + [row], after, cursor) == Events(log, after, cursor)
  {
    hide Decoded;
  }

  lemma CommitKeeps(w: World, aggregate: string, row: StoredEvent, notifies: bool)
    requires Inv(w, aggregate) && CanMove(w, aggregate, Commit(row, notifies))
    ensures Inv(Moved(w, Commit(row, notifies)), aggregate)
  {
    hide Decoded, Events;
    var w1 := Moved(w, Commit(row, notifies));
    forall id | id in w1.subscribers ensures InOrder(w1, w1.subscribers[id]) && NotLost(w1, w1.subscribers[id]) {
      var s := w.subscribers[id];
      assert InOrder(w, s) && NotLost(w, s);
      EventsGrow(w.log, row, s.after, s.cursor);
    }
  }

  lemma ReadKeeps(w: World, aggregate: string, s: Subscriber)
    requires Proper(w.log, aggregate) && w.loud < |w.log| && InOrder(w, s) && s.phase.Draining?
    ensures var r := AfterRead(s, w.log); r.Some? ==> InOrder(w, r.value) && NotLost(w, r.value)
  {
    hide Decoded, Events, PageOf;
    PageContinues(w.log, s.cursor, s.batch);
  }

  /** A page holds the rows right after the cursor, and is short only at the end of the log. */
  lemma PageContinues(log: Log, cursor: int, limit: nat)
    requires -1 <= cursor
    ensures var page := PageOf(log, cursor, limit);
      |page| <= limit && (page != [] ==> cursor + |page| < |log|) &&
      (|page| < limit ==> cursor + |page| >= |log| - 1) &&
      forall i | 0 <= i < |page| :: cursor + 1 + i < |log| && page[i] == log[cursor + 1 + i]
  {
  }

  lemma DeliveryKeeps(w: World, aggregate: string, s: Subscriber)
    requires Proper(w.log, aggregate) && InOrder(w, s) && NotLost(w, s) && s.phase.Delivering?
    ensures AfterDelivery(s).Some? && InOrder(w, AfterDelivery(s).value) && NotLost(w, AfterDelivery(s).value)
  {
    hide Decoded;
    if s.phase.page != [] {
      assert s.phase.page[0] == w.log[s.cursor + 1];
      var r := AfterDelivery(s).value;
      assert r.delivered == Events(w.log, s.after, r.cursor);
      assert forall i | 0 <= i < |r.phase.page| :: r.phase.page[i] == s.phase.page[i + 1];
    }
  }

  lemma MoveKeeps(w: World, aggregate: string, m: Move)
    requires Inv(w, aggregate) && CanMove(w, aggregate, m)
    ensures Inv(Moved(w, m), aggregate)
  {
    hide Decoded, Events, AfterRead, AfterDelivery, Reaches;
    var w1 := Moved(w, m);
    match m {
      case Commit(row, notifies) => CommitKeeps(w, aggregate, row, notifies);
      case Notify =>
        forall id | id in w1.subscribers ensures InOrder(w1, w1.subscribers[id]) && NotLost(w1, w1.subscribers[id]) {
          assert InOrder(w, w.subscribers[id]);
        }
      case Subscribe(id, after, batch) => SubscribeKeeps(w, aggregate, id, after, batch);
      case Read(id) => ReadKeeps(w, aggregate, w.subscribers[id]); OthersKeep(w, w1, id);
      case Deliver(id) => DeliveryKeeps(w, aggregate, w.subscribers[id]); OthersKeep(w, w1, id);
      case Wake(id) => WakeKeeps(w, w.subscribers[id]); OthersKeep(w, w1, id);
      case Stop(id) => OthersKeep(w, w1, id);
    }
  }

  /** Nothing else changes for the subscribers that a step does not concern. */
  lemma OthersKeep(w: World, w1: World, id: nat)
    requires forall i | 0 <= i < |w.log| :: Decoded(w.log[i]).Ok?
    requires w1.log == w.log && w1.owed == w.owed && w1.loud == w.loud
    requires forall j | j in w.subscribers :: InOrder(w, w.subscribers[j]) && NotLost(w, w.subscribers[j])
    requires forall j | j in w1.subscribers && j != id :: j in w.subscribers && w1.subscribers[j] == w.subscribers[j]
    ensures forall j | j in w1.subscribers && j != id ::
      InOrder(w1, w1.subscribers[j]) && NotLost(w1, w1.subscribers[j])
    ensures forall s :: InOrder(w, s) <==> InOrder(w1, s)
    ensures forall s :: NotLost(w, s) <==> NotLost(w1, s)
  {
    hide Decoded, Events, Reaches;
  }

  lemma WakeKeeps(w: World, s: Subscriber)
    requires (forall i | 0 <= i < |w.log| :: Decoded(w.log[i]).Ok?) && InOrder(w, s) && s.phase.Idle?
    ensures InOrder(w, s.(wake := false, phase := Draining)) && NotLost(w, s.(wake := false, phase := Draining))
  {
    hide Decoded, Events;
  }

  lemma SubscribeKeeps(w: World, aggregate: string, id: nat, after: int, batch: nat)
    requires Inv(w, aggregate) && CanMove(w, aggregate, Subscribe(id, after, batch))
    ensures Inv(Moved(w, Subscribe(id, after, batch)), aggregate)
  {
    hide Decoded;
    var w1 := Moved(w, Subscribe(id, after, batch));
    OthersKeep(w, w1, id);
    assert Events(w.log, after, after) == [];
  }

  // ---------- Runs ----------

  const START := World([], 0, -1, map[])

  /** The worlds of a run from `w`, every move being possible where it is made. */
  ghost predicate IsRunFrom(w: World, worlds: seq<World>, moves: seq<Move>, aggregate: string) {
    |worlds| == |moves| + 1 && worlds[0] == w &&
    forall i | 0 <= i < |moves| :: Steps(worlds[i], moves[i], worlds[i + 1], aggregate)
  }

  ghost predicate IsRun(worlds: seq<World>, moves: seq<Move>, aggregate: string) {
    IsRunFrom(START, worlds, moves, aggregate)
  }

  ghost predicate Steps(w: World, m: Move, w1: World, aggregate: string) {
    CanMove(w, aggregate, m) && w1 == Moved(w, m)
  }

  lemma {:induction false} RunKeeps(w: World, worlds: seq<World>, moves: seq<Move>, aggregate: string, i: nat)
    requires IsRunFrom(w, worlds, moves, aggregate) && Inv(w, aggregate) && i < |worlds|
    ensures Inv(worlds[i], aggregate)
    decreases i
  {
    hide CanMove, Moved, Inv;
    if i > 0 {
      RunKeeps(w, worlds, moves, aggregate, i - 1);
      assert Steps(worlds[i - 1], moves[i - 1], worlds[i - 1 + 1], aggregate);
      MoveKeeps(worlds[i - 1], aggregate, moves[i - 1]);
    }
  }

  lemma StartHolds(aggregate: string)
    ensures Inv(START, aggregate)
  {
  }

  /** Under every interleaving: no gap, no duplicate, and no subscriber idles behind an announced row unless a
      wake is pending or some committer still owes its notification. */
  lemma EveryRunDeliversInOrder(worlds: seq<World>, moves: seq<Move>, aggregate: string, i: nat, id: nat)
    requires IsRun(worlds, moves, aggregate) && i < |worlds| && id in worlds[i].subscribers
    ensures Proper(worlds[i].log, aggregate)
    ensures var w := worlds[i];
      var s := w.subscribers[id];
      -1 <= s.after <= s.cursor && (s.cursor == s.after || s.cursor < |w.log|) &&
      s.delivered == Events(w.log, s.after, s.cursor)
    ensures var w := worlds[i];
      var s := w.subscribers[id];
      s.phase.Idle? && s.cursor < w.loud ==> s.wake || w.owed > 0
  {
    StartHolds(aggregate);
    RunKeeps(START, worlds, moves, aggregate, i);
    assert InOrder(worlds[i], worlds[i].subscribers[id]) && NotLost(worlds[i], worlds[i].subscribers[id]);
  }

  /** Nothing is owed, and this subscriber waits without a wake: it can make no step of its own. */
  predicate Resting(w: World, id: nat) {
    w.owed == 0 && id in w.subscribers && w.subscribers[id].phase.Idle? && !w.subscribers[id].wake
  }

  /** The last commit among the first moves came with a notification, if there was a commit at all. */
  predicate LastNotifies(moves: seq<Move>, n: nat)
    requires n <= |moves|
  {
    n == 0 || if moves[n - 1].Commit? then moves[n - 1].notifies else LastNotifies(moves, n - 1)
  }

  lemma {:induction false} LoudMeansLatest(worlds: seq<World>, moves: seq<Move>, aggregate: string, i: nat)
    requires IsRun(worlds, moves, aggregate) && i < |worlds|
    ensures worlds[i].loud == |worlds[i].log| - 1 <==> LastNotifies(moves, i)
    decreases i
  {
    if i > 0 {
      LoudMeansLatest(worlds, moves, aggregate, i - 1);
      StartHolds(aggregate);
      RunKeeps(START, worlds, moves, aggregate, i - 1);
      assert Steps(worlds[i - 1], moves[i - 1], worlds[i - 1 + 1], aggregate);
    }
  }

  /** When the last commit notified and nothing is left to do, each subscriber has received everything after its
      starting point, whatever earlier commits kept silent. */
  lemma QuietMeansCaughtUp(worlds: seq<World>, moves: seq<Move>, aggregate: string, i: nat, id: nat)
    requires IsRun(worlds, moves, aggregate) && i < |worlds| && Resting(worlds[i], id) && LastNotifies(moves, i)
    requires worlds[i].subscribers[id].after < |worlds[i].log|
    ensures Proper(worlds[i].log, aggregate) && worlds[i].subscribers[id].after >= -1
    ensures var w := worlds[i];
      w.subscribers[id].delivered == Events(w.log, w.subscribers[id].after, |w.log| - 1)
  {
    EveryRunDeliversInOrder(worlds, moves, aggregate, i, id);
    LoudMeansLatest(worlds, moves, aggregate, i);
  }

  // ---------- A subscriber gets to the end ----------

  /** A move that this subscriber makes by itself. */
  predicate Own(m: Move, id: nat) {
    m == Read(id) || m == Deliver(id) || m == Wake(id)
  }

  /** Waiting for the next wake. */
  predicate Rests(s: Subscriber) {
    s.phase.Idle? && !s.wake
  }

  /** How many moves a subscriber can still make by itself, at most. */
  function MovesLeft(s: Subscriber, log: Log): (n: nat) {
    (if s.cursor < |log| then 3 * (|log| - s.cursor) else 0) + (if s.wake then 3 else 0) +
    match s.phase
    case Draining => 2
    case Delivering(page, _) => if page == [] then 3 else 1
    case Idle => 0
  }

  /** Reads on to the end of the log as it stands. */
  predicate Chases(s: Subscriber, log: Log) {
    Reaches(s, |log| - 1) || s.wake
  }

  /** What is known of a subscriber that is left to itself. */
  ghost predicate OnItsWay(w: World, id: nat) {
    id in w.subscribers &&
    (forall i | 0 <= i < |w.log| :: Decoded(w.log[i]).Ok?) &&
    InOrder(w, w.subscribers[id]) && Chases(w.subscribers[id], w.log) && w.subscribers[id].batch <= MAXIMUM_PAGE
  }

  lemma ReadProgress(w: World, s: Subscriber)
    requires (forall i | 0 <= i < |w.log| :: Decoded(w.log[i]).Ok?) && InOrder(w, s) && s.phase.Draining?
    requires s.batch <= MAXIMUM_PAGE
    ensures var r := AfterRead(s, w.log);
      r.Some? && InOrder(w, r.value) && Chases(r.value, w.log) && MovesLeft(r.value, w.log) < MovesLeft(s, w.log) &&
      r.value.batch == s.batch && r.value.after == s.after && r.value.cursor == s.cursor
  {
    hide Decoded, Events, PageOf;
    PageContinues(w.log, s.cursor, s.batch);
  }

  lemma DeliveryProgress(w: World, aggregate: string, s: Subscriber)
    requires Proper(w.log, aggregate) && InOrder(w, s) && s.phase.Delivering? && Chases(s, w.log)
    ensures var r := AfterDelivery(s);
      r.Some? && InOrder(w, r.value) && Chases(r.value, w.log) && MovesLeft(r.value, w.log) < MovesLeft(s, w.log) &&
      r.value.batch == s.batch && r.value.after == s.after && r.value.cursor >= s.cursor
  {
    DeliveryInOrder(w, aggregate, s);
    hide Decoded, Events, AfterDelivery, MovesLeft, Chases, InOrder, Proper;
    if s.phase.page != [] { NextDelivery(w, aggregate, s); }
    DeliveryCounts(s, w.log);
  }

  lemma NextDelivery(w: World, aggregate: string, s: Subscriber)
    requires Proper(w.log, aggregate) && InOrder(w, s) && s.phase.Delivering? && s.phase.page != []
    ensures s.cursor + |s.phase.page| < |w.log| && s.phase.page[0].sequence == s.cursor + 1
  {
    hide Decoded, Events;
    assert s.phase.page[0] == w.log[s.cursor + 1];
  }

  lemma DeliveryInOrder(w: World, aggregate: string, s: Subscriber)
    requires Proper(w.log, aggregate) && InOrder(w, s) && s.phase.Delivering?
    ensures AfterDelivery(s).Some? && InOrder(w, AfterDelivery(s).value)
  {
    hide Decoded, Events, AfterDelivery;
    DeliveryKeeps(w.(owed := 1), aggregate, s);
  }

  lemma DeliveryCounts(s: Subscriber, log: Log)
    requires s.phase.Delivering? && AfterDelivery(s).Some? && Chases(s, log)
    requires s.phase.page != [] ==> s.cursor + |s.phase.page| < |log| && s.phase.page[0].sequence == s.cursor + 1
    ensures var r := AfterDelivery(s).value;
      Chases(r, log) && MovesLeft(r, log) < MovesLeft(s, log) && r.batch == s.batch && r.after == s.after &&
      r.cursor >= s.cursor
  {
    hide Decoded;
  }

  lemma WakeProgress(w: World, s: Subscriber)
    requires (forall i | 0 <= i < |w.log| :: Decoded(w.log[i]).Ok?) && InOrder(w, s) && s.phase.Idle? && s.wake
    ensures var r := s.(wake := false, phase := Draining);
      InOrder(w, r) && Chases(r, w.log) && MovesLeft(r, w.log) < MovesLeft(s, w.log)
  {
    hide Decoded, Events;
  }

  lemma OrderOfSameLog(w: World, w1: World, s: Subscriber)
    requires (forall i | 0 <= i < |w.log| :: Decoded(w.log[i]).Ok?) && w1.log == w.log && InOrder(w, s)
    ensures InOrder(w1, s)
  {
    hide Decoded, Events;
  }

  /** Every move of its own brings a subscriber closer. */
  lemma OwnMoveCounts(w: World, aggregate: string, m: Move, id: nat)
    requires Proper(w.log, aggregate) && OnItsWay(w, id) && CanMove(w, aggregate, m) && Own(m, id)
    ensures var w1 := Moved(w, m);
      w1.log == w.log && OnItsWay(w1, id) && w1.subscribers[id].after == w.subscribers[id].after &&
      w1.subscribers[id].cursor >= w.subscribers[id].cursor &&
      MovesLeft(w1.subscribers[id], w.log) < MovesLeft(w.subscribers[id], w.log)
  {
    hide Decoded, Events, AfterRead, AfterDelivery, InOrder, Chases, MovesLeft;
    var s, w1 := w.subscribers[id], Moved(w, m);
    match m {
      case Read(_) => ReadProgress(w, s);
      case Deliver(_) => DeliveryProgress(w, aggregate, s);
      case Wake(_) => WakeProgress(w, s);
    }
    OrderOfSameLog(w, w1, w1.subscribers[id]);
  }

  lemma {:induction false} OwnRunKeeps(
      w: World, worlds: seq<World>, moves: seq<Move>, aggregate: string, i: nat, id: nat)
    requires IsRunFrom(w, worlds, moves, aggregate) && i < |worlds|
    requires Proper(w.log, aggregate) && OnItsWay(w, id) && forall j | 0 <= j < |moves| :: Own(moves[j], id)
    ensures worlds[i].log == w.log && OnItsWay(worlds[i], id)
    ensures worlds[i].subscribers[id].after == w.subscribers[id].after
    ensures worlds[i].subscribers[id].cursor >= w.subscribers[id].cursor
    ensures i + MovesLeft(worlds[i].subscribers[id], w.log) <= MovesLeft(w.subscribers[id], w.log)
    decreases i
  {
    hide CanMove, Moved, OnItsWay, MovesLeft, Own, Decoded;
    if i > 0 {
      OwnRunKeeps(w, worlds, moves, aggregate, i - 1, id);
      assert Steps(worlds[i - 1], moves[i - 1], worlds[i - 1 + 1], aggregate);
      OwnMoveCounts(worlds[i - 1], aggregate, moves[i - 1], id);
    }
  }

  /** A subscriber that has been woken, or still reads, and is left to itself comes to rest after boundedly many
      moves, with the whole log delivered: until then it always has a move to make. */
  lemma LeftAloneCatchesUp(w: World, worlds: seq<World>, moves: seq<Move>, aggregate: string, id: nat)
    requires Inv(w, aggregate) && id in w.subscribers && w.subscribers[id].batch <= MAXIMUM_PAGE
    requires w.subscribers[id].wake || w.subscribers[id].phase.Draining?
    requires IsRunFrom(w, worlds, moves, aggregate) && forall j | 0 <= j < |moves| :: Own(moves[j], id)
    ensures |moves| <= 3 * (|w.log| + 1) + 6
    ensures var v := worlds[|moves|];
      v.log == w.log && id in v.subscribers &&
      (!Rests(v.subscribers[id]) ==> exists m :: Own(m, id) && CanMove(v, aggregate, m)) &&
      (Rests(v.subscribers[id]) ==>
         var s := v.subscribers[id];
         -1 <= s.after <= s.cursor && (s.cursor == s.after || s.cursor < |w.log|) && |w.log| - 1 <= s.cursor &&
         Proper(w.log, aggregate) && s.delivered == Events(w.log, s.after, s.cursor))
  {
    var n := |moves|;
    assert InOrder(w, w.subscribers[id]);
    OwnRunKeeps(w, worlds, moves, aggregate, n, id);
    hide Decoded, Events, InOrder;
    var v, s := worlds[n], worlds[n].subscribers[id];
    if !Rests(s) {
      var m := if s.phase.Idle? then Wake(id) else if s.phase.Draining? then Read(id) else Deliver(id);
      assert Own(m, id) && CanMove(v, aggregate, m);
    }
    if Rests(s) { LastRests(w, v, aggregate, id); }
  }

  lemma LastRests(w: World, v: World, aggregate: string, id: nat)
    requires Proper(w.log, aggregate) && v.log == w.log && OnItsWay(v, id) && Rests(v.subscribers[id])
    ensures var s := v.subscribers[id];
      -1 <= s.after <= s.cursor && (s.cursor == s.after || s.cursor < |w.log|) && |w.log| - 1 <= s.cursor &&
      s.delivered == Events(w.log, s.after, s.cursor)
  {
    hide Decoded, Events;
  }

  // ---------- Commits without a notification ----------

  /** A commit gives a resting subscriber something to wait for exactly when it notifies. */
  lemma CommitStirs(w: World, aggregate: string, row: StoredEvent, notifies: bool, id: nat)
    requires CanMove(w, aggregate, Commit(row, notifies)) && Resting(w, id)
    ensures Resting(Moved(w, Commit(row, notifies)), id) <==> !notifies
    ensures Moved(w, Commit(row, notifies)).subscribers == w.subscribers
  {
  }

  /** No commit among the moves notifies, and this subscription is not closed. */
  predicate Silent(moves: seq<Move>, id: nat) {
    forall i | 0 <= i < |moves| :: moves[i] != Stop(id) && (moves[i].Commit? ==> !moves[i].notifies)
  }

  /** Nothing that anybody else does, silent commits included, moves a resting subscriber. */
  lemma {:induction false} RestingStays(
      w: World, worlds: seq<World>, moves: seq<Move>, aggregate: string, i: nat, id: nat)
    requires IsRunFrom(w, worlds, moves, aggregate) && i < |worlds| && Resting(w, id) && Silent(moves, id)
    ensures Resting(worlds[i], id) && worlds[i].subscribers[id] == w.subscribers[id]
    decreases i
  {
    hide AfterRead, AfterDelivery, Decoded;
    if i > 0 {
      RestingStays(w, worlds, moves, aggregate, i - 1, id);
      assert Steps(worlds[i - 1], moves[i - 1], worlds[i - 1 + 1], aggregate);
    }
  }

  lemma {:induction false} LoudStays(
      w: World, worlds: seq<World>, moves: seq<Move>, aggregate: string, i: nat, id: nat)
    requires IsRunFrom(w, worlds, moves, aggregate) && i < |worlds| && Silent(moves, id)
    ensures worlds[i].loud == w.loud
    decreases i
  {
    hide AfterRead, AfterDelivery, Decoded;
    if i > 0 {
      LoudStays(w, worlds, moves, aggregate, i - 1, id);
      assert Steps(worlds[i - 1], moves[i - 1], worlds[i - 1 + 1], aggregate);
    }
  }

  /** The exact condition. A row is committed while a subscriber rests before it; then anything happens, except
      another commit with a notification. Whenever the subscriber rests again, it has received the row if and
      only if the commit notified. */
  lemma SeenExactlyWhenNotified(
      w: World, row: StoredEvent, notifies: bool, worlds: seq<World>, moves: seq<Move>, aggregate: string, id: nat)
    requires Inv(w, aggregate) && CanMove(w, aggregate, Commit(row, notifies))
    requires Resting(w, id) && w.subscribers[id].cursor < |w.log|
    requires IsRunFrom(Moved(w, Commit(row, notifies)), worlds, moves, aggregate) && Silent(moves, id)
    requires Resting(worlds[|moves|], id)
    ensures worlds[|moves|].subscribers[id].cursor >= |w.log| <==> notifies
    ensures !notifies ==> worlds[|moves|].subscribers[id] == w.subscribers[id]
  {
    hide Decoded, Proper, InOrder, AfterRead, AfterDelivery;
    var w1 := Moved(w, Commit(row, notifies));
    if notifies {
      CommitKeeps(w, aggregate, row, notifies);
      RunKeeps(w1, worlds, moves, aggregate, |moves|);
      LoudStays(w1, worlds, moves, aggregate, |moves|, id);
      assert NotLost(worlds[|moves|], worlds[|moves|].subscribers[id]);
    } else {
      RestingStays(w1, worlds, moves, aggregate, |moves|, id);
    }
  }

  /** Such a world can be reached: the subscriber idles, no wake is pending, nothing is owed, and a row is there. */
  lemma SilentCommitIsMissed(row: StoredEvent, aggregate: string)
    requires row.aggregate == aggregate && row.sequence == 0 && Decoded(row).Ok?
    ensures exists worlds: seq<World>, moves: seq<Move> ::
      IsRun(worlds, moves, aggregate) && |worlds| > 0 &&
      var w := worlds[|worlds| - 1];
      Resting(w, 0) && w.subscribers[0].delivered == [] && w.subscribers[0].after == -1 && w.log == [row]
  {
    var moves := [Subscribe(0, -1, 1), Read(0), Commit(row, false)];
    var w1 := Moved(START, moves[0]);
    var w2 := Moved(w1, moves[1]);
    var w3 := Moved(w2, moves[2]);
    var worlds := [START, w1, w2, w3];
    hide Decoded;
    assert Steps(worlds[0], moves[0], worlds[0 + 1], aggregate);
    assert Steps(worlds[1], moves[1], worlds[1 + 1], aggregate);
    assert Steps(worlds[2], moves[2], worlds[2 + 1], aggregate);
    assert IsRun(worlds, moves, aggregate);
    assert w3.log == [row];
  }

  // ---------- Where the rows come from ----------

  /** What the event service commits to an aggregate that is not removed is what a tail assumes: a proper log
      that is only appended to. */
  lemma ServiceLogsGrow(s: State, projectors: Projectors, step: EventLog.Step, a: string)
    requires EventLog.LogInv(s.db) && Typed(s) && !EventLog.Names(step.command, a)
    ensures var s1 := EventLog.Next(s, projectors, step);
      EventLog.LogInv(s1.db) && Proper(Convergence.Log(s1.db, a), a) &&
      Convergence.Log(s.db, a) <= Convergence.Log(s1.db, a)
  {
    hide EventLog.LogInv, EventLog.Next, Convergence.Log, Typed;
    var s1 := EventLog.Next(s, projectors, step);
    EventLog.NextKeepsLog(s, projectors, step);
    NextKeepsTyped(s, projectors, step);
    TypedLogIsProper(s1, a);
    KeptLogGrows(s.db, s1.db, a);
  }

  lemma TypedLogIsProper(s: State, a: string)
    requires EventLog.LogInv(s.db) && Typed(s)
    ensures Proper(Convergence.Log(s.db, a), a)
  {
    Convergence.LogFacts(s.db, a);
    Convergence.LogRows(s.db, a);
    hide EventLog.LogInv, Convergence.Log, Decoded, ReplayPayload, ValidRow;
    var rows := Convergence.Log(s.db, a);
    forall i | 0 <= i < |rows| ensures Decoded(rows[i]).Ok? {
      assert Key(a, i) in s.db.events && Suits(s.definitions[rows[i].name], rows[i]);
    }
  }

  lemma KeptLogGrows(before: Db, after: Db, a: string)
    requires EventLog.LogInv(before) && EventLog.LogInv(after) && EventLog.KeepsAggregate(before, after, a)
    ensures Convergence.Log(before, a) <= Convergence.Log(after, a)
  {
    Convergence.LogFacts(before, a);
    Convergence.LogFacts(after, a);
    hide EventLog.LogInv, Convergence.Log;
    var u, v := Convergence.Log(before, a), Convergence.Log(after, a);
    assert |u| <= |v|;
    forall i | 0 <= i < |u| ensures u[i] == v[i] { assert Key(a, i) in before.events; }
  }

  // ---------- The reading loop ----------

  /** Row `i` has sequence `i`. */
  predicate Sequenced(log: Log) {
    forall i | 0 <= i < |log| :: log[i].sequence == i
  }

  lemma PageSnoc(log: Log, row: StoredEvent, cursor: int, limit: nat)
    requires cursor >= -1
    ensures var page := PageOf(log, cursor, limit);
      PageOf(log + [row], cursor, limit) == if |log| > cursor && |page| < limit then page + [row] else page
  {
    var all := log + [row];
    if |log| > cursor {
      assert cursor + 1 + limit <= |log| ==>
        all[cursor + 1..cursor + 1 + limit] == log[cursor + 1..cursor + 1 + limit];
      assert all[cursor + 1..] == log[cursor + 1..] + [row];
      assert cursor + 1 + limit == |all| ==> all[cursor + 1..cursor + 1 + limit] == all[cursor + 1..];
    }
  }

  /** The query's rows: those after the cursor, up to the limit. */
  method RowsAfter(rows: Log, cursor: int, limit: nat) returns (page: Log)
    requires cursor >= -1 && Sequenced(rows)
    ensures page == PageOf(rows, cursor, limit)
  {
    hide PageOf;
    page := [];
    PageOfNone(cursor, limit);
    for i := 0 to |rows|
      invariant page == PageOf(rows[..i], cursor, limit)
    {
      assert rows[..i + 1] == rows[..i] + [rows[i]];
      PageSnoc(rows[..i], rows[i], cursor, limit);
      if rows[i].sequence > cursor && |page| < limit { page := page + [rows[i]]; }
    }
    assert rows[..|rows|] == rows;
  }

  lemma PageOfNone(cursor: int, limit: nat)
    requires cursor >= -1
    ensures PageOf([], cursor, limit) == []
  {
  }

  /** The store as the loop sees it: before read `n` the rows `arrivals[n]` are committed. */
  class History {
    var log: Log
    var arrivals: seq<Log>
    const fails: nat -> bool
    var calls: nat

    constructor (log: Log, arrivals: seq<Log>, fails: nat -> bool)
      ensures this.log == log && this.arrivals == arrivals && this.fails == fails && calls == 0
    {
      this.log, this.arrivals, this.fails, calls := log, arrivals, fails, 0;
    }

    ghost function Whole(): (all: Log)
      reads this
    {
      log + Joined(arrivals)
    }

    /** `History`: the rows of the query as the loop over the result collects them. */
    method Page(cursor: int, limit: nat) returns (r: Option<Log>)
      requires cursor >= -1 && Sequenced(Whole())
      modifies this
      ensures Whole() == old(Whole()) && old(log) <= log
      ensures calls == old(calls) + 1 && (r.Some? <==> !fails(old(calls)) && limit <= MAXIMUM_PAGE)
      ensures r.Some? ==> r.value == PageOf(log, cursor, limit)
    {
      ghost var all := Whole();
      if arrivals != [] {
        assert log + Joined(arrivals) == log + arrivals[0] + Joined(arrivals[1..]);
        log, arrivals := log + arrivals[0], arrivals[1..];
      }
      calls := calls + 1;
      if fails(calls - 1) || limit > MAXIMUM_PAGE { return None; }
      assert forall i | 0 <= i < |log| :: log[i] == all[i];
      var page := RowsAfter(log, cursor, limit);
      r := Some(page);
    }
  }

  function Joined(parts: seq<Log>): (all: Log) {
    if parts == [] then [] else parts[0] + Joined(parts[1..])
  }

  class Tail {
    const aggregate: string
    const after: int
    const batch: nat
    const cancelled: nat -> bool
    var cursor: int
    var output: seq<Envelope>

    constructor (aggregate: string, after: int, batch: nat, cancelled: nat -> bool)
      ensures this.aggregate == aggregate && this.after == after && this.batch == batch && this.cancelled == cancelled
      ensures cursor == after && output == []
    {
      this.aggregate, this.after, this.batch, this.cancelled := aggregate, after, batch, cancelled;
      cursor, output := after, [];
    }

    /** The output is the decoded history between the start and the cursor. */
    ghost predicate Faithful(log: Log)
      reads this
    {
      -1 <= after <= cursor && (cursor == after || cursor < |log|) && Proper(log, aggregate) &&
      output == Events(log, after, cursor)
    }

    /** Delivering one page. */
    method SendPage(page: Log, ghost log: Log) returns (ok: bool)
      requires Faithful(log) && page == PageOf(log, cursor, |page|) && (page != [] ==> cursor + |page| < |log|)
      modifies this
      ensures Faithful(log) && old(cursor) <= cursor <= old(cursor) + |page|
      ensures ok ==> cursor == old(cursor) + |page|
      ensures !ok ==> cancelled(|output|)
    {
      hide Decoded;
      for i := 0 to |page|
        invariant cursor == old(cursor) + i && Faithful(log)
      {
        var row := page[i];
        assert row == log[cursor + 1];
        if row.aggregate != aggregate || row.sequence != cursor + 1 { return false; }
        var event := Decoded(row);
        if event.Err? { return false; }
        if cancelled(|output|) { return false; }
        output := output + [event.value];
        cursor := row.sequence;
        assert output == Events(log, after, cursor);
      }
      ok := true;
    }

    /** `drain`: it ends well only after a read that left nothing unread, and gives up only when a read fails, the
        batch is longer than the store allows, or a delivery is cancelled. */
    method Drain(history: History) returns (ok: bool)
      requires Faithful(history.log) && batch > 0 && Proper(history.Whole(), aggregate)
      modifies this, history
      ensures history.Whole() == old(history.Whole()) && Faithful(history.log) && old(cursor) <= cursor
      ensures ok ==>
        cursor + 1 >= |history.log| && forall n | old(history.calls) <= n < history.calls :: !history.fails(n)
      ensures !ok ==>
        batch > MAXIMUM_PAGE || cancelled(|output|) ||
        (history.calls > old(history.calls) && history.fails(history.calls - 1))
    {
      hide Decoded, Events;
      while true
        invariant history.Whole() == old(history.Whole()) && Faithful(history.log) && old(cursor) <= cursor
        invariant forall n | old(history.calls) <= n < history.calls :: !history.fails(n)
        invariant old(history.calls) <= history.calls
        decreases |history.Whole()| - cursor
      {
        ghost var before := history.log;
        var page := history.Page(cursor, batch);
        EventsOfLonger(before, history.log, history.Whole(), aggregate, after, cursor);
        if page.None? { return false; }
        if page.value == [] { return true; }
        var sent := SendPage(page.value, history.log);
        if !sent { return false; }
        if |page.value| < batch { return true; }
      }
    }
  }

  /** More rows at the end change nothing about the events up to a cursor. */
  lemma EventsOfLonger(before: Log, log: Log, all: Log, aggregate: string, after: int, cursor: int)
    requires before <= log <= all && Proper(all, aggregate)
    requires -1 <= after <= cursor && (cursor == after || cursor < |before|)
    ensures Proper(before, aggregate) && Proper(log, aggregate)
    ensures Events(log, after, cursor) == Events(before, after, cursor)
  {
    hide Decoded;
    assert forall i | 0 <= i < |log| :: log[i] == all[i];
    assert forall i | 0 <= i < |before| :: before[i] == log[i];
  }
}
