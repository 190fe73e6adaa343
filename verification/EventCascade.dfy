/** The reliable event cascade: Kafka, then a Redis list per topic, then the dead-letter
    table, with a drain job and a replay job. Emits, drains and the replay interleave at
    their awaits while Kafka goes up and down. */
module EventCascade {

  datatype Event = Event(topic: string, id: nat)
  datatype RowStatus = PENDING | RETRYING | DEAD
  /** `replayed` is the error text 'Replayed successfully' of a delivered row. */
  datatype Row = Row(event: Event, status: RowStatus, retryCount: nat, replayed: bool)

  /** The row under replay and whether its event has reached Kafka. */
  datatype Replay = Idle | Trying(row: nat) | Sent(row: nat)

  /** `lists[t]` is in push order, the oldest entry first: lPush appends, rPop takes the
      front. `popped` holds events between a drain's rPop and its outcome. `emitted`
      records history. */
  datatype State = State(
    delivered: seq<Event>, lists: map<string, seq<Event>>, popped: multiset<Event>, rows: seq<Row>,
    replay: Replay, kafkaAvailable: bool, emitted: multiset<Event>)

  const MAX_RETRIES: nat := 5

  datatype Step =
    | Emit(e: Event, kafkaUp: bool, redisUp: bool)
    | DrainPop(topic: string)
    | DrainEmit(e: Event, kafkaUp: bool)
    | ReplayBegin(row: nat)
    | ReplaySend(kafkaUp: bool)
    | ReplayMarkDone

  function ListOf(lists: map<string, seq<Event>>, topic: string): seq<Event> {
    if topic in lists then lists[topic] else []
  }

  function Push(lists: map<string, seq<Event>>, e: Event): map<string, seq<Event>> {
    lists[e.topic := ListOf(lists, e.topic) + [e]]
  }

  predicate IsLive(r: Row) {
    r.status == PENDING || r.status == RETRYING
  }

  function FailedReplay(r: Row): Row {
    r.(status := if r.retryCount >= MAX_RETRIES then DEAD else PENDING)
  }

  function EmitStep(s: State, e: Event, kafkaUp: bool, redisUp: bool): State {
    var t := s.(emitted := s.emitted + multiset{e});
    if s.kafkaAvailable && kafkaUp then t.(delivered := s.delivered + [e])
    else if redisUp then t.(lists := Push(s.lists, e), kafkaAvailable := false)
    else t.(rows := s.rows + [Row(e, PENDING, 0, false)], kafkaAvailable := false)
  }

  /** One step; a step that is not possible changes nothing. */
  function Next(s: State, step: Step): State {
    match step
    case Emit(e, kafkaUp, redisUp) => EmitStep(s, e, kafkaUp, redisUp)
    case DrainPop(topic) =>
      var list := ListOf(s.lists, topic);
      if list == [] then s
      else s.(lists := s.lists[topic := list[1..]], popped := s.popped + multiset{list[0]})
    case DrainEmit(e, kafkaUp) =>
      if e !in s.popped then s
      else if kafkaUp
      then s.(popped := s.popped - multiset{e}, delivered := s.delivered + [e], kafkaAvailable := true)
      else s.(popped := s.popped - multiset{e}, lists := Push(s.lists, e))
    case ReplayBegin(row) =>
      if s.replay != Idle || row >= |s.rows| || !IsLive(s.rows[row]) then s
      else s.(rows := s.rows[row := s.rows[row].(status := RETRYING, retryCount := s.rows[row].retryCount + 1)],
              replay := Trying(row))
    case ReplaySend(kafkaUp) =>
      if !s.replay.Trying? || s.replay.row >= |s.rows| then s
      else
        var i := s.replay.row;
        if kafkaUp then s.(delivered := s.delivered + [s.rows[i].event], kafkaAvailable := true, replay := Sent(i))
        else s.(rows := s.rows[i := FailedReplay(s.rows[i])], replay := Idle)
    case ReplayMarkDone =>
      if !s.replay.Sent? || s.replay.row >= |s.rows| then s
      else s.(rows := s.rows[s.replay.row := s.rows[s.replay.row].(status := DEAD, replayed := true)], replay := Idle)
  }

  function After(s: State, steps: seq<Step>): State {
    if steps == [] then s else Next(After(s, steps[..|steps| - 1]), steps[|steps| - 1])
  }

  ghost predicate Initial(s: State) {
    && s.delivered == [] && s.lists == map[] && s.popped == multiset{} && s.rows == []
    && s.replay == Idle && s.emitted == multiset{}
  }

  // ---- The places an event can be ----

  function InDelivered(s: State, e: Event): nat {
    multiset(s.delivered)[e]
  }

  /** In its topic's list, or popped from it by a drain that has not finished. */
  function InRedis(s: State, e: Event): nat {
    multiset(ListOf(s.lists, e.topic))[e] + s.popped[e]
  }

  /** Rows of the event that still wait for delivery; the row being marked done does not. */
  function InLiveRows(rows: seq<Row>, e: Event, replay: Replay): nat {
    if rows == [] then 0
    else
      var n := |rows| - 1;
      InLiveRows(rows[..n], e, replay)
      + if rows[n].event == e && IsLive(rows[n]) && replay != Sent(n) then 1 else 0
  }

  function InDeadRows(rows: seq<Row>, e: Event): nat {
    if rows == [] then 0
    else
      var n := |rows| - 1;
      InDeadRows(rows[..n], e) + if rows[n].event == e && rows[n].status == DEAD && !rows[n].replayed then 1 else 0
  }

  ghost predicate Accounted(s: State, e: Event) {
    s.emitted[e] == InDelivered(s, e) + InRedis(s, e) + InLiveRows(s.rows, e, s.replay) + InDeadRows(s.rows, e)
  }

  ghost predicate Conserved(s: State) {
    forall e :: Accounted(s, e)
  }

  ghost predicate RowsInOrder(s: State) {
    && (forall i | 0 <= i < |s.rows| :: RowOk(s.rows[i], s.replay == Trying(i) || s.replay == Sent(i)))
    && (s.replay != Idle ==> s.replay.row < |s.rows| && s.rows[s.replay.row].status == RETRYING)
  }

  /** A row gives up after exactly five failed replays, never earlier. */
  predicate RowOk(r: Row, underReplay: bool) {
    && (r.status == DEAD && !r.replayed ==> r.retryCount == 5)
    && (r.status == PENDING ==> r.retryCount < 5)
    && (r.status == RETRYING ==> underReplay && r.retryCount <= 5)
    && (r.replayed ==> r.status == DEAD)
  }

  lemma {:induction false} RowUpdate(rows: seq<Row>, e: Event, i: nat, r: Row, before: Replay, after: Replay)
    requires i < |rows| && rows[i].event == r.event
    requires forall j: nat | j < |rows| && j != i :: (before == Sent(j)) == (after == Sent(j))
    ensures InLiveRows(rows[i := r], e, after)
            == InLiveRows(rows, e, before)
               - (if rows[i].event == e && IsLive(rows[i]) && before != Sent(i) then 1 else 0)
               + (if r.event == e && IsLive(r) && after != Sent(i) then 1 else 0)
    ensures InDeadRows(rows[i := r], e)
            == InDeadRows(rows, e)
               - (if rows[i].event == e && rows[i].status == DEAD && !rows[i].replayed then 1 else 0)
               + (if r.event == e && r.status == DEAD && !r.replayed then 1 else 0)
  {
    var n := |rows| - 1;
    if i < n {
      RowUpdate(rows[..n], e, i, r, before, after);
      assert rows[i := r][..n] == rows[..n][i := r];
    } else {
      assert rows[i := r][..n] == rows[..n];
      SameReplay(rows[..n], e, before, after);
    }
  }

  lemma {:induction false} SameReplay(rows: seq<Row>, e: Event, before: Replay, after: Replay)
    requires forall j: nat | j < |rows| :: (before == Sent(j)) == (after == Sent(j))
    ensures InLiveRows(rows, e, before) == InLiveRows(rows, e, after)
  {
    if rows != [] {
      SameReplay(rows[..|rows| - 1], e, before, after);
    }
  }

  lemma PushCounts(lists: map<string, seq<Event>>, e: Event, x: Event)
    ensures multiset(ListOf(Push(lists, e), x.topic))[x]
            == multiset(ListOf(lists, x.topic))[x] + (if x == e then 1 else 0)
  {
    var list := ListOf(lists, e.topic);
    assert multiset(list + [e]) == multiset(list) + multiset{e};
  }

  lemma AppendCounts(log: seq<Event>, e: Event, x: Event)
    ensures multiset(log + [e])[x] == multiset(log)[x] + (if x == e then 1 else 0)
  {
    assert multiset(log + [e]) == multiset(log) + multiset{e};
  }

  lemma NewRowCounts(rows: seq<Row>, e: Event, x: Event, replay: Replay)
    requires replay != Sent(|rows|)
    ensures var t := rows + [Row(e, PENDING, 0, false)];
            && InLiveRows(t, x, replay) == InLiveRows(rows, x, replay) + (if x == e then 1 else 0)
            && InDeadRows(t, x) == InDeadRows(rows, x)
  {
    var t := rows + [Row(e, PENDING, 0, false)];
    assert t[..|rows|] == rows;
  }

  lemma EmitConserves(s: State, e: Event, kafkaUp: bool, redisUp: bool, x: Event)
    requires RowsInOrder(s) && Accounted(s, x)
    ensures Accounted(EmitStep(s, e, kafkaUp, redisUp), x)
  {
    if s.kafkaAvailable && kafkaUp {
      AppendCounts(s.delivered, e, x);
    } else if redisUp {
      PushCounts(s.lists, e, x);
    } else {
      NewRowCounts(s.rows, e, x, s.replay);
    }
  }

  lemma PopConserves(s: State, topic: string, x: Event)
    requires Accounted(s, x) && TopicsMatch(s)
    ensures Accounted(Next(s, DrainPop(topic)), x)
  {
    var list := ListOf(s.lists, topic);
    if list != [] {
      assert list[0] in s.lists[topic];
      assert list == [list[0]] + list[1..];
      assert multiset(list) == multiset{list[0]} + multiset(list[1..]);
    }
  }

  lemma DrainEmitConserves(s: State, e: Event, kafkaUp: bool, x: Event)
    requires Accounted(s, x)
    ensures Accounted(Next(s, DrainEmit(e, kafkaUp)), x)
  {
    AppendCounts(s.delivered, e, x);
    PushCounts(s.lists, e, x);
  }

  lemma BeginConserves(s: State, row: nat, x: Event)
    requires Accounted(s, x) && RowsInOrder(s)
    ensures Accounted(Next(s, ReplayBegin(row)), x)
  {
    var t := Next(s, ReplayBegin(row));
    if t != s {
      assert RowOk(s.rows[row], false);
      RowUpdate(s.rows, x, row, t.rows[row], s.replay, t.replay);
    }
  }

  lemma SendConserves(s: State, kafkaUp: bool, x: Event)
    requires Accounted(s, x) && RowsInOrder(s)
    ensures Accounted(Next(s, ReplaySend(kafkaUp)), x)
  {
    var t := Next(s, ReplaySend(kafkaUp));
    if t != s {
      var i := s.replay.row;
      assert t.rows == s.rows[i := t.rows[i]];
      AppendCounts(s.delivered, s.rows[i].event, x);
      RowUpdate(s.rows, x, i, t.rows[i], s.replay, t.replay);
    }
  }

  lemma DoneConserves(s: State, x: Event)
    requires Accounted(s, x) && RowsInOrder(s)
    ensures Accounted(Next(s, ReplayMarkDone), x)
  {
    var t := Next(s, ReplayMarkDone);
    if t != s {
      var i := s.replay.row;
      RowUpdate(s.rows, x, i, t.rows[i], s.replay, t.replay);
    }
  }

  lemma NextKeepsRowsInOrder(s: State, step: Step)
    requires RowsInOrder(s)
    ensures RowsInOrder(Next(s, step))
  {}

  ghost predicate TopicsMatch(s: State) {
    forall t | t in s.lists :: forall e <- s.lists[t] :: e.topic == t
  }

  lemma PushKeepsTopics(s: State, t: State, e: Event)
    requires TopicsMatch(s) && t.lists == Push(s.lists, e)
    ensures TopicsMatch(t)
  {}

  lemma PopKeepsTopics(s: State, topic: string)
    requires TopicsMatch(s)
    ensures TopicsMatch(Next(s, DrainPop(topic)))
  {
    var list := ListOf(s.lists, topic);
    if list != [] {
      assert forall e <- list[1..] :: e in list;
    }
  }

  lemma NextKeepsTopics(s: State, step: Step)
    requires TopicsMatch(s)
    ensures TopicsMatch(Next(s, step))
  {
    var t := Next(s, step);
    match step
    case DrainPop(topic) => PopKeepsTopics(s, topic);
    case Emit(e, _, _) =>
      if t.lists != s.lists {
        PushKeepsTopics(s, t, e);
      }
    case DrainEmit(e, _) =>
      if t.lists != s.lists {
        PushKeepsTopics(s, t, e);
      }
    case _ =>
  }

  /** Conservation over every interleaving: what was emitted is delivered, in Redis, in a
      live row, or in a row that failed five replays - each emission exactly once. */
  lemma {:induction false} EventsAreConserved(init: State, steps: seq<Step>)
    requires Initial(init)
    ensures var s := After(init, steps); Conserved(s) && RowsInOrder(s) && TopicsMatch(s)
  {
    if steps != [] {
      var r, step := After(init, steps[..|steps| - 1]), steps[|steps| - 1];
      EventsAreConserved(init, steps[..|steps| - 1]);
      NextKeepsRowsInOrder(r, step);
      NextKeepsTopics(r, step);
      forall x ensures Accounted(Next(r, step), x) {
        assert Accounted(r, x);
        match step
        case Emit(e, kafkaUp, redisUp) => EmitConserves(r, e, kafkaUp, redisUp, x);
        case DrainPop(topic) => PopConserves(r, topic, x);
        case DrainEmit(e, kafkaUp) => DrainEmitConserves(r, e, kafkaUp, x);
        case ReplayBegin(row) => BeginConserves(r, row, x);
        case ReplaySend(kafkaUp) => SendConserves(r, kafkaUp, x);
        case ReplayMarkDone => DoneConserves(r, x);
      }
    }
  }

  // ---- The order of the tiers ----

  /** Every send of the run reaches the broker. */
  predicate BrokerUp(steps: seq<Step>) {
    forall step <- steps :: (step.Emit? || step.DrainEmit? || step.ReplaySend?) ==> step.kafkaUp
  }

  predicate BrokerDown(steps: seq<Step>) {
    forall step <- steps :: (step.Emit? || step.DrainEmit? || step.ReplaySend?) ==> !step.kafkaUp
  }

  predicate RedisUp(steps: seq<Step>) {
    forall step <- steps :: step.Emit? ==> step.redisUp
  }

  /** The events emitted by a run, in order. */
  function EmittedIn(steps: seq<Step>): seq<Event> {
    if steps == [] then []
    else
      var last := steps[|steps| - 1];
      EmittedIn(steps[..|steps| - 1]) + if last.Emit? then [last.e] else []
  }

  /** Kafka comes first: while the broker is up and known to be, every event is delivered as it
      is emitted, in order, and neither Redis nor the table ever holds one. */
  lemma {:induction false} BrokerUpDeliversInOrder(init: State, steps: seq<Step>)
    requires Initial(init) && init.kafkaAvailable && BrokerUp(steps)
    ensures var s := After(init, steps);
            && s.delivered == EmittedIn(steps) && s.kafkaAvailable
            && s.lists == map[] && s.popped == multiset{} && s.rows == [] && s.replay == Idle
  {
    if steps != [] {
      BrokerUpDeliversInOrder(init, steps[..|steps| - 1]);
      assert steps[|steps| - 1] in steps;
      SentAtOnce(After(init, steps[..|steps| - 1]), steps[|steps| - 1]);
    }
  }

  lemma SentAtOnce(s: State, step: Step)
    requires s.kafkaAvailable && s.lists == map[] && s.popped == multiset{} && s.rows == [] && s.replay == Idle
    requires step.Emit? ==> step.kafkaUp
    ensures Next(s, step) == (if step.Emit?
                              then s.(delivered := s.delivered + [step.e], emitted := s.emitted + multiset{step.e})
                              else s)
  {}

  /** Redis comes second: while it is up no event is written to the dead-letter table. */
  lemma {:induction false} RedisUpKeepsTableEmpty(init: State, steps: seq<Step>)
    requires Initial(init) && RedisUp(steps)
    ensures After(init, steps).rows == [] && After(init, steps).replay == Idle
  {
    if steps != [] {
      RedisUpKeepsTableEmpty(init, steps[..|steps| - 1]);
      assert steps[|steps| - 1] in steps;
      NoNewRow(After(init, steps[..|steps| - 1]), steps[|steps| - 1]);
    }
  }

  lemma NoNewRow(s: State, step: Step)
    requires s.rows == [] && s.replay == Idle && (step.Emit? ==> step.redisUp)
    ensures Next(s, step).rows == [] && Next(s, step).replay == Idle
  {}

  /** Without the broker nothing is delivered. */
  lemma {:induction false} BrokerDownDeliversNothing(init: State, steps: seq<Step>)
    requires Initial(init) && BrokerDown(steps)
    ensures After(init, steps).delivered == []
    ensures !After(init, steps).replay.Sent?
  {
    if steps != [] {
      BrokerDownDeliversNothing(init, steps[..|steps| - 1]);
      assert steps[|steps| - 1] in steps;
      NothingSent(After(init, steps[..|steps| - 1]), steps[|steps| - 1]);
    }
  }

  lemma NothingSent(s: State, step: Step)
    requires !s.replay.Sent? && (step.Emit? || step.DrainEmit? || step.ReplaySend? ==> !step.kafkaUp)
    ensures Next(s, step).delivered == s.delivered && !Next(s, step).replay.Sent?
  {}

  datatype Place = InKafka | InList | InDlq | GivenUp

  function Count(s: State, e: Event, place: Place): nat {
    match place
    case InKafka => InDelivered(s, e)
    case InList => InRedis(s, e)
    case InDlq => InLiveRows(s.rows, e, s.replay)
    case GivenUp => InDeadRows(s.rows, e)
  }

  /** An event emitted once is in exactly one place, and in particular delivered at most
      once. */
  lemma EveryEventInOnePlace(init: State, steps: seq<Step>, e: Event) returns (here: Place)
    requires Initial(init) && After(init, steps).emitted[e] == 1
    ensures Count(After(init, steps), e, here) == 1
    ensures forall place | place != here :: Count(After(init, steps), e, place) == 0
  {
    EventsAreConserved(init, steps);
    var s := After(init, steps);
    assert Accounted(s, e);
    assert Count(s, e, InKafka) + Count(s, e, InList) + Count(s, e, InDlq) + Count(s, e, GivenUp) == 1;
    here := if Count(s, e, InKafka) == 1 then InKafka
            else if Count(s, e, InList) == 1 then InList
            else if Count(s, e, InDlq) == 1 then InDlq
            else GivenUp;
  }
}
