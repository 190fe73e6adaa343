/** The drain and replay loops as runs of the interleaved cascade, so that conservation holds
    of them as well. */
module EventRuns {
  import opened EventCascade
  import opened EventServices

  lemma {:induction false} AfterConcat(s: State, a: seq<Step>, b: seq<Step>)
    ensures After(s, a + b) == After(After(s, a), b)
  {
    if b == [] {
      assert a + b == a;
    } else {
      assert (a + b)[..|a + b| - 1] == a + b[..|b| - 1];
      AfterConcat(s, a, b[..|b| - 1]);
    }
  }

  lemma AfterPair(s: State, x: Step, y: Step)
    ensures After(s, [x, y]) == Next(Next(s, x), y)
  {
    assert [x, y][..1] == [x] && [x][..0] == [];
    assert After(s, [x]) == Next(After(s, []), x);
  }

  lemma AfterThree(s: State, x: Step, y: Step, z: Step)
    ensures After(s, [x, y, z]) == Next(Next(Next(s, x), y), z)
  {
    AfterPair(s, x, y);
    assert [x, y, z][..2] == [x, y];
  }

  // ---- Draining ----

  /** The pops and emits of one topic's drain. */
  function DrainSteps(topic: string, list: seq<Event>, up: nat -> bool, k: nat): seq<Step>
    decreases |list|
  {
    if k >= DRAIN_BATCH_SIZE || list == [] then []
    else
      [DrainPop(topic), DrainEmit(list[0], up(k))]
      + if up(k) then DrainSteps(topic, list[1..], up, k + 1) else []
  }

  /** Everything but the lists, which agree topic by topic. */
  ghost predicate SameState(s: State, t: State) {
    && (forall topic :: ListOf(s.lists, topic) == ListOf(t.lists, topic))
    && s.(lists := t.lists) == t
  }

  function Taken(e: Event, ok: bool): seq<Event> {
    if ok then [e] else []
  }

  lemma PopAndEmit(s: State, topic: string, ok: bool)
    requires TopicsMatch(s) && ListOf(s.lists, topic) != []
    ensures var list := ListOf(s.lists, topic);
            var t := Next(Next(s, DrainPop(topic)), DrainEmit(list[0], ok));
            && t == s.(lists := t.lists, delivered := s.delivered + Taken(list[0], ok),
                       kafkaAvailable := s.kafkaAvailable || ok)
            && ListOf(t.lists, topic) == (if ok then list[1..] else list[1..] + [list[0]])
            && (forall other | other != topic :: ListOf(t.lists, other) == ListOf(s.lists, other))
            && TopicsMatch(t)
  {
    var list := ListOf(s.lists, topic);
    assert list[0] in s.lists[topic];
    NextKeepsTopics(s, DrainPop(topic));
    NextKeepsTopics(Next(s, DrainPop(topic)), DrainEmit(list[0], ok));
    assert s.popped + multiset{list[0]} - multiset{list[0]} == s.popped;
    assert s.delivered + [] == s.delivered;
  }

  /** From s the drain of a topic, k entries in, ends with this list and these deliveries. */
  ghost predicate DrainEnds(s: State, t: State, topic: string, left: seq<Event>, out: seq<Event>) {
    && ListOf(t.lists, topic) == left
    && (forall other | other != topic :: ListOf(t.lists, other) == ListOf(s.lists, other))
    && t == s.(lists := t.lists, delivered := s.delivered + out, kafkaAvailable := s.kafkaAvailable || out != [])
  }

  lemma DrainEndsThen(s: State, s2: State, t: State, topic: string, e: Event, left: seq<Event>, out: seq<Event>)
    requires s2 == s.(lists := s2.lists, delivered := s.delivered + [e], kafkaAvailable := true)
    requires forall other | other != topic :: ListOf(s2.lists, other) == ListOf(s.lists, other)
    requires DrainEnds(s2, t, topic, left, out)
    ensures DrainEnds(s, t, topic, left, [e] + out)
  {
    assert s.delivered + [e] + out == s.delivered + ([e] + out);
  }

  lemma DrainStepsUnfold(topic: string, list: seq<Event>, up: nat -> bool, k: nat)
    requires k < DRAIN_BATCH_SIZE && list != []
    ensures DrainSteps(topic, list, up, k)
            == [DrainPop(topic), DrainEmit(list[0], up(k))]
               + (if up(k) then DrainSteps(topic, list[1..], up, k + 1) else [])
  {}

  ghost predicate DrainRuns(s: State, topic: string, up: nat -> bool, k: nat) {
    var list := ListOf(s.lists, topic);
    DrainEnds(s, After(s, DrainSteps(topic, list, up, k)), topic, Drain(list, up, k).0, Drain(list, up, k).1)
  }

  lemma PairState(s: State, topic: string, ok: bool)
    requires TopicsMatch(s) && ListOf(s.lists, topic) != []
    ensures var list := ListOf(s.lists, topic); var t := After(s, [DrainPop(topic), DrainEmit(list[0], ok)]);
            && TopicsMatch(t)
            && DrainEnds(s, t, topic, if ok then list[1..] else list[1..] + [list[0]], Taken(list[0], ok))
  {
    var list := ListOf(s.lists, topic);
    PopAndEmit(s, topic, ok);
    AfterPair(s, DrainPop(topic), DrainEmit(list[0], ok));
  }

  /** The state after a pop and a successful emit. */
  function AfterTaking(s: State, topic: string): State
    requires ListOf(s.lists, topic) != []
  {
    After(s, [DrainPop(topic), DrainEmit(ListOf(s.lists, topic)[0], true)])
  }

  lemma TakingMovesOn(s: State, topic: string)
    requires TopicsMatch(s) && ListOf(s.lists, topic) != []
    ensures var list := ListOf(s.lists, topic); var mid := AfterTaking(s, topic);
            TopicsMatch(mid) && ListOf(mid.lists, topic) == list[1..] && DrainEnds(s, mid, topic, list[1..], [list[0]])
  {
    PairState(s, topic, true);
  }

  lemma DrainTakes(s: State, topic: string, up: nat -> bool, k: nat)
    requires k < DRAIN_BATCH_SIZE && ListOf(s.lists, topic) != [] && up(k) && TopicsMatch(s)
    requires DrainRuns(AfterTaking(s, topic), topic, up, k + 1)
    ensures DrainRuns(s, topic, up, k)
  {
    TakingMovesOn(s, topic);
    var list, mid := ListOf(s.lists, topic), AfterTaking(s, topic);
    var later := DrainSteps(topic, list[1..], up, k + 1);
    DrainStepsUnfold(topic, list, up, k);
    DrainOnce(list, up, k);
    AfterConcat(s, [DrainPop(topic), DrainEmit(list[0], true)], later);
    DrainEndsThen(s, mid, After(mid, later), topic, list[0],
                  Drain(list[1..], up, k + 1).0, Drain(list[1..], up, k + 1).1);
  }

  lemma DrainStopsAtOnce(s: State, topic: string, up: nat -> bool, k: nat)
    requires k >= DRAIN_BATCH_SIZE || ListOf(s.lists, topic) == []
    ensures DrainRuns(s, topic, up, k)
  {
    assert s.delivered + [] == s.delivered;
  }

  lemma DrainStopsAtFailure(s: State, topic: string, up: nat -> bool, k: nat)
    requires k < DRAIN_BATCH_SIZE && ListOf(s.lists, topic) != [] && !up(k) && TopicsMatch(s)
    ensures DrainRuns(s, topic, up, k)
  {
    var list := ListOf(s.lists, topic);
    PairState(s, topic, false);
    DrainFails(list, up, k);
    DrainStepsUnfold(topic, list, up, k);
    assert [DrainPop(topic), DrainEmit(list[0], false)] + [] == [DrainPop(topic), DrainEmit(list[0], false)];
  }

  /** One topic's drain is a run of the cascade. */
  lemma {:induction false} DrainIsARun(s: State, topic: string, up: nat -> bool, k: nat)
    requires TopicsMatch(s)
    ensures DrainRuns(s, topic, up, k)
    decreases |ListOf(s.lists, topic)|
  {
    if k >= DRAIN_BATCH_SIZE || ListOf(s.lists, topic) == [] {
      DrainStopsAtOnce(s, topic, up, k);
    } else if up(k) {
      TakingMovesOn(s, topic);
      DrainIsARun(AfterTaking(s, topic), topic, up, k + 1);
      DrainTakes(s, topic, up, k);
    } else {
      DrainStopsAtFailure(s, topic, up, k);
    }
  }

  // ---- Replaying ----

  /** The steps of a replay job from row i on. */
  function ReplaySteps(rows: seq<Row>, up: nat -> bool, room: nat, i: nat): seq<Step>
    requires i <= |rows|
    decreases |rows| - i
  {
    if i == |rows| then []
    else if room > 0 && IsLive(rows[i]) then
      [ReplayBegin(i), ReplaySend(up(room)), ReplayMarkDone] + ReplaySteps(rows, up, room - 1, i + 1)
    else ReplaySteps(rows, up, room, i + 1)
  }

  /** The events a replay job delivers, in order. */
  function ReplayedEvents(rows: seq<Row>, up: nat -> bool, room: nat, i: nat): seq<Event>
    requires i <= |rows|
    decreases |rows| - i
  {
    if i == |rows| then []
    else if room > 0 && IsLive(rows[i]) then
      Taken(rows[i].event, up(room)) + ReplayedEvents(rows, up, room - 1, i + 1)
    else ReplayedEvents(rows, up, room, i + 1)
  }

  /** Begin, send and, if it was sent, mark: the row after is the replayed one. Without a
      send there is nothing to mark and the third step changes nothing. */
  lemma ReplayOne(s: State, i: nat, ok: bool)
    requires s.replay == Idle && i < |s.rows| && IsLive(s.rows[i])
    ensures After(s, [ReplayBegin(i), ReplaySend(ok), ReplayMarkDone])
            == s.(rows := s.rows[i := Replayed(s.rows[i], ok)], delivered := s.delivered + Taken(s.rows[i].event, ok),
                  kafkaAvailable := s.kafkaAvailable || ok)
  {
    AfterThree(s, ReplayBegin(i), ReplaySend(ok), ReplayMarkDone);
    var tried := s.rows[i].(status := RETRYING, retryCount := s.rows[i].retryCount + 1);
    var s1 := Next(s, ReplayBegin(i));
    assert s1 == s.(rows := s.rows[i := tried], replay := Trying(i));
    var s2 := Next(s1, ReplaySend(ok));
    assert s.rows[i := tried][i := Replayed(s.rows[i], ok)] == s.rows[i := Replayed(s.rows[i], ok)];
    assert s.delivered + [] == s.delivered;
  }

  lemma StepsOfLaterRows(rows: seq<Row>, up: nat -> bool, room: nat, i: nat, j: nat, r: Row)
    requires j < i <= |rows|
    ensures ReplaySteps(rows[j := r], up, room, i) == ReplaySteps(rows, up, room, i)
    ensures ReplayedEvents(rows[j := r], up, room, i) == ReplayedEvents(rows, up, room, i)
    decreases |rows| - i
  {
    if i < |rows| {
      StepsOfLaterRows(rows, up, if room > 0 && IsLive(rows[i]) then room - 1 else room, i + 1, j, r);
    }
  }

  /** The job in state s, from row i on, ends with these rows and deliveries. */
  ghost predicate ReplayEnds(s: State, up: nat -> bool, room: nat, i: nat)
    requires i <= |s.rows|
  {
    var t := After(s, ReplaySteps(s.rows, up, room, i));
    var events := ReplayedEvents(s.rows, up, room, i);
    t == s.(rows := s.rows[..i] + ReplayRows(s.rows[i..], up, room), delivered := s.delivered + events,
            kafkaAvailable := s.kafkaAvailable || events != [])
  }

  lemma RowsAdvance(rows: seq<Row>, i: nat, next: Row, later: seq<Row>)
    requires i < |rows|
    ensures rows[i := next][..i + 1] + later == rows[..i] + ([next] + later)
    ensures rows[i := next][i + 1..] == rows[i + 1..]
  {}

  lemma JoinReplay(s: State, mid: State, end: State, i: nat, next: Row, now: seq<Event>,
                   rest: seq<Row>, later: seq<Event>)
    requires i < |s.rows|
    requires mid == s.(rows := s.rows[i := next], delivered := s.delivered + now,
                       kafkaAvailable := s.kafkaAvailable || now != [])
    requires end == mid.(rows := mid.rows[..i + 1] + rest, delivered := mid.delivered + later,
                         kafkaAvailable := mid.kafkaAvailable || later != [])
    ensures end == s.(rows := s.rows[..i] + ([next] + rest), delivered := s.delivered + (now + later),
                      kafkaAvailable := s.kafkaAvailable || now + later != [])
  {
    RowsAdvance(s.rows, i, next, rest);
    assert s.delivered + now + later == s.delivered + (now + later);
  }

  lemma ReplayStepsUnfold(rows: seq<Row>, up: nat -> bool, room: nat, i: nat)
    requires i < |rows| && room > 0 && IsLive(rows[i])
    ensures ReplaySteps(rows, up, room, i)
            == [ReplayBegin(i), ReplaySend(up(room)), ReplayMarkDone] + ReplaySteps(rows, up, room - 1, i + 1)
    ensures ReplayedEvents(rows, up, room, i)
            == Taken(rows[i].event, up(room)) + ReplayedEvents(rows, up, room - 1, i + 1)
  {}

  lemma ReplayTakes(s: State, mid: State, up: nat -> bool, room: nat, i: nat)
    requires s.replay == Idle && i < |s.rows| && room > 0 && IsLive(s.rows[i])
    requires mid == After(s, [ReplayBegin(i), ReplaySend(up(room)), ReplayMarkDone])
    requires |mid.rows| == |s.rows| && ReplayEnds(mid, up, room - 1, i + 1)
    ensures ReplayEnds(s, up, room, i)
  {
    var next := Replayed(s.rows[i], up(room));
    ReplayOne(s, i, up(room));
    ReplayStepsUnfold(s.rows, up, room, i);
    StepsOfLaterRows(s.rows, up, room - 1, i + 1, i, next);
    var later := ReplaySteps(s.rows, up, room - 1, i + 1);
    AfterConcat(s, [ReplayBegin(i), ReplaySend(up(room)), ReplayMarkDone], later);
    ReplayStep(s.rows, up, room, i);
    RowsAdvance(s.rows, i, next, []);
    JoinReplay(s, mid, After(mid, later), i, next, Taken(s.rows[i].event, up(room)),
               ReplayRows(s.rows[i + 1..], up, room - 1), ReplayedEvents(s.rows, up, room - 1, i + 1));
  }

  lemma ReplayPasses(s: State, up: nat -> bool, room: nat, i: nat)
    requires i < |s.rows| && !(room > 0 && IsLive(s.rows[i])) && ReplayEnds(s, up, room, i + 1)
    ensures ReplayEnds(s, up, room, i)
  {
    ReplayStep(s.rows, up, room, i);
    RowsAdvance(s.rows, i, s.rows[i], ReplayRows(s.rows[i + 1..], up, room));
    assert s.rows[i := s.rows[i]] == s.rows;
  }

  /** A replay job is a run of the cascade. */
  lemma {:induction false} ReplayIsARun(s: State, up: nat -> bool, room: nat, i: nat)
    requires s.replay == Idle && i <= |s.rows|
    ensures ReplayEnds(s, up, room, i)
    decreases |s.rows| - i
  {
    if i == |s.rows| {
      assert s.rows[..i] + [] == s.rows && s.delivered + [] == s.delivered;
    } else if room > 0 && IsLive(s.rows[i]) {
      ReplayOne(s, i, up(room));
      var mid := After(s, [ReplayBegin(i), ReplaySend(up(room)), ReplayMarkDone]);
      ReplayIsARun(mid, up, room - 1, i + 1);
      ReplayTakes(s, mid, up, room, i);
    } else {
      ReplayIsARun(s, up, room, i + 1);
      ReplayPasses(s, up, room, i);
    }
  }

  // ---- Conservation ----

  /** After any history, a drain of a topic leaves every event accounted for. */
  lemma {:induction false} DrainConserves(init: State, steps: seq<Step>, topic: string, up: nat -> bool)
    requires Initial(init)
    ensures var s := After(init, steps);
            Conserved(After(s, DrainSteps(topic, ListOf(s.lists, topic), up, 0)))
  {
    var s := After(init, steps);
    var drain := DrainSteps(topic, ListOf(s.lists, topic), up, 0);
    EventsAreConserved(init, steps + drain);
    AfterConcat(init, steps, drain);
  }

  /** After any history without a replay under way, so does a replay job. */
  lemma {:induction false} ReplayConserves(init: State, steps: seq<Step>, up: nat -> bool)
    requires Initial(init)
    ensures var s := After(init, steps); Conserved(After(s, ReplaySteps(s.rows, up, REPLAY_BATCH_SIZE, 0)))
  {
    var s := After(init, steps);
    var replay := ReplaySteps(s.rows, up, REPLAY_BATCH_SIZE, 0);
    EventsAreConserved(init, steps + replay);
    AfterConcat(init, steps, replay);
  }
}
