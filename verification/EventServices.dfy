/** The two jobs of the cascade run alone: the drain of the Redis lists and the replay of
    the dead-letter table, as loops proved against functions of the old contents. */
module EventServices {
  import opened EventCascade
  import opened Sequences

  const DRAIN_BATCH_SIZE: nat := 50
  const REPLAY_BATCH_SIZE: nat := 20

  // ---- Draining one topic ----

  /** The drain of a list in push order, `k` entries already emitted. `up(k)` is whether
      the k-th emit reaches Kafka; a failed entry goes back to the producer's end. */
  function Drain(list: seq<Event>, up: nat -> bool, k: nat): (r: (seq<Event>, seq<Event>))
    decreases |list|
  {
    if k >= DRAIN_BATCH_SIZE || list == [] then (list, [])
    else if up(k) then
      var (rest, out) := Drain(list[1..], up, k + 1);
      (rest, [list[0]] + out)
    else (list[1..] + [list[0]], [])
  }

  function Min(a: nat, b: nat): nat {
    if a <= b then a else b
  }

  /** How many emits succeed before the first failure, at most `limit`. */
  function Successes(up: nat -> bool, k: nat, limit: nat): (r: nat)
    ensures r <= limit
    ensures forall i | k <= i < k + r :: up(i)
    ensures r < limit ==> !up(k + r)
    decreases limit
  {
    if limit == 0 || !up(k) then 0 else 1 + Successes(up, k + 1, limit - 1)
  }

  /** What is left of a list after n successful emits, `all` telling whether none failed. */
  function Leftover(list: seq<Event>, n: nat, all: bool): seq<Event>
    requires if all then n <= |list| else n < |list|
  {
    if all then list[n..] else list[n + 1..] + [list[n]]
  }

  lemma LeftoverOfTail(list: seq<Event>, n: nat, all: bool)
    requires list != [] && if all then n <= |list| - 1 else n < |list| - 1
    ensures Leftover(list[1..], n, all) == Leftover(list, n + 1, all)
    ensures [list[0]] + list[1..][..n] == list[..n + 1]
  {
    assert list[1..][n..] == list[n + 1..];
    assert !all ==> list[1..][n + 1..] == list[n + 2..];
  }

  function DrainLimit(list: seq<Event>, k: nat): nat
    requires k <= DRAIN_BATCH_SIZE
  {
    Min(50 - k, |list|)
  }

  lemma DrainFails(list: seq<Event>, up: nat -> bool, k: nat)
    requires k < DRAIN_BATCH_SIZE && list != [] && !up(k)
    ensures Drain(list, up, k) == (list[1..] + [list[0]], [])
  {}

  lemma DrainStops(list: seq<Event>, up: nat -> bool, k: nat)
    requires k <= DRAIN_BATCH_SIZE && (k == DRAIN_BATCH_SIZE || list == [] || !up(k))
    ensures Successes(up, k, DrainLimit(list, k)) == 0
    ensures Drain(list, up, k) == (Leftover(list, 0, DrainLimit(list, k) == 0), [])
  {
    if k == DRAIN_BATCH_SIZE || list == [] {
      assert DrainLimit(list, k) == 0;
    }
  }

  lemma DrainGoesOn(list: seq<Event>, up: nat -> bool, k: nat)
    requires k < DRAIN_BATCH_SIZE && list != [] && up(k)
    ensures DrainLimit(list, k) == 1 + DrainLimit(list[1..], k + 1)
    ensures Successes(up, k, DrainLimit(list, k)) == 1 + Successes(up, k + 1, DrainLimit(list[1..], k + 1))
  {}

  lemma DrainOnce(list: seq<Event>, up: nat -> bool, k: nat)
    requires k < DRAIN_BATCH_SIZE && list != [] && up(k)
    ensures Drain(list, up, k) == (Drain(list[1..], up, k + 1).0, [list[0]] + Drain(list[1..], up, k + 1).1)
  {}

  lemma OneMore(list: seq<Event>, tail: (seq<Event>, seq<Event>), n: nat, limit: nat)
    requires list != [] && n <= limit <= |list| - 1
    requires tail == (Leftover(list[1..], n, n == limit), list[1..][..n])
    ensures (tail.0, [list[0]] + tail.1) == (Leftover(list, n + 1, n == limit), list[..n + 1])
  {
    LeftoverOfTail(list, n, n == limit);
  }

  /** The drain delivered the first n entries, n being its successes up to the limit. */
  ghost predicate TakesOldest(list: seq<Event>, up: nat -> bool, k: nat)
    requires k <= DRAIN_BATCH_SIZE
  {
    var limit := DrainLimit(list, k);
    var n := Successes(up, k, limit);
    Drain(list, up, k) == (Leftover(list, n, n == limit), list[..n])
  }

  lemma TakesOldestThen(list: seq<Event>, up: nat -> bool, k: nat)
    requires k < DRAIN_BATCH_SIZE && list != [] && up(k) && TakesOldest(list[1..], up, k + 1)
    ensures TakesOldest(list, up, k)
  {
    DrainGoesOn(list, up, k);
    DrainOnce(list, up, k);
    var limit := DrainLimit(list[1..], k + 1);
    OneMore(list, Drain(list[1..], up, k + 1), Successes(up, k + 1, limit), limit);
  }

  /** A drain delivers the oldest entries in push order. If no emit fails it takes 50, or
      all if fewer; at the first failure the entry it held becomes the newest. */
  lemma {:induction false} DrainTakesOldest(list: seq<Event>, up: nat -> bool, k: nat)
    requires k <= DRAIN_BATCH_SIZE
    ensures TakesOldest(list, up, k)
    decreases |list|
  {
    if k < DRAIN_BATCH_SIZE && list != [] && up(k) {
      DrainTakesOldest(list[1..], up, k + 1);
      TakesOldestThen(list, up, k);
    } else {
      DrainStops(list, up, k);
    }
  }

  /** Push order survives a drain exactly when no emit failed, or the failed entry was the
      last one waiting. */
  lemma {:induction false} OrderKeptIff(list: seq<Event>, up: nat -> bool)
    requires forall i, j | 0 <= i < j < |list| :: list[i] != list[j]
    ensures var limit := Min(50, |list|);
            var n := Successes(up, 0, limit);
            Drain(list, up, 0).0 == list[n..] <==> n == limit || |list| == n + 1
  {
    DrainTakesOldest(list, up, 0);
    var limit := Min(50, |list|);
    var n := Successes(up, 0, limit);
    if n < limit && |list| > n + 1 {
      assert (list[n + 1..] + [list[n]])[0] == list[n + 1] != list[n..][0];
    } else if n < limit {
      assert list[n + 1..] + [list[n]] == list[n..];
    }
  }

  class RedisFallbackQueueService {
    var lists: map<string, seq<Event>>

    constructor ()
      ensures lists == map[]
    {
      lists := map[];
    }

    method PushEvent(e: Event)
      modifies this
      ensures lists == Push(old(lists), e)
    {
      lists := lists[e.topic := ListOf(lists, e.topic) + [e]];
    }

    /** One topic of `drainQueue`: pop the oldest, emit, stop at the first failure. */
    method DrainTopic(topic: string, up: nat -> bool) returns (emitted: seq<Event>)
      modifies this
      ensures ListOf(lists, topic) == Drain(ListOf(old(lists), topic), up, 0).0
      ensures emitted == Drain(ListOf(old(lists), topic), up, 0).1
      ensures forall t | t != topic :: ListOf(lists, t) == ListOf(old(lists), t)
    {
      emitted := [];
      ghost var all := Drain(ListOf(lists, topic), up, 0);
      var processed := 0;
      while processed < DRAIN_BATCH_SIZE && ListOf(lists, topic) != []
        invariant processed == |emitted| <= DRAIN_BATCH_SIZE
        invariant Continues(all, emitted, Drain(ListOf(lists, topic), up, processed))
        invariant forall t | t != topic :: ListOf(lists, t) == ListOf(old(lists), t)
      {
        var list := ListOf(lists, topic);
        var entry := list[0];
        lists := lists[topic := list[1..]];
        if !up(processed) {
          DrainFails(list, up, processed);
          lists := lists[topic := list[1..] + [entry]];
          return;
        }
        DrainOnce(list, up, processed);
        ContinuesOn(all, emitted, entry, Drain(list[1..], up, processed + 1));
        emitted := emitted + [entry];
        processed := processed + 1;
      }
      DrainStops(ListOf(lists, topic), up, processed);
    }

    /** `drainQueue`: every topic once, each with its own batch. */
    method DrainQueue(topics: seq<string>, up: string -> nat -> bool) returns (emitted: map<string, seq<Event>>)
      requires forall i, j | 0 <= i < j < |topics| :: topics[i] != topics[j]
      modifies this
      ensures emitted.Keys == set t | t in topics
      ensures forall t | t in topics ::
                && ListOf(lists, t) == Drain(ListOf(old(lists), t), up(t), 0).0
                && emitted[t] == Drain(ListOf(old(lists), t), up(t), 0).1
      ensures forall t | t !in topics :: ListOf(lists, t) == ListOf(old(lists), t)
    {
      emitted := map[];
      for i := 0 to |topics|
        invariant emitted.Keys == set t | t in topics[..i]
        invariant forall t | t in topics[..i] ::
                    && ListOf(lists, t) == Drain(ListOf(old(lists), t), up(t), 0).0
                    && emitted[t] == Drain(ListOf(old(lists), t), up(t), 0).1
        invariant forall t | t !in topics[..i] :: ListOf(lists, t) == ListOf(old(lists), t)
      {
        assert topics[..i + 1] == topics[..i] + [topics[i]];
        var out := DrainTopic(topics[i], up(topics[i]));
        emitted := emitted[topics[i] := out];
      }
      assert topics[..|topics|] == topics;
    }
  }

  // ---- Replaying the dead-letter table ----

  /** The outcome of one row's replay. */
  function Replayed(r: Row, up: bool): Row {
    var tried := r.(status := RETRYING, retryCount := r.retryCount + 1);
    if up then tried.(status := DEAD, replayed := true) else FailedReplay(tried)
  }

  /** The replay job: the first `room` live rows, oldest first. */
  function ReplayRows(rows: seq<Row>, up: nat -> bool, room: nat): seq<Row> {
    if rows == [] then []
    else if room > 0 && IsLive(rows[0]) then [Replayed(rows[0], up(room))] + ReplayRows(rows[1..], up, room - 1)
    else [rows[0]] + ReplayRows(rows[1..], up, room)
  }

  function LiveCount(rows: seq<Row>): nat {
    if rows == [] then 0 else (if IsLive(rows[0]) then 1 else 0) + LiveCount(rows[1..])
  }

  /** Replays still open: five per fresh live row. */
  function OpenReplays(rows: seq<Row>): int {
    if rows == [] then 0
    else (if IsLive(rows[0]) then 5 - rows[0].retryCount else 0) + OpenReplays(rows[1..])
  }

  predicate Settled(rows: seq<Row>) {
    forall i | 0 <= i < |rows| :: RowOk(rows[i], false)
  }

  /** Every job keeps the table in order: a row gives up after exactly five failures. */
  lemma {:induction false} ReplayKeepsSettled(rows: seq<Row>, up: nat -> bool, room: nat)
    requires Settled(rows)
    ensures var t := ReplayRows(rows, up, room);
            |t| == |rows| && Settled(t) && forall i | 0 <= i < |rows| :: t[i].event == rows[i].event
  {
    if rows != [] {
      var taken := room > 0 && IsLive(rows[0]);
      ReplayKeepsSettled(rows[1..], up, if taken then room - 1 else room);
      assert RowOk(rows[0], false);
    }
  }

  /** Replays are spent: with live rows left every job uses up open attempts, at least one
      per row it takes, so a dead broker empties the live table after finitely many. */
  lemma {:induction false} ReplaySpendsAttempts(rows: seq<Row>, up: nat -> bool, room: nat)
    requires Settled(rows)
    ensures OpenReplays(ReplayRows(rows, up, room)) <= OpenReplays(rows) - Min(room, LiveCount(rows))
    ensures OpenReplays(rows) >= LiveCount(rows)
  {
    if rows != [] {
      var taken := room > 0 && IsLive(rows[0]);
      var left := if taken then room - 1 else room;
      var t := ReplayRows(rows, up, room);
      assert RowOk(rows[0], false);
      ReplaySpendsAttempts(rows[1..], up, left);
      assert t[1..] == ReplayRows(rows[1..], up, left);
    }
  }

  /** Exactly the `room` oldest live rows are tried, each once; all others are untouched. */
  lemma {:induction false} ReplayTriesOldest(rows: seq<Row>, up: nat -> bool, room: nat, i: nat)
    requires Settled(rows) && i < |rows|
    ensures var t := ReplayRows(rows, up, room);
            && i < |t|
            && if IsLive(rows[i]) && LiveCount(rows[..i]) < room
               then && t[i].retryCount == rows[i].retryCount + 1
                    && if up(room - LiveCount(rows[..i])) then t[i].replayed && t[i].status == DEAD
                       else FailedOnce(rows[i], t[i])
               else t[i] == rows[i]
  {
    var taken := room > 0 && IsLive(rows[0]);
    var left := if taken then room - 1 else room;
    var t := ReplayRows(rows, up, room);
    assert RowOk(rows[0], false);
    if i == 0 {
      assert rows[..0] == [];
    } else {
      ReplayTriesOldest(rows[1..], up, left, i - 1);
      assert rows[..i][1..] == rows[1..][..i - 1];
      assert t[i] == ReplayRows(rows[1..], up, left)[i - 1];
    }
  }

  /** A failed replay gives a row up exactly at its fifth failure. */
  predicate FailedOnce(before: Row, after: Row) {
    && !after.replayed && (after.status == DEAD || after.status == PENDING)
    && (after.status == DEAD <==> before.retryCount + 1 == 5)
  }

  function RoomAfter(r: Row, room: nat): nat {
    if room > 0 && IsLive(r) then room - 1 else room
  }

  function AfterReplay(r: Row, up: nat -> bool, room: nat): Row {
    if room > 0 && IsLive(r) then Replayed(r, up(room)) else r
  }

  lemma ReplayStep(rows: seq<Row>, up: nat -> bool, room: nat, i: nat)
    requires i < |rows|
    ensures ReplayRows(rows[i..], up, room)
            == [AfterReplay(rows[i], up, room)] + ReplayRows(rows[i + 1..], up, RoomAfter(rows[i], room))
  {
    assert rows[i..][0] == rows[i] && rows[i..][1..] == rows[i + 1..];
  }

  /** The job at row i: what is done, then the old rows; and the job's result likewise. */
  ghost predicate ReplayAt(was: seq<Row>, done: seq<Row>, rows: seq<Row>, i: nat, up: nat -> bool, room: nat) {
    && i == |done| <= |was|
    && rows == done + was[i..]
    && ReplayRows(was, up, REPLAY_BATCH_SIZE) == done + ReplayRows(was[i..], up, room)
  }

  lemma ReplayStarts(was: seq<Row>, up: nat -> bool)
    ensures ReplayAt(was, [], was, 0, up, REPLAY_BATCH_SIZE)
  {
    assert was[0..] == was && [] + was == was;
    assert [] + ReplayRows(was, up, REPLAY_BATCH_SIZE) == ReplayRows(was, up, REPLAY_BATCH_SIZE);
  }

  lemma ReplayDone(was: seq<Row>, done: seq<Row>, rows: seq<Row>, up: nat -> bool, room: nat)
    requires ReplayAt(was, done, rows, |was|, up, room)
    ensures rows == ReplayRows(was, up, REPLAY_BATCH_SIZE)
  {
    assert was[|was|..] == [];
  }

  /** One row of the job done: the table and the job's result both move on by it. */
  lemma ReplayAdvances(was: seq<Row>, done: seq<Row>, rows: seq<Row>, i: nat, up: nat -> bool, room: nat)
    requires i < |was| && ReplayAt(was, done, rows, i, up, room)
    ensures var next := AfterReplay(was[i], up, room); var left := RoomAfter(was[i], room);
            && i < |rows| && rows[i] == was[i]
            && ReplayAt(was, done + [next], rows[i := next], i + 1, up, left)
  {
    var next := AfterReplay(was[i], up, room);
    ReplayStep(was, up, room, i);
    AdvanceRow(was, done, i, next);
    MoveOver(done, next, ReplayRows(was[i + 1..], up, RoomAfter(was[i], room)));
  }

  lemma AdvanceRow(rows: seq<Row>, done: seq<Row>, i: nat, next: Row)
    requires i == |done| < |rows|
    ensures (done + rows[i..])[i] == rows[i]
    ensures (done + rows[i..])[i := next] == done + [next] + rows[i + 1..]
  {}

  class KafkaDlqService {
    var rows: seq<Row>

    constructor ()
      ensures rows == []
    {
      rows := [];
    }

    method PushToDlq(e: Event)
      modifies this
      ensures rows == old(rows) + [Row(e, PENDING, 0, false)]
    {
      rows := rows + [Row(e, PENDING, 0, false)];
    }

    /** One entry: mark RETRYING, emit, then DEAD on success or after five failures. */
    method ReplayEntry(i: nat, up: bool)
      requires i < |rows|
      modifies this
      ensures rows == old(rows)[i := Replayed(old(rows[i]), up)]
    {
      rows := rows[i := rows[i].(status := RETRYING, retryCount := rows[i].retryCount + 1)];
      if up {
        rows := rows[i := rows[i].(status := DEAD, replayed := true)];
      } else {
        rows := rows[i := FailedReplay(rows[i])];
      }
    }

    /** One row of the table: replayed if it is live and the batch has room. */
    method ReplayRow(i: nat, up: nat -> bool, room: nat) returns (left: nat)
      requires i < |rows|
      modifies this
      ensures rows == old(rows)[i := AfterReplay(old(rows[i]), up, room)]
      ensures left == RoomAfter(old(rows[i]), room)
    {
      left := room;
      if room > 0 && IsLive(rows[i]) {
        ReplayEntry(i, up(room));
        left := room - 1;
      }
    }

    /** `replayPending`: the oldest live entries, up to the batch size. */
    method ReplayPending(up: nat -> bool)
      modifies this
      ensures rows == ReplayRows(old(rows), up, 20)
    {
      var room := REPLAY_BATCH_SIZE;
      ghost var was := rows;
      ghost var done: seq<Row> := [];
      ReplayStarts(was, up);
      for i := 0 to |rows|
        invariant |rows| == |was|
        invariant ReplayAt(was, done, rows, i, up, room)
      {
        ReplayAdvances(was, done, rows, i, up, room);
        done := done + [AfterReplay(was[i], up, room)];
        room := ReplayRow(i, up, room);
      }
      ReplayDone(was, done, rows, up, room);
    }
  }
}
