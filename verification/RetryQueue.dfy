/** The payout retry queue: a Redis list pushed on the left and popped on the right.
    Every popped entry is settled, requeued with one attempt more, or dead-lettered. */
module RetryQueue {
  import opened Settlement

  datatype Entry = Entry(call: Call, attempts: nat)

  /** `waiting` is the list from left (newest) to right; `settled` records history. */
  datatype Queue = Queue(waiting: seq<Entry>, settled: seq<Entry>, dead: seq<Entry>)

  function Push(q: Queue, e: Entry): Queue {
    q.(waiting := [e] + q.waiting)
  }

  /** Pop one entry and route it by the outcome of its settlement call. */
  function Work(q: Queue, ok: bool, max: nat): Queue
    requires q.waiting != []
  {
    var n := |q.waiting| - 1;
    var e := q.waiting[n].(attempts := q.waiting[n].attempts + 1);
    var popped := q.(waiting := q.waiting[..n]);
    if ok then popped.(settled := q.settled + [e])
    else if e.attempts >= max then popped.(dead := q.dead + [e])
    else Push(popped, e)
  }

  /** The loop over a sequence of outcomes; it stops early when the list is empty. */
  function RunBatch(q: Queue, outcomes: seq<bool>, max: nat): Queue
    decreases |outcomes|
  {
    if outcomes == [] || q.waiting == [] then q
    else RunBatch(Work(q, outcomes[0], max), outcomes[1..], max)
  }

  predicate WellFormed(q: Queue, max: nat) {
    && (forall e <- q.waiting :: e.attempts < max)
    && (forall e <- q.dead :: e.attempts == max)
    && (forall e <- q.settled :: 1 <= e.attempts <= max)
  }

  function CallsOf(es: seq<Entry>): (r: multiset<Call>) {
    if es == [] then multiset{} else multiset{es[0].call} + CallsOf(es[1..])
  }

  /** Attempts still open: each entry may be tried max - attempts more times. */
  function Open(es: seq<Entry>, max: nat): int {
    if es == [] then 0 else max - es[0].attempts + Open(es[1..], max)
  }

  lemma {:induction false} CallsOfConcat(a: seq<Entry>, b: seq<Entry>)
    ensures CallsOf(a + b) == CallsOf(a) + CallsOf(b)
  {
    if a == [] {
      assert a + b == b;
    } else {
      assert (a + b)[1..] == a[1..] + b;
      CallsOfConcat(a[1..], b);
    }
  }

  lemma {:induction false} OpenConcat(a: seq<Entry>, b: seq<Entry>, max: nat)
    ensures Open(a + b, max) == Open(a, max) + Open(b, max)
  {
    if a == [] {
      assert a + b == b;
    } else {
      assert (a + b)[1..] == a[1..] + b;
      OpenConcat(a[1..], b, max);
    }
  }

  lemma {:induction false} OpenAtLeastLength(es: seq<Entry>, max: nat)
    requires forall e <- es :: e.attempts < max
    ensures Open(es, max) >= |es|
  {
    if es != [] {
      assert es[0] in es;
      OpenAtLeastLength(es[1..], max);
    }
  }

  function AllCalls(q: Queue): multiset<Call> {
    CallsOf(q.waiting) + CallsOf(q.settled) + CallsOf(q.dead)
  }

  lemma {:induction false} WorkKeepsWellFormed(q: Queue, ok: bool, max: nat)
    requires q.waiting != [] && WellFormed(q, max)
    ensures WellFormed(Work(q, ok, max), max)
  {
    var last := q.waiting[|q.waiting| - 1];
    assert last in q.waiting;
  }

  /** The right-hand entry is popped with one attempt more. It joins the settled ones, or at the
      limit the dead ones, or goes behind all that wait. */
  lemma WorkMoves(q: Queue, ok: bool, max: nat)
    requires q.waiting != []
    ensures var last := q.waiting[|q.waiting| - 1]; var tried := Entry(last.call, last.attempts + 1);
            var t := Work(q, ok, max);
            && t.settled == q.settled + (if ok then [tried] else [])
            && t.dead == q.dead + (if !ok && tried.attempts >= max then [tried] else [])
            && t.waiting == (if !ok && tried.attempts < max then [tried] else []) + q.waiting[..|q.waiting| - 1]
  {}

  /** One entry moves and nothing is lost; a failure uses up exactly one attempt and a
      success all that its entry had left. */
  lemma WorkConserves(q: Queue, ok: bool, max: nat)
    requires q.waiting != [] && WellFormed(q, max)
    ensures AllCalls(Work(q, ok, max)) == AllCalls(q)
    ensures !ok ==> Open(Work(q, ok, max).waiting, max) == Open(q.waiting, max) - 1
    ensures ok ==> Open(Work(q, ok, max).waiting, max)
                   == Open(q.waiting, max) - (max - q.waiting[|q.waiting| - 1].attempts)
  {
    WorkKeepsCalls(q, ok, max);
    WorkSpendsAttempts(q, ok, max);
  }

  lemma WorkKeepsCalls(q: Queue, ok: bool, max: nat)
    requires q.waiting != []
    ensures AllCalls(Work(q, ok, max)) == AllCalls(q)
  {
    var n := |q.waiting| - 1;
    var front, last := q.waiting[..n], q.waiting[n];
    var e := last.(attempts := last.attempts + 1);
    assert q.waiting == front + [last];
    if ok {
      LeavesForSettled(front, last, q.settled, q.dead, e);
    } else if e.attempts >= max {
      LeavesForDead(front, last, q.settled, q.dead, e);
    } else {
      ComesRound(front, last, e);
    }
  }

  lemma LeavesForSettled(front: seq<Entry>, last: Entry, settled: seq<Entry>, dead: seq<Entry>, e: Entry)
    requires e.call == last.call
    ensures CallsOf(front) + CallsOf(settled + [e]) + CallsOf(dead)
            == CallsOf(front + [last]) + CallsOf(settled) + CallsOf(dead)
  {
    LastCounts(front, last, 0);
    LastCounts(settled, e, 0);
    MovesOver(CallsOf(front), multiset{last.call}, CallsOf(settled), CallsOf(dead));
  }

  lemma LeavesForDead(front: seq<Entry>, last: Entry, settled: seq<Entry>, dead: seq<Entry>, e: Entry)
    requires e.call == last.call
    ensures CallsOf(front) + CallsOf(settled) + CallsOf(dead + [e])
            == CallsOf(front + [last]) + CallsOf(settled) + CallsOf(dead)
  {
    LastCounts(front, last, 0);
    LastCounts(dead, e, 0);
    MovesOver(CallsOf(front), multiset{last.call}, CallsOf(settled), CallsOf(dead));
  }

  lemma ComesRound(front: seq<Entry>, last: Entry, e: Entry)
    requires e.call == last.call
    ensures CallsOf([e] + front) == CallsOf(front + [last])
  {
    LastCounts(front, last, 0);
    FirstCounts(e, front, 0);
  }

  /** The popped call may join the settled or the dead ones. */
  lemma MovesOver<T>(front: multiset<T>, popped: multiset<T>, settled: multiset<T>, dead: multiset<T>)
    ensures front + (settled + popped) + dead == (front + popped) + settled + dead
    ensures front + settled + (dead + popped) == (front + popped) + settled + dead
  {}

  lemma WorkSpendsAttempts(q: Queue, ok: bool, max: nat)
    requires q.waiting != [] && q.waiting[|q.waiting| - 1].attempts < max
    ensures Open(Work(q, ok, max).waiting, max)
            == Open(q.waiting, max) - (if ok then max - q.waiting[|q.waiting| - 1].attempts else 1)
  {
    var n := |q.waiting| - 1;
    var front, last := q.waiting[..n], q.waiting[n];
    assert q.waiting == front + [last];
    LastCounts(front, last, max);
    FirstCounts(last.(attempts := last.attempts + 1), front, max);
  }

  lemma LastCounts(front: seq<Entry>, e: Entry, max: nat)
    ensures CallsOf(front + [e]) == CallsOf(front) + multiset{e.call}
    ensures Open(front + [e], max) == Open(front, max) + max - e.attempts
  {
    CallsOfConcat(front, [e]);
    OpenConcat(front, [e], max);
    CallsOfOne(e);
    assert Open([e], max) == max - e.attempts;
  }

  lemma FirstCounts(e: Entry, others: seq<Entry>, max: nat)
    ensures CallsOf([e] + others) == multiset{e.call} + CallsOf(others)
    ensures Open([e] + others, max) == max - e.attempts + Open(others, max)
  {
    assert ([e] + others)[1..] == others;
  }

  lemma CallsOfOne(e: Entry)
    ensures CallsOf([e]) == multiset{e.call}
  {}

  /** Every batch conserves the calls, keeps waiting entries below the limit and dead
      ones exactly at it, and spends at least one open attempt per pop: a batch with
      at least that many outcomes empties the queue. */
  lemma {:induction false} BatchConserves(q: Queue, outcomes: seq<bool>, max: nat)
    requires WellFormed(q, max)
    ensures var t := RunBatch(q, outcomes, max);
            && WellFormed(t, max)
            && AllCalls(t) == AllCalls(q)
            && (t.waiting != [] ==> Open(t.waiting, max) <= Open(q.waiting, max) - |outcomes|)
            && (|outcomes| >= Open(q.waiting, max) ==> t.waiting == [])
    decreases |outcomes|
  {
    OpenAtLeastLength(q.waiting, max);
    if outcomes != [] && q.waiting != [] {
      WorkConserves(q, outcomes[0], max);
      WorkKeepsWellFormed(q, outcomes[0], max);
      assert q.waiting[|q.waiting| - 1] in q.waiting;
      BatchConserves(Work(q, outcomes[0], max), outcomes[1..], max);
      OpenAtLeastLength(RunBatch(q, outcomes, max).waiting, max);
    }
  }

  /** There is no delay between attempts: during a gateway outage one batch of n pops
      dead-letters the whole queue exactly when n reaches the open attempts. */
  lemma {:induction false} OutageBatchEmptiesIff(q: Queue, outcomes: seq<bool>, max: nat)
    requires WellFormed(q, max)
    requires forall ok <- outcomes :: !ok
    ensures RunBatch(q, outcomes, max).waiting == [] <==> |outcomes| >= Open(q.waiting, max)
    ensures RunBatch(q, outcomes, max).settled == q.settled
    decreases |outcomes|
  {
    OpenAtLeastLength(q.waiting, max);
    if outcomes != [] && q.waiting != [] {
      assert outcomes[0] in outcomes;
      WorkConserves(q, false, max);
      WorkKeepsWellFormed(q, false, max);
      forall ok <- outcomes[1..] ensures !ok { assert ok in outcomes; }
      OutageBatchEmptiesIff(Work(q, outcomes[0], max), outcomes[1..], max);
    }
  }

  // ---- Order ----

  /** The entries a batch pops, in the order of its attempts. */
  function Popped(q: Queue, outcomes: seq<bool>, max: nat): seq<Entry>
    decreases |outcomes|
  {
    if outcomes == [] || q.waiting == [] then []
    else [q.waiting[|q.waiting| - 1]] + Popped(Work(q, outcomes[0], max), outcomes[1..], max)
  }

  /** The list from its oldest entry to its newest. */
  function OldestToNewest(es: seq<Entry>): seq<Entry> {
    if es == [] then [] else [es[|es| - 1]] + OldestToNewest(es[..|es| - 1])
  }

  /** The queue is first in, first out: whatever the outcomes, every entry that waits is popped
      before any that was queued after it, requeued ones included. A batch leaves the n newest. */
  lemma {:induction false} OldestFirst(q: Queue, outcomes: seq<bool>, max: nat, n: nat)
    requires n + |outcomes| == |q.waiting|
    ensures Popped(q, outcomes, max) == OldestToNewest(q.waiting[n..])
    decreases |outcomes|
  {
    if outcomes == [] {
      assert q.waiting[n..] == [];
    } else {
      var t, more := FirstPop(q, outcomes, max);
      OldestFirst(t, outcomes[1..], max, |more| + n);
      OldestThen(q.waiting, n, more, Popped(t, outcomes[1..], max));
    }
  }

  /** The first pop of a batch: the rest is the batch on a list that ends in what stood before
      the popped entry. */
  lemma FirstPop(q: Queue, outcomes: seq<bool>, max: nat) returns (t: Queue, more: seq<Entry>)
    requires outcomes != [] && q.waiting != []
    ensures Popped(q, outcomes, max) == [q.waiting[|q.waiting| - 1]] + Popped(t, outcomes[1..], max)
    ensures t.waiting == more + q.waiting[..|q.waiting| - 1]
  {
    t := Work(q, outcomes[0], max);
    more := BehindFront(q, outcomes[0], max);
  }

  lemma OldestThen(es: seq<Entry>, n: nat, more: seq<Entry>, later: seq<Entry>)
    requires n < |es| && later == OldestToNewest((more + es[..|es| - 1])[|more| + n..])
    ensures [es[|es| - 1]] + later == OldestToNewest(es[n..])
  {
    LastOf(more, es[..|es| - 1], n);
    OldestOf(es, n);
  }

  /** After a pop the list ends in what stood before the popped entry. */
  lemma BehindFront(q: Queue, ok: bool, max: nat) returns (more: seq<Entry>)
    requires q.waiting != []
    ensures Work(q, ok, max).waiting == more + q.waiting[..|q.waiting| - 1]
  {
    WorkMoves(q, ok, max);
    var last := q.waiting[|q.waiting| - 1];
    more := if !ok && last.attempts + 1 < max then [Entry(last.call, last.attempts + 1)] else [];
  }

  lemma OldestOf(es: seq<Entry>, n: nat)
    requires n < |es|
    ensures OldestToNewest(es[n..]) == [es[|es| - 1]] + OldestToNewest(es[..|es| - 1][n..])
  {
    var s := es[n..];
    assert s[|s| - 1] == es[|es| - 1] && s[..|s| - 1] == es[..|es| - 1][n..];
  }

  lemma LastOf(more: seq<Entry>, front: seq<Entry>, n: nat)
    requires n <= |front|
    ensures (more + front)[|more| + n..] == front[n..]
  {}

  /** Entries with one attempt more. */
  function Tried(es: seq<Entry>): seq<Entry> {
    seq(|es|, i requires 0 <= i < |es| => es[i].(attempts := es[i].attempts + 1))
  }

  /** Failed entries with attempts left line up behind all others in the order in which they
      waited: failures move the oldest ones, all but the n newest, and a whole round leaves the
      order as it was. */
  lemma {:induction false} FailuresGoLast(q: Queue, outcomes: seq<bool>, max: nat, n: nat)
    requires n + |outcomes| == |q.waiting| && forall ok <- outcomes :: !ok
    requires forall e <- q.waiting[n..] :: e.attempts + 1 < max
    ensures RunBatch(q, outcomes, max) == q.(waiting := Tried(q.waiting[n..]) + q.waiting[..n])
    decreases |outcomes|
  {
    if outcomes == [] {
      assert Tried(q.waiting[n..]) + q.waiting[..n] == q.waiting;
    } else {
      var front, last := q.waiting[..|q.waiting| - 1], q.waiting[|q.waiting| - 1];
      assert last in q.waiting[n..] && outcomes[0] in outcomes;
      var e := Entry(last.call, last.attempts + 1);
      FailureMoves(q, max);
      Behind(e, front, n);
      Suffix(q.waiting, n);
      assert forall x <- front[n..] :: x in q.waiting[n..];
      assert forall o <- outcomes[1..] :: o in outcomes;
      FailuresGoLast(q.(waiting := [e] + front), outcomes[1..], max, n + 1);
      TriedSnoc(front[n..], last);
    }
  }

  lemma FailureMoves(q: Queue, max: nat)
    requires q.waiting != [] && q.waiting[|q.waiting| - 1].attempts + 1 < max
    ensures var last := q.waiting[|q.waiting| - 1];
            Work(q, false, max)
            == q.(waiting := [Entry(last.call, last.attempts + 1)] + q.waiting[..|q.waiting| - 1])
  {}

  lemma Suffix(es: seq<Entry>, n: nat)
    requires n < |es|
    ensures es[n..] == es[..|es| - 1][n..] + [es[|es| - 1]] && es[..n] == es[..|es| - 1][..n]
  {}

  lemma Behind(e: Entry, front: seq<Entry>, n: nat)
    requires n <= |front|
    ensures ([e] + front)[n + 1..] == front[n..] && ([e] + front)[..n + 1] == [e] + front[..n]
    ensures Tried(front[n..]) + ([e] + front[..n]) == (Tried(front[n..]) + [e]) + front[..n]
  {}

  lemma TriedSnoc(es: seq<Entry>, last: Entry)
    ensures Tried(es + [last]) == Tried(es) + [last.(attempts := last.attempts + 1)]
  {}
}
