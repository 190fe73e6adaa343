/** When a key that reads PROCESSING can still move on, and what strands it. */
module SettlementLiveness {
  import opened Settlement

  predicate Processing(db: Db, k: Key) {
    k in db.keys && db.keys[k].state == PROCESSING
  }

  ghost predicate LiveHolder(s: State, k: Key) {
    exists w | w in s.workers :: !s.workers[w].crashed && Holds(s.workers[w], k)
  }

  /** The key is locked and nobody is left who could unlock it. */
  ghost predicate Stuck(s: State, k: Key) {
    Processing(s.db, k) && !LiveHolder(s, k)
  }

  // ---- A stuck key stays stuck ----

  lemma LockLeavesOthers(db: Db, call: Call, k: Key)
    requires Processing(db, k) && PreGateway(db, call).Locked?
    ensures KeyOf(call) != k && Processing(PreGateway(db, call).db, k)
  {}

  lemma StuckThroughStart(s: State, w: nat, call: Call, k: Key)
    requires Stuck(s, k)
    ensures Stuck(Next(s, Start(w, call)), k)
  {
    var t := Next(s, Start(w, call));
    if t != s {
      LockLeavesOthers(s.db, call, k);
      assert forall v | v in t.workers && v != w :: v in s.workers && t.workers[v] == s.workers[v];
    }
  }

  /** No worker starts holding a key it did not hold, or comes back to life. */
  lemma OldHolder(s: State, step: Step, w: nat, k: Key)
    requires !step.Start? && w in Next(s, step).workers && !Next(s, step).workers[w].crashed
    requires Holds(Next(s, step).workers[w], k)
    ensures w in s.workers && !s.workers[w].crashed && Holds(s.workers[w], k)
  {}

  lemma OnlyHoldersUnlock(s: State, step: Step, k: Key)
    requires !step.Start? && Stuck(s, k)
    ensures Processing(Next(s, step).db, k)
  {
    match step
    case Resolve(w) =>
      if Alive(s, w, Settled) {
        assert !Holds(s.workers[w], k);
      }
    case MarkKeyFailed(w, _) =>
      if Alive(s, w, Failing) {
        assert !Holds(s.workers[w], k);
      }
    case _ =>
  }

  lemma StuckThroughWorker(s: State, step: Step, k: Key)
    requires Stuck(s, k) && !step.Start?
    ensures Stuck(Next(s, step), k)
  {
    OnlyHoldersUnlock(s, step, k);
    var t := Next(s, step);
    if w :| w in t.workers && !t.workers[w].crashed && Holds(t.workers[w], k) {
      OldHolder(s, step, w, k);
    }
  }

  /** Whatever happens next, a stuck key stays PROCESSING, nothing is paid under it, and every
      call of it is refused. */
  lemma {:induction false} StuckForever(s: State, k: Key, steps: seq<Step>)
    requires Stuck(s, k)
    ensures var t := After(s, steps);
            && Stuck(t, k)
            && multiset(t.ledger)[k] == multiset(s.ledger)[k]
            && forall call | KeyOf(call) == k :: PreGateway(t.db, call).Refused?
  {
    if steps != [] {
      var r, step := After(s, steps[..|steps| - 1]), steps[|steps| - 1];
      StuckForever(s, k, steps[..|steps| - 1]);
      if step.Start? {
        StuckThroughStart(r, step.w, step.call, k);
      } else {
        StuckThroughWorker(r, step, k);
      }
      GatewayPaysOwnKey(r, step);
      if Next(r, step).ledger != r.ledger {
        PaidElsewhere(r.ledger, KeyOf(r.workers[step.w].call), k);
      }
    }
  }

  lemma PaidElsewhere(ledger: seq<Key>, own: Key, k: Key)
    requires own != k
    ensures multiset(ledger + [own])[k] == multiset(ledger)[k]
  {}

  // ---- The exact condition ----

  predicate Unlocks(s: State, k: Key, steps: seq<Step>) {
    !Processing(After(s, steps).db, k)
  }

  lemma LastWriteUnlocks(s: State, w: nat, k: Key) returns (step: Step)
    requires Processing(s.db, k) && (Alive(s, w, Settled) || Alive(s, w, Failing)) && Holds(s.workers[w], k)
    ensures !Processing(Next(s, step).db, k)
  {
    step := if Alive(s, w, Settled) then Resolve(w) else MarkKeyFailed(w, true);
  }

  lemma LiveHolderUnlocks(s: State, w: nat, k: Key) returns (steps: seq<Step>)
    requires Processing(s.db, k) && w in s.workers && !s.workers[w].crashed && Holds(s.workers[w], k)
    ensures Unlocks(s, k, steps)
  {
    if s.workers[w].stage == AtGateway {
      GatewayRefusal(s, w);
      var t := Next(s, Gateway(w, false));
      var step := LastWriteUnlocks(t, w, k);
      steps := [Gateway(w, false), step];
      AfterTwo(s, steps);
    } else {
      var step := LastWriteUnlocks(s, w, k);
      steps := [step];
      AfterSnoc(s, [], step);
      assert [] + [step] == steps;
    }
  }

  /** A PROCESSING key can leave PROCESSING in some continuation exactly when a worker that
      has not crashed holds it. */
  lemma {:induction false} KeyMovesOnIff(s: State, k: Key)
    requires Processing(s.db, k)
    ensures (exists steps :: Unlocks(s, k, steps)) <==> LiveHolder(s, k)
  {
    if LiveHolder(s, k) {
      var w :| w in s.workers && !s.workers[w].crashed && Holds(s.workers[w], k);
      var steps := LiveHolderUnlocks(s, w, k);
    } else {
      forall steps ensures !Unlocks(s, k, steps) {
        StuckForever(s, k, steps);
      }
    }
  }

  // ---- How keys get stuck ----

  ghost predicate CrashedHolding(s: State, w: nat, k: Key) {
    w in s.workers && s.workers[w].crashed && Holds(s.workers[w], k)
  }

  /** A worker that crashed while holding a key blocks the key for ever. */
  lemma {:induction false} CrashBlocksKeyForever(s: State, w: nat, k: Key, steps: seq<Step>)
    requires Safe(s) && CrashedHolding(s, w, k)
    ensures var t := After(s, steps);
            && Stuck(t, k)
            && multiset(t.ledger)[k] == multiset(s.ledger)[k]
            && (forall call | KeyOf(call) == k :: PreGateway(t.db, call).Refused?)
  {
    forall v | v in s.workers && Holds(s.workers[v], k) ensures v == w {
      assert KeyOf(s.workers[v].call) == KeyOf(s.workers[w].call);
    }
    StuckForever(s, k, steps);
  }

  /** A crash right after phase 1. */
  lemma CrashStrands(init: State, call: Call)
    requires Initial(init) && PreGateway(init.db, call).Locked?
    ensures Stuck(After(init, [Start(0, call), Crash(0)]), KeyOf(call))
  {
    AfterTwo(init, [Start(0, call), Crash(0)]);
    assert After(init, [Start(0, call), Crash(0)][..0]) == init;
    var s1 := Next(init, Start(0, call));
    assert s1.workers == map[0 := Worker(call, AtGateway, false)];
    var s2 := Next(s1, Crash(0));
    assert s2.workers == map[0 := Worker(call, AtGateway, true)];
  }

  lemma RefusedAtGateway(s: State, call: Call)
    requires s.workers == map[] && PreGateway(s.db, call).Locked?
    ensures var t := Next(Next(s, Start(0, call)), Gateway(0, false));
            t.workers == map[0 := Worker(call, Failing, false)] && Processing(t.db, KeyOf(call))
  {
    var s1 := Next(s, Start(0, call));
    assert s1.workers == map[0 := Worker(call, AtGateway, false)];
    GatewayRefusal(s1, 0);
  }

  lemma KeyWriteLost(s: State, call: Call)
    requires s.workers == map[0 := Worker(call, Failing, false)] && Processing(s.db, KeyOf(call))
    ensures var t := Next(Next(s, MarkKeyFailed(0, false)), MarkRejected(0, true));
            t.workers == map[] && Processing(t.db, KeyOf(call))
  {
    var s1 := Next(s, MarkKeyFailed(0, false));
    assert s1.workers == map[0 := Worker(call, Rejecting, false)] && s1.db == s.db;
    assert s1.workers - {0} == map[];
  }

  /** Nobody crashes: the failure path's write to the key is lost, and its error swallowed. */
  lemma LostWriteStrands(init: State, call: Call) returns (steps: seq<Step>)
    requires Initial(init) && PreGateway(init.db, call).Locked?
    ensures var s := After(init, steps); s.workers == map[] && Stuck(s, KeyOf(call))
    ensures forall step <- steps :: !step.Crash?
  {
    steps := [Start(0, call), Gateway(0, false), MarkKeyFailed(0, false), MarkRejected(0, true)];
    AfterTwo(init, steps[..2]);
    assert steps[..2][..0] == [];
    RefusedAtGateway(init, call);
    AfterTwo(init, steps);
    KeyWriteLost(After(init, steps[..2]), call);
  }

  predicate Strands(step: Step) {
    step.Crash? || (step.MarkKeyFailed? && !step.written)
  }

  ghost predicate NothingStuck(s: State) {
    && (forall w | w in s.workers :: !s.workers[w].crashed)
    && (forall k | Processing(s.db, k) :: LiveHolder(s, k))
  }

  lemma OnlyStartLocks(s: State, step: Step, k: Key)
    requires !step.Start? && Processing(Next(s, step).db, k)
    ensures Processing(s.db, k)
  {
    match step
    case Resolve(w) =>
    case MarkKeyFailed(w, _) =>
    case MarkRejected(w, _) =>
    case _ =>
  }

  lemma StartLocksOwnKey(s: State, w: nat, call: Call, k: Key)
    requires Processing(Next(s, Start(w, call)).db, k) && !Processing(s.db, k)
    ensures KeyOf(call) == k && Next(s, Start(w, call)).workers == s.workers[w := Worker(call, AtGateway, false)]
  {}

  /** A holder that is still holding, or has just unlocked its key. */
  lemma HolderStays(s: State, step: Step, w: nat, k: Key)
    requires !Strands(step) && Processing(Next(s, step).db, k)
    requires w in s.workers && !s.workers[w].crashed && Holds(s.workers[w], k) && Processing(s.db, k)
    ensures w in Next(s, step).workers && !Next(s, step).workers[w].crashed && Holds(Next(s, step).workers[w], k)
  {}

  lemma NextStrandsNothing(s: State, step: Step)
    requires NothingStuck(s) && !Strands(step)
    ensures NothingStuck(Next(s, step))
  {
    var t := Next(s, step);
    forall k | Processing(t.db, k) ensures LiveHolder(t, k) {
      if Processing(s.db, k) {
        var w :| w in s.workers && !s.workers[w].crashed && Holds(s.workers[w], k);
        HolderStays(s, step, w, k);
      } else {
        if !step.Start? {
          OnlyStartLocks(s, step, k);
        }
        StartLocksOwnKey(s, step.w, step.call, k);
        assert Holds(t.workers[step.w], k);
      }
    }
  }

  /** Nothing else strands a key: in a run without crashes and without lost key writes every
      PROCESSING key still has its worker. */
  lemma {:induction false} OnlyCrashesAndLostWritesStrand(init: State, steps: seq<Step>, k: Key)
    requires Initial(init) && forall step <- steps :: !Strands(step)
    ensures NothingStuck(After(init, steps)) && !Stuck(After(init, steps), k)
  {
    if steps != [] {
      var front := steps[..|steps| - 1];
      OnlyCrashesAndLostWritesStrand(init, front, k);
      assert steps[|steps| - 1] in steps;
      NextStrandsNothing(After(init, front), steps[|steps| - 1]);
    }
  }
}
