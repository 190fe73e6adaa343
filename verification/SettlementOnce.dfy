/** Exactly when a key can be paid twice: which kinds of step it takes. */
module SettlementOnce {
  import opened Settlement

  datatype Kind =
    | Starts | Pays | GatewayFails | Commits | PhaseTwoFails | KeyFailed | KeyWriteLost
    | PayoutRejected | PayoutWriteLost | Dies | PremiumArrives

  function KindOf(step: Step): Kind {
    match step
    case Start(_, _) => Starts
    case Gateway(_, up) => if up then Pays else GatewayFails
    case Resolve(_) => Commits
    case ResolveFails(_) => PhaseTwoFails
    case MarkKeyFailed(_, written) => if written then KeyFailed else KeyWriteLost
    case MarkRejected(_, written) => if written then PayoutRejected else PayoutWriteLost
    case Crash(_) => Dies
    case Inject(_) => PremiumArrives
  }

  predicate OfKinds(steps: seq<Step>, kinds: set<Kind>) {
    forall step <- steps :: KindOf(step) in kinds
  }

  // ---- While no write of FAILED lands ----

  /** A paid key is locked or SUCCESS, and nobody is on the way to pay it again. */
  ghost predicate PaidStaysLocked(s: State) {
    && (forall k | k in s.ledger :: k in s.db.keys && s.db.keys[k].state in {PROCESSING, SUCCESS})
    && (forall w | w in s.workers && s.workers[w].stage == AtGateway :: KeyOf(s.workers[w].call) !in s.ledger)
    && (forall k :: multiset(s.ledger)[k] <= 1)
  }

  lemma StartKeepsPaid(s: State, w: nat, call: Call)
    requires Safe(s) && PaidStaysLocked(s)
    ensures PaidStaysLocked(Next(s, Start(w, call)))
  {
    var t := Next(s, Start(w, call));
    if t != s {
      assert KeyOf(call) !in s.ledger;
    }
  }

  lemma GatewayKeepsPaid(s: State, w: nat, up: bool)
    requires Safe(s) && PaidStaysLocked(s)
    ensures PaidStaysLocked(Next(s, Gateway(w, up)))
  {
    var t := Next(s, Gateway(w, up));
    if Alive(s, w, AtGateway) && t.ledger != s.ledger {
      var own := KeyOf(s.workers[w].call);
      assert t.ledger == s.ledger + [own];
      assert multiset(t.ledger) == multiset(s.ledger) + multiset{own};
      forall v | v in t.workers && t.workers[v].stage == AtGateway ensures KeyOf(t.workers[v].call) !in t.ledger {
        assert v != w && v in s.workers;
        assert Holds(s.workers[v], KeyOf(s.workers[v].call));
      }
    }
  }

  lemma ResolvedKeepsPaidKey(db: Db, call: Call, k: Key)
    requires k in db.keys && db.keys[k].state in {PROCESSING, SUCCESS}
    ensures k in Resolved(db, call).keys && Resolved(db, call).keys[k].state in {PROCESSING, SUCCESS}
  {
    var others := SetClaimStatus(SetPayoutStatus(db, ClaimOf(call), Approved), ClaimOf(call), ClaimPaid);
    assert others.keys == db.keys;
  }

  lemma ResolveKeepsPaid(s: State, w: nat)
    requires PaidStaysLocked(s)
    ensures PaidStaysLocked(Next(s, Resolve(w)))
  {
    var t := Next(s, Resolve(w));
    if Alive(s, w, Settled) {
      forall k | k in t.ledger ensures k in t.db.keys && t.db.keys[k].state in {PROCESSING, SUCCESS} {
        ResolvedKeepsPaidKey(s.db, s.workers[w].call, k);
      }
    }
  }

  lemma OthersKeepPaid(s: State, step: Step)
    requires PaidStaysLocked(s) && !step.Start? && !step.Gateway? && !step.Resolve? && KindOf(step) != KeyFailed
    ensures PaidStaysLocked(Next(s, step))
  {
    GatewayPaysOwnKey(s, step);
    assert Next(s, step).db.keys == s.db.keys;
  }

  lemma NextKeepsPaid(s: State, step: Step)
    requires Safe(s) && PaidStaysLocked(s) && KindOf(step) != KeyFailed
    ensures PaidStaysLocked(Next(s, step))
  {
    match step
    case Start(w, call) => StartKeepsPaid(s, w, call);
    case Gateway(w, up) => GatewayKeepsPaid(s, w, up);
    case Resolve(w) => ResolveKeepsPaid(s, w);
    case _ => OthersKeepPaid(s, step);
  }

  lemma {:induction false} UnmarkedKeysPaidOnce(init: State, steps: seq<Step>)
    requires Initial(init) && forall step <- steps :: KindOf(step) != KeyFailed
    ensures PaidStaysLocked(After(init, steps))
  {
    if steps != [] {
      var front := steps[..|steps| - 1];
      UnmarkedKeysPaidOnce(init, front);
      EveryInterleavingIsSafe(init, front);
      assert steps[|steps| - 1] in steps;
      NextKeepsPaid(After(init, front), steps[|steps| - 1]);
    }
  }

  // ---- Without calls or without payments ----

  lemma {:induction false} NobodyStarts(init: State, steps: seq<Step>)
    requires Initial(init) && forall step <- steps :: KindOf(step) != Starts
    ensures After(init, steps).workers == map[] && After(init, steps).ledger == []
  {
    if steps != [] {
      var front := steps[..|steps| - 1];
      NobodyStarts(init, front);
      assert steps[|steps| - 1] in steps;
    }
  }

  lemma {:induction false} NobodyPays(init: State, steps: seq<Step>)
    requires Initial(init) && forall step <- steps :: KindOf(step) != Pays
    ensures After(init, steps).ledger == []
  {
    if steps != [] {
      var front, step := steps[..|steps| - 1], steps[|steps| - 1];
      NobodyPays(init, front);
      assert step in steps;
      GatewayPaysOwnKey(After(init, front), step);
      if step.Gateway? && Alive(After(init, front), step.w, AtGateway) {
        GatewayRefusal(After(init, front), step.w);
      }
    }
  }

  // ---- The run that pays twice ----

  function PaidThenFailed(call: Call): seq<Step> {
    [Start(0, call), Gateway(0, true)] + [ResolveFails(0), MarkKeyFailed(0, true)]
  }

  function TwiceSteps(call: Call): seq<Step> {
    PaidThenFailed(call) + [Start(1, call), Gateway(1, true)]
  }

  lemma AfterPlusTwo(s: State, steps: seq<Step>, x: Step, y: Step)
    ensures After(s, steps + [x, y]) == Next(Next(After(s, steps), x), y)
  {
    AfterTwo(s, steps + [x, y]);
    assert (steps + [x, y])[..|steps|] == steps;
  }

  lemma FailedAfterPaid(s: State, w: nat, call: Call)
    requires w in s.workers && s.workers[w] == Worker(call, Settled, false) && KeyOf(call) in s.db.keys
    ensures var t := Next(Next(s, ResolveFails(w)), MarkKeyFailed(w, true));
            && t.workers == s.workers[w := Worker(call, Rejecting, false)]
            && t.db.owners == s.db.owners && t.ledger == s.ledger && t.funds == s.funds
            && KeyOf(call) in t.db.keys && t.db.keys[KeyOf(call)].state == FAILED
  {
    var t1 := Next(s, ResolveFails(w));
    assert t1.workers == s.workers[w := Worker(call, Failing, false)];
  }

  /** Paid, and the key FAILED again with the worker still on the failure path. */
  lemma PaidAndUnlocked(init: State, call: Call)
    requires init.workers == map[] && init.ledger == []
    requires PreGateway(init.db, call).Locked? && Rupees(call) <= init.funds.pool
    ensures var t := After(init, PaidThenFailed(call));
            && t.workers == map[0 := Worker(call, Rejecting, false)]
            && t.db.owners == init.db.owners && t.ledger == [KeyOf(call)]
            && t.funds.pool == init.funds.pool - Rupees(call)
            && KeyOf(call) in t.db.keys && t.db.keys[KeyOf(call)].state == FAILED
  {
    AfterPlusTwo(init, [], Start(0, call), Gateway(0, true));
    assert [] + [Start(0, call), Gateway(0, true)] == [Start(0, call), Gateway(0, true)];
    PaidUpTo(init, 0, call);
    AfterPlusTwo(init, [Start(0, call), Gateway(0, true)], ResolveFails(0), MarkKeyFailed(0, true));
    FailedAfterPaid(After(init, [Start(0, call), Gateway(0, true)]), 0, call);
  }

  lemma FailedKeyLocks(db: Db, call: Call)
    requires KeyOf(call) in db.keys && db.keys[KeyOf(call)].state == FAILED
    requires call.policyId in db.owners && db.owners[call.policyId] == call.userId
    ensures PreGateway(db, call).Locked?
  {}

  lemma FreshKeyLocks(db: Db, call: Call)
    requires db.keys == map[] && db.index == map[]
    requires call.policyId in db.owners && db.owners[call.policyId] == call.userId
    ensures PreGateway(db, call).Locked?
  {}

  lemma PaidAgain(s: State, call: Call)
    requires 1 !in s.workers && PreGateway(s.db, call).Locked? && Rupees(call) <= s.funds.pool
    ensures Next(Next(s, Start(1, call)), Gateway(1, true)).ledger == s.ledger + [KeyOf(call)]
  {
    PaidUpTo(s, 1, call);
  }

  lemma TwiceRun(init: State, call: Call)
    requires Initial(init)
    requires call.policyId in init.db.owners && init.db.owners[call.policyId] == call.userId
    requires 2.0 * Rupees(call) <= init.funds.pool
    ensures After(init, TwiceSteps(call)).ledger == [KeyOf(call)] + [KeyOf(call)]
  {
    var s := After(init, PaidThenFailed(call));
    assert Rupees(call) >= 1.0;
    FreshKeyLocks(init.db, call);
    PaidAndUnlocked(init, call);
    FailedKeyLocks(s.db, call);
    PaidAgain(s, call);
    AfterPlusTwo(init, PaidThenFailed(call), Start(1, call), Gateway(1, true));
  }

  // ---- The exact condition ----

  ghost predicate NoKeyPaidTwice(init: State, kinds: set<Kind>) {
    forall steps, k | OfKinds(steps, kinds) :: multiset(After(init, steps).ledger)[k] <= 1
  }

  /** What it takes to pay a key twice: calls, a gateway that pays, a phase 2 that fails, and a
      write of FAILED that lands. */
  const FATAL := {Starts, Pays, PhaseTwoFails, KeyFailed}

  lemma OneKindMissing(init: State, steps: seq<Step>, kinds: set<Kind>, k: Key)
    requires Initial(init) && OfKinds(steps, kinds) && !(FATAL <= kinds)
    ensures multiset(After(init, steps).ledger)[k] <= 1
  {
    if Starts !in kinds {
      NobodyStarts(init, steps);
    } else if Pays !in kinds {
      NobodyPays(init, steps);
    } else if PhaseTwoFails !in kinds {
      forall i | 0 <= i < |steps| ensures !steps[i].ResolveFails? {
        assert steps[i] in steps;
      }
      DisbursedAtMostOnce(init, steps, k);
    } else {
      UnmarkedKeysPaidOnce(init, steps);
    }
  }

  /** Over all runs whose steps are of given kinds, no key is paid twice exactly when one of
      the four fatal kinds is missing. */
  lemma {:induction false} KeyPaidOnceIff(init: State, kinds: set<Kind>, call: Call)
    requires Initial(init)
    requires call.policyId in init.db.owners && init.db.owners[call.policyId] == call.userId
    requires 2.0 * Rupees(call) <= init.funds.pool
    ensures NoKeyPaidTwice(init, kinds) <==> !(FATAL <= kinds)
  {
    if FATAL <= kinds {
      TwiceRun(init, call);
      assert OfKinds(TwiceSteps(call), kinds);
      assert multiset([KeyOf(call)] + [KeyOf(call)])[KeyOf(call)] == 2;
    } else {
      forall steps, k | OfKinds(steps, kinds) ensures multiset(After(init, steps).ledger)[k] <= 1 {
        OneKindMissing(init, steps, kinds, k);
      }
    }
  }
}
