/** Totals over a whole settlement run: what left the pool, and when a claim can be
    paid more than once. */
module SettlementTotals {
  import opened Settlement
  import opened SettlementBooks
  import opened Reals

  // ---- Outflow ----

  function PaidClaims(db: Db): set<Claim> {
    set c | c in db.claims && db.claims[c] == ClaimPaid
  }

  /** Claims disbursed but not yet through phase 2, their worker alive or crashed. */
  function AwaitingPhaseTwo(s: State): set<Claim> {
    set w | w in s.workers && s.workers[w].stage == Settled :: ClaimOf(s.workers[w].call)
  }

  ghost function TotalPaise(claims: set<Claim>, payouts: map<Claim, PayoutRow>): int
    requires claims <= payouts.Keys
  {
    if claims == {} then 0
    else
      var c :| c in claims;
      PaiseOf(payouts[c].approvedPayout) + TotalPaise(claims - {c}, payouts)
  }

  lemma {:induction false} TotalPaiseRemove(claims: set<Claim>, payouts: map<Claim, PayoutRow>, c: Claim)
    requires claims <= payouts.Keys && c in claims
    ensures TotalPaise(claims, payouts) == PaiseOf(payouts[c].approvedPayout) + TotalPaise(claims - {c}, payouts)
  {
    var d :| d in claims && TotalPaise(claims, payouts)
                            == PaiseOf(payouts[d].approvedPayout) + TotalPaise(claims - {d}, payouts);
    if c != d {
      TotalPaiseRemove(claims - {d}, payouts, c);
      TotalPaiseRemove(claims - {c}, payouts, d);
      assert claims - {d} - {c} == claims - {c} - {d};
    }
  }

  ghost function LedgerTotal(ledger: seq<Key>, terms: map<Claim, Call>): int
    requires forall k <- ledger :: k.claim in terms
  {
    if ledger == [] then 0
    else LedgerTotal(ledger[..|ledger| - 1], terms) + Paise(terms[ledger[|ledger| - 1].claim])
  }

  ghost predicate LedgerFollows(ledger: seq<Key>, terms: map<Claim, Call>) {
    forall k <- ledger :: k.claim in terms && k == KeyOf(terms[k.claim])
  }

  lemma LedgerGrowth(s: State, step: Step)
    ensures var t := Next(s, step);
            || (t.ledger == s.ledger && t.outflow == s.outflow)
            || (step.Gateway? && step.w in s.workers
                && t.ledger == s.ledger + [KeyOf(s.workers[step.w].call)]
                && t.outflow == s.outflow + Paise(s.workers[step.w].call))
  {}

  lemma {:induction false} OutflowIsLedgerTotal(init: State, steps: seq<Step>, terms: map<Claim, Call>)
    requires Initial(init) && WellKeyed(terms) && Follows(steps, terms)
    ensures LedgerFollows(After(init, steps).ledger, terms)
    ensures After(init, steps).outflow == LedgerTotal(After(init, steps).ledger, terms)
  {
    if steps != [] {
      var front := steps[..|steps| - 1];
      var r, t := After(init, front), After(init, steps);
      OutflowIsLedgerTotal(init, front, terms);
      EveryRunKeepsBooks(init, front, terms);
      LedgerGrowth(r, steps[|steps| - 1]);
      if t.ledger != r.ledger {
        assert t.ledger[..|t.ledger| - 1] == r.ledger;
      }
    }
  }

  /** A ledger without repeats totals the same as the set of its claims. */
  lemma {:induction false} LedgerAsSet(
    ledger: seq<Key>, claims: set<Claim>, terms: map<Claim, Call>, payouts: map<Claim, PayoutRow>)
    requires LedgerFollows(ledger, terms)
    requires forall k :: multiset(ledger)[k] <= 1
    requires forall c :: c in claims <==> c in terms && KeyOf(terms[c]) in ledger && KeyOf(terms[c]).claim == c
    requires claims <= payouts.Keys
    requires forall c <- claims :: payouts[c].approvedPayout == terms[c].approvedPayout
    ensures LedgerTotal(ledger, terms) == TotalPaise(claims, payouts)
  {
    if ledger == [] {
      assert claims == {};
    } else {
      var front, last := ledger[..|ledger| - 1], ledger[|ledger| - 1];
      assert ledger == front + [last];
      assert multiset(ledger) == multiset(front) + multiset{last};
      assert multiset(ledger)[last] <= 1;
      forall k ensures multiset(front)[k] <= 1 {
        assert multiset(ledger)[k] <= 1;
      }
      assert last.claim in claims;
      TotalPaiseRemove(claims, payouts, last.claim);
      LedgerAsSet(front, claims - {last.claim}, terms, payouts);
    }
  }

  /** What left the pool is, in every reachable state, the sum of
      max(100, round(100 * approved)) over the claims that are PAID or wait for
      phase 2; with no worker left, over the PAID claims alone. */
  lemma {:induction false} OutflowEqualsPaidClaims(init: State, steps: seq<Step>, terms: map<Claim, Call>)
    requires Initial(init) && WellKeyed(terms) && Follows(steps, terms) && NoFailedPhaseTwo(steps)
    ensures var s := After(init, steps);
            && PaidClaims(s.db) + AwaitingPhaseTwo(s) <= s.db.payouts.Keys
            && s.outflow == TotalPaise(PaidClaims(s.db) + AwaitingPhaseTwo(s), s.db.payouts)
            && (s.workers == map[] ==> s.outflow == TotalPaise(PaidClaims(s.db), s.db.payouts))
  {
    var s := After(init, steps);
    EveryRunKeepsBooks(init, steps, terms);
    OutflowIsLedgerTotal(init, steps, terms);
    LedgerIsCharged(init, steps);
    var claims := PaidClaims(s.db) + AwaitingPhaseTwo(s);
    ChargedClaims(s, terms);
    LedgerAsSet(s.ledger, claims, terms, s.db.payouts);
    if s.workers == map[] {
      assert claims == PaidClaims(s.db);
    }
  }

  /** With every phase 2 committing, the ledger holds each charged key once. */
  lemma LedgerIsCharged(init: State, steps: seq<Step>)
    requires Initial(init) && NoFailedPhaseTwo(steps)
    ensures var s := After(init, steps);
            && Safe(s)
            && forall k :: multiset(s.ledger)[k] <= 1 && (k in s.ledger <==> Charged(s, k))
  {
    EveryInterleavingIsSafe(init, steps);
    NothingAborted(init, steps);
    var s := After(init, steps);
    forall k ensures multiset(s.ledger)[k] <= 1 && (k in s.ledger <==> Charged(s, k)) {}
  }

  /** The claims that are PAID or wait for phase 2 are those whose key is charged. */
  lemma ChargedClaims(s: State, terms: map<Claim, Call>)
    requires Books(s, terms) && WellKeyed(terms)
    ensures forall c :: c in PaidClaims(s.db) + AwaitingPhaseTwo(s) <==> c in terms && Charged(s, KeyOf(terms[c]))
  {
    var claims := PaidClaims(s.db) + AwaitingPhaseTwo(s);
    forall c ensures c in claims <==> c in terms && Charged(s, KeyOf(terms[c])) {
      if c in terms {
        assert ClaimAgrees(s.db, s.overwritten, terms[c]);
        if SettledHolder(s, KeyOf(terms[c])) {
          var w :| w in s.workers && s.workers[w].stage == Settled && KeyOf(s.workers[w].call) == KeyOf(terms[c]);
          assert ClaimOf(s.workers[w].call) == c;
        }
      }
      if c in AwaitingPhaseTwo(s) {
        var w :| w in s.workers && s.workers[w].stage == Settled && ClaimOf(s.workers[w].call) == c;
        assert SettledHolder(s, KeyOf(s.workers[w].call));
      }
    }
  }

  // ---- Outflow against the approved amounts ----

  ghost function TotalApproved(claims: set<Claim>, payouts: map<Claim, PayoutRow>): real
    requires claims <= payouts.Keys
  {
    if claims == {} then 0.0
    else
      var c :| c in claims;
      Max(1.0, payouts[c].approvedPayout) + TotalApproved(claims - {c}, payouts)
  }

  ghost function LedgerApproved(ledger: seq<Key>, terms: map<Claim, Call>): real
    requires forall k <- ledger :: k.claim in terms
  {
    if ledger == [] then 0.0
    else LedgerApproved(ledger[..|ledger| - 1], terms)
         + Max(1.0, terms[ledger[|ledger| - 1].claim].approvedPayout)
  }

  /** `paise` are `rupees` rounded n times: at most half a paisa off for each payment. */
  predicate WithinRounding(paise: int, rupees: real, n: nat) {
    paise as real - 0.5 * n as real <= 100.0 * rupees <= paise as real + 0.5 * n as real
  }

  lemma {:induction false} SetWithinRounding(claims: set<Claim>, payouts: map<Claim, PayoutRow>)
    requires claims <= payouts.Keys
    ensures WithinRounding(TotalPaise(claims, payouts), TotalApproved(claims, payouts), |claims|)
  {
    if claims != {} {
      var c :| c in claims && TotalApproved(claims, payouts)
               == Max(1.0, payouts[c].approvedPayout) + TotalApproved(claims - {c}, payouts);
      TotalPaiseRemove(claims, payouts, c);
      SetWithinRounding(claims - {c}, payouts);
      OneMore(TotalPaise(claims - {c}, payouts), TotalApproved(claims - {c}, payouts), |claims - {c}|,
              payouts[c].approvedPayout);
    }
  }

  lemma OneMore(paise: int, rupees: real, n: nat, approved: real)
    requires WithinRounding(paise, rupees, n)
    ensures WithinRounding(PaiseOf(approved) + paise, Max(1.0, approved) + rupees, n + 1)
  {
    var p := PaiseOf(approved);
    assert p as real - 0.5 <= 100.0 * Max(1.0, approved) <= p as real + 0.5;
  }

  lemma {:induction false} LedgerWithinRounding(ledger: seq<Key>, terms: map<Claim, Call>)
    requires forall k <- ledger :: k.claim in terms
    ensures WithinRounding(LedgerTotal(ledger, terms), LedgerApproved(ledger, terms), |ledger|)
  {
    if ledger != [] {
      var front, last := ledger[..|ledger| - 1], ledger[|ledger| - 1];
      LedgerWithinRounding(front, terms);
      OneMore(LedgerTotal(front, terms), LedgerApproved(front, terms), |front|, terms[last.claim].approvedPayout);
    }
  }

  /** Over any run, what left the pool is 100 times the approved amounts of the disbursements,
      each counted as one rupee at least, up to half a paisa a disbursement. With every
      phase 2 committing, the disbursements are the PAID claims and those awaiting phase 2,
      each once. */
  lemma OutflowIsApproved(init: State, steps: seq<Step>, terms: map<Claim, Call>)
    requires Initial(init) && WellKeyed(terms) && Follows(steps, terms)
    ensures var s := After(init, steps);
            && LedgerFollows(s.ledger, terms)
            && WithinRounding(s.outflow, LedgerApproved(s.ledger, terms), |s.ledger|)
            && (NoFailedPhaseTwo(steps) ==>
                  var claims := PaidClaims(s.db) + AwaitingPhaseTwo(s);
                  && claims <= s.db.payouts.Keys
                  && WithinRounding(s.outflow, TotalApproved(claims, s.db.payouts), |claims|))
  {
    var s := After(init, steps);
    OutflowIsLedgerTotal(init, steps, terms);
    LedgerWithinRounding(s.ledger, terms);
    if NoFailedPhaseTwo(steps) {
      OutflowEqualsPaidClaims(init, steps, terms);
      SetWithinRounding(PaidClaims(s.db) + AwaitingPhaseTwo(s), s.db.payouts);
    }
  }

  // ---- One claim, several hours ----

  ghost predicate CallsFrom(steps: seq<Step>, calls: set<Call>) {
    forall i | 0 <= i < |steps| && steps[i].Start? :: steps[i].call in calls
  }

  predicate PaidTwice(ledger: seq<Key>, c: Claim) {
    exists i, j | 0 <= i < j < |ledger| :: ledger[i].claim == c && ledger[j].claim == c
  }

  predicate IsKeyOfSome(k: Key, calls: set<Call>) {
    exists call <- calls :: KeyOf(call) == k
  }

  lemma {:induction false} LedgerComesFromCalls(init: State, steps: seq<Step>, calls: set<Call>)
    requires Initial(init) && CallsFrom(steps, calls)
    ensures forall w | w in After(init, steps).workers :: After(init, steps).workers[w].call in calls
    ensures forall k <- After(init, steps).ledger :: IsKeyOfSome(k, calls)
  {
    if steps != [] {
      var front := steps[..|steps| - 1];
      LedgerComesFromCalls(init, front, calls);
      CallsComeFromStart(After(init, front), steps[|steps| - 1]);
      LedgerGrowth(After(init, front), steps[|steps| - 1]);
    }
  }

  lemma NoRepeatInLedger(ledger: seq<Key>, i: nat, j: nat)
    requires i < j < |ledger| && ledger[i] == ledger[j]
    ensures multiset(ledger)[ledger[i]] >= 2
  {
    assert ledger == ledger[..j] + ledger[j..];
    assert ledger[i] in multiset(ledger[..j]) && ledger[j] in multiset(ledger[j..]);
  }

  predicate SameClaimSameHour(calls: set<Call>) {
    forall a <- calls, b <- calls | SameClaim(a, b) :: SameHour(a, b)
  }

  ghost predicate Payable(init: State, calls: set<Call>) {
    && (forall a <- calls :: a.policyId in init.db.owners && init.db.owners[a.policyId] == a.userId)
    && (forall a <- calls, b <- calls :: Rupees(a) + Rupees(b) <= init.funds.pool)
  }

  function ThreeSteps(a: Call): seq<Step> {
    [Start(0, a), Gateway(0, true), Resolve(0)]
  }

  /** A lone call that runs through. */
  lemma RunsThrough(init: State, a: Call)
    requires init.workers == map[] && PreGateway(init.db, a).Locked? && Rupees(a) <= init.funds.pool
    ensures var t := After(init, ThreeSteps(a));
            && t.workers == map[] && t.db == Resolved(PreGateway(init.db, a).db, a)
            && t.ledger == init.ledger + [KeyOf(a)] && t.funds.pool == init.funds.pool - Rupees(a)
  {
    PaidUpTo(init, 0, a);
    var s2 := Next(Next(init, Start(0, a)), Gateway(0, true));
    assert s2.workers[0] == Worker(a, Settled, false);
    assert s2.workers - {0} == map[];
    AfterSnoc(init, [], Start(0, a));
    AfterSnoc(init, [Start(0, a)], Gateway(0, true));
    AfterSnoc(init, [Start(0, a), Gateway(0, true)], Resolve(0));
    assert [] + [Start(0, a)] == [Start(0, a)];
    assert [Start(0, a)] + [Gateway(0, true)] == [Start(0, a), Gateway(0, true)];
    assert [Start(0, a), Gateway(0, true)] + [Resolve(0)] == ThreeSteps(a);
  }

  lemma SecondPaid(init: State, steps: seq<Step>, b: Call)
    requires var s := After(init, steps);
             s.workers == map[] && PreGateway(s.db, b).Locked? && Rupees(b) <= s.funds.pool
    ensures After(init, steps + [Start(0, b), Gateway(0, true)]).ledger == After(init, steps).ledger + [KeyOf(b)]
  {
    PaidUpTo(After(init, steps), 0, b);
    AfterSnoc(init, steps, Start(0, b));
    AfterSnoc(init, steps + [Start(0, b)], Gateway(0, true));
    assert steps + [Start(0, b)] + [Gateway(0, true)] == steps + [Start(0, b), Gateway(0, true)];
  }

  function FiveSteps(a: Call, b: Call): seq<Step> {
    ThreeSteps(a) + [Start(0, b), Gateway(0, true)]
  }

  lemma FiveStepsAreCalls(a: Call, b: Call)
    ensures CallsFrom(FiveSteps(a, b), {a, b}) && NoFailedPhaseTwo(FiveSteps(a, b))
  {}

  lemma BothHoursLedger(init: State, a: Call, b: Call)
    requires Initial(init) && Payable(init, {a, b})
    requires SameClaim(a, b) && !SameHour(a, b)
    ensures After(init, FiveSteps(a, b)).ledger == [KeyOf(a)] + [KeyOf(b)]
  {
    assert a in {a, b} && b in {a, b};
    assert Rupees(a) + Rupees(b) <= init.funds.pool && Rupees(b) >= 1.0 && Rupees(a) >= 1.0;
    FirstLocks(init, a);
    RunsThrough(init, a);
    SecondHourIsFree(init.db, a, b);
    SecondPaid(init, ThreeSteps(a), b);
  }

  /** Calls of one claim in two UTC hours pay it twice, one after the other. */
  lemma TwoHoursPayTwice(init: State, a: Call, b: Call) returns (steps: seq<Step>)
    requires Initial(init) && Payable(init, {a, b})
    requires SameClaim(a, b) && !SameHour(a, b)
    ensures CallsFrom(steps, {a, b}) && NoFailedPhaseTwo(steps)
    ensures PaidTwice(After(init, steps).ledger, ClaimOf(a))
  {
    steps := FiveSteps(a, b);
    FiveStepsAreCalls(a, b);
    BothHoursLedger(init, a, b);
    BothPaid(After(init, steps).ledger, KeyOf(a), KeyOf(b));
  }

  lemma FirstLocks(init: State, a: Call)
    requires Initial(init) && a.policyId in init.db.owners && init.db.owners[a.policyId] == a.userId
    ensures PreGateway(init.db, a).Locked?
  {}

  lemma BothPaid(ledger: seq<Key>, k: Key, l: Key)
    requires ledger == [k] + [l] && k.claim == l.claim
    ensures PaidTwice(ledger, k.claim)
  {
    assert ledger[0].claim == k.claim && ledger[1].claim == k.claim;
  }

  lemma SecondHourIsFree(db: Db, a: Call, b: Call)
    requires db.keys == map[] && db.index == map[] && db.payouts == map[] && db.claims == map[]
    requires PreGateway(db, a).Locked? && SameClaim(a, b) && !SameHour(a, b)
    requires b.policyId in db.owners && db.owners[b.policyId] == b.userId
    ensures PreGateway(Resolved(PreGateway(db, a).db, a), b).Locked?
  {
    assert ContextOf(a) != ContextOf(b);
  }

  ghost predicate NoRunPaysTwice(init: State, calls: set<Call>) {
    forall steps, c | CallsFrom(steps, calls) && NoFailedPhaseTwo(steps) :: !PaidTwice(After(init, steps).ledger, c)
  }

  /** Runs over a set of calls never pay a claim twice exactly when no two of the calls
      carry one claim in different UTC hours. */
  lemma ClaimPaidOnceIffOneHour(init: State, calls: set<Call>)
    requires Initial(init) && Payable(init, calls)
    ensures NoRunPaysTwice(init, calls) <==> SameClaimSameHour(calls)
  {
    if SameClaimSameHour(calls) {
      forall steps, c | CallsFrom(steps, calls) && NoFailedPhaseTwo(steps)
        ensures !PaidTwice(After(init, steps).ledger, c)
      {
        OneHourPaysOnce(init, steps, calls, c);
      }
    } else {
      var a, b :| a in calls && b in calls && SameClaim(a, b) && !SameHour(a, b);
      var steps := TwoHoursPayTwice(init, a, b);
      assert CallsFrom(steps, calls) && NoFailedPhaseTwo(steps);
      assert PaidTwice(After(init, steps).ledger, ClaimOf(a));
    }
  }

  lemma OneHourPaysOnce(init: State, steps: seq<Step>, calls: set<Call>, c: Claim)
    requires Initial(init) && CallsFrom(steps, calls) && NoFailedPhaseTwo(steps) && SameClaimSameHour(calls)
    ensures !PaidTwice(After(init, steps).ledger, c)
  {
    var ledger := After(init, steps).ledger;
    if i: nat, j: nat :| i < j < |ledger| && ledger[i].claim == c && ledger[j].claim == c {
      LedgerComesFromCalls(init, steps, calls);
      OneKeyOfClaim(ledger[i], ledger[j], calls);
      NoRepeatInLedger(ledger, i, j);
      DisbursedAtMostOnce(init, steps, ledger[i]);
    }
  }

  lemma OneKeyOfClaim(k: Key, l: Key, calls: set<Call>)
    requires IsKeyOfSome(k, calls) && IsKeyOfSome(l, calls) && k.claim == l.claim && SameClaimSameHour(calls)
    ensures k == l
  {
    var a :| a in calls && KeyOf(a) == k;
    var b :| b in calls && KeyOf(b) == l;
    assert SameClaim(a, b);
  }
}
