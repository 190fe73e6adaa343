/** Which outcomes of a charge keep billing honest: for each promise, the exact set of
    outcomes under which it holds over all runs. */
module BillingOutcomes {
  import opened Options
  import opened RecurringBilling
  import Pool = LiquidityPool

  predicate AllowedVisits(visits: seq<Visit>, allowed: set<Outcome>) {
    forall v <- visits :: v.world.outcome in allowed
  }

  predicate Allowed(runs: seq<Run>, allowed: set<Outcome>) {
    forall r <- runs :: AllowedVisits(r.visits, allowed)
  }

  predicate IsPaid(b: Books, i: nat)
    requires i < |b.invoices|
  {
    b.invoices[i].status == PAID
  }

  // ---- What each kind of outcome cannot break ----

  /** An invoice debited without being PAID has stopped its mandate. */
  ghost predicate DebitedOnce(b: Books) {
    forall i: nat | i < |b.invoices| ::
      && b.debits[i] <= 1
      && (b.debits[i] == 1 && !IsPaid(b, i) ==>
            b.invoices[i].mandateId < |b.mandates| && b.mandates[b.invoices[i].mandateId].status == MandateFailed)
  }

  ghost predicate DebitedIffPaid(b: Books) {
    forall i: nat | i < |b.invoices| :: b.debits[i] == if IsPaid(b, i) then 1 else 0
  }

  /** One debit at most, and recorded. */
  predicate OneDebitKept(o: Outcome) {
    Debits(o) <= 1 && !LosesDebit(o)
  }

  predicate BooksDebit(o: Outcome) {
    Debits(o) == if o.Collected? then 1 else 0
  }

  predicate AllKeepOneDebit(allowed: set<Outcome>) {
    forall o <- allowed :: OneDebitKept(o)
  }

  predicate AllBookDebits(allowed: set<Outcome>) {
    forall o <- allowed :: BooksDebit(o)
  }

  predicate AllBookInjections(allowed: set<Outcome>) {
    forall o <- allowed :: Injects(o) ==> o.Collected?
  }

  ghost predicate Kept(b: Books, allowed: set<Outcome>) {
    && OneMandatePerPolicy(b)
    && RowsInRange(b)
    && (AllKeepOneDebit(allowed) ==> DebitedOnce(b))
    && (AllBookDebits(allowed) ==> DebitedIffPaid(b))
    && (AllBookInjections(allowed) ==> b.stray == 0.0)
  }

  lemma ChargeKeepsDebitedOnce(b: Books, i: nat, o: Outcome, at: int)
    requires DebitedOnce(b) && OneDebitKept(o) && i < |b.invoices| && b.invoices[i].status != PAID
    requires b.invoices[i].mandateId < |b.mandates| && b.mandates[b.invoices[i].mandateId].status == MandateActive
    requires OneMandatePerPolicy(b) && OneInvoiceMandate(b, i)
    ensures DebitedOnce(Charge(b, i, o, at))
  {
    ChargeTables(b, i, o, at);
    var t := Charge(b, i, o, at);
    assert b.debits[i] == 0;
    forall j: nat | j < |t.invoices|
      ensures t.debits[j] <= 1
      ensures t.debits[j] == 1 && !IsPaid(t, j) ==>
                t.invoices[j].mandateId < |t.mandates| && t.mandates[t.invoices[j].mandateId].status == MandateFailed
    {
      assert j != i ==> t.invoices[j] == b.invoices[j] && t.debits[j] == b.debits[j];
    }
  }

  /** A debited, unpaid invoice of the charged mandate would have failed it. */
  ghost predicate OneInvoiceMandate(b: Books, i: nat)
    requires i < |b.invoices|
  {
    forall j: nat | j < |b.invoices| && j != i && b.invoices[j].mandateId == b.invoices[i].mandateId ::
      b.debits[j] == 1 ==> IsPaid(b, j)
  }

  lemma ActiveMandateOwesNothing(b: Books, i: nat)
    requires DebitedOnce(b) && i < |b.invoices|
    requires b.invoices[i].mandateId < |b.mandates| && b.mandates[b.invoices[i].mandateId].status == MandateActive
    ensures OneInvoiceMandate(b, i)
  {}

  lemma ChargeKeepsDebitedIffPaid(b: Books, i: nat, o: Outcome, at: int)
    requires DebitedIffPaid(b) && BooksDebit(o) && i < |b.invoices| && b.invoices[i].status != PAID
    ensures DebitedIffPaid(Charge(b, i, o, at))
  {
    ChargeTables(b, i, o, at);
    var t := Charge(b, i, o, at);
    forall j: nat | j < |t.invoices| ensures t.debits[j] == if IsPaid(t, j) then 1 else 0 {
      assert b.debits[j] == if IsPaid(b, j) then 1 else 0;
    }
  }

  lemma ChargeKeeps(b: Books, i: nat, o: Outcome, at: int, allowed: set<Outcome>)
    requires Kept(b, allowed) && o in allowed && i < |b.invoices| && b.invoices[i].status != PAID
    requires b.invoices[i].mandateId < |b.mandates| && b.mandates[b.invoices[i].mandateId].status == MandateActive
    ensures Kept(Charge(b, i, o, at), allowed)
  {
    ChargeMandates(b, i, o, at);
    ChargeKeepsRange(b, i, o, at);
    if AllKeepOneDebit(allowed) {
      ActiveMandateOwesNothing(b, i);
      ChargeKeepsDebitedOnce(b, i, o, at);
    }
    if AllBookDebits(allowed) {
      ChargeKeepsDebitedIffPaid(b, i, o, at);
    }
    ChargeTables(b, i, o, at);
  }

  lemma NewMandateKeeps(b: Books, policyId: string, now: int, allowed: set<Outcome>)
    requires Kept(b, allowed)
    ensures var c := EnsureMandate(b, policyId, now);
            && RowsInRange(c)
            && (AllKeepOneDebit(allowed) ==> DebitedOnce(c))
            && (AllBookDebits(allowed) ==> DebitedIffPaid(c))
  {
    var c := EnsureMandate(b, policyId, now);
    assert c.invoices == b.invoices && c.debits == b.debits && b.mandates <= c.mandates;
    if AllKeepOneDebit(allowed) {
      forall i: nat | i < |c.invoices| && c.debits[i] == 1 && !IsPaid(c, i)
        ensures c.invoices[i].mandateId < |c.mandates| && c.mandates[c.invoices[i].mandateId].status == MandateFailed
      {
        assert b.debits[i] == 1 && !IsPaid(b, i);
      }
    }
    if AllBookDebits(allowed) {
      forall i: nat | i < |c.invoices| ensures c.debits[i] == if IsPaid(c, i) then 1 else 0 {
        assert b.debits[i] == if IsPaid(b, i) then 1 else 0;
      }
    }
  }

  lemma NewInvoiceKeeps(b: Books, inv: Invoice, allowed: set<Outcome>)
    requires RowsInRange(b) && inv.status == PENDING
    requires AllKeepOneDebit(allowed) ==> DebitedOnce(b)
    requires AllBookDebits(allowed) ==> DebitedIffPaid(b)
    ensures var c := b.(invoices := b.invoices + [inv]);
            && RowsInRange(c)
            && (AllKeepOneDebit(allowed) ==> DebitedOnce(c))
            && (AllBookDebits(allowed) ==> DebitedIffPaid(c))
  {
    var c := b.(invoices := b.invoices + [inv]);
    assert b.debits[|b.invoices|] == 0;
    if AllBookDebits(allowed) {
      forall i: nat | i < |c.invoices| ensures c.debits[i] == if IsPaid(c, i) then 1 else 0 {
        assert i < |b.invoices| ==> b.debits[i] == if IsPaid(b, i) then 1 else 0;
      }
    }
  }

  /** Up to the charge: the mandate and the invoice are there. */
  lemma ReadyBooksKept(b: Books, policy: Policy, now: int, premium: Option<real>, allowed: set<Outcome>)
    requires Kept(b, allowed)
    ensures var b1 := EnsureMandate(b, policy.id, now); var m := MandateOf(b, policy.id, now);
            var invoice := EnsureInvoice(b1, policy, m, now, premium);
            && Kept(b1, allowed)
            && (invoice.Some? ==>
                  && Kept(invoice.value.0, allowed) && invoice.value.0.mandates == b1.mandates
                  && invoice.value.0.invoices[invoice.value.1].mandateId == m)
  {
    var b1 := EnsureMandate(b, policy.id, now);
    var m := MandateOf(b, policy.id, now);
    NewMandateKeeps(b, policy.id, now, allowed);
    MandateAndInvoiceKeepOne(b, policy, now, premium);
    var invoice := EnsureInvoice(b1, policy, m, now, premium);
    if invoice.Some? && invoice.value.0 != b1 {
      NewInvoiceKeeps(b1, invoice.value.0.invoices[invoice.value.1], allowed);
    }
  }

  lemma BillPolicyKeeps(b: Books, policy: Policy, now: int, world: World, allowed: set<Outcome>)
    requires Kept(b, allowed) && world.outcome in allowed
    ensures Kept(BillPolicy(b, policy, now, world).0, allowed)
  {
    ReadyBooksKept(b, policy, now, world.premium, allowed);
    var b1 := EnsureMandate(b, policy.id, now);
    var m := MandateOf(b, policy.id, now);
    var invoice := EnsureInvoice(b1, policy, m, now, world.premium);
    if invoice.Some? {
      var (b2, i) := invoice.value;
      if b1.mandates[m].status == MandateActive && b2.invoices[i].status != PAID {
        ChargeKeeps(b2, i, world.outcome, world.at, allowed);
      }
    }
  }

  lemma {:induction false} BillAllKeeps(b: Books, visits: seq<Visit>, now: int, allowed: set<Outcome>)
    requires Kept(b, allowed) && AllowedVisits(visits, allowed)
    ensures Kept(BillAll(b, visits, now), allowed)
    decreases |visits|
  {
    if visits != [] {
      assert visits[0] in visits;
      BillPolicyKeeps(b, visits[0].policy, now, visits[0].world, allowed);
      var (c, crashed) := BillPolicy(b, visits[0].policy, now, visits[0].world);
      if !crashed {
        BillAllKeeps(c, visits[1..], now, allowed);
      }
    }
  }

  lemma {:induction false} RunsKeep(b: Books, runs: seq<Run>, allowed: set<Outcome>)
    requires Kept(b, allowed) && Allowed(runs, allowed)
    ensures Kept(BillRuns(b, runs), allowed)
    decreases |runs|
  {
    if runs != [] {
      assert runs[0] in runs;
      BillAllKeeps(b, runs[0].visits, runs[0].now, allowed);
      RunsKeep(BillAll(b, runs[0].visits, runs[0].now), runs[1..], allowed);
    }
  }

  // ---- The runs that break them ----

  const DRIVER := Policy("policy", 0)

  /** One visit to one policy, charged 100 rupees with the given outcome. */
  function VisitWith(o: Outcome): Run {
    Run([Visit(DRIVER, World(Some(100.0), o, 0))], 0)
  }

  function FirstInvoice(status: InvoiceStatus): Invoice {
    Invoice("policy", 0, 0, CYCLE_MS, 100.0, status)
  }

  /** The mandate is there, active and due, and the cycle's invoice is not PAID. */
  ghost predicate Due(b: Books) {
    && b.mandates == [Mandate("policy", MandateActive, 0, 0)]
    && |b.invoices| <= 1
    && (|b.invoices| == 1 ==> b.invoices[0].status != PAID && b.invoices[0] == FirstInvoice(b.invoices[0].status))
  }

  lemma OneVisitRun(b: Books, v: Visit, now: int)
    ensures BillRuns(b, [Run([v], now)]) == BillPolicy(b, v.policy, now, v.world).0
  {
    assert [Run([v], now)][1..] == [] && [v][1..] == [];
    var (c, crashed) := BillPolicy(b, v.policy, now, v.world);
    assert BillAll(c, [], now) == c;
    assert BillAll(b, [v], now) == c;
    assert BillRuns(c, []) == c;
  }

  function Ready(b: Books): Books {
    b.(mandates := [Mandate("policy", MandateActive, 0, 0)],
       invoices := if b.invoices == [] then [FirstInvoice(PENDING)] else b.invoices)
  }

  lemma MandateIsReady(b: Books)
    requires (b.mandates == [] && b.invoices == []) || Due(b)
    ensures EnsureMandate(b, "policy", 0) == b.(mandates := [Mandate("policy", MandateActive, 0, 0)])
    ensures MandateOf(b, "policy", 0) == 0
  {}

  lemma InvoiceIsReady(b: Books)
    requires Due(b)
    ensures EnsureInvoice(b, DRIVER, 0, 0, Some(100.0)) == Some((Ready(b), 0))
  {
    assert ResolveCycleWindow(DRIVER.startDate, 0) == CycleWindow(0, CYCLE_MS);
    if b.invoices == [] {
      assert b.invoices + [FirstInvoice(PENDING)] == [FirstInvoice(PENDING)];
    } else {
      assert FindInvoice(b.invoices, "policy", 0) == Some(0);
    }
  }

  lemma PolicyCharges(b: Books, policy: Policy, now: int, world: World, m: nat, b2: Books, i: nat)
    requires MandateOf(b, policy.id, now) == m
    requires var mandate := EnsureMandate(b, policy.id, now).mandates[m];
             mandate.status == MandateActive && mandate.nextChargeAt <= now
    requires EnsureInvoice(EnsureMandate(b, policy.id, now), policy, m, now, world.premium) == Some((b2, i))
    requires i < |b2.invoices| && b2.invoices[i].status != PAID
    ensures BillPolicy(b, policy, now, world).0 == Charge(b2, i, world.outcome, world.at)
  {}

  lemma VisitCharges(b: Books, o: Outcome)
    requires (b.mandates == [] && b.invoices == []) || Due(b)
    ensures BillRuns(b, [VisitWith(o)]) == Charge(Ready(b), 0, o, 0)
  {
    OneVisitRun(b, VisitWith(o).visits[0], 0);
    MandateIsReady(b);
    var b1 := b.(mandates := [Mandate("policy", MandateActive, 0, 0)]);
    InvoiceIsReady(b1);
    PolicyCharges(b, DRIVER, 0, World(Some(100.0), o, 0), 0, Ready(b1), 0);
  }

  lemma BillRunsTwo(b: Books, r: Run, q: Run)
    ensures BillRuns(b, [r, q]) == BillRuns(BillRuns(b, [r]), [q])
  {
    assert [r, q][1..] == [q] && [r][1..] == [];
  }

  /** The books after one visit to a fresh policy. */
  lemma {:induction false} OneVisit(funds: Pool.Funds, o: Outcome)
    ensures var b := BillRuns(EmptyBooks(funds), [VisitWith(o)]);
            && |b.invoices| == 1 && IsPaid(b, 0) == o.Collected?
            && b.debits[0] == Debits(o)
            && b.stray == (if Injects(o) && !o.Collected? then 100.0 else 0.0)
            && (LosesDebit(o) ==> Due(b))
  {
    VisitCharges(EmptyBooks(funds), o);
    ChargeTables(Ready(EmptyBooks(funds)), 0, o, 0);
  }

  /** A lost debit is repeated: whatever outcome loses a debit, a second visit adds its own. */
  lemma {:induction false} LostDebitIsRepeated(funds: Pool.Funds, o: Outcome, next: Outcome)
    requires LosesDebit(o)
    ensures var b := BillRuns(EmptyBooks(funds), [VisitWith(o), VisitWith(next)]);
            |b.invoices| == 1 && b.debits[0] == Debits(o) + Debits(next)
  {
    BillRunsTwo(EmptyBooks(funds), VisitWith(o), VisitWith(next));
    OneVisit(funds, o);
    var b := BillRuns(EmptyBooks(funds), [VisitWith(o)]);
    VisitCharges(b, next);
    assert Ready(b) == b;
    ChargeTables(b, 0, next, 0);
  }

  /** The driver is debited by an accepted request, and by one whose answer was lost too late. */
  function DebitedBy(posts: seq<Post>, i: nat): nat {
    if i < |posts| && (posts[i] == Accepted || posts[i] == Lost(true)) then 1 else 0
  }

  predicate LostAt(posts: seq<Post>, i: nat) {
    i < |posts| && posts[i].Lost?
  }

  /** The first of three requests that is answered decides; the driver is debited by those that
      were sent up to then. */
  lemma FirstAnswerOfThree(posts: seq<Post>)
    ensures Answer(posts, MAX_POSTS)
            == if |posts| >= 1 && !posts[0].Lost? then Some(posts[0])
               else if |posts| >= 2 && !posts[1].Lost? then Some(posts[1])
               else if |posts| >= 3 && !posts[2].Lost? then Some(posts[2])
               else None
    ensures PostedDebits(posts, MAX_POSTS)
            == DebitedBy(posts, 0)
               + (if LostAt(posts, 0) then DebitedBy(posts, 1) else 0)
               + (if LostAt(posts, 0) && LostAt(posts, 1) then DebitedBy(posts, 2) else 0)
  {
    if LostAt(posts, 0) {
      AnswerAfterLost(posts, 3);
      if LostAt(posts, 1) {
        AnswerAfterLost(posts[1..], 2);
        assert posts[1..][1..] == posts[2..];
        if LostAt(posts, 2) {
          AnswerAfterLost(posts[2..], 1);
        }
      }
    }
  }

  lemma AnswerAfterLost(posts: seq<Post>, tries: nat)
    requires posts != [] && posts[0].Lost? && tries > 0
    ensures Answer(posts, tries) == Answer(posts[1..], tries - 1)
    ensures PostedDebits(posts, tries) == DebitedBy(posts, 0) + PostedDebits(posts[1..], tries - 1)
  {}

  /** An accepting answer after a lost one: a single collected charge debits twice. */
  lemma LostAnswerDebitsTwice(funds: Pool.Funds)
    ensures Possible(Collected([Lost(true), Accepted]))
    ensures var b := BillRuns(EmptyBooks(funds), [VisitWith(Collected([Lost(true), Accepted]))]);
            |b.invoices| == 1 && IsPaid(b, 0) && b.debits[0] == 2
  {
    var posts := [Lost(true), Accepted];
    assert posts[1..] == [Accepted];
    assert Answer(posts[1..], 2) == Some(Accepted) && PostedDebits(posts[1..], 2) == 1;
    OneVisit(funds, Collected(posts));
  }

  // ---- The exact conditions ----

  ghost predicate NoInvoiceDebitedTwice(funds: Pool.Funds, allowed: set<Outcome>) {
    forall runs, i: nat | Allowed(runs, allowed) && i < |BillRuns(EmptyBooks(funds), runs).invoices| ::
      BillRuns(EmptyBooks(funds), runs).debits[i] <= 1
  }

  /** A driver is debited at most once per cycle, over all runs, exactly when no charge can
      debit twice, by a retried request whose answer was lost, or end with a debit that neither
      its own nor the failure transaction records. */
  lemma {:induction false} DebitedAtMostOnceIff(funds: Pool.Funds, allowed: set<Outcome>)
    ensures NoInvoiceDebitedTwice(funds, allowed) <==> AllKeepOneDebit(allowed)
  {
    if AllKeepOneDebit(allowed) {
      forall runs, i: nat | Allowed(runs, allowed) && i < |BillRuns(EmptyBooks(funds), runs).invoices|
        ensures BillRuns(EmptyBooks(funds), runs).debits[i] <= 1
      {
        RunsKeep(EmptyBooks(funds), runs, allowed);
      }
    } else {
      var o :| o in allowed && !OneDebitKept(o);
      if LosesDebit(o) {
        LostDebitIsRepeated(funds, o, o);
        assert Allowed([VisitWith(o), VisitWith(o)], allowed);
      } else {
        OneVisit(funds, o);
        assert Allowed([VisitWith(o)], allowed);
      }
    }
  }

  ghost predicate DebitsAreBooked(funds: Pool.Funds, allowed: set<Outcome>) {
    forall runs | Allowed(runs, allowed) :: DebitedIffPaid(BillRuns(EmptyBooks(funds), runs))
  }

  /** Every debit ends in a PAID invoice of its own, over all runs, exactly when a charge debits
      once if it commits its transaction and never otherwise. */
  lemma {:induction false} DebitsAreBookedIff(funds: Pool.Funds, allowed: set<Outcome>)
    ensures DebitsAreBooked(funds, allowed) <==> AllBookDebits(allowed)
  {
    if AllBookDebits(allowed) {
      forall runs | Allowed(runs, allowed) ensures DebitedIffPaid(BillRuns(EmptyBooks(funds), runs)) {
        RunsKeep(EmptyBooks(funds), runs, allowed);
      }
    } else {
      var o :| o in allowed && !BooksDebit(o);
      OneVisit(funds, o);
      assert Allowed([VisitWith(o)], allowed);
      assert !DebitedIffPaid(BillRuns(EmptyBooks(funds), [VisitWith(o)]));
    }
  }

  /** What the pool received is what the ledger shows. */
  predicate PoolMatchesLedger(b: Books, funds: Pool.Funds) {
    b.funds.Total() == funds.Total() + LedgerTotal(b.ledger)
  }

  ghost predicate PoolNeverDrifts(funds: Pool.Funds, allowed: set<Outcome>) {
    forall runs | Allowed(runs, allowed) :: PoolMatchesLedger(BillRuns(EmptyBooks(funds), runs), funds)
  }

  /** The pool commits its own transaction inside the charge's. It agrees with the ledger, over
      all runs, exactly when no charge is lost after that commit; each one that is leaves its
      whole premium in the pool without a ledger row. */
  lemma {:induction false} PoolNeverDriftsIff(funds: Pool.Funds, allowed: set<Outcome>)
    ensures PoolNeverDrifts(funds, allowed) <==> AllBookInjections(allowed)
  {
    EmptyBooksBalance(funds);
    if AllBookInjections(allowed) {
      forall runs | Allowed(runs, allowed) ensures PoolMatchesLedger(BillRuns(EmptyBooks(funds), runs), funds) {
        RunsKeep(EmptyBooks(funds), runs, allowed);
        EveryBillingHistoryBalances(EmptyBooks(funds), funds, runs);
      }
    } else {
      var o :| o in allowed && Injects(o) && !o.Collected?;
      OneVisit(funds, o);
      EveryBillingHistoryBalances(EmptyBooks(funds), funds, [VisitWith(o)]);
      assert Allowed([VisitWith(o)], allowed);
      assert !PoolMatchesLedger(BillRuns(EmptyBooks(funds), [VisitWith(o)]), funds);
    }
  }
}
