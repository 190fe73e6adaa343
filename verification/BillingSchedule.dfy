/** When a policy is charged: not before its mandate is due, and then exactly if the mandate is
    active and the cycle's invoice is unpaid; and how far apart the charges of a mandate lie. */
module BillingSchedule {
  import opened Options
  import opened RecurringBilling
  import Pool = LiquidityPool

  // ---- One visit ----

  /** The newest mandate asks for a later visit. */
  predicate NotDueYet(b: Books, policyId: string, now: int) {
    var m := FindMandate(b.mandates, policyId);
    m.Some? && now < b.mandates[m.value].nextChargeAt
  }

  /** A policy without a mandate gets one that is due at once. */
  predicate MandateIsDue(b: Books, policyId: string, now: int) {
    var m := FindMandate(b.mandates, policyId);
    m.None? || (b.mandates[m.value].status == MandateActive && b.mandates[m.value].nextChargeAt <= now)
  }

  /** The start of the week that `now` lies in, counted from the policy's start. */
  function WeekOf(policy: Policy, now: int): int {
    if now <= policy.startDate then policy.startDate else now - (now - policy.startDate) % 604_800_000
  }

  predicate OwesInvoice(b: Books, policy: Policy, now: int, premium: Option<real>) {
    var i := FindInvoice(b.invoices, policy.id, WeekOf(policy, now));
    if i.Some? then b.invoices[i.value].status != PAID else premium.Some?
  }

  lemma WindowIsWeek(policy: Policy, now: int)
    ensures var week := WeekOf(policy, now);
            ResolveCycleWindow(policy.startDate, now) == CycleWindow(week, week + 604_800_000)
  {
    if now > policy.startDate {
      var elapsed := now - policy.startDate;
      assert elapsed == elapsed / 604_800_000 * 604_800_000 + elapsed % 604_800_000;
    }
  }

  /** Before the mandate is due a visit does nothing at all. */
  lemma NothingBeforeDue(b: Books, policy: Policy, now: int, world: World)
    requires NotDueYet(b, policy.id, now)
    ensures BillPolicy(b, policy, now, world) == (b, false)
  {}

  /** A visit debits the driver exactly when the mandate is due and the week's invoice is owed. */
  lemma VisitDebits(b: Books, policy: Policy, now: int, world: World)
    ensures var t := BillPolicy(b, policy, now, world).0;
            |t.debits| == |b.debits| + (if MandateIsDue(b, policy.id, now) && OwesInvoice(b, policy, now, world.premium)
                                        then Debits(world.outcome) else 0)
  {
    var b1 := EnsureMandate(b, policy.id, now);
    var m := MandateOf(b, policy.id, now);
    WindowIsWeek(policy, now);
    var invoice := EnsureInvoice(b1, policy, m, now, world.premium);
    if invoice.Some? {
      var (b2, i) := invoice.value;
      if b2.invoices[i].status != PAID {
        ChargeTables(b2, i, world.outcome, world.at);
      }
    }
  }

  /** The invoice a due visit makes: this week's, for the whole premium. */
  lemma NewInvoice(b: Books, policy: Policy, now: int, world: World)
    requires FindInvoice(b.invoices, policy.id, WeekOf(policy, now)).None?
    requires MandateIsDue(b, policy.id, now) && world.premium.Some?
    ensures var t := BillPolicy(b, policy, now, world).0; var n := |b.invoices|; var week := WeekOf(policy, now);
            && |t.invoices| == n + 1 && t.invoices[..n] == b.invoices
            && t.invoices[n].policyId == policy.id && t.invoices[n].amountDue == world.premium.value
            && t.invoices[n].cycleStart == week && t.invoices[n].cycleEnd == week + 604_800_000
            && (policy.startDate <= now ==> week <= now < week + 604_800_000)
  {
    var b1 := EnsureMandate(b, policy.id, now);
    var m := MandateOf(b, policy.id, now);
    WindowIsWeek(policy, now);
    var (b2, i) := EnsureInvoice(b1, policy, m, now, world.premium).value;
    ChargeTables(b2, i, world.outcome, world.at);
  }

  /** How a charge that stopped is left. The attempt row is written first, then the invoice
      marked, then the debit sent, then the premium injected. Once the invoice is marked an error
      makes invoice and mandate FAILED and schedules tomorrow; a death, or a second error, leaves
      the invoice PROCESSING and the mandate due. */
  lemma StoppedCharge(b: Books, i: nat, o: Outcome, at: int)
    requires i < |b.invoices| && b.invoices[i].status != PAID && b.invoices[i].mandateId < |b.mandates|
    requires o.Stopped?
    ensures var t := Charge(b, i, o, at); var m := b.invoices[i].mandateId;
            var marked := !o.point.Untouched? && !o.point.AttemptWritten?;
            && |t.invoices| == |b.invoices| && |t.mandates| == |b.mandates| && t.ledger == b.ledger
            && |t.attempts| == |b.attempts| + (if o.point.Untouched? then 0 else 1)
            && t.invoices[i].status == (if !marked then b.invoices[i].status
                                        else if o.ending == Raises then FAILED else PROCESSING)
            && (if marked && o.ending == Raises
                then t.mandates[m].status == MandateFailed && t.mandates[m].nextChargeAt == at + 86_400_000
                else t.mandates == b.mandates)
    ensures var t := Charge(b, i, o, at); var sent := o.point.Posted? || o.point.Injected?;
            && t.debits[i] == b.debits[i] + (if sent then PostedDebits(o.posts, MAX_POSTS) else 0)
            && t.funds.Total() == b.funds.Total() + (if o.point.Injected? then b.invoices[i].amountDue else 0.0)
  {
    ChargeTables(b, i, o, at);
  }

  /** The loop goes on after an error of one policy and stops when the process dies in a charge. */
  lemma RunGoesOnIff(b: Books, v: Visit, more: seq<Visit>, now: int)
    ensures var t := BillPolicy(b, v.policy, now, v.world).0; var o := v.world.outcome;
            var charged := MandateIsDue(b, v.policy.id, now) && OwesInvoice(b, v.policy, now, v.world.premium);
            BillAll(b, [v] + more, now)
            == if charged && o.Stopped? && o.ending == Dies then t else BillAll(t, more, now)
  {
    assert ([v] + more)[1..] == more;
    WindowIsWeek(v.policy, now);
    var b1 := EnsureMandate(b, v.policy.id, now);
    var invoice := EnsureInvoice(b1, v.policy, MandateOf(b, v.policy.id, now), now, v.world.premium);
    assert invoice.Some? ==> invoice.value.0.mandates == b1.mandates;
  }

  // ---- Over all runs ----

  /** The clock at the charges of a run never goes back. */
  predicate VisitsInTime(visits: seq<Visit>, from: int) {
    visits == [] || (from <= visits[0].world.at && VisitsInTime(visits[1..], visits[0].world.at))
  }

  function EndOf(visits: seq<Visit>, from: int): int {
    if visits == [] then from else EndOf(visits[1..], visits[0].world.at)
  }

  /** Runs follow one another on a clock that never goes back. */
  predicate InTime(runs: seq<Run>, from: int) {
    runs == [] || (from <= runs[0].now && VisitsInTime(runs[0].visits, runs[0].now)
                   && InTime(runs[1..], EndOf(runs[0].visits, runs[0].now)))
  }

  function MandateAt(b: Books, k: nat): nat
    requires k < |b.ledger| && b.ledger[k].invoiceId < |b.invoices|
  {
    b.invoices[b.ledger[k].invoiceId].mandateId
  }

  /** Two collected charges of one mandate are a week apart. */
  ghost predicate WeekApart(b: Books)
    requires RowsInRange(b)
  {
    forall j, k | 0 <= j < k < |b.ledger| && MandateAt(b, j) == MandateAt(b, k) ::
      b.ledger[k].createdAt - b.ledger[j].createdAt >= 604_800_000
  }

  /** An active mandate is not due for a week after its last collected charge. */
  ghost predicate RestsAWeek(b: Books)
    requires RowsInRange(b)
  {
    forall j | 0 <= j < |b.ledger| && MandateAt(b, j) < |b.mandates|
               && b.mandates[MandateAt(b, j)].status == MandateActive ::
      b.mandates[MandateAt(b, j)].nextChargeAt - b.ledger[j].createdAt >= 604_800_000
  }

  ghost predicate OnSchedule(b: Books) {
    OneMandatePerPolicy(b) && RowsInRange(b) && WeekApart(b) && RestsAWeek(b)
  }

  lemma LedgerRowInRange(b: Books, k: nat)
    requires RowsInRange(b) && k < |b.ledger|
    ensures b.ledger[k].invoiceId < |b.invoices|
  {
    assert b.ledger[k] in b.ledger;
  }

  lemma ReadyOnSchedule(b: Books, policy: Policy, now: int, premium: Option<real>)
    requires OnSchedule(b)
    ensures var b1 := EnsureMandate(b, policy.id, now); var m := MandateOf(b, policy.id, now);
            var invoice := EnsureInvoice(b1, policy, m, now, premium);
            && OnSchedule(b1)
            && (invoice.Some? ==>
                  && OnSchedule(invoice.value.0) && invoice.value.0.mandates == b1.mandates
                  && invoice.value.0.invoices[invoice.value.1].mandateId == m)
  {
    MandateAndInvoiceKeepOne(b, policy, now, premium);
    var b1 := EnsureMandate(b, policy.id, now);
    var m := MandateOf(b, policy.id, now);
    MoreRowsOnSchedule(b, b1);
    var invoice := EnsureInvoice(b1, policy, m, now, premium);
    if invoice.Some? {
      MoreRowsOnSchedule(b1, invoice.value.0);
    }
  }

  /** New mandates and invoices leave what was collected alone. */
  lemma MoreRowsOnSchedule(b: Books, c: Books)
    requires OnSchedule(b) && OneMandatePerPolicy(c)
    requires b.mandates <= c.mandates && b.invoices <= c.invoices
    requires c.attempts == b.attempts && c.ledger == b.ledger && c.debits == b.debits
    ensures OnSchedule(c)
  {
    forall k: nat | k < |b.ledger|
      ensures MandateAt(c, k) == MandateAt(b, k) && MandateAt(b, k) < |b.mandates|
    {
      LedgerRowInRange(b, k);
      assert b.invoices[b.ledger[k].invoiceId] in b.invoices;
    }
  }

  lemma ChargeOnSchedule(b: Books, i: nat, o: Outcome, at: int)
    requires OnSchedule(b) && i < |b.invoices| && b.invoices[i].status != PAID
    requires var m := b.invoices[i].mandateId;
             m < |b.mandates| && b.mandates[m].status == MandateActive && b.mandates[m].nextChargeAt <= at
    ensures OnSchedule(Charge(b, i, o, at))
  {
    ChargeMandates(b, i, o, at);
    ChargeKeepsRange(b, i, o, at);
    ChargeTables(b, i, o, at);
    var t := Charge(b, i, o, at);
    forall k: nat | k < |b.ledger| ensures t.ledger[k] == b.ledger[k] && MandateAt(t, k) == MandateAt(b, k) {
      LedgerRowInRange(b, k);
    }
    if o.Collected? {
      NewRowIsLate(b, t, i, at);
    } else {
      NoNewRow(b, t);
    }
  }

  /** A row collected from a due mandate keeps the schedule, and the mandate rests again. */
  lemma NewRowIsLate(b: Books, t: Books, i: nat, at: int)
    requires RowsInRange(b) && RowsInRange(t) && WeekApart(b) && RestsAWeek(b) && i < |b.invoices|
    requires var m := b.invoices[i].mandateId;
             && m < |b.mandates| && b.mandates[m].status == MandateActive && b.mandates[m].nextChargeAt <= at
             && |t.mandates| == |b.mandates| && t.mandates[m].nextChargeAt == at + 604_800_000
             && forall k | 0 <= k < |b.mandates| && k != m :: t.mandates[k] == b.mandates[k]
    requires |t.ledger| == |b.ledger| + 1 && t.ledger[|b.ledger|].createdAt == at
    requires MandateAt(t, |b.ledger|) == b.invoices[i].mandateId
    requires forall k: nat | k < |b.ledger| :: t.ledger[k] == b.ledger[k] && MandateAt(t, k) == MandateAt(b, k)
    ensures WeekApart(t) && RestsAWeek(t)
  {}

  lemma NoNewRow(b: Books, t: Books)
    requires RowsInRange(b) && RowsInRange(t) && WeekApart(b) && RestsAWeek(b)
    requires t.ledger == b.ledger && |t.mandates| == |b.mandates|
    requires forall k: nat | k < |b.ledger| :: MandateAt(t, k) == MandateAt(b, k)
    requires forall k | 0 <= k < |b.mandates| :: t.mandates[k].status == MandateFailed || t.mandates[k] == b.mandates[k]
    ensures WeekApart(t) && RestsAWeek(t)
  {}

  lemma BillPolicyOnSchedule(b: Books, policy: Policy, now: int, world: World)
    requires OnSchedule(b) && now <= world.at
    ensures OnSchedule(BillPolicy(b, policy, now, world).0)
  {
    ReadyOnSchedule(b, policy, now, world.premium);
    var b1 := EnsureMandate(b, policy.id, now);
    var m := MandateOf(b, policy.id, now);
    var invoice := EnsureInvoice(b1, policy, m, now, world.premium);
    if b1.mandates[m].status == MandateActive && b1.mandates[m].nextChargeAt <= now && invoice.Some? {
      var (b2, i) := invoice.value;
      if b2.invoices[i].status != PAID {
        ChargeOnSchedule(b2, i, world.outcome, world.at);
      }
    }
  }

  lemma {:induction false} BillAllOnSchedule(b: Books, visits: seq<Visit>, now: int, from: int)
    requires OnSchedule(b) && VisitsInTime(visits, from) && now <= from
    ensures OnSchedule(BillAll(b, visits, now)) && from <= EndOf(visits, from)
    decreases |visits|
  {
    if visits != [] {
      BillPolicyOnSchedule(b, visits[0].policy, now, visits[0].world);
      var (c, crashed) := BillPolicy(b, visits[0].policy, now, visits[0].world);
      EndIsLater(visits, from);
      if !crashed {
        BillAllOnSchedule(c, visits[1..], now, visits[0].world.at);
      }
    }
  }

  lemma {:induction false} EndIsLater(visits: seq<Visit>, from: int)
    requires VisitsInTime(visits, from)
    ensures from <= EndOf(visits, from)
    decreases |visits|
  {
    if visits != [] {
      EndIsLater(visits[1..], visits[0].world.at);
    }
  }

  lemma {:induction false} RunsOnSchedule(b: Books, runs: seq<Run>, from: int)
    requires OnSchedule(b) && InTime(runs, from)
    ensures OnSchedule(BillRuns(b, runs))
    decreases |runs|
  {
    if runs != [] {
      BillAllOnSchedule(b, runs[0].visits, runs[0].now, runs[0].now);
      RunsOnSchedule(BillAll(b, runs[0].visits, runs[0].now), runs[1..], EndOf(runs[0].visits, runs[0].now));
    }
  }

  /** However runs end, two collected charges of one mandate lie at least seven days apart, so
      that a driver pays at most one premium in any seven days on it. */
  lemma {:induction false} ChargesAreAWeekApart(funds: Pool.Funds, runs: seq<Run>, from: int, j: nat, k: nat)
    requires InTime(runs, from)
    requires j < k < |BillRuns(EmptyBooks(funds), runs).ledger|
    ensures var b := BillRuns(EmptyBooks(funds), runs);
            && b.ledger[j].invoiceId < |b.invoices| && b.ledger[k].invoiceId < |b.invoices|
            && (MandateAt(b, j) == MandateAt(b, k) ==> b.ledger[k].createdAt - b.ledger[j].createdAt >= 604_800_000)
  {
    RunsOnSchedule(EmptyBooks(funds), runs, from);
    var b := BillRuns(EmptyBooks(funds), runs);
    LedgerRowInRange(b, j);
    LedgerRowInRange(b, k);
  }
}
