/** Recurring premium billing: hourly runs over active policies that create mandates and
    cycle invoices, charge them, and keep attempts, ledger and pool in step. */
module RecurringBilling {
  import opened Options
  import Pool = LiquidityPool

  // ---- Data: append-only tables, a row's id is its position ----

  datatype Policy = Policy(id: string, startDate: int)
  datatype MandateStatus = MandateActive | MandateFailed
  datatype Mandate = Mandate(policyId: string, status: MandateStatus, nextChargeAt: int, failureCount: nat)
  datatype InvoiceStatus = PENDING | PROCESSING | PAID | FAILED
  datatype Invoice = Invoice(policyId: string, mandateId: nat, cycleStart: int, cycleEnd: int,
                             amountDue: real, status: InvoiceStatus)
  datatype AttemptStatus = STARTED | SUCCEEDED | REFUSED
  datatype Attempt = Attempt(invoiceId: nat, number: nat, status: AttemptStatus)
  datatype LedgerEntry = LedgerEntry(invoiceId: nat, amount: real, createdAt: int)

  /** `debits` and `stray` record history: the invoices debited at the gateway, and the rupees
      the pool received from charges whose own transaction did not commit. */
  datatype Books = Books(
    mandates: seq<Mandate>, invoices: seq<Invoice>, attempts: seq<Attempt>, ledger: seq<LedgerEntry>,
    funds: Pool.Funds, debits: multiset<nat>, stray: real)

  const DAY_MS: int := 24 * 60 * 60 * 1000
  const CYCLE_MS: int := 7 * DAY_MS

  // ---- The cycle window ----

  datatype CycleWindow = CycleWindow(start: int, end: int)

  function ResolveCycleWindow(policyStart: int, now: int): CycleWindow {
    var elapsed := if now - policyStart > 0 then now - policyStart else 0;
    var start := policyStart + elapsed / CYCLE_MS * CYCLE_MS;
    CycleWindow(start, start + CYCLE_MS)
  }

  /** The windows of a policy partition its lifetime into whole cycles: each instant lies
      in its own window, and two instants have overlapping windows only if they have the
      same one. */
  lemma {:induction false} CycleWindowsPartition(policyStart: int, t1: int, t2: int)
    requires policyStart <= t1 && policyStart <= t2
    ensures var w := ResolveCycleWindow(policyStart, t1); w.start <= t1 < w.end
    ensures var w, v := ResolveCycleWindow(policyStart, t1), ResolveCycleWindow(policyStart, t2);
            w == v || w.end <= v.start || v.end <= w.start
    ensures var w := ResolveCycleWindow(policyStart, t1);
            w.end == w.start + 604_800_000 && (w.start - policyStart) % 604_800_000 == 0
  {
    var a, b := (t1 - policyStart) / CYCLE_MS, (t2 - policyStart) / CYCLE_MS;
    if a < b {
      assert a * CYCLE_MS + CYCLE_MS <= b * CYCLE_MS;
    } else if b < a {
      assert b * CYCLE_MS + CYCLE_MS <= a * CYCLE_MS;
    }
  }

  // ---- Lookups ----

  /** The newest mandate of a policy. */
  function FindMandate(ms: seq<Mandate>, policyId: string): (r: Option<nat>)
    ensures r.Some? ==> r.value < |ms| && ms[r.value].policyId == policyId
    ensures r.None? ==> forall i | 0 <= i < |ms| :: ms[i].policyId != policyId
  {
    if ms == [] then None
    else if ms[|ms| - 1].policyId == policyId then Some(|ms| - 1)
    else FindMandate(ms[..|ms| - 1], policyId)
  }

  function FindInvoice(invoices: seq<Invoice>, policyId: string, cycleStart: int): (r: Option<nat>)
    ensures r.Some? ==> r.value < |invoices| && invoices[r.value].policyId == policyId
                        && invoices[r.value].cycleStart == cycleStart
    ensures r.None? ==> forall i | 0 <= i < |invoices| ::
                          !(invoices[i].policyId == policyId && invoices[i].cycleStart == cycleStart)
  {
    if invoices == [] then None
    else
      var n := |invoices| - 1;
      if invoices[n].policyId == policyId && invoices[n].cycleStart == cycleStart then Some(n)
      else FindInvoice(invoices[..n], policyId, cycleStart)
  }

  function CountAttempts(attempts: seq<Attempt>, invoiceId: nat): nat {
    if attempts == [] then 0
    else CountAttempts(attempts[..|attempts| - 1], invoiceId)
         + if attempts[|attempts| - 1].invoiceId == invoiceId then 1 else 0
  }

  /** The positions of an invoice's attempts. */
  function AttemptsOf(attempts: seq<Attempt>, invoiceId: nat): set<nat> {
    set a: nat | a < |attempts| && attempts[a].invoiceId == invoiceId
  }

  lemma {:induction false} CountAttemptsIsSize(attempts: seq<Attempt>, invoiceId: nat)
    ensures CountAttempts(attempts, invoiceId) == |AttemptsOf(attempts, invoiceId)|
  {
    if attempts != [] {
      var n := |attempts| - 1;
      CountAttemptsIsSize(attempts[..n], invoiceId);
      var before := AttemptsOf(attempts[..n], invoiceId);
      assert AttemptsOf(attempts, invoiceId)
             == if attempts[n].invoiceId == invoiceId then before + {n} else before;
    }
  }

  function CountSuccesses(attempts: seq<Attempt>, invoiceId: nat): nat {
    if attempts == [] then 0
    else CountSuccesses(attempts[..|attempts| - 1], invoiceId)
         + if attempts[|attempts| - 1] == Attempt(invoiceId, attempts[|attempts| - 1].number, SUCCEEDED) then 1 else 0
  }

  function CountLedger(ledger: seq<LedgerEntry>, invoiceId: nat): nat {
    if ledger == [] then 0
    else CountLedger(ledger[..|ledger| - 1], invoiceId)
         + if ledger[|ledger| - 1].invoiceId == invoiceId then 1 else 0
  }

  // ---- Steps ----

  /** One POST of the debit request: an accepting answer, a refusing one, or none, in which
      case the provider may have debited all the same. */
  datatype Post = Accepted | Declined | Lost(debited: bool)

  /** The first attempt and two retries. */
  const MAX_POSTS: nat := 3

  /** The answer of the request with its retries: the first one that comes. */
  function Answer(posts: seq<Post>, tries: nat): Option<Post> {
    if tries == 0 || posts == [] then None
    else if posts[0].Lost? then Answer(posts[1..], tries - 1)
    else Some(posts[0])
  }

  /** How often the provider debits the driver meanwhile. */
  function PostedDebits(posts: seq<Post>, tries: nat): (r: nat)
    ensures Answer(posts, tries) == Some(Accepted) ==> r >= 1
  {
    if tries == 0 || posts == [] then 0
    else
      match posts[0]
      case Accepted => 1
      case Declined => 0
      case Lost(debited) => (if debited then 1 else 0) + PostedDebits(posts[1..], tries - 1)
  }

  /** The last thing a charge leaves behind: nothing, its attempt row, the invoice marked
      PROCESSING, the gateway's debits, or the pool's own injection transaction. */
  datatype Point = Untouched | AttemptWritten | InvoiceMarked | Posted | Injected

  /** Death of the process; an exception; an exception whose failure transaction fails too. */
  datatype Ending = Dies | Raises | RaisesTwice

  datatype Course = Collected(posts: seq<Post>) | Stopped(point: Point, ending: Ending, posts: seq<Post>)

  /** A charge gets past the debit only with an accepting answer. */
  predicate Possible(c: Course) {
    c.Collected? || c.point.Injected? ==> Answer(c.posts, MAX_POSTS) == Some(Accepted)
  }

  type Outcome = c: Course | Possible(c) witness Collected([Accepted])

  function Rank(p: Point): nat {
    match p
    case Untouched => 0
    case AttemptWritten => 1
    case InvoiceMarked => 2
    case Posted => 3
    case Injected => 4
  }

  predicate Reaches(o: Outcome, p: Point) {
    o.Collected? || Rank(o.point) >= Rank(p)
  }

  function Debits(o: Outcome): (r: nat)
    ensures o.Collected? ==> r >= 1
  {
    if Reaches(o, Posted) then PostedDebits(o.posts, MAX_POSTS) else 0
  }

  predicate Injects(o: Outcome) {
    Reaches(o, Injected)
  }

  predicate Crashes(o: Outcome) {
    o.Stopped? && o.ending == Dies
  }

  /** The catch block commits; before the invoice is marked there is none. */
  predicate Refuses(o: Outcome) {
    o.Stopped? && o.ending == Raises && Reaches(o, InvoiceMarked)
  }

  /** A debit that neither the resolution nor the failure transaction records. */
  predicate LosesDebit(o: Outcome) {
    Debits(o) > 0 && !o.Collected? && !Refuses(o)
  }

  function EnsureMandate(b: Books, policyId: string, now: int): Books {
    if FindMandate(b.mandates, policyId).Some? then b
    else b.(mandates := b.mandates + [Mandate(policyId, MandateActive, now, 0)])
  }

  function MandateOf(b: Books, policyId: string, now: int): (r: nat)
    ensures r < |EnsureMandate(b, policyId, now).mandates|
    ensures EnsureMandate(b, policyId, now).mandates[r].policyId == policyId
  {
    var found := FindMandate(b.mandates, policyId);
    if found.Some? then found.value else |b.mandates|
  }

  /** `None` when no invoice exists yet and the premium cannot be computed. */
  function EnsureInvoice(b: Books, policy: Policy, mandateId: nat, now: int, premium: Option<real>):
    (r: Option<(Books, nat)>)
    ensures r.Some? ==> r.value.1 < |r.value.0.invoices|
  {
    var w := ResolveCycleWindow(policy.startDate, now);
    var found := FindInvoice(b.invoices, policy.id, w.start);
    if found.Some? then Some((b, found.value))
    else if premium.None? then None
    else Some((b.(invoices := b.invoices
                            + [Invoice(policy.id, mandateId, w.start, w.end, premium.value, PENDING)]),
               |b.invoices|))
  }

  function BeginCharge(b: Books, i: nat, outcome: Outcome): Books
    requires i < |b.invoices|
  {
    b.(attempts := if Reaches(outcome, AttemptWritten)
                   then b.attempts + [Attempt(i, CountAttempts(b.attempts, i) + 1, STARTED)] else b.attempts,
       invoices := if Reaches(outcome, InvoiceMarked)
                   then b.invoices[i := b.invoices[i].(status := PROCESSING)] else b.invoices)
  }

  function SetMandate(ms: seq<Mandate>, m: nat, status: MandateStatus, nextChargeAt: int): seq<Mandate> {
    if m >= |ms| then ms
    else ms[m := ms[m].(status := status, nextChargeAt := nextChargeAt,
                        failureCount := if status == MandateFailed then ms[m].failureCount + 1 else 0)]
  }

  /** The transaction after a debit went through. */
  function Collect(b: Books, i: nat, at: int): Books
    requires i < |b.invoices| && b.attempts != []
  {
    var last := |b.attempts| - 1;
    var inv := b.invoices[i];
    b.(attempts := b.attempts[last := b.attempts[last].(status := SUCCEEDED)],
       invoices := b.invoices[i := inv.(status := PAID)],
       ledger := b.ledger + [LedgerEntry(i, inv.amountDue, at)],
       mandates := SetMandate(b.mandates, inv.mandateId, MandateActive, at + CYCLE_MS))
  }

  /** The transaction of the catch block. */
  function Refuse(b: Books, i: nat, at: int): Books
    requires i < |b.invoices| && b.attempts != []
  {
    var last := |b.attempts| - 1;
    var inv := b.invoices[i];
    b.(attempts := b.attempts[last := b.attempts[last].(status := REFUSED)],
       invoices := b.invoices[i := inv.(status := FAILED)],
       mandates := SetMandate(b.mandates, inv.mandateId, MandateFailed, at + DAY_MS))
  }

  /** What happens outside the charge's own transactions: the debit, and the injection, which
      the pool commits by itself. */
  function MoveMoney(b: Books, i: nat, outcome: Outcome): Books
    requires i < |b.invoices|
  {
    var due := b.invoices[i].amountDue;
    b.(debits := b.debits[i := b.debits[i] + Debits(outcome)],
       funds := if Injects(outcome) then Pool.Inject(b.funds, due) else b.funds,
       stray := if Injects(outcome) && !outcome.Collected? then b.stray + due else b.stray)
  }

  /** `processInvoiceCharge`. */
  function Charge(b: Books, i: nat, outcome: Outcome, at: int): Books
    requires i < |b.invoices|
  {
    if b.invoices[i].status == PAID then b
    else
      var moved := MoveMoney(BeginCharge(b, i, outcome), i, outcome);
      if outcome.Collected? then Collect(moved, i, at)
      else if Refuses(outcome) then Refuse(moved, i, at)
      else moved
  }

  /** What happens around one policy in one run. */
  datatype World = World(premium: Option<real>, outcome: Outcome, at: int)

  /** One policy of one run: the books after it and whether the process died. */
  function BillPolicy(b: Books, policy: Policy, now: int, world: World): (Books, bool) {
    var b1 := EnsureMandate(b, policy.id, now);
    var m := MandateOf(b, policy.id, now);
    if b1.mandates[m].status != MandateActive || b1.mandates[m].nextChargeAt > now then (b1, false)
    else
      var invoice := EnsureInvoice(b1, policy, m, now, world.premium);
      if invoice.None? then (b1, false)
      else
        var (b2, i) := invoice.value;
        if b2.invoices[i].status == PAID then (b2, false)
        else (Charge(b2, i, world.outcome, world.at), Crashes(world.outcome))
  }

  datatype Visit = Visit(policy: Policy, world: World)

  /** One cron run over the active policies, up to the end or a crash. */
  function BillAll(b: Books, visits: seq<Visit>, now: int): Books
    decreases |visits|
  {
    if visits == [] then b
    else
      var (c, crashed) := BillPolicy(b, visits[0].policy, now, visits[0].world);
      if crashed then c else BillAll(c, visits[1..], now)
  }

  datatype Run = Run(visits: seq<Visit>, now: int)

  function BillRuns(b: Books, runs: seq<Run>): Books
    decreases |runs|
  {
    if runs == [] then b else BillRuns(BillAll(b, runs[0].visits, runs[0].now), runs[1..])
  }

  // ---- What every run keeps ----

  ghost predicate OneInvoicePerCycle(invoices: seq<Invoice>) {
    forall i, j | 0 <= i < j < |invoices| ::
      !(invoices[i].policyId == invoices[j].policyId && invoices[i].cycleStart == invoices[j].cycleStart)
  }

  /** The k-th attempt of an invoice carries number k. */
  ghost predicate AttemptsNumbered(attempts: seq<Attempt>) {
    forall a | 0 <= a < |attempts| :: attempts[a].number == CountAttempts(attempts[..a], attempts[a].invoiceId) + 1
  }

  ghost predicate PaidMatches(b: Books, i: nat)
    requires i < |b.invoices|
  {
    var n := if b.invoices[i].status == PAID then 1 else 0;
    && CountSuccesses(b.attempts, i) == n
    && CountLedger(b.ledger, i) == n
    && b.debits[i] >= n
  }

  function LedgerTotal(ledger: seq<LedgerEntry>): real {
    if ledger == [] then 0.0 else LedgerTotal(ledger[..|ledger| - 1]) + ledger[|ledger| - 1].amount
  }

  function PaidTotal(invoices: seq<Invoice>): real {
    if invoices == [] then 0.0
    else PaidTotal(invoices[..|invoices| - 1])
         + if invoices[|invoices| - 1].status == PAID then invoices[|invoices| - 1].amountDue else 0.0
  }

  ghost predicate RowsInRange(b: Books) {
    && (forall a <- b.attempts :: a.invoiceId < |b.invoices|)
    && (forall e <- b.ledger :: e.invoiceId < |b.invoices|)
    && (forall i | i in b.debits :: i < |b.invoices|)
  }

  ghost predicate Balanced(b: Books, initial: Pool.Funds) {
    && OneInvoicePerCycle(b.invoices)
    && AttemptsNumbered(b.attempts)
    && RowsInRange(b)
    && (forall i: nat | i < |b.invoices| :: PaidMatches(b, i))
    && LedgerTotal(b.ledger) == PaidTotal(b.invoices)
    && b.funds.Total() == initial.Total() + LedgerTotal(b.ledger) + b.stray
  }

  lemma {:induction false} CountsOutOfRange(b: Books, i: nat, a: seq<Attempt>, l: seq<LedgerEntry>)
    requires forall x <- a :: x.invoiceId < i
    requires forall x <- l :: x.invoiceId < i
    ensures CountAttempts(a, i) == 0 && CountSuccesses(a, i) == 0 && CountLedger(l, i) == 0
    decreases |a| + |l|
  {
    if a != [] {
      assert a[|a| - 1] in a;
      CountsOutOfRange(b, i, a[..|a| - 1], l);
    } else if l != [] {
      assert l[|l| - 1] in l;
      CountsOutOfRange(b, i, a, l[..|l| - 1]);
    }
  }

  lemma NewInvoiceKeepsBalanced(b: Books, initial: Pool.Funds, inv: Invoice)
    requires Balanced(b, initial) && inv.status == PENDING
    requires FindInvoice(b.invoices, inv.policyId, inv.cycleStart).None?
    ensures Balanced(b.(invoices := b.invoices + [inv]), initial)
  {
    var c := b.(invoices := b.invoices + [inv]);
    var n := |b.invoices|;
    assert c.invoices[..n] == b.invoices;
    CountsOutOfRange(b, n, b.attempts, b.ledger);
    assert b.debits[n] == 0;
    forall i: nat | i < |c.invoices| ensures PaidMatches(c, i) {
      if i < n {
        assert PaidMatches(b, i);
      }
    }
  }

  lemma {:induction false} PaidTotalUpdate(invoices: seq<Invoice>, i: nat, status: InvoiceStatus)
    requires i < |invoices| && invoices[i].status != PAID
    ensures PaidTotal(invoices[i := invoices[i].(status := status)])
            == PaidTotal(invoices) + (if status == PAID then invoices[i].amountDue else 0.0)
  {
    var n := |invoices| - 1;
    var updated := invoices[i := invoices[i].(status := status)];
    if i < n {
      PaidTotalUpdate(invoices[..n], i, status);
      assert updated[..n] == invoices[..n][i := invoices[i].(status := status)];
    } else {
      assert updated[..n] == invoices[..n];
    }
  }

  function StatusAfter(before: InvoiceStatus, outcome: Outcome): InvoiceStatus {
    if outcome.Collected? then PAID
    else if Refuses(outcome) then FAILED
    else if Reaches(outcome, InvoiceMarked) then PROCESSING
    else before
  }

  function AttemptAfter(outcome: Outcome): AttemptStatus {
    if outcome.Collected? then SUCCEEDED else if Refuses(outcome) then REFUSED else STARTED
  }

  function NewAttempts(attempts: seq<Attempt>, i: nat, outcome: Outcome): seq<Attempt> {
    if !Reaches(outcome, AttemptWritten) then attempts
    else attempts + [Attempt(i, CountAttempts(attempts, i) + 1, AttemptAfter(outcome))]
  }

  function MandatesAfter(ms: seq<Mandate>, m: nat, outcome: Outcome, at: int): seq<Mandate> {
    if m >= |ms| then ms
    else if outcome.Collected? then ms[m := Mandate(ms[m].policyId, MandateActive, at + 604_800_000, 0)]
    else if Refuses(outcome)
      then ms[m := Mandate(ms[m].policyId, MandateFailed, at + 86_400_000, ms[m].failureCount + 1)]
    else ms
  }

  /** The tables after a charge, one by one. */
  lemma ChargeTables(b: Books, i: nat, outcome: Outcome, at: int)
    requires i < |b.invoices| && b.invoices[i].status != PAID
    ensures var t := Charge(b, i, outcome, at); var inv := b.invoices[i];
            && t.invoices == b.invoices[i := inv.(status := StatusAfter(inv.status, outcome))]
            && t.attempts == NewAttempts(b.attempts, i, outcome)
            && t.ledger == (if outcome.Collected? then b.ledger + [LedgerEntry(i, inv.amountDue, at)] else b.ledger)
            && t.funds == (if Injects(outcome) then Pool.Inject(b.funds, inv.amountDue) else b.funds)
            && t.stray == (if Injects(outcome) && !outcome.Collected? then b.stray + inv.amountDue else b.stray)
            && t.debits == b.debits[i := b.debits[i] + Debits(outcome)]
            && t.mandates == MandatesAfter(b.mandates, inv.mandateId, outcome, at)
  {
    var inv := b.invoices[i];
    var started := Attempt(i, CountAttempts(b.attempts, i) + 1, STARTED);
    assert (b.attempts + [started])[|b.attempts| := started.(status := AttemptAfter(outcome))]
           == b.attempts + [started.(status := AttemptAfter(outcome))];
    assert started.(status := STARTED) == started;
    assert b.invoices == b.invoices[i := inv.(status := inv.status)];
    assert b.invoices[i := inv.(status := PROCESSING)][i := inv.(status := StatusAfter(inv.status, outcome))]
           == b.invoices[i := inv.(status := StatusAfter(inv.status, outcome))];
  }

  lemma NewAttempt(attempts: seq<Attempt>, i: nat, outcome: Outcome)
    requires AttemptsNumbered(attempts)
    ensures AttemptsNumbered(NewAttempts(attempts, i, outcome))
  {
    var t := NewAttempts(attempts, i, outcome);
    forall a | 0 <= a < |t| ensures t[a].number == CountAttempts(t[..a], t[a].invoiceId) + 1 {
      assert t[..if a < |attempts| then a else |attempts|] == attempts[..if a < |attempts| then a else |attempts|];
      assert attempts[..|attempts|] == attempts;
    }
  }

  lemma NewAttemptSuccesses(attempts: seq<Attempt>, i: nat, outcome: Outcome, j: nat)
    ensures CountSuccesses(NewAttempts(attempts, i, outcome), j)
            == CountSuccesses(attempts, j) + (if outcome.Collected? && j == i then 1 else 0)
  {
    var t := NewAttempts(attempts, i, outcome);
    if Reaches(outcome, AttemptWritten) {
      assert t[..|attempts|] == attempts;
    }
  }

  lemma ChargeKeepsRange(b: Books, i: nat, outcome: Outcome, at: int)
    requires RowsInRange(b) && i < |b.invoices| && b.invoices[i].status != PAID
    ensures RowsInRange(Charge(b, i, outcome, at))
  {
    ChargeTables(b, i, outcome, at);
    var t := Charge(b, i, outcome, at);
    forall a <- t.attempts ensures a.invoiceId < |t.invoices| {
      assert a in b.attempts || a.invoiceId == i;
    }
    forall e <- t.ledger ensures e.invoiceId < |t.invoices| {
      assert e in b.ledger || e.invoiceId == i;
    }
  }

  lemma StatusKeepsOneInvoice(invoices: seq<Invoice>, i: nat, status: InvoiceStatus)
    requires OneInvoicePerCycle(invoices) && i < |invoices|
    ensures OneInvoicePerCycle(invoices[i := invoices[i].(status := status)])
  {}

  lemma LedgerSnoc(ledger: seq<LedgerEntry>, e: LedgerEntry, j: nat)
    ensures CountLedger(ledger + [e], j) == CountLedger(ledger, j) + (if e.invoiceId == j then 1 else 0)
    ensures LedgerTotal(ledger + [e]) == LedgerTotal(ledger) + e.amount
  {
    assert (ledger + [e])[..|ledger|] == ledger;
  }

  lemma ChargeKeepsPaid(b: Books, i: nat, outcome: Outcome, at: int, j: nat)
    requires i < |b.invoices| && b.invoices[i].status != PAID && j < |b.invoices| && PaidMatches(b, j)
    ensures j < |Charge(b, i, outcome, at).invoices| && PaidMatches(Charge(b, i, outcome, at), j)
  {
    var t := Charge(b, i, outcome, at);
    ChargeTables(b, i, outcome, at);
    var paidNow := if outcome.Collected? && j == i then 1 else 0;
    assert CountSuccesses(t.attempts, j) == CountSuccesses(b.attempts, j) + paidNow by {
      NewAttemptSuccesses(b.attempts, i, outcome, j);
    }
    assert CountLedger(t.ledger, j) == CountLedger(b.ledger, j) + paidNow by {
      LedgerSnoc(b.ledger, LedgerEntry(i, b.invoices[i].amountDue, at), j);
    }
    assert t.debits[j] >= b.debits[j] + paidNow;
  }

  lemma ChargeKeepsTotals(b: Books, initial: Pool.Funds, i: nat, outcome: Outcome, at: int)
    requires Balanced(b, initial) && i < |b.invoices| && b.invoices[i].status != PAID
    ensures var t := Charge(b, i, outcome, at);
            LedgerTotal(t.ledger) == PaidTotal(t.invoices)
            && t.funds.Total() == initial.Total() + LedgerTotal(t.ledger) + t.stray
  {
    var t := Charge(b, i, outcome, at);
    ChargeTables(b, i, outcome, at);
    PaidTotalUpdate(b.invoices, i, StatusAfter(b.invoices[i].status, outcome));
    LedgerSnoc(b.ledger, LedgerEntry(i, b.invoices[i].amountDue, at), 0);
  }

  lemma ChargeKeepsNumbers(b: Books, i: nat, outcome: Outcome, at: int)
    requires i < |b.invoices| && b.invoices[i].status != PAID
    requires OneInvoicePerCycle(b.invoices) && AttemptsNumbered(b.attempts)
    ensures |Charge(b, i, outcome, at).invoices| == |b.invoices|
    ensures OneInvoicePerCycle(Charge(b, i, outcome, at).invoices)
    ensures AttemptsNumbered(Charge(b, i, outcome, at).attempts)
  {
    ChargeTables(b, i, outcome, at);
    StatusKeepsOneInvoice(b.invoices, i, StatusAfter(b.invoices[i].status, outcome));
    NewAttempt(b.attempts, i, outcome);
  }

  lemma BalancedParts(t: Books, initial: Pool.Funds)
    requires OneInvoicePerCycle(t.invoices) && AttemptsNumbered(t.attempts) && RowsInRange(t)
    requires forall j: nat | j < |t.invoices| :: PaidMatches(t, j)
    requires LedgerTotal(t.ledger) == PaidTotal(t.invoices)
    requires t.funds.Total() == initial.Total() + LedgerTotal(t.ledger) + t.stray
    ensures Balanced(t, initial)
  {}

  lemma ChargeKeepsBalanced(b: Books, initial: Pool.Funds, i: nat, outcome: Outcome, at: int)
    requires Balanced(b, initial) && i < |b.invoices| && b.invoices[i].status != PAID
    ensures Balanced(Charge(b, i, outcome, at), initial)
  {
    var t := Charge(b, i, outcome, at);
    ChargeKeepsNumbers(b, i, outcome, at);
    ChargeKeepsRange(b, i, outcome, at);
    ChargeKeepsTotals(b, initial, i, outcome, at);
    forall j: nat | j < |t.invoices| ensures PaidMatches(t, j) {
      assert PaidMatches(b, j);
      ChargeKeepsPaid(b, i, outcome, at, j);
    }
    BalancedParts(t, initial);
  }

  lemma BillPolicyKeepsBalanced(b: Books, initial: Pool.Funds, policy: Policy, now: int, world: World)
    requires Balanced(b, initial)
    ensures Balanced(BillPolicy(b, policy, now, world).0, initial)
  {
    var b1 := EnsureMandate(b, policy.id, now);
    var m := MandateOf(b, policy.id, now);
    assert Balanced(b1, initial) by {
      forall i: nat | i < |b1.invoices| ensures PaidMatches(b1, i) {
        assert PaidMatches(b, i);
      }
    }
    var invoice := EnsureInvoice(b1, policy, m, now, world.premium);
    if invoice.Some? {
      var (b2, i) := invoice.value;
      if b2 != b1 {
        NewInvoiceKeepsBalanced(b1, initial, b2.invoices[i]);
      }
      if b2.invoices[i].status != PAID {
        ChargeKeepsBalanced(b2, initial, i, world.outcome, world.at);
      }
    }
  }

  lemma {:induction false} BillAllKeepsBalanced(b: Books, initial: Pool.Funds, visits: seq<Visit>, now: int)
    requires Balanced(b, initial)
    ensures Balanced(BillAll(b, visits, now), initial)
    decreases |visits|
  {
    if visits != [] {
      BillPolicyKeepsBalanced(b, initial, visits[0].policy, now, visits[0].world);
      var (c, crashed) := BillPolicy(b, visits[0].policy, now, visits[0].world);
      if !crashed {
        BillAllKeepsBalanced(c, initial, visits[1..], now);
      }
    }
  }

  function EmptyBooks(funds: Pool.Funds): Books {
    Books([], [], [], [], funds, multiset{}, 0.0)
  }

  /** Over any sequence of non-overlapping runs, with refusals, rollbacks and crashes
      anywhere: one invoice per policy and cycle; attempts numbered 1, 2, ...; an invoice
      is PAID exactly when it has its one SUCCESS attempt and its one ledger row, and
      otherwise has neither; ledger and paid invoices have the same total; the pool grew by
      that total and by what rolled-back charges had injected. */
  lemma {:induction false} EveryBillingHistoryBalances(b: Books, initial: Pool.Funds, runs: seq<Run>)
    requires Balanced(b, initial)
    ensures Balanced(BillRuns(b, runs), initial)
    decreases |runs|
  {
    if runs != [] {
      BillAllKeepsBalanced(b, initial, runs[0].visits, runs[0].now);
      EveryBillingHistoryBalances(BillAll(b, runs[0].visits, runs[0].now), initial, runs[1..]);
    }
  }

  lemma EmptyBooksBalance(funds: Pool.Funds)
    ensures Balanced(EmptyBooks(funds), funds)
  {}

  // ---- Failed mandates ----

  ghost predicate MandateHasFailed(b: Books, policyId: string) {
    var m := FindMandate(b.mandates, policyId);
    m.Some? && b.mandates[m.value].status == MandateFailed
  }

  ghost predicate OneMandatePerPolicy(b: Books) {
    && (forall i, j | 0 <= i < j < |b.mandates| :: b.mandates[i].policyId != b.mandates[j].policyId)
    && (forall inv <- b.invoices :: inv.mandateId < |b.mandates| && b.mandates[inv.mandateId].policyId == inv.policyId)
  }

  lemma {:induction false} FindMandateIsTheOne(ms: seq<Mandate>, i: nat)
    requires i < |ms|
    requires forall j, k | 0 <= j < k < |ms| :: ms[j].policyId != ms[k].policyId
    ensures FindMandate(ms, ms[i].policyId) == Some(i)
  {
    if i < |ms| - 1 {
      FindMandateIsTheOne(ms[..|ms| - 1], i);
    }
  }

  lemma ChargeMandates(b: Books, i: nat, outcome: Outcome, at: int)
    requires OneMandatePerPolicy(b) && i < |b.invoices|
    ensures var t := Charge(b, i, outcome, at); var m := b.invoices[i].mandateId;
            && OneMandatePerPolicy(t)
            && |t.mandates| == |b.mandates|
            && forall k | 0 <= k < |b.mandates| ::
                 t.mandates[k].policyId == b.mandates[k].policyId && (k != m ==> t.mandates[k] == b.mandates[k])
  {
    assert b.invoices[i] in b.invoices;
    var t := Charge(b, i, outcome, at);
    if b.invoices[i].status != PAID {
      ChargeTables(b, i, outcome, at);
      forall inv <- t.invoices
        ensures inv.mandateId < |t.mandates| && t.mandates[inv.mandateId].policyId == inv.policyId
      {
        var k :| 0 <= k < |t.invoices| && t.invoices[k] == inv;
        assert b.invoices[k] in b.invoices;
      }
    }
  }

  lemma MandateAndInvoiceKeepOne(b: Books, policy: Policy, now: int, premium: Option<real>)
    requires OneMandatePerPolicy(b)
    ensures var b1 := EnsureMandate(b, policy.id, now); var m := MandateOf(b, policy.id, now);
            && OneMandatePerPolicy(b1)
            && FindMandate(b1.mandates, policy.id) == Some(m)
            && (MandateHasFailed(b, policy.id) ==> b1 == b && b1.mandates[m].status == MandateFailed)
            && var r := EnsureInvoice(b1, policy, m, now, premium);
            r.Some? ==>
              && OneMandatePerPolicy(r.value.0) && r.value.0.mandates == b1.mandates
              && r.value.0.invoices[r.value.1].mandateId == m
  {
    var b1 := EnsureMandate(b, policy.id, now);
    var m := MandateOf(b, policy.id, now);
    FindMandateIsTheOne(b1.mandates, m);
    var r := EnsureInvoice(b1, policy, m, now, premium);
    if r.Some? {
      var inv := r.value.0.invoices[r.value.1];
      assert inv in r.value.0.invoices;
      assert r.value.0 == b1 ==> inv in b1.invoices;
    }
  }

  /** A failed mandate stops its policy: later runs change nothing for it. */
  lemma {:induction false} BillPolicyKeepsFailed(b: Books, policy: Policy, now: int, world: World, p: string)
    requires OneMandatePerPolicy(b)
    ensures var t := BillPolicy(b, policy, now, world).0;
            && OneMandatePerPolicy(t)
            && (MandateHasFailed(b, p) ==> MandateHasFailed(t, p))
            && (MandateHasFailed(b, policy.id) ==> t == b)
  {
    MandateAndInvoiceKeepOne(b, policy, now, world.premium);
    var b1 := EnsureMandate(b, policy.id, now);
    var m := MandateOf(b, policy.id, now);
    var t := BillPolicy(b, policy, now, world).0;
    var r := EnsureInvoice(b1, policy, m, now, world.premium);
    if r.Some? {
      ChargeMandates(r.value.0, r.value.1, world.outcome, world.at);
    }
    if MandateHasFailed(b, p) && p != policy.id {
      var k := FindMandate(b.mandates, p).value;
      assert k != m && b1.mandates[k] == b.mandates[k];
      assert t.mandates[k] == b.mandates[k];
      FindMandateIsTheOne(t.mandates, k);
    }
  }

  lemma {:induction false} BillAllKeepsFailed(b: Books, visits: seq<Visit>, now: int, p: string)
    requires OneMandatePerPolicy(b)
    ensures OneMandatePerPolicy(BillAll(b, visits, now))
    ensures MandateHasFailed(b, p) ==> MandateHasFailed(BillAll(b, visits, now), p)
    decreases |visits|
  {
    if visits != [] {
      BillPolicyKeepsFailed(b, visits[0].policy, now, visits[0].world, p);
      var (c, crashed) := BillPolicy(b, visits[0].policy, now, visits[0].world);
      if !crashed {
        BillAllKeepsFailed(c, visits[1..], now, p);
      }
    }
  }

  /** Once a charge fails its policy is never billed again: in any later history the
      mandate stays FAILED and visiting the policy changes nothing. */
  lemma {:induction false} FailedMandateIsNeverBilledAgain(b: Books, runs: seq<Run>, policy: Policy,
                                                           now: int, world: World)
    requires OneMandatePerPolicy(b) && MandateHasFailed(b, policy.id)
    ensures var t := BillRuns(b, runs);
            MandateHasFailed(t, policy.id) && BillPolicy(t, policy, now, world) == (t, false)
    decreases |runs|
  {
    if runs == [] {
      BillPolicyKeepsFailed(b, policy, now, world, policy.id);
      MandateAndInvoiceKeepOne(b, policy, now, world.premium);
    } else {
      BillAllKeepsFailed(b, runs[0].visits, runs[0].now, policy.id);
      FailedMandateIsNeverBilledAgain(BillAll(b, runs[0].visits, runs[0].now), runs[1..], policy, now, world);
    }
  }
}
