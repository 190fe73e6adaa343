/** The billing service as an object over its tables, each method proved against the
    step functions of RecurringBilling. */
module BillingService {
  import opened Options
  import opened RecurringBilling
  import Pool = LiquidityPool

  class PremiumService {
    var mandates: seq<Mandate>
    var invoices: seq<Invoice>
    var attempts: seq<Attempt>
    var ledger: seq<LedgerEntry>
    const liquidityPool: Pool.LiquidityPoolService
    ghost var debits: multiset<nat>
    ghost var stray: real

    ghost function Rows(): Books
      reads this, liquidityPool
    {
      Books(mandates, invoices, attempts, ledger, liquidityPool.Balances(), debits, stray)
    }

    constructor (pool: Pool.LiquidityPoolService)
      ensures Rows() == EmptyBooks(pool.Balances()) && liquidityPool == pool
    {
      mandates, invoices, attempts, ledger := [], [], [], [];
      debits, stray := multiset{}, 0.0;
      liquidityPool := pool;
    }

    method EnsureBillingMandate(policy: Policy, now: int) returns (id: nat)
      modifies this`mandates
      ensures Rows() == EnsureMandate(old(Rows()), policy.id, now)
      ensures id == MandateOf(old(Rows()), policy.id, now)
      ensures id < |mandates|
    {
      var existing := FindMandate(mandates, policy.id);
      if existing.Some? {
        return existing.value;
      }
      id := |mandates|;
      mandates := mandates + [Mandate(policy.id, MandateActive, now, 0)];
    }

    method EnsureCycleInvoice(policy: Policy, mandateId: nat, now: int, premium: Option<real>)
      returns (id: Option<nat>)
      modifies this`invoices
      ensures var r := EnsureInvoice(old(Rows()), policy, mandateId, now, premium);
              && Rows() == (if r.Some? then r.value.0 else old(Rows()))
              && id == (if r.Some? then Some(r.value.1) else None)
      ensures id.Some? ==> id.value < |invoices|
    {
      var window := ResolveCycleWindow(policy.startDate, now);
      var existing := FindInvoice(invoices, policy.id, window.start);
      if existing.Some? {
        return existing;
      }
      if premium.None? {
        return None;
      }
      id := Some(|invoices|);
      invoices := invoices + [Invoice(policy.id, mandateId, window.start, window.end, premium.value, PENDING)];
    }

    method UpdateMandate(m: nat, status: MandateStatus, nextChargeAt: int)
      modifies this`mandates
      ensures mandates == SetMandate(old(mandates), m, status, nextChargeAt)
    {
      if m < |mandates| {
        var failures := if status == MandateFailed then mandates[m].failureCount + 1 else 0;
        mandates := mandates[m := mandates[m].(status := status, nextChargeAt := nextChargeAt,
                                               failureCount := failures)];
      }
    }

    /** The transaction after a debit, at its commit. */
    method CollectCharge(id: nat, at: int)
      requires id < |invoices| && attempts != []
      modifies this`attempts, this`ledger, this`mandates, this`invoices
      ensures Rows() == Collect(old(Rows()), id, at)
    {
      var attempt := |attempts| - 1;
      attempts := attempts[attempt := attempts[attempt].(status := SUCCEEDED)];
      invoices := invoices[id := invoices[id].(status := PAID)];
      ledger := ledger + [LedgerEntry(id, invoices[id].amountDue, at)];
      UpdateMandate(invoices[id].mandateId, MandateActive, at + CYCLE_MS);
    }

    /** The transaction of the catch block. */
    method RefuseCharge(id: nat, at: int)
      requires id < |invoices| && attempts != []
      modifies this`attempts, this`mandates, this`invoices
      ensures Rows() == Refuse(old(Rows()), id, at)
    {
      var attempt := |attempts| - 1;
      attempts := attempts[attempt := attempts[attempt].(status := REFUSED)];
      invoices := invoices[id := invoices[id].(status := FAILED)];
      UpdateMandate(invoices[id].mandateId, MandateFailed, at + DAY_MS);
    }

    /** The debit request with its retries: a lost answer is retried, any other one ends it. */
    method ExecuteRecurringDebit(id: nat, posts: seq<Post>) returns (accepted: bool)
      modifies this`debits
      ensures accepted <==> Answer(posts, MAX_POSTS) == Some(Accepted)
      ensures debits == old(debits)[id := old(debits)[id] + PostedDebits(posts, MAX_POSTS)]
    {
      accepted := false;
      var attempt := 0;
      assert posts[0..] == posts;
      while attempt < MAX_POSTS && attempt < |posts|
        invariant attempt <= MAX_POSTS && attempt <= |posts|
        invariant Answer(posts, MAX_POSTS) == Answer(posts[attempt..], MAX_POSTS - attempt)
        invariant old(debits)[id] + PostedDebits(posts, MAX_POSTS)
                  == debits[id] + PostedDebits(posts[attempt..], MAX_POSTS - attempt)
        invariant debits == old(debits)[id := debits[id]]
      {
        assert posts[attempt..][1..] == posts[attempt + 1..];
        match posts[attempt] {
          case Accepted =>
            debits := debits[id := debits[id] + 1];
            return true;
          case Declined =>
            return false;
          case Lost(debited) =>
            debits := debits[id := debits[id] + if debited then 1 else 0];
        }
        attempt := attempt + 1;
      }
    }

    /** The gateway's debits, then the injection that the pool commits by itself. */
    method DebitAndInject(id: nat, outcome: Outcome)
      requires id < |invoices|
      modifies this`debits, this`stray, liquidityPool
      ensures Rows() == MoveMoney(old(Rows()), id, outcome)
    {
      if Reaches(outcome, Posted) {
        var accepted := ExecuteRecurringDebit(id, outcome.posts);
      }
      if Injects(outcome) {
        var _, _ := liquidityPool.InjectPremium(invoices[id].amountDue);
        stray := if outcome.Collected? then stray else stray + invoices[id].amountDue;
      }
    }

    method ProcessInvoiceCharge(id: nat, outcome: Outcome, at: int) returns (crashed: bool)
      requires id < |invoices|
      modifies this, liquidityPool
      ensures Rows() == Charge(old(Rows()), id, outcome, at)
      ensures crashed == (old(invoices[id].status) != PAID && Crashes(outcome))
    {
      if invoices[id].status == PAID {
        return false;
      }
      crashed := Crashes(outcome);
      if !Reaches(outcome, AttemptWritten) {
        return;
      }
      attempts := attempts + [Attempt(id, CountAttempts(attempts, id) + 1, STARTED)];
      if !Reaches(outcome, InvoiceMarked) {
        return;
      }
      invoices := invoices[id := invoices[id].(status := PROCESSING)];
      assert Rows() == BeginCharge(old(Rows()), id, outcome);
      DebitAndInject(id, outcome);
      if outcome.Collected? {
        CollectCharge(id, at);
      } else if Refuses(outcome) {
        RefuseCharge(id, at);
      }
    }

    /** One policy of the cron's loop. */
    method BillOne(policy: Policy, now: int, world: World) returns (crashed: bool)
      modifies this, liquidityPool
      ensures BillPolicy(old(Rows()), policy, now, world) == (Rows(), crashed)
      ensures var m := FindMandate(old(mandates), policy.id);
              m.Some? && now < old(mandates)[m.value].nextChargeAt ==> !crashed && Rows() == old(Rows())
    {
      var mandate := EnsureBillingMandate(policy, now);
      if mandates[mandate].status != MandateActive || mandates[mandate].nextChargeAt > now {
        return false;
      }
      var invoice := EnsureCycleInvoice(policy, mandate, now, world.premium);
      if invoice.None? || invoices[invoice.value].status == PAID {
        return false;
      }
      crashed := ProcessInvoiceCharge(invoice.value, world.outcome, world.at);
    }

    method RunRecurringBilling(visits: seq<Visit>, now: int)
      modifies this, liquidityPool
      ensures Rows() == BillAll(old(Rows()), visits, now)
    {
      for i := 0 to |visits|
        invariant BillAll(old(Rows()), visits, now) == BillAll(Rows(), visits[i..], now)
      {
        var crashed := BillOne(visits[i].policy, now, visits[i].world);
        assert visits[i..][1..] == visits[i + 1..];
        if crashed {
          return;
        }
      }
    }
  }
}
