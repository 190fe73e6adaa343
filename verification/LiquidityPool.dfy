/** The stratified liquidity pool: every premium is split over three funds, and a
    payout drains the risk pool before it may touch the contingency reserve.
    Amounts are exact rupees (`real`); the three fund rows are taken to exist. */
module LiquidityPool {

  datatype Funds = Funds(pool: real, reserve: real, operating: real) {
    ghost predicate NonNegative() {
      pool >= 0.0 && reserve >= 0.0 && operating >= 0.0
    }

    function Total(): real {
      pool + reserve + operating
    }
  }

  const RISK_POOL_WEIGHT: real := 0.80
  const CONTINGENCY_WEIGHT: real := 0.15
  const OPERATING_WEIGHT: real := 0.05

  datatype Origin = Core | Mixed
  datatype Withdrawal = Withdrawn(origin: Origin, funds: Funds) | Insolvent

  function Inject(f: Funds, amount: real): Funds {
    Funds(f.pool + amount * RISK_POOL_WEIGHT,
          f.reserve + amount * CONTINGENCY_WEIGHT,
          f.operating + amount * OPERATING_WEIGHT)
  }

  /** A withdrawal succeeds exactly when pool and reserve together cover it, takes
      exactly the amount, never draws on the operating fund, and touches the
      reserve only when it leaves the risk pool empty. */
  function Withdraw(f: Funds, amount: real): (r: Withdrawal)
    ensures f.NonNegative() ==> (r.Withdrawn? <==> amount <= f.pool + f.reserve)
    ensures f.NonNegative() && amount >= 0.0 && r.Withdrawn? ==>
              && r.funds.NonNegative()
              && r.funds.Total() == f.Total() - amount
              && r.funds.operating == f.operating
              && (r.funds.reserve == f.reserve || (r.funds.reserve < f.reserve && r.funds.pool == 0.0))
              && (r.origin == Mixed <==> r.funds.reserve < f.reserve)
  {
    if f.pool < amount then
      if f.pool + f.reserve < amount then Insolvent
      else Withdrawn(Mixed, f.(pool := 0.0, reserve := f.reserve - (amount - f.pool)))
    else Withdrawn(Core, f.(pool := f.pool - amount))
  }

  datatype Event = Injection(amount: real) | Payout(amount: real)

  /** One pool event; an insolvent withdrawal throws and its transaction changes nothing. */
  function Apply(f: Funds, e: Event): Funds {
    match e
    case Injection(amount) => Inject(f, amount)
    case Payout(amount) =>
      match Withdraw(f, amount)
      case Withdrawn(_, g) => g
      case Insolvent => f
  }

  function Run(f: Funds, events: seq<Event>): Funds
    decreases |events|
  {
    if events == [] then f else Run(Apply(f, events[0]), events[1..])
  }

  function InjectedBy(events: seq<Event>): real {
    if events == [] then 0.0
    else (if events[0].Injection? then events[0].amount else 0.0) + InjectedBy(events[1..])
  }

  /** What the withdrawals of a run really paid, starting from `f`. */
  function PaidBy(f: Funds, events: seq<Event>): real
    decreases |events|
  {
    if events == [] then 0.0
    else
      (if events[0].Payout? && Withdraw(f, events[0].amount).Withdrawn? then events[0].amount else 0.0)
      + PaidBy(Apply(f, events[0]), events[1..])
  }

  /** Solvency and conservation over any run of injections and withdrawals. */
  lemma {:induction false} PoolConserved(f: Funds, events: seq<Event>)
    requires f.NonNegative()
    requires forall e <- events :: e.amount >= 0.0
    ensures Run(f, events).NonNegative()
    ensures Run(f, events).Total() == f.Total() + InjectedBy(events) - PaidBy(f, events)
    ensures Run(f, events).operating == f.operating + OPERATING_WEIGHT * InjectedBy(events)
    ensures PaidBy(f, events) <= f.pool + f.reserve + (1.0 - OPERATING_WEIGHT) * InjectedBy(events)
    decreases |events|
  {
    if events == [] {
    } else {
      assert events[0] in events;
      forall e <- events[1..] ensures e.amount >= 0.0 { assert e in events; }
      PoolConserved(Apply(f, events[0]), events[1..]);
    }
  }

  /** Of every injected rupee 80 paise go to the risk pool, 15 to the reserve and 5 to the
      operating fund. */
  lemma InjectionSplit(f: Funds, amount: real)
    ensures var t := Inject(f, amount);
            && t.Total() == f.Total() + amount
            && t.pool - f.pool == 16.0 * (t.operating - f.operating)
            && t.reserve - f.reserve == 3.0 * (t.operating - f.operating)
  {}

  /** A withdrawal that succeeds takes the amount from pool and reserve together. */
  lemma WithdrawalTakes(f: Funds, amount: real)
    ensures var r := Withdraw(f, amount);
            r.Withdrawn? ==>
              && f.pool + f.reserve - (r.funds.pool + r.funds.reserve) == amount
              && r.funds.operating == f.operating
  {}

  /** Where the money of a run is. The reserve never exceeds its start plus 15% of what was
      injected; what pool and reserve together are short of their start plus 95% is what
      was paid; and while nothing is paid the pool holds its start plus 80%. */
  lemma {:induction false} RunSplits(f: Funds, events: seq<Event>)
    requires f.NonNegative()
    requires forall e <- events :: e.amount >= 0.0
    ensures var t := Run(f, events); var injected := InjectedBy(events);
            && injected >= 0.0
            && t.reserve <= f.reserve + 0.15 * injected
            && t.pool <= f.pool + 0.8 * injected
            && t.operating == f.operating + 0.05 * injected
            && t.pool + t.reserve + PaidBy(f, events) == f.pool + f.reserve + 0.95 * injected
            && (PaidBy(f, events) == 0.0 ==>
                  t.pool == f.pool + 0.8 * injected && t.reserve == f.reserve + 0.15 * injected)
    decreases |events|
  {
    if events != [] {
      assert events[0] in events;
      forall e <- events[1..] ensures e.amount >= 0.0 { assert e in events; }
      RunSplits(Apply(f, events[0]), events[1..]);
      PaidIsNonNegative(Apply(f, events[0]), events[1..]);
    }
  }

  lemma {:induction false} PaidIsNonNegative(f: Funds, events: seq<Event>)
    requires forall e <- events :: e.amount >= 0.0
    ensures PaidBy(f, events) >= 0.0
    decreases |events|
  {
    if events != [] {
      assert events[0] in events;
      forall e <- events[1..] ensures e.amount >= 0.0 { assert e in events; }
      PaidIsNonNegative(Apply(f, events[0]), events[1..]);
    }
  }

  /** The service object over the three `system_settings` rows. */
  class LiquidityPoolService {
    var pool: real
    var reserve: real
    var operating: real

    function Balances(): Funds
      reads this
    {
      Funds(pool, reserve, operating)
    }

    constructor (initial: Funds)
      ensures Balances() == initial
    {
      pool, reserve, operating := initial.pool, initial.reserve, initial.operating;
    }

    method InjectPremium(amountRupees: real) returns (newPool: real, newReserve: real)
      modifies this
      ensures Balances() == Inject(old(Balances()), amountRupees)
      ensures pool == old(pool) + 0.8 * amountRupees
      ensures reserve == old(reserve) + 0.15 * amountRupees
      ensures operating == old(operating) + 0.05 * amountRupees
      ensures newPool == pool && newReserve == reserve
    {
      pool := pool + amountRupees * RISK_POOL_WEIGHT;
      reserve := reserve + amountRupees * CONTINGENCY_WEIGHT;
      operating := operating + amountRupees * OPERATING_WEIGHT;
      newPool, newReserve := pool, reserve;
    }

    method WithdrawPayout(amountRupees: real) returns (r: Withdrawal)
      modifies this
      ensures r == Withdraw(old(Balances()), amountRupees)
      ensures Balances() == Apply(old(Balances()), Payout(amountRupees))
      ensures r.Insolvent? <==> old(pool) < amountRupees && old(pool) + old(reserve) < amountRupees
      ensures r.Insolvent? ==> pool == old(pool) && reserve == old(reserve)
      ensures r.Withdrawn? && amountRupees <= old(pool) ==>
                pool == old(pool) - amountRupees && reserve == old(reserve)
      ensures r.Withdrawn? && amountRupees > old(pool) ==>
                pool == 0.0 && reserve == old(reserve) - (amountRupees - old(pool))
      ensures operating == old(operating)
    {
      if pool < amountRupees {
        if pool + reserve < amountRupees {
          return Insolvent;
        }
        var diff := amountRupees - pool;
        pool := 0.0;
        reserve := reserve - diff;
        return Withdrawn(Mixed, Balances());
      }
      pool := pool - amountRupees;
      return Withdrawn(Core, Balances());
    }
  }
}
