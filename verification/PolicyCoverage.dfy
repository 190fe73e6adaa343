/** Coverage of one driver over enrolments, renewals, cancellations and verified
    purchases: every new policy cuts the running one off first. Times are in ms. */
module PolicyCoverage {
  import opened Options

  datatype Status = ACTIVE | CANCELLED

  /** `planDays` is the weekly plan's duration, None for a manual enrolment. */
  datatype Policy = Policy(startDate: int, endDate: int, status: Status, planDays: Option<int>)

  const DAY_MS: int := 24 * 60 * 60 * 1000

  datatype Action =
    | Enroll(now: int)
    | Cancel(now: int, pick: nat)
    | Renew(now: int, at: int)
    | Purchase(now: int, days: int)

  /** When an action's last write happens; a renewal reads the clock twice. */
  function TimeOf(a: Action): int {
    if a.Renew? then a.at else a.now
  }

  predicate IsCurrent(p: Policy, now: int) {
    p.status == ACTIVE && p.endDate > now
  }

  /** `updateMany`: cut off every ACTIVE policy that ends later. */
  function CutOff(ps: seq<Policy>, now: int): (r: seq<Policy>)
    ensures |r| == |ps|
    ensures forall i | 0 <= i < |r| :: r[i] == if IsCurrent(ps[i], now) then ps[i].(endDate := now) else ps[i]
  {
    seq(|ps|, i requires 0 <= i < |ps| => if IsCurrent(ps[i], now) then ps[i].(endDate := now) else ps[i])
  }

  /** Enrolment starts after a 24-hour lockout and lasts seven days. */
  function EnrollAt(ps: seq<Policy>, now: int): seq<Policy> {
    CutOff(ps, now) + [Policy(now + DAY_MS, now + DAY_MS + 7 * DAY_MS, ACTIVE, None)]
  }

  function BuyAt(ps: seq<Policy>, now: int, days: int): seq<Policy> {
    CutOff(ps, now) + [Policy(now, now + days * DAY_MS, ACTIVE, Some(days))]
  }

  /** Cancels the policy `findFirst` picked, which must be a current one. */
  function CancelAt(ps: seq<Policy>, now: int, pick: nat): seq<Policy> {
    if pick < |ps| && IsCurrent(ps[pick], now)
    then ps[pick := ps[pick].(status := CANCELLED, endDate := now)] else ps
  }

  /** Renews the newest policy unless it is active for more than a day yet. */
  function RenewAt(ps: seq<Policy>, now: int, at: int): seq<Policy> {
    if ps == [] then ps
    else
      var latest := ps[|ps| - 1];
      if latest.status == ACTIVE && latest.endDate > now + DAY_MS then ps
      else if latest.planDays.Some? then BuyAt(ps, at, latest.planDays.value)
      else EnrollAt(ps, at)
  }

  function Step(ps: seq<Policy>, a: Action): seq<Policy> {
    match a
    case Enroll(now) => EnrollAt(ps, now)
    case Cancel(now, pick) => CancelAt(ps, now, pick)
    case Renew(now, at) => RenewAt(ps, now, at)
    case Purchase(now, days) => BuyAt(ps, now, days)
  }

  function PoliciesAfter(actions: seq<Action>): seq<Policy> {
    if actions == [] then [] else Step(PoliciesAfter(actions[..|actions| - 1]), actions[|actions| - 1])
  }

  predicate ClockRuns(actions: seq<Action>) {
    && (forall i, j | 0 <= i < j < |actions| :: TimeOf(actions[i]) <= actions[j].now)
    && (forall i | 0 <= i < |actions| :: actions[i].now <= TimeOf(actions[i]))
  }

  predicate Covers(p: Policy, t: int) {
    p.startDate <= t < p.endDate
  }

  predicate RunsPast(p: Policy, now: int) {
    p.endDate > now
  }

  /** Each policy ends before any later one starts, and only the newest may end later
      than `now`, being ACTIVE then. */
  ghost predicate Sequential(ps: seq<Policy>, now: int) {
    && (forall i, j | 0 <= i < j < |ps| :: ps[i].endDate <= ps[j].startDate)
    && (forall i | 0 <= i < |ps| - 1 :: ps[i].endDate <= now)
    && (forall i | 0 <= i < |ps| && ps[i].status == CANCELLED :: ps[i].endDate <= now)
  }

  lemma NewPolicyKeepsSequential(ps: seq<Policy>, before: int, now: int, p: Policy)
    requires Sequential(ps, before) && before <= now && now <= p.startDate && p.status == ACTIVE
    ensures Sequential(CutOff(ps, now) + [p], now)
  {}

  lemma EnrollKeepsSequential(ps: seq<Policy>, before: int, now: int)
    requires Sequential(ps, before) && before <= now
    ensures Sequential(EnrollAt(ps, now), now)
  {
    NewPolicyKeepsSequential(ps, before, now, Policy(now + DAY_MS, now + DAY_MS + 7 * DAY_MS, ACTIVE, None));
  }

  lemma BuyKeepsSequential(ps: seq<Policy>, before: int, now: int, days: int)
    requires Sequential(ps, before) && before <= now
    ensures Sequential(BuyAt(ps, now, days), now)
  {
    NewPolicyKeepsSequential(ps, before, now, Policy(now, now + days * DAY_MS, ACTIVE, Some(days)));
  }

  lemma CancelKeepsSequential(ps: seq<Policy>, before: int, now: int, pick: nat)
    requires Sequential(ps, before) && before <= now
    ensures Sequential(CancelAt(ps, now, pick), now)
  {}

  lemma RenewKeepsSequential(ps: seq<Policy>, before: int, now: int, at: int)
    requires Sequential(ps, before) && before <= now <= at
    ensures Sequential(RenewAt(ps, now, at), at)
  {
    EnrollKeepsSequential(ps, before, at);
    if ps != [] && ps[|ps| - 1].planDays.Some? {
      BuyKeepsSequential(ps, before, at, ps[|ps| - 1].planDays.value);
    }
  }

  lemma StepKeepsSequential(ps: seq<Policy>, before: int, a: Action)
    requires Sequential(ps, before) && before <= a.now <= TimeOf(a)
    ensures Sequential(Step(ps, a), TimeOf(a))
  {
    match a
    case Enroll(now) => EnrollKeepsSequential(ps, before, now);
    case Purchase(now, days) => BuyKeepsSequential(ps, before, now, days);
    case Renew(now, at) => RenewKeepsSequential(ps, before, now, at);
    case Cancel(now, pick) => CancelKeepsSequential(ps, before, now, pick);
  }

  lemma {:induction false} EveryHistoryIsSequential(actions: seq<Action>)
    requires ClockRuns(actions)
    ensures actions == [] ==> PoliciesAfter(actions) == []
    ensures actions != [] ==> Sequential(PoliciesAfter(actions), TimeOf(actions[|actions| - 1]))
  {
    if actions != [] {
      var front, a := actions[..|actions| - 1], actions[|actions| - 1];
      EveryHistoryIsSequential(front);
      StepKeepsSequential(PoliciesAfter(front), if front == [] then a.now else TimeOf(front[|front| - 1]), a);
    }
  }

  /** Over any history no instant is covered twice, and from the last action on at most one
      policy is still running, so a lookup of the active policy has at most one answer. */
  lemma CoverageIsDisjoint(actions: seq<Action>, i: nat, j: nat)
    requires ClockRuns(actions) && actions != []
    requires i < j < |PoliciesAfter(actions)|
    ensures var ps := PoliciesAfter(actions);
            && (forall t :: !(Covers(ps[i], t) && Covers(ps[j], t)))
            && (forall now | now >= TimeOf(actions[|actions| - 1]) :: !(RunsPast(ps[i], now) && RunsPast(ps[j], now)))
  {
    EveryHistoryIsSequential(actions);
  }

  /** The price of the lockout: from an enrolment on, the driver is covered exactly from 24
      hours to eight days later, whatever ran before. */
  lemma CoverageAfterEnrol(actions: seq<Action>, now: int, t: int)
    requires ClockRuns(actions + [Enroll(now)]) && t >= now
    ensures (exists p <- PoliciesAfter(actions + [Enroll(now)]) :: Covers(p, t))
            <==> now + 86_400_000 <= t < now + 691_200_000
  {
    var all := actions + [Enroll(now)];
    assert all[..|all| - 1] == actions;
    EveryHistoryIsSequential(all);
    var ps := PoliciesAfter(all);
    var last := ps[|ps| - 1];
    assert last == Policy(now + DAY_MS, now + DAY_MS + 7 * DAY_MS, ACTIVE, None);
    assert last in ps;
    forall p <- ps ensures Covers(p, t) ==> p == last {
      var k :| 0 <= k < |ps| && ps[k] == p;
    }
  }

  /** Nothing that ran before covers the time after a cut-off. */
  lemma OnlyNewCovers(ps: seq<Policy>, before: int, now: int, p: Policy, t: int)
    requires Sequential(ps, before) && before <= now <= t
    ensures (exists q <- CutOff(ps, now) + [p] :: Covers(q, t)) <==> Covers(p, t)
  {
    var all := CutOff(ps, now) + [p];
    assert all[|ps|] == p;
    forall q <- all ensures Covers(q, t) ==> q == p {
      var k :| 0 <= k < |all| && all[k] == q;
      assert k < |ps| ==> q.endDate <= now;
    }
  }

  /** A verified purchase covers from now for its number of days, whatever ran before. */
  lemma CoverageAfterPurchase(actions: seq<Action>, now: int, days: int, t: int)
    requires ClockRuns(actions + [Purchase(now, days)]) && t >= now
    ensures (exists p <- PoliciesAfter(actions + [Purchase(now, days)]) :: Covers(p, t))
            <==> t < now + days * 86_400_000
  {
    var all := actions + [Purchase(now, days)];
    assert all[..|all| - 1] == actions;
    PastIsSequential(actions, all[|actions|]);
    OnlyNewCovers(PoliciesAfter(actions), now, now, Policy(now, now + days * 86_400_000, ACTIVE, Some(days)), t);
  }

  lemma PastIsSequential(actions: seq<Action>, a: Action)
    requires ClockRuns(actions + [a])
    ensures Sequential(PoliciesAfter(actions), a.now)
  {
    var all := actions + [a];
    forall i | 0 <= i < |actions| ensures actions[i] == all[i] && TimeOf(all[i]) <= all[|actions|].now {}
    EveryHistoryIsSequential(actions);
  }

  /** A renewal does nothing while the newest policy is active for more than a day yet. Otherwise
      it buys the newest policy's plan again, or enrols again if it had none. */
  lemma RenewalIs(ps: seq<Policy>, now: int, at: int)
    ensures var t := Step(ps, Renew(now, at));
            if ps == [] then t == []
            else
              var last := ps[|ps| - 1];
              if last.status == ACTIVE && last.endDate - now > 86_400_000 then t == ps
              else if last.planDays.Some? then t == Step(ps, Purchase(at, last.planDays.value))
              else t == Step(ps, Enroll(at))
  {}

  lemma AfterSnoc(actions: seq<Action>, a: Action)
    ensures PoliciesAfter(actions + [a]) == Step(PoliciesAfter(actions), a)
  {
    assert (actions + [a])[..|actions|] == actions;
  }

  lemma ClockOf(actions: seq<Action>, now: int, at: int, a: Action)
    requires ClockRuns(actions + [Renew(now, at)]) && a.now == TimeOf(a) == at
    ensures ClockRuns(actions + [a])
  {
    var renewed := actions + [Renew(now, at)];
    assert forall i | 0 <= i < |actions| :: renewed[i] == actions[i] && (actions + [a])[i] == actions[i];
    assert renewed[|actions|] == Renew(now, at);
    assert forall i | 0 <= i < |actions| :: TimeOf(renewed[i]) <= renewed[|actions|].now;
  }

  /** Renewed with no more than a day left, a purchase covers its number of days again, from the
      renewal on. */
  lemma CoverageAfterRenewal(actions: seq<Action>, bought: int, days: int, now: int, at: int, t: int)
    requires ClockRuns(actions + [Purchase(bought, days)] + [Renew(now, at)]) && t >= at
    requires bought + days * 86_400_000 <= now + 86_400_000
    ensures (exists p <- PoliciesAfter(actions + [Purchase(bought, days)] + [Renew(now, at)]) :: Covers(p, t))
            <==> t < at + days * 86_400_000
  {
    var before := actions + [Purchase(bought, days)];
    AfterSnoc(actions, Purchase(bought, days));
    AfterSnoc(before, Renew(now, at));
    AfterSnoc(before, Purchase(at, days));
    RenewalIs(PoliciesAfter(before), now, at);
    ClockOf(before, now, at, Purchase(at, days));
    CoverageAfterPurchase(before, at, days, t);
  }

  /** An enrolment renewed with no more than a day left is an enrolment again, lockout included. */
  lemma CoverageAfterReenrolment(actions: seq<Action>, enrolled: int, now: int, at: int, t: int)
    requires ClockRuns(actions + [Enroll(enrolled)] + [Renew(now, at)]) && t >= at
    requires enrolled + 691_200_000 <= now + 86_400_000
    ensures (exists p <- PoliciesAfter(actions + [Enroll(enrolled)] + [Renew(now, at)]) :: Covers(p, t))
            <==> at + 86_400_000 <= t < at + 691_200_000
  {
    var before := actions + [Enroll(enrolled)];
    AfterSnoc(actions, Enroll(enrolled));
    AfterSnoc(before, Renew(now, at));
    AfterSnoc(before, Enroll(at));
    RenewalIs(PoliciesAfter(before), now, at);
    ClockOf(before, now, at, Enroll(at));
    CoverageAfterEnrol(before, at, t);
  }

  /** After a cancellation that found a current policy the driver is covered no more. */
  lemma CoverageAfterCancel(actions: seq<Action>, now: int, pick: nat, t: int)
    requires ClockRuns(actions + [Cancel(now, pick)]) && t >= now
    requires pick < |PoliciesAfter(actions)| && IsCurrent(PoliciesAfter(actions)[pick], now)
    ensures !exists p <- PoliciesAfter(actions + [Cancel(now, pick)]) :: Covers(p, t)
  {
    var all := actions + [Cancel(now, pick)];
    assert all[..|all| - 1] == actions;
    PastIsSequential(actions, all[|actions|]);
    var ps := PoliciesAfter(actions);
    forall p <- PoliciesAfter(all) ensures !Covers(p, t) {
      var k :| 0 <= k < |ps| && PoliciesAfter(all)[k] == p;
      assert k != pick ==> p == ps[k];
    }
  }

  class InsuranceService {
    var policies: map<string, seq<Policy>>

    constructor ()
      ensures policies == map[]
    {
      policies := map[];
    }

    function Of(driver: string): seq<Policy>
      reads this
    {
      if driver in policies then policies[driver] else []
    }

    method EndActive(driver: string, now: int)
      modifies this
      ensures Of(driver) == CutOff(old(Of(driver)), now)
      ensures forall d | d != driver :: Of(d) == old(Of(d))
    {
      policies := policies[driver := CutOff(Of(driver), now)];
    }

    method EnrollPolicy(driver: string, now: int)
      modifies this
      ensures Of(driver) == Step(old(Of(driver)), Enroll(now))
      ensures forall d | d != driver :: Of(d) == old(Of(d))
    {
      EndActive(driver, now);
      var activeFrom := now + DAY_MS;
      policies := policies[driver := Of(driver) + [Policy(activeFrom, activeFrom + 7 * DAY_MS, ACTIVE, None)]];
    }

    /** The policy part of `verifyPayment`, one transaction. */
    method VerifyPayment(driver: string, now: int, durationDays: int)
      modifies this
      ensures Of(driver) == Step(old(Of(driver)), Purchase(now, durationDays))
      ensures forall d | d != driver :: Of(d) == old(Of(d))
    {
      EndActive(driver, now);
      policies := policies[driver := Of(driver)
                           + [Policy(now, now + durationDays * DAY_MS, ACTIVE, Some(durationDays))]];
    }

    /** Fails, changing nothing, when no policy is current. */
    method CancelPolicy(driver: string, now: int) returns (ok: bool, pick: nat)
      modifies this
      ensures Of(driver) == Step(old(Of(driver)), Cancel(now, pick))
      ensures ok <==> exists i | 0 <= i < |old(Of(driver))| :: IsCurrent(old(Of(driver))[i], now)
      ensures !ok ==> Of(driver) == old(Of(driver))
      ensures ok ==> |Of(driver)| == |old(Of(driver))| && pick < |Of(driver)|
                     && Of(driver)[pick].status == CANCELLED && Of(driver)[pick].endDate == now
      ensures forall d | d != driver :: Of(d) == old(Of(d))
    {
      var ps := Of(driver);
      pick := 0;
      while pick < |ps| && !IsCurrent(ps[pick], now)
        invariant pick <= |ps|
        invariant forall i | 0 <= i < pick :: !IsCurrent(ps[i], now)
      {
        pick := pick + 1;
      }
      ok := pick < |ps|;
      if ok {
        policies := policies[driver := ps[pick := ps[pick].(status := CANCELLED, endDate := now)]];
      }
    }

    method RenewPolicy(driver: string, now: int, at: int) returns (ok: bool)
      requires now <= at
      modifies this
      ensures Of(driver) == Step(old(Of(driver)), Renew(now, at))
      ensures !ok <==> old(Of(driver)) == [] ||
                       (var last := old(Of(driver))[|old(Of(driver))| - 1];
                        last.status == ACTIVE && last.endDate > now + DAY_MS)
      ensures forall d | d != driver :: Of(d) == old(Of(d))
    {
      var ps := Of(driver);
      if ps == [] {
        return false;
      }
      var latest := ps[|ps| - 1];
      if latest.status == ACTIVE && latest.endDate > now + DAY_MS {
        return false;
      }
      if latest.planDays.Some? {
        VerifyPayment(driver, at, latest.planDays.value);
      } else {
        EnrollPolicy(driver, at);
      }
      ok := true;
    }
  }
}
