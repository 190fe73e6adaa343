/** The in-process circuit breaker as a function of its call history. In HALF_OPEN it lets
    every call through until one fails or succeeds, not a single probe. */
module CircuitBreaker {
  import opened Options

  datatype Mode = CLOSED | OPEN | HALF
  datatype Breaker = Breaker(mode: Mode, failures: nat, lastOpenTime: real)
  datatype Call = Allow(at: real) | Success(at: real) | Failure(at: real)

  function Init(): Breaker {
    Breaker(CLOSED, 0, 0.0)
  }

  /** The answer of `allow_request` at a time. */
  predicate Allowed(b: Breaker, at: real, recovery: real) {
    b.mode != OPEN || at - b.lastOpenTime >= recovery
  }

  function Step(b: Breaker, call: Call, threshold: nat, recovery: real): Breaker {
    match call
    case Allow(at) =>
      if b.mode == OPEN && at - b.lastOpenTime >= recovery then b.(mode := HALF) else b
    case Success(_) => b.(mode := CLOSED, failures := 0)
    case Failure(at) =>
      if b.mode == HALF || b.failures + 1 >= threshold then Breaker(OPEN, b.failures + 1, at)
      else b.(failures := b.failures + 1)
  }

  function After(h: seq<Call>, threshold: nat, recovery: real): Breaker {
    if h == [] then Init() else Step(After(h[..|h| - 1], threshold, recovery), h[|h| - 1], threshold, recovery)
  }

  function FailuresSinceSuccess(h: seq<Call>): nat {
    if h == [] || h[|h| - 1].Success? then 0
    else FailuresSinceSuccess(h[..|h| - 1]) + if h[|h| - 1].Failure? then 1 else 0
  }

  function LatestFailure(h: seq<Call>): Option<real> {
    if h == [] then None
    else if h[|h| - 1].Failure? then Some(h[|h| - 1].at)
    else LatestFailure(h[..|h| - 1])
  }

  lemma AfterSnoc(h: seq<Call>, call: Call, threshold: nat, recovery: real)
    ensures After(h + [call], threshold, recovery) == Step(After(h, threshold, recovery), call, threshold, recovery)
  {
    assert (h + [call])[..|h|] == h;
  }

  predicate ClockRuns(h: seq<Call>, now: real) {
    && (forall i | 0 <= i < |h| :: h[i].at <= now)
    && (forall i, j | 0 <= i < j < |h| :: h[i].at <= h[j].at)
  }

  ghost predicate Agrees(b: Breaker, h: seq<Call>, threshold: nat, recovery: real, now: real) {
    && b.failures == FailuresSinceSuccess(h)
    && (b.mode == CLOSED <==> b.failures < threshold)
    && (b.failures > 0 ==> LatestFailure(h).Some?)
    && (b.mode == OPEN ==> LatestFailure(h) == Some(b.lastOpenTime))
    && (b.mode == HALF ==> LatestFailure(h).Some? && now - LatestFailure(h).value >= recovery)
  }

  lemma {:induction false} HistoryAgrees(h: seq<Call>, threshold: nat, recovery: real, now: real)
    requires threshold >= 1 && ClockRuns(h, now)
    ensures Agrees(After(h, threshold, recovery), h, threshold, recovery, now)
  {
    if h != [] {
      var front, last := h[..|h| - 1], h[|h| - 1];
      HistoryAgrees(front, threshold, recovery, last.at);
    }
  }

  /** A request is allowed exactly when fewer than `threshold` failures followed the last
      success, or the latest failure is at least the recovery timeout old. */
  lemma AllowedByHistory(h: seq<Call>, threshold: nat, recovery: real, now: real)
    requires threshold >= 1 && ClockRuns(h, now)
    ensures Allowed(After(h, threshold, recovery), now, recovery)
            <==> FailuresSinceSuccess(h) < threshold
                 || (LatestFailure(h).Some? && now - LatestFailure(h).value >= recovery)
  {
    HistoryAgrees(h, threshold, recovery, now);
  }

  /** Not one probe: once the recovery timeout has let a request through, every request is
      let through, however many came before it, until one of them succeeds or fails. */
  lemma {:induction false} HalfOpenAdmitsAll(h: seq<Call>, at: real, probes: seq<Call>, now: real,
                                             threshold: nat, recovery: real)
    requires After(h, threshold, recovery).mode == OPEN && Allowed(After(h, threshold, recovery), at, recovery)
    requires forall c <- probes :: c.Allow?
    ensures After(h + [Allow(at)] + probes, threshold, recovery).mode == HALF
    ensures Allowed(After(h + [Allow(at)] + probes, threshold, recovery), now, recovery)
  {
    AfterSnoc(h, Allow(at), threshold, recovery);
    if probes == [] {
      assert h + [Allow(at)] + probes == h + [Allow(at)];
    } else {
      var front, last := probes[..|probes| - 1], probes[|probes| - 1];
      HalfOpenAdmitsAll(h, at, front, now, threshold, recovery);
      assert last in probes;
      assert h + [Allow(at)] + probes == h + [Allow(at)] + front + [last];
      AfterSnoc(h + [Allow(at)] + front, last, threshold, recovery);
    }
  }

  class CircuitBreaker {
    const threshold: nat
    const recovery: real
    var mode: Mode
    var failures: nat
    var lastOpenTime: real
    ghost var history: seq<Call>

    function State(): Breaker
      reads this
    {
      Breaker(mode, failures, lastOpenTime)
    }

    ghost predicate Valid()
      reads this
    {
      State() == After(history, threshold, recovery)
    }

    constructor (threshold: nat, recovery: real)
      ensures Valid() && history == []
      ensures this.threshold == threshold && this.recovery == recovery
    {
      this.threshold, this.recovery := threshold, recovery;
      mode, failures, lastOpenTime, history := CLOSED, 0, 0.0, [];
    }

    /** Answers from history alone, by AllowedByHistory. */
    method AllowRequest(now: real) returns (ok: bool)
      requires Valid() && threshold >= 1 && ClockRuns(history, now)
      modifies this
      ensures Valid() && history == old(history) + [Allow(now)]
      ensures ok <==> FailuresSinceSuccess(old(history)) < threshold
                      || (LatestFailure(old(history)).Some?
                          && now - LatestFailure(old(history)).value >= recovery)
    {
      AllowedByHistory(history, threshold, recovery, now);
      AfterSnoc(history, Allow(now), threshold, recovery);
      history := history + [Allow(now)];
      if mode == CLOSED {
        return true;
      }
      if mode == OPEN {
        if now - lastOpenTime >= recovery {
          mode := HALF;
          return true;
        }
        return false;
      }
      return true;
    }

    method RecordSuccess(now: real)
      requires Valid()
      modifies this
      ensures Valid() && history == old(history) + [Success(now)]
      ensures mode == CLOSED && failures == 0
    {
      AfterSnoc(history, Success(now), threshold, recovery);
      history := history + [Success(now)];
      mode, failures := CLOSED, 0;
    }

    method RecordFailure(now: real)
      requires Valid()
      modifies this
      ensures Valid() && history == old(history) + [Failure(now)]
    {
      AfterSnoc(history, Failure(now), threshold, recovery);
      history := history + [Failure(now)];
      failures := failures + 1;
      if mode == HALF {
        mode, lastOpenTime := OPEN, now;
        return;
      }
      if failures >= threshold {
        mode, lastOpenTime := OPEN, now;
      }
    }
  }
}
