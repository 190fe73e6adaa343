/** The adaptive HTTP client: how many requests one call sends, with which timeouts, and how
    long it sleeps in between. */
module AdaptiveClient {
  import opened Options
  import opened Reals

  /** What the upstream does with one request; `predicted` is Apiris' latency forecast. */
  datatype Outcome = Response(status: int, predicted: Option<real>) | TimedOut | OtherError

  /** The APIRIS_ environment settings, unrestricted as in the source. */
  datatype Settings = Settings(retryEnabled: bool, maxRetries: int, retryable: set<int>, predictedLatency: real,
                               baseBackoffMs: int, growth: real, maxTimeout: real)

  function Retries(s: Settings): nat { if s.maxRetries > 0 then s.maxRetries else 0 }

  /** An outcome worth another try while tries are left. */
  predicate Retryable(s: Settings, o: Outcome) {
    s.retryEnabled
    && match o
       case TimedOut => true
       case OtherError => false
       case Response(status, predicted) =>
         status in s.retryable && (status == 429 || (predicted.Some? && predicted.value >= s.predictedLatency))
  }

  /** The attempt whose outcome the caller sees: the first one not worth retrying, or the
      last one allowed. */
  ghost predicate Settles(s: Settings, world: nat -> Outcome, k: nat) {
    && k <= Retries(s)
    && (k == Retries(s) || !Retryable(s, world(k)))
    && forall j: nat | j < k :: Retryable(s, world(j))
  }

  /** A retryable status that is a 429, or comes with a forecast at or above the latency limit. */
  predicate TooSlow(s: Settings, o: Outcome) {
    && o.Response? && o.status in s.retryable
    && (o.status == 429 || (o.predicted.Some? && o.predicted.value >= s.predictedLatency))
  }

  /** How a call ends: every attempt before the last timed out or was too slow; another error, a
      fast or a final answer ends it at once; and so does every first answer without retries. */
  lemma HowItSettles(s: Settings, world: nat -> Outcome, k: nat)
    requires Settles(s, world, k)
    ensures forall j: nat | j < k :: world(j).TimedOut? || TooSlow(s, world(j))
    ensures !s.retryEnabled ==> k == 0
    ensures s.retryEnabled && (world(k).TimedOut? || TooSlow(s, world(k))) ==>
              k == if s.maxRetries > 0 then s.maxRetries else 0
  {
    if k > 0 {
      assert Retryable(s, world(0));
    }
    forall j: nat | j < k ensures world(j).TimedOut? || TooSlow(s, world(j)) {
      assert Retryable(s, world(j));
    }
  }

  /** The caller's timeout, cut to the maximum and then raised to a tenth of a second. */
  function FirstTimeout(s: Settings, timeout: real): (r: real)
    ensures r >= 0.1 && (r == 0.1 || r == timeout || r == s.maxTimeout)
    ensures 0.1 <= timeout <= s.maxTimeout ==> r == timeout
    ensures timeout <= 0.1 ==> r == 0.1
    ensures timeout >= s.maxTimeout >= 0.1 ==> r == s.maxTimeout
  {
    Max(0.1, Min(timeout, s.maxTimeout))
  }

  function Grow(s: Settings, timeout: real): real {
    Min(timeout * s.growth, s.maxTimeout)
  }

  function TimeoutAt(s: Settings, timeout: real, attempt: nat): real {
    if attempt == 0 then FirstTimeout(s, timeout) else Grow(s, TimeoutAt(s, timeout, attempt - 1))
  }

  /** Milliseconds slept before attempt n: one backoff before the first retry, two before the
      second, and so on. */
  function SleptBefore(backoff: int, n: nat): int {
    if n == 0 then 0 else SleptBefore(backoff, n - 1) + backoff * n
  }

  /** k retries sleep backoff * k(k+1)/2 in all. */
  lemma {:induction false} SleepIsTriangular(backoff: int, n: nat)
    ensures 2 * SleptBefore(backoff, n) == backoff * (n * (n + 1))
  {
    if n > 0 {
      SleepIsTriangular(backoff, n - 1);
      assert n * (n + 1) == (n - 1) * n + 2 * n;
      assert backoff * (n * (n + 1)) == backoff * ((n - 1) * n) + backoff * (2 * n);
    }
  }

  /** A timeout grown n times without any cap. */
  function Grown(timeout: real, growth: real, n: nat): real {
    if n == 0 then timeout else Grown(timeout, growth, n - 1) * growth
  }

  /** No request of any call gets more than the maximum timeout exactly when that maximum is
      at least the 0.1 second minimum. */
  lemma {:induction false} TimeoutsCappedIff(s: Settings)
    ensures (forall timeout: real, attempt: nat :: TimeoutAt(s, timeout, attempt) <= s.maxTimeout)
            <==> s.maxTimeout >= 0.1
  {
    if s.maxTimeout < 0.1 {
      assert TimeoutAt(s, 0.0, 0) > s.maxTimeout;
    } else {
      forall timeout: real, attempt: nat
        ensures TimeoutAt(s, timeout, attempt) <= s.maxTimeout
      {
        assert attempt == 0 ==> TimeoutAt(s, timeout, attempt) == FirstTimeout(s, timeout);
      }
    }
  }

  lemma GrowCapped(s: Settings, before: real, x: real, grown: real)
    requires s.growth >= 1.0 && s.maxTimeout > 0.0
    requires before == Min(x, s.maxTimeout) && grown == x * s.growth
    ensures Grow(s, before) == Min(grown, s.maxTimeout)
  {
    ProductIsMonotone(1.0, s.growth, s.maxTimeout);
    if x > s.maxTimeout {
      ProductIsMonotone(s.maxTimeout, x, s.growth);
    }
  }

  lemma GrownUnfolds(timeout: real, growth: real, n: nat)
    ensures Grown(timeout, growth, n + 1) == Grown(timeout, growth, n) * growth
  {}

  lemma TimeoutStep(s: Settings, timeout: real, n: nat)
    requires s.growth >= 1.0 && s.maxTimeout >= 0.1
    requires TimeoutAt(s, timeout, n) == Min(Grown(FirstTimeout(s, timeout), s.growth, n), s.maxTimeout)
    ensures TimeoutAt(s, timeout, n + 1) == Min(Grown(FirstTimeout(s, timeout), s.growth, n + 1), s.maxTimeout)
  {
    var first := FirstTimeout(s, timeout);
    GrownUnfolds(first, s.growth, n);
    GrowCapped(s, TimeoutAt(s, timeout, n), Grown(first, s.growth, n), Grown(first, s.growth, n + 1));
  }

  /** Capping after every growth step is capping once: the timeout of attempt n is the first
      timeout grown n times, cut at the maximum. */
  lemma {:induction false} TimeoutClosedForm(s: Settings, timeout: real, attempt: nat)
    requires s.growth >= 1.0 && s.maxTimeout >= 0.1
    ensures TimeoutAt(s, timeout, attempt) == Min(Grown(FirstTimeout(s, timeout), s.growth, attempt), s.maxTimeout)
  {
    if attempt > 0 {
      TimeoutClosedForm(s, timeout, attempt - 1);
      TimeoutStep(s, timeout, attempt - 1);
    }
  }

  class AdaptiveAsyncClient {
    const settings: Settings
    const timeout: real

    constructor (settings: Settings, timeout: real)
      ensures this.settings == settings && this.timeout == timeout
    {
      this.settings := settings;
      this.timeout := timeout;
    }

    /** `_request_with_policy`: `sent` holds the timeout of every request, `slept` the total
        sleep in milliseconds. The answer is that of the settling attempt, whether returned or
        raised; the raise after the loop is never reached. */
    method RequestWithPolicy(world: nat -> Outcome)
      returns (answer: Outcome, sent: seq<real>, slept: int)
      ensures 1 <= |sent| <= Retries(settings) + 1
      ensures Settles(settings, world, |sent| - 1) && answer == world(|sent| - 1)
      ensures forall j: nat | j < |sent| :: sent[j] == TimeoutAt(settings, timeout, j)
      ensures slept == SleptBefore(settings.baseBackoffMs, |sent| - 1)
    {
      var retries := if settings.maxRetries > 0 then settings.maxRetries else 0;
      var attempt: nat := 0;
      var current := Max(0.1, Min(timeout, settings.maxTimeout));
      answer, sent, slept := TimedOut, [], 0;
      while attempt <= retries
        invariant attempt <= retries == Retries(settings)
        invariant |sent| == attempt && current == TimeoutAt(settings, timeout, attempt)
        invariant forall j: nat | j < attempt :: sent[j] == TimeoutAt(settings, timeout, j)
        invariant forall j: nat | j < attempt :: Retryable(settings, world(j))
        invariant slept == SleptBefore(settings.baseBackoffMs, attempt)
        decreases retries - attempt
      {
        sent := sent + [current];
        answer := world(attempt);
        match answer {
          case Response(status, predicted) =>
            if !settings.retryEnabled || attempt >= retries {
              return;
            }
            if status !in settings.retryable {
              return;
            }
            if status != 429 && (predicted.None? || predicted.value < settings.predictedLatency) {
              return;
            }
          case TimedOut =>
            if !settings.retryEnabled || attempt >= retries {
              return;
            }
          case OtherError =>
            return;
        }
        attempt := attempt + 1;
        current := Grow(settings, current);
        slept := slept + settings.baseBackoffMs * attempt;
      }
      assert false;
    }
  }
}
