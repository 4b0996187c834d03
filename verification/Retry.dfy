/** RetryManager: exponential backoff with a cap, and the retries of one request. */
module Retry {
  import opened Models
  import opened Sums
  import opened ErrorPatterns
  import opened ScanQueues

  datatype RetryConfig = RetryConfig(maxRetries: int, initialBackoff: int, maxBackoff: int, multiplier: real)

  const INT64_MAX := 0x7FFF_FFFF_FFFF_FFFF

  function DefaultRetryConfig(): RetryConfig {
    RetryConfig(3, SECOND, 60 * SECOND, 2.0)
  }

  // ---- Backoff ----

  function Pow(m: real, n: nat): real {
    if n == 0 then 1.0 else Pow(m, n - 1) * m
  }

  /** The value before it is converted to a Duration; float64 is modelled as exact. */
  function Scaled(cfg: RetryConfig, n: int): real {
    cfg.initialBackoff as real * Pow(cfg.multiplier, if n > 1 then n - 1 else 0)
  }

  /** Go truncates toward zero. */
  function Truncate(x: real): int {
    if x >= 0.0 then x.Floor else -((-x).Floor)
  }

  predicate FitsInt64(x: real) {
    -INT64_MAX - 1 <= Truncate(x) <= INT64_MAX
  }

  /** A value that an int64 cannot hold converts to whatever the implementation yields. */
  function ToDuration(x: real, outOfRange: int): int {
    if FitsInt64(x) then Truncate(x) else outOfRange
  }

  function Min(a: int, b: int): int { if a < b then a else b }
  function Max(a: int, b: int): int { if a < b then b else a }

  function Backoff(cfg: RetryConfig, n: int, outOfRange: int): int {
    Min(ToDuration(Scaled(cfg, n), outOfRange), cfg.maxBackoff)
  }

  method CalculateBackoff(cfg: RetryConfig, retryCount: int, outOfRange: int) returns (duration: int)
    ensures duration == Backoff(cfg, retryCount, outOfRange)
  {
    var backoff := cfg.initialBackoff as real;
    var i := 1;
    while i < retryCount
      invariant 1 <= i && (i <= retryCount || i == 1)
      invariant backoff == Scaled(cfg, i)
    {
      assert Scaled(cfg, i + 1) == cfg.initialBackoff as real * (Pow(cfg.multiplier, i - 1) * cfg.multiplier);
      backoff := backoff * cfg.multiplier;
      i := i + 1;
    }
    duration := ToDuration(backoff, outOfRange);
    if duration > cfg.maxBackoff {
      duration := cfg.maxBackoff;
    }
  }

  /** The durations that GetBackoffDurations announces. */
  predicate Announced(cfg: RetryConfig, ds: seq<int>, outOfRange: int) {
    forall i :: 0 <= i < |ds| ==> ds[i] == Backoff(cfg, i + 1, outOfRange)
  }

  /** make panics on a negative length: None. */
  method GetBackoffDurations(cfg: RetryConfig, outOfRange: int) returns (r: Option<seq<int>>)
    ensures r.Some? <==> cfg.maxRetries >= 0
    ensures r.Some? ==> |r.value| == cfg.maxRetries && Announced(cfg, r.value, outOfRange)
  {
    if cfg.maxRetries < 0 {
      return None;
    }
    var durations := new int[cfg.maxRetries];
    for i := 0 to cfg.maxRetries
      invariant forall j :: 0 <= j < i ==> durations[j] == Backoff(cfg, j + 1, outOfRange)
    {
      durations[i] := CalculateBackoff(cfg, i + 1, outOfRange);
    }
    r := Some(durations[..]);
  }

  // ---- What backoff promises ----

  /** A configuration that waits, and never waits less the next time. */
  predicate Growing(cfg: RetryConfig) {
    cfg.initialBackoff >= 0 && cfg.multiplier >= 1.0
  }

  lemma {:induction false} PowMonotone(m: real, a: nat, b: nat)
    requires m >= 1.0 && a <= b
    ensures 1.0 <= Pow(m, a) <= Pow(m, b)
    decreases b
  {
    if a < b {
      PowMonotone(m, a, b - 1);
      Grow(Pow(m, b - 1), m);
    } else if a > 0 {
      PowMonotone(m, a - 1, a - 1);
      Grow(Pow(m, a - 1), m);
    }
  }

  lemma Grow(x: real, m: real)
    requires x >= 0.0 && m >= 1.0
    ensures x <= x * m
  {
    assert x * (m - 1.0) >= 0.0;
  }

  lemma ScaledMonotone(cfg: RetryConfig, a: int, b: int)
    requires Growing(cfg) && a <= b
    ensures 0.0 <= Scaled(cfg, a) <= Scaled(cfg, b)
    ensures Truncate(Scaled(cfg, a)) <= Truncate(Scaled(cfg, b))
  {
    var i, j := if a > 1 then a - 1 else 0, if b > 1 then b - 1 else 0;
    PowMonotone(cfg.multiplier, i, j);
    assert cfg.initialBackoff as real * (Pow(cfg.multiplier, j) - Pow(cfg.multiplier, i)) >= 0.0;
    assert cfg.initialBackoff as real * Pow(cfg.multiplier, i) >= 0.0;
  }

  /** The values before the conversion are a geometric sequence from the initial backoff on. */
  lemma ScaledIsGeometric(cfg: RetryConfig, n: int)
    ensures n <= 1 ==> Scaled(cfg, n) == cfg.initialBackoff as real
    ensures n >= 1 ==> Scaled(cfg, n + 1) == Scaled(cfg, n) * cfg.multiplier
  {
    if n >= 1 {
      assert cfg.initialBackoff as real * (Pow(cfg.multiplier, n - 1) * cfg.multiplier) ==
             (cfg.initialBackoff as real * Pow(cfg.multiplier, n - 1)) * cfg.multiplier;
    }
  }

  /** A value that fits is cut to whole nanoseconds, toward zero, and then to the maximum. */
  lemma BackoffIsCutAndCapped(cfg: RetryConfig, n: int, outOfRange: int)
    ensures var x, d := Scaled(cfg, n), Backoff(cfg, n, outOfRange);
            && d <= cfg.maxBackoff
            && (-9223372036854775809.0 < x < 9223372036854775808.0 <==> FitsInt64(x))
            && (FitsInt64(x) && d < cfg.maxBackoff ==>
                  if x >= 0.0 then 0.0 <= d as real <= x < d as real + 1.0
                  else d as real - 1.0 < x <= d as real <= 0.0)
            && (FitsInt64(x) && d == cfg.maxBackoff && x >= 0.0 ==> d as real <= x)
            && (!FitsInt64(x) && d < cfg.maxBackoff ==> d == outOfRange)
  {
    hide Scaled;
  }

  /** Within int64 the backoffs are the capped powers, they never fall, and from the cap on they stay. */
  lemma BackoffGrowsToTheCap(cfg: RetryConfig, a: int, b: int, outOfRange: int)
    requires Growing(cfg) && a <= b && FitsInt64(Scaled(cfg, b))
    ensures Backoff(cfg, b, outOfRange) == Min(Scaled(cfg, b).Floor, cfg.maxBackoff)
    ensures Backoff(cfg, a, outOfRange) <= Backoff(cfg, b, outOfRange)
    ensures Backoff(cfg, a, outOfRange) == cfg.maxBackoff ==> Backoff(cfg, b, outOfRange) == cfg.maxBackoff
  {
    ScaledMonotone(cfg, a, b);
  }

  /** The cap comes after the conversion.  So the result is the capped power, whatever the conversion of an
      unrepresentable value yields, if and only if the value fits: otherwise it may come out negative. */
  lemma CappedIffFits(cfg: RetryConfig, n: int)
    requires Growing(cfg) && 0 <= cfg.maxBackoff <= INT64_MAX
    ensures FitsInt64(Scaled(cfg, n)) <==>
            forall other {:trigger Backoff(cfg, n, other)} | -INT64_MAX - 1 <= other <= INT64_MAX ::
              Backoff(cfg, n, other) == Min(Truncate(Scaled(cfg, n)), cfg.maxBackoff)
  {
    ScaledMonotone(cfg, n, n);
    if !FitsInt64(Scaled(cfg, n)) {
      assert Backoff(cfg, n, -INT64_MAX - 1) == -INT64_MAX - 1;
    }
  }

  lemma {:induction false} PowAdds(m: real, a: nat, b: nat)
    ensures Pow(m, a + b) == Pow(m, a) * Pow(m, b)
  {
    if b > 0 {
      PowAdds(m, a, b - 1);
      assert Pow(m, a) * (Pow(m, b - 1) * m) == (Pow(m, a) * Pow(m, b - 1)) * m;
    }
  }

  lemma PowersOfTwo()
    ensures Pow(2.0, 33) == 8589934592.0 && Pow(2.0, 34) == 17179869184.0
  {
    assert Pow(2.0, 1) == 1.0 * 2.0;
    PowAdds(2.0, 1, 1);
    PowAdds(2.0, 2, 2);
    PowAdds(2.0, 4, 4);
    PowAdds(2.0, 8, 8);
    PowAdds(2.0, 16, 16);
    PowAdds(2.0, 32, 1);
    PowAdds(2.0, 33, 1);
  }

  /** With the default configuration the value fits int64 up to the 34th retry and never after. */
  lemma DefaultFitsUpTo34(n: int)
    ensures FitsInt64(Scaled(DefaultRetryConfig(), n)) <==> n <= 34
  {
    var cfg := DefaultRetryConfig();
    PowersOfTwo();
    if n <= 34 {
      ScaledMonotone(cfg, n, 34);
      assert Scaled(cfg, 34) == 8589934592000000000.0;
      assert Truncate(8589934592000000000.0) == 8589934592000000000;
    } else {
      ScaledMonotone(cfg, 35, n);
      assert Scaled(cfg, 35) == 17179869184000000000.0;
      assert Truncate(17179869184000000000.0) == 17179869184000000000;
    }
  }

  /** With the default configuration: three retries, after one, two and four seconds; further ones would
      double up to a minute. */
  lemma DefaultBackoffs(outOfRange: int)
    ensures DefaultRetryConfig().maxRetries == 3
    ensures Backoff(DefaultRetryConfig(), 1, outOfRange) == 1_000_000_000
    ensures Backoff(DefaultRetryConfig(), 2, outOfRange) == 2_000_000_000
    ensures Backoff(DefaultRetryConfig(), 3, outOfRange) == 4_000_000_000
    ensures forall n :: 7 <= n <= 34 ==> Backoff(DefaultRetryConfig(), n, outOfRange) == 60_000_000_000
  {
    var cfg := DefaultRetryConfig();
    ScaledIsGeometric(cfg, 1);
    ScaledIsGeometric(cfg, 2);
    ScaledIsGeometric(cfg, 3);
    ScaledIsGeometric(cfg, 4);
    ScaledIsGeometric(cfg, 5);
    ScaledIsGeometric(cfg, 6);
    assert Scaled(cfg, 7) == 64_000_000_000.0;
    forall n | 7 <= n <= 34 ensures Backoff(cfg, n, outOfRange) == 60_000_000_000 {
      ScaledMonotone(cfg, 7, n);
      DefaultFitsUpTo34(n);
    }
  }

  function Identity(x: int): int { x }

  lemma {:induction false} DurationsBounded(cfg: RetryConfig, ds: seq<int>, outOfRange: int)
    requires Announced(cfg, ds, outOfRange)
    ensures Sum(ds, Identity) <= |ds| * cfg.maxBackoff
  {
    hide ToDuration, Scaled;
    if ds != [] {
      var init := ds[..|ds| - 1];
      DurationsBounded(cfg, init, outOfRange);
      assert |ds| * cfg.maxBackoff == |init| * cfg.maxBackoff + cfg.maxBackoff;
    }
  }

  /** The announced durations are sorted and sum to at most MaxRetries times the cap. */
  lemma DurationsSortedAndBounded(cfg: RetryConfig, ds: seq<int>, outOfRange: int)
    requires Growing(cfg) && FitsInt64(Scaled(cfg, |ds|)) && Announced(cfg, ds, outOfRange)
    ensures forall i, j :: 0 <= i <= j < |ds| ==> ds[i] <= ds[j]
    ensures Sum(ds, Identity) <= |ds| * cfg.maxBackoff
  {
    hide Backoff, Scaled, Sum;
    forall i, j | 0 <= i <= j < |ds| ensures ds[i] <= ds[j] {
      ScaledMonotone(cfg, j + 1, |ds|);
      BackoffGrowsToTheCap(cfg, i + 1, j + 1, outOfRange);
    }
    DurationsBounded(cfg, ds, outOfRange);
  }

  // ---- The manager ----

  /** The request as the pipeline holds it: a pointer whose retry counter is updated in place. */
  class TrackedRequest {
    const request: ScanRequest
    var retryCount: int

    constructor (request: ScanRequest)
      ensures this.request == request && retryCount == request.retryCount
    {
      this.request, this.retryCount := request, request.retryCount;
    }

    function Value(): ScanRequest
      reads this
    {
      request.(retryCount := retryCount)
    }
  }

  /** How one attempt goes: the handler's error, and whether the queue takes the request back after the wait. */
  datatype Attempt = Attempt(err: Option<string>, queued: bool)

  datatype Ending = HandledWithoutError | GivenUp | Dropped

  class RetryManager {
    const config: RetryConfig
    const queue: ScanQueue
    const outOfRange: int
    var slept: int

    constructor (config: RetryConfig, queue: ScanQueue, outOfRange: int)
      ensures this.config == config && this.queue == queue && this.outOfRange == outOfRange && slept == 0
    {
      this.config, this.queue, this.outOfRange, slept := config, queue, outOfRange, 0;
    }

    /** None is a panic: a nil error is not retriable, and its message is then logged. */
    method ShouldRetry(req: TrackedRequest, err: Option<string>) returns (retry: Option<bool>)
      ensures retry.None? <==> req.retryCount < config.maxRetries && err.None?
      ensures retry == Some(true) <==> req.retryCount < config.maxRetries && err.Some? && Retriable(err.value)
    {
      if req.retryCount >= config.maxRetries {
        return Some(false);
      }
      var retriable := IsRetriableError(err);
      if !retriable && err.None? {
        return None;
      }
      retry := Some(retriable);
    }

    /** A negative duration does not sleep. */
    method CountAndSleep(req: TrackedRequest)
      modifies req, this`slept
      ensures req.retryCount == old(req.retryCount) + 1
      ensures slept == old(slept) + Max(0, Backoff(config, req.retryCount, outOfRange))
    {
      req.retryCount := req.retryCount + 1;
      var backoff := CalculateBackoff(config, req.retryCount, outOfRange);
      slept := slept + (if backoff > 0 then backoff else 0);
    }

    /** The counter is raised and the wait is over before the queue can refuse.  A nil error panics (None)
        when it is logged, after the count and before the wait. */
    method ScheduleRetry(req: TrackedRequest, err: Option<string>, ctxDone: bool, pickCtx: bool)
      returns (r: Option<EnqueueResult>)
      requires queue.Valid()
      modifies req, this`slept, queue`channel, queue`depth
      ensures queue.Valid()
      ensures req.retryCount == old(req.retryCount) + 1
      ensures slept == old(slept) + (if err.None? then 0 else Max(0, Backoff(config, req.retryCount, outOfRange)))
      ensures r == if err.None? then None else Some(EnqueueOutcome(old(queue.View()), ctxDone, pickCtx))
      ensures queue.channel == if r == Some(Enqueued) then old(queue.channel) + [req.Value()] else old(queue.channel)
      ensures err.Some? && !queue.closed && old(|queue.channel|) < queue.capacity ==>
                (r == Some(Enqueued) <==> !(ctxDone && pickCtx))
      ensures r == Some(EnqueueFull) ==> !queue.closed && old(|queue.channel|) == queue.capacity
      ensures r == Some(EnqueueClosed) <==> err.Some? && queue.closed
      ensures r == Some(EnqueueCancelled) ==> ctxDone
    {
      if err.None? {
        req.retryCount := req.retryCount + 1;
        return None;
      }
      CountAndSleep(req);
      var outcome := queue.Enqueue(req.Value(), ctxDone, pickCtx);
      r := Some(outcome);
    }

    /** One request from its first attempt to its end: attempt, ask ShouldRetry, wait, put it back.  The
        script says how each attempt goes and whether the queue takes the request back.  MaxRetries bounds
        the attempts and the counter whatever the script. */
    method Drive(req: TrackedRequest, script: seq<Attempt>) returns (attempts: nat, end: Ending)
      requires |script| > Max(0, config.maxRetries - req.retryCount)
      modifies req, this`slept
      ensures attempts == 1 + Retries(config, old(req.retryCount), script)
      ensures attempts <= 1 + Max(0, config.maxRetries - old(req.retryCount))
      ensures req.retryCount == FinalCount(config, old(req.retryCount), script)
      ensures req.retryCount <= Max(old(req.retryCount), config.maxRetries)
      ensures slept == old(slept) + SleepSum(config, outOfRange, old(req.retryCount), req.retryCount)
      ensures end == EndingOf(config, old(req.retryCount), script)
      ensures attempts <= |script|
      ensures forall i :: 0 <= i < attempts - 1 ==>
                && script[i].err.Some? && Retriable(script[i].err.value) && script[i].queued
                && old(req.retryCount) + i < config.maxRetries
      ensures var last, left := script[attempts - 1], old(req.retryCount) + attempts - 1 < config.maxRetries;
              && (end == HandledWithoutError <==> last.err.None?)
              && (end == Dropped <==> last.err.Some? && left && Retriable(last.err.value) && !last.queued)
              && (end == GivenUp <==> last.err.Some? && (!left || !Retriable(last.err.value)))
    {
      hide Retriable, Backoff;
      RetriesFit(config, req.retryCount, script);
      attempts := 1;
      while true
        invariant 1 <= attempts <= |script|
        invariant req.retryCount == old(req.retryCount) + attempts - 1
        invariant attempts > 1 ==> req.retryCount <= config.maxRetries
        invariant slept == old(slept) + SleepSum(config, outOfRange, old(req.retryCount), req.retryCount)
        invariant Retries(config, old(req.retryCount), script) ==
                  attempts - 1 + Retries(config, req.retryCount, script[attempts - 1..])
        invariant forall i :: 0 <= i < attempts - 1 ==>
                    && script[i].err.Some? && Retriable(script[i].err.value) && script[i].queued
                    && old(req.retryCount) + i < config.maxRetries
        invariant EndingOf(config, old(req.retryCount), script) ==
                  EndingOf(config, req.retryCount, script[attempts - 1..])
        decreases config.maxRetries - req.retryCount
      {
        var attempt := script[attempts - 1];
        if attempt.err.None? {
          return attempts, HandledWithoutError;
        }
        var retry := ShouldRetry(req, attempt.err);
        if retry != Some(true) {
          return attempts, GivenUp;
        }
        CountAndSleep(req);
        if !attempt.queued {
          return attempts, Dropped;
        }
        assert script[attempts - 1..][1..] == script[attempts..];
        attempts := attempts + 1;
      }
    }
  }

  /** Whether a retry follows an attempt, and whether the queue takes it. */
  ghost predicate AsksRetry(a: Attempt) {
    a.err.Some? && Retriable(a.err.value)
  }

  /** How many of the leading attempts are followed by another one: at most the retries that are left. */
  ghost function Retries(cfg: RetryConfig, count: int, script: seq<Attempt>): nat
    decreases |script|
  {
    if script == [] || count >= cfg.maxRetries || !AsksRetry(script[0]) || !script[0].queued then 0
    else 1 + Retries(cfg, count + 1, script[1..])
  }

  ghost function EndingOf(cfg: RetryConfig, count: int, script: seq<Attempt>): Ending
    decreases |script|
  {
    if script == [] then GivenUp
    else if script[0].err.None? then HandledWithoutError
    else if count >= cfg.maxRetries || !AsksRetry(script[0]) then GivenUp
    else if !script[0].queued then Dropped
    else EndingOf(cfg, count + 1, script[1..])
  }

  /** The counter also counts a retry that the queue refused. */
  ghost function FinalCount(cfg: RetryConfig, count: int, script: seq<Attempt>): int {
    count + Retries(cfg, count, script) + (if EndingOf(cfg, count, script).Dropped? then 1 else 0)
  }

  /** The time slept while the counter goes from one value to another. */
  function SleepSum(cfg: RetryConfig, outOfRange: int, from: int, to: int): int
    decreases to - from
  {
    if to <= from then 0 else SleepSum(cfg, outOfRange, from, to - 1) + Max(0, Backoff(cfg, to, outOfRange))
  }

  /** How many leading attempts ask for a retry that the queue takes, and nothing more. */
  ghost predicate LeadingRetried(script: seq<Attempt>, k: nat) {
    && k <= |script|
    && (forall i :: 0 <= i < k ==> AsksRetry(script[i]) && script[i].queued)
    && (k < |script| ==> !AsksRetry(script[k]) || !script[k].queued)
  }

  /** Whatever errors occur, the retries are the leading run that is retriable and taken back, cut off at
      what is left of MaxRetries. */
  lemma {:induction false} RetriesAreTheLeadingRun(cfg: RetryConfig, count: int, script: seq<Attempt>, k: nat)
    requires LeadingRetried(script, k)
    ensures Retries(cfg, count, script) == Min(k, Max(0, cfg.maxRetries - count))
    decreases |script|
  {
    if k > 0 && count < cfg.maxRetries {
      RetriesAreTheLeadingRun(cfg, count + 1, script[1..], k - 1);
    }
  }

  /** Every script has such a leading run. */
  lemma {:induction false} LeadingRetriedExists(script: seq<Attempt>) returns (k: nat)
    ensures LeadingRetried(script, k)
  {
    if script == [] || !AsksRetry(script[0]) || !script[0].queued {
      k := 0;
    } else {
      k := LeadingRetriedExists(script[1..]);
      k := k + 1;
      assert forall i :: 1 <= i < |script| ==> script[i] == script[1..][i - 1];
    }
  }

  /** Neither the retries nor the counter go past MaxRetries, whatever the script. */
  lemma {:induction false} RetriesFit(cfg: RetryConfig, count: int, script: seq<Attempt>)
    ensures Retries(cfg, count, script) <= Max(0, cfg.maxRetries - count)
    ensures EndingOf(cfg, count, script).Dropped? ==> Retries(cfg, count, script) < cfg.maxRetries - count
    decreases |script|
  {
    if script != [] && count < cfg.maxRetries {
      RetriesFit(cfg, count + 1, script[1..]);
    }
  }

  /** A negative duration is not slept. */
  function Slept(duration: int): int { Max(0, duration) }

  lemma {:induction false} SleepIsAPrefixSum(cfg: RetryConfig, outOfRange: int, ds: seq<int>, k: nat)
    requires k <= |ds| && Announced(cfg, ds, outOfRange)
    ensures SleepSum(cfg, outOfRange, 0, k) == Sum(ds[..k], Slept)
    ensures (forall i :: 0 <= i < k ==> ds[i] >= 0) ==> Sum(ds[..k], Slept) == Sum(ds[..k], Identity)
  {
    hide Backoff;
    if k > 0 {
      SleepIsAPrefixSum(cfg, outOfRange, ds, k - 1);
      assert ds[..k][..k - 1] == ds[..k - 1];
    }
  }

  /** What becomes of a fresh request, in the terms of Drive: whatever errors occur, at most MaxRetries + 1
      attempts and a counter of at most MaxRetries, and the time slept is the sum of the announced durations
      up to that counter. */
  lemma FreshRequest(cfg: RetryConfig, outOfRange: int, ds: seq<int>, script: seq<Attempt>)
    requires cfg.maxRetries >= 0 && |ds| == cfg.maxRetries && Announced(cfg, ds, outOfRange)
    ensures 1 + Retries(cfg, 0, script) <= cfg.maxRetries + 1
    ensures 0 <= FinalCount(cfg, 0, script) <= cfg.maxRetries
    ensures SleepSum(cfg, outOfRange, 0, FinalCount(cfg, 0, script)) == Sum(ds[..FinalCount(cfg, 0, script)], Slept)
    ensures (forall i :: 0 <= i < |ds| ==> ds[i] >= 0) ==>
              SleepSum(cfg, outOfRange, 0, FinalCount(cfg, 0, script)) ==
              Sum(ds[..FinalCount(cfg, 0, script)], Identity)
  {
    RetriesFit(cfg, 0, script);
    SleepIsAPrefixSum(cfg, outOfRange, ds, FinalCount(cfg, 0, script));
  }
}
