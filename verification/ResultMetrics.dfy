/** ResultProcessor: running metrics and the cache of successful results. */
module ResultMetrics {
  import opened Models

  datatype Metrics = Metrics(total: nat, successful: nat, failed: nat, timeout: nat,
                             avg: real, min: real, max: real)

  datatype CachedResult = CachedResult(result: ScanResult, cachedAt: int, expiresAt: int)

  /** Duration.Seconds, which the metrics are kept in. */
  function Seconds(r: ScanResult): (seconds: real)
    ensures seconds * 1_000_000_000.0 == r.duration as real
  {
    r.duration as real / SECOND as real
  }

  // ---- What the metrics mean, in terms of the results so far ----

  function RealSum(rs: seq<ScanResult>): real {
    if rs == [] then 0.0 else RealSum(rs[..|rs| - 1]) + Seconds(rs[|rs| - 1])
  }

  function CountOf(rs: seq<ScanResult>, status: ScanStatus): nat {
    if rs == [] then 0 else CountOf(rs[..|rs| - 1], status) + (if rs[|rs| - 1].status == status then 1 else 0)
  }

  /** The minimum as it is kept: zero means unset, so a zero on record gives way to whatever comes next. */
  function KeptMin(rs: seq<ScanResult>): real {
    if rs == [] then 0.0
    else
      var kept, d := KeptMin(rs[..|rs| - 1]), Seconds(rs[|rs| - 1]);
      if kept == 0.0 || d < kept then d else kept
  }

  predicate IsMin(m: real, rs: seq<ScanResult>) {
    && (forall i :: 0 <= i < |rs| ==> m <= Seconds(rs[i]))
    && exists i :: 0 <= i < |rs| && Seconds(rs[i]) == m
  }

  predicate IsMax(m: real, rs: seq<ScanResult>) {
    && (forall i :: 0 <= i < |rs| ==> Seconds(rs[i]) <= m)
    && exists i :: 0 <= i < |rs| && Seconds(rs[i]) == m
  }

  predicate NonNegative(rs: seq<ScanResult>) {
    forall i :: 0 <= i < |rs| ==> Seconds(rs[i]) >= 0.0
  }

  predicate IsMean(avg: real, rs: seq<ScanResult>) {
    avg * |rs| as real == RealSum(rs)
  }

  /** The metrics are a summary of the results so far. */
  ghost predicate Summarises(m: Metrics, rs: seq<ScanResult>) {
    && m.total == |rs|
    && m.successful == CountOf(rs, Success) && m.failed == CountOf(rs, Failed) && m.timeout == CountOf(rs, Timeout)
    && IsMean(m.avg, rs)
    && m.min == KeptMin(rs)
    && (if rs == [] then m.max == 0.0 else NonNegative(rs) ==> IsMax(m.max, rs))
  }

  class ResultProcessor {
    var cache: map<string, CachedResult>
    const cacheTTL: int
    var metrics: Metrics
    ghost var history: seq<ScanResult>

    ghost predicate Valid()
      reads this
    {
      Summarises(metrics, history)
    }

    constructor (cacheTTL: int)
      ensures Valid() && history == [] && cache == map[] && this.cacheTTL == cacheTTL
    {
      this.cacheTTL := cacheTTL;
      cache, history := map[], [];
      metrics := Metrics(0, 0, 0, 0, 0.0, 0.0, 0.0);
    }

    method UpdateMetrics(result: ScanResult)
      requires Valid()
      modifies this`metrics, this`history
      ensures Valid() && history == old(history) + [result]
    {
      hide Seconds, NextMean, MeanStep, Summarises;
      var m := metrics;
      m := m.(total := m.total + 1);
      match result.status {
        case Success => m := m.(successful := m.successful + 1);
        case Failed => m := m.(failed := m.failed + 1);
        case Timeout => m := m.(timeout := m.timeout + 1);
        case _ =>
      }
      var duration := Seconds(result);
      if duration > m.max {
        m := m.(max := duration);
      }
      if m.min == 0.0 || duration < m.min {
        m := m.(min := duration);
      }
      AvgStep(m.avg, m.total, duration);
      m := m.(avg := NextMean(m.avg, m.total, duration));
      SummaryStep(metrics, m, history, result);
      metrics := m;
      history := history + [result];
    }

    method CacheResult(result: ScanResult, cachedAt: int, now: int)
      modifies this`cache
      ensures cache == old(cache)[result.imageRef := CachedResult(result, cachedAt, now + cacheTTL)]
    {
      cache := cache[result.imageRef := CachedResult(result, cachedAt, now + cacheTTL)];
    }

    /** Only successes are cached; the clock is read twice. */
    method ProcessResult(result: ScanResult, cachedAt: int, now: int)
      requires Valid()
      modifies this`metrics, this`history, this`cache
      ensures Valid() && history == old(history) + [result]
      ensures cache == if result.status == Success
                       then old(cache)[result.imageRef := CachedResult(result, cachedAt, now + cacheTTL)]
                       else old(cache)
    {
      UpdateMetrics(result);
      if result.status == Success {
        CacheResult(result, cachedAt, now);
      }
    }

    method GetCachedResult(imageRef: string, now: int) returns (r: Option<ScanResult>)
      ensures r.Some? <==> imageRef in cache && now <= cache[imageRef].expiresAt
      ensures r.Some? ==> r.value == cache[imageRef].result
    {
      if imageRef !in cache || now > cache[imageRef].expiresAt {
        return None;
      }
      r := Some(cache[imageRef].result);
    }
  }

  /** One more result, field by field. */
  lemma SummaryStep(m: Metrics, m': Metrics, rs: seq<ScanResult>, r: ScanResult)
    requires Summarises(m, rs) && m'.total == m.total + 1
    requires m'.successful == m.successful + (if r.status == Success then 1 else 0)
    requires m'.failed == m.failed + (if r.status == Failed then 1 else 0)
    requires m'.timeout == m.timeout + (if r.status == Timeout then 1 else 0)
    requires MeanStep(m.avg, m.total, m'.avg, Seconds(r))
    requires m'.min == if m.min == 0.0 || Seconds(r) < m.min then Seconds(r) else m.min
    requires m'.max == if Seconds(r) > m.max then Seconds(r) else m.max
    ensures Summarises(m', rs + [r])
  {
    hide MeanStep, IsMean, Seconds, IsMax;
    assert (rs + [r])[..|rs + [r]| - 1] == rs;
    MeanKept(rs, r, m.avg, m'.avg);
    MaxStep(rs, r, m.max, m'.max);
  }

  /** The mean of `total` durations, from the mean of all but the last and the last. */
  function NextMean(avg: real, total: nat, duration: real): real
    requires total > 0
  {
    (avg * (total - 1) as real + duration) / total as real
  }

  predicate MeanStep(avg: real, total: nat, next: real, duration: real) {
    next * (total + 1) as real == avg * total as real + duration
  }

  lemma AvgStep(avg: real, total: nat, duration: real)
    requires total > 0
    ensures MeanStep(avg, total - 1, NextMean(avg, total, duration), duration)
  {
  }

  lemma MeanKept(rs: seq<ScanResult>, r: ScanResult, before: real, after: real)
    requires IsMean(before, rs) && MeanStep(before, |rs|, after, Seconds(r))
    ensures IsMean(after, rs + [r])
  {
    hide Seconds;
    assert (rs + [r])[..|rs + [r]| - 1] == rs;
  }

  lemma MaxStep(rs: seq<ScanResult>, r: ScanResult, before: real, after: real)
    requires after == if Seconds(r) > before then Seconds(r) else before
    requires NonNegative(rs) && rs != [] ==> IsMax(before, rs)
    requires rs == [] ==> before == 0.0
    ensures NonNegative(rs + [r]) ==> IsMax(after, rs + [r])
  {
    var all := rs + [r];
    if NonNegative(all) {
      assert forall i :: 0 <= i < |rs| ==> all[i] == rs[i];
      assert all[|rs|] == r;
      if rs != [] && Seconds(r) <= before {
        assert NonNegative(rs);
        var i :| 0 <= i < |rs| && Seconds(rs[i]) == before;
        assert Seconds(all[i]) == before;
      }
    }
  }

  // ---- When the kept minimum is the minimum ----

  /** A zero was recorded and a later duration was not zero. */
  predicate ZeroForgotten(rs: seq<ScanResult>) {
    && (exists i :: 0 <= i < |rs| && Seconds(rs[i]) == 0.0)
    && Seconds(rs[|rs| - 1]) != 0.0
  }

  /** The kept minimum is that of the durations since the last zero. */
  lemma {:induction false} KeptMinSinceZero(rs: seq<ScanResult>)
    requires NonNegative(rs) && rs != []
    ensures KeptMin(rs) >= 0.0
    ensures KeptMin(rs) == 0.0 <==> Seconds(rs[|rs| - 1]) == 0.0
    ensures KeptMin(rs) > 0.0 ==> exists i :: 0 <= i < |rs| && Seconds(rs[i]) == KeptMin(rs)
    ensures (forall i :: 0 <= i < |rs| ==> Seconds(rs[i]) > 0.0) ==>
              forall i :: 0 <= i < |rs| ==> KeptMin(rs) <= Seconds(rs[i])
  {
    hide Seconds;
    var init, last := rs[..|rs| - 1], rs[|rs| - 1];
    assert forall i :: 0 <= i < |init| ==> init[i] == rs[i];
    assert Seconds(last) == Seconds(rs[|rs| - 1]);
    if init != [] {
      KeptMinSinceZero(init);
      if KeptMin(init) > 0.0 {
        var i :| 0 <= i < |init| && Seconds(init[i]) == KeptMin(init);
        assert Seconds(rs[i]) == KeptMin(init);
      }
    }
  }

  /** The reported minimum is the real one if and only if no zero duration has been followed, at whatever
      distance, by a non-zero last one: zero doubles as "unset". */
  lemma MinIsRightIff(rs: seq<ScanResult>)
    requires NonNegative(rs) && rs != []
    ensures IsMin(KeptMin(rs), rs) <==> !ZeroForgotten(rs)
  {
    KeptMinSinceZero(rs);
    if ZeroForgotten(rs) {
      var i :| 0 <= i < |rs| && Seconds(rs[i]) == 0.0;
      assert KeptMin(rs) > Seconds(rs[i]);
    } else if Seconds(rs[|rs| - 1]) == 0.0 {
      assert Seconds(rs[|rs| - 1]) == KeptMin(rs);
    }
  }

  lemma {:induction false} SumBetween(rs: seq<ScanResult>, lo: real, hi: real)
    requires forall i :: 0 <= i < |rs| ==> lo <= Seconds(rs[i]) <= hi
    ensures lo * |rs| as real <= RealSum(rs) <= hi * |rs| as real
  {
    hide Seconds;
    if rs != [] {
      var init := rs[..|rs| - 1];
      SumBetween(init, lo, hi);
      assert |rs| as real == |init| as real + 1.0;
      assert lo * |rs| as real == lo * |init| as real + lo;
      assert hi * |rs| as real == hi * |init| as real + hi;
    }
  }

  lemma {:induction false} CountsFit(rs: seq<ScanResult>)
    ensures CountOf(rs, Success) + CountOf(rs, Failed) + CountOf(rs, Timeout) <= |rs|
    ensures CountOf(rs, Success) + CountOf(rs, Failed) + CountOf(rs, Timeout) == |rs| <==>
            forall i :: 0 <= i < |rs| ==> rs[i].status in {Success, Failed, Timeout}
  {
    if rs != [] {
      var init := rs[..|rs| - 1];
      CountsFit(init);
      assert forall i :: 0 <= i < |init| ==> init[i] == rs[i];
    }
  }

  /** For durations that are not negative the average lies between zero and the maximum, and the reported
      minimum is below it as well whenever it is right. */
  lemma MinAvgMax(m: Metrics, rs: seq<ScanResult>)
    requires rs != [] && NonNegative(rs)
    requires Summarises(m, rs)
    ensures 0.0 <= m.avg <= m.max
    ensures !ZeroForgotten(rs) ==> m.min <= m.avg
  {
    hide RealSum, KeptMin, Seconds;
    SumBetween(rs, 0.0, m.max);
    MeanBetween(0.0, m.avg, m.max, |rs|, RealSum(rs));
    if !ZeroForgotten(rs) {
      MinIsRightIff(rs);
      SumBetween(rs, m.min, m.max);
      MeanBetween(m.min, m.avg, m.max, |rs|, RealSum(rs));
    }
  }

  lemma MeanBetween(lo: real, mean: real, hi: real, n: nat, sum: real)
    requires n > 0 && lo * n as real <= sum <= hi * n as real && mean * n as real == sum
    ensures lo <= mean <= hi
  {
    Cancel(lo, mean, n as real);
    Cancel(mean, hi, n as real);
  }

  lemma Cancel(a: real, b: real, n: real)
    requires n > 0.0 && a * n <= b * n
    ensures a <= b
  {
    assert (b - a) * n >= 0.0;
  }
}
