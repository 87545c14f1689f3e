/** Health signals derived from a bounded rolling window of request outcomes. */
module NodeHealth {
  import opened Prelude
  import opened MeshTypes

  const HEALTH_WINDOW_SIZE := 100
  const UNHEALTHY_CONSECUTIVE_FAILURES := 3

  /** An outcome as reported: `None` stands for a number that is not finite. */
  datatype Reported = Reported(success: bool, latencyMs: Option<real>, at: Option<real>)

  datatype Outcome = Outcome(success: bool, latencyMs: real, at: int)

  function NormalizeOutcome(o: Reported): Outcome {
    Outcome(
      o.success,
      if o.latencyMs.Some? && o.latencyMs.value >= 0.0 then o.latencyMs.value else 0.0,
      if o.at.Some? && o.at.value > 0.0 then o.at.value.Floor else 0)
  }

  /** A stored outcome read back is reported again. */
  function AsReported(o: Outcome): Reported {
    Reported(o.success, Some(o.latencyMs), Some(o.at as real))
  }

  predicate Normal(o: Outcome) {
    o.latencyMs >= 0.0 && o.at >= 0
  }

  /** Normalizing a normalized outcome changes nothing, so a window survives storage. */
  lemma {:induction false} NormalizeTwice(o: Reported)
    ensures Normal(NormalizeOutcome(o))
    ensures NormalizeOutcome(AsReported(NormalizeOutcome(o))) == NormalizeOutcome(o)
  {}

  function Clamp01(v: real): (r: real)
    ensures 0.0 <= r <= 1.0
  {
    if v < 0.0 then 0.0 else if v > 1.0 then 1.0 else v
  }

  // ----- percentiles -----

  predicate Ascending(s: seq<real>) {
    forall i, j | 0 <= i < j < |s| :: s[i] <= s[j]
  }

  function Insert(s: seq<real>, x: real): (r: seq<real>)
    requires Ascending(s)
    ensures Ascending(r) && |r| == |s| + 1
    ensures forall y :: y in r <==> y == x || y in s
    ensures forall v :: AtMost(r, v) == AtMost(s, v) + (if x <= v then 1 else 0)
  {
    if s == [] || x <= s[0] then
      assert forall y :: y in [x] + s <==> y == x || y in s;
      assert ([x] + s)[1..] == s;
      [x] + s
    else
      var tail := Insert(s[1..], x);
      assert s == [s[0]] + s[1..];
      assert ([s[0]] + tail)[1..] == tail;
      assert forall y :: y in s <==> y == s[0] || y in s[1..];
      [s[0]] + tail
  }

  function Sort(s: seq<real>): (r: seq<real>)
    ensures Ascending(r) && |r| == |s|
    ensures forall y :: y in r <==> y in s
    ensures forall v :: AtMost(r, v) == AtMost(s, v)
  {
    if s == [] then []
    else
      assert forall y :: y in s <==> y == s[0] || y in s[1..];
      Insert(Sort(s[1..]), s[0])
  }

  /** How many samples are at most `v`. */
  function AtMost(s: seq<real>, v: real): (r: nat)
    ensures r <= |s|
  {
    if s == [] then 0 else (if s[0] <= v then 1 else 0) + AtMost(s[1..], v)
  }

  function Ceil(x: real): (r: int)
    ensures r as real - 1.0 < x <= r as real
  {
    -((-x).Floor)
  }

  /** The number of samples that make up `p` percent of `n`. */
  function Share(p: real, n: nat): real {
    p / 100.0 * n as real
  }

  function ClampPercent(p: real): real {
    if p < 0.0 then 0.0 else if p > 100.0 then 100.0 else p
  }

  function ClampIndex(index: int, n: nat): (r: nat)
    requires n > 0
    ensures r < n
    ensures 0 <= index < n ==> r == index
  {
    if index < 0 then 0 else if index > n - 1 then n - 1 else index
  }

  function Percentile(sorted: seq<real>, p: real): real {
    if sorted == [] then 0.0
    else sorted[ClampIndex(Ceil(Share(ClampPercent(p), |sorted|)) - 1, |sorted|)]
  }

  lemma {:induction false} AtMostSplit(a: seq<real>, b: seq<real>, v: real)
    ensures AtMost(a + b, v) == AtMost(a, v) + AtMost(b, v)
  {
    if a == [] {
      assert a + b == b;
    } else {
      assert (a + b)[1..] == a[1..] + b;
      AtMostSplit(a[1..], b, v);
    }
  }

  lemma {:induction false} AllAtMost(s: seq<real>, v: real)
    requires forall i | 0 <= i < |s| :: s[i] <= v
    ensures AtMost(s, v) == |s|
  {
    if s != [] { AllAtMost(s[1..], v); }
  }

  lemma {:induction false} NoneAtMost(s: seq<real>, v: real)
    requires forall i | 0 <= i < |s| :: s[i] > v
    ensures AtMost(s, v) == 0
  {
    if s != [] { NoneAtMost(s[1..], v); }
  }

  /** In an ascending sample exactly the first `k` entries can be at most a bound below the rest. */
  lemma {:induction false} AtMostAscending(s: seq<real>, k: nat, v: real)
    requires Ascending(s) && k <= |s|
    ensures (k == 0 || s[k - 1] <= v) ==> AtMost(s, v) >= k
    ensures (k == |s| || v < s[k]) ==> AtMost(s, v) <= k
  {
    hide AtMost;
    assert s == s[..k] + s[k..];
    AtMostSplit(s[..k], s[k..], v);
    if k == 0 || s[k - 1] <= v { AllAtMost(s[..k], v); }
    if k == |s| || v < s[k] { NoneAtMost(s[k..], v); }
  }

  /**
   * The nearest-rank percentile is an observed sample; at least p percent of the samples are at
   * most it, and fewer than p percent are at most anything smaller.
   */
  lemma {:induction false} NearestRank(samples: seq<real>, p: real, below: real)
    requires samples != [] && 0.0 < p <= 100.0
    ensures var v := Percentile(Sort(samples), p);
      && v in samples
      && AtMost(samples, v) as real >= Share(p, |samples|)
      && (below < v ==> (AtMost(samples, below) as real) < Share(p, |samples|))
  {
    var s := Sort(samples);
    hide Sort, AtMost, Share, Ceil;
    var rank := PercentileByRank(s, p);
    var v := Percentile(s, p);
    hide Percentile;
    assert v in s;
    AtMostAscending(s, rank, v);
    if below < v { AtMostAscending(s, rank - 1, below); }
  }

  lemma {:induction false} PercentileByRank(s: seq<real>, p: real) returns (rank: nat)
    requires s != [] && 0.0 < p <= 100.0
    ensures 1 <= rank <= |s| && Percentile(s, p) == s[rank - 1]
    ensures (rank as real) - 1.0 < Share(p, |s|) <= rank as real
  {
    ShareInRange(p, |s|);
    hide Share;
    rank := Ceil(Share(p, |s|));
    hide Ceil;
  }

  lemma {:induction false} ShareInRange(p: real, n: nat)
    requires 0.0 < p <= 100.0 && n > 0
    ensures 0.0 < Share(p, n) <= n as real
  {
    ScaleBounds(p / 100.0, n as real);
  }

  lemma {:induction false} ScaleBounds(q: real, n: real)
    requires 0.0 < q <= 1.0 && n > 0.0
    ensures 0.0 < q * n <= n
  {
    if q < 1.0 { assert (1.0 - q) * n > 0.0; }
  }

  /** Below zero percent is the smallest sample, from a hundred on the largest; no samples make zero. */
  lemma {:induction false} EdgePercentiles(samples: seq<real>, p: real)
    ensures samples == [] ==> Percentile(samples, p) == 0.0
    ensures samples != [] && p <= 0.0 ==> Percentile(samples, p) == samples[0]
    ensures samples != [] && p >= 100.0 ==> Percentile(samples, p) == samples[|samples| - 1]
  {
    if samples != [] {
      assert Share(0.0, |samples|) == 0.0 && Share(100.0, |samples|) == |samples| as real;
      hide Share;
      assert Ceil(0.0) == 0 && Ceil(|samples| as real) == |samples|;
    }
  }

  // ----- the derivation -----

  function Latencies(window: seq<Outcome>): (r: seq<real>)
    ensures |r| == |window|
  {
    seq(|window|, i requires 0 <= i < |window| => window[i].latencyMs)
  }

  function Successes(window: seq<Outcome>): (r: nat)
    ensures r <= |window|
  {
    if window == [] then 0
    else Successes(window[..|window| - 1]) + (if window[|window| - 1].success then 1 else 0)
  }

  /** The trailing run of failures; the window is oldest-first. */
  function FailureStreak(window: seq<Outcome>): (r: nat)
    ensures r <= |window|
  {
    if window == [] || window[|window| - 1].success then 0
    else 1 + FailureStreak(window[..|window| - 1])
  }

  function LastSuccess(window: seq<Outcome>, seen: int): int {
    if window == [] then seen
    else
      var before := LastSuccess(window[..|window| - 1], seen);
      var o := window[|window| - 1];
      if o.success && o.at > before then o.at else before
  }

  function FailurePenalty(streak: nat): real {
    var left := 1.0 - streak as real / UNHEALTHY_CONSECUTIVE_FAILURES as real;
    if left < 0.0 then 0.0 else left
  }

  function Assemble(
      base: Health, latencies: seq<real>, successes: nat, size: nat, streak: nat, lastSeenAt: int): Health
    requires size > 0
  {
    var uptime := Clamp01(successes as real / size as real);
    base.(
      healthy := streak < UNHEALTHY_CONSECUTIVE_FAILURES,
      latencyMsP50 := Percentile(latencies, 50.0),
      latencyMsP95 := Percentile(latencies, 95.0),
      uptimeRatio := uptime,
      qualityScore := Clamp01(uptime * FailurePenalty(streak)),
      consecutiveFailures := streak,
      lastSeenAt := lastSeenAt)
  }

  function DeriveHealth(base: Health, window: seq<Outcome>): Health {
    if window == [] then base
    else
      Assemble(base, Sort(Latencies(window)), Successes(window), |window|, FailureStreak(window),
               LastSuccess(window, base.lastSeenAt))
  }

  lemma {:induction false} StepForward(window: seq<Outcome>, k: nat, seen: int)
    requires k < |window|
    ensures Successes(window[..k + 1]) == Successes(window[..k]) + (if window[k].success then 1 else 0)
    ensures LastSuccess(window[..k + 1], seen) ==
      var before := LastSuccess(window[..k], seen);
      if window[k].success && window[k].at > before then window[k].at else before
  {
    assert window[..k + 1][..k] == window[..k];
  }

  lemma {:induction false} NoOutcomes(window: seq<Outcome>, seen: int)
    ensures window[..0] == []
    ensures Successes(window[..0]) == 0 && LastSuccess(window[..0], seen) == seen
    ensures FailureStreak(window[..0]) == 0
  {}

  lemma {:induction false} StepBack(window: seq<Outcome>, i: nat)
    requires 0 < i <= |window|
    ensures FailureStreak(window[..i]) ==
      if window[i - 1].success then 0 else 1 + FailureStreak(window[..i - 1])
  {
    assert window[..i][..i - 1] == window[..i - 1];
  }

  /** The derivation as it is computed: one pass forward, one pass back. */
  method ComputeHealth(base: Health, window: seq<Outcome>) returns (health: Health)
    ensures health == DeriveHealth(base, window)
  {
    if window == [] { return base; }
    hide Sort, Assemble, Latencies, Successes, LastSuccess, FailureStreak;
    var latencies := Sort(Latencies(window));
    var successes, lastSeenAt := 0, base.lastSeenAt;
    NoOutcomes(window, base.lastSeenAt);
    for k := 0 to |window|
      invariant successes == Successes(window[..k])
      invariant lastSeenAt == LastSuccess(window[..k], base.lastSeenAt)
    {
      StepForward(window, k, base.lastSeenAt);
      if window[k].success {
        successes := successes + 1;
        if window[k].at > lastSeenAt { lastSeenAt := window[k].at; }
      }
    }
    assert window[..|window|] == window;
    assert successes == Successes(window) && lastSeenAt == LastSuccess(window, base.lastSeenAt);
    var streak, i := 0, |window|;
    while i > 0 && !window[i - 1].success
      invariant 0 <= i <= |window| && streak == |window| - i
      invariant FailureStreak(window) == streak + FailureStreak(window[..i])
    {
      StepBack(window, i);
      streak := streak + 1;
      i := i - 1;
    }
    if i > 0 { StepBack(window, i); } else { NoOutcomes(window, 0); }
    assert streak == FailureStreak(window);
    health := Assemble(base, latencies, successes, |window|, streak, lastSeenAt);
  }

  /** The last `k` outcomes are failures, and the one before them is not. */
  ghost predicate TrailingFailures(window: seq<Outcome>, k: nat) {
    && k <= |window|
    && (forall i | |window| - k <= i < |window| :: !window[i].success)
    && (k < |window| ==> window[|window| - 1 - k].success)
  }

  lemma {:induction false} StreakIsTrailing(window: seq<Outcome>)
    ensures TrailingFailures(window, FailureStreak(window))
  {
    if window != [] && !window[|window| - 1].success {
      StreakIsTrailing(window[..|window| - 1]);
    }
  }

  /** A node is routable exactly while its last three outcomes are not all failures. */
  lemma {:induction false} HealthyIff(base: Health, window: seq<Outcome>)
    requires window != []
    ensures DeriveHealth(base, window).healthy
      <==> (|window| < 3 || exists i :: |window| - 3 <= i < |window| && window[i].success)
  {
    StreakIsTrailing(window);
    var k := FailureStreak(window);
    if k < 3 && |window| >= 3 { assert window[|window| - 1 - k].success; }
  }

  lemma {:induction false} NoSuccesses(window: seq<Outcome>)
    ensures Successes(window) == 0 <==> forall i | 0 <= i < |window| :: !window[i].success
  {
    if window != [] { NoSuccesses(window[..|window| - 1]); }
  }

  /** Scores are ratios, and quality is zero exactly for a node that is tripped or never succeeded. */
  lemma {:induction false} QualityZeroIff(base: Health, window: seq<Outcome>)
    requires window != []
    ensures var h := DeriveHealth(base, window);
      && 0.0 <= h.uptimeRatio <= 1.0 && 0.0 <= h.qualityScore <= h.uptimeRatio
      && (h.qualityScore == 0.0
          <==> (!h.healthy || forall i | 0 <= i < |window| :: !window[i].success))
  {
    NoSuccesses(window);
    hide Sort, Percentile, Latencies, LastSuccess, Successes, FailureStreak;
    var n, s, k := |window| as real, Successes(window) as real, FailureStreak(window);
    var u, p := s / n, FailurePenalty(k);
    Ratio(s, n);
    assert 0.0 <= p <= 1.0 && (p == 0.0 <==> k >= 3);
    Product(u, p);
  }

  lemma {:induction false} Ratio(s: real, n: real)
    requires 0.0 <= s <= n && n > 0.0
    ensures 0.0 <= s / n <= 1.0 && (s / n == 0.0 <==> s == 0.0)
  {
    assert s / n * n == s;
  }

  lemma {:induction false} Product(u: real, p: real)
    requires 0.0 <= u <= 1.0 && 0.0 <= p <= 1.0
    ensures 0.0 <= u * p <= u && (u * p == 0.0 <==> (u == 0.0 || p == 0.0))
  {
    assert u - u * p == u * (1.0 - p);
  }

  // ----- what each derived field says of the window -----

  /** The outcomes at most as slow as `v`. */
  ghost function NoSlower(window: seq<Outcome>, v: real): set<int> {
    set i | 0 <= i < |window| && window[i].latencyMs <= v
  }

  ghost function Succeeded(window: seq<Outcome>): set<int> {
    set i | 0 <= i < |window| && window[i].success
  }

  lemma {:induction false} AtMostCounts(window: seq<Outcome>, v: real)
    ensures AtMost(Latencies(window), v) == |NoSlower(window, v)|
  {
    if window != [] {
      var last := |window| - 1;
      var front := window[..last];
      AtMostCounts(front, v);
      assert Latencies(window) == Latencies(front) + [window[last].latencyMs];
      AtMostSplit(Latencies(front), [window[last].latencyMs], v);
      assert AtMost([window[last].latencyMs], v) == if window[last].latencyMs <= v then 1 else 0;
      assert NoSlower(window, v) == NoSlower(front, v) + (if window[last].latencyMs <= v then {last} else {});
    }
  }

  lemma {:induction false} SuccessesCount(window: seq<Outcome>)
    ensures Successes(window) == |Succeeded(window)|
  {
    if window != [] {
      var last := |window| - 1;
      SuccessesCount(window[..last]);
      assert Succeeded(window) == Succeeded(window[..last]) + (if window[last].success then {last} else {});
    }
  }

  /** `v` is an observed latency that at least `percent` of the window reach, and nothing below it does. */
  ghost predicate IsPercentile(window: seq<Outcome>, percent: nat, v: real) {
    && (exists i :: 0 <= i < |window| && window[i].latencyMs == v)
    && 100 * |NoSlower(window, v)| >= percent * |window|
    && (forall below: real | below < v :: 100 * |NoSlower(window, below)| < percent * |window|)
  }

  lemma {:induction false} PercentileOfWindow(window: seq<Outcome>, percent: nat)
    requires window != [] && 0 < percent <= 100
    ensures IsPercentile(window, percent, Percentile(Sort(Latencies(window)), percent as real))
  {
    var samples := Latencies(window);
    var v := Percentile(Sort(samples), percent as real);
    NearestRank(samples, percent as real, v);
    assert samples[..] == samples;
    var i :| 0 <= i < |samples| && samples[i] == v;
    assert window[i].latencyMs == v;
    AtMostCounts(window, v);
    hide Percentile, Sort, AtMost;
    forall below: real | below < v
      ensures 100 * |NoSlower(window, below)| < percent * |window|
    {
      NearestRank(samples, percent as real, below);
      AtMostCounts(window, below);
      WholeShare(percent, |window|, |NoSlower(window, below)|);
    }
    WholeShare(percent, |window|, |NoSlower(window, v)|);
  }

  lemma {:induction false} WholeShare(percent: nat, n: nat, count: nat)
    ensures count as real >= Share(percent as real, n) <==> 100 * count >= percent * n
  {
    var share := Share(percent as real, n);
    assert 100.0 * share == percent as real * n as real == (percent * n) as real;
  }

  /** The latest of `seen` and the times of the successes. */
  ghost predicate IsLatest(window: seq<Outcome>, seen: int, last: int) {
    && last >= seen && (forall i | 0 <= i < |window| && window[i].success :: last >= window[i].at)
    && (last == seen || exists i :: 0 <= i < |window| && window[i].success && window[i].at == last)
  }

  lemma {:induction false} LastSuccessIsLatest(window: seq<Outcome>, seen: int)
    ensures IsLatest(window, seen, LastSuccess(window, seen))
  {
    if window != [] {
      LastSuccessIsLatest(window[..|window| - 1], seen);
    }
  }

  /**
   * Every field of the health derived from a window that is not empty: the two percentiles, the
   * share of successes, the trailing failures with the quality they leave, and the last sign of
   * life. Everything else is the record's own.
   */
  lemma {:induction false} DerivedFields(base: Health, window: seq<Outcome>)
    requires window != []
    ensures var h := DeriveHealth(base, window); var k := h.consecutiveFailures;
      && IsPercentile(window, 50, h.latencyMsP50)
      && IsPercentile(window, 95, h.latencyMsP95)
      && h.uptimeRatio * |window| as real == |Succeeded(window)| as real
      && TrailingFailures(window, k) && (h.healthy <==> k < 3)
      && 3.0 * h.qualityScore == h.uptimeRatio * (if k < 3 then 3 - k else 0) as real
      && IsLatest(window, base.lastSeenAt, h.lastSeenAt)
      && h.nodeId == base.nodeId && h.inFlight == base.inFlight && h.maxConcurrency == base.maxConcurrency
  {
    hide Sort, Percentile, Latencies, LastSuccess, Successes, FailureStreak, IsPercentile, Succeeded,
      TrailingFailures, IsLatest, Assemble, AtMost, Ascending;
    var latencies, last := Sort(Latencies(window)), LastSuccess(window, base.lastSeenAt);
    PercentileOfWindow(window, 50);
    PercentileOfWindow(window, 95);
    SuccessesCount(window);
    StreakIsTrailing(window);
    LastSuccessIsLatest(window, base.lastSeenAt);
    AssembledRatios(base, latencies, Successes(window), |window|, FailureStreak(window), last);
    AssembledRest(base, latencies, Successes(window), |window|, FailureStreak(window), last);
  }

  lemma {:induction false} AssembledRest(
      base: Health, latencies: seq<real>, successes: nat, size: nat, streak: nat, lastSeenAt: int)
    requires size > 0
    ensures var h := Assemble(base, latencies, successes, size, streak, lastSeenAt);
      && h.latencyMsP50 == Percentile(latencies, 50.0) && h.latencyMsP95 == Percentile(latencies, 95.0)
      && h.consecutiveFailures == streak && (h.healthy <==> streak < 3) && h.lastSeenAt == lastSeenAt
      && h.nodeId == base.nodeId && h.inFlight == base.inFlight && h.maxConcurrency == base.maxConcurrency
  {
    hide Percentile, Clamp01, FailurePenalty;
  }

  /** Neither clamp does anything. */
  lemma {:induction false} AssembledRatios(
      base: Health, latencies: seq<real>, successes: nat, size: nat, streak: nat, lastSeenAt: int)
    requires successes <= size && size > 0
    ensures var h := Assemble(base, latencies, successes, size, streak, lastSeenAt);
      && h.uptimeRatio * size as real == successes as real
      && 3.0 * h.qualityScore == h.uptimeRatio * (if streak < 3 then 3 - streak else 0) as real
  {
    hide Percentile;
    var s, n := successes as real, size as real;
    Ratio(s, n);
    var u, p := s / n, FailurePenalty(streak);
    assert Clamp01(u) == u && u * n == s;
    var left := (if streak < 3 then 3 - streak else 0) as real;
    assert 0.0 <= p <= 1.0 && 3.0 * p == left;
    Product(u, p);
    Scaled(u, p);
  }

  lemma {:induction false} Scaled(u: real, p: real)
    ensures 3.0 * (u * p) == u * (3.0 * p)
  {}

  /** An outcome's usable numbers are kept, its time as whole milliseconds; the others become zero. */
  lemma {:induction false} NormalizedNumbers(o: Reported)
    ensures var n := NormalizeOutcome(o);
      && n.success == o.success
      && (o.latencyMs.Some? && o.latencyMs.value >= 0.0 <==> o.latencyMs == Some(n.latencyMs))
      && (o.latencyMs != Some(n.latencyMs) ==> n.latencyMs == 0.0)
      && (o.at.Some? && o.at.value >= 0.0 ==> n.at as real <= o.at.value < n.at as real + 1.0)
      && (o.at.None? || o.at.value < 0.0 ==> n.at == 0)
  {}
}
