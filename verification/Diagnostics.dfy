/** Scan-time statistics: the integer running average and how far it drifts from the true mean. */
module Diagnostics {
  import opened Machine

  const TWO_64: nat := 0x1_0000_0000_0000_0000
  const TWO_128: nat := 0x1_0000_0000_0000_0000_0000_0000_0000_0000

  /** The longest representable duration, in nanoseconds. */
  const DURATION_MAX: nat := U64_MAX * 1_000_000_000 + 999_999_999

  /** Durations are nanoseconds. */
  datatype Stats = Stats(count: nat, last: nat, min: nat, max: nat, avg: nat, period: nat, overrun: bool)

  function NewStats(period: nat): Stats {
    Stats(0, 0, DURATION_MAX, 0, 0, period, false)
  }

  function Min(a: nat, b: nat): nat {
    if a <= b then a else b
  }

  function Max(a: nat, b: nat): nat {
    if a >= b then a else b
  }

  /** The integer update of the running average, with the 128-bit sum and the narrowing cast to 64 bits. */
  function NextAverage(avg: nat, n: nat, x: nat): nat
    requires n > 0
  {
    if n == 1 then x else (avg * (n - 1) + x) % TWO_128 / n % TWO_64
  }

  function UpdateStats(s: Stats, x: nat): Stats {
    var n := s.count + 1;
    Stats(n, x, Min(s.min, x), Max(s.max, x), NextAverage(s.avg, n, x), s.period, x > s.period)
  }

  class ScanDiagnostics {
    var scanCount: nat
    var lastScanTime: nat
    var minScanTime: nat
    var maxScanTime: nat
    var avgScanTime: nat
    var scanPeriod: nat
    var overrun: bool

    ghost function View(): Stats
      reads this
    {
      Stats(scanCount, lastScanTime, minScanTime, maxScanTime, avgScanTime, scanPeriod, overrun)
    }

    constructor (period: nat)
      ensures View() == NewStats(period)
    {
      scanCount, lastScanTime, minScanTime, maxScanTime, avgScanTime := 0, 0, DURATION_MAX, 0, 0;
      scanPeriod, overrun := period, false;
    }

    method Update(scanTime: nat)
      modifies this
      ensures View() == UpdateStats(old(View()), scanTime)
    {
      scanCount := scanCount + 1;
      lastScanTime := scanTime;
      minScanTime := Min(minScanTime, scanTime);
      maxScanTime := Max(maxScanTime, scanTime);
      overrun := scanTime > scanPeriod;
      if scanCount == 1 {
        avgScanTime := scanTime;
      } else {
        var total := (avgScanTime * (scanCount - 1) + scanTime) % TWO_128;
        avgScanTime := total / scanCount % TWO_64;
      }
    }
  }

  // ----- Histories of scan times -----

  function StatsAfter(period: nat, times: seq<nat>): Stats {
    if times == [] then NewStats(period)
    else UpdateStats(StatsAfter(period, times[..|times| - 1]), times[|times| - 1])
  }

  function Total(times: seq<nat>): nat {
    if times == [] then 0 else Total(times[..|times| - 1]) + times[|times| - 1]
  }

  /** Every scan time, and the number of scans, fits 64 bits. */
  ghost predicate Fits(times: seq<nat>) {
    |times| < TWO_64 && forall k :: 0 <= k < |times| ==> times[k] < TWO_64
  }

  ghost predicate IsLeast(m: nat, times: seq<nat>) {
    m in times && forall t :: t in times ==> m <= t
  }

  ghost predicate IsGreatest(m: nat, times: seq<nat>) {
    m in times && forall t :: t in times ==> t <= m
  }

  lemma LastOf(times: seq<nat>)
    requires times != []
    ensures forall t :: t in times <==> t in times[..|times| - 1] || t == times[|times| - 1]
  {
    var n := |times| - 1;
    assert times == times[..n] + [times[n]];
  }

  /** The minimum and maximum are exact, the count and last time are what they say. */
  lemma {:induction false} ExtremaExact(period: nat, times: seq<nat>)
    requires times != [] && Fits(times)
    ensures var s := StatsAfter(period, times);
            && s.count == |times| && s.last == times[|times| - 1] && s.period == period
            && s.overrun == (s.last > period)
            && IsLeast(s.min, times) && IsGreatest(s.max, times)
  {
    var n := |times| - 1;
    LastOf(times);
    if n > 0 {
      ExtremaExact(period, times[..n]);
    }
  }

  lemma Monotone(a: nat, b: nat, k: nat)
    requires a <= b
    ensures a * k <= b * k
  {
  }

  lemma DivisionBounds(low: nat, high: nat, avg: nat, n: nat, x: nat)
    requires n > 0 && low <= avg <= high && low <= x <= high
    ensures low <= (avg * (n - 1) + x) / n <= high
    ensures avg * (n - 1) + x <= high * n
  {
    var sum := avg * (n - 1) + x;
    Monotone(low, avg, n - 1);
    Monotone(avg, high, n - 1);
    assert low * n == low * (n - 1) + low && (high + 1) * n == high * (n - 1) + high + n;
    QuotientSpec(low, sum, n);
    QuotientSpec(high + 1, sum, n);
  }

  /** In 64-bit conditions neither the 128-bit sum nor the 64-bit cast loses anything. */
  lemma NoOverflow(avg: nat, n: nat, x: nat)
    requires 0 < n < TWO_64 && avg < TWO_64 && x < TWO_64
    ensures avg * (n - 1) + x < TWO_128
    ensures n > 1 ==> NextAverage(avg, n, x) == (avg * (n - 1) + x) / n
  {
    var high: nat := TWO_64 - 1;
    var sum := avg * (n - 1) + x;
    DivisionBounds(0, high, avg, n, x);
    assert sum <= high * n <= high * high < TWO_128;
    Unreduced(sum, TWO_128);
    Unreduced(sum / n, TWO_64);
  }

  lemma Unreduced(a: nat, m: nat)
    requires a < m
    ensures a % m == a
  {
  }

  /** The average always lies between the smallest and the largest scan time. */
  lemma {:induction false} AverageBetweenExtrema(period: nat, times: seq<nat>)
    requires times != [] && Fits(times)
    ensures var s := StatsAfter(period, times); s.min <= s.avg <= s.max
  {
    var n := |times| - 1;
    var before := StatsAfter(period, times[..n]);
    if n > 0 {
      AverageBetweenExtrema(period, times[..n]);
      ExtremaExact(period, times[..n]);
      var s := StatsAfter(period, times);
      NoOverflow(before.avg, n + 1, times[n]);
      DivisionBounds(s.min, s.max, before.avg, n + 1, times[n]);
    }
  }

  /** One update moves the shortfall total - n * avg up by the remainder of its division. */
  lemma DriftStep(total: nat, avg: nat, n: nat, x: nat)
    requires n > 1
    requires 0 <= total - (n - 1) * avg && 2 * (total - (n - 1) * avg) <= (n - 1) * (n - 2)
    ensures var avg' := (avg * (n - 1) + x) / n;
            0 <= total + x - n * avg' && 2 * (total + x - n * avg') <= n * (n - 1)
  {
    var sum := avg * (n - 1) + x;
    var avg', r := sum / n, sum % n;
    assert sum == n * avg' + r;
    assert total + x - n * avg' == total - (n - 1) * avg + r;
    assert (n - 1) * (n - 2) + 2 * (n - 1) == n * (n - 1);
  }

  /** Each update truncates, and the truncations add up: after n updates the stored average falls short of
      the true mean, by at most (n - 1) / 2 nanoseconds. */
  lemma {:induction false} AverageDrift(period: nat, times: seq<nat>)
    requires times != [] && Fits(times)
    ensures var n, avg := |times|, StatsAfter(period, times).avg;
            0 <= Total(times) - n * avg && 2 * (Total(times) - n * avg) <= n * (n - 1)
  {
    var n := |times|;
    var earlier := times[..n - 1];
    var before := StatsAfter(period, earlier);
    if n > 1 {
      AverageDrift(period, earlier);
      AverageBetweenExtrema(period, earlier);
      ExtremaExact(period, earlier);
      NoOverflow(before.avg, n, times[n - 1]);
      DriftStep(Total(earlier), before.avg, n, times[n - 1]);
    } else {
      assert earlier == [];
    }
  }

  /** Scan times 0, 1, 2, ... */
  function Rising(n: nat): seq<nat> {
    seq(n, i requires 0 <= i < n => i)
  }

  /** The bound is attained: under scan times 0, 1, ..., n - 1 the average stays 0. */
  lemma {:induction false} DriftAttained(period: nat, n: nat)
    requires n < TWO_64
    ensures StatsAfter(period, Rising(n)).count == n && StatsAfter(period, Rising(n)).avg == 0
    ensures 2 * Total(Rising(n)) == n * (n - 1)
  {
    if n > 0 {
      assert Rising(n)[..n - 1] == Rising(n - 1);
      DriftAttained(period, n - 1);
      NoOverflow(0, n, n - 1);
      SmallQuotient(n);
    }
  }

  lemma SmallQuotient(n: nat)
    requires n > 0
    ensures (0 * (n - 1) + (n - 1)) / n == 0
    ensures (n - 1) * (n - 2) + 2 * (n - 1) == n * (n - 1)
  {
  }
}
