/**
 Wait-time estimates from an exponential moving average of build durations, in exact real
 arithmetic.
 */
module WaitTime {
  import opened Common

  function DefaultDuration(tier: string): real {
    if tier == "bootstrapper" then 480.0 else if tier == "cto_scale" then 900.0 else 600.0
  }

  function Averaged(alpha: real, avg: real, duration: real): real {
    alpha * duration + (1.0 - alpha) * avg
  }

  function AverageAfter(alpha: real, avg: real, durations: seq<real>): real {
    if durations == [] then avg
    else Averaged(alpha, AverageAfter(alpha, avg, durations[..|durations| - 1]), durations[|durations| - 1])
  }

  /** int() of a float truncates toward zero. */
  function Truncated(r: real): int {
    if r >= 0.0 then r.Floor else -(-r).Floor
  }

  function RawWait(avg: real, position: nat, workers: int): real {
    avg * position as real / Max(workers, 1) as real
  }

  function Wait(avg: real, position: nat, workers: int): int {
    Truncated(RawWait(avg, position, workers))
  }

  function Power(base: real, n: nat): real {
    if n == 0 then 1.0 else base * Power(base, n - 1)
  }

  // ---------- The average ----------

  lemma MixIsBetween(alpha: real, a: real, b: real, lo: real, hi: real)
    requires 0.0 <= alpha <= 1.0 && lo <= a <= hi && lo <= b <= hi
    ensures lo <= Averaged(alpha, a, b) <= hi
  {
    assert Averaged(alpha, a, b) - lo == alpha * (b - lo) + (1.0 - alpha) * (a - lo);
    assert hi - Averaged(alpha, a, b) == alpha * (hi - b) + (1.0 - alpha) * (hi - a);
    ProductNonNegative(alpha, b - lo);
    ProductNonNegative(1.0 - alpha, a - lo);
    ProductNonNegative(alpha, hi - b);
    ProductNonNegative(1.0 - alpha, hi - a);
  }

  lemma ProductNonNegative(x: real, y: real)
    requires x >= 0.0 && y >= 0.0
    ensures x * y >= 0.0
  {
  }

  /** The average stays within any bounds that hold for the starting value and every duration. */
  lemma {:induction false} AverageStaysWithin(alpha: real, avg: real, durations: seq<real>, lo: real, hi: real)
    requires 0.0 <= alpha <= 1.0 && lo <= avg <= hi
    requires forall d :: d in durations ==> lo <= d <= hi
    ensures lo <= AverageAfter(alpha, avg, durations) <= hi
  {
    if durations != [] {
      var n := |durations| - 1;
      assert durations[n] in durations;
      assert forall d :: d in durations[..n] ==> d in durations;
      AverageStaysWithin(alpha, avg, durations[..n], lo, hi);
      MixIsBetween(alpha, AverageAfter(alpha, avg, durations[..n]), durations[n], lo, hi);
    }
  }

  /** A gap after n steps that each leave the part 1 - alpha of it. */
  function Decayed(alpha: real, gap: real, n: nat): real {
    if n == 0 then gap else (1.0 - alpha) * Decayed(alpha, gap, n - 1)
  }

  lemma {:induction false} DecayIsAPower(alpha: real, gap: real, n: nat)
    ensures Decayed(alpha, gap, n) == Power(1.0 - alpha, n) * gap
  {
    if n > 0 {
      DecayIsAPower(alpha, gap, n - 1);
      Associate(1.0 - alpha, Power(1.0 - alpha, n - 1), gap);
    }
  }

  lemma Associate(x: real, y: real, z: real)
    ensures x * (y * z) == x * y * z
  {
  }

  lemma OneStepCloser(alpha: real, a: real, d: real, gap: real)
    requires a - d == gap
    ensures Averaged(alpha, a, d) - d == (1.0 - alpha) * gap
  {
    assert a == d + gap;
  }

  lemma {:induction false} GapDecays(alpha: real, avg: real, d: real, durations: seq<real>)
    requires forall x :: x in durations ==> x == d
    ensures AverageAfter(alpha, avg, durations) - d == Decayed(alpha, avg - d, |durations|)
  {
    if durations != [] {
      var n := |durations| - 1;
      assert durations[n] in durations;
      assert durations[n] == d;
      assert forall x :: x in durations[..n] ==> x in durations;
      GapDecays(alpha, avg, d, durations[..n]);
      OneStepCloser(alpha, AverageAfter(alpha, avg, durations[..n]), d, Decayed(alpha, avg - d, n));
    }
  }

  /** With equal durations the distance to them shrinks by the factor 1 - alpha each time. */
  lemma EqualDurationsConverge(alpha: real, avg: real, d: real, durations: seq<real>)
    requires forall x :: x in durations ==> x == d
    ensures AverageAfter(alpha, avg, durations) - d == Power(1.0 - alpha, |durations|) * (avg - d)
  {
    GapDecays(alpha, avg, d, durations);
    DecayIsAPower(alpha, avg - d, |durations|);
  }

  // ---------- One average per tier ----------

  datatype Completion = Completion(tier: string, duration: real)

  function CurrentOf(averages: map<string, real>, tier: string): real {
    if tier in averages then averages[tier] else DefaultDuration(tier)
  }

  function Recorded(alpha: real, averages: map<string, real>, c: Completion): map<string, real> {
    averages[c.tier := Averaged(alpha, CurrentOf(averages, c.tier), c.duration)]
  }

  function RecordedAll(alpha: real, completions: seq<Completion>): map<string, real> {
    if completions == [] then map[]
    else Recorded(alpha, RecordedAll(alpha, completions[..|completions| - 1]), completions[|completions| - 1])
  }

  function DurationsOf(completions: seq<Completion>, tier: string): seq<real> {
    if completions == [] then []
    else
      var last := completions[|completions| - 1];
      DurationsOf(completions[..|completions| - 1], tier) + (if last.tier == tier then [last.duration] else [])
  }

  /** After any completions, in any mix of tiers, a tier's stored average is that of its own durations. */
  lemma {:induction false} EachTierAveragesItsOwn(alpha: real, completions: seq<Completion>, tier: string)
    ensures CurrentOf(RecordedAll(alpha, completions), tier)
            == AverageAfter(alpha, DefaultDuration(tier), DurationsOf(completions, tier))
  {
    if completions != [] {
      var before, last := completions[..|completions| - 1], completions[|completions| - 1];
      EachTierAveragesItsOwn(alpha, before, tier);
      var own := DurationsOf(before, tier);
      if last.tier == tier {
        assert (own + [last.duration])[..|own|] == own;
      } else {
        assert DurationsOf(completions, tier) == own;
      }
    }
  }

  // ---------- The estimates ----------

  lemma TruncatedMonotone(a: real, b: real)
    requires a <= b
    ensures Truncated(a) <= Truncated(b)
  {
  }

  lemma QuotientNonNegative(x: real, w: real)
    requires x >= 0.0 && w > 0.0
    ensures x / w >= 0.0
  {
  }

  /** The interval contains the estimate. */
  lemma IntervalContainsEstimate(avg: real, position: nat, workers: int)
    requires avg >= 0.0
    ensures var e := RawWait(avg, position, workers);
            Truncated(e * 0.7) <= Wait(avg, position, workers) <= Truncated(e * 1.3)
  {
    ProductNonNegative(avg, position as real);
    QuotientNonNegative(avg * position as real, Max(workers, 1) as real);
    var e := RawWait(avg, position, workers);
    TruncatedMonotone(e * 0.7, e);
    TruncatedMonotone(e, e * 1.3);
  }

  /** The estimate is the average time for everybody in front, shared by the workers, less than a second too low. */
  lemma EstimateSaysHowLong(avg: real, position: nat, workers: int)
    requires avg >= 0.0
    ensures var n, e := (if workers < 1 then 1 else workers) as real, Wait(avg, position, workers) as real;
            0.0 <= avg * position as real - n * e < n
  {
    ProductNonNegative(avg, position as real);
    var total, n := avg * position as real, Max(workers, 1) as real;
    assert RawWait(avg, position, workers) == total / n;
    Shared(total, n, total / n, Wait(avg, position, workers));
  }

  lemma Shared(total: real, n: real, x: real, e: int)
    requires total >= 0.0 && n > 0.0 && x == total / n && e == Truncated(x)
    ensures 0.0 <= total - n * e as real < n
  {
    QuotientNonNegative(total, n);
    assert x >= 0.0;
    Scaled(total, n, x, e as real);
  }

  lemma Scaled(total: real, n: real, x: real, floor: real)
    requires n > 0.0 && x == total / n && floor <= x < floor + 1.0
    ensures 0.0 <= total - n * floor < n
  {
    var rest, left := x - floor, 1.0 - (x - floor);
    var p, q := n * rest, n * left;
    assert total == n * x;
    ProductNonNegative(n, rest);
    ProductPositive(n, left);
    assert p == n * x - n * floor by { Distributes(n, x, floor); }
    assert q == n - p by { Distributes(n, 1.0, rest); }
    assert p >= 0.0 && q > 0.0;
  }

  lemma Distributes(n: real, a: real, b: real)
    ensures n * (a - b) == n * a - n * b
  {
  }

  lemma ProductPositive(x: real, y: real)
    requires x > 0.0 && y > 0.0
    ensures x * y > 0.0
  {
  }

  lemma QuotientMonotone(x: real, y: real, w: real)
    requires x <= y && w > 0.0
    ensures x / w <= y / w
  {
    assert y / w - x / w == (y - x) / w;
    QuotientNonNegative(y - x, w);
  }

  lemma QuotientAntitone(x: real, v: real, w: real)
    requires x >= 0.0 && 0.0 < v <= w
    ensures x / w <= x / v
  {
    var q := x / w;
    QuotientNonNegative(x, w);
    assert x == q * w;
    ProductNonNegative(q, w - v);
    assert q * w - q * v == q * (w - v);
    QuotientMonotone(q * v, x, v);
    assert q * v / v == q;
  }

  /** Further back never waits less, and more workers never make anyone wait longer. */
  lemma EstimateIsMonotone(avg: real, p: nat, q: nat, v: int, w: int)
    requires avg >= 0.0 && p <= q && v <= w
    ensures Wait(avg, p, v) <= Wait(avg, q, v)
    ensures Wait(avg, p, w) <= Wait(avg, p, v)
  {
    var rv, rw := Max(v, 1) as real, Max(w, 1) as real;
    ProductNonNegative(avg, q as real - p as real);
    assert avg * q as real - avg * p as real == avg * (q as real - p as real);
    QuotientMonotone(avg * p as real, avg * q as real, rv);
    TruncatedMonotone(RawWait(avg, p, v), RawWait(avg, q, v));
    ProductNonNegative(avg, p as real);
    QuotientAntitone(avg * p as real, rv, rw);
    TruncatedMonotone(RawWait(avg, p, w), RawWait(avg, p, v));
  }

  class WaitTimeEstimator {
    const alpha: real
    var averages: map<string, real>

    constructor (alpha: real)
      ensures this.alpha == alpha && averages == map[]
    {
      this.alpha := alpha;
      averages := map[];
    }

    function Current(tier: string): real
      reads this
    {
      CurrentOf(averages, tier)
    }

    method RecordCompletion(tier: string, duration: real)
      modifies this
      ensures averages == Recorded(alpha, old(averages), Completion(tier, duration))
    {
      var currentAvg := Current(tier);
      var newAvg := Averaged(alpha, currentAvg, duration);
      averages := averages[tier := newAvg];
    }

    method EstimateWaitTime(tier: string, position: nat, activeWorkers: int) returns (seconds: int)
      ensures seconds == Wait(Current(tier), position, activeWorkers)
      ensures tier !in averages ==>
                seconds == Wait(if tier == "bootstrapper" then 480.0 else if tier == "cto_scale" then 900.0 else 600.0,
                                position, activeWorkers)
    {
      var raw := RawWait(Current(tier), position, activeWorkers);
      seconds := Truncated(raw);
    }

    method EstimateWithConfidence(tier: string, position: nat, activeWorkers: int)
      returns (estimate: int, lower: int, upper: int)
      ensures estimate == Wait(Current(tier), position, activeWorkers)
      ensures lower == Truncated(RawWait(Current(tier), position, activeWorkers) * 0.7)
      ensures upper == Truncated(RawWait(Current(tier), position, activeWorkers) * 1.3)
      ensures Current(tier) >= 0.0 ==> lower <= estimate <= upper
    {
      var avg := Current(tier);
      var raw := RawWait(avg, position, activeWorkers);
      estimate, lower, upper := Truncated(raw), Truncated(raw * 0.7), Truncated(raw * 1.3);
      if avg >= 0.0 { IntervalContainsEstimate(avg, position, activeWorkers); }
    }
  }
}
