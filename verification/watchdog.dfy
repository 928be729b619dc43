/** The sliding-window anomaly detector (backend/app/agents/watchdog.py). */
module Watchdog {
  import opened Basics
  import opened Models

  datatype Alert = LatencySpike | SuccessDrop

  /** The alert's wire name. */
  function AlertName(a: Alert): string
  {
    match a
    case LatencySpike => "LATENCY_SPIKE"
    case SuccessDrop => "SUCCESS_DROP"
  }

  /** The success-window entry for a transaction: 1 for SUCCESS, 0 for every other status. */
  function SuccessFlag(s: TransactionStatus): (f: int)
    ensures f == 0 || f == 1
    ensures f == 1 <==> s == Success
  {
    if s == Success then 1 else 0
  }

  function Sum(w: seq<int>): int
  {
    if w == [] then 0 else Sum(w[..|w| - 1]) + w[|w| - 1]
  }

  function Newest(w: seq<int>): int
    requires |w| > 0
  {
    w[|w| - 1]
  }

  function Mean(w: seq<int>): real
    requires |w| > 0
  {
    Sum(w) as real / |w| as real
  }

  /** The sum of the squared distances of the samples from `m`. */
  function SquaredDeviations(w: seq<int>, m: real): (r: real)
    ensures r >= 0.0
  {
    if w == [] then 0.0
    else SquaredDeviations(w[..|w| - 1], m) + (w[|w| - 1] as real - m) * (w[|w| - 1] as real - m)
  }

  /** The sample variance (n - 1 denominator); the standard deviation is its square root. */
  function SampleVariance(w: seq<int>): (v: real)
    requires |w| >= 2
    ensures v >= 0.0
  {
    SquaredDeviations(w, Mean(w)) / (|w| - 1) as real
  }

  /** Fraction of successful entries in a success window. */
  function SuccessRate(s: seq<int>): real
    requires |s| > 0
  {
    Sum(s) as real / |s| as real
  }

  /** The one-sided z-score test on the newest sample, "stdev > 0 and
      (newest - mean) / stdev > z", stated without a square root: the
      comparison is squared, with the sign of both sides taken into account. */
  predicate Spike(w: seq<int>, z: real)
    requires |w| >= 2
    ensures Spike(w, z) ==> SampleVariance(w) > 0.0
  {
    var v := SampleVariance(w);
    var d := Newest(w) as real - Mean(w);
    v > 0.0 && if z >= 0.0 then d > 0.0 && d * d > z * z * v else d >= 0.0 || d * d < z * z * v
  }

  lemma MulPositive(x: real, y: real)
    requires x > 0.0 && y > 0.0
    ensures x * y > 0.0
  {
  }

  lemma ScaleStrict(a: real, b: real, c: real)
    requires c > 0.0
    ensures a > b <==> a * c > b * c
  {
    assert a * c - b * c == (a - b) * c;
    if a > b {
      MulPositive(a - b, c);
    } else if b > a {
      MulPositive(b - a, c);
    }
  }

  lemma DivideAbove(d: real, s: real, z: real)
    requires s > 0.0
    ensures d / s > z <==> d > z * s
  {
    var q := d / s;
    assert q * s == d;
    ScaleStrict(q, z, s);
  }

  lemma SquareGrows(a: real, b: real)
    requires a > b >= 0.0
    ensures a * a > b * b
  {
    MulPositive(a - b, a + b);
    assert (a - b) * (a + b) == a * a - b * b;
  }

  lemma SquareMonotone(a: real, b: real)
    requires a >= 0.0 && b >= 0.0
    ensures a > b <==> a * a > b * b
  {
    if a > b {
      SquareGrows(a, b);
    } else if b > a {
      SquareGrows(b, a);
    }
  }

  /** With a non-negative bound `t`, the squared one-sided test is `d > t`. */
  lemma SquaredTestAbove(d: real, t: real)
    requires t >= 0.0
    ensures (d > 0.0 && d * d > t * t) <==> d > t
  {
    if d > 0.0 {
      SquareMonotone(d, t);
    }
  }

  /** With a negative bound `t`, the squared test with the sign taken into account is `d > t`. */
  lemma SquaredTestBelow(d: real, t: real)
    requires t < 0.0
    ensures (d >= 0.0 || d * d < t * t) <==> d > t
  {
    if d < 0.0 {
      SquareMonotone(-t, -d);
      assert (-t) * (-t) == t * t && (-d) * (-d) == d * d;
    }
  }

  /** For every candidate standard deviation `s` (any non-negative square root
      of the sample variance), `Spike` is exactly the test
      "s > 0 and (newest - mean) / s > z" that the detector performs. */
  lemma SpikeIsZScoreTest(w: seq<int>, z: real, s: real)
    requires |w| >= 2 && s >= 0.0 && s * s == SampleVariance(w)
    ensures Spike(w, z) <==> s > 0.0 && (Newest(w) as real - Mean(w)) / s > z
  {
    var v := SampleVariance(w);
    var d := Newest(w) as real - Mean(w);
    if s > 0.0 {
      MulPositive(s, s);
      DivideAbove(d, s, z);
      var t := z * s;
      assert t * t == z * z * v by {
        assert t * t == z * z * (s * s);
      }
      if z >= 0.0 {
        assert t >= 0.0 by {
          if z > 0.0 { MulPositive(z, s); }
        }
        SquaredTestAbove(d, t);
      } else {
        assert t < 0.0 by {
          MulPositive(-z, s);
          assert (-z) * s == -t;
        }
        SquaredTestBelow(d, t);
      }
    } else {
      assert v == 0.0;
    }
  }

  lemma {:induction false} SumOfConstant(w: seq<int>, c: int)
    requires forall i :: 0 <= i < |w| ==> w[i] == c
    ensures Sum(w) == |w| * c
  {
    if w != [] {
      SumOfConstant(w[..|w| - 1], c);
    }
  }

  lemma {:induction false} NoDeviationFromConstant(w: seq<int>, c: int)
    requires forall i :: 0 <= i < |w| ==> w[i] == c
    ensures SquaredDeviations(w, c as real) == 0.0
  {
    if w != [] {
      NoDeviationFromConstant(w[..|w| - 1], c);
    }
  }

  /** A window of identical latencies has standard deviation 0, so it never
      signals a latency spike, whatever the threshold. */
  lemma ConstantWindowNeverSpikes(w: seq<int>, z: real)
    requires |w| >= 2
    requires forall i :: 0 <= i < |w| ==> w[i] == w[0]
    ensures SampleVariance(w) == 0.0 && !Spike(w, z)
  {
    var c := w[0];
    SumOfConstant(w, c);
    assert Mean(w) == c as real by {
      assert (|w| * c) as real == |w| as real * c as real;
    }
    NoDeviationFromConstant(w, c);
  }

  lemma QuotientBelow(total: real, n: real, bound: real)
    requires n > 0.0
    ensures total / n < bound <==> total < bound * n
  {
    var q := total / n;
    assert q * n == total;
    ScaleStrict(bound, q, n);
  }

  /** The detector's integer test `5 * sum < 4 * len` is the rate test `sum / len < 0.8`. */
  lemma SuccessTestIsRate(s: seq<int>)
    requires |s| > 0
    ensures 5 * Sum(s) < 4 * |s| <==> SuccessRate(s) < 0.8
  {
    var n, total := |s| as real, Sum(s) as real;
    QuotientBelow(total, n, 0.8);
    assert 5 * Sum(s) < 4 * |s| <==> 5.0 * total < 4.0 * n;
  }

  /** Classification of an issuer's windows, in priority order: nothing below
      10 latency samples, then the z-score test on the newest latency, then
      the success-rate test, which needs MORE than 10 success samples. */
  function Classify(latencies: seq<int>, successes: seq<int>, z: real): (r: Option<Alert>)
    ensures |latencies| < 10 ==> r == None
    ensures r == Some(LatencySpike) <==> |latencies| >= 10 && Spike(latencies, z)
    ensures r == Some(SuccessDrop) <==>
              && |latencies| >= 10 && !Spike(latencies, z)
              && |successes| > 10 && SuccessRate(successes) < 0.8
  {
    if |latencies| < 10 then None
    else if Spike(latencies, z) then Some(LatencySpike)
    else if |successes| > 10 then
      SuccessTestIsRate(successes);
      if 5 * Sum(successes) < 4 * |successes| then Some(SuccessDrop) else None
    else None
  }

  /** The worked example: ten latencies around 100 ms followed by 400 ms is
      a spike at threshold 2.0 (mean and deviation include the newest value). */
  lemma SpikeExample(successes: seq<int>)
    ensures Classify([100, 105, 98, 102, 99, 101, 97, 103, 100, 98, 400], successes, 2.0) == Some(LatencySpike)
  {
    var w := [100, 105, 98, 102, 99, 101, 97, 103, 100, 98, 400];
    var m := 1403.0 / 11.0;
    assert w[..0] == [];
    assert w[..1][..0] == w[..0];
    assert Sum(w[..1]) == 100;
    assert SquaredDeviations(w[..1], m) == 91809.0 / 121.0;
    assert w[..2][..1] == w[..1];
    assert Sum(w[..2]) == 205;
    assert SquaredDeviations(w[..2], m) == 153313.0 / 121.0;
    assert w[..3][..2] == w[..2];
    assert Sum(w[..3]) == 303;
    assert SquaredDeviations(w[..3], m) == 258938.0 / 121.0;
    assert w[..4][..3] == w[..3];
    assert Sum(w[..4]) == 405;
    assert SquaredDeviations(w[..4], m) == 337899.0 / 121.0;
    assert w[..5][..4] == w[..4];
    assert Sum(w[..5]) == 504;
    assert SquaredDeviations(w[..5], m) == 436495.0 / 121.0;
    assert w[..6][..5] == w[..5];
    assert Sum(w[..6]) == 605;
    assert SquaredDeviations(w[..6], m) == 521759.0 / 121.0;
    assert w[..7][..6] == w[..6];
    assert Sum(w[..7]) == 702;
    assert SquaredDeviations(w[..7], m) == 634655.0 / 121.0;
    assert w[..8][..7] == w[..7];
    assert Sum(w[..8]) == 805;
    assert SquaredDeviations(w[..8], m) == 707555.0 / 121.0;
    assert w[..9][..8] == w[..8];
    assert Sum(w[..9]) == 905;
    assert SquaredDeviations(w[..9], m) == 799364.0 / 121.0;
    assert w[..10][..9] == w[..9];
    assert Sum(w[..10]) == 1003;
    assert SquaredDeviations(w[..10], m) == 904989.0 / 121.0;
    assert w[..11][..10] == w[..10];
    assert Sum(w[..11]) == 1403;
    assert SquaredDeviations(w[..11], m) == 898818.0 / 11.0;
    assert w[..11] == w;
  }

  /** With exactly ten success samples the rate test does not run yet, so ten
      observations with nine failures give no SUCCESS_DROP. */
  lemma NoSuccessDropAtTenSamples(latencies: seq<int>, successes: seq<int>, z: real)
    requires |successes| == 10
    ensures Classify(latencies, successes, z) != Some(SuccessDrop)
  {
  }

  /** `deque(maxlen=capacity).append(x)`: at capacity the oldest entry is
      dropped first, so the deque keeps the newest `capacity` entries. */
  function DequeAppend(w: seq<int>, x: int, capacity: nat): (r: seq<int>)
    requires |w| <= capacity
    ensures r == LastN(w + [x], capacity)
  {
    if capacity == 0 then []
    else if |w| < capacity then w + [x]
    else w[1..] + [x]
  }

  /** What `m` holds for `k`, or the empty sequence. */
  function Seen(m: map<string, seq<int>>, k: string): seq<int>
  {
    if k in m then m[k] else []
  }

  /** Both windows of every issuer exist together and hold the newest
      `capacity` entries of that issuer's histories, in insertion order. */
  ghost predicate WindowsMatch(
    latencyWindows: map<string, seq<int>>, successWindows: map<string, seq<int>>,
    latencyHistory: map<string, seq<int>>, successHistory: map<string, seq<int>>, capacity: nat)
  {
    && latencyWindows.Keys == successWindows.Keys
    && latencyWindows.Keys == latencyHistory.Keys
    && latencyWindows.Keys == successHistory.Keys
    && forall issuer :: issuer in latencyWindows ==>
         && |latencyHistory[issuer]| == |successHistory[issuer]|
         && latencyWindows[issuer] == LastN(latencyHistory[issuer], capacity)
         && successWindows[issuer] == LastN(successHistory[issuer], capacity)
  }

  /** Recording one observation for `issuer` keeps every issuer's windows in step with its histories. */
  lemma ObservePreservesMatch(
    lw: map<string, seq<int>>, sw: map<string, seq<int>>,
    lh: map<string, seq<int>>, sh: map<string, seq<int>>, capacity: nat,
    issuer: string, latency: int, flag: int)
    requires WindowsMatch(lw, sw, lh, sh, capacity)
    ensures WindowsMatch(
      lw[issuer := LastN(Seen(lh, issuer) + [latency], capacity)],
      sw[issuer := LastN(Seen(sh, issuer) + [flag], capacity)],
      lh[issuer := Seen(lh, issuer) + [latency]],
      sh[issuer := Seen(sh, issuer) + [flag]], capacity)
  {
    var lh', sh' := Seen(lh, issuer) + [latency], Seen(sh, issuer) + [flag];
    var lw2, sw2 := lw[issuer := LastN(lh', capacity)], sw[issuer := LastN(sh', capacity)];
    var lh2, sh2 := lh[issuer := lh'], sh[issuer := sh'];
    assert lw2.Keys == lw.Keys + {issuer};
    assert sw2.Keys == sw.Keys + {issuer};
    assert lh2.Keys == lh.Keys + {issuer};
    assert sh2.Keys == sh.Keys + {issuer};
    forall i | i in lw2
      ensures |lh2[i]| == |sh2[i]|
      ensures lw2[i] == LastN(lh2[i], capacity) && sw2[i] == LastN(sh2[i], capacity)
    {
      if i != issuer {
        assert i in lw;
      }
    }
  }

  class WatchdogAgent {
    const windowSize: nat
    const zThreshold: real
    var latencyWindows: map<string, seq<int>>
    var successWindows: map<string, seq<int>>
    /** Every latency and success flag ever observed per issuer, oldest first. */
    ghost var latencyHistory: map<string, seq<int>>
    ghost var successHistory: map<string, seq<int>>

    /** Both windows of an issuer exist together and hold the newest
        `windowSize` observations of that issuer, in insertion order. */
    ghost predicate Valid()
      reads this
    {
      WindowsMatch(latencyWindows, successWindows, latencyHistory, successHistory, windowSize)
    }

    constructor (windowSize: nat := 50, zThreshold: real := 2.0)
      ensures Valid()
      ensures this.windowSize == windowSize && this.zThreshold == zThreshold
      ensures latencyWindows == map[] && successWindows == map[]
      ensures latencyHistory == map[] && successHistory == map[]
    {
      this.windowSize := windowSize;
      this.zThreshold := zThreshold;
      latencyWindows, successWindows := map[], map[];
      latencyHistory, successHistory := map[], map[];
    }

    /** The alert, if any, for the current windows of `issuer`: it depends
        only on the newest `windowSize` observations of that issuer. */
    function DetectAnomalies(issuer: string): (r: Option<Alert>)
      reads this
      requires Valid() && issuer in latencyWindows
      ensures r == Classify(LastN(latencyHistory[issuer], windowSize), LastN(successHistory[issuer], windowSize), zThreshold)
    {
      Classify(latencyWindows[issuer], successWindows[issuer], zThreshold)
    }

    /** Records one transaction in its issuer's windows (creating them on
        first sight) and classifies the issuer. No other issuer changes. */
    method ProcessTransaction(tx: Transaction) returns (alert: Option<Alert>)
      requires Valid()
      modifies this
      ensures Valid()
      ensures latencyHistory ==
                old(latencyHistory)[tx.issuer := Seen(old(latencyHistory), tx.issuer) + [tx.latencyMs]]
      ensures successHistory ==
                old(successHistory)[tx.issuer := Seen(old(successHistory), tx.issuer) + [SuccessFlag(tx.status)]]
      ensures latencyWindows ==
                old(latencyWindows)[tx.issuer := LastN(latencyHistory[tx.issuer], windowSize)]
      ensures successWindows ==
                old(successWindows)[tx.issuer := LastN(successHistory[tx.issuer], windowSize)]
      ensures |latencyWindows[tx.issuer]| == |successWindows[tx.issuer]| <= windowSize
      ensures alert == Classify(latencyWindows[tx.issuer], successWindows[tx.issuer], zThreshold)
    {
      var issuer := tx.issuer;
      var flag := SuccessFlag(tx.status);
      ghost var lh, sh := Seen(latencyHistory, issuer), Seen(successHistory, issuer);
      var lw, sw := [], [];
      if issuer in latencyWindows {
        lw, sw := latencyWindows[issuer], successWindows[issuer];
      }
      assert lw == LastN(lh, windowSize) && sw == LastN(sh, windowSize);
      LastNConcat(lh, [tx.latencyMs], windowSize);
      LastNConcat(sh, [flag], windowSize);
      ObservePreservesMatch(latencyWindows, successWindows, latencyHistory, successHistory, windowSize,
                            issuer, tx.latencyMs, flag);
      latencyWindows := latencyWindows[issuer := DequeAppend(lw, tx.latencyMs, windowSize)];
      successWindows := successWindows[issuer := DequeAppend(sw, flag, windowSize)];
      latencyHistory := latencyHistory[issuer := lh + [tx.latencyMs]];
      successHistory := successHistory[issuer := sh + [flag]];
      alert := DetectAnomalies(issuer);
    }
  }
}
