/** The z-score detector: the tested value is part of the sample it is compared with. */
module AnomalyDetector {
  import opened Reals
  import opened Sequences

  function Sum(s: seq<real>): real {
    if |s| == 0 then 0.0 else Sum(s[..|s| - 1]) + s[|s| - 1]
  }

  /** Sum of the squared deviations from `m`. */
  function SquaredDeviations(s: seq<real>, m: real): real {
    if |s| == 0 then 0.0
    else SquaredDeviations(s[..|s| - 1], m) + Square(s[|s| - 1] - m)
  }

  function Mean(s: seq<real>): real
    requires |s| > 0
  {
    Sum(s) / |s| as real
  }

  /** Population variance: divided by the number of values. */
  function Variance(s: seq<real>): real
    requires |s| > 0
  {
    SquaredDeviations(s, Mean(s)) / |s| as real
  }

  function Abs(x: real): real {
    if x >= 0.0 then x else -x
  }

  /** Python's `s[-w:]` where the list is longer than `w`: the last `w` values for a positive window, the
      whole list for 0, and for a negative window all but the first -w. */
  function Kept(s: seq<real>, w: int): seq<real> {
    if |s| <= w then s
    else if w > 0 then s[|s| - w..]
    else if -w <= |s| then s[-w..]
    else []
  }

  /** What one check reports for a value after a (window-sized) history, given the root of the sample's variance. */
  function Verdict(history: seq<real>, value: real, threshold: real, std: real): (bool, real) {
    var sample := history + [value];
    if |sample| == 1 then (false, 0.0)
    else if std == 0.0 then (value != sample[0], 0.0)
    else
      var z := Score(sample, value, std);
      (z > threshold, z)
  }

  function Score(sample: seq<real>, value: real, std: real): real
    requires |sample| > 0 && std != 0.0
  {
    Abs((value - Mean(sample)) / std)
  }

  // ---------------------------------------------------------------- Samuelson's inequality

  lemma {:induction false} DeviationsSum(s: seq<real>, m: real)
    ensures Sum(s) - |s| as real * m == DeviationSum(s, m)
  {
    if |s| > 0 {
      DeviationsSum(s[..|s| - 1], m);
    }
  }

  function DeviationSum(s: seq<real>, m: real): real {
    if |s| == 0 then 0.0 else DeviationSum(s[..|s| - 1], m) + (s[|s| - 1] - m)
  }

  lemma {:induction false} SquaredDeviationsNonNegative(s: seq<real>, m: real)
    ensures SquaredDeviations(s, m) >= 0.0
  {
    if |s| > 0 {
      SquaredDeviationsNonNegative(s[..|s| - 1], m);
    }
  }

  /** One step of Cauchy-Schwarz: from (n, a, q) to (n + 1, a + x, q + x^2). */
  lemma CauchyStep(n: nat, a: real, q: real, x: real)
    requires Square(a) <= n as real * q && q >= 0.0
    ensures Square(a + x) <= (n + 1) as real * (q + Square(x))
  {
    var r := n as real;
    assert (r + 1.0) * (q + x * x) == r * q + q + r * (x * x) + x * x;
    assert (a + x) * (a + x) == a * a + 2.0 * (a * x) + x * x;
    if n == 0 {
      SquareZero(a);
    } else {
      var rest := q + r * (x * x) - 2.0 * (a * x);
      assert Square(a - r * x) == a * a - 2.0 * r * (a * x) + r * r * (x * x);
      assert r * rest == r * q + r * r * (x * x) - 2.0 * r * (a * x);
      PositiveFactor(r, rest);
    }
  }

  lemma {:induction false} CauchySchwarz(s: seq<real>, m: real)
    ensures Square(DeviationSum(s, m)) <= |s| as real * SquaredDeviations(s, m)
  {
    if |s| > 0 {
      var init := s[..|s| - 1];
      CauchySchwarz(init, m);
      SquaredDeviationsNonNegative(init, m);
      CauchyStep(|init|, DeviationSum(init, m), SquaredDeviations(init, m), s[|s| - 1] - m);
    }
  }

  lemma DeviationsFromMean(s: seq<real>)
    requires |s| > 0
    ensures DeviationSum(s, Mean(s)) == 0.0
  {
    var n := |s| as real;
    DeviationsSum(s, Mean(s));
    assert Sum(s) / n * n == Sum(s);
    assert n * Mean(s) == Sum(s);
  }

  /** The deviation of the last value against the spread of all: N d^2 <= (N - 1) (sum of squares). */
  lemma LastDeviation(history: seq<real>, value: real)
    ensures var s := history + [value];
            (|history| as real + 1.0) * Square(value - Mean(s)) <= |history| as real * SquaredDeviations(s, Mean(s))
  {
    var s := history + [value];
    DeviationsFromMean(s);
    LastAgainstOthers(history, value, Mean(s));
  }

  lemma LastAgainstOthers(history: seq<real>, value: real, m: real)
    requires DeviationSum(history + [value], m) == 0.0
    ensures (|history| as real + 1.0) * Square(value - m) <= |history| as real * SquaredDeviations(history + [value], m)
  {
    assert (history + [value])[..|history|] == history;
    CauchySchwarz(history, m);
    SquareNegated(value - m);
    SplitLast(|history| as real, SquaredDeviations(history, m), Square(value - m));
  }

  lemma SplitLast(n: real, q: real, e: real)
    requires e <= n * q
    ensures (n + 1.0) * e <= n * (q + e)
  {
    assert (n + 1.0) * e == n * e + e && n * (q + e) == n * q + n * e;
  }

  lemma ScoreArithmetic(z: real, std: real, d: real, v: real, N: real, n: real, total: real)
    requires z * std == d && Square(std) == v && v * N == total && v > 0.0 && N > 0.0
    requires N * Square(d) <= n * total
    ensures Square(z) <= n
  {
    var w := v * N;
    assert w > 0.0;
    assert Square(d) == (z * std) * (z * std) == Square(z) * v;
    assert N * (Square(z) * v) == Square(z) * w;
    if Square(z) > n {
      MulStrict(n, Square(z), w);
    }
  }

  lemma QuotientTimes(x: real, y: real)
    requires y != 0.0
    ensures x / y * y == x
  {
  }

  lemma ScoreFromDeviation(d: real, std: real, N: real, n: real, total: real)
    requires std > 0.0 && N > 0.0 && Square(std) == total / N
    requires N * Square(d) <= n * total
    ensures Square(d / std) <= n
  {
    QuotientTimes(d, std);
    QuotientTimes(total, N);
    SquareStrict(0.0, std);
    ScoreArithmetic(d / std, std, d, Square(std), N, n, total);
  }

  /** Samuelson: the score of a value that belongs to the sample is at most the root of the number of the others. */
  lemma ScoreBounded(history: seq<real>, value: real, std: real)
    requires IsRoot(std, Variance(history + [value])) && std > 0.0
    ensures Square((value - Mean(history + [value])) / std) <= |history| as real
  {
    var s := history + [value];
    var N := |history| as real + 1.0;
    assert N == |s| as real;
    LastDeviation(history, value);
    ScoreFromDeviation(value - Mean(s), std, N, |history| as real, SquaredDeviations(s, Mean(s)));
  }

  lemma {:induction false} ZeroSpread(s: seq<real>, m: real)
    requires SquaredDeviations(s, m) == 0.0
    ensures forall i :: 0 <= i < |s| ==> s[i] == m
  {
    if |s| > 0 {
      var init := s[..|s| - 1];
      SquaredDeviationsNonNegative(init, m);
      SquareZero(s[|s| - 1] - m);
      ZeroSpread(init, m);
    }
  }

  /** The zero-variance branch compares equal values: it never reports an anomaly. */
  lemma UniformNeverAnomalous(history: seq<real>, value: real, threshold: real, std: real)
    requires IsRoot(std, Variance(history + [value])) && std == 0.0
    ensures !Verdict(history, value, threshold, std).0
  {
    var s := history + [value];
    assert Variance(s) * |s| as real == SquaredDeviations(s, Mean(s));
    ZeroSpread(s, Mean(s));
    assert s[|s| - 1] == s[0];
  }

  /** No anomaly can be reported before the history is longer than the squared threshold. */
  lemma AnomalyNeedsHistory(history: seq<real>, value: real, threshold: real, std: real)
    requires threshold >= 0.0 && IsRoot(std, Variance(history + [value]))
    requires Verdict(history, value, threshold, std).0
    ensures |history| as real > Square(threshold)
  {
    if std == 0.0 {
      UniformNeverAnomalous(history, value, threshold, std);
    } else {
      ScoreBounded(history, value, std);
      var z := (value - Mean(history + [value])) / std;
      SquareNegated(z);
      SquareStrict(threshold, Abs(z));
    }
  }

  /** The score is the distance from the mean in standard deviations. */
  lemma ScoreIsDistance(sample: seq<real>, value: real, std: real)
    requires |sample| > 0 && std > 0.0
    ensures Score(sample, value, std) * std == Abs(value - Mean(sample))
  {
    QuotientTimes(value - Mean(sample), std);
    QuotientNegated(value - Mean(sample), std);
    QuotientMonotone(0.0, Abs(value - Mean(sample)), std);
  }

  lemma ExceedsIff(z: real, t: real, std: real, d: real)
    requires std > 0.0 && z * std == Abs(d)
    ensures z > t <==> d > t * std || d < -(t * std)
  {
    if z > t {
      MulStrict(t, z, std);
    } else {
      MulMonotone(z, t, std);
    }
  }

  /** What is reported, of any value after any history: one that lies more than `threshold` standard
      deviations above the mean of the sample, or as far below it; and never the first value. */
  lemma ReportedIff(history: seq<real>, value: real, threshold: real, std: real)
    requires IsRoot(std, Variance(history + [value]))
    ensures Verdict(history, value, threshold, std).0
       <==> |history| > 0 && std > 0.0 && IsOutlier(value, Mean(history + [value]), threshold * std)
  {
    var sample := history + [value];
    if std == 0.0 {
      UniformNeverAnomalous(history, value, threshold, std);
    } else {
      ScoreIsDistance(sample, value, std);
      ExceedsIff(Score(sample, value, std), threshold, std, value - Mean(sample));
    }
  }

  // ---------------------------------------------------------------- the bound is attained

  function Constant(n: nat, c: real): seq<real> {
    seq(n, _ => c)
  }

  lemma {:induction false} ConstantSums(n: nat, c: real, m: real)
    ensures Sum(Constant(n, c)) == n as real * c
    ensures SquaredDeviations(Constant(n, c), m) == n as real * Square(c - m)
  {
    if n > 0 {
      ConstantSums(n - 1, c, m);
      assert Constant(n, c)[..n - 1] == Constant(n - 1, c);
      assert n as real == (n - 1) as real + 1.0;
      var k, e := (n - 1) as real, Square(c - m);
      assert (k + 1.0) * c == k * c + c && (k + 1.0) * e == k * e + e;
    }
  }

  /** After n zeros the value n + 1 is n above the mean 1, with variance n: its squared score is exactly n. */
  lemma SpikeSample(n: nat)
    requires n > 0
    ensures var s := Constant(n, 0.0) + [n as real + 1.0];
            Mean(s) == 1.0 && Variance(s) == n as real
  {
    var s := Constant(n, 0.0) + [n as real + 1.0];
    var N := n as real + 1.0;
    assert s[..n] == Constant(n, 0.0);
    ConstantSums(n, 0.0, 1.0);
    assert Sum(s) == N;
    assert |s| as real == N;
    assert Mean(s) == 1.0;
    assert SquaredDeviations(s, 1.0) == n as real + n as real * n as real;
    assert n as real + n as real * n as real == n as real * N;
  }

  /** The detector, computing its root as it does, reports `value` after this history. */
  ghost predicate Reports(history: seq<real>, value: real, threshold: real, std: real) {
    IsRoot(std, Variance(history + [value])) && Verdict(history, value, threshold, std).0
  }

  /** With a root of n at hand, the spike is reported as soon as n is larger than the squared threshold. */
  lemma SpikeIsReported(n: nat, threshold: real, root: real)
    requires threshold >= 0.0 && n as real > Square(threshold) && IsRoot(root, n as real)
    ensures Reports(Constant(n, 0.0), n as real + 1.0, threshold, root)
  {
    SpikeSample(n);
    var z := n as real / root;
    assert root > 0.0;
    assert z * root == n as real == Square(root) == root * root;
    assert z == root by {
      if z < root {
        MulStrict(z, root, root);
      } else if z > root {
        MulStrict(root, z, root);
      }
    }
    if root < threshold {
      SquareStrict(root, threshold);
    }
  }

  /** So the length bound cannot be improved: after some history of length n some value is reported
      exactly when n is larger than the squared threshold. */
  lemma AnomalyPossibleIffLongEnough(n: nat, threshold: real, root: real)
    requires threshold >= 0.0 && IsRoot(root, n as real)
    ensures (exists history, value, std :: |history| == n && Reports(history, value, threshold, std))
       <==> n as real > Square(threshold)
  {
    if n as real > Square(threshold) {
      SpikeIsReported(n, threshold, root);
    }
    forall history, value, std | |history| == n && Reports(history, value, threshold, std)
      ensures n as real > Square(threshold)
    {
      AnomalyNeedsHistory(history, value, threshold, std);
    }
  }

  /** With the default threshold of three, ten earlier values are needed. */
  lemma DefaultThresholdNeedsTen(history: seq<real>, value: real, std: real)
    requires IsRoot(std, Variance(history + [value])) && Verdict(history, value, 3.0, std).0
    ensures |history| >= 10
  {
    AnomalyNeedsHistory(history, value, 3.0, std);
  }

  // ---------------------------------------------------------------- the stored history

  /** One update of a metric's history. */
  function Updated(history: seq<real>, value: real, window: int): seq<real> {
    Kept(history + [value], window)
  }

  /** A metric's history after feeding in `values`, in order. */
  function Stored(values: seq<real>, window: int): seq<real> {
    if |values| == 0 then [] else Updated(Stored(values[..|values| - 1], window), values[|values| - 1], window)
  }

  lemma KeptIsLast(s: seq<real>, w: int)
    requires w >= 1
    ensures Kept(s, w) == LastOf(s, w)
  {
  }

  /** After any run the stored history is the last `window` values fed in; a window of 0 keeps
      everything, a negative one nothing. */
  lemma {:induction false} HistoryIsLastWindow(values: seq<real>, window: int)
    ensures Stored(values, window) == if window >= 1 then LastOf(values, window) else if window == 0 then values else []
  {
    if |values| > 0 {
      var before, v := values[..|values| - 1], values[|values| - 1];
      HistoryIsLastWindow(before, window);
      assert values == before + [v];
      if window >= 1 {
        KeptIsLast(LastOf(before, window) + [v], window);
        LastOfConcat(before, v, window);
      }
    }
  }

  /** With a negative window no history builds up, so nothing is ever reported. */
  lemma NegativeWindowNeverReports(values: seq<real>, value: real, window: int, threshold: real, std: real)
    requires window < 0
    ensures !Verdict(Kept(Stored(values, window), window), value, threshold, std).0
  {
    HistoryIsLastWindow(values, window);
  }

  /** `value` is more than `margin` above or below `mean`. */
  predicate IsOutlier(value: real, mean: real, margin: real) {
    value > mean + margin || value < mean - margin
  }

  class Detector {
    const windowSize: int
    const zThreshold: real
    var history: map<string, seq<real>>

    ghost function HistoryOf(metric: string): seq<real>
      reads this
    {
      if metric in history then history[metric] else []
    }

    constructor (windowSize: int, zThreshold: real)
      ensures history == map[] && this.windowSize == windowSize && this.zThreshold == zThreshold
    {
      this.windowSize := windowSize;
      this.zThreshold := zThreshold;
      history := map[];
    }

    /** Appending a value to a metric's history and cutting it to the window. */
    method Append(metric: string, value: real)
      modifies this`history
      ensures history == old(history)[metric := Updated(old(HistoryOf(metric)), value, windowSize)]
    {
      var longer := (if metric in history then history[metric] else []) + [value];
      if |longer| > windowSize {
        longer := Kept(longer, windowSize);
      }
      history := history[metric := longer];
    }

    /** The verdict on a value after a history already cut to the window. */
    method Check(historical: seq<real>, value: real, std: real) returns (isAnomaly: bool, zScore: real)
      requires IsRoot(std, Variance(historical + [value]))
      ensures (isAnomaly, zScore) == Verdict(historical, value, zThreshold, std)
      ensures isAnomaly && zThreshold >= 0.0 ==> |historical| as real > Square(zThreshold)
      ensures isAnomaly <==> |historical| > 0 && std > 0.0 && IsOutlier(value, Mean(historical + [value]), zThreshold * std)
      ensures zScore >= 0.0 && (|historical| > 0 && std > 0.0 ==> zScore * std == Abs(value - Mean(historical + [value])))
    {
      ReportedIff(historical, value, zThreshold, std);
      var sample := historical + [value];
      if |sample| == 1 {
        isAnomaly, zScore := false, 0.0;
      } else if std == 0.0 {
        isAnomaly, zScore := value != sample[0], 0.0;
      } else {
        ScoreIsDistance(sample, value, std);
        zScore := Score(sample, value, std);
        isAnomaly := zScore > zThreshold;
      }
      if isAnomaly && zThreshold >= 0.0 {
        AnomalyNeedsHistory(historical, value, zThreshold, std);
      }
    }

    /** `update_and_check`; `std` is the square root the code takes of the sample's variance. */
    method UpdateAndCheck(metric: string, value: real, std: real) returns (isAnomaly: bool, zScore: real)
      requires IsRoot(std, Variance(Kept(HistoryOf(metric), windowSize) + [value]))
      modifies this`history
      ensures (isAnomaly, zScore) == Verdict(Kept(old(HistoryOf(metric)), windowSize), value, zThreshold, std)
      ensures isAnomaly && zThreshold >= 0.0 ==> |Kept(old(HistoryOf(metric)), windowSize)| as real > Square(zThreshold)
      ensures isAnomaly <==>
                var kept := Kept(old(HistoryOf(metric)), windowSize);
                |kept| > 0 && std > 0.0 && IsOutlier(value, Mean(kept + [value]), zThreshold * std)
      ensures history == old(history)[metric := Updated(old(HistoryOf(metric)), value, windowSize)]
    {
      var historical := if metric in history then history[metric] else [];
      if |historical| > windowSize {
        historical := Kept(historical, windowSize);
      }
      isAnomaly, zScore := Check(historical, value, std);
      Append(metric, value);
    }
  }
}
