/** The reference drawdown of core/benchmark.py: one pass with a running peak. */
module Benchmark {
  import opened Reals
  import opened Rounding

  function Max(a: real, b: real): real {
    if a >= b then a else b
  }

  /** The fall from `high` to `c`, in per cent of `high`. */
  function Drop(high: real, c: real): real {
    if high > 0.0 then (high - c) / high * 100.0 else 0.0
  }

  function Peak(s: seq<real>): (p: real)
    requires |s| > 0
    ensures p in s
    ensures forall c :: c in s ==> c <= p
  {
    if |s| == 1 then s[0]
    else
      var rest := Peak(s[..|s| - 1]);
      assert s == s[..|s| - 1] + [s[|s| - 1]];
      if rest >= s[|s| - 1] then rest else s[|s| - 1]
  }

  /** The deepest fall below the running peak, not yet rounded. */
  function Drawdown(s: seq<real>): (d: real)
    ensures d >= 0.0
  {
    if |s| == 0 then 0.0
    else Max(Drawdown(s[..|s| - 1]), Drop(Peak(s), s[|s| - 1]))
  }

  lemma DrawdownSnoc(s: seq<real>, c: real)
    ensures Drawdown(s + [c]) == Max(Drawdown(s), Drop(Peak(s + [c]), c))
    ensures |s| > 0 ==> Peak(s + [c]) == Max(Peak(s), c)
  {
    assert (s + [c])[..|s|] == s;
  }

  /** `_max_drawdown` */
  method MaxDrawdown(closes: seq<real>) returns (pct: real)
    ensures pct == Round2(Drawdown(closes))
  {
    if |closes| < 2 {
      WholeIsFixed(0);
      return 0.0;
    }
    var peak := closes[0];
    var mdd := 0.0;
    for i := 0 to |closes|
      invariant peak == if i == 0 then closes[0] else Peak(closes[..i])
      invariant mdd == Drawdown(closes[..i])
    {
      var c := closes[i];
      peak := Max(peak, c);
      var dd := if peak > 0.0 then (peak - c) / peak * 100.0 else 0.0;
      assert closes[..i + 1] == closes[..i] + [c];
      DrawdownSnoc(closes[..i], c);
      mdd := Max(mdd, dd);
    }
    assert closes[..|closes|] == closes;
    pct := Round2(mdd);
  }

  /** `d` is the deepest fall over all pairs of an earlier and a later value. */
  ghost predicate IsDeepestFall(s: seq<real>, d: real) {
    && (forall i, j :: 0 <= i <= j < |s| ==> Drop(s[i], s[j]) <= d)
    && (d == 0.0 || exists i, j :: 0 <= i <= j < |s| && Drop(s[i], s[j]) == d)
  }

  /** Falling to a non-negative value from a higher high is the deeper fall. */
  lemma DropMonotone(a: real, b: real, c: real)
    requires a <= b && c >= 0.0
    requires c <= b
    ensures Drop(a, c) <= Drop(b, c)
  {
    if a > 0.0 {
      QuotientAntitone(c, a, b);
      QuotientSelf(a);
      QuotientSelf(b);
      QuotientDifference(a, c, a);
      QuotientDifference(b, c, b);
    } else if b > 0.0 {
      QuotientMonotone(0.0, b - c, b);
    }
  }

  /** No fall to a value that is not negative is deeper than the running-peak drawdown. */
  lemma {:induction false} NoDeeperFall(s: seq<real>, i: int, j: int)
    requires 0 <= i <= j < |s| && s[j] >= 0.0
    ensures Drop(s[i], s[j]) <= Drawdown(s)
    decreases |s|
  {
    var n := |s| - 1;
    var d, last := Drawdown(s[..n]), Drop(Peak(s), s[n]);
    if j < n {
      NoDeeperFall(s[..n], i, j);
      assert Drawdown(s) == Max(d, last);
    } else {
      assert s[i] in s && s[n] in s;
      DropMonotone(s[i], Peak(s), s[n]);
      assert Drawdown(s) == Max(d, last);
    }
  }

  lemma {:induction false} FallAttained(s: seq<real>) returns (i: int, j: int)
    requires Drawdown(s) != 0.0
    ensures 0 <= i <= j < |s| && Drop(s[i], s[j]) == Drawdown(s)
  {
    var n := |s| - 1;
    if Drawdown(s) == Drawdown(s[..n]) {
      i, j := FallAttained(s[..n]);
    } else {
      i :| 0 <= i < |s| && s[i] == Peak(s);
      j := n;
    }
  }

  /** The least positive value, 0 if there is none: to a negative value the deepest fall starts there. */
  function LowestPositive(s: seq<real>): (p: real)
    ensures p >= 0.0
    ensures p > 0.0 ==> p in s
    ensures forall c :: c in s && c > 0.0 ==> 0.0 < p <= c
  {
    if |s| == 0 then 0.0
    else
      var rest, c := LowestPositive(s[..|s| - 1]), s[|s| - 1];
      assert s == s[..|s| - 1] + [c];
      if c > 0.0 && (rest == 0.0 || c < rest) then c else rest
  }

  /** To a negative value the fall from the lower positive value is the deeper one. */
  lemma DropToNegative(low: real, high: real, c: real)
    requires 0.0 < low <= high && c < 0.0
    ensures Drop(high, c) <= Drop(low, c)
  {
    QuotientAntitone(-c, low, high);
    QuotientSelf(low);
    QuotientSelf(high);
    QuotientDifference(low, c, low);
    QuotientDifference(high, c, high);
    QuotientNegated(c, low);
    QuotientNegated(c, high);
  }

  /** The least positive value is one of the values. */
  lemma LowestIsBefore(s: seq<real>, j: int)
    requires 0 <= j < |s| && LowestPositive(s[..j]) > 0.0
    ensures exists i :: 0 <= i < j && s[i] == LowestPositive(s[..j])
  {
    var p := LowestPositive(s[..j]);
    assert p in s[..j];
    var i :| 0 <= i < j && s[..j][i] == p;
    assert s[i] == p;
  }

  /** Whether any fall at all exceeds a bound that the running-peak drawdown respects is decided by
      the negative values alone, each against the least positive value before it. */
  lemma FallsWithinIff(s: seq<real>, bound: real)
    requires Drawdown(s) <= bound
    ensures (forall i, j :: 0 <= i <= j < |s| ==> Drop(s[i], s[j]) <= bound) <==> NegativesWithin(s, bound)
  {
    if NegativesWithin(s, bound) {
      forall i, j | 0 <= i <= j < |s| ensures Drop(s[i], s[j]) <= bound {
        FallWithin(s, bound, i, j);
      }
    }
    if forall i, j :: 0 <= i <= j < |s| ==> Drop(s[i], s[j]) <= bound {
      forall j | 0 <= j < |s| && s[j] < 0.0 ensures Drop(LowestPositive(s[..j]), s[j]) <= bound {
        if LowestPositive(s[..j]) > 0.0 {
          LowestIsBefore(s, j);
        }
      }
    }
  }

  /** One pass with the least positive value so far: no negative value falls below it by more than `bound`. */
  ghost predicate NegativesWithin(s: seq<real>, bound: real) {
    forall j :: 0 <= j < |s| && s[j] < 0.0 ==> Drop(LowestPositive(s[..j]), s[j]) <= bound
  }

  lemma LowestIsLowest(s: seq<real>, i: int, j: int)
    requires 0 <= i < j <= |s| && s[i] > 0.0
    ensures 0.0 < LowestPositive(s[..j]) <= s[i]
  {
    assert s[..j][i] == s[i] && s[i] in s[..j];
  }

  lemma NoFallFromBelow(high: real, c: real)
    requires high <= 0.0
    ensures Drop(high, c) == 0.0
  {
  }

  lemma FallWithin(s: seq<real>, bound: real, i: int, j: int)
    requires Drawdown(s) <= bound && NegativesWithin(s, bound) && 0 <= i <= j < |s|
    ensures Drop(s[i], s[j]) <= bound
  {
    if s[j] >= 0.0 {
      NoDeeperFall(s, i, j);
    } else if s[i] <= 0.0 {
      NoFallFromBelow(s[i], s[j]);
    } else {
      LowestIsLowest(s, i, j);
      DropToNegative(LowestPositive(s[..j]), s[i], s[j]);
    }
  }

  /** The single pass finds the deepest fall over all pairs exactly when no negative value falls
      deeper below the least positive value before it; on prices, which are never negative, always. */
  lemma DrawdownIsDeepestFall(s: seq<real>)
    ensures IsDeepestFall(s, Drawdown(s)) <==> NegativesWithin(s, Drawdown(s))
    ensures (forall k :: 0 <= k < |s| ==> s[k] >= 0.0) ==> IsDeepestFall(s, Drawdown(s))
  {
    FallsWithinIff(s, Drawdown(s));
    if Drawdown(s) != 0.0 {
      var i, j := FallAttained(s);
    }
  }

  /** On every series it is at most the deepest fall. */
  lemma DrawdownAtMostDeepest(s: seq<real>, d: real)
    requires IsDeepestFall(s, d) && d >= 0.0
    ensures Drawdown(s) <= d
  {
    if Drawdown(s) != 0.0 {
      var i, j := FallAttained(s);
    }
  }

  /** A negative value breaks it: from 1 to -1 is a deeper fall (200%) than from the peak 2 to -1 (150%). */
  lemma NegativeValueBreaksDeepestFall()
    ensures !IsDeepestFall([1.0, 2.0, -1.0], Drawdown([1.0, 2.0, -1.0]))
  {
    var s := [1.0, 2.0, -1.0];
    DrawdownSnoc([], 1.0);
    DrawdownSnoc([1.0], 2.0);
    DrawdownSnoc([1.0, 2.0], -1.0);
    assert [1.0] + [2.0] == [1.0, 2.0] && [1.0, 2.0] + [-1.0] == s && [] + [1.0] == [1.0];
    assert Drop(s[0], s[2]) == 200.0;
    assert Drawdown(s) == 150.0;
  }
}
