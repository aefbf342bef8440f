/** Sizes of finite sets. */
module Sets {
  lemma {:induction false} SubsetSize<T>(a: set<T>, b: set<T>)
    requires a <= b
    ensures |a| <= |b|
  {
    if a != {} {
      var x :| x in a;
      SubsetSize(a - {x}, b - {x});
    }
  }

  /** A set within an interval is at most as large as it, and as large exactly if it fills it. */
  lemma {:induction false} IntervalSize(lo: nat, n: nat, s: set<nat>)
    requires forall i :: i in s ==> lo <= i < lo + n
    ensures |s| <= n
    ensures (forall i :: lo <= i < lo + n ==> i in s) ==> |s| == n
    decreases n
  {
    if n == 0 {
      assert s == {};
    } else {
      IntervalSize(lo, n - 1, s - {lo + n - 1});
    }
  }
}
