/** A fact about runs: where one property can only be lost by another. */
module Steps {
  /** If `good` holds at first and is kept by step i exactly when `bad(i)` does not happen,
      it holds throughout exactly when nothing bad happened. */
  lemma {:induction false} HoldsIffNothingBad(good: nat -> bool, bad: nat -> bool, from: nat, k: nat)
    requires from <= k && good(from)
    requires forall i: nat :: from <= i < k && good(i) ==> (good(i + 1) <==> !bad(i))
    ensures (forall j: nat :: from <= j <= k ==> good(j)) <==> (forall i: nat :: from <= i < k ==> !bad(i))
    decreases k
  {
    if k > from {
      HoldsIffNothingBad(good, bad, from, k - 1);
      assert good(k - 1) ==> (good(k - 1 + 1) <==> !bad(k - 1));
    }
  }
}
