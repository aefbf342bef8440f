/** The ends of a sequence, as Python's slices `s[-n:]` and `s[:n]` cut them for a positive `n`. */
module Sequences {
  function LastOf<T>(s: seq<T>, n: nat): seq<T> {
    if |s| > n then s[|s| - n..] else s
  }

  function FirstOf<T>(s: seq<T>, n: nat): seq<T> {
    if |s| > n then s[..n] else s
  }

  lemma CutChanges<T>(s: seq<T>, n: nat)
    ensures FirstOf(s, n) == s <==> |s| <= n
    ensures LastOf(s, n) == s <==> |s| <= n
  {
    if |s| > n {
      assert |FirstOf(s, n)| == n && |LastOf(s, n)| == n;
    }
  }

  lemma LastOfConcat<T>(a: seq<T>, x: T, n: nat)
    requires n > 0
    ensures LastOf(LastOf(a, n) + [x], n) == LastOf(a + [x], n)
  {
  }
}
