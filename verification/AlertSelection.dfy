/** Which candidates of a scan are alerted: at most two leaders per category, then the best of the rest. */
module AlertSelection {
  import opened Sets

  datatype Candidate = Candidate(symbol: string, series: string, score: int, confidence: real, mlProbability: real)

  /** `a` does not come after `b` in the descending sort by (score, confidence, probability). */
  predicate NotBelow(a: Candidate, b: Candidate) {
    || a.score > b.score
    || (a.score == b.score && a.confidence > b.confidence)
    || (a.score == b.score && a.confidence == b.confidence && a.mlProbability >= b.mlProbability)
  }

  /** Score decides first, then confidence, then probability; only candidates equal in all three may stand either way. */
  lemma RankOrder(a: Candidate, b: Candidate, c: Candidate)
    ensures a.score > b.score ==> NotBelow(a, b) && !NotBelow(b, a)
    ensures a.score == b.score && a.confidence > b.confidence ==> NotBelow(a, b) && !NotBelow(b, a)
    ensures a.score == b.score && a.confidence == b.confidence && a.mlProbability > b.mlProbability ==> NotBelow(a, b) && !NotBelow(b, a)
    ensures NotBelow(a, b) || NotBelow(b, a)
    ensures NotBelow(a, b) && NotBelow(b, c) ==> NotBelow(a, c)
  {
  }

  ghost predicate Ranked(cs: seq<Candidate>) {
    forall i, j :: 0 <= i < j < |cs| ==> NotBelow(cs[i], cs[j])
  }

  function Categories(cs: seq<Candidate>, classify: Candidate -> string): (cats: seq<string>)
    ensures |cats| == |cs|
    ensures forall i :: 0 <= i < |cs| ==> cats[i] == classify(cs[i])
  {
    seq(|cs|, i requires 0 <= i < |cs| => classify(cs[i]))
  }

  // ---------------------------------------------------------------- subsets of candidates, as sets of ranks

  /** The members of `x` ranked before `m` with a category in `c`. */
  ghost function Within(x: set<nat>, cats: seq<string>, m: nat, c: set<string>): set<nat> {
    set i | i in x && i < m && i < |cats| && cats[i] in c
  }

  /** What the leaders are chosen among: at most `k` candidates, at most two of a category. */
  ghost predicate Diverse(x: set<nat>, cats: seq<string>, k: nat) {
    && (forall i :: i in x ==> i < |cats|)
    && |x| <= k
    && forall c :: |Within(x, cats, |cats|, {c})| <= 2
  }

  ghost predicate Increasing(t: seq<nat>) {
    forall i, j :: 0 <= i < j < |t| ==> t[i] < t[j]
  }

  ghost function Members(t: seq<nat>): set<nat> {
    set i | i in t
  }

  /** The members of `x` ranked before `m`. */
  ghost function Below(x: set<nat>, m: nat): set<nat> {
    set i | i in x && i < m
  }

  lemma {:induction false} IncreasingSize(t: seq<nat>)
    requires Increasing(t)
    ensures |Members(t)| == |t|
  {
    if |t| > 0 {
      var n := |t| - 1;
      IncreasingSize(t[..n]);
      MembersSnoc(t);
    }
  }

  /** If `b` has at least as many members as `a` in every single category, it has as many in all of them together. */
  lemma {:induction false} CategoryWise(a: set<nat>, b: set<nat>, cats: seq<string>, m: nat, c: set<string>)
    requires forall k :: k in c ==> |Within(a, cats, m, {k})| <= |Within(b, cats, m, {k})|
    ensures |Within(a, cats, m, c)| <= |Within(b, cats, m, c)|
    decreases |c|
  {
    if c == {} {
      assert Within(a, cats, m, c) == {};
    } else {
      var k :| k in c;
      CategoryWise(a, b, cats, m, c - {k});
      SplitOff(a, cats, m, c, k);
      SplitOff(b, cats, m, c, k);
    }
  }

  lemma SplitOff(x: set<nat>, cats: seq<string>, m: nat, c: set<string>, k: string)
    requires k in c
    ensures |Within(x, cats, m, c)| == |Within(x, cats, m, {k})| + |Within(x, cats, m, c - {k})|
  {
    assert Within(x, cats, m, c) == Within(x, cats, m, {k}) + Within(x, cats, m, c - {k});
    assert Within(x, cats, m, {k}) !! Within(x, cats, m, c - {k});
  }

  // ---------------------------------------------------------------- the leaders

  /** How many of the picks have category `c`: the `category_counts` of the loop. */
  function CountOf(picks: seq<nat>, cats: seq<string>, c: string): nat {
    if |picks| == 0 then 0
    else
      var last := picks[|picks| - 1];
      CountOf(picks[..|picks| - 1], cats, c) + if last < |cats| && cats[last] == c then 1 else 0
  }

  /** Candidate `m` joins the leaders `l` unless they are full or have two of its category. */
  function Offer(cats: seq<string>, k: nat, m: nat, l: seq<nat>): seq<nat>
    requires m < |cats|
  {
    if |l| >= k || CountOf(l, cats, cats[m]) >= 2 then l else l + [m]
  }

  /** The leaders found among the first `m` candidates. */
  function Leaders(cats: seq<string>, k: nat, m: nat): seq<nat>
    requires m <= |cats|
  {
    if m == 0 then [] else Offer(cats, k, m - 1, Leaders(cats, k, m - 1))
  }

  lemma WithinInsert(x: set<nat>, i: nat, cats: seq<string>, m: nat, c: string)
    requires i < m <= |cats| && i !in x
    ensures |Within(x + {i}, cats, m, {c})| == |Within(x, cats, m, {c})| + if cats[i] == c then 1 else 0
  {
    var before := Within(x, cats, m, {c});
    assert i !in before;
    assert Within(x + {i}, cats, m, {c}) == if cats[i] == c then before + {i} else before;
  }

  lemma MembersSnoc(picks: seq<nat>)
    requires |picks| > 0 && Increasing(picks)
    ensures var n := |picks| - 1;
            Members(picks) == Members(picks[..n]) + {picks[n]} && picks[n] !in Members(picks[..n])
  {
  }

  lemma {:induction false} CountOfIsWithin(picks: seq<nat>, cats: seq<string>, m: nat, c: string)
    requires Increasing(picks) && m <= |cats| && forall i :: 0 <= i < |picks| ==> picks[i] < m
    ensures CountOf(picks, cats, c) == |Within(Members(picks), cats, m, {c})|
  {
    if |picks| == 0 {
      assert Within(Members(picks), cats, m, {c}) == {};
    } else {
      var n := |picks| - 1;
      CountOfIsWithin(picks[..n], cats, m, c);
      MembersSnoc(picks);
      WithinInsert(Members(picks[..n]), picks[n], cats, m, c);
    }
  }

  /** Leaders come in rank order, are diverse, and while there is room every candidate passed over had two leaders of its category. */
  ghost predicate Greedy(cats: seq<string>, k: nat, m: nat, l: seq<nat>)
    requires m <= |cats|
  {
    && Increasing(l)
    && (forall i :: 0 <= i < |l| ==> l[i] < m)
    && |l| <= k
    && (forall c :: CountOf(l, cats, c) <= 2)
    && (|l| < k ==> forall i: nat :: i < m && i !in l ==> CountOf(l, cats, cats[i]) == 2)
  }

  lemma CountOfSnoc(l: seq<nat>, cats: seq<string>, m: nat, c: string)
    requires m < |cats|
    ensures CountOf(l + [m], cats, c) == CountOf(l, cats, c) + if cats[m] == c then 1 else 0
  {
    assert (l + [m])[..|l|] == l;
  }

  lemma PickKeepsGreedy(cats: seq<string>, k: nat, m: nat, l: seq<nat>)
    requires m < |cats| && Greedy(cats, k, m, l) && |l| < k && CountOf(l, cats, cats[m]) < 2
    ensures Greedy(cats, k, m + 1, l + [m])
  {
    var next := l + [m];
    forall c ensures CountOf(next, cats, c) <= 2 {
      CountOfSnoc(l, cats, m, c);
    }
    forall i: nat | i < m + 1 && i !in next ensures CountOf(next, cats, cats[i]) == 2 {
      assert next[|l|] == m;
      assert i < m && i !in l;
      CountOfSnoc(l, cats, m, cats[i]);
    }
  }

  lemma PassKeepsGreedy(cats: seq<string>, k: nat, m: nat, l: seq<nat>)
    requires m < |cats| && Greedy(cats, k, m, l) && (|l| >= k || CountOf(l, cats, cats[m]) >= 2)
    ensures Greedy(cats, k, m + 1, l)
  {
    assert CountOf(l, cats, cats[m]) <= 2;
  }

  lemma NextLeadersGreedy(cats: seq<string>, k: nat, m: nat, l: seq<nat>)
    requires m < |cats| && Greedy(cats, k, m, l)
    ensures Greedy(cats, k, m + 1, Offer(cats, k, m, l))
  {
    if |l| >= k || CountOf(l, cats, cats[m]) >= 2 {
      PassKeepsGreedy(cats, k, m, l);
    } else {
      PickKeepsGreedy(cats, k, m, l);
    }
  }

  lemma {:induction false} LeadersAreGreedy(cats: seq<string>, k: nat, m: nat)
    requires m <= |cats|
    ensures Greedy(cats, k, m, Leaders(cats, k, m))
  {
    if m == 0 {
      NoLeadersGreedy(cats, k);
    } else {
      LeadersAreGreedy(cats, k, m - 1);
      NextLeadersGreedy(cats, k, m - 1, Leaders(cats, k, m - 1));
    }
  }

  lemma NoLeadersGreedy(cats: seq<string>, k: nat)
    ensures Greedy(cats, k, 0, [])
  {
    assert forall c :: CountOf([], cats, c) == 0;
  }

  lemma {:induction false} LeadersGrow(cats: seq<string>, k: nat, m: nat, n: nat)
    requires m <= n <= |cats|
    ensures Leaders(cats, k, m) <= Leaders(cats, k, n)
    decreases n
  {
    if m < n {
      LeadersGrow(cats, k, m, n - 1);
    }
  }

  /** The leaders themselves are a diverse choice. */
  lemma LeadersAreDiverse(cats: seq<string>, k: nat)
    ensures Diverse(Members(Leaders(cats, k, |cats|)), cats, k)
  {
    var l := Leaders(cats, k, |cats|);
    LeadersAreGreedy(cats, k, |cats|);
    IncreasingSize(l);
    forall c ensures |Within(Members(l), cats, |cats|, {c})| <= 2 {
      CountOfIsWithin(l, cats, |cats|, c);
    }
  }

  /** While the leaders have room, they have at least as many of each category as any diverse choice. */
  lemma CategoryDominance(cats: seq<string>, k: nat, m: nat, t: set<nat>, c: string)
    requires m <= |cats| && Diverse(t, cats, k) && |Leaders(cats, k, m)| < k
    ensures |Within(t, cats, m, {c})| <= |Within(Members(Leaders(cats, k, m)), cats, m, {c})|
  {
    var l := Leaders(cats, k, m);
    LeadersAreGreedy(cats, k, m);
    CountOfIsWithin(l, cats, m, c);
    if CountOf(l, cats, c) == 2 {
      SubsetSize(Within(t, cats, m, {c}), Within(t, cats, |cats|, {c}));
    } else {
      assert Within(t, cats, m, {c}) <= Within(Members(l), cats, m, {c});
      SubsetSize(Within(t, cats, m, {c}), Within(Members(l), cats, m, {c}));
    }
  }

  /** Among the first `m` candidates the leaders are at least as many as any diverse choice. */
  lemma PrefixDominance(cats: seq<string>, k: nat, m: nat, t: set<nat>)
    requires m <= |cats| && Diverse(t, cats, k)
    ensures |Below(t, m)| <= |Leaders(cats, k, m)|
  {
    var l := Leaders(cats, k, m);
    var below := Below(t, m);
    LeadersAreGreedy(cats, k, m);
    IncreasingSize(l);
    if |l| < k {
      var all := set i | 0 <= i < |cats| :: cats[i];
      forall c | c in all ensures |Within(t, cats, m, {c})| <= |Within(Members(l), cats, m, {c})| {
        CategoryDominance(cats, k, m, t, c);
      }
      CategoryWise(t, Members(l), cats, m, all);
      assert Within(t, cats, m, all) == below;
      assert Within(Members(l), cats, m, all) == Members(l);
    } else {
      SubsetSize(below, t);
    }
  }

  /** The exchange argument: no diverse choice is larger than the leaders, and its i-th best is not ranked before the i-th leader. */
  lemma LeadersDominate(cats: seq<string>, k: nat, t: seq<nat>)
    requires Increasing(t) && Diverse(Members(t), cats, k)
    ensures var l := Leaders(cats, k, |cats|);
            |t| <= |l| && forall i :: 0 <= i < |t| ==> l[i] <= t[i]
  {
    var l := Leaders(cats, k, |cats|);
    forall i | 0 <= i < |t| ensures i < |l| && l[i] <= t[i] {
      var m := t[i] + 1;
      assert t[i] in Members(t);
      var first := t[..i + 1];
      PrefixDominance(cats, k, m, Members(t));
      IncreasingSize(first);
      assert Members(first) <= Below(Members(t), m);
      SubsetSize(Members(first), Below(Members(t), m));
      LeadersGrow(cats, k, m, |cats|);
      LeadersAreGreedy(cats, k, m);
      assert l[i] == Leaders(cats, k, m)[i];
    }
    if |t| > 0 {
      var last := t[|t| - 1];
      assert |t| - 1 < |l|;
    }
  }

  function ScoreSum(cs: seq<Candidate>, picks: seq<nat>): int
    requires forall i :: 0 <= i < |picks| ==> picks[i] < |cs|
  {
    if |picks| == 0 then 0 else ScoreSum(cs, picks[..|picks| - 1]) + cs[picks[|picks| - 1]].score
  }

  lemma {:induction false} SumDominates(cs: seq<Candidate>, l: seq<nat>, t: seq<nat>)
    requires forall i :: 0 <= i < |l| ==> l[i] < |cs|
    requires forall i :: 0 <= i < |t| ==> t[i] < |cs|
    requires forall i :: 0 <= i < |cs| ==> cs[i].score >= 0
    requires |t| <= |l| && forall i :: 0 <= i < |t| ==> cs[l[i]].score >= cs[t[i]].score
    ensures ScoreSum(cs, l) >= ScoreSum(cs, t)
    decreases |l|
  {
    if |l| > |t| {
      SumDominates(cs, l[..|l| - 1], t);
    } else if |t| > 0 {
      SumDominates(cs, l[..|l| - 1], t[..|t| - 1]);
    }
  }

  /** On a ranked list the leaders beat every diverse choice score by score, and so in total. */
  lemma LeadersAreOptimal(cs: seq<Candidate>, classify: Candidate -> string, k: nat, t: seq<nat>)
    requires Ranked(cs) && Increasing(t) && Diverse(Members(t), Categories(cs, classify), k)
    ensures var l := Leaders(Categories(cs, classify), k, |cs|);
            && |t| <= |l|
            && (forall i :: 0 <= i < |l| ==> l[i] < |cs|)
            && (forall i :: 0 <= i < |t| ==> t[i] < |cs| && cs[l[i]].score >= cs[t[i]].score)
            && ((forall i :: 0 <= i < |cs| ==> cs[i].score >= 0) ==> ScoreSum(cs, l) >= ScoreSum(cs, t))
  {
    var cats := Categories(cs, classify);
    var l := Leaders(cats, k, |cs|);
    LeadersAreGreedy(cats, k, |cs|);
    LeadersDominate(cats, k, t);
    forall i | 0 <= i < |t| ensures t[i] < |cs| && cs[l[i]].score >= cs[t[i]].score {
      assert t[i] in Members(t);
      assert l[i] == t[i] || NotBelow(cs[l[i]], cs[t[i]]);
    }
    if forall i :: 0 <= i < |cs| ==> cs[i].score >= 0 {
      SumDominates(cs, l, t);
    }
  }

  // ---------------------------------------------------------------- the selection loops

  /** No candidate appears twice. */
  ghost predicate Distinct(picks: seq<nat>) {
    forall i, j :: 0 <= i < j < |picks| ==> picks[i] != picks[j]
  }

  lemma LeadersInRankOrder(cats: seq<string>, k: nat)
    ensures var l := Leaders(cats, k, |cats|);
            Increasing(l) && Distinct(l) && |l| <= k && |l| <= |cats| && forall i :: 0 <= i < |l| ==> l[i] < |cats|
  {
    var l := Leaders(cats, k, |cats|);
    LeadersAreGreedy(cats, k, |cats|);
    BoundedSize(l, |cats|);
  }

  /** The first loop of `scan_universe`. */
  method PickLeaders(ranked: seq<Candidate>, classify: Candidate -> string, maxAlerts: nat) returns (selected: seq<nat>)
    requires maxAlerts >= 1
    ensures selected == Leaders(Categories(ranked, classify), maxAlerts, |ranked|)
  {
    selected := [];
    var counts: map<string, nat> := map[];
    ghost var cats := Categories(ranked, classify);
    var i := 0;
    while i < |ranked|
      invariant 0 <= i <= |ranked|
      invariant selected == Leaders(cats, maxAlerts, i) && |selected| < maxAlerts
      invariant Counts(counts, selected, cats)
    {
      var category := classify(ranked[i]);
      i := i + 1;
      var count := if category in counts then counts[category] else 0;
      if count >= 2 {
        continue;
      }
      CountsSnoc(counts, selected, cats, i - 1);
      selected := selected + [i - 1];
      counts := counts[category := count + 1];
      if |selected| >= maxAlerts {
        FullLeaders(cats, maxAlerts, i, |ranked|);
        break;
      }
    }
  }

  /** After the leaders the picks come in rank order. */
  ghost predicate FillInOrder(picks: seq<nat>, leaders: nat) {
    forall p, q :: leaders <= p < q < |picks| ==> picks[p] < picks[q]
  }

  /** Both loops of `scan_universe`. Candidates are identified by their rank, as the code identifies them by object. */
  method Select(ranked: seq<Candidate>, classify: Candidate -> string, maxAlerts: nat) returns (selected: seq<nat>, ghost leaders: nat)
    requires maxAlerts >= 1 && Ranked(ranked)
    ensures leaders <= |selected| && selected[..leaders] == Leaders(Categories(ranked, classify), maxAlerts, |ranked|)
    ensures |selected| == if maxAlerts <= |ranked| then maxAlerts else |ranked|
    ensures Distinct(selected) && forall p :: 0 <= p < |selected| ==> selected[p] < |ranked|
    ensures forall p, u :: leaders <= p < |selected| && 0 <= u < |ranked| && u !in selected ==>
              selected[p] < u && NotBelow(ranked[selected[p]], ranked[u])
    ensures FillInOrder(selected, leaders)
  {
    selected := PickLeaders(ranked, classify, maxAlerts);
    LeadersInRankOrder(Categories(ranked, classify), maxAlerts);
    leaders := |selected|;
    if |selected| < maxAlerts {
      selected := Fill(ranked, selected, maxAlerts);
    }
  }

  /** The counter map holds the number of picks of every category that has one. */
  ghost predicate Counts(counts: map<string, nat>, picks: seq<nat>, cats: seq<string>) {
    forall c :: CountOf(picks, cats, c) == if c in counts then counts[c] else 0
  }

  lemma CountsSnoc(counts: map<string, nat>, picks: seq<nat>, cats: seq<string>, m: nat)
    requires m < |cats| && Counts(counts, picks, cats)
    ensures Counts(counts[cats[m] := (if cats[m] in counts then counts[cats[m]] else 0) + 1], picks + [m], cats)
  {
    forall c ensures CountOf(picks + [m], cats, c) == CountOf(picks, cats, c) + if cats[m] == c then 1 else 0 {
      CountOfSnoc(picks, cats, m, c);
    }
  }

  lemma {:induction false} FullLeaders(cats: seq<string>, k: nat, m: nat, n: nat)
    requires m <= n <= |cats| && |Leaders(cats, k, m)| >= k
    ensures Leaders(cats, k, n) == Leaders(cats, k, m)
    decreases n
  {
    if m < n {
      FullLeaders(cats, k, m, n - 1);
    }
  }

  lemma {:induction false} DistinctSize(t: seq<nat>)
    requires Distinct(t)
    ensures |Members(t)| == |t|
  {
    if |t| > 0 {
      var n := |t| - 1;
      DistinctSize(t[..n]);
      assert Members(t) == Members(t[..n]) + {t[n]};
      assert t[n] !in Members(t[..n]);
    }
  }

  /** Distinct ranks below `n` are at most `n`, and if they are all of them exactly `n`. */
  lemma BoundedSize(t: seq<nat>, n: nat)
    requires Distinct(t) && forall i :: 0 <= i < |t| ==> t[i] < n
    ensures |t| <= n
    ensures (forall u: nat :: u < n ==> u in t) ==> |t| == n
  {
    DistinctSize(t);
    IntervalSize(0, n, Members(t));
  }

  /** The second loop: the best of the rest until the list is full. */
  method Fill(ranked: seq<Candidate>, leaders: seq<nat>, maxAlerts: nat) returns (selected: seq<nat>)
    requires |leaders| < maxAlerts && Ranked(ranked)
    requires Increasing(leaders) && forall p :: 0 <= p < |leaders| ==> leaders[p] < |ranked|
    ensures leaders <= selected
    ensures |selected| == if maxAlerts <= |ranked| then maxAlerts else |ranked|
    ensures Distinct(selected) && forall p :: 0 <= p < |selected| ==> selected[p] < |ranked|
    ensures forall p, u :: |leaders| <= p < |selected| && 0 <= u < |ranked| && u !in selected ==>
              selected[p] < u && NotBelow(ranked[selected[p]], ranked[u])
    ensures FillInOrder(selected, |leaders|)
  {
    selected := leaders;
    var i := 0;
    while i < |ranked|
      invariant 0 <= i <= |ranked|
      invariant leaders <= selected && |selected| < maxAlerts
      invariant Distinct(selected) && forall p :: 0 <= p < |selected| ==> selected[p] < |ranked|
      invariant FillInOrder(selected, |leaders|)
      invariant forall p :: |leaders| <= p < |selected| ==> selected[p] < i
      invariant forall u: nat :: u < i ==> u in selected
    {
      i := i + 1;
      if i - 1 in leaders {
        continue;
      }
      ghost var before := selected;
      assert forall p :: 0 <= p < |before| ==> before[p] != i - 1 by {
        assert forall p :: 0 <= p < |leaders| ==> before[p] == leaders[p];
      }
      selected := selected + [i - 1];
      assert selected[|before|] == i - 1;
      assert forall u: nat :: u < i - 1 ==> u in before;
      assert forall u: nat :: u < i ==> u in selected;
      if |selected| >= maxAlerts {
        break;
      }
    }
    BoundedSize(selected, |ranked|);
  }
}
