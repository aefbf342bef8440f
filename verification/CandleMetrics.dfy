/** The breakdowns of `_compute_metrics`: every closed trade is counted in exactly one bucket. */
module CandleMetrics {
  import opened CandleModel

  datatype Bucket = Bucket(trades: nat, wins: nat, grossPnl: real)
  {
    function Plus(b: Bucket): Bucket {
      Bucket(trades + b.trades, wins + b.wins, grossPnl + b.grossPnl)
    }
  }

  const EMPTY := Bucket(0, 0, 0.0)

  function Single(row: Row): Bucket {
    Bucket(1, if row.netPnl >= 0.0 then 1 else 0, row.netPnl)
  }

  function Tally(rows: seq<Row>): Bucket {
    if |rows| == 0 then EMPTY else Tally(rows[..|rows| - 1]).Plus(Single(rows[|rows| - 1]))
  }

  /** The tally of the rows with key `k`. */
  function TallyOf<K(==)>(rows: seq<Row>, key: Row -> K, k: K): Bucket {
    if |rows| == 0 then EMPTY
    else
      var before := TallyOf(rows[..|rows| - 1], key, k);
      if key(rows[|rows| - 1]) == k then before.Plus(Single(rows[|rows| - 1])) else before
  }

  /** The sum of the buckets with a key in `keys`. */
  ghost function Total<K>(m: map<K, Bucket>, keys: set<K>): Bucket
    requires keys <= m.Keys
  {
    if keys == {} then EMPTY
    else
      var k :| k in keys;
      m[k].Plus(Total(m, keys - {k}))
  }

  /** The sum does not depend on the order the keys are taken in. */
  lemma {:induction false} TotalTake<K>(m: map<K, Bucket>, keys: set<K>, k: K)
    requires keys <= m.Keys && k in keys
    ensures Total(m, keys) == m[k].Plus(Total(m, keys - {k}))
    decreases |keys|
  {
    var p :| p in keys && Total(m, keys) == m[p].Plus(Total(m, keys - {p}));
    if p != k {
      TotalTake(m, keys - {p}, k);
      TotalTake(m, keys - {k}, p);
      assert keys - {p} - {k} == keys - {k} - {p};
      var rest := Total(m, keys - {p} - {k});
      assert Total(m, keys - {p}) == m[k].Plus(rest) && Total(m, keys - {k}) == m[p].Plus(rest);
      assert m[p].Plus(m[k].Plus(rest)) == m[k].Plus(m[p].Plus(rest));
    }
  }

  lemma {:induction false} TotalSame<K>(m: map<K, Bucket>, m': map<K, Bucket>, keys: set<K>)
    requires keys <= m.Keys && keys <= m'.Keys
    requires forall k :: k in keys ==> m[k] == m'[k]
    ensures Total(m, keys) == Total(m', keys)
    decreases |keys|
  {
    if keys != {} {
      var k :| k in keys;
      TotalTake(m, keys, k);
      TotalTake(m', keys, k);
      TotalSame(m, m', keys - {k});
    }
  }

  /** Adding to one bucket, new or not, adds as much to the sum. */
  lemma TotalAdd<K>(m: map<K, Bucket>, k: K, b: Bucket)
    ensures var m' := m[k := (if k in m then m[k] else EMPTY).Plus(b)];
            Total(m', m'.Keys) == Total(m, m.Keys).Plus(b)
  {
    var m' := m[k := (if k in m then m[k] else EMPTY).Plus(b)];
    var others := m.Keys - {k};
    assert m'.Keys - {k} == others;
    TotalTake(m', m'.Keys, k);
    TotalSame(m, m', others);
    if k in m {
      TotalTake(m, m.Keys, k);
    } else {
      assert others == m.Keys;
    }
  }

  /** Each key that occurs has the tally of its rows, and the buckets add up to the tally of all rows. */
  ghost predicate Partitions<K>(rows: seq<Row>, key: Row -> K, m: map<K, Bucket>) {
    && (forall i :: 0 <= i < |rows| ==> key(rows[i]) in m)
    && (forall k :: k in m ==> m[k] == TallyOf(rows, key, k) && m[k].trades > 0)
    && Total(m, m.Keys) == Tally(rows)
  }

  lemma {:induction false} AbsentKey<K>(rows: seq<Row>, key: Row -> K, k: K)
    requires forall i :: 0 <= i < |rows| ==> key(rows[i]) != k
    ensures TallyOf(rows, key, k) == EMPTY
  {
    if |rows| > 0 {
      AbsentKey(rows[..|rows| - 1], key, k);
    }
  }

  lemma PartitionGrows<K>(rows: seq<Row>, key: Row -> K, m: map<K, Bucket>, row: Row)
    requires Partitions(rows, key, m)
    ensures Partitions(rows + [row], key, m[key(row) := (if key(row) in m then m[key(row)] else EMPTY).Plus(Single(row))])
  {
    var k0, all := key(row), rows + [row];
    var m' := m[k0 := (if k0 in m then m[k0] else EMPTY).Plus(Single(row))];
    assert all[..|rows|] == rows;
    if k0 !in m {
      AbsentKey(rows, key, k0);
    }
    TotalAdd(m, k0, Single(row));
    forall k | k in m' ensures m'[k] == TallyOf(all, key, k) && m'[k].trades > 0 {
      if k != k0 {
        assert m'[k] == m[k];
      }
    }
  }

  /** The positions of the rows with a property. */
  function Where(rows: seq<Row>, p: Row -> bool): set<nat> {
    set i: nat | i < |rows| && p(rows[i])
  }

  lemma WhereSnoc(rows: seq<Row>, p: Row -> bool)
    requires |rows| > 0
    ensures var n := |rows| - 1; |Where(rows, p)| == |Where(rows[..n], p)| + if p(rows[n]) then 1 else 0
  {
    var n := |rows| - 1;
    assert Where(rows, p) == Where(rows[..n], p) + if p(rows[n]) then {n} else {};
  }

  /** The tallies count what they say: the rows of a key, and among all rows those that did not lose. */
  lemma {:induction false} TallyCounts<K(!new)>(rows: seq<Row>, key: Row -> K, k: K)
    ensures TallyOf(rows, key, k).trades == |Where(rows, (r: Row) => key(r) == k)|
    ensures TallyOf(rows, key, k).wins == |Where(rows, (r: Row) => key(r) == k && r.netPnl >= 0.0)|
    ensures Tally(rows).wins == |Where(rows, (r: Row) => r.netPnl >= 0.0)|
  {
    if |rows| > 0 {
      TallyCounts(rows[..|rows| - 1], key, k);
      WhereSnoc(rows, (r: Row) => key(r) == k);
      WhereSnoc(rows, (r: Row) => key(r) == k && r.netPnl >= 0.0);
      WhereSnoc(rows, (r: Row) => r.netPnl >= 0.0);
    }
  }

  /** The two bucket loops of `_compute_metrics`, for any key. */
  method BucketBy<K(==)>(rows: seq<Row>, key: Row -> K) returns (m: map<K, Bucket>)
    ensures Partitions(rows, key, m)
  {
    m := map[];
    for i := 0 to |rows|
      invariant Partitions(rows[..i], key, m)
    {
      var t := rows[i];
      var k := key(t);
      PartitionGrows(rows[..i], key, m, t);
      assert rows[..i + 1] == rows[..i] + [t];
      ghost var grown := m[k := (if k in m then m[k] else EMPTY).Plus(Single(t))];
      if k !in m {
        m := m[k := EMPTY];
      }
      m := m[k := m[k].Plus(Single(t))];
      assert m == grown;
    }
    assert rows[..|rows|] == rows;
  }

  /** The lower end of the five-point score bucket; the label is derived from it. */
  function ScoreBucket(row: Row): (lo: int)
    ensures lo % 5 == 0 && lo <= row.score < lo + 5
  {
    row.score / 5 * 5
  }

  function RegimeKey(row: Row): (key: string)
    ensures key != "" && (row.regime != "" ==> key == row.regime) && (row.regime == "" ==> key == "UNKNOWN")
  {
    if row.regime == "" then "UNKNOWN" else row.regime
  }

  datatype Metrics = Metrics(
    totalTrades: nat, wins: nat, losses: nat, maxDrawdownPct: real, callTrades: nat, putTrades: nat,
    byRegime: map<string, Bucket>, byScore: map<int, Bucket>)
}
