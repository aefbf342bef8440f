/** The trade list of the second engine as a recursion over trades instead of bars. */
module BacktestTrades {
  import opened Wrappers
  import opened ExitRules
  import opened BacktestModel

  ghost function NextEntry(s: Strategy, cfg: Config, bars: seq<Bar>, from: nat): (i: nat)
    requires from <= |bars|
    ensures from <= i <= |bars|
    ensures forall m :: from <= m < i ==> Entry(s, cfg, bars, m).None?
    ensures i < |bars| ==> Entry(s, cfg, bars, i).Some?
    decreases |bars| - from
  {
    if from == |bars| || Entry(s, cfg, bars, from).Some? then from else NextEntry(s, cfg, bars, from + 1)
  }

  /** The first bar after an exit at `j` that may signal again. */
  function Resume(cfg: Config, j: nat): nat {
    if cfg.cooldownBars > 1 then j + cfg.cooldownBars else j + 1
  }

  /** Enter on the first signal from bar `from` on, leave on the first touch after the entry bar, wait out the cooldown, and again. */
  ghost function Trades(s: Strategy, cfg: Config, bars: seq<Bar>, from: nat): seq<Trade>
    decreases |bars| + 1 - from, 0
  {
    if from > |bars| then []
    else
      var i := NextEntry(s, cfg, bars, from);
      if i == |bars| then [] else TradesHolding(s, cfg, bars, Entry(s, cfg, bars, i).value, i + 1)
  }

  ghost function TradesHolding(s: Strategy, cfg: Config, bars: seq<Bar>, pos: Position, k: nat): seq<Trade>
    requires k <= |bars|
    decreases |bars| + 1 - k, 1
  {
    var j := pos.bracket.FirstTouch(bars, k);
    if j == |bars| then []
    else [TradeOf(cfg, pos, pos.bracket.ExitAt(bars[j], j).value, j)] + Trades(s, cfg, bars, Resume(cfg, j))
  }

  /** The trades still to come. */
  ghost function Remaining(s: Strategy, cfg: Config, bars: seq<Bar>, k: nat, st: State): seq<Trade>
    requires k <= |bars|
  {
    if st.position.Some? then TradesHolding(s, cfg, bars, st.position.value, k)
    else Trades(s, cfg, bars, if st.cooldownUntil > k then st.cooldownUntil else k)
  }

  lemma ExitingStep(s: Strategy, cfg: Config, bars: seq<Bar>, k: nat, st: State)
    requires k < |bars| && st.position.Some? && st.position.value.bracket.Qualifies(bars[k], k)
    ensures var next := Step(s, cfg, bars, k, st);
            next.trades + Remaining(s, cfg, bars, k + 1, next) == st.trades + Remaining(s, cfg, bars, k, st)
  {
    var pos := st.position.value;
    var row := TradeOf(cfg, pos, pos.bracket.ExitAt(bars[k], k).value, k);
    var rest := Trades(s, cfg, bars, Resume(cfg, k));
    assert Step(s, cfg, bars, k, st).trades == st.trades + [row];
    assert TradesHolding(s, cfg, bars, pos, k) == [row] + rest;
    assert (st.trades + [row]) + rest == st.trades + ([row] + rest);
  }

  lemma IdleStep(s: Strategy, cfg: Config, bars: seq<Bar>, k: nat, st: State)
    requires k < |bars| && st.position.None?
    ensures var next := Step(s, cfg, bars, k, st);
            next.trades == st.trades && Remaining(s, cfg, bars, k + 1, next) == Remaining(s, cfg, bars, k, st)
  {
    if k >= st.cooldownUntil {
      if Entry(s, cfg, bars, k).Some? {
        assert NextEntry(s, cfg, bars, k) == k;
      } else {
        assert NextEntry(s, cfg, bars, k) == NextEntry(s, cfg, bars, k + 1);
      }
    }
  }

  /** One bar moves at most one trade from those to come into the list. */
  lemma StepRefines(s: Strategy, cfg: Config, bars: seq<Bar>, k: nat, st: State)
    requires k < |bars|
    ensures var next := Step(s, cfg, bars, k, st);
            next.trades + Remaining(s, cfg, bars, k + 1, next) == st.trades + Remaining(s, cfg, bars, k, st)
  {
    if st.position.None? {
      IdleStep(s, cfg, bars, k, st);
    } else if st.position.value.bracket.Qualifies(bars[k], k) {
      ExitingStep(s, cfg, bars, k, st);
    } else {
      FirstTouchSkip(st.position.value.bracket, bars, k);
    }
  }

  ghost predicate Refines(s: Strategy, cfg: Config, bars: seq<Bar>, k: nat, st: State)
    requires k <= |bars|
  {
    st.trades + Remaining(s, cfg, bars, k, st) == Trades(s, cfg, bars, Warmup(cfg))
  }

  lemma {:induction false} RunRefines(s: Strategy, cfg: Config, bars: seq<Bar>, k: nat)
    requires Warmup(cfg) <= k <= |bars|
    ensures Refines(s, cfg, bars, k, After(s, cfg, bars, k))
    decreases k
  {
    if k > Warmup(cfg) {
      RunRefines(s, cfg, bars, k - 1);
      NextRefines(s, cfg, bars, k - 1, k);
    }
  }

  lemma NextRefines(s: Strategy, cfg: Config, bars: seq<Bar>, i: nat, next: nat)
    requires Warmup(cfg) <= i < next <= |bars| && next == i + 1
    requires Refines(s, cfg, bars, i, After(s, cfg, bars, i))
    ensures Refines(s, cfg, bars, next, After(s, cfg, bars, next))
  {
    StepRefines(s, cfg, bars, i, After(s, cfg, bars, i));
    AfterNext(s, cfg, bars, i);
  }

  /** The bar loop computes exactly the trades of the recursion. */
  lemma TradesAreTrades(s: Strategy, cfg: Config, bars: seq<Bar>)
    ensures After(s, cfg, bars, |bars|).trades == Trades(s, cfg, bars, Warmup(cfg))
  {
    if |bars| >= Warmup(cfg) {
      RunRefines(s, cfg, bars, |bars|);
    }
  }

  /** One trade: left after its entry bar, within the series, and within the holding limit (at least one bar). */
  ghost predicate TradeInTime(cfg: Config, t: Trade, from: nat, n: nat) {
    && from <= t.entryIdx < t.exitIdx < n
    && t.barsHeld == t.exitIdx - t.entryIdx
    && t.barsHeld <= (if cfg.maxBarsInTrade > 1 then cfg.maxBarsInTrade else 1)
  }

  /** Trades are disjoint, with the cooldown between an exit and the next entry. */
  ghost predicate Scheduled(cfg: Config, ts: seq<Trade>, from: nat, n: nat) {
    && (forall r :: 0 <= r < |ts| ==> TradeInTime(cfg, ts[r], from, n))
    && (forall r :: 0 < r < |ts| ==>
          ts[r].entryIdx >= ts[r - 1].exitIdx + (if cfg.cooldownBars > 1 then cfg.cooldownBars else 1))
  }

  lemma ScheduledCons(cfg: Config, t: Trade, rest: seq<Trade>, from: nat, n: nat)
    requires TradeInTime(cfg, t, from, n) && Scheduled(cfg, rest, Resume(cfg, t.exitIdx), n)
    ensures Scheduled(cfg, [t] + rest, from, n)
  {
    var ts := [t] + rest;
    forall r | 0 <= r < |ts| ensures TradeInTime(cfg, ts[r], from, n) {
      assert r > 0 ==> ts[r] == rest[r - 1];
    }
    forall r | 0 < r < |ts|
      ensures ts[r].entryIdx >= ts[r - 1].exitIdx + (if cfg.cooldownBars > 1 then cfg.cooldownBars else 1)
    {
      assert ts[r] == rest[r - 1] && TradeInTime(cfg, rest[r - 1], Resume(cfg, t.exitIdx), n);
      assert r > 1 ==> ts[r - 1] == rest[r - 2];
    }
  }

  lemma {:induction false} TradesAreScheduled(s: Strategy, cfg: Config, bars: seq<Bar>, from: nat)
    ensures Scheduled(cfg, Trades(s, cfg, bars, from), from, |bars|)
    decreases |bars| + 1 - from
  {
    if from <= |bars| && NextEntry(s, cfg, bars, from) < |bars| {
      var i := NextEntry(s, cfg, bars, from);
      var pos := Entry(s, cfg, bars, i).value;
      var j := pos.bracket.FirstTouch(bars, i + 1);
      HeldWithinLimit(pos.bracket, bars, i + 1);
      if j < |bars| {
        TradesAreScheduled(s, cfg, bars, Resume(cfg, j));
        var t := TradeOf(cfg, pos, pos.bracket.ExitAt(bars[j], j).value, j);
        ScheduledCons(cfg, t, Trades(s, cfg, bars, Resume(cfg, j)), from, |bars|);
      }
    }
  }

  lemma ReportIsScheduled(s: Strategy, cfg: Config, bars: seq<Bar>)
    ensures Scheduled(cfg, After(s, cfg, bars, |bars|).trades, Warmup(cfg), |bars|)
  {
    TradesAreTrades(s, cfg, bars);
    TradesAreScheduled(s, cfg, bars, Warmup(cfg));
  }

  lemma SameEntry(s: Strategy, cfg: Config, b1: seq<Bar>, b2: seq<Bar>, k: nat, j: nat)
    requires AgreeUpTo(b1, b2, k) && j <= k
    ensures Entry(s, cfg, b1, j) == Entry(s, cfg, b2, j)
  {
    AgreeBelow(b1, b2, k, j);
  }

  lemma SameStep(s: Strategy, cfg: Config, b1: seq<Bar>, b2: seq<Bar>, k: nat, j: nat, st: State)
    requires AgreeUpTo(b1, b2, k) && j <= k
    ensures Step(s, cfg, b1, j, st) == Step(s, cfg, b2, j, st)
  {
    AgreeBelow(b1, b2, k, j);
    SameEntry(s, cfg, b1, b2, k, j);
  }

  /** The whole state after bar k depends on the bars up to k alone. */
  lemma {:induction false} NoLookAhead(s: Strategy, cfg: Config, b1: seq<Bar>, b2: seq<Bar>, k: nat)
    requires AgreeUpTo(b1, b2, k)
    ensures After(s, cfg, b1, k + 1) == After(s, cfg, b2, k + 1)
    decreases k
  {
    if k + 1 > Warmup(cfg) {
      if k > 0 {
        AgreeBelow(b1, b2, k, k - 1);
        NoLookAhead(s, cfg, b1, b2, k - 1);
      }
      SameStep(s, cfg, b1, b2, k, k, After(s, cfg, b1, k));
    }
  }
}
