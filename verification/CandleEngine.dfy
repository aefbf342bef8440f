/** `CandleBacktestEngine`: the loop itself, proved against the step model and carrying its main results. */
module CandleEngine {
  import opened Wrappers
  import opened Rounding
  import opened Benchmark
  import opened ExitRules
  import opened CandleModel
  import opened CandleTrades
  import opened CandleAccounts
  import opened CandleDrawdown
  import opened CandleMetrics
  import opened CandleResults

  datatype Result = Result(journal: seq<Row>, equityCurve: seq<real>, metrics: Metrics, endingCapital: real)

  function SideOf(row: Row): Side {
    row.side
  }

  const NO_REGIMES: map<string, Bucket> := map["TRENDING" := EMPTY, "NEUTRAL" := EMPTY, "CHOPPY" := EMPTY, "EVENT" := EMPTY]

  /** The trades with a negative result. */
  function LossCount(rows: seq<Row>): nat {
    if |rows| == 0 then 0 else LossCount(rows[..|rows| - 1]) + if rows[|rows| - 1].netPnl < 0.0 then 1 else 0
  }

  lemma {:induction false} SidesAddUp(rows: seq<Row>)
    ensures TallyOf(rows, SideOf, Call).trades + TallyOf(rows, SideOf, Put).trades == |rows|
    ensures Tally(rows).wins + LossCount(rows) == |rows|
    ensures Tally(rows).trades == |rows| && Tally(rows).grossPnl == NetTotal(rows)
  {
    if |rows| > 0 {
      SidesAddUp(rows[..|rows| - 1]);
      assert SideOf(rows[|rows| - 1]) == Call || SideOf(rows[|rows| - 1]) == Put;
    }
  }

  lemma {:induction false} CountsAreSets(rows: seq<Row>)
    ensures Tally(rows).wins == |Where(rows, (r: Row) => r.netPnl >= 0.0)| && LossCount(rows) == |Where(rows, (r: Row) => r.netPnl < 0.0)|
    ensures TallyOf(rows, SideOf, Call).trades == |Where(rows, (r: Row) => r.side == Call)|
    ensures TallyOf(rows, SideOf, Put).trades == |Where(rows, (r: Row) => r.side == Put)|
  {
    if |rows| > 0 {
      CountsAreSets(rows[..|rows| - 1]);
      WhereSnoc(rows, (r: Row) => r.netPnl >= 0.0);
      WhereSnoc(rows, (r: Row) => r.netPnl < 0.0);
      WhereSnoc(rows, (r: Row) => r.side == Call);
      WhereSnoc(rows, (r: Row) => r.side == Put);
    }
  }

  class CandleBacktestEngine {
    const strategy: Strategy

    constructor (strategy: Strategy)
      ensures this.strategy == strategy
    {
      this.strategy := strategy;
    }

    /** `_compute_metrics`, its counts and breakdowns. */
    method ComputeMetrics(journal: seq<Row>, maxDd: real) returns (metrics: Metrics)
      ensures metrics.totalTrades == |journal|
      ensures metrics.wins == |Where(journal, (r: Row) => r.netPnl >= 0.0)| && metrics.losses == |Where(journal, (r: Row) => r.netPnl < 0.0)|
      ensures metrics.wins + metrics.losses == |journal|
      ensures metrics.callTrades == |Where(journal, (r: Row) => r.side == Call)| && metrics.putTrades == |Where(journal, (r: Row) => r.side == Put)|
      ensures metrics.callTrades + metrics.putTrades == |journal|
      ensures metrics.maxDrawdownPct == Round4(maxDd)
      ensures Partitions(journal, ScoreBucket, metrics.byScore)
      ensures Partitions(journal, RegimeKey, metrics.byRegime)
           || (journal == [] && metrics.byRegime == NO_REGIMES)
    {
      SidesAddUp(journal);
      CountsAreSets(journal);
      if journal == [] {
        return Metrics(0, 0, 0, Round4(maxDd), 0, 0, NO_REGIMES, map[]);
      }
      var wins := Tally(journal).wins;
      var calls := TallyOf(journal, SideOf, Call).trades;
      var puts := TallyOf(journal, SideOf, Put).trades;
      var byRegime := BucketBy(journal, RegimeKey);
      var byScore := BucketBy(journal, ScoreBucket);
      var losses := LossCount(journal);
      metrics := Metrics(|journal|, wins, losses, Round4(maxDd), calls, puts, byRegime, byScore);
    }

    /** `_execute_pending`: entry, stop and target field by field. */
    method ExecutePending(pending: Pending, idx: int, cfg: Config, capital: real) returns (position: Position, left: real)
      ensures position == Opened(strategy, cfg, pending, idx)
      ensures left == Round2(capital - Fee(cfg))
    {
      var entry, stop, target;
      if pending.side == Call {
        entry := pending.refPrice * (1.0 + cfg.slippagePct + cfg.spreadPct * 0.5);
        stop := entry - pending.atr * pending.slMult;
        target := entry + pending.atr * pending.tpMult;
      } else {
        entry := pending.refPrice * (1.0 - cfg.slippagePct - cfg.spreadPct * 0.5);
        stop := entry + pending.atr * pending.slMult;
        target := entry - pending.atr * pending.tpMult;
      }
      assert entry == EntryPrice(cfg, pending);
      assert stop == StopPrice(pending, entry) && target == TargetPrice(pending, entry);
      var premium := 0.0;
      var option: Option<OptionSpec> := None;
      if cfg.useOptionModel {
        var spec := strategy.buildOption(pending.side, entry, pending.atr, stop, target);
        option := Some(spec);
        premium := spec.entryPremium;
      }
      var fee := cfg.feePerLot * cfg.qty as real;
      assert fee == Fee(cfg);
      left := Round2(capital - fee);
      var bracket := Bracket(pending.side, Round4(stop), Round4(target), idx, cfg.maxBarsInTrade);
      position := Position(bracket, Round4(entry), cfg.qty, Round2(premium), option,
                           pending.score, pending.threshold, pending.regime);
    }

    /** The first half of `_close_trade`: exit slippage, then the result in option space or in index points. */
    method Settle(position: Position, fill: Fill, cfg: Config) returns (filled: real, pnl: Outcome)
      ensures filled == ExitPrice(cfg, fill.price)
      ensures pnl == Settlement(strategy, cfg, position, fill.price, fill.reason)
    {
      var slip := cfg.slippagePct + cfg.spreadPct * 0.5;
      if position.bracket.side == Call {
        filled := fill.price * (1.0 + slip);
      } else {
        filled := fill.price * (1.0 + slip);
      }
      assert filled == ExitPrice(cfg, fill.price);
      var exitPremium, gross, net, rr, pct := 0.0, 0.0, 0.0, 0.0, 0.0;
      if cfg.useOptionModel && position.option.Some? {
        var info := strategy.optionPnl(position.option.value, filled, fill.reason, cfg.feePerLot);
        gross := info.grossPerLot * position.qty as real;
        net := info.netPerLot * position.qty as real;
        exitPremium, rr, pct := info.exitPremium, info.rr, info.pct;
      } else {
        if position.bracket.side == Call {
          gross := (filled - position.entryPrice) * position.qty as real;
        } else {
          gross := (position.entryPrice - filled) * position.qty as real;
        }
        net := gross - cfg.feePerLot * position.qty as real;
        if position.entryPrice > 0.0 {
          pct := (filled - position.entryPrice) / position.entryPrice * 100.0;
        }
        assert Outcome(exitPremium, gross, net, rr, pct) == IndexOutcome(cfg, position, filled);
      }
      pnl := Outcome(exitPremium, gross, net, rr, pct);
    }

    /** `_close_trade`: the row to append and the new capital, peak and drawdown; `st` is the state it is called in. */
    method CloseTrade(position: Position, fill: Fill, idx: int, cfg: Config, capital: real, peak: real, maxDd: real, ghost st: State)
      returns (row: Row, newCapital: real, newPeak: real, newMaxDd: real)
      requires st.position == Some(position) && st.capital == capital && st.peak == peak && st.maxDd == maxDd
      ensures Closed(strategy, cfg, idx, st, fill)
           == State(st.journal + [row], st.equity + [newCapital], newCapital, newPeak, newMaxDd,
                    None, st.pending, idx + cfg.cooldownBars)
    {
      var filled, pnl := Settle(position, fill, cfg);
      newCapital := Round2(capital + pnl.net);
      newPeak := Max(peak, newCapital);
      newMaxDd := maxDd;
      if newPeak > 0.0 {
        newMaxDd := Max(maxDd, (newPeak - newCapital) / newPeak * 100.0);
      }
      row := Row(position.bracket.entryIdx, idx, Round4(position.entryPrice), Round4(filled),
                 Round2(position.entryPremium), Round2(pnl.exitPremium), position.bracket.side,
                 Round2(pnl.gross), Round2(pnl.net), fill.reason, idx - position.bracket.entryIdx,
                 position.score, position.threshold, Round3(pnl.rr), Round2(pnl.pct), position.regime);
      assert row == RowOf(strategy, cfg, position, fill, idx);
    }

    /** One pass of the bar loop of `run`, on the variables it carries; the early continues are returns. */
    method RunBar(bars: seq<Bar>, cfg: Config, idx: nat, st: State) returns (next: State)
      requires idx < |bars|
      ensures next == Step(strategy, cfg, bars, idx, st)
    {
      var capital, position, pending := st.capital, st.position, st.pending;
      if pending.Some? && pending.value.enterOn == idx {
        var taken;
        taken, capital := ExecutePending(pending.value, idx, cfg, capital);
        position, pending := Some(taken), None;
      }
      ghost var entered := st.(capital := capital, position := position, pending := pending);
      assert entered == EnterDue(strategy, cfg, idx, st);

      if position.Some? {
        var fill := position.value.bracket.ExitAt(bars[idx], idx);
        if fill.Some? {
          var closed, peak, maxDd;
          closed, capital, peak, maxDd :=
            CloseTrade(position.value, fill.value, idx, cfg, capital, st.peak, st.maxDd, entered);
          return State(st.journal + [closed], st.equity + [capital], capital, peak, maxDd, None, pending, idx + cfg.cooldownBars);
        }
      }

      next := State(st.journal, st.equity + [capital], capital, st.peak, st.maxDd, position, pending, st.cooldownUntil);
      if position.Some? || idx < st.cooldownUntil {
        return;
      }
      var order := Order(strategy, cfg, bars, idx);
      if order.Some? {
        next := next.(pending := order);
      }
    }

    /** The bar loop of `run`. */
    method RunBars(bars: seq<Bar>, cfg: Config) returns (journal: seq<Row>, equity: seq<real>, capital: real, maxDd: real)
      ensures var st := After(strategy, cfg, bars, |bars|);
              journal == st.journal && equity == st.equity && capital == st.capital && maxDd == st.maxDd
    {
      var st := Initial(cfg);
      if |bars| > Warmup(cfg) {
        for idx := Warmup(cfg) to |bars|
          invariant st == After(strategy, cfg, bars, idx)
        {
          AfterNext(strategy, cfg, bars, idx);
          st := RunBar(bars, cfg, idx, st);
        }
      }
      return st.journal, st.equity, st.capital, st.maxDd;
    }

    /** `run`. The journal is the list of first-touch trades; once money is in whole cents the ending
        capital is the last capital, on the ledger exactly when the roundings cancel; and the reported
        drawdown is a fall of the equity curve that brackets the true one. */
    method Run(bars: seq<Bar>, cfg: Config) returns (result: Result)
      ensures result.journal == Trades(strategy, cfg, bars, Warmup(cfg)) && AllExplained(strategy, cfg, bars, result.journal)
      ensures |result.equityCurve| == if |bars| > Warmup(cfg) then |bars| - Warmup(cfg) else 0
      ensures result.equityCurve == After(strategy, cfg, bars, |bars|).equity
      ensures result.endingCapital == Round2(After(strategy, cfg, bars, |bars|).capital)
      ensures InCents(cfg, result) ==>
                && result.endingCapital == After(strategy, cfg, bars, |bars|).capital
                && (result.endingCapital == Ledger(cfg, After(strategy, cfg, bars, |bars|))
                    <==> SlipSum(strategy, cfg, bars, |bars|) == 0.0)
      ensures exists maxDd: real ::
                ReportsFall(cfg, result, maxDd) && (Solvent(cfg) ==> BracketsCurve(cfg, result, maxDd))
    {
      var journal, equity, capital, maxDd := RunBars(bars, cfg);
      JournalIsTrades(strategy, cfg, bars);
      JournalExplained(strategy, cfg, bars);
      OnePositionOneOrder(strategy, cfg, bars, |bars|);
      EndingOnCents(strategy, cfg, bars);
      GapIsSlipSum(strategy, cfg, bars, |bars|);
      var metrics := ComputeMetrics(journal, maxDd);
      result := Result(journal, equity, metrics, Round2(capital));
      TrackedIsFall(strategy, cfg, bars, |bars|);
      assert ReportsFall(cfg, result, maxDd);
      if Solvent(cfg) {
        DrawdownSandwiched(strategy, cfg, bars, |bars|);
        assert BracketsCurve(cfg, result, maxDd);
      }
    }
  }

  /** The reported figure is the four-decimal rounding of a fall of the equity curve. */
  ghost predicate ReportsFall(cfg: Config, result: Result, maxDd: real) {
    && IsFall([cfg.initialCapital] + result.equityCurve, maxDd)
    && result.metrics.maxDrawdownPct == Round4(maxDd)
  }

  ghost predicate BracketsCurve(cfg: Config, result: Result, maxDd: real)
    requires cfg.initialCapital > 0.0
  {
    var curve := [cfg.initialCapital] + result.equityCurve;
    Sandwich(maxDd, Drawdown(curve), ScaleOf(cfg), Level(cfg, curve))
  }

  /** Money started in whole cents, or has moved at least once. */
  predicate InCents(cfg: Config, result: Result) {
    OnCents(cfg.initialCapital) || result.journal != []
  }

  lemma EndingOnCents(s: Strategy, cfg: Config, bars: seq<Bar>)
    ensures OnCents(cfg.initialCapital) || After(s, cfg, bars, |bars|).journal != [] ==>
              Round2(After(s, cfg, bars, |bars|).capital) == After(s, cfg, bars, |bars|).capital
  {
    RunAnchored(s, cfg, bars, |bars|);
    Round2OnCents(After(s, cfg, bars, |bars|).capital);
  }
}
