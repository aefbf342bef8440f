/** What every bar does to the account and what every journal row says, in the signal's, the bars' and the option model's own terms. */
module CandleResults {
  import opened Wrappers
  import opened Reals
  import opened Rounding
  import opened ExitRules
  import opened CandleModel
  import opened CandleTrades

  // ---------------------------------------------------------------- one bar

  /** A bar orders exactly on a BUY verdict that clears the threshold by the gap, if the due bar exists. */
  lemma OrderIff(s: Strategy, cfg: Config, bars: seq<Bar>, i: nat)
    requires i < |bars|
    ensures Order(s, cfg, bars, i).Some?
       <==> && s.evaluate(bars[..i + 1]).Some?
            && s.evaluate(bars[..i + 1]).value.partialScore >= cfg.aiThreshold + cfg.scoreGap
            && s.evaluate(bars[..i + 1]).value.action == "BUY"
            && i + Latency(cfg) < |bars|
  {
  }

  /** An order that is due is filled and charged, whatever the bar then brings. */
  lemma EntryCharges(s: Strategy, cfg: Config, i: nat, st: State)
    ensures var entered := EnterDue(s, cfg, i, st);
            if st.pending.Some? && st.pending.value.enterOn == i then
              entered.position.Some? && entered.pending.None? && entered.capital == Round2(st.capital - cfg.feePerLot * cfg.qty as real)
            else entered == st
  {
    var fee := cfg.feePerLot * cfg.qty as real;
    assert fee == Fee(cfg);
  }

  /** The index price an exit at `price` is filled at. */
  function Slipped(cfg: Config, price: real): real {
    price * (1.0 + (cfg.slippagePct + cfg.spreadPct * 0.5))
  }

  /** The move of a position from its entry to `price`, in its own favour. */
  function Gain(side: Side, entry: real, price: real): real {
    if side.Call? then price - entry else entry - price
  }

  /** What closing `qty` lots is worth before rounding: with an option the model's figures for one lot times
      the lots, in index points the move in the position's favour, less the fee for the net result. */
  ghost predicate Worth(s: Strategy, cfg: Config, option: Option<OptionSpec>, side: Side, entry: real, qty: int, fill: Fill,
                        gross: real, net: real) {
    if cfg.useOptionModel && option.Some? then
      var info := s.optionPnl(option.value, Slipped(cfg, fill.price), fill.reason, cfg.feePerLot);
      gross == info.grossPerLot * qty as real && net == info.netPerLot * qty as real
    else
      && gross == Gain(side, entry, Slipped(cfg, fill.price)) * qty as real
      && net == gross - cfg.feePerLot * qty as real
  }

  lemma SlippedIsExit(cfg: Config, price: real)
    ensures ExitPrice(cfg, price) == Slipped(cfg, price)
  {
    assert Slip(cfg) == cfg.slippagePct + cfg.spreadPct * 0.5;
  }

  lemma IndexWorth(cfg: Config, pos: Position, x: real)
    ensures var pnl := IndexOutcome(cfg, pos, x);
            pnl.gross == Gain(pos.bracket.side, pos.entryPrice, x) * pos.qty as real
            && pnl.net == pnl.gross - cfg.feePerLot * pos.qty as real
  {
    SameProduct(if pos.bracket.side.Call? then x - pos.entryPrice else pos.entryPrice - x,
                Gain(pos.bracket.side, pos.entryPrice, x), pos.qty as real);
  }

  lemma SettlementIsWorth(s: Strategy, cfg: Config, pos: Position, fill: Fill)
    ensures var pnl := Settlement(s, cfg, pos, fill.price, fill.reason);
            Worth(s, cfg, pos.option, pos.bracket.side, pos.entryPrice, pos.qty, fill, pnl.gross, pnl.net)
  {
    SlippedIsExit(cfg, fill.price);
    if !(cfg.useOptionModel && pos.option.Some?) {
      IndexWorth(cfg, pos, ExitPrice(cfg, fill.price));
    }
  }

  lemma WorthIsUnique(s: Strategy, cfg: Config, option: Option<OptionSpec>, side: Side, entry: real, qty: int, fill: Fill,
                      gross: real, net: real, gross': real, net': real)
    requires Worth(s, cfg, option, side, entry, qty, fill, gross, net)
    requires Worth(s, cfg, option, side, entry, qty, fill, gross', net')
    ensures gross == gross' && net == net'
  {
  }

  /** A closing books what the position is worth: its row rounded, the capital by the unrounded net result. */
  lemma ClosingBooks(s: Strategy, cfg: Config, i: nat, st: State, fill: Fill, gross: real, net: real)
    requires st.position.Some?
    requires var pos := st.position.value;
             Worth(s, cfg, pos.option, pos.bracket.side, pos.entryPrice, pos.qty, fill, gross, net)
    ensures var closed := Closed(s, cfg, i, st, fill);
            && closed.capital == Round2(st.capital + net)
            && |closed.journal| == |st.journal| + 1 && closed.journal[..|st.journal|] == st.journal
            && closed.journal[|st.journal|].grossPnl == Round2(gross) && closed.journal[|st.journal|].netPnl == Round2(net)
            && closed.equity == st.equity + [closed.capital]
            && closed.position.None? && closed.cooldownUntil == i + cfg.cooldownBars
  {
    var pos := st.position.value;
    var pnl := Settlement(s, cfg, pos, fill.price, fill.reason);
    SettlementIsWorth(s, cfg, pos, fill);
    WorthIsUnique(s, cfg, pos.option, pos.bracket.side, pos.entryPrice, pos.qty, fill, gross, net, pnl.gross, pnl.net);
  }

  /** Without an exit the equity is recorded, and a new order is placed exactly when there is no
      position, the cooldown is over and the bar orders. */
  lemma IdlingOrders(s: Strategy, cfg: Config, bars: seq<Bar>, i: nat, st: State)
    requires i < |bars|
    ensures var next := Idled(s, cfg, bars, i, st);
            && next.equity == st.equity + [st.capital] && next.capital == st.capital && next.journal == st.journal
            && next.pending == if st.position.None? && i >= st.cooldownUntil && Order(s, cfg, bars, i).Some?
                               then Order(s, cfg, bars, i) else st.pending
  {
  }

  /** The position of `before` was closed: one row more, and the capital moved by its unrounded net result. */
  ghost predicate Books(s: Strategy, cfg: Config, before: State, after: State)
    requires before.position.Some?
  {
    var pos, n := before.position.value, |before.journal|;
    exists fill: Fill, gross: real, net: real ::
      && Worth(s, cfg, pos.option, pos.bracket.side, pos.entryPrice, pos.qty, fill, gross, net)
      && after.capital == Round2(before.capital + net)
      && |after.journal| == n + 1 && after.journal[..n] == before.journal
      && after.journal[n].grossPnl == Round2(gross) && after.journal[n].netPnl == Round2(net)
  }

  /** On every bar of every run the capital, once a due entry is charged, stays or moves by a closing. */
  lemma StepBooks(s: Strategy, cfg: Config, bars: seq<Bar>, i: nat)
    requires Warmup(cfg) <= i < |bars|
    ensures var entered, next := EnterDue(s, cfg, i, After(s, cfg, bars, i)), After(s, cfg, bars, i + 1);
            if next.journal == entered.journal then next.capital == entered.capital
            else entered.position.Some? && Books(s, cfg, entered, next)
  {
    AfterNext(s, cfg, bars, i);
    StepMoves(s, cfg, bars, i, After(s, cfg, bars, i));
  }

  lemma StepMoves(s: Strategy, cfg: Config, bars: seq<Bar>, i: nat, st: State)
    requires i < |bars|
    ensures var entered, next := EnterDue(s, cfg, i, st), Step(s, cfg, bars, i, st);
            if next.journal == entered.journal then next.capital == entered.capital
            else entered.position.Some? && Books(s, cfg, entered, next)
  {
    var entered := EnterDue(s, cfg, i, st);
    var fill := ExitOf(entered, bars[i], i);
    if fill.Some? {
      var pnl := Settlement(s, cfg, entered.position.value, fill.value.price, fill.value.reason);
      SettlementIsWorth(s, cfg, entered.position.value, fill.value);
      ClosingBooks(s, cfg, i, entered, fill.value, pnl.gross, pnl.net);
    } else {
      IdlingOrders(s, cfg, bars, i, entered);
    }
  }

  // ---------------------------------------------------------------- every row

  /** What lies behind a row: the bar and verdict of its signal, the open it was filled at, the levels before
      rounding, the option, the index price it was left at and the result before rounding. */
  datatype Story = Story(
    signal: nat, verdict: Verdict, regime: string, open: real, atr: real, slMult: real, tpMult: real,
    entry: real, stop: real, target: real, option: Option<OptionSpec>, price: real, gross: real, net: real)

  /** The signal that was ordered. */
  ghost predicate FromSignal(s: Strategy, cfg: Config, bars: seq<Bar>, row: Row, t: Story) {
    && t.signal < |bars| && s.evaluate(bars[..t.signal + 1]) == Some(t.verdict)
    && t.verdict.action == "BUY" && t.verdict.partialScore >= cfg.aiThreshold + cfg.scoreGap
    && row.entryIdx == t.signal + Latency(cfg)
    && row.side == t.verdict.side && row.score == t.verdict.score && row.threshold == t.verdict.threshold
    && row.regime == t.regime == (if t.verdict.regime == "" then "NEUTRAL" else t.verdict.regime)
  }

  /** The levels at the open of the entry bar. */
  ghost predicate WithLevels(s: Strategy, cfg: Config, bars: seq<Bar>, row: Row, t: Story) {
    && 0 <= row.entryIdx < |bars| && t.open == bars[row.entryIdx].open
    && t.atr == (if t.verdict.atr.Some? && t.verdict.atr.value != 0.0 then t.verdict.atr.value else t.open * 0.005)
    && (t.slMult, t.tpMult) == (if cfg.useRegimeRr then s.rrTargets(t.regime, cfg.slAtrMult, cfg.tpAtrMult)
                                else (cfg.slAtrMult, cfg.tpAtrMult))
    && Levels(cfg, row.side, t)
    && t.option == if cfg.useOptionModel then Some(s.buildOption(row.side, t.entry, t.atr, t.stop, t.target)) else None
  }

  ghost predicate Levels(cfg: Config, side: Side, t: Story) {
    if side.Call? then
      && t.entry == t.open * (1.0 + cfg.slippagePct + cfg.spreadPct * 0.5)
      && t.stop == t.entry - t.atr * t.slMult && t.target == t.entry + t.atr * t.tpMult
    else
      && t.entry == t.open * (1.0 - cfg.slippagePct - cfg.spreadPct * 0.5)
      && t.stop == t.entry + t.atr * t.slMult && t.target == t.entry - t.atr * t.tpMult
  }

  /** The exit: which price each reason pays, and that the bar did what the reason says. */
  ghost predicate LeftFor(cfg: Config, bars: seq<Bar>, row: Row, t: Story) {
    && 0 <= row.entryIdx <= row.exitIdx < |bars| && row.barsHeld == row.exitIdx - row.entryIdx
    && row.exitPrice == Round4(Slipped(cfg, t.price))
    && var bar, stop, target := bars[row.exitIdx], Round4(t.stop), Round4(t.target);
       var stopped := if row.side.Call? then bar.low <= stop else bar.high >= stop;
       var reached := if row.side.Call? then bar.high >= target else bar.low <= target;
       match row.reason
       case StopLoss => t.price == stop && stopped
       case TakeProfit => t.price == target && reached && !stopped
       case TimeExit => t.price == bar.close && row.barsHeld >= cfg.maxBarsInTrade && !stopped && !reached
  }

  /** The money: what the position was worth, rounded, and the option model's other figures. */
  ghost predicate Paid(s: Strategy, cfg: Config, row: Row, t: Story) {
    && row.entryPrice == Round4(t.entry)
    && Worth(s, cfg, t.option, row.side, row.entryPrice, cfg.qty, Fill(t.price, row.reason), t.gross, t.net)
    && row.grossPnl == Round2(t.gross) && row.netPnl == Round2(t.net)
    && if t.option.Some? then
         var info := s.optionPnl(t.option.value, Slipped(cfg, t.price), row.reason, cfg.feePerLot);
         && row.entryPremium == Round2(t.option.value.entryPremium) && row.exitPremium == Round2(info.exitPremium)
         && row.rr == Round3(info.rr) && row.pctPnl == Round2(info.pct)
       else
         && row.entryPremium == 0.0 && row.exitPremium == 0.0 && row.rr == 0.0
         && row.pctPnl == Round2(if row.entryPrice > 0.0 then (Slipped(cfg, t.price) - row.entryPrice) / row.entryPrice * 100.0
                                 else 0.0)
  }

  ghost predicate Explains(s: Strategy, cfg: Config, bars: seq<Bar>, row: Row, t: Story) {
    && FromSignal(s, cfg, bars, row, t) && WithLevels(s, cfg, bars, row, t)
    && LeftFor(cfg, bars, row, t) && Paid(s, cfg, row, t)
  }

  ghost predicate Explained(s: Strategy, cfg: Config, bars: seq<Bar>, row: Row) {
    exists t: Story :: Explains(s, cfg, bars, row, t)
  }

  lemma ZeroRounds()
    ensures Round2(0.0) == 0.0 && Round3(0.0) == 0.0
  {
    WholeIsFixed(0);
  }

  /** The story of order `p` of bar `i`, left by `fill`. */
  ghost function StoryOf(s: Strategy, cfg: Config, i: nat, v: Verdict, p: Pending, fill: Fill): Story {
    var pos := Opened(s, cfg, p, p.enterOn);
    var entry := EntryPrice(cfg, p);
    var pnl := Settlement(s, cfg, pos, fill.price, fill.reason);
    Story(i, v, p.regime, p.refPrice, p.atr, p.slMult, p.tpMult, entry, StopPrice(p, entry), TargetPrice(p, entry),
          pos.option, fill.price, pnl.gross, pnl.net)
  }

  lemma OrderShape(s: Strategy, cfg: Config, bars: seq<Bar>, i: nat, v: Verdict, p: Pending)
    requires i < |bars| && s.evaluate(bars[..i + 1]) == Some(v) && Order(s, cfg, bars, i) == Some(p)
    ensures v.action == "BUY" && v.partialScore >= cfg.aiThreshold + cfg.scoreGap
    ensures p.enterOn == i + Latency(cfg) < |bars| && p.refPrice == bars[p.enterOn].open
    ensures p.side == v.side && p.score == v.score && p.threshold == v.threshold
    ensures p.regime == if v.regime == "" then "NEUTRAL" else v.regime
    ensures p.atr == if v.atr.Some? && v.atr.value != 0.0 then v.atr.value else p.refPrice * 0.005
    ensures (p.slMult, p.tpMult) == if cfg.useRegimeRr then s.rrTargets(p.regime, cfg.slAtrMult, cfg.tpAtrMult)
                                    else (cfg.slAtrMult, cfg.tpAtrMult)
  {
  }

  lemma EntryLevel(cfg: Config, p: Pending)
    ensures p.side.Call? ==> EntryPrice(cfg, p) == p.refPrice * (1.0 + cfg.slippagePct + cfg.spreadPct * 0.5)
    ensures p.side.Put? ==> EntryPrice(cfg, p) == p.refPrice * (1.0 - cfg.slippagePct - cfg.spreadPct * 0.5)
  {
  }

  lemma ExitLevels(p: Pending, entry: real)
    ensures p.side.Call? ==> StopPrice(p, entry) == entry - p.atr * p.slMult && TargetPrice(p, entry) == entry + p.atr * p.tpMult
    ensures p.side.Put? ==> StopPrice(p, entry) == entry + p.atr * p.slMult && TargetPrice(p, entry) == entry - p.atr * p.tpMult
  {
  }

  lemma StoryLevels(cfg: Config, p: Pending, t: Story)
    requires (t.open, t.atr, t.slMult, t.tpMult) == (p.refPrice, p.atr, p.slMult, p.tpMult)
    requires t.entry == EntryPrice(cfg, p) && t.stop == StopPrice(p, t.entry) && t.target == TargetPrice(p, t.entry)
    ensures Levels(cfg, p.side, t)
  {
    EntryLevel(cfg, p);
    ExitLevels(p, t.entry);
  }

  lemma OpenedShape(s: Strategy, cfg: Config, p: Pending)
    ensures var pos, entry := Opened(s, cfg, p, p.enterOn), EntryPrice(cfg, p);
            && pos.bracket == Bracket(p.side, Round4(StopPrice(p, entry)), Round4(TargetPrice(p, entry)), p.enterOn, cfg.maxBarsInTrade)
            && pos.entryPrice == Round4(entry) && pos.qty == cfg.qty
            && (pos.score, pos.threshold, pos.regime) == (p.score, p.threshold, p.regime)
            && pos.option == (if cfg.useOptionModel
                              then Some(s.buildOption(p.side, entry, p.atr, StopPrice(p, entry), TargetPrice(p, entry))) else None)
            && pos.entryPremium == Round2(if pos.option.Some? then pos.option.value.entryPremium else 0.0)
  {
  }

  lemma OrderedRow(s: Strategy, cfg: Config, bars: seq<Bar>, i: nat, v: Verdict, p: Pending, fill: Fill, row: Row)
    requires i < |bars| && s.evaluate(bars[..i + 1]) == Some(v) && Order(s, cfg, bars, i) == Some(p)
    requires row.entryIdx == p.enterOn && row.side == p.side
    requires (row.score, row.threshold, row.regime) == (p.score, p.threshold, p.regime)
    ensures FromSignal(s, cfg, bars, row, StoryOf(s, cfg, i, v, p, fill))
    ensures WithLevels(s, cfg, bars, row, StoryOf(s, cfg, i, v, p, fill))
  {
    OrderShape(s, cfg, bars, i, v, p);
    StoryLevels(cfg, p, StoryOf(s, cfg, i, v, p, fill));
    OpenedShape(s, cfg, p);
  }

  lemma LeftRow(cfg: Config, bars: seq<Bar>, b: Bracket, j: nat, row: Row, t: Story)
    requires b.entryIdx <= j < |bars| && 0 <= b.entryIdx && b.Qualifies(bars[j], j)
    requires b.stop == Round4(t.stop) && b.target == Round4(t.target) && b.maxBars == cfg.maxBarsInTrade
    requires row.entryIdx == b.entryIdx && row.exitIdx == j && row.barsHeld == j - b.entryIdx && row.side == b.side
    requires b.ExitAt(bars[j], j) == Some(Fill(t.price, row.reason)) && row.exitPrice == Round4(Slipped(cfg, t.price))
    ensures LeftFor(cfg, bars, row, t)
  {
  }

  lemma RowShape(s: Strategy, cfg: Config, pos: Position, fill: Fill, j: nat)
    ensures var row, pnl := RowOf(s, cfg, pos, fill, j), Settlement(s, cfg, pos, fill.price, fill.reason);
            && row.entryIdx == pos.bracket.entryIdx && row.exitIdx == j && row.barsHeld == j - pos.bracket.entryIdx
            && row.side == pos.bracket.side && row.reason == fill.reason
            && (row.score, row.threshold, row.regime) == (pos.score, pos.threshold, pos.regime)
            && row.entryPrice == Round4(pos.entryPrice) && row.exitPrice == Round4(Slipped(cfg, fill.price))
            && row.entryPremium == Round2(pos.entryPremium) && row.exitPremium == Round2(pnl.exitPremium)
            && row.grossPnl == Round2(pnl.gross) && row.netPnl == Round2(pnl.net)
            && row.rr == Round3(pnl.rr) && row.pctPnl == Round2(pnl.pct)
  {
    SlippedIsExit(cfg, fill.price);
  }

  /** The figures beside gross and net. */
  lemma OtherFigures(s: Strategy, cfg: Config, pos: Position, fill: Fill)
    ensures var pnl, x := Settlement(s, cfg, pos, fill.price, fill.reason), Slipped(cfg, fill.price);
            if cfg.useOptionModel && pos.option.Some? then
              var info := s.optionPnl(pos.option.value, x, fill.reason, cfg.feePerLot);
              pnl.exitPremium == info.exitPremium && pnl.rr == info.rr && pnl.pct == info.pct
            else
              && pnl.exitPremium == 0.0 && pnl.rr == 0.0
              && pnl.pct == if pos.entryPrice > 0.0 then (x - pos.entryPrice) / pos.entryPrice * 100.0 else 0.0
  {
    SlippedIsExit(cfg, fill.price);
  }

  lemma PaidRow(s: Strategy, cfg: Config, row: Row, t: Story, pos: Position, pnl: Outcome, fill: Fill)
    requires pnl == Settlement(s, cfg, pos, fill.price, fill.reason) && t.gross == pnl.gross && t.net == pnl.net
    requires pos.entryPrice == Round4(t.entry) && pos.qty == cfg.qty && pos.option == t.option && t.price == fill.price
    requires pos.option.Some? <==> cfg.useOptionModel
    requires pos.entryPremium == Round2(if pos.option.Some? then pos.option.value.entryPremium else 0.0)
    requires row.side == pos.bracket.side && row.reason == fill.reason && row.entryPrice == Round4(pos.entryPrice)
    requires row.entryPremium == Round2(pos.entryPremium) && row.exitPremium == Round2(pnl.exitPremium)
    requires row.grossPnl == Round2(pnl.gross) && row.netPnl == Round2(pnl.net)
    requires row.rr == Round3(pnl.rr) && row.pctPnl == Round2(pnl.pct)
    ensures Paid(s, cfg, row, t)
  {
    SettlementIsWorth(s, cfg, pos, fill);
    assert fill == Fill(t.price, row.reason);
    Round4Idempotent(t.entry);
    Round2Idempotent(if pos.option.Some? then pos.option.value.entryPremium else 0.0);
    ZeroRounds();
    OtherFigures(s, cfg, pos, fill);
  }

  lemma RowExplained(s: Strategy, cfg: Config, bars: seq<Bar>, i: nat, v: Verdict, p: Pending, pos: Position, fill: Fill, j: nat)
    requires i < |bars| && s.evaluate(bars[..i + 1]) == Some(v) && Order(s, cfg, bars, i) == Some(p)
    requires pos == Opened(s, cfg, p, p.enterOn)
    requires p.enterOn <= j < |bars| && pos.bracket.ExitAt(bars[j], j) == Some(fill)
    ensures Explained(s, cfg, bars, RowOf(s, cfg, pos, fill, j))
  {
    var row, t := RowOf(s, cfg, pos, fill, j), StoryOf(s, cfg, i, v, p, fill);
    OpenedShape(s, cfg, p);
    RowShape(s, cfg, pos, fill, j);
    OrderedRow(s, cfg, bars, i, v, p, fill, row);
    LeftRow(cfg, bars, pos.bracket, j, row, t);
    PaidRow(s, cfg, row, t, pos, Settlement(s, cfg, pos, fill.price, fill.reason), fill);
    assert Explains(s, cfg, bars, row, t);
  }

  ghost predicate AllExplained(s: Strategy, cfg: Config, bars: seq<Bar>, rows: seq<Row>) {
    forall r :: 0 <= r < |rows| ==> Explained(s, cfg, bars, rows[r])
  }

  lemma {:induction false} TradesExplained(s: Strategy, cfg: Config, bars: seq<Bar>, from: nat)
    ensures AllExplained(s, cfg, bars, Trades(s, cfg, bars, from))
    decreases |bars| + 1 - from
  {
    if Latency(cfg) > 0 && from <= |bars| && NextOrder(s, cfg, bars, from) < |bars| {
      var i := NextOrder(s, cfg, bars, from);
      var p := Order(s, cfg, bars, i).value;
      var pos := Opened(s, cfg, p, p.enterOn);
      var j := pos.bracket.FirstTouch(bars, p.enterOn);
      if j < |bars| {
        var fill := pos.bracket.ExitAt(bars[j], j).value;
        RowExplained(s, cfg, bars, i, s.evaluate(bars[..i + 1]).value, p, pos, fill, j);
        TradesExplained(s, cfg, bars, Resume(cfg, j));
        ExplainedCons(s, cfg, bars, RowOf(s, cfg, pos, fill, j), Trades(s, cfg, bars, Resume(cfg, j)));
      }
    }
  }

  lemma ExplainedCons(s: Strategy, cfg: Config, bars: seq<Bar>, row: Row, rest: seq<Row>)
    requires Explained(s, cfg, bars, row) && AllExplained(s, cfg, bars, rest)
    ensures AllExplained(s, cfg, bars, [row] + rest)
  {
  }

  /** Every row of a run's journal follows from a signal, the bars and, where it is used, the option model. */
  lemma JournalExplained(s: Strategy, cfg: Config, bars: seq<Bar>)
    ensures AllExplained(s, cfg, bars, After(s, cfg, bars, |bars|).journal)
  {
    JournalIsTrades(s, cfg, bars);
    TradesExplained(s, cfg, bars, Warmup(cfg));
  }
}
