/** What a bar does to the account and what every trade of the report says, in the signal's and the bars' own terms. */
module BacktestResults {
  import opened Wrappers
  import opened Reals
  import opened Rounding
  import opened ExitRules
  import opened BacktestModel
  import opened BacktestTrades

  /** The move of a position from its entry to `price`, in its own favour. */
  function Gain(side: Side, entry: real, price: real): real {
    if side.Call? then price - entry else entry - price
  }

  /** The result of leaving at `price`, before commission and rounding. */
  predicate Worth(side: Side, entry: real, qty: int, price: real, gross: real) {
    gross == Gain(side, entry, price) * qty as real
  }

  /** What lies behind a trade: its signal, the levels, the price it was left at and the result before rounding. */
  datatype Story = Story(signal: Signal, stop: real, target: real, price: real, gross: real)

  /** The signal after the entry bar cleared its threshold by the buffer. */
  ghost predicate FromSignal(s: Strategy, cfg: Config, bars: seq<Bar>, trade: Trade, t: Story) {
    && 0 <= trade.entryIdx < |bars| && s(bars[..trade.entryIdx + 1]) == Some(t.signal)
    && t.signal.score >= t.signal.threshold + cfg.signalEntryBuffer as real
    && trade.side == t.signal.side && trade.score == t.signal.score && trade.threshold == t.signal.threshold
    && trade.qty == (if t.signal.qty.Some? && t.signal.qty.value != 0 then t.signal.qty.value else cfg.tradeSize)
  }

  /** The fill at the close of the entry bar, with slippage against the buyer. */
  ghost predicate FilledAt(cfg: Config, close: real, trade: Trade) {
    if trade.side.Call? then trade.entryPrice == Round4(close * (1.0 + cfg.slippagePct))
    else trade.entryPrice == Round4(close * (1.0 - cfg.slippagePct))
  }

  /** The levels: the signal's own, or the configured percentages below and above the fill. */
  ghost predicate Levels(cfg: Config, side: Side, entry: real, t: Story) {
    if side.Call? then
      && t.stop == (if t.signal.stopLoss.Some? then t.signal.stopLoss.value else entry * (1.0 - cfg.fallbackStopPct))
      && t.target == (if t.signal.tp2.Some? then t.signal.tp2.value else entry * (1.0 + cfg.fallbackTargetPct))
    else
      && t.stop == (if t.signal.stopLoss.Some? then t.signal.stopLoss.value else entry * (1.0 + cfg.fallbackStopPct))
      && t.target == (if t.signal.tp2.Some? then t.signal.tp2.value else entry * (1.0 - cfg.fallbackTargetPct))
  }

  /** The exit: which price each reason pays, and that the bar did what the reason says. */
  ghost predicate LeftFor(cfg: Config, bars: seq<Bar>, trade: Trade, t: Story) {
    && trade.entryIdx < trade.exitIdx < |bars| && 0 <= trade.exitIdx && trade.barsHeld == trade.exitIdx - trade.entryIdx
    && trade.exitPrice == Round4(t.price)
    && var bar := bars[trade.exitIdx];
       var stopped := if trade.side.Call? then bar.low <= t.stop else bar.high >= t.stop;
       var reached := if trade.side.Call? then bar.high >= t.target else bar.low <= t.target;
       match trade.reason
       case StopLoss => t.price == t.stop && stopped
       case TakeProfit => t.price == t.target && reached && !stopped
       case TimeExit => t.price == bar.close && trade.barsHeld >= cfg.maxBarsInTrade && !stopped && !reached
  }

  /** The money: the move in the position's favour times the quantity, less the commission for the net result. */
  ghost predicate Paid(cfg: Config, trade: Trade, t: Story) {
    && Worth(trade.side, trade.entryPrice, trade.qty, t.price, t.gross)
    && trade.grossPnl == Round2(t.gross) && trade.netPnl == Round2(t.gross - cfg.commission)
  }

  ghost predicate Explains(s: Strategy, cfg: Config, bars: seq<Bar>, trade: Trade, t: Story) {
    && FromSignal(s, cfg, bars, trade, t)
    && FilledAt(cfg, bars[trade.entryIdx].close, trade) && Levels(cfg, trade.side, trade.entryPrice, t)
    && LeftFor(cfg, bars, trade, t) && Paid(cfg, trade, t)
  }

  ghost predicate Explained(s: Strategy, cfg: Config, bars: seq<Bar>, trade: Trade) {
    exists t: Story :: Explains(s, cfg, bars, trade, t)
  }

  ghost predicate AllExplained(s: Strategy, cfg: Config, bars: seq<Bar>, ts: seq<Trade>) {
    forall r :: 0 <= r < |ts| ==> Explained(s, cfg, bars, ts[r])
  }

  /** `level` is not on the losing side of the entry: below it for a call, above it for a put. */
  predicate NotLosingAt(trade: Trade, level: real) {
    if trade.side.Call? then level >= trade.entryPrice else level <= trade.entryPrice
  }

  /** `level` is not on the winning side of the entry. */
  predicate NotWinningAt(trade: Trade, level: real) {
    if trade.side.Call? then level <= trade.entryPrice else level >= trade.entryPrice
  }

  lemma SignOfProduct(gain: real, qty: real, gross: real)
    requires gross == gain * qty && qty > 0.0
    ensures gain >= 0.0 ==> Round2(gross) >= 0.0
    ensures gain <= 0.0 ==> Round2(gross) <= 0.0
  {
    WholeIsFixed(0);
    if gain >= 0.0 {
      MulMonotone(0.0, gain, qty);
      Round2Monotone(0.0, gross);
    }
    if gain <= 0.0 {
      MulMonotone(gain, 0.0, qty);
      Round2Monotone(gross, 0.0);
    }
  }

  /** With a positive quantity a target on the winning side never loses before the commission, and a stop
      on the losing side never wins. */
  lemma LevelsDecideSign(cfg: Config, bars: seq<Bar>, trade: Trade, t: Story)
    requires LeftFor(cfg, bars, trade, t) && Paid(cfg, trade, t) && trade.qty > 0
    ensures trade.reason.TakeProfit? && NotLosingAt(trade, t.target) ==> trade.grossPnl >= 0.0
    ensures trade.reason.StopLoss? && NotWinningAt(trade, t.stop) ==> trade.grossPnl <= 0.0
  {
    SignOfResult(trade, t.price, t.gross);
  }

  lemma SignOfResult(trade: Trade, price: real, gross: real)
    requires Worth(trade.side, trade.entryPrice, trade.qty, price, gross) && trade.qty > 0
    ensures NotLosingAt(trade, price) ==> Round2(gross) >= 0.0
    ensures NotWinningAt(trade, price) ==> Round2(gross) <= 0.0
  {
    SignOfProduct(Gain(trade.side, trade.entryPrice, price), trade.qty as real, gross);
  }

  ghost function StoryOf(pos: Position, sig: Signal, fill: Fill): Story {
    Story(sig, pos.bracket.stop, pos.bracket.target, fill.price, Gain(pos.bracket.side, pos.entryPrice, fill.price) * pos.qty as real)
  }

  lemma GrossIsGain(pos: Position, price: real)
    ensures Gross(pos, price) == Gain(pos.bracket.side, pos.entryPrice, price) * pos.qty as real
  {
    SameProduct(if pos.bracket.side.Call? then price - pos.entryPrice else pos.entryPrice - price,
                Gain(pos.bracket.side, pos.entryPrice, price), pos.qty as real);
  }

  /** A closing moves the capital by the unrounded net result. */
  lemma ClosingBooks(cfg: Config, i: nat, st: State, fill: Fill, gross: real)
    requires st.position.Some?
    requires var pos := st.position.value; Worth(pos.bracket.side, pos.entryPrice, pos.qty, fill.price, gross)
    ensures var closed := Closed(cfg, i, st, fill);
            && closed.capital == Round2(st.capital + (gross - cfg.commission))
            && |closed.trades| == |st.trades| + 1 && closed.trades[..|st.trades|] == st.trades
            && closed.trades[|st.trades|].grossPnl == Round2(gross)
            && closed.trades[|st.trades|].netPnl == Round2(gross - cfg.commission)
            && closed.position.None? && closed.cooldownUntil == i + cfg.cooldownBars
  {
    GrossIsGain(st.position.value, fill.price);
    var net := Net(cfg, st.position.value, fill.price);
    assert net == gross - cfg.commission;
  }

  lemma SameRounded(price: real, x: real, y: real)
    requires price == Round4(x) && x == y
    ensures price == Round4(y)
  {
  }

  lemma OpenedShape(cfg: Config, sig: Signal, close: real, idx: int)
    ensures var pos := Opened(cfg, sig, close, idx);
            && pos.bracket.side == sig.side && pos.score == sig.score && pos.threshold == sig.threshold
            && pos.qty == (if sig.qty.Some? && sig.qty.value != 0 then sig.qty.value else cfg.tradeSize)
            && (sig.side.Call? ==> pos.entryPrice == Round4(close * (1.0 + cfg.slippagePct)))
            && (sig.side.Put? ==> pos.entryPrice == Round4(close * (1.0 - cfg.slippagePct)))
            && Round4(pos.entryPrice) == pos.entryPrice
  {
    var pos := Opened(cfg, sig, close, idx);
    if sig.side.Call? {
      SameRounded(pos.entryPrice, Filled(cfg, sig.side, close), close * (1.0 + cfg.slippagePct));
    } else {
      SameRounded(pos.entryPrice, Filled(cfg, sig.side, close), close * (1.0 - cfg.slippagePct));
    }
    Round4Idempotent(Filled(cfg, sig.side, close));
  }

  lemma OpenedLevels(cfg: Config, sig: Signal, close: real, idx: int, entry: real, t: Story)
    requires entry == EntryPrice(cfg, sig.side, close) && t.signal == sig
    requires var b := Opened(cfg, sig, close, idx).bracket; t.stop == b.stop && t.target == b.target
    ensures Levels(cfg, sig.side, entry, t)
  {
  }

  lemma LeftTrade(cfg: Config, bars: seq<Bar>, b: Bracket, j: nat, fill: Fill, trade: Trade, t: Story)
    requires 0 <= b.entryIdx < j < |bars| && b.Qualifies(bars[j], j) && b.ExitAt(bars[j], j) == Some(fill)
    requires b.stop == t.stop && b.target == t.target && b.maxBars == cfg.maxBarsInTrade && t.price == fill.price
    requires trade.entryIdx == b.entryIdx && trade.exitIdx == j && trade.barsHeld == j - b.entryIdx && trade.side == b.side
    requires trade.reason == fill.reason && trade.exitPrice == Round4(fill.price)
    ensures LeftFor(cfg, bars, trade, t)
  {
  }

  lemma OpenedTrade(s: Strategy, cfg: Config, bars: seq<Bar>, i: nat, sig: Signal, pos: Position, trade: Trade, t: Story)
    requires i < |bars| && s(bars[..i + 1]) == Some(sig) && Entry(s, cfg, bars, i) == Some(pos)
    requires trade.entryIdx == i && trade.side == pos.bracket.side && trade.entryPrice == Round4(pos.entryPrice)
    requires trade.qty == pos.qty && trade.score == pos.score && trade.threshold == pos.threshold
    requires t.signal == sig && t.stop == pos.bracket.stop && t.target == pos.bracket.target
    ensures FromSignal(s, cfg, bars, trade, t) && FilledAt(cfg, bars[i].close, trade)
    ensures Levels(cfg, trade.side, trade.entryPrice, t) && trade.entryPrice == pos.entryPrice
  {
    OpenedShape(cfg, sig, bars[i].close, i);
    OpenedLevels(cfg, sig, bars[i].close, i, trade.entryPrice, t);
  }

  /** The fields a trade copies from its position and exit. */
  ghost predicate Copies(trade: Trade, pos: Position, fill: Fill, j: int) {
    && trade.entryIdx == pos.bracket.entryIdx && trade.exitIdx == j && trade.barsHeld == j - pos.bracket.entryIdx
    && trade.side == pos.bracket.side && trade.reason == fill.reason
    && trade.entryPrice == Round4(pos.entryPrice) && trade.exitPrice == Round4(fill.price)
    && trade.qty == pos.qty && trade.score == pos.score && trade.threshold == pos.threshold
  }

  lemma StoryExplains(s: Strategy, cfg: Config, bars: seq<Bar>, i: nat, pos: Position, fill: Fill, j: nat, trade: Trade, t: Story)
    requires i < j < |bars| && s(bars[..i + 1]) == Some(t.signal) && Entry(s, cfg, bars, i) == Some(pos)
    requires pos.bracket.ExitAt(bars[j], j) == Some(fill)
    requires t.stop == pos.bracket.stop && t.target == pos.bracket.target && t.price == fill.price
    requires Copies(trade, pos, fill, j) && Paid(cfg, trade, t)
    ensures Explains(s, cfg, bars, trade, t)
  {
    OpenedTrade(s, cfg, bars, i, t.signal, pos, trade, t);
    LeftTrade(cfg, bars, pos.bracket, j, fill, trade, t);
  }

  lemma PaidTrade(cfg: Config, pos: Position, fill: Fill, j: int, trade: Trade, t: Story)
    requires trade == TradeOf(cfg, pos, fill, j) && Round4(pos.entryPrice) == pos.entryPrice
    requires Worth(pos.bracket.side, pos.entryPrice, pos.qty, fill.price, t.gross) && t.price == fill.price
    ensures Paid(cfg, trade, t) && Copies(trade, pos, fill, j)
  {
    GrossIsGain(pos, fill.price);
  }

  lemma TradeExplained(s: Strategy, cfg: Config, bars: seq<Bar>, i: nat, pos: Position, fill: Fill, j: nat, t: Story)
    requires i < j < |bars| && s(bars[..i + 1]) == Some(t.signal) && Entry(s, cfg, bars, i) == Some(pos)
    requires pos.bracket.ExitAt(bars[j], j) == Some(fill)
    requires t.stop == pos.bracket.stop && t.target == pos.bracket.target && t.price == fill.price
    requires Worth(pos.bracket.side, pos.entryPrice, pos.qty, fill.price, t.gross)
    ensures Explained(s, cfg, bars, TradeOf(cfg, pos, fill, j))
  {
    var trade := TradeOf(cfg, pos, fill, j);
    OpenedShape(cfg, t.signal, bars[i].close, i);
    PaidTrade(cfg, pos, fill, j, trade, t);
    StoryExplains(s, cfg, bars, i, pos, fill, j, trade, t);
  }

  lemma ExplainedCons(s: Strategy, cfg: Config, bars: seq<Bar>, trade: Trade, rest: seq<Trade>)
    requires Explained(s, cfg, bars, trade) && AllExplained(s, cfg, bars, rest)
    ensures AllExplained(s, cfg, bars, [trade] + rest)
  {
  }

  lemma {:induction false} TradesExplained(s: Strategy, cfg: Config, bars: seq<Bar>, from: nat)
    ensures AllExplained(s, cfg, bars, Trades(s, cfg, bars, from))
    decreases |bars| + 1 - from
  {
    if from <= |bars| && NextEntry(s, cfg, bars, from) < |bars| {
      var i := NextEntry(s, cfg, bars, from);
      var pos := Entry(s, cfg, bars, i).value;
      var j := pos.bracket.FirstTouch(bars, i + 1);
      if j < |bars| {
        var fill := pos.bracket.ExitAt(bars[j], j).value;
        TradeExplained(s, cfg, bars, i, pos, fill, j, StoryOf(pos, s(bars[..i + 1]).value, fill));
        TradesExplained(s, cfg, bars, Resume(cfg, j));
        ExplainedCons(s, cfg, bars, TradeOf(cfg, pos, fill, j), Trades(s, cfg, bars, Resume(cfg, j)));
      }
    }
  }

  /** Every trade of a run follows from a signal and the bars. */
  lemma ReportExplained(s: Strategy, cfg: Config, bars: seq<Bar>)
    ensures AllExplained(s, cfg, bars, After(s, cfg, bars, |bars|).trades)
  {
    TradesAreTrades(s, cfg, bars);
    TradesExplained(s, cfg, bars, Warmup(cfg));
  }

  /** On every bar of every run the capital stays, or moves by the unrounded net result of the position closed. */
  lemma StepBooks(s: Strategy, cfg: Config, bars: seq<Bar>, i: nat)
    requires Warmup(cfg) <= i < |bars|
    ensures var st, next := After(s, cfg, bars, i), After(s, cfg, bars, i + 1);
            if next.trades == st.trades then next.capital == st.capital
            else st.position.Some? && Books(cfg, st, next)
  {
    AfterNext(s, cfg, bars, i);
    StepMoves(s, cfg, bars, i, After(s, cfg, bars, i));
  }

  ghost predicate Books(cfg: Config, before: State, after: State)
    requires before.position.Some?
  {
    var pos, n := before.position.value, |before.trades|;
    exists price: real, gross: real ::
      && Worth(pos.bracket.side, pos.entryPrice, pos.qty, price, gross)
      && after.capital == Round2(before.capital + (gross - cfg.commission))
      && |after.trades| == n + 1 && after.trades[..n] == before.trades
      && after.trades[n].grossPnl == Round2(gross) && after.trades[n].netPnl == Round2(gross - cfg.commission)
  }

  lemma ClosingIsBooked(cfg: Config, i: nat, st: State, fill: Fill, gross: real)
    requires st.position.Some?
    requires var pos := st.position.value; Worth(pos.bracket.side, pos.entryPrice, pos.qty, fill.price, gross)
    ensures Books(cfg, st, Closed(cfg, i, st, fill))
  {
    ClosingBooks(cfg, i, st, fill, gross);
  }

  lemma StepMoves(s: Strategy, cfg: Config, bars: seq<Bar>, i: nat, st: State)
    requires i < |bars|
    ensures var next := Step(s, cfg, bars, i, st);
            if next.trades == st.trades then next.capital == st.capital
            else st.position.Some? && Books(cfg, st, next)
  {
    var fill := ExitOf(st, bars[i], i);
    if fill.Some? {
      var pos := st.position.value;
      ClosingIsBooked(cfg, i, st, fill.value, Gain(pos.bracket.side, pos.entryPrice, fill.value.price) * pos.qty as real);
    }
  }
}
