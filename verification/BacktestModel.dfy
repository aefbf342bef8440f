/** One bar of core/backtest_engine.py as a step on the loop's variables. */
module BacktestModel {
  import opened Wrappers
  import opened Reals
  import opened Rounding
  import opened ExitRules
  import opened Benchmark

  datatype Config = Config(
    initialCapital: real,
    tradeSize: int,
    signalEntryBuffer: int,
    fallbackStopPct: real,
    fallbackTargetPct: real,
    maxBarsInTrade: int,
    commission: real,
    slippagePct: real,
    cooldownBars: int,
    warmupBars: int)

  datatype Signal = Signal(
    score: real, threshold: real, side: Side, stopLoss: Option<real>, tp2: Option<real>, qty: Option<int>)

  /** The strategy engine: it is shown the bars up to and including the current one. */
  type Strategy = seq<Bar> -> Option<Signal>

  datatype Position = Position(bracket: Bracket, entryPrice: real, qty: int, score: real, threshold: real)

  /** A trade of the report; entry and exit times are given by their bar. */
  datatype Trade = Trade(
    entryIdx: int, exitIdx: int, side: Side, entryPrice: real, exitPrice: real, qty: int, grossPnl: real, netPnl: real,
    reason: ExitReason, barsHeld: int, score: real, threshold: real)

  datatype State = State(
    trades: seq<Trade>, capital: real, peak: real, maxDrawdown: real, position: Option<Position>, cooldownUntil: int)

  function Warmup(cfg: Config): nat {
    if cfg.warmupBars >= 1 then cfg.warmupBars else 1
  }

  function Initial(cfg: Config): State {
    State([], cfg.initialCapital, cfg.initialCapital, 0.0, None, -1)
  }

  /** The closing price with slippage against the buyer. */
  function Filled(cfg: Config, side: Side, close: real): real {
    if side.Call? then close * (1.0 + cfg.slippagePct) else close * (1.0 - cfg.slippagePct)
  }

  function EntryPrice(cfg: Config, side: Side, close: real): real {
    Round4(Filled(cfg, side, close))
  }

  /** The position a signal opens at the closing price of bar `idx`. */
  function Opened(cfg: Config, sig: Signal, close: real, idx: int): (pos: Position)
    ensures pos.bracket.entryIdx == idx && pos.bracket.maxBars == cfg.maxBarsInTrade
  {
    var call := sig.side.Call?;
    var entry := EntryPrice(cfg, sig.side, close);
    var stopDefault := entry * if call then 1.0 - cfg.fallbackStopPct else 1.0 + cfg.fallbackStopPct;
    var targetDefault := entry * if call then 1.0 + cfg.fallbackTargetPct else 1.0 - cfg.fallbackTargetPct;
    var stop := if sig.stopLoss.Some? then sig.stopLoss.value else stopDefault;
    var target := if sig.tp2.Some? then sig.tp2.value else targetDefault;
    var qty := if sig.qty.Some? && sig.qty.value != 0 then sig.qty.value else cfg.tradeSize;
    Position(Bracket(sig.side, stop, target, idx, cfg.maxBarsInTrade), entry, qty, sig.score, sig.threshold)
  }

  lemma FilledAdverse(cfg: Config, side: Side, close: real)
    requires close >= 0.0 && cfg.slippagePct >= 0.0
    ensures if side.Call? then close <= Filled(cfg, side, close) else Filled(cfg, side, close) <= close
  {
    MulMonotone(1.0, 1.0 + cfg.slippagePct, close);
    MulMonotone(1.0 - cfg.slippagePct, 1.0, close);
  }

  /** The fill is never better than the close, rounding included. */
  lemma EntryAdverse(cfg: Config, side: Side, close: real)
    requires close >= 0.0 && cfg.slippagePct >= 0.0
    ensures if side.Call? then Round4(close) <= EntryPrice(cfg, side, close) else EntryPrice(cfg, side, close) <= Round4(close)
  {
    FilledAdverse(cfg, side, close);
    if side.Call? {
      Round4Monotone(close, Filled(cfg, side, close));
    } else {
      Round4Monotone(Filled(cfg, side, close), close);
    }
  }

  /** A bracket the signal leaves open lies around a fill that is not negative: the stop on the losing
      side of it, the target on the winning side. */
  lemma DefaultBracketStraddlesEntry(cfg: Config, sig: Signal, close: real, idx: int)
    requires sig.stopLoss.None? && sig.tp2.None? && EntryPrice(cfg, sig.side, close) >= 0.0
    requires cfg.fallbackStopPct >= 0.0 && cfg.fallbackTargetPct >= 0.0
    ensures var pos := Opened(cfg, sig, close, idx);
            if sig.side.Call? then pos.bracket.stop <= pos.entryPrice <= pos.bracket.target
            else pos.bracket.target <= pos.entryPrice <= pos.bracket.stop
  {
    var entry := EntryPrice(cfg, sig.side, close);
    AroundEntry(entry, cfg.fallbackStopPct);
    AroundEntry(entry, cfg.fallbackTargetPct);
  }

  lemma AroundEntry(entry: real, pct: real)
    requires entry >= 0.0 && pct >= 0.0
    ensures entry * (1.0 - pct) <= entry <= entry * (1.0 + pct)
  {
    MulMonotone(1.0 - pct, 1.0, entry);
    MulMonotone(1.0, 1.0 + pct, entry);
  }

  /** The signal after bar `idx` clears its threshold by the buffer. */
  predicate Admits(s: Strategy, cfg: Config, bars: seq<Bar>, idx: nat)
    requires idx < |bars|
  {
    var signal := s(bars[..idx + 1]);
    signal.Some? && signal.value.score >= signal.value.threshold + cfg.signalEntryBuffer as real
  }

  /** The position opened at bar `idx`, if its signal clears the threshold by the buffer. */
  function Entry(s: Strategy, cfg: Config, bars: seq<Bar>, idx: nat): (pos: Option<Position>)
    requires idx < |bars|
    ensures pos.Some? <==> Admits(s, cfg, bars, idx)
    ensures pos.Some? ==> pos.value.bracket.entryIdx == idx && pos.value.bracket.maxBars == cfg.maxBarsInTrade
  {
    var signal := s(bars[..idx + 1]);
    if signal.None? then None
    else if signal.value.score < signal.value.threshold + cfg.signalEntryBuffer as real then None
    else Some(Opened(cfg, signal.value, bars[idx].close, idx))
  }

  function Gross(pos: Position, exitPrice: real): real {
    (if pos.bracket.side.Call? then exitPrice - pos.entryPrice else pos.entryPrice - exitPrice) * pos.qty as real
  }

  function Net(cfg: Config, pos: Position, exitPrice: real): real {
    Gross(pos, exitPrice) - cfg.commission
  }

  function TradeOf(cfg: Config, pos: Position, fill: Fill, idx: int): Trade {
    Trade(pos.bracket.entryIdx, idx, pos.bracket.side, Round4(pos.entryPrice), Round4(fill.price), pos.qty,
          Round2(Gross(pos, fill.price)), Round2(Net(cfg, pos, fill.price)), fill.reason, idx - pos.bracket.entryIdx,
          pos.score, pos.threshold)
  }

  function Closed(cfg: Config, idx: int, st: State, fill: Fill): State
    requires st.position.Some?
  {
    var capital := Round2(st.capital + Net(cfg, st.position.value, fill.price));
    var peak := Max(st.peak, capital);
    var maxDrawdown := if peak > 0.0 then Max(st.maxDrawdown, Round2((peak - capital) / peak * 100.0)) else st.maxDrawdown;
    State(st.trades + [TradeOf(cfg, st.position.value, fill, idx)], capital, peak, maxDrawdown, None, idx + cfg.cooldownBars)
  }

  function ExitOf(st: State, bar: Bar, idx: int): Option<Fill> {
    if st.position.Some? then st.position.value.bracket.ExitAt(bar, idx) else None
  }

  function Step(s: Strategy, cfg: Config, bars: seq<Bar>, idx: nat, st: State): State
    requires idx < |bars|
  {
    var fill := ExitOf(st, bars[idx], idx);
    if fill.Some? then Closed(cfg, idx, st, fill.value)
    else if st.position.Some? || idx < st.cooldownUntil then st
    else st.(position := Entry(s, cfg, bars, idx))
  }

  /** The variables before bar `k`. */
  function After(s: Strategy, cfg: Config, bars: seq<Bar>, k: nat): State
    requires k <= |bars|
  {
    if k <= Warmup(cfg) then Initial(cfg) else Step(s, cfg, bars, k - 1, After(s, cfg, bars, k - 1))
  }

  lemma AfterNext(s: Strategy, cfg: Config, bars: seq<Bar>, i: nat)
    requires Warmup(cfg) <= i < |bars|
    ensures After(s, cfg, bars, i + 1) == Step(s, cfg, bars, i, After(s, cfg, bars, i))
  {
  }
}
