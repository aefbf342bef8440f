/** One bar of core/candle_backtest.py as a step on the loop's variables. */
module CandleModel {
  import opened Wrappers
  import opened Reals
  import opened Rounding
  import opened ExitRules
  import opened Benchmark

  datatype Config = Config(
    initialCapital: real,
    qty: int,
    warmupBars: int,
    latencyBars: int,
    slippagePct: real,
    spreadPct: real,
    feePerLot: real,
    maxBarsInTrade: int,
    cooldownBars: int,
    aiThreshold: int,
    scoreGap: int,
    tpAtrMult: real,
    slAtrMult: real,
    useOptionModel: bool,
    useRegimeRr: bool)

  /** The finalized signal; `partialScore` is the score before the threshold was applied. */
  datatype Verdict = Verdict(
    partialScore: int, action: string, side: Side, atr: Option<real>, regime: string, score: int, threshold: int)

  datatype OptionSpec = OptionSpec(entryPremium: real, slPremium: real, delta: real, lotSize: int)

  /** What the option model reports for one lot. */
  datatype OptionPnl = OptionPnl(exitPremium: real, grossPerLot: real, netPerLot: real, rr: real, pct: real)

  /** The result of a closing over all lots, not yet rounded. */
  datatype Outcome = Outcome(exitPremium: real, gross: real, net: real, rr: real, pct: real)

  /** The code outside the engine. The signal sees the bars up to and including the current one. */
  datatype Strategy = Strategy(
    evaluate: seq<Bar> -> Option<Verdict>,
    rrTargets: (string, real, real) -> (real, real),
    buildOption: (Side, real, real, real, real) -> OptionSpec,
    optionPnl: (OptionSpec, real, ExitReason, real) -> OptionPnl)

  datatype Pending = Pending(
    enterOn: int, side: Side, refPrice: real, atr: real, tpMult: real, slMult: real, score: int, threshold: int, regime: string)

  datatype Position = Position(
    bracket: Bracket, entryPrice: real, qty: int, entryPremium: real, option: Option<OptionSpec>,
    score: int, threshold: int, regime: string)

  /** A journal row; entry and exit times are given by their bar. */
  datatype Row = Row(
    entryIdx: int, exitIdx: int, entryPrice: real, exitPrice: real, entryPremium: real, exitPremium: real,
    side: Side, grossPnl: real, netPnl: real, reason: ExitReason, barsHeld: int, score: int, threshold: int,
    rr: real, pctPnl: real, regime: string)

  /** The variables the loop carries from bar to bar. */
  datatype State = State(
    journal: seq<Row>, equity: seq<real>, capital: real, peak: real, maxDd: real,
    position: Option<Position>, pending: Option<Pending>, cooldownUntil: int)

  function Fee(cfg: Config): real {
    cfg.feePerLot * cfg.qty as real
  }

  function Slip(cfg: Config): real {
    cfg.slippagePct + cfg.spreadPct * 0.5
  }

  function Warmup(cfg: Config): nat {
    if cfg.warmupBars >= 20 then cfg.warmupBars else 20
  }

  function Latency(cfg: Config): nat {
    if cfg.latencyBars >= 0 then cfg.latencyBars else 0
  }

  /** The loop starts at the warmup, of at least 20 bars; a negative latency counts as none. */
  lemma LoopBounds(cfg: Config)
    ensures Warmup(cfg) >= 20 && Warmup(cfg) >= cfg.warmupBars && Warmup(cfg) in {20, cfg.warmupBars}
    ensures Latency(cfg) >= cfg.latencyBars && Latency(cfg) in {0, cfg.latencyBars}
  {
  }

  function Initial(cfg: Config): State {
    State([], [], cfg.initialCapital, cfg.initialCapital, 0.0, None, None, -1)
  }

  /** The order placed at the close of bar `idx`, if any. */
  function Order(s: Strategy, cfg: Config, bars: seq<Bar>, idx: nat): (order: Option<Pending>)
    requires idx < |bars|
    ensures order.Some? ==> order.value.enterOn == idx + Latency(cfg) < |bars|
  {
    var signal := s.evaluate(bars[..idx + 1]);
    if signal.None? then None
    else
      var v := signal.value;
      var enterOn := idx + Latency(cfg);
      if v.partialScore < cfg.aiThreshold + cfg.scoreGap then None
      else if v.action != "BUY" then None
      else if enterOn >= |bars| then None
      else
        var refPrice := bars[enterOn].open;
        var atr := if v.atr.Some? && v.atr.value != 0.0 then v.atr.value else refPrice * 0.005;
        var regime := if v.regime == "" then "NEUTRAL" else v.regime;
        var (slM, tpM) :=
          if cfg.useRegimeRr then s.rrTargets(regime, cfg.slAtrMult, cfg.tpAtrMult) else (cfg.slAtrMult, cfg.tpAtrMult);
        Some(Pending(enterOn, v.side, refPrice, atr, tpM, slM, v.score, v.threshold, regime))
  }

  /** The index price an order is filled at: slippage and half the spread against the buyer. */
  function EntryPrice(cfg: Config, p: Pending): real {
    if p.side.Call? then p.refPrice * (1.0 + cfg.slippagePct + cfg.spreadPct * 0.5)
    else p.refPrice * (1.0 - cfg.slippagePct - cfg.spreadPct * 0.5)
  }

  function StopPrice(p: Pending, entry: real): real {
    if p.side.Call? then entry - p.atr * p.slMult else entry + p.atr * p.slMult
  }

  function TargetPrice(p: Pending, entry: real): real {
    if p.side.Call? then entry + p.atr * p.tpMult else entry - p.atr * p.tpMult
  }

  /** The position `_execute_pending` opens at bar `idx`. */
  function Opened(s: Strategy, cfg: Config, p: Pending, idx: int): (pos: Position)
    ensures pos.bracket.entryIdx == idx && pos.bracket.maxBars == cfg.maxBarsInTrade
  {
    var entry := EntryPrice(cfg, p);
    var stop, target := StopPrice(p, entry), TargetPrice(p, entry);
    var option := if cfg.useOptionModel then Some(s.buildOption(p.side, entry, p.atr, stop, target)) else None;
    var premium := if option.Some? then option.value.entryPremium else 0.0;
    Position(Bracket(p.side, Round4(stop), Round4(target), idx, cfg.maxBarsInTrade),
             Round4(entry), cfg.qty, Round2(premium), option, p.score, p.threshold, p.regime)
  }

  /** The fill is never better than the reference price, and the stop lies on the losing side of it and
      the target on the winning side, rounding included. */
  lemma OpenedStraddlesEntry(s: Strategy, cfg: Config, p: Pending, idx: int)
    requires p.refPrice >= 0.0 && Slip(cfg) >= 0.0 && p.atr >= 0.0 && p.slMult >= 0.0 && p.tpMult >= 0.0
    ensures var pos := Opened(s, cfg, p, idx);
            if p.side.Call? then Round4(p.refPrice) <= pos.entryPrice && pos.bracket.stop <= pos.entryPrice <= pos.bracket.target
            else pos.entryPrice <= Round4(p.refPrice) && pos.bracket.target <= pos.entryPrice <= pos.bracket.stop
  {
    var entry := EntryPrice(cfg, p);
    EntryAdverse(cfg, p);
    ProductMonotone(0.0, p.atr, 0.0, p.slMult);
    ProductMonotone(0.0, p.atr, 0.0, p.tpMult);
    if p.side.Call? {
      Round4Monotone(p.refPrice, entry);
      Round4Monotone(StopPrice(p, entry), entry);
      Round4Monotone(entry, TargetPrice(p, entry));
    } else {
      Round4Monotone(entry, p.refPrice);
      Round4Monotone(TargetPrice(p, entry), entry);
      Round4Monotone(entry, StopPrice(p, entry));
    }
  }

  lemma EntryAdverse(cfg: Config, p: Pending)
    requires p.refPrice >= 0.0 && Slip(cfg) >= 0.0
    ensures if p.side.Call? then p.refPrice <= EntryPrice(cfg, p) else EntryPrice(cfg, p) <= p.refPrice
  {
    MulMonotone(1.0, 1.0 + Slip(cfg), p.refPrice);
    MulMonotone(1.0 - Slip(cfg), 1.0, p.refPrice);
  }

  /** The index price an exit is filled at. */
  function ExitPrice(cfg: Config, exitIndex: real): real {
    exitIndex * (1.0 + Slip(cfg))
  }

  /** The result of a closing in option space, for all lots. */
  function OptionOutcome(info: OptionPnl, qty: int): Outcome {
    Outcome(info.exitPremium, info.grossPerLot * qty as real, info.netPerLot * qty as real, info.rr, info.pct)
  }

  /** The same in index points. */
  function IndexOutcome(cfg: Config, pos: Position, filled: real): Outcome {
    var gross := (if pos.bracket.side.Call? then filled - pos.entryPrice else pos.entryPrice - filled) * pos.qty as real;
    Outcome(0.0, gross, gross - cfg.feePerLot * pos.qty as real, 0.0,
           if pos.entryPrice > 0.0 then (filled - pos.entryPrice) / pos.entryPrice * 100.0 else 0.0)
  }

  /** The result of closing a position at `exitIndex`. */
  function Settlement(s: Strategy, cfg: Config, pos: Position, exitIndex: real, reason: ExitReason): Outcome {
    var filled := ExitPrice(cfg, exitIndex);
    if cfg.useOptionModel && pos.option.Some? then
      OptionOutcome(s.optionPnl(pos.option.value, filled, reason, cfg.feePerLot), pos.qty)
    else IndexOutcome(cfg, pos, filled)
  }

  /** The journal row `_close_trade` appends. */
  function RowOf(s: Strategy, cfg: Config, pos: Position, fill: Fill, idx: int): Row {
    var pnl := Settlement(s, cfg, pos, fill.price, fill.reason);
    Row(pos.bracket.entryIdx, idx, Round4(pos.entryPrice), Round4(ExitPrice(cfg, fill.price)),
        Round2(pos.entryPremium), Round2(pnl.exitPremium), pos.bracket.side, Round2(pnl.gross), Round2(pnl.net),
        fill.reason, idx - pos.bracket.entryIdx, pos.score, pos.threshold, Round3(pnl.rr), Round2(pnl.pct), pos.regime)
  }

  /** A pending order due at this bar becomes a position and pays its fee. */
  function EnterDue(s: Strategy, cfg: Config, idx: int, st: State): State {
    if st.pending.Some? && st.pending.value.enterOn == idx then
      st.(position := Some(Opened(s, cfg, st.pending.value, idx)),
          capital := Round2(st.capital - Fee(cfg)),
          pending := None)
    else st
  }

  /** Settling the open position at `fill`. */
  function Closed(s: Strategy, cfg: Config, idx: int, st: State, fill: Fill): State
    requires st.position.Some?
  {
    var net := Settlement(s, cfg, st.position.value, fill.price, fill.reason).net;
    var capital := Round2(st.capital + net);
    var peak := Max(st.peak, capital);
    var maxDd := if peak > 0.0 then Max(st.maxDd, (peak - capital) / peak * 100.0) else st.maxDd;
    st.(journal := st.journal + [RowOf(s, cfg, st.position.value, fill, idx)],
        equity := st.equity + [capital],
        capital := capital, peak := peak, maxDd := maxDd,
        position := None, cooldownUntil := idx + cfg.cooldownBars)
  }

  /** A bar without an exit: record the equity and, when idle and past the cooldown, look for a signal. */
  function Idled(s: Strategy, cfg: Config, bars: seq<Bar>, idx: nat, st: State): State
    requires idx < |bars|
  {
    var held := st.(equity := st.equity + [st.capital]);
    if st.position.Some? || idx < st.cooldownUntil then held
    else
      var order := Order(s, cfg, bars, idx);
      if order.None? then held else held.(pending := order)
  }

  function ExitOf(st: State, bar: Bar, idx: int): Option<Fill> {
    if st.position.Some? then st.position.value.bracket.ExitAt(bar, idx) else None
  }

  function Step(s: Strategy, cfg: Config, bars: seq<Bar>, idx: nat, st: State): State
    requires idx < |bars|
  {
    var entered := EnterDue(s, cfg, idx, st);
    var fill := ExitOf(entered, bars[idx], idx);
    if fill.Some? then Closed(s, cfg, idx, entered, fill.value) else Idled(s, cfg, bars, idx, entered)
  }

  /** The variables before bar `k`; before the warmup is over they are untouched. */
  function After(s: Strategy, cfg: Config, bars: seq<Bar>, k: nat): State
    requires k <= |bars|
  {
    if k <= Warmup(cfg) then Initial(cfg) else Step(s, cfg, bars, k - 1, After(s, cfg, bars, k - 1))
  }

  lemma AfterNext(s: Strategy, cfg: Config, bars: seq<Bar>, i: nat)
    requires Warmup(cfg) <= i < |bars|
    ensures After(s, cfg, bars, i + 1) == Step(s, cfg, bars, i, After(s, cfg, bars, i))
  {
  }

  /** A position and a pending order never coexist, so an entry never replaces an open position; one equity point per bar. */
  lemma {:induction false} OnePositionOneOrder(s: Strategy, cfg: Config, bars: seq<Bar>, k: nat)
    requires k <= |bars|
    ensures var st := After(s, cfg, bars, k);
            && !(st.position.Some? && st.pending.Some?)
            && |st.equity| == if k > Warmup(cfg) then k - Warmup(cfg) else 0
    decreases k
  {
    if k > Warmup(cfg) {
      OnePositionOneOrder(s, cfg, bars, k - 1);
    }
  }

  /** The comment at the exit says the fill is always adverse; the code multiplies both sides by
      1 + slip, so in index points the fill is adverse exactly for puts. */
  lemma ExitSlippageAdverseIffPut(s: Strategy, cfg: Config, pos: Position, exitIndex: real, reason: ExitReason)
    requires !cfg.useOptionModel && exitIndex > 0.0 && Slip(cfg) > 0.0 && pos.qty > 0
    ensures Settlement(s, cfg, pos, exitIndex, reason).net
            < Settlement(s, cfg.(slippagePct := 0.0, spreadPct := 0.0), pos, exitIndex, reason).net
       <==> pos.bracket.side.Put?
  {
    var filled, q := exitIndex * (1.0 + Slip(cfg)), pos.qty as real;
    var gain := exitIndex * Slip(cfg);
    assert filled == exitIndex + gain && gain > 0.0;
    assert exitIndex * (1.0 + 0.0) == exitIndex;
    assert (filled - pos.entryPrice) * q == (exitIndex - pos.entryPrice) * q + gain * q;
    assert (pos.entryPrice - filled) * q == (pos.entryPrice - exitIndex) * q - gain * q;
    assert gain * q > 0.0;
  }
}
