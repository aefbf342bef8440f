/** Position sizing and the capital ledger behind it. */
module CapitalManager {
  import opened Reals
  import opened Rounding
  import opened Benchmark
  import opened Steps

  datatype CapitalState = CapitalState(
    initial: real, current: real, peak: real, locked: real, dailyPnl: real, dailyTrades: nat,
    consecutiveLosses: nat, totalTrades: nat, totalWins: nat)

  datatype Settings = Settings(maxDailyLoss: real, maxDrawdown: real, warnPct: real, drawdownScaling: bool)

  const GROWTH_CAP := 1.50
  const GROWTH_FLOOR := 0.10
  const DD_SCALE_FLOOR := 0.30
  const CONSEC_LOSS_2 := 0.75
  const CONSEC_LOSS_3 := 0.50
  const CONSEC_LOSS_4P := 0.25
  const DAILY_FLOOR := 0.25

  function Min(a: real, b: real): real {
    if a <= b then a else b
  }

  function Opening(initial: real): CapitalState {
    CapitalState(initial, initial, initial, 0.0, 0.0, 0, 0, 0, 0)
  }

  // ---------------------------------------------------------------- sizing

  function DrawdownPct(st: CapitalState): real {
    if st.peak > 0.0 then Max(0.0, (st.peak - st.current) / st.peak) else 0.0
  }

  function GrowthFactor(st: CapitalState): real {
    Round3(Min(GROWTH_CAP, Max(GROWTH_FLOOR, st.current / Max(st.initial, 1.0))))
  }

  function DrawdownFactor(p: Settings, dd: real): real {
    if !p.drawdownScaling then 1.0
    else if dd >= p.maxDrawdown then 0.0
    else if dd > 0.0 then Round3(Max(DD_SCALE_FLOOR, 1.0 - dd / p.maxDrawdown))
    else 1.0
  }

  function LossFactor(consecutiveLosses: nat): real {
    if consecutiveLosses >= 4 then CONSEC_LOSS_4P
    else if consecutiveLosses >= 3 then CONSEC_LOSS_3
    else if consecutiveLosses >= 2 then CONSEC_LOSS_2
    else 1.0
  }

  function DailyFactor(p: Settings, dailyPnl: real): real
    requires p.maxDailyLoss < 0.0
  {
    var warnLevel := p.maxDailyLoss * p.warnPct;
    if dailyPnl <= warnLevel < 0.0 then Round3(Max(DAILY_FLOOR, 1.0 - dailyPnl / p.maxDailyLoss * 0.50)) else 1.0
  }

  function Times4(a: real, b: real, c: real, d: real): real {
    a * b * c * d
  }

  function Product(p: Settings, st: CapitalState): real
    requires p.maxDailyLoss < 0.0
  {
    Times4(GrowthFactor(st), DrawdownFactor(p, DrawdownPct(st)), LossFactor(st.consecutiveLosses), DailyFactor(p, st.dailyPnl))
  }

  function ScaleFactor(p: Settings, st: CapitalState): real
    requires p.maxDailyLoss < 0.0
  {
    Max(0.0, Min(1.0, Round3(Product(p, st))))
  }

  function Lots(scale: real, baseLots: int, maxLots: int): int {
    var raw := (baseLots as real * scale).Floor;
    var capped := if raw <= maxLots then raw else maxLots;
    if scale > 0.0 then if capped >= 1 then capped else 1 else 0
  }

  function ScaledLots(p: Settings, st: CapitalState, baseLots: int, maxLots: int): int
    requires p.maxDailyLoss < 0.0
  {
    Lots(ScaleFactor(p, st), baseLots, maxLots)
  }

  predicate TradeAllowed(p: Settings, st: CapitalState) {
    && st.dailyPnl > p.maxDailyLoss
    && DrawdownPct(st) < p.maxDrawdown
    && st.consecutiveLosses < 5
  }

  // ---------------------------------------------------------------- the ledger's operations

  function RecordTrade(st: CapitalState, pnl: real, winner: bool): CapitalState {
    var current := st.current + pnl;
    st.(current := current,
        dailyPnl := st.dailyPnl + pnl,
        peak := Max(st.peak, current),
        dailyTrades := st.dailyTrades + 1,
        totalTrades := st.totalTrades + 1,
        consecutiveLosses := if winner then 0 else st.consecutiveLosses + 1,
        totalWins := if winner then st.totalWins + 1 else st.totalWins)
  }

  function ResetDaily(st: CapitalState): CapitalState {
    st.(dailyPnl := 0.0, dailyTrades := 0)
  }

  /** What `lock_profits` takes out. */
  function LockAmount(st: CapitalState, pct: real): real {
    var profit := st.current - st.initial;
    if profit <= 0.0 then 0.0 else Share(profit, pct)
  }

  function Share(profit: real, pct: real): real {
    Round2(profit * pct)
  }

  lemma ShareNonNegative(profit: real, pct: real)
    requires profit >= 0.0 && pct >= 0.0
    ensures Share(profit, pct) >= 0.0
  {
    ProductMonotone(0.0, profit, 0.0, pct);
    Round2Monotone(0.0, profit * pct);
    WholeIsFixed(0);
  }

  function LockProfits(st: CapitalState, pct: real): CapitalState {
    var amount := LockAmount(st, pct);
    st.(current := st.current - amount, locked := st.locked + amount)
  }

  // ---------------------------------------------------------------- each factor is monotone

  lemma Bounded3(x: real, lo: int, hi: int)
    requires lo as real / 1000.0 <= x <= hi as real / 1000.0
    ensures lo as real / 1000.0 <= Round3(x) <= hi as real / 1000.0
  {
    WholeIsFixed(lo);
    WholeIsFixed(hi);
    NearestEvenMonotone(lo as real, x * 1000.0);
    NearestEvenMonotone(x * 1000.0, hi as real);
  }

  lemma GrowthMonotone(a: CapitalState, b: CapitalState)
    requires a.initial == b.initial && a.current <= b.current
    ensures 0.1 <= GrowthFactor(a) <= GrowthFactor(b)
  {
    QuotientMonotone(a.current, b.current, Max(a.initial, 1.0));
    var x := Min(GROWTH_CAP, Max(GROWTH_FLOOR, a.current / Max(a.initial, 1.0)));
    Round3Monotone(x, Min(GROWTH_CAP, Max(GROWTH_FLOOR, b.current / Max(b.initial, 1.0))));
    Bounded3(x, 100, 1500);
  }

  lemma DrawdownFactorMonotone(p: Settings, dd: real, worse: real)
    requires 0.0 <= dd <= worse
    ensures 0.0 <= DrawdownFactor(p, worse) <= DrawdownFactor(p, dd) <= 1.0
    ensures !p.drawdownScaling || dd < p.maxDrawdown ==> DrawdownFactor(p, dd) >= 0.3
  {
    if p.drawdownScaling && dd < p.maxDrawdown {
      DrawdownFactorRange(p, dd);
      if worse < p.maxDrawdown {
        DrawdownFactorRange(p, worse);
        if dd > 0.0 {
          QuotientMonotone(dd, worse, p.maxDrawdown);
          Round3Monotone(Max(DD_SCALE_FLOOR, 1.0 - worse / p.maxDrawdown), Max(DD_SCALE_FLOOR, 1.0 - dd / p.maxDrawdown));
        }
      }
    }
  }

  lemma DrawdownFactorRange(p: Settings, dd: real)
    requires p.drawdownScaling && 0.0 <= dd < p.maxDrawdown
    ensures 0.3 <= DrawdownFactor(p, dd) <= 1.0
  {
    if dd > 0.0 {
      QuotientMonotone(0.0, dd, p.maxDrawdown);
      Bounded3(Max(DD_SCALE_FLOOR, 1.0 - dd / p.maxDrawdown), 300, 1000);
    }
  }

  lemma DailyFactorRange(p: Settings, pnl: real)
    requires p.maxDailyLoss < 0.0
    ensures 0.25 <= DailyFactor(p, pnl) <= 1.0
  {
    if pnl <= p.maxDailyLoss * p.warnPct < 0.0 {
      QuotientByNegative(pnl, 0.0, p.maxDailyLoss);
      Bounded3(Max(DAILY_FLOOR, 1.0 - pnl / p.maxDailyLoss * 0.50), 250, 1000);
    }
  }

  lemma DailyFactorMonotone(p: Settings, worse: real, pnl: real)
    requires p.maxDailyLoss < 0.0 && worse <= pnl
    ensures 0.25 <= DailyFactor(p, worse) <= DailyFactor(p, pnl) <= 1.0
  {
    DailyFactorRange(p, worse);
    DailyFactorRange(p, pnl);
    if pnl <= p.maxDailyLoss * p.warnPct < 0.0 {
      QuotientByNegative(worse, pnl, p.maxDailyLoss);
      Round3Monotone(Max(DAILY_FLOOR, 1.0 - worse / p.maxDailyLoss * 0.50), Max(DAILY_FLOOR, 1.0 - pnl / p.maxDailyLoss * 0.50));
    }
  }

  /** `worse` is no better than `st` in anything the sizing looks at. */
  ghost predicate NoBetter(worse: CapitalState, st: CapitalState) {
    && worse.initial == st.initial
    && worse.current <= st.current
    && DrawdownPct(worse) >= DrawdownPct(st)
    && worse.consecutiveLosses >= st.consecutiveLosses
    && worse.dailyPnl <= st.dailyPnl
  }

  lemma Times4Monotone(a: real, a': real, b: real, b': real, c: real, c': real, d: real, d': real)
    requires 0.0 <= a <= a' && 0.0 <= b <= b' && 0.0 <= c <= c' && 0.0 <= d <= d'
    ensures 0.0 <= Times4(a, b, c, d) <= Times4(a', b', c', d')
  {
    ProductMonotone(a, a', b, b');
    ProductMonotone(a * b, a' * b', c, c');
    ProductMonotone(a * b * c, a' * b' * c', d, d');
  }

  lemma ProductOrder(p: Settings, worse: CapitalState, st: CapitalState)
    requires p.maxDailyLoss < 0.0 && NoBetter(worse, st)
    ensures 0.0 <= Product(p, worse) <= Product(p, st)
  {
    GrowthMonotone(worse, st);
    DrawdownFactorMonotone(p, DrawdownPct(st), DrawdownPct(worse));
    DailyFactorMonotone(p, worse.dailyPnl, st.dailyPnl);
    Times4Monotone(GrowthFactor(worse), GrowthFactor(st),
                   DrawdownFactor(p, DrawdownPct(worse)), DrawdownFactor(p, DrawdownPct(st)),
                   LossFactor(worse.consecutiveLosses), LossFactor(st.consecutiveLosses),
                   DailyFactor(p, worse.dailyPnl), DailyFactor(p, st.dailyPnl));
  }

  lemma LotsMonotone(scale: real, larger: real, baseLots: int, maxLots: int)
    requires 0.0 <= scale <= larger
    ensures Lots(scale, baseLots, maxLots) <= Lots(larger, baseLots, maxLots)
  {
    if baseLots >= 0 {
      ProductMonotone(baseLots as real, baseLots as real, scale, larger);
    } else {
      ProductMonotone(-baseLots as real, -baseLots as real, scale, larger);
      assert baseLots as real * scale == -(-baseLots as real * scale);
      assert baseLots as real * larger == -(-baseLots as real * larger);
    }
  }

  lemma SizingOrder(p: Settings, worse: CapitalState, st: CapitalState, baseLots: int, maxLots: int)
    requires p.maxDailyLoss < 0.0 && NoBetter(worse, st)
    ensures ScaleFactor(p, worse) <= ScaleFactor(p, st)
    ensures ScaledLots(p, worse, baseLots, maxLots) <= ScaledLots(p, st, baseLots, maxLots)
  {
    ProductOrder(p, worse, st);
    Round3Monotone(Product(p, worse), Product(p, st));
    LotsMonotone(ScaleFactor(p, worse), ScaleFactor(p, st), baseLots, maxLots);
  }

  lemma DrawdownOrder(a: CapitalState, b: CapitalState)
    requires a.peak == b.peak && a.current <= b.current
    ensures DrawdownPct(a) >= DrawdownPct(b)
  {
    if a.peak > 0.0 {
      QuotientMonotone(a.peak - b.current, a.peak - a.current, a.peak);
    }
  }

  /** A losing trade never raises the next size, from whatever state and for whatever request. */
  lemma LosingNeverSizesUp(p: Settings, st: CapitalState, pnl: real, baseLots: int, maxLots: int)
    requires p.maxDailyLoss < 0.0 && pnl <= 0.0
    ensures var after := RecordTrade(st, pnl, false);
            && ScaleFactor(p, after) <= ScaleFactor(p, st)
            && ScaledLots(p, after, baseLots, maxLots) <= ScaledLots(p, st, baseLots, maxLots)
  {
    var after := RecordTrade(st, pnl, false);
    if after.peak == st.peak {
      DrawdownOrder(after, st);
    } else {
      NoDrawdownAbovePeak(st);
    }
    SizingOrder(p, after, st, baseLots, maxLots);
  }

  lemma NoDrawdownAbovePeak(st: CapitalState)
    requires st.current >= st.peak
    ensures DrawdownPct(st) == 0.0
  {
    if st.peak > 0.0 {
      QuotientMonotone(st.peak - st.current, 0.0, st.peak);
    }
  }

  /** A winning trade never lowers it. */
  lemma WinningNeverSizesDown(p: Settings, st: CapitalState, pnl: real, baseLots: int, maxLots: int)
    requires p.maxDailyLoss < 0.0 && pnl >= 0.0
    ensures var after := RecordTrade(st, pnl, true);
            && ScaleFactor(p, after) >= ScaleFactor(p, st)
            && ScaledLots(p, after, baseLots, maxLots) >= ScaledLots(p, st, baseLots, maxLots)
  {
    var after := RecordTrade(st, pnl, true);
    if after.peak == st.peak {
      DrawdownOrder(st, after);
    } else {
      NoDrawdownAbovePeak(after);
    }
    SizingOrder(p, st, after, baseLots, maxLots);
  }

  /** A new day never lowers it, and leaves of the gate only what the day did not cause. */
  lemma ResetNeverSizesDown(p: Settings, st: CapitalState, baseLots: int, maxLots: int)
    requires p.maxDailyLoss < 0.0
    ensures var after := ResetDaily(st);
            && ScaleFactor(p, after) >= ScaleFactor(p, st)
            && ScaledLots(p, after, baseLots, maxLots) >= ScaledLots(p, st, baseLots, maxLots)
            && (TradeAllowed(p, after) <==> DrawdownPct(st) < p.maxDrawdown && st.consecutiveLosses < 5)
  {
    var after := ResetDaily(st);
    NoLossNoReduction(p);
    DailyFactorRange(p, st.dailyPnl);
    GrowthMonotone(st, st);
    DrawdownFactorMonotone(p, DrawdownPct(st), DrawdownPct(st));
    Times4Monotone(GrowthFactor(st), GrowthFactor(after), DrawdownFactor(p, DrawdownPct(st)), DrawdownFactor(p, DrawdownPct(after)),
                   LossFactor(st.consecutiveLosses), LossFactor(after.consecutiveLosses),
                   DailyFactor(p, st.dailyPnl), DailyFactor(p, after.dailyPnl));
    Round3Monotone(Product(p, st), Product(p, after));
    LotsMonotone(ScaleFactor(p, st), ScaleFactor(p, after), baseLots, maxLots);
  }

  lemma NoLossNoReduction(p: Settings)
    requires p.maxDailyLoss < 0.0
    ensures DailyFactor(p, 0.0) == 1.0
  {
  }

  // ---------------------------------------------------------------- what the figures are

  /** `f` is the clamp of `x` to `lo..hi`, to three decimals. */
  predicate Near(f: real, x: real, lo: real, hi: real) {
    && lo <= f <= hi
    && (x <= lo ==> f == lo)
    && (x >= hi ==> f == hi)
    && (lo <= x <= hi ==> -0.0005 <= f - x <= 0.0005)
  }

  lemma RoundedClampNear(f: real, x: real, lo: int, hi: int)
    requires lo <= hi && f == Round3(Min(hi as real / 1000.0, Max(lo as real / 1000.0, x)))
    ensures Near(f, x, lo as real / 1000.0, hi as real / 1000.0)
  {
    var clamped := Min(hi as real / 1000.0, Max(lo as real / 1000.0, x));
    Bounded3(clamped, lo, hi);
    Round3Near(clamped);
    if x <= lo as real / 1000.0 {
      Bounded3(clamped, lo, lo);
    }
    if x >= hi as real / 1000.0 {
      Bounded3(clamped, hi, hi);
    }
  }

  /** Capital over initial capital, between a tenth and one and a half. */
  ghost predicate IsGrowth(st: CapitalState, f: real) {
    Near(f, st.current / (if st.initial >= 1.0 then st.initial else 1.0), 0.1, 1.5)
  }

  lemma GrowthIs(st: CapitalState)
    ensures IsGrowth(st, GrowthFactor(st))
  {
    RoundedClampNear(GrowthFactor(st), st.current / Max(st.initial, 1.0), 100, 1500);
  }

  /** The share of a positive peak that is lost. */
  ghost predicate IsDrawdown(st: CapitalState, dd: real) {
    if st.peak > 0.0 && st.current < st.peak then dd * st.peak == st.peak - st.current else dd == 0.0
  }

  lemma DrawdownIs(st: CapitalState)
    ensures IsDrawdown(st, DrawdownPct(st)) && DrawdownPct(st) >= 0.0
  {
    if st.peak > 0.0 {
      if st.current < st.peak {
        QuotientMonotone(0.0, st.peak - st.current, st.peak);
      } else {
        NoDrawdownAbovePeak(st);
      }
    }
  }

  /** One without a drawdown or with the scaling off, nothing from the limit on, in between what is left
      of the limit, but at least 0.3. */
  ghost predicate IsDrawdownFactor(p: Settings, dd: real, f: real) {
    if !p.drawdownScaling then f == 1.0
    else if dd >= p.maxDrawdown then f == 0.0
    else if dd <= 0.0 then f == 1.0
    else Near(f, 1.0 - dd / p.maxDrawdown, 0.3, 1.0)
  }

  lemma DrawdownFactorIs(p: Settings, dd: real)
    requires dd >= 0.0
    ensures IsDrawdownFactor(p, dd, DrawdownFactor(p, dd))
  {
    if p.drawdownScaling && 0.0 < dd < p.maxDrawdown {
      var left := 1.0 - dd / p.maxDrawdown;
      QuotientMonotone(0.0, dd, p.maxDrawdown);
      assert Max(DD_SCALE_FLOOR, left) == Min(1.0, Max(DD_SCALE_FLOOR, left));
      RoundedClampNear(DrawdownFactor(p, dd), left, 300, 1000);
    }
  }

  /** Full size up to one loss in a row, then 0.75 and 0.5, from four on 0.25. */
  ghost predicate IsLossFactor(losses: nat, f: real) {
    f == match losses case 0 => 1.0 case 1 => 1.0 case 2 => 0.75 case 3 => 0.5 case _ => 0.25
  }

  /** From the warning level on, half the used share of the daily limit is taken off, down to 0.25. */
  ghost predicate IsDailyFactor(p: Settings, dailyPnl: real, f: real)
    requires p.maxDailyLoss < 0.0
  {
    if p.maxDailyLoss * p.warnPct >= 0.0 || dailyPnl > p.maxDailyLoss * p.warnPct then f == 1.0
    else Near(f, 1.0 - dailyPnl / p.maxDailyLoss * 0.5, 0.25, 1.0)
  }

  lemma DailyFactorIs(p: Settings, pnl: real)
    requires p.maxDailyLoss < 0.0
    ensures IsDailyFactor(p, pnl, DailyFactor(p, pnl))
  {
    if pnl <= p.maxDailyLoss * p.warnPct < 0.0 {
      var left := 1.0 - pnl / p.maxDailyLoss * 0.50;
      QuotientByNegative(pnl, 0.0, p.maxDailyLoss);
      assert Max(DAILY_FLOOR, left) == Min(1.0, Max(DAILY_FLOOR, left));
      RoundedClampNear(DailyFactor(p, pnl), left, 250, 1000);
    }
  }

  /** The product of the four factors, at most one, to three decimals. */
  ghost predicate IsScale(growth: real, drawdown: real, losses: real, daily: real, scale: real) {
    var product := growth * drawdown * losses * daily;
    if product >= 1.0 then scale == 1.0 else 0.0 <= scale <= 1.0 && -0.0005 <= scale - product <= 0.0005
  }

  lemma ScaleIs(a: real, b: real, c: real, d: real)
    requires Times4(a, b, c, d) >= 0.0
    ensures IsScale(a, b, c, d, Max(0.0, Min(1.0, Round3(Times4(a, b, c, d)))))
  {
    var product := Times4(a, b, c, d);
    Round3Near(product);
    WholeIsFixed(0);
    WholeIsFixed(1000);
    Round3Monotone(0.0, product);
    if product >= 1.0 {
      Round3Monotone(1.0, product);
    }
  }

  lemma FactorsAre(p: Settings, st: CapitalState)
    requires p.maxDailyLoss < 0.0
    ensures IsGrowth(st, GrowthFactor(st)) && IsDrawdown(st, DrawdownPct(st))
    ensures IsDrawdownFactor(p, DrawdownPct(st), DrawdownFactor(p, DrawdownPct(st)))
    ensures IsDailyFactor(p, st.dailyPnl, DailyFactor(p, st.dailyPnl))
    ensures IsScale(GrowthFactor(st), DrawdownFactor(p, DrawdownPct(st)), LossFactor(st.consecutiveLosses),
                    DailyFactor(p, st.dailyPnl), ScaleFactor(p, st))
  {
    GrowthIs(st);
    DrawdownIs(st);
    DrawdownFactorIs(p, DrawdownPct(st));
    DailyFactorIs(p, st.dailyPnl);
    DrawdownOrder(st, st);
    ProductOrder(p, st, st);
    ScaleIs(GrowthFactor(st), DrawdownFactor(p, DrawdownPct(st)), LossFactor(st.consecutiveLosses), DailyFactor(p, st.dailyPnl));
  }

  /** No lots for no scale; else at least one, and otherwise at most the limit and the scaled request; below
      the limit no more would fit. */
  ghost predicate FillsRequest(lots: int, scale: real, baseLots: int, maxLots: int) {
    if scale <= 0.0 then lots == 0
    else
      && 1 <= lots && (lots <= maxLots || lots == 1)
      && (lots > 1 ==> lots as real <= baseLots as real * scale)
      && (lots < maxLots ==> baseLots as real * scale < lots as real + 1.0)
  }

  lemma LotsFill(scale: real, baseLots: int, maxLots: int)
    ensures FillsRequest(Lots(scale, baseLots, maxLots), scale, baseLots, maxLots)
  {
  }

  lemma DrawdownBelowIff(st: CapitalState, limit: real)
    ensures DrawdownPct(st) < limit <==> limit > 0.0 && (st.peak > 0.0 ==> st.peak - st.current < limit * st.peak)
  {
    DrawdownIs(st);
    var dd := DrawdownPct(st);
    if st.peak > 0.0 {
      if dd < limit {
        MulStrict(dd, limit, st.peak);
      } else {
        MulMonotone(limit, dd, st.peak);
      }
    }
  }

  // ---------------------------------------------------------------- gate and sizer

  /** The factor floors multiply to 0.001875, which rounds to 0.002. */
  lemma ScaleStaysPositive(p: Settings, st: CapitalState)
    requires p.maxDailyLoss < 0.0 && (p.drawdownScaling ==> DrawdownPct(st) < p.maxDrawdown)
    ensures ScaleFactor(p, st) >= 0.002
  {
    GrowthMonotone(st, st);
    DrawdownFactorMonotone(p, DrawdownPct(st), DrawdownPct(st));
    DailyFactorRange(p, st.dailyPnl);
    Times4Monotone(0.1, GrowthFactor(st), 0.3, DrawdownFactor(p, DrawdownPct(st)), 0.25, LossFactor(st.consecutiveLosses),
                   0.25, DailyFactor(p, st.dailyPnl));
    assert Times4(0.1, 0.3, 0.25, 0.25) == 0.001875;
    Round3Monotone(0.001875, Product(p, st));
    assert NearestEven(1.875) == 2;
  }

  /** The sizer returns no lots exactly when drawdown scaling is on and the limit is reached; so whatever
      the gate lets through gets at least one lot, and what the sizer blocks the gate refuses. */
  lemma GateAndSizerAgree(p: Settings, st: CapitalState, baseLots: int, maxLots: int)
    requires p.maxDailyLoss < 0.0
    ensures ScaledLots(p, st, baseLots, maxLots) == 0 <==> p.drawdownScaling && DrawdownPct(st) >= p.maxDrawdown
    ensures TradeAllowed(p, st) ==> ScaledLots(p, st, baseLots, maxLots) >= 1
    ensures ScaledLots(p, st, baseLots, maxLots) == 0 ==> !TradeAllowed(p, st)
  {
    if p.drawdownScaling && DrawdownPct(st) >= p.maxDrawdown {
      assert Product(p, st) == 0.0;
      WholeIsFixed(0);
    } else {
      ScaleStaysPositive(p, st);
    }
  }

  // ---------------------------------------------------------------- runs of the ledger

  datatype Op = Record(pnl: real, winner: bool) | Reset | Lock(pct: real)

  function Apply(st: CapitalState, op: Op): CapitalState {
    match op
    case Record(pnl, winner) => RecordTrade(st, pnl, winner)
    case Reset => ResetDaily(st)
    case Lock(pct) => LockProfits(st, pct)
  }

  function Run(initial: real, ops: seq<Op>): CapitalState {
    if |ops| == 0 then Opening(initial) else Apply(Run(initial, ops[..|ops| - 1]), ops[|ops| - 1])
  }

  function PnlTotal(ops: seq<Op>): real {
    if |ops| == 0 then 0.0
    else PnlTotal(ops[..|ops| - 1]) + if ops[|ops| - 1].Record? then ops[|ops| - 1].pnl else 0.0
  }

  /** The current capital at the start and after every operation. */
  function Currents(initial: real, ops: seq<Op>): (s: seq<real>)
    ensures |s| > 0
  {
    if |ops| == 0 then [initial] else Currents(initial, ops[..|ops| - 1]) + [Run(initial, ops).current]
  }

  /** Nothing is lost: current and locked capital are the initial capital and all results. */
  lemma {:induction false} CapitalConserved(initial: real, ops: seq<Op>)
    ensures var st := Run(initial, ops);
            st.initial == initial && st.current + st.locked == initial + PnlTotal(ops)
  {
    if |ops| > 0 {
      CapitalConserved(initial, ops[..|ops| - 1]);
    }
  }

  function Trades(ops: seq<Op>): (trades: seq<Op>)
    ensures |trades| <= |ops|
    ensures forall i :: 0 <= i < |trades| ==> trades[i].Record?
  {
    if |ops| == 0 then []
    else Trades(ops[..|ops| - 1]) + if ops[|ops| - 1].Record? then [ops[|ops| - 1]] else []
  }

  function Winners(trades: seq<Op>): set<nat> {
    set i: nat | i < |trades| && trades[i].Record? && trades[i].winner
  }

  /** The operations after the last reset. */
  function Today(ops: seq<Op>): seq<Op> {
    if |ops| == 0 || ops[|ops| - 1].Reset? then [] else Today(ops[..|ops| - 1]) + [ops[|ops| - 1]]
  }

  /** The last `n` trades lost, and the one before, if any, won. */
  ghost predicate LossStreak(trades: seq<Op>, n: nat) {
    && n <= |trades|
    && (forall i :: |trades| - n <= i < |trades| ==> !(trades[i].Record? && trades[i].winner))
    && (n < |trades| ==> trades[|trades| - n - 1].Record? && trades[|trades| - n - 1].winner)
  }

  /** What the counters of a run mean. */
  ghost predicate Counted(ops: seq<Op>, st: CapitalState) {
    && st.totalTrades == |Trades(ops)| && st.totalWins == |Winners(Trades(ops))|
    && LossStreak(Trades(ops), st.consecutiveLosses)
    && st.dailyPnl == PnlTotal(Today(ops)) && st.dailyTrades == |Trades(Today(ops))|
  }

  lemma TradeCounted(trades: seq<Op>, op: Op, n: nat)
    requires op.Record? && LossStreak(trades, n)
    ensures LossStreak(trades + [op], if op.winner then 0 else n + 1)
    ensures |Winners(trades + [op])| == |Winners(trades)| + if op.winner then 1 else 0
  {
    assert Winners(trades + [op]) == Winners(trades) + if op.winner then {|trades|} else {};
  }

  /** In every run the counters count all trades, all winners, the losses since the last winner, and the
      trades and results since the last reset. */
  lemma {:induction false} CountersAreRight(initial: real, ops: seq<Op>)
    ensures Counted(ops, Run(initial, ops))
  {
    if |ops| == 0 {
      assert Winners([]) == {};
    } else {
      var before, op := ops[..|ops| - 1], ops[|ops| - 1];
      CountersAreRight(initial, before);
      if op.Record? {
        TradeCounted(Trades(before), op, Run(initial, before).consecutiveLosses);
      } else {
        assert Trades(ops) == Trades(before);
      }
      if !op.Reset? {
        assert Today(ops)[..|Today(before)|] == Today(before);
      }
    }
  }

  /** Lock `op` would put the capital above its peak, which takes a negative share. */
  predicate Overtakes(st: CapitalState, op: Op) {
    op.Lock? && st.current - LockAmount(st, op.pct) > st.peak
  }

  ghost predicate PeakAt(initial: real, ops: seq<Op>, j: nat) {
    j <= |ops| && Run(initial, ops[..j]).peak == Peak(Currents(initial, ops[..j]))
  }

  ghost predicate OvertakesAt(initial: real, ops: seq<Op>, i: nat) {
    i < |ops| && Overtakes(Run(initial, ops[..i]), ops[i])
  }

  lemma PrefixSnoc(ops: seq<Op>, i: nat)
    requires i < |ops|
    ensures ops[..i + 1] == ops[..i] + [ops[i]]
    ensures |ops[..i + 1]| == i + 1 && ops[..i + 1][..i] == ops[..i] && ops[..i + 1][i] == ops[i]
  {
  }

  lemma PeakNext(initial: real, ops: seq<Op>, i: nat)
    requires i < |ops| && PeakAt(initial, ops, i)
    ensures PeakAt(initial, ops, i + 1) <==> !OvertakesAt(initial, ops, i)
  {
    PrefixSnoc(ops, i);
    var st, op := Run(initial, ops[..i]), ops[i];
    var next := Apply(st, op);
    assert Run(initial, ops[..i + 1]) == next;
    assert Currents(initial, ops[..i + 1]) == Currents(initial, ops[..i]) + [next.current];
    DrawdownSnoc(Currents(initial, ops[..i]), next.current);
    CurrentIsLast(initial, ops[..i]);
    assert st.current <= st.peak;
  }

  lemma CurrentIsLast(initial: real, ops: seq<Op>)
    ensures Run(initial, ops).current in Currents(initial, ops)
  {
    if |ops| > 0 {
      assert Currents(initial, ops)[|Currents(initial, ops)| - 1] == Run(initial, ops).current;
    }
  }

  /** After every operation of a run the peak is the highest capital so far, exactly when no lock puts
      the capital above its peak. */
  lemma PeakIsHighest(initial: real, ops: seq<Op>)
    ensures (forall j: nat :: j <= |ops| ==> PeakAt(initial, ops, j)) <==> (forall i: nat :: i < |ops| ==> !OvertakesAt(initial, ops, i))
  {
    var good := (j: nat) => PeakAt(initial, ops, j);
    var bad := (i: nat) => OvertakesAt(initial, ops, i);
    assert good(0) by {
      assert ops[..0] == [];
    }
    forall i: nat | i < |ops| && good(i) ensures good(i + 1) <==> !bad(i) {
      PeakNext(initial, ops, i);
    }
    HoldsIffNothingBad(good, bad, 0, |ops|);
    assert forall j: nat :: good(j) <==> PeakAt(initial, ops, j);
    assert forall i: nat :: bad(i) <==> OvertakesAt(initial, ops, i);
  }

  ghost predicate LocksForward(ops: seq<Op>) {
    forall i :: 0 <= i < |ops| && ops[i].Lock? ==> ops[i].pct >= 0.0
  }

  lemma LockAmountNonNegative(st: CapitalState, pct: real)
    requires pct >= 0.0
    ensures LockAmount(st, pct) >= 0.0
  {
    if st.current - st.initial > 0.0 {
      ShareNonNegative(st.current - st.initial, pct);
    }
  }

  /** In particular as long as no negative share is locked. */
  lemma {:induction false} ForwardLocksKeepPeak(initial: real, ops: seq<Op>, k: nat)
    requires k <= |ops| && LocksForward(ops)
    ensures PeakAt(initial, ops, k)
    decreases k
  {
    if k == 0 {
      assert ops[..0] == [];
    } else {
      ForwardLocksKeepPeak(initial, ops, k - 1);
      PeakNext(initial, ops, k - 1);
      CurrentIsLast(initial, ops[..k - 1]);
      if ops[k - 1].Lock? {
        LockAmountNonNegative(Run(initial, ops[..k - 1]), ops[k - 1].pct);
      }
    }
  }

  /** Locking a negative share puts money back without raising the peak. */
  lemma NegativeLockHidesPeak()
    ensures var ops := [Record(10.0, true), Lock(-1.0)];
            Run(100.0, ops).peak < Run(100.0, ops).current
  {
    var ops := [Record(10.0, true), Lock(-1.0)];
    assert ops[..1] == [Record(10.0, true)] && ops[..1][..0] == [];
    assert Run(100.0, ops[..1]) == RecordTrade(Opening(100.0), 10.0, true);
    WholeIsFixed(-1000);
    assert Round2(-10.0) == -10.0;
  }

  /** Locked profit counts as drawdown: from the peak, the gate refuses after a lock exactly when the
      amount taken out is the drawdown limit's share of the peak. */
  lemma LockingTripsGate(p: Settings, st: CapitalState, pct: real)
    requires st.current == st.peak > 0.0 && pct >= 0.0
    ensures DrawdownPct(LockProfits(st, pct)) >= p.maxDrawdown <==> LockAmount(st, pct) >= p.maxDrawdown * st.peak || p.maxDrawdown <= 0.0
  {
    var amount := LockAmount(st, pct);
    LockAmountNonNegative(st, pct);
    var dd := amount / st.peak;
    assert dd * st.peak == amount;
    assert dd >= 0.0;
    assert DrawdownPct(LockProfits(st, pct)) == dd;
    if dd >= p.maxDrawdown {
      MulMonotone(p.maxDrawdown, dd, st.peak);
    } else {
      MulStrict(dd, p.maxDrawdown, st.peak);
    }
  }

  // ---------------------------------------------------------------- the manager

  datatype ScaleResult = ScaleResult(
    scaleFactor: real, scaledLots: int, capitalGrowth: real, drawdownFactor: real, consecLossFactor: real,
    dailyLossFactor: real, drawdownPct: real)

  class Manager {
    const settings: Settings
    var state: CapitalState

    ghost predicate Valid() {
      settings.maxDailyLoss < 0.0
    }

    constructor (initial: real, settings: Settings)
      requires settings.maxDailyLoss < 0.0
      ensures Valid() && this.settings == settings && state == Opening(initial)
    {
      this.settings := settings;
      state := Opening(initial);
    }

    method Scale(baseLots: int, maxLots: int) returns (r: ScaleResult)
      requires Valid()
      ensures r.scaleFactor == ScaleFactor(settings, state) && 0.0 <= r.scaleFactor <= 1.0
      ensures r.scaledLots == ScaledLots(settings, state, baseLots, maxLots)
      ensures r.scaledLots == 0 <==> settings.drawdownScaling && DrawdownPct(state) >= settings.maxDrawdown
      ensures IsGrowth(state, r.capitalGrowth) && IsDrawdown(state, r.drawdownPct)
      ensures IsDrawdownFactor(settings, r.drawdownPct, r.drawdownFactor)
      ensures IsLossFactor(state.consecutiveLosses, r.consecLossFactor)
      ensures IsDailyFactor(settings, state.dailyPnl, r.dailyLossFactor)
      ensures IsScale(r.capitalGrowth, r.drawdownFactor, r.consecLossFactor, r.dailyLossFactor, r.scaleFactor)
      ensures FillsRequest(r.scaledLots, r.scaleFactor, baseLots, maxLots)
    {
      var growth := GrowthFactor(state);
      var dd := DrawdownPct(state);
      var ddFactor := DrawdownFactor(settings, dd);
      var lossFactor := LossFactor(state.consecutiveLosses);
      var dailyFactor := DailyFactor(settings, state.dailyPnl);
      var scale := Max(0.0, Min(1.0, Round3(Times4(growth, ddFactor, lossFactor, dailyFactor))));
      GateAndSizerAgree(settings, state, baseLots, maxLots);
      FactorsAre(settings, state);
      LotsFill(scale, baseLots, maxLots);
      r := ScaleResult(scale, Lots(scale, baseLots, maxLots), growth, ddFactor, lossFactor, dailyFactor, dd);
    }

    method RecordTradeResult(pnl: real, winner: bool)
      requires Valid()
      modifies this`state
      ensures state == RecordTrade(old(state), pnl, winner)
    {
      state := state.(current := state.current + pnl);
      state := state.(dailyPnl := state.dailyPnl + pnl);
      state := state.(peak := Max(state.peak, state.current));
      state := state.(dailyTrades := state.dailyTrades + 1, totalTrades := state.totalTrades + 1);
      if winner {
        state := state.(consecutiveLosses := 0, totalWins := state.totalWins + 1);
      } else {
        state := state.(consecutiveLosses := state.consecutiveLosses + 1);
      }
    }

    method ResetDay()
      modifies this`state
      ensures state == ResetDaily(old(state))
    {
      state := state.(dailyPnl := 0.0, dailyTrades := 0);
    }

    method Lock(pct: real) returns (amount: real)
      modifies this`state
      ensures amount == LockAmount(old(state), pct)
      ensures state == LockProfits(old(state), pct)
      ensures old(state).current <= old(state).initial ==> amount == 0.0
      ensures old(state).current > old(state).initial ==>
                var share := (old(state).current - old(state).initial) * pct; -0.005 <= amount - share <= 0.005
      ensures state.current == old(state).current - amount && state.locked == old(state).locked + amount
      ensures state.current + state.locked == old(state.current + state.locked)
    {
      var profit := state.current - state.initial;
      if profit <= 0.0 {
        return 0.0;
      }
      Round2Near(profit * pct);
      amount := Share(profit, pct);
      state := state.(current := state.current - amount);
      state := state.(locked := state.locked + amount);
    }

    /** `decide_trade_allowed`: whatever it allows, the sizer gives at least one lot for every request. */
    method DecideTradeAllowed() returns (allowed: bool)
      requires Valid()
      ensures allowed == TradeAllowed(settings, state)
      ensures allowed <==>
                && state.dailyPnl > settings.maxDailyLoss && state.consecutiveLosses < 5 && settings.maxDrawdown > 0.0
                && (state.peak > 0.0 ==> state.peak - state.current < settings.maxDrawdown * state.peak)
      ensures allowed ==> forall baseLots, maxLots :: ScaledLots(settings, state, baseLots, maxLots) >= 1
    {
      DrawdownBelowIff(state, settings.maxDrawdown);
      if state.dailyPnl <= settings.maxDailyLoss {
        return false;
      }
      if DrawdownPct(state) >= settings.maxDrawdown {
        return false;
      }
      if state.consecutiveLosses >= 5 {
        return false;
      }
      forall baseLots, maxLots ensures ScaledLots(settings, state, baseLots, maxLots) >= 1 {
        GateAndSizerAgree(settings, state, baseLots, maxLots);
      }
      return true;
    }
  }
}
