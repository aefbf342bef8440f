/** The money side of the second engine, and `BacktestEngine.run` itself. */
module BacktestEngine {
  import opened Wrappers
  import opened Rounding
  import opened Benchmark
  import opened ExitRules
  import opened BacktestModel
  import opened BacktestTrades
  import opened BacktestResults

  // ---------------------------------------------------------------- capital

  function NetTotal(ts: seq<Trade>): real {
    if |ts| == 0 then 0.0 else NetTotal(ts[..|ts| - 1]) + ts[|ts| - 1].netPnl
  }

  /** The ending capital of the report: computed from the rounded results, not from the running capital. */
  function ReportedCapital(cfg: Config, ts: seq<Trade>): real {
    Round2(cfg.initialCapital + Round2(NetTotal(ts)))
  }

  /** Every net result in the list is a rounded one. */
  ghost predicate CentResults(ts: seq<Trade>) {
    forall i :: 0 <= i < |ts| ==> OnCents(ts[i].netPnl)
  }

  lemma {:induction false} NetTotalOnCents(ts: seq<Trade>)
    requires CentResults(ts)
    ensures OnCents(NetTotal(ts))
  {
    if |ts| == 0 {
      WholeIsWhole(0);
    } else {
      NetTotalOnCents(ts[..|ts| - 1]);
      OnCentsSum(NetTotal(ts[..|ts| - 1]), ts[|ts| - 1].netPnl);
    }
  }

  lemma ReportedIsSum(cfg: Config, ts: seq<Trade>)
    requires OnCents(cfg.initialCapital) && CentResults(ts)
    ensures ReportedCapital(cfg, ts) == cfg.initialCapital + NetTotal(ts)
  {
    NetTotalOnCents(ts);
    Round2OnCents(NetTotal(ts));
    OnCentsSum(cfg.initialCapital, NetTotal(ts));
    Round2OnCents(cfg.initialCapital + NetTotal(ts));
  }

  ghost predicate InCents(st: State) {
    OnCents(st.capital) && CentResults(st.trades)
  }

  lemma ClosingInCents(cfg: Config, i: nat, st: State, fill: Fill)
    requires InCents(st) && st.position.Some?
    ensures InCents(Closed(cfg, i, st, fill))
  {
    var net := Net(cfg, st.position.value, fill.price);
    Round2OnCents(st.capital + net);
    Round2OnCents(net);
  }

  lemma StepInCents(s: Strategy, cfg: Config, bars: seq<Bar>, i: nat, st: State)
    requires i < |bars| && InCents(st)
    ensures InCents(Step(s, cfg, bars, i, st))
  {
    var fill := ExitOf(st, bars[i], i);
    if fill.Some? {
      ClosingInCents(cfg, i, st, fill.value);
    }
  }

  lemma {:induction false} RunInCents(s: Strategy, cfg: Config, bars: seq<Bar>, k: nat)
    requires k <= |bars| && OnCents(cfg.initialCapital)
    ensures InCents(After(s, cfg, bars, k))
    decreases k
  {
    if k > Warmup(cfg) {
      RunInCents(s, cfg, bars, k - 1);
      StepInCents(s, cfg, bars, k - 1, After(s, cfg, bars, k - 1));
    }
  }

  /** Bar `i` closes a trade whose net result is an exact half cent while the capital is an odd number of cents. */
  ghost predicate SkewedClose(cfg: Config, bars: seq<Bar>, i: nat, st: State)
    requires i < |bars|
  {
    var fill := ExitOf(st, bars[i], i);
    fill.Some? && HalfCent(Net(cfg, st.position.value, fill.value.price)) && OddCents(st.capital)
  }

  /** What the running capital is ahead of the one the report would give. */
  function Gap(cfg: Config, st: State): real {
    st.capital - ReportedCapital(cfg, st.trades)
  }

  /** A closing moves the gap by a cent or by nothing, and by nothing exactly when it is not skewed. */
  lemma ClosingMovesGap(cfg: Config, i: nat, st: State, fill: Fill)
    requires OnCents(cfg.initialCapital) && InCents(st) && st.position.Some?
    ensures var slip := Gap(cfg, Closed(cfg, i, st, fill)) - Gap(cfg, st);
            && (slip == -0.01 || slip == 0.0 || slip == 0.01)
            && (slip == 0.0 <==> !(HalfCent(Net(cfg, st.position.value, fill.price)) && OddCents(st.capital)))
  {
    var net, closed := Net(cfg, st.position.value, fill.price), Closed(cfg, i, st, fill);
    assert closed.trades[..|st.trades|] == st.trades;
    ClosingInCents(cfg, i, st, fill);
    ReportedIsSum(cfg, st.trades);
    ReportedIsSum(cfg, closed.trades);
    Round2Shift(st.capital, net);
    Round2ShiftByCent(st.capital, net);
  }

  lemma StepShape(s: Strategy, cfg: Config, bars: seq<Bar>, i: nat, st: State)
    requires i < |bars|
    ensures var fill, next := ExitOf(st, bars[i], i), Step(s, cfg, bars, i, st);
            if fill.Some? then next == Closed(cfg, i, st, fill.value)
            else next.trades == st.trades && next.capital == st.capital
  {
  }

  lemma StepMovesGap(s: Strategy, cfg: Config, bars: seq<Bar>, i: nat, st: State)
    requires i < |bars| && OnCents(cfg.initialCapital) && InCents(st)
    ensures var slip := Gap(cfg, Step(s, cfg, bars, i, st)) - Gap(cfg, st);
            && (slip == -0.01 || slip == 0.0 || slip == 0.01)
            && (slip == 0.0 <==> !SkewedClose(cfg, bars, i, st))
  {
    StepShape(s, cfg, bars, i, st);
    var fill := ExitOf(st, bars[i], i);
    if fill.Some? {
      ClosingMovesGap(cfg, i, st, fill.value);
    }
  }

  /** If the report stopped before bar `k`, its ending capital would be the running capital. */
  ghost predicate ReportAgrees(s: Strategy, cfg: Config, bars: seq<Bar>, k: nat)
    requires k <= |bars|
  {
    Gap(cfg, After(s, cfg, bars, k)) == 0.0
  }

  ghost predicate SkewedAt(s: Strategy, cfg: Config, bars: seq<Bar>, i: nat)
    requires i < |bars|
  {
    SkewedClose(cfg, bars, i, After(s, cfg, bars, i))
  }

  lemma BarMovesGap(s: Strategy, cfg: Config, bars: seq<Bar>, i: nat)
    requires Warmup(cfg) <= i < |bars| && OnCents(cfg.initialCapital)
    ensures var slip := Gap(cfg, After(s, cfg, bars, i + 1)) - Gap(cfg, After(s, cfg, bars, i));
            && (slip == -0.01 || slip == 0.0 || slip == 0.01)
            && (slip == 0.0 <==> !SkewedAt(s, cfg, bars, i))
  {
    RunInCents(s, cfg, bars, i);
    StepMovesGap(s, cfg, bars, i, After(s, cfg, bars, i));
    AfterNext(s, cfg, bars, i);
  }

  lemma BarKeepsReport(s: Strategy, cfg: Config, bars: seq<Bar>, i: nat)
    requires Warmup(cfg) <= i < |bars| && OnCents(cfg.initialCapital) && ReportAgrees(s, cfg, bars, i)
    ensures ReportAgrees(s, cfg, bars, i + 1) <==> !SkewedAt(s, cfg, bars, i)
  {
    BarMovesGap(s, cfg, bars, i);
  }

  /** Before the first trade the report agrees exactly for an initial capital in whole cents. */
  lemma ReportStarts(s: Strategy, cfg: Config, bars: seq<Bar>, k: nat)
    requires k <= |bars| && k <= Warmup(cfg)
    ensures ReportAgrees(s, cfg, bars, k) <==> OnCents(cfg.initialCapital)
  {
    Round2OnCents(cfg.initialCapital);
    WholeIsFixed(0);
  }

  ghost predicate AgreesThrough(s: Strategy, cfg: Config, bars: seq<Bar>, k: nat)
    requires k <= |bars|
  {
    forall j: nat :: Warmup(cfg) <= j <= k ==> ReportAgrees(s, cfg, bars, j)
  }

  /** Money starts in whole cents, and no closing before bar `k` was skewed by the cent rounding. */
  ghost predicate Unskewed(s: Strategy, cfg: Config, bars: seq<Bar>, k: nat)
    requires k <= |bars|
  {
    OnCents(cfg.initialCapital) && forall i: nat :: Warmup(cfg) <= i < k ==> !SkewedAt(s, cfg, bars, i)
  }

  lemma ThroughNext(s: Strategy, cfg: Config, bars: seq<Bar>, i: nat)
    requires Warmup(cfg) <= i < |bars|
    ensures AgreesThrough(s, cfg, bars, i + 1) <==> AgreesThrough(s, cfg, bars, i) && ReportAgrees(s, cfg, bars, i + 1)
    ensures Unskewed(s, cfg, bars, i + 1) <==> Unskewed(s, cfg, bars, i) && !SkewedAt(s, cfg, bars, i)
  {
  }

  lemma AgreesNext(s: Strategy, cfg: Config, bars: seq<Bar>, i: nat, next: nat)
    requires Warmup(cfg) <= i < next <= |bars| && next == i + 1
    requires AgreesThrough(s, cfg, bars, i) <==> Unskewed(s, cfg, bars, i)
    ensures AgreesThrough(s, cfg, bars, next) <==> Unskewed(s, cfg, bars, next)
  {
    ThroughNext(s, cfg, bars, i);
    if AgreesThrough(s, cfg, bars, i) {
      BarKeepsReport(s, cfg, bars, i);
    }
  }

  /** The reported ending capital follows the running capital on every bar exactly when money starts
      in whole cents and no trade closed so far was skewed by the cent rounding. */
  lemma {:induction false} ReportFollowsCapital(s: Strategy, cfg: Config, bars: seq<Bar>, k: nat)
    requires Warmup(cfg) <= k <= |bars|
    ensures AgreesThrough(s, cfg, bars, k) <==> Unskewed(s, cfg, bars, k)
    decreases k
  {
    if k == Warmup(cfg) {
      ReportStarts(s, cfg, bars, k);
    } else {
      ReportFollowsCapital(s, cfg, bars, k - 1);
      AgreesNext(s, cfg, bars, k - 1, k);
    }
  }

  // ---------------------------------------------------------------- the sum of the slips, for every initial capital

  /** Initial capital plus the rounded results. */
  function Ledger(cfg: Config, st: State): real {
    cfg.initialCapital + NetTotal(st.trades)
  }

  /** What the rounding at a closing adds to the capital beyond the ledger. */
  function CloseSlip(cfg: Config, st: State, fill: Option<Fill>): real
    requires fill.Some? ==> st.position.Some?
  {
    if fill.None? then 0.0
    else
      var net := Net(cfg, st.position.value, fill.value.price);
      Round2(st.capital + net) - (st.capital + Round2(net))
  }

  ghost function SlipAt(s: Strategy, cfg: Config, bars: seq<Bar>, i: nat): real
    requires i < |bars|
  {
    var st := After(s, cfg, bars, i);
    CloseSlip(cfg, st, ExitOf(st, bars[i], i))
  }

  /** The signed sum of the slips of all bars before `k`, and the number of the bars that slip. */
  ghost function SlipSum(s: Strategy, cfg: Config, bars: seq<Bar>, k: nat): real
    requires k <= |bars|
  {
    if k <= Warmup(cfg) then 0.0 else SlipSum(s, cfg, bars, k - 1) + SlipAt(s, cfg, bars, k - 1)
  }

  ghost function SlipCount(s: Strategy, cfg: Config, bars: seq<Bar>, k: nat): nat
    requires k <= |bars|
  {
    if k <= Warmup(cfg) then 0 else SlipCount(s, cfg, bars, k - 1) + if SlipAt(s, cfg, bars, k - 1) != 0.0 then 1 else 0
  }

  lemma CloseSlipSize(cfg: Config, st: State, fill: Option<Fill>)
    requires fill.Some? ==> st.position.Some?
    ensures -0.01 <= CloseSlip(cfg, st, fill) <= 0.01
    ensures fill.Some? && OnCents(st.capital) ==>
              (CloseSlip(cfg, st, fill) != 0.0 <==> HalfCent(Net(cfg, st.position.value, fill.value.price)) && OddCents(st.capital))
  {
    if fill.Some? {
      var net := Net(cfg, st.position.value, fill.value.price);
      Round2Near(st.capital + net);
      Round2Near(net);
      if OnCents(st.capital) {
        Round2Shift(st.capital, net);
      }
    }
  }

  /** From whole cents a bar slips exactly when its closing is skewed. */
  lemma SlipsIffSkewed(s: Strategy, cfg: Config, bars: seq<Bar>, i: nat)
    requires i < |bars| && OnCents(cfg.initialCapital)
    ensures SlipAt(s, cfg, bars, i) != 0.0 <==> SkewedAt(s, cfg, bars, i)
  {
    var st := After(s, cfg, bars, i);
    RunInCents(s, cfg, bars, i);
    CloseSlipSize(cfg, st, ExitOf(st, bars[i], i));
  }

  lemma ClosingMovesCapital(cfg: Config, i: nat, st: State, fill: Fill)
    requires st.position.Some?
    ensures var closed := Closed(cfg, i, st, fill);
            closed.capital - Ledger(cfg, closed) == st.capital - Ledger(cfg, st) + CloseSlip(cfg, st, Some(fill))
    ensures CentResults(st.trades) ==> CentResults(Closed(cfg, i, st, fill).trades)
  {
    assert Closed(cfg, i, st, fill).trades[..|st.trades|] == st.trades;
    Round2OnCents(Net(cfg, st.position.value, fill.price));
  }

  lemma StepMovesCapital(s: Strategy, cfg: Config, bars: seq<Bar>, i: nat, st: State)
    requires i < |bars|
    ensures var next := Step(s, cfg, bars, i, st);
            && next.capital - Ledger(cfg, next) == st.capital - Ledger(cfg, st) + CloseSlip(cfg, st, ExitOf(st, bars[i], i))
            && (CentResults(st.trades) ==> CentResults(next.trades))
  {
    StepShape(s, cfg, bars, i, st);
    var fill := ExitOf(st, bars[i], i);
    if fill.Some? {
      ClosingMovesCapital(cfg, i, st, fill.value);
    }
  }

  /** Capital and ledger are the slips apart, at most a cent for every bar that slips. */
  ghost predicate Accounted(s: Strategy, cfg: Config, bars: seq<Bar>, k: nat)
    requires k <= |bars|
  {
    var st, cents := After(s, cfg, bars, k), SlipCount(s, cfg, bars, k) as real;
    && CentResults(st.trades)
    && st.capital - Ledger(cfg, st) == SlipSum(s, cfg, bars, k)
    && -cents <= SlipSum(s, cfg, bars, k) * 100.0 <= cents
  }

  lemma AccountedNext(s: Strategy, cfg: Config, bars: seq<Bar>, i: nat, next: nat)
    requires Warmup(cfg) <= i < next <= |bars| && next == i + 1 && Accounted(s, cfg, bars, i)
    ensures Accounted(s, cfg, bars, next)
  {
    var st := After(s, cfg, bars, i);
    AfterNext(s, cfg, bars, i);
    StepMovesCapital(s, cfg, bars, i, st);
    CloseSlipSize(cfg, st, ExitOf(st, bars[i], i));
  }

  lemma AccountedAtStart(s: Strategy, cfg: Config, bars: seq<Bar>, k: nat)
    requires k <= |bars| && k <= Warmup(cfg)
    ensures Accounted(s, cfg, bars, k)
  {
  }

  lemma {:induction false} RunAccounted(s: Strategy, cfg: Config, bars: seq<Bar>, k: nat)
    requires k <= |bars|
    ensures Accounted(s, cfg, bars, k)
    decreases k
  {
    if k <= Warmup(cfg) {
      AccountedAtStart(s, cfg, bars, k);
    } else {
      RunAccounted(s, cfg, bars, k - 1);
      AccountedNext(s, cfg, bars, k - 1, k);
    }
  }

  lemma ReportedIsRounded(cfg: Config, ts: seq<Trade>)
    requires CentResults(ts)
    ensures ReportedCapital(cfg, ts) == Round2(cfg.initialCapital + NetTotal(ts)) && OnCents(NetTotal(ts))
  {
    NetTotalOnCents(ts);
    Round2OnCents(NetTotal(ts));
  }

  /** What rounding takes off an amount does not depend on whole cents added to it, but for its sign at a tie. */
  lemma SameDistance(amount: real, cents: real)
    requires OnCents(cents)
    ensures var d, e := Round2(amount + cents) - (amount + cents), Round2(amount) - amount; d == e || d == -e
  {
    Round2ShiftByCent(cents, amount);
    Round2Near(amount);
    Round2Near(cents + amount);
    assert amount + cents == cents + amount;
  }

  lemma GapFromSlips(cfg: Config, st: State, slips: real)
    requires CentResults(st.trades) && st.capital - Ledger(cfg, st) == slips
    ensures Gap(cfg, st) == slips - (Round2(Ledger(cfg, st)) - Ledger(cfg, st))
    ensures OnCents(cfg.initialCapital) ==> Round2(Ledger(cfg, st)) == Ledger(cfg, st)
  {
    ReportedIsRounded(cfg, st.trades);
    if OnCents(cfg.initialCapital) {
      OnCentsSum(cfg.initialCapital, NetTotal(st.trades));
      Round2OnCents(Ledger(cfg, st));
    }
  }

  /** At every bar, for every initial capital, report and running capital are apart by the signed sum of
      the slips and what rounding the ledger takes off; so from whole cents they agree there exactly when
      the slips cancel. */
  lemma GapIsSlipSum(s: Strategy, cfg: Config, bars: seq<Bar>, k: nat)
    requires k <= |bars|
    ensures var st := After(s, cfg, bars, k);
            Gap(cfg, st) == SlipSum(s, cfg, bars, k) - (Round2(Ledger(cfg, st)) - Ledger(cfg, st))
    ensures OnCents(cfg.initialCapital) ==> (ReportAgrees(s, cfg, bars, k) <==> SlipSum(s, cfg, bars, k) == 0.0)
  {
    RunAccounted(s, cfg, bars, k);
    GapFromSlips(cfg, After(s, cfg, bars, k), SlipSum(s, cfg, bars, k));
  }

  /** The fraction of a cent of an amount, as far as rounding moves it. */
  function Fraction(amount: real): real {
    if Round2(amount) >= amount then Round2(amount) - amount else amount - Round2(amount)
  }

  /** The gap, in cents, is at most the fraction of the initial capital and `count`. */
  ghost predicate GapWithin(cfg: Config, st: State, count: nat) {
    var most := Fraction(cfg.initialCapital) * 100.0 + count as real;
    -most <= Gap(cfg, st) * 100.0 <= most
  }

  lemma SlipsBoundGap(cfg: Config, st: State, slips: real, count: nat)
    requires CentResults(st.trades) && st.capital - Ledger(cfg, st) == slips
    requires -(count as real) <= slips * 100.0 <= count as real
    ensures GapWithin(cfg, st, count)
  {
    GapFromSlips(cfg, st, slips);
    NetTotalOnCents(st.trades);
    SameDistance(cfg.initialCapital, NetTotal(st.trades));
  }

  /** Whatever the rounding does, they part by at most the fraction of a cent of the initial capital and
      a cent for every closing that slips. */
  lemma GapBounded(s: Strategy, cfg: Config, bars: seq<Bar>, k: nat)
    requires k <= |bars|
    ensures GapWithin(cfg, After(s, cfg, bars, k), SlipCount(s, cfg, bars, k))
  {
    RunAccounted(s, cfg, bars, k);
    SlipsBoundGap(cfg, After(s, cfg, bars, k), SlipSum(s, cfg, bars, k), SlipCount(s, cfg, bars, k));
  }

  const SKEW_CONFIG := Config(0.01, 1, 0, 0.1, 0.1, 40, 0.0, 0.0, 0, 1)

  function SkewSignal(bars: seq<Bar>): Option<Signal> {
    Some(Signal(0.0, 0.0, Call, Some(0.0), Some(1.005), None))
  }

  const SKEW_BARS := [Bar(1.0, 1.0, 1.0, 1.0), Bar(1.0, 1.0, 1.0, 1.0), Bar(1.0, 2.0, 1.0, 1.0)]

  /** One lot bought at 1 and closed at 1.005 on a capital of one cent: the running capital becomes
      two cents, the report says one. */
  lemma HalfCentTradeSkewsReport()
    ensures var st := After(SkewSignal, SKEW_CONFIG, SKEW_BARS, 3);
            st.capital == 0.02 && ReportedCapital(SKEW_CONFIG, st.trades) == 0.01
  {
    var cfg, bars := SKEW_CONFIG, SKEW_BARS;
    var pos := Position(Bracket(Call, 0.0, 1.005, 1, 40), 1.0, 1, 0.0, 0.0);
    assert Entry(SkewSignal, cfg, bars, 1) == Some(pos) by {
      WholeIsFixed(10000);
    }
    var held := Initial(cfg).(position := Some(pos));
    assert After(SkewSignal, cfg, bars, 2) == held by {
      assert After(SkewSignal, cfg, bars, 1) == Initial(cfg);
    }
    assert ExitOf(held, bars[2], 2) == Some(Fill(1.005, TakeProfit));
    assert After(SkewSignal, cfg, bars, 3) == Closed(cfg, 2, held, Fill(1.005, TakeProfit));
    SkewedClosing(held);
  }

  lemma SkewedClosing(st: State)
    requires st.position == Some(Position(Bracket(Call, 0.0, 1.005, 1, 40), 1.0, 1, 0.0, 0.0))
    requires st.trades == [] && st.capital == 0.01
    ensures var closed := Closed(SKEW_CONFIG, 2, st, Fill(1.005, TakeProfit));
            closed.capital == 0.02 && ReportedCapital(SKEW_CONFIG, closed.trades) == 0.01
  {
    var closed := Closed(SKEW_CONFIG, 2, st, Fill(1.005, TakeProfit));
    HalfCentTies();
    assert Net(SKEW_CONFIG, st.position.value, 1.005) == 0.005;
    assert closed.capital == Round2(0.015);
    assert closed.trades[..0] == [];
    assert NetTotal(closed.trades) == 0.0 + Round2(0.005) == 0.0;
    WholeIsFixed(0);
  }

  // ---------------------------------------------------------------- drawdown

  /** Initial capital followed by the capital after each trade. */
  ghost function CapitalCurve(s: Strategy, cfg: Config, bars: seq<Bar>, k: nat): (c: seq<real>)
    requires k <= |bars|
    ensures |c| > 0
  {
    if k <= Warmup(cfg) then [cfg.initialCapital]
    else
      var before := CapitalCurve(s, cfg, bars, k - 1);
      if |After(s, cfg, bars, k).trades| > |After(s, cfg, bars, k - 1).trades| then before + [After(s, cfg, bars, k).capital]
      else before
  }

  lemma Round2Max(a: real, b: real)
    ensures Max(Round2(a), Round2(b)) == Round2(Max(a, b))
  {
    if a >= b {
      Round2Monotone(b, a);
    } else {
      Round2Monotone(a, b);
    }
  }

  ghost predicate Tracks(st: State, curve: seq<real>) {
    |curve| > 0 && st.peak == Peak(curve) && st.maxDrawdown == Round2(Drawdown(curve))
  }

  lemma ClosingTracks(cfg: Config, i: nat, st: State, fill: Fill, curve: seq<real>)
    requires st.position.Some? && Tracks(st, curve)
    ensures var closed := Closed(cfg, i, st, fill); Tracks(closed, curve + [closed.capital])
  {
    var closed := Closed(cfg, i, st, fill);
    var d := Drop(closed.peak, closed.capital);
    DrawdownSnoc(curve, closed.capital);
    Round2Max(Drawdown(curve), d);
    Round2Monotone(0.0, Drawdown(curve));
    WholeIsFixed(0);
  }

  /** Rounding every drawdown before taking the maximum is rounding the maximum:
      the engine's figure is the reference drawdown of the capital after each trade. */
  lemma {:induction false} MaxDrawdownIsReference(s: Strategy, cfg: Config, bars: seq<Bar>, k: nat)
    requires k <= |bars|
    ensures Tracks(After(s, cfg, bars, k), CapitalCurve(s, cfg, bars, k))
    decreases k
  {
    if k <= Warmup(cfg) {
      DrawdownSnoc([], cfg.initialCapital);
      assert [] + [cfg.initialCapital] == [cfg.initialCapital];
      WholeIsFixed(0);
    } else {
      MaxDrawdownIsReference(s, cfg, bars, k - 1);
      StepTracks(s, cfg, bars, k - 1, After(s, cfg, bars, k - 1), CapitalCurve(s, cfg, bars, k - 1));
    }
  }

  lemma StepTracks(s: Strategy, cfg: Config, bars: seq<Bar>, i: nat, st: State, curve: seq<real>)
    requires i < |bars| && Tracks(st, curve)
    ensures var next := Step(s, cfg, bars, i, st);
            Tracks(next, if |next.trades| > |st.trades| then curve + [next.capital] else curve)
  {
    var fill := ExitOf(st, bars[i], i);
    if fill.Some? {
      ClosingTracks(cfg, i, st, fill.value, curve);
    }
  }

  // ---------------------------------------------------------------- the engine

  datatype Report = Report(
    initialCapital: real, endingCapital: real, trades: seq<Trade>, wins: nat, losses: nat, netPnl: real, maxDrawdown: real)

  function Wins(ts: seq<Trade>): (w: nat)
    ensures w <= |ts|
  {
    if |ts| == 0 then 0 else Wins(ts[..|ts| - 1]) + if ts[|ts| - 1].netPnl >= 0.0 then 1 else 0
  }

  /** The positions of the trades that did not lose, and of those that did. */
  ghost function WinsOf(ts: seq<Trade>): set<nat> {
    set i: nat | i < |ts| && ts[i].netPnl >= 0.0
  }

  ghost function LossesOf(ts: seq<Trade>): set<nat> {
    set i: nat | i < |ts| && ts[i].netPnl < 0.0
  }

  lemma {:induction false} WinsAreSet(ts: seq<Trade>)
    ensures Wins(ts) == |WinsOf(ts)| && |ts| - Wins(ts) == |LossesOf(ts)|
  {
    if |ts| > 0 {
      var n := |ts| - 1;
      WinsAreSet(ts[..n]);
      assert WinsOf(ts) == WinsOf(ts[..n]) + if ts[n].netPnl >= 0.0 then {n} else {};
      assert LossesOf(ts) == LossesOf(ts[..n]) + if ts[n].netPnl >= 0.0 then {} else {n};
    }
  }

  class Engine {
    const strategy: Strategy

    constructor (strategy: Strategy)
      ensures this.strategy == strategy
    {
      this.strategy := strategy;
    }

    /** One pass of the bar loop of `run`, on the variables it carries; the early continues are returns. */
    method RunBar(bars: seq<Bar>, cfg: Config, idx: nat, st: State) returns (next: State)
      requires idx < |bars|
      ensures next == Step(strategy, cfg, bars, idx, st)
    {
      if st.position.Some? {
        var position := st.position.value;
        var fill := position.bracket.ExitAt(bars[idx], idx);
        if fill.Some? {
          var net := Net(cfg, position, fill.value.price);
          var capital := Round2(st.capital + net);
          var peak := Max(st.peak, capital);
          var maxDrawdown := st.maxDrawdown;
          if peak > 0.0 {
            maxDrawdown := Max(maxDrawdown, Round2((peak - capital) / peak * 100.0));
          }
          var trade := TradeOf(cfg, position, fill.value, idx);
          return State(st.trades + [trade], capital, peak, maxDrawdown, None, idx + cfg.cooldownBars);
        }
      }
      if st.position.Some? || idx < st.cooldownUntil {
        return st;
      }
      next := st.(position := Entry(strategy, cfg, bars, idx));
    }

    /** The bar loop of `run`. */
    method RunBars(bars: seq<Bar>, cfg: Config) returns (trades: seq<Trade>, maxDrawdown: real)
      ensures var st := After(strategy, cfg, bars, |bars|); trades == st.trades && maxDrawdown == st.maxDrawdown
    {
      var st := Initial(cfg);
      if |bars| > Warmup(cfg) {
        for idx := Warmup(cfg) to |bars|
          invariant st == After(strategy, cfg, bars, idx)
        {
          AfterNext(strategy, cfg, bars, idx);
          st := RunBar(bars, cfg, idx, st);
        }
      }
      return st.trades, st.maxDrawdown;
    }

    /** The report at the end of `run`. */
    method Summarize(trades: seq<Trade>, maxDrawdown: real, cfg: Config) returns (report: Report)
      ensures report.trades == trades && report.maxDrawdown == maxDrawdown && report.initialCapital == cfg.initialCapital
      ensures report.netPnl == Round2(NetTotal(trades))
      ensures report.wins == |WinsOf(trades)| && report.losses == |LossesOf(trades)|
      ensures report.endingCapital == ReportedCapital(cfg, trades)
    {
      WinsAreSet(trades);
      var wins := Wins(trades);
      var netPnl := Round2(NetTotal(trades));
      report := Report(cfg.initialCapital, Round2(cfg.initialCapital + netPnl), trades, wins, |trades| - wins, netPnl, maxDrawdown);
    }

    /** `run` */
    method Run(bars: seq<Bar>, cfg: Config) returns (report: Report)
      ensures report.trades == Trades(strategy, cfg, bars, Warmup(cfg)) && AllExplained(strategy, cfg, bars, report.trades)
      ensures report.initialCapital == cfg.initialCapital && report.netPnl == Round2(NetTotal(report.trades))
      ensures report.wins == |WinsOf(report.trades)| && report.losses == |LossesOf(report.trades)|
      ensures report.maxDrawdown == Round2(Drawdown(CapitalCurve(strategy, cfg, bars, |bars|)))
      ensures report.endingCapital == ReportedCapital(cfg, report.trades)
      ensures OnCents(cfg.initialCapital) ==>
                (report.endingCapital == After(strategy, cfg, bars, |bars|).capital <==> SlipSum(strategy, cfg, bars, |bars|) == 0.0)
    {
      var trades, maxDrawdown := RunBars(bars, cfg);
      TradesAreTrades(strategy, cfg, bars);
      ReportExplained(strategy, cfg, bars);
      MaxDrawdownIsReference(strategy, cfg, bars, |bars|);
      GapIsSlipSum(strategy, cfg, bars, |bars|);
      report := Summarize(trades, maxDrawdown, cfg);
    }
  }
}
