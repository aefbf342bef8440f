/** The money side of a candle run: every fee and result accounted for, and what the reported drawdown is worth. */
module CandleAccounts {
  import opened Wrappers
  import opened Reals
  import opened Rounding
  import opened Benchmark
  import opened ExitRules
  import opened CandleModel

  // ---------------------------------------------------------------- capital in cents

  /** The capital is a whole number of cents from the first entry on; before it nothing has moved. */
  ghost predicate Anchored(cfg: Config, st: State) {
    && !(st.position.Some? && st.pending.Some?)
    && (OnCents(st.capital)
        || (st.capital == st.peak == cfg.initialCapital && st.position.None? && st.journal == []))
  }

  lemma EnteringStaysAnchored(s: Strategy, cfg: Config, i: nat, st: State)
    requires Anchored(cfg, st)
    ensures Anchored(cfg, EnterDue(s, cfg, i, st))
  {
    Round2OnCents(st.capital - Fee(cfg));
  }

  lemma ClosingStaysAnchored(s: Strategy, cfg: Config, i: nat, st: State, fill: Fill)
    requires Anchored(cfg, st) && st.position.Some?
    ensures Anchored(cfg, Closed(s, cfg, i, st, fill))
  {
    Round2OnCents(st.capital + Settlement(s, cfg, st.position.value, fill.price, fill.reason).net);
  }

  lemma IdlingStaysAnchored(s: Strategy, cfg: Config, bars: seq<Bar>, i: nat, st: State)
    requires i < |bars| && Anchored(cfg, st)
    ensures Anchored(cfg, Idled(s, cfg, bars, i, st))
  {
  }

  lemma StepStaysAnchored(s: Strategy, cfg: Config, bars: seq<Bar>, i: nat, st: State)
    requires i < |bars| && Anchored(cfg, st)
    ensures Anchored(cfg, Step(s, cfg, bars, i, st))
  {
    var entered := EnterDue(s, cfg, i, st);
    EnteringStaysAnchored(s, cfg, i, st);
    var fill := ExitOf(entered, bars[i], i);
    if fill.Some? {
      ClosingStaysAnchored(s, cfg, i, entered, fill.value);
    } else {
      IdlingStaysAnchored(s, cfg, bars, i, entered);
    }
  }

  lemma {:induction false} RunAnchored(s: Strategy, cfg: Config, bars: seq<Bar>, k: nat)
    requires k <= |bars|
    ensures Anchored(cfg, After(s, cfg, bars, k))
    decreases k
  {
    if k > Warmup(cfg) {
      RunAnchored(s, cfg, bars, k - 1);
      StepStaysAnchored(s, cfg, bars, k - 1, After(s, cfg, bars, k - 1));
    }
  }

  // ---------------------------------------------------------------- ledger

  function NetTotal(rows: seq<Row>): real {
    if |rows| == 0 then 0.0 else NetTotal(rows[..|rows| - 1]) + rows[|rows| - 1].netPnl
  }

  function OpenCount(st: State): nat {
    if st.position.Some? then 1 else 0
  }

  /** Initial capital plus the journal's net results minus one entry fee per trade entered. */
  function Ledger(cfg: Config, st: State): real {
    cfg.initialCapital + NetTotal(st.journal) - Fees(cfg, |st.journal| + OpenCount(st))
  }

  function Fees(cfg: Config, entries: nat): real {
    Fee(cfg) * entries as real
  }

  /** What the account is ahead of the ledger. */
  function Gap(cfg: Config, st: State): real {
    st.capital - Ledger(cfg, st)
  }

  ghost predicate Enters(idx: nat, st: State) {
    st.pending.Some? && st.pending.value.enterOn == idx
  }

  /** What the rounding at an entry adds to the gap. */
  ghost function EntrySlip(cfg: Config, idx: nat, st: State): real {
    if Enters(idx, st) then Round2(st.capital - Fee(cfg)) - (st.capital - Fee(cfg)) else 0.0
  }

  /** What the rounding at a closing of the state after the entry adds to it. */
  ghost function CloseSlip(s: Strategy, cfg: Config, entered: State, fill: Option<Fill>): real
    requires fill.Some? ==> entered.position.Some?
  {
    if fill.None? then 0.0
    else
      var net := Settlement(s, cfg, entered.position.value, fill.value.price, fill.value.reason).net;
      Round2(entered.capital + net) - (entered.capital + Round2(net))
  }

  /** The entry of bar `idx` takes a fee that does not leave whole cents. */
  ghost predicate OffCentEntry(cfg: Config, idx: nat, st: State) {
    Enters(idx, st) && !OnCents(st.capital - Fee(cfg))
  }

  /** Bar `idx` closes a trade whose net result is an exact half cent while the capital is an odd number of cents. */
  ghost predicate SkewedClose(s: Strategy, cfg: Config, bars: seq<Bar>, idx: nat, st: State)
    requires idx < |bars|
  {
    var entered := EnterDue(s, cfg, idx, st);
    var fill := ExitOf(entered, bars[idx], idx);
    && fill.Some?
    && HalfCent(Settlement(s, cfg, entered.position.value, fill.value.price, fill.value.reason).net)
    && OddCents(entered.capital)
  }

  lemma OneMoreFee(cfg: Config, entries: nat)
    ensures Fees(cfg, entries + 1) == Fees(cfg, entries) + Fee(cfg)
  {
    OneMore(Fee(cfg), entries as real);
  }

  lemma OneMore(fee: real, n: real)
    ensures fee * (n + 1.0) == fee * n + fee
  {
  }

  lemma EnteringMovesGap(s: Strategy, cfg: Config, i: nat, st: State)
    requires Anchored(cfg, st)
    ensures Gap(cfg, EnterDue(s, cfg, i, st)) == Gap(cfg, st) + EntrySlip(cfg, i, st)
  {
    OneMoreFee(cfg, |st.journal|);
    var entered := EnterDue(s, cfg, i, st);
    if Enters(i, st) {
      assert OpenCount(entered) == 1 && OpenCount(st) == 0;
      assert entered.journal == st.journal;
    }
  }

  lemma ClosingMovesGap(s: Strategy, cfg: Config, i: nat, st: State, fill: Fill)
    requires st.position.Some?
    ensures Gap(cfg, Closed(s, cfg, i, st, fill)) == Gap(cfg, st) + CloseSlip(s, cfg, st, Some(fill))
  {
    assert Closed(s, cfg, i, st, fill).journal[..|st.journal|] == st.journal;
  }

  lemma IdlingKeepsGap(s: Strategy, cfg: Config, bars: seq<Bar>, i: nat, st: State)
    requires i < |bars|
    ensures Gap(cfg, Idled(s, cfg, bars, i, st)) == Gap(cfg, st)
  {
    var next := Idled(s, cfg, bars, i, st);
    assert next.journal == st.journal && next.position == st.position && next.capital == st.capital;
  }

  lemma StepMovesGap(s: Strategy, cfg: Config, bars: seq<Bar>, i: nat, st: State)
    requires i < |bars| && Anchored(cfg, st)
    ensures var entered := EnterDue(s, cfg, i, st);
            Gap(cfg, Step(s, cfg, bars, i, st))
            == Gap(cfg, st) + EntrySlip(cfg, i, st) + CloseSlip(s, cfg, entered, ExitOf(entered, bars[i], i))
  {
    var entered := EnterDue(s, cfg, i, st);
    EnteringMovesGap(s, cfg, i, st);
    var fill := ExitOf(entered, bars[i], i);
    if fill.Some? {
      ClosingMovesGap(s, cfg, i, entered, fill.value);
    } else {
      IdlingKeepsGap(s, cfg, bars, i, entered);
    }
  }

  /** An entry slips by at most half a cent, and by nothing exactly when it leaves whole cents. */
  lemma EntrySlipSize(cfg: Config, i: nat, st: State)
    ensures -0.005 <= EntrySlip(cfg, i, st) <= 0.005
    ensures EntrySlip(cfg, i, st) == 0.0 <==> !OffCentEntry(cfg, i, st)
  {
    Round2Near(st.capital - Fee(cfg));
    Round2OnCents(st.capital - Fee(cfg));
  }

  /** A closing slips by a cent or by nothing, and by nothing exactly when it is not skewed. */
  lemma CloseSlipSize(s: Strategy, cfg: Config, bars: seq<Bar>, i: nat, st: State)
    requires i < |bars| && Anchored(cfg, st)
    ensures var entered := EnterDue(s, cfg, i, st);
            var slip := CloseSlip(s, cfg, entered, ExitOf(entered, bars[i], i));
            && (slip == -0.01 || slip == 0.0 || slip == 0.01)
            && (slip == 0.0 <==> !SkewedClose(s, cfg, bars, i, st))
  {
    var entered := EnterDue(s, cfg, i, st);
    EnteringStaysAnchored(s, cfg, i, st);
    var fill := ExitOf(entered, bars[i], i);
    if fill.Some? {
      var net := Settlement(s, cfg, entered.position.value, fill.value.price, fill.value.reason).net;
      Round2Shift(entered.capital, net);
      Round2ShiftByCent(entered.capital, net);
    }
  }

  ghost predicate BalancedAt(s: Strategy, cfg: Config, bars: seq<Bar>, k: nat)
    requires k <= |bars|
  {
    After(s, cfg, bars, k).capital == Ledger(cfg, After(s, cfg, bars, k))
  }

  ghost predicate SkewedAt(s: Strategy, cfg: Config, bars: seq<Bar>, i: nat)
    requires i < |bars|
  {
    SkewedClose(s, cfg, bars, i, After(s, cfg, bars, i))
  }

  ghost predicate OffCentEntryAt(s: Strategy, cfg: Config, bars: seq<Bar>, i: nat)
    requires i < |bars|
  {
    OffCentEntry(cfg, i, After(s, cfg, bars, i))
  }

  /** An entry's half cent at most can never make up for a skewed closing's cent. */
  lemma BarKeepsBalance(s: Strategy, cfg: Config, bars: seq<Bar>, i: nat)
    requires Warmup(cfg) <= i < |bars| && BalancedAt(s, cfg, bars, i)
    ensures BalancedAt(s, cfg, bars, i + 1) <==> !(OffCentEntryAt(s, cfg, bars, i) || SkewedAt(s, cfg, bars, i))
  {
    var st := After(s, cfg, bars, i);
    RunAnchored(s, cfg, bars, i);
    StepMovesGap(s, cfg, bars, i, st);
    EntrySlipSize(cfg, i, st);
    CloseSlipSize(s, cfg, bars, i, st);
    assert Gap(cfg, st) == 0.0;
    assert BalancedAt(s, cfg, bars, i + 1) <==> Gap(cfg, Step(s, cfg, bars, i, st)) == 0.0;
  }

  ghost predicate BalancedThrough(s: Strategy, cfg: Config, bars: seq<Bar>, k: nat)
    requires k <= |bars|
  {
    forall j: nat :: Warmup(cfg) <= j <= k ==> BalancedAt(s, cfg, bars, j)
  }

  /** No entry so far left a fraction of a cent, and no closing was skewed by the cent rounding. */
  ghost predicate NothingSlips(s: Strategy, cfg: Config, bars: seq<Bar>, k: nat)
    requires k <= |bars|
  {
    forall i: nat :: Warmup(cfg) <= i < k ==> !(OffCentEntryAt(s, cfg, bars, i) || SkewedAt(s, cfg, bars, i))
  }

  lemma BalancedAtStart(s: Strategy, cfg: Config, bars: seq<Bar>, k: nat)
    requires k <= |bars| && k <= Warmup(cfg)
    ensures BalancedAt(s, cfg, bars, k)
  {
    assert Fees(cfg, 0) == 0.0;
  }

  lemma ThroughNext(s: Strategy, cfg: Config, bars: seq<Bar>, i: nat, next: nat)
    requires Warmup(cfg) <= i < next <= |bars| && next == i + 1
    ensures BalancedThrough(s, cfg, bars, next) <==> BalancedThrough(s, cfg, bars, i) && BalancedAt(s, cfg, bars, next)
  {
  }

  lemma SlipsNext(s: Strategy, cfg: Config, bars: seq<Bar>, i: nat, next: nat)
    requires Warmup(cfg) <= i < next <= |bars| && next == i + 1
    ensures NothingSlips(s, cfg, bars, next)
       <==> NothingSlips(s, cfg, bars, i) && !(OffCentEntryAt(s, cfg, bars, i) || SkewedAt(s, cfg, bars, i))
  {
  }

  lemma BalancedNext(s: Strategy, cfg: Config, bars: seq<Bar>, i: nat, next: nat)
    requires Warmup(cfg) <= i < next <= |bars| && next == i + 1
    requires BalancedThrough(s, cfg, bars, i) <==> NothingSlips(s, cfg, bars, i)
    ensures BalancedThrough(s, cfg, bars, next) <==> NothingSlips(s, cfg, bars, next)
  {
    ThroughNext(s, cfg, bars, i, next);
    SlipsNext(s, cfg, bars, i, next);
    if BalancedThrough(s, cfg, bars, i) {
      BarKeepsBalance(s, cfg, bars, i);
    }
  }

  /** The capital equals initial + net results - fees on every bar up to `k` exactly when no entry so
      far left a fraction of a cent and no closing so far was skewed by the cent rounding. */
  lemma {:induction false} CapitalAccounted(s: Strategy, cfg: Config, bars: seq<Bar>, k: nat)
    requires Warmup(cfg) <= k <= |bars|
    ensures BalancedThrough(s, cfg, bars, k) <==> NothingSlips(s, cfg, bars, k)
    decreases k
  {
    if k == Warmup(cfg) {
      BalancedAtStart(s, cfg, bars, k);
    } else {
      CapitalAccounted(s, cfg, bars, k - 1);
      BalancedNext(s, cfg, bars, k - 1, k);
    }
  }

  ghost predicate OnGrid(cfg: Config) {
    OnCents(cfg.initialCapital) && OnCents(Fee(cfg))
  }

  /** From whole cents an entry is off exactly for a fee that is not in whole cents, so on the cent
      grid none ever is. */
  lemma OffCentEntryIff(s: Strategy, cfg: Config, bars: seq<Bar>, i: nat)
    requires i < |bars| && OnCents(cfg.initialCapital)
    ensures OffCentEntryAt(s, cfg, bars, i) <==> Enters(i, After(s, cfg, bars, i)) && !OnCents(Fee(cfg))
  {
    var st := After(s, cfg, bars, i);
    RunAnchored(s, cfg, bars, i);
    FeeLeavesCents(st.capital, Fee(cfg));
  }

  lemma FeeInCents(capital: real, fee: real)
    requires OnCents(capital) && OnCents(capital - fee)
    ensures OnCents(fee)
  {
    OnCentsSum(capital, capital - fee);
    assert capital - (capital - fee) == fee;
  }

  lemma FeeLeavesCents(capital: real, fee: real)
    requires OnCents(capital)
    ensures OnCents(capital - fee) <==> OnCents(fee)
  {
    if OnCents(fee) {
      OnCentsSum(capital, fee);
    }
    if OnCents(capital - fee) {
      FeeInCents(capital, fee);
    }
  }

  /** What the rounding of bar `i` adds to the gap: by its entry and by its closing. */
  ghost function SlipAt(s: Strategy, cfg: Config, bars: seq<Bar>, i: nat): real
    requires i < |bars|
  {
    var st := After(s, cfg, bars, i);
    var entered := EnterDue(s, cfg, i, st);
    EntrySlip(cfg, i, st) + CloseSlip(s, cfg, entered, ExitOf(entered, bars[i], i))
  }

  /** The signed sum of the slips of all bars before `k`. */
  ghost function SlipSum(s: Strategy, cfg: Config, bars: seq<Bar>, k: nat): real
    requires k <= |bars|
  {
    if k <= Warmup(cfg) then 0.0 else SlipSum(s, cfg, bars, k - 1) + SlipAt(s, cfg, bars, k - 1)
  }

  /** The most they can be: half a cent for an off-cent entry and a cent for a skewed closing. */
  ghost function SlipBound(s: Strategy, cfg: Config, bars: seq<Bar>, k: nat): real
    requires k <= |bars|
  {
    if k <= Warmup(cfg) then 0.0
    else SlipBound(s, cfg, bars, k - 1)
         + (if OffCentEntryAt(s, cfg, bars, k - 1) then 0.005 else 0.0) + (if SkewedAt(s, cfg, bars, k - 1) then 0.01 else 0.0)
  }

  predicate Within(x: real, bound: real) {
    -bound <= x <= bound
  }

  lemma NextGap(s: Strategy, cfg: Config, bars: seq<Bar>, i: nat, next: nat)
    requires Warmup(cfg) <= i < next <= |bars| && next == i + 1
    ensures Gap(cfg, After(s, cfg, bars, next)) == Gap(cfg, After(s, cfg, bars, i)) + SlipAt(s, cfg, bars, i)
  {
    RunAnchored(s, cfg, bars, i);
    StepMovesGap(s, cfg, bars, i, After(s, cfg, bars, i));
    AfterNext(s, cfg, bars, i);
  }

  lemma SlipAtBounded(s: Strategy, cfg: Config, bars: seq<Bar>, i: nat)
    requires i < |bars|
    ensures Within(SlipAt(s, cfg, bars, i),
                   (if OffCentEntryAt(s, cfg, bars, i) then 0.005 else 0.0) + (if SkewedAt(s, cfg, bars, i) then 0.01 else 0.0))
  {
    RunAnchored(s, cfg, bars, i);
    EntrySlipSize(cfg, i, After(s, cfg, bars, i));
    CloseSlipSize(s, cfg, bars, i, After(s, cfg, bars, i));
  }

  /** The gap at bar `k` is the sum of the slips so far, which is within their bound. */
  ghost predicate Accounted(s: Strategy, cfg: Config, bars: seq<Bar>, k: nat)
    requires k <= |bars|
  {
    && Gap(cfg, After(s, cfg, bars, k)) == SlipSum(s, cfg, bars, k)
    && Within(SlipSum(s, cfg, bars, k), SlipBound(s, cfg, bars, k))
  }

  lemma AccountedNext(s: Strategy, cfg: Config, bars: seq<Bar>, i: nat, next: nat)
    requires Warmup(cfg) <= i < next <= |bars| && next == i + 1 && Accounted(s, cfg, bars, i)
    ensures Accounted(s, cfg, bars, next)
  {
    NextGap(s, cfg, bars, i, next);
    SlipAtBounded(s, cfg, bars, i);
  }

  lemma {:induction false} RunAccounted(s: Strategy, cfg: Config, bars: seq<Bar>, k: nat)
    requires k <= |bars|
    ensures Accounted(s, cfg, bars, k)
    decreases k
  {
    if k <= Warmup(cfg) {
      BalancedAtStart(s, cfg, bars, k);
    } else {
      RunAccounted(s, cfg, bars, k - 1);
      AccountedNext(s, cfg, bars, k - 1, k);
    }
  }

  /** At every bar the gap is the signed sum of the slips so far, so that the account balances there
      exactly when they cancel. */
  lemma GapIsSlipSum(s: Strategy, cfg: Config, bars: seq<Bar>, k: nat)
    requires k <= |bars|
    ensures Gap(cfg, After(s, cfg, bars, k)) == SlipSum(s, cfg, bars, k)
    ensures BalancedAt(s, cfg, bars, k) <==> SlipSum(s, cfg, bars, k) == 0.0
  {
    RunAccounted(s, cfg, bars, k);
  }

  /** Whatever the rounding does, capital and ledger part by at most half a cent for every off-cent
      entry and a cent for every skewed closing. */
  lemma GapBounded(s: Strategy, cfg: Config, bars: seq<Bar>, k: nat)
    requires k <= |bars|
    ensures Within(Gap(cfg, After(s, cfg, bars, k)), SlipBound(s, cfg, bars, k))
  {
    RunAccounted(s, cfg, bars, k);
  }

  // ---------------------------------------------------------------- a skewed run

  const SKEW_CONFIG := Config(0.01, 1, 20, 1, 0.0, 0.0, 0.0, 40, 30, 0, 0, 0.005, 1.0, false, false)

  ghost const SKEW_STRATEGY := Strategy(
    _ => Some(Verdict(0, "BUY", Call, Some(1.0), "", 0, 0)),
    (_, sl, tp) => (sl, tp),
    (_, _, _, _, _) => OptionSpec(0.0, 0.0, 0.0, 0),
    (_, _, _, _) => OptionPnl(0.0, 0.0, 0.0, 0.0, 0.0))

  /** Twenty-two bars at 1 that reach up to 2. */
  function SkewBars(): (bars: seq<Bar>)
    ensures |bars| == 22 && forall i :: 0 <= i < 22 ==> bars[i] == Bar(1.0, 2.0, 1.0, 1.0)
  {
    seq(22, _ => Bar(1.0, 2.0, 1.0, 1.0))
  }

  lemma SkewedPosition(p: Pending)
    requires p == SkewOrder()
    ensures Opened(SKEW_STRATEGY, SKEW_CONFIG, p, 21)
         == Position(Bracket(Call, 0.0, 1.005, 21, 40), 1.0, 1, 0.0, None, 0, 0, "NEUTRAL")
  {
    WholeIsFixed(0);
    WholeIsFixed(10000);
    WholeIsFixed(10050);
  }

  /** One lot bought at 1 and closed at 1.005 without a fee, on a capital of one cent: the half cent
      makes the capital two cents, while the journal's rounded result leaves it at one. */
  lemma HalfCentTradeSkewsCapital()
    ensures var st := After(SKEW_STRATEGY, SKEW_CONFIG, SkewBars(), 22);
            OnGrid(SKEW_CONFIG) && st.capital == 0.02 && Ledger(SKEW_CONFIG, st) == 0.01
  {
    var s, cfg, bars := SKEW_STRATEGY, SKEW_CONFIG, SkewBars();
    var order := SkewOrder();
    SkewedOrder();
    SkewedPosition(order);
    var waiting := After(s, cfg, bars, 21);
    var entered := EnterDue(s, cfg, 21, waiting);
    SkewedEntry(waiting);
    var fill := Fill(1.005, TakeProfit);
    SkewedClosing(entered, fill);
    AfterNext(s, cfg, bars, 21);
  }

  function SkewOrder(): Pending {
    Pending(21, Call, 1.0, 1.0, 0.005, 1.0, 0, 0, "NEUTRAL")
  }

  lemma SkewedOrder()
    ensures After(SKEW_STRATEGY, SKEW_CONFIG, SkewBars(), 21)
         == Initial(SKEW_CONFIG).(equity := [0.01], pending := Some(SkewOrder()))
  {
    assert Order(SKEW_STRATEGY, SKEW_CONFIG, SkewBars(), 20) == Some(SkewOrder());
    assert After(SKEW_STRATEGY, SKEW_CONFIG, SkewBars(), 20) == Initial(SKEW_CONFIG);
    AfterNext(SKEW_STRATEGY, SKEW_CONFIG, SkewBars(), 20);
  }

  lemma SkewedEntry(waiting: State)
    requires waiting == Initial(SKEW_CONFIG).(equity := [0.01], pending := Some(SkewOrder()))
    requires Opened(SKEW_STRATEGY, SKEW_CONFIG, SkewOrder(), 21)
          == Position(Bracket(Call, 0.0, 1.005, 21, 40), 1.0, 1, 0.0, None, 0, 0, "NEUTRAL")
    ensures var entered := EnterDue(SKEW_STRATEGY, SKEW_CONFIG, 21, waiting);
            && entered.capital == 0.01 && entered.journal == []
            && entered.position == Some(Position(Bracket(Call, 0.0, 1.005, 21, 40), 1.0, 1, 0.0, None, 0, 0, "NEUTRAL"))
            && ExitOf(entered, SkewBars()[21], 21) == Some(Fill(1.005, TakeProfit))
  {
    HalfCentTies();
    assert Fee(SKEW_CONFIG) == 0.0;
  }

  lemma SkewedClosing(st: State, fill: Fill)
    requires st.position == Some(Position(Bracket(Call, 0.0, 1.005, 21, 40), 1.0, 1, 0.0, None, 0, 0, "NEUTRAL"))
    requires st.journal == [] && st.capital == 0.01 && fill == Fill(1.005, TakeProfit)
    ensures var closed := Closed(SKEW_STRATEGY, SKEW_CONFIG, 21, st, fill);
            OnGrid(SKEW_CONFIG) && closed.capital == 0.02 && Ledger(SKEW_CONFIG, closed) == 0.01
  {
    var closed := Closed(SKEW_STRATEGY, SKEW_CONFIG, 21, st, fill);
    assert Settlement(SKEW_STRATEGY, SKEW_CONFIG, st.position.value, 1.005, TakeProfit).net == 0.005;
    HalfCentTies();
    WholeIsWhole(0);
    WholeIsWhole(1);
    assert closed.journal[..0] == [];
    assert NetTotal(closed.journal) == 0.0 + Round2(0.005);
    assert Fee(SKEW_CONFIG) == 0.0;
  }
}
