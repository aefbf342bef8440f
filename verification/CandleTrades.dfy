/** The trade list of the candle engine as a recursion over trades instead of bars. */
module CandleTrades {
  import opened Wrappers
  import opened ExitRules
  import opened CandleModel

  ghost predicate Fires(s: Strategy, cfg: Config, bars: seq<Bar>, i: nat)
    requires i < |bars|
  {
    Order(s, cfg, bars, i).Some?
  }

  /** The order of bar `i` survives until it is due: with a latency of two bars or more a later signal overwrites it. */
  ghost predicate Settles(s: Strategy, cfg: Config, bars: seq<Bar>, i: nat)
    requires i < |bars|
  {
    Fires(s, cfg, bars, i) && forall m :: i < m < i + Latency(cfg) && m < |bars| ==> !Fires(s, cfg, bars, m)
  }

  ghost function NextOrder(s: Strategy, cfg: Config, bars: seq<Bar>, from: nat): (i: nat)
    requires from <= |bars|
    ensures from <= i <= |bars|
    ensures forall m :: from <= m < i ==> !Settles(s, cfg, bars, m)
    ensures i < |bars| ==> Settles(s, cfg, bars, i)
    decreases |bars| - from
  {
    if from == |bars| || Settles(s, cfg, bars, from) then from else NextOrder(s, cfg, bars, from + 1)
  }

  /** The first bar after an exit at `j` that may signal again. */
  function Resume(cfg: Config, j: nat): nat {
    if cfg.cooldownBars > 1 then j + cfg.cooldownBars else j + 1
  }

  /** It is the next bar or the first one after the cooldown, whichever is later. */
  lemma ResumeIsLater(cfg: Config, j: nat)
    ensures Resume(cfg, j) > j && Resume(cfg, j) >= j + cfg.cooldownBars && Resume(cfg, j) in {j + 1, j + cfg.cooldownBars}
  {
  }

  /** The trades entered from bar `from` on: wait for an order that settles, open it when due,
      leave on the first touch, wait out the cooldown, and again. */
  ghost function Trades(s: Strategy, cfg: Config, bars: seq<Bar>, from: nat): seq<Row>
    decreases |bars| + 1 - from, 0
  {
    if Latency(cfg) == 0 || from > |bars| then []
    else
      var i := NextOrder(s, cfg, bars, from);
      if i == |bars| then []
      else
        var order := Order(s, cfg, bars, i).value;
        TradesHolding(s, cfg, bars, Opened(s, cfg, order, order.enterOn), order.enterOn)
  }

  /** The same with a position still open before bar `k`. */
  ghost function TradesHolding(s: Strategy, cfg: Config, bars: seq<Bar>, pos: Position, k: nat): seq<Row>
    requires k <= |bars|
    decreases |bars| + 1 - k, 1
  {
    var j := pos.bracket.FirstTouch(bars, k);
    if j == |bars| then []
    else [RowOf(s, cfg, pos, pos.bracket.ExitAt(bars[j], j).value, j)] + Trades(s, cfg, bars, Resume(cfg, j))
  }

  /** What the loop's variables before bar `k` say about orders: a pending one is the last signal and not overdue. */
  ghost predicate Coherent(s: Strategy, cfg: Config, bars: seq<Bar>, k: nat, st: State)
    requires k <= |bars| && Latency(cfg) > 0
  {
    st.pending.Some? ==>
      var i := st.pending.value.enterOn - Latency(cfg);
      && st.position.None?
      && 0 <= i < k <= i + Latency(cfg) < |bars|
      && st.cooldownUntil <= i
      && st.pending == Order(s, cfg, bars, i)
      && forall m :: i < m < k ==> !Fires(s, cfg, bars, m)
  }

  /** Without a position, the bar the coming trades are counted from. */
  ghost function Anchor(cfg: Config, k: nat, st: State): nat {
    if st.pending.Some? && st.pending.value.enterOn >= Latency(cfg) then st.pending.value.enterOn - Latency(cfg)
    else if st.cooldownUntil > k then st.cooldownUntil else k
  }

  /** The trades still to come. */
  ghost function Remaining(s: Strategy, cfg: Config, bars: seq<Bar>, k: nat, st: State): seq<Row>
    requires k <= |bars|
  {
    if st.position.Some? then TradesHolding(s, cfg, bars, st.position.value, k)
    else Trades(s, cfg, bars, Anchor(cfg, k, st))
  }

  lemma {:induction false} NextOrderSkips(s: Strategy, cfg: Config, bars: seq<Bar>, from: nat, k: nat)
    requires from <= k <= |bars|
    requires forall m :: from <= m < k ==> !Settles(s, cfg, bars, m)
    ensures NextOrder(s, cfg, bars, from) == NextOrder(s, cfg, bars, k)
    decreases k - from
  {
    if from < k {
      NextOrderSkips(s, cfg, bars, from + 1, k);
    }
  }

  lemma ExitingStep(s: Strategy, cfg: Config, bars: seq<Bar>, k: nat, st: State)
    requires k < |bars| && Latency(cfg) > 0 && st.position.Some? && st.pending.None?
    requires st.position.value.bracket.Qualifies(bars[k], k)
    ensures var next := Step(s, cfg, bars, k, st);
            && next.position.None? && next.pending.None?
            && next.journal + Remaining(s, cfg, bars, k + 1, next)
               == st.journal + TradesHolding(s, cfg, bars, st.position.value, k)
  {
    var pos := st.position.value;
    var next := Step(s, cfg, bars, k, st);
    var row := RowOf(s, cfg, pos, pos.bracket.ExitAt(bars[k], k).value, k);
    assert next.journal == st.journal + [row];
    assert Anchor(cfg, k + 1, next) == Resume(cfg, k);
    var rest := Trades(s, cfg, bars, Resume(cfg, k));
    assert TradesHolding(s, cfg, bars, pos, k) == [row] + rest;
    assert (st.journal + [row]) + rest == st.journal + ([row] + rest);
  }

  lemma StayingStep(s: Strategy, cfg: Config, bars: seq<Bar>, k: nat, st: State)
    requires k < |bars| && Latency(cfg) > 0 && st.position.Some? && st.pending.None?
    requires !st.position.value.bracket.Qualifies(bars[k], k)
    ensures var next := Step(s, cfg, bars, k, st);
            && next.position == st.position && next.pending.None? && next.journal == st.journal
            && Remaining(s, cfg, bars, k + 1, next) == TradesHolding(s, cfg, bars, st.position.value, k)
  {
    FirstTouchSkip(st.position.value.bracket, bars, k);
  }

  lemma HoldingStep(s: Strategy, cfg: Config, bars: seq<Bar>, k: nat, st: State)
    requires k < |bars| && Latency(cfg) > 0 && st.position.Some? && st.pending.None?
    ensures var next := Step(s, cfg, bars, k, st);
            && next.pending.None?
            && next.journal + Remaining(s, cfg, bars, k + 1, next)
               == st.journal + TradesHolding(s, cfg, bars, st.position.value, k)
  {
    if st.position.value.bracket.Qualifies(bars[k], k) {
      ExitingStep(s, cfg, bars, k, st);
    } else {
      StayingStep(s, cfg, bars, k, st);
    }
  }

  lemma IdleShape(s: Strategy, cfg: Config, bars: seq<Bar>, k: nat, st: State)
    requires k < |bars| && Latency(cfg) > 0 && st.position.None? && st.pending.None?
    ensures var next := Step(s, cfg, bars, k, st);
            && next.position.None? && next.journal == st.journal
            && Coherent(s, cfg, bars, k + 1, next)
            && Anchor(cfg, k + 1, next)
               == if k >= st.cooldownUntil && !Fires(s, cfg, bars, k) then k + 1 else Anchor(cfg, k, st)
  {
  }

  lemma NoOrderHere(s: Strategy, cfg: Config, bars: seq<Bar>, k: nat)
    requires k < |bars| && !Fires(s, cfg, bars, k)
    ensures Trades(s, cfg, bars, k) == Trades(s, cfg, bars, k + 1)
  {
    NextOrderSkips(s, cfg, bars, k, k + 1);
  }

  lemma IdleStep(s: Strategy, cfg: Config, bars: seq<Bar>, k: nat, st: State)
    requires k < |bars| && Latency(cfg) > 0 && st.position.None? && st.pending.None?
    ensures var next := Step(s, cfg, bars, k, st);
            && Coherent(s, cfg, bars, k + 1, next)
            && Remaining(s, cfg, bars, k + 1, next) == Remaining(s, cfg, bars, k, st)
            && next.journal == st.journal
  {
    IdleShape(s, cfg, bars, k, st);
    if k >= st.cooldownUntil && !Fires(s, cfg, bars, k) {
      NoOrderHere(s, cfg, bars, k);
    }
  }

  /** An order overwritten before it is due contributes no trade. */
  lemma OverwrittenOrder(s: Strategy, cfg: Config, bars: seq<Bar>, i: nat, k: nat)
    requires i < k < |bars| && k < i + Latency(cfg)
    requires Fires(s, cfg, bars, k) && forall m :: i < m < k ==> !Fires(s, cfg, bars, m)
    ensures Trades(s, cfg, bars, i) == Trades(s, cfg, bars, k)
  {
    NextOrderSkips(s, cfg, bars, i, k);
  }

  lemma WaitingShape(s: Strategy, cfg: Config, bars: seq<Bar>, k: nat, st: State)
    requires k < |bars| && Latency(cfg) > 0 && Coherent(s, cfg, bars, k, st)
    requires st.pending.Some? && k < st.pending.value.enterOn
    ensures var next := Step(s, cfg, bars, k, st);
            && next.position.None?
            && next.journal == st.journal
            && Coherent(s, cfg, bars, k + 1, next)
            && Anchor(cfg, k + 1, next)
               == if Fires(s, cfg, bars, k) then k else Anchor(cfg, k, st)
  {
  }

  lemma WaitingStep(s: Strategy, cfg: Config, bars: seq<Bar>, k: nat, st: State)
    requires k < |bars| && Latency(cfg) > 0 && Coherent(s, cfg, bars, k, st)
    requires st.pending.Some? && k < st.pending.value.enterOn
    ensures var next := Step(s, cfg, bars, k, st);
            && Coherent(s, cfg, bars, k + 1, next)
            && Remaining(s, cfg, bars, k + 1, next) == Remaining(s, cfg, bars, k, st)
            && next.journal == st.journal
  {
    WaitingShape(s, cfg, bars, k, st);
    if Fires(s, cfg, bars, k) {
      OverwrittenOrder(s, cfg, bars, Anchor(cfg, k, st), k);
    }
  }

  /** An order not overwritten before bar `k` is the next to settle. */
  lemma OrderSettles(s: Strategy, cfg: Config, bars: seq<Bar>, i: nat)
    requires i < |bars| && Fires(s, cfg, bars, i)
    requires forall m :: i < m < i + Latency(cfg) && m < |bars| ==> !Fires(s, cfg, bars, m)
    ensures NextOrder(s, cfg, bars, i) == i
  {
    assert Settles(s, cfg, bars, i);
  }

  lemma TradesFromOrder(s: Strategy, cfg: Config, bars: seq<Bar>, i: nat)
    requires Latency(cfg) > 0 && i < |bars| && NextOrder(s, cfg, bars, i) == i
    ensures var order := Order(s, cfg, bars, i).value;
            Trades(s, cfg, bars, i) == TradesHolding(s, cfg, bars, Opened(s, cfg, order, order.enterOn), order.enterOn)
  {
  }

  /** The order that survived until bar `k` is the first trade to come. */
  lemma SettledOrder(s: Strategy, cfg: Config, bars: seq<Bar>, k: nat, order: Pending)
    requires Latency(cfg) > 0 && Latency(cfg) <= k < |bars|
    requires Order(s, cfg, bars, k - Latency(cfg)) == Some(order)
    requires forall m :: k - Latency(cfg) < m < k ==> !Fires(s, cfg, bars, m)
    ensures Trades(s, cfg, bars, k - Latency(cfg)) == TradesHolding(s, cfg, bars, Opened(s, cfg, order, k), k)
  {
    OrderSettles(s, cfg, bars, k - Latency(cfg));
    TradesFromOrder(s, cfg, bars, k - Latency(cfg));
  }

  lemma DueShape(s: Strategy, cfg: Config, bars: seq<Bar>, k: nat, st: State)
    requires k < |bars| && st.pending.Some? && k == st.pending.value.enterOn
    ensures var entered := EnterDue(s, cfg, k, st);
            && entered.position == Some(Opened(s, cfg, st.pending.value, k))
            && entered.pending.None? && entered.journal == st.journal
            && Step(s, cfg, bars, k, st) == Step(s, cfg, bars, k, entered)
  {
  }

  lemma DueRemaining(s: Strategy, cfg: Config, bars: seq<Bar>, k: nat, st: State)
    requires k < |bars| && Latency(cfg) > 0 && Coherent(s, cfg, bars, k, st)
    requires st.pending.Some? && k == st.pending.value.enterOn
    ensures Remaining(s, cfg, bars, k, st) == TradesHolding(s, cfg, bars, Opened(s, cfg, st.pending.value, k), k)
  {
    assert Anchor(cfg, k, st) == k - Latency(cfg);
    SettledOrder(s, cfg, bars, k, st.pending.value);
  }

  lemma DueStep(s: Strategy, cfg: Config, bars: seq<Bar>, k: nat, st: State)
    requires k < |bars| && Latency(cfg) > 0 && Coherent(s, cfg, bars, k, st)
    requires st.pending.Some? && k == st.pending.value.enterOn
    ensures var next := Step(s, cfg, bars, k, st);
            && next.pending.None?
            && next.journal + Remaining(s, cfg, bars, k + 1, next) == st.journal + Remaining(s, cfg, bars, k, st)
  {
    DueShape(s, cfg, bars, k, st);
    DueRemaining(s, cfg, bars, k, st);
    HoldingStep(s, cfg, bars, k, EnterDue(s, cfg, k, st));
  }

  /** One bar moves at most one trade from those to come into the journal. */
  lemma StepRefines(s: Strategy, cfg: Config, bars: seq<Bar>, k: nat, st: State)
    requires k < |bars| && Latency(cfg) > 0 && Coherent(s, cfg, bars, k, st)
    ensures var next := Step(s, cfg, bars, k, st);
            && Coherent(s, cfg, bars, k + 1, next)
            && next.journal + Remaining(s, cfg, bars, k + 1, next) == st.journal + Remaining(s, cfg, bars, k, st)
  {
    if st.position.Some? {
      HoldingStep(s, cfg, bars, k, st);
    } else if st.pending.None? {
      IdleStep(s, cfg, bars, k, st);
    } else if k < st.pending.value.enterOn {
      WaitingStep(s, cfg, bars, k, st);
    } else {
      DueStep(s, cfg, bars, k, st);
    }
  }

  /** Journal and trades to come together are always the same list. */
  ghost predicate Refines(s: Strategy, cfg: Config, bars: seq<Bar>, k: nat, st: State)
    requires k <= |bars| && Latency(cfg) > 0
  {
    && Coherent(s, cfg, bars, k, st)
    && st.journal + Remaining(s, cfg, bars, k, st) == Trades(s, cfg, bars, Warmup(cfg))
  }

  lemma StepKeepsRefines(s: Strategy, cfg: Config, bars: seq<Bar>, k: nat, st: State)
    requires k < |bars| && Latency(cfg) > 0 && Refines(s, cfg, bars, k, st)
    ensures Refines(s, cfg, bars, k + 1, Step(s, cfg, bars, k, st))
  {
    StepRefines(s, cfg, bars, k, st);
  }

  lemma RunStarts(s: Strategy, cfg: Config, bars: seq<Bar>)
    requires Warmup(cfg) <= |bars| && Latency(cfg) > 0
    ensures Refines(s, cfg, bars, Warmup(cfg), Initial(cfg))
  {
    assert Anchor(cfg, Warmup(cfg), Initial(cfg)) == Warmup(cfg);
  }

  lemma {:induction false} RunRefines(s: Strategy, cfg: Config, bars: seq<Bar>, k: nat)
    requires Warmup(cfg) <= k <= |bars| && Latency(cfg) > 0
    ensures Refines(s, cfg, bars, k, After(s, cfg, bars, k))
    decreases k
  {
    if k == Warmup(cfg) {
      RunStarts(s, cfg, bars);
    } else {
      RunRefines(s, cfg, bars, k - 1);
      NextRefines(s, cfg, bars, k - 1, k);
    }
  }

  lemma NextRefines(s: Strategy, cfg: Config, bars: seq<Bar>, i: nat, next: nat)
    requires Warmup(cfg) <= i < next <= |bars| && next == i + 1 && Latency(cfg) > 0
    requires Refines(s, cfg, bars, i, After(s, cfg, bars, i))
    ensures Refines(s, cfg, bars, next, After(s, cfg, bars, next))
  {
    StepKeepsRefines(s, cfg, bars, i, After(s, cfg, bars, i));
    AfterNext(s, cfg, bars, i);
  }

  /** With a latency of zero the order is due on a bar that is already over: nothing is ever entered. */
  lemma {:induction false} ZeroLatencyNeverEnters(s: Strategy, cfg: Config, bars: seq<Bar>, k: nat)
    requires k <= |bars| && Latency(cfg) == 0
    ensures var st := After(s, cfg, bars, k);
            && st.journal == [] && st.position.None? && st.capital == cfg.initialCapital
            && (st.pending.Some? ==> st.pending.value.enterOn < k)
    decreases k
  {
    if k > Warmup(cfg) {
      ZeroLatencyNeverEnters(s, cfg, bars, k - 1);
    }
  }

  /** The bar loop computes exactly the trades of the recursion, for every latency. */
  lemma JournalIsTrades(s: Strategy, cfg: Config, bars: seq<Bar>)
    ensures After(s, cfg, bars, |bars|).journal == Trades(s, cfg, bars, Warmup(cfg))
  {
    if Latency(cfg) == 0 {
      ZeroLatencyNeverEnters(s, cfg, bars, |bars|);
    } else if |bars| >= Warmup(cfg) {
      RunRefines(s, cfg, bars, |bars|);
      assert After(s, cfg, bars, |bars|).pending.None?;
    }
  }

  /** One row: entered after `from` and the latency, left within the series and the holding limit. */
  ghost predicate RowInTime(cfg: Config, row: Row, from: nat, n: nat) {
    && from + Latency(cfg) <= row.entryIdx <= row.exitIdx < n
    && row.barsHeld == row.exitIdx - row.entryIdx
    && row.barsHeld <= (if cfg.maxBarsInTrade > 0 then cfg.maxBarsInTrade else 0)
  }

  /** Trades are disjoint and leave the cooldown and the latency between an exit and the next entry. */
  ghost predicate Scheduled(cfg: Config, rows: seq<Row>, from: nat, n: nat) {
    && (forall r :: 0 <= r < |rows| ==> RowInTime(cfg, rows[r], from, n))
    && (forall r :: 0 < r < |rows| ==>
          rows[r].entryIdx >= rows[r - 1].exitIdx + (if cfg.cooldownBars > 1 then cfg.cooldownBars else 1) + Latency(cfg))
  }

  lemma HeldRowInTime(s: Strategy, cfg: Config, bars: seq<Bar>, order: Pending, from: nat, e: nat, fill: Fill)
    requires from + Latency(cfg) <= e <= |bars|
    requires Opened(s, cfg, order, e).bracket.FirstTouch(bars, e) < |bars|
    ensures var pos := Opened(s, cfg, order, e);
            RowInTime(cfg, RowOf(s, cfg, pos, fill, pos.bracket.FirstTouch(bars, e)), from, |bars|)
  {
    HeldWithinLimit(Opened(s, cfg, order, e).bracket, bars, e);
  }

  lemma ScheduledCons(cfg: Config, row: Row, rest: seq<Row>, from: nat, n: nat)
    requires RowInTime(cfg, row, from, n) && Scheduled(cfg, rest, Resume(cfg, row.exitIdx), n)
    ensures Scheduled(cfg, [row] + rest, from, n)
  {
    var rows := [row] + rest;
    forall r | 0 <= r < |rows| ensures RowInTime(cfg, rows[r], from, n) {
      assert r > 0 ==> rows[r] == rest[r - 1];
    }
    forall r | 0 < r < |rows|
      ensures rows[r].entryIdx >= rows[r - 1].exitIdx + (if cfg.cooldownBars > 1 then cfg.cooldownBars else 1) + Latency(cfg)
    {
      assert rows[r] == rest[r - 1] && RowInTime(cfg, rest[r - 1], Resume(cfg, row.exitIdx), n);
      assert r > 1 ==> rows[r - 1] == rest[r - 2];
    }
  }

  lemma {:induction false} TradesAreScheduled(s: Strategy, cfg: Config, bars: seq<Bar>, from: nat)
    ensures Scheduled(cfg, Trades(s, cfg, bars, from), from, |bars|)
    decreases |bars| + 1 - from
  {
    if Latency(cfg) > 0 && from <= |bars| && NextOrder(s, cfg, bars, from) < |bars| {
      var order := Order(s, cfg, bars, NextOrder(s, cfg, bars, from)).value;
      var pos := Opened(s, cfg, order, order.enterOn);
      var j := pos.bracket.FirstTouch(bars, order.enterOn);
      if j < |bars| {
        var fill := pos.bracket.ExitAt(bars[j], j).value;
        HeldRowInTime(s, cfg, bars, order, from, order.enterOn, fill);
        TradesAreScheduled(s, cfg, bars, Resume(cfg, j));
        ScheduledCons(cfg, RowOf(s, cfg, pos, fill, j), Trades(s, cfg, bars, Resume(cfg, j)), from, |bars|);
      }
    }
  }

  lemma JournalIsScheduled(s: Strategy, cfg: Config, bars: seq<Bar>)
    ensures Scheduled(cfg, After(s, cfg, bars, |bars|).journal, Warmup(cfg), |bars|)
  {
    JournalIsTrades(s, cfg, bars);
    TradesAreScheduled(s, cfg, bars, Warmup(cfg));
  }

  /** With the default latency of one bar a pending order is due on the very next bar. */
  lemma PendingIsDueNext(s: Strategy, cfg: Config, bars: seq<Bar>, k: nat)
    requires k <= |bars| && cfg.latencyBars == 1
    ensures var st := After(s, cfg, bars, k); st.pending.Some? ==> st.pending.value.enterOn == k < |bars|
  {
    if k > Warmup(cfg) {
      RunRefines(s, cfg, bars, k);
    }
  }
}
