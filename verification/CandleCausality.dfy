/** Which latencies keep the candle engine from looking ahead. */
module CandleCausality {
  import opened Wrappers
  import opened ExitRules
  import opened CandleModel
  import opened CandleTrades

  lemma SameOrder(s: Strategy, cfg: Config, b1: seq<Bar>, b2: seq<Bar>, k: nat, j: nat)
    requires AgreeUpTo(b1, b2, k) && j < k && cfg.latencyBars <= 1
    ensures Order(s, cfg, b1, j) == Order(s, cfg, b2, j)
  {
    AgreeBelow(b1, b2, k, j);
    AgreeBelow(b1, b2, k, j + Latency(cfg));
  }

  lemma SameStepBelow(s: Strategy, cfg: Config, b1: seq<Bar>, b2: seq<Bar>, k: nat, j: nat, st: State)
    requires AgreeUpTo(b1, b2, k) && j < k && cfg.latencyBars <= 1
    ensures Step(s, cfg, b1, j, st) == Step(s, cfg, b2, j, st)
  {
    SameOrder(s, cfg, b1, b2, k, j);
    AgreeBelow(b1, b2, k, j);
  }

  /** Before bar k both runs are in the same state, although a pending order has already read the open of bar k. */
  lemma {:induction false} SameBefore(s: Strategy, cfg: Config, b1: seq<Bar>, b2: seq<Bar>, k: nat, j: nat)
    requires AgreeUpTo(b1, b2, k) && cfg.latencyBars <= 1 && j <= k
    ensures SameState(s, cfg, b1, b2, j)
    decreases j
  {
    if j > Warmup(cfg) {
      SameBefore(s, cfg, b1, b2, k, j - 1);
      SameNext(s, cfg, b1, b2, k, j - 1, j);
    } else {
      SameStart(s, cfg, b1, b2, j);
    }
  }

  ghost predicate SameState(s: Strategy, cfg: Config, b1: seq<Bar>, b2: seq<Bar>, j: nat)
    requires j <= |b1| && j <= |b2|
  {
    After(s, cfg, b1, j) == After(s, cfg, b2, j)
  }

  lemma SameStart(s: Strategy, cfg: Config, b1: seq<Bar>, b2: seq<Bar>, j: nat)
    requires j <= |b1| && j <= |b2| && j <= Warmup(cfg)
    ensures SameState(s, cfg, b1, b2, j)
  {
  }

  lemma SameNext(s: Strategy, cfg: Config, b1: seq<Bar>, b2: seq<Bar>, k: nat, j: nat, next: nat)
    requires AgreeUpTo(b1, b2, k) && cfg.latencyBars <= 1 && Warmup(cfg) <= j < k && next == j + 1
    requires SameState(s, cfg, b1, b2, j)
    ensures SameState(s, cfg, b1, b2, next)
  {
    SameStepBelow(s, cfg, b1, b2, k, j, After(s, cfg, b1, j));
    AfterNext(s, cfg, b1, j);
    AfterNext(s, cfg, b2, j);
  }

  lemma SameStep(s: Strategy, cfg: Config, b1: seq<Bar>, b2: seq<Bar>, k: nat, st: State)
    requires AgreeUpTo(b1, b2, k)
    ensures Step(s, cfg, b1, k, st).(pending := None) == Step(s, cfg, b2, k, st).(pending := None)
  {
    AgreeBelow(b1, b2, k, k);
  }

  /** After bar k the runs can only differ in the order placed for a bar that is not there yet. */
  lemma NoLookAhead(s: Strategy, cfg: Config, b1: seq<Bar>, b2: seq<Bar>, k: nat)
    requires AgreeUpTo(b1, b2, k) && cfg.latencyBars <= 1
    ensures After(s, cfg, b1, k + 1).(pending := None) == After(s, cfg, b2, k + 1).(pending := None)
  {
    if k + 1 > Warmup(cfg) {
      SameBefore(s, cfg, b1, b2, k, k);
      SameStep(s, cfg, b1, b2, k, After(s, cfg, b1, k));
    }
  }

  /** The record up to bar k depends on the bars up to k alone, whatever the signal. */
  ghost predicate Causal(cfg: Config) {
    forall s: Strategy, b1: seq<Bar>, b2: seq<Bar>, k: nat :: AgreeUpTo(b1, b2, k) ==> SameRecord(s, cfg, b1, b2, k)
  }

  /** Equal equity curves and equal closed trades after bar k. */
  ghost predicate SameRecord(s: Strategy, cfg: Config, b1: seq<Bar>, b2: seq<Bar>, k: nat)
    requires k < |b1| && k < |b2|
  {
    && After(s, cfg, b1, k + 1).equity == After(s, cfg, b2, k + 1).equity
    && After(s, cfg, b1, k + 1).journal == After(s, cfg, b2, k + 1).journal
  }

  lemma {:induction false} RowsArePast(s: Strategy, cfg: Config, bars: seq<Bar>, k: nat)
    requires k <= |bars|
    ensures forall r :: 0 <= r < |After(s, cfg, bars, k).journal| ==> After(s, cfg, bars, k).journal[r].exitIdx < k
    decreases k
  {
    if k > Warmup(cfg) {
      RowsArePast(s, cfg, bars, k - 1);
    }
  }

  /** A signal on every bar. */
  ghost function Eager(cfg: Config): Strategy {
    Strategy(_ => Some(Verdict(cfg.aiThreshold + cfg.scoreGap, "BUY", Call, Some(1.0), "", 0, 0)),
             (_, sl, tp) => (sl, tp),
             (_, _, _, _, _) => OptionSpec(0.0, 0.0, 0.0, 0),
             (_, _, _, _) => OptionPnl(0.0, 0.0, 0.0, 0.0, 0.0))
  }

  ghost function EagerOrder(cfg: Config, enterOn: int): Pending {
    Pending(enterOn, Call, 100.0, 1.0, cfg.tpAtrMult, cfg.slAtrMult, 0, 0, "NEUTRAL")
  }

  /** `n` equal bars whose low touches the stop of an eager order. */
  ghost function StoppingBars(cfg: Config, n: nat): (bars: seq<Bar>)
    ensures |bars| == n
  {
    var stop := Opened(Eager(cfg), cfg, EagerOrder(cfg, 0), 0).bracket.stop;
    seq(n, _ => Bar(100.0, 100.0, stop, 100.0))
  }

  lemma EagerFires(cfg: Config, n: nat, i: nat)
    requires i < n
    ensures Order(Eager(cfg), cfg, StoppingBars(cfg, n), i)
         == if i + Latency(cfg) < n then Some(EagerOrder(cfg, i + Latency(cfg))) else None
  {
  }

  lemma EagerIsStopped(cfg: Config, n: nat, e: nat)
    requires e < n
    ensures Opened(Eager(cfg), cfg, EagerOrder(cfg, e), e).bracket.FirstTouch(StoppingBars(cfg, n), e) == e
  {
    var b := Opened(Eager(cfg), cfg, EagerOrder(cfg, e), e).bracket;
    assert b.stop == Opened(Eager(cfg), cfg, EagerOrder(cfg, 0), 0).bracket.stop;
    assert b.StopTouched(StoppingBars(cfg, n)[e]);
  }

  /** When only the orders of the bars before `stop` can still fall due, the last of them is the one that is entered. */
  lemma EagerEntersLast(cfg: Config, n: nat, from: nat)
    requires cfg.latencyBars >= 2 && from + Latency(cfg) + 1 <= n <= from + Latency(cfg) + 2
    ensures NextOrder(Eager(cfg), cfg, StoppingBars(cfg, n), from) == n - Latency(cfg) - 1
  {
    var s, bars, last := Eager(cfg), StoppingBars(cfg, n), n - Latency(cfg) - 1;
    forall i | 0 <= i < n ensures Fires(s, cfg, bars, i) <==> i <= last {
      EagerFires(cfg, n, i);
    }
    assert Settles(s, cfg, bars, last);
    if from < last {
      assert from < last < from + Latency(cfg) && Fires(s, cfg, bars, last);
      assert !Settles(s, cfg, bars, from);
    }
  }

  /** The first trade from bar `from` on is left on the last bar. */
  ghost predicate LeavesLast(s: Strategy, cfg: Config, bars: seq<Bar>, from: nat) {
    var rows := Trades(s, cfg, bars, from);
    |rows| > 0 && rows[0].exitIdx == |bars| - 1
  }

  lemma EagerTrades(cfg: Config, n: nat, from: nat)
    requires cfg.latencyBars >= 2 && from + Latency(cfg) + 1 <= n <= from + Latency(cfg) + 2
    ensures LeavesLast(Eager(cfg), cfg, StoppingBars(cfg, n), from)
  {
    EagerEntersLast(cfg, n, from);
    EagerFires(cfg, n, n - Latency(cfg) - 1);
    EagerIsStopped(cfg, n, n - 1);
  }

  lemma StoppingBarsAgree(cfg: Config, k: nat)
    ensures AgreeUpTo(StoppingBars(cfg, k + 1), StoppingBars(cfg, k + 2), k)
  {
  }

  lemma HeadOfSum(a: seq<Row>, b: seq<Row>, rows: seq<Row>)
    requires a + b == rows && |rows| > 0
    ensures |a| > 0 ==> a[0] == rows[0]
  {
  }

  /** Nothing is in the journal before the first trade is left. */
  lemma FirstTradeLater(s: Strategy, cfg: Config, bars: seq<Bar>, k: nat, rows: seq<Row>)
    requires Warmup(cfg) <= k <= |bars| && Latency(cfg) > 0 && rows == Trades(s, cfg, bars, Warmup(cfg))
    requires |rows| > 0 && rows[0].exitIdx >= k
    ensures After(s, cfg, bars, k).journal == []
  {
    var st := After(s, cfg, bars, k);
    RunRefines(s, cfg, bars, k);
    HeadOfSum(st.journal, Remaining(s, cfg, bars, k, st), rows);
    RowsArePast(s, cfg, bars, k);
  }

  /** All trades of the series have been left in the end. */
  lemma FirstTradeDone(s: Strategy, cfg: Config, bars: seq<Bar>, k: nat, rows: seq<Row>)
    requires k == |bars| && rows == Trades(s, cfg, bars, Warmup(cfg)) && |rows| > 0
    ensures After(s, cfg, bars, k).journal != []
  {
    JournalIsTrades(s, cfg, bars);
  }

  /** With `n` bars the first eager trade is in the journal. */
  lemma EagerDone(cfg: Config, n: nat)
    requires cfg.latencyBars >= 2 && n == Warmup(cfg) + Latency(cfg) + 1
    ensures After(Eager(cfg), cfg, StoppingBars(cfg, n), n).journal != []
  {
    EagerTrades(cfg, n, Warmup(cfg));
    FirstTradeDone(Eager(cfg), cfg, StoppingBars(cfg, n), n, Trades(Eager(cfg), cfg, StoppingBars(cfg, n), Warmup(cfg)));
  }

  /** With a bar more it is not yet there after as many bars. */
  lemma EagerWaits(cfg: Config, n: nat)
    requires cfg.latencyBars >= 2 && n == Warmup(cfg) + Latency(cfg) + 1
    ensures After(Eager(cfg), cfg, StoppingBars(cfg, n + 1), n).journal == []
  {
    EagerTrades(cfg, n + 1, Warmup(cfg));
    FirstTradeLater(Eager(cfg), cfg, StoppingBars(cfg, n + 1), n,
                    Trades(Eager(cfg), cfg, StoppingBars(cfg, n + 1), Warmup(cfg)));
  }

  lemma JournalsDiffer(s: Strategy, cfg: Config, short: seq<Bar>, long: seq<Bar>, k: nat)
    requires AgreeUpTo(short, long, k)
    requires After(s, cfg, short, k + 1).journal != [] && After(s, cfg, long, k + 1).journal == []
    ensures !Causal(cfg)
  {
    assert !SameRecord(s, cfg, short, long, k);
  }

  /** From two bars on, whether the order of the first bar is entered depends on how long the series
      goes on: a bar more, and a later signal overwrites it before it is due. */
  lemma LongLatencyLooksAhead(cfg: Config)
    requires cfg.latencyBars >= 2
    ensures !Causal(cfg)
  {
    var k := Warmup(cfg) + Latency(cfg);
    EagerDone(cfg, k + 1);
    EagerWaits(cfg, k + 1);
    StoppingBarsAgree(cfg, k);
    JournalsDiffer(Eager(cfg), cfg, StoppingBars(cfg, k + 1), StoppingBars(cfg, k + 2), k);
  }

  /** No look-ahead, whatever the signal and the bars, exactly for a latency of at most one bar. */
  lemma CausalIffLatencyAtMostOne(cfg: Config)
    ensures Causal(cfg) <==> cfg.latencyBars <= 1
  {
    if cfg.latencyBars <= 1 {
      forall s: Strategy, b1: seq<Bar>, b2: seq<Bar>, k: nat | AgreeUpTo(b1, b2, k)
        ensures SameRecord(s, cfg, b1, b2, k)
      {
        NoLookAhead(s, cfg, b1, b2, k);
      }
    } else {
      LongLatencyLooksAhead(cfg);
    }
  }
}
