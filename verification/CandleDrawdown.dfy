/** What the drawdown a candle run reports is worth. */
module CandleDrawdown {
  import opened Wrappers
  import opened Reals
  import opened Rounding
  import opened Benchmark
  import opened ExitRules
  import opened CandleModel
  import opened CandleAccounts

  /** Initial capital followed by the equity curve. */
  function Curve(cfg: Config, st: State): seq<real> {
    [cfg.initialCapital] + st.equity
  }

  ghost predicate Solvent(cfg: Config) {
    cfg.initialCapital > 0.0 && Fee(cfg) >= 0.0
  }

  /** The highest a first entry can round the initial capital to, if that is not in whole cents. */
  function Top(cfg: Config): real {
    Max(cfg.initialCapital, Round2(cfg.initialCapital - Fee(cfg)))
  }

  /** The most an entry can take off the capital. */
  function EntryCost(cfg: Config): real {
    if OnCents(cfg.initialCapital) && OnCents(Fee(cfg)) then Fee(cfg) else Fee(cfg) + 0.005
  }

  /** The most a first entry can add to it. */
  function FirstGain(cfg: Config): real {
    if OnCents(cfg.initialCapital) then 0.0 else 0.005
  }

  lemma TopBounded(cfg: Config)
    requires Solvent(cfg)
    ensures cfg.initialCapital <= Top(cfg) <= cfg.initialCapital + FirstGain(cfg)
  {
    Round2Monotone(cfg.initialCapital - Fee(cfg), cfg.initialCapital);
    Round2OnCents(cfg.initialCapital);
    Round2Near(cfg.initialCapital - Fee(cfg));
  }

  lemma EntryBounded(cfg: Config, st: State)
    requires Solvent(cfg) && Anchored(cfg, st)
    ensures var left := Round2(st.capital - Fee(cfg));
            st.capital - left <= EntryCost(cfg) && left <= Max(st.capital, Top(cfg))
  {
    Round2Near(st.capital - Fee(cfg));
    if OnCents(st.capital) {
      Round2Monotone(st.capital - Fee(cfg), st.capital);
      Round2OnCents(st.capital);
      FeeLeavesCents(st.capital, Fee(cfg));
      Round2OnCents(st.capital - Fee(cfg));
    }
  }

  /** Taking `cost` off a capital deepens its drop by no more than the cost is worth. */
  lemma DropShift(high: real, a: real, b: real, cost: real, base: real)
    requires 0.0 < base <= high && a - b <= cost && 0.0 <= cost
    ensures Drop(high, b) <= Drop(high, a) + cost / base * 100.0
  {
    QuotientDifference(high, a, high);
    QuotientDifference(high, b, high);
    QuotientDifference(a, b, high);
    QuotientMonotone(a - b, cost, high);
    QuotientAntitone(cost, base, high);
  }

  /** Drop in terms of the quotient. */
  lemma DropQuotient(high: real, c: real, q: real)
    requires high > 0.0 && q == c / high
    ensures Drop(high, c) == 100.0 - 100.0 * q && q * high == c
  {
    QuotientDifference(high, c, high);
    QuotientSelf(high);
  }

  /** Measured from the true peak a drop is at most deeper by what the peaks are apart. */
  lemma DropFromTruePeak(tracked: real, actual: real, c: real, gain: real, base: real)
    requires 0.0 < base <= tracked <= actual <= tracked + gain && c <= actual
    ensures Drop(actual, c) <= Drop(tracked, c) + gain / base * 100.0
  {
    var x, y := c / tracked, c / actual;
    DropQuotient(tracked, c, x);
    DropQuotient(actual, c, y);
    QuotientMonotone(c, actual, actual);
    QuotientSelf(actual);
    QuotientApart(x, y, tracked, actual, gain);
    QuotientMonotone(y * (actual - tracked), gain, tracked);
    QuotientAntitone(gain, base, tracked);
    TimesQuotient(x - y, tracked);
  }

  lemma TimesQuotient(x: real, a: real)
    requires a > 0.0
    ensures x * a / a == x
  {
  }

  lemma QuotientApart(x: real, y: real, low: real, high: real, gain: real)
    requires 0.0 < low <= high <= low + gain && x * low == y * high && y <= 1.0
    ensures (x - y) * low == y * (high - low) <= gain
  {
    MulMonotone(y, 1.0, high - low);
  }

  /** Base and top of the account, and what an entry can cost and a first entry gain, in per cent of the base. */
  datatype Scale = Scale(base: real, top: real, cost: real, gain: real)

  function Percent(amount: real, base: real): real
    requires base != 0.0
  {
    amount / base * 100.0
  }

  ghost function ScaleOf(cfg: Config): Scale
    requires cfg.initialCapital > 0.0
  {
    Scale(cfg.initialCapital, Top(cfg), Percent(EntryCost(cfg), cfg.initialCapital), Percent(FirstGain(cfg), cfg.initialCapital))
  }

  /** Two readings of a drawdown: the actual one is deeper by at most one entry and one first gain, and
      on a `level` account not less deep. */
  predicate Sandwich(tracked: real, actual: real, m: Scale, level: bool) {
    (level ==> tracked <= actual) && actual <= tracked + m.cost + m.gain
  }

  /** What is kept about the tracked peak and drawdown, the capital's fall below the tracked peak, and
      peak and drawdown of the curve. */
  predicate Tracks(m: Scale, peak: real, maxDd: real, capital: real, fall: real, held: bool, truePeak: real, actual: real, level: bool) {
    && m.base <= peak <= truePeak <= Max(peak, m.top)
    && Sandwich(maxDd, actual, m, level)
    && capital <= Max(peak, m.top)
    && fall <= maxDd + if held then m.cost else 0.0
  }

  predicate IsScale(m: Scale) {
    0.0 < m.base <= m.top && 0.0 <= m.cost && 0.0 <= m.gain
  }

  /** A closing at `c`: both readings see the point, as drops of `seen` and `drop`. */
  lemma ClosingTracks(m: Scale, peak: real, maxDd: real, capital: real, fall: real, held: bool, truePeak: real, actual: real, level: bool,
                      c: real, seen: real, drop: real, stays: bool)
    requires IsScale(m) && Tracks(m, peak, maxDd, capital, fall, held, truePeak, actual, level)
    requires (stays ==> level && seen <= drop) && drop <= seen + m.gain
    ensures Tracks(m, Max(peak, c), Max(maxDd, seen), c, seen, false, Max(truePeak, c), Max(actual, drop), stays)
  {
  }

  /** A bar without a closing: only the curve sees the point. */
  lemma IdlingTracks(m: Scale, peak: real, maxDd: real, capital: real, fall: real, held: bool, truePeak: real, actual: real, level: bool,
                     drop: real, stays: bool)
    requires IsScale(m) && Tracks(m, peak, maxDd, capital, fall, held, truePeak, actual, level)
    requires (stays ==> level) && drop <= fall + m.gain
    ensures Tracks(m, peak, maxDd, capital, fall, held, Max(truePeak, capital), Max(actual, drop), stays)
  {
  }

  lemma EnteringTracks(m: Scale, peak: real, maxDd: real, capital: real, fall: real, truePeak: real, actual: real, level: bool,
                       left: real, deeper: real)
    requires IsScale(m) && Tracks(m, peak, maxDd, capital, fall, false, truePeak, actual, level)
    requires left <= Max(capital, m.top) && deeper <= fall + m.cost
    ensures Tracks(m, peak, maxDd, left, deeper, true, truePeak, actual, level)
  {
  }

  lemma ScaleIsScale(cfg: Config)
    requires Solvent(cfg)
    ensures IsScale(ScaleOf(cfg))
  {
    TopBounded(cfg);
    QuotientMonotone(0.0, EntryCost(cfg), cfg.initialCapital);
    QuotientMonotone(0.0, FirstGain(cfg), cfg.initialCapital);
  }

  /** No first entry can round the capital up, or the account never goes below zero. */
  ghost predicate Level(cfg: Config, curve: seq<real>) {
    Top(cfg) == cfg.initialCapital || forall i :: 0 <= i < |curve| ==> curve[i] >= 0.0
  }

  lemma LevelBefore(cfg: Config, curve: seq<real>, c: real)
    requires Level(cfg, curve + [c])
    ensures Level(cfg, curve) && (Top(cfg) == cfg.initialCapital || c >= 0.0)
  {
    if Top(cfg) != cfg.initialCapital {
      assert (curve + [c])[|curve|] == c;
      forall i | 0 <= i < |curve| ensures curve[i] >= 0.0 {
        assert (curve + [c])[i] == curve[i];
      }
    }
  }

  /** What the tracked peak and drawdown say about the whole curve. */
  ghost predicate Tracked(cfg: Config, st: State)
    requires cfg.initialCapital > 0.0
  {
    && Anchored(cfg, st)
    && Tracks(ScaleOf(cfg), st.peak, st.maxDd, st.capital, Drop(st.peak, st.capital), st.position.Some?,
              Peak(Curve(cfg, st)), Drawdown(Curve(cfg, st)), Level(cfg, Curve(cfg, st)))
  }

  lemma EnteringStaysTracked(s: Strategy, cfg: Config, i: nat, st: State)
    requires Solvent(cfg) && Tracked(cfg, st)
    ensures Tracked(cfg, EnterDue(s, cfg, i, st))
  {
    EnteringStaysAnchored(s, cfg, i, st);
    if Enters(i, st) {
      var left := Round2(st.capital - Fee(cfg));
      EntryBounded(cfg, st);
      ScaleIsScale(cfg);
      DropShift(st.peak, st.capital, left, EntryCost(cfg), cfg.initialCapital);
      EnteringTracks(ScaleOf(cfg), st.peak, st.maxDd, st.capital, Drop(st.peak, st.capital),
                     Peak(Curve(cfg, st)), Drawdown(Curve(cfg, st)), Level(cfg, Curve(cfg, st)), left, Drop(st.peak, left));
    }
  }

  /** A closing at whatever capital: the tracked figures follow the curve's. */
  lemma ClosedCurveTracked(cfg: Config, st: State, closed: State)
    requires Solvent(cfg) && Tracked(cfg, st)
    requires Anchored(cfg, closed) && closed.position.None? && closed.equity == st.equity + [closed.capital]
    requires closed.peak == Max(st.peak, closed.capital)
    requires closed.maxDd == Max(st.maxDd, Drop(closed.peak, closed.capital))
    ensures Tracked(cfg, closed)
  {
    var curve, c := Curve(cfg, st), closed.capital;
    ScaleIsScale(cfg);
    assert Curve(cfg, closed) == curve + [c];
    DrawdownSnoc(curve, c);
    ClosingDrops(cfg, curve, st.peak, c);
    ClosingTracks(ScaleOf(cfg), st.peak, st.maxDd, st.capital, Drop(st.peak, st.capital), st.position.Some?,
                  Peak(curve), Drawdown(curve), Level(cfg, curve),
                  c, Drop(closed.peak, c), Drop(Max(Peak(curve), c), c), Level(cfg, curve + [c]));
  }

  /** A closing's drop below the tracked peak and below the true one. */
  lemma ClosingDrops(cfg: Config, curve: seq<real>, peak: real, c: real)
    requires Solvent(cfg) && |curve| > 0 && cfg.initialCapital <= peak <= Peak(curve) <= Max(peak, Top(cfg))
    ensures var seen, drop := Drop(Max(peak, c), c), Drop(Max(Peak(curve), c), c);
            && (Level(cfg, curve + [c]) ==> Level(cfg, curve) && seen <= drop)
            && drop <= seen + Percent(FirstGain(cfg), cfg.initialCapital)
  {
    TopBounded(cfg);
    DropFromTruePeak(Max(peak, c), Max(Peak(curve), c), c, FirstGain(cfg), cfg.initialCapital);
    if Level(cfg, curve + [c]) {
      LevelBefore(cfg, curve, c);
      if c >= 0.0 {
        DropMonotone(Max(peak, c), Max(Peak(curve), c), c);
      }
    }
  }

  lemma ClosingStaysTracked(s: Strategy, cfg: Config, i: nat, st: State, fill: Fill)
    requires Solvent(cfg) && Tracked(cfg, st) && st.position.Some?
    ensures Tracked(cfg, Closed(s, cfg, i, st, fill))
  {
    ClosingStaysAnchored(s, cfg, i, st, fill);
    ClosedCurveTracked(cfg, st, Closed(s, cfg, i, st, fill));
  }

  /** One more point on the curve that the tracked figures do not see. */
  lemma UnseenPointTracked(cfg: Config, st: State, next: State)
    requires Solvent(cfg) && Tracked(cfg, st) && Anchored(cfg, next)
    requires next.equity == st.equity + [st.capital] && next.capital == st.capital && next.position == st.position
    requires next.peak == st.peak && next.maxDd == st.maxDd
    ensures Tracked(cfg, next)
  {
    var curve, c := Curve(cfg, st), st.capital;
    var truePeak := Max(Peak(curve), c);
    ScaleIsScale(cfg);
    TopBounded(cfg);
    assert Curve(cfg, next) == curve + [c];
    DrawdownSnoc(curve, c);
    DropFromTruePeak(st.peak, truePeak, c, FirstGain(cfg), cfg.initialCapital);
    if Level(cfg, curve + [c]) {
      LevelBefore(cfg, curve, c);
    }
    IdlingTracks(ScaleOf(cfg), st.peak, st.maxDd, c, Drop(st.peak, c), st.position.Some?,
                 Peak(curve), Drawdown(curve), Level(cfg, curve), Drop(truePeak, c), Level(cfg, curve + [c]));
  }

  lemma StepStaysTracked(s: Strategy, cfg: Config, bars: seq<Bar>, i: nat, st: State)
    requires Solvent(cfg) && i < |bars| && Tracked(cfg, st)
    ensures Tracked(cfg, Step(s, cfg, bars, i, st))
  {
    var entered := EnterDue(s, cfg, i, st);
    EnteringStaysTracked(s, cfg, i, st);
    var fill := ExitOf(entered, bars[i], i);
    if fill.Some? {
      ClosingStaysTracked(s, cfg, i, entered, fill.value);
    } else {
      IdlingStaysAnchored(s, cfg, bars, i, entered);
      UnseenPointTracked(cfg, entered, Idled(s, cfg, bars, i, entered));
    }
  }

  lemma InitiallyTracked(cfg: Config)
    requires Solvent(cfg)
    ensures Tracked(cfg, Initial(cfg))
  {
    ScaleIsScale(cfg);
    assert Curve(cfg, Initial(cfg)) == [] + [cfg.initialCapital];
    DrawdownSnoc([], cfg.initialCapital);
  }

  lemma RunStaysTracked(s: Strategy, cfg: Config, bars: seq<Bar>, i: nat, next: nat)
    requires Warmup(cfg) <= i < next <= |bars| && next == i + 1 && Solvent(cfg) && Tracked(cfg, After(s, cfg, bars, i))
    ensures Tracked(cfg, After(s, cfg, bars, next))
  {
    AfterNext(s, cfg, bars, i);
    StepStaysTracked(s, cfg, bars, i, After(s, cfg, bars, i));
  }

  lemma {:induction false} RunTracked(s: Strategy, cfg: Config, bars: seq<Bar>, k: nat)
    requires k <= |bars| && Solvent(cfg)
    ensures Tracked(cfg, After(s, cfg, bars, k))
    decreases k
  {
    if k <= Warmup(cfg) {
      InitiallyTracked(cfg);
    } else {
      RunTracked(s, cfg, bars, k - 1);
      RunStaysTracked(s, cfg, bars, k - 1, k);
    }
  }

  /** A first entry never rounds up an initial capital in whole cents, nor any by a fee of half a cent or more. */
  lemma LevelFor(cfg: Config, curve: seq<real>)
    requires Solvent(cfg) && (OnCents(cfg.initialCapital) || Fee(cfg) >= 0.005)
    ensures Level(cfg, curve)
  {
    TopBounded(cfg);
    Round2Near(cfg.initialCapital - Fee(cfg));
  }

  /** The drawdown followed at closings only misses at most one entry fee of the true one, measured on
      the initial capital; and it is at most the true one, unless a first entry rounds the initial
      capital up and the account later goes below zero. */
  lemma DrawdownSandwiched(s: Strategy, cfg: Config, bars: seq<Bar>, k: nat)
    requires k <= |bars| && Solvent(cfg)
    ensures var curve := Curve(cfg, After(s, cfg, bars, k));
            Sandwich(After(s, cfg, bars, k).maxDd, Drawdown(curve), ScaleOf(cfg), Level(cfg, curve))
  {
    RunTracked(s, cfg, bars, k);
  }

  /** The upper half against the deepest fall `d` between any two points of the curve: it holds for
      every fall to a point that is not negative, and for all falls exactly if no negative point falls
      further below the least positive one before it. The lower half holds in every run. */
  lemma DeepestFallSandwiched(s: Strategy, cfg: Config, bars: seq<Bar>, k: nat, d: real)
    requires k <= |bars| && Solvent(cfg)
    requires IsDeepestFall(Curve(cfg, After(s, cfg, bars, k)), d)
    ensures BracketsDeepest(Curve(cfg, After(s, cfg, bars, k)), After(s, cfg, bars, k).maxDd, d, ScaleOf(cfg))
  {
    var curve := Curve(cfg, After(s, cfg, bars, k));
    DrawdownSandwiched(s, cfg, bars, k);
    TrackedAtMostDeepest(s, cfg, bars, k, d);
    SandwichBrackets(curve, After(s, cfg, bars, k).maxDd, d, ScaleOf(cfg), Level(cfg, curve));
  }

  ghost predicate BracketsDeepest(curve: seq<real>, maxDd: real, d: real, m: Scale) {
    var most := maxDd + m.cost + m.gain;
    && maxDd <= d
    && (forall i, j :: 0 <= i <= j < |curve| && curve[j] >= 0.0 ==> Drop(curve[i], curve[j]) <= most)
    && (d <= most <==> NegativesWithin(curve, most))
  }

  lemma SandwichBrackets(curve: seq<real>, maxDd: real, d: real, m: Scale, level: bool)
    requires Sandwich(maxDd, Drawdown(curve), m, level) && IsDeepestFall(curve, d) && 0.0 <= d && maxDd <= d
    ensures BracketsDeepest(curve, maxDd, d, m)
  {
    FallsToSolvency(curve, maxDd + m.cost + m.gain);
    DeepestWithinIff(curve, d, maxDd + m.cost + m.gain);
  }

  lemma FallsToSolvency(curve: seq<real>, bound: real)
    requires Drawdown(curve) <= bound
    ensures forall i, j :: 0 <= i <= j < |curve| && curve[j] >= 0.0 ==> Drop(curve[i], curve[j]) <= bound
  {
    forall i, j | 0 <= i <= j < |curve| && curve[j] >= 0.0 ensures Drop(curve[i], curve[j]) <= bound {
      NoDeeperFall(curve, i, j);
    }
  }

  lemma DeepestWithinIff(curve: seq<real>, d: real, bound: real)
    requires IsDeepestFall(curve, d) && d >= 0.0 && Drawdown(curve) <= bound
    ensures d <= bound <==> NegativesWithin(curve, bound)
  {
    FallsWithinIff(curve, bound);
  }

  // ---------------------------------------------------------------- the lower half

  /** What one bar does to the curve and the tracked figures. */
  ghost predicate Moves(st: State, next: State) {
    && next.equity == st.equity + [next.capital]
    && if |next.journal| == |st.journal| then next.peak == st.peak && next.maxDd == st.maxDd
       else next.peak == Max(st.peak, next.capital)
            && next.maxDd == if next.peak > 0.0 then Max(st.maxDd, Drop(next.peak, next.capital)) else st.maxDd
  }

  lemma StepMoves(s: Strategy, cfg: Config, bars: seq<Bar>, i: nat, st: State)
    requires i < |bars|
    ensures Moves(st, Step(s, cfg, bars, i, st))
  {
  }

  /** `d` is nothing or a fall between two points of the curve. */
  ghost predicate IsFall(curve: seq<real>, d: real) {
    d == 0.0 || exists i, j :: 0 <= i <= j < |curve| && Drop(curve[i], curve[j]) == d
  }

  /** The tracked peak is a point of the curve, and the tracked drawdown one of its falls. */
  ghost predicate OnCurve(curve: seq<real>, peak: real, maxDd: real) {
    peak in curve && IsFall(curve, maxDd) && maxDd >= 0.0
  }

  lemma FallStays(curve: seq<real>, c: real, d: real)
    requires IsFall(curve, d)
    ensures IsFall(curve + [c], d)
  {
    if d != 0.0 {
      var i, j :| 0 <= i <= j < |curve| && Drop(curve[i], curve[j]) == d;
      assert (curve + [c])[i] == curve[i] && (curve + [c])[j] == curve[j];
    }
  }

  lemma FallFromPoint(curve: seq<real>, peak: real, c: real)
    requires peak in curve || peak == c
    ensures IsFall(curve + [c], Drop(peak, c))
  {
    var longer := curve + [c];
    assert longer[|curve|] == c;
    if peak == c {
      assert Drop(longer[|curve|], longer[|curve|]) == Drop(peak, c);
    } else {
      var i :| 0 <= i < |curve| && curve[i] == peak;
      assert longer[i] == peak;
      assert Drop(longer[i], longer[|curve|]) == Drop(peak, c);
    }
  }

  lemma MoveStaysOnCurve(cfg: Config, st: State, next: State)
    requires OnCurve(Curve(cfg, st), st.peak, st.maxDd) && Moves(st, next)
    ensures OnCurve(Curve(cfg, next), next.peak, next.maxDd)
  {
    var curve, c := Curve(cfg, st), next.capital;
    assert Curve(cfg, next) == curve + [c];
    FallStays(curve, c, st.maxDd);
    if |next.journal| != |st.journal| {
      FallFromPoint(curve, next.peak, c);
    }
  }

  // The following facts are about any states that move like this one after the other, from the start on.

  ghost predicate IsRun(cfg: Config, states: seq<State>) {
    && |states| > 0 && states[0] == Initial(cfg)
    && forall i :: 0 < i < |states| ==> Moves(states[i - 1], states[i])
  }

  lemma {:induction false} RunOnCurve(cfg: Config, states: seq<State>, k: nat)
    requires IsRun(cfg, states) && k < |states|
    ensures OnCurve(Curve(cfg, states[k]), states[k].peak, states[k].maxDd)
  {
    if k > 0 {
      RunOnCurve(cfg, states, k - 1);
      MoveStaysOnCurve(cfg, states[k - 1], states[k]);
    } else {
      assert Curve(cfg, states[0])[0] == cfg.initialCapital;
    }
  }

  lemma {:induction false} CurveGrows(cfg: Config, states: seq<State>, i: nat, k: nat)
    requires IsRun(cfg, states) && i <= k < |states|
    ensures Curve(cfg, states[i]) <= Curve(cfg, states[k])
    decreases k
  {
    if i < k {
      CurveGrows(cfg, states, i, k - 1);
      assert Curve(cfg, states[k]) == Curve(cfg, states[k - 1]) + [states[k].capital];
    }
  }

  /** The move to state `i` closes a trade. */
  ghost predicate Closes(states: seq<State>, i: nat)
    requires 0 < i < |states|
  {
    |states[i].journal| != |states[i - 1].journal|
  }

  /** How far the capital of a state is below its tracked peak. */
  function FallOf(st: State): real {
    Drop(st.peak, st.capital)
  }

  lemma TrackedNext(st: State, next: State, bound: real)
    requires Moves(st, next) && bound >= 0.0 && st.maxDd >= 0.0
    ensures next.maxDd <= bound <==> st.maxDd <= bound && (|next.journal| != |st.journal| ==> FallOf(next) <= bound)
  {
  }

  /** The tracked drawdown respects a bound exactly if every closing's fall does. */
  lemma {:induction false} TrackedWithinIff(cfg: Config, states: seq<State>, k: nat, bound: real)
    requires IsRun(cfg, states) && k < |states| && bound >= 0.0
    ensures states[k].maxDd <= bound <==> forall i: nat :: 0 < i <= k && Closes(states, i) ==> FallOf(states[i]) <= bound
  {
    if k > 0 {
      TrackedWithinIff(cfg, states, k - 1, bound);
      RunOnCurve(cfg, states, k - 1);
      TrackedNext(states[k - 1], states[k], bound);
      assert Closes(states, k) <==> |states[k].journal| != |states[k - 1].journal|;
    }
  }

  lemma {:induction false} DrawdownGrows(curve: seq<real>, longer: seq<real>)
    requires curve <= longer
    ensures Drawdown(curve) <= Drawdown(longer)
    decreases |longer|
  {
    if |curve| < |longer| {
      DrawdownGrows(curve, longer[..|longer| - 1]);
    } else {
      assert curve == longer;
    }
  }

  lemma PointFall(curve: seq<real>, peak: real)
    requires |curve| > 0 && peak in curve && curve[|curve| - 1] >= 0.0
    ensures Drop(peak, curve[|curve| - 1]) <= Drawdown(curve)
  {
    var i :| 0 <= i < |curve| && curve[i] == peak;
    NoDeeperFall(curve, i, |curve| - 1);
  }

  /** A capital that is not negative is never further below the tracked peak than the true drawdown. */
  lemma SolventClosing(cfg: Config, states: seq<State>, i: nat, k: nat)
    requires IsRun(cfg, states) && 0 < i <= k < |states| && states[i].capital >= 0.0
    ensures FallOf(states[i]) <= Drawdown(Curve(cfg, states[k]))
  {
    assert Curve(cfg, states[i]) == Curve(cfg, states[i - 1]) + [states[i].capital];
    RunOnCurve(cfg, states, i);
    PointFall(Curve(cfg, states[i]), states[i].peak);
    CurveGrows(cfg, states, i, k);
    DrawdownGrows(Curve(cfg, states[i]), Curve(cfg, states[k]));
  }

  /** No closing that leaves a negative capital falls further below the tracked peak than `bound`. */
  ghost predicate DebtsWithin(states: seq<State>, bound: real) {
    forall i: nat :: 0 < i < |states| && Closes(states, i) && states[i].capital < 0.0 ==> FallOf(states[i]) <= bound
  }

  lemma RunTrackedIff(cfg: Config, states: seq<State>)
    requires IsRun(cfg, states)
    ensures var last := states[|states| - 1];
            (last.maxDd <= Drawdown(Curve(cfg, last)) <==> DebtsWithin(states, Drawdown(Curve(cfg, last))))
  {
    var k := |states| - 1;
    var actual := Drawdown(Curve(cfg, states[k]));
    TrackedWithinIff(cfg, states, k, actual);
    forall i: nat | 0 < i <= k && states[i].capital >= 0.0 ensures FallOf(states[i]) <= actual {
      SolventClosing(cfg, states, i, k);
    }
  }

  /** The variables before every bar from the warmup up to `k`. */
  ghost function States(s: Strategy, cfg: Config, bars: seq<Bar>, k: nat): (states: seq<State>)
    requires k <= |bars|
    ensures |states| > 0 && states[|states| - 1] == After(s, cfg, bars, k)
  {
    if k <= Warmup(cfg) then [After(s, cfg, bars, k)] else States(s, cfg, bars, k - 1) + [After(s, cfg, bars, k)]
  }

  lemma BarMoves(s: Strategy, cfg: Config, bars: seq<Bar>, i: nat, next: nat)
    requires Warmup(cfg) <= i < next <= |bars| && next == i + 1
    ensures Moves(After(s, cfg, bars, i), After(s, cfg, bars, next))
  {
    StepMoves(s, cfg, bars, i, After(s, cfg, bars, i));
    AfterNext(s, cfg, bars, i);
  }

  lemma RunSnoc(cfg: Config, states: seq<State>, next: State)
    requires IsRun(cfg, states) && Moves(states[|states| - 1], next)
    ensures IsRun(cfg, states + [next])
  {
    var longer := states + [next];
    forall i | 0 < i < |longer| ensures Moves(longer[i - 1], longer[i]) {
      assert i < |states| ==> longer[i] == states[i] && longer[i - 1] == states[i - 1];
    }
  }

  lemma StatesNext(s: Strategy, cfg: Config, bars: seq<Bar>, i: nat, next: nat)
    requires Warmup(cfg) <= i < next <= |bars| && next == i + 1 && IsRun(cfg, States(s, cfg, bars, i))
    ensures IsRun(cfg, States(s, cfg, bars, next))
  {
    BarMoves(s, cfg, bars, i, next);
    RunSnoc(cfg, States(s, cfg, bars, i), After(s, cfg, bars, next));
  }

  lemma {:induction false} StatesAreRun(s: Strategy, cfg: Config, bars: seq<Bar>, k: nat)
    requires k <= |bars|
    ensures IsRun(cfg, States(s, cfg, bars, k))
    decreases k
  {
    if k > Warmup(cfg) {
      StatesAreRun(s, cfg, bars, k - 1);
      StatesNext(s, cfg, bars, k - 1, k);
    }
  }

  lemma FallAtMostDeepest(curve: seq<real>, fall: real, d: real)
    requires |curve| > 0 && IsFall(curve, fall) && IsDeepestFall(curve, d)
    ensures fall <= d && 0.0 <= d
  {
    assert Drop(curve[0], curve[0]) == 0.0;
  }

  /** In every run, whatever the money figures, the tracked drawdown is a fall between two points of the curve. */
  lemma TrackedIsFall(s: Strategy, cfg: Config, bars: seq<Bar>, k: nat)
    requires k <= |bars|
    ensures var st := After(s, cfg, bars, k); IsFall(Curve(cfg, st), st.maxDd) && st.maxDd >= 0.0
  {
    StatesAreRun(s, cfg, bars, k);
    RunOnCurve(cfg, States(s, cfg, bars, k), |States(s, cfg, bars, k)| - 1);
  }

  /** And so at most the deepest one. */
  lemma TrackedAtMostDeepest(s: Strategy, cfg: Config, bars: seq<Bar>, k: nat, d: real)
    requires k <= |bars| && IsDeepestFall(Curve(cfg, After(s, cfg, bars, k)), d)
    ensures 0.0 <= After(s, cfg, bars, k).maxDd <= d
  {
    TrackedIsFall(s, cfg, bars, k);
    FallAtMostDeepest(Curve(cfg, After(s, cfg, bars, k)), After(s, cfg, bars, k).maxDd, d);
  }

  /** In every run the tracked drawdown is at most the running-peak drawdown of the curve exactly if no
      closing at a negative capital falls further below the tracked peak than that. */
  lemma TrackedAtMostTrueIff(s: Strategy, cfg: Config, bars: seq<Bar>, k: nat)
    requires k <= |bars|
    ensures After(s, cfg, bars, k).maxDd <= Drawdown(Curve(cfg, After(s, cfg, bars, k)))
       <==> DebtsWithin(States(s, cfg, bars, k), Drawdown(Curve(cfg, After(s, cfg, bars, k))))
  {
    StatesAreRun(s, cfg, bars, k);
    RunTrackedIff(cfg, States(s, cfg, bars, k));
  }

  // ---------------------------------------------------------------- a run tracked deeper than it is

  const DEBT_CONFIG := Config(0.006, 1, 20, 1, 0.0, 0.0, 0.0, 40, 30, 0, 0, 1.0, 1.01, false, false)

  /** Twenty-two bars at 2, and one that falls to a half. */
  function DebtBars(): (bars: seq<Bar>)
    ensures |bars| == 23 && bars[22] == Bar(2.0, 2.0, 0.5, 2.0)
    ensures forall i :: 0 <= i < 22 ==> bars[i] == Bar(2.0, 2.0, 2.0, 2.0)
  {
    seq(23, i => if i < 22 then Bar(2.0, 2.0, 2.0, 2.0) else Bar(2.0, 2.0, 0.5, 2.0))
  }

  function DebtOrder(): Pending {
    Pending(21, Call, 2.0, 1.0, 1.0, 1.01, 0, 0, "NEUTRAL")
  }

  function DebtPosition(): Position {
    Position(Bracket(Call, 0.99, 3.0, 21, 40), 2.0, 1, 0.0, None, 0, 0, "NEUTRAL")
  }

  lemma DebtOrdered()
    ensures After(SKEW_STRATEGY, DEBT_CONFIG, DebtBars(), 21)
         == Initial(DEBT_CONFIG).(equity := [0.006], pending := Some(DebtOrder()))
  {
    assert Order(SKEW_STRATEGY, DEBT_CONFIG, DebtBars(), 20) == Some(DebtOrder());
    assert After(SKEW_STRATEGY, DEBT_CONFIG, DebtBars(), 20) == Initial(DEBT_CONFIG);
    AfterNext(SKEW_STRATEGY, DEBT_CONFIG, DebtBars(), 20);
  }

  lemma DebtOpened()
    ensures Opened(SKEW_STRATEGY, DEBT_CONFIG, DebtOrder(), 21) == DebtPosition()
  {
    WholeIsFixed(0);
    WholeIsFixed(9900);
    WholeIsFixed(20000);
    WholeIsFixed(30000);
  }

  /** The first entry, free of charge, makes 0.006 a whole cent. */
  lemma DebtEntry(waiting: State)
    requires waiting == Initial(DEBT_CONFIG).(equity := [0.006], pending := Some(DebtOrder()))
    ensures EnterDue(SKEW_STRATEGY, DEBT_CONFIG, 21, waiting)
         == Initial(DEBT_CONFIG).(equity := [0.006], capital := 0.01, position := Some(DebtPosition()))
  {
    DebtOpened();
    assert Fee(DEBT_CONFIG) == 0.0;
    assert (0.6).Floor == 0;
  }

  lemma DebtHeld()
    ensures After(SKEW_STRATEGY, DEBT_CONFIG, DebtBars(), 22)
         == Initial(DEBT_CONFIG).(equity := [0.006, 0.01], capital := 0.01, position := Some(DebtPosition()))
  {
    DebtOrdered();
    var waiting := After(SKEW_STRATEGY, DEBT_CONFIG, DebtBars(), 21);
    DebtEntry(waiting);
    var entered := EnterDue(SKEW_STRATEGY, DEBT_CONFIG, 21, waiting);
    assert ExitOf(entered, DebtBars()[21], 21) == None;
    AfterNext(SKEW_STRATEGY, DEBT_CONFIG, DebtBars(), 21);
    assert [0.006] + [0.01] == [0.006, 0.01];
  }

  lemma DebtClosing(held: State)
    requires held.position == Some(DebtPosition()) && held.capital == 0.01 && held.peak == 0.006 && held.maxDd == 0.0
    ensures var closed := Closed(SKEW_STRATEGY, DEBT_CONFIG, 22, held, Fill(0.99, StopLoss));
            && closed.capital == -1.0 && closed.equity == held.equity + [-1.0]
            && closed.maxDd == Drop(0.006, -1.0)
  {
    assert Settlement(SKEW_STRATEGY, DEBT_CONFIG, DebtPosition(), 0.99, StopLoss).net == -1.01;
    WholeIsFixed(-100);
    assert Round2(0.01 - 1.01) == -1.0;
    DebtDrops();
  }

  lemma DebtDrops()
    ensures Drop(0.006, -1.0) > 16000.0 && Drop(0.01, -1.0) == 10100.0
  {
  }

  lemma DebtCurve()
    ensures Drawdown([0.006, 0.006, 0.01, -1.0]) == 10100.0
  {
    DrawdownSnoc([], 0.006);
    DrawdownSnoc([0.006], 0.006);
    DrawdownSnoc([0.006, 0.006], 0.01);
    DrawdownSnoc([0.006, 0.006, 0.01], -1.0);
    assert [] + [0.006] == [0.006] && [0.006] + [0.006] == [0.006, 0.006];
    assert [0.006, 0.006] + [0.01] == [0.006, 0.006, 0.01];
    assert [0.006, 0.006, 0.01] + [-1.0] == [0.006, 0.006, 0.01, -1.0];
    DebtDrops();
  }

  lemma DebtEnded()
    ensures var st := After(SKEW_STRATEGY, DEBT_CONFIG, DebtBars(), 23);
            st.equity == [0.006, 0.01] + [-1.0] && st.maxDd == Drop(0.006, -1.0)
  {
    DebtHeld();
    var held := After(SKEW_STRATEGY, DEBT_CONFIG, DebtBars(), 22);
    DebtStopped(held);
    DebtClosing(held);
    AfterNext(SKEW_STRATEGY, DEBT_CONFIG, DebtBars(), 22);
  }

  lemma DebtStopped(held: State)
    requires held.pending == None && held.position == Some(DebtPosition())
    ensures Step(SKEW_STRATEGY, DEBT_CONFIG, DebtBars(), 22, held)
         == Closed(SKEW_STRATEGY, DEBT_CONFIG, 22, held, Fill(0.99, StopLoss))
  {
    assert EnterDue(SKEW_STRATEGY, DEBT_CONFIG, 22, held) == held;
    assert ExitOf(held, DebtBars()[22], 22) == Some(Fill(0.99, StopLoss));
  }

  /** An account of 0.006 that the first entry rounds up to a cent, and that a stop then takes to -1, is
      tracked below 0.006 and so deeper than its running-peak drawdown. */
  lemma DebtTrackedDeeper()
    ensures var st := After(SKEW_STRATEGY, DEBT_CONFIG, DebtBars(), 23);
            Curve(DEBT_CONFIG, st) == [0.006, 0.006, 0.01, -1.0] && st.maxDd > Drawdown(Curve(DEBT_CONFIG, st))
  {
    DebtEnded();
    DebtMeasured(After(SKEW_STRATEGY, DEBT_CONFIG, DebtBars(), 23));
  }

  lemma DebtMeasured(st: State)
    requires st.equity == [0.006, 0.01] + [-1.0] && st.maxDd == Drop(0.006, -1.0)
    ensures Curve(DEBT_CONFIG, st) == [0.006, 0.006, 0.01, -1.0] && st.maxDd > Drawdown(Curve(DEBT_CONFIG, st))
  {
    DebtDrops();
    DebtCurve();
    assert [0.006] + ([0.006, 0.01] + [-1.0]) == [0.006, 0.006, 0.01, -1.0];
  }
}
