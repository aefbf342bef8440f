/** The score adjustments of `evaluate_adaptive_signal`: ten recorded stages and a penalty cap. */
module ScorePipeline {
  import opened Reals
  import opened Rounding
  import opened Wrappers

  const PENALTY_TF_MISMATCH := 25
  const PENALTY_CHOPPY := 18

  function MaxInt(a: int, b: int): int {
    if a >= b then a else b
  }

  function MinInt(a: int, b: int): int {
    if a <= b then a else b
  }

  /** `max(0, min(100, x))` */
  function Clamp(x: int): (c: int)
    ensures 0 <= c <= 100 && (0 <= x <= 100 ==> c == x)
  {
    MaxInt(0, MinInt(100, x))
  }

  datatype Tier = IGNORE | WEAK | MODERATE | STRONG

  datatype Bounds = Bounds(strong: int, moderate: int, weak: int)

  /** `classify_tier` */
  function ClassifyTier(score: int, b: Bounds): Tier {
    if score >= b.strong then STRONG else if score >= b.moderate then MODERATE else if score >= b.weak then WEAK else IGNORE
  }

  function Rank(t: Tier): nat {
    match t case IGNORE => 0 case WEAK => 1 case MODERATE => 2 case STRONG => 3
  }

  datatype Session = Session(allowed: bool, name: string, adj: int)

  /** What the modules outside the pipeline say about this signal; `None` where one is off, fails or
      has nothing to say. */
  datatype Inputs = Inputs(
    vix: real, ivMultiplier: Option<real>, skewPenalty: Option<int>, session: Option<Session>,
    sessionHardBlock: bool, mlAdj: Option<int>, refinerBlocks: int -> bool, fiiDii: Option<int>, impliedMove: Option<int>,
    gex: Option<int>, regimeTransition: Option<int>, meanReversion: Option<int>, maCrossover: Option<int>,
    conviction: (int, seq<string>) -> bool, cap: int,
    bounds: Bounds, sizer: (int, Tier) -> int)

  // ---------------------------------------------------------------- stages

  /** A stage's new score, and the points it reports. */
  datatype Adjusted = Adjusted(score: int, points: int)

  /** A raw adjustment that is skipped when it is zero or its module is off. */
  function Shift(score: int, adj: Option<int>): Adjusted {
    if adj.Some? && adj.value != 0 then Adjusted(Clamp(score + adj.value), Clamp(score + adj.value) - score)
    else Adjusted(score, 0)
  }

  function Scaled(score: int, mult: real): real {
    score as real * mult
  }

  /** `apply_iv_rank_adjustment`: a multiplier, rounded to an integer score. */
  function IvRank(score: int, vix: real, mult: Option<real>): Adjusted {
    if vix > 0.0 && mult.Some? && mult.value != 1.0 then
      var next := Clamp(NearestEven(Scaled(score, mult.value)));
      Adjusted(next, next - score)
    else Adjusted(score, 0)
  }

  /** `apply_iv_skew_adjustment`: the penalty of extreme put skew on a call; there is no upper clamp. */
  function IvSkew(score: int, penalty: Option<int>): Adjusted {
    if penalty.Some? then Adjusted(MaxInt(0, score - penalty.value), MaxInt(0, score - penalty.value) - score)
    else Adjusted(score, 0)
  }

  /** `apply_mean_reversion_adjustment` and `apply_ma_crossover_adjustment`: a third of the detector's score, up to `most`. */
  function Bonus(score: int, detected: Option<int>, most: int): Adjusted {
    if detected.Some? then
      var next := Clamp(score + MinInt(most, detected.value / 3));
      Adjusted(next, next - score)
    else Adjusted(score, 0)
  }

  /** `apply_max_penalty_cap` */
  function Capped(score: int, baseline: int, cap: int): int {
    if score - baseline < cap then MaxInt(0, baseline + cap) else score
  }

  datatype Stage = IvRankStage | IvSkewStage | SessionStage | MlStage | FiiDiiStage
                 | ImpliedMoveStage | GexStage | RegimeTransitionStage | MeanReversionStage | MaCrossoverStage

  const STAGES: seq<Stage> := [
    IvRankStage, IvSkewStage, SessionStage, MlStage, FiiDiiStage,
    ImpliedMoveStage, GexStage, RegimeTransitionStage, MeanReversionStage, MaCrossoverStage]

  function SessionAdj(inp: Inputs): Option<int> {
    if inp.session.Some? then Some(inp.session.value.adj) else None
  }

  function Apply(inp: Inputs, stage: Stage, score: int): Adjusted {
    match stage
    case IvRankStage => IvRank(score, inp.vix, inp.ivMultiplier)
    case IvSkewStage => IvSkew(score, inp.skewPenalty)
    case SessionStage => Shift(score, SessionAdj(inp))
    case MlStage => Shift(score, inp.mlAdj)
    case FiiDiiStage => Shift(score, inp.fiiDii)
    case ImpliedMoveStage => Shift(score, inp.impliedMove)
    case GexStage => Shift(score, inp.gex)
    case RegimeTransitionStage => Shift(score, inp.regimeTransition)
    case MeanReversionStage => Bonus(score, inp.meanReversion, 20)
    case MaCrossoverStage => Bonus(score, inp.maCrossover, 25)
  }

  // ---------------------------------------------------------------- the audit trail

  /** What each of the given stages did, in order. */
  function Trail(inp: Inputs, start: int, stages: seq<Stage>): (t: seq<Adjusted>)
    ensures |t| == |stages|
  {
    if stages == [] then [] else
      var before := Trail(inp, start, stages[..|stages| - 1]);
      before + [Apply(inp, stages[|stages| - 1], Reached(start, before))]
  }

  function Reached(start: int, trail: seq<Adjusted>): int {
    if trail == [] then start else trail[|trail| - 1].score
  }

  function Points(trail: seq<Adjusted>): int {
    if trail == [] then 0 else Points(trail[..|trail| - 1]) + trail[|trail| - 1].points
  }

  /** The first stages' part of a trail is their own trail. */
  lemma {:induction false} TrailPrefix(inp: Inputs, start: int, stages: seq<Stage>, k: nat)
    requires k <= |stages|
    ensures Trail(inp, start, stages)[..k] == Trail(inp, start, stages[..k])
  {
    if k == |stages| {
      assert stages[..k] == stages;
    } else {
      var init := stages[..|stages| - 1];
      TrailPrefix(inp, start, init, k);
      assert init[..k] == stages[..k];
    }
  }

  /** Each stage of a trail starts from the score the one before it left. */
  lemma TrailStep(inp: Inputs, start: int, stages: seq<Stage>, k: nat)
    requires k < |stages|
    ensures Trail(inp, start, stages)[k]
         == Apply(inp, stages[k], if k == 0 then start else Trail(inp, start, stages)[k - 1].score)
  {
    TrailPrefix(inp, start, stages, k + 1);
    TrailPrefix(inp, start, stages, k);
    var t := Trail(inp, start, stages);
    assert stages[..k + 1][..k] == stages[..k];
    assert t[k] == t[..k + 1][k];
    if k > 0 {
      assert t[k - 1] == t[..k][k - 1];
    }
  }

  /** The reported points are the realised change, and the score stays within its range. */
  ghost predicate Honest(score: int, a: Adjusted) {
    && a.points == a.score - score
    && (score >= 0 ==> a.score >= 0)
  }

  lemma StagesAreHonest(inp: Inputs, stage: Stage, score: int)
    ensures Honest(score, Apply(inp, stage, score))
  {
  }

  /** The skew stage is the one without an upper clamp: from a valid score it stays one exactly
      when the configured penalty does not lift it over the top. */
  lemma InRangeIff(inp: Inputs, stage: Stage, score: int)
    requires 0 <= score <= 100
    ensures 0 <= Apply(inp, stage, score).score <= 100
       <==> (stage == IvSkewStage && inp.skewPenalty.Some? ==> inp.skewPenalty.value >= score - 100)
  {
  }

  /** The audit telescopes: whatever stages ran, the start and the reported points make up the score. */
  lemma {:induction false} TrailTelescopes(inp: Inputs, start: int, stages: seq<Stage>)
    ensures start + Points(Trail(inp, start, stages)) == Reached(start, Trail(inp, start, stages))
    ensures start >= 0 ==> Reached(start, Trail(inp, start, stages)) >= 0
    ensures 0 <= start <= 100 && (inp.skewPenalty.Some? ==> inp.skewPenalty.value >= 0) ==>
              Reached(start, Trail(inp, start, stages)) <= 100
  {
    if stages != [] {
      var init := stages[..|stages| - 1];
      TrailTelescopes(inp, start, init);
      var before := Trail(inp, start, init);
      var last := Apply(inp, stages[|stages| - 1], Reached(start, before));
      StagesAreHonest(inp, stages[|stages| - 1], Reached(start, before));
      if 0 <= Reached(start, before) <= 100 {
        InRangeIff(inp, stages[|stages| - 1], Reached(start, before));
      }
      assert (before + [last])[..|before|] == before;
    }
  }

  // ---------------------------------------------------------------- what each stage does

  /** A valid sum is reached exactly; otherwise the score stops at the bound that was passed. */
  ghost predicate Moved(score: int, adj: int, a: Adjusted) {
    && a.points == a.score - score
    && (0 <= score + adj <= 100 ==> a.points == adj)
    && (score + adj < 0 ==> a.score == 0)
    && (score + adj > 100 ==> a.score == 100)
  }

  /** A positive adjustment never lowers a valid score, a negative one never raises it. */
  lemma MovedInDirection(score: int, adj: int, a: Adjusted)
    requires Moved(score, adj, a) && 0 <= score <= 100
    ensures 0 <= a.score <= 100
    ensures adj >= 0 ==> 0 <= a.points <= adj
    ensures adj <= 0 ==> adj <= a.points <= 0
  {
  }

  ghost predicate Unchanged(score: int, a: Adjusted) {
    a.score == score && a.points == 0
  }

  /** Six modules give the adjustment itself; none or zero changes nothing. */
  ghost predicate ByAdjustment(score: int, adj: Option<int>, a: Adjusted) {
    if adj.None? || adj.value == 0 then Unchanged(score, a) else Moved(score, adj.value, a)
  }

  /** The volatility multiplier gives the nearest valid score to the product. */
  ghost predicate ByMultiplier(score: int, vix: real, mult: Option<real>, a: Adjusted) {
    if vix <= 0.0 || mult.None? || mult.value == 1.0 then Unchanged(score, a)
    else
      var x := score as real * mult.value;
      && a.points == a.score - score && 0 <= a.score <= 100
      && (x <= 0.0 ==> a.score == 0)
      && (x >= 100.0 ==> a.score == 100)
      && (0.0 <= x <= 100.0 ==> -0.5 <= a.score as real - x <= 0.5)
  }

  /** The skew penalty is taken off, not below zero. */
  ghost predicate ByPenalty(score: int, penalty: Option<int>, a: Adjusted) {
    if penalty.None? then Unchanged(score, a)
    else
      && a.points == a.score - score
      && (score >= penalty.value ==> a.points == -penalty.value)
      && (score < penalty.value ==> a.score == 0)
  }

  /** A third of a detector's score, rounded down, is added, up to `most`. */
  ghost predicate ByThird(score: int, detected: Option<int>, most: int, a: Adjusted) {
    if detected.None? then Unchanged(score, a)
    else if detected.value >= 3 * most then Moved(score, most, a)
    else exists third: int :: IsThird(third, detected.value) && Moved(score, third, a)
  }

  predicate IsThird(third: int, x: int) {
    3 * third <= x < 3 * third + 3
  }

  /** What each stage makes of the score it is given. */
  ghost predicate AsConfigured(inp: Inputs, stage: Stage, score: int, a: Adjusted) {
    match stage
    case IvRankStage => ByMultiplier(score, inp.vix, inp.ivMultiplier, a)
    case IvSkewStage => ByPenalty(score, inp.skewPenalty, a)
    case SessionStage => if inp.session.Some? then ByAdjustment(score, Some(inp.session.value.adj), a) else Unchanged(score, a)
    case MlStage => ByAdjustment(score, inp.mlAdj, a)
    case FiiDiiStage => ByAdjustment(score, inp.fiiDii, a)
    case ImpliedMoveStage => ByAdjustment(score, inp.impliedMove, a)
    case GexStage => ByAdjustment(score, inp.gex, a)
    case RegimeTransitionStage => ByAdjustment(score, inp.regimeTransition, a)
    case MeanReversionStage => ByThird(score, inp.meanReversion, 20, a)
    case MaCrossoverStage => ByThird(score, inp.maCrossover, 25, a)
  }

  lemma ShiftMoves(score: int, adj: Option<int>)
    ensures ByAdjustment(score, adj, Shift(score, adj))
  {
  }

  lemma ClampedRound(x: real)
    ensures var c := Clamp(NearestEven(x));
            && (x <= 0.0 ==> c == 0) && (x >= 100.0 ==> c == 100)
            && (0.0 <= x <= 100.0 ==> -0.5 <= c as real - x <= 0.5)
  {
    WholeIsFixed(0);
    WholeIsFixed(100);
    if x <= 0.0 {
      NearestEvenMonotone(x, 0.0);
    } else if x >= 100.0 {
      NearestEvenMonotone(100.0, x);
    } else {
      NearestEvenMonotone(0.0, x);
      NearestEvenMonotone(x, 100.0);
    }
  }

  lemma IvRankMultiplies(score: int, vix: real, mult: Option<real>)
    ensures ByMultiplier(score, vix, mult, IvRank(score, vix, mult))
  {
    if mult.Some? {
      ClampedRound(Scaled(score, mult.value));
    }
  }

  lemma BonusAddsThird(score: int, detected: Option<int>, most: int)
    ensures ByThird(score, detected, most, Bonus(score, detected, most))
  {
    if detected.Some? && detected.value < 3 * most {
      var third := detected.value / 3;
      assert IsThird(third, detected.value) && Moved(score, third, Bonus(score, detected, most));
    }
  }

  /** Every stage does with every score what its module says. */
  lemma StagesDoAsConfigured(inp: Inputs, stage: Stage, score: int)
    ensures AsConfigured(inp, stage, score, Apply(inp, stage, score))
  {
    match stage
    case IvRankStage => IvRankMultiplies(score, inp.vix, inp.ivMultiplier);
    case IvSkewStage =>
    case MeanReversionStage => BonusAddsThird(score, inp.meanReversion, 20);
    case MaCrossoverStage => BonusAddsThird(score, inp.maCrossover, 25);
    case SessionStage => ShiftMoves(score, SessionAdj(inp));
    case MlStage => ShiftMoves(score, inp.mlAdj);
    case FiiDiiStage => ShiftMoves(score, inp.fiiDii);
    case ImpliedMoveStage => ShiftMoves(score, inp.impliedMove);
    case GexStage => ShiftMoves(score, inp.gex);
    case RegimeTransitionStage => ShiftMoves(score, inp.regimeTransition);
  }

  /** What a stage's module asks for: more points, fewer, or neither. */
  ghost predicate AsksUp(inp: Inputs, stage: Stage) {
    match stage
    case IvRankStage => inp.ivMultiplier.Some? && inp.ivMultiplier.value > 1.0
    case IvSkewStage => inp.skewPenalty.Some? && inp.skewPenalty.value < 0
    case SessionStage => inp.session.Some? && inp.session.value.adj > 0
    case MlStage => inp.mlAdj.Some? && inp.mlAdj.value > 0
    case FiiDiiStage => inp.fiiDii.Some? && inp.fiiDii.value > 0
    case ImpliedMoveStage => inp.impliedMove.Some? && inp.impliedMove.value > 0
    case GexStage => inp.gex.Some? && inp.gex.value > 0
    case RegimeTransitionStage => inp.regimeTransition.Some? && inp.regimeTransition.value > 0
    case MeanReversionStage => inp.meanReversion.Some? && inp.meanReversion.value >= 0
    case MaCrossoverStage => inp.maCrossover.Some? && inp.maCrossover.value >= 0
  }

  ghost predicate AsksDown(inp: Inputs, stage: Stage) {
    match stage
    case IvRankStage => inp.ivMultiplier.Some? && inp.ivMultiplier.value < 1.0
    case IvSkewStage => inp.skewPenalty.Some? && inp.skewPenalty.value > 0
    case SessionStage => inp.session.Some? && inp.session.value.adj < 0
    case MlStage => inp.mlAdj.Some? && inp.mlAdj.value < 0
    case FiiDiiStage => inp.fiiDii.Some? && inp.fiiDii.value < 0
    case ImpliedMoveStage => inp.impliedMove.Some? && inp.impliedMove.value < 0
    case GexStage => inp.gex.Some? && inp.gex.value < 0
    case RegimeTransitionStage => inp.regimeTransition.Some? && inp.regimeTransition.value < 0
    case MeanReversionStage => inp.meanReversion.Some? && inp.meanReversion.value < 0
    case MaCrossoverStage => inp.maCrossover.Some? && inp.maCrossover.value < 0
  }

  lemma FactorDirection(s: real, m: real, x: real)
    requires x == s * m && s >= 0.0
    ensures m >= 1.0 ==> x >= s
    ensures m <= 1.0 ==> x <= s
  {
    if m >= 1.0 {
      MulMonotone(1.0, m, s);
    } else {
      MulMonotone(m, 1.0, s);
    }
  }

  lemma MultiplierDirection(score: int, vix: real, mult: Option<real>, a: Adjusted)
    requires ByMultiplier(score, vix, mult, a) && 0 <= score <= 100
    ensures mult.Some? && mult.value > 1.0 ==> a.score >= score
    ensures mult.Some? && mult.value < 1.0 ==> a.score <= score
  {
    if vix > 0.0 && mult.Some? {
      FactorDirection(score as real, mult.value, score as real * mult.value);
    }
  }

  lemma ThirdDirection(score: int, detected: Option<int>, most: int, a: Adjusted)
    requires ByThird(score, detected, most, a) && 0 <= score <= 100 && most >= 0
    ensures detected.Some? && detected.value >= 0 ==> a.score >= score
    ensures detected.Some? && detected.value < 0 ==> a.score <= score
  {
  }

  /** On a valid score no stage ever moves against what its module asks for. */
  lemma StagesMoveInDirection(inp: Inputs, stage: Stage, score: int)
    requires 0 <= score <= 100
    ensures AsksUp(inp, stage) ==> Apply(inp, stage, score).score >= score && Apply(inp, stage, score).points >= 0
    ensures AsksDown(inp, stage) ==> Apply(inp, stage, score).score <= score && Apply(inp, stage, score).points <= 0
    ensures AsksUp(inp, stage) || AsksDown(inp, stage) || Apply(inp, stage, score) == Adjusted(score, 0)
  {
    StagesDoAsConfigured(inp, stage, score);
    if stage == IvRankStage {
      MultiplierDirection(score, inp.vix, inp.ivMultiplier, Apply(inp, stage, score));
    } else if stage == MeanReversionStage {
      ThirdDirection(score, inp.meanReversion, 20, Apply(inp, stage, score));
    } else if stage == MaCrossoverStage {
      ThirdDirection(score, inp.maCrossover, 25, Apply(inp, stage, score));
    }
  }

  /** A tier is the highest whose bound the score reaches, looked at from the strongest down. */
  lemma TierIff(score: int, b: Bounds)
    ensures ClassifyTier(score, b) == STRONG <==> score >= b.strong
    ensures ClassifyTier(score, b) == MODERATE <==> b.moderate <= score < b.strong
    ensures ClassifyTier(score, b) == WEAK <==> b.weak <= score && score < b.moderate && score < b.strong
  {
  }

  // ---------------------------------------------------------------- soft blocks and components

  /** `baseline` minus the soft penalties, not below zero. */
  function Start(baseScore: int, softBlocks: seq<string>): int {
    MaxInt(0, baseScore - (if "tf_mismatch" in softBlocks then PENALTY_TF_MISMATCH else 0)
                        - (if "choppy_regime" in softBlocks then PENALTY_CHOPPY else 0))
  }

  /** A mismatch of the time frames costs 25 points, a choppy regime 18, and the score stops at zero. */
  lemma StartTakesPenalties(baseScore: int, softBlocks: seq<string>)
    ensures var mismatch, choppy := "tf_mismatch" in softBlocks, "choppy_regime" in softBlocks;
            var left := if mismatch && choppy then baseScore - 43 else if mismatch then baseScore - 25
                        else if choppy then baseScore - 18 else baseScore;
            Start(baseScore, softBlocks) == if left < 0 then 0 else left
  {
  }

  function SkewTags(penalty: Option<int>): seq<string> {
    if penalty.Some? then ["extreme_put_skew"] else []
  }

  function SessionTags(session: Option<Session>): seq<string> {
    if session.Some? && !session.value.allowed then ["session_" + session.value.name + "_blocked"] else []
  }

  predicate IsSessionBlock(tag: string) {
    "session_" <= tag && |tag| >= |"_blocked"| && tag[|tag| - |"_blocked"|..] == "_blocked"
  }

  predicate HardBlocked(inp: Inputs, softBlocks: seq<string>) {
    inp.sessionHardBlock && exists i :: 0 <= i < |softBlocks| && IsSessionBlock(softBlocks[i])
  }

  /** A key of `score_components`: one of the ten adjustments, or a feature of the base score. */
  datatype Key = Adjustment(stage: Stage) | Feature(name: string)

  // ---------------------------------------------------------------- the pipeline

  datatype Signal = Signal(
    score: int, tier: Tier, lots: int, components: map<Key, int>, features: set<Key>, softBlocks: seq<string>, confidence: real)

  /** The trail of the whole pipeline. */
  function Audit(inp: Inputs, baseScore: int, blocks: seq<string>): (t: seq<Adjusted>)
    ensures |t| == |STAGES|
  {
    Trail(inp, Start(baseScore, blocks), STAGES)
  }

  function TaggedBlocks(inp: Inputs, baseScore: int, blocks: seq<string>): seq<string> {
    blocks + (if Audit(inp, baseScore, blocks)[0].points < 0 then ["high_iv"] else [])
      + SkewTags(inp.skewPenalty) + SessionTags(inp.session)
  }

  /** The score of an admitted signal. */
  function FinalScore(inp: Inputs, baseScore: int, blocks: seq<string>): int {
    Capped(Reached(Start(baseScore, blocks), Audit(inp, baseScore, blocks)), baseScore, inp.cap)
  }

  /** The order of the stages, spelled out. */
  ghost predicate InOrder(inp: Inputs, start: int, t: seq<Adjusted>)
    requires |t| == |STAGES|
  {
    && t[0] == IvRank(start, inp.vix, inp.ivMultiplier)
    && t[1] == IvSkew(t[0].score, inp.skewPenalty)
    && t[2] == Shift(t[1].score, SessionAdj(inp))
    && t[3] == Shift(t[2].score, inp.mlAdj)
    && t[4] == Shift(t[3].score, inp.fiiDii)
    && t[5] == Shift(t[4].score, inp.impliedMove)
    && t[6] == Shift(t[5].score, inp.gex)
    && t[7] == Shift(t[6].score, inp.regimeTransition)
    && t[8] == Bonus(t[7].score, inp.meanReversion, 20)
    && t[9] == Bonus(t[8].score, inp.maCrossover, 25)
  }

  lemma AuditSteps(inp: Inputs, baseScore: int, blocks: seq<string>)
    ensures InOrder(inp, Start(baseScore, blocks), Audit(inp, baseScore, blocks))
  {
    forall k | 0 <= k < |STAGES|
      ensures AuditStep(inp, Start(baseScore, blocks), Audit(inp, baseScore, blocks), k)
    {
      TrailStep(inp, Start(baseScore, blocks), STAGES, k);
    }
    TenSteps(inp, Start(baseScore, blocks), Audit(inp, baseScore, blocks));
  }

  ghost predicate AuditStep(inp: Inputs, start: int, t: seq<Adjusted>, k: nat)
    requires |t| == |STAGES| && k < |STAGES|
  {
    t[k] == Apply(inp, STAGES[k], if k == 0 then start else t[k - 1].score)
  }

  lemma StepAt(inp: Inputs, start: int, t: seq<Adjusted>, k: nat, stage: Stage, before: int)
    requires |t| == |STAGES| && k < |STAGES| && AuditStep(inp, start, t, k)
    requires STAGES[k] == stage && before == if k == 0 then start else t[k - 1].score
    ensures t[k] == Apply(inp, stage, before)
  {
  }

  lemma TenSteps(inp: Inputs, start: int, t: seq<Adjusted>)
    requires |t| == |STAGES|
    requires forall k :: 0 <= k < |STAGES| ==> AuditStep(inp, start, t, k)
    ensures InOrder(inp, start, t)
  {
    FirstFiveSteps(inp, start, t);
    StepAt(inp, start, t, 5, ImpliedMoveStage, t[4].score);
    StepAt(inp, start, t, 6, GexStage, t[5].score);
    StepAt(inp, start, t, 7, RegimeTransitionStage, t[6].score);
    StepAt(inp, start, t, 8, MeanReversionStage, t[7].score);
    StepAt(inp, start, t, 9, MaCrossoverStage, t[8].score);
  }

  lemma FirstFiveSteps(inp: Inputs, start: int, t: seq<Adjusted>)
    requires |t| == |STAGES|
    requires forall k :: 0 <= k < |STAGES| ==> AuditStep(inp, start, t, k)
    ensures t[0] == IvRank(start, inp.vix, inp.ivMultiplier)
    ensures t[1] == IvSkew(t[0].score, inp.skewPenalty)
    ensures t[2] == Shift(t[1].score, SessionAdj(inp))
    ensures t[3] == Shift(t[2].score, inp.mlAdj)
    ensures t[4] == Shift(t[3].score, inp.fiiDii)
  {
    StepAt(inp, start, t, 0, IvRankStage, start);
    StepAt(inp, start, t, 1, IvSkewStage, t[0].score);
    StepAt(inp, start, t, 2, SessionStage, t[1].score);
    StepAt(inp, start, t, 3, MlStage, t[2].score);
    StepAt(inp, start, t, 4, FiiDiiStage, t[3].score);
  }

  /** The score stage `k` starts from. */
  function Before(start: int, t: seq<Adjusted>, k: nat): int
    requires k <= |t|
  {
    if k == 0 then start else t[k - 1].score
  }

  /** The recorded points of every stage are what its module says about the score the stage before left. */
  ghost predicate PointsRight(inp: Inputs, start: int, t: seq<Adjusted>)
    requires |t| == |STAGES|
  {
    forall k :: 0 <= k < |STAGES| ==> AsConfigured(inp, STAGES[k], Before(start, t, k), t[k])
  }

  lemma AuditPointsRight(inp: Inputs, baseScore: int, blocks: seq<string>)
    ensures PointsRight(inp, Start(baseScore, blocks), Audit(inp, baseScore, blocks))
  {
    var start, t := Start(baseScore, blocks), Audit(inp, baseScore, blocks);
    forall k | 0 <= k < |STAGES|
      ensures AsConfigured(inp, STAGES[k], Before(start, t, k), t[k])
    {
      TrailStep(inp, start, STAGES, k);
      StagesDoAsConfigured(inp, STAGES[k], Before(start, t, k));
    }
  }

  /** Each of the stages `from` up to `to` has its points under its own key, and every other key is as before. */
  ghost predicate Recorded(before: map<Key, int>, after: map<Key, int>, trail: seq<Adjusted>, from: nat, to: nat)
    requires from <= to <= |STAGES| == |trail|
  {
    && (forall i :: from <= i < to ==> Adjustment(STAGES[i]) in after && after[Adjustment(STAGES[i])] == trail[i].points)
    && (forall key :: (forall i :: from <= i < to ==> key != Adjustment(STAGES[i])) ==>
          (key in after <==> key in before) && (key in before ==> after[key] == before[key]))
  }

  /** Writing the points of the first four stages into `score_components`. */
  method RecordEarly(components: map<Key, int>, trail: seq<Adjusted>) returns (comps: map<Key, int>)
    requires |trail| == |STAGES|
    ensures Recorded(components, comps, trail, 0, 4)
  {
    comps := components;
    comps := comps[Adjustment(IvRankStage) := trail[0].points];
    comps := comps[Adjustment(IvSkewStage) := trail[1].points];
    comps := comps[Adjustment(SessionStage) := trail[2].points];
    comps := comps[Adjustment(MlStage) := trail[3].points];
    assert STAGES[0] == IvRankStage && STAGES[1] == IvSkewStage && STAGES[2] == SessionStage && STAGES[3] == MlStage;
  }

  /** And those of the other six. */
  method RecordLate(components: map<Key, int>, trail: seq<Adjusted>) returns (comps: map<Key, int>)
    requires |trail| == |STAGES|
    ensures Recorded(components, comps, trail, 4, 10)
  {
    comps := components;
    comps := comps[Adjustment(FiiDiiStage) := trail[4].points];
    comps := comps[Adjustment(ImpliedMoveStage) := trail[5].points];
    comps := comps[Adjustment(GexStage) := trail[6].points];
    comps := comps[Adjustment(RegimeTransitionStage) := trail[7].points];
    comps := comps[Adjustment(MeanReversionStage) := trail[8].points];
    comps := comps[Adjustment(MaCrossoverStage) := trail[9].points];
    assert STAGES[4] == FiiDiiStage && STAGES[5] == ImpliedMoveStage && STAGES[6] == GexStage;
    assert STAGES[7] == RegimeTransitionStage && STAGES[8] == MeanReversionStage && STAGES[9] == MaCrossoverStage;
  }

  function Positive(components: map<Key, int>): set<Key> {
    set key | key in components && components[key] > 0
  }

  /** The features are the positive components known after the first four stages. */
  ghost predicate EarlyFeatures(features: set<Key>, components: map<Key, int>, trail: seq<Adjusted>)
    requires |trail| == |STAGES|
  {
    && (forall i :: 0 <= i < 4 ==> (Adjustment(STAGES[i]) in features <==> trail[i].points > 0))
    && (forall key :: (forall i :: 0 <= i < 4 ==> key != Adjustment(STAGES[i])) ==>
          (key in features <==> key in components && components[key] > 0))
  }

  lemma EarlyPositive(components: map<Key, int>, early: map<Key, int>, trail: seq<Adjusted>)
    requires |trail| == |STAGES| && Recorded(components, early, trail, 0, 4)
    ensures EarlyFeatures(Positive(early), components, trail)
  {
  }

  /** Both recordings together: every stage has its points, and a feature of the base score its own. */
  lemma AllRecorded(components: map<Key, int>, early: map<Key, int>, late: map<Key, int>, trail: seq<Adjusted>)
    requires |trail| == |STAGES| && Recorded(components, early, trail, 0, 4) && Recorded(early, late, trail, 4, 10)
    ensures Recorded(components, late, trail, 0, 10)
  {
    forall i | 0 <= i < 4
      ensures Adjustment(STAGES[i]) in late && late[Adjustment(STAGES[i])] == trail[i].points
    {
      assert forall j :: 4 <= j < 10 ==> Adjustment(STAGES[i]) != Adjustment(STAGES[j]);
    }
  }

  /** The adjustment part of `evaluate_adaptive_signal`, for a signal of given confidence: `None` exactly
      where one of its three gates blocks the signal. The size is computed from the tier after the first
      four stages and the score before the cap, the tier of the signal from the final score. */
  method Evaluate(inp: Inputs, baseScore: int, blocks: seq<string>, components: map<Key, int>, confidence: real)
    returns (signal: Option<Signal>)
    ensures signal.None? <==>
              || HardBlocked(inp, TaggedBlocks(inp, baseScore, blocks))
              || inp.refinerBlocks(Audit(inp, baseScore, blocks)[3].score)
              || !inp.conviction(Audit(inp, baseScore, blocks)[9].score, TaggedBlocks(inp, baseScore, blocks))
    ensures signal.Some? ==> Explained(inp, baseScore, blocks, components, signal.value)
    ensures signal.Some? ==> signal.value.confidence == Round3(confidence)
  {
    ghost var audit := Audit(inp, baseScore, blocks);
    AuditSteps(inp, baseScore, blocks);
    var softBlocks := blocks;
    var score := baseScore;
    if "tf_mismatch" in softBlocks {
      score := score - PENALTY_TF_MISMATCH;
    }
    if "choppy_regime" in softBlocks {
      score := score - PENALTY_CHOPPY;
    }
    score := MaxInt(0, score);

    var iv := IvRank(score, inp.vix, inp.ivMultiplier);
    if iv.points < 0 {
      softBlocks := softBlocks + ["high_iv"];
    }
    var skew := IvSkew(iv.score, inp.skewPenalty);
    softBlocks := softBlocks + SkewTags(inp.skewPenalty);
    var session := Shift(skew.score, SessionAdj(inp));
    softBlocks := softBlocks + SessionTags(inp.session);
    assert audit[0] == iv && audit[1] == skew && audit[2] == session;
    assert softBlocks == TaggedBlocks(inp, baseScore, blocks);
    if inp.sessionHardBlock && exists i :: 0 <= i < |softBlocks| && IsSessionBlock(softBlocks[i]) {
      return None;
    }
    var ml := Shift(session.score, inp.mlAdj);
    if inp.refinerBlocks(ml.score) {
      return None;
    }
    var tier := ClassifyTier(ml.score, inp.bounds);

    var fii := Shift(ml.score, inp.fiiDii);
    var move := Shift(fii.score, inp.impliedMove);
    var gex := Shift(move.score, inp.gex);
    var transition := Shift(gex.score, inp.regimeTransition);
    var reversion := Bonus(transition.score, inp.meanReversion, 20);
    var crossover := Bonus(reversion.score, inp.maCrossover, 25);
    var trail := [iv, skew, session, ml, fii, move, gex, transition, reversion, crossover];
    assert trail == audit;
    var early := RecordEarly(components, trail);
    var late := RecordLate(early, trail);
    EarlyPositive(components, early, trail);
    AllRecorded(components, early, late, trail);

    if !inp.conviction(crossover.score, softBlocks) {
      return None;
    }
    var lots := inp.sizer(crossover.score, tier);
    score := Capped(crossover.score, baseScore, inp.cap);
    signal := Some(Signal(score, ClassifyTier(score, inp.bounds), lots, late, Positive(early), softBlocks, Round3(confidence)));
  }

  /** Everything in a signal is accounted for by the audit trail. */
  ghost predicate Explained(inp: Inputs, baseScore: int, blocks: seq<string>, components: map<Key, int>, signal: Signal) {
    var audit := Audit(inp, baseScore, blocks);
    && signal.score == FinalScore(inp, baseScore, blocks)
    && signal.tier == ClassifyTier(signal.score, inp.bounds)
    && signal.lots == inp.sizer(audit[9].score, ClassifyTier(audit[3].score, inp.bounds))
    && signal.softBlocks == TaggedBlocks(inp, baseScore, blocks)
    && Recorded(components, signal.components, audit, 0, 10)
    && EarlyFeatures(signal.features, components, audit)
  }

  // ---------------------------------------------------------------- what the pipeline promises

  /** The components hold for `stage` what its module says about `score`. */
  ghost predicate HoldsPoints(inp: Inputs, components: map<Key, int>, stage: Stage, score: int) {
    && Adjustment(stage) in components
    && var points := components[Adjustment(stage)]; AsConfigured(inp, stage, score, Adjusted(score + points, points))
  }

  lemma RecordedAt(before: map<Key, int>, after: map<Key, int>, trail: seq<Adjusted>, k: nat)
    requires k < |STAGES| == |trail| && Recorded(before, after, trail, 0, 10)
    ensures Adjustment(STAGES[k]) in after && after[Adjustment(STAGES[k])] == trail[k].points
  {
  }

  lemma ConfiguredByPoints(inp: Inputs, stage: Stage, score: int, a: Adjusted)
    requires AsConfigured(inp, stage, score, a)
    ensures a == Adjusted(score + a.points, a.points)
  {
  }

  lemma PointsAt(inp: Inputs, start: int, t: seq<Adjusted>, before: map<Key, int>, after: map<Key, int>, k: nat)
    requires k < |STAGES| == |t| && PointsRight(inp, start, t) && Recorded(before, after, t, 0, 10)
    ensures HoldsPoints(inp, after, STAGES[k], Before(start, t, k))
  {
    RecordedAt(before, after, t, k);
    ConfiguredByPoints(inp, STAGES[k], Before(start, t, k), t[k]);
  }

  /** The points a signal carries for each stage are what its module says about the score it was given. */
  lemma SignalPointsRight(inp: Inputs, baseScore: int, blocks: seq<string>, components: map<Key, int>, signal: Signal, k: nat)
    requires Explained(inp, baseScore, blocks, components, signal) && k < |STAGES|
    ensures HoldsPoints(inp, signal.components, STAGES[k], Before(Start(baseScore, blocks), Audit(inp, baseScore, blocks), k))
  {
    AuditPointsRight(inp, baseScore, blocks);
    PointsAt(inp, Start(baseScore, blocks), Audit(inp, baseScore, blocks), components, signal.components, k);
  }

  /** The recorded adjustments explain the score before the cap. With a valid base score, a cap that
      is a penalty and a skew penalty that is one, the final score is the audited score or the
      baseline less the cap, whichever is higher, and it stays in range. */
  lemma AuditExplainsScore(inp: Inputs, baseScore: int, blocks: seq<string>)
    ensures var audited := Start(baseScore, blocks) + Points(Audit(inp, baseScore, blocks));
            && audited == Audit(inp, baseScore, blocks)[9].score >= 0
            && FinalScore(inp, baseScore, blocks) == MaxInt(audited, baseScore + inp.cap)
            && (0 <= baseScore <= 100 && inp.cap <= 0 && (inp.skewPenalty.Some? ==> inp.skewPenalty.value >= 0) ==>
                  MaxInt(0, baseScore + inp.cap) <= FinalScore(inp, baseScore, blocks) <= 100)
  {
    TrailTelescopes(inp, Start(baseScore, blocks), STAGES);
    CapIsMaximum(Audit(inp, baseScore, blocks)[9].score, baseScore, inp.cap);
  }

  /** For a score that is not negative the penalty cap is a maximum. */
  lemma CapIsMaximum(score: int, baseline: int, cap: int)
    requires score >= 0
    ensures Capped(score, baseline, cap) == MaxInt(score, baseline + cap)
  {
  }

  /** The cap's own correction is recorded nowhere: the audit explains the final score exactly when
      the total penalty is within the cap. */
  lemma AuditExplainsFinalIff(inp: Inputs, baseScore: int, blocks: seq<string>)
    ensures FinalScore(inp, baseScore, blocks) == Start(baseScore, blocks) + Points(Audit(inp, baseScore, blocks))
       <==> Audit(inp, baseScore, blocks)[9].score - baseScore >= inp.cap
  {
    AuditExplainsScore(inp, baseScore, blocks);
  }

  /** Stages never reorder two signals that differ only in their scores. */
  lemma StageMonotone(inp: Inputs, stage: Stage, low: int, high: int)
    requires low <= high
    requires inp.ivMultiplier.Some? ==> inp.ivMultiplier.value >= 0.0
    ensures Apply(inp, stage, low).score <= Apply(inp, stage, high).score
  {
    if stage == IvRankStage && inp.ivMultiplier.Some? {
      IvRankMonotone(low, high, inp.vix, inp.ivMultiplier.value);
    }
  }

  lemma IvRankMonotone(low: int, high: int, vix: real, mult: real)
    requires low <= high && mult >= 0.0
    ensures IvRank(low, vix, Some(mult)).score <= IvRank(high, vix, Some(mult)).score
  {
    ScaledMonotone(low, high, mult);
    ClampedRoundMonotone(Scaled(low, mult), Scaled(high, mult));
  }

  lemma ClampedRoundMonotone(x: real, y: real)
    requires x <= y
    ensures Clamp(NearestEven(x)) <= Clamp(NearestEven(y))
  {
    NearestEvenMonotone(x, y);
  }

  lemma ScaledMonotone(low: int, high: int, mult: real)
    requires low <= high && mult >= 0.0
    ensures Scaled(low, mult) <= Scaled(high, mult)
  {
    MulMonotone(low as real, high as real, mult);
  }

  lemma {:induction false} TrailMonotone(inp: Inputs, low: int, high: int, stages: seq<Stage>)
    requires low <= high
    requires inp.ivMultiplier.Some? ==> inp.ivMultiplier.value >= 0.0
    ensures Reached(low, Trail(inp, low, stages)) <= Reached(high, Trail(inp, high, stages))
  {
    if stages != [] {
      var init := stages[..|stages| - 1];
      TrailMonotone(inp, low, high, init);
      StageMonotone(inp, stages[|stages| - 1], Reached(low, Trail(inp, low, init)), Reached(high, Trail(inp, high, init)));
    }
  }

  /** The whole pipeline, rounding, clamps and cap included, keeps the order of base scores. */
  lemma FinalScoreMonotone(inp: Inputs, low: int, high: int, blocks: seq<string>)
    requires low <= high
    requires inp.ivMultiplier.Some? ==> inp.ivMultiplier.value >= 0.0
    ensures FinalScore(inp, low, blocks) <= FinalScore(inp, high, blocks)
  {
    TrailMonotone(inp, Start(low, blocks), Start(high, blocks), STAGES);
    AuditExplainsScore(inp, low, blocks);
    AuditExplainsScore(inp, high, blocks);
  }

  /** So a better base score never gets a worse tier, whatever the bounds. */
  lemma FinalTierMonotone(inp: Inputs, low: int, high: int, blocks: seq<string>)
    requires low <= high
    requires inp.ivMultiplier.Some? ==> inp.ivMultiplier.value >= 0.0
    ensures Rank(ClassifyTier(FinalScore(inp, low, blocks), inp.bounds)) <= Rank(ClassifyTier(FinalScore(inp, high, blocks), inp.bounds))
  {
    FinalScoreMonotone(inp, low, high, blocks);
  }

  /** Besides the blocks it had, a signal is tagged for lost volatility points, for the skew penalty and for
      a session that does not allow entries. */
  lemma TagsAre(inp: Inputs, baseScore: int, blocks: seq<string>)
    ensures var tagged := TaggedBlocks(inp, baseScore, blocks);
            && tagged[..|blocks|] == blocks
            && ("high_iv" in tagged[|blocks|..] <==> Audit(inp, baseScore, blocks)[0].score < Start(baseScore, blocks))
            && ("extreme_put_skew" in tagged[|blocks|..] <==> inp.skewPenalty.Some?)
  {
    AuditSteps(inp, baseScore, blocks);
    var tagged := TaggedBlocks(inp, baseScore, blocks);
    var iv := if Audit(inp, baseScore, blocks)[0].points < 0 then ["high_iv"] else [];
    assert tagged[|blocks|..] == iv + SkewTags(inp.skewPenalty) + SessionTags(inp.session);
    assert SessionTags(inp.session) != [] ==> "session_"[0] == SessionTags(inp.session)[0][0];
  }

  /** Under the hard block a signal is stopped exactly by a session that does not allow entries, whatever
      its name, or by a session block it had before. */
  lemma HardBlockedIff(inp: Inputs, baseScore: int, blocks: seq<string>)
    ensures HardBlocked(inp, TaggedBlocks(inp, baseScore, blocks))
       <==> && inp.sessionHardBlock
            && ((inp.session.Some? && !inp.session.value.allowed) || exists i :: 0 <= i < |blocks| && IsSessionBlock(blocks[i]))
  {
    var tagged := TaggedBlocks(inp, baseScore, blocks);
    if inp.sessionHardBlock && inp.session.Some? && !inp.session.value.allowed {
      ClosedSessionBlocks(inp, baseScore, blocks);
    }
    forall i | 0 <= i < |blocks| ensures tagged[i] == blocks[i] {
    }
    OtherTags();
  }

  lemma OtherTags()
    ensures !IsSessionBlock("high_iv") && !IsSessionBlock("extreme_put_skew")
  {
    assert "high_iv"[0] != "session_"[0] && "extreme_put_skew"[0] != "session_"[0];
  }

  /** Under the hard block no signal leaves a session that does not allow entries, whatever its name. */
  lemma ClosedSessionBlocks(inp: Inputs, baseScore: int, blocks: seq<string>)
    requires inp.sessionHardBlock && inp.session.Some? && !inp.session.value.allowed
    ensures HardBlocked(inp, TaggedBlocks(inp, baseScore, blocks))
  {
    var tagged := TaggedBlocks(inp, baseScore, blocks);
    var tag := "session_" + inp.session.value.name + "_blocked";
    assert tagged[|tagged| - 1] == tag;
    assert tag[|tag| - |"_blocked"|..] == "_blocked";
    assert IsSessionBlock(tag);
  }
}
