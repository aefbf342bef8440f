/** What both backtest engines share: bars, the exit rule of an open position and the first bar it fires on. */
module ExitRules {
  import opened Wrappers

  datatype Bar = Bar(open: real, high: real, low: real, close: real)

  /** The engines treat every direction other than "CALL" alike. */
  datatype Side = Call | Put

  datatype ExitReason = StopLoss | TakeProfit | TimeExit

  datatype Fill = Fill(price: real, reason: ExitReason)

  /** The part of a position its exit depends on. */
  datatype Bracket = Bracket(side: Side, stop: real, target: real, entryIdx: int, maxBars: int)
  {
    predicate StopTouched(bar: Bar) {
      if side.Call? then bar.low <= stop else bar.high >= stop
    }

    predicate TargetTouched(bar: Bar) {
      if side.Call? then bar.high >= target else bar.low <= target
    }

    predicate Expired(idx: int) {
      idx - entryIdx >= maxBars
    }

    /** Some reason to leave holds at bar `idx`. */
    predicate Qualifies(bar: Bar, idx: int) {
      StopTouched(bar) || TargetTouched(bar) || Expired(idx)
    }

    /** `_maybe_exit_bar`: the side is tested once, the stop before the target, the holding limit last. */
    function ExitAt(bar: Bar, idx: int): (fill: Option<Fill>)
      ensures fill.Some? <==> Qualifies(bar, idx)
      ensures fill.Some? ==> (fill.value.reason == StopLoss <==> StopTouched(bar))
      ensures fill.Some? ==> (fill.value.reason == TakeProfit <==> TargetTouched(bar) && !StopTouched(bar))
      ensures fill.Some? ==> fill.value.price ==
                             match fill.value.reason case StopLoss => stop case TakeProfit => target case TimeExit => bar.close
    {
      var touch :=
        if side.Call? then
          if bar.low <= stop then Some(Fill(stop, StopLoss))
          else if bar.high >= target then Some(Fill(target, TakeProfit))
          else None
        else
          if bar.high >= stop then Some(Fill(stop, StopLoss))
          else if bar.low <= target then Some(Fill(target, TakeProfit))
          else None;
      if touch.Some? then touch
      else if idx - entryIdx >= maxBars then Some(Fill(bar.close, TimeExit))
      else None
    }

    /** The first bar at or after `from` on which the position may be left; the length of the series if none. */
    ghost function FirstTouch(bars: seq<Bar>, from: nat): (j: nat)
      requires from <= |bars|
      ensures from <= j <= |bars|
      ensures forall i :: from <= i < j ==> !Qualifies(bars[i], i)
      ensures j < |bars| ==> Qualifies(bars[j], j)
      decreases |bars| - from
    {
      if from == |bars| || Qualifies(bars[from], from) then from else FirstTouch(bars, from + 1)
    }
  }

  /** The two series agree on the bars 0..k. */
  ghost predicate AgreeUpTo(b1: seq<Bar>, b2: seq<Bar>, k: nat) {
    k < |b1| && k < |b2| && b1[..k + 1] == b2[..k + 1]
  }

  lemma AgreeBelow(b1: seq<Bar>, b2: seq<Bar>, k: nat, j: nat)
    requires AgreeUpTo(b1, b2, k) && j <= k
    ensures b1[..j + 1] == b2[..j + 1] && b1[j] == b2[j]
  {
    assert b1[..j + 1] == b1[..k + 1][..j + 1] == b2[..j + 1];
    assert b1[j] == b1[..k + 1][j] == b2[j];
  }

  /** A position left later than the first bar examined is left within its holding limit. */
  lemma HeldWithinLimit(b: Bracket, bars: seq<Bar>, from: nat)
    requires from <= |bars|
    ensures var j := b.FirstTouch(bars, from); from < j < |bars| ==> j - b.entryIdx <= b.maxBars
  {
    var j := b.FirstTouch(bars, from);
    if from < j < |bars| {
      assert !b.Qualifies(bars[j - 1], j - 1);
    }
  }

  /** The first touch does not move when untouched bars are dropped from the search. */
  lemma FirstTouchSkip(b: Bracket, bars: seq<Bar>, from: nat)
    requires from < |bars| && !b.Qualifies(bars[from], from)
    ensures b.FirstTouch(bars, from) == b.FirstTouch(bars, from + 1)
  {
  }
}
