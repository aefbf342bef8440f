/** The rate limiter and the per-symbol cooldown in front of every alert. */
module AlertThrottle {
  import opened Sets
  import opened Wrappers

  datatype Limits = Limits(window: real, maxAlerts: nat, cooldown: real)

  // ---------------------------------------------------------------- sliding window

  ghost predicate Nondecreasing(times: seq<real>) {
    forall i, j :: 0 <= i < j < |times| ==> times[i] <= times[j]
  }

  /** Popping the stale front of the deque. */
  function Evict(recent: seq<real>, cutoff: real): seq<real> {
    if |recent| > 0 && recent[0] < cutoff then Evict(recent[1..], cutoff) else recent
  }

  /** The deque, and every grant of the run (which the code does not keep). */
  datatype Window = Window(recent: seq<real>, grants: seq<real>)

  /** One call of `_rate_limit_allows_dispatch` at time `now`. */
  function Request(l: Limits, w: Window, now: real): (r: (Window, bool)) {
    var live := Evict(w.recent, now - l.window);
    if |live| >= l.maxAlerts then (Window(live, w.grants), false)
    else (Window(live + [now], w.grants + [now]), true)
  }

  /** All calls of a run, one after the other. */
  function Requests(l: Limits, times: seq<real>): Window {
    if |times| == 0 then Window([], []) else Request(l, Requests(l, times[..|times| - 1]), times[|times| - 1]).0
  }

  /** The grants that lie in the closed interval from `lo` to `hi`, by position in the history. */
  ghost function GrantsIn(grants: seq<real>, lo: real, hi: real): set<nat> {
    set i: nat | i < |grants| && lo <= grants[i] <= hi
  }

  /** `maxAlerts` grants apart means more than a window apart. */
  ghost predicate Spread(l: Limits, grants: seq<real>) {
    forall i, j :: 0 <= i && i + l.maxAlerts <= j < |grants| ==> grants[j] - grants[i] > l.window
  }

  /** The deque is the tail of the history, and what it dropped is out of the window for good. */
  ghost predicate Faithful(l: Limits, w: Window, clock: real) {
    && Nondecreasing(w.grants)
    && (forall i :: 0 <= i < |w.grants| ==> w.grants[i] <= clock)
    && |w.recent| <= |w.grants|
    && w.recent == w.grants[|w.grants| - |w.recent|..]
    && (forall i :: 0 <= i < |w.grants| - |w.recent| ==> w.grants[i] < clock - l.window)
    && Spread(l, w.grants)
  }

  /** Evicting keeps exactly the entries at or after the cutoff. */
  lemma {:induction false} EvictKeepsTail(recent: seq<real>, cutoff: real)
    requires Nondecreasing(recent)
    ensures var live := Evict(recent, cutoff);
            && |live| <= |recent| && live == recent[|recent| - |live|..]
            && (forall i :: 0 <= i < |recent| - |live| ==> recent[i] < cutoff)
            && (forall i :: |recent| - |live| <= i < |recent| ==> recent[i] >= cutoff)
  {
    if |recent| > 0 && recent[0] < cutoff {
      EvictKeepsTail(recent[1..], cutoff);
      forall i | 0 < i < |recent| ensures recent[i] == recent[1..][i - 1] {
      }
    }
  }

  /** Evicting a tail of the history leaves the tail that is still in the window. */
  lemma EvictTail(grants: seq<real>, tail: nat, cutoff: real) returns (cut: nat)
    requires Nondecreasing(grants) && tail <= |grants|
    requires forall i :: 0 <= i < tail ==> grants[i] < cutoff
    ensures cut <= |grants| && Evict(grants[tail..], cutoff) == grants[cut..]
    ensures forall i :: 0 <= i < cut ==> grants[i] < cutoff
    ensures forall i :: cut <= i < |grants| ==> grants[i] >= cutoff
  {
    var recent := grants[tail..];
    EvictKeepsTail(recent, cutoff);
    var live := Evict(recent, cutoff);
    cut := |grants| - |live|;
    assert live == grants[cut..];
    forall i | tail <= i < cut ensures grants[i] < cutoff {
      assert grants[i] == recent[i - tail];
    }
    forall i | cut <= i < |grants| ensures grants[i] >= cutoff {
      assert grants[i] == recent[i - tail];
    }
  }

  /** After evicting, the deque holds the grants of the last window and no others. */
  lemma LiveIsWindow(l: Limits, w: Window, clock: real, now: real)
    requires Faithful(l, w, clock) && clock <= now
    ensures var live := Evict(w.recent, now - l.window);
            && Faithful(l, Window(live, w.grants), now)
            && (forall i :: |w.grants| - |live| <= i < |w.grants| ==> w.grants[i] >= now - l.window)
  {
    var cut := EvictTail(w.grants, |w.grants| - |w.recent|, now - l.window);
  }

  /** The deque refines a count over the whole history: a call is granted exactly when fewer than
      the maximum of all past grants lie in the closed window before it. */
  lemma GrantedIffRoom(l: Limits, w: Window, clock: real, now: real)
    requires Faithful(l, w, clock) && clock <= now
    ensures Request(l, w, now).1 <==> |GrantsIn(w.grants, now - l.window, now)| < l.maxAlerts
  {
    LiveIsWindow(l, w, clock, now);
    TailSize(w.grants, |w.grants| - |Evict(w.recent, now - l.window)|, now - l.window, now);
  }

  lemma TailSize(grants: seq<real>, cut: nat, lo: real, hi: real)
    requires cut <= |grants|
    requires forall i :: 0 <= i < cut ==> grants[i] < lo
    requires forall i :: cut <= i < |grants| ==> lo <= grants[i] <= hi
    ensures |GrantsIn(grants, lo, hi)| == |grants| - cut
  {
    IntervalSize(cut, |grants| - cut, GrantsIn(grants, lo, hi));
  }

  lemma SpreadSnoc(l: Limits, grants: seq<real>, now: real, live: nat)
    requires Spread(l, grants) && live < l.maxAlerts && live <= |grants|
    requires forall i :: 0 <= i < |grants| - live ==> grants[i] < now - l.window
    ensures Spread(l, grants + [now])
  {
  }

  lemma GrantStaysFaithful(l: Limits, w: Window, now: real)
    requires Faithful(l, w, now) && |w.recent| < l.maxAlerts
    ensures Faithful(l, Window(w.recent + [now], w.grants + [now]), now)
  {
    SpreadSnoc(l, w.grants, now, |w.recent|);
    TailSnoc(w.grants, |w.recent|, now);
    OrderSnoc(w.grants, now);
  }

  lemma OrderSnoc(s: seq<real>, x: real)
    requires Nondecreasing(s) && forall i :: 0 <= i < |s| ==> s[i] <= x
    ensures Nondecreasing(s + [x]) && forall i :: 0 <= i < |s + [x]| ==> (s + [x])[i] <= x
  {
  }

  lemma TailSnoc(s: seq<real>, n: nat, x: real)
    requires n <= |s|
    ensures (s + [x])[|s| - n..] == s[|s| - n..] + [x]
  {
  }

  lemma RequestStaysFaithful(l: Limits, w: Window, clock: real, now: real)
    requires Faithful(l, w, clock) && clock <= now
    ensures Faithful(l, Request(l, w, now).0, now)
  {
    LiveIsWindow(l, w, clock, now);
    var live := Evict(w.recent, now - l.window);
    if |live| < l.maxAlerts {
      GrantStaysFaithful(l, Window(live, w.grants), now);
    }
  }

  lemma {:induction false} RequestsFaithful(l: Limits, times: seq<real>, clock: real)
    requires Nondecreasing(times) && forall i :: 0 <= i < |times| ==> times[i] <= clock
    ensures Faithful(l, Requests(l, times), clock)
    decreases |times|
  {
    if |times| > 0 {
      var now := times[|times| - 1];
      RequestsFaithful(l, times[..|times| - 1], now);
      RequestStaysFaithful(l, Requests(l, times[..|times| - 1]), now, now);
    }
  }

  lemma SpreadBoundsWindow(l: Limits, grants: seq<real>, a: real)
    requires Nondecreasing(grants) && Spread(l, grants)
    ensures |GrantsIn(grants, a, a + l.window)| <= l.maxAlerts
  {
    var inside := GrantsIn(grants, a, a + l.window);
    if inside != {} {
      var lo := First(grants, a, 0);
      forall i | i in inside ensures lo <= i < lo + l.maxAlerts {
        assert grants[i] - grants[lo] <= l.window;
      }
      IntervalSize(lo, l.maxAlerts, inside);
    }
  }

  /** The first position from `k` on whose grant is at or after `a`. */
  ghost function First(grants: seq<real>, a: real, k: nat): (i: nat)
    requires k <= |grants|
    ensures k <= i <= |grants|
    ensures forall m :: k <= m < i ==> grants[m] < a
    ensures i < |grants| ==> grants[i] >= a
    decreases |grants| - k
  {
    if k == |grants| || grants[k] >= a then k else First(grants, a, k + 1)
  }

  /** In every run with a nondecreasing clock, every closed interval of one window length holds at most the maximum of grants. */
  lemma WindowNeverOverfull(l: Limits, times: seq<real>, a: real)
    requires Nondecreasing(times)
    ensures |GrantsIn(Requests(l, times).grants, a, a + l.window)| <= l.maxAlerts
  {
    var clock := if |times| == 0 then 0.0 else times[|times| - 1];
    RequestsFaithful(l, times, clock);
    SpreadBoundsWindow(l, Requests(l, times).grants, a);
  }

  // ---------------------------------------------------------------- dispatch

  /** One signal reaching the gates: `now` is read for the cooldown, `rateNow` a little later by the
      limiter; cash signals need no futures quote and have `quoteOk`. */
  datatype Event = Event(symbol: string, now: real, rateNow: real, dailyOk: bool, quoteOk: bool)

  datatype Alert = Alert(symbol: string, stamp: real)

  datatype Outcome = CoolingDown | RateLimited | DailyLimit | NoQuote | Sent

  /** `sent[i]` is the alert the i-th grant was used for; a grant can also be lost to a later gate. */
  datatype State = State(window: Window, lastAlert: map<string, real>, sent: seq<Option<Alert>>)

  const START := State(Window([], []), map[], [])

  function LastSent(st: State, symbol: string): real {
    if symbol in st.lastAlert then st.lastAlert[symbol] else 0.0
  }

  /** The gates of `_dispatch_alert_if_eligible` and `_dispatch_futures_alert_if_eligible` in their order. */
  function Dispatch(l: Limits, st: State, e: Event): (r: (State, Outcome))
    ensures r.1 != Sent ==> r.0.lastAlert == st.lastAlert
  {
    if e.now - LastSent(st, e.symbol) < l.cooldown then (st, CoolingDown)
    else
      var (window, allowed) := Request(l, st.window, e.rateNow);
      if !allowed then (st.(window := window), RateLimited)
      else if !e.dailyOk then (State(window, st.lastAlert, st.sent + [None]), DailyLimit)
      else if !e.quoteOk then (State(window, st.lastAlert, st.sent + [None]), NoQuote)
      else (State(window, st.lastAlert[e.symbol := e.now], st.sent + [Some(Alert(e.symbol, e.now))]), Sent)
  }

  /** The symbol's last alert, or the epoch if it has had none, is less than the cooldown ago. */
  predicate Cooling(l: Limits, lastAlert: map<string, real>, e: Event) {
    if e.symbol in lastAlert then e.now - lastAlert[e.symbol] < l.cooldown else e.now < l.cooldown
  }

  /** The closed window before the limiter's reading of the clock holds the maximum of grants. */
  ghost predicate WindowFull(l: Limits, grants: seq<real>, now: real) {
    |GrantsIn(grants, now - l.window, now)| >= l.maxAlerts
  }

  /** Which gate stops a signal, in their order; one that is sent has passed all four. */
  ghost predicate StoppedBy(l: Limits, st: State, e: Event, outcome: Outcome) {
    var cooling, full := Cooling(l, st.lastAlert, e), WindowFull(l, st.window.grants, e.rateNow);
    match outcome
    case CoolingDown => cooling
    case RateLimited => !cooling && full
    case DailyLimit => !cooling && !full && !e.dailyOk
    case NoQuote => !cooling && !full && e.dailyOk && !e.quoteOk
    case Sent => !cooling && !full && e.dailyOk && e.quoteOk
  }

  /** In every state a run can reach, the outcome of a signal is the one its gates give. */
  lemma OutcomeIsGate(l: Limits, st: State, clock: real, e: Event, outcome: Outcome)
    requires Faithful(l, st.window, clock) && clock <= e.rateNow
    ensures Dispatch(l, st, e).1 == outcome <==> StoppedBy(l, st, e, outcome)
  {
    GrantedIffRoom(l, st.window, clock, e.rateNow);
  }

  /** A place in the window is taken by every signal that passes the limiter, a place in the cooldown
      table only by one that is sent: a grant lost to a later gate costs the former, not the latter. */
  lemma GrantsSpent(l: Limits, st: State, e: Event)
    ensures var (next, outcome) := Dispatch(l, st, e);
            && next.window.grants == (if outcome == CoolingDown || outcome == RateLimited then st.window.grants
                                      else st.window.grants + [e.rateNow])
            && next.lastAlert == (if outcome == Sent then st.lastAlert[e.symbol := e.now] else st.lastAlert)
  {
  }

  /** So with one alert allowed per window, a signal lost to the daily limit stops the next symbol's
      signal in the same window, although nothing was sent. */
  lemma LostGrantBlocks(l: Limits, lost: Event, next: Event)
    requires l.maxAlerts == 1 && l.cooldown <= lost.now && l.cooldown <= next.now
    requires !lost.dailyOk && lost.symbol != next.symbol && lost.rateNow <= next.rateNow <= lost.rateNow + l.window
    ensures var after := Dispatch(l, START, lost).0;
            Dispatch(l, START, lost).1 == DailyLimit && after.lastAlert == map[] && Dispatch(l, after, next).1 == RateLimited
  {
    var after := Dispatch(l, START, lost).0;
    assert after.window == Window([lost.rateNow], [lost.rateNow]);
    assert Evict([lost.rateNow], next.rateNow - l.window) == [lost.rateNow];
  }

  function Dispatches(l: Limits, events: seq<Event>): State {
    if |events| == 0 then START else Dispatch(l, Dispatches(l, events[..|events| - 1]), events[|events| - 1]).0
  }

  /** The clock does not go back, within an event or between two. */
  ghost predicate Timely(events: seq<Event>) {
    && (forall i :: 0 <= i < |events| ==> events[i].now <= events[i].rateNow)
    && (forall i, j :: 0 <= i < j < |events| ==> events[i].rateNow <= events[j].now)
  }

  /** Two alerts for one symbol are at least the cooldown apart. */
  ghost predicate Apart(l: Limits, sent: seq<Option<Alert>>) {
    forall i, j :: 0 <= i < j < |sent| && sent[i].Some? && sent[j].Some? && sent[i].value.symbol == sent[j].value.symbol ==>
      sent[j].value.stamp - sent[i].value.stamp >= l.cooldown
  }

  /** The cooldown table knows the latest alert of every symbol, and nothing from the future. */
  ghost predicate Remembered(st: State, clock: real) {
    && (forall s :: s in st.lastAlert ==> st.lastAlert[s] <= clock)
    && (forall i :: 0 <= i < |st.sent| && st.sent[i].Some? ==>
          var alert := st.sent[i].value;
          alert.symbol in st.lastAlert && alert.stamp <= st.lastAlert[alert.symbol])
  }

  /** Every alert sits on one grant, the window is kept and so is the cooldown. */
  ghost predicate Throttled(l: Limits, st: State, clock: real) {
    && Faithful(l, st.window, clock)
    && |st.sent| == |st.window.grants|
    && Remembered(st, clock)
    && Apart(l, st.sent)
  }

  lemma SentKeepsCooldown(l: Limits, st: State, clock: real, e: Event, window: Window)
    requires Remembered(st, clock) && Apart(l, st.sent) && clock <= e.now
    requires e.now - LastSent(st, e.symbol) >= l.cooldown
    ensures var next := State(window, st.lastAlert[e.symbol := e.now], st.sent + [Some(Alert(e.symbol, e.now))]);
            Remembered(next, e.now) && Apart(l, next.sent)
  {
    var sent := st.sent + [Some(Alert(e.symbol, e.now))];
    forall i, j | 0 <= i < j < |sent| && sent[i].Some? && sent[j].Some? && sent[i].value.symbol == sent[j].value.symbol
      ensures sent[j].value.stamp - sent[i].value.stamp >= l.cooldown
    {
      assert sent[i] == st.sent[i];
      if j < |st.sent| {
        assert sent[j] == st.sent[j];
      }
    }
  }

  lemma LostKeepsCooldown(l: Limits, st: State, clock: real, now: real, window: Window)
    requires Remembered(st, clock) && Apart(l, st.sent) && clock <= now
    ensures var next := State(window, st.lastAlert, st.sent + [None]);
            Remembered(next, now) && Apart(l, next.sent)
  {
    var sent := st.sent + [None];
    forall i | 0 <= i < |sent| && sent[i].Some? ensures i < |st.sent| && sent[i] == st.sent[i] {
    }
  }

  lemma LaterStaysThrottled(l: Limits, st: State, clock: real, now: real)
    requires Throttled(l, st, clock) && clock <= now
    ensures Throttled(l, st, now)
  {
  }

  lemma RequestGrants(l: Limits, w: Window, now: real)
    ensures |Request(l, w, now).0.grants| == |w.grants| + if Request(l, w, now).1 then 1 else 0
  {
  }

  lemma DispatchStaysThrottled(l: Limits, st: State, clock: real, e: Event)
    requires Throttled(l, st, clock) && clock <= e.now <= e.rateNow
    ensures Throttled(l, Dispatch(l, st, e).0, e.rateNow)
  {
    if e.now - LastSent(st, e.symbol) < l.cooldown {
      LaterStaysThrottled(l, st, clock, e.rateNow);
    } else {
      var (window, allowed) := Request(l, st.window, e.rateNow);
      RequestStaysFaithful(l, st.window, clock, e.rateNow);
      RequestGrants(l, st.window, e.rateNow);
      if !allowed {
        assert Remembered(st.(window := window), e.rateNow);
      } else if e.dailyOk && e.quoteOk {
        SentKeepsCooldown(l, st, clock, e, window);
      } else {
        LostKeepsCooldown(l, st, clock, e.rateNow, window);
      }
    }
  }

  lemma {:induction false} DispatchesThrottled(l: Limits, events: seq<Event>, clock: real)
    requires Timely(events) && (|events| > 0 ==> events[|events| - 1].rateNow <= clock)
    ensures Throttled(l, Dispatches(l, events), clock)
    decreases |events|
  {
    if |events| > 0 {
      var e, before := events[|events| - 1], events[..|events| - 1];
      DispatchesThrottled(l, before, e.now);
      DispatchStaysThrottled(l, Dispatches(l, before), e.now, e);
    }
  }

  /** Over every run: alerts for one symbol keep the cooldown, and the alerts of any closed window length
      (counted by the grants they used) are at most the maximum. */
  lemma EveryRunIsThrottled(l: Limits, events: seq<Event>, a: real)
    requires Timely(events)
    ensures var st := Dispatches(l, events);
            && Apart(l, st.sent)
            && |set i: nat | i < |st.sent| && st.sent[i].Some? && i in GrantsIn(st.window.grants, a, a + l.window)| <= l.maxAlerts
  {
    var st := Dispatches(l, events);
    DispatchesThrottled(l, events, if |events| == 0 then 0.0 else events[|events| - 1].rateNow);
    SpreadBoundsWindow(l, st.window.grants, a);
    var all := GrantsIn(st.window.grants, a, a + l.window);
    var used := set i: nat | i < |st.sent| && st.sent[i].Some? && i in all;
    SubsetSize(used, all);
  }

  /** Event `e` is the one `alert` was sent for, and it had a quote and room in the day. */
  predicate SentFor(alert: Alert, e: Event) {
    alert.symbol == e.symbol && alert.stamp == e.now && e.dailyOk && e.quoteOk
  }

  ghost predicate HasEvent(events: seq<Event>, alert: Alert) {
    exists k :: 0 <= k < |events| && SentFor(alert, events[k])
  }

  /** Over every run: no alert is sent without a quote or beyond the daily limit. */
  lemma {:induction false} SentHadQuotes(l: Limits, events: seq<Event>, i: nat)
    requires i < |Dispatches(l, events).sent| && Dispatches(l, events).sent[i].Some?
    ensures HasEvent(events, Dispatches(l, events).sent[i].value)
  {
    var before, e := events[..|events| - 1], events[|events| - 1];
    var st := Dispatches(l, before);
    if i < |st.sent| {
      SentHadQuotes(l, before, i);
      var k :| 0 <= k < |before| && SentFor(st.sent[i].value, before[k]);
      assert SentFor(st.sent[i].value, events[k]);
    } else {
      assert SentFor(Dispatches(l, events).sent[i].value, events[|events| - 1]);
    }
  }

  // ---------------------------------------------------------------- the scanner's state

  class Scanner {
    const limits: Limits
    var recentDispatchTimes: seq<real>
    var lastAlertTime: map<string, real>
    ghost var grants: seq<real>
    ghost var sent: seq<Option<Alert>>
    ghost var clock: real

    ghost function Abs(): State
      reads this
    {
      State(Window(recentDispatchTimes, grants), lastAlertTime, sent)
    }

    ghost predicate Valid()
      reads this
    {
      Throttled(limits, Abs(), clock)
    }

    constructor (limits: Limits)
      ensures Valid() && Abs() == START && this.limits == limits
    {
      this.limits := limits;
      recentDispatchTimes := [];
      lastAlertTime := map[];
      grants, sent, clock := [], [], 0.0;
    }

    /** `_rate_limit_allows_dispatch` */
    method RateLimitAllowsDispatch(now: real) returns (allowed: bool)
      modifies this`recentDispatchTimes, this`grants
      ensures (Window(recentDispatchTimes, grants), allowed) == Request(limits, old(Abs().window), now)
    {
      var cutoff := now - limits.window;
      ghost var all := Evict(recentDispatchTimes, cutoff);
      while |recentDispatchTimes| > 0 && recentDispatchTimes[0] < cutoff
        invariant Evict(recentDispatchTimes, cutoff) == all && grants == old(grants)
        decreases |recentDispatchTimes|
      {
        recentDispatchTimes := recentDispatchTimes[1..];
      }
      if |recentDispatchTimes| >= limits.maxAlerts {
        return false;
      }
      recentDispatchTimes := recentDispatchTimes + [now];
      grants := grants + [now];
      return true;
    }

    /** The gates before an alert is formatted and sent. */
    method DispatchAlertIfEligible(e: Event) returns (outcome: Outcome)
      requires Valid() && clock <= e.now <= e.rateNow
      modifies this
      ensures Valid() && clock == e.rateNow
      ensures (Abs(), outcome) == Dispatch(limits, old(Abs()), e)
      ensures StoppedBy(limits, old(Abs()), e, outcome)
    {
      ghost var before := Abs();
      DispatchStaysThrottled(limits, before, clock, e);
      OutcomeIsGate(limits, before, clock, e, Dispatch(limits, before, e).1);
      clock := e.rateNow;
      var lastSent := if e.symbol in lastAlertTime then lastAlertTime[e.symbol] else 0.0;
      if e.now - lastSent < limits.cooldown {
        return CoolingDown;
      }
      var allowed := RateLimitAllowsDispatch(e.rateNow);
      if !allowed {
        return RateLimited;
      }
      if !e.dailyOk {
        sent := sent + [None];
        return DailyLimit;
      }
      if !e.quoteOk {
        sent := sent + [None];
        return NoQuote;
      }
      lastAlertTime := lastAlertTime[e.symbol := e.now];
      sent := sent + [Some(Alert(e.symbol, e.now))];
      return Sent;
    }
  }
}
