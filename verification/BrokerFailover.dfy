/** Switching between brokers on repeated failures. */
module BrokerFailover {
  import opened Wrappers

  datatype Settings = Settings(enabled: bool, threshold: int, chain: seq<string>, recoveryMins: real)

  datatype State = State(counts: map<string, nat>, active: nat, failoverTs: real)

  function Initial(p: Settings): State {
    State(map b | b in p.chain :: 0, 0, 0.0)
  }

  function CountOf(st: State, broker: string): nat {
    if broker in st.counts then st.counts[broker] else 0
  }

  // ---------------------------------------------------------------- operations

  function RecordSuccess(st: State, broker: string): State {
    if broker in st.counts then st.(counts := st.counts[broker := 0]) else st
  }

  function RecordFailure(p: Settings, st: State, broker: string, now: real): (State, bool)
    requires |p.chain| > 0
  {
    if !p.enabled then (st, false)
    else
      var count := CountOf(st, broker) + 1;
      var counted := st.(counts := st.counts[broker := count]);
      var active := if st.active < |p.chain| then p.chain[st.active] else "";
      var next := (st.active + 1) % |p.chain|;
      if broker != active || count < p.threshold || next == st.active then (counted, false)
      else (State(counted.counts[broker := 0], next, now), true)
  }

  function MaybeRecover(p: Settings, st: State, now: real): (State, bool) {
    if !p.enabled || st.active == 0 then (st, false)
    else if (now - st.failoverTs) / 60.0 >= p.recoveryMins then (State(st.counts, 0, 0.0), true)
    else (st, false)
  }

  function Reset(st: State): State {
    State(map b | b in st.counts :: 0, 0, 0.0)
  }

  // ---------------------------------------------------------------- runs

  datatype Op = Success(broker: string) | Failure(broker: string, now: real) | Recover(now: real) | ResetAll

  /** The state after an operation, and what it returned. */
  function Apply(p: Settings, st: State, op: Op): (State, bool)
    requires |p.chain| > 0
  {
    match op
    case Success(b) => (RecordSuccess(st, b), false)
    case Failure(b, now) => RecordFailure(p, st, b, now)
    case Recover(now) => MaybeRecover(p, st, now)
    case ResetAll => (Reset(st), false)
  }

  function Run(p: Settings, ops: seq<Op>): State
    requires |p.chain| > 0
  {
    if |ops| == 0 then Initial(p) else Apply(p, Run(p, ops[..|ops| - 1]), ops[|ops| - 1]).0
  }

  /** The last operation of `ops` triggered a failover. */
  predicate FailedOver(p: Settings, ops: seq<Op>)
    requires |p.chain| > 0
  {
    |ops| > 0 && ops[|ops| - 1].Failure? && Apply(p, Run(p, ops[..|ops| - 1]), ops[|ops| - 1]).1
  }

  /** How often `broker` was reported failing. */
  function FailuresOf(ops: seq<Op>, broker: string): nat {
    if |ops| == 0 then 0
    else FailuresOf(ops[..|ops| - 1], broker)
         + if ops[|ops| - 1].Failure? && ops[|ops| - 1].broker == broker then 1 else 0
  }

  /** How often the run switched away from `broker`. */
  function FailoversFrom(p: Settings, ops: seq<Op>, broker: string): nat
    requires |p.chain| > 0
  {
    if |ops| == 0 then 0
    else FailoversFrom(p, ops[..|ops| - 1], broker)
         + if FailedOver(p, ops) && ops[|ops| - 1].broker == broker then 1 else 0
  }

  /** When the run last switched to a backup. */
  function LastFailover(p: Settings, ops: seq<Op>): Option<real>
    requires |p.chain| > 0
  {
    if |ops| == 0 then None
    else if FailedOver(p, ops) then Some(ops[|ops| - 1].now)
    else LastFailover(p, ops[..|ops| - 1])
  }

  // ---------------------------------------------------------------- amortised failures

  /** One failure pays for at most one unit of `threshold * failovers + count`. */
  lemma FailurePays(p: Settings, st: State, broker: string, now: real, failovers: nat)
    requires |p.chain| > 0
    ensures var (next, switched) := RecordFailure(p, st, broker, now);
            p.threshold * (failovers + if switched then 1 else 0) + CountOf(next, broker)
              <= p.threshold * failovers + CountOf(st, broker) + 1
  {
    assert p.threshold * (failovers + 1) == p.threshold * failovers + p.threshold;
  }

  /** Every failover away from a broker costs `threshold` of its own failures, whatever successes,
      recoveries and resets come between; what is still counted comes on top. */
  lemma {:induction false} FailoverIsAmortised(p: Settings, ops: seq<Op>, broker: string)
    requires |p.chain| > 0
    ensures p.threshold * FailoversFrom(p, ops, broker) + CountOf(Run(p, ops), broker) <= FailuresOf(ops, broker)
  {
    if |ops| > 0 {
      var before, op := ops[..|ops| - 1], ops[|ops| - 1];
      var st := Run(p, before);
      FailoverIsAmortised(p, before, broker);
      if op.Failure? && op.broker == broker {
        FailurePays(p, st, broker, op.now, FailoversFrom(p, before, broker));
      }
    }
  }

  /** The bound is tight: `threshold` failures in a row of the active broker cause a failover. */
  lemma {:induction false} FailuresInARow(p: Settings, st: State, broker: string, times: seq<real>)
    requires |p.chain| > 1 && p.enabled && p.threshold >= 1
    requires st.active < |p.chain| && broker == p.chain[st.active]
    requires |times| > 0 && CountOf(st, broker) + |times| == p.threshold
    ensures var before := FailAll(p, st, broker, times[..|times| - 1]);
            && before.active == st.active
            && RecordFailure(p, before, broker, times[|times| - 1]).1
            && FailAll(p, st, broker, times).active == (st.active + 1) % |p.chain|
  {
    FailingBelowThreshold(p, st, broker, times[..|times| - 1]);
  }

  function FailAll(p: Settings, st: State, broker: string, times: seq<real>): State
    requires |p.chain| > 0
  {
    if |times| == 0 then st
    else RecordFailure(p, FailAll(p, st, broker, times[..|times| - 1]), broker, times[|times| - 1]).0
  }

  lemma {:induction false} FailingBelowThreshold(p: Settings, st: State, broker: string, times: seq<real>)
    requires |p.chain| > 1 && p.enabled && st.active < |p.chain| && broker == p.chain[st.active]
    requires CountOf(st, broker) + |times| < p.threshold
    ensures var after := FailAll(p, st, broker, times);
            after.active == st.active && CountOf(after, broker) == CountOf(st, broker) + |times|
  {
    if |times| > 0 {
      FailingBelowThreshold(p, st, broker, times[..|times| - 1]);
    }
  }

  // ---------------------------------------------------------------- what is counted

  /** The failures reported of `broker` since its last success, the last reset and the last switch away from it. */
  function FailuresSince(p: Settings, ops: seq<Op>, broker: string): nat
    requires |p.chain| > 0
  {
    if |ops| == 0 then 0
    else
      var before := FailuresSince(p, ops[..|ops| - 1], broker);
      match ops[|ops| - 1]
      case Success(b) => if b == broker then 0 else before
      case Failure(b, _) => if b != broker then before else if FailedOver(p, ops) then 0 else before + 1
      case Recover(_) => before
      case ResetAll => 0
  }

  /** In every run the count of a broker is that of its failures since; with the failover off it stays 0. */
  lemma {:induction false} CountIsFailuresSince(p: Settings, ops: seq<Op>, broker: string)
    requires |p.chain| > 0
    ensures CountOf(Run(p, ops), broker) == if p.enabled then FailuresSince(p, ops, broker) else 0
  {
    if |ops| > 0 {
      CountIsFailuresSince(p, ops[..|ops| - 1], broker);
    }
  }

  lemma NextIndex(i: nat, n: nat)
    requires i < n
    ensures (i + 1) % n == if i + 1 == n then 0 else i + 1
  {
    if i + 1 == n {
      assert n % n == 0;
    }
  }

  /** A failure of `broker` with `count` failures since switches exactly if it is one of the active broker,
      the count is full with it and the chain has another broker; then to the next one, the first after the last. */
  ghost predicate SwitchesWhenFull(p: Settings, st: State, broker: string, now: real, count: nat, next: State, switched: bool)
    requires st.active < |p.chain|
  {
    && (switched <==> p.enabled && broker == p.chain[st.active] && |p.chain| > 1 && count + 1 >= p.threshold)
    && next.active == (if !switched then st.active else if st.active + 1 == |p.chain| then 0 else st.active + 1)
    && next.failoverTs == if switched then now else st.failoverTs
  }

  lemma FailureSwitches(p: Settings, st: State, broker: string, now: real, count: nat)
    requires st.active < |p.chain| && (p.enabled ==> CountOf(st, broker) == count)
    ensures var (next, switched) := RecordFailure(p, st, broker, now);
            SwitchesWhenFull(p, st, broker, now, count, next, switched)
  {
    NextIndex(st.active, |p.chain|);
  }

  /** In every run. */
  lemma SwitchIff(p: Settings, ops: seq<Op>, broker: string, now: real)
    requires |p.chain| > 0
    ensures Run(p, ops).active < |p.chain|
    ensures var (next, switched) := RecordFailure(p, Run(p, ops), broker, now);
            SwitchesWhenFull(p, Run(p, ops), broker, now, FailuresSince(p, ops, broker), next, switched)
  {
    EveryRun(p, ops);
    CountIsFailuresSince(p, ops, broker);
    FailureSwitches(p, Run(p, ops), broker, now, FailuresSince(p, ops, broker));
  }

  // ---------------------------------------------------------------- index and recovery

  /** The index stays in the chain, and on a backup the timestamp is that of the last failover. */
  lemma {:induction false} EveryRun(p: Settings, ops: seq<Op>)
    requires |p.chain| > 0
    ensures var st := Run(p, ops);
            st.active < |p.chain| && (st.active != 0 ==> LastFailover(p, ops) == Some(st.failoverTs))
  {
    if |ops| > 0 {
      EveryRun(p, ops[..|ops| - 1]);
    }
  }

  /** Recovery to the primary happens exactly from a backup, and not before the recovery window has
      passed since the last failover. */
  lemma RecoversAfterWindow(p: Settings, ops: seq<Op>, now: real)
    requires |p.chain| > 0
    ensures MaybeRecover(p, Run(p, ops), now).1
       <==> && p.enabled
            && Run(p, ops).active != 0
            && LastFailover(p, ops).Some?
            && now - LastFailover(p, ops).value >= p.recoveryMins * 60.0
  {
    EveryRun(p, ops);
  }

  // ---------------------------------------------------------------- the manager

  class BrokerFailoverManager {
    const settings: Settings
    var counts: map<string, nat>
    var activeIdx: nat
    var failoverTs: real

    ghost predicate Valid()
      reads this
    {
      |settings.chain| > 0 && activeIdx < |settings.chain|
    }

    ghost function Abs(): State
      reads this
    {
      State(counts, activeIdx, failoverTs)
    }

    constructor (settings: Settings)
      requires |settings.chain| > 0
      ensures Valid() && this.settings == settings && Abs() == Initial(settings)
    {
      this.settings := settings;
      counts := map b | b in settings.chain :: 0;
      activeIdx := 0;
      failoverTs := 0.0;
    }

    /** `get_active_broker`, in any state. In a valid one the fallbacks are dead, and the broker it
        names is the only one whose failures can cause a failover. */
    method ActiveBroker() returns (broker: string)
      ensures |settings.chain| == 0 ==> broker == "kite"
      ensures |settings.chain| > 0 ==> broker in settings.chain
      ensures Valid() ==> forall b, now :: RecordFailure(settings, Abs(), b, now).1 ==> b == broker
    {
      if activeIdx < |settings.chain| {
        return settings.chain[activeIdx];
      }
      broker := if |settings.chain| > 0 then settings.chain[0] else "kite";
    }

    method OnSuccess(broker: string)
      requires Valid()
      modifies this`counts
      ensures Valid() && Abs() == RecordSuccess(old(Abs()), broker)
    {
      if broker in counts {
        counts := counts[broker := 0];
      }
    }

    method OnFailure(broker: string, now: real) returns (switched: bool)
      requires Valid()
      modifies this
      ensures Valid() && (Abs(), switched) == RecordFailure(settings, old(Abs()), broker, now)
      ensures switched ==> activeIdx == (old(activeIdx) + 1) % |settings.chain| && failoverTs == now
      ensures switched ==> |settings.chain| > 1 && broker == settings.chain[old(activeIdx)]
      ensures !switched ==> activeIdx == old(activeIdx) && failoverTs == old(failoverTs)
    {
      if !settings.enabled {
        return false;
      }
      if broker !in counts {
        counts := counts[broker := 0];
      }
      counts := counts[broker := counts[broker] + 1];
      assert counts == old(counts)[broker := CountOf(old(Abs()), broker) + 1];
      if broker != settings.chain[activeIdx] {
        return false;
      }
      if counts[broker] < settings.threshold {
        return false;
      }
      var next := (activeIdx + 1) % |settings.chain|;
      if next == activeIdx {
        return false;
      }
      counts := counts[broker := 0];
      activeIdx := next;
      failoverTs := now;
      return true;
    }

    method TryRecover(now: real) returns (recovered: bool)
      requires Valid()
      modifies this`activeIdx, this`failoverTs
      ensures Valid() && (Abs(), recovered) == MaybeRecover(settings, old(Abs()), now)
      ensures recovered <==>
                settings.enabled && old(activeIdx) != 0 && now - old(failoverTs) >= settings.recoveryMins * 60.0
      ensures if recovered then activeIdx == 0 && failoverTs == 0.0
              else activeIdx == old(activeIdx) && failoverTs == old(failoverTs)
    {
      if !settings.enabled || activeIdx == 0 {
        return false;
      }
      var elapsed := (now - failoverTs) / 60.0;
      if elapsed >= settings.recoveryMins {
        activeIdx := 0;
        failoverTs := 0.0;
        return true;
      }
      return false;
    }

    method ResetCounts()
      requires Valid()
      modifies this
      ensures Valid() && Abs() == Reset(old(Abs()))
    {
      counts := map b | b in counts :: 0;
      activeIdx := 0;
      failoverTs := 0.0;
    }
  }
}
