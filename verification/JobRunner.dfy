/** The single-flight cache of core/bi_job_runner.py as atomic steps of interleaved callers and workers. */
module JobRunner {
  import opened Wrappers

  type Key = string

  /** What a job returns; `None` is Python's `None`. */
  type Data = Option<int>

  /** `serial` numbers the stores of a run; the code keeps only data and timestamp. */
  datatype Entry = Entry(data: Data, timestamp: real, serial: nat)

  // ---------------------------------------------------------------- critical sections

  /** `get_cached` as `execute_isolated` uses it: an entry young enough whose data is not `None`. */
  function FreshData(cache: map<Key, Entry>, key: Key, maxAge: real, now: real): Data {
    if key in cache && now - cache[key].timestamp <= maxAge then cache[key].data else None
  }

  function Stored(cache: map<Key, Entry>, key: Key, data: Data, now: real, serial: nat): map<Key, Entry> {
    cache[key := Entry(data, now, serial)]
  }

  function Cleared(cache: map<Key, Entry>, key: Option<Key>): map<Key, Entry> {
    if key.Some? && key.value != "" then cache - {key.value} else map[]
  }

  // ---------------------------------------------------------------- the protocol

  /** How a call was answered. */
  datatype Source = Fresh | Stale | Polled | TimedOut | Own

  /** Where a call of `execute_isolated`, with the worker it may own, stands. */
  datatype Pc =
    | Called
    | Missed
    | Claimed
    | Computing
    | Computed(result: Data)
    | Kept(result: Data, serial: nat)
    | Raised
    | SawRunning
    | Polling(turns: nat)
    | Failed
    | Done(answer: Data, source: Source, serial: nat)

  /** `since` is the number of stores before the call. */
  datatype Caller = Caller(key: Key, maxAge: real, force: bool, since: nat, pc: Pc)

  /** `owner` names the call that claimed a running job; `clears` and `cleared` are the store counts
      at the last clear of a key and of everything. */
  datatype State = State(
    now: real, cache: map<Key, Entry>, running: map<Key, real>, callers: map<nat, Caller>,
    stores: nat, owner: map<Key, nat>, clears: map<Key, nat>, cleared: nat)

  datatype Action =
    | Call(id: nat, key: Key, maxAge: real, force: bool)
    | CheckCache(id: nat)
    | CheckRunning(id: nat)
    | StartWorker(id: nat)
    | Return(id: nat, result: Data)
    | Raise(id: nat)
    | Store(id: nat)
    | Release(id: nat)
    | LookStale(id: nat)
    | PollTurn(id: nat)
    | StoreOutside(key: Key, data: Data)
    | Clear(which: Option<Key>)
    | Tick(elapsed: real)

  const START := State(0.0, map[], map[], map[], 0, map[], map[], 0)

  /** The step of call `id` that a given action performs is due. */
  predicate Enabled(st: State, a: Action) {
    match a
    case Call(id, _, _, _) => id !in st.callers
    case CheckCache(id) => id in st.callers && st.callers[id].pc == Called
    case CheckRunning(id) => id in st.callers && st.callers[id].pc == Missed
    case StartWorker(id) => id in st.callers && st.callers[id].pc == Claimed
    case Return(id, _) => id in st.callers && st.callers[id].pc == Computing
    case Raise(id) => id in st.callers && st.callers[id].pc == Computing
    case Store(id) => id in st.callers && st.callers[id].pc.Computed?
    case Release(id) => id in st.callers && (st.callers[id].pc.Kept? || st.callers[id].pc.Raised?)
    case LookStale(id) => id in st.callers && st.callers[id].pc == SawRunning
    case PollTurn(id) => id in st.callers && st.callers[id].pc.Polling?
    case Tick(elapsed) => elapsed >= 0.0
    case _ => true
  }

  function Goto(st: State, id: nat, pc: Pc): State
    requires id in st.callers
  {
    st.(callers := st.callers[id := st.callers[id].(pc := pc)])
  }

  /** Thirty seconds of half-second sleeps. */
  const MAX_TURNS := 60

  function PollResult(st: State, key: Key, turns: nat): Pc {
    if key !in st.running then
      if key in st.cache then Done(st.cache[key].data, Polled, st.cache[key].serial) else Done(None, Polled, 0)
    else if turns + 1 >= MAX_TURNS then Done(None, TimedOut, 0)
    else Polling(turns + 1)
  }

  /** The actions that move one call on and leave the cache alone. */
  predicate MovesOneCall(a: Action) {
    !a.Call? && !a.Store? && !a.StoreOutside? && !a.Clear? && !a.Tick?
  }

  function CheckCachePc(st: State, c: Caller): Pc {
    var hit := if c.force then None else FreshData(st.cache, c.key, c.maxAge, st.now);
    if hit.Some? then Done(hit, Fresh, st.cache[c.key].serial) else Missed
  }

  function LookStalePc(st: State, key: Key): Pc {
    if key in st.cache then Done(st.cache[key].data, Stale, st.cache[key].serial) else Polling(0)
  }

  /** Where such an action leaves its call. */
  function NextPc(st: State, a: Action): Pc
    requires Enabled(st, a) && MovesOneCall(a)
  {
    match a
    case CheckCache(id) => CheckCachePc(st, st.callers[id])
    case CheckRunning(id) => if st.callers[id].key in st.running then SawRunning else Claimed
    case StartWorker(id) => Computing
    case Return(id, result) => Computed(result)
    case Raise(id) => Pc.Raised
    case Release(id) =>
      var pc := st.callers[id].pc;
      if pc.Kept? then Done(pc.result, Own, pc.serial) else Failed
    case LookStale(id) => LookStalePc(st, st.callers[id].key)
    case PollTurn(id) => PollResult(st, st.callers[id].key, st.callers[id].pc.turns)
  }

  function Step(st: State, a: Action): State
    requires Enabled(st, a)
  {
    match a
    case Call(id, key, maxAge, force) =>
      st.(callers := st.callers[id := Caller(key, maxAge, force, st.stores, Called)])
    case CheckRunning(id) =>
      var key := st.callers[id].key;
      var moved := Goto(st, id, NextPc(st, a));
      if key in st.running then moved
      else moved.(running := st.running[key := st.now], owner := st.owner[key := id])
    case Release(id) =>
      var key := st.callers[id].key;
      Goto(st, id, NextPc(st, a)).(running := st.running - {key}, owner := st.owner - {key})
    case Store(id) =>
      var c := st.callers[id];
      var serial := st.stores + 1;
      Goto(st, id, Kept(c.pc.result, serial))
        .(cache := Stored(st.cache, c.key, c.pc.result, st.now, serial), stores := serial)
    case StoreOutside(key, data) =>
      st.(cache := Stored(st.cache, key, data, st.now, st.stores + 1), stores := st.stores + 1)
    case Clear(which) =>
      var cache := Cleared(st.cache, which);
      if which.Some? && which.value != "" then st.(cache := cache, clears := st.clears[which.value := st.stores])
      else st.(cache := cache, cleared := st.stores)
    case Tick(elapsed) => st.(now := st.now + elapsed)
    case _ => Goto(st, a.id, NextPc(st, a))
  }

  /** The state after a list of actions, if each was enabled when its turn came. */
  function Run(actions: seq<Action>): Option<State> {
    if |actions| == 0 then Some(START)
    else
      var before := Run(actions[..|actions| - 1]);
      var a := actions[|actions| - 1];
      if before.Some? && Enabled(before.value, a) then Some(Step(before.value, a)) else None
  }

  // ---------------------------------------------------------------- invariants

  predicate Owns(pc: Pc) {
    pc.Claimed? || pc.Computing? || pc.Computed? || pc.Kept? || pc.Raised?
  }

  /** Owners and running jobs correspond one to one. */
  ghost predicate OneOwner(st: State) {
    && st.owner.Keys == st.running.Keys
    && (forall k :: k in st.owner ==> st.owner[k] in st.callers)
    && (forall k :: k in st.owner ==> st.callers[st.owner[k]].key == k && Owns(st.callers[st.owner[k]].pc))
    && (forall id :: id in st.callers && Owns(st.callers[id].pc) ==>
          st.callers[id].key in st.owner && st.owner[st.callers[id].key] == id)
  }

  /** A call that polls has only seen entries younger than itself, and so is answered by one. */
  ghost predicate SeesNew(cache: map<Key, Entry>, stores: nat, c: Caller) {
    && c.since <= stores
    && (c.pc.Polling? ==> c.pc.turns < MAX_TURNS && (c.key in cache ==> cache[c.key].serial > c.since))
    && (c.pc.Done? && c.pc.source == Polled ==> c.pc.serial == 0 || c.pc.serial > c.since)
  }

  ghost predicate PollersSeeNew(st: State) {
    && (forall k :: k in st.cache ==> 0 < st.cache[k].serial <= st.stores)
    && (forall id :: id in st.callers ==> SeesNew(st.cache, st.stores, st.callers[id]))
  }

  function LastClear(st: State, key: Key): nat {
    var one := if key in st.clears then st.clears[key] else 0;
    if one > st.cleared then one else st.cleared
  }

  /** The store with number `serial` put `data` under `key`: unless cleared, it is still there or a later one is. */
  ghost predicate StillThere(st: State, key: Key, data: Data, serial: nat) {
    && serial <= st.stores
    && (serial > LastClear(st, key) ==>
          && key in st.cache
          && st.cache[key].serial >= serial
          && (st.cache[key].serial == serial ==> st.cache[key].data == data))
  }

  ghost predicate ResultKept(st: State, c: Caller) {
    && (c.pc.Kept? ==> StillThere(st, c.key, c.pc.result, c.pc.serial))
    && (c.pc.Done? && c.pc.source == Own ==> StillThere(st, c.key, c.pc.answer, c.pc.serial))
  }

  ghost predicate ResultsKept(st: State) {
    forall id :: id in st.callers ==> ResultKept(st, st.callers[id])
  }

  ghost predicate Inv(st: State) {
    OneOwner(st) && PollersSeeNew(st) && ResultsKept(st)
  }

  // ---------------------------------------------------------------- every step keeps them

  lemma GotoKeepsOwner(st: State, id: nat, pc: Pc)
    requires OneOwner(st) && id in st.callers && Owns(st.callers[id].pc) == Owns(pc)
    ensures OneOwner(Goto(st, id, pc))
  {
  }

  lemma ClaimKeepsOwner(st: State, id: nat)
    requires OneOwner(st) && id in st.callers && st.callers[id].pc == Missed && st.callers[id].key !in st.running
    ensures OneOwner(Step(st, CheckRunning(id)))
  {
  }

  lemma ReleaseKeepsOwner(st: State, id: nat)
    requires OneOwner(st) && Enabled(st, Release(id))
    ensures OneOwner(Step(st, Release(id)))
  {
    var key := st.callers[id].key;
    assert st.owner[key] == id;
  }

  /** Except at claim and release a call stays an owner or stays none. */
  lemma SameOwnership(st: State, a: Action)
    requires Enabled(st, a) && MovesOneCall(a) && !a.CheckRunning? && !a.Release?
    ensures Owns(st.callers[a.id].pc) == Owns(NextPc(st, a))
  {
  }

  lemma OneOwnerStep(st: State, a: Action)
    requires OneOwner(st) && Enabled(st, a)
    ensures OneOwner(Step(st, a))
  {
    match a
    case Call(_, _, _, _) =>
    case CheckRunning(id) =>
      if st.callers[id].key in st.running {
        GotoKeepsOwner(st, id, SawRunning);
      } else {
        ClaimKeepsOwner(st, id);
      }
    case Release(id) => ReleaseKeepsOwner(st, id);
    case Store(id) => StoreKeepsOwner(st, id);
    case StoreOutside(_, _) =>
    case Clear(_) =>
    case Tick(_) =>
    case _ =>
      SameOwnership(st, a);
      GotoKeepsOwner(st, a.id, NextPc(st, a));
  }

  lemma StoreKeepsOwner(st: State, id: nat)
    requires OneOwner(st) && Enabled(st, Store(id))
    ensures OneOwner(Step(st, Store(id)))
  {
    var result := st.callers[id].pc.result;
    GotoKeepsOwner(st, id, Kept(result, st.stores + 1));
  }

  lemma GotoKeepsPollers(st: State, id: nat, pc: Pc)
    requires PollersSeeNew(st) && id in st.callers && SeesNew(st.cache, st.stores, st.callers[id].(pc := pc))
    ensures PollersSeeNew(Goto(st, id, pc))
  {
  }

  lemma StoreKeepsPollers(st: State, key: Key, data: Data)
    requires PollersSeeNew(st)
    ensures PollersSeeNew(Step(st, StoreOutside(key, data)))
  {
    var next := Step(st, StoreOutside(key, data));
    forall id | id in next.callers ensures SeesNew(next.cache, next.stores, next.callers[id]) {
      assert SeesNew(st.cache, st.stores, st.callers[id]);
    }
  }

  lemma ClearKeepsPollers(st: State, which: Option<Key>)
    requires PollersSeeNew(st)
    ensures PollersSeeNew(Step(st, Clear(which)))
  {
    var next := Step(st, Clear(which));
    forall id | id in next.callers ensures SeesNew(next.cache, next.stores, next.callers[id]) {
      assert SeesNew(st.cache, st.stores, st.callers[id]);
    }
  }

  lemma MovedSeesNew(st: State, a: Action)
    requires PollersSeeNew(st) && Enabled(st, a) && MovesOneCall(a)
    ensures SeesNew(st.cache, st.stores, st.callers[a.id].(pc := NextPc(st, a)))
  {
    assert SeesNew(st.cache, st.stores, st.callers[a.id]);
  }

  lemma MoveKeepsPollers(st: State, a: Action)
    requires PollersSeeNew(st) && Enabled(st, a) && MovesOneCall(a)
    ensures PollersSeeNew(Step(st, a))
  {
    MovedSeesNew(st, a);
    GotoKeepsPollers(st, a.id, NextPc(st, a));
    MovedShape(st, a);
  }

  lemma CallKeepsPollers(st: State, a: Action)
    requires PollersSeeNew(st) && Enabled(st, a) && a.Call?
    ensures PollersSeeNew(Step(st, a))
  {
  }

  lemma PollersStep(st: State, a: Action)
    requires PollersSeeNew(st) && Enabled(st, a)
    ensures PollersSeeNew(Step(st, a))
  {
    match a
    case Call(_, _, _, _) => CallKeepsPollers(st, a);
    case Store(id) =>
      var c := st.callers[id];
      StoreKeepsPollers(st, c.key, c.pc.result);
      GotoKeepsPollers(Step(st, StoreOutside(c.key, c.pc.result)), id, Kept(c.pc.result, st.stores + 1));
    case StoreOutside(key, data) => StoreKeepsPollers(st, key, data);
    case Clear(which) => ClearKeepsPollers(st, which);
    case Tick(_) =>
    case _ => MoveKeepsPollers(st, a);
  }

  /** A moving step changes the callers as `Goto` does, and the cache not at all. */
  lemma MovedShape(st: State, a: Action)
    requires Enabled(st, a) && MovesOneCall(a)
    ensures var next, moved := Step(st, a), Goto(st, a.id, NextPc(st, a));
            && next.callers == moved.callers && next.cache == st.cache && next.stores == st.stores
            && next.clears == st.clears && next.cleared == st.cleared
  {
  }

  /** None of these steps keeps a result, and only a release ends with an own one: the one kept. */
  lemma MovedResult(st: State, a: Action)
    requires Enabled(st, a) && MovesOneCall(a) && ResultKept(st, st.callers[a.id])
    ensures ResultKept(st, st.callers[a.id].(pc := NextPc(st, a)))
  {
  }

  lemma GotoKeepsResults(st: State, id: nat, pc: Pc)
    requires ResultsKept(st) && id in st.callers && ResultKept(st, st.callers[id].(pc := pc))
    ensures ResultsKept(Goto(st, id, pc))
  {
    var next := Goto(st, id, pc);
    forall i | i in next.callers ensures ResultKept(next, next.callers[i]) {
      assert ResultKept(st, next.callers[i]);
    }
  }

  lemma StoreKeepsResults(st: State, key: Key, data: Data)
    requires PollersSeeNew(st) && ResultsKept(st)
    ensures ResultsKept(Step(st, StoreOutside(key, data)))
  {
    var next := Step(st, StoreOutside(key, data));
    forall id | id in next.callers ensures ResultKept(next, next.callers[id]) {
      assert ResultKept(st, st.callers[id]);
    }
  }

  lemma ClearKeepsResults(st: State, which: Option<Key>)
    requires ResultsKept(st)
    ensures ResultsKept(Step(st, Clear(which)))
  {
    var next := Step(st, Clear(which));
    forall id | id in next.callers ensures ResultKept(next, next.callers[id]) {
      assert ResultKept(st, st.callers[id]);
    }
  }

  lemma ResultsStep(st: State, a: Action)
    requires PollersSeeNew(st) && ResultsKept(st) && Enabled(st, a)
    ensures ResultsKept(Step(st, a))
  {
    match a
    case Call(_, _, _, _) => CallKeepsResults(st, a);
    case Store(id) =>
      var c := st.callers[id];
      StoreKeepsResults(st, c.key, c.pc.result);
      GotoKeepsResults(Step(st, StoreOutside(c.key, c.pc.result)), id, Kept(c.pc.result, st.stores + 1));
    case StoreOutside(key, data) => StoreKeepsResults(st, key, data);
    case Clear(which) => ClearKeepsResults(st, which);
    case Tick(_) => SameResults(st, Step(st, a));
    case _ => MoveKeepsResults(st, a);
  }

  lemma CallKeepsResults(st: State, a: Action)
    requires ResultsKept(st) && Enabled(st, a) && a.Call?
    ensures ResultsKept(Step(st, a))
  {
    var next := Step(st, a);
    forall i | i in next.callers ensures ResultKept(next, next.callers[i]) {
      assert i != a.id ==> ResultKept(st, st.callers[i]);
    }
  }

  lemma MoveKeepsResults(st: State, a: Action)
    requires ResultsKept(st) && Enabled(st, a) && MovesOneCall(a)
    ensures ResultsKept(Step(st, a))
  {
    MovedResult(st, a);
    GotoKeepsResults(st, a.id, NextPc(st, a));
    MovedShape(st, a);
    SameResults(Goto(st, a.id, NextPc(st, a)), Step(st, a));
  }

  lemma SameResults(st: State, next: State)
    requires ResultsKept(st)
    requires next.callers == st.callers && next.cache == st.cache && next.stores == st.stores
    requires next.clears == st.clears && next.cleared == st.cleared
    ensures ResultsKept(next)
  {
    forall i | i in next.callers ensures ResultKept(next, next.callers[i]) {
      assert ResultKept(st, st.callers[i]);
    }
  }

  lemma StepKeepsInv(st: State, a: Action)
    requires Inv(st) && Enabled(st, a)
    ensures Inv(Step(st, a))
  {
    OneOwnerStep(st, a);
    PollersStep(st, a);
    ResultsStep(st, a);
  }

  lemma {:induction false} EveryRun(actions: seq<Action>)
    ensures Run(actions).Some? ==> Inv(Run(actions).value)
  {
    if |actions| > 0 {
      var before, a := Run(actions[..|actions| - 1]), actions[|actions| - 1];
      EveryRun(actions[..|actions| - 1]);
      if before.Some? && Enabled(before.value, a) {
        StepKeepsInv(before.value, a);
      }
    }
  }

  // ---------------------------------------------------------------- what a run guarantees

  /** However the calls interleave, no two calls own a job for the same key, so no two computations in
      progress are for one key, and a key is in the running table exactly while a call owns its job. */
  lemma SingleFlight(actions: seq<Action>)
    requires Run(actions).Some?
    ensures var st := Run(actions).value;
            && (forall k, i, j :: OwnsJob(st, i, k) && OwnsJob(st, j, k) ==> i == j)
            && (forall k :: k in st.running <==> exists id :: OwnsJob(st, id, k))
  {
    var st := Run(actions).value;
    EveryRun(actions);
    forall k | k in st.running ensures exists id :: OwnsJob(st, id, k) {
      assert OwnsJob(st, st.owner[k], k);
    }
  }

  /** Call `id` has claimed the job of `key` and not yet released it; it computes in between. */
  predicate OwnsJob(st: State, id: nat, key: Key) {
    id in st.callers && st.callers[id].key == key && Owns(st.callers[id].pc)
  }

  /** A call that got as far as polling is never answered with data stored before it was made. */
  lemma PollersGetNewData(actions: seq<Action>, id: nat)
    requires Run(actions).Some? && id in Run(actions).value.callers
    requires Run(actions).value.callers[id].pc.Done? && Run(actions).value.callers[id].pc.source == Polled
    ensures var c := Run(actions).value.callers[id]; c.pc.serial == 0 || c.pc.serial > c.since
  {
    EveryRun(actions);
    var st := Run(actions).value;
    assert SeesNew(st.cache, st.stores, st.callers[id]);
  }

  /** The polling turns a call has taken in a list of actions. */
  function TurnsOf(actions: seq<Action>, id: nat): nat {
    if |actions| == 0 then 0
    else TurnsOf(actions[..|actions| - 1], id) + if actions[|actions| - 1] == PollTurn(id) then 1 else 0
  }

  /** How far a call that has taken `turns` polling turns can be. */
  ghost predicate TurnsCounted(st: State, id: nat, turns: nat) {
    if id !in st.callers then turns == 0
    else match st.callers[id].pc
      case Polling(done) => turns == done < MAX_TURNS
      case Done(_, source, _) => turns <= MAX_TURNS && (source == TimedOut ==> turns == MAX_TURNS)
      case _ => turns == 0
  }

  lemma StepCountsTurns(st: State, a: Action, id: nat, turns: nat)
    requires Enabled(st, a) && TurnsCounted(st, id, turns)
    ensures TurnsCounted(Step(st, a), id, turns + if a == PollTurn(id) then 1 else 0)
  {
  }

  lemma {:induction false} RunCountsTurns(actions: seq<Action>, id: nat)
    requires Run(actions).Some?
    ensures TurnsCounted(Run(actions).value, id, TurnsOf(actions, id))
  {
    if |actions| > 0 {
      var before, a := actions[..|actions| - 1], actions[|actions| - 1];
      RunCountsTurns(before, id);
      StepCountsTurns(Run(before).value, a, id, TurnsOf(before, id));
    }
  }

  /** In every run a call takes at most 60 polling turns, and once it has it is answered: no call polls
      for ever, whatever the others do; and none gives up sooner. */
  lemma PollingEnds(actions: seq<Action>, id: nat)
    requires Run(actions).Some?
    ensures TurnsOf(actions, id) <= 60
    ensures TurnsOf(actions, id) == 60 ==> id in Run(actions).value.callers && Run(actions).value.callers[id].pc.Done?
    ensures id in Run(actions).value.callers ==>
              var pc := Run(actions).value.callers[id].pc; pc.Done? && pc.source == TimedOut ==> TurnsOf(actions, id) == 60
  {
    RunCountsTurns(actions, id);
  }

  /** Once a successful job is released, and unless its key or everything is cleared, the cache
      holds its result or that of a later store. */
  lemma OwnResultOutlivesRelease(actions: seq<Action>, id: nat)
    requires Run(actions).Some? && id in Run(actions).value.callers
    requires Run(actions).value.callers[id].pc.Done? && Run(actions).value.callers[id].pc.source == Own
    ensures var st := Run(actions).value; StillThere(st, st.callers[id].key, st.callers[id].pc.answer, st.callers[id].pc.serial)
  {
    EveryRun(actions);
    var st := Run(actions).value;
    assert ResultKept(st, st.callers[id]);
  }

  // ---------------------------------------------------------------- where answers come from

  datatype StoreEvent = StoreEvent(key: Key, data: Data, at: real)

  /** What a step stores, and when. */
  function StoredBy(st: State, a: Action): seq<StoreEvent>
    requires Enabled(st, a)
  {
    match a
    case Store(id) => [StoreEvent(st.callers[id].key, st.callers[id].pc.result, st.now)]
    case StoreOutside(key, data) => [StoreEvent(key, data, st.now)]
    case _ => []
  }

  /** The stores of a run, in order. */
  function StoreLog(actions: seq<Action>): seq<StoreEvent>
    requires Run(actions).Some?
  {
    if |actions| == 0 then []
    else
      var before := actions[..|actions| - 1];
      StoreLog(before) + StoredBy(Run(before).value, actions[|actions| - 1])
  }

  /** `e` is the last store so far under `key`. */
  ghost predicate LastStore(log: seq<StoreEvent>, key: Key, e: Entry) {
    && 0 < e.serial <= |log|
    && log[e.serial - 1] == StoreEvent(key, e.data, e.timestamp)
    && forall m :: e.serial <= m < |log| ==> log[m].key != key
  }

  /** The answer is what some store put under the key. */
  ghost predicate WasStored(log: seq<StoreEvent>, key: Key, answer: Data, serial: nat) {
    0 < serial <= |log| && log[serial - 1].key == key && log[serial - 1].data == answer
  }

  ghost predicate AnswerStored(log: seq<StoreEvent>, c: Caller) {
    match c.pc
    case Kept(result, serial) => WasStored(log, c.key, result, serial)
    case Done(answer, source, serial) =>
      if serial == 0 then answer.None? && (source == Polled || source == TimedOut)
      else WasStored(log, c.key, answer, serial) && source != TimedOut
    case _ => true
  }

  ghost predicate Logged(st: State, log: seq<StoreEvent>) {
    && st.stores == |log|
    && (forall k :: k in st.cache ==> LastStore(log, k, st.cache[k]))
    && (forall id :: id in st.callers ==> AnswerStored(log, st.callers[id]))
  }

  lemma MovedAnswer(st: State, a: Action, log: seq<StoreEvent>)
    requires Logged(st, log) && Enabled(st, a) && MovesOneCall(a)
    ensures AnswerStored(log, st.callers[a.id].(pc := NextPc(st, a)))
  {
    var c := st.callers[a.id];
    assert AnswerStored(log, c);
    assert c.key in st.cache ==> LastStore(log, c.key, st.cache[c.key]);
  }

  lemma MoveKeepsLog(st: State, a: Action, log: seq<StoreEvent>)
    requires Logged(st, log) && Enabled(st, a) && MovesOneCall(a)
    ensures Logged(Step(st, a), log)
  {
    MovedAnswer(st, a, log);
    MovedShape(st, a);
    var next := Step(st, a);
    forall id | id in next.callers ensures AnswerStored(log, next.callers[id]) {
      assert id != a.id ==> next.callers[id] == st.callers[id];
    }
  }

  lemma StoreKeepsLog(st: State, key: Key, data: Data, log: seq<StoreEvent>)
    requires Logged(st, log)
    ensures Logged(Step(st, StoreOutside(key, data)), log + [StoreEvent(key, data, st.now)])
  {
    var next, grown := Step(st, StoreOutside(key, data)), log + [StoreEvent(key, data, st.now)];
    forall k | k in next.cache ensures LastStore(grown, k, next.cache[k]) {
      if k != key {
        assert LastStore(log, k, st.cache[k]);
      }
    }
    forall id | id in next.callers ensures AnswerStored(grown, next.callers[id]) {
      assert AnswerStored(log, st.callers[id]);
    }
  }

  lemma GotoKeepsLog(st: State, id: nat, pc: Pc, log: seq<StoreEvent>)
    requires Logged(st, log) && id in st.callers && AnswerStored(log, st.callers[id].(pc := pc))
    ensures Logged(Goto(st, id, pc), log)
  {
    var next := Goto(st, id, pc);
    forall i | i in next.callers ensures AnswerStored(log, next.callers[i]) {
      assert i != id ==> next.callers[i] == st.callers[i];
    }
  }

  lemma StepKeepsLog(st: State, a: Action, log: seq<StoreEvent>)
    requires Logged(st, log) && Enabled(st, a)
    ensures Logged(Step(st, a), log + StoredBy(st, a))
  {
    assert log + [] == log;
    match a
    case Call(_, _, _, _) =>
    case Store(id) =>
      var c := st.callers[id];
      StoreKeepsLog(st, c.key, c.pc.result, log);
      GotoKeepsLog(Step(st, StoreOutside(c.key, c.pc.result)), id, Kept(c.pc.result, st.stores + 1), log + StoredBy(st, a));
    case StoreOutside(key, data) => StoreKeepsLog(st, key, data, log);
    case Clear(_) =>
    case Tick(_) =>
    case _ => MoveKeepsLog(st, a, log);
  }

  /** In every run the cache holds under each key the last store under it, and every call that was
      answered got what some store put under its key, or `None`. */
  lemma {:induction false} RunIsLogged(actions: seq<Action>)
    requires Run(actions).Some?
    ensures Logged(Run(actions).value, StoreLog(actions))
  {
    if |actions| > 0 {
      var before := actions[..|actions| - 1];
      RunIsLogged(before);
      StepKeepsLog(Run(before).value, actions[|actions| - 1], StoreLog(before));
    }
  }

  /** When call `id` looks at the cache after these actions, it finds the store with number `serial`, made
      under its key at most its maximal age ago, whose data is not `None`. */
  ghost predicate FindsYoung(actions: seq<Action>, id: nat, serial: nat)
    requires Run(actions).Some?
  {
    var st, log := Run(actions).value, StoreLog(actions);
    && id in st.callers && 0 < serial <= |log|
    && var c, found := st.callers[id], log[serial - 1];
       c.key in st.cache && st.cache[c.key].serial == serial && found.key == c.key && found.data.Some?
       && st.now - found.at <= c.maxAge
  }

  /** A call that looks at the cache is answered at once exactly when it does not force a refresh and
      finds data that is young enough, and then with that data. */
  lemma FreshIffYoung(actions: seq<Action>, id: nat)
    requires Run(actions).Some? && Enabled(Run(actions).value, CheckCache(id))
    ensures var st := Run(actions).value;
            var c, pc := st.callers[id], Step(st, CheckCache(id)).callers[id].pc;
            && (pc.Done? <==> !c.force && c.key in st.cache && FindsYoung(actions, id, st.cache[c.key].serial))
            && (if pc.Done? then pc == Done(StoreLog(actions)[st.cache[c.key].serial - 1].data, Fresh, st.cache[c.key].serial)
                else pc == Missed)
  {
    RunIsLogged(actions);
    var st := Run(actions).value;
    var c := st.callers[id];
    assert c.key in st.cache ==> LastStore(StoreLog(actions), c.key, st.cache[c.key]);
  }

  /** Action `n` was the look of call `id` at the cache, not forced, and the answer it found was young enough. */
  ghost predicate LookedYoung(actions: seq<Action>, id: nat, n: nat, answer: Data, serial: nat)
    requires n < |actions|
  {
    && actions[n] == CheckCache(id)
    && Run(actions[..n]).Some? && id in Run(actions[..n]).value.callers && !Run(actions[..n]).value.callers[id].force
    && FindsYoung(actions[..n], id, serial) && StoreLog(actions[..n])[serial - 1].data == answer
  }

  /** In every run, a call was answered fresh only if, when it looked, it did not force a refresh and the
      data it got had been stored under its key at most its maximal age before. */
  lemma {:induction false} FreshWasYoung(actions: seq<Action>, id: nat)
    requires Run(actions).Some? && id in Run(actions).value.callers
    requires Run(actions).value.callers[id].pc.Done? && Run(actions).value.callers[id].pc.source == Fresh
    ensures var pc := Run(actions).value.callers[id].pc;
            exists n: nat :: n < |actions| && LookedYoung(actions, id, n, pc.answer, pc.serial)
  {
    var last := |actions| - 1;
    var before, a := actions[..last], actions[last];
    var st, pc := Run(before).value, Run(actions).value.callers[id].pc;
    if id in st.callers && st.callers[id].pc == pc {
      FreshWasYoung(before, id);
      var n: nat :| n < |before| && LookedYoung(before, id, n, pc.answer, pc.serial);
      assert before[..n] == actions[..n];
      assert LookedYoung(actions, id, n, pc.answer, pc.serial);
    } else {
      OnlyLooksAreFresh(st, a, id);
      FreshIffYoung(before, id);
      assert LookedYoung(actions, id, last, pc.answer, pc.serial);
    }
  }

  lemma OnlyLooksAreFresh(st: State, a: Action, id: nat)
    requires Enabled(st, a) && id in Step(st, a).callers
    requires Step(st, a).callers[id].pc.Done? && Step(st, a).callers[id].pc.source == Fresh
    requires id in st.callers ==> st.callers[id].pc != Step(st, a).callers[id].pc
    ensures a == CheckCache(id)
  {
  }

  // ---------------------------------------------------------------- the runner

  lemma StoreShape(st: State, a: Action, key: Key, data: Data)
    requires Enabled(st, a)
    requires a == StoreOutside(key, data) || (a.Store? && st.callers[a.id].key == key && st.callers[a.id].pc.result == data)
    ensures var next := Step(st, a);
            && next.cache == Stored(st.cache, key, data, st.now, st.stores + 1) && next.running == st.running
  {
  }

  /** The critical sections, each one step of the protocol. The code keeps the cache and the running
      jobs; where the calls and workers stand is ghost. */
  class BIJobRunner {
    var cache: map<Key, Entry>
    var runningJobs: map<Key, real>
    ghost var calls: State

    ghost function Abs(): State
      reads this
    {
      calls.(cache := cache, running := runningJobs)
    }

    ghost predicate Valid()
      reads this
    {
      Inv(Abs())
    }

    constructor ()
      ensures Valid() && Abs() == START
    {
      cache, runningJobs, calls := map[], map[], START;
    }

    /** `get_cached`, at the start of a call that does not force a refresh. */
    method GetCached(id: nat, key: Key, maxAge: real, now: real) returns (data: Data)
      requires Valid() && Enabled(Abs(), CheckCache(id)) && now == Abs().now
      requires var c := Abs().callers[id]; c.key == key && c.maxAge == maxAge && !c.force
      modifies this
      ensures Valid() && Abs() == Step(old(Abs()), CheckCache(id))
      ensures data.Some? <==> key in old(cache) && old(cache)[key].data.Some? && now - old(cache)[key].timestamp <= maxAge
      ensures data.Some? ==> data == old(cache)[key].data
      ensures if data.Some? then Abs().callers[id].pc.Done? && Abs().callers[id].pc.answer == data
              else Abs().callers[id].pc == Missed
      ensures cache == old(cache) && runningJobs == old(runningJobs)
    {
      StepKeepsInv(Abs(), CheckCache(id));
      calls := Step(Abs(), CheckCache(id));
      if key in cache {
        var entry := cache[key];
        if now - entry.timestamp <= maxAge {
          return entry.data;
        }
      }
      return None;
    }

    /** `set_cached`, by the worker that computed the data or by anyone else. */
    method SetCached(key: Key, data: Data, now: real, serial: nat, ghost a: Action)
      requires Valid() && Enabled(Abs(), a) && now == Abs().now && serial == Abs().stores + 1
      requires a == StoreOutside(key, data)
            || (a.Store? && Abs().callers[a.id].key == key && Abs().callers[a.id].pc.result == data)
      modifies this
      ensures Valid() && Abs() == Step(old(Abs()), a)
      ensures cache == old(cache)[key := Entry(data, now, serial)] && runningJobs == old(runningJobs)
    {
      StepKeepsInv(Abs(), a);
      StoreShape(Abs(), a, key, data);
      calls := Step(Abs(), a);
      cache := cache[key := Entry(data, now, serial)];
    }

    method ClearCache(key: Option<Key>)
      requires Valid()
      modifies this
      ensures Valid() && Abs() == Step(old(Abs()), Clear(key))
      ensures forall k :: k in cache <==> k in old(cache) && key.Some? && key.value != "" && k != key.value
      ensures forall k :: k in cache ==> cache[k] == old(cache)[k]
      ensures runningJobs == old(runningJobs)
    {
      StepKeepsInv(Abs(), Clear(key));
      calls := Step(Abs(), Clear(key));
      if key.Some? && key.value != "" {
        cache := cache - {key.value};
      } else {
        cache := map[];
      }
    }

    /** The check-and-claim section: true if the job was running already. */
    method Claim(id: nat, key: Key, now: real) returns (isRunning: bool)
      requires Valid() && Enabled(Abs(), CheckRunning(id)) && Abs().callers[id].key == key && now == Abs().now
      modifies this
      ensures Valid() && Abs() == Step(old(Abs()), CheckRunning(id))
      ensures Abs().callers[id].pc == if isRunning then SawRunning else Claimed
      ensures isRunning <==> key in old(runningJobs)
      ensures runningJobs == (if isRunning then old(runningJobs) else old(runningJobs)[key := now]) && cache == old(cache)
    {
      StepKeepsInv(Abs(), CheckRunning(id));
      calls := Step(Abs(), CheckRunning(id));
      isRunning := key in runningJobs;
      if !isRunning {
        runningJobs := runningJobs[key := now];
      }
    }

    /** The worker's `finally`. */
    method Release(id: nat, key: Key)
      requires Valid() && Enabled(Abs(), Action.Release(id)) && Abs().callers[id].key == key
      modifies this
      ensures Valid() && Abs() == Step(old(Abs()), Action.Release(id))
      ensures forall i :: i in Abs().callers && Owns(Abs().callers[i].pc) ==> Abs().callers[i].key != key
      ensures runningJobs == old(runningJobs) - {key} && cache == old(cache)
    {
      StepKeepsInv(Abs(), Action.Release(id));
      calls := Step(Abs(), Action.Release(id));
      runningJobs := runningJobs - {key};
    }

    /** The look at the cache of a call that saw its job running. */
    method GetStale(id: nat, key: Key) returns (stale: Option<Data>)
      requires Valid() && Enabled(Abs(), LookStale(id)) && Abs().callers[id].key == key
      modifies this
      ensures Valid() && Abs() == Step(old(Abs()), LookStale(id))
      ensures if stale.Some? then Abs().callers[id].pc.Done? && Abs().callers[id].pc.answer == stale.value
              else Abs().callers[id].pc == Polling(0)
      ensures stale == (if key in old(cache) then Some(old(cache)[key].data) else None)
      ensures cache == old(cache) && runningJobs == old(runningJobs)
    {
      StepKeepsInv(Abs(), LookStale(id));
      calls := Step(Abs(), LookStale(id));
      stale := if key in cache then Some(cache[key].data) else None;
    }

    /** One turn of the polling loop: if the job is over, its answer was stored after the call was made. */
    method Poll(id: nat, key: Key) returns (over: bool, data: Data)
      requires Valid() && Enabled(Abs(), PollTurn(id)) && Abs().callers[id].key == key
      modifies this
      ensures Valid() && Abs() == Step(old(Abs()), PollTurn(id))
      ensures over <==> Abs().callers[id].pc.Done? && Abs().callers[id].pc.source == Polled
      ensures over <==> key !in old(runningJobs)
      ensures over ==> data == Abs().callers[id].pc.answer
      ensures over ==> data == if key in old(cache) then old(cache)[key].data else None
      ensures !over ==> Abs().callers[id].pc == if old(Abs()).callers[id].pc.turns == 59 then Done(None, TimedOut, 0)
                                                else Polling(old(Abs()).callers[id].pc.turns + 1)
      ensures cache == old(cache) && runningJobs == old(runningJobs)
      ensures over && data.Some? ==> key in cache && cache[key].data == data && cache[key].serial > Abs().callers[id].since
    {
      StepKeepsInv(Abs(), PollTurn(id));
      calls := Step(Abs(), PollTurn(id));
      assert SeesNew(Abs().cache, Abs().stores, Abs().callers[id]);
      over := key !in runningJobs;
      data := if over && key in cache then cache[key].data else None;
    }
  }
}
