/** The proposal workflow of core/change_management.py (enabled mode, callbacks that do not re-enter it). */
module ChangeManagement {
  import opened Sets
  import opened Wrappers

  type Id = string

  datatype Status = PROPOSED | REVIEWING | APPROVED | REJECTED | APPLIED | ROLLED_BACK | EXPIRED | FAILED

  datatype Proposal = Proposal(
    target: string, proposedBy: string, status: Status, expiryAt: real,
    approvedBy: Option<string>, appliedBy: Option<string>, rolledBackBy: Option<string>)
  {
    predicate Pending() {
      status == PROPOSED || status == REVIEWING
    }

    /** Blocks further proposals for the same target. */
    predicate Open() {
      Pending() || status == APPROVED
    }
  }

  /** The recorded action is named after the status it leads to. */
  datatype Audit = Audit(changeId: Id, action: Status, actor: string)

  datatype Settings = Settings(maxPending: int, expireSeconds: real)

  const MAX_AUDIT := 10000

  /** `order` is the insertion order of the proposals, `full` every audit entry ever recorded. */
  datatype State = State(proposals: map<Id, Proposal>, order: seq<Id>, log: seq<Audit>, full: seq<Audit>)

  const EMPTY := State(map[], [], [], [])

  /** What a callback did; `NoCallback` when none was given. */
  datatype Callback = NoCallback | Returned(ok: bool) | Raised
  {
    predicate Failed() {
      this == Returned(false) || this == Raised
    }
  }

  // ---------------------------------------------------------------- operations

  /** `_record_audit`: append, and drop the oldest entry beyond the bound. */
  function Appended(log: seq<Audit>, entry: Audit): seq<Audit> {
    var longer := log + [entry];
    if |longer| > MAX_AUDIT then longer[1..] else longer
  }

  /** A proposal takes its new form, and its new status is recorded. */
  function Move(st: State, id: Id, p: Proposal, actor: string): State {
    var entry := Audit(id, p.status, actor);
    State(st.proposals[id := p], if id in st.proposals then st.order else st.order + [id],
          Appended(st.log, entry), st.full + [entry])
  }

  ghost function PendingIds(ps: map<Id, Proposal>): set<Id> {
    set id | id in ps && ps[id].Pending()
  }

  ghost predicate TargetTaken(ps: map<Id, Proposal>, target: string) {
    exists id :: id in ps && ps[id].target == target && ps[id].Open()
  }

  function NewProposal(s: Settings, target: string, actor: string, now: real): Proposal {
    Proposal(target, actor, PROPOSED, now + s.expireSeconds, None, None, None)
  }

  /** `propose` with the generated `id`; no state where the code raises. */
  ghost function Propose(s: Settings, st: State, id: Id, target: string, actor: string, now: real): Option<State> {
    if |PendingIds(st.proposals)| >= s.maxPending || TargetTaken(st.proposals, target) then None
    else Some(Move(st, id, NewProposal(s, target, actor, now), actor))
  }

  function Approve(st: State, id: Id, actor: string): (State, bool) {
    if id in st.proposals && st.proposals[id].Pending() then
      (Move(st, id, st.proposals[id].(status := APPROVED, approvedBy := Some(actor)), actor), true)
    else (st, false)
  }

  function Reject(st: State, id: Id, actor: string): (State, bool) {
    if id in st.proposals && st.proposals[id].Pending() then
      (Move(st, id, st.proposals[id].(status := REJECTED), actor), true)
    else (st, false)
  }

  function Apply(st: State, id: Id, actor: string, callback: Callback): (State, bool) {
    if id !in st.proposals || st.proposals[id].status != APPROVED then (st, false)
    else if callback.Failed() then (Move(st, id, st.proposals[id].(status := FAILED), actor), false)
    else (Move(st, id, st.proposals[id].(status := APPLIED, appliedBy := Some(actor)), actor), true)
  }

  function Rollback(st: State, id: Id, actor: string, callback: Callback): (State, bool) {
    if id !in st.proposals || st.proposals[id].status != APPLIED || callback.Failed() then (st, false)
    else (Move(st, id, st.proposals[id].(status := ROLLED_BACK, rolledBackBy := Some(actor)), actor), true)
  }

  predicate Stale(p: Proposal, now: real) {
    p.Pending() && p.expiryAt != 0.0 && now >= p.expiryAt
  }

  /** What expiry does to one proposal. */
  function ExpireOne(st: State, id: Id, now: real): State {
    if id in st.proposals && Stale(st.proposals[id], now) then
      Move(st, id, st.proposals[id].(status := EXPIRED), "system")
    else st
  }

  /** `_expire_stale`, restricted to the first `n` proposals in insertion order. */
  function ExpireFirst(st: State, now: real, n: nat): State
    requires n <= |st.order|
  {
    if n == 0 then st else ExpireOne(ExpireFirst(st, now, n - 1), st.order[n - 1], now)
  }

  datatype Op =
    | OpPropose(id: Id, target: string, actor: string, now: real)
    | OpApprove(id: Id, actor: string)
    | OpReject(id: Id, actor: string)
    | OpApply(id: Id, actor: string, callback: Callback)
    | OpRollback(id: Id, actor: string, callback: Callback)
    | OpExpire(now: real)

  /** A generated id has not been used before. */
  predicate FreshId(st: State, op: Op) {
    op.OpPropose? ==> op.id !in st.proposals
  }

  ghost function Step(s: Settings, st: State, op: Op): State {
    match op
    case OpPropose(id, target, actor, now) =>
      var r := Propose(s, st, id, target, actor, now);
      if r.Some? then r.value else st
    case OpApprove(id, actor) => Approve(st, id, actor).0
    case OpReject(id, actor) => Reject(st, id, actor).0
    case OpApply(id, actor, callback) => Apply(st, id, actor, callback).0
    case OpRollback(id, actor, callback) => Rollback(st, id, actor, callback).0
    case OpExpire(now) => ExpireFirst(st, now, |st.order|)
  }

  ghost function Run(s: Settings, ops: seq<Op>): State {
    if |ops| == 0 then EMPTY else Step(s, Run(s, ops[..|ops| - 1]), ops[|ops| - 1])
  }

  ghost predicate FreshIds(s: Settings, ops: seq<Op>) {
    |ops| > 0 ==> FreshIds(s, ops[..|ops| - 1]) && FreshId(Run(s, ops[..|ops| - 1]), ops[|ops| - 1])
  }

  // ---------------------------------------------------------------- the lifecycle

  predicate Edge(a: Status, b: Status) {
    || (a == PROPOSED && (b == APPROVED || b == REJECTED || b == EXPIRED))
    || (a == APPROVED && (b == APPLIED || b == FAILED))
    || (a == APPLIED && b == ROLLED_BACK)
  }

  predicate Final(status: Status) {
    status == REJECTED || status == ROLLED_BACK || status == EXPIRED || status == FAILED
  }

  /** A path from PROPOSED along the edges. */
  ghost predicate Lifecycle(trail: seq<Status>) {
    && |trail| > 0 && trail[0] == PROPOSED
    && forall i :: 0 < i < |trail| ==> Edge(trail[i - 1], trail[i])
  }

  /** The actions recorded for one proposal. */
  function TrailOf(log: seq<Audit>, id: Id): seq<Status> {
    if |log| == 0 then []
    else
      var before := TrailOf(log[..|log| - 1], id);
      var last := log[|log| - 1];
      if last.changeId == id then before + [last.action] else before
  }

  /** The statuses an audit log implies: the last action of each id. */
  function Replay(log: seq<Audit>): map<Id, Status> {
    if |log| == 0 then map[] else Replay(log[..|log| - 1])[log[|log| - 1].changeId := log[|log| - 1].action]
  }

  /** Recorded approver and applier, as far as the proposal got. REVIEWING is never entered. */
  predicate Credited(p: Proposal) {
    && p.status != REVIEWING
    && (p.status == APPROVED || p.status == APPLIED || p.status == FAILED || p.status == ROLLED_BACK ==> p.approvedBy.Some?)
    && (p.status == APPLIED || p.status == ROLLED_BACK ==> p.appliedBy.Some?)
    && (p.status == ROLLED_BACK ==> p.rolledBackBy.Some?)
  }

  ghost predicate OneOpenPerTarget(ps: map<Id, Proposal>) {
    forall a, b :: a in ps && b in ps && ps[a].Open() && ps[b].Open() && ps[a].target == ps[b].target ==> a == b
  }

  ghost predicate PendingBounded(s: Settings, ps: map<Id, Proposal>) {
    |PendingIds(ps)| <= if s.maxPending > 0 then s.maxPending else 0
  }

  /** The history of one id is a lifecycle path that ends in its status, or empty if there is no such proposal. */
  ghost predicate AuditedId(ps: map<Id, Proposal>, full: seq<Audit>, id: Id) {
    var trail := TrailOf(full, id);
    if id in ps then Lifecycle(trail) && trail[|trail| - 1] == ps[id].status else trail == []
  }

  ghost predicate Audited(ps: map<Id, Proposal>, full: seq<Audit>) {
    forall id :: AuditedId(ps, full, id)
  }

  /** The bounded log is the end of the history. */
  ghost predicate LogIsSuffix(log: seq<Audit>, full: seq<Audit>) {
    && |log| == (if |full| <= MAX_AUDIT then |full| else MAX_AUDIT)
    && forall i :: 0 <= i < |log| ==> log[i] == full[|full| - |log| + i]
  }

  ghost predicate AllCredited(ps: map<Id, Proposal>) {
    forall id :: id in ps ==> Credited(ps[id])
  }

  /** The order lists every proposal once. */
  ghost predicate Listed(ps: map<Id, Proposal>, order: seq<Id>) {
    && (forall id :: id in ps <==> id in order)
    && (forall i, j :: 0 <= i < j < |order| ==> order[i] != order[j])
  }

  ghost predicate Inv(s: Settings, st: State) {
    && Listed(st.proposals, st.order)
    && AllCredited(st.proposals)
    && PendingBounded(s, st.proposals)
    && OneOpenPerTarget(st.proposals)
    && Audited(st.proposals, st.full)
    && LogIsSuffix(st.log, st.full)
  }

  // ---------------------------------------------------------------- every operation keeps the invariant

  lemma AppendKeepsSuffix(log: seq<Audit>, full: seq<Audit>, entry: Audit)
    requires LogIsSuffix(log, full)
    ensures LogIsSuffix(Appended(log, entry), full + [entry])
  {
  }

  lemma TrailSnoc(log: seq<Audit>, entry: Audit, id: Id)
    ensures TrailOf(log + [entry], id) == if entry.changeId == id then TrailOf(log, id) + [entry.action] else TrailOf(log, id)
  {
    assert (log + [entry])[..|log|] == log;
  }

  /** A move along the lifecycle that keeps the target and records who is responsible. */
  ghost predicate Allowed(before: Proposal, after: Proposal) {
    && Edge(before.status, after.status)
    && after.target == before.target
    && Credited(after)
  }

  lemma LifecycleSnoc(trail: seq<Status>, next: Status)
    requires Lifecycle(trail) && Edge(trail[|trail| - 1], next)
    ensures Lifecycle(trail + [next])
  {
  }

  lemma MoveKeepsAudit(ps: map<Id, Proposal>, full: seq<Audit>, id: Id, p: Proposal, actor: string)
    requires Audited(ps, full)
    requires if id in ps then Edge(ps[id].status, p.status) else p.status == PROPOSED
    ensures Audited(ps[id := p], full + [Audit(id, p.status, actor)])
  {
    var next, longer := ps[id := p], full + [Audit(id, p.status, actor)];
    forall i ensures AuditedId(next, longer, i) {
      assert AuditedId(ps, full, i);
      TrailSnoc(full, Audit(id, p.status, actor), i);
      if i == id && id in ps {
        LifecycleSnoc(TrailOf(full, id), p.status);
      }
    }
  }

  lemma MoveKeepsCounts(s: Settings, ps: map<Id, Proposal>, id: Id, p: Proposal)
    requires id in ps && Allowed(ps[id], p)
    requires AllCredited(ps) && PendingBounded(s, ps) && OneOpenPerTarget(ps)
    ensures AllCredited(ps[id := p]) && PendingBounded(s, ps[id := p]) && OneOpenPerTarget(ps[id := p])
  {
    var next := ps[id := p];
    assert !p.Pending() && (p.Open() ==> ps[id].Open());
    assert PendingIds(next) <= PendingIds(ps);
    SubsetSize(PendingIds(next), PendingIds(ps));
  }

  lemma MoveKeepsInv(s: Settings, st: State, id: Id, p: Proposal, actor: string)
    requires Inv(s, st) && id in st.proposals && Allowed(st.proposals[id], p)
    ensures Inv(s, Move(st, id, p, actor))
  {
    AppendKeepsSuffix(st.log, st.full, Audit(id, p.status, actor));
    MoveKeepsAudit(st.proposals, st.full, id, p, actor);
    MoveKeepsCounts(s, st.proposals, id, p);
  }

  lemma ProposeKeepsCredit(ps: map<Id, Proposal>, id: Id, p: Proposal)
    requires AllCredited(ps) && p.status == PROPOSED
    ensures AllCredited(ps[id := p])
  {
  }

  lemma ProposeKeepsPending(s: Settings, ps: map<Id, Proposal>, id: Id, p: Proposal)
    requires id !in ps && p.status == PROPOSED && |PendingIds(ps)| < s.maxPending
    ensures PendingBounded(s, ps[id := p])
  {
    assert PendingIds(ps[id := p]) == PendingIds(ps) + {id};
  }

  lemma ProposeKeepsTargets(ps: map<Id, Proposal>, id: Id, p: Proposal)
    requires id !in ps && OneOpenPerTarget(ps) && !TargetTaken(ps, p.target)
    ensures OneOpenPerTarget(ps[id := p])
  {
    var next := ps[id := p];
    forall a, b | a in next && b in next && next[a].Open() && next[b].Open() && next[a].target == next[b].target
      ensures a == b
    {
      assert a != id ==> a in ps && next[a] == ps[a];
      assert b != id ==> b in ps && next[b] == ps[b];
    }
  }

  lemma ListedSnoc(ps: map<Id, Proposal>, order: seq<Id>, id: Id, p: Proposal)
    requires Listed(ps, order) && id !in ps
    ensures Listed(ps[id := p], order + [id])
  {
    assert (order + [id])[|order|] == id;
  }

  lemma ProposeKeepsInv(s: Settings, st: State, id: Id, target: string, actor: string, now: real)
    requires Inv(s, st) && id !in st.proposals && Propose(s, st, id, target, actor, now).Some?
    ensures Inv(s, Propose(s, st, id, target, actor, now).value)
  {
    var p := NewProposal(s, target, actor, now);
    AppendKeepsSuffix(st.log, st.full, Audit(id, PROPOSED, actor));
    MoveKeepsAudit(st.proposals, st.full, id, p, actor);
    ProposeKeepsCredit(st.proposals, id, p);
    ProposeKeepsPending(s, st.proposals, id, p);
    ProposeKeepsTargets(st.proposals, id, p);
    ListedSnoc(st.proposals, st.order, id, p);
  }

  lemma ExpireOneKeepsOrder(st: State, id: Id, now: real)
    ensures ExpireOne(st, id, now).order == st.order
  {
  }

  lemma ExpireFirstNext(st: State, now: real, i: nat)
    requires i < |st.order|
    ensures ExpireFirst(st, now, i + 1) == ExpireOne(ExpireFirst(st, now, i), st.order[i], now)
  {
  }

  lemma ExpireOneKeepsInv(s: Settings, st: State, id: Id, now: real)
    requires Inv(s, st)
    ensures Inv(s, ExpireOne(st, id, now)) && ExpireOne(st, id, now).order == st.order
  {
    if id in st.proposals && Stale(st.proposals[id], now) {
      assert Credited(st.proposals[id]);
      MoveKeepsInv(s, st, id, st.proposals[id].(status := EXPIRED), "system");
    }
  }

  lemma {:induction false} ExpireKeepsInv(s: Settings, st: State, now: real, n: nat)
    requires Inv(s, st) && n <= |st.order|
    ensures Inv(s, ExpireFirst(st, now, n)) && ExpireFirst(st, now, n).order == st.order
  {
    if n > 0 {
      ExpireKeepsInv(s, st, now, n - 1);
      ExpireOneKeepsInv(s, ExpireFirst(st, now, n - 1), st.order[n - 1], now);
    }
  }

  lemma StepKeepsInv(s: Settings, st: State, op: Op)
    requires Inv(s, st) && FreshId(st, op)
    ensures Inv(s, Step(s, st, op))
  {
    match op
    case OpPropose(id, target, actor, now) =>
      if Propose(s, st, id, target, actor, now).Some? {
        ProposeKeepsInv(s, st, id, target, actor, now);
      }
    case OpApprove(id, actor) => ApproveKeepsInv(s, st, id, actor);
    case OpReject(id, actor) => RejectKeepsInv(s, st, id, actor);
    case OpApply(id, actor, callback) => ApplyKeepsInv(s, st, id, actor, callback);
    case OpRollback(id, actor, callback) => RollbackKeepsInv(s, st, id, actor, callback);
    case OpExpire(now) => ExpireKeepsInv(s, st, now, |st.order|);
  }

  lemma ApproveKeepsInv(s: Settings, st: State, id: Id, actor: string)
    requires Inv(s, st)
    ensures Inv(s, Approve(st, id, actor).0)
  {
    if id in st.proposals && st.proposals[id].Pending() {
      assert Credited(st.proposals[id]);
      MoveKeepsInv(s, st, id, st.proposals[id].(status := APPROVED, approvedBy := Some(actor)), actor);
    }
  }

  lemma RejectKeepsInv(s: Settings, st: State, id: Id, actor: string)
    requires Inv(s, st)
    ensures Inv(s, Reject(st, id, actor).0)
  {
    if id in st.proposals && st.proposals[id].Pending() {
      assert Credited(st.proposals[id]);
      MoveKeepsInv(s, st, id, st.proposals[id].(status := REJECTED), actor);
    }
  }

  lemma ApplyKeepsInv(s: Settings, st: State, id: Id, actor: string, callback: Callback)
    requires Inv(s, st)
    ensures Inv(s, Apply(st, id, actor, callback).0)
  {
    if id in st.proposals && st.proposals[id].status == APPROVED {
      assert Credited(st.proposals[id]);
      if callback.Failed() {
        MoveKeepsInv(s, st, id, st.proposals[id].(status := FAILED), actor);
      } else {
        MoveKeepsInv(s, st, id, st.proposals[id].(status := APPLIED, appliedBy := Some(actor)), actor);
      }
    }
  }

  lemma RollbackKeepsInv(s: Settings, st: State, id: Id, actor: string, callback: Callback)
    requires Inv(s, st)
    ensures Inv(s, Rollback(st, id, actor, callback).0)
  {
    if Rollback(st, id, actor, callback).1 {
      assert Credited(st.proposals[id]);
      MoveKeepsInv(s, st, id, st.proposals[id].(status := ROLLED_BACK, rolledBackBy := Some(actor)), actor);
    }
  }

  lemma InvAtStart(s: Settings)
    ensures Inv(s, EMPTY)
  {
    assert PendingIds(map[]) == {};
  }

  /** What holds in every reachable state. */
  lemma {:induction false} EveryRun(s: Settings, ops: seq<Op>)
    requires FreshIds(s, ops)
    ensures Inv(s, Run(s, ops))
  {
    if |ops| == 0 {
      InvAtStart(s);
    } else {
      EveryRun(s, ops[..|ops| - 1]);
      StepKeepsInv(s, Run(s, ops[..|ops| - 1]), ops[|ops| - 1]);
    }
  }

  // ---------------------------------------------------------------- replay

  lemma {:induction false} ReplayIsLastAction(log: seq<Audit>, id: Id)
    ensures var trail := TrailOf(log, id);
            if id in Replay(log) then |trail| > 0 && Replay(log)[id] == trail[|trail| - 1] else trail == []
  {
    if |log| > 0 {
      ReplayIsLastAction(log[..|log| - 1], id);
    }
  }

  /** Replaying the whole audit history gives exactly the proposals and their statuses. */
  lemma ReplayRestoresStatuses(s: Settings, ops: seq<Op>)
    requires FreshIds(s, ops)
    ensures var st := Run(s, ops); Replay(st.full) == map id | id in st.proposals :: st.proposals[id].status
  {
    EveryRun(s, ops);
    AuditedReplays(Run(s, ops).proposals, Run(s, ops).full);
  }

  lemma AuditedReplays(ps: map<Id, Proposal>, full: seq<Audit>)
    requires Audited(ps, full)
    ensures Replay(full) == map id | id in ps :: ps[id].status
  {
    var replayed := Replay(full);
    forall id ensures id in replayed <==> id in ps
              ensures id in ps ==> id in replayed && replayed[id] == ps[id].status
    {
      assert AuditedId(ps, full, id);
      ReplayIsLastAction(full, id);
    }
  }

  lemma {:induction false} ReplayOfSuffix(log: seq<Audit>, from: nat, id: Id)
    requires from <= |log|
    ensures id in Replay(log[from..]) ==> id in Replay(log) && Replay(log)[id] == Replay(log[from..])[id]
  {
    if from < |log| {
      var n := |log| - 1;
      ReplayOfSuffix(log[..n], from, id);
      assert log[from..][..n - from] == log[..n][from..];
      assert log[from..][n - from] == log[n];
    }
  }

  lemma SuffixReplays(ps: map<Id, Proposal>, log: seq<Audit>, full: seq<Audit>, id: Id)
    requires LogIsSuffix(log, full) && Audited(ps, full) && id in Replay(log)
    ensures id in ps && Replay(log)[id] == ps[id].status
  {
    AuditedReplays(ps, full);
    assert log == full[|full| - |log|..];
    ReplayOfSuffix(full, |full| - |log|, id);
  }

  /** Replaying the bounded log still gives the right status for every proposal it mentions. */
  lemma BoundedLogIsRight(s: Settings, ops: seq<Op>, id: Id)
    requires FreshIds(s, ops) && id in Replay(Run(s, ops).log)
    ensures var st := Run(s, ops); id in st.proposals && Replay(st.log)[id] == st.proposals[id].status
  {
    var st := Run(s, ops);
    EveryRun(s, ops);
    SuffixReplays(st.proposals, st.log, st.full, id);
  }

  // ---------------------------------------------------------------- final states

  lemma {:induction false} ExpireKeepsFinal(st: State, now: real, n: nat, id: Id)
    requires n <= |st.order| && id in st.proposals && Final(st.proposals[id].status)
    ensures id in ExpireFirst(st, now, n).proposals && ExpireFirst(st, now, n).proposals[id] == st.proposals[id]
  {
    if n > 0 {
      ExpireKeepsFinal(st, now, n - 1, id);
    }
  }

  lemma StepKeepsFinal(s: Settings, st: State, op: Op, id: Id)
    requires FreshId(st, op) && id in st.proposals && Final(st.proposals[id].status)
    ensures id in Step(s, st, op).proposals && Step(s, st, op).proposals[id] == st.proposals[id]
  {
    if op.OpExpire? {
      ExpireKeepsFinal(st, op.now, |st.order|, id);
    }
  }

  /** A proposal in a final state never changes again. */
  lemma {:induction false} FinalIsAbsorbing(s: Settings, ops: seq<Op>, more: seq<Op>, id: Id)
    requires FreshIds(s, ops + more)
    requires id in Run(s, ops).proposals && Final(Run(s, ops).proposals[id].status)
    ensures id in Run(s, ops + more).proposals && Run(s, ops + more).proposals[id] == Run(s, ops).proposals[id]
    decreases |more|
  {
    if |more| == 0 {
      assert ops + more == ops;
    } else {
      var before := more[..|more| - 1];
      assert (ops + more)[..|ops + more| - 1] == ops + before;
      FinalIsAbsorbing(s, ops, before, id);
      StepKeepsFinal(s, Run(s, ops + before), more[|more| - 1], id);
    }
  }

  // ---------------------------------------------------------------- what an operation changes

  /** Proposal `id` takes the form `p`, which is recorded for `actor`; a new one comes last. Nothing else changes. */
  ghost predicate Moved(before: State, after: State, id: Id, actor: string, p: Proposal) {
    && after.proposals == before.proposals[id := p]
    && after.order == (if id in before.proposals then before.order else before.order + [id])
    && after.full == before.full + [Audit(id, p.status, actor)]
  }

  /** Past its time while waiting for a decision; a time of 0 means never. */
  predicate PastTime(p: Proposal, now: real) {
    (p.status == PROPOSED || p.status == REVIEWING) && p.expiryAt != 0.0 && now >= p.expiryAt
  }

  function Expired(p: Proposal, now: real): Proposal {
    if PastTime(p, now) then p.(status := EXPIRED) else p
  }

  /** The first `n` proposals in order are done. */
  ghost predicate ExpiredUpTo(st: State, after: State, now: real, n: nat)
    requires n <= |st.order|
  {
    && after.proposals.Keys == st.proposals.Keys && after.order == st.order
    && (forall id :: id in st.proposals ==>
          after.proposals[id] == if id in st.order[..n] then Expired(st.proposals[id], now) else st.proposals[id])
  }

  lemma ExpiredNext(st: State, before: State, now: real, n: nat)
    requires Listed(st.proposals, st.order) && 0 < n <= |st.order| && ExpiredUpTo(st, before, now, n - 1)
    ensures ExpiredUpTo(st, ExpireOne(before, st.order[n - 1], now), now, n)
  {
    var id := st.order[n - 1];
    assert id in st.order && id !in st.order[..n - 1];
    assert st.order[..n] == st.order[..n - 1] + [id];
  }

  lemma {:induction false} ExpireFirstExpires(st: State, now: real, n: nat)
    requires Listed(st.proposals, st.order) && n <= |st.order|
    ensures ExpiredUpTo(st, ExpireFirst(st, now, n), now, n)
  {
    if n > 0 {
      ExpireFirstExpires(st, now, n - 1);
      ExpiredNext(st, ExpireFirst(st, now, n - 1), now, n);
    }
  }

  /** Exactly the proposals past their time expire, and nothing else about any proposal changes. */
  lemma ExpiresTheStale(st: State, now: real, n: nat)
    requires Listed(st.proposals, st.order) && n == |st.order|
    ensures var after := ExpireFirst(st, now, n);
            && after.proposals.Keys == st.proposals.Keys
            && forall id :: id in st.proposals ==>
                 after.proposals[id] == if PastTime(st.proposals[id], now) then st.proposals[id].(status := EXPIRED)
                                        else st.proposals[id]
  {
    ExpireFirstExpires(st, now, n);
    assert st.order[..n] == st.order;
  }

  // ---------------------------------------------------------------- the manager

  class ChangeManager {
    const settings: Settings
    var proposals: map<Id, Proposal>
    var order: seq<Id>
    var auditLog: seq<Audit>
    ghost var full: seq<Audit>

    ghost function Abs(): State
      reads this
    {
      State(proposals, order, auditLog, full)
    }

    ghost predicate Valid()
      reads this
    {
      Inv(settings, Abs())
    }

    constructor (settings: Settings)
      ensures Valid() && Abs() == EMPTY && this.settings == settings
    {
      this.settings := settings;
      proposals, order, auditLog, full := map[], [], [], [];
      InvAtStart(settings);
    }

    /** `_record_audit` */
    method RecordAudit(id: Id, action: Status, actor: string)
      modifies this`auditLog, this`full
      ensures auditLog == Appended(old(auditLog), Audit(id, action, actor))
      ensures |old(auditLog)| < 10000 ==> auditLog == old(auditLog) + [Audit(id, action, actor)]
      ensures |old(auditLog)| == 10000 ==> auditLog == old(auditLog)[1..] + [Audit(id, action, actor)]
      ensures full == old(full) + [Audit(id, action, actor)]
    {
      auditLog := auditLog + [Audit(id, action, actor)];
      if |auditLog| > MAX_AUDIT {
        auditLog := auditLog[1..];
      }
      full := full + [Audit(id, action, actor)];
    }

    /** Storing a proposal's new form and recording its status, as every operation does. */
    method Store(id: Id, p: Proposal, actor: string)
      modifies this
      ensures Abs() == Move(old(Abs()), id, p, actor)
    {
      if id !in proposals {
        order := order + [id];
      }
      proposals := proposals[id := p];
      RecordAudit(id, p.status, actor);
    }

    /** The sum over the proposals that are waiting for a decision. */
    method CountPending() returns (pending: nat)
      requires Listed(proposals, order)
      ensures pending == |PendingIds(proposals)|
    {
      pending := 0;
      ghost var seen: set<Id> := {};
      for i := 0 to |order|
        invariant forall id :: id in seen <==> id in order[..i] && proposals[id].Pending()
        invariant pending == |seen|
      {
        var id := order[i];
        if proposals[id].Pending() {
          pending := pending + 1;
          seen := seen + {id};
        }
      }
      assert order[..|order|] == order;
      assert seen == PendingIds(proposals);
    }

    /** Whether an open proposal has this target. */
    method FindOpen(target: string) returns (taken: bool)
      requires Listed(proposals, order)
      ensures taken == TargetTaken(proposals, target)
    {
      for i := 0 to |order|
        invariant forall j :: 0 <= j < i ==> !(proposals[order[j]].target == target && proposals[order[j]].Open())
      {
        var id := order[i];
        if proposals[id].target == target && proposals[id].Open() {
          return true;
        }
      }
      return false;
    }

    /** `propose`; false where the code raises. */
    method ProposeChange(id: Id, target: string, actor: string, now: real) returns (accepted: bool)
      requires Valid() && id !in proposals
      modifies this
      ensures Valid()
      ensures accepted <==> |PendingIds(old(proposals))| < settings.maxPending && !TargetTaken(old(proposals), target)
      ensures accepted ==> Moved(old(Abs()), Abs(), id, actor,
                                 Proposal(target, actor, PROPOSED, now + settings.expireSeconds, None, None, None))
      ensures accepted == Propose(settings, old(Abs()), id, target, actor, now).Some?
      ensures Abs() == if accepted then Propose(settings, old(Abs()), id, target, actor, now).value else old(Abs())
    {
      var pending := CountPending();
      if pending >= settings.maxPending {
        return false;
      }
      var taken := FindOpen(target);
      if taken {
        return false;
      }
      ProposeKeepsInv(settings, Abs(), id, target, actor, now);
      Store(id, NewProposal(settings, target, actor, now), actor);
      return true;
    }

    method ApproveChange(id: Id, actor: string) returns (done: bool)
      requires Valid()
      modifies this
      ensures Valid() && (Abs(), done) == Approve(old(Abs()), id, actor)
      ensures done <==> id in old(proposals) && old(proposals)[id].status in {PROPOSED, REVIEWING}
      ensures if done then Moved(old(Abs()), Abs(), id, actor, old(proposals)[id].(status := APPROVED, approvedBy := Some(actor)))
              else Abs() == old(Abs())
    {
      ApproveKeepsInv(settings, Abs(), id, actor);
      if id !in proposals || !proposals[id].Pending() {
        return false;
      }
      Store(id, proposals[id].(status := APPROVED, approvedBy := Some(actor)), actor);
      return true;
    }

    method RejectChange(id: Id, actor: string) returns (done: bool)
      requires Valid()
      modifies this
      ensures Valid() && (Abs(), done) == Reject(old(Abs()), id, actor)
      ensures done <==> id in old(proposals) && old(proposals)[id].status in {PROPOSED, REVIEWING}
      ensures if done then Moved(old(Abs()), Abs(), id, actor, old(proposals)[id].(status := REJECTED))
              else Abs() == old(Abs())
    {
      RejectKeepsInv(settings, Abs(), id, actor);
      if id !in proposals || !proposals[id].Pending() {
        return false;
      }
      Store(id, proposals[id].(status := REJECTED), actor);
      return true;
    }

    method ApplyChange(id: Id, actor: string, callback: Callback) returns (done: bool)
      requires Valid()
      modifies this
      ensures Valid() && (Abs(), done) == Apply(old(Abs()), id, actor, callback)
      ensures done <==> id in old(proposals) && old(proposals)[id].status == APPROVED && callback in {NoCallback, Returned(true)}
      ensures if done then Moved(old(Abs()), Abs(), id, actor, old(proposals)[id].(status := APPLIED, appliedBy := Some(actor)))
              else if id in old(proposals) && old(proposals)[id].status == APPROVED then
                Moved(old(Abs()), Abs(), id, actor, old(proposals)[id].(status := FAILED))
              else Abs() == old(Abs())
    {
      ApplyKeepsInv(settings, Abs(), id, actor, callback);
      if id !in proposals || proposals[id].status != APPROVED {
        return false;
      }
      if callback.Failed() {
        Store(id, proposals[id].(status := FAILED), actor);
        return false;
      }
      Store(id, proposals[id].(status := APPLIED, appliedBy := Some(actor)), actor);
      return true;
    }

    method RollbackChange(id: Id, actor: string, callback: Callback) returns (done: bool)
      requires Valid()
      modifies this
      ensures Valid() && (Abs(), done) == Rollback(old(Abs()), id, actor, callback)
      ensures done <==> id in old(proposals) && old(proposals)[id].status == APPLIED && callback in {NoCallback, Returned(true)}
      ensures if done then
                Moved(old(Abs()), Abs(), id, actor, old(proposals)[id].(status := ROLLED_BACK, rolledBackBy := Some(actor)))
              else Abs() == old(Abs())
    {
      RollbackKeepsInv(settings, Abs(), id, actor, callback);
      if id !in proposals || proposals[id].status != APPLIED {
        return false;
      }
      if callback.Failed() {
        return false;
      }
      Store(id, proposals[id].(status := ROLLED_BACK, rolledBackBy := Some(actor)), actor);
      return true;
    }

    /** One turn of the loop of `_expire_stale`. */
    method ExpireIfStale(id: Id, now: real)
      modifies this
      ensures Abs() == ExpireOne(old(Abs()), id, now)
    {
      if id in proposals && Stale(proposals[id], now) {
        Store(id, proposals[id].(status := EXPIRED), "system");
      }
    }

    /** `_expire_stale` */
    method ExpireStale(now: real)
      requires Valid()
      modifies this
      ensures Valid() && Abs() == ExpireFirst(old(Abs()), now, |old(order)|)
      ensures proposals.Keys == old(proposals).Keys && order == old(order)
      ensures forall id :: id in proposals ==>
                proposals[id] == if PastTime(old(proposals)[id], now) then old(proposals)[id].(status := EXPIRED)
                                 else old(proposals)[id]
    {
      ghost var start := Abs();
      for i := 0 to |order|
        invariant order == start.order && Abs() == ExpireFirst(start, now, i)
      {
        ExpireOneKeepsOrder(Abs(), order[i], now);
        ExpireFirstNext(start, now, i);
        ExpireIfStale(order[i], now);
      }
      ExpireKeepsInv(settings, start, now, |order|);
      ExpiresTheStale(start, now, |order|);
    }
  }
}
