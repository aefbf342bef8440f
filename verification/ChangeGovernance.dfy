/** The change-request lifecycle of core/change_governance.py and its persistence. */
module ChangeGovernance {
  import opened Rounding
  import opened Sequences
  import opened Wrappers

  type Id = string

  datatype Status = DRAFT | SUBMITTED | IN_REVIEW | APPROVED | REJECTED | DEPLOYED | VERIFIED | CLOSED | ROLLED_BACK

  /** Events are named CREATED or after the status they lead to. */
  datatype Kind = CREATED | Entered(status: Status)

  datatype Event = Event(kind: Kind, actor: string, comment: string, timestamp: real)

  datatype ChangeRequest = ChangeRequest(
    title: string, description: string, changeType: string, priority: string, status: Status,
    author: string, reviewer: string, approver: string,
    filesChanged: seq<string>, riskLevel: string, riskScore: real, riskFactors: seq<string>, recommendations: seq<string>,
    linkedIncidents: seq<string>, linkedRelease: string, rollbackPlan: string, testSummary: string,
    events: seq<Event>, createdAt: real, updatedAt: real,
    deployedAt: Option<real>, verifiedAt: Option<real>, closedAt: Option<real>)

  const MAX_EVENTS := 20
  const SAVED_EVENTS := 10
  const SAVED_TEXT := 500
  const SAVED_ITEMS := 5

  // ---------------------------------------------------------------- operations

  /** `add_event` */
  function AddEvent(c: ChangeRequest, kind: Kind, actor: string, comment: string, now: real): ChangeRequest {
    c.(events := LastOf(c.events + [Event(kind, actor, comment, now)], MAX_EVENTS),
       updatedAt := now,
       deployedAt := if kind == Entered(DEPLOYED) then Some(now) else c.deployedAt,
       verifiedAt := if kind == Entered(VERIFIED) then Some(now) else c.verifiedAt,
       closedAt := if kind == Entered(CLOSED) || kind == Entered(ROLLED_BACK) then Some(now) else c.closedAt)
  }

  datatype Action = Submit | StartReview | Approve | Reject | Deploy | Verify | Close | Rollback

  function Target(a: Action): Status {
    match a
    case Submit => SUBMITTED
    case StartReview => IN_REVIEW
    case Approve => APPROVED
    case Reject => REJECTED
    case Deploy => DEPLOYED
    case Verify => VERIFIED
    case Close => CLOSED
    case Rollback => ROLLED_BACK
  }

  /** The status test at the head of each lifecycle method. */
  predicate Permitted(status: Status, a: Action) {
    match a
    case Submit => status == DRAFT
    case StartReview => status == SUBMITTED
    case Approve => status == SUBMITTED || status == IN_REVIEW
    case Reject => status == SUBMITTED || status == IN_REVIEW
    case Deploy => status == APPROVED
    case Verify => status == DEPLOYED
    case Close => status == VERIFIED
    case Rollback => status != CLOSED && status != ROLLED_BACK
  }

  function Perform(c: ChangeRequest, a: Action, actor: string, comment: string, now: real): ChangeRequest {
    var who := if a == Submit then if c.author == "" then "system" else c.author else actor;
    AddEvent(c.(status := Target(a),
                reviewer := if a == StartReview then actor else c.reviewer,
                approver := if a == Approve then actor else c.approver),
             Entered(Target(a)), who, comment, now)
  }

  // ---------------------------------------------------------------- creation

  const SUPPORTED_CHANGE_TYPES: seq<string> := [
    "CONFIG", "STRATEGY", "RISK", "BROKER", "CORE", "UI", "ML", "INFRA", "SECURITY", "OTHER"]

  const PRIORITIES: seq<string> := ["LOW", "MEDIUM", "HIGH", "CRITICAL"]

  /** The arguments of `create_change`. */
  datatype Draft = Draft(
    title: string, description: string, changeType: string, priority: string, author: string,
    filesChanged: seq<string>, rollbackPlan: string, testSummary: string)

  datatype Risk = Risk(level: string, score: real, factors: seq<string>, recommendations: seq<string>)

  /** Python's `strip` and `upper`, and the risk scorer; `None` where it is missing or raises. */
  datatype Env = Env(
    strip: string -> string, upper: string -> string, scorer: Option<(seq<string>, string) -> Option<Risk>>)

  function CleanType(env: Env, changeType: string): (t: string)
    ensures t in SUPPORTED_CHANGE_TYPES
    ensures env.upper(changeType) in SUPPORTED_CHANGE_TYPES ==> t == env.upper(changeType)
  {
    var t := env.upper(changeType);
    if t in SUPPORTED_CHANGE_TYPES then t else assert SUPPORTED_CHANGE_TYPES[9] == "OTHER"; "OTHER"
  }

  function CleanPriority(env: Env, priority: string): (p: string)
    ensures p in PRIORITIES
    ensures env.upper(priority) in PRIORITIES ==> p == env.upper(priority)
  {
    var p := env.upper(priority);
    if p in PRIORITIES then p else assert PRIORITIES[1] == "MEDIUM"; "MEDIUM"
  }

  function TypeLevel(changeType: string): string {
    if changeType == "RISK" || changeType == "SECURITY" || changeType == "BROKER" then "HIGH"
    else if changeType == "CORE" || changeType == "STRATEGY" || changeType == "CONFIG" || changeType == "ML" || changeType == "INFRA"
    then "MEDIUM"
    else "LOW"
  }

  /** The level where the assessment raises. */
  function FallbackLevel(changeType: string): string {
    if changeType == "RISK" || changeType == "SECURITY" || changeType == "BROKER" then "HIGH"
    else if changeType == "CORE" || changeType == "STRATEGY" || changeType == "CONFIG" then "MEDIUM"
    else "LOW"
  }

  /** The log calls it the type-based default; for two of the types it is a different one. */
  lemma FallbackIsDefaultIff(changeType: string)
    ensures FallbackLevel(changeType) == TypeLevel(changeType) <==> changeType != "ML" && changeType != "INFRA"
  {
  }

  function LevelScore(level: string): real {
    if level == "CRITICAL" then 0.85 else if level == "HIGH" then 0.65 else if level == "MEDIUM" then 0.40 else 0.15
  }

  /** `_assess_risk` */
  function Assessed(env: Env, files: seq<string>, title: string, changeType: string): Risk {
    if env.scorer.None? then Risk(FallbackLevel(changeType), 0.0, [], [])
    else if files == [] then Risk(TypeLevel(changeType), LevelScore(TypeLevel(changeType)), [], [])
    else
      var risk := env.scorer.value(files, title);
      if risk.Some? then risk.value else Risk(FallbackLevel(changeType), 0.0, [], [])
  }

  /** `create_change` */
  function Created(env: Env, draft: Draft, now: real): (c: ChangeRequest)
    ensures c.changeType in SUPPORTED_CHANGE_TYPES && c.priority in PRIORITIES
    ensures c.status == DRAFT && c.createdAt == c.updatedAt == now
  {
    var files := seq(|draft.filesChanged|, i requires 0 <= i < |draft.filesChanged| => env.strip(draft.filesChanged[i]));
    var title, changeType := env.strip(draft.title), CleanType(env, draft.changeType);
    var risk := Assessed(env, files, title, changeType);
    AddEvent(
      ChangeRequest(title, env.strip(draft.description), changeType, CleanPriority(env, draft.priority), DRAFT,
                    env.strip(draft.author), "", "", files, risk.level, risk.score, risk.factors, risk.recommendations,
                    [], "", env.strip(draft.rollbackPlan), env.strip(draft.testSummary), [], now, now, None, None, None),
      CREATED, if draft.author == "" then "system" else draft.author, "Change request created", now)
  }

  /** The level a change type has of its own. */
  lemma TypeLevels(changeType: string)
    ensures TypeLevel(changeType) == "HIGH" <==> changeType in {"RISK", "SECURITY", "BROKER"}
    ensures TypeLevel(changeType) == "MEDIUM" <==> changeType in {"CORE", "STRATEGY", "CONFIG", "ML", "INFRA"}
    ensures TypeLevel(changeType) in {"HIGH", "MEDIUM", "LOW"}
  {
    assert "HIGH" != "MEDIUM" && "HIGH" != "LOW" && "MEDIUM" != "LOW";
  }

  /** The risk of a change: without files it is that of its type, with them the scorer's; where the
      assessment raises, the fallback level with score 0. */
  lemma AssessedIs(env: Env, files: seq<string>, title: string, changeType: string)
    ensures var risk := Assessed(env, files, title, changeType);
            if env.scorer.Some? && files == [] then
              && risk.level == TypeLevel(changeType)
              && risk.score == (if changeType in {"RISK", "SECURITY", "BROKER"} then 0.65
                                else if changeType in {"CORE", "STRATEGY", "CONFIG", "ML", "INFRA"} then 0.4 else 0.15)
              && risk.factors == [] && risk.recommendations == []
            else if env.scorer.Some? && env.scorer.value(files, title).Some? then risk == env.scorer.value(files, title).value
            else
              && risk.level == (if changeType in {"ML", "INFRA"} then "LOW" else TypeLevel(changeType))
              && risk.score == 0.0 && risk.factors == [] && risk.recommendations == []
  {
    TypeLevels(changeType);
    assert "HIGH" != "CRITICAL" && "MEDIUM" != "CRITICAL" && "LOW" != "CRITICAL";
  }

  /** The draft a creation makes: every text stripped, the author as given in the first event. */
  lemma CreatedFields(env: Env, draft: Draft, now: real)
    ensures var c := Created(env, draft, now);
            && c.title == env.strip(draft.title) && c.description == env.strip(draft.description)
            && c.author == env.strip(draft.author) && c.reviewer == "" && c.approver == ""
            && c.rollbackPlan == env.strip(draft.rollbackPlan) && c.testSummary == env.strip(draft.testSummary)
            && |c.filesChanged| == |draft.filesChanged|
            && (forall i :: 0 <= i < |c.filesChanged| ==> c.filesChanged[i] == env.strip(draft.filesChanged[i]))
            && c.linkedIncidents == [] && c.linkedRelease == ""
            && c.events == [Event(CREATED, if draft.author == "" then "system" else draft.author, "Change request created", now)]
            && c.deployedAt == c.verifiedAt == c.closedAt == None
            && Risk(c.riskLevel, c.riskScore, c.riskFactors, c.recommendations)
               == Assessed(env, c.filesChanged, c.title, c.changeType)
            && (env.upper(draft.changeType) !in SUPPORTED_CHANGE_TYPES ==> c.changeType == "OTHER")
            && (env.upper(draft.priority) !in PRIORITIES ==> c.priority == "MEDIUM")
  {
  }

  // ---------------------------------------------------------------- persistence

  /** What `to_dict` writes: long texts and lists are cut, three timestamps are left out. */
  datatype Saved = Saved(
    title: string, description: string, changeType: string, priority: string, status: Status,
    author: string, reviewer: string, approver: string,
    filesChanged: seq<string>, riskLevel: string, riskScore: real, riskFactors: seq<string>, recommendations: seq<string>,
    linkedIncidents: seq<string>, linkedRelease: string, rollbackPlan: string, testSummary: string,
    events: seq<Event>, createdAt: real, updatedAt: real)

  function Encode(c: ChangeRequest): Saved {
    Saved(c.title, FirstOf(c.description, SAVED_TEXT), c.changeType, c.priority, c.status,
          c.author, c.reviewer, c.approver, c.filesChanged, c.riskLevel,
          Round3(c.riskScore), FirstOf(c.riskFactors, SAVED_ITEMS), FirstOf(c.recommendations, SAVED_ITEMS),
          c.linkedIncidents, c.linkedRelease, FirstOf(c.rollbackPlan, SAVED_TEXT), FirstOf(c.testSummary, SAVED_TEXT),
          LastOf(c.events, SAVED_EVENTS), c.createdAt, c.updatedAt)
  }

  /** Every field of the record: long texts and lists by their beginning, the events by their end. */
  lemma EncodedFields(c: ChangeRequest)
    ensures var d := Encode(c);
            && (d.title, d.changeType, d.priority, d.status) == (c.title, c.changeType, c.priority, c.status)
            && (d.author, d.reviewer, d.approver, d.riskLevel) == (c.author, c.reviewer, c.approver, c.riskLevel)
            && (d.filesChanged, d.linkedIncidents, d.linkedRelease) == (c.filesChanged, c.linkedIncidents, c.linkedRelease)
            && (d.createdAt, d.updatedAt) == (c.createdAt, c.updatedAt)
            && d.description <= c.description && (|c.description| <= 500 || |d.description| == 500) && |d.description| <= 500
            && d.rollbackPlan <= c.rollbackPlan && (|c.rollbackPlan| <= 500 || |d.rollbackPlan| == 500) && |d.rollbackPlan| <= 500
            && d.testSummary <= c.testSummary && (|c.testSummary| <= 500 || |d.testSummary| == 500) && |d.testSummary| <= 500
            && d.riskFactors <= c.riskFactors && d.recommendations <= c.recommendations
            && d.events == (if |c.events| <= 10 then c.events else c.events[|c.events| - 10..])
            && -0.0005 <= d.riskScore - c.riskScore <= 0.0005
  {
    Round3Near(c.riskScore);
  }

  /** `_load_changes` for one record. */
  function Decode(d: Saved): ChangeRequest {
    ChangeRequest(d.title, d.description, d.changeType, d.priority, d.status, d.author, d.reviewer, d.approver,
                  d.filesChanged, d.riskLevel, d.riskScore,
                  d.riskFactors, d.recommendations, d.linkedIncidents, d.linkedRelease, d.rollbackPlan, d.testSummary,
                  d.events, d.createdAt, d.updatedAt, None, None, None)
  }

  lemma Round3Idempotent(x: real)
    ensures Round3(Round3(x)) == Round3(x)
  {
    var n := NearestEven(x * 1000.0);
    WholeIsFixed(n);
    assert Round3(x) * 1000.0 == n as real;
  }

  /** Saving what was loaded writes the same record again. */
  lemma SaveLoadSave(c: ChangeRequest)
    ensures Encode(Decode(Encode(c))) == Encode(c)
  {
    Round3Idempotent(c.riskScore);
  }

  /** Loading gives the change back exactly when nothing in it is cut, rounded or left out. */
  lemma LoadRestoresIff(c: ChangeRequest)
    ensures Decode(Encode(c)) == c
       <==> && |c.description| <= 500 && |c.rollbackPlan| <= 500 && |c.testSummary| <= 500
            && |c.riskFactors| <= 5 && |c.recommendations| <= 5
            && |c.events| <= 10
            && IsWhole(c.riskScore * 1000.0)
            && c.deployedAt == c.verifiedAt == c.closedAt == None
  {
    if IsWhole(c.riskScore * 1000.0) {
      WholeIsFixed((c.riskScore * 1000.0).Floor);
    } else {
      var n := NearestEven(c.riskScore * 1000.0);
      WholeIsWhole(n);
      assert Round3(c.riskScore) * 1000.0 == n as real;
    }
    CutChanges(c.description, SAVED_TEXT);
    CutChanges(c.rollbackPlan, SAVED_TEXT);
    CutChanges(c.testSummary, SAVED_TEXT);
    CutChanges(c.riskFactors, SAVED_ITEMS);
    CutChanges(c.recommendations, SAVED_ITEMS);
    CutChanges(c.events, SAVED_EVENTS);
  }

  // ---------------------------------------------------------------- the history of one change

  function StatusAfter(kind: Kind): Status {
    if kind == CREATED then DRAFT else kind.status
  }

  predicate Edge(a: Status, b: Status) {
    exists action: Action :: Permitted(a, action) && Target(action) == b
  }

  /** What each action needs and where it leads. */
  lemma ActionTable(status: Status)
    ensures Target(Submit) == SUBMITTED && (Permitted(status, Submit) <==> status == DRAFT)
    ensures Target(StartReview) == IN_REVIEW && (Permitted(status, StartReview) <==> status == SUBMITTED)
    ensures Target(Approve) == APPROVED && (Permitted(status, Approve) <==> status in {SUBMITTED, IN_REVIEW})
    ensures Target(Reject) == REJECTED && (Permitted(status, Reject) <==> status in {SUBMITTED, IN_REVIEW})
    ensures Target(Deploy) == DEPLOYED && (Permitted(status, Deploy) <==> status == APPROVED)
    ensures Target(Verify) == VERIFIED && (Permitted(status, Verify) <==> status == DEPLOYED)
    ensures Target(Close) == CLOSED && (Permitted(status, Close) <==> status == VERIFIED)
    ensures Target(Rollback) == ROLLED_BACK
    ensures Permitted(status, Rollback) <==> status in {DRAFT, SUBMITTED, IN_REVIEW, APPROVED, REJECTED, DEPLOYED, VERIFIED}
  {
  }

  /** How many events a change in this status can have at most. */
  function Rank(status: Status): nat {
    match status
    case DRAFT => 1
    case SUBMITTED => 2
    case IN_REVIEW => 3
    case APPROVED => 4
    case REJECTED => 4
    case DEPLOYED => 5
    case VERIFIED => 6
    case CLOSED => 7
    case ROLLED_BACK => 7
  }

  /** The events are a path through the lifecycle from the creation on. */
  ghost predicate Path(events: seq<Event>) {
    && |events| > 0 && events[0].kind == CREATED
    && (forall i :: 0 < i < |events| ==>
          events[i].kind != CREATED && Edge(StatusAfter(events[i - 1].kind), StatusAfter(events[i].kind)))
  }

  /** Complete history: a lifecycle path, with room to spare below every bound, that determines the status. */
  ghost predicate Complete(c: ChangeRequest) {
    && Path(c.events)
    && c.status == StatusAfter(c.events[|c.events| - 1].kind)
    && |c.events| <= Rank(c.status)
  }

  lemma EdgeRaisesRank(a: Status, b: Status)
    requires Edge(a, b)
    ensures Rank(a) < Rank(b) <= 7
  {
  }

  lemma PathSnoc(events: seq<Event>, e: Event)
    requires Path(events) && e.kind != CREATED && Edge(StatusAfter(events[|events| - 1].kind), StatusAfter(e.kind))
    ensures Path(events + [e])
  {
    var longer := events + [e];
    forall i | 0 < i < |longer|
      ensures longer[i].kind != CREATED && Edge(StatusAfter(longer[i - 1].kind), StatusAfter(longer[i].kind))
    {
      if i < |events| {
        assert longer[i] == events[i] && longer[i - 1] == events[i - 1];
      }
    }
  }

  lemma PerformKeepsComplete(c: ChangeRequest, a: Action, actor: string, comment: string, now: real)
    requires Complete(c) && Permitted(c.status, a)
    ensures Complete(Perform(c, a, actor, comment, now))
    ensures var next := Perform(c, a, actor, comment, now);
            |next.events| == |c.events| + 1 && next.events[..|c.events|] == c.events
  {
    assert Edge(c.status, Target(a));
    EdgeRaisesRank(c.status, Target(a));
    var who := if a == Submit then if c.author == "" then "system" else c.author else actor;
    var e := Event(Entered(Target(a)), who, comment, now);
    PathSnoc(c.events, e);
    assert Perform(c, a, actor, comment, now).events == c.events + [e];
  }

  /** Whoever is deployed, verified or closed has been approved before. */
  lemma {:induction false} ApprovedBefore(events: seq<Event>)
    requires Path(events)
    requires var status := StatusAfter(events[|events| - 1].kind);
             status == APPROVED || status == DEPLOYED || status == VERIFIED || status == CLOSED
    ensures exists i :: 0 <= i < |events| && events[i].kind == Entered(APPROVED)
  {
    var n := |events| - 1;
    if StatusAfter(events[n].kind) == APPROVED {
      assert events[n].kind == Entered(APPROVED);
    } else {
      assert n > 0;
      assert Edge(StatusAfter(events[n - 1].kind), StatusAfter(events[n].kind));
      var init := events[..n];
      assert Path(init);
      ApprovedBefore(init);
      var i :| 0 <= i < |init| && init[i].kind == Entered(APPROVED);
      assert events[i] == init[i];
    }
  }

  // ---------------------------------------------------------------- runs of the engine

  datatype Op =
    | Create(id: Id, env: Env, draft: Draft, now: real)
    | Lifecycle(id: Id, action: Action, actor: string, comment: string, now: real)
    | LinkIncident(id: Id, incident: string)
    | LinkRelease(id: Id, release: string)
    | Restart

  function WithIncident(c: ChangeRequest, incident: string): ChangeRequest {
    if incident in c.linkedIncidents then c else c.(linkedIncidents := c.linkedIncidents + [incident])
  }

  /** The contents of the change file. */
  function EncodeAll(changes: map<Id, ChangeRequest>): map<Id, Saved> {
    map id | id in changes :: Encode(changes[id])
  }

  function DecodeAll(saved: map<Id, Saved>): map<Id, ChangeRequest> {
    map id | id in saved :: Decode(saved[id])
  }

  /** What a new start finds in the file of the last save. */
  function LoadAll(changes: map<Id, ChangeRequest>): map<Id, ChangeRequest> {
    DecodeAll(EncodeAll(changes))
  }

  function Step(changes: map<Id, ChangeRequest>, op: Op): map<Id, ChangeRequest> {
    match op
    case Create(id, env, draft, now) => changes[id := Created(env, draft, now)]
    case Lifecycle(id, action, actor, comment, now) =>
      if id in changes && Permitted(changes[id].status, action) then
        changes[id := Perform(changes[id], action, actor, comment, now)]
      else changes
    case LinkIncident(id, incident) => if id in changes then changes[id := WithIncident(changes[id], incident)] else changes
    case LinkRelease(id, release) => if id in changes then changes[id := changes[id].(linkedRelease := release)] else changes
    case Restart => LoadAll(changes)
  }

  function Run(ops: seq<Op>): map<Id, ChangeRequest> {
    if |ops| == 0 then map[] else Step(Run(ops[..|ops| - 1]), ops[|ops| - 1])
  }

  ghost predicate AllComplete(changes: map<Id, ChangeRequest>) {
    forall id :: id in changes ==> Complete(changes[id])
  }

  lemma RestartKeepsComplete(c: ChangeRequest)
    requires Complete(c)
    ensures Complete(Decode(Encode(c))) && Decode(Encode(c)).events == c.events
  {
  }

  lemma CreatedIsComplete(env: Env, draft: Draft, now: real)
    ensures Complete(Created(env, draft, now))
  {
  }

  lemma OneMoreComplete(changes: map<Id, ChangeRequest>, id: Id, c: ChangeRequest)
    requires AllComplete(changes) && Complete(c)
    ensures AllComplete(changes[id := c])
  {
  }

  lemma StepKeepsComplete(changes: map<Id, ChangeRequest>, op: Op)
    requires AllComplete(changes)
    ensures AllComplete(Step(changes, op))
  {
    match op
    case Create(id, env, draft, now) =>
      CreatedIsComplete(env, draft, now);
      OneMoreComplete(changes, id, Created(env, draft, now));
    case Lifecycle(id, action, actor, comment, now) =>
      if id in changes && Permitted(changes[id].status, action) {
        PerformKeepsComplete(changes[id], action, actor, comment, now);
        OneMoreComplete(changes, id, Perform(changes[id], action, actor, comment, now));
      }
    case LinkIncident(id, incident) =>
      if id in changes {
        OneMoreComplete(changes, id, WithIncident(changes[id], incident));
      }
    case LinkRelease(id, release) =>
      if id in changes {
        OneMoreComplete(changes, id, changes[id].(linkedRelease := release));
      }
    case Restart => RestartKeepsEvents(changes);
  }

  lemma CompleteIsShort(c: ChangeRequest)
    requires Complete(c)
    ensures |c.events| <= 7 && LastOf(c.events, SAVED_EVENTS) == c.events && LastOf(c.events, MAX_EVENTS) == c.events
  {
    assert Rank(c.status) <= 7;
  }

  /** In every run, with restarts anywhere, every change has its whole history: at most seven events, a path
      through the lifecycle, so neither bound ever cuts it, and the last event tells the status. */
  lemma HistoryNeverTruncated(ops: seq<Op>, id: Id)
    requires id in Run(ops)
    ensures var c := Run(ops)[id];
            Complete(c) && |c.events| <= 7 && LastOf(c.events, SAVED_EVENTS) == c.events
  {
    EveryRunComplete(ops);
    CompleteIsShort(Run(ops)[id]);
  }

  lemma {:induction false} EveryRunComplete(ops: seq<Op>)
    ensures AllComplete(Run(ops))
  {
    if |ops| > 0 {
      EveryRunComplete(ops[..|ops| - 1]);
      StepKeepsComplete(Run(ops[..|ops| - 1]), ops[|ops| - 1]);
    }
  }

  lemma DeployedWasApproved(ops: seq<Op>, id: Id)
    requires id in Run(ops)
    requires var status := Run(ops)[id].status; status == DEPLOYED || status == VERIFIED || status == CLOSED
    ensures exists i :: 0 <= i < |Run(ops)[id].events| && Run(ops)[id].events[i].kind == Entered(APPROVED)
  {
    EveryRunComplete(ops);
    ApprovedBefore(Run(ops)[id].events);
  }

  /** The file has every change with its status and all its events. */
  ghost predicate KeepsHistory(changes: map<Id, ChangeRequest>, saved: map<Id, Saved>) {
    && saved.Keys == changes.Keys
    && forall id :: id in changes ==> saved[id].status == changes[id].status && saved[id].events == changes[id].events
  }

  lemma SavedKeepsHistory(changes: map<Id, ChangeRequest>)
    requires AllComplete(changes)
    ensures KeepsHistory(changes, EncodeAll(changes))
  {
    forall id | id in changes ensures Encode(changes[id]).events == changes[id].events {
      CompleteIsShort(changes[id]);
    }
  }

  /** A restart would write the same file. */
  lemma RestartKeepsFile(changes: map<Id, ChangeRequest>)
    ensures EncodeAll(LoadAll(changes)) == EncodeAll(changes)
  {
    forall id | id in changes ensures EncodeAll(LoadAll(changes))[id] == Encode(changes[id]) {
      SaveLoadSave(changes[id]);
    }
  }

  /** A restart loses no event. */
  lemma RestartKeepsEvents(changes: map<Id, ChangeRequest>)
    requires AllComplete(changes)
    ensures AllComplete(LoadAll(changes))
    ensures forall id :: id in changes ==> LoadAll(changes)[id].events == changes[id].events
  {
    forall id | id in changes ensures Complete(Decode(Encode(changes[id]))) && LoadAll(changes)[id].events == changes[id].events {
      RestartKeepsComplete(changes[id]);
    }
  }

  // ---------------------------------------------------------------- what an action changes

  /** One event more, by the author for a submission and by the actor otherwise; the reviewer, the approver
      and the timestamps of the actions that have one; and nothing else. */
  ghost predicate Performed(c: ChangeRequest, next: ChangeRequest, a: Action, actor: string, comment: string, now: real) {
    var who := if a != Submit then actor else if c.author != "" then c.author else "system";
    next == c.(
      status := Target(a),
      reviewer := if a == StartReview then actor else c.reviewer,
      approver := if a == Approve then actor else c.approver,
      events := c.events + [Event(Entered(Target(a)), who, comment, now)],
      updatedAt := now,
      deployedAt := if a == Deploy then Some(now) else c.deployedAt,
      verifiedAt := if a == Verify then Some(now) else c.verifiedAt,
      closedAt := if a == Close || a == Rollback then Some(now) else c.closedAt)
  }

  lemma PerformChanges(c: ChangeRequest, a: Action, actor: string, comment: string, now: real)
    requires Complete(c)
    ensures Performed(c, Perform(c, a, actor, comment, now), a, actor, comment, now)
  {
    CompleteIsShort(c);
  }

  /** The event list keeps its last twenty. */
  lemma AddEventKeepsTwenty(c: ChangeRequest, kind: Kind, actor: string, comment: string, now: real)
    ensures var all, kept := c.events + [Event(kind, actor, comment, now)], AddEvent(c, kind, actor, comment, now).events;
            kept == if |all| <= 20 then all else all[|all| - 20..]
  {
  }

  // ---------------------------------------------------------------- the engine

  class ChangeGovernanceEngine {
    var changes: map<Id, ChangeRequest>
    var saved: map<Id, Saved>

    /** The file always holds the encoding of the current changes. */
    ghost predicate Valid()
      reads this
    {
      AllComplete(changes) && saved == EncodeAll(changes)
    }

    constructor ()
      ensures Valid() && changes == map[]
    {
      changes := map[];
      saved := map[];
    }

    /** `_save_changes` */
    method SaveChanges()
      modifies this`saved
      ensures saved == EncodeAll(changes)
      ensures AllComplete(changes) ==> KeepsHistory(changes, saved)
    {
      if AllComplete(changes) {
        SavedKeepsHistory(changes);
      }
      saved := EncodeAll(changes);
    }

    /** A new start: `_load_changes` decodes what the file holds. */
    method LoadChanges()
      requires Valid()
      modifies this`changes
      ensures Valid() && changes == LoadAll(old(changes)) && saved == old(saved)
      ensures forall id :: id in old(changes) ==> changes[id].events == old(changes)[id].events
    {
      RestartKeepsEvents(changes);
      RestartKeepsFile(changes);
      changes := DecodeAll(saved);
    }

    method CreateChange(id: Id, env: Env, draft: Draft, now: real)
      requires Valid() && id !in changes
      modifies this
      ensures Valid() && changes == Step(old(changes), Create(id, env, draft, now))
      ensures changes == old(changes)[id := Created(env, draft, now)]
    {
      StepKeepsComplete(changes, Create(id, env, draft, now));
      changes := changes[id := Created(env, draft, now)];
      SaveChanges();
    }

    /** The common shape of `submit_for_review`, `start_review`, `approve`, `reject`, `deploy`, `verify`, `close` and `rollback`. */
    method Advance(id: Id, action: Action, actor: string, comment: string, now: real) returns (done: bool)
      requires Valid()
      modifies this
      ensures Valid() && changes == Step(old(changes), Lifecycle(id, action, actor, comment, now))
      ensures done <==> id in old(changes) && Permitted(old(changes)[id].status, action)
      ensures done ==> changes[id].status == Target(action) && |changes[id].events| == |old(changes)[id].events| + 1
      ensures done ==> changes == old(changes)[id := changes[id]] && Performed(old(changes)[id], changes[id], action, actor, comment, now)
      ensures !done ==> changes == old(changes) && saved == old(saved)
    {
      StepKeepsComplete(changes, Lifecycle(id, action, actor, comment, now));
      if id !in changes || !Permitted(changes[id].status, action) {
        return false;
      }
      PerformKeepsComplete(changes[id], action, actor, comment, now);
      PerformChanges(changes[id], action, actor, comment, now);
      changes := changes[id := Perform(changes[id], action, actor, comment, now)];
      SaveChanges();
      return true;
    }

    method Link(id: Id, incident: string) returns (found: bool)
      requires Valid()
      modifies this
      ensures Valid() && found == (id in old(changes)) && changes == Step(old(changes), LinkIncident(id, incident))
      ensures !found ==> changes == old(changes)
      ensures found ==>
                var before := old(changes)[id].linkedIncidents;
                changes == old(changes)[id := old(changes)[id].(
                  linkedIncidents := if incident in before then before else before + [incident])]
    {
      StepKeepsComplete(changes, LinkIncident(id, incident));
      if id !in changes {
        return false;
      }
      if incident !in changes[id].linkedIncidents {
        changes := changes[id := changes[id].(linkedIncidents := changes[id].linkedIncidents + [incident])];
        SaveChanges();
      }
      return true;
    }

    method AttachRelease(id: Id, release: string) returns (found: bool)
      requires Valid()
      modifies this
      ensures Valid() && found == (id in old(changes)) && changes == Step(old(changes), LinkRelease(id, release))
      ensures changes == if found then old(changes)[id := old(changes)[id].(linkedRelease := release)] else old(changes)
    {
      StepKeepsComplete(changes, LinkRelease(id, release));
      if id !in changes {
        return false;
      }
      changes := changes[id := changes[id].(linkedRelease := release)];
      SaveChanges();
      return true;
    }
  }
}
