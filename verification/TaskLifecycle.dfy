/** The durable rows of one task: its state machine, its team and its roles. */
module TaskLifecycle {
  import opened Domain
  import opened Routing

  // ---------------------------------------------------------------- state machine

  function Transitions(from: TaskStatus): set<TaskStatus> {
    match from
    case QUEUED => {DISPATCHED, BLOCKED, CANCELLED, WAITING_MAIN, HUMAN_GATE}
    case DISPATCHED => {CLAIMED, QUEUED, BLOCKED, CANCELLED, WAITING_MAIN}
    case CLAIMED => {RUNNING, BLOCKED, CANCELLED, WAITING_MAIN}
    case RUNNING => {WAITING_RESULT, BLOCKED, FAIL, CANCELLED, WAITING_MAIN, HUMAN_GATE}
    case WAITING_RESULT => {REVIEWING, PASS, FAIL, BLOCKED, WAITING_MAIN}
    case REVIEWING => {PASS, FAIL, BLOCKED, WAITING_MAIN, HUMAN_GATE}
    case FAIL => {QUEUED, CANCELLED, BLOCKED}
    case BLOCKED => {QUEUED, CANCELLED, WAITING_MAIN, HUMAN_GATE}
    case WAITING_MAIN => {QUEUED, DISPATCHED, PASS, CANCELLED, HUMAN_GATE}
    case HUMAN_GATE => {QUEUED, DISPATCHED, CANCELLED, WAITING_MAIN}
    case PASS => {COMPLETED}
    case COMPLETED => {}
    case CANCELLED => {}
  }

  predicate CanTransition(from: TaskStatus, to: TaskStatus) {
    from == to || to in Transitions(from)
  }

  /** A non-empty walk along legal edges. */
  ghost predicate Walk(path: seq<TaskStatus>) {
    path != [] && forall i :: 0 <= i < |path| - 1 ==> CanTransition(path[i], path[i + 1])
  }

  ghost predicate Leads(path: seq<TaskStatus>, from: TaskStatus, to: TaskStatus) {
    Walk(path) && path[0] == from && path[|path| - 1] == to
  }

  const CLOSED: set<TaskStatus> := {PASS, COMPLETED, CANCELLED}

  /** A short legal route back to the queue, for every status that has one. */
  function ToQueue(from: TaskStatus): seq<TaskStatus> {
    match from
    case QUEUED => [QUEUED]
    case CLAIMED => [CLAIMED, BLOCKED, QUEUED]
    case RUNNING => [RUNNING, BLOCKED, QUEUED]
    case WAITING_RESULT => [WAITING_RESULT, BLOCKED, QUEUED]
    case REVIEWING => [REVIEWING, BLOCKED, QUEUED]
    case other => [other, QUEUED]
  }

  /** A legal route from the queue to any status. */
  function FromQueue(to: TaskStatus): seq<TaskStatus> {
    match to
    case QUEUED => [QUEUED]
    case CLAIMED => [QUEUED, DISPATCHED, CLAIMED]
    case RUNNING => [QUEUED, DISPATCHED, CLAIMED, RUNNING]
    case WAITING_RESULT => [QUEUED, DISPATCHED, CLAIMED, RUNNING, WAITING_RESULT]
    case REVIEWING => [QUEUED, DISPATCHED, CLAIMED, RUNNING, WAITING_RESULT, REVIEWING]
    case FAIL => [QUEUED, DISPATCHED, CLAIMED, RUNNING, FAIL]
    case PASS => [QUEUED, WAITING_MAIN, PASS]
    case COMPLETED => [QUEUED, WAITING_MAIN, PASS, COMPLETED]
    case other => [QUEUED, other]
  }

  predicate Reachable(from: TaskStatus, to: TaskStatus) {
    from == to || from !in CLOSED || (from == PASS && to == COMPLETED)
  }

  /**
   * What the transition table allows in the long run: COMPLETED and CANCELLED are final, PASS only
   * leads to COMPLETED, and from every other status every status can be reached.
   */
  lemma ReachableIff(from: TaskStatus, to: TaskStatus)
    ensures (exists path :: Leads(path, from, to)) <==> Reachable(from, to)
  {
    if exists path :: Leads(path, from, to) {
      var path :| Leads(path, from, to);
      WalkStays(path);
    }
    if from == to {
      assert Leads([from], from, to);
    } else if from == PASS && to == COMPLETED {
      assert Leads([PASS, COMPLETED], from, to);
    } else if from !in CLOSED {
      BackToQueue(from);
      OutOfQueue(to);
      Joined(ToQueue(from), FromQueue(to), from, QUEUED, to);
    }
  }

  lemma BackToQueue(from: TaskStatus)
    requires from !in CLOSED
    ensures Leads(ToQueue(from), from, QUEUED)
  {
  }

  lemma OutOfQueue(to: TaskStatus)
    ensures Leads(FromQueue(to), QUEUED, to)
  {
  }

  lemma Joined(one: seq<TaskStatus>, two: seq<TaskStatus>, from: TaskStatus, via: TaskStatus, to: TaskStatus)
    requires Leads(one, from, via) && Leads(two, via, to)
    ensures Leads(one + two, from, to)
  {
    var path := one + two;
    forall i | 0 <= i < |path| - 1 ensures CanTransition(path[i], path[i + 1]) {
      if i + 1 < |one| {
        assert CanTransition(one[i], one[i + 1]);
      } else if i + 1 > |one| {
        assert CanTransition(two[i - |one|], two[i + 1 - |one|]);
      }
    }
  }

  lemma {:induction false} WalkStays(path: seq<TaskStatus>)
    requires Walk(path)
    ensures Reachable(path[0], path[|path| - 1])
  {
    if |path| > 1 {
      WalkStays(path[..|path| - 1]);
      assert CanTransition(path[|path| - 2], path[|path| - 1]);
    }
  }

  // ---------------------------------------------------------------- rows

  datatype TaskRow = TaskRow(
    status: TaskStatus, role: Role, assignee: Option<AgentId>, attempt: nat, sequence: Option<nat>,
    startedAt: Option<Time>, completedAt: Option<Time>, result: Option<string>, evidence: seq<string>,
    nextOwner: Option<string>, lockToken: Option<string>, candidate: bool, updatedAt: Time)

  datatype Patch = Patch(
    assignee: Option<AgentId>, attempt: Option<nat>, startedAt: Option<Time>, completedAt: Option<Time>,
    result: Option<string>, evidence: Option<seq<string>>, nextOwner: Option<string>, lockToken: Option<string>)

  const NO_PATCH := Patch(None, None, None, None, None, None, None, None)

  datatype TeamStatus = PLANNED | TeamACTIVE | TeamBLOCKED | COMPLETE

  datatype Team = Team(status: TeamStatus, current: Option<nat>)

  datatype RoleRow = RoleRow(
    role: Role, status: RoleStatus, assignee: Option<AgentId>, round: nat, reason: Option<string>,
    startedAt: Option<Time>, completedAt: Option<Time>, result: Option<string>, evidence: seq<string>)

  datatype Recorded = Recorded(sequence: nat, role: Role, decision: Decision)

  /** Everything stored about one task. Role rows are numbered from 1. */
  datatype Records = Records(task: TaskRow, team: Option<Team>, roles: seq<RoleRow>, decisions: seq<Recorded>)

  function Or<T>(first: Option<T>, second: Option<T>): Option<T> {
    if first.Some? then first else second
  }

  /** The row after a legal transition; timestamps already present survive unless the patch names them. */
  function Moved(t: TaskRow, to: TaskStatus, p: Patch, now: Time): TaskRow {
    t.(status := to,
       assignee := Or(p.assignee, t.assignee),
       attempt := if p.attempt.Some? then p.attempt.value else t.attempt,
       startedAt := Or(p.startedAt, Or(t.startedAt, if to in {CLAIMED, RUNNING} then Some(now) else None)),
       completedAt := Or(p.completedAt, Or(t.completedAt, if to in {PASS, COMPLETED, FAIL, CANCELLED} then Some(now) else None)),
       result := Or(p.result, t.result),
       evidence := if p.evidence.Some? then p.evidence.value else t.evidence,
       nextOwner := Or(p.nextOwner, t.nextOwner),
       lockToken := Or(p.lockToken, t.lockToken),
       updatedAt := now)
  }

  function Transitioned(t: TaskRow, to: TaskStatus, p: Patch, now: Time): TaskRow {
    if CanTransition(t.status, to) then Moved(t, to, p, now) else t
  }

  function CurrentRoleSet(t: TaskRow, sequence: Option<nat>, role: Option<Role>, agent: Option<AgentId>, now: Time): TaskRow {
    t.(sequence := sequence, role := if role.Some? then role.value else t.role,
       assignee := Or(agent, t.assignee), updatedAt := now)
  }

  predicate HasRole(r: Records, sequence: int) {
    1 <= sequence <= |r.roles|
  }

  function RoleAt(r: Records, sequence: int): RoleRow
    requires HasRole(r, sequence)
  {
    r.roles[sequence - 1]
  }

  /** An update of a row that does not exist changes nothing. */
  function PutRole(r: Records, sequence: int, row: RoleRow): Records {
    if HasRole(r, sequence) then r.(roles := r.roles[sequence - 1 := row]) else r
  }

  /** The role row, or a fresh one where there is none: only ever used to compute an update. */
  function Row(r: Records, sequence: int): RoleRow {
    if HasRole(r, sequence) then RoleAt(r, sequence) else Fresh(DEVELOPER)
  }

  function PutTeam(r: Records, status: TeamStatus, current: Option<nat>): Records {
    if r.team.Some? then r.(team := Some(Team(status, current))) else r
  }

  function CurrentSequence(r: Records): Option<nat> {
    if r.team.Some? then r.team.value.current else None
  }

  function Fresh(role: Role): RoleRow {
    RoleRow(role, PENDING, None, 0, None, None, None, None, [])
  }

  function FreshRoles(required: seq<Role>): (rows: seq<RoleRow>)
    ensures |rows| == |required| && forall i :: 0 <= i < |rows| ==> rows[i] == Fresh(required[i])
  {
    if required == [] then []
    else FreshRoles(required[..|required| - 1]) + [Fresh(required[|required| - 1])]
  }

  function Created(r: Records, roles: seq<Role>): Records {
    if r.team.Some? then r
    else r.(team := Some(Team(PLANNED, None)), roles := FreshRoles(roles))
  }

  function Assigned(r: Records, sequence: int, agent: AgentId, reason: string): Records {
    PutRole(r, sequence,
            Row(r, sequence).(assignee := Some(agent), status := ASSIGNED, reason := Some(reason), completedAt := None))
  }

  function Blocked(r: Records, sequence: int, reason: string, now: Time): Records {
    var row := Row(r, sequence).(status := RoleBLOCKED, reason := Some(reason), completedAt := Some(now));
    PutTeam(PutRole(r, sequence, row), TeamBLOCKED, CurrentSequence(r))
  }

  function Activated(r: Records, sequence: nat, now: Time): Records {
    var row := Row(r, sequence);
    PutTeam(PutRole(r, sequence, row.(status := ACTIVE, startedAt := Or(row.startedAt, Some(now)))),
            TeamACTIVE, Some(sequence))
  }

  function Finished(r: Records, sequence: int, status: RoleStatus, result: string, evidence: seq<string>, now: Time): Records {
    PutRole(r, sequence,
            Row(r, sequence).(status := status, result := Some(result), evidence := evidence, completedAt := Some(now)))
  }

  function Reopened(r: Records, sequence: nat, round: nat): Records {
    PutTeam(PutRole(r, sequence, Row(r, sequence).(status := ACTIVE, round := round, completedAt := None)),
            TeamACTIVE, Some(sequence))
  }

  function TeamCompleted(r: Records): Records {
    PutTeam(r, COMPLETE, None)
  }

  predicate AllPassed(r: Records) {
    r.roles != [] && forall i :: 0 <= i < |r.roles| ==> r.roles[i].status == RolePASS
  }

  // ---------------------------------------------------------------- one operation after another

  /** What a role did survives being reopened, with its agent and first start; only its end is taken back. */
  lemma FinishThenReopen(r: Records, n: nat, status: RoleStatus, text: string, evidence: seq<string>, now: Time, round: nat)
    requires HasRole(r, n)
    ensures var before, done := RoleAt(r, n), Finished(r, n, status, text, evidence, now);
            var again := Reopened(done, n, round);
            && |done.roles| == |again.roles| == |r.roles| && done.team == r.team && again.task == r.task
            && done.roles[n - 1].status == status && done.roles[n - 1].completedAt == Some(now)
            && again.roles[n - 1] == RoleRow(before.role, ACTIVE, before.assignee, round, before.reason, before.startedAt, None,
                                            Some(text), evidence)
            && (r.team.Some? ==> again.team == Some(Team(TeamACTIVE, Some(n))))
            && (forall i :: 0 <= i < |r.roles| && i != n - 1 ==> again.roles[i] == r.roles[i])
  {
  }

  /** The first start is kept however often a role is made active, and the last activation is where the team is. */
  lemma ActivateTwice(r: Records, m: nat, n: nat, first: Time, second: Time)
    requires HasRole(r, m) && HasRole(r, n)
    ensures var later := Activated(Activated(r, m, first), n, second);
            && |later.roles| == |r.roles| && later.roles[n - 1].status == ACTIVE && later.roles[m - 1].status == ACTIVE
            && later.roles[m - 1].startedAt == Some(if r.roles[m - 1].startedAt.Some? then r.roles[m - 1].startedAt.value else first)
            && (r.team.Some? ==> later.team == Some(Team(TeamACTIVE, Some(n)))) && later.task == r.task
            && (forall i :: 0 <= i < |r.roles| && i != n - 1 && i != m - 1 ==> later.roles[i] == r.roles[i])
  {
  }

  /** Assigning a blocked role frees it for its new agent; round, start and result stay, and so does the team's block. */
  lemma BlockThenAssign(r: Records, n: nat, why: string, now: Time, agent: AgentId, reason: string)
    requires HasRole(r, n)
    ensures var before, blocked := RoleAt(r, n), Blocked(r, n, why, now);
            var later := Assigned(blocked, n, agent, reason);
            && |blocked.roles| == |later.roles| == |r.roles|
            && blocked.roles[n - 1] == before.(status := RoleBLOCKED, reason := Some(why), completedAt := Some(now))
            && (r.team.Some? ==> blocked.team == Some(Team(TeamBLOCKED, r.team.value.current)))
            && later.roles[n - 1] == RoleRow(before.role, ASSIGNED, Some(agent), before.round, Some(reason), before.startedAt, None,
                                            before.result, before.evidence)
            && later.team == blocked.team && later.task == r.task
            && (forall i :: 0 <= i < |r.roles| && i != n - 1 ==> later.roles[i] == r.roles[i])
  {
  }

  /** A team is created once: with one unassigned, unstarted row a role, in order. */
  lemma CreatedOnce(r: Records, roles: seq<Role>, others: seq<Role>)
    requires r.team.None?
    ensures var once := Created(r, roles);
            && Created(once, others) == once && once.team == Some(Team(PLANNED, None)) && once.task == r.task
            && |once.roles| == |roles|
            && forall i :: 0 <= i < |roles| ==>
                 once.roles[i] == RoleRow(roles[i], PENDING, None, 0, None, None, None, None, [])
  {
  }

  // ---------------------------------------------------------------- the store

  class TaskStore {
    var task: TaskRow
    var team: Option<Team>
    var roles: seq<RoleRow>
    var decisions: seq<Recorded>

    ghost function View(): Records
      reads this
    {
      Records(task, team, roles, decisions)
    }

    constructor (queued: TaskRow)
      ensures View() == Records(queued, None, [], [])
    {
      task, team, roles, decisions := queued, None, [], [];
    }

    method Transition(to: TaskStatus, p: Patch, now: Time) returns (ok: bool)
      modifies this`task
      ensures ok == CanTransition(old(task.status), to)
      ensures View() == old(View()).(task := Transitioned(old(task), to, p, now))
    {
      ok := CanTransition(task.status, to);
      if !ok {
        return;
      }
      var startedAt := Or(p.startedAt, task.startedAt);
      if startedAt.None? && to in {CLAIMED, RUNNING} {
        startedAt := Some(now);
      }
      var completedAt := Or(p.completedAt, task.completedAt);
      if completedAt.None? && to in {PASS, COMPLETED, FAIL, CANCELLED} {
        completedAt := Some(now);
      }
      var attempt := if p.attempt.Some? then p.attempt.value else task.attempt;
      var evidence := if p.evidence.Some? then p.evidence.value else task.evidence;
      task := task.(status := to, assignee := Or(p.assignee, task.assignee), attempt := attempt,
                    startedAt := startedAt, completedAt := completedAt, result := Or(p.result, task.result),
                    evidence := evidence, nextOwner := Or(p.nextOwner, task.nextOwner),
                    lockToken := Or(p.lockToken, task.lockToken), updatedAt := now);
    }

    method SetCurrentTeamRole(sequence: Option<nat>, role: Option<Role>, agent: Option<AgentId>, now: Time)
      modifies this`task
      ensures View() == old(View()).(task := CurrentRoleSet(old(task), sequence, role, agent, now))
    {
      task := task.(sequence := sequence, updatedAt := now);
      if role.Some? { task := task.(role := role.value); }
      if agent.Some? { task := task.(assignee := agent); }
    }

    method SetCompletionCandidate(value: bool, now: Time)
      modifies this`task
      ensures View() == old(View()).(task := old(task).(candidate := value, updatedAt := now))
    {
      task := task.(candidate := value, updatedAt := now);
    }

    /** Creating a team twice keeps the first one. */
    method Create(required: seq<Role>)
      modifies this`team, this`roles
      ensures View() == Created(old(View()), required)
    {
      if team.Some? {
        return;
      }
      team := Some(Team(PLANNED, None));
      roles := [];
      for i := 0 to |required|
        invariant team == Some(Team(PLANNED, None)) && roles == FreshRoles(required[..i])
      {
        assert required[..i + 1][..i] == required[..i];
        roles := roles + [Fresh(required[i])];
      }
      assert required[..|required|] == required;
    }

    method Assign(sequence: int, agent: AgentId, reason: string)
      modifies this`roles
      ensures View() == Assigned(old(View()), sequence, agent, reason)
    {
      if 1 <= sequence <= |roles| {
        roles := roles[sequence - 1 := roles[sequence - 1].(
          assignee := Some(agent), status := ASSIGNED, reason := Some(reason), completedAt := None)];
      }
    }

    method Block(sequence: int, reason: string, now: Time)
      modifies this`roles, this`team
      ensures View() == Blocked(old(View()), sequence, reason, now)
    {
      if 1 <= sequence <= |roles| {
        roles := roles[sequence - 1 := roles[sequence - 1].(
          status := RoleBLOCKED, reason := Some(reason), completedAt := Some(now))];
      }
      if team.Some? {
        team := Some(team.value.(status := TeamBLOCKED));
      }
    }

    method Activate(sequence: nat, now: Time)
      modifies this`roles, this`team
      ensures View() == Activated(old(View()), sequence, now)
    {
      if 1 <= sequence <= |roles| {
        var row := roles[sequence - 1].(status := ACTIVE);
        if row.startedAt.None? { row := row.(startedAt := Some(now)); }
        roles := roles[sequence - 1 := row];
      }
      if team.Some? {
        team := Some(Team(TeamACTIVE, Some(sequence)));
      }
    }

    method Finish(sequence: int, status: RoleStatus, result: string, evidence: seq<string>, now: Time)
      modifies this`roles
      ensures View() == Finished(old(View()), sequence, status, result, evidence, now)
    {
      if 1 <= sequence <= |roles| {
        roles := roles[sequence - 1 := roles[sequence - 1].(
          status := status, result := Some(result), evidence := evidence, completedAt := Some(now))];
      }
    }

    method Reopen(sequence: nat, round: nat)
      modifies this`roles, this`team
      ensures View() == Reopened(old(View()), sequence, round)
    {
      if 1 <= sequence <= |roles| {
        roles := roles[sequence - 1 := roles[sequence - 1].(status := ACTIVE, round := round, completedAt := None)];
      }
      if team.Some? {
        team := Some(Team(TeamACTIVE, Some(sequence)));
      }
    }

    method Complete()
      modifies this`team
      ensures View() == TeamCompleted(old(View()))
    {
      if team.Some? {
        team := Some(Team(COMPLETE, None));
      }
    }

    /** Counts the rows and the passed rows, as the query does. */
    method CountAllPassed() returns (all: bool)
      ensures all == AllPassed(View())
    {
      var passed := 0;
      for i := 0 to |roles|
        invariant 0 <= passed <= i
        invariant passed == i <==> forall j :: 0 <= j < i ==> roles[j].status == RolePASS
      {
        if roles[i].status == RolePASS { passed := passed + 1; }
      }
      all := |roles| > 0 && |roles| == passed;
    }

    method RecordDecision(sequence: nat, role: Role, d: Decision)
      modifies this`decisions
      ensures View() == old(View()).(decisions := old(decisions) + [Recorded(sequence, role, d)])
    {
      decisions := decisions + [Recorded(sequence, role, d)];
    }
  }

  // ---------------------------------------------------------------- runs of the state machine

  datatype TransitionRequest = TransitionRequest(to: TaskStatus, patch: Patch, now: Time)

  /** The row after a run of transition requests; an illegal request is refused and changes nothing. */
  function AfterRequests(t: TaskRow, requests: seq<TransitionRequest>): TaskRow {
    if requests == [] then t
    else
      var before, q := AfterRequests(t, requests[..|requests| - 1]), requests[|requests| - 1];
      Transitioned(before, q.to, q.patch, q.now)
  }

  /** Nothing in the run overwrites a timestamp. */
  ghost predicate LeavesTimes(requests: seq<TransitionRequest>) {
    forall i :: 0 <= i < |requests| ==> requests[i].patch.startedAt.None? && requests[i].patch.completedAt.None?
  }

  /** What the timestamps record. */
  ghost predicate Stamped(t: TaskRow) {
    && (t.status in {CLAIMED, RUNNING, WAITING_RESULT, REVIEWING} ==> t.startedAt.Some?)
    && (t.status in {PASS, COMPLETED, FAIL, CANCELLED} ==> t.completedAt.Some?)
  }

  /**
   * In every run the timestamps say whether work started and ended, they are written once, a task
   * that is COMPLETED or CANCELLED is never changed to anything else, and one that is PASS stays PASS
   * or becomes COMPLETED.
   */
  lemma {:induction false} RunKeeps(t: TaskRow, requests: seq<TransitionRequest>)
    requires Stamped(t)
    ensures var u := AfterRequests(t, requests);
            && Stamped(u)
            && Reachable(t.status, u.status)
            && (LeavesTimes(requests) && t.startedAt.Some? ==> u.startedAt == t.startedAt)
            && (LeavesTimes(requests) && t.completedAt.Some? ==> u.completedAt == t.completedAt)
  {
    if requests != [] {
      RunKeeps(t, requests[..|requests| - 1]);
    }
  }

  /** A patch that names a timestamp overwrites the recorded one: write-once holds only without it. */
  lemma PatchOverwrites(t: TaskRow, at: Time, now: Time)
    ensures Transitioned(t, t.status, NO_PATCH.(startedAt := Some(at)), now).startedAt == Some(at)
  {
  }

  /** A task reaches PASS without ever having started only through WAITING_MAIN. */
  lemma {:induction false} PassWithoutStart(t: TaskRow, requests: seq<TransitionRequest>)
    requires t.status == QUEUED
    requires var u := AfterRequests(t, requests); u.status in {PASS, COMPLETED} && u.startedAt.None?
    ensures exists k :: 0 <= k < |requests| && AfterRequests(t, requests[..k]).status == WAITING_MAIN
  {
    var n := |requests|;
    var before := AfterRequests(t, requests[..n - 1]);
    if before.status == WAITING_MAIN {
      assert AfterRequests(t, requests[..n - 1]).status == WAITING_MAIN;
    } else {
      NotStarted(t, requests[..n - 1]);
      PassWithoutStart(t, requests[..n - 1]);
      var k :| 0 <= k < n - 1 && AfterRequests(t, requests[..n - 1][..k]).status == WAITING_MAIN;
      assert requests[..n - 1][..k] == requests[..k];
    }
  }

  lemma {:induction false} NotStarted(t: TaskRow, requests: seq<TransitionRequest>)
    requires t.status == QUEUED && AfterRequests(t, requests).startedAt.None?
    ensures AfterRequests(t, requests).status !in {CLAIMED, RUNNING, WAITING_RESULT, REVIEWING}
  {
    if requests != [] {
      NotStarted(t, requests[..|requests| - 1]);
    }
  }
}
