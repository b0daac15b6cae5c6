/** Recovering one watched task: the watchdog's passes, cut at their awaits, beside the workers and everybody else. */
module Watchdog {
  import opened Domain
  import opened Routing
  import opened TaskLifecycle
  import opened Worker
  import Completion

  datatype Classification =
    | RECEIVED_BUT_NOT_STARTED | STALE_INBOUND | CLAIMED_BUT_NOT_STARTED | ACTIVE_NO_PROGRESS | RUNNING_NO_PROGRESS
    | WAITING_RESULT_NO_PROGRESS | WORKER_FAILED_WITH_RESULT | PROCESS_LOST | DURABLE_STATE_ORPHAN
    | WORKER_UNAVAILABLE | ROUTING_BLOCKED

  /** The classifications after which the same worker may be asked again. */
  const SAME_WORKER_RETRYABLE: set<Classification> :=
    {RECEIVED_BUT_NOT_STARTED, STALE_INBOUND, CLAIMED_BUT_NOT_STARTED, ACTIVE_NO_PROGRESS}

  datatype Policy = Policy(maxRecoveries: nat, progressDeadline: int, resultDeadline: int)

  /** Role sequence and revision round: what a recovery row is kept for. */
  type Key = (nat, nat)

  datatype Recovery = Recovery(retries: int, wake: bool, capacityAt: Option<Time>, cancelAt: Option<Time>)

  datatype Snapshot = Snapshot(sequence: nat, row: RoleRow, attempt: nat, version: Time, classification: Classification)

  /** Where a pass is suspended: refreshing health before routing, or publishing what it sent. */
  datatype Await = Routing | Sent(replay: bool)

  datatype Pass = Pass(snapshot: Snapshot, at: Await)

  type PassId = nat

  /** The history of recovery decisions. It records, and decides nothing. */
  datatype Entry =
    | Acquired(key: Key)
    | Refunded(key: Key)
    | Dispatched(key: Key, from: nat)
    | Stopped(key: Key)
    | Picked(sequence: nat, agent: AgentId, again: bool)

  datatype System = System(
    shop: Shop, recovery: map<Key, Recovery>, passes: map<PassId, Pass>, watching: bool, log: seq<Entry>)

  /** What a pass finds out about processes, messages and deadlines, and what its signals achieve. */
  datatype Sight = Sight(
    budget: bool, hold: bool, classification: Classification, actionable: bool, progress: bool,
    orphan: bool, missing: bool, live: bool, terminated: bool, gate: Completion.Gate)

  /** What routing reads. `failed` are the agents whose latest attempt on the task failed. */
  datatype Registry = Registry(
    task: TaskId, project: ProjectId, agents: seq<AgentRecord>, connected: set<AgentId>, lockFree: bool, failed: set<AgentId>)

  function RowsOf(s: System): Records {
    Rows(s.shop)
  }

  function PutRows(s: System, r: Records): System {
    s.(shop := WithRows(s.shop, r))
  }

  function KeyOf(snap: Snapshot): Key {
    (snap.sequence, snap.row.round)
  }

  function Logged(s: System, e: Entry): System {
    s.(log := s.log + [e])
  }

  // ---------------------------------------------------------------- the recovery row

  function PutRow(s: System, key: Key, row: Recovery): System {
    s.(recovery := s.recovery[key := row])
  }

  /** Inserts the row at its first observation. */
  function Observed(s: System, key: Key): System {
    if key in s.recovery then s else PutRow(s, key, Recovery(0, false, None, None))
  }

  /** Records an action: nobody is awake any more, and the waits are over if `clear`. */
  function Marked(s: System, key: Key, clear: bool): System {
    if key !in s.recovery then s
    else
      var row := s.recovery[key];
      PutRow(s, key, if clear then row.(wake := false, capacityAt := None, cancelAt := None) else row.(wake := false))
  }

  function GivenBack(row: Recovery): Recovery {
    row.(retries := if row.retries > 0 then row.retries - 1 else 0, wake := false)
  }

  function Acquire(s: System, key: Key): System
    requires key in s.recovery
  {
    Logged(PutRow(s, key, s.recovery[key].(retries := s.recovery[key].retries + 1, wake := true)), Acquired(key))
  }

  // ---------------------------------------------------------------- reading the rows

  /** The least sequence number from `k` on whose role is still open; 0 if none. */
  function FirstOpen(roles: seq<RoleRow>, k: nat): (n: nat)
    requires 1 <= k <= |roles| + 1
    ensures n == 0 || (k <= n <= |roles| && roles[n - 1].status !in {RolePASS, SKIPPED})
    ensures forall i :: k - 1 <= i < (if n == 0 then |roles| else n - 1) ==> roles[i].status in {RolePASS, SKIPPED}
    decreases |roles| - k
  {
    if k > |roles| then 0 else if roles[k - 1].status !in {RolePASS, SKIPPED} then k else FirstOpen(roles, k + 1)
  }

  function FirstOf(roles: seq<RoleRow>, role: Role, k: nat): (n: nat)
    requires 1 <= k <= |roles| + 1
    ensures n == 0 || (k <= n <= |roles| && roles[n - 1].role == role)
    ensures forall i :: k - 1 <= i < (if n == 0 then |roles| else n - 1) ==> roles[i].role != role
    decreases |roles| - k
  {
    if k > |roles| then 0 else if roles[k - 1].role == role then k else FirstOf(roles, role, k + 1)
  }

  /** The role a pass is about; 0 if there is none. */
  function RoleInQuestion(r: Records, gate: Completion.Gate): (n: nat)
    ensures n <= |r.roles|
    ensures n == 0 ==> forall i :: 0 <= i < |r.roles| ==> r.roles[i].status in {RolePASS, SKIPPED}
    ensures n > 0 && r.roles[n - 1].status == RolePASS ==>
              AllPassed(r) && r.roles[n - 1].role == QA && !Completion.CanComplete(gate, r.roles)
  {
    var team := CurrentSequence(r);
    var current := if team.Some? && HasRole(r, team.value) then team.value
                   else if r.task.sequence.Some? && HasRole(r, r.task.sequence.value) then r.task.sequence.value else 0;
    if current > 0 && RoleAt(r, current).status != RolePASS then current
    else
      var open := FirstOpen(r.roles, 1);
      if open > 0 then open
      else
        var qa := FirstOf(r.roles, QA, 1);
        if AllPassed(r) && !Completion.CanComplete(gate, r.roles) && qa > 0 && RoleAt(r, qa).assignee.Some?
           && RoleAt(r, qa).assignee.value in Completion.Contributors(r.roles)
        then qa else 0
  }

  /** Nothing the snapshot rests on has changed. */
  predicate IsCurrent(r: Records, snap: Snapshot) {
    && HasRole(r, snap.sequence) && r.task.status !in OVER
    && (if CurrentSequence(r).Some? then CurrentSequence(r) else r.task.sequence) == Some(snap.sequence)
    && RoleAt(r, snap.sequence).round == snap.row.round && RoleAt(r, snap.sequence).assignee == snap.row.assignee
    && r.task.attempt == snap.attempt && r.task.updatedAt == snap.version
  }

  // ---------------------------------------------------------------- stopping and re-dispatching

  function StoppedRows(r: Records, sequence: nat, now: Time): Records {
    var to := if r.task.status in {RUNNING, WAITING_RESULT, REVIEWING} then FAIL else CANCELLED;
    var t := if r.task.status in OVER then r.task
             else Transitioned(r.task, to, NO_PATCH.(result := Some("SAFE_STOP")), now);
    var r1 := Finished(r.(task := t), sequence, RoleBLOCKED, "SAFE_STOP", [], now);
    PutTeam(r1, TeamBLOCKED, CurrentSequence(r1))
  }

  /** Gives the task up. A COMPLETED task cannot be cancelled: the transition throws and the rest is skipped. */
  function SafeStopped(s: System, snap: Snapshot, now: Time): System {
    var logged := Logged(s, Stopped(KeyOf(snap)));
    if RowsOf(s).task.status == COMPLETED then logged
    else Marked(PutRows(logged, StoppedRows(RowsOf(s), snap.sequence, now)), KeyOf(snap), true).(watching := false)
  }

  /** Takes the task back from whatever state it was left in. */
  function TakenBack(t: TaskRow, now: Time): TaskRow {
    if t.status in {DISPATCHED, BLOCKED} then Transitioned(t, QUEUED, NO_PATCH, now)
    else if t.status in {CLAIMED, RUNNING, WAITING_RESULT, REVIEWING}
    then Transitioned(t, WAITING_MAIN, NO_PATCH.(result := Some("RECOVERY_FENCE")), now)
    else t
  }

  /** Sends it out again as a new attempt. */
  function SentAgain(t: TaskRow, agent: AgentId, now: Time): TaskRow {
    if t.status in {QUEUED, WAITING_MAIN}
    then Transitioned(t, DISPATCHED, NO_PATCH.(assignee := Some(agent), attempt := Some(t.attempt + 1)), now)
    else t
  }

  function Reassigned(r: Records, snap: Snapshot, agent: AgentId, now: Time): Records {
    var r1 := PutTeam(Assigned(r, snap.sequence, agent, "CONTINUATION_FALLBACK"), TeamACTIVE, Some(snap.sequence));
    var t := CurrentRoleSet(r1.task, Some(snap.sequence), Some(snap.row.role), Some(agent), now);
    r1.(task := SentAgain(TakenBack(t, now), agent, now))
  }

  function Redispatched(s: System, id: PassId, snap: Snapshot, agent: AgentId, now: Time): System {
    var from, r := RowsOf(s).task.attempt, Reassigned(RowsOf(s), snap, agent, now);
    var s1 := PutRows(s, r);
    if r.task.status != DISPATCHED then SafeStopped(s1.(passes := s1.passes - {id}), snap, now)
    else
      Logged(s1, Dispatched(KeyOf(snap), from))
        .(passes := s1.passes[id := Pass(snap, Sent(false))],
          shop := Mailed(s1.shop, Envelope(TASK, agent, Some(snap.row.role), snap.row.round)))
  }

  // ---------------------------------------------------------------- a pass, up to its first await

  /** A persisted failing review whose revision request was lost is sent again. */
  function Replayed(s: System, id: PassId, snap: Snapshot, sight: Sight, now: Time): System {
    var r := RowsOf(s);
    var previous := if snap.sequence <= |r.roles| then LastImplementer(r.roles, snap.sequence) else 0;
    if !sight.missing then Marked(s, KeyOf(snap), true)
    else if previous == 0 || snap.row.assignee.None? then SafeStopped(s, snap, now)
    else
      var row, round := RoleAt(r, previous), snap.row.round + 1;
      var s1 := PutRows(s, Reopened(r, previous, round)).(passes := s.passes[id := Pass(snap, Sent(true))]);
      s1.(shop := Mailed(s1.shop, Envelope(REVISION_REQUEST, row.assignee.value, Some(row.role), round)))
  }

  /** A live process is asked to end and the retry given back, within the cancel window. */
  function CancelAsked(s: System, p: Policy, snap: Snapshot, terminated: bool, now: Time): System
    requires KeyOf(snap) in s.recovery
  {
    var row := s.recovery[KeyOf(snap)];
    if row.cancelAt.Some? && now - row.cancelAt.value >= 2 * p.resultDeadline then SafeStopped(s, snap, now)
    else if !terminated then SafeStopped(s, snap, now)
    else Logged(PutRow(s, KeyOf(snap), GivenBack(row).(cancelAt := Or(row.cancelAt, Some(now)))), Refunded(KeyOf(snap)))
  }

  /** What a pass does with the retry it has acquired. */
  function Pursued(s: System, id: PassId, p: Policy, snap: Snapshot, sight: Sight, now: Time): System
    requires KeyOf(snap) in s.recovery
  {
    if !IsCurrent(RowsOf(s), snap) then Marked(s, KeyOf(snap), false)
    else if sight.orphan && snap.row.role in {REVIEWER, ARCHITECT} then Replayed(s, id, snap, sight, now)
    else if sight.live then CancelAsked(s, p, snap, sight.terminated, now)
    else s.(passes := s.passes[id := Pass(snap, Routing)])
  }

  function Recovered(s: System, id: PassId, p: Policy, snap: Snapshot, sight: Sight, now: Time): System
    requires KeyOf(snap) in s.recovery
  {
    var key := KeyOf(snap);
    if s.recovery[key].retries >= p.maxRecoveries then SafeStopped(s, snap, now)
    else if s.recovery[key].wake then s
    else Pursued(Acquire(s, key), id, p, snap, sight, now)
  }

  function SnapshotOf(r: Records, sequence: nat, c: Classification): Snapshot
    requires HasRole(r, sequence)
  {
    Snapshot(sequence, RoleAt(r, sequence), r.task.attempt, r.task.updatedAt, c)
  }

  /** What a pass makes of the role it is about: a row in its books, a note of progress, or a recovery. */
  function Attended(s: System, id: PassId, p: Policy, snap: Snapshot, sight: Sight, now: Time): System {
    var s1, held := Observed(s, KeyOf(snap)), sight.hold || RowsOf(s).task.status == HUMAN_GATE;
    if held || !sight.actionable then (if sight.progress && !held then Marked(s1, KeyOf(snap), true) else s1)
    else Recovered(s1, id, p, snap, sight, now)
  }

  function PassStarted(s: System, id: PassId, p: Policy, sight: Sight, now: Time): System {
    var r := RowsOf(s);
    var sequence := RoleInQuestion(r, sight.gate);
    if id in s.passes || !s.watching || !sight.budget then s
    else if sequence == 0 || r.task.status in OVER then s.(watching := false)
    else
      Attended(s, id, p, SnapshotOf(r, sequence, sight.classification), sight, now)
  }

  // ---------------------------------------------------------------- routing a replacement

  /** Who holds what, as far as it matters to this role: passed earlier roles and later review reservations. */
  function PriorTo(roles: seq<RoleRow>, sequence: nat): Assignments {
    if roles == [] then map[]
    else
      var rest, k := PriorTo(roles[..|roles| - 1], sequence), |roles|;
      var x := roles[k - 1];
      if x.assignee.Some? &&
         ((k < sequence && x.status == RolePASS) || (k > sequence && x.role in {REVIEWER, QA}))
      then rest[x.role := x.assignee.value] else rest
  }

  /** Every agent ever selected for the role: the decision log only grows. */
  function History(decisions: seq<Recorded>, sequence: nat): set<AgentId> {
    set i | 0 <= i < |decisions| && decisions[i].sequence == sequence && decisions[i].decision.selected.Some?
      :: decisions[i].decision.selected.value
  }

  function Excluded(r: Records, snap: Snapshot): set<AgentId> {
    (if snap.row.assignee.Some? then {snap.row.assignee.value} else {})
    + History(r.decisions, snap.sequence)
    + (if snap.row.role == QA then PriorTo(r.roles, snap.sequence).Values else {})
  }

  datatype Choice = Choice(selected: Option<AgentId>, code: ReasonCode, busy: bool, again: bool)

  function Ask(r: Records, snap: Snapshot, g: Registry, excluded: set<AgentId>): Request {
    Request(snap.row.role, g.task, g.project, PriorTo(r.roles, snap.sequence), None, excluded,
                    g.agents, g.connected, g.lockFree)
  }

  /**
   * At most three routings: without agents of failed standing; with them; and, when the worker never
   * really started and nobody is merely busy, with the same worker.
   */
  function Chosen(r: Records, snap: Snapshot, g: Registry): Choice {
    var excluded := Excluded(r, snap);
    var strict := Ask(r, snap, g, excluded + g.failed);
    var q := if Choose(strict).0.None? && g.failed != {} then Ask(r, snap, g, excluded) else strict;
    var d, busy := Choose(q), TemporarilyBusy(g.agents, q);
    if d.0.None? && !busy && snap.row.assignee.Some? && snap.classification in SAME_WORKER_RETRYABLE then
      var d3 := Choose(Ask(r, snap, g, if snap.row.role == QA then PriorTo(r.roles, snap.sequence).Values else {}));
      Choice(d3.0, d3.1, false, true)
    else Choice(d.0, d.1, busy, false)
  }

  /** The decision is recorded whether or not it is used. The rejections' texts are not kept here. */
  function DecisionRecorded(s: System, snap: Snapshot, c: Choice): System {
    var r := RowsOf(s);
    var s1 := PutRows(s, r.(decisions := r.decisions + [Recorded(snap.sequence, snap.row.role, Decision(c.selected, c.code, []))]));
    if c.selected.Some? then Logged(s1, Picked(snap.sequence, c.selected.value, c.again)) else s1
  }

  /** With everybody suitable busy the retry is given back, within the capacity window. */
  function Unrouted(s: System, p: Policy, snap: Snapshot, busy: bool, now: Time): System
    requires KeyOf(snap) in s.recovery
  {
    var row := s.recovery[KeyOf(snap)];
    if busy && (row.capacityAt.None? || now - row.capacityAt.value < p.progressDeadline)
    then Logged(PutRow(s, KeyOf(snap), GivenBack(row).(capacityAt := Or(row.capacityAt, Some(now)))), Refunded(KeyOf(snap)))
    else SafeStopped(s, snap, now)
  }

  /** What becomes of a pass and its recorded decision. */
  function CarriedOut(s: System, id: PassId, p: Policy, snap: Snapshot, c: Choice, now: Time): System
    requires KeyOf(snap) in s.recovery
  {
    if c.selected.None? then Unrouted(s.(passes := s.passes - {id}), p, snap, c.busy, now)
    else if !IsCurrent(RowsOf(s), snap) then Marked(s.(passes := s.passes - {id}), KeyOf(snap), false)
    else Redispatched(s, id, snap, c.selected.value, now)
  }

  function PassRouted(s: System, id: PassId, p: Policy, g: Registry, now: Time): System {
    if id !in s.passes || !s.passes[id].at.Routing? || KeyOf(s.passes[id].snapshot) !in s.recovery then s
    else
      var snap := s.passes[id].snapshot;
      var c := Chosen(RowsOf(s), snap, g);
      CarriedOut(DecisionRecorded(s, snap, c), id, p, snap, c, now)
  }

  function PassEnded(s: System, id: PassId, delivered: bool): System {
    if id !in s.passes || !s.passes[id].at.Sent? then s
    else
      var pass := s.passes[id];
      Marked(s.(passes := s.passes - {id}), KeyOf(pass.snapshot), delivered || !pass.at.replay)
  }

  // ---------------------------------------------------------------- the scheduler

  /** Sends a queued task to a role's agent, newly routed if `agent` is given; the wire round is the row's round. */
  function Scheduled(s: System, sequence: nat, agent: Option<AgentId>, now: Time): System {
    var r := RowsOf(s);
    if !HasRole(r, sequence) || r.task.status != QUEUED || (agent.None? && RoleAt(r, sequence).assignee.None?) then s
    else
      var decision := Recorded(sequence, RoleAt(r, sequence).role, Decision(agent, ROLE_ASSIGNED, []));
      var r1 := if agent.Some?
                then Assigned(r.(decisions := r.decisions + [decision]), sequence, agent.value, "RUNTIME_DISPATCH_REDRIVE")
                else r;
      var row := RoleAt(r1, sequence);
      var t := Transitioned(r1.task, DISPATCHED, NO_PATCH.(assignee := row.assignee), now);
      var r2 := r1.(task := CurrentRoleSet(t, Some(sequence), Some(row.role), row.assignee, now));
      s.(shop := Mailed(WithRows(s.shop, r2), Envelope(TASK, row.assignee.value, Some(row.role), row.round)))
  }

  // ---------------------------------------------------------------- all steps

  /** The code between two awaits is one step. */
  datatype Action =
    | Deliver(envelope: Envelope, now: Time)
    | AckSent(agent: AgentId, bound: bool, now: Time)
    | ResultReady(agent: AgentId, ok: bool, text: string, evidence: seq<string>, now: Time)
    | TellVerdict(agent: AgentId)
    | Follow(agent: AgentId, circumstance: Circumstance)
    | WorkerEnds(agent: AgentId)
    | StartPass(id: PassId, sight: Sight, now: Time)
    | RoutePass(id: PassId, registry: Registry, now: Time)
    | EndPass(id: PassId, delivered: bool)
    | AbortPass(id: PassId)
    | Schedule(sequence: nat, routed: Option<AgentId>, now: Time)
    | Move(to: TaskStatus, patch: Patch, now: Time)
    | Touch(now: Time)
    | MakeTeam(roles: seq<Role>)
    | Assign(sequence: nat, agent: AgentId)

  /**
   * Other components may move the task along legal edges, as long as they neither leave a final status nor
   * lower the attempt, touch it, create its team (a role at most once: the table's key), or assign a role.
   */
  function ByOthers(r: Records, a: Action): Records {
    match a
    case Move(to, patch, now) =>
      if r.task.status in OVER || (patch.attempt.Some? && patch.attempt.value < r.task.attempt) then r
      else r.(task := Transitioned(r.task, to, patch, now))
    case Touch(now) => r.(task := r.task.(updatedAt := now))
    case MakeTeam(roles) => if Completion.OncePerRole(FreshRoles(roles)) then Created(r, roles) else r
    case Assign(sequence, agent) => Assigned(r, sequence, agent, "ASSIGNED")
    case _ => r
  }

  function Stepped(s: System, p: Policy, a: Action): System {
    match a
    case Deliver(e, now) => s.(shop := Claim(s.shop, e, now))
    case AckSent(agent, bound, now) => s.(shop := Acknowledged(s.shop, agent, bound, now))
    case ResultReady(agent, ok, text, evidence, now) => s.(shop := Applied(s.shop, agent, ok, text, evidence, now))
    case TellVerdict(agent) => s.(shop := Told(s.shop, agent))
    case Follow(agent, c) => s.(shop := Followed(s.shop, agent, c))
    case WorkerEnds(agent) => s.(shop := Closed(s.shop, agent))
    case StartPass(id, sight, now) => PassStarted(s, id, p, sight, now)
    case RoutePass(id, g, now) => PassRouted(s, id, p, g, now)
    case EndPass(id, delivered) => PassEnded(s, id, delivered)
    case AbortPass(id) => s.(passes := s.passes - {id})
    case Schedule(sequence, routed, now) => Scheduled(s, sequence, routed, now)
    case _ => PutRows(s, ByOthers(RowsOf(s), a))
  }

  /** A task whose team was just planned: nothing executes, nothing was sent, nobody recovers. */
  function Opened(r: Records): System {
    System(Shop(Completion.Ledger(r, []), map[], [], []), map[], map[], true, [])
  }

  function Run(s: System, p: Policy, actions: seq<Action>): System {
    if actions == [] then s
    else Stepped(Run(s, p, actions[..|actions| - 1]), p, actions[|actions| - 1])
  }
}
