/** One task's workers: claiming a role, executing, and applying an outcome only while it is current. */
module Worker {
  import opened Domain
  import opened TaskLifecycle
  import Completion

  datatype Kind = TASK | HANDOFF | REVISION_REQUEST | EXPERT_INVITE

  datatype Envelope = Envelope(kind: Kind, recipient: AgentId, role: Option<Role>, round: nat)

  datatype Rejection = NOT_ASSIGNED_TO_SELF | ROLE_MISMATCH | ROUND_MISMATCH

  /** The claim check of the worker contract. */
  function ClaimRole(e: Envelope, self: AgentId, task: TaskRow, role: Option<RoleRow>): Option<Rejection> {
    if task.assignee.Some? && task.assignee != Some(self) && !(role.Some? && role.value.assignee.Some?) then Some(NOT_ASSIGNED_TO_SELF)
    else if role.Some? && role.value.assignee.Some? && role.value.assignee != Some(self) then Some(NOT_ASSIGNED_TO_SELF)
    else if role.Some? && e.role.Some? && e.role.value != role.value.role then Some(ROLE_MISMATCH)
    else if e.round != (if role.Some? then role.value.round else task.attempt) then Some(ROUND_MISMATCH)
    else None
  }

  /** The least sequence number from `k` on of a row held by `agent`, and of role `wanted` if one is named; 0 if none. */
  function Held(roles: seq<RoleRow>, agent: AgentId, wanted: Option<Role>, k: nat): (n: nat)
    requires 1 <= k <= |roles| + 1
    ensures n == 0 || (k <= n <= |roles| && roles[n - 1].assignee == Some(agent) && (wanted.Some? ==> roles[n - 1].role == wanted.value))
    ensures n == 0 ==> forall i :: k - 1 <= i < |roles| ==>
              !(roles[i].assignee == Some(agent) && (wanted.Some? ==> roles[i].role == wanted.value))
    decreases |roles| - k
  {
    if k > |roles| then 0
    else if roles[k - 1].assignee == Some(agent) && (wanted.None? || roles[k - 1].role == wanted.value) then k
    else Held(roles, agent, wanted, k + 1)
  }

  /** The row a worker looks at for an envelope: its own row of the named role, or any row of its own. */
  function ClaimedSequence(roles: seq<RoleRow>, agent: AgentId, wanted: Option<Role>): (n: nat)
    ensures n <= |roles|
  {
    var named := if wanted.Some? then Held(roles, agent, wanted, 1) else 0;
    if named > 0 then named else Held(roles, agent, None, 1)
  }

  function RowAt(r: Records, sequence: nat): Option<RoleRow> {
    if HasRole(r, sequence) then Some(RoleAt(r, sequence)) else None
  }

  /** Would the worker accept this envelope in this state? */
  predicate Claimable(r: Records, e: Envelope) {
    ClaimRole(e, e.recipient, r.task, RowAt(r, ClaimedSequence(r.roles, e.recipient, e.role))).None?
  }

  /**
   * How far a live execution has come. `seen` are the role rows read when its outcome was applied,
   * `told` says whether the verdict due after a passing QA outcome is out.
   */
  datatype Stage =
    | Claimed
    | Executing(version: Time)
    | Finishing(ok: bool, seen: seq<RoleRow>, own: nat, told: bool)
    | Sending

  /** A live execution. `sequence` is 0 when no role row was claimed. */
  datatype Exec = Exec(envelopeRound: nat, role: Role, sequence: nat, round: nat, attempt: nat, stage: Stage)

  datatype Outcome = Outcome(agent: AgentId, exec: Exec, ok: bool, finished: nat)

  /** One task as its workers see it: rows and protocol events, live executions, mail sent, results persisted. */
  datatype Shop = Shop(ledger: Completion.Ledger, execs: map<AgentId, Exec>, mail: seq<Envelope>, results: seq<Outcome>)

  function Rows(s: Shop): Records {
    s.ledger.rows
  }

  function WithRows(s: Shop, r: Records): Shop {
    s.(ledger := s.ledger.(rows := r))
  }

  function WithExec(s: Shop, agent: AgentId, e: Exec): Shop {
    s.(execs := s.execs[agent := e])
  }

  function Closed(s: Shop, agent: AgentId): Shop {
    s.(execs := s.execs - {agent})
  }

  // ---------------------------------------------------------------- claiming

  /** The task row after a claim: a dispatched or running task starts a new attempt. */
  function Started(t: TaskRow, agent: AgentId, now: Time): TaskRow {
    var next := NO_PATCH.(attempt := Some(t.attempt + 1), assignee := Some(agent));
    var t1 := if t.status == DISPATCHED then Transitioned(t, CLAIMED, next, now)
              else if t.status == RUNNING then Transitioned(t, RUNNING, next, now) else t;
    if t1.status == CLAIMED then Transitioned(t1, RUNNING, NO_PATCH, now) else t1
  }

  function Entered(r: Records, agent: AgentId, sequence: nat, now: Time): Records {
    var r1 := if HasRole(r, sequence)
              then var a := Activated(r, sequence, now);
                   a.(task := CurrentRoleSet(a.task, Some(sequence), Some(RoleAt(r, sequence).role), Some(agent), now))
              else r;
    r1.(task := Started(r1.task, agent, now))
  }

  /** Everything from the arrival of an envelope to the ACK. A second envelope for a busy worker is dropped. */
  function Claim(s: Shop, e: Envelope, now: Time): Shop {
    var agent, r := e.recipient, Rows(s);
    var sequence := ClaimedSequence(r.roles, agent, e.role);
    var row := RowAt(r, sequence);
    if agent in s.execs || !Claimable(r, e) || (row.Some? && row.value.status in {RolePASS, SKIPPED}) then s
    else
      var after := Entered(r, agent, sequence, now);
      var exec := Exec(e.round,
                       if e.role.Some? then e.role.value else if row.Some? then row.value.role else after.task.role,
                       if row.Some? then sequence else if after.task.sequence.Some? then after.task.sequence.value else 0,
                       if row.Some? then row.value.round else e.round,
                       after.task.attempt, Claimed);
      WithExec(WithRows(s, after), agent, exec)
  }

  /** The ACK is out: capture the row's version, or stop over a changed execution binding. */
  function Acknowledged(s: Shop, agent: AgentId, bound: bool, now: Time): Shop {
    if agent !in s.execs || !s.execs[agent].stage.Claimed? then s
    else if bound then WithExec(s, agent, s.execs[agent].(stage := Executing(Rows(s).task.updatedAt)))
    else
      var t := Transitioned(Rows(s).task, WAITING_MAIN, NO_PATCH.(result := Some("EXECUTION_BINDING")), now);
      Closed(WithRows(s, Rows(s).(task := t)), agent)
  }

  // ---------------------------------------------------------------- applying an outcome

  const OVER: set<TaskStatus> := {PASS, FAIL, CANCELLED}

  /** The currency check: attempt, assignee, version, role row and round are still those of the claim. */
  predicate Current(r: Records, agent: AgentId, e: Exec) {
    && e.stage.Executing?
    && r.task.status !in OVER && r.task.attempt == e.attempt && r.task.assignee == Some(agent)
    && r.task.updatedAt == e.stage.version
    && (e.sequence == 0 ||
        (HasRole(r, e.sequence) && RoleAt(r, e.sequence).round == e.round && RoleAt(r, e.sequence).assignee == Some(agent)))
  }

  /** The row an outcome finishes: the worker's own row of the role it executed. */
  function OwnRow(r: Records, agent: AgentId, e: Exec): (n: nat)
    ensures n <= |r.roles|
  {
    Held(r.roles, agent, Some(e.role), 1)
  }

  /** The check, the finish of the role and the RESULT event are one step: nothing is awaited between them. */
  function Applied(s: Shop, agent: AgentId, ok: bool, text: string, evidence: seq<string>, now: Time): Shop {
    if agent !in s.execs || !s.execs[agent].stage.Executing? then s
    else if !Current(Rows(s), agent, s.execs[agent]) then Closed(s, agent)
    else
      var e, r := s.execs[agent], Rows(s);
      var own := OwnRow(r, agent, e);
      var finished := own > 0 && RoleAt(r, own).status != RolePASS;
      var after := if finished then Finished(r, own, if ok then RolePASS else RoleFAIL, text, evidence, now) else r;
      WithExec(WithRows(s, after), agent, e.(stage := Finishing(ok, r.roles, own, !(e.role == QA && ok))))
        .(results := s.results + [Outcome(agent, e, ok, if finished then own else 0)])
  }

  // ---------------------------------------------------------------- handing on

  /** The first assigned role after `own`; 0 if none. */
  function NextAssigned(roles: seq<RoleRow>, own: nat, k: nat): (n: nat)
    requires own < k <= |roles| + 1
    ensures n == 0 || (k <= n <= |roles| && roles[n - 1].assignee.Some?)
    ensures forall i :: k - 1 <= i < (if n == 0 then |roles| else n - 1) ==> roles[i].assignee.None?
    decreases |roles| - k
  {
    if k > |roles| then 0 else if roles[k - 1].assignee.Some? then k else NextAssigned(roles, own, k + 1)
  }

  /** The last assigned implementation role before `own`; 0 if none. */
  function LastImplementer(roles: seq<RoleRow>, own: nat): (n: nat)
    requires own <= |roles| + 1
    ensures n == 0 || (n < own && roles[n - 1].assignee.Some? && roles[n - 1].role in IMPLEMENTERS)
    ensures forall i :: n <= i < own - 1 ==> !(roles[i].assignee.Some? && roles[i].role in IMPLEMENTERS)
  {
    if own <= 1 then 0
    else if roles[own - 2].assignee.Some? && roles[own - 2].role in IMPLEMENTERS then own - 1
    else LastImplementer(roles, own - 1)
  }

  datatype Handoff = TO_REVIEWER | REVISION | TO_COMPLETE | TERMINAL

  /** The kind of hand-off and its round. Only a REVIEWER's verdict is passed on, so an ARCHITECT always asks for revision. */
  function DecideHandoff(role: Role, ok: bool, round: nat): (Handoff, nat) {
    if role in IMPLEMENTERS then (TO_REVIEWER, round)
    else if role == REVIEWER && ok then (TO_COMPLETE, round)
    else if role in {REVIEWER, ARCHITECT} then (REVISION, round + 1)
    else (TERMINAL, round)
  }

  /** What the rest of an outcome reads from outside: the budget, the completion gate, earlier QA dispatches. */
  datatype Circumstance = Circumstance(budget: bool, gate: Completion.Gate, qaDispatched: bool, now: Time)

  function Projected(s: Shop, c: Circumstance): Shop {
    if Rows(s).team.Some? then s.(ledger := Completion.Outcome(s.ledger, c.gate, true, c.now)) else s
  }

  /** A failing result that lost its race against the budget closes the task. */
  function ClosedOut(s: Shop, ok: bool, now: Time): Shop {
    var t := Rows(s).task;
    if ok || t.status in OVER then s
    else
      var to := if t.status in {RUNNING, WAITING_RESULT, REVIEWING} then FAIL else CANCELLED;
      WithRows(s, Rows(s).(task := Transitioned(t, to, NO_PATCH.(result := Some("RUN_BUDGET_EXHAUSTED")), now)))
  }

  function Mailed(s: Shop, e: Envelope): Shop {
    s.(mail := s.mail + [e])
  }

  /** A review that passed sends the task to QA, if QA is next, has not been asked yet and is independent. */
  function SentToQa(s: Shop, next: nat, c: Circumstance): Shop
    requires HasRole(Rows(s), next) && RoleAt(Rows(s), next).assignee.Some?
  {
    var r := Rows(s);
    var qa := RoleAt(r, next);
    var active := exists i :: 0 <= i < |r.roles| && r.roles[i].role == QA && r.roles[i].status in {ACTIVE, RolePASS};
    if c.qaDispatched || active || qa.assignee.value in Completion.Contributors(r.roles) then s
    else
      var r1 := r.(task := CurrentRoleSet(r.task, Some(next), Some(qa.role), qa.assignee, c.now));
      Mailed(WithRows(s, Activated(r1, next, c.now)), Envelope(TASK, qa.assignee.value, Some(qa.role), qa.round))
  }

  /** The hand-off to `target` as it was read when the outcome was applied. */
  function HandedOn(s: Shop, seen: seq<RoleRow>, target: nat, kind: Handoff, round: nat): Shop
    requires target == 0 || (target <= |seen| && seen[target - 1].assignee.Some?)
  {
    if target == 0 then s
    else
      var row := seen[target - 1];
      Mailed(WithRows(s, Reopened(Rows(s), target, round)),
             Envelope(if kind == REVISION then REVISION_REQUEST else HANDOFF, row.assignee.value, Some(row.role), round))
  }

  /** The next assigned role: as it is now for a review that passed, as it was seen otherwise. */
  function NextOf(s: Shop, e: Exec): nat
    requires e.stage.Finishing? && e.stage.own <= |e.stage.seen|
  {
    var own := e.stage.own;
    if own == 0 then 0
    else if e.role == REVIEWER && e.stage.ok && HasRole(Rows(s), own) then NextAssigned(Rows(s).roles, own, own + 1)
    else NextAssigned(e.stage.seen, own, own + 1)
  }

  /** The role an outcome is handed to: back to the last implementer for a revision, else to the next. */
  function TargetOf(s: Shop, e: Exec): (n: nat)
    requires e.stage.Finishing? && e.stage.own <= |e.stage.seen| && !(e.role == REVIEWER && e.stage.ok)
    ensures n == 0 || (n <= |e.stage.seen| && e.stage.seen[n - 1].assignee.Some?)
  {
    if DecideHandoff(e.role, e.stage.ok, e.envelopeRound).0 == REVISION
    then LastImplementer(e.stage.seen, e.stage.own) else NextOf(s, e)
  }

  function ReviewPassed(s: Shop, e: Exec, next: nat, c: Circumstance): Shop {
    if !HasRole(Rows(s), next) || RoleAt(Rows(s), next).assignee.None? then s
    else
      var row := RoleAt(Rows(s), next);
      if row.role == QA && row.status in {ASSIGNED, PENDING} then SentToQa(s, next, c)
      else if row.role == MCP_SPECIALIST
      then Mailed(s, Envelope(EXPERT_INVITE, row.assignee.value, Some(MCP_SPECIALIST), e.envelopeRound))
      else s
  }

  /** A review that passed moves on, unless its round is no longer its row's. */
  function ReviewContinued(s: Shop, e: Exec, c: Circumstance): Shop
    requires e.stage.Finishing? && e.stage.own <= |e.stage.seen|
  {
    if HasRole(Rows(s), e.stage.own) && e.envelopeRound != RoleAt(Rows(s), e.stage.own).round then s
    else ReviewPassed(s, e, NextOf(s, e), c)
  }

  function Continued(s: Shop, agent: AgentId, e: Exec, c: Circumstance): Shop
    requires e.stage.Finishing? && e.stage.own <= |e.stage.seen|
  {
    if !c.budget then ClosedOut(s, e.stage.ok, c.now)
    else if e.role == REVIEWER && e.stage.ok then ReviewContinued(s, e, c)
    else if !e.stage.ok && e.role !in {REVIEWER, ARCHITECT} then s
    else
      var (kind, round) := DecideHandoff(e.role, e.stage.ok, e.envelopeRound);
      HandedOn(s, e.stage.seen, TargetOf(s, e), kind, round)
  }

  /** A passing QA outcome completes the team and publishes its verdict before anything else. */
  function Told(s: Shop, agent: AgentId): Shop {
    if agent !in s.execs || !s.execs[agent].stage.Finishing? || s.execs[agent].stage.told then s
    else
      var e := s.execs[agent];
      var ledger := Completion.Ledger(TeamCompleted(Rows(s)), s.ledger.events + [Completion.VERDICT(true, true)]);
      WithExec(s.(ledger := ledger), agent, e.(stage := e.stage.(told := true)))
  }

  /** From the publication of the RESULT, and of the verdict if one is due, to the end of the hand-off. */
  function Followed(s: Shop, agent: AgentId, c: Circumstance): Shop {
    if agent !in s.execs then s
    else
      var e := s.execs[agent];
      if !e.stage.Finishing? || !e.stage.told || e.stage.own > |e.stage.seen| then s
      else WithExec(Continued(Projected(s, c), agent, e, c), agent, e.(stage := Sending))
  }
}
