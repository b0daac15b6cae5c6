/** Where a finished role's outcome leads: to QA, to an expert, back for revision, to completion, or nowhere. */
module Continuations {
  import opened Domain
  import opened TaskLifecycle
  import opened Worker
  import Claims
  import Completion
  import Handoffs

  // ---------------------------------------------------------------- a review that passed

  /** The execution is a passing review of its own row, within the budget. */
  predicate PassingReview(s: Shop, e: Exec, c: Circumstance) {
    && c.budget && e.role == REVIEWER && e.stage.Finishing? && e.stage.ok
    && 1 <= e.stage.own <= |e.stage.seen| && e.stage.own <= |Rows(s).roles|
  }

  /** Nobody was asked to test yet, and the agent of row `target` neither implemented nor reviewed. */
  ghost predicate MayTest(roles: seq<RoleRow>, target: nat, dispatched: bool)
    requires 0 < target <= |roles|
  {
    && !dispatched
    && (forall i :: 0 <= i < |roles| && roles[i].role == QA ==> roles[i].status != ACTIVE && roles[i].status != RolePASS)
    && (forall i :: 0 <= i < |roles| && roles[i].role in {DEVELOPER, DEBUGGER, REFACTORER, REVIEWER} ==>
          roles[i].assignee != roles[target - 1].assignee)
  }

  /** The task is with row `target`, which has just become active; no other row changed. */
  predicate MovedOnTo(r: Records, later: Records, target: nat, now: Time)
    requires 0 < target <= |r.roles|
  {
    var row := r.roles[target - 1];
    && later.roles == r.roles[target - 1 :=
                              row.(status := ACTIVE, startedAt := if row.startedAt.Some? then row.startedAt else Some(now))]
    && later.task == r.task.(sequence := Some(target), role := row.role, updatedAt := now,
                             assignee := if row.assignee.Some? then row.assignee else r.task.assignee)
    && later.team == (if r.team.Some? then Some(Team(TeamACTIVE, Some(target))) else None)
    && later.decisions == r.decisions
  }

  lemma NextIs(roles: seq<RoleRow>, own: nat, target: nat)
    requires Handoffs.NearestAfter(roles, own, target)
    ensures NextAssigned(roles, own, own + 1) == target
  {
  }

  lemma IndependentIff(roles: seq<RoleRow>, target: nat)
    requires 0 < target <= |roles| && roles[target - 1].assignee.Some?
    ensures roles[target - 1].assignee.value in Completion.Contributors(roles) <==>
            exists i :: 0 <= i < |roles| && roles[i].role in {DEVELOPER, DEBUGGER, REFACTORER, REVIEWER} &&
              roles[i].assignee == roles[target - 1].assignee
  {
    var qa := roles[target - 1].assignee.value;
    if i :| 0 <= i < |roles| && roles[i].role in {DEVELOPER, DEBUGGER, REFACTORER, REVIEWER} && roles[i].assignee == Some(qa) {
      assert roles[i].assignee.value in Completion.Contributors(roles);
    }
  }

  lemma QaAskedIff(s: Shop, target: nat, c: Circumstance)
    requires 0 < target <= |Rows(s).roles| && Rows(s).roles[target - 1].assignee.Some?
    ensures var later, qa := SentToQa(s, target, c), Rows(s).roles[target - 1];
            if MayTest(Rows(s).roles, target, c.qaDispatched)
            then later.mail == s.mail + [Envelope(TASK, qa.assignee.value, Some(qa.role), qa.round)]
                 && MovedOnTo(Rows(s), Rows(later), target, c.now)
            else later == s
  {
    IndependentIff(Rows(s).roles, target);
  }

  /**
   * A passing review in its row's round whose nearest assigned successor is a QA role still to be done asks
   * that role's agent to test, in that row's round, exactly when QA was not asked before, no QA role is under
   * way or done, and the agent is independent. Otherwise nothing changes.
   */
  lemma ReviewReachesQaIff(s: Shop, agent: AgentId, e: Exec, c: Circumstance, target: nat)
    requires PassingReview(s, e, c) && Rows(s).roles[e.stage.own - 1].round == e.envelopeRound
    requires Handoffs.NearestAfter(Rows(s).roles, e.stage.own, target)
    requires Rows(s).roles[target - 1].role == QA && Rows(s).roles[target - 1].status in {ASSIGNED, PENDING}
    ensures var later, qa := Continued(s, agent, e, c), Rows(s).roles[target - 1];
            if MayTest(Rows(s).roles, target, c.qaDispatched)
            then later.mail == s.mail + [Envelope(TASK, qa.assignee.value, Some(QA), qa.round)]
                 && MovedOnTo(Rows(s), Rows(later), target, c.now)
            else later == s
  {
    NextIs(Rows(s).roles, e.stage.own, target);
    QaAskedIff(s, target, c);
    assert Continued(s, agent, e, c) == SentToQa(s, target, c);
  }

  /** With an expert as its nearest assigned successor a passing review invites the expert and touches no row. */
  lemma ReviewInvitesExpert(s: Shop, agent: AgentId, e: Exec, c: Circumstance, target: nat)
    requires PassingReview(s, e, c) && Rows(s).roles[e.stage.own - 1].round == e.envelopeRound
    requires Handoffs.NearestAfter(Rows(s).roles, e.stage.own, target) && Rows(s).roles[target - 1].role == MCP_SPECIALIST
    ensures var expert := Rows(s).roles[target - 1].assignee.value;
            Continued(s, agent, e, c) ==
            s.(mail := s.mail + [Envelope(EXPERT_INVITE, expert, Some(MCP_SPECIALIST), e.envelopeRound)])
  {
    NextIs(Rows(s).roles, e.stage.own, target);
  }

  /** In any other case a passing review is the end: a stale round, nobody next, or a next role that is neither. */
  lemma ReviewEnds(s: Shop, agent: AgentId, e: Exec, c: Circumstance)
    requires PassingReview(s, e, c)
    requires var roles, own := Rows(s).roles, e.stage.own;
             || roles[own - 1].round != e.envelopeRound
             || (forall i :: own <= i < |roles| ==> roles[i].assignee.None?)
             || (exists target :: Handoffs.NearestAfter(roles, own, target) && roles[target - 1].role != MCP_SPECIALIST
                   && (roles[target - 1].role != QA || roles[target - 1].status !in {ASSIGNED, PENDING}))
    ensures Continued(s, agent, e, c) == s
  {
    var roles, own := Rows(s).roles, e.stage.own;
    if target :| Handoffs.NearestAfter(roles, own, target) && roles[target - 1].role != MCP_SPECIALIST
                 && (roles[target - 1].role != QA || roles[target - 1].status !in {ASSIGNED, PENDING}) {
      NextIs(roles, own, target);
    }
  }

  // ---------------------------------------------------------------- other outcomes

  /** The row handed to is active in `round`, its agent has the envelope, and no other row changed. */
  predicate Handed(s: Shop, later: Shop, seen: seq<RoleRow>, target: nat, kind: Kind, round: nat)
    requires 0 < target <= |Rows(s).roles| && target <= |seen| && seen[target - 1].assignee.Some?
  {
    var r, row := Rows(s), Rows(s).roles[target - 1];
    && later.mail == s.mail + [Envelope(kind, seen[target - 1].assignee.value, Some(seen[target - 1].role), round)]
    && Rows(later).roles == r.roles[target - 1 := row.(status := ACTIVE, round := round, completedAt := None)]
    && Rows(later).task == r.task && Rows(later).team == (if r.team.Some? then Some(Team(TeamACTIVE, Some(target))) else None)
  }

  /**
   * A failing review, and any outcome of an architect, sends the nearest implementer before it into the next
   * round; with none before it nothing happens.
   */
  lemma RevisionIs(s: Shop, agent: AgentId, e: Exec, c: Circumstance)
    requires c.budget && e.stage.Finishing? && 0 < e.stage.own <= |e.stage.seen| && |e.stage.seen| == |Rows(s).roles|
    requires e.role == ARCHITECT || (e.role == REVIEWER && !e.stage.ok)
    ensures var later := Continued(s, agent, e, c);
            && (forall target :: Handoffs.NearestImplementer(e.stage.seen, e.stage.own, target) ==>
                  Handed(s, later, e.stage.seen, target, REVISION_REQUEST, e.envelopeRound + 1))
            && ((forall i :: 0 <= i < e.stage.own - 1 ==>
                   !(e.stage.seen[i].assignee.Some? && e.stage.seen[i].role in {DEVELOPER, DEBUGGER, REFACTORER})) ==> later == s)
  {
    forall target | Handoffs.NearestImplementer(e.stage.seen, e.stage.own, target)
      ensures LastImplementer(e.stage.seen, e.stage.own) == target
    {
    }
  }

  /** A passing outcome of every other role goes to the nearest assigned role after it, in the same round; a failing one nowhere. */
  lemma ProgressIs(s: Shop, agent: AgentId, e: Exec, c: Circumstance)
    requires c.budget && e.stage.Finishing? && 0 < e.stage.own <= |e.stage.seen| && |e.stage.seen| == |Rows(s).roles|
    requires e.role != REVIEWER && e.role != ARCHITECT
    ensures var later := Continued(s, agent, e, c);
            && (forall target :: Handoffs.NearestAfter(e.stage.seen, e.stage.own, target) && e.stage.ok ==>
                  Handed(s, later, e.stage.seen, target, HANDOFF, e.envelopeRound))
            && (!e.stage.ok || (forall i :: e.stage.own <= i < |e.stage.seen| ==> e.stage.seen[i].assignee.None?) ==> later == s)
  {
    forall target | Handoffs.NearestAfter(e.stage.seen, e.stage.own, target)
      ensures NextAssigned(e.stage.seen, e.stage.own, e.stage.own + 1) == target
    {
    }
  }

  /**
   * With the budget used up nothing is sent and no role moves. A failing outcome still closes a task that is
   * not over: FAIL where that is a legal end, CANCELLED otherwise, unless the task is COMPLETED.
   */
  lemma BudgetClosesOut(s: Shop, agent: AgentId, e: Exec, c: Circumstance)
    requires !c.budget && e.stage.Finishing? && e.stage.own <= |e.stage.seen|
    ensures var later, t := Continued(s, agent, e, c), Rows(s).task;
            && later == s.(ledger := s.ledger.(rows := Rows(s).(task := Rows(later).task)))
            && (e.stage.ok || t.status in {PASS, FAIL, CANCELLED, COMPLETED} ==> Rows(later).task == t)
            && (!e.stage.ok && t.status in {RUNNING, WAITING_RESULT, REVIEWING} ==> Rows(later).task.status == FAIL)
            && (!e.stage.ok && t.status in {QUEUED, DISPATCHED, CLAIMED, BLOCKED, WAITING_MAIN, HUMAN_GATE} ==>
                  Rows(later).task.status == CANCELLED)
            && Rows(later).task.attempt == t.attempt
  {
  }

  // ---------------------------------------------------------------- the end of a task

  /** The rows once the QA row `i` has passed. */
  function Tested(roles: seq<RoleRow>, i: nat, text: string, evidence: seq<string>, now: Time): seq<RoleRow>
    requires i < |roles|
  {
    roles[i := roles[i].(status := RolePASS, result := Some(text), evidence := evidence, completedAt := Some(now))]
  }

  lemma QaApplied(s: Shop, agent: AgentId, text: string, evidence: seq<string>, now: Time, i: nat)
    requires agent in s.execs && s.execs[agent].stage.Executing? && s.execs[agent].role == QA
    requires Completion.OncePerRole(Rows(s).roles)
    requires !Claims.Disturbed(Rows(s), agent, s.execs[agent], s.execs[agent].stage.version)
    requires i < |Rows(s).roles| && Rows(s).roles[i].role == QA && Rows(s).roles[i].assignee == Some(agent)
    requires Rows(s).roles[i].status != RolePASS
    ensures var later := Applied(s, agent, true, text, evidence, now);
            && Rows(later) == Rows(s).(roles := Tested(Rows(s).roles, i, text, evidence, now))
            && later.ledger.events == s.ledger.events && agent in later.execs
            && later.execs[agent] == s.execs[agent].(stage := Finishing(true, Rows(s).roles, i + 1, false))
  {
    var own := OwnRow(Rows(s), agent, s.execs[agent]);
    assert own == i + 1;
  }

  lemma VerdictTold(s: Shop, agent: AgentId)
    requires agent in s.execs && s.execs[agent].stage.Finishing? && !s.execs[agent].stage.told && Rows(s).team.Some?
    ensures var later := Told(s, agent);
            && Rows(later) == Rows(s).(team := Some(Team(COMPLETE, None)))
            && later.ledger.events == s.ledger.events + [Completion.VERDICT(true, true)]
            && agent in later.execs && later.execs[agent] == s.execs[agent].(stage := s.execs[agent].stage.(told := true))
  {
  }

  /** Once the verdict is out and the gate is open, the projection completes the task. */
  lemma FollowCompletes(s: Shop, agent: AgentId, c: Circumstance)
    requires agent in s.execs && s.execs[agent].stage.Finishing? && s.execs[agent].stage.told && s.execs[agent].stage.ok
    requires s.execs[agent].role == QA && s.execs[agent].stage.own <= |s.execs[agent].stage.seen|
    requires Rows(s).team == Some(Team(COMPLETE, None)) && Completion.CanComplete(c.gate, Rows(s).roles)
    requires s.ledger.events != [] && s.ledger.events[|s.ledger.events| - 1] == Completion.VERDICT(true, true)
    requires Rows(s).task.status in {DISPATCHED, CLAIMED, RUNNING, WAITING_RESULT, REVIEWING, WAITING_MAIN}
    ensures Rows(Followed(s, agent, c)).task.status == COMPLETED && Rows(Followed(s, agent, c)).task.candidate
    ensures Completion.COMPLETION in Followed(s, agent, c).ledger.events
  {
    Completion.AcceptedWrites(s.ledger, true, c.now);
    assert Completion.Refusal(s.ledger, c.gate).None?;
    QaLeavesTask(Projected(s, c), agent, s.execs[agent], c);
  }

  lemma QaLeavesTask(s: Shop, agent: AgentId, e: Exec, c: Circumstance)
    requires e.stage.Finishing? && e.stage.own <= |e.stage.seen| && e.stage.ok && e.role == QA
    ensures Rows(Continued(s, agent, e, c)).task == Rows(s).task
    ensures Continued(s, agent, e, c).ledger.events == s.ledger.events
  {
  }

  lemma StillOpen(status: TaskStatus)
    requires status !in {PASS, FAIL, CANCELLED} + {QUEUED, BLOCKED, HUMAN_GATE, COMPLETED}
    ensures status in {DISPATCHED, CLAIMED, RUNNING, WAITING_RESULT, REVIEWING, WAITING_MAIN}
  {
    assert status.DISPATCHED? || status.CLAIMED? || status.RUNNING? || status.WAITING_RESULT? || status.REVIEWING?
        || status.WAITING_MAIN?;
  }

  /**
   * End to end: when all other roles have passed, an undisturbed passing QA result completes the task, if the
   * gate's conditions hold of the rows as QA leaves them: through its verdict, and whatever the budget.
   */
  lemma PassingQaCompletes(s: Shop, agent: AgentId, text: string, evidence: seq<string>, now: Time, c: Circumstance, i: nat)
    requires agent in s.execs && s.execs[agent].stage.Executing? && s.execs[agent].role == QA
    requires Rows(s).team.Some? && Completion.OncePerRole(Rows(s).roles)
    requires !Claims.Disturbed(Rows(s), agent, s.execs[agent], s.execs[agent].stage.version)
    requires i < |Rows(s).roles| && Rows(s).roles[i].role == QA && Rows(s).roles[i].assignee == Some(agent)
    requires Rows(s).roles[i].status != RolePASS
    requires forall j :: 0 <= j < |Rows(s).roles| && j != i ==> Rows(s).roles[j].status == RolePASS
    requires var roles := Tested(Rows(s).roles, i, text, evidence, now);
             Completion.Approved(c.gate, roles) && Completion.Independent(roles) && Completion.Validated(c.gate, roles)
    requires Rows(s).task.status !in {QUEUED, BLOCKED, HUMAN_GATE, COMPLETED}
    ensures var later := Followed(Told(Applied(s, agent, true, text, evidence, now), agent), agent, c);
            Rows(later).task.status == COMPLETED && Rows(later).task.candidate && Completion.COMPLETION in later.ledger.events
  {
    var applied := Applied(s, agent, true, text, evidence, now);
    QaApplied(s, agent, text, evidence, now, i);
    VerdictTold(applied, agent);
    StillOpen(Rows(s).task.status);
    Completion.GateIff(c.gate, Tested(Rows(s).roles, i, text, evidence, now));
    FollowCompletes(Told(applied, agent), agent, c);
  }
}
