/** The worker runtime as an object over the task's rows: each method is one step of the protocol. */
module WorkerRuntime {
  import opened Domain
  import opened TaskLifecycle
  import opened Worker
  import Completion

  /** The events sent to agents. */
  class Protocol {
    var mail: seq<Envelope>

    constructor ()
      ensures mail == []
    {
      mail := [];
    }

    method Emit(e: Envelope)
      modifies this
      ensures mail == old(mail) + [e]
    {
      mail := mail + [e];
    }
  }

  class Runtime {
    const store: TaskStore
    const projection: Completion.TaskCompletionProjection
    const protocol: Protocol
    var execs: map<AgentId, Exec>
    var results: seq<Outcome>

    ghost predicate Valid()
      reads this
    {
      projection.store == store && projection.live
    }

    ghost function View(): Shop
      reads this, store, projection, protocol
    {
      Shop(Completion.Ledger(store.View(), projection.events), execs, protocol.mail, results)
    }

    constructor (s: TaskStore, p: Completion.TaskCompletionProjection, sink: Protocol)
      requires p.store == s && p.live
      ensures Valid() && store == s && projection == p && protocol == sink
      ensures execs == map[] && results == []
    {
      store, projection, protocol, execs, results := s, p, sink, map[], [];
    }

    method Receive(e: Envelope, now: Time)
      requires Valid()
      modifies this, store
      ensures Valid() && View() == Claim(old(View()), e, now)
    {
      var agent := e.recipient;
      if agent in execs {
        return;
      }
      var sequence := ClaimedSequence(store.roles, agent, e.role);
      var row := if sequence > 0 then Some(store.roles[sequence - 1]) else None;
      if ClaimRole(e, agent, store.task, row).Some? || (row.Some? && row.value.status in {RolePASS, SKIPPED}) {
        return;
      }
      if row.Some? {
        store.Activate(sequence, now);
        store.SetCurrentTeamRole(Some(sequence), Some(row.value.role), Some(agent), now);
      }
      Attempt(agent, now);
      var role := if e.role.Some? then e.role.value else if row.Some? then row.value.role else store.task.role;
      var claimed := if row.Some? then sequence else if store.task.sequence.Some? then store.task.sequence.value else 0;
      var round := if row.Some? then row.value.round else e.round;
      execs := execs[agent := Exec(e.round, role, claimed, round, store.task.attempt, Claimed)];
    }

    /** A dispatched task is claimed, a running one claimed again; either way a new attempt runs. */
    method Attempt(agent: AgentId, now: Time)
      requires Valid()
      modifies store`task
      ensures store.View() == old(store.View()).(task := Started(old(store.task), agent, now))
    {
      var next := NO_PATCH.(attempt := Some(store.task.attempt + 1), assignee := Some(agent));
      if store.task.status == DISPATCHED {
        var ok := store.Transition(CLAIMED, next, now);
      } else if store.task.status == RUNNING {
        var ok := store.Transition(RUNNING, next, now);
      }
      if store.task.status == CLAIMED {
        var ok := store.Transition(RUNNING, NO_PATCH, now);
      }
    }

    method AckSent(agent: AgentId, bound: bool, now: Time)
      requires Valid()
      modifies this, store`task
      ensures Valid() && View() == Acknowledged(old(View()), agent, bound, now)
    {
      if agent !in execs || !execs[agent].stage.Claimed? {
        return;
      }
      if bound {
        execs := execs[agent := execs[agent].(stage := Executing(store.task.updatedAt))];
      } else {
        var ok := store.Transition(WAITING_MAIN, NO_PATCH.(result := Some("EXECUTION_BINDING")), now);
        execs := execs - {agent};
      }
    }

    method CheckCurrent(agent: AgentId, e: Exec) returns (current: bool)
      requires e.stage.Executing?
      ensures current == Current(store.View(), agent, e)
    {
      var roles, t := store.roles, store.task;
      current := t.status !in OVER && t.attempt == e.attempt && t.assignee == Some(agent) && t.updatedAt == e.stage.version;
      if current && e.sequence > 0 {
        current := e.sequence <= |roles| && roles[e.sequence - 1].round == e.round && roles[e.sequence - 1].assignee == Some(agent);
      }
    }

    /** Checks that nothing has changed since the claim, then finishes the role and persists the result. */
    method ResultReady(agent: AgentId, ok: bool, text: string, evidence: seq<string>, now: Time)
      requires Valid()
      modifies this, store
      ensures Valid() && View() == Applied(old(View()), agent, ok, text, evidence, now)
    {
      if agent !in execs || !execs[agent].stage.Executing? {
        return;
      }
      var e, roles := execs[agent], store.roles;
      var current := CheckCurrent(agent, e);
      if !current {
        execs := execs - {agent};
        return;
      }
      var own := Held(roles, agent, Some(e.role), 1);
      var finished := 0;
      if own > 0 && roles[own - 1].status != RolePASS {
        store.Finish(own, if ok then RolePASS else RoleFAIL, text, evidence, now);
        finished := own;
      }
      results := results + [Outcome(agent, e, ok, finished)];
      execs := execs[agent := e.(stage := Finishing(ok, roles, own, !(e.role == QA && ok)))];
    }

    method TellVerdict(agent: AgentId)
      requires Valid()
      modifies this, store`team, projection`events
      ensures Valid() && View() == Told(old(View()), agent)
    {
      if agent !in execs || !execs[agent].stage.Finishing? || execs[agent].stage.told {
        return;
      }
      store.Complete();
      projection.events := projection.events + [Completion.VERDICT(true, true)];
      execs := execs[agent := execs[agent].(stage := execs[agent].stage.(told := true))];
    }

    method Project(c: Circumstance)
      requires Valid()
      modifies store`task, store`team, projection`events
      ensures View() == Projected(old(View()), c)
    {
      if store.team.Some? {
        var projected, reason := projection.Reconcile(c.gate, c.now);
      }
    }

    method CloseOut(ok: bool, now: Time)
      requires Valid()
      modifies store`task
      ensures View() == ClosedOut(old(View()), ok, now)
    {
      if !ok && store.task.status !in OVER {
        var to := if store.task.status in {RUNNING, WAITING_RESULT, REVIEWING} then FAIL else CANCELLED;
        var moved := store.Transition(to, NO_PATCH.(result := Some("RUN_BUDGET_EXHAUSTED")), now);
      }
    }

    method SendToQa(next: nat, c: Circumstance)
      requires Valid() && 1 <= next <= |store.roles| && store.roles[next - 1].assignee.Some?
      modifies store, protocol
      ensures View() == SentToQa(old(View()), next, c)
    {
      var roles := store.roles;
      var qa := roles[next - 1];
      var active := exists i :: 0 <= i < |roles| && roles[i].role == QA && roles[i].status in {ACTIVE, RolePASS};
      if c.qaDispatched || active || qa.assignee.value in Completion.Contributors(roles) {
        return;
      }
      store.SetCurrentTeamRole(Some(next), Some(qa.role), qa.assignee, c.now);
      store.Activate(next, c.now);
      protocol.Emit(Envelope(TASK, qa.assignee.value, Some(qa.role), qa.round));
    }

    method HandOn(seen: seq<RoleRow>, target: nat, kind: Handoff, round: nat)
      requires Valid() && (target == 0 || (target <= |seen| && seen[target - 1].assignee.Some?))
      modifies store, protocol
      ensures View() == HandedOn(old(View()), seen, target, kind, round)
    {
      if target > 0 {
        var row := seen[target - 1];
        store.Reopen(target, round);
        protocol.Emit(Envelope(if kind == REVISION then REVISION_REQUEST else HANDOFF, row.assignee.value, Some(row.role), round));
      }
    }

    method AfterReview(e: Exec, next: nat, c: Circumstance)
      requires Valid()
      modifies store, protocol
      ensures View() == ReviewPassed(old(View()), e, next, c)
    {
      if !(1 <= next <= |store.roles|) || store.roles[next - 1].assignee.None? {
        return;
      }
      var row := store.roles[next - 1];
      if row.role == QA && row.status in {ASSIGNED, PENDING} {
        SendToQa(next, c);
      } else if row.role == MCP_SPECIALIST {
        protocol.Emit(Envelope(EXPERT_INVITE, row.assignee.value, Some(MCP_SPECIALIST), e.envelopeRound));
      }
    }

    method ContinueReview(e: Exec, c: Circumstance)
      requires Valid() && e.stage.Finishing? && e.stage.own <= |e.stage.seen| && e.role == REVIEWER && e.stage.ok
      modifies store, protocol
      ensures View() == ReviewContinued(old(View()), e, c)
    {
      var own := e.stage.own;
      if 1 <= own <= |store.roles| && e.envelopeRound != store.roles[own - 1].round {
        return;
      }
      var roles := if 1 <= own <= |store.roles| then store.roles else e.stage.seen;
      AfterReview(e, if own == 0 then 0 else NextAssigned(roles, own, own + 1), c);
    }

    /** The budget gate and then the hand-off. */
    method GoOn(agent: AgentId, e: Exec, c: Circumstance)
      requires Valid() && e.stage.Finishing? && e.stage.own <= |e.stage.seen|
      modifies store, protocol
      ensures View() == Continued(old(View()), agent, e, c)
    {
      var own, ok := e.stage.own, e.stage.ok;
      if !c.budget {
        CloseOut(ok, c.now);
      } else if e.role == REVIEWER && ok {
        ContinueReview(e, c);
      } else if ok || e.role in {REVIEWER, ARCHITECT} {
        var (kind, round) := DecideHandoff(e.role, ok, e.envelopeRound);
        var target := if kind == REVISION then LastImplementer(e.stage.seen, own)
                      else if own == 0 then 0 else NextAssigned(e.stage.seen, own, own + 1);
        HandOn(e.stage.seen, target, kind, round);
      }
    }

    method Follow(agent: AgentId, c: Circumstance)
      requires Valid()
      modifies this, store, projection`events, protocol
      ensures Valid() && View() == Followed(old(View()), agent, c)
    {
      if agent !in execs {
        return;
      }
      var e := execs[agent];
      if !e.stage.Finishing? || !e.stage.told || e.stage.own > |e.stage.seen| {
        return;
      }
      Project(c);
      GoOn(agent, e, c);
      execs := execs[agent := e.(stage := Sending)];
    }

    method End(agent: AgentId)
      requires Valid()
      modifies this`execs
      ensures Valid() && View() == Closed(old(View()), agent)
    {
      execs := execs - {agent};
    }
  }
}
