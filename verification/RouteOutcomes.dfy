/** Whom a recovery pass finds, and what routing, publishing and scheduling then do, exactly. */
module RouteOutcomes {
  import opened Domain
  import opened Routing
  import opened TaskLifecycle
  import opened Worker
  import opened Watchdog
  import opened PassOutcomes
  import Asides

  // ---------------------------------------------------------------- whom routing finds

  /** The question a recovery asks about everybody but those that held, or were selected for, the role before. */
  function Newcomers(r: Records, snap: Snapshot, g: Registry): Request {
    Ask(r, snap, g, Excluded(r, snap))
  }

  /** The question that lets the same worker try again. */
  function Returners(r: Records, snap: Snapshot, g: Registry): Request {
    Ask(r, snap, g, if snap.row.role == QA then PriorTo(r.roles, snap.sequence).Values else {})
  }

  /** Left out: the role's agent, everybody ever selected for it, and for QA who passed an earlier role or is reserved. */
  lemma ExcludedIff(r: Records, snap: Snapshot, a: AgentId)
    ensures a in Excluded(r, snap) <==>
            || snap.row.assignee == Some(a)
            || (exists i :: 0 <= i < |r.decisions| && r.decisions[i].sequence == snap.sequence
                            && r.decisions[i].decision.selected == Some(a))
            || (snap.row.role == QA && a in PriorTo(r.roles, snap.sequence).Values)
  {
    if i :| 0 <= i < |r.decisions| && r.decisions[i].sequence == snap.sequence && r.decisions[i].decision.selected == Some(a) {
      assert r.decisions[i].decision.selected.value in History(r.decisions, snap.sequence);
    }
  }

  ghost predicate Somebody(q: Request, among: set<AgentId>) {
    exists i :: 0 <= i < |q.agents| && Candidate(q.agents[i], q) && q.agents[i].id in among
  }

  /** An agent is suited and only busy with another task. */
  ghost predicate SomebodyBusy(q: Request) {
    exists i :: 0 <= i < |q.agents| && OnlyBusy(q.agents[i], q)
  }

  const ALL: set<AgentId> := {CODEX, CLAUDE_CODE, OPENCODE, COMMAND_CODE}

  lemma InAll(a: AgentId)
    ensures a in ALL
  {
    assert a.CODEX? || a.CLAUDE_CODE? || a.OPENCODE? || a.COMMAND_CODE?;
  }

  lemma ChoosesIff(q: Request)
    requires DistinctAgents(q.agents) && q.override.None?
    ensures Choose(q).0.Some? <==> Somebody(q, ALL)
  {
    BestOfPrefix(q.agents, q);
    if Choose(q).0.Some? {
      var i :| 0 <= i < |q.agents| && q.agents[i] == Best(q.agents, q).value;
      InAll(q.agents[i].id);
    }
    if i :| 0 <= i < |q.agents| && Candidate(q.agents[i], q) {
      assert q.agents[i] in q.agents;
    }
  }

  lemma StricterIff(r: Records, snap: Snapshot, g: Registry)
    ensures var strict := Ask(r, snap, g, Excluded(r, snap) + g.failed);
            Somebody(strict, ALL) <==> Somebody(Newcomers(r, snap, g), ALL - g.failed)
  {
    var strict, q := Ask(r, snap, g, Excluded(r, snap) + g.failed), Newcomers(r, snap, g);
    if i :| 0 <= i < |strict.agents| && Candidate(strict.agents[i], strict) {
      InAll(strict.agents[i].id);
      assert Candidate(q.agents[i], q) && q.agents[i].id in ALL - g.failed;
    }
    if i :| 0 <= i < |q.agents| && Candidate(q.agents[i], q) && q.agents[i].id in ALL - g.failed {
      assert Candidate(strict.agents[i], strict);
    }
  }

  /**
   * Somebody new is chosen exactly when somebody new could take the role, and one without a failed attempt
   * if there is one; failing that, the same worker exactly when nobody suited is merely busy, it never really
   * started, and the role may go back to somebody. `busy` says whether somebody suited is merely busy.
   */
  lemma ChosenIff(r: Records, snap: Snapshot, g: Registry)
    requires DistinctAgents(g.agents)
    ensures var c, unused, before := Chosen(r, snap, g), Newcomers(r, snap, g), Returners(r, snap, g);
            if Somebody(unused, ALL) then c.selected.Some? && !c.again
            else
              && (c.selected.Some? <==>
                    && !SomebodyBusy(unused) && snap.row.assignee.Some? && Somebody(before, ALL)
                    && snap.classification in {RECEIVED_BUT_NOT_STARTED, STALE_INBOUND, CLAIMED_BUT_NOT_STARTED, ACTIVE_NO_PROGRESS})
              && (c.selected.None? ==> (c.busy <==> SomebodyBusy(unused)))
  {
    var strict, unused := Ask(r, snap, g, Excluded(r, snap) + g.failed), Newcomers(r, snap, g);
    ChoosesIff(strict);
    ChoosesIff(unused);
    ChoosesIff(Returners(r, snap, g));
    StricterIff(r, snap, g);
    if g.failed == {} {
      assert Excluded(r, snap) + g.failed == Excluded(r, snap);
    }
  }

  // ---------------------------------------------------------------- routing

  /** The pass waits to be routed, holding a retry of its row. */
  predicate Waits(s: System, id: PassId, snap: Snapshot) {
    && id in s.passes && s.passes[id] == Pass(snap, Await.Routing)
    && KeyOf(snap) in s.recovery && s.recovery[KeyOf(snap)].retries > 0
  }

  /** The decision is recorded, and the pass is over. */
  function Decided(s: System, id: PassId, snap: Snapshot, c: Choice): System {
    var r := RowsOf(s);
    PutRows(s, r.(decisions := r.decisions + [Recorded(snap.sequence, snap.row.role, Decision(c.selected, c.code, []))]))
      .(passes := s.passes - {id})
  }

  /**
   * Nobody is chosen. With somebody suited merely busy, and the wait for capacity not open yet or younger
   * than the progress deadline, only the decision is recorded, the retry comes back, nobody is awake, and the
   * wait is open. Otherwise the task is given up.
   */
  lemma CapacityWindow(s: System, id: PassId, p: Policy, g: Registry, now: Time, snap: Snapshot)
    requires DistinctAgents(g.agents) && Waits(s, id, snap) && Chosen(RowsOf(s), snap, g).selected.None?
    ensures var row, later := s.recovery[KeyOf(snap)], PassRouted(s, id, p, g, now);
            if SomebodyBusy(Newcomers(RowsOf(s), snap, g)) && (row.capacityAt.None? || now - row.capacityAt.value < p.progressDeadline)
            then later == Booked(Decided(s, id, snap, Chosen(RowsOf(s), snap, g)), KeyOf(snap),
                                 row.(retries := row.retries - 1, wake := false,
                                      capacityAt := if row.capacityAt.Some? then row.capacityAt else Some(now)),
                                 [Refunded(KeyOf(snap))])
            else GivenUp(s, later, KeyOf(snap))
  {
    var c := Chosen(RowsOf(s), snap, g);
    ChosenIff(RowsOf(s), snap, g);
    var decided := Decided(s, id, snap, c);
    assert PassRouted(s, id, p, g, now) == Unrouted(decided, p, snap, c.busy, now);
    UnroutedIs(decided, p, snap, c.busy, now);
    if GivenUp(decided, PassRouted(s, id, p, g, now), KeyOf(snap)) {
      GivenUpOn(s, decided, PassRouted(s, id, p, g, now), KeyOf(snap));
    }
  }

  lemma UnroutedIs(s: System, p: Policy, snap: Snapshot, busy: bool, now: Time)
    requires KeyOf(snap) in s.recovery && s.recovery[KeyOf(snap)].retries > 0
    ensures var row, later := s.recovery[KeyOf(snap)], Unrouted(s, p, snap, busy, now);
            if busy && (row.capacityAt.None? || now - row.capacityAt.value < p.progressDeadline)
            then later == Booked(s, KeyOf(snap),
                                 row.(retries := row.retries - 1, wake := false,
                                      capacityAt := if row.capacityAt.Some? then row.capacityAt else Some(now)),
                                 [Refunded(KeyOf(snap))])
            else GivenUp(s, later, KeyOf(snap))
  {
    StopIs(s, snap, now);
  }

  /** Nothing the snapshot was taken of has changed. */
  predicate Unchanged(r: Records, snap: Snapshot) {
    && 1 <= snap.sequence <= |r.roles| && r.task.status !in {PASS, FAIL, CANCELLED}
    && (if r.team.Some? && r.team.value.current.Some? then r.team.value.current else r.task.sequence) == Some(snap.sequence)
    && r.roles[snap.sequence - 1].round == snap.row.round && r.roles[snap.sequence - 1].assignee == snap.row.assignee
    && r.task.attempt == snap.attempt && r.task.updatedAt == snap.version
  }

  /** Somebody is chosen but the task has moved on: only the decision is recorded, and nobody is awake. */
  lemma StaleRoute(s: System, id: PassId, p: Policy, g: Registry, now: Time, snap: Snapshot)
    requires Waits(s, id, snap) && Chosen(RowsOf(s), snap, g).selected.Some? && !Unchanged(RowsOf(s), snap)
    ensures var c := Chosen(RowsOf(s), snap, g);
            PassRouted(s, id, p, g, now) ==
            Booked(Decided(s, id, snap, c), KeyOf(snap), s.recovery[KeyOf(snap)].(wake := false),
                   [Picked(snap.sequence, c.selected.value, c.again)])
  {
    var c := Chosen(RowsOf(s), snap, g);
    CurrentIff(RowsOf(s), RowsOf(DecisionRecorded(s, snap, c)), snap);
    StaleRests(DecisionRecorded(s, snap, c), id, p, snap, c, now);
  }

  lemma CurrentIff(r: Records, decided: Records, snap: Snapshot)
    requires decided == r.(decisions := decided.decisions)
    ensures IsCurrent(decided, snap) <==> Unchanged(r, snap)
  {
  }

  lemma StaleRests(s: System, id: PassId, p: Policy, snap: Snapshot, c: Choice, now: Time)
    requires KeyOf(snap) in s.recovery && c.selected.Some? && !IsCurrent(RowsOf(s), snap)
    ensures CarriedOut(s, id, p, snap, c, now) ==
            s.(passes := s.passes - {id}, recovery := s.recovery[KeyOf(snap) := s.recovery[KeyOf(snap)].(wake := false)])
  {
  }

  /** The task is out again with `agent`, as its next attempt, and so is an envelope for the row's round. */
  predicate OutAgain(s: System, later: System, id: PassId, snap: Snapshot, c: Choice)
    requires c.selected.Some? && 1 <= snap.sequence <= |RowsOf(s).roles|
  {
    var r, after, n, agent := RowsOf(s), RowsOf(later), snap.sequence, c.selected.value;
    && after.task.status == DISPATCHED && after.task.attempt == r.task.attempt + 1 && after.task.assignee == Some(agent)
    && after.task.sequence == Some(n) && after.task.role == snap.row.role
    && |after.roles| == |r.roles| && after.roles[n - 1].status == ASSIGNED && after.roles[n - 1].assignee == Some(agent)
    && after.roles[n - 1].round == r.roles[n - 1].round && after.roles[n - 1].role == r.roles[n - 1].role
    && (forall i :: 0 <= i < |r.roles| && i != n - 1 ==> after.roles[i] == r.roles[i])
    && after.team == (if r.team.Some? then Some(Team(TeamACTIVE, Some(n))) else None)
    && later.shop.mail == s.shop.mail + [Envelope(TASK, agent, Some(snap.row.role), snap.row.round)]
    && later.shop.execs == s.shop.execs && later.recovery == s.recovery && later.watching == s.watching
    && later.passes == s.passes[id := Pass(snap, Sent(false))]
    && later.log == s.log + [Picked(n, agent, c.again), Entry.Dispatched(KeyOf(snap), r.task.attempt)]
  }

  /** Somebody is chosen and nothing has changed: the task is sent out again, unless it is at a human gate or COMPLETED. */
  lemma RouteSendsOut(s: System, id: PassId, p: Policy, g: Registry, now: Time, snap: Snapshot)
    requires Waits(s, id, snap) && Chosen(RowsOf(s), snap, g).selected.Some? && Unchanged(RowsOf(s), snap)
    requires RowsOf(s).task.status !in {HUMAN_GATE, COMPLETED}
    ensures OutAgain(s, PassRouted(s, id, p, g, now), id, snap, Chosen(RowsOf(s), snap, g))
  {
    var c := Chosen(RowsOf(s), snap, g);
    var s1 := DecisionRecorded(s, snap, c);
    assert IsCurrent(RowsOf(s1), snap);
    assert PassRouted(s, id, p, g, now) == Redispatched(s1, id, snap, c.selected.value, now);
    SentOut(s1, id, snap, c.selected.value, now);
  }

  /** At a human gate the task cannot be sent out: it is cancelled and no longer watched, and nothing is sent. */
  lemma GateStopsRoute(s: System, id: PassId, p: Policy, g: Registry, now: Time, snap: Snapshot)
    requires Waits(s, id, snap) && Chosen(RowsOf(s), snap, g).selected.Some? && Unchanged(RowsOf(s), snap)
    requires RowsOf(s).task.status == HUMAN_GATE
    ensures var later := PassRouted(s, id, p, g, now);
            && RowsOf(later).task.status == CANCELLED && RowsOf(later).task.attempt == RowsOf(s).task.attempt
            && !later.watching && later.shop.mail == s.shop.mail && id !in later.passes
            && later.log != [] && later.log[|later.log| - 1] == Stopped(KeyOf(snap))
  {
    var c := Chosen(RowsOf(s), snap, g);
    var s1 := DecisionRecorded(s, snap, c);
    assert IsCurrent(RowsOf(s1), snap);
    assert PassRouted(s, id, p, g, now) == Redispatched(s1, id, snap, c.selected.value, now);
    GateStops(s1, id, snap, c.selected.value, now);
  }

  lemma GateStops(s: System, id: PassId, snap: Snapshot, agent: AgentId, now: Time)
    requires RowsOf(s).task.status == HUMAN_GATE
    ensures var later := Redispatched(s, id, snap, agent, now);
            && RowsOf(later).task.status == CANCELLED && RowsOf(later).task.attempt == RowsOf(s).task.attempt
            && !later.watching && later.shop.mail == s.shop.mail && id !in later.passes
            && later.log == s.log + [Stopped(KeyOf(snap))]
  {
    var r := Reassigned(RowsOf(s), snap, agent, now);
    AtGateStill(RowsOf(s), snap, agent, now);
    var s1 := PutRows(s, r).(passes := s.passes - {id});
    assert Redispatched(s, id, snap, agent, now) == SafeStopped(s1, snap, now);
    StopIs(s1, snap, now);
    StopKeeps(s1, snap, now);
  }

  lemma AtGateStill(r: Records, snap: Snapshot, agent: AgentId, now: Time)
    requires r.task.status == HUMAN_GATE
    ensures var after := Reassigned(r, snap, agent, now);
            after.task.status == HUMAN_GATE && after.task.attempt == r.task.attempt
  {
  }

  lemma StopKeeps(s: System, snap: Snapshot, now: Time)
    ensures var later := SafeStopped(s, snap, now);
            && RowsOf(later).task.attempt == RowsOf(s).task.attempt && later.passes == s.passes
            && later.log == s.log + [Stopped(KeyOf(snap))]
  {
  }

  lemma SentOut(s: System, id: PassId, snap: Snapshot, agent: AgentId, now: Time)
    requires Unchanged(RowsOf(s), snap) && RowsOf(s).task.status !in {HUMAN_GATE, COMPLETED}
    ensures var r := Reassigned(RowsOf(s), snap, agent, now);
            && r.task.status == DISPATCHED
            && Redispatched(s, id, snap, agent, now) ==
               System(s.shop.(ledger := s.shop.ledger.(rows := r),
                              mail := s.shop.mail + [Envelope(TASK, agent, Some(snap.row.role), snap.row.round)]),
                      s.recovery, s.passes[id := Pass(snap, Sent(false))], s.watching,
                      s.log + [Entry.Dispatched(KeyOf(snap), RowsOf(s).task.attempt)])
    ensures var r, n := Reassigned(RowsOf(s), snap, agent, now), snap.sequence;
            && r.task.attempt == RowsOf(s).task.attempt + 1 && r.task.assignee == Some(agent)
            && r.task.sequence == Some(n) && r.task.role == snap.row.role
            && r.roles == RowsOf(s).roles[n - 1 := RowsOf(s).roles[n - 1].(assignee := Some(agent), status := ASSIGNED,
                                                                        reason := Some("CONTINUATION_FALLBACK"), completedAt := None)]
            && r.team == (if RowsOf(s).team.Some? then Some(Team(TeamACTIVE, Some(n))) else None)
  {
    var r1 := PutTeam(Assigned(RowsOf(s), snap.sequence, agent, "CONTINUATION_FALLBACK"), TeamACTIVE, Some(snap.sequence));
    BackOut(CurrentRoleSet(r1.task, Some(snap.sequence), Some(snap.row.role), Some(agent), now), agent, now);
  }

  lemma BackOut(t: TaskRow, agent: AgentId, now: Time)
    requires t.status !in {PASS, FAIL, CANCELLED, HUMAN_GATE, COMPLETED}
    ensures var after := SentAgain(TakenBack(t, now), agent, now);
            && after.status == DISPATCHED && after.attempt == t.attempt + 1 && after.assignee == Some(agent)
            && after.sequence == t.sequence && after.role == t.role
  {
  }

  // ---------------------------------------------------------------- publishing and scheduling

  /** Once what it sent is published the pass rests; its waits are over unless a replay was not delivered. */
  lemma EndIs(s: System, id: PassId, delivered: bool)
    requires id in s.passes && s.passes[id].at.Sent? && KeyOf(s.passes[id].snapshot) in s.recovery
    ensures var key := KeyOf(s.passes[id].snapshot);
            var row := s.recovery[key].(wake := false);
            PassEnded(s, id, delivered) ==
            s.(passes := s.passes - {id},
               recovery := s.recovery[key := if s.passes[id].at.replay && !delivered then row
                                             else row.(capacityAt := None, cancelAt := None)])
  {
  }

  /** A queued task goes out to the role's agent, or to the one newly routed, exactly when there is one. */
  lemma ScheduleIff(s: System, sequence: nat, routed: Option<AgentId>, now: Time)
    requires 1 <= sequence <= |RowsOf(s).roles|
    ensures var later, row := Scheduled(s, sequence, routed, now), RowsOf(s).roles[sequence - 1];
            var agent := if routed.Some? then routed else row.assignee;
            if RowsOf(s).task.status == QUEUED && agent.Some?
            then && later.shop.mail == s.shop.mail + [Envelope(TASK, agent.value, Some(row.role), row.round)]
                 && RowsOf(later).task.status == DISPATCHED && RowsOf(later).task.assignee == agent
                 && RowsOf(later).task.sequence == Some(sequence) && RowsOf(later).task.attempt == RowsOf(s).task.attempt
                 && RowsOf(later).roles[sequence - 1].assignee == agent && RowsOf(later).roles[sequence - 1].round == row.round
            else later == s
  {
  }
}
