/** Late results stay out: what attempts, statuses and role rows guarantee over every interleaving. */
module Fencing {
  import opened Domain
  import opened TaskLifecycle
  import opened Worker
  import opened Watchdog
  import Completion

  // ---------------------------------------------------------------- what every step keeps

  /** Role rows are never renamed, added or removed once the team exists. */
  ghost predicate SameRoles(r: Records, later: Records) {
    r.team.Some? ==>
      later.team.Some? && |later.roles| == |r.roles| && forall i :: 0 <= i < |r.roles| ==> later.roles[i].role == r.roles[i].role
  }

  const DEAD: set<TaskStatus> := {FAIL, CANCELLED}

  /** What one status may become, once it is PASS, COMPLETED, FAIL or CANCELLED. */
  predicate Settles(status: TaskStatus, later: TaskStatus) {
    && (status in DEAD + {COMPLETED} ==> later == status)
    && (status == PASS ==> later in {PASS, COMPLETED})
  }

  /** Attempts only grow; a failed, cancelled or completed task stays so, and PASS only becomes COMPLETED. */
  ghost predicate Grows(r: Records, later: Records) {
    && r.task.attempt <= later.task.attempt
    && Settles(r.task.status, later.task.status)
    && SameRoles(r, later)
  }

  lemma GrowsOn(r: Records, mid: Records, later: Records)
    requires Grows(r, mid) && Grows(mid, later)
    ensures Grows(r, later)
  {
  }

  /** A claim of a dispatched or running task starts the next attempt. */
  lemma StartedIs(t: TaskRow, agent: AgentId, now: Time)
    ensures var later := Started(t, agent, now);
            && t.attempt <= later.attempt && Settles(t.status, later.status) && later.sequence == t.sequence
            && (t.assignee == Some(agent) ==> later.assignee == t.assignee)
            && (t.status in {DISPATCHED, RUNNING} ==> later.attempt == t.attempt + 1 && later.status == RUNNING)
  {
  }

  lemma EnteredGrows(r: Records, agent: AgentId, sequence: nat, now: Time)
    ensures Grows(r, Entered(r, agent, sequence, now))
  {
    if HasRole(r, sequence) {
      var a := Activated(r, sequence, now);
      StartedIs(CurrentRoleSet(a.task, Some(sequence), Some(RoleAt(r, sequence).role), Some(agent), now), agent, now);
    } else {
      StartedIs(r.task, agent, now);
    }
  }

  lemma ClaimGrows(s: Shop, e: Envelope, now: Time)
    ensures Grows(Rows(s), Rows(Claim(s, e, now)))
  {
    EnteredGrows(Rows(s), e.recipient, ClaimedSequence(Rows(s).roles, e.recipient, e.role), now);
  }

  lemma AppliedGrows(s: Shop, agent: AgentId, ok: bool, text: string, evidence: seq<string>, now: Time)
    ensures Grows(Rows(s), Rows(Applied(s, agent, ok, text, evidence, now)))
    ensures Rows(Applied(s, agent, ok, text, evidence, now)).task == Rows(s).task
  {
  }

  lemma ProjectedGrows(s: Shop, c: Circumstance)
    ensures Grows(Rows(s), Rows(Projected(s, c)))
    ensures Rows(Projected(s, c)).roles == Rows(s).roles
  {
    if Rows(s).team.Some? {
      if Completion.Refusal(s.ledger, c.gate).None? {
        AcceptedGrows(s.ledger, c.now);
      }
    }
  }

  lemma AcceptedGrows(l: Completion.Ledger, now: Time)
    requires l.rows.team.Some?
    ensures Grows(l.rows, Completion.Accepted(l, true, now).0.rows)
    ensures Completion.Accepted(l, true, now).0.rows.roles == l.rows.roles
  {
    Completion.AcceptedWrites(l, true, now);
  }

  lemma ClosedOutGrows(s: Shop, ok: bool, now: Time)
    ensures Grows(Rows(s), Rows(ClosedOut(s, ok, now)))
  {
  }

  lemma SentToQaGrows(s: Shop, next: nat, c: Circumstance)
    requires HasRole(Rows(s), next) && RoleAt(Rows(s), next).assignee.Some?
    ensures Grows(Rows(s), Rows(SentToQa(s, next, c)))
  {
  }

  lemma HandedOnGrows(s: Shop, seen: seq<RoleRow>, target: nat, kind: Handoff, round: nat)
    requires target == 0 || (target <= |seen| && seen[target - 1].assignee.Some?)
    ensures Grows(Rows(s), Rows(HandedOn(s, seen, target, kind, round)))
  {
  }

  lemma ContinuedGrows(s: Shop, agent: AgentId, e: Exec, c: Circumstance)
    requires e.stage.Finishing? && e.stage.own <= |e.stage.seen|
    ensures Grows(Rows(s), Rows(Continued(s, agent, e, c)))
  {
    var own, seen, ok := e.stage.own, e.stage.seen, e.stage.ok;
    ClosedOutGrows(s, ok, c.now);
    if e.role == REVIEWER && ok {
      var next := NextOf(s, e);
      if HasRole(Rows(s), next) && RoleAt(Rows(s), next).assignee.Some? {
        SentToQaGrows(s, next, c);
      }
    } else {
      var (kind, round) := DecideHandoff(e.role, ok, e.envelopeRound);
      HandedOnGrows(s, seen, TargetOf(s, e), kind, round);
    }
  }

  lemma FollowedGrows(s: Shop, agent: AgentId, c: Circumstance)
    ensures Grows(Rows(s), Rows(Followed(s, agent, c)))
  {
    if agent in s.execs {
      var e := s.execs[agent];
      if e.stage.Finishing? && e.stage.told && e.stage.own <= |e.stage.seen| {
        ProjectedGrows(s, c);
        ContinuedGrows(Projected(s, c), agent, e, c);
        GrowsOn(Rows(s), Rows(Projected(s, c)), Rows(Continued(Projected(s, c), agent, e, c)));
      }
    }
  }

  /** Neither executions nor results are touched. */
  predicate SameWork(s: Shop, later: Shop) {
    later.execs == s.execs && later.results == s.results
  }

  lemma StoppedRowsGrow(r: Records, sequence: nat, now: Time)
    ensures Grows(r, StoppedRows(r, sequence, now))
  {
  }

  lemma StoppedGrows(s: System, snap: Snapshot, now: Time)
    ensures Grows(RowsOf(s), RowsOf(SafeStopped(s, snap, now)))
    ensures SameWork(s.shop, SafeStopped(s, snap, now).shop)
  {
    StoppedRowsGrow(RowsOf(s), snap.sequence, now);
  }

  /** Taken back and sent again: the attempt is the next one, if the task gets out at all. */
  lemma BackAndOut(t: TaskRow, agent: AgentId, now: Time)
    requires t.status !in OVER
    ensures var after := SentAgain(TakenBack(t, now), agent, now);
            && (after.status == DISPATCHED <==> t.status !in {HUMAN_GATE, COMPLETED})
            && (after.status == DISPATCHED ==> after.attempt == t.attempt + 1 && after.assignee == Some(agent))
            && t.attempt <= after.attempt && Settles(t.status, after.status)
  {
  }

  lemma ReassignedGrows(r: Records, snap: Snapshot, agent: AgentId, now: Time)
    requires r.task.status !in OVER
    ensures Grows(r, Reassigned(r, snap, agent, now))
    ensures var after := Reassigned(r, snap, agent, now).task;
            after.status == DISPATCHED <==> r.task.status !in {HUMAN_GATE, COMPLETED}
    ensures var after := Reassigned(r, snap, agent, now).task;
            after.status == DISPATCHED ==> after.attempt == r.task.attempt + 1 && after.assignee == Some(agent)
  {
    var r1 := PutTeam(Assigned(r, snap.sequence, agent, "CONTINUATION_FALLBACK"), TeamACTIVE, Some(snap.sequence));
    BackAndOut(CurrentRoleSet(r1.task, Some(snap.sequence), Some(snap.row.role), Some(agent), now), agent, now);
  }

  lemma RedispatchedGrows(s: System, id: PassId, snap: Snapshot, agent: AgentId, now: Time)
    requires RowsOf(s).task.status !in OVER
    ensures Grows(RowsOf(s), RowsOf(Redispatched(s, id, snap, agent, now)))
    ensures SameWork(s.shop, Redispatched(s, id, snap, agent, now).shop)
  {
    var r := Reassigned(RowsOf(s), snap, agent, now);
    ReassignedGrows(RowsOf(s), snap, agent, now);
    var s1 := PutRows(s, r);
    StoppedGrows(s1.(passes := s1.passes - {id}), snap, now);
  }

  lemma ReopenedGrows(r: Records, sequence: nat, round: nat)
    ensures Grows(r, Reopened(r, sequence, round))
  {
  }

  lemma ReplayedGrows(s: System, id: PassId, snap: Snapshot, sight: Sight, now: Time)
    ensures Grows(RowsOf(s), RowsOf(Replayed(s, id, snap, sight, now)))
    ensures SameWork(s.shop, Replayed(s, id, snap, sight, now).shop)
  {
    var previous := if snap.sequence <= |RowsOf(s).roles| then LastImplementer(RowsOf(s).roles, snap.sequence) else 0;
    if !sight.missing {
    } else if previous == 0 || snap.row.assignee.None? {
      StoppedGrows(s, snap, now);
    } else {
      ReopenedGrows(RowsOf(s), previous, snap.row.round + 1);
    }
  }

  lemma CancelGrows(s: System, p: Policy, snap: Snapshot, terminated: bool, now: Time)
    requires KeyOf(snap) in s.recovery
    ensures Grows(RowsOf(s), RowsOf(CancelAsked(s, p, snap, terminated, now)))
    ensures SameWork(s.shop, CancelAsked(s, p, snap, terminated, now).shop)
  {
    StoppedGrows(s, snap, now);
  }

  lemma PursuedGrows(s: System, id: PassId, p: Policy, snap: Snapshot, sight: Sight, now: Time)
    requires KeyOf(snap) in s.recovery
    ensures Grows(RowsOf(s), RowsOf(Pursued(s, id, p, snap, sight, now)))
    ensures SameWork(s.shop, Pursued(s, id, p, snap, sight, now).shop)
  {
    if IsCurrent(RowsOf(s), snap) {
      if sight.orphan && snap.row.role in {REVIEWER, ARCHITECT} {
        ReplayedGrows(s, id, snap, sight, now);
      } else if sight.live {
        CancelGrows(s, p, snap, sight.terminated, now);
      }
    }
  }

  lemma RecoveredGrows(s: System, id: PassId, p: Policy, snap: Snapshot, sight: Sight, now: Time)
    requires KeyOf(snap) in s.recovery
    ensures Grows(RowsOf(s), RowsOf(Recovered(s, id, p, snap, sight, now)))
    ensures SameWork(s.shop, Recovered(s, id, p, snap, sight, now).shop)
  {
    if s.recovery[KeyOf(snap)].retries >= p.maxRecoveries {
      StoppedGrows(s, snap, now);
    } else if !s.recovery[KeyOf(snap)].wake {
      PursuedGrows(Acquire(s, KeyOf(snap)), id, p, snap, sight, now);
    }
  }

  lemma AttendedGrows(s: System, id: PassId, p: Policy, snap: Snapshot, sight: Sight, now: Time)
    ensures Grows(RowsOf(s), RowsOf(Attended(s, id, p, snap, sight, now)))
    ensures SameWork(s.shop, Attended(s, id, p, snap, sight, now).shop)
  {
    RecoveredGrows(Observed(s, KeyOf(snap)), id, p, snap, sight, now);
  }

  lemma PassStartedGrows(s: System, id: PassId, p: Policy, sight: Sight, now: Time)
    ensures Grows(RowsOf(s), RowsOf(PassStarted(s, id, p, sight, now)))
    ensures SameWork(s.shop, PassStarted(s, id, p, sight, now).shop)
  {
    var sequence := RoleInQuestion(RowsOf(s), sight.gate);
    if sequence > 0 {
      AttendedGrows(s, id, p, SnapshotOf(RowsOf(s), sequence, sight.classification), sight, now);
    }
  }

  lemma CarriedGrows(s: System, id: PassId, p: Policy, snap: Snapshot, c: Choice, now: Time)
    requires KeyOf(snap) in s.recovery
    ensures Grows(RowsOf(s), RowsOf(CarriedOut(s, id, p, snap, c, now)))
    ensures SameWork(s.shop, CarriedOut(s, id, p, snap, c, now).shop)
  {
    if c.selected.None? {
      StoppedGrows(s.(passes := s.passes - {id}), snap, now);
    } else if IsCurrent(RowsOf(s), snap) {
      RedispatchedGrows(s, id, snap, c.selected.value, now);
    }
  }

  lemma PassRoutedGrows(s: System, id: PassId, p: Policy, g: Registry, now: Time)
    ensures Grows(RowsOf(s), RowsOf(PassRouted(s, id, p, g, now)))
    ensures SameWork(s.shop, PassRouted(s, id, p, g, now).shop)
  {
    if id in s.passes && s.passes[id].at.Routing? && KeyOf(s.passes[id].snapshot) in s.recovery {
      var snap := s.passes[id].snapshot;
      var c := Chosen(RowsOf(s), snap, g);
      CarriedGrows(DecisionRecorded(s, snap, c), id, p, snap, c, now);
    }
  }

  lemma ScheduledGrows(s: System, sequence: nat, agent: Option<AgentId>, now: Time)
    ensures Grows(RowsOf(s), RowsOf(Scheduled(s, sequence, agent, now)))
    ensures SameWork(s.shop, Scheduled(s, sequence, agent, now).shop)
  {
  }

  lemma AcknowledgedGrows(s: Shop, agent: AgentId, bound: bool, now: Time)
    ensures Grows(Rows(s), Rows(Acknowledged(s, agent, bound, now)))
  {
  }

  lemma ToldGrows(s: Shop, agent: AgentId)
    ensures Grows(Rows(s), Rows(Told(s, agent)))
  {
  }

  /** The steps that are neither a worker's, a pass's nor the scheduler's. */
  predicate Ambient(a: Action) {
    a.Move? || a.Touch? || a.MakeTeam? || a.Assign? || a.AbortPass? || a.EndPass? || a.WorkerEnds?
  }

  lemma OthersGrow(r: Records, a: Action)
    ensures Grows(r, ByOthers(r, a))
  {
  }

  lemma AmbientGrows(s: System, p: Policy, a: Action)
    requires Ambient(a)
    ensures Grows(RowsOf(s), RowsOf(Stepped(s, p, a)))
  {
    OthersGrow(RowsOf(s), a);
  }

  /** Steps of workers and of everybody else but the watchdog. */
  predicate Outside(a: Action) {
    !a.StartPass? && !a.RoutePass? && !a.EndPass? && !a.AbortPass?
  }

  predicate SameBooks(s: System, later: System) {
    later.recovery == s.recovery && later.passes == s.passes && later.log == s.log && later.watching == s.watching
  }

  lemma OutsideStep(s: System, p: Policy, a: Action)
    requires Outside(a)
    ensures SameBooks(s, Stepped(s, p, a))
  {
  }

  lemma StepGrows(s: System, p: Policy, a: Action)
    ensures Grows(RowsOf(s), RowsOf(Stepped(s, p, a)))
  {
    match a
    case Deliver(e, now) => ClaimGrows(s.shop, e, now);
    case AckSent(agent, bound, now) => AcknowledgedGrows(s.shop, agent, bound, now);
    case ResultReady(agent, ok, text, evidence, now) => AppliedGrows(s.shop, agent, ok, text, evidence, now);
    case TellVerdict(agent) => ToldGrows(s.shop, agent);
    case Follow(agent, c) => FollowedGrows(s.shop, agent, c);
    case StartPass(id, sight, now) => PassStartedGrows(s, id, p, sight, now);
    case RoutePass(id, g, now) => PassRoutedGrows(s, id, p, g, now);
    case Schedule(sequence, routed, now) => ScheduledGrows(s, sequence, routed, now);
    case _ => AmbientGrows(s, p, a);
  }

  lemma {:induction false} RunGrows(s: System, p: Policy, actions: seq<Action>)
    ensures Grows(RowsOf(s), RowsOf(Run(s, p, actions)))
  {
    if actions != [] {
      var init := actions[..|actions| - 1];
      RunGrows(s, p, init);
      StepGrows(Run(s, p, init), p, actions[|actions| - 1]);
      GrowsOn(RowsOf(s), RowsOf(Run(s, p, init)), RowsOf(Run(s, p, actions)));
    }
  }

  // ---------------------------------------------------------------- late results

  /** Executions never carry a later attempt than the task. */
  ghost predicate Bounded(s: System) {
    forall agent :: agent in s.shop.execs ==> s.shop.execs[agent].attempt <= RowsOf(s).task.attempt
  }

  /** The executions after a step are those before it, at most one of them new and of the current attempt. */
  ghost predicate Inherits(s: Shop, later: Shop) {
    && (forall agent :: agent in later.execs ==>
          (agent in s.execs && later.execs[agent].attempt == s.execs[agent].attempt) ||
          later.execs[agent].attempt == Rows(later).task.attempt)
    && s.results <= later.results
  }

  lemma ClaimInherits(s: Shop, e: Envelope, now: Time)
    ensures Inherits(s, Claim(s, e, now)) && Claim(s, e, now).results == s.results
  {
  }

  lemma AppliedInherits(s: Shop, agent: AgentId, ok: bool, text: string, evidence: seq<string>, now: Time)
    ensures Inherits(s, Applied(s, agent, ok, text, evidence, now))
    ensures var later := Applied(s, agent, ok, text, evidence, now);
            later.results != s.results ==>
              && agent in s.execs && Current(Rows(s), agent, s.execs[agent])
              && |later.results| == |s.results| + 1 && later.results[|s.results|].exec == s.execs[agent]
              && later.results[|s.results|].agent == agent
  {
  }

  lemma ContinuedInherits(s: Shop, agent: AgentId, e: Exec, c: Circumstance)
    requires e.stage.Finishing? && e.stage.own <= |e.stage.seen|
    ensures Continued(s, agent, e, c).execs == s.execs && Continued(s, agent, e, c).results == s.results
  {
  }

  lemma FollowedInherits(s: Shop, agent: AgentId, c: Circumstance)
    ensures Inherits(s, Followed(s, agent, c)) && Followed(s, agent, c).results == s.results
  {
    if agent in s.execs {
      var e := s.execs[agent];
      if e.stage.Finishing? && e.stage.told && e.stage.own <= |e.stage.seen| {
        ContinuedInherits(Projected(s, c), agent, e, c);
      }
    }
  }

  lemma AmbientInherits(s: System, p: Policy, a: Action)
    requires Ambient(a)
    ensures Inherits(s.shop, Stepped(s, p, a).shop) && Stepped(s, p, a).shop.results == s.shop.results
  {
  }

  lemma StepInherits(s: System, p: Policy, a: Action)
    ensures Inherits(s.shop, Stepped(s, p, a).shop)
    ensures !a.ResultReady? ==> Stepped(s, p, a).shop.results == s.shop.results
  {
    match a
    case Deliver(e, now) => ClaimInherits(s.shop, e, now);
    case AckSent(agent, bound, now) =>
    case ResultReady(agent, ok, text, evidence, now) => AppliedInherits(s.shop, agent, ok, text, evidence, now);
    case TellVerdict(agent) =>
    case Follow(agent, c) => FollowedInherits(s.shop, agent, c);
    case StartPass(id, sight, now) => PassStartedGrows(s, id, p, sight, now);
    case RoutePass(id, g, now) => PassRoutedGrows(s, id, p, g, now);
    case Schedule(sequence, routed, now) => ScheduledGrows(s, sequence, routed, now);
    case _ => AmbientInherits(s, p, a);
  }

  lemma {:induction false} RunBounded(s: System, p: Policy, actions: seq<Action>)
    requires Bounded(s)
    ensures Bounded(Run(s, p, actions))
  {
    if actions != [] {
      var mid := Run(s, p, actions[..|actions| - 1]);
      RunBounded(s, p, actions[..|actions| - 1]);
      StepInherits(mid, p, actions[|actions| - 1]);
      StepGrows(mid, p, actions[|actions| - 1]);
    }
  }

  lemma OpenedIsBounded(r: Records)
    ensures Bounded(Opened(r))
  {
  }

  /** Results persisted in a run come from attempts at least as late as the task's at its start; none if it was dead. */
  ghost predicate OnlyLater(s: System, later: System) {
    && s.shop.results <= later.shop.results
    && (RowsOf(s).task.status in DEAD ==> later.shop.results == s.shop.results)
    && forall i :: |s.shop.results| <= i < |later.shop.results| ==>
         later.shop.results[i].exec.attempt >= RowsOf(s).task.attempt
  }

  lemma {:induction false} ResultsAreLater(s: System, p: Policy, actions: seq<Action>)
    ensures OnlyLater(s, Run(s, p, actions))
  {
    if actions != [] {
      var init, a := actions[..|actions| - 1], actions[|actions| - 1];
      var mid := Run(s, p, init);
      ResultsAreLater(s, p, init);
      RunGrows(s, p, init);
      StepInherits(mid, p, a);
      if a.ResultReady? {
        AppliedInherits(mid.shop, a.agent, a.ok, a.text, a.evidence, a.now);
      }
    }
  }

  /** The step sends the task out again: the pass then waits for the publication of what it sent. */
  predicate Redispatches(s: System, p: Policy, a: Action) {
    && a.RoutePass? && a.id in s.passes && s.passes[a.id].at.Routing?
    && a.id in Stepped(s, p, a).passes && Stepped(s, p, a).passes[a.id].at.Sent?
  }

  lemma RedispatchedIs(s: System, id: PassId, snap: Snapshot, agent: AgentId, now: Time)
    requires RowsOf(s).task.status !in OVER
    ensures var later := Redispatched(s, id, snap, agent, now);
            id in later.passes ==>
              && later.log == s.log + [Dispatched(KeyOf(snap), RowsOf(s).task.attempt)]
              && RowsOf(later).task.attempt == RowsOf(s).task.attempt + 1 && RowsOf(later).task.status == DISPATCHED
              && RowsOf(later).task.assignee == Some(agent)
  {
    ReassignedGrows(RowsOf(s), snap, agent, now);
  }

  lemma RoutedIs(s: System, id: PassId, p: Policy, g: Registry, now: Time)
    requires id in s.passes && s.passes[id].at.Routing?
    ensures var later := PassRouted(s, id, p, g, now);
            id in later.passes && later.passes[id].at.Sent? ==>
              && later.log != [] && later.log[|later.log| - 1] == Dispatched(KeyOf(s.passes[id].snapshot), RowsOf(s).task.attempt)
              && RowsOf(later).task.attempt == RowsOf(s).task.attempt + 1 && RowsOf(later).task.status == DISPATCHED
  {
    var snap := s.passes[id].snapshot;
    var c := Chosen(RowsOf(s), snap, g);
    var s1 := DecisionRecorded(s, snap, c);
    if c.selected.Some? && IsCurrent(RowsOf(s1), snap) {
      RedispatchedIs(s1, id, snap, c.selected.value, now);
    }
  }

  lemma RedispatchIs(s: System, p: Policy, a: Action)
    requires Redispatches(s, p, a)
    ensures var later := Stepped(s, p, a);
            && later.log != [] && later.log[|later.log| - 1] == Dispatched(KeyOf(s.passes[a.id].snapshot), RowsOf(s).task.attempt)
            && RowsOf(later).task.attempt == RowsOf(s).task.attempt + 1 && RowsOf(later).task.status == DISPATCHED
  {
    RoutedIs(s, a.id, p, a.registry, a.now);
  }

  /**
   * Fencing: once a recovery has sent the task out again, no execution that was alive at that moment ever
   * persists a result or finishes a role, however workers, watchdog and others interleave afterwards.
   */
  lemma RedispatchFences(s: System, p: Policy, a: Action, rest: seq<Action>)
    requires Bounded(s) && Redispatches(s, p, a)
    ensures var now, later := Stepped(s, p, a), Run(Stepped(s, p, a), p, rest);
            forall i :: |now.shop.results| <= i < |later.shop.results| ==>
              && later.shop.results[i].exec.attempt > RowsOf(s).task.attempt
              && forall agent :: agent in s.shop.execs ==> later.shop.results[i].exec.attempt > s.shop.execs[agent].attempt
  {
    RedispatchIs(s, p, a);
    ResultsAreLater(Stepped(s, p, a), p, rest);
  }

  lemma StoppedRowsAre(r: Records, sequence: nat, now: Time)
    ensures var before, later := r.task.status, StoppedRows(r, sequence, now);
            && (if before in OVER + {COMPLETED} then later.task.status == before else later.task.status in DEAD)
            && (HasRole(later, sequence) ==> RoleAt(later, sequence).status == RoleBLOCKED)
            && (later.team.Some? ==> later.team.value.status == TeamBLOCKED)
  {
  }

  /** Giving up: the task is failed or cancelled and no longer watched, unless it is COMPLETED, when nothing stops. */
  lemma StoppedIs(s: System, snap: Snapshot, now: Time)
    ensures var before, later := RowsOf(s).task.status, RowsOf(SafeStopped(s, snap, now)).task.status;
            if before in OVER + {COMPLETED} then later == before else later in DEAD
    ensures SafeStopped(s, snap, now).watching == (if RowsOf(s).task.status == COMPLETED then s.watching else false)
    ensures var r, key := RowsOf(SafeStopped(s, snap, now)), KeyOf(snap);
            RowsOf(s).task.status != COMPLETED ==>
              && (HasRole(r, snap.sequence) ==> RoleAt(r, snap.sequence).status == RoleBLOCKED)
              && (r.team.Some? ==> r.team.value.status == TeamBLOCKED)
              && (key in s.recovery ==> SafeStopped(s, snap, now).recovery[key] == Recovery(s.recovery[key].retries, false, None, None))
  {
    StoppedRowsAre(RowsOf(s), snap.sequence, now);
  }

  /** After a stop no result is ever persisted. */
  lemma DeadPersistsNothing(s: System, p: Policy, actions: seq<Action>)
    requires RowsOf(s).task.status in DEAD
    ensures Run(s, p, actions).shop.results == s.shop.results
    ensures RowsOf(Run(s, p, actions)).task.status == RowsOf(s).task.status
  {
    ResultsAreLater(s, p, actions);
    RunGrows(s, p, actions);
  }

  // ---------------------------------------------------------------- the row that is finished

  /** The execution's role row is the one it claimed. */
  ghost predicate HoldsRow(r: Records, e: Exec) {
    HasRole(r, e.sequence) && RoleAt(r, e.sequence).role == e.role
  }

  lemma EnteredTakesRow(r: Records, agent: AgentId, sequence: nat, now: Time)
    requires HasRole(r, sequence)
    ensures var after := Entered(r, agent, sequence, now);
            && HasRole(after, sequence) && RoleAt(after, sequence).status == ACTIVE
            && RoleAt(after, sequence).role == RoleAt(r, sequence).role
            && RoleAt(after, sequence).round == RoleAt(r, sequence).round
            && RoleAt(after, sequence).assignee == RoleAt(r, sequence).assignee
            && after.task.assignee == Some(agent) && after.task.sequence == Some(sequence)
  {
    var a := Activated(r, sequence, now);
    StartedIs(CurrentRoleSet(a.task, Some(sequence), Some(RoleAt(r, sequence).role), Some(agent), now), agent, now);
  }

  lemma EnteredStarts(r: Records, agent: AgentId, sequence: nat, now: Time)
    ensures var after := Entered(r, agent, sequence, now);
            r.task.status in {DISPATCHED, RUNNING} ==>
              after.task.attempt == r.task.attempt + 1 && after.task.status == RUNNING
  {
  }

  /** A claim that finds a role row takes exactly that row, its role, its round and the task's new attempt. */
  lemma ClaimTakesRow(s: Shop, e: Envelope, now: Time)
    requires e.recipient !in s.execs && e.recipient in Claim(s, e, now).execs
    ensures var sequence, after := ClaimedSequence(Rows(s).roles, e.recipient, e.role), Claim(s, e, now);
            var x := after.execs[e.recipient];
            && x.attempt == Rows(after).task.attempt && x.envelopeRound == e.round
            && (sequence > 0 ==>
                  && x.sequence == sequence && HoldsRow(Rows(after), x) && x.round == e.round
                  && RoleAt(Rows(after), sequence).round == e.round && RoleAt(Rows(after), sequence).status == ACTIVE
                  && RoleAt(Rows(after), sequence).assignee == Some(e.recipient)
                  && Rows(after).task.assignee == Some(e.recipient) && Rows(after).task.sequence == Some(sequence))
            && (Rows(s).task.status in {DISPATCHED, RUNNING} ==>
                  x.attempt == Rows(s).task.attempt + 1 && Rows(after).task.status == RUNNING)
  {
    var sequence := ClaimedSequence(Rows(s).roles, e.recipient, e.role);
    EnteredStarts(Rows(s), e.recipient, sequence, now);
    if sequence > 0 {
      EnteredTakesRow(Rows(s), e.recipient, sequence, now);
    }
  }

  /** Over every run, roles stay distinct and an execution keeps holding the row it claimed. */
  lemma RowsKept(s: System, p: Policy, actions: seq<Action>, e: Exec)
    requires RowsOf(s).team.Some? && Completion.OncePerRole(RowsOf(s).roles)
    ensures Completion.OncePerRole(RowsOf(Run(s, p, actions)).roles)
    ensures HoldsRow(RowsOf(s), e) ==> HoldsRow(RowsOf(Run(s, p, actions)), e)
  {
    RunGrows(s, p, actions);
    DistinctLater(RowsOf(s), RowsOf(Run(s, p, actions)));
  }

  lemma DistinctLater(r: Records, later: Records)
    requires r.team.Some? && SameRoles(r, later) && Completion.OncePerRole(r.roles)
    ensures Completion.OncePerRole(later.roles)
  {
  }

  /**
   * An outcome is persisted exactly when nothing it was claimed under has changed, and then the row it
   * finishes is the row that was claimed: same sequence, round and assignee, in that same step.
   */
  lemma PersistsIff(s: Shop, agent: AgentId, ok: bool, text: string, evidence: seq<string>, now: Time)
    requires Completion.OncePerRole(Rows(s).roles)
    requires agent in s.execs && HoldsRow(Rows(s), s.execs[agent])
    ensures var e, later := s.execs[agent], Applied(s, agent, ok, text, evidence, now);
            && (later.results != s.results <==> Current(Rows(s), agent, e))
            && (Current(Rows(s), agent, e) && RoleAt(Rows(s), e.sequence).status != RolePASS ==>
                  && later.results == s.results + [Outcome(agent, e, ok, e.sequence)]
                  && Rows(later) == Finished(Rows(s), e.sequence, if ok then RolePASS else RoleFAIL, text, evidence, now))
            && (!Current(Rows(s), agent, e) ==> Rows(later) == Rows(s))
  {
    var e, r := s.execs[agent], Rows(s);
    if Current(r, agent, e) {
      var own := OwnRow(r, agent, e);
      assert r.roles[e.sequence - 1].assignee == Some(agent) && r.roles[e.sequence - 1].role == e.role;
      assert own == e.sequence;
    }
  }

  /** An execution nobody disturbs does persist its result: the fence does not keep good results out. */
  lemma UndisturbedPersists(s: Shop, e: Envelope, ok: bool, text: string, evidence: seq<string>,
                            claimed: Time, acked: Time, ended: Time)
    requires Completion.OncePerRole(Rows(s).roles) && Rows(s).task.status !in OVER
    requires e.recipient !in s.execs && e.recipient in Claim(s, e, claimed).execs
    requires ClaimedSequence(Rows(s).roles, e.recipient, e.role) > 0
    ensures var sequence := ClaimedSequence(Rows(s).roles, e.recipient, e.role);
            var later := Applied(Acknowledged(Claim(s, e, claimed), e.recipient, true, acked), e.recipient, ok, text, evidence, ended);
            && HasRole(Rows(later), sequence)
            && RoleAt(Rows(later), sequence).status == (if ok then RolePASS else RoleFAIL)
            && |later.results| == |s.results| + 1 && later.results[|s.results|].finished == sequence
  {
    var agent, after := e.recipient, Claim(s, e, claimed);
    ClaimTakesRow(s, e, claimed);
    var acknowledged := Acknowledged(after, agent, true, acked);
    assert Rows(acknowledged) == Rows(after) && Rows(after).task.status !in OVER;
    assert Completion.OncePerRole(Rows(acknowledged).roles) by {
      EnteredGrowsRoles(Rows(s), agent, ClaimedSequence(Rows(s).roles, agent, e.role), claimed);
    }
    PersistsIff(acknowledged, agent, ok, text, evidence, ended);
  }

  lemma EnteredGrowsRoles(r: Records, agent: AgentId, sequence: nat, now: Time)
    ensures |Entered(r, agent, sequence, now).roles| == |r.roles|
    ensures forall i :: 0 <= i < |r.roles| ==> Entered(r, agent, sequence, now).roles[i].role == r.roles[i].role
  {
  }
}
