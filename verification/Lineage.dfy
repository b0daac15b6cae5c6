/** Who may take over a role in a recovery, and how often somebody new can be found. */
module Lineage {
  import opened Domain
  import opened Routing
  import opened TaskLifecycle
  import opened Worker
  import opened Watchdog
  import Completion

  // ---------------------------------------------------------------- what routing is told

  /** The rows routing hears of: earlier roles that passed, later reservations for review and QA. */
  predicate Counts(x: RoleRow, k: nat, sequence: nat) {
    x.assignee.Some? && ((k < sequence && x.status == RolePASS) || (k > sequence && x.role in {REVIEWER, QA}))
  }

  lemma {:induction false} PriorHolds(roles: seq<RoleRow>, sequence: nat)
    requires Completion.OncePerRole(roles)
    ensures forall i :: 0 <= i < |roles| && Counts(roles[i], i + 1, sequence) ==>
              roles[i].role in PriorTo(roles, sequence) && PriorTo(roles, sequence)[roles[i].role] == roles[i].assignee.value
    ensures forall x :: x in PriorTo(roles, sequence) ==>
              exists i :: 0 <= i < |roles| && roles[i].role == x && Counts(roles[i], i + 1, sequence)
                          && roles[i].assignee == Some(PriorTo(roles, sequence)[x])
  {
    if roles != [] {
      var init, last := roles[..|roles| - 1], roles[|roles| - 1];
      PriorHolds(init, sequence);
      var rest, all := PriorTo(init, sequence), PriorTo(roles, sequence);
      forall i | 0 <= i < |roles| && Counts(roles[i], i + 1, sequence)
        ensures roles[i].role in all && all[roles[i].role] == roles[i].assignee.value
      {
        if i < |init| {
          assert init[i] == roles[i] && roles[i].role != last.role;
        }
      }
      forall x | x in all
        ensures exists i :: 0 <= i < |roles| && roles[i].role == x && Counts(roles[i], i + 1, sequence)
                            && roles[i].assignee == Some(all[x])
      {
        if Counts(last, |roles|, sequence) && x == last.role {
          assert roles[|roles| - 1].assignee == Some(all[x]);
        } else {
          var i :| 0 <= i < |init| && init[i].role == x && Counts(init[i], i + 1, sequence) && init[i].assignee == Some(rest[x]);
          assert roles[i] == init[i];
        }
      }
    }
  }

  /** Whatever it was that chose: the chosen agent is none of those the request excludes or separates. */
  lemma ChosenIsApart(r: Records, snap: Snapshot, g: Registry)
    requires DistinctAgents(g.agents) && Chosen(r, snap, g).selected.Some?
    ensures var c, prior := Chosen(r, snap, g), PriorTo(r.roles, snap.sequence);
            && c.selected.value !in Separated(snap.row.role, prior)
            && (snap.row.role == QA ==> c.selected.value !in prior.Values)
            && (!c.again ==> c.selected.value !in Excluded(r, snap))
            && (c.again ==> snap.classification in SAME_WORKER_RETRYABLE && snap.row.assignee.Some?)
  {
    var excluded := Excluded(r, snap);
    var strict := Ask(r, snap, g, excluded + g.failed);
    var loose := Ask(r, snap, g, excluded);
    var same := Ask(r, snap, g, if snap.row.role == QA then PriorTo(r.roles, snap.sequence).Values else {});
    if Choose(strict).0.Some? {
      SelectedIsEligible(strict);
    }
    if Choose(loose).0.Some? {
      SelectedIsEligible(loose);
    }
    if Choose(same).0.Some? {
      SelectedIsEligible(same);
    }
  }

  /**
   * A recovered role that does product work never goes to an agent reserved for a later review or QA; a
   * recovered QA never goes to an agent that passed an earlier role.
   */
  lemma RecoverySeparates(r: Records, snap: Snapshot, g: Registry, i: nat)
    requires Completion.OncePerRole(r.roles) && DistinctAgents(g.agents) && i < |r.roles| && r.roles[i].assignee.Some?
    requires Chosen(r, snap, g).selected.Some?
    ensures snap.row.role in EXECUTION_ROLES && i + 1 > snap.sequence && r.roles[i].role in {REVIEWER, QA} ==>
              Chosen(r, snap, g).selected != r.roles[i].assignee
    ensures snap.row.role == QA && i + 1 < snap.sequence && r.roles[i].status == RolePASS ==>
              Chosen(r, snap, g).selected != r.roles[i].assignee
  {
    var prior := PriorTo(r.roles, snap.sequence);
    PriorHolds(r.roles, snap.sequence);
    ChosenIsApart(r, snap, g);
    if Counts(r.roles[i], i + 1, snap.sequence) {
      var role := r.roles[i].role;
      assert prior[role] in prior.Values;
      if role in {REVIEWER, QA} {
        assert prior[role] in Holders(prior, {REVIEWER, QA});
      }
    }
  }

  /** An agent whose latest attempt failed takes over only when no other agent could. */
  lemma FailedAreLastResort(r: Records, snap: Snapshot, g: Registry, a: AgentRecord)
    requires DistinctAgents(g.agents)
    requires var c := Chosen(r, snap, g); c.selected.Some? && !c.again && c.selected.value in g.failed
    requires a in g.agents && Candidate(a, Ask(r, snap, g, Excluded(r, snap)))
    ensures a.id in g.failed
  {
    var strict := Ask(r, snap, g, Excluded(r, snap) + g.failed);
    if Choose(strict).0.Some? {
      SelectedIsEligible(strict);
    }
    BestOfPrefix(strict.agents, strict);
    if a.id !in g.failed {
      StricterCandidate(r, snap, g, a);
    }
  }

  lemma StricterCandidate(r: Records, snap: Snapshot, g: Registry, a: AgentRecord)
    requires Candidate(a, Ask(r, snap, g, Excluded(r, snap))) && a.id !in g.failed
    ensures Candidate(a, Ask(r, snap, g, Excluded(r, snap) + g.failed))
  {
  }

  /** Anybody who ever held or was selected for the role returns only as the same worker that never really started. */
  lemma ReturnsOnlyUnstarted(r: Records, snap: Snapshot, g: Registry)
    requires DistinctAgents(g.agents)
    requires var c := Chosen(r, snap, g);
             c.selected.Some? && (c.selected == snap.row.assignee || c.selected.value in History(r.decisions, snap.sequence))
    ensures Chosen(r, snap, g).again
    ensures snap.classification in
            {RECEIVED_BUT_NOT_STARTED, STALE_INBOUND, CLAIMED_BUT_NOT_STARTED, ACTIVE_NO_PROGRESS}
  {
    ChosenIsApart(r, snap, g);
  }

  // ---------------------------------------------------------------- the log of decisions only grows

  lemma HistoryGrows(decisions: seq<Recorded>, later: seq<Recorded>, sequence: nat)
    requires decisions <= later
    ensures History(decisions, sequence) <= History(later, sequence)
  {
    forall x | x in History(decisions, sequence) ensures x in History(later, sequence) {
      var i :| 0 <= i < |decisions| && decisions[i].sequence == sequence && decisions[i].decision.selected == Some(x);
      assert later[i] == decisions[i];
    }
  }

  lemma ProjectedDecides(s: Shop, c: Circumstance)
    ensures Rows(Projected(s, c)).decisions == Rows(s).decisions
  {
    if Rows(s).team.Some? {
      Completion.AcceptedWrites(s.ledger, true, c.now);
    }
  }

  lemma FollowedDecides(s: Shop, agent: AgentId, c: Circumstance)
    ensures Rows(Followed(s, agent, c)).decisions == Rows(s).decisions
  {
    ProjectedDecides(s, c);
    if agent in s.execs {
      var e := s.execs[agent];
      if e.stage.Finishing? && e.stage.told && e.stage.own <= |e.stage.seen| {
        ContinuedDecides(Projected(s, c), agent, e, c);
      }
    }
  }

  lemma ContinuedDecides(s: Shop, agent: AgentId, e: Exec, c: Circumstance)
    requires e.stage.Finishing? && e.stage.own <= |e.stage.seen|
    ensures Rows(Continued(s, agent, e, c)).decisions == Rows(s).decisions
  {
  }

  /** Decisions are only added, and the watchdog logged no choice. */
  ghost predicate Undecided(s: System, later: System) {
    && RowsOf(s).decisions <= RowsOf(later).decisions
    && s.log <= later.log && forall i :: |s.log| <= i < |later.log| ==> !later.log[i].Picked?
  }

  lemma StopUndecided(s: System, snap: Snapshot, now: Time)
    ensures Undecided(s, SafeStopped(s, snap, now))
  {
  }

  lemma ReplayUndecided(s: System, id: PassId, snap: Snapshot, sight: Sight, now: Time)
    ensures Undecided(s, Replayed(s, id, snap, sight, now))
  {
    StopUndecided(s, snap, now);
  }

  lemma RecoverUndecided(s: System, id: PassId, p: Policy, snap: Snapshot, sight: Sight, now: Time)
    requires KeyOf(snap) in s.recovery
    ensures Undecided(s, Recovered(s, id, p, snap, sight, now))
  {
    var key := KeyOf(snap);
    var s1 := Acquire(s, key);
    if s.recovery[key].retries >= p.maxRecoveries {
      StopUndecided(s, snap, now);
    } else if !s.recovery[key].wake && IsCurrent(RowsOf(s), snap) {
      if sight.orphan && snap.row.role in {REVIEWER, ARCHITECT} {
        ReplayUndecided(s1, id, snap, sight, now);
      } else {
        StopUndecided(s1, snap, now);
      }
    }
  }

  lemma AttendUndecided(s: System, id: PassId, p: Policy, snap: Snapshot, sight: Sight, now: Time)
    ensures Undecided(s, Attended(s, id, p, snap, sight, now))
  {
    RecoverUndecided(Observed(s, KeyOf(snap)), id, p, snap, sight, now);
  }

  lemma StartUndecided(s: System, id: PassId, p: Policy, sight: Sight, now: Time)
    ensures Undecided(s, PassStarted(s, id, p, sight, now))
  {
    var sequence := RoleInQuestion(RowsOf(s), sight.gate);
    if sequence > 0 {
      AttendUndecided(s, id, p, SnapshotOf(RowsOf(s), sequence, sight.classification), sight, now);
    }
  }

  lemma RedispatchUndecided(s: System, id: PassId, snap: Snapshot, agent: AgentId, now: Time)
    ensures Undecided(s, Redispatched(s, id, snap, agent, now))
  {
    var s1 := PutRows(s, Reassigned(RowsOf(s), snap, agent, now));
    StopUndecided(s1.(passes := s1.passes - {id}), snap, now);
  }

  /** A routing step that gets as far as deciding records the decision first, and decides nothing else. */
  lemma RouteDecides(s: System, id: PassId, p: Policy, g: Registry, now: Time)
    requires id in s.passes && s.passes[id].at.Routing? && KeyOf(s.passes[id].snapshot) in s.recovery
    ensures var snap := s.passes[id].snapshot;
            Undecided(DecisionRecorded(s, snap, Chosen(RowsOf(s), snap, g)), PassRouted(s, id, p, g, now))
  {
    var snap := s.passes[id].snapshot;
    var c := Chosen(RowsOf(s), snap, g);
    var s1 := DecisionRecorded(s, snap, c);
    StopUndecided(s1.(passes := s1.passes - {id}), snap, now);
    if c.selected.Some? {
      RedispatchUndecided(s1, id, snap, c.selected.value, now);
    }
  }

  // ---------------------------------------------------------------- how often somebody new is found

  /** How often the role was given to somebody new, as opposed to the same worker again. */
  function NewPicks(log: seq<Entry>, sequence: nat): nat {
    if log == [] then 0
    else
      var last := log[|log| - 1];
      NewPicks(log[..|log| - 1], sequence) + (if last.Picked? && last.sequence == sequence && !last.again then 1 else 0)
  }

  function NewlyPicked(log: seq<Entry>, sequence: nat): set<AgentId> {
    set i | 0 <= i < |log| && log[i].Picked? && log[i].sequence == sequence && !log[i].again :: log[i].agent
  }

  /** Nobody is new twice, and whoever was new is remembered. */
  ghost predicate Remembered(s: System, sequence: nat) {
    && NewPicks(s.log, sequence) == |NewlyPicked(s.log, sequence)|
    && NewlyPicked(s.log, sequence) <= History(RowsOf(s).decisions, sequence)
  }

  lemma {:induction false} MorePicks(log: seq<Entry>, later: seq<Entry>, sequence: nat)
    requires log <= later && forall i :: |log| <= i < |later| ==> !later[i].Picked?
    ensures NewPicks(later, sequence) == NewPicks(log, sequence)
    ensures NewlyPicked(later, sequence) == NewlyPicked(log, sequence)
  {
    if |later| > |log| {
      var init := later[..|later| - 1];
      MorePicks(log, init, sequence);
      assert forall i :: 0 <= i < |init| ==> init[i] == later[i];
      assert NewlyPicked(later, sequence) == NewlyPicked(init, sequence);
    } else {
      assert later == log;
    }
  }

  lemma UndecidedRemembers(s: System, later: System, sequence: nat)
    requires Undecided(s, later) && Remembered(s, sequence)
    ensures Remembered(later, sequence)
  {
    MorePicks(s.log, later.log, sequence);
    HistoryGrows(RowsOf(s).decisions, RowsOf(later).decisions, sequence);
  }

  /** A choice that says so is of somebody who was not chosen before. */
  lemma RecordedRemembers(s: System, snap: Snapshot, g: Registry, sequence: nat)
    requires DistinctAgents(g.agents) && Remembered(s, sequence)
    ensures Remembered(DecisionRecorded(s, snap, Chosen(RowsOf(s), snap, g)), sequence)
  {
    var c := Chosen(RowsOf(s), snap, g);
    if c.selected.Some? {
      ChosenIsApart(RowsOf(s), snap, g);
    }
    ChoiceRemembers(s, snap, c, sequence);
  }

  lemma ChoiceRemembers(s: System, snap: Snapshot, c: Choice, sequence: nat)
    requires Remembered(s, sequence)
    requires c.selected.Some? && !c.again ==> c.selected.value !in History(RowsOf(s).decisions, snap.sequence)
    ensures Remembered(DecisionRecorded(s, snap, c), sequence)
  {
    var later := DecisionRecorded(s, snap, c);
    var entry := Recorded(snap.sequence, snap.row.role, Decision(c.selected, c.code, []));
    assert RowsOf(later).decisions == RowsOf(s).decisions + [entry];
    HistoryGrows(RowsOf(s).decisions, RowsOf(later).decisions, sequence);
    if c.selected.Some? {
      assert RowsOf(later).decisions[|RowsOf(s).decisions|] == entry;
      OnePick(s.log, Picked(snap.sequence, c.selected.value, c.again), sequence);
    }
  }

  lemma OnePick(log: seq<Entry>, pick: Entry, sequence: nat)
    requires pick.Picked?
    ensures NewPicks(log + [pick], sequence) ==
            NewPicks(log, sequence) + (if pick.sequence == sequence && !pick.again then 1 else 0)
    ensures NewlyPicked(log + [pick], sequence) ==
            NewlyPicked(log, sequence) + (if pick.sequence == sequence && !pick.again then {pick.agent} else {})
  {
    var all := log + [pick];
    assert all[..|log|] == log && all[|log|] == pick;
    assert forall i :: 0 <= i < |log| ==> all[i] == log[i];
  }

  lemma StepRemembers(s: System, p: Policy, a: Action, sequence: nat)
    requires Remembered(s, sequence) && (a.RoutePass? ==> DistinctAgents(a.registry.agents))
    ensures Remembered(Stepped(s, p, a), sequence)
  {
    var later := Stepped(s, p, a);
    match a {
      case StartPass(id, sight, now) =>
        StartUndecided(s, id, p, sight, now);
        UndecidedRemembers(s, later, sequence);
      case RoutePass(id, g, now) =>
        if id in s.passes && s.passes[id].at.Routing? && KeyOf(s.passes[id].snapshot) in s.recovery {
          var snap := s.passes[id].snapshot;
          RouteDecides(s, id, p, g, now);
          RecordedRemembers(s, snap, g, sequence);
          UndecidedRemembers(DecisionRecorded(s, snap, Chosen(RowsOf(s), snap, g)), later, sequence);
        }
      case Follow(agent, c) =>
        FollowedDecides(s.shop, agent, c);
        UndecidedRemembers(s, later, sequence);
      case _ =>
        OtherwiseUndecided(s, p, a);
        UndecidedRemembers(s, later, sequence);
    }
  }

  lemma SameUndecided(s: System, later: System)
    requires later.log == s.log && RowsOf(s).decisions <= RowsOf(later).decisions
    ensures Undecided(s, later)
  {
  }

  lemma ClaimDecides(s: Shop, e: Envelope, now: Time)
    ensures Rows(Claim(s, e, now)).decisions == Rows(s).decisions
  {
  }

  lemma AppliedDecides(s: Shop, agent: AgentId, ok: bool, text: string, evidence: seq<string>, now: Time)
    ensures Rows(Applied(s, agent, ok, text, evidence, now)).decisions == Rows(s).decisions
  {
  }

  lemma AcknowledgedDecides(s: Shop, agent: AgentId, bound: bool, now: Time)
    ensures Rows(Acknowledged(s, agent, bound, now)).decisions == Rows(s).decisions
  {
  }

  lemma OthersDecide(r: Records, a: Action)
    ensures ByOthers(r, a).decisions == r.decisions
  {
  }

  /** The scheduler may decide, but the watchdog logs no choice for it. */
  lemma ScheduleDecides(s: System, sequence: nat, agent: Option<AgentId>, now: Time)
    ensures RowsOf(s).decisions <= RowsOf(Scheduled(s, sequence, agent, now)).decisions
    ensures Scheduled(s, sequence, agent, now).log == s.log
  {
  }

  lemma OtherwiseUndecided(s: System, p: Policy, a: Action)
    requires !a.StartPass? && !a.RoutePass? && !a.Follow?
    ensures Undecided(s, Stepped(s, p, a))
  {
    var later := Stepped(s, p, a);
    match a {
      case Deliver(e, now) => ClaimDecides(s.shop, e, now);
      case AckSent(agent, bound, now) => AcknowledgedDecides(s.shop, agent, bound, now);
      case ResultReady(agent, ok, text, evidence, now) => AppliedDecides(s.shop, agent, ok, text, evidence, now);
      case TellVerdict(_) =>
      case Schedule(sequence, routed, now) => ScheduleDecides(s, sequence, routed, now);
      case _ => OthersDecide(RowsOf(s), a);
    }
    SameUndecided(s, later);
  }

  lemma {:induction false} RunRemembers(s: System, p: Policy, actions: seq<Action>, sequence: nat)
    requires Remembered(s, sequence)
    requires forall i :: 0 <= i < |actions| && actions[i].RoutePass? ==> DistinctAgents(actions[i].registry.agents)
    ensures Remembered(Run(s, p, actions), sequence)
  {
    if actions != [] {
      var init := actions[..|actions| - 1];
      assert forall i :: 0 <= i < |init| ==> init[i] == actions[i];
      RunRemembers(s, p, init, sequence);
      StepRemembers(Run(s, p, init), p, actions[|actions| - 1], sequence);
    }
  }

  lemma FourAgents(s: set<AgentId>)
    ensures |s| <= 4
  {
    var all := {CODEX, CLAUDE_CODE, OPENCODE, COMMAND_CODE};
    forall a | a in s ensures a in all {
      match a
      case CODEX =>
      case CLAUDE_CODE =>
      case OPENCODE =>
      case COMMAND_CODE =>
    }
    var rest := all - s;
    assert |all| == |s| + |rest| by {
      assert all == s + rest;
    }
  }

  /** Over every run, whatever restarts or overlaps, a role is given to somebody new at most four times. */
  lemma NewcomersRunOut(s: System, p: Policy, actions: seq<Action>, sequence: nat)
    requires s.log == []
    requires forall i :: 0 <= i < |actions| && actions[i].RoutePass? ==> DistinctAgents(actions[i].registry.agents)
    ensures NewPicks(Run(s, p, actions).log, sequence) <= 4
  {
    RunRemembers(s, p, actions, sequence);
    FourAgents(NewlyPicked(Run(s, p, actions).log, sequence));
  }
}
