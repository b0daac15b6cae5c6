/** Revision rounds of an implementer and its reviewer stay within one of each other. */
module Rounds {
  import opened Domain
  import opened TaskLifecycle
  import opened Worker
  import opened Watchdog
  import Completion
  import Fencing
  import Handoffs
  import Provenance

  /** A step, with the application of an outcome and its hand-off taken as one. */
  datatype Turn =
    | Plain(action: Action)
    | Conclude(agent: AgentId, ok: bool, text: string, evidence: seq<string>, now: Time, circumstance: Circumstance)

  function Concluded(s: Shop, agent: AgentId, ok: bool, text: string, evidence: seq<string>, now: Time, c: Circumstance): Shop {
    Followed(Told(Applied(s, agent, ok, text, evidence, now), agent), agent, c)
  }

  /** Envelopes go to agents that hold a role in the team. */
  function Turned(s: System, p: Policy, t: Turn): System {
    match t
    case Conclude(agent, ok, text, evidence, now, c) => s.(shop := Concluded(s.shop, agent, ok, text, evidence, now, c))
    case Plain(a) =>
      if a.ResultReady? || a.TellVerdict? || a.Follow? then s
      else if a.Deliver? && ClaimedSequence(RowsOf(s).roles, a.envelope.recipient, a.envelope.role) == 0 then s
      else Stepped(s, p, a)
  }

  function AfterTurns(s: System, p: Policy, turns: seq<Turn>): System {
    if turns == [] then s
    else Turned(AfterTurns(s, p, turns[..|turns| - 1]), p, turns[|turns| - 1])
  }

  // ---------------------------------------------------------------- the invariant

  /** An implementer, its reviewer and perhaps QA; the implementer is level or one revision ahead. */
  predicate Paired(roles: seq<RoleRow>) {
    && 2 <= |roles| <= 3 && roles[0].role in IMPLEMENTERS && roles[1].role == REVIEWER
    && (|roles| == 3 ==> roles[2].role == QA)
    && 0 <= roles[0].round - roles[1].round <= 1
  }

  /** Role names and rounds are untouched. */
  predicate Level(r: Records, later: Records) {
    |later.roles| == |r.roles| &&
    forall i :: 0 <= i < |r.roles| ==> later.roles[i].role == r.roles[i].role && later.roles[i].round == r.roles[i].round
  }

  lemma LevelStaysPaired(r: Records, later: Records)
    requires Level(r, later) && Paired(r.roles)
    ensures Paired(later.roles)
  {
  }

  /** Executions at rest: none is between applying its outcome and handing on, each holds its row and its round. */
  ghost predicate AtRest(s: System) {
    forall agent :: agent in s.shop.execs ==>
      var e := s.shop.execs[agent];
      !e.stage.Finishing? && Fencing.HoldsRow(RowsOf(s), e) && e.round == e.envelopeRound
  }

  ghost predicate Orderly(s: System) {
    && RowsOf(s).team.Some? && Paired(RowsOf(s).roles) && AtRest(s)
    && forall id :: id in s.passes ==> Handoffs.Names(RowsOf(s), s.passes[id].snapshot)
  }

  lemma OpenedIsOrderly(r: Records)
    requires r.team.Some? && Paired(r.roles)
    ensures Orderly(Opened(r))
  {
  }

  lemma PairedIsDistinct(roles: seq<RoleRow>)
    requires Paired(roles)
    ensures Completion.OncePerRole(roles)
  {
  }

  // ---------------------------------------------------------------- an outcome and its hand-off

  /** An implementer's outcome goes past it, a failed review's goes to the implementer; QA and others stay put. */
  lemma TargetFits(s: Shop, e: Exec)
    requires Paired(Rows(s).roles) && e.stage.Finishing? && 1 <= e.stage.own <= |e.stage.seen|
    requires Handoffs.SameNames(e.stage.seen, Rows(s).roles)
    requires RoleAt(Rows(s), e.stage.own).role == e.role && !(e.role == REVIEWER && e.stage.ok)
    ensures e.role in IMPLEMENTERS ==> e.stage.own == 1 && TargetOf(s, e) != 1
    ensures e.role == REVIEWER ==> e.stage.own == 2 && TargetOf(s, e) <= 1
  {
  }

  lemma HandedPairs(s: Shop, seen: seq<RoleRow>, target: nat, kind: Handoff, round: nat)
    requires target == 0 || (target <= |seen| && seen[target - 1].assignee.Some?)
    requires Paired(Rows(s).roles)
    requires target == 1 ==> 0 <= round - Rows(s).roles[1].round <= 1
    requires target == 2 ==> 0 <= Rows(s).roles[0].round - round <= 1
    ensures Paired(Rows(HandedOn(s, seen, target, kind, round)).roles)
  {
  }

  /** Handing on keeps the pair, when the outcome's round is its own row's round. */
  lemma HandOnPairs(s: Shop, agent: AgentId, e: Exec, c: Circumstance)
    requires Paired(Rows(s).roles) && e.stage.Finishing? && 1 <= e.stage.own <= |e.stage.seen|
    requires Handoffs.SameNames(e.stage.seen, Rows(s).roles)
    requires RoleAt(Rows(s), e.stage.own).role == e.role && RoleAt(Rows(s), e.stage.own).round == e.envelopeRound
    ensures Paired(Rows(Continued(s, agent, e, c)).roles)
  {
    if c.budget && !(e.role == REVIEWER && e.stage.ok) {
      var target := TargetOf(s, e);
      var (kind, round) := DecideHandoff(e.role, e.stage.ok, e.envelopeRound);
      TargetFits(s, e);
      HandedPairs(s, e.stage.seen, target, kind, round);
    } else if c.budget {
      ReviewLevels(s, e, NextOf(s, e), c);
      LevelStaysPaired(Rows(s), Rows(ReviewPassed(s, e, NextOf(s, e), c)));
    }
  }

  lemma ReviewLevels(s: Shop, e: Exec, next: nat, c: Circumstance)
    ensures Level(Rows(s), Rows(ReviewPassed(s, e, next, c)))
  {
  }

  lemma AppliedLevels(s: Shop, agent: AgentId, ok: bool, text: string, evidence: seq<string>, now: Time)
    ensures Level(Rows(s), Rows(Applied(s, agent, ok, text, evidence, now)))
  {
  }

  /** An outcome that applies is its own row's, at that row's round. */
  lemma AppliedOwns(s: Shop, agent: AgentId, ok: bool, text: string, evidence: seq<string>, now: Time)
    requires Completion.OncePerRole(Rows(s).roles) && agent in s.execs
    requires Fencing.HoldsRow(Rows(s), s.execs[agent]) && s.execs[agent].round == s.execs[agent].envelopeRound
    requires !s.execs[agent].stage.Finishing?
    ensures var later, e := Applied(s, agent, ok, text, evidence, now), s.execs[agent];
            agent in later.execs && later.execs[agent].stage.Finishing? ==>
              && Current(Rows(s), agent, e) && later.execs[agent] == e.(stage := later.execs[agent].stage)
              && later.execs[agent].stage.own == e.sequence && later.execs[agent].stage.seen == Rows(s).roles
              && RoleAt(Rows(s), e.sequence).role == e.role && RoleAt(Rows(s), e.sequence).round == e.envelopeRound
  {
    var e, r := s.execs[agent], Rows(s);
    if Current(r, agent, e) {
      assert r.roles[e.sequence - 1].assignee == Some(agent) && r.roles[e.sequence - 1].role == e.role;
    }
  }

  lemma ToldKeeps(s: Shop, agent: AgentId)
    ensures var later := Told(s, agent);
            && Rows(later).roles == Rows(s).roles && later.execs.Keys == s.execs.Keys
            && (forall a :: a in s.execs && a != agent ==> later.execs[a] == s.execs[a])
            && (agent in s.execs && !s.execs[agent].stage.Finishing? ==> later == s)
            && (agent in s.execs && s.execs[agent].stage.Finishing? ==>
                  && later.execs[agent].stage.Finishing?
                  && later.execs[agent] == s.execs[agent].(stage := s.execs[agent].stage.(told := true)))
  {
  }

  lemma FollowPairs(s: Shop, agent: AgentId, c: Circumstance)
    requires Paired(Rows(s).roles)
    requires agent in s.execs && s.execs[agent].stage.Finishing? ==>
               var e := s.execs[agent];
               && 1 <= e.stage.own <= |e.stage.seen| && Handoffs.SameNames(e.stage.seen, Rows(s).roles)
               && RoleAt(Rows(s), e.stage.own).role == e.role && RoleAt(Rows(s), e.stage.own).round == e.envelopeRound
    ensures Paired(Rows(Followed(s, agent, c)).roles)
  {
    Fencing.ProjectedGrows(s, c);
    if agent in s.execs && s.execs[agent].stage.Finishing? && s.execs[agent].stage.told {
      HandOnPairs(Projected(s, c), agent, s.execs[agent], c);
    }
  }

  lemma ConcludePairs(s: System, agent: AgentId, ok: bool, text: string, evidence: seq<string>, now: Time, c: Circumstance)
    requires Orderly(s)
    ensures Paired(Rows(Concluded(s.shop, agent, ok, text, evidence, now, c)).roles)
  {
    var applied := Applied(s.shop, agent, ok, text, evidence, now);
    AppliedLevels(s.shop, agent, ok, text, evidence, now);
    LevelStaysPaired(RowsOf(s), Rows(applied));
    PairedIsDistinct(RowsOf(s).roles);
    ToldKeeps(applied, agent);
    if agent in s.shop.execs {
      AppliedOwns(s.shop, agent, ok, text, evidence, now);
    }
    FollowPairs(Told(applied, agent), agent, c);
  }

  lemma AppliedExecs(s: Shop, agent: AgentId, ok: bool, text: string, evidence: seq<string>, now: Time)
    ensures var later := Applied(s, agent, ok, text, evidence, now);
            || later.execs == s.execs
            || later.execs == s.execs - {agent}
            || (agent in s.execs && later.execs == s.execs[agent := later.execs[agent]]
                && later.execs[agent] == s.execs[agent].(stage := later.execs[agent].stage))
  {
  }

  lemma FollowExecs(s: Shop, agent: AgentId, c: Circumstance)
    ensures var later := Followed(s, agent, c);
            if agent in s.execs && s.execs[agent].stage.Finishing? && s.execs[agent].stage.told &&
               s.execs[agent].stage.own <= |s.execs[agent].stage.seen|
            then later.execs == s.execs[agent := s.execs[agent].(stage := Sending)] else later.execs == s.execs
  {
    if agent in s.execs && s.execs[agent].stage.Finishing? && s.execs[agent].stage.own <= |s.execs[agent].stage.seen| {
      Fencing.ContinuedInherits(Projected(s, c), agent, s.execs[agent], c);
    }
  }

  /** Where the concluded execution itself ends up. */
  lemma ConcludedExec(s: Shop, agent: AgentId, ok: bool, text: string, evidence: seq<string>, now: Time, c: Circumstance)
    requires Completion.OncePerRole(Rows(s).roles)
    requires agent in s.execs ==>
               && !s.execs[agent].stage.Finishing? && Fencing.HoldsRow(Rows(s), s.execs[agent])
               && s.execs[agent].round == s.execs[agent].envelopeRound
    ensures var later := Concluded(s, agent, ok, text, evidence, now, c);
            agent in later.execs ==>
              && agent in s.execs && !later.execs[agent].stage.Finishing?
              && later.execs[agent] == s.execs[agent].(stage := later.execs[agent].stage)
  {
    var applied := Applied(s, agent, ok, text, evidence, now);
    AppliedExecs(s, agent, ok, text, evidence, now);
    ToldKeeps(applied, agent);
    FollowExecs(Told(applied, agent), agent, c);
    if agent in s.execs {
      AppliedOwns(s, agent, ok, text, evidence, now);
    }
  }

  lemma OtherExecs(s: Shop, agent: AgentId, ok: bool, text: string, evidence: seq<string>, now: Time, c: Circumstance, a: AgentId)
    requires a != agent
    ensures var later := Concluded(s, agent, ok, text, evidence, now, c);
            (a in later.execs <==> a in s.execs) && (a in s.execs ==> later.execs[a] == s.execs[a])
  {
    var applied := Applied(s, agent, ok, text, evidence, now);
    AppliedExecs(s, agent, ok, text, evidence, now);
    ToldKeeps(applied, agent);
    FollowExecs(Told(applied, agent), agent, c);
  }

  lemma ConcludeRests(s: System, agent: AgentId, ok: bool, text: string, evidence: seq<string>, now: Time, c: Circumstance)
    requires Orderly(s)
    ensures var later := Concluded(s.shop, agent, ok, text, evidence, now, c);
            forall a :: a in later.execs ==>
              && a in s.shop.execs && !later.execs[a].stage.Finishing?
              && later.execs[a] == s.shop.execs[a].(stage := later.execs[a].stage)
  {
    PairedIsDistinct(RowsOf(s).roles);
    ConcludedExec(s.shop, agent, ok, text, evidence, now, c);
    forall a | a != agent && a in Concluded(s.shop, agent, ok, text, evidence, now, c).execs
      ensures a in s.shop.execs && Concluded(s.shop, agent, ok, text, evidence, now, c).execs[a] == s.shop.execs[a]
    {
      OtherExecs(s.shop, agent, ok, text, evidence, now, c, a);
    }
  }

  lemma RestsOn(s: System, later: System)
    requires Orderly(s) && Fencing.Grows(RowsOf(s), RowsOf(later))
    requires forall a :: a in later.shop.execs ==>
               && !later.shop.execs[a].stage.Finishing?
               && ((a in s.shop.execs && later.shop.execs[a] == s.shop.execs[a].(stage := later.shop.execs[a].stage)) ||
                   (Fencing.HoldsRow(RowsOf(later), later.shop.execs[a]) &&
                    later.shop.execs[a].round == later.shop.execs[a].envelopeRound))
    ensures AtRest(later)
  {
  }

  lemma NamesOn(s: System, later: System)
    requires Orderly(s) && Fencing.Grows(RowsOf(s), RowsOf(later)) && later.passes == s.passes
    ensures forall id :: id in later.passes ==> Handoffs.Names(RowsOf(later), later.passes[id].snapshot)
  {
  }

  lemma ConcludeKeeps(s: System, p: Policy, t: Turn)
    requires Orderly(s) && t.Conclude?
    ensures Orderly(Turned(s, p, t))
  {
    var later := Turned(s, p, t);
    ConcludePairs(s, t.agent, t.ok, t.text, t.evidence, t.now, t.circumstance);
    ConcludeRests(s, t.agent, t.ok, t.text, t.evidence, t.now, t.circumstance);
    ConcludeGrows(s, t.agent, t.ok, t.text, t.evidence, t.now, t.circumstance);
    RestsOn(s, later);
    NamesOn(s, later);
  }

  lemma ConcludeGrows(s: System, agent: AgentId, ok: bool, text: string, evidence: seq<string>, now: Time, c: Circumstance)
    ensures Fencing.Grows(RowsOf(s), Rows(Concluded(s.shop, agent, ok, text, evidence, now, c)))
  {
    var applied := Applied(s.shop, agent, ok, text, evidence, now);
    var told := Told(applied, agent);
    Fencing.AppliedGrows(s.shop, agent, ok, text, evidence, now);
    Fencing.GrowsOn(RowsOf(s), Rows(applied), Rows(told));
    Fencing.FollowedGrows(told, agent, c);
    Fencing.GrowsOn(RowsOf(s), Rows(told), Rows(Followed(told, agent, c)));
  }

  // ---------------------------------------------------------------- everything else

  lemma StoppedRowsLevel(r: Records, sequence: nat, now: Time)
    ensures Level(r, StoppedRows(r, sequence, now))
  {
  }

  lemma StopLevels(s: System, snap: Snapshot, now: Time)
    ensures Level(RowsOf(s), RowsOf(SafeStopped(s, snap, now)))
  {
    StoppedRowsLevel(RowsOf(s), snap.sequence, now);
  }

  lemma ReassignedLevel(r: Records, snap: Snapshot, agent: AgentId, now: Time)
    ensures Level(r, Reassigned(r, snap, agent, now))
  {
  }

  lemma RedispatchLevels(s: System, id: PassId, snap: Snapshot, agent: AgentId, now: Time)
    ensures Level(RowsOf(s), RowsOf(Redispatched(s, id, snap, agent, now)))
  {
    ReassignedLevel(RowsOf(s), snap, agent, now);
    var s1 := PutRows(s, Reassigned(RowsOf(s), snap, agent, now));
    StopLevels(s1.(passes := s1.passes - {id}), snap, now);
  }

  lemma RouteLevels(s: System, id: PassId, p: Policy, g: Registry, now: Time)
    ensures Level(RowsOf(s), RowsOf(PassRouted(s, id, p, g, now)))
  {
    if id in s.passes && s.passes[id].at.Routing? && KeyOf(s.passes[id].snapshot) in s.recovery {
      var snap := s.passes[id].snapshot;
      var c := Chosen(RowsOf(s), snap, g);
      var s1 := DecisionRecorded(s, snap, c);
      StopLevels(s1.(passes := s1.passes - {id}), snap, now);
      if c.selected.Some? {
        RedispatchLevels(s1, id, snap, c.selected.value, now);
      }
    }
  }

  /** A replayed revision request puts the implementer one ahead of the review it answers. */
  lemma ReplayPairs(s: System, id: PassId, snap: Snapshot, sight: Sight, now: Time)
    requires Paired(RowsOf(s).roles) && Handoffs.Names(RowsOf(s), snap) && snap.row.role in {REVIEWER, ARCHITECT}
    requires RoleAt(RowsOf(s), snap.sequence).round == snap.row.round
    ensures Paired(RowsOf(Replayed(s, id, snap, sight, now)).roles)
  {
    assert snap.sequence == 2;
    var previous := LastImplementer(RowsOf(s).roles, snap.sequence);
    if sight.missing && previous > 0 && snap.row.assignee.Some? {
      ReopenPairs(RowsOf(s), snap.row.round + 1);
    } else {
      StopLevels(s, snap, now);
      LevelStaysPaired(RowsOf(s), RowsOf(SafeStopped(s, snap, now)));
    }
  }

  lemma ReopenPairs(r: Records, round: nat)
    requires Paired(r.roles) && 0 <= round - r.roles[1].round <= 1
    ensures Paired(Reopened(r, 1, round).roles)
  {
  }

  lemma RecoverPairs(s: System, id: PassId, p: Policy, snap: Snapshot, sight: Sight, now: Time)
    requires Paired(RowsOf(s).roles) && Handoffs.Names(RowsOf(s), snap) && KeyOf(snap) in s.recovery
    ensures Paired(RowsOf(Recovered(s, id, p, snap, sight, now)).roles)
  {
    var key := KeyOf(snap);
    var s1 := Acquire(s, key);
    StopLevels(s, snap, now);
    LevelStaysPaired(RowsOf(s), RowsOf(SafeStopped(s, snap, now)));
    StopLevels(s1, snap, now);
    LevelStaysPaired(RowsOf(s1), RowsOf(SafeStopped(s1, snap, now)));
    if IsCurrent(RowsOf(s), snap) && sight.orphan && snap.row.role in {REVIEWER, ARCHITECT} {
      ReplayPairs(s1, id, snap, sight, now);
    }
  }

  lemma StartPairs(s: System, id: PassId, p: Policy, sight: Sight, now: Time)
    requires Paired(RowsOf(s).roles)
    ensures Paired(RowsOf(PassStarted(s, id, p, sight, now)).roles)
  {
    var sequence := RoleInQuestion(RowsOf(s), sight.gate);
    if sequence > 0 {
      var snap := SnapshotOf(RowsOf(s), sequence, sight.classification);
      RecoverPairs(Observed(s, KeyOf(snap)), id, p, snap, sight, now);
    }
  }

  /** The steps that neither send anything nor apply an outcome. */
  predicate Quiet(a: Action) {
    !a.StartPass? && !a.RoutePass? && !a.Follow? && !a.ResultReady? && !a.TellVerdict? && !a.Schedule?
  }

  lemma ScheduledLevels(s: System, sequence: nat, agent: Option<AgentId>, now: Time)
    ensures Level(RowsOf(s), RowsOf(Scheduled(s, sequence, agent, now)))
  {
  }

  lemma EnteredLevel(r: Records, agent: AgentId, sequence: nat, now: Time)
    ensures Level(r, Entered(r, agent, sequence, now))
  {
  }

  lemma ClaimLevels(s: Shop, e: Envelope, now: Time)
    ensures Level(Rows(s), Rows(Claim(s, e, now)))
  {
    EnteredLevel(Rows(s), e.recipient, ClaimedSequence(Rows(s).roles, e.recipient, e.role), now);
  }

  lemma AcknowledgedLevels(s: Shop, agent: AgentId, bound: bool, now: Time)
    ensures Level(Rows(s), Rows(Acknowledged(s, agent, bound, now)))
  {
  }

  lemma OthersLevel(r: Records, a: Action)
    requires r.team.Some?
    ensures Level(r, ByOthers(r, a))
  {
  }

  lemma QuietLevels(s: System, p: Policy, a: Action)
    requires Quiet(a) && RowsOf(s).team.Some?
    ensures Level(RowsOf(s), RowsOf(Stepped(s, p, a)))
  {
    match a
    case Deliver(e, now) => ClaimLevels(s.shop, e, now);
    case AckSent(agent, bound, now) => AcknowledgedLevels(s.shop, agent, bound, now);
    case _ => OthersLevel(RowsOf(s), a);
  }

  lemma PlainPairs(s: System, p: Policy, a: Action)
    requires Orderly(s) && !a.Follow? && !a.ResultReady? && !a.TellVerdict?
    ensures Paired(RowsOf(Stepped(s, p, a)).roles)
  {
    match a {
      case StartPass(id, sight, now) =>
        StartPairs(s, id, p, sight, now);
      case RoutePass(id, g, now) =>
        RouteLevels(s, id, p, g, now);
        LevelStaysPaired(RowsOf(s), RowsOf(Stepped(s, p, a)));
      case Schedule(sequence, routed, now) =>
        ScheduledLevels(s, sequence, routed, now);
        LevelStaysPaired(RowsOf(s), RowsOf(Stepped(s, p, a)));
      case _ =>
        QuietLevels(s, p, a);
        LevelStaysPaired(RowsOf(s), RowsOf(Stepped(s, p, a)));
    }
  }

  lemma DeliverRests(s: System, e: Envelope, now: Time)
    requires Orderly(s) && ClaimedSequence(RowsOf(s).roles, e.recipient, e.role) > 0
    ensures var later := Claim(s.shop, e, now);
            forall a :: a in later.execs ==>
              (a in s.shop.execs && later.execs[a] == s.shop.execs[a]) ||
              (later.execs[a].stage.Claimed? && Fencing.HoldsRow(Rows(later), later.execs[a]) &&
               later.execs[a].round == later.execs[a].envelopeRound)
  {
    if e.recipient !in s.shop.execs && e.recipient in Claim(s.shop, e, now).execs {
      Fencing.ClaimTakesRow(s.shop, e, now);
    }
  }

  lemma AckRests(s: System, agent: AgentId, bound: bool, now: Time)
    requires Orderly(s)
    ensures var later := Acknowledged(s.shop, agent, bound, now);
            forall a :: a in later.execs ==>
              && a in s.shop.execs && !later.execs[a].stage.Finishing?
              && later.execs[a] == s.shop.execs[a].(stage := later.execs[a].stage)
  {
  }

  /** Every other step leaves all executions as they are, or ends one. */
  lemma FewerRest(s: System, later: System)
    requires Orderly(s) && Fencing.Grows(RowsOf(s), RowsOf(later))
    requires later.shop.execs == s.shop.execs || exists agent :: later.shop.execs == s.shop.execs - {agent}
    ensures AtRest(later)
  {
  }

  lemma PlainRests(s: System, p: Policy, a: Action)
    requires Orderly(s) && !a.Follow? && !a.ResultReady? && !a.TellVerdict?
    requires a.Deliver? ==> ClaimedSequence(RowsOf(s).roles, a.envelope.recipient, a.envelope.role) > 0
    ensures AtRest(Stepped(s, p, a))
  {
    Fencing.StepGrows(s, p, a);
    match a {
      case Deliver(e, now) =>
        DeliverRests(s, e, now);
        RestsOn(s, Stepped(s, p, a));
      case AckSent(agent, bound, now) =>
        AckRests(s, agent, bound, now);
        RestsOn(s, Stepped(s, p, a));
      case _ =>
        if !Fencing.Outside(a) || a.Schedule? {
          Provenance.PassesHold(s, p, a);
        }
        FewerRest(s, Stepped(s, p, a));
    }
  }

  lemma TurnKeeps(s: System, p: Policy, t: Turn)
    requires Orderly(s)
    ensures Orderly(Turned(s, p, t))
  {
    match t
    case Conclude(_, _, _, _, _, _) =>
      ConcludeKeeps(s, p, t);
    case Plain(a) =>
      if Turned(s, p, t) != s {
        PlainPairs(s, p, a);
        PlainRests(s, p, a);
        PairedIsDistinct(RowsOf(s).roles);
        Handoffs.StepRemembers(s, p, a);
      }
  }

  /**
   * For a team of an implementer, its reviewer and perhaps QA, over every interleaving with outcomes
   * applied and handed on in one step: the implementer's round is the reviewer's or one more.
   */
  lemma {:induction false} RoundsStayPaired(s: System, p: Policy, turns: seq<Turn>)
    requires Orderly(s)
    ensures Orderly(AfterTurns(s, p, turns))
    ensures var roles := RowsOf(AfterTurns(s, p, turns)).roles;
            |roles| >= 2 && 0 <= roles[0].round - roles[1].round <= 1
  {
    if turns != [] {
      RoundsStayPaired(s, p, turns[..|turns| - 1]);
      TurnKeeps(AfterTurns(s, p, turns[..|turns| - 1]), p, turns[|turns| - 1]);
    }
  }
}
