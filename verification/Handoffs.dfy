/** What is sent can be claimed: envelopes agree with the durable row they are addressed to. */
module Handoffs {
  import opened Domain
  import opened TaskLifecycle
  import opened Worker
  import opened Watchdog
  import Completion
  import Fencing

  // ---------------------------------------------------------------- accepting an envelope

  /** The recipient finds its own row of the named role and the claim check lets it have it. */
  predicate Accepted(r: Records, m: Envelope) {
    var n := ClaimedSequence(r.roles, m.recipient, m.role);
    HasRole(r, n) && m.role == Some(RoleAt(r, n).role) && Claimable(r, m)
  }

  /** The recipient holds the row of the named role. */
  predicate Addressed(r: Records, m: Envelope) {
    exists i :: 0 <= i < |r.roles| && m.role == Some(r.roles[i].role) && r.roles[i].assignee == Some(m.recipient)
  }

  /** The envelope names a row's role and that row's round. */
  predicate Agrees(r: Records, m: Envelope) {
    exists i :: 0 <= i < |r.roles| && m.role == Some(r.roles[i].role) && r.roles[i].round == m.round
  }

  /** An envelope that agrees with a row is accepted exactly by the agent that holds the row. */
  lemma AcceptedIff(r: Records, m: Envelope)
    requires Completion.OncePerRole(r.roles) && Agrees(r, m)
    ensures Accepted(r, m) <==> Addressed(r, m)
  {
    if Addressed(r, m) {
      var i :| 0 <= i < |r.roles| && m.role == Some(r.roles[i].role) && r.roles[i].round == m.round;
      var j :| 0 <= j < |r.roles| && m.role == Some(r.roles[j].role) && r.roles[j].assignee == Some(m.recipient);
      assert i == j;
      var n := Held(r.roles, m.recipient, m.role, 1);
      assert n == j + 1;
    }
    if Accepted(r, m) {
      var n := ClaimedSequence(r.roles, m.recipient, m.role);
      assert r.roles[n - 1].assignee == Some(m.recipient) by {
        assert Held(r.roles, m.recipient, None, 1) > 0;
      }
    }
  }

  // ---------------------------------------------------------------- what is known between steps

  ghost predicate SameNames(a: seq<RoleRow>, b: seq<RoleRow>) {
    |a| == |b| && forall i :: 0 <= i < |a| ==> a[i].role == b[i].role
  }

  /** A snapshot's row is a row of the team, by number and name. */
  predicate Names(r: Records, snap: Snapshot) {
    HasRole(r, snap.sequence) && RoleAt(r, snap.sequence).role == snap.row.role
  }

  /** What live executions remember of the role rows and what passes remember of their row. */
  ghost predicate Remembers(s: System) {
    && RowsOf(s).team.Some? && Completion.OncePerRole(RowsOf(s).roles)
    && (forall agent :: agent in s.shop.execs && s.shop.execs[agent].stage.Finishing? ==>
          SameNames(s.shop.execs[agent].stage.seen, RowsOf(s).roles) && s.shop.execs[agent].stage.own <= |RowsOf(s).roles|)
    && (forall id :: id in s.passes ==> Names(RowsOf(s), s.passes[id].snapshot))
  }

  lemma OpenedRemembers(r: Records)
    requires r.team.Some? && Completion.OncePerRole(r.roles)
    ensures Remembers(Opened(r))
  {
  }

  /** Each execution and pass is an old one, or a new one that remembers the rows it was made from. */
  ghost predicate Carries(s: System, later: System) {
    && (forall agent :: agent in later.shop.execs && later.shop.execs[agent].stage.Finishing? ==>
          var x := later.shop.execs[agent].stage;
          (&& agent in s.shop.execs && s.shop.execs[agent].stage.Finishing?
           && s.shop.execs[agent].stage.seen == x.seen && s.shop.execs[agent].stage.own == x.own)
          || (x.seen == RowsOf(s).roles && x.own <= |RowsOf(s).roles|))
    && (forall id :: id in later.passes ==>
          (id in s.passes && s.passes[id].snapshot == later.passes[id].snapshot) || Names(RowsOf(s), later.passes[id].snapshot))
  }

  lemma RemembersOn(s: System, later: System)
    requires Remembers(s) && Carries(s, later) && Fencing.Grows(RowsOf(s), RowsOf(later))
    ensures Remembers(later)
  {
    Fencing.DistinctLater(RowsOf(s), RowsOf(later));
  }

  lemma StartCarries(s: System, id: PassId, p: Policy, sight: Sight, now: Time)
    ensures Carries(s, PassStarted(s, id, p, sight, now))
  {
    var sequence := RoleInQuestion(RowsOf(s), sight.gate);
    Fencing.PassStartedGrows(s, id, p, sight, now);
    if sequence > 0 {
      var snap := SnapshotOf(RowsOf(s), sequence, sight.classification);
      assert Names(RowsOf(s), snap);
      StartPasses(Observed(s, KeyOf(snap)), id, p, snap, sight, now);
    }
  }

  /** A pass enters the books with the snapshot it took, or not at all. */
  ghost predicate MayEnter(s: System, later: System, id: PassId, snap: Snapshot) {
    later.passes == s.passes || (exists at :: later.passes == s.passes[id := Pass(snap, at)])
  }

  lemma PursuePasses(s: System, id: PassId, p: Policy, snap: Snapshot, sight: Sight, now: Time)
    requires KeyOf(snap) in s.recovery
    ensures MayEnter(s, Pursued(s, id, p, snap, sight, now), id, snap)
  {
    if IsCurrent(RowsOf(s), snap) && sight.orphan && snap.row.role in {REVIEWER, ARCHITECT} {
      ReplayPasses(s, id, snap, sight, now);
    }
  }

  lemma ReplayPasses(s: System, id: PassId, snap: Snapshot, sight: Sight, now: Time)
    ensures MayEnter(s, Replayed(s, id, snap, sight, now), id, snap)
  {
  }

  lemma StartPasses(s: System, id: PassId, p: Policy, snap: Snapshot, sight: Sight, now: Time)
    requires KeyOf(snap) in s.recovery
    ensures MayEnter(s, Recovered(s, id, p, snap, sight, now), id, snap)
  {
    PursuePasses(Acquire(s, KeyOf(snap)), id, p, snap, sight, now);
  }

  lemma RedispatchPasses(s: System, id: PassId, snap: Snapshot, agent: AgentId, now: Time)
    ensures var later := Redispatched(s, id, snap, agent, now);
            later.passes == s.passes - {id} || later.passes == s.passes[id := Pass(snap, Sent(false))]
  {
  }

  lemma RoutePasses(s: System, id: PassId, p: Policy, g: Registry, now: Time)
    requires id in s.passes && s.passes[id].at.Routing? && KeyOf(s.passes[id].snapshot) in s.recovery
    ensures var later := PassRouted(s, id, p, g, now);
            later.passes == s.passes - {id} || later.passes == s.passes[id := Pass(s.passes[id].snapshot, Sent(false))]
  {
    var snap := s.passes[id].snapshot;
    var c := Chosen(RowsOf(s), snap, g);
    CarriedPasses(DecisionRecorded(s, snap, c), id, p, snap, c, now);
  }

  lemma CarriedPasses(s: System, id: PassId, p: Policy, snap: Snapshot, c: Choice, now: Time)
    requires KeyOf(snap) in s.recovery
    ensures var later := CarriedOut(s, id, p, snap, c, now);
            later.passes == s.passes - {id} || later.passes == s.passes[id := Pass(snap, Sent(false))]
  {
    if c.selected.Some? {
      RedispatchPasses(s, id, snap, c.selected.value, now);
    }
  }

  lemma RouteCarries(s: System, id: PassId, p: Policy, g: Registry, now: Time)
    ensures Carries(s, PassRouted(s, id, p, g, now))
  {
    Fencing.PassRoutedGrows(s, id, p, g, now);
    if id in s.passes && s.passes[id].at.Routing? && KeyOf(s.passes[id].snapshot) in s.recovery {
      RoutePasses(s, id, p, g, now);
    }
  }

  lemma FollowCarries(s: System, p: Policy, agent: AgentId, c: Circumstance)
    ensures Carries(s, Stepped(s, p, Follow(agent, c)))
  {
    if agent in s.shop.execs {
      var e := s.shop.execs[agent];
      if e.stage.Finishing? && e.stage.told && e.stage.own <= |e.stage.seen| {
        Fencing.ContinuedInherits(Projected(s.shop, c), agent, e, c);
      }
    }
  }

  lemma StepRemembers(s: System, p: Policy, a: Action)
    requires Remembers(s)
    ensures Remembers(Stepped(s, p, a))
  {
    Fencing.StepGrows(s, p, a);
    match a {
      case StartPass(id, sight, now) => StartCarries(s, id, p, sight, now);
      case RoutePass(id, g, now) => RouteCarries(s, id, p, g, now);
      case Follow(agent, c) => FollowCarries(s, p, agent, c);
      case _ => OtherwiseCarries(s, p, a);
    }
    RemembersOn(s, Stepped(s, p, a));
  }

  lemma OtherwiseCarries(s: System, p: Policy, a: Action)
    requires !a.StartPass? && !a.RoutePass? && !a.Follow?
    ensures Carries(s, Stepped(s, p, a))
  {
    match a
    case Deliver(e, now) => ClaimCarries(s, e, now);
    case AckSent(agent, bound, now) => AcknowledgedCarries(s, agent, bound, now);
    case ResultReady(agent, ok, text, evidence, now) => AppliedCarries(s, agent, ok, text, evidence, now);
    case TellVerdict(agent) => ToldCarries(s, agent);
    case _ => QuietCarries(s, p, a);
  }

  lemma QuietCarries(s: System, p: Policy, a: Action)
    requires a.WorkerEnds? || a.EndPass? || a.AbortPass? || a.Schedule? || a.Move? || a.Touch? || a.MakeTeam? || a.Assign?
    ensures Carries(s, Stepped(s, p, a))
  {
    FewerCarry(s, Stepped(s, p, a));
  }

  lemma ClaimCarries(s: System, e: Envelope, now: Time)
    ensures Carries(s, s.(shop := Claim(s.shop, e, now)))
  {
  }

  lemma AcknowledgedCarries(s: System, agent: AgentId, bound: bool, now: Time)
    ensures Carries(s, s.(shop := Acknowledged(s.shop, agent, bound, now)))
  {
  }

  lemma AppliedCarries(s: System, agent: AgentId, ok: bool, text: string, evidence: seq<string>, now: Time)
    ensures Carries(s, s.(shop := Applied(s.shop, agent, ok, text, evidence, now)))
  {
  }

  lemma ToldCarries(s: System, agent: AgentId)
    ensures Carries(s, s.(shop := Told(s.shop, agent)))
  {
  }

  /** A step that adds no execution and no pass. */
  lemma FewerCarry(s: System, later: System)
    requires forall agent :: agent in later.shop.execs ==> agent in s.shop.execs && later.shop.execs[agent] == s.shop.execs[agent]
    requires forall id :: id in later.passes ==> id in s.passes && later.passes[id] == s.passes[id]
    ensures Carries(s, later)
  {
  }

  lemma {:induction false} RunRemembers(s: System, p: Policy, actions: seq<Action>)
    requires Remembers(s)
    ensures Remembers(Run(s, p, actions))
  {
    if actions != [] {
      RunRemembers(s, p, actions[..|actions| - 1]);
      StepRemembers(Run(s, p, actions[..|actions| - 1]), p, actions[|actions| - 1]);
    }
  }

  // ---------------------------------------------------------------- what a step sends

  /** The step sent at most one envelope, and it agrees with the row it is about; `strictly`, with its holder too. */
  ghost predicate Sends(s: Shop, later: Shop, strictly: bool) {
    later.mail == s.mail ||
    (|later.mail| == |s.mail| + 1 && later.mail[..|s.mail|] == s.mail &&
     var m := later.mail[|s.mail|];
     m.kind == EXPERT_INVITE || (Agrees(Rows(later), m) && (strictly || m.kind == TASK ==> Addressed(Rows(later), m))))
  }

  lemma QaSends(s: Shop, next: nat, c: Circumstance)
    requires HasRole(Rows(s), next) && RoleAt(Rows(s), next).assignee.Some?
    ensures Sends(s, SentToQa(s, next, c), true)
  {
    var later := SentToQa(s, next, c);
    if later.mail != s.mail {
      assert Rows(later).roles[next - 1].round == RoleAt(Rows(s), next).round;
    }
  }

  lemma HandOnSends(s: Shop, seen: seq<RoleRow>, target: nat, kind: Handoff, round: nat)
    requires SameNames(seen, Rows(s).roles)
    requires target == 0 || (target <= |seen| && seen[target - 1].assignee.Some?)
    ensures Sends(s, HandedOn(s, seen, target, kind, round), false)
    ensures var later := HandedOn(s, seen, target, kind, round);
            Completion.OncePerRole(Rows(s).roles) && target > 0 ==>
              (Addressed(Rows(later), later.mail[|s.mail|]) <==> RoleAt(Rows(s), target).assignee == seen[target - 1].assignee)
  {
    if target > 0 {
      var later := HandedOn(s, seen, target, kind, round);
      assert Rows(later).roles[target - 1].role == seen[target - 1].role && Rows(later).roles[target - 1].round == round;
    }
  }

  lemma ReviewSends(s: Shop, e: Exec, next: nat, c: Circumstance)
    ensures Sends(s, ReviewPassed(s, e, next, c), true)
  {
    if HasRole(Rows(s), next) && RoleAt(Rows(s), next).assignee.Some? {
      QaSends(s, next, c);
    }
  }

  lemma ContinueSends(s: Shop, agent: AgentId, e: Exec, c: Circumstance)
    requires e.stage.Finishing? && e.stage.own <= |e.stage.seen| && SameNames(e.stage.seen, Rows(s).roles)
    ensures Sends(s, Continued(s, agent, e, c), false)
  {
    if e.role == REVIEWER && e.stage.ok {
      ReviewSends(s, e, NextOf(s, e), c);
    } else {
      var (kind, round) := DecideHandoff(e.role, e.stage.ok, e.envelopeRound);
      HandOnSends(s, e.stage.seen, TargetOf(s, e), kind, round);
    }
  }

  lemma FollowSends(s: Shop, agent: AgentId, c: Circumstance)
    requires agent in s.execs && s.execs[agent].stage.Finishing? ==> SameNames(s.execs[agent].stage.seen, Rows(s).roles)
    ensures Sends(s, Followed(s, agent, c), false)
  {
    Fencing.ProjectedGrows(s, c);
    if agent in s.execs {
      var e := s.execs[agent];
      if e.stage.Finishing? && e.stage.told && e.stage.own <= |e.stage.seen| {
        ContinueSends(Projected(s, c), agent, e, c);
      }
    }
  }

  lemma ReplaySends(s: System, id: PassId, snap: Snapshot, sight: Sight, now: Time)
    ensures Sends(s.shop, Replayed(s, id, snap, sight, now).shop, true)
  {
    var r := RowsOf(s);
    var previous := if snap.sequence <= |r.roles| then LastImplementer(r.roles, snap.sequence) else 0;
    if sight.missing && previous > 0 && snap.row.assignee.Some? {
      var later := Replayed(s, id, snap, sight, now);
      assert RowsOf(later).roles[previous - 1].role == r.roles[previous - 1].role;
    }
  }

  lemma RecoverSends(s: System, id: PassId, p: Policy, snap: Snapshot, sight: Sight, now: Time)
    requires KeyOf(snap) in s.recovery
    ensures Sends(s.shop, Recovered(s, id, p, snap, sight, now).shop, true)
  {
    var key := KeyOf(snap);
    if s.recovery[key].retries < p.maxRecoveries && !s.recovery[key].wake && IsCurrent(RowsOf(s), snap) {
      if sight.orphan && snap.row.role in {REVIEWER, ARCHITECT} {
        ReplaySends(Acquire(s, key), id, snap, sight, now);
      }
    }
  }

  lemma StartSends(s: System, id: PassId, p: Policy, sight: Sight, now: Time)
    ensures Sends(s.shop, PassStarted(s, id, p, sight, now).shop, true)
  {
    var sequence := RoleInQuestion(RowsOf(s), sight.gate);
    if sequence > 0 {
      var snap := SnapshotOf(RowsOf(s), sequence, sight.classification);
      RecoverSends(Observed(s, KeyOf(snap)), id, p, snap, sight, now);
    }
  }

  lemma RedispatchSends(s: System, id: PassId, snap: Snapshot, agent: AgentId, now: Time)
    requires IsCurrent(RowsOf(s), snap) && Names(RowsOf(s), snap)
    ensures Sends(s.shop, Redispatched(s, id, snap, agent, now).shop, true)
  {
    ReassignedAgrees(RowsOf(s), snap, agent, now);
  }

  lemma ReassignedAgrees(r: Records, snap: Snapshot, agent: AgentId, now: Time)
    requires Names(r, snap) && RoleAt(r, snap.sequence).round == snap.row.round
    ensures var later, m := Reassigned(r, snap, agent, now), Envelope(TASK, agent, Some(snap.row.role), snap.row.round);
            Agrees(later, m) && Addressed(later, m)
  {
    var row := Reassigned(r, snap, agent, now).roles[snap.sequence - 1];
    assert row.role == snap.row.role && row.round == snap.row.round && row.assignee == Some(agent);
  }

  lemma RouteSends(s: System, id: PassId, p: Policy, g: Registry, now: Time)
    requires id in s.passes ==> Names(RowsOf(s), s.passes[id].snapshot)
    ensures Sends(s.shop, PassRouted(s, id, p, g, now).shop, true)
  {
    if id in s.passes && s.passes[id].at.Routing? && KeyOf(s.passes[id].snapshot) in s.recovery {
      var snap := s.passes[id].snapshot;
      var c := Chosen(RowsOf(s), snap, g);
      var s1 := DecisionRecorded(s, snap, c);
      if c.selected.Some? && IsCurrent(RowsOf(s1), snap) {
        RedispatchSends(s1, id, snap, c.selected.value, now);
      }
    }
  }

  lemma ScheduleSends(s: System, sequence: nat, agent: Option<AgentId>, now: Time)
    ensures Sends(s.shop, Scheduled(s, sequence, agent, now).shop, true)
  {
    var later := Scheduled(s, sequence, agent, now);
    if later.shop.mail != s.shop.mail {
      var row := RowsOf(later).roles[sequence - 1];
      assert later.shop.mail[|s.shop.mail|] == Envelope(TASK, row.assignee.value, Some(row.role), row.round);
    }
  }

  lemma StepSends(s: System, p: Policy, a: Action)
    requires Remembers(s)
    ensures Sends(s.shop, Stepped(s, p, a).shop, !a.Follow?)
  {
    match a
    case StartPass(id, sight, now) => StartSends(s, id, p, sight, now);
    case RoutePass(id, g, now) => RouteSends(s, id, p, g, now);
    case Follow(agent, c) => FollowSends(s.shop, agent, c);
    case Schedule(sequence, routed, now) => ScheduleSends(s, sequence, routed, now);
    case _ => OtherwiseSends(s, p, a);
  }

  lemma OtherwiseSends(s: System, p: Policy, a: Action)
    requires !a.StartPass? && !a.RoutePass? && !a.Follow? && !a.Schedule?
    ensures Stepped(s, p, a).shop.mail == s.shop.mail
  {
  }

  /** The envelopes a step added. */
  function NewMail(s: System, later: System): seq<Envelope>
    requires |s.shop.mail| <= |later.shop.mail|
  {
    later.shop.mail[|s.shop.mail|..]
  }

  lemma SentIsClaimable(s: System, later: System, strictly: bool, m: Envelope)
    requires Sends(s.shop, later.shop, strictly) && Completion.OncePerRole(RowsOf(later).roles)
    requires |s.shop.mail| <= |later.shop.mail| && m in NewMail(s, later) && m.kind != EXPERT_INVITE
    ensures Accepted(RowsOf(later), m) <==> Addressed(RowsOf(later), m)
    ensures strictly || m.kind == TASK ==> Accepted(RowsOf(later), m)
  {
    assert m == later.shop.mail[|s.shop.mail|];
    AcceptedIff(RowsOf(later), m);
  }

  /**
   * In every reachable state, an envelope that a step sends (an expert invitation apart) names a row and
   * that row's round. So it is accepted, in the very state it was sent in, exactly by the agent that holds
   * the row; for scheduled, recovery, replay and QA envelopes that is always the recipient.
   */
  lemma MailIsClaimable(s: System, p: Policy, actions: seq<Action>, a: Action, m: Envelope)
    requires Remembers(s)
    requires var now := Run(s, p, actions); var later := Stepped(now, p, a);
             |now.shop.mail| <= |later.shop.mail| && m in NewMail(now, later) && m.kind != EXPERT_INVITE
    ensures var later := Stepped(Run(s, p, actions), p, a);
            && (Accepted(RowsOf(later), m) <==> Addressed(RowsOf(later), m))
            && (!a.Follow? || m.kind == TASK ==> Accepted(RowsOf(later), m))
  {
    RunRemembers(s, p, actions);
    var now := Run(s, p, actions);
    StepSends(now, p, a);
    StepRemembers(now, p, a);
    SentIsClaimable(now, Stepped(now, p, a), !a.Follow?, m);
  }

  /** A hand-off to a role that was reassigned after the outcome was applied reaches nobody who may claim it. */
  lemma HandoffReachesIff(s: Shop, seen: seq<RoleRow>, target: nat, kind: Handoff, round: nat)
    requires SameNames(seen, Rows(s).roles) && Completion.OncePerRole(Rows(s).roles)
    requires 0 < target <= |seen| && seen[target - 1].assignee.Some?
    ensures var later := HandedOn(s, seen, target, kind, round);
            |later.mail| == |s.mail| + 1 &&
            (Accepted(Rows(later), later.mail[|s.mail|]) <==> RoleAt(Rows(s), target).assignee == seen[target - 1].assignee)
  {
    HandOnSends(s, seen, target, kind, round);
    var later := HandedOn(s, seen, target, kind, round);
    HandOnNames(s, seen, target, kind, round);
    AcceptedIff(Rows(later), later.mail[|s.mail|]);
  }

  lemma HandOnNames(s: Shop, seen: seq<RoleRow>, target: nat, kind: Handoff, round: nat)
    requires Completion.OncePerRole(Rows(s).roles)
    requires 0 < target <= |seen| && seen[target - 1].assignee.Some?
    ensures Completion.OncePerRole(Rows(HandedOn(s, seen, target, kind, round)).roles)
  {
  }

  /** The only row between two sequence numbers, exclusive, that could be meant. */
  ghost predicate NearestAfter(seen: seq<RoleRow>, own: nat, target: nat) {
    own < target <= |seen| && seen[target - 1].assignee.Some? && forall i :: own <= i < target - 1 ==> seen[i].assignee.None?
  }

  ghost predicate NearestImplementer(seen: seq<RoleRow>, own: nat, target: nat) {
    0 < target < own && own <= |seen| && seen[target - 1].assignee.Some? && seen[target - 1].role in IMPLEMENTERS &&
    forall i :: target <= i < own - 1 ==> !(seen[i].assignee.Some? && seen[i].role in IMPLEMENTERS)
  }

  /**
   * Within the budget, a passing implementer's outcome goes to the nearest assigned role after it, which is
   * reopened in the same round; a failing one goes nowhere.
   */
  lemma ImplementationGoesTo(s: Shop, agent: AgentId, e: Exec, c: Circumstance, target: nat)
    requires e.stage.Finishing? && 0 < e.stage.own <= |e.stage.seen| && c.budget && e.role in IMPLEMENTERS
    requires SameNames(e.stage.seen, Rows(s).roles) && NearestAfter(e.stage.seen, e.stage.own, target)
    ensures var later, row := Continued(s, agent, e, c), e.stage.seen[target - 1];
            && (e.stage.ok ==>
                  && later.mail == s.mail + [Envelope(HANDOFF, row.assignee.value, Some(row.role), e.envelopeRound)]
                  && RoleAt(Rows(later), target).round == e.envelopeRound && RoleAt(Rows(later), target).status == ACTIVE)
            && (!e.stage.ok ==> later == s)
  {
    assert NextAssigned(e.stage.seen, e.stage.own, e.stage.own + 1) == target;
  }

  /** A failing review goes back to the nearest implementer before it, which is reopened one round up. */
  lemma RevisionGoesTo(s: Shop, agent: AgentId, e: Exec, c: Circumstance, target: nat)
    requires e.stage.Finishing? && 0 < e.stage.own <= |e.stage.seen| && c.budget && e.role == REVIEWER && !e.stage.ok
    requires SameNames(e.stage.seen, Rows(s).roles) && NearestImplementer(e.stage.seen, e.stage.own, target)
    ensures var later, row := Continued(s, agent, e, c), e.stage.seen[target - 1];
            && later.mail == s.mail + [Envelope(REVISION_REQUEST, row.assignee.value, Some(row.role), e.envelopeRound + 1)]
            && RoleAt(Rows(later), target).round == e.envelopeRound + 1 && RoleAt(Rows(later), target).status == ACTIVE
  {
    assert LastImplementer(e.stage.seen, e.stage.own) == target;
  }

  /**
   * An ARCHITECT never hands on to the next role: whether it passed or not, it sends a revision request
   * to the last implementer before it, and nothing at all if there is none.
   */
  lemma ArchitectHandsBack(s: Shop, agent: AgentId, e: Exec, c: Circumstance)
    requires e.role == ARCHITECT && e.stage.Finishing? && e.stage.own <= |e.stage.seen| && c.budget
    ensures var back, later := LastImplementer(e.stage.seen, e.stage.own), Continued(s, agent, e, c);
            && (back == 0 ==> later == s)
            && (back > 0 ==> |later.mail| == |s.mail| + 1 && later.mail[|s.mail|].kind == REVISION_REQUEST
                             && later.mail[|s.mail|].role == Some(e.stage.seen[back - 1].role))
  {
  }
}
