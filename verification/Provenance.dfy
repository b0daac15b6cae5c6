/** Where persisted results come from, over whole runs, and which row they finish. */
module Provenance {
  import opened Domain
  import opened TaskLifecycle
  import opened Worker
  import opened Watchdog
  import Completion
  import Fencing

  /** The row an outcome finishes, 0 for none: the agent's own row of the executed role, unless it passed before. */
  function FinishedRow(r: Records, agent: AgentId, e: Exec): nat {
    var own := OwnRow(r, agent, e);
    if own > 0 && RoleAt(r, own).status != RolePASS then own else 0
  }

  /** With the claimed row still the execution's, no other row can be finished. */
  lemma ClaimedRowOrNone(r: Records, agent: AgentId, e: Exec)
    requires Completion.OncePerRole(r.roles) && Fencing.HoldsRow(r, e) && Current(r, agent, e)
    ensures FinishedRow(r, agent, e) == if RoleAt(r, e.sequence).status != RolePASS then e.sequence else 0
  {
    assert r.roles[e.sequence - 1].assignee == Some(agent) && r.roles[e.sequence - 1].role == e.role;
  }

  /**
   * A persisted result finishes a row other than the claimed one exactly when no row of the executed role
   * was claimed and the agent has come to hold an unfinished row of that role since.
   */
  lemma FinishesAnotherRowIff(s: Shop, agent: AgentId, ok: bool, text: string, evidence: seq<string>, now: Time)
    requires Completion.OncePerRole(Rows(s).roles) && agent in s.execs
    ensures var e, later := s.execs[agent], Applied(s, agent, ok, text, evidence, now);
            (|later.results| > |s.results| && later.results[|s.results|].finished !in {0, e.sequence}) <==>
            (Current(Rows(s), agent, e) && !Fencing.HoldsRow(Rows(s), e) && FinishedRow(Rows(s), agent, e) > 0)
  {
    var e := s.execs[agent];
    if Current(Rows(s), agent, e) && Fencing.HoldsRow(Rows(s), e) {
      ClaimedRowOrNone(Rows(s), agent, e);
    }
  }

  // ---------------------------------------------------------------- over a run

  /** Step `k` of the run persisted the outcome, of an execution that was current in that very step. */
  ghost predicate WasCurrent(s: System, p: Policy, actions: seq<Action>, k: int, o: Outcome) {
    0 <= k < |actions| && actions[k].ResultReady? && actions[k].agent == o.agent &&
    var before := Run(s, p, actions[..k]).shop;
    && o.agent in before.execs && before.execs[o.agent] == o.exec
    && Current(Rows(before), o.agent, o.exec) && o.finished == FinishedRow(Rows(before), o.agent, o.exec)
  }

  lemma AppliedResult(s: Shop, agent: AgentId, ok: bool, text: string, evidence: seq<string>, now: Time)
    ensures var later := Applied(s, agent, ok, text, evidence, now);
            later.results == s.results ||
            (&& agent in s.execs && Current(Rows(s), agent, s.execs[agent])
             && later.results == s.results + [Outcome(agent, s.execs[agent], ok, FinishedRow(Rows(s), agent, s.execs[agent]))])
  {
  }

  /** Every result of every run was current when it was persisted, and finished its agent's own row of the role. */
  lemma {:induction false} ResultsWereCurrent(s: System, p: Policy, actions: seq<Action>, i: nat)
    requires |s.shop.results| <= i < |Run(s, p, actions).shop.results|
    ensures exists k :: WasCurrent(s, p, actions, k, Run(s, p, actions).shop.results[i])
  {
    if actions != [] {
      var n := |actions| - 1;
      var init, a := actions[..n], actions[n];
      var mid := Run(s, p, init);
      Fencing.StepInherits(mid, p, a);
      if i < |mid.shop.results| {
        ResultsWereCurrent(s, p, init, i);
        var k :| WasCurrent(s, p, init, k, mid.shop.results[i]);
        assert init[..k] == actions[..k];
        assert WasCurrent(s, p, actions, k, mid.shop.results[i]);
      } else {
        AppliedResult(mid.shop, a.agent, a.ok, a.text, a.evidence, a.now);
        assert WasCurrent(s, p, actions, n, Run(s, p, actions).shop.results[i]);
      }
    }
  }

  // ---------------------------------------------------------------- executions that hold their row

  /** Every envelope of the run reaches an agent that holds a role row at that moment. */
  ghost predicate ReachesHolders(s: System, p: Policy, actions: seq<Action>) {
    forall k :: 0 <= k < |actions| ==> HolderAt(Run(s, p, actions[..k]), actions[k])
  }

  predicate HolderAt(s: System, a: Action) {
    a.Deliver? ==> ClaimedSequence(RowsOf(s).roles, a.envelope.recipient, a.envelope.role) > 0
  }

  ghost predicate AllHold(s: System) {
    forall agent :: agent in s.shop.execs ==> Fencing.HoldsRow(RowsOf(s), s.shop.execs[agent])
  }

  /** Every execution is an old one at a later stage, or holds its row. */
  ghost predicate KeepsHolding(s: Shop, later: Shop) {
    forall agent :: agent in later.execs ==>
      || (agent in s.execs && later.execs[agent] == s.execs[agent].(stage := later.execs[agent].stage))
      || Fencing.HoldsRow(Rows(later), later.execs[agent])
  }

  lemma ClaimHolds(s: Shop, e: Envelope, now: Time)
    requires ClaimedSequence(Rows(s).roles, e.recipient, e.role) > 0
    ensures KeepsHolding(s, Claim(s, e, now))
  {
    if e.recipient !in s.execs && e.recipient in Claim(s, e, now).execs {
      Fencing.ClaimTakesRow(s, e, now);
    }
  }

  lemma FollowHolds(s: Shop, agent: AgentId, c: Circumstance)
    ensures KeepsHolding(s, Followed(s, agent, c))
  {
    if agent in s.execs {
      var e := s.execs[agent];
      if e.stage.Finishing? && e.stage.told && e.stage.own <= |e.stage.seen| {
        Fencing.ContinuedInherits(Projected(s, c), agent, e, c);
      }
    }
  }

  lemma AcknowledgedHolds(s: Shop, agent: AgentId, bound: bool, now: Time)
    ensures KeepsHolding(s, Acknowledged(s, agent, bound, now))
  {
  }

  lemma ToldHolds(s: Shop, agent: AgentId)
    ensures KeepsHolding(s, Told(s, agent))
  {
  }

  lemma AppliedHolds(s: Shop, agent: AgentId, ok: bool, text: string, evidence: seq<string>, now: Time)
    ensures KeepsHolding(s, Applied(s, agent, ok, text, evidence, now))
  {
  }

  lemma PassesHold(s: System, p: Policy, a: Action)
    requires !Fencing.Outside(a) || a.Schedule?
    ensures Stepped(s, p, a).shop.execs == s.shop.execs
  {
    match a
    case StartPass(id, sight, now) => Fencing.PassStartedGrows(s, id, p, sight, now);
    case RoutePass(id, g, now) => Fencing.PassRoutedGrows(s, id, p, g, now);
    case Schedule(sequence, routed, now) => Fencing.ScheduledGrows(s, sequence, routed, now);
    case _ =>
  }

  lemma FewerHold(s: Shop, later: Shop)
    requires later.execs == s.execs || exists agent :: later.execs == s.execs - {agent}
    ensures KeepsHolding(s, later)
  {
  }

  lemma StepKeepsHolding(s: System, p: Policy, a: Action)
    requires HolderAt(s, a)
    ensures KeepsHolding(s.shop, Stepped(s, p, a).shop)
  {
    match a
    case Deliver(e, now) => ClaimHolds(s.shop, e, now);
    case AckSent(agent, bound, now) => AcknowledgedHolds(s.shop, agent, bound, now);
    case ResultReady(agent, ok, text, evidence, now) => AppliedHolds(s.shop, agent, ok, text, evidence, now);
    case TellVerdict(agent) => ToldHolds(s.shop, agent);
    case Follow(agent, c) => FollowHolds(s.shop, agent, c);
    case _ =>
      if !Fencing.Outside(a) || a.Schedule? {
        PassesHold(s, p, a);
      }
      FewerHold(s.shop, Stepped(s, p, a).shop);
  }

  lemma HoldOn(s: System, later: System)
    requires RowsOf(s).team.Some? && AllHold(s) && KeepsHolding(s.shop, later.shop)
    requires Fencing.Grows(RowsOf(s), RowsOf(later))
    ensures AllHold(later)
  {
  }

  /** The team is planned, with a role at most once, and every execution holds its row. */
  ghost predicate Staffed(s: System) {
    RowsOf(s).team.Some? && Completion.OncePerRole(RowsOf(s).roles) && AllHold(s)
  }

  /** Not planned yet: there are no rows, and nobody executes or recovers anything. */
  predicate Unplanned(s: System) {
    RowsOf(s).team.None? && RowsOf(s).roles == [] && s.shop.execs == map[] && s.passes == map[]
  }

  lemma StepStaffed(s: System, p: Policy, a: Action)
    requires Staffed(s) && HolderAt(s, a)
    ensures Staffed(Stepped(s, p, a))
  {
    StepKeepsHolding(s, p, a);
    Fencing.StepGrows(s, p, a);
    HoldOn(s, Stepped(s, p, a));
    Fencing.DistinctLater(RowsOf(s), RowsOf(Stepped(s, p, a)));
  }

  lemma OthersPlan(r: Records, a: Action)
    requires r.team.None? && r.roles == []
    ensures var later := ByOthers(r, a);
            (later.team.None? && later.roles == []) || (later.team.Some? && Completion.OncePerRole(later.roles))
  {
  }

  /** Without rows, envelopes that need a holder do not arrive, and only planning the team changes anything. */
  lemma StepUnplanned(s: System, p: Policy, a: Action)
    requires Unplanned(s) && HolderAt(s, a)
    ensures Unplanned(Stepped(s, p, a)) || Staffed(Stepped(s, p, a))
  {
    OthersPlan(RowsOf(s), a);
    if a.AbortPass? {
      assert s.passes - {a.id} == map[];
    }
    if a.WorkerEnds? {
      assert s.shop.execs - {a.agent} == map[];
    }
  }

  lemma {:induction false} RunHolds(s: System, p: Policy, actions: seq<Action>)
    requires (Unplanned(s) || Staffed(s)) && ReachesHolders(s, p, actions)
    ensures Unplanned(Run(s, p, actions)) || Staffed(Run(s, p, actions))
  {
    if actions != [] {
      var n := |actions| - 1;
      HoldersPrefix(s, p, actions, n);
      RunHolds(s, p, actions[..n]);
      var mid := Run(s, p, actions[..n]);
      assert HolderAt(mid, actions[n]);
      if Staffed(mid) {
        StepStaffed(mid, p, actions[n]);
      } else {
        StepUnplanned(mid, p, actions[n]);
      }
    }
  }

  lemma HoldersPrefix(s: System, p: Policy, actions: seq<Action>, n: nat)
    requires n <= |actions| && ReachesHolders(s, p, actions)
    ensures ReachesHolders(s, p, actions[..n])
  {
    forall k | 0 <= k < n ensures HolderAt(Run(s, p, actions[..n][..k]), actions[..n][k]) {
      assert actions[..n][..k] == actions[..k];
      assert HolderAt(Run(s, p, actions[..k]), actions[k]);
    }
  }

  /** The outcome finished the row of its role that its execution had claimed, unless that had passed already. */
  ghost predicate Rightful(before: Records, o: Outcome) {
    && Fencing.HoldsRow(before, o.exec)
    && o.finished == (if RoleAt(before, o.exec.sequence).status != RolePASS then o.exec.sequence else 0)
  }

  ghost predicate RightfulAt(s: System, p: Policy, actions: seq<Action>, k: int, o: Outcome) {
    WasCurrent(s, p, actions, k, o) && Rightful(RowsOf(Run(s, p, actions[..k])), o)
  }

  /**
   * In every run whose envelopes reach agents with a role, from a planned or an unplanned task on: every
   * persisted result was current when it was persisted, and it finished the row its execution had claimed,
   * or none if that row had passed already.
   */
  lemma ResultsFinishClaimedRows(r: Records, p: Policy, actions: seq<Action>, i: nat)
    requires (r.team.None? && r.roles == []) || (r.team.Some? && Completion.OncePerRole(r.roles))
    requires ReachesHolders(Opened(r), p, actions)
    requires i < |Run(Opened(r), p, actions).shop.results|
    ensures exists k :: RightfulAt(Opened(r), p, actions, k, Run(Opened(r), p, actions).shop.results[i])
  {
    var s, o := Opened(r), Run(Opened(r), p, actions).shop.results[i];
    ResultsWereCurrent(s, p, actions, i);
    var k :| WasCurrent(s, p, actions, k, o);
    HoldersPrefix(s, p, actions, k);
    RunHolds(s, p, actions[..k]);
    var before := Run(s, p, actions[..k]);
    assert o.agent in before.shop.execs;
    ClaimedRowOrNone(RowsOf(before), o.agent, o.exec);
    assert RightfulAt(s, p, actions, k, o);
  }
}
