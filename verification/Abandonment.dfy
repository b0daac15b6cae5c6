/** What becomes of a recovery row whose pass was cut short: it stays awake with nobody behind it. */
module Abandonment {
  import opened Domain
  import opened TaskLifecycle
  import opened Worker
  import opened Watchdog
  import opened Asides
  import Fencing
  import RecoveryBounds
  import RecoveryEnds

  /** Awake with retries left, and no pass is under way for the row. */
  ghost predicate Abandoned(s: System, p: Policy, key: Key) {
    && key in s.recovery && s.recovery[key].wake && s.recovery[key].retries < p.maxRecoveries
    && NoPass(s, key)
  }

  lemma AsideKeeps(s: System, p: Policy, later: System, key: Key)
    requires Abandoned(s, p, key) && Aside(s, later, key)
    ensures Abandoned(later, p, key)
  {
  }

  // ---------------------------------------------------------------- how it comes about

  /**
   * A pass that is cut short while it waits for the health check, with retries left after its own, leaves
   * its row abandoned: nothing after the throw clears the wake flag.
   */
  lemma ThrowAbandons(s: System, p: Policy, id: PassId, sight: Sight, now: Time, key: Key)
    requires RecoveryEnds.Stuck(s, sight, key) && NoPass(s, key) && id !in s.passes
    requires !RowOf(s, key).wake && RowOf(s, key).retries + 1 < p.maxRecoveries && !sight.live && !sight.orphan
    requires IsCurrent(RowsOf(s), SnapshotOf(RowsOf(s), key.0, sight.classification))
    ensures var waiting := Stepped(s, p, StartPass(id, sight, now));
            && id in waiting.passes && waiting.passes[id].at.Routing?
            && Abandoned(Stepped(waiting, p, AbortPass(id)), p, key)
  {
    var snap := SnapshotOf(RowsOf(s), key.0, sight.classification);
    var waiting := Stepped(s, p, StartPass(id, sight, now));
    assert waiting == Recovered(Observed(s, key), id, p, snap, sight, now);
    assert waiting.passes == s.passes[id := Pass(snap, Await.Routing)];
    assert waiting.passes - {id} == s.passes;
  }

  /** A pass that does not observe progress leaves an abandoned row alone. */
  lemma StartAside(s: System, id: PassId, p: Policy, sight: Sight, now: Time, key: Key)
    requires Abandoned(s, p, key) && (sight.progress ==> sight.actionable)
    ensures Aside(s, PassStarted(s, id, p, sight, now), key)
  {
    var sequence := RoleInQuestion(RowsOf(s), sight.gate);
    if sequence > 0 {
      var snap := SnapshotOf(RowsOf(s), sequence, sight.classification);
      if KeyOf(snap) != key {
        AttendAside(s, id, p, snap, sight, now, key);
      }
    }
  }

  lemma StepAside(s: System, p: Policy, a: Action, key: Key)
    requires Abandoned(s, p, key) && (a.StartPass? && a.sight.progress ==> a.sight.actionable)
    ensures Aside(s, Stepped(s, p, a), key)
  {
    match a
    case StartPass(id, sight, now) => StartAside(s, id, p, sight, now, key);
    case RoutePass(id, g, now) => Asides.RouteAside(s, id, p, g, now, key);
    case EndPass(id, delivered) =>
    case AbortPass(id) =>
    case _ => Fencing.OutsideStep(s, p, a);
  }

  // ---------------------------------------------------------------- and what it means

  /** No pass of the run finds the task making progress. */
  ghost predicate SeesNoProgress(actions: seq<Action>) {
    forall i :: 0 <= i < |actions| && actions[i].StartPass? && actions[i].sight.progress ==> actions[i].sight.actionable
  }

  /**
   * An abandoned row is never recovered, refunded or given up again, for as long as no pass observes
   * progress: every later pass for it is suppressed as a duplicate.
   */
  lemma {:induction false} AbandonedForGood(s: System, p: Policy, actions: seq<Action>, key: Key)
    requires Abandoned(s, p, key) && SeesNoProgress(actions)
    ensures Abandoned(Run(s, p, actions), p, key) && Aside(s, Run(s, p, actions), key)
  {
    if actions != [] {
      var init, a := actions[..|actions| - 1], actions[|actions| - 1];
      assert forall i :: 0 <= i < |init| ==> init[i] == actions[i];
      AbandonedForGood(s, p, init, key);
      var mid := Run(s, p, init);
      StepAside(mid, p, a, key);
      AsideKeeps(mid, p, Stepped(mid, p, a), key);
      AsideOn(s, mid, Run(s, p, actions), key);
    }
  }

  /** With the retries used up the wake flag does not matter: the next pass still gives the task up. */
  lemma UsedUpStillStops(s: System, p: Policy, id: PassId, sight: Sight, now: Time, key: Key)
    requires RecoveryEnds.Stuck(s, sight, key) && id !in s.passes
    requires key in s.recovery && s.recovery[key].retries >= p.maxRecoveries
    ensures StoppedIn(Stepped(s, p, StartPass(id, sight, now)).log, key)
  {
    StopShows(s, SnapshotOf(RowsOf(s), key.0, sight.classification), now);
  }

  /** One observation of progress puts the row to sleep again. */
  lemma ProgressReclaims(s: System, p: Policy, id: PassId, sight: Sight, now: Time)
    requires id !in s.passes && s.watching && sight.budget && !sight.hold && !sight.actionable && sight.progress
    requires RowsOf(s).task.status !in OVER + {HUMAN_GATE} && RoleInQuestion(RowsOf(s), sight.gate) > 0
    ensures var sequence := RoleInQuestion(RowsOf(s), sight.gate);
            RecoveryBounds.Asleep(Stepped(s, p, StartPass(id, sight, now)), (sequence, RoleAt(RowsOf(s), sequence).round))
  {
  }
}
