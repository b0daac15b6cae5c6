/** Steps that leave one recovery row, and the pass that holds it, alone. */
module Asides {
  import opened Domain
  import opened TaskLifecycle
  import opened Worker
  import opened Watchdog
  import Fencing
  import Handoffs
  import RecoveryBounds

  // ---------------------------------------------------------------- aside of a row

  predicate Concerns(e: Entry, key: Key) {
    !e.Picked? && e.key == key
  }

  /** Neither the row, nor the log, nor a pass concerns the key any more than before. */
  ghost predicate Aside(s: System, later: System, key: Key) {
    && (key in s.recovery ==> key in later.recovery && later.recovery[key] == s.recovery[key])
    && s.log <= later.log && (forall i :: |s.log| <= i < |later.log| ==> !Concerns(later.log[i], key))
    && (forall id :: id in later.passes ==>
          (id in s.passes && later.passes[id].snapshot == s.passes[id].snapshot) || KeyOf(later.passes[id].snapshot) != key)
  }

  lemma AsideOn(s: System, mid: System, later: System, key: Key)
    requires key in s.recovery && Aside(s, mid, key) && Aside(mid, later, key)
    ensures Aside(s, later, key)
  {
  }

  lemma StopAside(s: System, snap: Snapshot, now: Time, key: Key)
    requires KeyOf(snap) != key
    ensures Aside(s, SafeStopped(s, snap, now), key)
  {
  }

  lemma ReplayAside(s: System, id: PassId, snap: Snapshot, sight: Sight, now: Time, key: Key)
    requires KeyOf(snap) != key
    ensures Aside(s, Replayed(s, id, snap, sight, now), key)
  {
    StopAside(s, snap, now, key);
  }

  lemma CancelAside(s: System, p: Policy, snap: Snapshot, terminated: bool, now: Time, key: Key)
    requires KeyOf(snap) != key && KeyOf(snap) in s.recovery
    ensures Aside(s, CancelAsked(s, p, snap, terminated, now), key)
  {
    StopAside(s, snap, now, key);
  }

  lemma RecoverAside(s: System, id: PassId, p: Policy, snap: Snapshot, sight: Sight, now: Time, key: Key)
    requires KeyOf(snap) != key && KeyOf(snap) in s.recovery && key in s.recovery
    ensures Aside(s, Recovered(s, id, p, snap, sight, now), key)
  {
    var own := KeyOf(snap);
    var s1 := Acquire(s, own);
    assert Aside(s, s1, key);
    if s.recovery[own].retries >= p.maxRecoveries {
      StopAside(s, snap, now, key);
    } else if !s.recovery[own].wake && IsCurrent(RowsOf(s), snap) {
      if sight.orphan && snap.row.role in {REVIEWER, ARCHITECT} {
        ReplayAside(s1, id, snap, sight, now, key);
        AsideOn(s, s1, Recovered(s, id, p, snap, sight, now), key);
      } else if sight.live {
        CancelAside(s1, p, snap, sight.terminated, now, key);
        AsideOn(s, s1, Recovered(s, id, p, snap, sight, now), key);
      }
    }
  }

  lemma AttendAside(s: System, id: PassId, p: Policy, snap: Snapshot, sight: Sight, now: Time, key: Key)
    requires KeyOf(snap) != key && key in s.recovery
    ensures Aside(s, Attended(s, id, p, snap, sight, now), key)
  {
    var s1 := Observed(s, KeyOf(snap));
    RecoverAside(s1, id, p, snap, sight, now, key);
    AsideOn(s, s1, Recovered(s1, id, p, snap, sight, now), key);
  }

  lemma RedispatchAside(s: System, id: PassId, snap: Snapshot, agent: AgentId, now: Time, key: Key)
    requires KeyOf(snap) != key && key in s.recovery
    ensures Aside(s, Redispatched(s, id, snap, agent, now), key)
  {
    var s1 := PutRows(s, Reassigned(RowsOf(s), snap, agent, now));
    var gone := s1.(passes := s1.passes - {id});
    StopAside(gone, snap, now, key);
    AsideOn(s, gone, SafeStopped(gone, snap, now), key);
  }

  lemma UnroutedAside(s: System, p: Policy, snap: Snapshot, busy: bool, now: Time, key: Key)
    requires KeyOf(snap) != key && KeyOf(snap) in s.recovery
    ensures Aside(s, Unrouted(s, p, snap, busy, now), key)
  {
    StopAside(s, snap, now, key);
  }

  lemma RecordedAside(s: System, snap: Snapshot, c: Choice, key: Key)
    ensures Aside(s, DecisionRecorded(s, snap, c), key)
  {
  }

  lemma CarriedAside(s: System, id: PassId, p: Policy, snap: Snapshot, c: Choice, now: Time, key: Key)
    requires KeyOf(snap) != key && KeyOf(snap) in s.recovery && key in s.recovery
    ensures Aside(s, CarriedOut(s, id, p, snap, c, now), key)
  {
    var gone := s.(passes := s.passes - {id});
    if c.selected.None? {
      UnroutedAside(gone, p, snap, c.busy, now, key);
      AsideOn(s, gone, CarriedOut(s, id, p, snap, c, now), key);
    } else if IsCurrent(RowsOf(s), snap) {
      RedispatchAside(s, id, snap, c.selected.value, now, key);
    }
  }

  /** Routing a pass that is not for the key. */
  lemma RouteAside(s: System, id: PassId, p: Policy, g: Registry, now: Time, key: Key)
    requires key in s.recovery && (id in s.passes ==> KeyOf(s.passes[id].snapshot) != key)
    ensures Aside(s, PassRouted(s, id, p, g, now), key)
  {
    if id in s.passes && s.passes[id].at.Routing? && KeyOf(s.passes[id].snapshot) in s.recovery {
      var snap := s.passes[id].snapshot;
      var c := Chosen(RowsOf(s), snap, g);
      var s1 := DecisionRecorded(s, snap, c);
      RecordedAside(s, snap, c, key);
      CarriedAside(s1, id, p, snap, c, now, key);
      AsideOn(s, s1, PassRouted(s, id, p, g, now), key);
    }
  }

  // ---------------------------------------------------------------- giving up stays on record

  predicate StoppedIn(log: seq<Entry>, key: Key) {
    exists i :: 0 <= i < |log| && log[i] == Stopped(key)
  }

  lemma StopShows(s: System, snap: Snapshot, now: Time)
    ensures StoppedIn(SafeStopped(s, snap, now).log, KeyOf(snap))
  {
    var log := SafeStopped(s, snap, now).log;
    assert log[|s.log|] == Stopped(KeyOf(snap));
  }

  lemma StillStopped(log: seq<Entry>, later: seq<Entry>, key: Key)
    requires StoppedIn(log, key) && log <= later
    ensures StoppedIn(later, key)
  {
    var i :| 0 <= i < |log| && log[i] == Stopped(key);
    assert later[i] == Stopped(key);
  }

  /** The log only grows. */
  lemma StepLogs(s: System, p: Policy, a: Action)
    ensures s.log <= Stepped(s, p, a).log
  {
    match a
    case StartPass(id, sight, now) => RecoveryBounds.StartChatters(s, id, p, sight, now);
    case RoutePass(id, g, now) => RecoveryBounds.RouteLogs(s, id, p, g, now);
    case EndPass(_, _) =>
    case AbortPass(_) =>
    case _ => Fencing.OutsideStep(s, p, a);
  }

  lemma {:induction false} RunLogs(s: System, p: Policy, actions: seq<Action>)
    ensures s.log <= Run(s, p, actions).log
  {
    if actions != [] {
      RunLogs(s, p, actions[..|actions| - 1]);
      StepLogs(Run(s, p, actions[..|actions| - 1]), p, actions[|actions| - 1]);
    }
  }

  // ---------------------------------------------------------------- alongside a pass

  function RowOf(s: System, key: Key): Recovery {
    if key in s.recovery then s.recovery[key] else Recovery(0, false, None, None)
  }

  /** No pass for the key is under way; none but `id`. */
  predicate NoPass(s: System, key: Key) {
    forall other :: other in s.passes ==> KeyOf(s.passes[other].snapshot) != key
  }

  predicate OnlyPass(s: System, key: Key, id: PassId) {
    forall other :: other in s.passes && other != id ==> KeyOf(s.passes[other].snapshot) != key
  }

  /** A pass started now would be about this role and round. */
  predicate About(s: System, sight: Sight, key: Key) {
    var sequence := RoleInQuestion(RowsOf(s), sight.gate);
    sequence > 0 && (sequence, RoleAt(RowsOf(s), sequence).round) == key
  }

  /**
   * A step that may happen beside the pass `id`: of workers and others, of a pass for another role or
   * round, or the start of a further pass for the same one while the first is awake, unless it sees progress.
   */
  predicate Alongside(s: System, a: Action, id: PassId, key: Key) {
    match a
    case StartPass(other, sight, _) =>
      other != id && (About(s, sight, key) ==> RowOf(s, key).wake && (sight.progress ==> sight.actionable))
    case RoutePass(other, _, _) => other != id
    case EndPass(other, _) => other != id
    case AbortPass(other) => other != id
    case _ => true
  }

  ghost predicate Beside(s: System, later: System, key: Key, id: PassId) {
    && Aside(s, later, key) && (id in later.passes <==> id in s.passes)
    && (id in s.passes ==> later.passes[id] == s.passes[id])
  }

  lemma BesideOn(s: System, mid: System, later: System, key: Key, id: PassId)
    requires key in s.recovery && Beside(s, mid, key, id) && Beside(mid, later, key, id)
    ensures Beside(s, later, key, id)
  {
    AsideOn(s, mid, later, key);
  }

  lemma BesideOnly(s: System, later: System, key: Key, id: PassId)
    requires Beside(s, later, key, id)
    ensures OnlyPass(s, key, id) ==> OnlyPass(later, key, id)
    ensures NoPass(s, key) && id !in s.passes ==> NoPass(later, key)
  {
  }

  lemma StartEnters(s: System, id: PassId, p: Policy, sight: Sight, now: Time, own: PassId)
    requires own != id
    ensures var later := PassStarted(s, id, p, sight, now);
            && (own in later.passes <==> own in s.passes) && (own in s.passes ==> later.passes[own] == s.passes[own])
  {
    var sequence := RoleInQuestion(RowsOf(s), sight.gate);
    if sequence > 0 {
      var snap := SnapshotOf(RowsOf(s), sequence, sight.classification);
      Handoffs.StartPasses(Observed(s, KeyOf(snap)), id, p, snap, sight, now);
    }
  }

  lemma StartBeside(s: System, p: Policy, other: PassId, sight: Sight, now: Time, id: PassId, key: Key)
    requires key in s.recovery && Alongside(s, StartPass(other, sight, now), id, key)
    ensures var later := PassStarted(s, other, p, sight, now);
            StoppedIn(later.log, key) || Beside(s, later, key, id)
  {
    StartEnters(s, other, p, sight, now, id);
    var sequence := RoleInQuestion(RowsOf(s), sight.gate);
    if sequence > 0 {
      var snap := SnapshotOf(RowsOf(s), sequence, sight.classification);
      if KeyOf(snap) != key {
        AttendAside(s, other, p, snap, sight, now, key);
      } else {
        Suppressed(s, p, other, snap, sight, now);
      }
    }
  }

  /** A further pass finds the row awake: it is a duplicate, unless the retries are used up. */
  lemma Suppressed(s: System, p: Policy, id: PassId, snap: Snapshot, sight: Sight, now: Time)
    requires KeyOf(snap) in s.recovery && s.recovery[KeyOf(snap)].wake && (sight.progress ==> sight.actionable)
    ensures var later := Attended(s, id, p, snap, sight, now);
            StoppedIn(later.log, KeyOf(snap)) || later == s
  {
    StopShows(s, snap, now);
  }

  lemma RouteBeside(s: System, p: Policy, other: PassId, g: Registry, now: Time, id: PassId, key: Key)
    requires key in s.recovery && OnlyPass(s, key, id) && other != id
    ensures Beside(s, PassRouted(s, other, p, g, now), key, id)
  {
    RouteAside(s, other, p, g, now, key);
    if other in s.passes && s.passes[other].at.Routing? && KeyOf(s.passes[other].snapshot) in s.recovery {
      Handoffs.RoutePasses(s, other, p, g, now);
    }
  }

  lemma EndBeside(s: System, other: PassId, delivered: bool, id: PassId, key: Key)
    requires key in s.recovery && OnlyPass(s, key, id) && other != id
    ensures Beside(s, PassEnded(s, other, delivered), key, id)
  {
  }

  lemma AlongsideStep(s: System, p: Policy, a: Action, id: PassId, key: Key)
    requires key in s.recovery && OnlyPass(s, key, id) && Alongside(s, a, id, key)
    ensures StoppedIn(Stepped(s, p, a).log, key) || Beside(s, Stepped(s, p, a), key, id)
  {
    match a
    case StartPass(other, sight, now) => StartBeside(s, p, other, sight, now, id, key);
    case RoutePass(other, g, now) => RouteBeside(s, p, other, g, now, id, key);
    case EndPass(other, delivered) => EndBeside(s, other, delivered, id, key);
    case AbortPass(other) =>
    case _ => Fencing.OutsideStep(s, p, a);
  }

  /** Every step of the run may happen beside the pass, as long as the key is not given up. */
  ghost predicate AllAlongside(s: System, p: Policy, actions: seq<Action>, id: PassId, key: Key) {
    forall k :: 0 <= k < |actions| ==> MayFollow(Run(s, p, actions[..k]), actions[k], id, key)
  }

  predicate MayFollow(s: System, a: Action, id: PassId, key: Key) {
    StoppedIn(s.log, key) || Alongside(s, a, id, key)
  }

  lemma AlongsidePrefix(s: System, p: Policy, actions: seq<Action>, id: PassId, key: Key, n: nat)
    requires n <= |actions| && AllAlongside(s, p, actions, id, key)
    ensures AllAlongside(s, p, actions[..n], id, key)
  {
    forall k | 0 <= k < n ensures MayFollow(Run(s, p, actions[..n][..k]), actions[..n][k], id, key) {
      assert actions[..n][..k] == actions[..k];
      assert MayFollow(Run(s, p, actions[..k]), actions[k], id, key);
    }
  }

  lemma {:induction false} AlongsideRun(s: System, p: Policy, actions: seq<Action>, id: PassId, key: Key)
    requires key in s.recovery && OnlyPass(s, key, id) && AllAlongside(s, p, actions, id, key)
    ensures StoppedIn(Run(s, p, actions).log, key) || Beside(s, Run(s, p, actions), key, id)
  {
    if actions != [] {
      var n := |actions| - 1;
      AlongsidePrefix(s, p, actions, id, key, n);
      AlongsideRun(s, p, actions[..n], id, key);
      OneStepAlong(s, Run(s, p, actions[..n]), p, actions[n], id, key);
    }
  }

  lemma OneStepAlong(s: System, mid: System, p: Policy, a: Action, id: PassId, key: Key)
    requires key in s.recovery && OnlyPass(s, key, id) && MayFollow(mid, a, id, key)
    requires StoppedIn(mid.log, key) || Beside(s, mid, key, id)
    ensures StoppedIn(Stepped(mid, p, a).log, key) || Beside(s, Stepped(mid, p, a), key, id)
  {
    if StoppedIn(mid.log, key) {
      StepLogs(mid, p, a);
      StillStopped(mid.log, Stepped(mid, p, a).log, key);
    } else {
      BesideOnly(s, mid, key, id);
      AlongsideStep(mid, p, a, id, key);
      if Beside(mid, Stepped(mid, p, a), key, id) {
        BesideOn(s, mid, Stepped(mid, p, a), key, id);
      }
    }
  }
}
