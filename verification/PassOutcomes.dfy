/** What each part of a recovery pass does to everything stored, and exactly when. */
module PassOutcomes {
  import opened Domain
  import opened TaskLifecycle
  import opened Worker
  import opened Watchdog
  import opened Asides
  import Completion
  import Fencing
  import Handoffs
  import Routing

  // ---------------------------------------------------------------- the role a pass is about

  predicate Open(row: RoleRow) {
    row.status != RolePASS && row.status != SKIPPED
  }

  /** The row the team is at, or else the one the task is at; 0 if neither names a row. */
  function At(r: Records): nat {
    if r.team.Some? && r.team.value.current.Some? && 1 <= r.team.value.current.value <= |r.roles| then r.team.value.current.value
    else if r.task.sequence.Some? && 1 <= r.task.sequence.value <= |r.roles| then r.task.sequence.value
    else 0
  }

  /** The first QA row, held by an agent that implemented or reviewed. */
  ghost predicate TestedByContributor(roles: seq<RoleRow>, n: nat) {
    && 1 <= n <= |roles| && roles[n - 1].role == QA && roles[n - 1].assignee.Some?
    && (forall i :: 0 <= i < n - 1 ==> roles[i].role != QA)
    && (exists i :: 0 <= i < |roles| && roles[i].role in {DEVELOPER, DEBUGGER, REFACTORER, REVIEWER} &&
          roles[i].assignee == roles[n - 1].assignee)
  }

  lemma {:induction false} FirstOpenIs(roles: seq<RoleRow>, k: nat, n: nat)
    requires 1 <= k <= n <= |roles| && Open(roles[n - 1]) && forall i :: k - 1 <= i < n - 1 ==> !Open(roles[i])
    ensures FirstOpen(roles, k) == n
    decreases n - k
  {
    if k < n {
      FirstOpenIs(roles, k + 1, n);
    }
  }

  /** A pass is about the row the team or the task is at, as long as that has not passed. */
  lemma CurrentInQuestion(r: Records, gate: Completion.Gate)
    requires At(r) > 0 && r.roles[At(r) - 1].status != RolePASS
    ensures RoleInQuestion(r, gate) == At(r)
  {
  }

  /** Else it is about the first open row. */
  lemma OpenInQuestion(r: Records, gate: Completion.Gate, n: nat)
    requires 1 <= n <= |r.roles| && (At(r) == 0 || r.roles[At(r) - 1].status == RolePASS)
    requires Open(r.roles[n - 1]) && forall i :: 0 <= i < n - 1 ==> !Open(r.roles[i])
    ensures RoleInQuestion(r, gate) == n
  {
    FirstOpenIs(r.roles, 1, n);
  }

  /** Else, when all passed but the gate is closed, about a QA row whose agent was not independent. */
  lemma TesterInQuestion(r: Records, gate: Completion.Gate, n: nat)
    requires (forall i :: 0 <= i < |r.roles| ==> r.roles[i].status == RolePASS) && !Completion.CanComplete(gate, r.roles)
    requires TestedByContributor(r.roles, n)
    ensures RoleInQuestion(r, gate) == n
  {
    var i :| 0 <= i < |r.roles| && r.roles[i].role in {DEVELOPER, DEBUGGER, REFACTORER, REVIEWER} &&
      r.roles[i].assignee == r.roles[n - 1].assignee;
    assert r.roles[i].assignee.value in Completion.Contributors(r.roles);
    FirstQaIs(r.roles, 1, n);
    assert FirstOpen(r.roles, 1) == 0;
  }

  lemma {:induction false} FirstQaIs(roles: seq<RoleRow>, k: nat, n: nat)
    requires 1 <= k <= n <= |roles| && roles[n - 1].role == QA && forall i :: k - 1 <= i < n - 1 ==> roles[i].role != QA
    ensures FirstOf(roles, QA, k) == n
    decreases n - k
  {
    if k < n {
      FirstQaIs(roles, k + 1, n);
    }
  }

  /** With nothing open, a pass has nothing to do unless an otherwise finished team was tested by a contributor. */
  lemma NothingInQuestion(r: Records, gate: Completion.Gate)
    requires forall i :: 0 <= i < |r.roles| ==> !Open(r.roles[i])
    requires At(r) == 0 || r.roles[At(r) - 1].status == RolePASS
    requires r.roles == [] || (exists i :: 0 <= i < |r.roles| && r.roles[i].status != RolePASS) || Completion.CanComplete(gate, r.roles)
    ensures RoleInQuestion(r, gate) == 0
  {
    assert FirstOpen(r.roles, 1) == 0;
  }

  // ---------------------------------------------------------------- giving up

  /**
   * The task has been given up for the row: it failed where that is a legal end and was cancelled elsewhere,
   * role and team are blocked, nobody is awake or waits, and nobody watches. A COMPLETED task only gets the
   * entry in the log.
   */
  ghost predicate GivenUp(s: System, later: System, key: Key) {
    var before, r := RowsOf(s).task.status, RowsOf(later);
    && later.log != [] && later.log[|later.log| - 1] == Stopped(key)
    && later.shop.mail == s.shop.mail && later.shop.execs == s.shop.execs && later.shop.results == s.shop.results
    && (if before == COMPLETED then r == RowsOf(s).(decisions := r.decisions) && later.watching == s.watching
        else
          && !later.watching
          && r.task.status == (if before in {PASS, FAIL, CANCELLED} then before
                               else if before in {RUNNING, WAITING_RESULT, REVIEWING} then FAIL else CANCELLED)
          && (1 <= key.0 <= |r.roles| ==> r.roles[key.0 - 1].status == RoleBLOCKED)
          && (r.team.Some? ==> r.team.value.status == TeamBLOCKED)
          && (key in later.recovery ==> (!later.recovery[key].wake && later.recovery[key].capacityAt.None?
                                        && later.recovery[key].cancelAt.None?)))
  }

  lemma StopIs(s: System, snap: Snapshot, now: Time)
    ensures GivenUp(s, SafeStopped(s, snap, now), KeyOf(snap))
  {
    StopStatus(RowsOf(s), snap.sequence, now);
    Fencing.StoppedIs(s, snap, now);
  }

  lemma StopStatus(r: Records, sequence: nat, now: Time)
    ensures var before, after := r.task.status, StoppedRows(r, sequence, now).task.status;
            after == (if before in {PASS, FAIL, CANCELLED, COMPLETED} then before
                      else if before in {RUNNING, WAITING_RESULT, REVIEWING} then FAIL else CANCELLED)
  {
  }

  lemma GivenUpOn(s: System, mid: System, later: System, key: Key)
    requires GivenUp(mid, later, key) && RowsOf(mid) == RowsOf(s).(decisions := RowsOf(mid).decisions) && mid.watching == s.watching
    requires mid.shop.mail == s.shop.mail && mid.shop.execs == s.shop.execs && mid.shop.results == s.shop.results
    ensures GivenUp(s, later, key)
  {
  }

  // ---------------------------------------------------------------- the first part of a pass

  /** The pass is new, the task watched and within its budget. */
  predicate Attends(s: System, id: PassId, sight: Sight) {
    id !in s.passes && s.watching && sight.budget
  }

  /** The pass is about `key`, and the task is not over. */
  predicate Concerned(s: System, id: PassId, sight: Sight, key: Key) {
    Attends(s, id, sight) && About(s, sight, key) && RowsOf(s).task.status !in {PASS, FAIL, CANCELLED}
  }

  predicate OnHold(s: System, sight: Sight) {
    sight.hold || RowsOf(s).task.status == HUMAN_GATE
  }

  /** A pass that does not attend changes nothing; one without anything to do ends the watch. */
  lemma IdlePass(s: System, id: PassId, p: Policy, sight: Sight, now: Time)
    requires !Attends(s, id, sight) || RowsOf(s).task.status in {PASS, FAIL, CANCELLED} || RoleInQuestion(RowsOf(s), sight.gate) == 0
    ensures PassStarted(s, id, p, sight, now) == if Attends(s, id, sight) then s.(watching := false) else s
  {
  }

  /** A pass that does not recover: on hold, or with nothing to act on, it notes the row, or the progress it sees. */
  lemma WatchingPass(s: System, id: PassId, p: Policy, sight: Sight, now: Time, key: Key)
    requires Concerned(s, id, sight, key) && (OnHold(s, sight) || !sight.actionable)
    ensures var row := RowOf(s, key);
            PassStarted(s, id, p, sight, now) ==
            s.(recovery := s.recovery[key := if sight.progress && !OnHold(s, sight)
                                             then row.(wake := false, capacityAt := None, cancelAt := None) else row])
  {
    if key in s.recovery {
      assert s.recovery[key := s.recovery[key]] == s.recovery;
    }
  }

  /** The pass is about to recover. */
  predicate Recovers(s: System, id: PassId, sight: Sight, key: Key) {
    Concerned(s, id, sight, key) && !OnHold(s, sight) && sight.actionable
  }

  lemma RecoversThrough(s: System, id: PassId, p: Policy, sight: Sight, now: Time, key: Key)
    requires Recovers(s, id, sight, key)
    ensures var snap := SnapshotOf(RowsOf(s), key.0, sight.classification);
            && KeyOf(snap) == key && Observed(s, key) == s.(recovery := s.recovery[key := RowOf(s, key)])
            && PassStarted(s, id, p, sight, now) == Recovered(Observed(s, key), id, p, snap, sight, now)
  {
    if key in s.recovery {
      assert s.recovery[key := s.recovery[key]] == s.recovery;
    }
  }

  /** With the retries used up the task is given up; before that, somebody awake keeps others out. */
  lemma BoundedPass(s: System, id: PassId, p: Policy, sight: Sight, now: Time, key: Key)
    requires Recovers(s, id, sight, key) && (RowOf(s, key).retries >= p.maxRecoveries || RowOf(s, key).wake)
    ensures var later := PassStarted(s, id, p, sight, now);
            if RowOf(s, key).retries >= p.maxRecoveries then GivenUp(s, later, key)
            else later == s.(recovery := s.recovery[key := RowOf(s, key)])
  {
    RecoversThrough(s, id, p, sight, now, key);
    var snap, s1 := SnapshotOf(RowsOf(s), key.0, sight.classification), Observed(s, key);
    if RowOf(s, key).retries >= p.maxRecoveries {
      StopIs(s1, snap, now);
      GivenUpOn(s, s1, PassStarted(s, id, p, sight, now), key);
    }
  }

  /** A retry is free for the row and nobody is awake. */
  predicate Acquires(s: System, id: PassId, p: Policy, sight: Sight, key: Key) {
    Recovers(s, id, sight, key) && 0 <= RowOf(s, key).retries < p.maxRecoveries && !RowOf(s, key).wake
  }

  /** The state with `row` stored for the key and the entries appended. */
  function Booked(s: System, key: Key, row: Recovery, entries: seq<Entry>): System {
    s.(recovery := s.recovery[key := row], log := s.log + entries)
  }

  /** The row with one more retry counted, by somebody awake. */
  function Taken(s: System, key: Key): Recovery {
    RowOf(s, key).(retries := RowOf(s, key).retries + 1, wake := true)
  }

  /** The team, or without a team position the task, is at the row of the key. */
  predicate InPlace(s: System, key: Key) {
    (if RowsOf(s).team.Some? && RowsOf(s).team.value.current.Some? then RowsOf(s).team.value.current
     else RowsOf(s).task.sequence) == Some(key.0)
  }

  lemma AcquiresThrough(s: System, id: PassId, p: Policy, sight: Sight, now: Time, key: Key)
    requires Acquires(s, id, p, sight, key)
    ensures var snap := SnapshotOf(RowsOf(s), key.0, sight.classification);
            var held := Booked(s, key, Taken(s, key), [Entry.Acquired(key)]);
            KeyOf(snap) == key && PassStarted(s, id, p, sight, now) == Pursued(held, id, p, snap, sight, now)
  {
    var snap, s1 := SnapshotOf(RowsOf(s), key.0, sight.classification), s.(recovery := s.recovery[key := RowOf(s, key)]);
    RecoversThrough(s, id, p, sight, now, key);
    assert Observed(s, key) == s1;
    AcquireIs(s, s1, id, p, snap, sight, now, key);
  }

  lemma AcquireIs(s: System, s1: System, id: PassId, p: Policy, snap: Snapshot, sight: Sight, now: Time, key: Key)
    requires KeyOf(snap) == key && s1 == s.(recovery := s.recovery[key := RowOf(s, key)])
    requires RowOf(s, key).retries < p.maxRecoveries && !RowOf(s, key).wake
    ensures Recovered(s1, id, p, snap, sight, now) ==
            Pursued(Booked(s, key, Taken(s, key), [Entry.Acquired(key)]), id, p, snap, sight, now)
  {
    TakenIs(s1, id, p, snap, sight, now);
    assert s1.recovery[key := Taken(s, key)] == s.recovery[key := Taken(s, key)];
  }

  lemma TakenIs(s: System, id: PassId, p: Policy, snap: Snapshot, sight: Sight, now: Time)
    requires KeyOf(snap) in s.recovery && s.recovery[KeyOf(snap)].retries < p.maxRecoveries && !s.recovery[KeyOf(snap)].wake
    ensures Recovered(s, id, p, snap, sight, now) ==
            Pursued(Booked(s, KeyOf(snap), Taken(s, KeyOf(snap)), [Entry.Acquired(KeyOf(snap))]), id, p, snap, sight, now)
  {
  }

  /** A snapshot is current when it is taken exactly if the task is at its row. */
  lemma JustTaken(s: System, sight: Sight, key: Key)
    requires About(s, sight, key) && RowsOf(s).task.status !in {PASS, FAIL, CANCELLED}
    ensures IsCurrent(RowsOf(s), SnapshotOf(RowsOf(s), key.0, sight.classification)) <==> InPlace(s, key)
  {
  }

  /** A row the task is not at uses up the retry and is left alone. */
  lemma MisplacedPass(s: System, id: PassId, p: Policy, sight: Sight, now: Time, key: Key)
    requires Acquires(s, id, p, sight, key) && !InPlace(s, key)
    ensures PassStarted(s, id, p, sight, now) == Booked(s, key, Taken(s, key).(wake := false), [Entry.Acquired(key)])
  {
    AcquiresThrough(s, id, p, sight, now, key);
    JustTaken(s, sight, key);
  }

  /** A pass that finds a verdict whose revision request may be lost. */
  predicate MendsReview(s: System, id: PassId, p: Policy, sight: Sight, key: Key) {
    Acquires(s, id, p, sight, key) && InPlace(s, key) && sight.orphan && RowsOf(s).roles[key.0 - 1].role in {REVIEWER, ARCHITECT}
  }

  /** If the request is not missing, the row rests with its waits cleared. */
  lemma UnneededReplay(s: System, id: PassId, p: Policy, sight: Sight, now: Time, key: Key)
    requires MendsReview(s, id, p, sight, key) && !sight.missing
    ensures PassStarted(s, id, p, sight, now) ==
            Booked(s, key, Taken(s, key).(wake := false, capacityAt := None, cancelAt := None), [Entry.Acquired(key)])
  {
    AcquiresThrough(s, id, p, sight, now, key);
    JustTaken(s, sight, key);
  }

  /** If it is missing, the nearest implementer before the review is reopened one round up and gets it. */
  lemma ReplaySends(s: System, id: PassId, p: Policy, sight: Sight, now: Time, key: Key, target: nat)
    requires MendsReview(s, id, p, sight, key) && sight.missing && RowsOf(s).roles[key.0 - 1].assignee.Some?
    requires Handoffs.NearestImplementer(RowsOf(s).roles, key.0, target)
    ensures var later, row, round := PassStarted(s, id, p, sight, now), RowsOf(s).roles[target - 1], key.1 + 1;
            && RowsOf(later).roles == RowsOf(s).roles[target - 1 := row.(status := ACTIVE, round := round, completedAt := None)]
            && RowsOf(later).task == RowsOf(s).task
            && later.shop.mail == s.shop.mail + [Envelope(REVISION_REQUEST, row.assignee.value, Some(row.role), round)]
            && later.recovery == s.recovery[key := Taken(s, key)] && id in later.passes && later.passes[id].at == Sent(true)
  {
    AcquiresThrough(s, id, p, sight, now, key);
    JustTaken(s, sight, key);
    var snap := SnapshotOf(RowsOf(s), key.0, sight.classification);
    ReplayedSends(Booked(s, key, Taken(s, key), [Entry.Acquired(key)]), id, snap, sight, now, target);
  }

  lemma ReplayedSends(s: System, id: PassId, snap: Snapshot, sight: Sight, now: Time, target: nat)
    requires sight.missing && 0 < snap.sequence <= |RowsOf(s).roles| && snap.row.assignee.Some?
    requires Handoffs.NearestImplementer(RowsOf(s).roles, snap.sequence, target)
    ensures var later, row, round := Replayed(s, id, snap, sight, now), RowsOf(s).roles[target - 1], snap.row.round + 1;
            && RowsOf(later).roles == RowsOf(s).roles[target - 1 := row.(status := ACTIVE, round := round, completedAt := None)]
            && RowsOf(later).task == RowsOf(s).task
            && later.shop.mail == s.shop.mail + [Envelope(REVISION_REQUEST, row.assignee.value, Some(row.role), round)]
            && later.recovery == s.recovery && id in later.passes && later.passes[id].at == Sent(true)
  {
    assert LastImplementer(RowsOf(s).roles, snap.sequence) == target;
  }

  /** Without an implementer before it, or an agent of its own, the review cannot be mended: the task is given up. */
  lemma ReplayGivesUp(s: System, id: PassId, p: Policy, sight: Sight, now: Time, key: Key)
    requires MendsReview(s, id, p, sight, key) && sight.missing
    requires || RowsOf(s).roles[key.0 - 1].assignee.None?
             || (forall i :: 0 <= i < key.0 - 1 ==>
                   RowsOf(s).roles[i].assignee.None? || RowsOf(s).roles[i].role !in {DEVELOPER, DEBUGGER, REFACTORER})
    ensures GivenUp(s, PassStarted(s, id, p, sight, now), key)
  {
    AcquiresThrough(s, id, p, sight, now, key);
    JustTaken(s, sight, key);
    var held := Booked(s, key, Taken(s, key), [Entry.Acquired(key)]);
    var snap := SnapshotOf(RowsOf(s), key.0, sight.classification);
    assert Replayed(held, id, snap, sight, now) == SafeStopped(held, snap, now);
    StopIs(held, snap, now);
    GivenUpOn(s, held, PassStarted(s, id, p, sight, now), key);
  }

  /** A pass that finds the role's process alive. */
  predicate Cancels(s: System, id: PassId, p: Policy, sight: Sight, key: Key) {
    && Acquires(s, id, p, sight, key) && InPlace(s, key) && sight.live
    && !(sight.orphan && RowsOf(s).roles[key.0 - 1].role in {REVIEWER, ARCHITECT})
  }

  /**
   * A live process whose signal is accepted, and that was first asked less than twice the result deadline
   * ago or never: rows, mail, passes and watch stay, the retry comes back, nobody is awake, and the first
   * request is remembered. From then on, or without an accepted signal, the task is given up.
   */
  lemma CancelWindow(s: System, id: PassId, p: Policy, sight: Sight, now: Time, key: Key)
    requires Cancels(s, id, p, sight, key)
    ensures var row, later := RowOf(s, key), PassStarted(s, id, p, sight, now);
            if sight.terminated && (row.cancelAt.None? || now - row.cancelAt.value < 2 * p.resultDeadline)
            then later == Booked(s, key, row.(wake := false, cancelAt := if row.cancelAt.Some? then row.cancelAt else Some(now)),
                                 [Entry.Acquired(key), Refunded(key)])
            else GivenUp(s, later, key)
  {
    AcquiresThrough(s, id, p, sight, now, key);
    JustTaken(s, sight, key);
    var held := Booked(s, key, Taken(s, key), [Entry.Acquired(key)]);
    var snap, row := SnapshotOf(RowsOf(s), key.0, sight.classification), RowOf(s, key);
    if sight.terminated && (row.cancelAt.None? || now - row.cancelAt.value < 2 * p.resultDeadline) {
      CancelReturns(held, p, snap, now);
      assert held.log + [Refunded(key)] == s.log + [Entry.Acquired(key), Refunded(key)];
    } else {
      StopIs(held, snap, now);
      GivenUpOn(s, held, PassStarted(s, id, p, sight, now), key);
    }
  }

  lemma CancelReturns(s: System, p: Policy, snap: Snapshot, now: Time)
    requires KeyOf(snap) in s.recovery && s.recovery[KeyOf(snap)].retries > 0
    requires var asked := s.recovery[KeyOf(snap)].cancelAt; asked.None? || now - asked.value < 2 * p.resultDeadline
    ensures var row := s.recovery[KeyOf(snap)];
            CancelAsked(s, p, snap, true, now) ==
            Booked(s, KeyOf(snap),
                   row.(retries := row.retries - 1, wake := false, cancelAt := if row.cancelAt.Some? then row.cancelAt else Some(now)),
                   [Refunded(KeyOf(snap))])
  {
  }

  /** In all other cases the pass waits to be routed, with its snapshot, its retry and somebody awake. */
  lemma WaitsForRoute(s: System, id: PassId, p: Policy, sight: Sight, now: Time, key: Key)
    requires Acquires(s, id, p, sight, key) && InPlace(s, key) && !sight.live
    requires !(sight.orphan && RowsOf(s).roles[key.0 - 1].role in {REVIEWER, ARCHITECT})
    ensures var r := RowsOf(s);
            PassStarted(s, id, p, sight, now) ==
            Booked(s, key, Taken(s, key), [Entry.Acquired(key)])
              .(passes := s.passes[id := Pass(Snapshot(key.0, r.roles[key.0 - 1], r.task.attempt, r.task.updatedAt, sight.classification),
                                            Await.Routing)])
  {
    AcquiresThrough(s, id, p, sight, now, key);
    JustTaken(s, sight, key);
  }
}
