/** Retries are counted, refunded and bounded; an endlessly stuck task is given up in time. */
module RecoveryBounds {
  import opened Domain
  import opened TaskLifecycle
  import opened Worker
  import opened Watchdog
  import Fencing

  // ---------------------------------------------------------------- counting

  function Acquisitions(log: seq<Entry>, key: Key): nat {
    if log == [] then 0
    else Acquisitions(log[..|log| - 1], key) + (if log[|log| - 1] == Entry.Acquired(key) then 1 else 0)
  }

  function Refunds(log: seq<Entry>, key: Key): nat {
    if log == [] then 0
    else Refunds(log[..|log| - 1], key) + (if log[|log| - 1] == Refunded(key) then 1 else 0)
  }

  function Dispatches(log: seq<Entry>, key: Key): nat {
    if log == [] then 0
    else
      var last := log[|log| - 1];
      Dispatches(log[..|log| - 1], key) + (if last.Dispatched? && last.key == key then 1 else 0)
  }

  lemma CountMore(log: seq<Entry>, e: Entry, key: Key)
    ensures Acquisitions(log + [e], key) == Acquisitions(log, key) + (if e == Entry.Acquired(key) then 1 else 0)
    ensures Refunds(log + [e], key) == Refunds(log, key) + (if e == Refunded(key) then 1 else 0)
    ensures Dispatches(log + [e], key) == Dispatches(log, key) + (if e.Dispatched? && e.key == key then 1 else 0)
  {
    assert (log + [e])[..|log|] == log;
  }

  /** The passes that hold a retry for `key`: acquired it, and wait to be routed. */
  function Holders(passes: map<PassId, Pass>, key: Key): set<PassId> {
    set id | id in passes && passes[id].at.Routing? && KeyOf(passes[id].snapshot) == key
  }

  /** The accounts of one key. */
  ghost predicate Balanced(s: System, p: Policy, key: Key) {
    if key in s.recovery then
      var n := s.recovery[key].retries;
      && n == Acquisitions(s.log, key) - Refunds(s.log, key)
      && |Holders(s.passes, key)| + Dispatches(s.log, key) <= n <= p.maxRecoveries
    else
      Acquisitions(s.log, key) == Refunds(s.log, key) == Dispatches(s.log, key) == 0 && Holders(s.passes, key) == {}
  }

  ghost predicate AllBalanced(s: System, p: Policy) {
    forall key :: Balanced(s, p, key)
  }

  /** Balanced, with a retry counted for `key` that nobody holds and nothing was dispatched for. */
  ghost predicate Spare(s: System, p: Policy, key: Key) {
    AllBalanced(s, p) && key in s.recovery && |Holders(s.passes, key)| + Dispatches(s.log, key) < s.recovery[key].retries
  }

  /** A row whose count stays. */
  lemma RowOk(s: System, p: Policy, key: Key, row: Recovery)
    requires AllBalanced(s, p) && key in s.recovery && row.retries == s.recovery[key].retries
    ensures AllBalanced(PutRow(s, key, row), p)
    ensures Spare(s, p, key) ==> Spare(PutRow(s, key, row), p, key)
  {
    forall k ensures Balanced(PutRow(s, key, row), p, k) {
      assert Balanced(s, p, k);
    }
  }

  lemma ObserveOk(s: System, p: Policy, key: Key)
    requires AllBalanced(s, p)
    ensures AllBalanced(Observed(s, key), p)
  {
    forall k ensures Balanced(Observed(s, key), p, k) {
      assert Balanced(s, p, k);
    }
  }

  lemma MarkOk(s: System, p: Policy, key: Key, clear: bool)
    requires AllBalanced(s, p)
    ensures AllBalanced(Marked(s, key, clear), p)
  {
    if key in s.recovery {
      RowOk(s, p, key, Marked(s, key, clear).recovery[key]);
    }
  }

  lemma LogOk(s: System, p: Policy, e: Entry)
    requires AllBalanced(s, p) && (e.Stopped? || e.Picked?)
    ensures AllBalanced(Logged(s, e), p)
  {
    forall k ensures Balanced(Logged(s, e), p, k) {
      assert Balanced(s, p, k);
      CountMore(s.log, e, k);
    }
  }

  lemma AcquireOk(s: System, p: Policy, key: Key)
    requires AllBalanced(s, p) && key in s.recovery && s.recovery[key].retries < p.maxRecoveries
    ensures Spare(Acquire(s, key), p, key)
  {
    forall k ensures Balanced(Acquire(s, key), p, k) {
      assert Balanced(s, p, k);
      CountMore(s.log, Entry.Acquired(key), k);
    }
    assert Balanced(s, p, key);
    CountMore(s.log, Entry.Acquired(key), key);
  }

  lemma HoldersOf(passes: map<PassId, Pass>, id: PassId, pass: Pass, key: Key)
    requires id !in passes
    ensures Holders(passes[id := pass], key) ==
            Holders(passes, key) + (if pass.at.Routing? && KeyOf(pass.snapshot) == key then {id} else {})
    ensures id !in Holders(passes, key)
  {
  }

  lemma HoldOk(s: System, p: Policy, id: PassId, snap: Snapshot)
    requires Spare(s, p, KeyOf(snap)) && id !in s.passes
    ensures AllBalanced(s.(passes := s.passes[id := Pass(snap, Await.Routing)]), p)
  {
    var later := s.(passes := s.passes[id := Pass(snap, Await.Routing)]);
    forall k ensures Balanced(later, p, k) {
      assert Balanced(s, p, k);
      HoldersOf(s.passes, id, Pass(snap, Await.Routing), k);
    }
  }

  lemma SendOk(s: System, p: Policy, id: PassId, snap: Snapshot, replay: bool)
    requires AllBalanced(s, p) && id !in s.passes
    ensures AllBalanced(s.(passes := s.passes[id := Pass(snap, Sent(replay))]), p)
  {
    var later := s.(passes := s.passes[id := Pass(snap, Sent(replay))]);
    forall k ensures Balanced(later, p, k) {
      assert Balanced(s, p, k);
      HoldersOf(s.passes, id, Pass(snap, Sent(replay)), k);
    }
  }

  /** A pass that goes leaves its retry spare if it held one. */
  lemma LeaveOk(s: System, p: Policy, id: PassId)
    requires AllBalanced(s, p) && id in s.passes
    ensures AllBalanced(s.(passes := s.passes - {id}), p)
    ensures var pass := s.passes[id];
            pass.at.Routing? ==> Spare(s.(passes := s.passes - {id}), p, KeyOf(pass.snapshot))
  {
    var pass, rest := s.passes[id], s.passes - {id};
    assert rest[id := pass] == s.passes;
    forall k ensures Balanced(s.(passes := rest), p, k) {
      assert Balanced(s, p, k);
      HoldersOf(rest, id, pass, k);
    }
    assert Balanced(s, p, KeyOf(pass.snapshot));
    HoldersOf(rest, id, pass, KeyOf(pass.snapshot));
  }

  lemma RefundOk(s: System, p: Policy, key: Key, row: Recovery)
    requires Spare(s, p, key) && row.retries == GivenBack(s.recovery[key]).retries
    ensures AllBalanced(Logged(PutRow(s, key, row), Refunded(key)), p)
  {
    forall k ensures Balanced(Logged(PutRow(s, key, row), Refunded(key)), p, k) {
      assert Balanced(s, p, k);
      CountMore(s.log, Refunded(key), k);
    }
  }

  lemma DispatchOk(s: System, p: Policy, key: Key, from: nat)
    requires Spare(s, p, key)
    ensures AllBalanced(Logged(s, Entry.Dispatched(key, from)), p)
  {
    forall k ensures Balanced(Logged(s, Entry.Dispatched(key, from)), p, k) {
      assert Balanced(s, p, k);
      CountMore(s.log, Entry.Dispatched(key, from), k);
    }
  }

  // ---------------------------------------------------------------- steps keep the accounts

  /** Only recovery rows, passes and log are accounted for. */
  lemma OnlyAccounts(s: System, p: Policy, other: System)
    requires AllBalanced(s, p) && other.recovery == s.recovery && other.passes == s.passes && other.log == s.log
    ensures AllBalanced(other, p)
    ensures forall key :: Spare(s, p, key) ==> Spare(other, p, key)
  {
    forall k ensures Balanced(other, p, k) {
      assert Balanced(s, p, k);
    }
  }

  lemma StopOk(s: System, p: Policy, snap: Snapshot, now: Time)
    requires AllBalanced(s, p)
    ensures AllBalanced(SafeStopped(s, snap, now), p)
  {
    var logged := Logged(s, Stopped(KeyOf(snap)));
    LogOk(s, p, Stopped(KeyOf(snap)));
    if RowsOf(s).task.status != COMPLETED {
      var put := PutRows(logged, StoppedRows(RowsOf(s), snap.sequence, now));
      OnlyAccounts(logged, p, put);
      MarkOk(put, p, KeyOf(snap), true);
      OnlyAccounts(Marked(put, KeyOf(snap), true), p, SafeStopped(s, snap, now));
    }
  }

  lemma ReplayOk(s: System, p: Policy, id: PassId, snap: Snapshot, sight: Sight, now: Time)
    requires AllBalanced(s, p) && id !in s.passes
    ensures AllBalanced(Replayed(s, id, snap, sight, now), p)
  {
    MarkOk(s, p, KeyOf(snap), true);
    StopOk(s, p, snap, now);
    SendOk(s, p, id, snap, true);
    var sent := s.(passes := s.passes[id := Pass(snap, Sent(true))]);
    var after := Replayed(s, id, snap, sight, now);
    if after.passes == sent.passes && after.log == s.log && after.recovery == s.recovery {
      OnlyAccounts(sent, p, after);
    }
  }

  lemma CancelOk(s: System, p: Policy, snap: Snapshot, terminated: bool, now: Time)
    requires Spare(s, p, KeyOf(snap))
    ensures AllBalanced(CancelAsked(s, p, snap, terminated, now), p)
  {
    StopOk(s, p, snap, now);
    var row := s.recovery[KeyOf(snap)];
    RefundOk(s, p, KeyOf(snap), GivenBack(row).(cancelAt := Or(row.cancelAt, Some(now))));
  }

  lemma PursueOk(s: System, id: PassId, p: Policy, snap: Snapshot, sight: Sight, now: Time)
    requires Spare(s, p, KeyOf(snap)) && id !in s.passes
    ensures AllBalanced(Pursued(s, id, p, snap, sight, now), p)
  {
    MarkOk(s, p, KeyOf(snap), false);
    ReplayOk(s, p, id, snap, sight, now);
    CancelOk(s, p, snap, sight.terminated, now);
    HoldOk(s, p, id, snap);
  }

  lemma RecoverOk(s: System, id: PassId, p: Policy, snap: Snapshot, sight: Sight, now: Time)
    requires AllBalanced(s, p) && KeyOf(snap) in s.recovery && id !in s.passes
    ensures AllBalanced(Recovered(s, id, p, snap, sight, now), p)
  {
    var key := KeyOf(snap);
    StopOk(s, p, snap, now);
    if s.recovery[key].retries < p.maxRecoveries && !s.recovery[key].wake {
      AcquireOk(s, p, key);
      PursueOk(Acquire(s, key), id, p, snap, sight, now);
    }
  }

  lemma StartOk(s: System, id: PassId, p: Policy, sight: Sight, now: Time)
    requires AllBalanced(s, p)
    ensures AllBalanced(PassStarted(s, id, p, sight, now), p)
  {
    var sequence := RoleInQuestion(RowsOf(s), sight.gate);
    OnlyAccounts(s, p, s.(watching := false));
    if sequence > 0 {
      var snap := SnapshotOf(RowsOf(s), sequence, sight.classification);
      var s1 := Observed(s, KeyOf(snap));
      ObserveOk(s, p, KeyOf(snap));
      MarkOk(s1, p, KeyOf(snap), true);
      if id !in s.passes {
        RecoverOk(s1, id, p, snap, sight, now);
      }
    }
  }

  lemma UnroutedOk(s: System, p: Policy, snap: Snapshot, busy: bool, now: Time)
    requires Spare(s, p, KeyOf(snap))
    ensures AllBalanced(Unrouted(s, p, snap, busy, now), p)
  {
    StopOk(s, p, snap, now);
    var row := s.recovery[KeyOf(snap)];
    RefundOk(s, p, KeyOf(snap), GivenBack(row).(capacityAt := Or(row.capacityAt, Some(now))));
  }

  lemma RedispatchOk(s: System, p: Policy, id: PassId, snap: Snapshot, agent: AgentId, now: Time)
    requires AllBalanced(s, p) && id in s.passes && s.passes[id] == Pass(snap, Await.Routing)
    ensures AllBalanced(Redispatched(s, id, snap, agent, now), p)
  {
    var s1 := PutRows(s, Reassigned(RowsOf(s), snap, agent, now));
    var gone := s1.(passes := s1.passes - {id});
    OnlyAccounts(s, p, s1);
    LeaveOk(s1, p, id);
    StopOk(gone, p, snap, now);
    var from := RowsOf(s).task.attempt;
    DispatchOk(gone, p, KeyOf(snap), from);
    var logged := Logged(gone, Entry.Dispatched(KeyOf(snap), from));
    SendOk(logged, p, id, snap, false);
    var sent := logged.(passes := logged.passes[id := Pass(snap, Sent(false))]);
    assert (s1.passes - {id})[id := Pass(snap, Sent(false))] == s1.passes[id := Pass(snap, Sent(false))];
    if RowsOf(s1).task.status == DISPATCHED {
      OnlyAccounts(sent, p, Redispatched(s, id, snap, agent, now));
    }
  }

  lemma RecordOk(s: System, p: Policy, snap: Snapshot, c: Choice)
    requires AllBalanced(s, p)
    ensures AllBalanced(DecisionRecorded(s, snap, c), p)
    ensures DecisionRecorded(s, snap, c).passes == s.passes && DecisionRecorded(s, snap, c).recovery == s.recovery
  {
    var r := RowsOf(s);
    var s1 := PutRows(s, RowsOf(DecisionRecorded(s, snap, c)));
    OnlyAccounts(s, p, s1);
    if c.selected.Some? {
      LogOk(s1, p, Picked(snap.sequence, c.selected.value, c.again));
      assert DecisionRecorded(s, snap, c) == Logged(s1, Picked(snap.sequence, c.selected.value, c.again));
    }
  }

  lemma RouteOk(s: System, id: PassId, p: Policy, g: Registry, now: Time)
    requires AllBalanced(s, p)
    ensures AllBalanced(PassRouted(s, id, p, g, now), p)
  {
    if id in s.passes && s.passes[id].at.Routing? && KeyOf(s.passes[id].snapshot) in s.recovery {
      var snap := s.passes[id].snapshot;
      var c := Chosen(RowsOf(s), snap, g);
      var s1 := DecisionRecorded(s, snap, c);
      RecordOk(s, p, snap, c);
      LeaveOk(s1, p, id);
      var gone := s1.(passes := s1.passes - {id});
      UnroutedOk(gone, p, snap, c.busy, now);
      MarkOk(gone, p, KeyOf(snap), false);
      if c.selected.Some? {
        RedispatchOk(s1, p, id, snap, c.selected.value, now);
      }
    }
  }

  lemma EndOk(s: System, p: Policy, id: PassId, delivered: bool)
    requires AllBalanced(s, p)
    ensures AllBalanced(PassEnded(s, id, delivered), p)
  {
    if id in s.passes && s.passes[id].at.Sent? {
      LeaveOk(s, p, id);
      MarkOk(s.(passes := s.passes - {id}), p, KeyOf(s.passes[id].snapshot), delivered || !s.passes[id].at.replay);
    }
  }

  lemma AbortOk(s: System, p: Policy, id: PassId)
    requires AllBalanced(s, p)
    ensures AllBalanced(s.(passes := s.passes - {id}), p)
  {
    if id in s.passes {
      LeaveOk(s, p, id);
    } else {
      assert s.passes - {id} == s.passes;
    }
  }

  lemma StepOk(s: System, p: Policy, a: Action)
    requires AllBalanced(s, p)
    ensures AllBalanced(Stepped(s, p, a), p)
  {
    match a
    case StartPass(id, sight, now) => StartOk(s, id, p, sight, now);
    case RoutePass(id, g, now) => RouteOk(s, id, p, g, now);
    case EndPass(id, delivered) => EndOk(s, p, id, delivered);
    case AbortPass(id) => AbortOk(s, p, id);
    case _ =>
      Fencing.OutsideStep(s, p, a);
      OnlyAccounts(s, p, Stepped(s, p, a));
  }

  /**
   * Over every interleaving, each row's count is its acquisitions less its refunds, covers the passes
   * that hold a retry and the dispatches made, and never exceeds the policy's bound.
   */
  lemma {:induction false} AccountsBalance(s: System, p: Policy, actions: seq<Action>)
    requires AllBalanced(s, p)
    ensures AllBalanced(Run(s, p, actions), p)
  {
    if actions != [] {
      AccountsBalance(s, p, actions[..|actions| - 1]);
      StepOk(Run(s, p, actions[..|actions| - 1]), p, actions[|actions| - 1]);
    }
  }

  /** A task that was never recovered is in balance. */
  lemma OpenedBalances(r: Records, p: Policy)
    ensures AllBalanced(Opened(r), p)
  {
  }

  /** So a task is never sent out more often than the policy allows, for any role and round. */
  lemma RedispatchesBounded(r: Records, p: Policy, actions: seq<Action>, key: Key)
    ensures var later := Run(Opened(r), p, actions);
            && Dispatches(later.log, key) <= p.maxRecoveries
            && (key in later.recovery ==> 0 <= later.recovery[key].retries <= p.maxRecoveries)
  {
    OpenedBalances(r, p);
    AccountsBalance(Opened(r), p, actions);
    assert Balanced(Run(Opened(r), p, actions), p, key);
  }

  // ---------------------------------------------------------------- no attempt is recovered twice

  /** Re-dispatches started from ever later attempts, all before the current one. */
  ghost predicate Ascending(log: seq<Entry>, attempt: nat) {
    && (forall i :: 0 <= i < |log| && log[i].Dispatched? ==> log[i].from < attempt)
    && (forall i, j :: 0 <= i < j < |log| && log[i].Dispatched? && log[j].Dispatched? ==> log[i].from < log[j].from)
  }

  /** Entries that are no dispatches were appended. */
  ghost predicate Chatter(log: seq<Entry>, later: seq<Entry>) {
    log <= later && forall i :: |log| <= i < |later| ==> !later[i].Dispatched?
  }

  lemma StopChatters(s: System, snap: Snapshot, now: Time)
    ensures Chatter(s.log, SafeStopped(s, snap, now).log)
  {
  }

  lemma ReplayChatters(s: System, id: PassId, snap: Snapshot, sight: Sight, now: Time)
    ensures Chatter(s.log, Replayed(s, id, snap, sight, now).log)
  {
  }

  lemma PursueChatters(s: System, id: PassId, p: Policy, snap: Snapshot, sight: Sight, now: Time)
    requires KeyOf(snap) in s.recovery
    ensures Chatter(s.log, Pursued(s, id, p, snap, sight, now).log)
  {
    if IsCurrent(RowsOf(s), snap) {
      if sight.orphan && snap.row.role in {REVIEWER, ARCHITECT} {
        ReplayChatters(s, id, snap, sight, now);
      } else {
        StopChatters(s, snap, now);
      }
    }
  }

  lemma RecoverChatters(s: System, id: PassId, p: Policy, snap: Snapshot, sight: Sight, now: Time)
    requires KeyOf(snap) in s.recovery
    ensures Chatter(s.log, Recovered(s, id, p, snap, sight, now).log)
  {
    StopChatters(s, snap, now);
    if s.recovery[KeyOf(snap)].retries < p.maxRecoveries && !s.recovery[KeyOf(snap)].wake {
      PursueChatters(Acquire(s, KeyOf(snap)), id, p, snap, sight, now);
    }
  }

  lemma StartChatters(s: System, id: PassId, p: Policy, sight: Sight, now: Time)
    ensures Chatter(s.log, PassStarted(s, id, p, sight, now).log)
  {
    var sequence := RoleInQuestion(RowsOf(s), sight.gate);
    if sequence > 0 {
      var snap := SnapshotOf(RowsOf(s), sequence, sight.classification);
      RecoverChatters(Observed(s, KeyOf(snap)), id, p, snap, sight, now);
    }
  }

  /** A routing step appends no dispatch, or exactly one, from the attempt it found. */
  lemma RouteLogs(s: System, id: PassId, p: Policy, g: Registry, now: Time)
    ensures var later := PassRouted(s, id, p, g, now);
            || Chatter(s.log, later.log)
            || (exists mid, key :: Chatter(s.log, mid) && later.log == mid + [Entry.Dispatched(key, RowsOf(s).task.attempt)]
                  && RowsOf(later).task.attempt == RowsOf(s).task.attempt + 1)
  {
    if id in s.passes && s.passes[id].at.Routing? && KeyOf(s.passes[id].snapshot) in s.recovery {
      var snap := s.passes[id].snapshot;
      var c := Chosen(RowsOf(s), snap, g);
      var s1 := DecisionRecorded(s, snap, c);
      var gone := s1.(passes := s1.passes - {id});
      assert Chatter(s.log, s1.log);
      StopChatters(gone, snap, now);
      if c.selected.Some? && IsCurrent(RowsOf(s1), snap) {
        RedispatchLogs(s1, id, snap, c.selected.value, now);
      }
    }
  }

  lemma RedispatchLogs(s: System, id: PassId, snap: Snapshot, agent: AgentId, now: Time)
    requires RowsOf(s).task.status !in OVER
    ensures var later := Redispatched(s, id, snap, agent, now);
            || Chatter(s.log, later.log)
            || (later.log == s.log + [Entry.Dispatched(KeyOf(snap), RowsOf(s).task.attempt)]
                && RowsOf(later).task.attempt == RowsOf(s).task.attempt + 1)
  {
    Fencing.ReassignedGrows(RowsOf(s), snap, agent, now);
    var s1 := PutRows(s, Reassigned(RowsOf(s), snap, agent, now));
    StopChatters(s1.(passes := s1.passes - {id}), snap, now);
  }

  lemma AscendOn(log: seq<Entry>, later: seq<Entry>, attempt: nat, laterAttempt: nat)
    requires Ascending(log, attempt) && Chatter(log, later) && attempt <= laterAttempt
    ensures Ascending(later, laterAttempt)
  {
  }

  lemma AscendMore(log: seq<Entry>, key: Key, attempt: nat)
    requires Ascending(log, attempt)
    ensures Ascending(log + [Entry.Dispatched(key, attempt)], attempt + 1)
  {
  }

  lemma StepAscends(s: System, p: Policy, a: Action)
    requires Ascending(s.log, RowsOf(s).task.attempt)
    ensures Ascending(Stepped(s, p, a).log, RowsOf(Stepped(s, p, a)).task.attempt)
  {
    var later := Stepped(s, p, a);
    Fencing.StepGrows(s, p, a);
    match a {
      case StartPass(id, sight, now) =>
        StartChatters(s, id, p, sight, now);
      case RoutePass(id, g, now) =>
        RouteLogs(s, id, p, g, now);
        if !Chatter(s.log, later.log) {
          var mid, key :| Chatter(s.log, mid) && later.log == mid + [Entry.Dispatched(key, RowsOf(s).task.attempt)];
          AscendOn(s.log, mid, RowsOf(s).task.attempt, RowsOf(s).task.attempt);
          AscendMore(mid, key, RowsOf(s).task.attempt);
        }
      case EndPass(_, _) =>
      case AbortPass(_) =>
      case _ => Fencing.OutsideStep(s, p, a);
    }
    if Chatter(s.log, later.log) {
      AscendOn(s.log, later.log, RowsOf(s).task.attempt, RowsOf(later).task.attempt);
    }
  }

  /** However passes overlap, no two re-dispatches start from the same attempt. */
  lemma {:induction false} AttemptsRecoveredOnce(s: System, p: Policy, actions: seq<Action>)
    requires Ascending(s.log, RowsOf(s).task.attempt)
    ensures Ascending(Run(s, p, actions).log, RowsOf(Run(s, p, actions)).task.attempt)
  {
    if actions != [] {
      AttemptsRecoveredOnce(s, p, actions[..|actions| - 1]);
      StepAscends(Run(s, p, actions[..|actions| - 1]), p, actions[|actions| - 1]);
    }
  }

  // ---------------------------------------------------------------- waking

  /** Nobody is recovering under this key. */
  predicate Asleep(s: System, key: Key) {
    key in s.recovery && !s.recovery[key].wake
  }

  lemma StopSleeps(s: System, snap: Snapshot, now: Time)
    requires KeyOf(snap) in s.recovery && RowsOf(s).task.status != COMPLETED
    ensures Asleep(SafeStopped(s, snap, now), KeyOf(snap))
  {
  }

  /** A pass that returns after its first part, having acquired a retry, leaves nobody awake. */
  lemma StartSleeps(s: System, id: PassId, p: Policy, snap: Snapshot, sight: Sight, now: Time)
    requires KeyOf(snap) in s.recovery && RowsOf(s).task.status != COMPLETED && id !in s.passes
    requires s.recovery[KeyOf(snap)].retries < p.maxRecoveries && !s.recovery[KeyOf(snap)].wake
    ensures var later := Recovered(s, id, p, snap, sight, now);
            id !in later.passes ==> Asleep(later, KeyOf(snap))
  {
    var s1 := Acquire(s, KeyOf(snap));
    StopSleeps(s1, snap, now);
  }

  /** A pass that returns after routing, or after publishing, leaves nobody awake. */
  lemma RestSleeps(s: System, id: PassId, p: Policy, g: Registry, now: Time, delivered: bool)
    requires id in s.passes && KeyOf(s.passes[id].snapshot) in s.recovery && RowsOf(s).task.status != COMPLETED
    ensures var key, later := KeyOf(s.passes[id].snapshot), PassRouted(s, id, p, g, now);
            s.passes[id].at.Routing? && id !in later.passes ==> Asleep(later, key)
    ensures var key, later := KeyOf(s.passes[id].snapshot), PassEnded(s, id, delivered);
            s.passes[id].at.Sent? ==> id !in later.passes && Asleep(later, key)
  {
    if s.passes[id].at.Routing? {
      var snap := s.passes[id].snapshot;
      var c := Chosen(RowsOf(s), snap, g);
      var s1 := DecisionRecorded(s, snap, c);
      StopSleeps(s1.(passes := s1.passes - {id}), snap, now);
      if c.selected.Some? && IsCurrent(RowsOf(s1), snap) {
        RedispatchSleeps(s1, id, snap, c.selected.value, now);
      }
    }
  }

  lemma RedispatchSleeps(s: System, id: PassId, snap: Snapshot, agent: AgentId, now: Time)
    requires KeyOf(snap) in s.recovery && RowsOf(s).task.status !in OVER + {COMPLETED}
    ensures var later := Redispatched(s, id, snap, agent, now);
            id !in later.passes ==> Asleep(later, KeyOf(snap))
  {
    Fencing.ReassignedGrows(RowsOf(s), snap, agent, now);
    var s1 := PutRows(s, Reassigned(RowsOf(s), snap, agent, now));
    assert RowsOf(s1).task.status != COMPLETED;
    StopSleeps(s1.(passes := s1.passes - {id}), snap, now);
  }
}
