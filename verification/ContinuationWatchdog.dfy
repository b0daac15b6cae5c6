/** The continuation watchdog as an object over the task's rows: one method per stretch between awaits. */
module ContinuationWatchdog {
  import opened Domain
  import opened Routing
  import opened TaskLifecycle
  import opened Worker
  import opened Watchdog
  import WorkerRuntime
  import Completion

  class ScopedContinuationWatchdog {
    const workers: WorkerRuntime.Runtime
    const store: TaskStore
    const protocol: WorkerRuntime.Protocol
    const policy: Policy
    var recovery: map<Key, Recovery>
    var passes: map<PassId, Pass>
    var watching: bool
    ghost var log: seq<Entry>

    ghost predicate Valid()
      reads this, workers
    {
      workers.Valid() && workers.store == store && workers.protocol == protocol
    }

    ghost function View(): System
      reads this, workers, workers.store, workers.projection, workers.protocol
    {
      System(workers.View(), recovery, passes, watching, log)
    }

    constructor (w: WorkerRuntime.Runtime, p: Policy)
      requires w.Valid()
      ensures Valid() && workers == w && policy == p
      ensures View() == System(w.View(), map[], map[], true, [])
    {
      workers, store, protocol, policy := w, w.store, w.protocol, p;
      recovery, passes, watching, log := map[], map[], true, [];
    }

    // ---------------------------------------------------------------- the recovery row

    method RecordObservation(key: Key)
      requires Valid()
      modifies this`recovery
      ensures View() == Observed(old(View()), key)
    {
      if key !in recovery {
        recovery := recovery[key := Recovery(0, false, None, None)];
      }
    }

    method MarkAction(key: Key, clear: bool)
      requires Valid()
      modifies this`recovery
      ensures View() == Marked(old(View()), key, clear)
    {
      if key in recovery {
        var row := recovery[key].(wake := false);
        if clear {
          row := row.(capacityAt := None, cancelAt := None);
        }
        recovery := recovery[key := row];
      }
    }

    /** Gives a retry back and opens the capacity or the cancel window, unless it is open. */
    method GiveBack(key: Key, capacity: bool, now: Time)
      requires Valid() && key in recovery
      modifies this`recovery, this`log
      ensures View() ==
              Logged(PutRow(old(View()), key,
                            if capacity then GivenBack(old(recovery)[key]).(capacityAt := Or(old(recovery)[key].capacityAt, Some(now)))
                            else GivenBack(old(recovery)[key]).(cancelAt := Or(old(recovery)[key].cancelAt, Some(now)))),
                     Refunded(key))
    {
      var row := recovery[key];
      var retries := if row.retries > 0 then row.retries - 1 else 0;
      row := row.(retries := retries, wake := false);
      if capacity && row.capacityAt.None? {
        row := row.(capacityAt := Some(now));
      }
      if !capacity && row.cancelAt.None? {
        row := row.(cancelAt := Some(now));
      }
      recovery := recovery[key := row];
      log := log + [Refunded(key)];
    }

    // ---------------------------------------------------------------- giving up

    method StopRows(sequence: nat, now: Time)
      modifies store
      ensures store.View() == StoppedRows(old(store.View()), sequence, now)
    {
      if store.task.status !in OVER {
        var to := if store.task.status in {RUNNING, WAITING_RESULT, REVIEWING} then FAIL else CANCELLED;
        var moved := store.Transition(to, NO_PATCH.(result := Some("SAFE_STOP")), now);
      }
      store.Finish(sequence, RoleBLOCKED, "SAFE_STOP", [], now);
      if store.team.Some? {
        store.team := Some(store.team.value.(status := TeamBLOCKED));
      }
    }

    method SafeStop(snap: Snapshot, now: Time)
      requires Valid()
      modifies this, store
      ensures Valid() && View() == SafeStopped(old(View()), snap, now)
    {
      log := log + [Stopped(KeyOf(snap))];
      if store.task.status == COMPLETED {
        return;
      }
      StopRows(snap.sequence, now);
      MarkAction(KeyOf(snap), true);
      watching := false;
    }

    // ---------------------------------------------------------------- the first part of a pass

    method ReplayReviewRevision(id: PassId, snap: Snapshot, sight: Sight, now: Time)
      requires Valid()
      modifies this, store, protocol
      ensures Valid() && View() == Replayed(old(View()), id, snap, sight, now)
    {
      if !sight.missing {
        MarkAction(KeyOf(snap), true);
        return;
      }
      var roles := store.roles;
      var previous := if snap.sequence <= |roles| then LastImplementer(roles, snap.sequence) else 0;
      if previous == 0 || snap.row.assignee.None? {
        SafeStop(snap, now);
        return;
      }
      var row, round := roles[previous - 1], snap.row.round + 1;
      store.Reopen(previous, round);
      protocol.Emit(Envelope(REVISION_REQUEST, row.assignee.value, Some(row.role), round));
      passes := passes[id := Pass(snap, Sent(true))];
    }

    method RequestCancel(snap: Snapshot, terminated: bool, now: Time)
      requires Valid() && KeyOf(snap) in recovery
      modifies this, store
      ensures Valid() && View() == CancelAsked(old(View()), policy, snap, terminated, now)
    {
      var asked := recovery[KeyOf(snap)].cancelAt;
      if (asked.Some? && now - asked.value >= 2 * policy.resultDeadline) || !terminated {
        SafeStop(snap, now);
      } else {
        GiveBack(KeyOf(snap), false, now);
      }
    }

    method Recover(id: PassId, snap: Snapshot, sight: Sight, now: Time)
      requires Valid() && KeyOf(snap) in recovery
      modifies this, store, protocol
      ensures Valid() && View() == Recovered(old(View()), id, policy, snap, sight, now)
    {
      var key := KeyOf(snap);
      if recovery[key].retries >= policy.maxRecoveries {
        SafeStop(snap, now);
        return;
      }
      if recovery[key].wake {
        return;
      }
      recovery := recovery[key := recovery[key].(retries := recovery[key].retries + 1, wake := true)];
      log := log + [Entry.Acquired(key)];
      Pursue(id, snap, sight, now);
    }

    /** The rest of the recovery, once a retry is acquired. */
    method Pursue(id: PassId, snap: Snapshot, sight: Sight, now: Time)
      requires Valid() && KeyOf(snap) in recovery
      modifies this, store, protocol
      ensures Valid() && View() == Pursued(old(View()), id, policy, snap, sight, now)
    {
      var current := IsCurrent(Records(store.task, store.team, store.roles, store.decisions), snap);
      if !current {
        MarkAction(KeyOf(snap), false);
      } else if sight.orphan && snap.row.role in {REVIEWER, ARCHITECT} {
        ReplayReviewRevision(id, snap, sight, now);
      } else if sight.live {
        RequestCancel(snap, sight.terminated, now);
      } else {
        passes := passes[id := Pass(snap, Await.Routing)];
      }
    }

    method StartPass(id: PassId, sight: Sight, now: Time)
      requires Valid()
      modifies this, store, protocol
      ensures Valid() && View() == PassStarted(old(View()), id, policy, sight, now)
    {
      if id in passes || !watching || !sight.budget {
        return;
      }
      var rows := Records(store.task, store.team, store.roles, store.decisions);
      var sequence := RoleInQuestion(rows, sight.gate);
      if sequence == 0 || store.task.status in OVER {
        watching := false;
        return;
      }
      var snap := SnapshotOf(rows, sequence, sight.classification);
      RecordObservation(KeyOf(snap));
      var held := sight.hold || store.task.status == HUMAN_GATE;
      if held || !sight.actionable {
        if sight.progress && !held {
          MarkAction(KeyOf(snap), true);
        }
        return;
      }
      Recover(id, snap, sight, now);
    }

    // ---------------------------------------------------------------- routing and re-dispatching

    /** Up to three routings. */
    method ChooseAgent(snap: Snapshot, g: Registry) returns (c: Choice)
      requires Valid() && DistinctAgents(g.agents)
      ensures c.selected.Some? ==> c == Chosen(store.View(), snap, g).(busy := c.busy)
      ensures c.selected.None? ==> c == Chosen(store.View(), snap, g)
    {
      var rows := Records(store.task, store.team, store.roles, store.decisions);
      var excluded := Excluded(rows, snap);
      var d := Route(Ask(rows, snap, g, excluded + g.failed));
      if d.selected.None? && g.failed != {} {
        d := Route(Ask(rows, snap, g, excluded));
      }
      var busy := BusyOnly(d.rejected);
      if d.selected.None? && !busy && snap.row.assignee.Some? && snap.classification in SAME_WORKER_RETRYABLE {
        d := Route(Ask(rows, snap, g, if snap.row.role == QA then PriorTo(rows.roles, snap.sequence).Values else {}));
        return Choice(d.selected, d.code, false, true);
      }
      return Choice(d.selected, d.code, busy, false);
    }

    method NoRoute(snap: Snapshot, busy: bool, now: Time)
      requires Valid() && KeyOf(snap) in recovery
      modifies this, store
      ensures Valid() && View() == Unrouted(old(View()), policy, snap, busy, now)
    {
      var since := recovery[KeyOf(snap)].capacityAt;
      if busy && (since.None? || now - since.value < policy.progressDeadline) {
        GiveBack(KeyOf(snap), true, now);
      } else {
        SafeStop(snap, now);
      }
    }

    /** Assigns the role and moves the task back and out again, as far as its status allows. */
    method Reassign(snap: Snapshot, agent: AgentId, now: Time)
      requires Valid()
      modifies store
      ensures store.View() == Reassigned(old(store.View()), snap, agent, now)
    {
      store.Assign(snap.sequence, agent, "CONTINUATION_FALLBACK");
      if store.team.Some? {
        store.team := Some(Team(TeamACTIVE, Some(snap.sequence)));
      }
      store.SetCurrentTeamRole(Some(snap.sequence), Some(snap.row.role), Some(agent), now);
      TakeBack(now);
      SendAgain(agent, now);
    }

    method TakeBack(now: Time)
      modifies store`task
      ensures store.View() == old(store.View()).(task := TakenBack(old(store.task), now))
    {
      if store.task.status in {DISPATCHED, BLOCKED} {
        var back := store.Transition(QUEUED, NO_PATCH, now);
      } else if store.task.status in {CLAIMED, RUNNING, WAITING_RESULT, REVIEWING} {
        var back := store.Transition(WAITING_MAIN, NO_PATCH.(result := Some("RECOVERY_FENCE")), now);
      }
    }

    method SendAgain(agent: AgentId, now: Time)
      modifies store`task
      ensures store.View() == old(store.View()).(task := SentAgain(old(store.task), agent, now))
    {
      if store.task.status in {QUEUED, WAITING_MAIN} {
        var out := store.Transition(
          DISPATCHED, NO_PATCH.(assignee := Some(agent), attempt := Some(store.task.attempt + 1)), now);
      }
    }

    method Redispatch(id: PassId, snap: Snapshot, agent: AgentId, now: Time)
      requires Valid()
      modifies this, store, protocol
      ensures Valid() && View() == Redispatched(old(View()), id, snap, agent, now)
    {
      var from := store.task.attempt;
      Reassign(snap, agent, now);
      if store.task.status != DISPATCHED {
        passes := passes - {id};
        SafeStop(snap, now);
        return;
      }
      log := log + [Entry.Dispatched(KeyOf(snap), from)];
      protocol.Emit(Envelope(TASK, agent, Some(snap.row.role), snap.row.round));
      passes := passes[id := Pass(snap, Sent(false))];
    }

    /** Records the decision, whatever comes of it. */
    method Decide(snap: Snapshot, g: Registry) returns (c: Choice)
      requires Valid() && DistinctAgents(g.agents)
      modifies this`log, store`decisions
      ensures Valid() && View() == DecisionRecorded(old(View()), snap, Chosen(old(store.View()), snap, g))
      ensures c.selected == Chosen(old(store.View()), snap, g).selected
      ensures c.selected.None? ==> c == Chosen(old(store.View()), snap, g)
    {
      c := ChooseAgent(snap, g);
      store.RecordDecision(snap.sequence, snap.row.role, Decision(c.selected, c.code, []));
      if c.selected.Some? {
        log := log + [Picked(snap.sequence, c.selected.value, c.again)];
      }
    }

    method RoutePass(id: PassId, g: Registry, now: Time)
      requires Valid() && DistinctAgents(g.agents)
      modifies this, store, protocol
      ensures Valid() && View() == PassRouted(old(View()), id, policy, g, now)
    {
      if id !in passes || !passes[id].at.Routing? || KeyOf(passes[id].snapshot) !in recovery {
        return;
      }
      var snap := passes[id].snapshot;
      var c := Decide(snap, g);
      if c.selected.None? {
        passes := passes - {id};
        NoRoute(snap, c.busy, now);
        return;
      }
      var current := IsCurrent(Records(store.task, store.team, store.roles, store.decisions), snap);
      if !current {
        passes := passes - {id};
        MarkAction(KeyOf(snap), false);
        return;
      }
      Redispatch(id, snap, c.selected.value, now);
    }

    method EndPass(id: PassId, delivered: bool)
      requires Valid()
      modifies this
      ensures Valid() && View() == PassEnded(old(View()), id, delivered)
    {
      if id in passes && passes[id].at.Sent? {
        var pass := passes[id];
        passes := passes - {id};
        MarkAction(KeyOf(pass.snapshot), delivered || !pass.at.replay);
      }
    }
  }
}
