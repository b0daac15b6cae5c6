/** A watched task that stays stuck is given up after a bounded number of passes. */
module RecoveryEnds {
  import opened Domain
  import opened TaskLifecycle
  import opened Worker
  import opened Watchdog
  import opened Asides
  import Fencing

  // ---------------------------------------------------------------- one pass, seen from the recovery row

  /**
   * What a whole pass that does not give up makes of its recovery row: it uses up a retry, or gives it
   * back inside the cancel window or the capacity window. `start` and `route` are its clock readings.
   */
  predicate GoesOn(row: Recovery, later: Recovery, p: Policy, start: Time, route: Time) {
    !later.wake && row.retries < p.maxRecoveries &&
    (|| (later.retries == row.retries + 1 && later.capacityAt == row.capacityAt && later.cancelAt == row.cancelAt)
     || (later.retries == row.retries + 1 && later.capacityAt.None? && later.cancelAt.None?)
     || (later.retries == row.retries && later.capacityAt == row.capacityAt
         && later.cancelAt == Or(row.cancelAt, Some(start))
         && (row.cancelAt.Some? ==> start - row.cancelAt.value < 2 * p.resultDeadline))
     || (later.retries == row.retries && later.cancelAt == row.cancelAt
         && later.capacityAt == Or(row.capacityAt, Some(route))
         && (row.capacityAt.Some? ==> route - row.capacityAt.value < p.progressDeadline)))
  }

  /** How long a window that opened at `since` may still earn refunds, for passes at least `step` apart. */
  function Open(since: Option<Time>, window: int, step: int, now: Time): int {
    match since
    case None => window + 2 * step
    case Some(a) => if a + window + step - now > 0 then a + window + step - now else 0
  }

  function Share(p: Policy, step: int): int {
    2 * p.resultDeadline + p.progressDeadline + 5 * step
  }

  /** Retries left, each worth both windows, and what is left of the windows. */
  function Potential(row: Recovery, p: Policy, step: int, now: Time): int {
    (p.maxRecoveries - row.retries) * Share(p, step)
    + Open(row.cancelAt, 2 * p.resultDeadline, step, now) + Open(row.capacityAt, p.progressDeadline, step, now)
  }

  lemma OneLess(left: int, share: int)
    ensures (left - 1) * share == left * share - share
  {
  }

  lemma StillOpen(since: Option<Time>, window: int, step: int, at: Time, now: Time, next: Time)
    requires step > 0 && window >= 0 && now <= at <= next && now + step <= next
    ensures Open(since, window, step, next) <= Open(since, window, step, now)
    ensures 0 <= Open(since, window, step, next)
    ensures (since.Some? ==> at - since.value < window) ==>
              Open(Or(since, Some(at)), window, step, next) <= Open(since, window, step, now) - step
  {
  }

  /** Every pass that does not give up lowers the potential by at least the time between passes. */
  lemma PassLowers(row: Recovery, later: Recovery, p: Policy, step: int, start: Time, route: Time, next: Time)
    requires GoesOn(row, later, p, start, route) && p.resultDeadline >= 0 && p.progressDeadline >= 0
    requires step > 0 && start <= route <= next && start + step <= next
    ensures Potential(later, p, step, next) <= Potential(row, p, step, start) - step
  {
    StillOpen(row.cancelAt, 2 * p.resultDeadline, step, start, start, next);
    StillOpen(row.capacityAt, p.progressDeadline, step, route, start, next);
    OneLess(p.maxRecoveries - row.retries, Share(p, step));
  }

  // ---------------------------------------------------------------- one pass, in the system

  /** One complete pass, with what happens beside it at its awaits and after it. */
  datatype Script = Script(
    id: PassId, sight: Sight, start: Time, first: seq<Action>, registry: Registry, route: Time,
    second: seq<Action>, delivered: bool, after: seq<Action>)

  function Begun(s: System, p: Policy, x: Script): System {
    Run(Stepped(s, p, StartPass(x.id, x.sight, x.start)), p, x.first)
  }

  function Routed(s: System, p: Policy, x: Script): System {
    Run(Stepped(Begun(s, p, x), p, RoutePass(x.id, x.registry, x.route)), p, x.second)
  }

  function Passed(s: System, p: Policy, x: Script): System {
    Run(Stepped(Routed(s, p, x), p, EndPass(x.id, x.delivered)), p, x.after)
  }

  /** Other passes may overlap this one: for other roles and rounds, or as its suppressed duplicates. */
  ghost predicate Accompanied(s: System, p: Policy, x: Script, key: Key) {
    && AllAlongside(Stepped(s, p, StartPass(x.id, x.sight, x.start)), p, x.first, x.id, key)
    && AllAlongside(Stepped(Begun(s, p, x), p, RoutePass(x.id, x.registry, x.route)), p, x.second, x.id, key)
    && AllAlongside(Stepped(Routed(s, p, x), p, EndPass(x.id, x.delivered)), p, x.after, x.id, key)
  }

  /** The watched task is actionable for the role and round `key`. */
  predicate Stuck(s: System, sight: Sight, key: Key) {
    && About(s, sight, key) && s.watching && sight.budget && sight.actionable && !sight.hold
    && RowsOf(s).task.status !in OVER + {HUMAN_GATE}
  }

  /** The row of a pass that is under way: one retry used, somebody awake. */
  function Held(row: Recovery): Recovery {
    row.(retries := row.retries + 1, wake := true)
  }

  /** The pass is under way, and no other for its key is. */
  predicate InFlight(s: System, key: Key, id: PassId) {
    id in s.passes && KeyOf(s.passes[id].snapshot) == key && OnlyPass(s, key, id)
  }

  /** The pass is over, and no other for its key is under way. */
  predicate Gone(s: System, key: Key, id: PassId) {
    id !in s.passes && NoPass(s, key)
  }

  /** What a pass with an acquired retry makes of its row: it gives up, is over, or waits. */
  ghost predicate Attempts(row: Recovery, later: System, p: Policy, key: Key, id: PassId, start: Time) {
    || StoppedIn(later.log, key)
    || (Gone(later, key, id) && key in later.recovery && GoesOn(row, later.recovery[key], p, start, start))
    || (InFlight(later, key, id) && key in later.recovery && later.recovery[key] == Held(row))
  }

  /** The possible states of a pass after its first part, seen from its row. */
  ghost predicate HalfWay(row: Recovery, later: System, p: Policy, key: Key, id: PassId, start: Time) {
    StoppedIn(later.log, key) || (row.retries < p.maxRecoveries && Attempts(row, later, p, key, id, start))
  }

  /** What a whole pass can come to. */
  ghost predicate Ends(row: Recovery, later: System, p: Policy, key: Key, id: PassId, start: Time, route: Time) {
    || StoppedIn(later.log, key)
    || (Gone(later, key, id) && key in later.recovery &&
        (GoesOn(row, later.recovery[key], p, start, start) || GoesOn(row, later.recovery[key], p, start, route)))
  }

  /** The possible states of a pass after its second part. */
  ghost predicate Published(row: Recovery, later: System, p: Policy, key: Key, id: PassId, start: Time, route: Time) {
    || Ends(row, later, p, key, id, start, route)
    || (InFlight(later, key, id) && later.passes[id].at.Sent?
        && key in later.recovery && later.recovery[key] == Held(row) && row.retries < p.maxRecoveries)
  }

  lemma ReplayGoes(s: System, id: PassId, p: Policy, snap: Snapshot, sight: Sight, row: Recovery, now: Time)
    requires KeyOf(snap) in s.recovery && s.recovery[KeyOf(snap)] == Held(row) && Gone(s, KeyOf(snap), id)
    requires 0 <= row.retries < p.maxRecoveries && !row.wake
    ensures Attempts(row, Replayed(s, id, snap, sight, now), p, KeyOf(snap), id, now)
  {
    StopShows(s, snap, now);
  }

  lemma CancelGoes(s: System, id: PassId, p: Policy, snap: Snapshot, terminated: bool, row: Recovery, now: Time)
    requires KeyOf(snap) in s.recovery && s.recovery[KeyOf(snap)] == Held(row) && Gone(s, KeyOf(snap), id)
    requires 0 <= row.retries < p.maxRecoveries && !row.wake
    ensures Attempts(row, CancelAsked(s, p, snap, terminated, now), p, KeyOf(snap), id, now)
  {
    StopShows(s, snap, now);
  }

  lemma PursueGoes(s: System, id: PassId, p: Policy, snap: Snapshot, sight: Sight, row: Recovery, now: Time)
    requires KeyOf(snap) in s.recovery && s.recovery[KeyOf(snap)] == Held(row) && Gone(s, KeyOf(snap), id)
    requires 0 <= row.retries < p.maxRecoveries && !row.wake
    ensures Attempts(row, Pursued(s, id, p, snap, sight, now), p, KeyOf(snap), id, now)
  {
    if IsCurrent(RowsOf(s), snap) {
      if sight.orphan && snap.row.role in {REVIEWER, ARCHITECT} {
        ReplayGoes(s, id, p, snap, sight, row, now);
      } else if sight.live {
        CancelGoes(s, id, p, snap, sight.terminated, row, now);
      }
    }
  }

  lemma RecoverGoes(s: System, id: PassId, p: Policy, snap: Snapshot, sight: Sight, now: Time)
    requires KeyOf(snap) in s.recovery && !s.recovery[KeyOf(snap)].wake && Gone(s, KeyOf(snap), id)
    requires s.recovery[KeyOf(snap)].retries >= 0
    ensures HalfWay(s.recovery[KeyOf(snap)], Recovered(s, id, p, snap, sight, now), p, KeyOf(snap), id, now)
  {
    if s.recovery[KeyOf(snap)].retries >= p.maxRecoveries {
      StopShows(s, snap, now);
    } else {
      PursueGoes(Acquire(s, KeyOf(snap)), id, p, snap, sight, s.recovery[KeyOf(snap)], now);
    }
  }

  lemma StartGoes(s: System, p: Policy, id: PassId, sight: Sight, now: Time, key: Key)
    requires Stuck(s, sight, key) && Gone(s, key, id) && !RowOf(s, key).wake && RowOf(s, key).retries >= 0
    ensures HalfWay(RowOf(s, key), PassStarted(s, id, p, sight, now), p, key, id, now)
  {
    var snap := SnapshotOf(RowsOf(s), RoleInQuestion(RowsOf(s), sight.gate), sight.classification);
    RecoverGoes(Observed(s, key), id, p, snap, sight, now);
  }

  /** What happens beside a pass gives the task up, or leaves the pass and its row as they are. */
  lemma BesideStays(s: System, later: System, key: Key, id: PassId)
    requires key in s.recovery && Beside(s, later, key, id)
    ensures key in later.recovery && later.recovery[key] == s.recovery[key]
    ensures Gone(s, key, id) ==> Gone(later, key, id)
    ensures InFlight(s, key, id) ==> InFlight(later, key, id) && later.passes[id] == s.passes[id]
  {
    BesideOnly(s, later, key, id);
  }

  /** A run beside the pass, from whatever state it is in. */
  lemma Meanwhile(s: System, p: Policy, actions: seq<Action>, id: PassId, key: Key)
    requires AllAlongside(s, p, actions, id, key)
    requires StoppedIn(s.log, key) || (key in s.recovery && (Gone(s, key, id) || InFlight(s, key, id)))
    ensures var later := Run(s, p, actions);
            || StoppedIn(later.log, key)
            || (key in s.recovery && (Gone(s, key, id) || InFlight(s, key, id)) && Beside(s, later, key, id))
  {
    if StoppedIn(s.log, key) {
      RunLogs(s, p, actions);
      StillStopped(s.log, Run(s, p, actions).log, key);
    } else {
      AlongsideRun(s, p, actions, id, key);
    }
  }

  /** A stop that is not on record afterwards was not on record before. */
  lemma NotYet(s: System, p: Policy, actions: seq<Action>, key: Key)
    ensures StoppedIn(s.log, key) ==> StoppedIn(Run(s, p, actions).log, key)
  {
    RunLogs(s, p, actions);
    if StoppedIn(s.log, key) {
      StillStopped(s.log, Run(s, p, actions).log, key);
    }
  }

  lemma FirstPart(s: System, p: Policy, x: Script, key: Key)
    requires Stuck(s, x.sight, key) && Gone(s, key, x.id) && !RowOf(s, key).wake && RowOf(s, key).retries >= 0
    requires AllAlongside(Stepped(s, p, StartPass(x.id, x.sight, x.start)), p, x.first, x.id, key)
    ensures HalfWay(RowOf(s, key), Begun(s, p, x), p, key, x.id, x.start)
  {
    var started := Stepped(s, p, StartPass(x.id, x.sight, x.start));
    StartGoes(s, p, x.id, x.sight, x.start, key);
    Meanwhile(started, p, x.first, x.id, key);
    NotYet(started, p, x.first, key);
    if !StoppedIn(Begun(s, p, x).log, key) {
      BesideStays(started, Begun(s, p, x), key, x.id);
    }
  }

  lemma RedispatchGoes(s: System, p: Policy, id: PassId, snap: Snapshot, agent: AgentId, now: Time)
    requires KeyOf(snap) in s.recovery && InFlight(s, KeyOf(snap), id) && s.passes[id].snapshot == snap
    ensures var later := Redispatched(s, id, snap, agent, now);
            || StoppedIn(later.log, KeyOf(snap))
            || (InFlight(later, KeyOf(snap), id) && later.passes[id].at.Sent? && later.recovery == s.recovery)
  {
    var s1 := PutRows(s, Reassigned(RowsOf(s), snap, agent, now));
    StopShows(s1.(passes := s1.passes - {id}), snap, now);
  }

  lemma UnroutedGoes(s: System, p: Policy, row: Recovery, snap: Snapshot, busy: bool, id: PassId, start: Time, route: Time)
    requires KeyOf(snap) in s.recovery && Gone(s, KeyOf(snap), id)
    requires s.recovery[KeyOf(snap)] == Held(row) && 0 <= row.retries < p.maxRecoveries
    ensures Ends(row, Unrouted(s, p, snap, busy, route), p, KeyOf(snap), id, start, route)
  {
    StopShows(s, snap, route);
  }

  /** Routing a waiting pass: it gives up, it is over, or it waits for its publication. */
  lemma RouteGoes(s: System, p: Policy, key: Key, row: Recovery, id: PassId, g: Registry, start: Time, route: Time)
    requires InFlight(s, key, id) && key in s.recovery
    requires s.recovery[key] == Held(row) && 0 <= row.retries < p.maxRecoveries
    ensures Published(row, PassRouted(s, id, p, g, route), p, key, id, start, route)
  {
    var pass := s.passes[id];
    if pass.at.Routing? {
      var snap := pass.snapshot;
      var c := Chosen(RowsOf(s), snap, g);
      CarryGoes(DecisionRecorded(s, snap, c), p, key, row, id, snap, c, start, route);
    }
  }

  lemma CarryGoes(s: System, p: Policy, key: Key, row: Recovery, id: PassId, snap: Snapshot, c: Choice, start: Time, route: Time)
    requires InFlight(s, key, id) && s.passes[id].snapshot == snap && key in s.recovery
    requires s.recovery[key] == Held(row) && 0 <= row.retries < p.maxRecoveries
    ensures Published(row, CarriedOut(s, id, p, snap, c, route), p, key, id, start, route)
  {
    var gone := s.(passes := s.passes - {id});
    assert Gone(gone, key, id);
    if c.selected.None? {
      UnroutedGoes(gone, p, row, snap, c.busy, id, start, route);
    } else if IsCurrent(RowsOf(s), snap) {
      RedispatchGoes(s, p, id, snap, c.selected.value, route);
    }
  }

  lemma EndGoes(s: System, p: Policy, key: Key, row: Recovery, id: PassId, delivered: bool, start: Time, route: Time)
    requires InFlight(s, key, id) && s.passes[id].at.Sent? && key in s.recovery
    requires s.recovery[key] == Held(row) && row.retries < p.maxRecoveries
    ensures Ends(row, PassEnded(s, id, delivered), p, key, id, start, route)
  {
  }

  lemma SecondPart(b: System, p: Policy, x: Script, key: Key, row: Recovery)
    requires 0 <= row.retries && HalfWay(row, b, p, key, x.id, x.start)
    requires AllAlongside(Stepped(b, p, RoutePass(x.id, x.registry, x.route)), p, x.second, x.id, key)
    ensures Published(row, Run(Stepped(b, p, RoutePass(x.id, x.registry, x.route)), p, x.second), p, key, x.id, x.start, x.route)
  {
    var routed := Stepped(b, p, RoutePass(x.id, x.registry, x.route));
    StepLogs(b, p, RoutePass(x.id, x.registry, x.route));
    if StoppedIn(b.log, key) {
      StillStopped(b.log, routed.log, key);
    } else if x.id in b.passes {
      RouteGoes(b, p, key, row, x.id, x.registry, x.start, x.route);
    }
    Meanwhile(routed, p, x.second, x.id, key);
    NotYet(routed, p, x.second, key);
    if !StoppedIn(Run(routed, p, x.second).log, key) {
      BesideStays(routed, Run(routed, p, x.second), key, x.id);
    }
  }

  lemma LastPart(r: System, p: Policy, x: Script, key: Key, row: Recovery)
    requires Published(row, r, p, key, x.id, x.start, x.route)
    requires AllAlongside(Stepped(r, p, EndPass(x.id, x.delivered)), p, x.after, x.id, key)
    ensures Ends(row, Run(Stepped(r, p, EndPass(x.id, x.delivered)), p, x.after), p, key, x.id, x.start, x.route)
  {
    var ended := Stepped(r, p, EndPass(x.id, x.delivered));
    StepLogs(r, p, EndPass(x.id, x.delivered));
    if StoppedIn(r.log, key) {
      StillStopped(r.log, ended.log, key);
    } else if x.id in r.passes {
      EndGoes(r, p, key, row, x.id, x.delivered, x.start, x.route);
    }
    Meanwhile(ended, p, x.after, x.id, key);
    NotYet(ended, p, x.after, key);
    if !StoppedIn(Run(ended, p, x.after).log, key) {
      BesideStays(ended, Run(ended, p, x.after), key, x.id);
    }
  }

  /** A complete pass over a stuck task gives up, or goes on in one of the ways listed. */
  lemma PassEnds(s: System, p: Policy, x: Script, key: Key)
    requires Stuck(s, x.sight, key) && Gone(s, key, x.id) && !RowOf(s, key).wake && RowOf(s, key).retries >= 0
    requires Accompanied(s, p, x, key)
    ensures Ends(RowOf(s, key), Passed(s, p, x), p, key, x.id, x.start, x.route)
  {
    FirstPart(s, p, x, key);
    SecondPart(Begun(s, p, x), p, x, key, RowOf(s, key));
    LastPart(Routed(s, p, x), p, x, key, RowOf(s, key));
  }

  // ---------------------------------------------------------------- many passes

  function AfterPasses(s: System, p: Policy, scripts: seq<Script>): System {
    if scripts == [] then s
    else Passed(AfterPasses(s, p, scripts[..|scripts| - 1]), p, scripts[|scripts| - 1])
  }

  /** The task is stuck, no pass for the key is under way, and what happens beside this one leaves it alone. */
  ghost predicate Ready(s: System, p: Policy, x: Script, key: Key) {
    Accompanied(s, p, x, key) && x.start <= x.route && Stuck(s, x.sight, key) && Gone(s, key, x.id)
  }

  /** Before each pass the task is stuck in the same role and round. */
  ghost predicate StaysStuck(s: System, p: Policy, scripts: seq<Script>, key: Key) {
    forall k :: 0 <= k < |scripts| ==> Ready(AfterPasses(s, p, scripts[..k]), p, scripts[k], key)
  }

  predicate Follows(x: Script, y: Script, step: int) {
    x.route <= y.start && x.start + step <= y.start
  }

  /** Pass after pass, at least `step` apart. */
  ghost predicate Paced(scripts: seq<Script>, step: int) {
    forall j, k :: 0 <= j < k < |scripts| ==> Follows(scripts[j], scripts[k], step)
  }

  lemma ReadyAt(s: System, p: Policy, scripts: seq<Script>, key: Key, k: nat)
    requires k < |scripts| && StaysStuck(s, p, scripts, key)
    ensures Ready(AfterPasses(s, p, scripts[..k]), p, scripts[k], key)
  {
  }

  lemma StuckPrefix(s: System, p: Policy, scripts: seq<Script>, key: Key, n: nat)
    requires n <= |scripts| && StaysStuck(s, p, scripts, key)
    ensures StaysStuck(s, p, scripts[..n], key)
  {
    forall k | 0 <= k < n ensures Ready(AfterPasses(s, p, scripts[..n][..k]), p, scripts[..n][k], key) {
      assert scripts[..n][..k] == scripts[..k];
      ReadyAt(s, p, scripts, key, k);
    }
  }

  lemma PacedPrefix(scripts: seq<Script>, step: int, n: nat)
    requires n <= |scripts| && Paced(scripts, step)
    ensures Paced(scripts[..n], step)
  {
    assert forall j :: 0 <= j < n ==> scripts[..n][j] == scripts[j];
  }

  lemma OneStepMore(n: int, step: int)
    ensures n * step == (n - 1) * step + step
  {
  }

  /** As long as no pass gives up, each has used up its share of the potential. */
  lemma {:induction false} PotentialUsed(s: System, p: Policy, scripts: seq<Script>, key: Key, step: int, next: Time)
    requires p.resultDeadline >= 0 && p.progressDeadline >= 0 && step > 0
    requires !RowOf(s, key).wake && RowOf(s, key).retries >= 0
    requires scripts != [] && StaysStuck(s, p, scripts, key) && Paced(scripts, step)
    requires var last := scripts[|scripts| - 1]; last.route <= next && last.start + step <= next
    requires !StoppedIn(AfterPasses(s, p, scripts).log, key)
    ensures var later := RowOf(AfterPasses(s, p, scripts), key);
            && !later.wake && 0 <= later.retries <= p.maxRecoveries
            && Potential(later, p, step, next) + |scripts| * step <= Potential(RowOf(s, key), p, step, scripts[0].start)
  {
    var n := |scripts| - 1;
    var init, x := scripts[..n], scripts[n];
    var mid, later := AfterPasses(s, p, init), AfterPasses(s, p, scripts);
    StuckPrefix(s, p, scripts, key, n);
    PacedPrefix(scripts, step, n);
    ReadyAt(s, p, scripts, key, n);
    if init != [] {
      assert Follows(scripts[n - 1], scripts[n], step);
      if StoppedIn(mid.log, key) {
        PassKeepsStop(mid, p, x, key);
      }
      PotentialUsed(s, p, init, key, step, x.start);
    } else {
      assert mid == s;
    }
    PassEnds(mid, p, x, key);
    var row, row' := RowOf(mid, key), RowOf(later, key);
    if GoesOn(row, row', p, x.start, x.start) {
      PassLowers(row, row', p, step, x.start, x.start, next);
    } else {
      PassLowers(row, row', p, step, x.start, x.route, next);
    }
    OneStepMore(n + 1, step);
  }

  lemma PassKeepsStop(s: System, p: Policy, x: Script, key: Key)
    requires StoppedIn(s.log, key)
    ensures StoppedIn(Passed(s, p, x).log, key)
  {
    var started := Stepped(s, p, StartPass(x.id, x.sight, x.start));
    StepLogs(s, p, StartPass(x.id, x.sight, x.start));
    RunLogs(started, p, x.first);
    var b := Begun(s, p, x);
    StepLogs(b, p, RoutePass(x.id, x.registry, x.route));
    RunLogs(Stepped(b, p, RoutePass(x.id, x.registry, x.route)), p, x.second);
    var r := Routed(s, p, x);
    StepLogs(r, p, EndPass(x.id, x.delivered));
    RunLogs(Stepped(r, p, EndPass(x.id, x.delivered)), p, x.after);
    StillStopped(s.log, Passed(s, p, x).log, key);
  }

  lemma PotentialIsPositive(row: Recovery, p: Policy, step: int, now: Time)
    requires 0 <= row.retries <= p.maxRecoveries && p.resultDeadline >= 0 && p.progressDeadline >= 0 && step > 0
    ensures Potential(row, p, step, now) >= 0
  {
    StillOpen(row.cancelAt, 2 * p.resultDeadline, step, now, now, now + step);
    StillOpen(row.capacityAt, p.progressDeadline, step, now, now, now + step);
    NotNegative(p.maxRecoveries - row.retries, Share(p, step));
  }

  lemma NotNegative(a: int, b: int)
    requires a >= 0 && b >= 0
    ensures a * b >= 0
  {
  }

  /** While the task has not been given up it stays stuck: nothing is asked of what happens afterwards. */
  ghost predicate StuckUntilStopped(s: System, p: Policy, scripts: seq<Script>, key: Key) {
    forall k :: 0 <= k < |scripts| ==>
      StoppedIn(AfterPasses(s, p, scripts[..k]).log, key) || Ready(AfterPasses(s, p, scripts[..k]), p, scripts[k], key)
  }

  lemma {:induction false} StopRemains(s: System, p: Policy, scripts: seq<Script>, key: Key, k: nat)
    requires k <= |scripts| && StoppedIn(AfterPasses(s, p, scripts[..k]).log, key)
    ensures StoppedIn(AfterPasses(s, p, scripts).log, key)
  {
    if k == |scripts| {
      assert scripts[..k] == scripts;
    } else {
      var init := scripts[..|scripts| - 1];
      assert init[..k] == scripts[..k];
      StopRemains(s, p, init, key, k);
      PassKeepsStop(AfterPasses(s, p, init), p, scripts[|scripts| - 1], key);
    }
  }

  // ---------------------------------------------------------------- a stop takes effect

  /** The task is over, and unless it is COMPLETED nobody watches it any more. */
  predicate Yielded(s: System) {
    RowsOf(s).task.status in OVER + {COMPLETED} && (RowsOf(s).task.status != COMPLETED ==> !s.watching)
  }

  ghost predicate NoStop(log: seq<Entry>, later: seq<Entry>) {
    log <= later && forall i :: |log| <= i < |later| ==> !later[i].Stopped?
  }

  /** The watch is never resumed, and a newly logged stop has taken effect. */
  ghost predicate Heeds(s: System, later: System) {
    (later.watching ==> s.watching) && (Yielded(later) || NoStop(s.log, later.log))
  }

  lemma StopHeeds(s: System, snap: Snapshot, now: Time)
    ensures Yielded(SafeStopped(s, snap, now)) && (SafeStopped(s, snap, now).watching ==> s.watching)
  {
    Fencing.StoppedIs(s, snap, now);
  }

  lemma ReplayHeeds(s: System, id: PassId, snap: Snapshot, sight: Sight, now: Time)
    ensures Heeds(s, Replayed(s, id, snap, sight, now))
  {
    StopHeeds(s, snap, now);
  }

  lemma CancelHeeds(s: System, p: Policy, snap: Snapshot, terminated: bool, now: Time)
    requires KeyOf(snap) in s.recovery
    ensures Heeds(s, CancelAsked(s, p, snap, terminated, now))
  {
    StopHeeds(s, snap, now);
  }

  lemma PursueHeeds(s: System, id: PassId, p: Policy, snap: Snapshot, sight: Sight, now: Time)
    requires KeyOf(snap) in s.recovery
    ensures Heeds(s, Pursued(s, id, p, snap, sight, now))
  {
    if IsCurrent(RowsOf(s), snap) {
      if sight.orphan && snap.row.role in {REVIEWER, ARCHITECT} {
        ReplayHeeds(s, id, snap, sight, now);
      } else if sight.live {
        CancelHeeds(s, p, snap, sight.terminated, now);
      }
    }
  }

  lemma HeedsOn(s: System, mid: System, later: System)
    requires mid.watching == s.watching && NoStop(s.log, mid.log) && Heeds(mid, later)
    ensures Heeds(s, later)
  {
  }

  lemma RecoverHeeds(s: System, id: PassId, p: Policy, snap: Snapshot, sight: Sight, now: Time)
    requires KeyOf(snap) in s.recovery
    ensures Heeds(s, Recovered(s, id, p, snap, sight, now))
  {
    var s1 := Acquire(s, KeyOf(snap));
    if s.recovery[KeyOf(snap)].retries >= p.maxRecoveries {
      StopHeeds(s, snap, now);
    } else if !s.recovery[KeyOf(snap)].wake {
      PursueHeeds(s1, id, p, snap, sight, now);
      HeedsOn(s, s1, Recovered(s, id, p, snap, sight, now));
    }
  }

  lemma StartHeeds(s: System, id: PassId, p: Policy, sight: Sight, now: Time)
    ensures Heeds(s, PassStarted(s, id, p, sight, now))
  {
    var sequence := RoleInQuestion(RowsOf(s), sight.gate);
    if sequence > 0 {
      var snap := SnapshotOf(RowsOf(s), sequence, sight.classification);
      RecoverHeeds(Observed(s, KeyOf(snap)), id, p, snap, sight, now);
    }
  }

  lemma RedispatchHeeds(s: System, id: PassId, snap: Snapshot, agent: AgentId, now: Time)
    ensures Heeds(s, Redispatched(s, id, snap, agent, now))
  {
    var s1 := PutRows(s, Reassigned(RowsOf(s), snap, agent, now));
    StopHeeds(s1.(passes := s1.passes - {id}), snap, now);
  }

  lemma UnroutedHeeds(s: System, p: Policy, snap: Snapshot, busy: bool, now: Time)
    requires KeyOf(snap) in s.recovery
    ensures Heeds(s, Unrouted(s, p, snap, busy, now))
  {
    StopHeeds(s, snap, now);
  }

  lemma RecordedHeeds(s: System, snap: Snapshot, c: Choice)
    ensures var s1 := DecisionRecorded(s, snap, c);
            s1.watching == s.watching && NoStop(s.log, s1.log) && s1.recovery == s.recovery && s1.passes == s.passes
  {
  }

  lemma RouteHeeds(s: System, id: PassId, p: Policy, g: Registry, now: Time)
    ensures Heeds(s, PassRouted(s, id, p, g, now))
  {
    if id in s.passes && s.passes[id].at.Routing? && KeyOf(s.passes[id].snapshot) in s.recovery {
      var snap := s.passes[id].snapshot;
      var c := Chosen(RowsOf(s), snap, g);
      var s1 := DecisionRecorded(s, snap, c);
      RecordedHeeds(s, snap, c);
      if c.selected.None? {
        UnroutedHeeds(s1.(passes := s1.passes - {id}), p, snap, c.busy, now);
      } else if IsCurrent(RowsOf(s1), snap) {
        RedispatchHeeds(s1, id, snap, c.selected.value, now);
      }
    }
  }

  lemma StepHeeds(s: System, p: Policy, a: Action)
    ensures Heeds(s, Stepped(s, p, a))
  {
    match a
    case StartPass(id, sight, now) => StartHeeds(s, id, p, sight, now);
    case RoutePass(id, g, now) => RouteHeeds(s, id, p, g, now);
    case EndPass(id, delivered) =>
    case AbortPass(id) =>
    case _ => Fencing.OutsideStep(s, p, a);
  }

  /** A logged stop of `key` has taken effect. */
  predicate Heeded(s: System, key: Key) {
    StoppedIn(s.log, key) ==> Yielded(s)
  }

  lemma HeededOn(s: System, later: System, key: Key)
    requires Heeded(s, key) && Heeds(s, later) && Fencing.Grows(RowsOf(s), RowsOf(later))
    ensures Heeded(later, key)
  {
    if NoStop(s.log, later.log) {
      OldStop(s.log, later.log, key);
    }
  }

  lemma OldStop(log: seq<Entry>, later: seq<Entry>, key: Key)
    requires NoStop(log, later)
    ensures StoppedIn(later, key) ==> StoppedIn(log, key)
  {
  }

  lemma StepHeeded(s: System, p: Policy, a: Action, key: Key)
    requires Heeded(s, key)
    ensures Heeded(Stepped(s, p, a), key)
  {
    StepHeeds(s, p, a);
    Fencing.StepGrows(s, p, a);
    HeededOn(s, Stepped(s, p, a), key);
  }

  /** Over every run, a task that was given up is over and, unless COMPLETED, unwatched from then on. */
  lemma {:induction false} StopsTakeEffect(s: System, p: Policy, actions: seq<Action>, key: Key)
    requires Heeded(s, key)
    ensures Heeded(Run(s, p, actions), key)
  {
    if actions != [] {
      StopsTakeEffect(s, p, actions[..|actions| - 1], key);
      StepHeeded(Run(s, p, actions[..|actions| - 1]), p, actions[|actions| - 1], key);
    }
  }

  lemma {:induction false} PassesHeed(s: System, p: Policy, scripts: seq<Script>, key: Key)
    requires Heeded(s, key)
    ensures Heeded(AfterPasses(s, p, scripts), key)
  {
    if scripts != [] {
      var x := scripts[|scripts| - 1];
      var mid := AfterPasses(s, p, scripts[..|scripts| - 1]);
      PassesHeed(s, p, scripts[..|scripts| - 1], key);
      StepHeeded(mid, p, StartPass(x.id, x.sight, x.start), key);
      StopsTakeEffect(Stepped(mid, p, StartPass(x.id, x.sight, x.start)), p, x.first, key);
      var b := Begun(mid, p, x);
      StepHeeded(b, p, RoutePass(x.id, x.registry, x.route), key);
      StopsTakeEffect(Stepped(b, p, RoutePass(x.id, x.registry, x.route)), p, x.second, key);
      var r := Routed(mid, p, x);
      StepHeeded(r, p, EndPass(x.id, x.delivered), key);
      StopsTakeEffect(Stepped(r, p, EndPass(x.id, x.delivered)), p, x.after, key);
    }
  }

  /** Nobody recovers under the row, and its windows opened before `now`. */
  predicate Rested(row: Recovery, now: Time) {
    && !row.wake && row.retries >= 0
    && (row.capacityAt.Some? ==> row.capacityAt.value <= now) && (row.cancelAt.Some? ==> row.cancelAt.value <= now)
  }

  /** No row has more potential than one that was never recovered. */
  lemma RestedHas(row: Recovery, p: Policy, step: int, now: Time)
    requires p.resultDeadline >= 0 && p.progressDeadline >= 0 && step > 0 && Rested(row, now)
    ensures Potential(row, p, step, now) <= (p.maxRecoveries + 1) * Share(p, step) - step
  {
    Monotone(p.maxRecoveries - row.retries, p.maxRecoveries, Share(p, step));
    OneLess(p.maxRecoveries + 1, Share(p, step));
  }

  lemma Monotone(a: int, b: int, c: int)
    requires a <= b && c >= 0
    ensures a * c <= b * c
  {
  }

  /**
   * Termination: however signals, routing, delivery and everybody else turn out, a task that stays stuck in
   * one role and round until it is given up is given up within (maxRecoveries + 1) times the two windows and
   * five steps, in passes at least one step apart. It does not matter how often it was recovered before, or
   * which passes for other roles or suppressed duplicates overlap. It is then over, and nobody watches it
   * any more unless it was COMPLETED.
   */
  lemma StuckTaskIsGivenUp(s: System, p: Policy, scripts: seq<Script>, key: Key, step: int)
    requires p.resultDeadline >= 0 && p.progressDeadline >= 0 && step > 0
    requires !StoppedIn(s.log, key) && scripts != [] && Rested(RowOf(s, key), scripts[0].start)
    requires StuckUntilStopped(s, p, scripts, key) && Paced(scripts, step)
    requires |scripts| * step > (p.maxRecoveries + 1) * Share(p, step) - step
    ensures StoppedIn(AfterPasses(s, p, scripts).log, key)
    ensures Yielded(AfterPasses(s, p, scripts))
  {
    if !StoppedIn(AfterPasses(s, p, scripts).log, key) {
      forall k | 0 <= k < |scripts| ensures Ready(AfterPasses(s, p, scripts[..k]), p, scripts[k], key) {
        if StoppedIn(AfterPasses(s, p, scripts[..k]).log, key) {
          StopRemains(s, p, scripts, key, k);
        }
      }
      assert StaysStuck(s, p, scripts, key);
      var last := scripts[|scripts| - 1];
      var next := last.route + step;
      RestedHas(RowOf(s, key), p, step, scripts[0].start);
      PotentialUsed(s, p, scripts, key, step, next);
      PotentialIsPositive(RowOf(AfterPasses(s, p, scripts), key), p, step, next);
    }
    PassesHeed(s, p, scripts, key);
  }
}
