/** The projection that may finish a task: its gate, and what one call writes. */
module Completion {
  import opened Domain
  import opened TaskLifecycle

  // ---------------------------------------------------------------- the gate

  /**
   * What the gate takes from the task, and its readings of free text: `rejects` for a reviewer's
   * words, `fails` for QA's, `compromised` for a routing reason, `mentions` for a validation command.
   */
  datatype Gate = Gate(
    required: seq<string>, rejects: string -> bool, fails: string -> bool, compromised: string -> bool,
    mentions: (string, string) -> bool)

  function Joined(parts: seq<string>): string {
    if parts == [] then ""
    else if |parts| == 1 then parts[0]
    else parts[0] + " " + Joined(parts[1..])
  }

  function Said(row: RoleRow): string {
    TextOf(row.result) + " " + Joined(row.evidence)
  }

  function TextOf(s: Option<string>): string {
    if s.Some? then s.value else ""
  }

  function Find(roles: seq<RoleRow>, role: Role): Option<RoleRow> {
    if roles == [] then None
    else if roles[0].role == role then Some(roles[0])
    else Find(roles[1..], role)
  }

  function Contributors(roles: seq<RoleRow>): set<AgentId> {
    set i | 0 <= i < |roles| && roles[i].role in IMPLEMENTERS + {REVIEWER} && roles[i].assignee.Some?
      :: roles[i].assignee.value
  }

  predicate AllRolesPassed(roles: seq<RoleRow>) {
    forall i :: 0 <= i < |roles| ==> roles[i].status == RolePASS
  }

  predicate MentionsAll(g: Gate, text: string) {
    forall i :: 0 <= i < |g.required| ==> g.mentions(text, g.required[i])
  }

  /** The gate as the code computes it. */
  predicate CanComplete(g: Gate, roles: seq<RoleRow>) {
    if roles == [] || !AllRolesPassed(roles) then false
    else
      var reviewer, qa, developer := Find(roles, REVIEWER), Find(roles, QA), Find(roles, DEVELOPER);
      if reviewer.None? || g.rejects(Said(reviewer.value)) then false
      else if g.compromised(TextOf(reviewer.value.reason)) then false
      else if qa.Some? && g.fails(Said(qa.value)) then false
      else if g.required != [] && developer.None? then false
      else if developer.Some? && developer.value.assignee.Some? && reviewer.value.assignee == developer.value.assignee then false
      else if qa.Some? && qa.value.assignee.Some? && qa.value.assignee.value in Contributors(roles) then false
      else if g.required == [] || qa.Some? then true
      else MentionsAll(g, Said(developer.value))
  }

  predicate OncePerRole(roles: seq<RoleRow>) {
    forall i, j :: 0 <= i < j < |roles| ==> roles[i].role != roles[j].role
  }

  predicate SameAgent(a: RoleRow, b: RoleRow) {
    a.assignee.Some? && a.assignee == b.assignee
  }

  ghost predicate Independent(roles: seq<RoleRow>) {
    forall a, b :: a in roles && b in roles && SameAgent(a, b) ==>
      && !(a.role == DEVELOPER && b.role == REVIEWER)
      && !(a.role in IMPLEMENTERS + {REVIEWER} && b.role == QA)
  }

  ghost predicate Approved(g: Gate, roles: seq<RoleRow>) {
    && (exists r :: r in roles && r.role == REVIEWER)
    && (forall r :: r in roles && r.role == REVIEWER ==> !g.rejects(Said(r)) && !g.compromised(TextOf(r.reason)))
    && (forall r :: r in roles && r.role == QA ==> !g.fails(Said(r)))
  }

  ghost predicate Validated(g: Gate, roles: seq<RoleRow>) {
    g.required != [] ==>
      exists d :: d in roles && d.role == DEVELOPER &&
        ((exists q :: q in roles && q.role == QA) || MentionsAll(g, Said(d)))
  }

  lemma {:induction false} FindIff(roles: seq<RoleRow>, role: Role)
    requires OncePerRole(roles)
    ensures forall r :: r in roles && r.role == role <==> Find(roles, role) == Some(r)
  {
    if roles != [] {
      var rest := roles[1..];
      assert roles == [roles[0]] + rest;
      assert forall i :: 0 <= i < |rest| ==> rest[i] == roles[i + 1];
      FindIff(rest, role);
      forall r | r in rest ensures r.role != roles[0].role {
        var i :| 0 <= i < |rest| && rest[i] == r;
        assert roles[i + 1] == r;
      }
    }
  }

  lemma ContributorsIff(roles: seq<RoleRow>, a: AgentId)
    ensures a in Contributors(roles) <==> exists r :: r in roles && r.role in IMPLEMENTERS + {REVIEWER} && r.assignee == Some(a)
  {
    if r :| r in roles && r.role in IMPLEMENTERS + {REVIEWER} && r.assignee == Some(a) {
      var i :| 0 <= i < |roles| && roles[i] == r;
      assert roles[i].assignee.value in Contributors(roles);
    }
  }

  /**
   * The gate opens exactly when every role passed, reviewer and QA approved, the agents were
   * independent, and required validation is covered by QA or by the developer's own words.
   */
  lemma GateIff(g: Gate, roles: seq<RoleRow>)
    requires OncePerRole(roles)
    ensures CanComplete(g, roles) <==>
            AllRolesPassed(roles) && Approved(g, roles) && Independent(roles) && Validated(g, roles)
  {
    FindIff(roles, REVIEWER);
    FindIff(roles, QA);
    FindIff(roles, DEVELOPER);
    IndependentIff(roles);
    if Find(roles, REVIEWER).Some? {
      assert Find(roles, REVIEWER).value in roles;
    }
    if Find(roles, QA).Some? {
      assert Find(roles, QA).value in roles;
    }
    if Find(roles, DEVELOPER).Some? {
      assert Find(roles, DEVELOPER).value in roles;
    }
  }

  lemma IndependentIff(roles: seq<RoleRow>)
    requires OncePerRole(roles)
    ensures var reviewer, qa, developer := Find(roles, REVIEWER), Find(roles, QA), Find(roles, DEVELOPER);
            Independent(roles) <==>
              && !(developer.Some? && reviewer.Some? && SameAgent(developer.value, reviewer.value))
              && !(qa.Some? && qa.value.assignee.Some? && qa.value.assignee.value in Contributors(roles))
  {
    FindIff(roles, REVIEWER);
    FindIff(roles, QA);
    FindIff(roles, DEVELOPER);
    var reviewer, qa, developer := Find(roles, REVIEWER), Find(roles, QA), Find(roles, DEVELOPER);
    if qa.Some? && qa.value.assignee.Some? {
      ContributorsIff(roles, qa.value.assignee.value);
    }
    if Independent(roles) {
      if developer.Some? && reviewer.Some? {
        assert developer.value in roles && reviewer.value in roles;
      }
      if qa.Some? {
        assert qa.value in roles;
      }
    }
  }

  // ---------------------------------------------------------------- one call

  /** A protocol event: for a verdict, whether its text mentions `chain_complete` and whether it says it is true. */
  datatype Event = VERDICT(mentionsChain: bool, chainComplete: bool) | COMPLETION | OTHER

  /** One task's rows and its events in order of creation. */
  datatype Ledger = Ledger(rows: Records, events: seq<Event>)

  datatype Reason =
    | STATUS_NOT_PROJECTABLE | NOT_ALL_PASSED | GATE_NOT_SATISFIED | TEAM_NOT_COMPLETE | ALREADY_COMPLETED
    | PROJECTED_TO_PASS | ALREADY_PASS | AUTHORITATIVE_COMPLETION | STATUS_NOT_COMPLETABLE

  predicate ChainMentioned(events: seq<Event>) {
    exists i :: 0 <= i < |events| && events[i].VERDICT? && events[i].mentionsChain
  }

  /** Does the latest verdict say the chain is complete? */
  predicate ChainComplete(events: seq<Event>) {
    if events == [] then false
    else if events[|events| - 1].VERDICT? then events[|events| - 1].chainComplete
    else ChainComplete(events[..|events| - 1])
  }

  const DONE_TEXT := "TEAM_COMPLETE: all required Roles passed"

  predicate Spoke(row: RoleRow) {
    row.result.Some? && row.result.value != ""
  }

  function FinalResult(roles: seq<RoleRow>): string {
    if roles == [] then DONE_TEXT
    else if Spoke(roles[|roles| - 1]) then roles[|roles| - 1].result.value
    else FinalResult(roles[..|roles| - 1])
  }

  /** The statuses the projection walks through, after the one it starts from. */
  function RouteToPass(from: TaskStatus): seq<TaskStatus> {
    match from
    case DISPATCHED => [CLAIMED, RUNNING, WAITING_RESULT, PASS]
    case CLAIMED => [RUNNING, WAITING_RESULT, PASS]
    case RUNNING => [WAITING_RESULT, PASS]
    case WAITING_RESULT => [PASS]
    case REVIEWING => [PASS]
    case WAITING_MAIN => [PASS]
    case _ => []
  }

  const PROJECTABLE: set<TaskStatus> := {DISPATCHED, CLAIMED, RUNNING, WAITING_RESULT, REVIEWING, WAITING_MAIN}

  function WalkTo(t: TaskRow, path: seq<TaskStatus>, result: string, now: Time): TaskRow
    decreases |path|
  {
    if path == [] then t
    else
      var to := path[0];
      WalkTo(Transitioned(t, to, if to == PASS then NO_PATCH.(result := Some(result)) else NO_PATCH, now), path[1..], result, now)
  }

  function WithTask(s: Ledger, t: TaskRow): Ledger {
    s.(rows := s.rows.(task := t))
  }

  /** Team and candidate flag, once the gate is open. */
  function Noted(s: Ledger, now: Time): Ledger {
    var rows := if s.rows.team.Some? && s.rows.team.value.status == COMPLETE then s.rows else TeamCompleted(s.rows);
    if rows.task.candidate then s.(rows := rows)
    else s.(rows := rows.(task := rows.task.(candidate := true, updatedAt := now)))
  }

  function Finalised(s: Ledger, live: bool, now: Time): (Ledger, bool, Reason) {
    if !live then (s, false, ALREADY_PASS)
    else
      var s' := if COMPLETION in s.events then s else s.(events := s.events + [COMPLETION]);
      var t := s'.rows.task;
      if t.status == PASS then
        var result := if TextOf(t.result) != "" then t.result.value else DONE_TEXT;
        (WithTask(s', Transitioned(t, COMPLETED, NO_PATCH.(result := Some(result)), now)), true, AUTHORITATIVE_COMPLETION)
      else (s', false, if t.status == COMPLETED then ALREADY_COMPLETED else STATUS_NOT_COMPLETABLE)
  }

  /** Why a call stops before writing anything, if it does. */
  function Refusal(s: Ledger, g: Gate): Option<Reason>
    requires s.rows.team.Some?
  {
    var status := s.rows.task.status;
    if status in {FAIL, BLOCKED, HUMAN_GATE} then Some(STATUS_NOT_PROJECTABLE)
    else if status == WAITING_MAIN && !ChainMentioned(s.events) then Some(STATUS_NOT_PROJECTABLE)
    else if !AllPassed(s.rows) then Some(NOT_ALL_PASSED)
    else if !CanComplete(g, s.rows.roles) then Some(GATE_NOT_SATISFIED)
    else if s.rows.team.value.status != COMPLETE && !ChainComplete(s.events) then Some(TEAM_NOT_COMPLETE)
    else None
  }

  /** Walked to PASS from a projectable status. */
  function Passed(s: Ledger, result: string, now: Time): Ledger {
    WithTask(s, WalkTo(s.rows.task, RouteToPass(s.rows.task.status), result, now))
  }

  /** What a call that is not refused writes and answers. */
  function Accepted(s: Ledger, live: bool, now: Time): (Ledger, bool, Reason) {
    var s', status := Noted(s, now), s.rows.task.status;
    if status == COMPLETED then (s', false, ALREADY_COMPLETED)
    else if status == PASS then Finalised(s', live, now)
    else if status !in PROJECTABLE then (s', false, STATUS_NOT_PROJECTABLE)
    else
      var passed := Passed(s', FinalResult(s.rows.roles), now);
      if live then Finalised(passed, live, now) else (passed, true, PROJECTED_TO_PASS)
  }

  function Reconciled(s: Ledger, g: Gate, live: bool, now: Time): (Ledger, bool, Reason)
    requires s.rows.team.Some?
  {
    var refusal := Refusal(s, g);
    if refusal.Some? then (s, false, refusal.value) else Accepted(s, live, now)
  }

  class TaskCompletionProjection {
    const store: TaskStore
    const live: bool
    var events: seq<Event>

    ghost function View(): Ledger
      reads this, store
    {
      Ledger(store.View(), events)
    }

    constructor (s: TaskStore, authoritative: bool)
      ensures store == s && live == authoritative && events == []
    {
      store, live, events := s, authoritative, [];
    }

    method ProjectToPass(result: string, now: Time)
      modifies store`task
      ensures store.task == WalkTo(old(store.task), RouteToPass(old(store.task.status)), result, now)
    {
      var path := RouteToPass(store.task.status);
      var k := 0;
      while k < |path|
        invariant 0 <= k <= |path|
        invariant WalkTo(store.task, path[k..], result, now) == WalkTo(old(store.task), path, result, now)
      {
        var ok := store.Transition(path[k], if path[k] == PASS then NO_PATCH.(result := Some(result)) else NO_PATCH, now);
        k := k + 1;
      }
    }

    method AuthoritativeCompletion(now: Time) returns (projected: bool, reason: Reason)
      modifies this`events, store`task
      ensures (View(), projected, reason) == Finalised(old(View()), live, now)
    {
      if !live {
        return false, ALREADY_PASS;
      }
      if COMPLETION !in events {
        events := events + [COMPLETION];
      }
      if store.task.status == PASS {
        var result := if TextOf(store.task.result) != "" then store.task.result.value else DONE_TEXT;
        var ok := store.Transition(COMPLETED, NO_PATCH.(result := Some(result)), now);
        return true, AUTHORITATIVE_COMPLETION;
      }
      return false, if store.task.status == COMPLETED then ALREADY_COMPLETED else STATUS_NOT_COMPLETABLE;
    }

    method Reconcile(g: Gate, now: Time) returns (projected: bool, reason: Reason)
      requires store.team.Some?
      modifies this`events, store`task, store`team
      ensures (View(), projected, reason) == Reconciled(old(View()), g, live, now)
    {
      var status := store.task.status;
      if status in {FAIL, BLOCKED, HUMAN_GATE} {
        return false, STATUS_NOT_PROJECTABLE;
      }
      if status == WAITING_MAIN && !ChainMentioned(events) {
        return false, STATUS_NOT_PROJECTABLE;
      }
      var all := store.CountAllPassed();
      if !all {
        return false, NOT_ALL_PASSED;
      }
      if !CanComplete(g, store.roles) {
        return false, GATE_NOT_SATISFIED;
      }
      if store.team.value.status != COMPLETE {
        if !ChainComplete(events) {
          return false, TEAM_NOT_COMPLETE;
        }
        store.Complete();
      }
      if !store.task.candidate {
        store.SetCompletionCandidate(true, now);
      }
      assert View() == Noted(old(View()), now);
      if status == COMPLETED {
        return false, ALREADY_COMPLETED;
      }
      if status == PASS {
        projected, reason := AuthoritativeCompletion(now);
        return;
      }
      if status !in PROJECTABLE {
        return false, STATUS_NOT_PROJECTABLE;
      }
      ProjectToPass(FinalResult(store.roles), now);
      if !live {
        return true, PROJECTED_TO_PASS;
      }
      projected, reason := AuthoritativeCompletion(now);
    }
  }

  // ---------------------------------------------------------------- what a call guarantees

  /** A walk along legal edges that meets PASS at its end and only there. */
  predicate LegalToPass(from: TaskStatus, path: seq<TaskStatus>)
    decreases |path|
  {
    path == [] ||
    (path[0] in Transitions(from) && (path[0] == PASS <==> |path| == 1) && LegalToPass(path[0], path[1..]))
  }

  lemma RouteIsLegal(from: TaskStatus)
    ensures LegalToPass(from, RouteToPass(from))
    ensures from in PROJECTABLE <==> RouteToPass(from) != []
  {
    assert LegalToPass(WAITING_RESULT, [PASS]);
    assert [WAITING_RESULT, PASS][1..] == [PASS];
    assert LegalToPass(RUNNING, [WAITING_RESULT, PASS]);
    assert [RUNNING, WAITING_RESULT, PASS][1..] == [WAITING_RESULT, PASS];
    assert LegalToPass(CLAIMED, [RUNNING, WAITING_RESULT, PASS]);
    assert [CLAIMED, RUNNING, WAITING_RESULT, PASS][1..] == [RUNNING, WAITING_RESULT, PASS];
  }

  /** Every step of the projection is accepted by the state machine, and it ends in PASS with the final result. */
  lemma {:induction false} WalkIsLegal(t: TaskRow, path: seq<TaskStatus>, result: string, now: Time)
    requires LegalToPass(t.status, path)
    ensures var u := WalkTo(t, path, result, now);
            && u.status == (if path == [] then t.status else PASS)
            && u.result == (if path == [] then t.result else Some(result))
            && u.candidate == t.candidate && u.attempt == t.attempt && u.assignee == t.assignee
    decreases |path|
  {
    if path != [] {
      var p := if path[0] == PASS then NO_PATCH.(result := Some(result)) else NO_PATCH;
      WalkIsLegal(Transitioned(t, path[0], p, now), path[1..], result, now);
    }
  }

  lemma PassedWrites(s: Ledger, result: string, now: Time)
    requires s.rows.task.status in PROJECTABLE
    ensures var t := Passed(s, result, now).rows.task;
            && t.status == PASS && t.result == Some(result) && t.candidate == s.rows.task.candidate
            && t.attempt == s.rows.task.attempt
  {
    RouteIsLegal(s.rows.task.status);
    WalkIsLegal(s.rows.task, RouteToPass(s.rows.task.status), result, now);
  }

  lemma NotedWrites(s: Ledger, now: Time)
    requires s.rows.team.Some?
    ensures var r := Noted(s, now);
            && r.events == s.events && r.rows.roles == s.rows.roles && r.rows.decisions == s.rows.decisions
            && r.rows.team == Some(Team(COMPLETE, if s.rows.team.value.status == COMPLETE then s.rows.team.value.current else None))
            && r.rows.task == s.rows.task.(candidate := true, updatedAt := r.rows.task.updatedAt)
  {
  }

  lemma FinalisedWrites(s: Ledger, now: Time)
    ensures var before, r := s.rows.task.status, Finalised(s, true, now).0;
            && r.rows == s.rows.(task := r.rows.task)
            && r.rows.task.status == (if before == PASS then COMPLETED else before)
            && r.rows.task.candidate == s.rows.task.candidate && r.rows.task.attempt == s.rows.task.attempt
            && r.events == (if COMPLETION in s.events then s.events else s.events + [COMPLETION])
  {
  }

  /** What an accepted call leaves, field by field. */
  lemma AcceptedWrites(s: Ledger, live: bool, now: Time)
    requires s.rows.team.Some?
    ensures var before, r := s.rows.task.status, Accepted(s, live, now).0;
            && r.rows.task.status == (if before in PROJECTABLE + {PASS} then (if live then COMPLETED else PASS) else before)
            && r.rows.task.candidate && r.rows.task.attempt == s.rows.task.attempt
            && r.rows.roles == s.rows.roles && r.rows.decisions == s.rows.decisions
            && r.rows.team == Some(Team(COMPLETE, if s.rows.team.value.status == COMPLETE then s.rows.team.value.current else None))
            && r.events == (if live && before in PROJECTABLE + {PASS}
                             && COMPLETION !in s.events then s.events + [COMPLETION] else s.events)
  {
    var noted := Noted(s, now);
    NotedWrites(s, now);
    if s.rows.task.status == PASS {
      FinalisedWrites(noted, now);
    } else if s.rows.task.status in PROJECTABLE {
      PassedWrites(noted, FinalResult(s.rows.roles), now);
      FinalisedWrites(Passed(noted, FinalResult(s.rows.roles), now), now);
    }
  }

  function Outcome(s: Ledger, g: Gate, live: bool, now: Time): (r: Ledger)
    requires s.rows.team.Some?
    ensures r.rows.team.Some?
  {
    AcceptedWrites(s, live, now);
    Reconciled(s, g, live, now).0
  }

  /**
   * A call changes the status only of a task whose roles all passed and satisfy the gate and whose chain
   * is complete, and only to PASS or COMPLETED; the roles themselves it never touches.
   */
  lemma ProjectionIsSafe(s: Ledger, g: Gate, live: bool, now: Time)
    requires s.rows.team.Some? && OncePerRole(s.rows.roles)
    ensures var after := Outcome(s, g, live, now);
            && after.rows.roles == s.rows.roles
            && (after.rows.task.status != s.rows.task.status ==>
                  && AllRolesPassed(s.rows.roles) && Approved(g, s.rows.roles)
                  && Independent(s.rows.roles) && Validated(g, s.rows.roles)
                  && (s.rows.team.value.status == COMPLETE || ChainComplete(s.events))
                  && after.rows.task.status in {PASS, COMPLETED} && after.rows.task.candidate
                  && after.rows.team.value.status == COMPLETE)
  {
    AcceptedWrites(s, live, now);
    GateIff(g, s.rows.roles);
  }

  /** The latest verdict says that the chain is complete. */
  ghost predicate LatestVerdictCompletes(events: seq<Event>) {
    exists i :: 0 <= i < |events| && events[i].VERDICT? && events[i].chainComplete &&
      forall j :: i < j < |events| ==> !events[j].VERDICT?
  }

  lemma {:induction false} ChainCompleteIff(events: seq<Event>)
    ensures ChainComplete(events) <==> LatestVerdictCompletes(events)
  {
    if events != [] {
      var n := |events| - 1;
      ChainCompleteIff(events[..n]);
      if LatestVerdictCompletes(events[..n]) && !events[n].VERDICT? {
        var i :| 0 <= i < n && events[..n][i].VERDICT? && events[..n][i].chainComplete
                 && (forall j :: i < j < n ==> !events[..n][j].VERDICT?);
        assert forall j :: i < j < n ==> !events[j].VERDICT? by {
          forall j | i < j < n ensures !events[j].VERDICT? {
            assert !events[..n][j].VERDICT?;
          }
        }
      }
      if LatestVerdictCompletes(events) && !events[n].VERDICT? {
        var i :| 0 <= i < |events| && events[i].VERDICT? && events[i].chainComplete
                 && (forall j :: i < j < |events| ==> !events[j].VERDICT?);
        assert events[..n][i].VERDICT?;
      }
    }
  }

  /** The words of the last role that said something, or the standard text. */
  ghost predicate LastWords(roles: seq<RoleRow>, text: string) {
    || (exists i :: 0 <= i < |roles| && roles[i].result == Some(text) && text != ""
                    && (forall j :: i < j < |roles| ==> !Spoke(roles[j])))
    || ((forall i :: 0 <= i < |roles| ==> !Spoke(roles[i])) && text == "TEAM_COMPLETE: all required Roles passed")
  }

  lemma {:induction false} FinalResultIs(roles: seq<RoleRow>)
    ensures LastWords(roles, FinalResult(roles))
  {
    if roles != [] {
      var n := |roles| - 1;
      if !Spoke(roles[n]) {
        FinalResultIs(roles[..n]);
        var text := FinalResult(roles[..n]);
        if i :| 0 <= i < n && roles[..n][i].result == Some(text) && text != "" && forall j :: i < j < n ==> !Spoke(roles[..n][j]) {
          forall j | i < j < |roles| ensures !Spoke(roles[j]) {
            assert j < n ==> roles[..n][j] == roles[j];
          }
          assert roles[i].result == Some(text);
        } else {
          forall i | 0 <= i < |roles| ensures !Spoke(roles[i]) {
            assert i < n ==> roles[..n][i] == roles[i];
          }
        }
      }
    }
  }

  /** The task may be projected: its status allows it, the gate is open and the chain is complete. */
  ghost predicate MayProject(s: Ledger, g: Gate)
    requires s.rows.team.Some?
  {
    var roles, status := s.rows.roles, s.rows.task.status;
    && status !in {FAIL, BLOCKED, HUMAN_GATE}
    && (status == WAITING_MAIN ==> exists i :: 0 <= i < |s.events| && s.events[i].VERDICT? && s.events[i].mentionsChain)
    && roles != [] && AllRolesPassed(roles) && Approved(g, roles) && Independent(roles) && Validated(g, roles)
    && (s.rows.team.value.status == COMPLETE || LatestVerdictCompletes(s.events))
  }

  /**
   * One call exactly: if the task may not be projected nothing is written. Otherwise the team is complete and
   * the task a candidate; a task on its way ends in PASS with the last role's words, and in COMPLETED, with its
   * one event, where a protocol is attached; one that is PASS already only takes the second step.
   */
  lemma ReconcileDecides(s: Ledger, g: Gate, live: bool, now: Time)
    requires s.rows.team.Some? && OncePerRole(s.rows.roles)
    ensures var before, after := s.rows.task.status, Outcome(s, g, live, now);
            if !MayProject(s, g) then after == s && !Reconciled(s, g, live, now).1
            else
              && after.rows.task.candidate && after.rows.team.value.status == COMPLETE && after.rows.roles == s.rows.roles
              && (before in {DISPATCHED, CLAIMED, RUNNING, WAITING_RESULT, REVIEWING, WAITING_MAIN, PASS} ==>
                    && after.rows.task.status == (if live then COMPLETED else PASS)
                    && (live ==> COMPLETION in after.events)
                    && (before != PASS ==> LastWords(s.rows.roles, TextOf(after.rows.task.result))))
              && (before !in {DISPATCHED, CLAIMED, RUNNING, WAITING_RESULT, REVIEWING, WAITING_MAIN, PASS} ==>
                    after.rows.task.status == before && after.events == s.events)
  {
    RefusalIff(s, g);
    AcceptedWrites(s, live, now);
    if s.rows.task.status in PROJECTABLE {
      ResultIs(s, live, now);
      FinalResultIs(s.rows.roles);
    }
  }

  lemma RefusalIff(s: Ledger, g: Gate)
    requires s.rows.team.Some? && OncePerRole(s.rows.roles)
    ensures Refusal(s, g).None? <==> MayProject(s, g)
  {
    GateIff(g, s.rows.roles);
    ChainCompleteIff(s.events);
  }

  lemma ResultIs(s: Ledger, live: bool, now: Time)
    requires s.rows.team.Some? && s.rows.task.status in PROJECTABLE
    ensures Accepted(s, live, now).0.rows.task.result == Some(FinalResult(s.rows.roles))
  {
    PassedWrites(Noted(s, now), FinalResult(s.rows.roles), now);
    FinalResultIs(s.rows.roles);
  }

  lemma AcceptedTwice(s: Ledger, live: bool, now: Time, later: Time)
    requires s.rows.team.Some?
    ensures var once := Accepted(s, live, now).0; Accepted(once, live, later).0 == once
  {
    AcceptedWrites(s, live, now);
    var once := Accepted(s, live, now).0;
    assert Noted(once, later) == once;
  }

  /** Calling twice writes what calling once wrote, whatever the clock. */
  lemma ReconcileIsIdempotent(s: Ledger, g: Gate, live: bool, now: Time, later: Time)
    requires s.rows.team.Some?
    ensures var once := Outcome(s, g, live, now); Outcome(once, g, live, later) == once
  {
    AcceptedTwice(s, live, now, later);
  }

  /**
   * Reconciling a COMPLETED task never changes its status, result or events. It changes nothing at all
   * exactly when the call is refused or team and candidate flag were already recorded.
   */
  lemma CompletedUnchangedIff(s: Ledger, g: Gate, live: bool, now: Time)
    requires s.rows.team.Some? && s.rows.task.status == COMPLETED
    ensures var after := Outcome(s, g, live, now);
            && after.events == s.events && after.rows.roles == s.rows.roles
            && after.rows.task.(candidate := s.rows.task.candidate, updatedAt := s.rows.task.updatedAt) == s.rows.task
            && (after == s <==> Refusal(s, g).Some? || (s.rows.team.value.status == COMPLETE && s.rows.task.candidate))
  {
    AcceptedWrites(s, live, now);
  }

  const TRUSTING := Gate([], text => false, text => false, text => false, (text, item) => true)

  const REVIEWED := RoleRow(REVIEWER, RolePASS, Some(CODEX), 0, None, None, None, None, [])

  /** A completed task whose team row was made active again afterwards, as activating a role does. */
  const REVIVED := Ledger(
    Records(TaskRow(COMPLETED, REVIEWER, Some(CODEX), 1, None, None, None, None, [], None, None, true, 0),
            Some(Team(TeamACTIVE, Some(1))), [REVIEWED], []),
    [VERDICT(true, true), COMPLETION])

  /** So reconciling a COMPLETED task is not always without effect: here it completes the team again. */
  lemma CompletedStillWritten(live: bool, now: Time)
    ensures Outcome(REVIVED, TRUSTING, live, now) == REVIVED.(rows := REVIVED.rows.(team := Some(Team(COMPLETE, None))))
    ensures Outcome(REVIVED, TRUSTING, live, now) != REVIVED
  {
    assert CanComplete(TRUSTING, [REVIEWED]);
    assert ChainComplete([VERDICT(true, true)]);
    assert REVIVED.events[..1] == [VERDICT(true, true)];
  }

  // ---------------------------------------------------------------- runs

  function Completions(events: seq<Event>): nat {
    if events == [] then 0
    else Completions(events[..|events| - 1]) + (if events[|events| - 1] == COMPLETION then 1 else 0)
  }

  lemma {:induction false} CountsCompletion(events: seq<Event>)
    ensures Completions(events) == 0 <==> COMPLETION !in events
  {
    if events != [] {
      CountsCompletion(events[..|events| - 1]);
      assert events == events[..|events| - 1] + [events[|events| - 1]];
    }
  }

  lemma MoreEvents(events: seq<Event>, e: Event)
    ensures Completions(events + [e]) == Completions(events) + (if e == COMPLETION then 1 else 0)
  {
    assert (events + [e])[..|events|] == events;
  }

  /** A call of the projection, or any write another component makes to the same rows. */
  datatype Step =
    | Project(gate: Gate, now: Time)
    | Move(to: TaskStatus, patch: Patch, now: Time)
    | Write(team: Team, roles: seq<RoleRow>, candidate: bool)
    | Emit(event: Event)

  function Stepped(s: Ledger, step: Step, live: bool): (r: Ledger)
    requires s.rows.team.Some?
    ensures r.rows.team.Some?
  {
    match step
    case Project(g, now) => Outcome(s, g, live, now)
    case Move(to, p, now) => WithTask(s, Transitioned(s.rows.task, to, p, now))
    case Write(team, roles, c) =>
      s.(rows := s.rows.(team := Some(team), roles := roles, task := s.rows.task.(candidate := c)))
    case Emit(e) => s.(events := s.events + [e])
  }

  function After(s: Ledger, steps: seq<Step>, live: bool): (r: Ledger)
    requires s.rows.team.Some?
    ensures r.rows.team.Some?
  {
    if steps == [] then s
    else Stepped(After(s, steps[..|steps| - 1], live), steps[|steps| - 1], live)
  }

  /** Only the projection emits completions. */
  ghost predicate OthersDoNotComplete(steps: seq<Step>) {
    forall i :: 0 <= i < |steps| ==> steps[i] != Emit(COMPLETION)
  }

  ghost predicate CompletedAtMostOnce(s: Ledger) {
    Completions(s.events) <= 1 && (Completions(s.events) == 1 ==> s.rows.task.status in {PASS, COMPLETED})
  }

  lemma StepCompletesOnce(s: Ledger, step: Step, live: bool)
    requires s.rows.team.Some? && CompletedAtMostOnce(s) && step != Emit(COMPLETION)
    ensures CompletedAtMostOnce(Stepped(s, step, live))
  {
    CountsCompletion(s.events);
    match step
    case Project(g, now) =>
      AcceptedWrites(s, live, now);
      MoreEvents(s.events, COMPLETION);
    case Emit(e) =>
      MoreEvents(s.events, e);
    case _ =>
  }

  /** At most one COMPLETION event in any run, and once there is one the task is PASS or COMPLETED for good. */
  lemma {:induction false} CompletesOnce(s: Ledger, steps: seq<Step>, live: bool)
    requires s.rows.team.Some? && CompletedAtMostOnce(s) && OthersDoNotComplete(steps)
    ensures CompletedAtMostOnce(After(s, steps, live))
  {
    if steps != [] {
      var init := steps[..|steps| - 1];
      assert forall i :: 0 <= i < |init| ==> init[i] == steps[i];
      CompletesOnce(s, init, live);
      StepCompletesOnce(After(s, init, live), steps[|steps| - 1], live);
    }
  }

  ghost predicate OthersDoNotFinish(steps: seq<Step>) {
    forall i :: 0 <= i < |steps| ==> steps[i].Move? ==> steps[i].to !in {PASS, COMPLETED}
  }

  /** Step `k` of the run is a call that finds every role passed and the gate open. */
  ghost predicate OpenAt(s: Ledger, steps: seq<Step>, live: bool, k: int)
    requires s.rows.team.Some?
  {
    0 <= k < |steps| && steps[k].Project? &&
    var r := After(s, steps[..k], live);
    AllPassed(r.rows) && CanComplete(steps[k].gate, r.rows.roles)
  }

  lemma StepFinishes(s: Ledger, step: Step, live: bool)
    requires s.rows.team.Some? && s.rows.task.status !in {PASS, COMPLETED}
    requires step.Move? ==> step.to !in {PASS, COMPLETED}
    requires Stepped(s, step, live).rows.task.status in {PASS, COMPLETED}
    ensures step.Project? && AllPassed(s.rows) && CanComplete(step.gate, s.rows.roles)
  {
  }

  /**
   * However projection calls interleave with the other writers, a task those writers do not finish
   * themselves is PASS or COMPLETED only if some call found the gate open.
   */
  lemma {:induction false} FinishedThroughGate(s: Ledger, steps: seq<Step>, live: bool)
    requires s.rows.team.Some? && s.rows.task.status !in {PASS, COMPLETED} && OthersDoNotFinish(steps)
    requires After(s, steps, live).rows.task.status in {PASS, COMPLETED}
    ensures exists k :: OpenAt(s, steps, live, k)
  {
    if steps != [] {
      var n := |steps| - 1;
      var init := steps[..n];
      assert forall i :: 0 <= i < |init| ==> init[i] == steps[i];
      if After(s, init, live).rows.task.status in {PASS, COMPLETED} {
        FinishedThroughGate(s, init, live);
        var k :| OpenAt(s, init, live, k);
        assert init[..k] == steps[..k];
        assert OpenAt(s, steps, live, k);
      } else {
        StepFinishes(After(s, init, live), steps[n], live);
        assert OpenAt(s, steps, live, n);
      }
    }
  }
}
