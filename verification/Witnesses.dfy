/** Short concrete runs that show what the protocol does allow. */
module Witnesses {
  import opened Domain
  import opened TaskLifecycle
  import opened Worker
  import opened Watchdog
  import Completion
  import Handoffs

  const DEVELOPING: RoleRow := RoleRow(DEVELOPER, ASSIGNED, Some(CODEX), 0, None, None, None, None, [])
  const TO_REVIEW: RoleRow := RoleRow(REVIEWER, ASSIGNED, Some(CLAUDE_CODE), 0, None, None, None, None, [])

  const SENT_OUT: TaskRow :=
    TaskRow(DISPATCHED, DEVELOPER, Some(CODEX), 0, None, None, None, None, [], None, None, false, 0)

  /** A developer and a reviewer; the developer's task is out. */
  const PAIR: Records := Records(SENT_OUT, Some(Team(TeamACTIVE, Some(1))), [DEVELOPING, TO_REVIEW], [])

  const ASKED: Envelope := Envelope(TASK, CODEX, Some(DEVELOPER), 0)

  const ANY: Policy := Policy(3, 900000, 60000)

  const CALM: Circumstance := Circumstance(true, Completion.TRUSTING, false, 5)

  lemma OneMore(s: System, p: Policy, actions: seq<Action>, a: Action)
    ensures Run(s, p, actions + [a]) == Stepped(Run(s, p, actions), p, a)
  {
    assert (actions + [a])[..|actions|] == actions;
  }

  // ---------------------------------------------------------------- a hand-off that reaches nobody

  const RUNNING_ROW: TaskRow :=
    SENT_OUT.(status := RUNNING, attempt := 1, sequence := Some(1), startedAt := Some(1), updatedAt := 1)
  const ACTIVE_ROW: RoleRow := DEVELOPING.(status := ACTIVE, startedAt := Some(1))
  const PASSED_ROW: RoleRow := ACTIVE_ROW.(status := RolePASS, result := Some("done"), completedAt := Some(3))
  const WORKING: Exec := Exec(0, DEVELOPER, 1, 0, 1, Claimed)

  lemma Enters()
    ensures Entered(PAIR, CODEX, 1, 1) == PAIR.(task := RUNNING_ROW, roles := [ACTIVE_ROW, TO_REVIEW])
  {
    assert Activated(PAIR, 1, 1).roles == [ACTIVE_ROW, TO_REVIEW];
    assert Started(SENT_OUT.(sequence := Some(1), updatedAt := 1), CODEX, 1) == RUNNING_ROW;
  }

  lemma Claims(s: Shop)
    requires s == Opened(PAIR).shop
    ensures var later := Claim(s, ASKED, 1);
            && Rows(later) == PAIR.(task := RUNNING_ROW, roles := [ACTIVE_ROW, TO_REVIEW])
            && later.execs == map[CODEX := WORKING] && later.mail == [] && later.ledger.events == []
  {
    assert Held(PAIR.roles, CODEX, Some(DEVELOPER), 1) == 1;
    Enters();
  }

  lemma Finishes(s: Shop)
    requires Rows(s) == PAIR.(task := RUNNING_ROW, roles := [ACTIVE_ROW, TO_REVIEW])
    requires s.execs == map[CODEX := WORKING]
    ensures var later := Applied(Acknowledged(s, CODEX, true, 2), CODEX, true, "done", [], 3);
            && Rows(later) == Rows(s).(roles := [PASSED_ROW, TO_REVIEW]) && later.mail == s.mail
            && later.ledger.events == s.ledger.events && CODEX in later.execs
            && later.execs[CODEX] == WORKING.(stage := Finishing(true, [ACTIVE_ROW, TO_REVIEW], 1, true))
  {
    var acked := Acknowledged(s, CODEX, true, 2);
    assert acked.execs[CODEX] == WORKING.(stage := Executing(1));
    assert Rows(acked).roles[0] == ACTIVE_ROW;
    assert Held(Rows(acked).roles, CODEX, Some(DEVELOPER), 1) == 1;
  }

  const RESULT_IN: seq<Action> := [Deliver(ASKED, 1)] + [AckSent(CODEX, true, 2)] + [ResultReady(CODEX, true, "done", [], 3)]

  lemma ToResult() returns (s: System)
    ensures s == Run(Opened(PAIR), ANY, RESULT_IN)
    ensures RowsOf(s) == PAIR.(task := RUNNING_ROW, roles := [PASSED_ROW, TO_REVIEW])
    ensures s.shop.mail == [] && s.shop.ledger.events == [] && CODEX in s.shop.execs
    ensures s.shop.execs[CODEX] == WORKING.(stage := Finishing(true, [ACTIVE_ROW, TO_REVIEW], 1, true))
  {
    s := Run(Opened(PAIR), ANY, RESULT_IN);
    var none: seq<Action> := [];
    OneMore(Opened(PAIR), ANY, none, Deliver(ASKED, 1));
    assert none + [Deliver(ASKED, 1)] == [Deliver(ASKED, 1)];
    OneMore(Opened(PAIR), ANY, [Deliver(ASKED, 1)], AckSent(CODEX, true, 2));
    OneMore(Opened(PAIR), ANY, [Deliver(ASKED, 1)] + [AckSent(CODEX, true, 2)], ResultReady(CODEX, true, "done", [], 3));
    Claims(Opened(PAIR).shop);
    Finishes(Claim(Opened(PAIR).shop, ASKED, 1));
  }

  lemma AssignsOnly(before: System, sequence: nat, agent: AgentId) returns (s: System)
    ensures s == Stepped(before, ANY, Assign(sequence, agent))
    ensures s.shop == before.shop.(ledger := s.shop.ledger) && s.shop.ledger.events == before.shop.ledger.events
    ensures RowsOf(s) == Assigned(RowsOf(before), sequence, agent, "ASSIGNED")
  {
    s := Stepped(before, ANY, Assign(sequence, agent));
  }

  lemma ToReassignment() returns (s: System)
    ensures s == Run(Opened(PAIR), ANY, RESULT_IN + [Assign(2, OPENCODE)])
    ensures RowsOf(s) ==
            PAIR.(task := RUNNING_ROW, roles := [PASSED_ROW, TO_REVIEW.(assignee := Some(OPENCODE), reason := Some("ASSIGNED"))])
    ensures s.shop.mail == [] && s.shop.ledger.events == [] && CODEX in s.shop.execs
    ensures s.shop.execs[CODEX] == WORKING.(stage := Finishing(true, [ACTIVE_ROW, TO_REVIEW], 1, true))
  {
    var before := ToResult();
    OneMore(Opened(PAIR), ANY, RESULT_IN, Assign(2, OPENCODE));
    s := AssignsOnly(before, 2, OPENCODE);
  }

  lemma Misses(s: Shop) returns (later: Shop)
    requires Rows(s) ==
             PAIR.(task := RUNNING_ROW, roles := [PASSED_ROW, TO_REVIEW.(assignee := Some(OPENCODE), reason := Some("ASSIGNED"))])
    requires s.mail == [] && s.ledger.events == [] && CODEX in s.execs
    requires s.execs[CODEX] == WORKING.(stage := Finishing(true, [ACTIVE_ROW, TO_REVIEW], 1, true))
    ensures later == Followed(s, CODEX, CALM) && later.mail == [Envelope(HANDOFF, CLAUDE_CODE, Some(REVIEWER), 0)]
    ensures !Handoffs.Accepted(Rows(later), later.mail[0])
  {
    var e := s.execs[CODEX];
    assert Rows(s).roles[1].status == ASSIGNED;
    assert Completion.Refusal(s.ledger, CALM.gate).Some?;
    assert Projected(s, CALM) == s;
    assert NextAssigned(e.stage.seen, 1, 2) == 2;
    Handoffs.HandoffReachesIff(s, e.stage.seen, 2, TO_REVIEWER, 0);
    later := Followed(s, CODEX, CALM);
  }

  lemma FollowMisses(s: System) returns (later: System)
    requires RowsOf(s) ==
             PAIR.(task := RUNNING_ROW, roles := [PASSED_ROW, TO_REVIEW.(assignee := Some(OPENCODE), reason := Some("ASSIGNED"))])
    requires s.shop.mail == [] && s.shop.ledger.events == [] && CODEX in s.shop.execs
    requires s.shop.execs[CODEX] == WORKING.(stage := Finishing(true, [ACTIVE_ROW, TO_REVIEW], 1, true))
    ensures later == Stepped(s, ANY, Follow(CODEX, CALM))
    ensures later.shop.mail == [Envelope(HANDOFF, CLAUDE_CODE, Some(REVIEWER), 0)]
    ensures !Handoffs.Accepted(RowsOf(later), later.shop.mail[0])
  {
    var after := Misses(s.shop);
    later := s.(shop := after);
  }

  /**
   * The developer's result is in and the reviewer is reassigned before it is handed on: the hand-off goes
   * to the former reviewer, who cannot claim it.
   */
  lemma HandoffReachesNobody()
    ensures var later := Run(Opened(PAIR), ANY, RESULT_IN + [Assign(2, OPENCODE)] + [Follow(CODEX, CALM)]);
            && later.shop.mail == [Envelope(HANDOFF, CLAUDE_CODE, Some(REVIEWER), 0)]
            && !Handoffs.Accepted(RowsOf(later), later.shop.mail[0])
  {
    var s := ToReassignment();
    OneMore(Opened(PAIR), ANY, RESULT_IN + [Assign(2, OPENCODE)], Follow(CODEX, CALM));
    var later := FollowMisses(s);
  }

  // ---------------------------------------------------------------- a result for a row nobody claimed

  /** A team task as it is admitted: queued, unplanned and nobody's. */
  const ADMITTED: TaskRow := TaskRow(QUEUED, DEVELOPER, None, 0, None, None, None, None, [], None, None, false, 0)
  const UNPLANNED: Records := Records(ADMITTED, None, [], [])

  /** What the agent executes: it claimed no row. */
  const ROWLESS: Exec := Exec(0, DEVELOPER, 0, 0, 0, Claimed)

  const SCHEDULED_ROW: TaskRow := ADMITTED.(status := DISPATCHED, assignee := Some(CODEX), sequence := Some(1), updatedAt := 2)
  const PLANNED_ROWS: seq<RoleRow> := [DEVELOPING.(reason := Some("ASSIGNED")), TO_REVIEW.(reason := Some("ASSIGNED"))]

  /** The agent is asked early; while its ACK is on the way, the team is planned and the task sent out. */
  const EARLY: seq<Action> := [Deliver(ASKED, 1)]
  const MADE: seq<Action> := EARLY + [MakeTeam([DEVELOPER, REVIEWER])]

  lemma ClaimsNothing(s: System)
    requires s == Opened(UNPLANNED)
    ensures var later := Stepped(s, ANY, Deliver(ASKED, 1));
            later == s.(shop := s.shop.(execs := map[CODEX := ROWLESS]))
  {
    assert Held([], CODEX, Some(DEVELOPER), 1) == 0 && Held([], CODEX, None, 1) == 0;
    assert Started(ADMITTED, CODEX, 1) == ADMITTED;
  }

  lemma Plans(s: System) returns (later: System)
    requires RowsOf(s) == UNPLANNED && s.shop.execs == map[CODEX := ROWLESS] && s.shop.results == []
    ensures var made := Stepped(s, ANY, MakeTeam([DEVELOPER, REVIEWER]));
            later == Stepped(Stepped(made, ANY, Assign(1, CODEX)), ANY, Assign(2, CLAUDE_CODE))
    ensures RowsOf(later).task == ADMITTED && RowsOf(later).roles == PLANNED_ROWS
    ensures later.shop.execs == s.shop.execs && later.shop.results == []
  {
    var made := Stepped(s, ANY, MakeTeam([DEVELOPER, REVIEWER]));
    assert RowsOf(made) == Created(UNPLANNED, [DEVELOPER, REVIEWER]) by {
      assert Completion.OncePerRole(FreshRoles([DEVELOPER, REVIEWER]));
    }
    assert RowsOf(made).roles == [Fresh(DEVELOPER), Fresh(REVIEWER)];
    var first := AssignsOnly(made, 1, CODEX);
    later := AssignsOnly(first, 2, CLAUDE_CODE);
    assert RowsOf(later).roles == PLANNED_ROWS;
  }

  lemma SendsOut(s: System) returns (later: System)
    requires RowsOf(s).task == ADMITTED && RowsOf(s).roles == PLANNED_ROWS
    requires s.shop.execs == map[CODEX := ROWLESS] && s.shop.results == []
    ensures later == Stepped(s, ANY, Schedule(1, None, 2))
    ensures RowsOf(later).task == SCHEDULED_ROW && RowsOf(later).roles == PLANNED_ROWS
    ensures later.shop.execs == s.shop.execs && later.shop.results == []
  {
    later := Stepped(s, ANY, Schedule(1, None, 2));
  }

  lemma FinishesUnclaimed(s: System) returns (later: System)
    requires RowsOf(s).task == SCHEDULED_ROW && RowsOf(s).roles == PLANNED_ROWS
    requires s.shop.execs == map[CODEX := ROWLESS] && s.shop.results == []
    ensures later == Stepped(Stepped(s, ANY, AckSent(CODEX, true, 3)), ANY, ResultReady(CODEX, true, "done", [], 4))
    ensures |later.shop.results| == 1 && later.shop.results[0].finished == 1 && later.shop.results[0].exec.sequence == 0
    ensures |RowsOf(later).roles| == 2 && RowsOf(later).roles[0].status == RolePASS
  {
    var acked := Acknowledged(s.shop, CODEX, true, 3);
    assert acked.execs[CODEX] == ROWLESS.(stage := Executing(2));
    assert Held(Rows(acked).roles, CODEX, Some(DEVELOPER), 1) == 1;
    later := Stepped(Stepped(s, ANY, AckSent(CODEX, true, 3)), ANY, ResultReady(CODEX, true, "done", [], 4));
  }

  const OVERTAKEN: seq<Action> := MADE + [Assign(1, CODEX)] + [Assign(2, CLAUDE_CODE)] + [Schedule(1, None, 2)]

  lemma ToOvertaken() returns (s: System)
    ensures s == Run(Opened(UNPLANNED), ANY, OVERTAKEN)
    ensures RowsOf(s).task == SCHEDULED_ROW && RowsOf(s).roles == PLANNED_ROWS
    ensures s.shop.execs == map[CODEX := ROWLESS] && s.shop.results == []
  {
    var start, none := Opened(UNPLANNED), [];
    OneMore(start, ANY, none, Deliver(ASKED, 1));
    assert none + [Deliver(ASKED, 1)] == EARLY;
    OneMore(start, ANY, EARLY, MakeTeam([DEVELOPER, REVIEWER]));
    OneMore(start, ANY, MADE, Assign(1, CODEX));
    OneMore(start, ANY, MADE + [Assign(1, CODEX)], Assign(2, CLAUDE_CODE));
    OneMore(start, ANY, MADE + [Assign(1, CODEX)] + [Assign(2, CLAUDE_CODE)], Schedule(1, None, 2));
    ClaimsNothing(start);
    var planned := Plans(Stepped(start, ANY, Deliver(ASKED, 1)));
    s := SendsOut(planned);
  }

  /**
   * A trusted bot asks an agent for an admitted task before its team is planned. The agent claims it
   * without a row; before its ACK is out, the task is planned and sent to the same agent. Its result
   * finishes the developer's row, which it never claimed and which did not exist when it did.
   */
  lemma UnclaimedRowFinished()
    ensures RowsOf(Opened(UNPLANNED)).roles == []
    ensures var acked := OVERTAKEN + [AckSent(CODEX, true, 3)];
            var later := Run(Opened(UNPLANNED), ANY, acked + [ResultReady(CODEX, true, "done", [], 4)]);
            && |later.shop.results| == 1 && later.shop.results[0].finished == 1 && later.shop.results[0].exec.sequence == 0
            && |RowsOf(later).roles| == 2 && RowsOf(later).roles[0].status == RolePASS
  {
    var s := ToOvertaken();
    OneMore(Opened(UNPLANNED), ANY, OVERTAKEN, AckSent(CODEX, true, 3));
    OneMore(Opened(UNPLANNED), ANY, OVERTAKEN + [AckSent(CODEX, true, 3)], ResultReady(CODEX, true, "done", [], 4));
    var later := FinishesUnclaimed(s);
  }
}
