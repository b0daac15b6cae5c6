/** When an envelope starts an execution, what it changes then, and when a result is kept. */
module Claims {
  import opened Domain
  import opened TaskLifecycle
  import opened Worker
  import Completion

  // ---------------------------------------------------------------- claiming

  /** The agent holds row `i`, and it is the row the envelope is about: of the named role, if one is named. */
  ghost predicate OwnRowFor(roles: seq<RoleRow>, e: Envelope, i: int) {
    && 0 <= i < |roles| && roles[i].assignee == Some(e.recipient)
    && (e.role.Some? ==> roles[i].role == e.role.value)
    && (forall j :: 0 <= j < i && roles[j].assignee == Some(e.recipient) ==> e.role.Some? && roles[j].role != e.role.value)
  }

  ghost predicate HoldsNothing(roles: seq<RoleRow>, agent: AgentId) {
    forall i :: 0 <= i < |roles| ==> roles[i].assignee != Some(agent)
  }

  predicate Fits(row: RoleRow, agent: AgentId, wanted: Option<Role>) {
    row.assignee == Some(agent) && (wanted.Some? ==> row.role == wanted.value)
  }

  lemma {:induction false} HeldIsFirst(roles: seq<RoleRow>, agent: AgentId, wanted: Option<Role>, k: nat, i: nat)
    requires 1 <= k <= i + 1 <= |roles| && Fits(roles[i], agent, wanted)
    requires forall j :: k - 1 <= j < i ==> !Fits(roles[j], agent, wanted)
    ensures Held(roles, agent, wanted, k) == i + 1
    decreases i + 1 - k
  {
    if k < i + 1 {
      assert !Fits(roles[k - 1], agent, wanted);
      HeldIsFirst(roles, agent, wanted, k + 1, i);
    }
  }

  lemma FindsOwnRow(roles: seq<RoleRow>, e: Envelope, i: int)
    requires OwnRowFor(roles, e, i)
    ensures ClaimedSequence(roles, e.recipient, e.role) == i + 1
  {
    HeldIsFirst(roles, e.recipient, e.role, 1, i);
  }

  lemma FindsNothing(roles: seq<RoleRow>, e: Envelope)
    requires HoldsNothing(roles, e.recipient)
    ensures ClaimedSequence(roles, e.recipient, e.role) == 0
  {
  }

  /**
   * An idle agent starts on an envelope about a row of its own exactly when the envelope carries that row's
   * round and the row has neither passed nor been skipped; otherwise nothing changes at all.
   */
  lemma StartsOnRowIff(s: Shop, e: Envelope, now: Time, i: int)
    requires e.recipient !in s.execs && OwnRowFor(Rows(s).roles, e, i)
    ensures var row, later := Rows(s).roles[i], Claim(s, e, now);
            && (e.recipient in later.execs <==> e.round == row.round && row.status !in {RolePASS, SKIPPED})
            && (e.recipient !in later.execs ==> later == s)
  {
    FindsOwnRow(Rows(s).roles, e, i);
  }

  /**
   * An idle agent that holds no row starts exactly when the task is nobody's or its own and the envelope
   * carries the attempt number.
   */
  lemma StartsRowlessIff(s: Shop, e: Envelope, now: Time)
    requires e.recipient !in s.execs && HoldsNothing(Rows(s).roles, e.recipient)
    ensures var t, later := Rows(s).task, Claim(s, e, now);
            && (e.recipient in later.execs <==> (t.assignee.None? || t.assignee == Some(e.recipient)) && e.round == t.attempt)
            && (e.recipient !in later.execs ==> later == s)
            && (e.recipient in later.execs ==> Rows(later).roles == Rows(s).roles && Rows(later).team == Rows(s).team)
  {
    FindsNothing(Rows(s).roles, e);
  }

  /** A busy agent drops whatever arrives, and a role the agent does not hold beside another it does is refused. */
  lemma StartsNever(s: Shop, e: Envelope, now: Time, i: int)
    requires e.recipient in s.execs ||
             (&& 0 <= i < |Rows(s).roles| && Rows(s).roles[i].assignee == Some(e.recipient) && e.role.Some?
              && (forall j :: 0 <= j < |Rows(s).roles| && Rows(s).roles[j].assignee == Some(e.recipient) ==>
                    Rows(s).roles[j].role != e.role.value))
    ensures Claim(s, e, now) == s
  {
    if e.recipient !in s.execs {
      var named := Held(Rows(s).roles, e.recipient, e.role, 1);
      assert named == 0;
      var any := Held(Rows(s).roles, e.recipient, None, 1);
      assert any > 0 && Rows(s).roles[any - 1].assignee == Some(e.recipient);
    }
  }

  /** A delivery leaves every row as it is but the one it is about, and never touches a finished one. */
  lemma DeliverySpares(s: Shop, e: Envelope, now: Time, i: nat)
    requires i < |Rows(s).roles|
    ensures |Rows(Claim(s, e, now)).roles| == |Rows(s).roles|
    ensures var row := Rows(s).roles[i];
            row.status in {RolePASS, SKIPPED} || row.assignee != Some(e.recipient) || row.round != e.round ==>
              Rows(Claim(s, e, now)).roles[i] == row
  {
    if e.recipient !in s.execs && Claimable(Rows(s), e) {
      EnteredSpares(Rows(s), e.recipient, ClaimedSequence(Rows(s).roles, e.recipient, e.role), now, i);
    }
  }

  lemma EnteredSpares(r: Records, agent: AgentId, sequence: nat, now: Time, i: nat)
    requires i < |r.roles|
    ensures |Entered(r, agent, sequence, now).roles| == |r.roles|
    ensures i + 1 != sequence ==> Entered(r, agent, sequence, now).roles[i] == r.roles[i]
  {
  }

  /** A claim of a task that is neither waiting for a worker nor running starts no new attempt. */
  lemma ClaimKeepsAttempt(s: Shop, e: Envelope, now: Time)
    ensures var before, after := Rows(s).task, Rows(Claim(s, e, now)).task;
            before.status !in {DISPATCHED, RUNNING} ==>
              after.attempt == before.attempt
              && after.status == (if after == before || before.status != CLAIMED then before.status else RUNNING)
    ensures Claim(s, e, now).mail == s.mail && Claim(s, e, now).results == s.results
    ensures forall a :: a != e.recipient ==>
              (a in Claim(s, e, now).execs <==> a in s.execs) && (a in s.execs ==> Claim(s, e, now).execs[a] == s.execs[a])
  {
  }

  // ---------------------------------------------------------------- acknowledging

  /**
   * Once its ACK is out, an execution remembers the version it finds; with a changed binding it ends
   * instead, and the task waits for a decision if its status allows that.
   */
  lemma AcknowledgedIs(s: Shop, agent: AgentId, bound: bool, now: Time)
    requires agent in s.execs && s.execs[agent].stage.Claimed?
    ensures var later, t := Acknowledged(s, agent, bound, now), Rows(s).task;
            && later.mail == s.mail && later.results == s.results
            && (bound ==>
                  && Rows(later) == Rows(s) && later.execs.Keys == s.execs.Keys
                  && later.execs[agent] == s.execs[agent].(stage := Executing(t.updatedAt)))
            && (!bound ==>
                  && agent !in later.execs && Rows(later).roles == Rows(s).roles && Rows(later).team == Rows(s).team
                  && Rows(later).task.attempt == t.attempt
                  && Rows(later).task.status == (if t.status in {PASS, COMPLETED, FAIL, CANCELLED} then t.status else WAITING_MAIN))
  {
  }

  // ---------------------------------------------------------------- keeping a result

  /** Something the execution was claimed or acknowledged under is no longer so. */
  predicate Disturbed(r: Records, agent: AgentId, e: Exec, version: Time) {
    || r.task.status in {PASS, FAIL, CANCELLED} || r.task.attempt != e.attempt || r.task.assignee != Some(agent)
    || r.task.updatedAt != version
    || (e.sequence > 0 && (e.sequence > |r.roles| || r.roles[e.sequence - 1].round != e.round
                           || r.roles[e.sequence - 1].assignee != Some(agent)))
  }

  /**
   * A result is dropped, with no effect but the end of its execution, exactly when the task is over or its
   * attempt, assignee or version, or the claimed row's round or assignee, is not what it was.
   */
  lemma DroppedIff(s: Shop, agent: AgentId, ok: bool, text: string, evidence: seq<string>, now: Time)
    requires agent in s.execs && s.execs[agent].stage.Executing?
    ensures var e, later := s.execs[agent], Applied(s, agent, ok, text, evidence, now);
            if Disturbed(Rows(s), agent, e, e.stage.version)
            then later == s.(execs := s.execs - {agent})
            else |later.results| == |s.results| + 1 && agent in later.execs && later.execs[agent].stage.Finishing?
                 && later.execs[agent].stage.ok == ok && later.mail == s.mail
  {
  }

  /** A kept result writes its status, text and evidence into one unfinished row of the executed role, and nothing else. */
  lemma KeptWrites(s: Shop, agent: AgentId, ok: bool, text: string, evidence: seq<string>, now: Time, i: nat)
    requires agent in s.execs && s.execs[agent].stage.Executing? && Completion.OncePerRole(Rows(s).roles)
    requires !Disturbed(Rows(s), agent, s.execs[agent], s.execs[agent].stage.version) && i < |Rows(s).roles|
    ensures var e, later, row := s.execs[agent], Rows(Applied(s, agent, ok, text, evidence, now)), Rows(s).roles[i];
            && later.task == Rows(s).task && later.team == Rows(s).team && |later.roles| == |Rows(s).roles|
            && later.roles[i] ==
               if row.role == e.role && row.assignee == Some(agent) && row.status != RolePASS
               then row.(status := if ok then RolePASS else RoleFAIL, result := Some(text), evidence := evidence,
                         completedAt := Some(now))
               else row
  {
    var e, r := s.execs[agent], Rows(s);
    var own := OwnRow(r, agent, e);
    if r.roles[i].role == e.role && r.roles[i].assignee == Some(agent) {
      assert own > 0;
      assert own == i + 1;
    }
  }
}
