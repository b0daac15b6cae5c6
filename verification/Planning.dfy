/** Planning a team: one agent per required role, in order, each choice seeing the earlier ones. */
module Planning {
  import opened Domain
  import opened Routing
  import opened TaskLifecycle

  datatype TaskType =
    | FEATURE | BUG | REFACTOR | ARCHITECTURE | QA_ONLY | REVIEW_ONLY | MCP | VALIDATION | SCRIPT | UNKNOWN

  function DefaultRoles(t: TaskType): seq<Role> {
    match t
    case FEATURE => [DEVELOPER, REVIEWER, QA]
    case BUG => [DEBUGGER, REVIEWER, QA]
    case REFACTOR => [REFACTORER, REVIEWER, QA]
    case ARCHITECTURE => [ARCHITECT, DEVELOPER, REVIEWER, QA]
    case QA_ONLY => [QA]
    case REVIEW_ONLY => [REVIEWER]
    case MCP => [MCP_SPECIALIST, REVIEWER, QA]
    case VALIDATION => [QA]
    case SCRIPT => [DEVELOPER]
    case UNKNOWN => [DEVELOPER, REVIEWER]
  }

  /** The first occurrence of each role. */
  function Unique(roles: seq<Role>): seq<Role> {
    if roles == [] then []
    else
      var init, last := Unique(roles[..|roles| - 1]), roles[|roles| - 1];
      if last in init then init else init + [last]
  }

  ghost predicate Distinct(roles: seq<Role>) {
    forall i, j :: 0 <= i < j < |roles| ==> roles[i] != roles[j]
  }

  /** Roles named on the task win over those its type calls for. */
  function RequiredRoles(manual: seq<Role>, t: TaskType): seq<Role> {
    if Unique(manual) != [] then Unique(manual) else DefaultRoles(t)
  }

  lemma {:induction false} UniqueKeeps(roles: seq<Role>)
    ensures Distinct(Unique(roles)) && forall r :: r in Unique(roles) <==> r in roles
  {
    if roles != [] {
      UniqueKeeps(roles[..|roles| - 1]);
      assert roles == roles[..|roles| - 1] + [roles[|roles| - 1]];
    }
  }

  /** No role is required twice, and exactly the named roles are required when any is named. */
  lemma RequiredOnce(manual: seq<Role>, t: TaskType)
    ensures Distinct(RequiredRoles(manual, t)) && RequiredRoles(manual, t) != []
    ensures manual != [] ==> forall r :: r in RequiredRoles(manual, t) <==> r in manual
  {
    UniqueKeeps(manual);
    if manual != [] {
      assert manual[0] in Unique(manual);
    }
  }

  // ---------------------------------------------------------------- the plan as a function

  /** What routing reads that planning does not change. */
  datatype World = World(
    task: TaskId, project: ProjectId, overrides: map<Role, AgentId>, agents: seq<AgentRecord>,
    connected: set<AgentId>, lockFree: bool)

  function RequestFor(w: World, role: Role, prior: Assignments): Request {
    Request(role, w.task, w.project, prior, if role in w.overrides then Some(w.overrides[role]) else None,
                    {}, w.agents, w.connected, w.lockFree)
  }

  datatype Progress = Progress(picked: Assignments, done: nat, blocked: bool)

  function Selected(w: World, role: Role, prior: Assignments): Option<AgentId> {
    Choose(RequestFor(w, role, prior)).0
  }

  type Picker = (Role, Assignments) -> Option<AgentId>

  /** The router as a choice function, for one registry and one task. */
  function RouterOf(w: World): Picker {
    (role, prior) => Selected(w, role, prior)
  }

  function Extended(p: Progress, role: Role, selected: Option<AgentId>): Progress {
    match selected
    case None => p.(blocked := true)
    case Some(a) => p.(picked := p.picked[role := a], done := p.done + 1)
  }

  /** Agents for the roles in order; the first role nobody can take stops the plan. */
  function Planned(pick: Picker, roles: seq<Role>): Progress {
    if roles == [] then Progress(map[], 0, false)
    else
      var p, role := Planned(pick, roles[..|roles| - 1]), roles[|roles| - 1];
      if p.blocked then p else Extended(p, role, pick(role, p.picked))
  }

  lemma {:induction false} PlannedPrefix(pick: Picker, roles: seq<Role>)
    requires Distinct(roles)
    ensures var p := Planned(pick, roles);
            && p.done <= |roles| && (p.blocked <==> p.done < |roles|)
            && (forall r :: r in p.picked <==> r in roles[..p.done])
  {
    if roles != [] {
      var init := roles[..|roles| - 1];
      PlannedPrefix(pick, init);
      var p, q := Planned(pick, init), Planned(pick, roles);
      assert init[..p.done] == roles[..p.done];
      if !p.blocked && q.done == |roles| {
        assert roles[..q.done] == init + [roles[|roles| - 1]];
      }
    }
  }

  /** One more role keeps the earlier choices and, if it is reached, is chosen knowing exactly those. */
  lemma OneMore(pick: Picker, roles: seq<Role>)
    requires roles != [] && Distinct(roles)
    ensures var init, last := roles[..|roles| - 1], roles[|roles| - 1];
            var q, p := Planned(pick, init), Planned(pick, roles);
            && q.done <= p.done <= |roles| && last !in q.picked
            && (forall r :: r in q.picked ==> r in p.picked && p.picked[r] == q.picked[r])
            && (q.done < p.done ==> p.done == |roles| && last in p.picked && pick(last, q.picked) == Some(p.picked[last]))
  {
    PlannedPrefix(pick, roles[..|roles| - 1]);
  }

  /** Each agent was chosen for its role knowing exactly the earlier choices, which later ones keep. */
  lemma {:induction false} ChosenInOrder(pick: Picker, roles: seq<Role>, j: nat)
    requires Distinct(roles) && j < Planned(pick, roles).done
    ensures Planned(pick, roles).done <= |roles|
    ensures var p, prior := Planned(pick, roles).picked, Planned(pick, roles[..j]).picked;
            && roles[j] in p && pick(roles[j], prior) == Some(p[roles[j]])
            && (forall r :: r in prior ==> r in p && p[r] == prior[r])
            && (forall r :: r in prior <==> r in roles[..j])
  {
    PlannedPrefix(pick, roles);
    PlannedPrefix(pick, roles[..j]);
    OneMore(pick, roles);
    var init := roles[..|roles| - 1];
    if j < Planned(pick, init).done {
      ChosenInOrder(pick, init, j);
      assert init[..j] == roles[..j] && init[j] == roles[j];
    } else {
      assert j == |init| && roles[..j] == init;
    }
    DoneBefore(pick, roles, j);
  }

  /** A role that was reached was reached with all earlier ones filled. */
  lemma {:induction false} DoneBefore(pick: Picker, roles: seq<Role>, j: nat)
    requires Distinct(roles) && j < Planned(pick, roles).done
    ensures j < |roles| && Planned(pick, roles[..j]).done == j
  {
    PlannedPrefix(pick, roles);
    OneMore(pick, roles);
    var init := roles[..|roles| - 1];
    if j < Planned(pick, init).done {
      DoneBefore(pick, init, j);
      assert init[..j] == roles[..j];
    } else {
      assert roles[..j] == init;
      PlannedPrefix(pick, init);
    }
  }

  lemma PlannedNext(pick: Picker, roles: seq<Role>, k: nat)
    requires k < |roles| && !Planned(pick, roles[..k]).blocked
    ensures var p := Planned(pick, roles[..k]);
            Planned(pick, roles[..k + 1]) == Extended(p, roles[k], pick(roles[k], p.picked))
  {
    assert roles[..k + 1][..k] == roles[..k];
  }

  /** Once a role is refused the plan goes no further. */
  lemma {:induction false} BlockedStays(pick: Picker, roles: seq<Role>, k: nat)
    requires k <= |roles| && (Planned(pick, roles[..k]).blocked || k == |roles|)
    ensures Planned(pick, roles) == Planned(pick, roles[..k])
    decreases |roles|
  {
    if k == |roles| {
      assert roles[..k] == roles;
    } else {
      assert roles[..|roles| - 1][..k] == roles[..k];
      BlockedStays(pick, roles[..|roles| - 1], k);
    }
  }

  // ---------------------------------------------------------------- overrides

  /** The agent could take the role, and for a reviewer implemented nothing. */
  ghost predicate CouldTake(w: World, role: Role, prior: Assignments, agent: AgentId) {
    exists i :: 0 <= i < |w.agents| && w.agents[i].id == agent &&
      Candidate(w.agents[i], Request(role, w.task, w.project, prior, None, {}, w.agents, w.connected, w.lockFree))
  }

  lemma SelectedByOverride(w: World, role: Role, prior: Assignments)
    requires DistinctAgents(w.agents) && role in w.overrides
    ensures Selected(w, role, prior) == if CouldTake(w, role, prior, w.overrides[role]) then Some(w.overrides[role]) else None
  {
    var q := RequestFor(w, role, prior);
    var free := q.(override := None);
    forall a: AgentRecord ensures Eligible(a, q) <==> Eligible(a, free) {
    }
    if EligibleId(q, w.overrides[role]) && w.overrides[role] !in Implementers(role, prior) {
      var i :| 0 <= i < |q.agents| && q.agents[i].id == w.overrides[role] && Eligible(q.agents[i], q);
      assert Candidate(w.agents[i], free);
    }
    if CouldTake(w, role, prior, w.overrides[role]) {
      var i :| 0 <= i < |w.agents| && w.agents[i].id == w.overrides[role] && Candidate(w.agents[i], free);
      assert Eligible(q.agents[i], q);
    }
  }

  lemma SelectedFreely(w: World, role: Role, prior: Assignments)
    requires DistinctAgents(w.agents) && role !in w.overrides
    ensures Selected(w, role, prior).Some? <==> exists a :: CouldTake(w, role, prior, a)
  {
    var q := RequestFor(w, role, prior);
    BestOfPrefix(q.agents, q);
    if Best(q.agents, q).Some? {
      var i :| 0 <= i < |q.agents| && q.agents[i] == Best(q.agents, q).value;
      assert CouldTake(w, role, prior, q.agents[i].id);
    }
    if a :| CouldTake(w, role, prior, a) {
      var i :| 0 <= i < |w.agents| && w.agents[i].id == a && Candidate(w.agents[i], q);
      assert q.agents[i] in q.agents;
    }
  }

  /**
   * A role the plan reaches goes to the agent named for it if that agent could take it, and otherwise stops
   * the plan; a role nobody is named for stops the plan exactly when nobody could take it.
   */
  lemma OverrideDecides(w: World, roles: seq<Role>, j: nat)
    requires DistinctAgents(w.agents) && j < |roles| && !Planned(RouterOf(w), roles[..j]).blocked
    ensures var p, next, role := Planned(RouterOf(w), roles[..j]), Planned(RouterOf(w), roles[..j + 1]), roles[j];
            && (next.blocked ==> next.picked == p.picked)
            && (!next.blocked ==> role in next.picked && next.picked == p.picked[role := next.picked[role]])
            && (role in w.overrides ==>
                  && (next.blocked <==> !CouldTake(w, role, p.picked, w.overrides[role]))
                  && (!next.blocked ==> next.picked[role] == w.overrides[role]))
            && (role !in w.overrides ==> (next.blocked <==> forall a :: !CouldTake(w, role, p.picked, a)))
  {
    PlannedNext(RouterOf(w), roles, j);
    var p := Planned(RouterOf(w), roles[..j]);
    if roles[j] in w.overrides {
      SelectedByOverride(w, roles[j], p.picked);
    } else {
      SelectedFreely(w, roles[j], p.picked);
    }
  }

  /** Default teams end with a review and then QA, after all other roles; scripts are not reviewed, and unknown work not tested. */
  lemma DefaultTeams(t: TaskType)
    requires t !in {QA_ONLY, REVIEW_ONLY, VALIDATION}
    ensures var roles := DefaultRoles(t);
            var n := |roles|;
            && n >= 1 && roles[0] in {DEVELOPER, DEBUGGER, REFACTORER, ARCHITECT, MCP_SPECIALIST}
            && (t == SCRIPT <==> n == 1) && (t == UNKNOWN ==> n == 2 && roles[1] == REVIEWER)
            && (t !in {SCRIPT, UNKNOWN} ==> n >= 3 && roles[n - 2] == REVIEWER && roles[n - 1] == QA)
  {
  }

  // ---------------------------------------------------------------- separation of duties

  /** The pairs of roles, by order of planning, that may never share an agent. */
  predicate MustDiffer(first: Role, second: Role) {
    || (second == QA && first in IMPLEMENTERS + {REVIEWER})
    || (second in EXECUTION_ROLES && first in {REVIEWER, QA})
    || (second == REVIEWER && first in IMPLEMENTERS + {MCP_SPECIALIST})
  }

  predicate Share(p: Progress, one: Role, other: Role) {
    one in p.picked && other in p.picked && p.picked[one] == p.picked[other]
  }

  lemma SelectedAvoids(w: World, first: Role, second: Role, prior: Assignments)
    requires DistinctAgents(w.agents) && MustDiffer(first, second) && first in prior
    requires Selected(w, second, prior).Some?
    ensures Selected(w, second, prior).value != prior[first]
  {
    SelectedIsEligible(RequestFor(w, second, prior));
    if second == QA {
      assert prior[first] in Holders(prior, IMPLEMENTERS + {REVIEWER});
    } else if second == REVIEWER {
      assert prior[first] in Holders(prior, IMPLEMENTERS + {MCP_SPECIALIST});
    } else {
      assert prior[first] in Holders(prior, {REVIEWER, QA});
    }
  }

  /** Whatever the roles, overrides and registry, a plan keeps such a pair apart. */
  lemma PlanSeparates(w: World, roles: seq<Role>, i: nat, j: nat)
    requires DistinctAgents(w.agents) && Distinct(roles) && i < j < |roles| && MustDiffer(roles[i], roles[j])
    ensures !Share(Planned(RouterOf(w), roles), roles[i], roles[j])
  {
    var p := Planned(RouterOf(w), roles);
    PlannedPrefix(RouterOf(w), roles);
    if roles[j] in p.picked {
      var k :| 0 <= k < p.done && roles[k] == roles[j];
      assert k == j;
      ChosenInOrder(RouterOf(w), roles, j);
      assert roles[..j][i] == roles[i];
      SelectedAvoids(w, roles[i], roles[j], Planned(RouterOf(w), roles[..j]).picked);
    }
  }

  /** In either order, nobody reviews or tests what they implement. */
  lemma ReviewIsIndependent(w: World, roles: seq<Role>, implementer: Role, judge: Role)
    requires DistinctAgents(w.agents) && Distinct(roles) && implementer in IMPLEMENTERS && judge in {REVIEWER, QA}
    ensures !Share(Planned(RouterOf(w), roles), implementer, judge)
  {
    var p := Planned(RouterOf(w), roles);
    PlannedPrefix(RouterOf(w), roles);
    if Share(p, implementer, judge) {
      var i :| 0 <= i < |roles| && roles[i] == implementer;
      var j :| 0 <= j < |roles| && roles[j] == judge;
      if i < j {
        PlanSeparates(w, roles, i, j);
      } else {
        PlanSeparates(w, roles, j, i);
      }
    }
  }

  const EVERYTHING: set<Capability> :=
    {Coding, Refactoring, Debugging, Testing, Review, RepositoryAnalysis, Architecture, LargeContextAnalysis, Mcp}

  const VERSATILE := AgentRecord(CODEX, ONLINE, true, None, None, EVERYTHING, true, true)

  /** One agent, able to do anything. */
  const ALONE := World("task", "project", map[], [VERSATILE], {CODEX}, true)

  lemma AloneEligible(role: Role, prior: Assignments)
    requires CODEX !in Separated(role, prior) && CODEX !in Implementers(role, prior)
    ensures Selected(ALONE, role, prior) == Some(CODEX)
  {
    var q := RequestFor(ALONE, role, prior);
    assert !Unfit(VERSATILE, q);
    assert Candidate(VERSATILE, q);
    assert q.agents[..0] == [];
    assert Best(q.agents, q) == Some(VERSATILE);
  }

  lemma AloneShares(first: Role, second: Role)
    requires first != second && !MustDiffer(first, second)
    ensures Share(Planned(RouterOf(ALONE), [first, second]), first, second)
  {
    AloneEligible(first, map[]);
    NotHeld(first, second);
    AloneEligible(second, map[first := CODEX]);
    assert [first][..0] == [] && [first, second][..1] == [first];
    assert Planned(RouterOf(ALONE), [first]) == Progress(map[][first := CODEX], 1, false);
  }

  lemma NotHeld(first: Role, second: Role)
    requires !MustDiffer(first, second)
    ensures CODEX !in Separated(second, map[first := CODEX]) && CODEX !in Implementers(second, map[first := CODEX])
  {
  }

  /**
   * The table is exact: two roles planned in this order are kept apart for every registry if and only
   * if it lists them. In particular QA planned before REVIEWER may share its agent with it.
   */
  lemma SeparatedIff(first: Role, second: Role)
    requires first != second
    ensures MustDiffer(first, second) <==>
            forall w: World :: DistinctAgents(w.agents) ==> !Share(Planned(RouterOf(w), [first, second]), first, second)
    ensures !MustDiffer(QA, REVIEWER) && MustDiffer(REVIEWER, QA)
  {
    if MustDiffer(first, second) {
      forall w: World | DistinctAgents(w.agents) ensures !Share(Planned(RouterOf(w), [first, second]), first, second) {
        PlanSeparates(w, [first, second], 0, 1);
      }
    } else {
      AloneShares(first, second);
      assert DistinctAgents(ALONE.agents);
    }
  }

  // ---------------------------------------------------------------- the planner

  /** The role rows after `roles[..p.done]` were assigned and, when blocked, the next one was refused. */
  ghost predicate RowsShow(rows: seq<RoleRow>, roles: seq<Role>, p: Progress) {
    && |rows| == |roles| && p.done <= |roles|
    && (forall k :: 0 <= k < |roles| ==> rows[k].role == roles[k])
    && (forall k :: 0 <= k < p.done ==>
          rows[k].status == ASSIGNED && roles[k] in p.picked && rows[k].assignee == Some(p.picked[roles[k]]))
    && (forall k :: p.done <= k < |roles| && !(k == p.done && p.blocked) ==> rows[k] == Fresh(roles[k]))
    && (p.blocked && p.done < |roles| ==> rows[p.done].status == RoleBLOCKED && rows[p.done].assignee.None?)
  }

  /** The recorded decision is the router's, for the earlier choices. */
  ghost predicate Shows(e: Recorded, w: World, role: Role, sequence: nat, prior: Assignments) {
    && e.sequence == sequence && e.role == role
    && (e.decision.selected, e.decision.code) == Choose(RequestFor(w, role, prior))
  }

  /** Each attempted role has one recorded decision. */
  ghost predicate DecisionsShow(log: seq<Recorded>, w: World, roles: seq<Role>) {
    |log| <= |roles| &&
    forall k :: 0 <= k < |log| ==> Shows(log[k], w, roles[k], k + 1, Planned(RouterOf(w), roles[..k]).picked)
  }

  /** The rows after one more role was assigned or, with nobody selected, refused. */
  ghost predicate RowStep(rows: seq<RoleRow>, after: seq<RoleRow>, k: nat, agent: Option<AgentId>) {
    && k < |rows| == |after| && (forall j :: 0 <= j < |rows| && j != k ==> after[j] == rows[j])
    && after[k].role == rows[k].role
    && (if agent.Some? then after[k].status == ASSIGNED && after[k].assignee == agent
        else after[k].status == RoleBLOCKED && after[k].assignee == rows[k].assignee)
  }

  /** What holds of the stored team when the planning loop has dealt with `k` roles. */
  ghost predicate SoFar(team: Option<Team>, rows: seq<RoleRow>, log: seq<Recorded>, w: World, roles: seq<Role>, k: nat) {
    k <= |roles| && |log| == k && DecisionsShow(log, w, roles) &&
    var p := Planned(RouterOf(w), roles[..k]);
    && p.done + (if p.blocked then 1 else 0) == k
    && team == Some(Team(if p.blocked then TeamBLOCKED else PLANNED, None))
    && RowsShow(rows, roles, p)
  }

  lemma NothingYet(w: World, roles: seq<Role>)
    ensures roles[..0] == [] && SoFar(Some(Team(PLANNED, None)), FreshRoles(roles), [], w, roles, 0)
  {
  }

  lemma OneMoreRole(team: Option<Team>, rows: seq<RoleRow>, after: seq<RoleRow>, log: seq<Recorded>, e: Recorded,
                    w: World, roles: seq<Role>, k: nat)
    requires Distinct(roles) && k < |roles| && SoFar(team, rows, log, w, roles, k) && !Planned(RouterOf(w), roles[..k]).blocked
    requires Shows(e, w, roles[k], k + 1, Planned(RouterOf(w), roles[..k]).picked)
    requires RowStep(rows, after, k, Selected(w, roles[k], Planned(RouterOf(w), roles[..k]).picked))
    ensures var selected := Selected(w, roles[k], Planned(RouterOf(w), roles[..k]).picked);
            SoFar(Some(Team(if selected.None? then TeamBLOCKED else PLANNED, None)), after, log + [e], w, roles, k + 1)
  {
    PlannedNext(RouterOf(w), roles, k);
    PlannedPrefix(RouterOf(w), roles[..k]);
    var p := Planned(RouterOf(w), roles[..k]);
    RowsMore(rows, after, roles, p, Selected(w, roles[k], p.picked));
  }

  lemma RowsMore(rows: seq<RoleRow>, after: seq<RoleRow>, roles: seq<Role>, p: Progress, selected: Option<AgentId>)
    requires Distinct(roles) && p.done < |roles| && !p.blocked
    requires RowsShow(rows, roles, p) && RowStep(rows, after, p.done, selected)
    ensures RowsShow(after, roles, Extended(p, roles[p.done], selected))
  {
    assert forall j :: 0 <= j < p.done ==> roles[j] != roles[p.done];
  }

  lemma AllDone(team: Option<Team>, rows: seq<RoleRow>, log: seq<Recorded>, w: World, roles: seq<Role>, k: nat)
    requires SoFar(team, rows, log, w, roles, k) && (k == |roles| || Planned(RouterOf(w), roles[..k]).blocked)
    ensures var p := Planned(RouterOf(w), roles);
            && p == Planned(RouterOf(w), roles[..k])
            && team == Some(Team(if p.blocked then TeamBLOCKED else PLANNED, None))
            && RowsShow(rows, roles, p) && DecisionsShow(log, w, roles)
            && |log| == p.done + (if p.blocked then 1 else 0)
  {
    BlockedStays(RouterOf(w), roles, k);
  }

  /** The routing reason stored with an assignment starts with the decision's code. */
  function CodeText(code: ReasonCode): string {
    match code
    case ROLE_ASSIGNED => "ROLE_ASSIGNED"
    case ROUTING_MANUAL_OVERRIDE => "ROUTING_MANUAL_OVERRIDE"
    case ROUTING_NO_ELIGIBLE_AGENT => "ROUTING_NO_ELIGIBLE_AGENT"
    case INDEPENDENT_REVIEW_UNAVAILABLE => "INDEPENDENT_REVIEW_UNAVAILABLE"
  }

  class TeamPlanner {
    const store: TaskStore

    constructor (s: TaskStore)
      ensures store == s
    {
      store := s;
    }

    /** One turn of the planning loop. */
    method PlanRole(w: World, role: Role, k: nat, prior: Assignments, now: Time) returns (agent: Option<AgentId>)
      requires DistinctAgents(w.agents) && store.team.Some? && k < |store.roles|
      modifies store
      ensures agent == Selected(w, role, prior)
      ensures store.task == old(store.task) && RowStep(old(store.roles), store.roles, k, agent)
      ensures store.team == if agent.Some? then old(store.team) else Some(old(store.team).value.(status := TeamBLOCKED))
      ensures |store.decisions| == |old(store.decisions)| + 1
      ensures store.decisions == old(store.decisions) + [store.decisions[|old(store.decisions)|]]
      ensures Shows(store.decisions[|old(store.decisions)|], w, role, k + 1, prior)
    {
      var d := Route(RequestFor(w, role, prior));
      store.RecordDecision(k + 1, role, d);
      agent := d.selected;
      if agent.None? {
        store.Block(k + 1, "ROUTING_NO_ELIGIBLE_AGENT", now);
      } else {
        store.Assign(k + 1, agent.value, CodeText(d.code));
      }
    }

    /** The planning loop over the rows of a new team. */
    method AssignRoles(w: World, roles: seq<Role>, now: Time) returns (blocked: bool, ghost log: seq<Recorded>)
      requires DistinctAgents(w.agents) && Distinct(roles) && SoFar(store.team, store.roles, [], w, roles, 0)
      modifies store
      ensures store.task == old(store.task) && store.decisions == old(store.decisions) + log
      ensures |log| <= |roles| && SoFar(store.team, store.roles, log, w, roles, |log|)
      ensures blocked == Planned(RouterOf(w), roles[..|log|]).blocked && (blocked || |log| == |roles|)
    {
      log, blocked := [], false;
      var assignments: Assignments := map[];
      var k := 0;
      while k < |roles| && !blocked
        invariant |log| == k <= |roles|
        invariant store.task == old(store.task) && store.decisions == old(store.decisions) + log
        invariant SoFar(store.team, store.roles, log, w, roles, k)
        invariant assignments == Planned(RouterOf(w), roles[..k]).picked && blocked == Planned(RouterOf(w), roles[..k]).blocked
        decreases |roles| - k
      {
        ghost var rows, team := store.roles, store.team;
        PlannedNext(RouterOf(w), roles, k);
        var agent := PlanRole(w, roles[k], k, assignments, now);
        ghost var e := store.decisions[|old(store.decisions)| + k];
        OneMoreRole(team, rows, store.roles, log, e, w, roles, k);
        log := log + [e];
        if agent.None? {
          blocked := true;
        } else {
          assignments := assignments[roles[k] := agent.value];
        }
        k := k + 1;
      }
    }

    /** Plans once; a task that already has a team is left as it is. */
    method Plan(w: World, manual: seq<Role>, t: TaskType, now: Time) returns (blocked: bool)
      requires DistinctAgents(w.agents)
      modifies store
      ensures old(store.team).Some? ==>
        store.View() == old(store.View()) && blocked == old(store.team).value.status.TeamBLOCKED?
      ensures old(store.team).None? ==>
        var roles, n := RequiredRoles(manual, t), |old(store.decisions)|;
        var p := Planned(RouterOf(w), roles);
        && blocked == p.blocked && store.task == old(store.task)
        && store.team == Some(Team(if p.blocked then TeamBLOCKED else PLANNED, None))
        && RowsShow(store.roles, roles, p)
        && |store.decisions| == n + p.done + (if p.blocked then 1 else 0)
        && store.decisions[..n] == old(store.decisions) && DecisionsShow(store.decisions[n..], w, roles)
    {
      if store.team.Some? {
        return store.team.value.status.TeamBLOCKED?;
      }
      var roles := RequiredRoles(manual, t);
      RequiredOnce(manual, t);
      store.Create(roles);
      NothingYet(w, roles);
      ghost var log;
      blocked, log := AssignRoles(w, roles, now);
      AllDone(store.team, store.roles, log, w, roles, |log|);
      assert store.decisions[|old(store.decisions)|..] == log;
    }
  }
}
