/** Choosing an agent for a role: eligibility, independence of reviewers, deterministic scoring. */
module Routing {
  import opened Domain

  datatype Capability =
    | Coding | Refactoring | Debugging | Testing | Review | RepositoryAnalysis | Architecture
    | LargeContextAnalysis | Mcp | ProviderFlexibility | Jutell

  datatype Health = ONLINE | AUTH_REQUIRED | CLI_NOT_FOUND | ERROR

  datatype AgentRecord = AgentRecord(
    id: AgentId, health: Health, available: bool, currentTask: Option<TaskId>, currentProject: Option<ProjectId>,
    capabilities: set<Capability>, hasBot: bool, hasSession: bool)

  datatype Reason =
    | RECOVERY_EXCLUDED_WORKER | SEPARATION_OF_DUTIES | ROUTING_AGENT_OFFLINE | ROUTING_AGENT_BUSY
    | ROUTING_CAPABILITY_MISMATCH | ROUTING_DISCORD_UNAVAILABLE | ROUTING_WORKSPACE_CONFLICT
    | IMPLEMENTATION_AGENT | INDEPENDENT_REVIEW_REQUIRED | LOWER_DETERMINISTIC_SCORE(score: int)

  datatype ReasonCode = ROLE_ASSIGNED | ROUTING_MANUAL_OVERRIDE | ROUTING_NO_ELIGIBLE_AGENT | INDEPENDENT_REVIEW_UNAVAILABLE

  datatype Rejected = Rejected(agent: AgentId, reasons: seq<Reason>)

  datatype Decision = Decision(selected: Option<AgentId>, code: ReasonCode, rejected: seq<Rejected>)

  type Assignments = map<Role, AgentId>

  /** Everything `route` reads. `lockFree` is the lock table's answer for this task's own scope. */
  datatype Request = Request(
    role: Role, task: TaskId, project: ProjectId, prior: Assignments, override: Option<AgentId>,
    excluded: set<AgentId>, agents: seq<AgentRecord>, connected: set<AgentId>, lockFree: bool)

  /** Roles that do product work and may not fall to an agent reserved for its review or QA. */
  const EXECUTION_ROLES: set<Role> := {DEVELOPER, DEBUGGER, REFACTORER, MCP_SPECIALIST, ARCHITECT}

  function Required(role: Role): seq<Capability> {
    match role
    case DEVELOPER => [Coding]
    case REVIEWER => [Review, RepositoryAnalysis]
    case DEBUGGER => [Debugging, Testing]
    case QA => [Testing, Review]
    case REFACTORER => [Refactoring, Testing]
    case ARCHITECT => [Architecture, RepositoryAnalysis]
    case MCP_SPECIALIST => [Mcp, Coding]
  }

  /** Alphabetical order of the identifiers. */
  function Rank(id: AgentId): nat {
    match id
    case CLAUDE_CODE => 0
    case CODEX => 1
    case COMMAND_CODE => 2
    case OPENCODE => 3
  }

  function Holders(prior: Assignments, roles: set<Role>): set<AgentId> {
    set r | r in roles && r in prior :: prior[r]
  }

  /** Agents a role may never be given, because of who already holds or is reserved for which role. */
  function Separated(role: Role, prior: Assignments): set<AgentId> {
    (if role == QA then Holders(prior, IMPLEMENTERS + {REVIEWER}) else {})
    + (if role in EXECUTION_ROLES then Holders(prior, {REVIEWER, QA}) else {})
  }

  function Implementers(role: Role, prior: Assignments): set<AgentId> {
    if role == REVIEWER then Holders(prior, IMPLEMENTERS + {MCP_SPECIALIST}) else {}
  }

  // ---------------------------------------------------------------- eligibility

  predicate Barred(a: AgentRecord, q: Request) {
    a.id in q.excluded || a.id in Separated(q.role, q.prior)
  }

  predicate Busy(a: AgentRecord, q: Request) {
    !a.available && a.currentTask != Some(q.task)
  }

  /** Unfit for a reason other than being busy. */
  predicate Unfit(a: AgentRecord, q: Request) {
    || a.health != ONLINE
    || (exists i :: 0 <= i < |Required(q.role)| && Required(q.role)[i] !in a.capabilities)
    || !a.hasBot || a.id !in q.connected || !q.lockFree
  }

  predicate Eligible(a: AgentRecord, q: Request) {
    !Barred(a, q) && !Busy(a, q) && !Unfit(a, q)
  }

  /** Being busy with another task is all that keeps the agent from being eligible. */
  predicate OnlyBusy(a: AgentRecord, q: Request) {
    !Barred(a, q) && Busy(a, q) && !Unfit(a, q)
  }

  /** A candidate for selection: for a reviewer, independent of the implementers as well. */
  predicate Candidate(a: AgentRecord, q: Request) {
    Eligible(a, q) && a.id !in Implementers(q.role, q.prior)
  }

  function Score(a: AgentRecord, q: Request): int {
    |Required(q.role)| * 100 + 30
    + (if a.currentProject == Some(q.project) then 15 else 0)
    + (if a.hasSession then 5 else 0)
    + (if a.id in q.prior.Values then -20 else 10)
  }

  /** Higher score first, then alphabetical order. */
  predicate Better(a: AgentRecord, b: AgentRecord, q: Request) {
    Score(a, q) > Score(b, q) || (Score(a, q) == Score(b, q) && Rank(a.id) < Rank(b.id))
  }

  /** The identifiers as they are written. */
  function Name(id: AgentId): string {
    match id
    case CLAUDE_CODE => "CLAUDE_CODE"
    case CODEX => "CODEX"
    case COMMAND_CODE => "COMMAND_CODE"
    case OPENCODE => "OPENCODE"
  }

  /** `x` has the smaller letter where the two first differ. */
  ghost predicate Before(x: string, y: string) {
    exists k :: 0 <= k < |x| && k < |y| && (forall i :: 0 <= i < k ==> x[i] == y[i]) && x[k] < y[k]
  }

  lemma DiffersAt(x: string, y: string, k: nat)
    requires k < |x| && k < |y| && (forall i :: 0 <= i < k ==> x[i] == y[i]) && x[k] < y[k]
    ensures Before(x, y) && !Before(y, x)
  {
  }

  lemma RankIsAlphabetical(a: AgentId, b: AgentId)
    ensures Rank(a) < Rank(b) <==> a != b && Before(Name(a), Name(b))
  {
    if a != b {
      var x, y := if Rank(a) < Rank(b) then a else b, if Rank(a) < Rank(b) then b else a;
      var k := if y == OPENCODE then 0 else if x == CLAUDE_CODE then 1 else 2;
      assert Name(x)[k] < Name(y)[k];
      DiffersAt(Name(x), Name(y), k);
    }
  }

  /** Already holds a role of the task. */
  predicate InUse(a: AgentRecord, q: Request) {
    a.id in q.prior.Values
  }

  /**
   * What the weights amount to: an agent without a role of the task goes first, then one with the project
   * at hand, then one with a session, then the alphabet decides.
   */
  lemma BetterIff(a: AgentRecord, b: AgentRecord, q: Request)
    ensures var own, other := a.currentProject == Some(q.project), b.currentProject == Some(q.project);
            Better(a, b, q) <==>
              if InUse(a, q) != InUse(b, q) then !InUse(a, q)
              else if own != other then own
              else if a.hasSession != b.hasSession then a.hasSession
              else a.id != b.id && Before(Name(a.id), Name(b.id))
  {
    RankIsAlphabetical(a.id, b.id);
  }

  /** The reported score lies between 10 and 60 above a hundred for each required capability, at the ends for the extremes. */
  lemma ScoreSpan(a: AgentRecord, q: Request)
    ensures var base := 100 * |Required(q.role)|;
            && base + 10 <= Score(a, q) <= base + 60
            && (Score(a, q) == base + 60 <==> !InUse(a, q) && a.currentProject == Some(q.project) && a.hasSession)
            && (Score(a, q) == base + 10 <==> InUse(a, q) && a.currentProject != Some(q.project) && !a.hasSession)
  {
  }

  /** The agent holds, or is reserved for, a role that the wanted one must be kept apart from. */
  ghost predicate Conflicts(id: AgentId, role: Role, prior: Assignments) {
    exists r :: r in prior && prior[r] == id &&
      (|| (role == QA && r in {DEVELOPER, DEBUGGER, REFACTORER, REVIEWER})
       || (role in {DEVELOPER, DEBUGGER, REFACTORER, MCP_SPECIALIST, ARCHITECT} && r in {REVIEWER, QA}))
  }

  lemma SeparatedIff(id: AgentId, role: Role, prior: Assignments)
    ensures id in Separated(role, prior) <==> Conflicts(id, role, prior)
  {
    if Conflicts(id, role, prior) {
      var r :| r in prior && prior[r] == id &&
        (|| (role == QA && r in {DEVELOPER, DEBUGGER, REFACTORER, REVIEWER})
         || (role in {DEVELOPER, DEBUGGER, REFACTORER, MCP_SPECIALIST, ARCHITECT} && r in {REVIEWER, QA}));
      if role == QA {
        assert prior[r] in Holders(prior, IMPLEMENTERS + {REVIEWER});
      } else {
        assert prior[r] in Holders(prior, {REVIEWER, QA});
      }
    }
  }

  /** Who may take a role: online, free or busy with this very task, capable, reachable, and not kept out. */
  lemma EligibleIff(a: AgentRecord, q: Request)
    ensures Eligible(a, q) <==>
            && a.health == ONLINE && (a.available || a.currentTask == Some(q.task))
            && (forall i :: 0 <= i < |Required(q.role)| ==> Required(q.role)[i] in a.capabilities)
            && a.hasBot && a.id in q.connected && q.lockFree
            && a.id !in q.excluded && !Conflicts(a.id, q.role, q.prior)
  {
    SeparatedIff(a.id, q.role, q.prior);
  }

  /** A candidate reviewer holds no role whose work is to be reviewed; for other roles candidates are the eligible. */
  lemma CandidateIff(a: AgentRecord, q: Request)
    ensures Candidate(a, q) <==>
            Eligible(a, q) &&
            !(q.role == REVIEWER &&
              exists r :: r in q.prior && q.prior[r] == a.id && r in {DEVELOPER, DEBUGGER, REFACTORER, MCP_SPECIALIST})
  {
    if q.role == REVIEWER {
      if r :| r in q.prior && q.prior[r] == a.id && r in {DEVELOPER, DEBUGGER, REFACTORER, MCP_SPECIALIST} {
        assert q.prior[r] in Holders(q.prior, IMPLEMENTERS + {MCP_SPECIALIST});
      }
    }
  }

  // ---------------------------------------------------------------- what a decision must be

  ghost predicate DistinctAgents(agents: seq<AgentRecord>) {
    forall i, j :: 0 <= i < j < |agents| ==> agents[i].id != agents[j].id
  }

  /** `w` is the candidate that beats every other one. */
  ghost predicate Wins(w: AgentRecord, q: Request) {
    w in q.agents && Candidate(w, q) && forall a :: a in q.agents && Candidate(a, q) && a != w ==> Better(w, a, q)
  }

  predicate SomeCandidate(q: Request) {
    exists i :: 0 <= i < |q.agents| && Candidate(q.agents[i], q)
  }

  predicate SomeEligible(q: Request) {
    exists i :: 0 <= i < |q.agents| && Eligible(q.agents[i], q)
  }

  predicate EligibleId(q: Request, o: AgentId) {
    exists i :: 0 <= i < |q.agents| && q.agents[i].id == o && Eligible(q.agents[i], q)
  }

  /** The best candidate of a registry prefix. */
  function Best(agents: seq<AgentRecord>, q: Request): Option<AgentRecord> {
    if agents == [] then None else
    var rest, a := Best(agents[..|agents| - 1], q), agents[|agents| - 1];
    if !Candidate(a, q) then rest
    else if rest.Some? && Better(rest.value, a, q) then rest else Some(a)
  }

  /** The selected agent, if any, and the reason code. */
  function Choose(q: Request): (Option<AgentId>, ReasonCode) {
    match q.override
    case Some(o) =>
      if o in Implementers(q.role, q.prior) then (None, INDEPENDENT_REVIEW_UNAVAILABLE)
      else if EligibleId(q, o) then (Some(o), ROUTING_MANUAL_OVERRIDE)
      else (None, ROUTING_NO_ELIGIBLE_AGENT)
    case None =>
      match Best(q.agents, q)
      case Some(w) => (Some(w.id), ROLE_ASSIGNED)
      case None => (None, if SomeEligible(q) then INDEPENDENT_REVIEW_UNAVAILABLE else ROUTING_NO_ELIGIBLE_AGENT)
  }

  /** `b` is the best candidate of `agents`, or there is none. */
  ghost predicate IsBest(agents: seq<AgentRecord>, q: Request, b: Option<AgentRecord>) {
    if b.None? then forall a :: a in agents ==> !Candidate(a, q)
    else b.value in agents && Candidate(b.value, q) &&
         forall a :: a in agents && Candidate(a, q) && a != b.value ==> Better(b.value, a, q)
  }

  lemma BetterOrder(a: AgentRecord, b: AgentRecord, c: AgentRecord, q: Request)
    ensures Better(a, b, q) && Better(b, c, q) ==> Better(a, c, q)
    ensures a.id != b.id && !Better(a, b, q) ==> Better(b, a, q)
  {
  }

  lemma LastBest(init: seq<AgentRecord>, last: AgentRecord, q: Request, b: AgentRecord)
    requires IsBest(init, q, Some(b)) && Candidate(last, q) && last.id != b.id
    ensures IsBest(init + [last], q, Some(if Better(b, last, q) then b else last))
  {
    var agents, w := init + [last], if Better(b, last, q) then b else last;
    assert agents[|init|] == last;
    forall a | a in agents && Candidate(a, q) && a != w ensures Better(w, a, q) {
      BetterOrder(b, last, a, q);
      BetterOrder(last, b, a, q);
    }
  }

  lemma FirstBest(init: seq<AgentRecord>, last: AgentRecord, q: Request, b: Option<AgentRecord>)
    requires IsBest(init, q, b) && (b.None? || !Candidate(last, q))
    ensures IsBest(init + [last], q, if Candidate(last, q) then Some(last) else b)
  {
    var agents := init + [last];
    assert agents[|init|] == last;
    assert forall a :: a in agents <==> a in init || a == last;
  }

  lemma NewId(init: seq<AgentRecord>, last: AgentRecord, a: AgentRecord)
    requires DistinctAgents(init + [last]) && a in init
    ensures a.id != last.id
  {
    var i :| 0 <= i < |init| && init[i] == a;
    assert (init + [last])[i].id != (init + [last])[|init|].id;
  }

  lemma {:induction false} BestOfPrefix(agents: seq<AgentRecord>, q: Request)
    requires DistinctAgents(agents)
    ensures IsBest(agents, q, Best(agents, q))
  {
    if agents != [] {
      var init, last := agents[..|agents| - 1], agents[|agents| - 1];
      BestOfPrefix(init, q);
      assert agents == init + [last];
      BestOfOneMore(init, last, q);
    }
  }

  lemma BestOfOneMore(init: seq<AgentRecord>, last: AgentRecord, q: Request)
    requires DistinctAgents(init + [last]) && IsBest(init, q, Best(init, q))
    ensures IsBest(init + [last], q, Best(init + [last], q))
  {
    var b := Best(init, q);
    assert (init + [last])[..|init|] == init;
    if b.None? || !Candidate(last, q) {
      FirstBest(init, last, q, b);
    } else {
      NewId(init, last, b.value);
      LastBest(init, last, q, b.value);
    }
  }

  /**
   * An automatic choice is the unique maximum, by score and then identifier, among the candidates;
   * nobody is chosen only if there is no candidate.
   */
  lemma ChosenWins(q: Request)
    requires DistinctAgents(q.agents) && q.override.None?
    ensures Choose(q).1 == ROLE_ASSIGNED <==> SomeCandidate(q)
    ensures Choose(q).1 == ROLE_ASSIGNED <==> Choose(q).0.Some?
    ensures Choose(q).0.Some? ==> exists w :: Wins(w, q) && Choose(q).0 == Some(w.id)
    ensures forall w, w' :: Wins(w, q) && Wins(w', q) ==> w == w'
  {
    BestOfPrefix(q.agents, q);
    var b := Best(q.agents, q);
    if b.Some? {
      var i :| 0 <= i < |q.agents| && q.agents[i] == b.value;
      assert Wins(b.value, q);
    }
  }

  /** The registry's order is immaterial. */
  lemma OrderImmaterial(q: Request, agents: seq<AgentRecord>)
    requires DistinctAgents(q.agents) && DistinctAgents(agents)
    requires forall a :: a in agents <==> a in q.agents
    ensures Choose(q) == Choose(q.(agents := agents))
  {
    var q' := q.(agents := agents);
    MoreAgents(q, agents);
    MoreAgents(q', q.agents);
    assert q'.(agents := q.agents) == q;
    if q.override.None? {
      BestOfPrefix(q.agents, q);
      BestOfPrefix(agents, q');
      SameCandidates(q, agents);
      var b, b' := Best(q.agents, q), Best(agents, q');
      assert b.Some? <==> b'.Some?;
      assert b == b';
    }
  }

  lemma SameCandidates(q: Request, agents: seq<AgentRecord>)
    ensures forall a :: Candidate(a, q) <==> Candidate(a, q.(agents := agents))
    ensures forall a, b :: Better(a, b, q) <==> Better(a, b, q.(agents := agents))
  {
  }

  lemma MoreAgents(q: Request, agents: seq<AgentRecord>)
    requires forall a :: a in q.agents ==> a in agents
    ensures SomeEligible(q) ==> SomeEligible(q.(agents := agents))
    ensures forall o :: EligibleId(q, o) ==> EligibleId(q.(agents := agents), o)
  {
    var q' := q.(agents := agents);
    forall i | 0 <= i < |q.agents| && Eligible(q.agents[i], q) ensures EligibleId(q', q.agents[i].id) {
      assert q.agents[i] in agents;
      var j :| 0 <= j < |agents| && agents[j] == q.agents[i];
      assert Eligible(agents[j], q');
    }
  }

  /** However it was chosen, a selected agent is eligible: never excluded, separated, busy or unfit. */
  lemma SelectedIsEligible(q: Request)
    requires DistinctAgents(q.agents) && Choose(q).0.Some?
    ensures exists a :: a in q.agents && a.id == Choose(q).0.value && Eligible(a, q)
    ensures Choose(q).0.value !in q.excluded + Separated(q.role, q.prior) + Implementers(q.role, q.prior)
  {
    if q.override.None? {
      BestOfPrefix(q.agents, q);
    } else {
      assert EligibleId(q, q.override.value);
      var i :| 0 <= i < |q.agents| && q.agents[i].id == q.override.value && Eligible(q.agents[i], q);
      assert q.agents[i] in q.agents;
    }
  }

  // ---------------------------------------------------------------- the router itself

  /** How often `who` was rejected. */
  function Mentions(rejected: seq<Rejected>, who: AgentId): nat {
    if rejected == [] then 0
    else Mentions(rejected[..|rejected| - 1], who) + (if rejected[|rejected| - 1].agent == who then 1 else 0)
  }

  /** How often `who` is registered. */
  function Present(agents: seq<AgentRecord>, who: AgentId): nat {
    if agents == [] then 0
    else Present(agents[..|agents| - 1], who) + (if agents[|agents| - 1].id == who then 1 else 0)
  }

  lemma Snoc(rejected: seq<Rejected>, r: Rejected)
    ensures forall who :: Mentions(rejected + [r], who) == Mentions(rejected, who) + (if r.agent == who then 1 else 0)
  {
    assert (rejected + [r])[..|rejected|] == rejected;
  }

  lemma SnocAgent(agents: seq<AgentRecord>, a: AgentRecord)
    ensures forall who :: Present(agents + [a], who) == Present(agents, who) + (if a.id == who then 1 else 0)
  {
    assert (agents + [a])[..|agents|] == agents;
  }

  /** Every rejection names a reason. */
  ghost predicate Explained(rejected: seq<Rejected>) {
    forall i :: 0 <= i < |rejected| ==> rejected[i].reasons != []
  }

  predicate BusyOnly(rejected: seq<Rejected>) {
    exists i :: 0 <= i < |rejected| && rejected[i].reasons == [ROUTING_AGENT_BUSY]
  }

  predicate TemporarilyBusy(agents: seq<AgentRecord>, q: Request) {
    exists i :: 0 <= i < |agents| && OnlyBusy(agents[i], q)
  }

  lemma MoreRejected(rejected: seq<Rejected>, r: Rejected)
    ensures Explained(rejected + [r]) <==> Explained(rejected) && r.reasons != []
    ensures BusyOnly(rejected + [r]) <==> BusyOnly(rejected) || r.reasons == [ROUTING_AGENT_BUSY]
  {
    var all := rejected + [r];
    assert all[|rejected|] == r;
    assert forall i :: 0 <= i < |rejected| ==> all[i] == rejected[i];
    Snoc(rejected, r);
  }

  lemma MoreBusy(agents: seq<AgentRecord>, a: AgentRecord, q: Request)
    ensures TemporarilyBusy(agents + [a], q) <==> TemporarilyBusy(agents, q) || OnlyBusy(a, q)
  {
    var all := agents + [a];
    assert all[|agents|] == a;
    assert forall i :: 0 <= i < |agents| ==> all[i] == agents[i];
  }

  predicate Lacks(a: AgentRecord, role: Role) {
    exists i :: 0 <= i < |Required(role)| && Required(role)[i] !in a.capabilities
  }

  method IneligibleReasons(a: AgentRecord, q: Request) returns (reasons: seq<Reason>)
    ensures ROUTING_AGENT_OFFLINE in reasons <==> a.health != ONLINE
    ensures ROUTING_AGENT_BUSY in reasons <==> !a.available && a.currentTask != Some(q.task)
    ensures ROUTING_CAPABILITY_MISMATCH in reasons <==> exists c :: c in Required(q.role) && c !in a.capabilities
    ensures ROUTING_DISCORD_UNAVAILABLE in reasons <==> !a.hasBot || a.id !in q.connected
    ensures ROUTING_WORKSPACE_CONFLICT in reasons <==> !q.lockFree
    ensures reasons == [] <==> !Busy(a, q) && !Unfit(a, q)
    ensures Busy(a, q) ==> (|reasons| == 1 <==> !Unfit(a, q))
    ensures RECOVERY_EXCLUDED_WORKER !in reasons && SEPARATION_OF_DUTIES !in reasons
  {
    reasons := [];
    if a.health != ONLINE { reasons := reasons + [ROUTING_AGENT_OFFLINE]; }
    if Busy(a, q) { reasons := reasons + [ROUTING_AGENT_BUSY]; }
    if Lacks(a, q.role) { reasons := reasons + [ROUTING_CAPABILITY_MISMATCH]; }
    if !a.hasBot || a.id !in q.connected { reasons := reasons + [ROUTING_DISCORD_UNAVAILABLE]; }
    if !q.lockFree { reasons := reasons + [ROUTING_WORKSPACE_CONFLICT]; }
  }

  method RejectionReasons(a: AgentRecord, q: Request) returns (reasons: seq<Reason>)
    ensures reasons == [] <==> Eligible(a, q)
    ensures reasons == [ROUTING_AGENT_BUSY] <==> OnlyBusy(a, q)
    ensures RECOVERY_EXCLUDED_WORKER in reasons <==> a.id in q.excluded
    ensures SEPARATION_OF_DUTIES in reasons <==> Conflicts(a.id, q.role, q.prior)
  {
    var barred: seq<Reason> := if a.id in q.excluded then [RECOVERY_EXCLUDED_WORKER] else [];
    if q.role == QA && a.id in Holders(q.prior, IMPLEMENTERS + {REVIEWER}) { barred := barred + [SEPARATION_OF_DUTIES]; }
    if q.role in EXECUTION_ROLES && a.id in Holders(q.prior, {REVIEWER, QA}) { barred := barred + [SEPARATION_OF_DUTIES]; }
    SeparatedIff(a.id, q.role, q.prior);
    var unfit := IneligibleReasons(a, q);
    reasons := barred + unfit;
    if barred != [] {
      assert reasons[0] == barred[0] != ROUTING_AGENT_BUSY;
    } else {
      assert reasons == unfit;
    }
  }

  /** The loop over the registry: nobody lost, nobody added, and the busy ones told apart. */
  ghost predicate SplitUp(agents: seq<AgentRecord>, q: Request, eligible: seq<AgentRecord>, rejected: seq<Rejected>) {
    && (forall who :: Mentions(rejected, who) + Present(eligible, who) == Present(agents, who))
    && (forall a :: a in eligible <==> a in agents && Eligible(a, q))
    && Explained(rejected)
    && (BusyOnly(rejected) <==> TemporarilyBusy(agents, q))
  }

  method Partition(q: Request) returns (eligible: seq<AgentRecord>, rejected: seq<Rejected>)
    ensures SplitUp(q.agents, q, eligible, rejected)
  {
    eligible, rejected := [], [];
    for k := 0 to |q.agents|
      invariant SplitUp(q.agents[..k], q, eligible, rejected)
    {
      var a := q.agents[k];
      assert q.agents[..k + 1] == q.agents[..k] + [a];
      var reasons := RejectionReasons(a, q);
      if reasons != [] {
        GrowRejected(q.agents[..k], q, eligible, rejected, a, reasons);
        rejected := rejected + [Rejected(a.id, reasons)];
      } else {
        GrowEligible(q.agents[..k], q, eligible, rejected, a);
        eligible := eligible + [a];
      }
    }
    assert q.agents[..|q.agents|] == q.agents;
  }

  lemma GrowRejected(agents: seq<AgentRecord>, q: Request, eligible: seq<AgentRecord>, rejected: seq<Rejected>,
                     a: AgentRecord, reasons: seq<Reason>)
    requires SplitUp(agents, q, eligible, rejected) && reasons != [] && !Eligible(a, q)
    requires reasons == [ROUTING_AGENT_BUSY] <==> OnlyBusy(a, q)
    ensures SplitUp(agents + [a], q, eligible, rejected + [Rejected(a.id, reasons)])
  {
    Snoc(rejected, Rejected(a.id, reasons));
    MoreRejected(rejected, Rejected(a.id, reasons));
    SnocAgent(agents, a);
    MoreBusy(agents, a, q);
  }

  lemma GrowEligible(agents: seq<AgentRecord>, q: Request, eligible: seq<AgentRecord>, rejected: seq<Rejected>, a: AgentRecord)
    requires SplitUp(agents, q, eligible, rejected) && Eligible(a, q)
    ensures SplitUp(agents + [a], q, eligible + [a], rejected)
  {
    SnocAgent(eligible, a);
    SnocAgent(agents, a);
    MoreBusy(agents, a, q);
  }

  method Independent(eligible: seq<AgentRecord>, implementers: set<AgentId>)
    returns (independent: seq<AgentRecord>, conflicted: seq<AgentRecord>)
    ensures forall who :: Present(independent, who) + Present(conflicted, who) == Present(eligible, who)
    ensures forall a :: a in independent <==> a in eligible && a.id !in implementers
  {
    independent, conflicted := [], [];
    for k := 0 to |eligible|
      invariant forall who :: Present(independent, who) + Present(conflicted, who) == Present(eligible[..k], who)
      invariant forall a :: a in independent <==> a in eligible[..k] && a.id !in implementers
    {
      var a := eligible[k];
      assert eligible[..k + 1] == eligible[..k] + [a];
      SnocAgent(eligible[..k], a);
      if a.id in implementers {
        SnocAgent(conflicted, a);
        conflicted := conflicted + [a];
      } else {
        SnocAgent(independent, a);
        independent := independent + [a];
      }
    }
    assert eligible[..|eligible|] == eligible;
  }

  /** Adds a rejection for each of `agents` from index `from` on. */
  method RejectAll(before: seq<Rejected>, agents: seq<AgentRecord>, from: nat, reasonFor: AgentRecord -> Reason)
    returns (rejected: seq<Rejected>)
    requires from <= |agents| && Explained(before)
    ensures Explained(rejected)
    ensures forall who :: Mentions(rejected, who) + Present(agents[..from], who) == Mentions(before, who) + Present(agents, who)
  {
    rejected := before;
    for k := from to |agents|
      invariant Explained(rejected)
      invariant forall who ::
        Mentions(rejected, who) + Present(agents[..from], who) == Mentions(before, who) + Present(agents[..k], who)
    {
      var r := Rejected(agents[k].id, [reasonFor(agents[k])]);
      assert agents[..k + 1] == agents[..k] + [agents[k]];
      SnocAgent(agents[..k], agents[k]);
      Snoc(rejected, r);
      MoreRejected(rejected, r);
      rejected := rejected + [r];
    }
    assert agents[..|agents|] == agents;
  }

  /** Best first. */
  ghost predicate Sorted(s: seq<AgentRecord>, q: Request) {
    forall i, j :: 0 <= i < j < |s| ==> !Better(s[j], s[i], q)
  }

  ghost predicate SameAgents(s: seq<AgentRecord>, t: seq<AgentRecord>) {
    && (forall a :: a in s <==> a in t)
    && forall who :: Present(s, who) == Present(t, who)
  }

  method SortByScore(pool: seq<AgentRecord>, q: Request) returns (s: seq<AgentRecord>)
    ensures SameAgents(s, pool) && Sorted(s, q)
  {
    s := [];
    for k := 0 to |pool|
      invariant SameAgents(s, pool[..k]) && Sorted(s, q)
    {
      var a := pool[k];
      var at := 0;
      while at < |s| && !Better(a, s[at], q)
        invariant 0 <= at <= |s|
        invariant forall i :: 0 <= i < at ==> !Better(a, s[i], q)
      {
        at := at + 1;
      }
      assert pool[..k + 1] == pool[..k] + [a];
      SnocAgent(pool[..k], a);
      InsertSorted(s, q, at, a);
      Inserted(s, at, a);
      s := s[..at] + [a] + s[at..];
    }
    assert pool[..|pool|] == pool;
  }

  lemma InsertSorted(s: seq<AgentRecord>, q: Request, at: nat, a: AgentRecord)
    requires at <= |s| && Sorted(s, q)
    requires forall i :: 0 <= i < at ==> !Better(a, s[i], q)
    requires at < |s| ==> Better(a, s[at], q)
    ensures Sorted(s[..at] + [a] + s[at..], q)
  {
    var t := s[..at] + [a] + s[at..];
    forall i, j | 0 <= i < j < |t| ensures !Better(t[j], t[i], q) {
      if i == at && j > at + 1 {
        assert !Better(s[j - 1], s[at], q);
      }
    }
  }

  lemma {:induction false} Inserted(s: seq<AgentRecord>, at: nat, a: AgentRecord)
    requires at <= |s|
    ensures SameAgents(s[..at] + [a] + s[at..], s + [a])
  {
    var t := s[..at] + [a] + s[at..];
    if at == |s| {
      assert t == s + [a];
    } else {
      var init, last := s[..|s| - 1], s[|s| - 1];
      Inserted(init, at, a);
      assert s == init + [last];
      assert t == (init[..at] + [a] + init[at..]) + [last];
      SnocAgent(init[..at] + [a] + init[at..], last);
      SnocAgent(init, last);
      SnocAgent(init, a);
      SnocAgent(s, a);
    }
  }

  // ---------------------------------------------------------------- route

  lemma EligibleIdIff(q: Request, eligible: seq<AgentRecord>, o: AgentId)
    requires forall a :: a in eligible <==> a in q.agents && Eligible(a, q)
    ensures EligibleId(q, o) <==> Registered(eligible, o)
  {
    if EligibleId(q, o) {
      var i :| 0 <= i < |q.agents| && q.agents[i].id == o && Eligible(q.agents[i], q);
      assert q.agents[i] in eligible;
    }
    if Registered(eligible, o) {
      var i :| 0 <= i < |eligible| && eligible[i].id == o;
      assert eligible[i] in q.agents;
    }
  }

  predicate Registered(agents: seq<AgentRecord>, o: AgentId) {
    exists i :: 0 <= i < |agents| && agents[i].id == o
  }

  lemma NoCandidate(q: Request, eligible: seq<AgentRecord>)
    requires DistinctAgents(q.agents) && forall a :: a in eligible <==> a in q.agents && Eligible(a, q)
    requires forall a :: a in eligible ==> a.id in Implementers(q.role, q.prior)
    ensures Best(q.agents, q).None?
    ensures SomeEligible(q) <==> eligible != []
  {
    BestOfPrefix(q.agents, q);
    if eligible != [] {
      assert eligible[0] in q.agents;
    }
    if SomeEligible(q) {
      var i :| 0 <= i < |q.agents| && Eligible(q.agents[i], q);
      assert q.agents[i] in eligible;
    }
  }

  lemma WinnerIsBest(q: Request, pool: seq<AgentRecord>, scored: seq<AgentRecord>)
    requires DistinctAgents(q.agents) && pool != [] && SameAgents(scored, pool) && Sorted(scored, q)
    requires forall a :: a in pool <==> a in q.agents && Candidate(a, q)
    ensures scored != [] && Best(q.agents, q) == Some(scored[0])
  {
    BestOfPrefix(q.agents, q);
    assert pool[0] in scored;
    assert scored[0] in pool;
    var b := Best(q.agents, q).value;
    assert b in scored;
    var j :| 0 <= j < |scored| && scored[j] == b;
  }

  lemma {:induction false} PresentOnce(agents: seq<AgentRecord>, who: AgentId)
    requires DistinctAgents(agents)
    ensures Present(agents, who) == if Registered(agents, who) then 1 else 0
  {
    if agents != [] {
      var init, last := agents[..|agents| - 1], agents[|agents| - 1];
      PresentOnce(init, who);
      assert agents[|agents| - 1] == last;
      assert forall i :: 0 <= i < |init| ==> init[i] == agents[i] && init[i].id != last.id;
      if Registered(agents, who) && last.id != who {
        var i :| 0 <= i < |agents| && agents[i].id == who;
        assert init[i].id == who;
      }
    }
  }

  /** Every registered agent but the winner is rejected exactly once, and nobody else is. */
  ghost predicate Accounted(q: Request, d: Decision) {
    && d.selected.Some? && Registered(q.agents, d.selected.value)
    && forall who ::
         Mentions(d.rejected, who) == if Registered(q.agents, who) && who != d.selected.value then 1 else 0
  }

  ghost predicate AllRejected(q: Request, rejected: seq<Rejected>) {
    forall who :: Mentions(rejected, who) == if Registered(q.agents, who) then 1 else 0
  }

  lemma NobodyLeft(q: Request, rejected: seq<Rejected>)
    requires DistinctAgents(q.agents) && SplitUp(q.agents, q, [], rejected)
    ensures AllRejected(q, rejected)
  {
    forall who ensures Mentions(rejected, who) == if Registered(q.agents, who) then 1 else 0 {
      PresentOnce(q.agents, who);
      assert Present([], who) == 0;
    }
  }

  /** Every registered agent that is not eligible is rejected exactly once, and nobody else is. */
  ghost predicate UnfitRejected(q: Request, rejected: seq<Rejected>) {
    forall who :: Mentions(rejected, who) == if Registered(q.agents, who) && !EligibleId(q, who) then 1 else 0
  }

  lemma {:induction false} PresentIff(agents: seq<AgentRecord>, who: AgentId)
    ensures Present(agents, who) > 0 <==> Registered(agents, who)
  {
    if agents != [] {
      var n := |agents| - 1;
      PresentIff(agents[..n], who);
      if agents[n].id != who && Registered(agents, who) {
        var i :| 0 <= i < |agents| && agents[i].id == who;
        assert agents[..n][i].id == who;
      }
    }
  }

  lemma PartitionRejects(q: Request, eligible: seq<AgentRecord>, rejected: seq<Rejected>)
    requires DistinctAgents(q.agents) && SplitUp(q.agents, q, eligible, rejected)
    ensures UnfitRejected(q, rejected)
  {
    forall who ensures Mentions(rejected, who) == if Registered(q.agents, who) && !EligibleId(q, who) then 1 else 0 {
      PresentOnce(q.agents, who);
      PresentIff(eligible, who);
      EligibleIdIff(q, eligible, who);
      assert Mentions(rejected, who) + Present(eligible, who) == Present(q.agents, who);
    }
  }

  /** The automatic part of `route`, for a pool of candidates. */
  method SelectBest(q: Request, pool: seq<AgentRecord>, rejected: seq<Rejected>) returns (d: Decision)
    requires DistinctAgents(q.agents) && q.override.None? && pool != [] && Explained(rejected)
    requires forall a :: a in pool <==> a in q.agents && Candidate(a, q)
    requires forall who :: Mentions(rejected, who) + Present(pool, who) == Present(q.agents, who)
    ensures (d.selected, d.code) == Choose(q) && d.code == ROLE_ASSIGNED
    ensures Explained(d.rejected) && Accounted(q, d)
  {
    var scored := SortByScore(pool, q);
    WinnerIsBest(q, pool, scored);
    var all := RejectAll(rejected, scored, 1, a => LOWER_DETERMINISTIC_SCORE(Score(a, q)));
    assert scored[..1] == [] + [scored[0]];
    SnocAgent([], scored[0]);
    forall who ensures Present(q.agents, who) == if Registered(q.agents, who) then 1 else 0 {
      PresentOnce(q.agents, who);
    }
    assert Registered(q.agents, scored[0].id) by {
      assert scored[0] in pool;
      var i :| 0 <= i < |q.agents| && q.agents[i] == scored[0];
    }
    d := Decision(Some(scored[0].id), ROLE_ASSIGNED, all);
  }

  method Route(q: Request) returns (d: Decision)
    requires DistinctAgents(q.agents)
    ensures (d.selected, d.code) == Choose(q)
    ensures Explained(d.rejected)
    ensures d.code == ROLE_ASSIGNED ==> Accounted(q, d)
    ensures d.code == ROUTING_NO_ELIGIBLE_AGENT && q.override.None? ==> AllRejected(q, d.rejected)
    ensures d.code == INDEPENDENT_REVIEW_UNAVAILABLE && q.override.None? ==> UnfitRejected(q, d.rejected)
    ensures d.code == INDEPENDENT_REVIEW_UNAVAILABLE && q.override.Some? ==>
              d.rejected != [] && d.rejected[|d.rejected| - 1].agent == q.override.value
              && UnfitRejected(q, d.rejected[..|d.rejected| - 1])
    ensures d.code != INDEPENDENT_REVIEW_UNAVAILABLE && q.override.Some? ==> UnfitRejected(q, d.rejected)
    ensures d.selected.None? && q.override.None? ==> (BusyOnly(d.rejected) <==> TemporarilyBusy(q.agents, q))
  {
    var eligible, rejected := Partition(q);
    PartitionRejects(q, eligible, rejected);
    var implementers := Implementers(q.role, q.prior);
    if q.override.Some? {
      var override := q.override.value;
      if override in implementers {
        var r := Rejected(override, [IMPLEMENTATION_AGENT, INDEPENDENT_REVIEW_REQUIRED]);
        MoreRejected(rejected, r);
        return Decision(None, INDEPENDENT_REVIEW_UNAVAILABLE, rejected + [r]);
      }
      EligibleIdIff(q, eligible, override);
      return if Registered(eligible, override) then Decision(Some(override), ROUTING_MANUAL_OVERRIDE, rejected)
             else Decision(None, ROUTING_NO_ELIGIBLE_AGENT, rejected);
    }
    var pool := eligible;
    if q.role == REVIEWER {
      var independent, conflicted := Independent(eligible, implementers);
      if independent != [] {
        rejected := RejectAll(rejected, conflicted, 0, a => IMPLEMENTATION_AGENT);
        pool := independent;
      } else if eligible != [] {
        NoCandidate(q, eligible);
        return Decision(None, INDEPENDENT_REVIEW_UNAVAILABLE, rejected);
      }
    }
    if pool == [] {
      NoCandidate(q, eligible);
      NobodyLeft(q, rejected);
      return Decision(None, ROUTING_NO_ELIGIBLE_AGENT, rejected);
    }
    d := SelectBest(q, pool, rejected);
  }
}
