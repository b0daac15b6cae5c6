/** The run budget of one task: a chain of runs with fixed deadlines, progress evidence and re-arming. */
module RunBudget {
  import opened Domain

  type RunId = string
  type Pid = nat
  type Fingerprint = string

  datatype RunStatus = ACTIVE | EXHAUSTED

  datatype Expiry = WALL_CLOCK_BUDGET | NO_PROGRESS_BUDGET

  datatype Run = Run(
    id: RunId, project: ProjectId, startedAt: Time, deadline: Time, budget: int, noProgress: int,
    lastProgressAt: Time, lastProgress: Fingerprint, status: RunStatus, expiry: Option<(Time, Expiry)>,
    diff: Option<string>, diffAt: Option<Time>,
    seen: set<Fingerprint>, activityAt: Option<Time>, activity: Option<Fingerprint>)

  /** What a fingerprint is the digest of. */
  datatype Evidence =
    | ProtocolEvent(text: string)
    | ProcessStart(process: string)
    | ProcessHeartbeat(process: string, seen: Time)
    | ProductDiff(of: Option<string>, signature: Option<string>)
    | ReadOnlyActivity(process: string, semantic: string)

  datatype Dated = Dated(at: Time, fp: Fingerprint)

  datatype Activity = Activity(at: Time, semantic: string, command: Option<string>)

  /** The task's latest process. `signature` is its worktree's, if it has one. */
  datatype Process = Process(
    id: string, agent: AgentId, attempt: nat, startedAt: Time, lastSeen: Time, running: bool,
    signature: Option<string>, log: seq<Activity>)

  datatype Execution = Execution(role: Role, agent: Option<AgentId>, attempt: nat)

  /** What an evaluation reads; `declared` tells the commands that run a validation the task declares. */
  datatype Observation = Observation(
    event: Option<(Time, string)>, process: Option<Process>, execution: Option<Execution>, declared: string -> bool)

  /** What an evaluation takes from outside: three clock readings, and the processes a signal does end. */
  datatype Outside = Outside(observed: Time, judged: Time, expired: Time, obeys: set<Pid>)

  datatype Error =
    | RUN_BUDGET_INVALID | EXTENSION_REQUIRES_HIGHER_AUTHORITY | REARM_PROVENANCE_REQUIRED | REARM_REQUIRES_AUTHORITY
    | REARM_PROVENANCE_CORRUPT | REARM_REQUIRES_EXHAUSTED_RUN | REARM_BINDING_MISMATCH | CONTINUATION_INTENT_BOUNDARY_MISMATCH

  /** A re-arm request; the flags say whether its provenance texts are filled in and its authority holds. */
  datatype Rearm = Rearm(
    requestId: string, project: ProjectId, previous: RunId, budget: int, noProgress: int,
    documented: bool, authorised: bool, intent: Option<(Role, nat)>)

  datatype Link = Link(previous: RunId, next: RunId)

  /** Everything stored about the task's budget. Exhaustion events carry the run's identifier as key. */
  datatype Books = Books(
    current: Option<Run>, runs: map<RunId, Run>, rearmed: map<string, Link>, exhausted: seq<RunId>,
    intents: map<RunId, (Role, nat)>, watching: bool, locked: bool, running: set<Pid>)

  const NOTHING := Books(None, map[], map[], [], map[], true, true, {})

  // ---------------------------------------------------------------- starting and re-arming

  predicate Valid(budget: int, noProgress: int) {
    budget > 0 && noProgress > 0
  }

  /** A new run; the clock is read once for its start and again for its deadline. */
  function NewRun(id: RunId, project: ProjectId, budget: int, noProgress: int, now: Time, again: Time): Run {
    Run(id, project, now, again + budget, budget, noProgress, now, "START", RunStatus.ACTIVE, None, None, None, {}, None, None)
  }

  function Stored(b: Books, run: Run): Books {
    b.(current := Some(run), runs := b.runs[run.id := run])
  }

  function Started(b: Books, project: ProjectId, budget: int, noProgress: int, now: Time, again: Time, newId: RunId)
    : (Books, Result<Run, Error>)
  {
    if !Valid(budget, noProgress) then (b, Err(RUN_BUDGET_INVALID))
    else if b.current.Some? then
      var run := b.current.value;
      if run.project != project || run.budget != budget || run.noProgress != noProgress
      then (b, Err(EXTENSION_REQUIRES_HIGHER_AUTHORITY)) else (b, Ok(run))
    else
      var run := NewRun(newId, project, budget, noProgress, now, again);
      (Stored(b, run), Ok(run))
  }

  /** Why a request is turned away before the request log is looked at. */
  function Malformed(q: Rearm): Option<Error> {
    if !Valid(q.budget, q.noProgress) then Some(RUN_BUDGET_INVALID)
    else if !q.documented then Some(REARM_PROVENANCE_REQUIRED)
    else if !q.authorised then Some(REARM_REQUIRES_AUTHORITY)
    else None
  }

  /** Why a request that was not answered before is turned away. */
  function Unfounded(b: Books, q: Rearm, rounds: map<Role, nat>): Option<Error> {
    if b.current.None? || b.current.value.status != EXHAUSTED then Some(REARM_REQUIRES_EXHAUSTED_RUN)
    else if b.current.value.project != q.project || b.current.value.id != q.previous then Some(REARM_BINDING_MISMATCH)
    else if q.intent.Some? && (q.intent.value.0 !in rounds || rounds[q.intent.value.0] != q.intent.value.1)
    then Some(CONTINUATION_INTENT_BOUNDARY_MISMATCH)
    else None
  }

  /** The books once `run` follows the current one, in answer to `q`. */
  function Succeeded(b: Books, q: Rearm, run: Run): Books
    requires b.current.Some?
  {
    Stored(b, run).(rearmed := b.rearmed[q.requestId := Link(b.current.value.id, run.id)],
                    intents := if q.intent.Some? then b.intents[run.id := q.intent.value] else b.intents)
  }

  function Rearmed(b: Books, q: Rearm, rounds: map<Role, nat>, now: Time, again: Time, newId: RunId)
    : (Books, Result<Run, Error>)
  {
    if Malformed(q).Some? then (b, Err(Malformed(q).value))
    else if q.requestId in b.rearmed then
      var next := b.rearmed[q.requestId].next;
      (b, if next in b.runs then Ok(b.runs[next]) else Err(REARM_PROVENANCE_CORRUPT))
    else if Unfounded(b, q, rounds).Some? then (b, Err(Unfounded(b, q, rounds).value))
    else
      var run := NewRun(newId, q.project, q.budget, q.noProgress, now, again);
      (Succeeded(b, q, run), Ok(run))
  }

  // ---------------------------------------------------------------- evidence

  /** The first of the latest: sorting by falling time is stable. */
  function Foremost(cs: seq<Dated>): Option<Dated> {
    if cs == [] then None
    else
      var best, last := Foremost(cs[..|cs| - 1]), cs[|cs| - 1];
      if best.Some? && best.value.at >= last.at then best else Some(last)
  }

  /** The last of the latest: sorting by rising time is stable. */
  function Hindmost(cs: seq<Dated>): Option<Dated> {
    if cs == [] then None
    else
      var best, last := Hindmost(cs[..|cs| - 1]), cs[|cs| - 1];
      if best.Some? && best.value.at > last.at then best else Some(last)
  }

  /** Activities since the run began, in the order of the log. */
  function Since(log: seq<Activity>, start: Time): seq<Activity> {
    if log == [] then []
    else
      var rest, last := Since(log[..|log| - 1], start), log[|log| - 1];
      if last.at >= start then rest + [last] else rest
  }

  /** Those whose fingerprint is new. */
  function News(log: seq<Activity>, process: string, seen: set<Fingerprint>, digest: Evidence -> Fingerprint): seq<Dated> {
    if log == [] then []
    else
      var rest, last := News(log[..|log| - 1], process, seen, digest), log[|log| - 1];
      var fp := digest(ReadOnlyActivity(process, last.semantic));
      if fp in seen then rest else rest + [Dated(last.at, fp)]
  }

  function Prints(cs: seq<Dated>): set<Fingerprint> {
    set i | 0 <= i < |cs| :: cs[i].fp
  }

  /** The process is running the task's current attempt. */
  predicate Owns(o: Observation) {
    && o.process.Some? && o.process.value.running && o.execution.Some?
    && o.execution.value.agent == Some(o.process.value.agent) && o.execution.value.attempt == o.process.value.attempt
  }

  function Recent(run: Run, o: Observation): seq<Activity> {
    if Owns(o) then Since(o.process.value.log, run.startedAt) else []
  }

  function NewActivities(run: Run, o: Observation, digest: Evidence -> Fingerprint): seq<Dated> {
    if Owns(o) then News(Recent(run, o), o.process.value.id, run.seen, digest) else []
  }

  /** The latest recognised activity runs a declared validation. */
  predicate ValidationInFlight(run: Run, o: Observation) {
    var recent := Recent(run, o);
    recent != [] && recent[|recent| - 1].command.Some? && o.declared(recent[|recent| - 1].command.value)
  }

  /** The worktree signature after this observation: the first one seen is only a baseline. */
  function NewDiff(run: Run, o: Observation): Option<string> {
    if o.process.Some? && o.process.value.running && o.process.value.signature.Some?
    then o.process.value.signature else run.diff
  }

  function NewDiffAt(run: Run, o: Observation, now: Time): Option<Time> {
    if run.diff.Some? && NewDiff(run, o) != run.diff then Some(now) else run.diffAt
  }

  function Taken(run: Run, o: Observation, digest: Evidence -> Fingerprint): Run {
    var news := NewActivities(run, o, digest);
    match Hindmost(news)
    case None => run
    case Some(latest) => run.(seen := run.seen + Prints(news), activityAt := Some(latest.at), activity := Some(latest.fp))
  }

  function Listed(o: Option<Dated>): seq<Dated> {
    if o.Some? then [o.value] else []
  }

  /** The kinds of progress, in the source's order. */
  function Candidates(run: Run, o: Observation, digest: Evidence -> Fingerprint, now: Time): seq<Dated> {
    var p, taken := o.process, Taken(run, o, digest);
    var diffAt := NewDiffAt(run, o, now);
    Listed(if o.event.Some? then Some(Dated(o.event.value.0, digest(ProtocolEvent(o.event.value.1)))) else None)
    + Listed(if p.Some? then Some(Dated(p.value.startedAt, digest(ProcessStart(p.value.id)))) else None)
    + Listed(if p.Some? && p.value.running && !(o.execution.Some? && o.execution.value.role in {REVIEWER, QA})
             then Some(Dated(p.value.lastSeen, digest(ProcessHeartbeat(p.value.id, p.value.lastSeen)))) else None)
    + Listed(if diffAt.Some?
             then Some(Dated(diffAt.value, digest(ProductDiff(if p.Some? then Some(p.value.id) else None, NewDiff(run, o)))))
             else None)
    + Listed(if taken.activityAt.Some? && taken.activity.Some?
             then Some(Dated(taken.activityAt.value, taken.activity.value)) else None)
  }

  /** The run's record after its evidence was read. */
  function Noticed(run: Run, o: Observation, digest: Evidence -> Fingerprint, now: Time): Run {
    Credited(Taken(run, o, digest).(diff := NewDiff(run, o), diffAt := NewDiffAt(run, o, now)),
             Foremost(Candidates(run, o, digest, now)))
  }

  /** The foremost candidate counts if it is news and not older than the run. */
  function Credited(run: Run, candidate: Option<Dated>): Run {
    if candidate.Some? && candidate.value.fp != run.lastProgress && candidate.value.at >= run.startedAt
    then run.(lastProgressAt := candidate.value.at, lastProgress := candidate.value.fp) else run
  }

  function Overrun(run: Run, inFlight: bool, now: Time): Option<Expiry> {
    if now >= run.deadline then Some(WALL_CLOCK_BUDGET)
    else if now - run.lastProgressAt >= run.noProgress && !inFlight then Some(NO_PROGRESS_BUDGET)
    else None
  }

  function Expired(b: Books, cause: Expiry, x: Outside): Books
    requires b.current.Some?
  {
    var run := b.current.value.(status := EXHAUSTED, expiry := Some((x.expired, cause)));
    Stored(b, run).(exhausted := if run.id in b.exhausted then b.exhausted else b.exhausted + [run.id],
                    watching := false, locked := false, running := b.running - x.obeys)
  }

  /** The current run is ended if its time or its patience is up. */
  function Judged(b: Books, inFlight: bool, x: Outside): Books
    requires b.current.Some?
  {
    match Overrun(b.current.value, inFlight, x.judged)
    case None => b
    case Some(cause) => Expired(b, cause, x)
  }

  function Amended(b: Books, run: Run): Books {
    if b.current == Some(run) then b else Stored(b, run)
  }

  function Evaluated(b: Books, o: Observation, digest: Evidence -> Fingerprint, x: Outside): Books {
    if b.current.None? || b.current.value.status == EXHAUSTED then b
    else Judged(Amended(b, Noticed(b.current.value, o, digest, x.observed)), ValidationInFlight(b.current.value, o), x)
  }

  // ---------------------------------------------------------------- the controller

  class RunBudgetController {
    const digest: Evidence -> Fingerprint
    var current: Option<Run>
    var runs: map<RunId, Run>
    var rearmed: map<string, Link>
    var exhausted: seq<RunId>
    var intents: map<RunId, (Role, nat)>
    var watching: bool
    var locked: bool
    var running: set<Pid>

    ghost function View(): Books
      reads this
    {
      Books(current, runs, rearmed, exhausted, intents, watching, locked, running)
    }

    constructor (d: Evidence -> Fingerprint)
      ensures digest == d && View() == NOTHING
    {
      digest, current, runs, rearmed, exhausted, intents := d, None, map[], map[], [], map[];
      watching, locked, running := true, true, {};
    }

    method Store(run: Run)
      modifies this`current, this`runs
      ensures View() == Stored(old(View()), run)
    {
      current := Some(run);
      runs := runs[run.id := run];
    }

    method Start(project: ProjectId, budget: int, noProgress: int, now: Time, again: Time, newId: RunId)
      returns (r: Result<Run, Error>)
      modifies this`current, this`runs
      ensures (View(), r) == Started(old(View()), project, budget, noProgress, now, again, newId)
    {
      if budget <= 0 || noProgress <= 0 {
        return Err(RUN_BUDGET_INVALID);
      }
      if current.Some? {
        var run := current.value;
        if run.project != project || run.budget != budget || run.noProgress != noProgress {
          return Err(EXTENSION_REQUIRES_HIGHER_AUTHORITY);
        }
        return Ok(run);
      }
      var run := NewRun(newId, project, budget, noProgress, now, again);
      Store(run);
      return Ok(run);
    }

    method RearmRun(q: Rearm, rounds: map<Role, nat>, now: Time, again: Time, newId: RunId) returns (r: Result<Run, Error>)
      modifies this`current, this`runs, this`rearmed, this`intents
      ensures (View(), r) == Rearmed(old(View()), q, rounds, now, again, newId)
    {
      if Malformed(q).Some? {
        return Err(Malformed(q).value);
      }
      if q.requestId in rearmed {
        var next := rearmed[q.requestId].next;
        return if next in runs then Ok(runs[next]) else Err(REARM_PROVENANCE_CORRUPT);
      }
      if current.None? || current.value.status != EXHAUSTED {
        return Err(REARM_REQUIRES_EXHAUSTED_RUN);
      }
      var previous := current.value;
      if previous.project != q.project || previous.id != q.previous {
        return Err(REARM_BINDING_MISMATCH);
      }
      if q.intent.Some? {
        if q.intent.value.0 !in rounds || rounds[q.intent.value.0] != q.intent.value.1 {
          return Err(CONTINUATION_INTENT_BOUNDARY_MISMATCH);
        }
        intents := intents[newId := q.intent.value];
      }
      var run := NewRun(newId, q.project, q.budget, q.noProgress, now, again);
      Store(run);
      rearmed := rearmed[q.requestId := Link(previous.id, newId)];
      return Ok(run);
    }

    /** Reads the log: what is new in it, and whether a declared validation is under way. */
    method ReadLog(run: Run, o: Observation) returns (news: seq<Dated>, inFlight: bool)
      ensures news == NewActivities(run, o, digest) && inFlight == ValidationInFlight(run, o)
    {
      news, inFlight := [], false;
      if !Owns(o) {
        return;
      }
      var log, id := o.process.value.log, o.process.value.id;
      var recent: seq<Activity> := [];
      for i := 0 to |log|
        invariant recent == Since(log[..i], run.startedAt) && news == News(recent, id, run.seen, digest)
      {
        assert log[..i + 1][..i] == log[..i];
        if log[i].at >= run.startedAt {
          assert (recent + [log[i]])[..|recent|] == recent;
          var fp := digest(ReadOnlyActivity(id, log[i].semantic));
          if fp !in run.seen {
            news := news + [Dated(log[i].at, fp)];
          }
          recent := recent + [log[i]];
        }
      }
      assert log[..|log|] == log;
      if recent != [] && recent[|recent| - 1].command.Some? {
        inFlight := o.declared(recent[|recent| - 1].command.value);
      }
    }

    method PickForemost(cs: seq<Dated>) returns (best: Option<Dated>)
      ensures best == Foremost(cs)
    {
      best := None;
      for i := 0 to |cs|
        invariant best == Foremost(cs[..i])
      {
        assert cs[..i + 1][..i] == cs[..i];
        if best.None? || best.value.at < cs[i].at {
          best := Some(cs[i]);
        }
      }
      assert cs[..|cs|] == cs;
    }

    method PickHindmost(cs: seq<Dated>) returns (best: Option<Dated>)
      ensures best == Hindmost(cs)
    {
      best := None;
      for i := 0 to |cs|
        invariant best == Hindmost(cs[..i])
      {
        assert cs[..i + 1][..i] == cs[..i];
        if best.None? || best.value.at <= cs[i].at {
          best := Some(cs[i]);
        }
      }
      assert cs[..|cs|] == cs;
    }

    method Notice(run: Run, o: Observation, now: Time) returns (next: Run, inFlight: bool)
      ensures next == Noticed(run, o, digest, now) && inFlight == ValidationInFlight(run, o)
    {
      next := run;
      var news;
      news, inFlight := ReadLog(run, o);
      var latest := PickHindmost(news);
      if latest.Some? {
        next := next.(seen := run.seen + Prints(news), activityAt := Some(latest.value.at), activity := Some(latest.value.fp));
      }
      next := next.(diff := NewDiff(run, o), diffAt := NewDiffAt(run, o, now));
      var candidate := PickForemost(Candidates(run, o, digest, now));
      if candidate.Some? && candidate.value.fp != run.lastProgress && candidate.value.at >= run.startedAt {
        next := next.(lastProgressAt := candidate.value.at, lastProgress := candidate.value.fp);
      }
    }

    /** Signals every running process of the task; those that end are no longer running. */
    method Terminate(obeys: set<Pid>)
      modifies this`running
      ensures running == old(running) - obeys
    {
      var rows := running;
      while rows != {}
        invariant rows <= old(running) && running == (old(running) - obeys) + rows
        decreases rows
      {
        var pid :| pid in rows;
        rows := rows - {pid};
        if pid in obeys {
          running := running - {pid};
        }
      }
    }

    method Expire(cause: Expiry, x: Outside)
      requires current.Some?
      modifies this`current, this`runs, this`exhausted, this`watching, this`locked, this`running
      ensures View() == Expired(old(View()), cause, x)
    {
      var run := current.value.(status := EXHAUSTED, expiry := Some((x.expired, cause)));
      Store(run);
      if run.id !in exhausted {
        exhausted := exhausted + [run.id];
      }
      watching, locked := false, false;
      Terminate(x.obeys);
    }

    method Evaluate(o: Observation, x: Outside)
      modifies this`current, this`runs, this`exhausted, this`watching, this`locked, this`running
      ensures View() == Evaluated(old(View()), o, digest, x)
    {
      if current.None? || current.value.status == EXHAUSTED {
        return;
      }
      var run, inFlight := Notice(current.value, o, x.observed);
      if run != current.value {
        Store(run);
      }
      if x.judged >= run.deadline {
        Expire(WALL_CLOCK_BUDGET, x);
      } else if x.judged - run.lastProgressAt >= run.noProgress && !inFlight {
        Expire(NO_PROGRESS_BUDGET, x);
      }
    }
  }
}
