/** What every history of starting, evaluating and re-arming a task's budget keeps. */
module RunChain {
  import opened Domain
  import opened RunBudget

  datatype Action =
    | Start(project: ProjectId, budget: int, noProgress: int, now: Time, again: Time, newId: RunId)
    | Renew(request: Rearm, rounds: map<Role, nat>, now: Time, again: Time, newId: RunId)
    | Evaluate(observation: Observation, outside: Outside)
    | Processes(running: set<Pid>)

  function Acted(b: Books, a: Action, digest: Evidence -> Fingerprint): Books {
    match a
    case Start(project, budget, noProgress, now, again, newId) => Started(b, project, budget, noProgress, now, again, newId).0
    case Renew(q, rounds, now, again, newId) => Rearmed(b, q, rounds, now, again, newId).0
    case Evaluate(o, x) => Evaluated(b, o, digest, x)
    case Processes(running) => b.(running := running)
  }

  function After(b: Books, actions: seq<Action>, digest: Evidence -> Fingerprint): Books {
    if actions == [] then b
    else Acted(After(b, actions[..|actions| - 1], digest), actions[|actions| - 1], digest)
  }

  /** Generated identifiers are new. */
  predicate NewIn(b: Books, a: Action) {
    a.Evaluate? || a.Processes? || a.newId !in b.runs
  }

  ghost predicate AlwaysNew(b: Books, actions: seq<Action>, digest: Evidence -> Fingerprint) {
    forall k :: 0 <= k < |actions| ==> NewIn(After(b, actions[..k], digest), actions[k])
  }

  lemma NewPrefix(b: Books, actions: seq<Action>, digest: Evidence -> Fingerprint)
    requires actions != [] && AlwaysNew(b, actions, digest)
    ensures var init := actions[..|actions| - 1];
            AlwaysNew(b, init, digest) && NewIn(After(b, init, digest), actions[|actions| - 1])
  {
    var init := actions[..|actions| - 1];
    forall k | 0 <= k < |init| ensures NewIn(After(b, init[..k], digest), init[k]) {
      assert init[..k] == actions[..k];
      assert NewIn(After(b, actions[..k], digest), actions[k]);
    }
  }

  // ---------------------------------------------------------------- the invariant

  /** The current record is its per-run copy, and every other run has ended. */
  ghost predicate Copied(b: Books) {
    && (b.current.None? ==> b.runs == map[])
    && (b.current.Some? ==> b.current.value.id in b.runs && b.runs[b.current.value.id] == b.current.value)
    && (forall id :: id in b.runs ==>
          b.runs[id].id == id && b.runs[id].startedAt <= b.runs[id].lastProgressAt &&
          (b.runs[id].status == EXHAUSTED || b.current == Some(b.runs[id])))
  }

  /** One exhaustion event for each run that has ended, and none for others. */
  ghost predicate Audited(b: Books) {
    && (forall id :: id in b.exhausted <==> id in b.runs && b.runs[id].status == EXHAUSTED)
    && (forall i, j :: 0 <= i < j < |b.exhausted| ==> b.exhausted[i] != b.exhausted[j])
  }

  /** Every answered request made one run, out of one that had ended. */
  ghost predicate Linked(b: Books) {
    && (forall q :: q in b.rearmed ==>
          var l := b.rearmed[q];
          l.next in b.runs && l.previous in b.runs && l.next != l.previous && b.runs[l.previous].status == EXHAUSTED)
    && (forall p, q :: p in b.rearmed && q in b.rearmed && p != q ==>
          b.rearmed[p].next != b.rearmed[q].next && b.rearmed[p].previous != b.rearmed[q].previous)
  }

  /** The current run follows from no answered request. */
  ghost predicate Newest(b: Books) {
    forall q :: q in b.rearmed && b.current.Some? ==> b.rearmed[q].previous != b.current.value.id
  }

  ghost predicate Sound(b: Books) {
    && Copied(b) && Audited(b) && Linked(b) && Newest(b)
    && (b.current.Some? ==> |b.runs| == |b.rearmed| + 1)
    && (b.current.None? ==> b.rearmed == map[] && b.exhausted == [])
  }

  /** What may change in a run's record: nothing about its limits, and nothing at all once it has ended. */
  predicate Fixed(r: Run, later: Run) {
    && later.id == r.id && later.project == r.project && later.startedAt == r.startedAt && later.deadline == r.deadline
    && later.budget == r.budget && later.noProgress == r.noProgress
    && (r.status == EXHAUSTED ==> later == r)
  }

  ghost predicate Kept(b: Books, later: Books) {
    && (forall id :: id in b.runs ==> id in later.runs && Fixed(b.runs[id], later.runs[id]))
    && (forall q :: q in b.rearmed ==> q in later.rearmed && later.rearmed[q] == b.rearmed[q])
    && b.exhausted <= later.exhausted
  }

  lemma KeptThrough(b: Books, mid: Books, later: Books)
    requires Kept(b, mid) && Kept(mid, later)
    ensures Kept(b, later)
  {
  }

  /** Replacing the active record by one with the same limits. */
  lemma AmendKeeps(b: Books, run: Run)
    requires Sound(b) && b.current.Some? && b.current.value.status == RunStatus.ACTIVE && run.status == RunStatus.ACTIVE
    requires Fixed(b.current.value, run) && run.startedAt <= run.lastProgressAt
    ensures Sound(Amended(b, run)) && Kept(b, Amended(b, run))
  {
    AmendedCopies(b, run);
    AmendedEvents(b, run);
    AmendedLinks(b, run);
    assert Stored(b, run).runs.Keys == b.runs.Keys;
  }

  lemma AmendedCopies(b: Books, run: Run)
    requires Copied(b) && b.current.Some? && b.current.value.status == RunStatus.ACTIVE
    requires Fixed(b.current.value, run) && run.startedAt <= run.lastProgressAt
    ensures Copied(Amended(b, run)) && Kept(b, Amended(b, run))
  {
    AmendedRuns(b, run);
  }

  lemma AmendedRuns(b: Books, run: Run)
    requires Copied(b) && b.current.Some? && Fixed(b.current.value, run)
    ensures var later := Amended(b, run);
            && later.current == Some(run) && later.runs == b.runs[run.id := run] && later.rearmed == b.rearmed
            && later.exhausted == b.exhausted
  {
  }

  lemma AmendedEvents(b: Books, run: Run)
    requires Copied(b) && Audited(b) && b.current.Some? && b.current.value.status == run.status == RunStatus.ACTIVE
    requires Fixed(b.current.value, run)
    ensures Audited(Amended(b, run))
  {
  }

  lemma AmendedLinks(b: Books, run: Run)
    requires Copied(b) && Linked(b) && Newest(b) && b.current.Some? && Fixed(b.current.value, run)
    ensures Linked(Amended(b, run)) && Newest(Amended(b, run))
  {
  }

  lemma Ended(b: Books, cause: Expiry, x: Outside)
    requires Sound(b) && b.current.Some? && b.current.value.status == RunStatus.ACTIVE
    ensures Sound(Expired(b, cause, x)) && Kept(b, Expired(b, cause, x))
  {
    assert b.current.value.id !in b.exhausted;
    EndedCopies(b, cause, x);
    EndedEvents(b, cause, x);
    EndedLinks(b, cause, x);
    assert Expired(b, cause, x).runs.Keys == b.runs.Keys;
  }

  lemma EndedCopies(b: Books, cause: Expiry, x: Outside)
    requires Copied(b) && b.current.Some? && b.current.value.status == RunStatus.ACTIVE
    ensures Copied(Expired(b, cause, x)) && Kept(b, Expired(b, cause, x))
  {
  }

  lemma EndedEvents(b: Books, cause: Expiry, x: Outside)
    requires Audited(b) && b.current.Some? && b.current.value.id !in b.exhausted
    ensures Audited(Expired(b, cause, x))
  {
  }

  lemma EndedLinks(b: Books, cause: Expiry, x: Outside)
    requires Copied(b) && Linked(b) && Newest(b) && b.current.Some?
    ensures Linked(Expired(b, cause, x)) && Newest(Expired(b, cause, x))
  {
  }

  lemma Began(b: Books, run: Run)
    requires Sound(b) && b.current.None? && run.status == RunStatus.ACTIVE && run.startedAt <= run.lastProgressAt
    ensures Sound(Stored(b, run)) && Kept(b, Stored(b, run))
  {
  }

  lemma Renewed(b: Books, q: Rearm, run: Run)
    requires Sound(b) && b.current.Some? && b.current.value.status == EXHAUSTED && q.requestId !in b.rearmed
    requires run.id !in b.runs && run.status == RunStatus.ACTIVE && run.startedAt <= run.lastProgressAt
    ensures Sound(Succeeded(b, q, run)) && Kept(b, Succeeded(b, q, run))
  {
    RenewedCopies(b, q, run);
    RenewedEvents(b, q, run);
    RenewedLinks(b, q, run);
    RenewedCount(b, q, run);
  }

  lemma RenewedCopies(b: Books, q: Rearm, run: Run)
    requires Copied(b) && b.current.Some? && b.current.value.status == EXHAUSTED && q.requestId !in b.rearmed
    requires run.id !in b.runs && run.startedAt <= run.lastProgressAt
    ensures Copied(Succeeded(b, q, run)) && Kept(b, Succeeded(b, q, run))
  {
  }

  lemma RenewedEvents(b: Books, q: Rearm, run: Run)
    requires Audited(b) && b.current.Some? && run.id !in b.runs && run.status == RunStatus.ACTIVE
    ensures Audited(Succeeded(b, q, run))
  {
  }

  lemma RenewedLinks(b: Books, q: Rearm, run: Run)
    requires Copied(b) && Linked(b) && Newest(b) && b.current.Some? && b.current.value.status == EXHAUSTED
    requires q.requestId !in b.rearmed && run.id !in b.runs
    ensures Linked(Succeeded(b, q, run)) && Newest(Succeeded(b, q, run))
  {
  }

  lemma RenewedCount(b: Books, q: Rearm, run: Run)
    requires b.current.Some? && q.requestId !in b.rearmed && run.id !in b.runs
    ensures |Succeeded(b, q, run).runs| == |b.runs| + 1 && |Succeeded(b, q, run).rearmed| == |b.rearmed| + 1
  {
    MapGrows(b.runs, run.id, run);
    MapGrows(b.rearmed, q.requestId, Link(b.current.value.id, run.id));
  }

  lemma MapGrows<K, V>(m: map<K, V>, k: K, v: V)
    requires k !in m
    ensures |m[k := v]| == |m| + 1
  {
  }

  lemma NoticedIsFixed(run: Run, o: Observation, digest: Evidence -> Fingerprint, now: Time)
    requires run.status == RunStatus.ACTIVE && run.startedAt <= run.lastProgressAt
    ensures var next := Noticed(run, o, digest, now);
            Fixed(run, next) && next.status == RunStatus.ACTIVE && next.startedAt <= next.lastProgressAt
  {
  }

  lemma StartKeeps(b: Books, project: ProjectId, budget: int, noProgress: int, now: Time, again: Time, newId: RunId)
    requires Sound(b)
    ensures var after := Started(b, project, budget, noProgress, now, again, newId).0; Sound(after) && Kept(b, after)
  {
    if b.current.None? {
      Began(b, NewRun(newId, project, budget, noProgress, now, again));
    }
  }

  lemma RenewKeeps(b: Books, q: Rearm, rounds: map<Role, nat>, now: Time, again: Time, newId: RunId)
    requires Sound(b) && newId !in b.runs
    ensures var after := Rearmed(b, q, rounds, now, again, newId).0; Sound(after) && Kept(b, after)
  {
    if Malformed(q).None? && q.requestId !in b.rearmed && Unfounded(b, q, rounds).None? {
      Renewed(b, q, NewRun(newId, q.project, q.budget, q.noProgress, now, again));
    } else {
      KeptItself(b);
      assert Rearmed(b, q, rounds, now, again, newId).0 == b;
    }
  }

  lemma KeptItself(b: Books)
    ensures Kept(b, b)
  {
  }

  lemma JudgedKeeps(b: Books, inFlight: bool, x: Outside)
    requires Sound(b) && b.current.Some? && b.current.value.status == RunStatus.ACTIVE
    ensures Sound(Judged(b, inFlight, x)) && Kept(b, Judged(b, inFlight, x))
  {
    var over := Overrun(b.current.value, inFlight, x.judged);
    if over.Some? {
      Ended(b, over.value, x);
    }
  }

  lemma AmendedJudgedKeeps(b: Books, mid: Books, inFlight: bool, x: Outside)
    requires Sound(mid) && Kept(b, mid) && mid.current.Some? && mid.current.value.status == RunStatus.ACTIVE
    ensures Sound(Judged(mid, inFlight, x)) && Kept(b, Judged(mid, inFlight, x))
  {
    JudgedKeeps(mid, inFlight, x);
    KeptThrough(b, mid, Judged(mid, inFlight, x));
  }

  lemma EvaluateKeeps(b: Books, o: Observation, digest: Evidence -> Fingerprint, x: Outside)
    requires Sound(b)
    ensures Sound(Evaluated(b, o, digest, x)) && Kept(b, Evaluated(b, o, digest, x))
  {
    if b.current.Some? && b.current.value.status == RunStatus.ACTIVE {
      var run := Noticed(b.current.value, o, digest, x.observed);
      NoticedIsFixed(b.current.value, o, digest, x.observed);
      AmendKeeps(b, run);
      AmendedJudgedKeeps(b, Amended(b, run), ValidationInFlight(b.current.value, o), x);
    }
  }

  lemma StepKeeps(b: Books, a: Action, digest: Evidence -> Fingerprint)
    requires Sound(b) && NewIn(b, a)
    ensures Sound(Acted(b, a, digest)) && Kept(b, Acted(b, a, digest))
  {
    match a
    case Start(project, budget, noProgress, now, again, newId) =>
      StartKeeps(b, project, budget, noProgress, now, again, newId);
    case Renew(q, rounds, now, again, newId) =>
      RenewKeeps(b, q, rounds, now, again, newId);
    case Evaluate(o, x) =>
      EvaluateKeeps(b, o, digest, x);
    case Processes(running) =>
  }

  /**
   * Over every history: limits never change, an ended run is never touched again, each run ends at most
   * once in the event log, the current record is its own copy, all others have ended, and there is one
   * run more than there were answered re-arm requests.
   */
  lemma {:induction false} ChainIsSound(b: Books, actions: seq<Action>, digest: Evidence -> Fingerprint)
    requires Sound(b) && AlwaysNew(b, actions, digest)
    ensures Sound(After(b, actions, digest)) && Kept(b, After(b, actions, digest))
  {
    if actions != [] {
      var n := |actions| - 1;
      var init := actions[..n];
      NewPrefix(b, actions, digest);
      ChainIsSound(b, init, digest);
      StepKeeps(After(b, init, digest), actions[n], digest);
      KeptThrough(b, After(b, init, digest), After(b, actions, digest));
    }
  }

  /** And so over every history of a task's budget from its beginning. */
  lemma HistoryIsSound(actions: seq<Action>, digest: Evidence -> Fingerprint)
    requires AlwaysNew(NOTHING, actions, digest)
    ensures Sound(After(NOTHING, actions, digest))
  {
    ChainIsSound(NOTHING, actions, digest);
  }

  // ---------------------------------------------------------------- re-arming

  /** The new run is current, starts with its own limits, and leaves all earlier records alone. */
  lemma SucceededIs(b: Books, q: Rearm, run: Run)
    requires b.current.Some? && run.id !in b.runs
    ensures var after := Succeeded(b, q, run);
            && run.id in after.runs && after.runs[run.id] == run && after.current == Some(run)
            && after.runs - {run.id} == b.runs && after.exhausted == b.exhausted
            && q.requestId in after.rearmed && after.rearmed[q.requestId] == Link(b.current.value.id, run.id)
  {
    var after := Succeeded(b, q, run);
    assert after.runs - {run.id} == b.runs;
  }

  /** A request makes a new run exactly when it is well-formed, new, and names the current, exhausted run. */
  lemma RearmIff(b: Books, q: Rearm, rounds: map<Role, nat>, now: Time, again: Time, newId: RunId)
    requires newId !in b.runs
    ensures var (after, r) := Rearmed(b, q, rounds, now, again, newId);
            var founded := Malformed(q).None? && q.requestId !in b.rearmed && Unfounded(b, q, rounds).None?;
            && (newId in after.runs <==> founded)
            && (!founded ==> after == b)
            && (founded ==>
                  && b.current.Some? && b.current.value.status == EXHAUSTED && b.current.value.id == q.previous
                  && r == Ok(NewRun(newId, q.project, q.budget, q.noProgress, now, again))
                  && after == Succeeded(b, q, r.value))
  {
    var run := NewRun(newId, q.project, q.budget, q.noProgress, now, again);
    if b.current.Some? {
      SucceededIs(b, q, run);
    }
  }

  /**
   * Once a request was answered, repeating its identifier at any later time, in any well-formed request,
   * yields the same run and changes nothing.
   */
  lemma RepeatedRequest(b: Books, q: Rearm, rounds: map<Role, nat>, now: Time, again: Time, newId: RunId,
                        actions: seq<Action>, digest: Evidence -> Fingerprint,
                        q': Rearm, rounds': map<Role, nat>, now': Time, again': Time, newId': RunId)
    requires Sound(b) && newId !in b.runs && Rearmed(b, q, rounds, now, again, newId).1.Ok?
    requires AlwaysNew(Rearmed(b, q, rounds, now, again, newId).0, actions, digest)
    requires q'.requestId == q.requestId && Malformed(q').None?
    ensures var first, later := Rearmed(b, q, rounds, now, again, newId),
                             After(Rearmed(b, q, rounds, now, again, newId).0, actions, digest);
            var (after, r) := Rearmed(later, q', rounds', now', again', newId');
            after == later && r.Ok? && r.value.id == first.1.value.id && Fixed(first.1.value, r.value)
  {
    var first := Rearmed(b, q, rounds, now, again, newId);
    RenewKeeps(b, q, rounds, now, again, newId);
    ChainIsSound(first.0, actions, digest);
    Answered(b, q, rounds, now, again, newId);
    AnsweredAgain(first.0, After(first.0, actions, digest), q', rounds', now', again', newId');
  }

  lemma Answered(b: Books, q: Rearm, rounds: map<Role, nat>, now: Time, again: Time, newId: RunId)
    requires Copied(b) && Linked(b) && newId !in b.runs && Rearmed(b, q, rounds, now, again, newId).1.Ok?
    ensures var (after, r) := Rearmed(b, q, rounds, now, again, newId);
            q.requestId in after.rearmed && after.rearmed[q.requestId].next in after.runs &&
            r.value == after.runs[after.rearmed[q.requestId].next]
  {
    RearmIff(b, q, rounds, now, again, newId);
    if Malformed(q).None? && q.requestId !in b.rearmed {
      SucceededIs(b, q, NewRun(newId, q.project, q.budget, q.noProgress, now, again));
    }
  }

  lemma AnsweredAgain(b: Books, later: Books, q: Rearm, rounds: map<Role, nat>, now: Time, again: Time, newId: RunId)
    requires Kept(b, later) && Malformed(q).None?
    requires q.requestId in b.rearmed && b.rearmed[q.requestId].next in b.runs
    ensures var (after, r) := Rearmed(later, q, rounds, now, again, newId);
            after == later && r.Ok? && Fixed(b.runs[b.rearmed[q.requestId].next], r.value)
  {
  }

  // ---------------------------------------------------------------- expiry

  /** An evaluation at or after the deadline ends the run, whatever the evidence and whatever is under way. */
  lemma DeadlineEnds(b: Books, o: Observation, digest: Evidence -> Fingerprint, x: Outside)
    requires Sound(b) && b.current.Some? && x.judged >= b.current.value.deadline
    ensures var after := Evaluated(b, o, digest, x);
            && after.current.Some? && after.current.value.status == EXHAUSTED && b.current.value.id in after.exhausted
            && (b.current.value.status == RunStatus.ACTIVE ==>
                  after.current.value.expiry == Some((x.expired, WALL_CLOCK_BUDGET)) && !after.watching && !after.locked
                  && after.running == b.running - x.obeys)
  {
    if b.current.value.status == RunStatus.ACTIVE {
      var run := Noticed(b.current.value, o, digest, x.observed);
      NoticedIsFixed(b.current.value, o, digest, x.observed);
      JudgedLate(Amended(b, run), ValidationInFlight(b.current.value, o), x);
    }
  }

  lemma JudgedLate(b: Books, inFlight: bool, x: Outside)
    requires b.current.Some? && x.judged >= b.current.value.deadline
    ensures Judged(b, inFlight, x) == Expired(b, WALL_CLOCK_BUDGET, x)
    ensures b.current.value.id in Judged(b, inFlight, x).exhausted
  {
  }

  /** Before the deadline a run ends exactly when nothing counted for the whole no-progress budget and no validation runs. */
  lemma EndsEarlyIff(b: Books, o: Observation, digest: Evidence -> Fingerprint, x: Outside)
    requires Sound(b) && b.current.Some? && b.current.value.status == RunStatus.ACTIVE && x.judged < b.current.value.deadline
    ensures Evaluated(b, o, digest, x).current.Some?
    ensures var run, after := b.current.value, Evaluated(b, o, digest, x).current.value;
            after.status == EXHAUSTED <==>
              !ValidationInFlight(run, o) && x.judged - after.lastProgressAt >= run.noProgress
  {
    var run := Noticed(b.current.value, o, digest, x.observed);
    NoticedIsFixed(b.current.value, o, digest, x.observed);
    JudgedIff(Amended(b, run), ValidationInFlight(b.current.value, o), x);
  }

  lemma JudgedIff(b: Books, inFlight: bool, x: Outside)
    requires b.current.Some? && b.current.value.status == RunStatus.ACTIVE && x.judged < b.current.value.deadline
    ensures var run, after := b.current.value, Judged(b, inFlight, x).current;
            && after.Some? && after.value.lastProgressAt == run.lastProgressAt
            && (after.value.status == EXHAUSTED <==> !inFlight && x.judged - run.lastProgressAt >= run.noProgress)
  {
  }

  // ---------------------------------------------------------------- evidence

  /** `cs[i]` is later than everything before it and not earlier than anything after it. */
  ghost predicate Leads(cs: seq<Dated>, i: int) {
    0 <= i < |cs| && (forall j :: 0 <= j < i ==> cs[j].at < cs[i].at) && (forall j :: i < j < |cs| ==> cs[j].at <= cs[i].at)
  }

  lemma {:induction false} ForemostIs(cs: seq<Dated>) returns (i: int)
    requires cs != []
    ensures Leads(cs, i) && Foremost(cs) == Some(cs[i])
  {
    var init, last := cs[..|cs| - 1], cs[|cs| - 1];
    assert cs == init + [last];
    if init == [] {
      i := 0;
    } else {
      i := ForemostIs(init);
      OneLater(init, last, i);
      i := if init[i].at >= last.at then i else |init|;
    }
  }

  lemma OneLater(cs: seq<Dated>, last: Dated, i: int)
    requires Leads(cs, i)
    ensures if cs[i].at >= last.at then Leads(cs + [last], i) else Leads(cs + [last], |cs|)
  {
    var all := cs + [last];
    assert all[|cs|] == last;
    assert forall j :: 0 <= j < |cs| ==> all[j] == cs[j];
  }

  /** What counts is the latest candidate, if it is news and belongs to this run: nothing later is passed over. */
  lemma CreditedIs(run: Run, cs: seq<Dated>)
    ensures var next := Credited(run, Foremost(cs));
            && (next != run ==>
                  && Dated(next.lastProgressAt, next.lastProgress) in cs && next.lastProgressAt >= run.startedAt
                  && (forall c :: c in cs ==> c.at <= next.lastProgressAt))
            && (next == run ==> forall i :: Leads(cs, i) && cs[i].at >= run.startedAt ==> cs[i].fp == run.lastProgress)
  {
    if cs != [] {
      var i := ForemostIs(cs);
      forall j | Leads(cs, j) ensures i == j {
      }
    }
  }

  lemma CreditsLatest(run: Run, o: Observation, digest: Evidence -> Fingerprint, now: Time)
    ensures var next, cs := Noticed(run, o, digest, now), Candidates(run, o, digest, now);
            next.lastProgress != run.lastProgress ==>
              && Dated(next.lastProgressAt, next.lastProgress) in cs
              && next.lastProgressAt >= run.startedAt
              && forall c :: c in cs ==> c.at <= next.lastProgressAt
  {
    var read := Taken(run, o, digest).(diff := NewDiff(run, o), diffAt := NewDiffAt(run, o, now));
    CreditedIs(read, Candidates(run, o, digest, now));
  }

  /** The first worktree signature of a run is a baseline: it earns nothing. */
  lemma BaselineEarnsNothing(run: Run, o: Observation, digest: Evidence -> Fingerprint, now: Time)
    requires run.diff.None?
    ensures Noticed(run, o, digest, now).diffAt == run.diffAt
  {
  }

  lemma {:induction false} NoNews(log: seq<Activity>, process: string, seen: set<Fingerprint>, digest: Evidence -> Fingerprint)
    requires forall i :: 0 <= i < |log| ==> digest(ReadOnlyActivity(process, log[i].semantic)) in seen
    ensures News(log, process, seen, digest) == []
  {
    if log != [] {
      NoNews(log[..|log| - 1], process, seen, digest);
    }
  }

  /** A log whose activities were all seen before leaves the record as an empty log would. */
  lemma ReplayEarnsNothing(run: Run, o: Observation, digest: Evidence -> Fingerprint, now: Time)
    requires o.process.Some?
    requires var recent := Recent(run, o);
             forall i :: 0 <= i < |recent| ==> digest(ReadOnlyActivity(o.process.value.id, recent[i].semantic)) in run.seen
    ensures Noticed(run, o, digest, now) ==
            Noticed(run, o.(process := Some(o.process.value.(log := []))), digest, now)
  {
    NoNews(Recent(run, o), o.process.value.id, run.seen, digest);
    var silent := o.(process := Some(o.process.value.(log := [])));
    assert Taken(run, o, digest) == run;
    assert Taken(run, silent, digest) == run;
  }

  lemma {:induction false} NewsIsNew(log: seq<Activity>, process: string, seen: set<Fingerprint>, digest: Evidence -> Fingerprint)
    ensures Prints(News(log, process, seen, digest)) !! seen
    ensures forall fp :: fp in Prints(News(log, process, seen, digest)) ==>
              exists i :: 0 <= i < |log| && fp == digest(ReadOnlyActivity(process, log[i].semantic))
  {
    if log != [] {
      var init, last := log[..|log| - 1], log[|log| - 1];
      NewsIsNew(init, process, seen, digest);
      var rest, all := News(init, process, seen, digest), News(log, process, seen, digest);
      assert forall i :: 0 <= i < |init| ==> init[i] == log[i];
      forall fp | fp in Prints(all)
        ensures fp !in seen && exists i :: 0 <= i < |log| && fp == digest(ReadOnlyActivity(process, log[i].semantic))
      {
        if fp in Prints(rest) {
        } else {
          var i :| 0 <= i < |all| && all[i].fp == fp;
          assert i == |rest|;
          assert log[|init|] == last;
        }
      }
    }
  }

  /** Does this evaluation take a new read-only activity? */
  predicate Takes(b: Books, a: Action, digest: Evidence -> Fingerprint) {
    && a.Evaluate? && b.current.Some? && b.current.value.status == RunStatus.ACTIVE
    && NewActivities(b.current.value, a.observation, digest) != []
  }

  /** How many evaluations of the history took a new read-only activity for run `id`. */
  function Takings(b: Books, actions: seq<Action>, digest: Evidence -> Fingerprint, id: RunId): nat {
    if actions == [] then 0
    else
      var init, last := actions[..|actions| - 1], actions[|actions| - 1];
      var mid := After(b, init, digest);
      Takings(b, init, digest, id) + (if Takes(mid, last, digest) && mid.current.value.id == id then 1 else 0)
  }

  /** The fingerprints of all activities the history's logs ever show. */
  function Shown(actions: seq<Action>, digest: Evidence -> Fingerprint): set<Fingerprint> {
    if actions == [] then {}
    else
      Shown(actions[..|actions| - 1], digest) + LogPrints(actions[|actions| - 1], digest)
  }

  function LogPrints(a: Action, digest: Evidence -> Fingerprint): set<Fingerprint> {
    if a.Evaluate? && a.observation.process.Some? then
      var p := a.observation.process.value;
      set i | 0 <= i < |p.log| :: digest(ReadOnlyActivity(p.id, p.log[i].semantic))
    else {}
  }

  lemma {:induction false} SinceIsPart(log: seq<Activity>, start: Time)
    ensures forall x :: x in Since(log, start) ==> x in log
  {
    if log != [] {
      SinceIsPart(log[..|log| - 1], start);
      assert log == log[..|log| - 1] + [log[|log| - 1]];
    }
  }

  lemma NewActivitiesAreShown(run: Run, a: Action, digest: Evidence -> Fingerprint)
    requires a.Evaluate?
    ensures Prints(NewActivities(run, a.observation, digest)) <= LogPrints(a, digest)
    ensures Prints(NewActivities(run, a.observation, digest)) !! run.seen
  {
    if Owns(a.observation) {
      var p := a.observation.process.value;
      var recent := Recent(run, a.observation);
      NewsIsNew(recent, p.id, run.seen, digest);
      SinceIsPart(p.log, run.startedAt);
      forall fp | fp in Prints(NewActivities(run, a.observation, digest)) ensures fp in LogPrints(a, digest) {
        var i :| 0 <= i < |recent| && fp == digest(ReadOnlyActivity(p.id, recent[i].semantic));
        assert recent[i] in p.log;
        var j :| 0 <= j < |p.log| && p.log[j] == recent[i];
      }
    }
  }

  function SeenOf(b: Books, id: RunId): set<Fingerprint> {
    if id in b.runs then b.runs[id].seen else {}
  }

  lemma EvaluateSees(b: Books, o: Observation, digest: Evidence -> Fingerprint, x: Outside, id: RunId)
    requires Copied(b) && b.current.Some? && b.current.value.status == RunStatus.ACTIVE
    ensures SeenOf(Evaluated(b, o, digest, x), id) ==
            SeenOf(b, id) + (if id == b.current.value.id then Prints(NewActivities(b.current.value, o, digest)) else {})
  {
    var run := Noticed(b.current.value, o, digest, x.observed);
    TakenSees(b.current.value, o, digest);
    AmendedSees(b, run, Prints(NewActivities(b.current.value, o, digest)), id);
    JudgedSees(Amended(b, run), ValidationInFlight(b.current.value, o), x, id);
  }

  lemma AmendedSees(b: Books, run: Run, more: set<Fingerprint>, id: RunId)
    requires Copied(b) && b.current.Some? && run.id == b.current.value.id && run.seen == b.current.value.seen + more
    ensures var after := Amended(b, run);
            && after.current == Some(run) && run.id in after.runs && after.runs[run.id] == run
            && SeenOf(after, id) == SeenOf(b, id) + (if id == run.id then more else {})
  {
  }

  lemma JudgedSees(b: Books, inFlight: bool, x: Outside, id: RunId)
    requires b.current.Some? && b.current.value.id in b.runs && b.runs[b.current.value.id] == b.current.value
    ensures SeenOf(Judged(b, inFlight, x), id) == SeenOf(b, id)
  {
  }

  /** One action's effect on a run's set of seen activities. */
  lemma SeenGrows(b: Books, a: Action, digest: Evidence -> Fingerprint, id: RunId)
    requires Copied(b) && NewIn(b, a)
    ensures var before, after := SeenOf(b, id), SeenOf(Acted(b, a, digest), id);
            && before <= after <= before + LogPrints(a, digest)
            && (Takes(b, a, digest) && b.current.value.id == id ==> before < after)
  {
    match a
    case Start(_, _, _, _, _, _) =>
    case Renew(_, _, _, _, _) =>
    case Processes(_) =>
    case Evaluate(o, x) =>
      if b.current.Some? && b.current.value.status == RunStatus.ACTIVE {
        EvaluateSees(b, o, digest, x, id);
        NewActivitiesAreShown(b.current.value, a, digest);
        Enlarged(SeenOf(b, id), NewActivities(b.current.value, o, digest), LogPrints(a, digest));
      }
  }

  lemma Enlarged(seen: set<Fingerprint>, news: seq<Dated>, shown: set<Fingerprint>)
    requires Prints(news) <= shown
    ensures seen <= seen + Prints(news) <= seen + shown
    ensures news != [] && Prints(news) !! seen ==> seen < seen + Prints(news)
  {
    if news != [] {
      assert news[0].fp in Prints(news);
    }
  }

  lemma TakenSees(run: Run, o: Observation, digest: Evidence -> Fingerprint)
    ensures Taken(run, o, digest).seen == run.seen + Prints(NewActivities(run, o, digest))
  {
    var news := NewActivities(run, o, digest);
    if news != [] {
      assert Hindmost(news).Some?;
    } else {
      assert Prints(news) == {};
    }
  }

  lemma Smaller<T>(a: set<T>, b: set<T>)
    requires a <= b
    ensures |a| <= |b| && (a != b ==> |a| < |b|)
  {
    assert b == a + (b - a);
    if a != b {
      var x :| x in b && x !in a;
      assert x in b - a;
    }
  }

  lemma TakeOne(b: Books, a: Action, digest: Evidence -> Fingerprint, id: RunId)
    requires Sound(b) && NewIn(b, a)
    ensures var before, after := SeenOf(b, id), SeenOf(Acted(b, a, digest), id);
            && after <= before + LogPrints(a, digest) && |before| <= |after|
            && (Takes(b, a, digest) && b.current.value.id == id ==> |before| < |after|)
  {
    SeenGrows(b, a, digest, id);
    Smaller(SeenOf(b, id), SeenOf(Acted(b, a, digest), id));
  }

  /**
   * Replayed actions earn nothing: the evaluations of a run that take a new read-only activity are at
   * most as many as the distinct activities its logs show.
   */
  lemma {:induction false} TakingsBounded(b: Books, actions: seq<Action>, digest: Evidence -> Fingerprint, id: RunId)
    requires Sound(b) && id !in b.runs && AlwaysNew(b, actions, digest)
    ensures SeenOf(After(b, actions, digest), id) <= Shown(actions, digest)
    ensures Takings(b, actions, digest, id) <= |SeenOf(After(b, actions, digest), id)| <= |Shown(actions, digest)|
  {
    if actions != [] {
      var n := |actions| - 1;
      var init := actions[..n];
      NewPrefix(b, actions, digest);
      TakingsBounded(b, init, digest, id);
      ChainIsSound(b, init, digest);
      TakeOne(After(b, init, digest), actions[n], digest, id);
    }
    Smaller(SeenOf(After(b, actions, digest), id), Shown(actions, digest));
  }
}
