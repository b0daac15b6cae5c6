/** What counts as progress of a run, read off what an evaluation observes. */
module ProgressEvidence {
  import opened Domain
  import opened RunBudget
  import opened RunChain

  // ---------------------------------------------------------------- the log of a process

  /** The observed process runs the task's current attempt for its assignee. */
  predicate RunsAttempt(o: Observation) {
    && o.process.Some? && o.process.value.running && o.execution.Some?
    && o.execution.value.agent == Some(o.process.value.agent) && o.execution.value.attempt == o.process.value.attempt
  }

  function PrintOf(p: Process, k: nat, digest: Evidence -> Fingerprint): Fingerprint
    requires k < |p.log|
  {
    digest(ReadOnlyActivity(p.id, p.log[k].semantic))
  }

  /** Entry `k` is an activity of this run that was not seen before. */
  predicate NewEntry(p: Process, run: Run, k: nat, digest: Evidence -> Fingerprint)
    requires k < |p.log|
  {
    p.log[k].at >= run.startedAt && PrintOf(p, k, digest) !in run.seen
  }

  /** Entry `k` is the latest new one, and the last of those as late. */
  ghost predicate LatestNew(p: Process, run: Run, k: nat, digest: Evidence -> Fingerprint) {
    && k < |p.log| && NewEntry(p, run, k, digest)
    && (forall j :: 0 <= j < |p.log| && NewEntry(p, run, j, digest) ==> p.log[j].at <= p.log[k].at)
    && (forall j :: k < j < |p.log| && NewEntry(p, run, j, digest) ==> p.log[j].at < p.log[k].at)
  }

  function Kept(p: Process, run: Run, digest: Evidence -> Fingerprint): seq<Dated> {
    News(Since(p.log, run.startedAt), p.id, run.seen, digest)
  }

  lemma KeptSnoc(p: Process, run: Run, digest: Evidence -> Fingerprint)
    requires p.log != []
    ensures var n := |p.log| - 1;
            var rest := Kept(p.(log := p.log[..n]), run, digest);
            Kept(p, run, digest) == if NewEntry(p, run, n, digest) then rest + [Dated(p.log[n].at, PrintOf(p, n, digest))] else rest
  {
    var n := |p.log| - 1;
    var init, last := Since(p.log[..n], run.startedAt), p.log[n];
    if last.at >= run.startedAt {
      assert (init + [last])[..|init|] == init;
    }
  }

  lemma {:induction false} HindmostIsLatest(p: Process, run: Run, digest: Evidence -> Fingerprint) returns (k: nat)
    ensures Hindmost(Kept(p, run, digest)).Some? ==>
              LatestNew(p, run, k, digest) && Hindmost(Kept(p, run, digest)) == Some(Dated(p.log[k].at, PrintOf(p, k, digest)))
    ensures Hindmost(Kept(p, run, digest)).None? ==> forall j :: 0 <= j < |p.log| ==> !NewEntry(p, run, j, digest)
    decreases |p.log|
  {
    k := 0;
    if p.log != [] {
      var n := |p.log| - 1;
      var q := p.(log := p.log[..n]);
      k := HindmostIsLatest(q, run, digest);
      KeptSnoc(p, run, digest);
      var rest := Kept(q, run, digest);
      if NewEntry(p, run, n, digest) {
        var last := Dated(p.log[n].at, PrintOf(p, n, digest));
        assert (rest + [last])[..|rest|] == rest;
        var older := Hindmost(rest).Some? && Hindmost(rest).value.at > last.at;
        LatestOfMore(p, q, run, k, Hindmost(rest).Some?, digest);
        if !older {
          k := n;
        }
      } else {
        LatestOfSame(p, q, run, k, Hindmost(rest).Some?, digest);
      }
    }
  }

  lemma SameEntries(p: Process, q: Process, run: Run, digest: Evidence -> Fingerprint)
    requires p.log != [] && q == p.(log := p.log[..|p.log| - 1])
    ensures forall j :: 0 <= j < |q.log| ==> q.log[j] == p.log[j] && (NewEntry(q, run, j, digest) <==> NewEntry(p, run, j, digest))
  {
  }

  /** One more new entry is the latest unless an earlier one is later than it. */
  lemma LatestOfMore(p: Process, q: Process, run: Run, k: nat, some: bool, digest: Evidence -> Fingerprint)
    requires p.log != [] && q == p.(log := p.log[..|p.log| - 1]) && NewEntry(p, run, |p.log| - 1, digest)
    requires if some then LatestNew(q, run, k, digest) else forall j :: 0 <= j < |q.log| ==> !NewEntry(q, run, j, digest)
    ensures if some && q.log[k].at > p.log[|p.log| - 1].at 
            then LatestNew(p, run, k, digest) && PrintOf(q, k, digest) == PrintOf(p, k, digest)
            else LatestNew(p, run, |p.log| - 1, digest)
  {
    SameEntries(p, q, run, digest);
  }

  lemma LatestOfSame(p: Process, q: Process, run: Run, k: nat, some: bool, digest: Evidence -> Fingerprint)
    requires p.log != [] && q == p.(log := p.log[..|p.log| - 1]) && !NewEntry(p, run, |p.log| - 1, digest)
    requires if some then LatestNew(q, run, k, digest) else forall j :: 0 <= j < |q.log| ==> !NewEntry(q, run, j, digest)
    ensures if some then LatestNew(p, run, k, digest) && PrintOf(q, k, digest) == PrintOf(p, k, digest) && p.log[k] == q.log[k]
            else forall j :: 0 <= j < |p.log| ==> !NewEntry(p, run, j, digest)
  {
    SameEntries(p, q, run, digest);
  }

  lemma OneLatest(p: Process, run: Run, j: nat, k: nat, digest: Evidence -> Fingerprint)
    requires LatestNew(p, run, j, digest) && LatestNew(p, run, k, digest)
    ensures j == k
  {
  }

  lemma {:induction false} SinceLast(log: seq<Activity>, start: Time, k: nat)
    requires k < |log| && log[k].at >= start && forall j :: k < j < |log| ==> log[j].at < start
    ensures Since(log, start) != [] && Since(log, start)[|Since(log, start)| - 1] == log[k]
  {
    if k < |log| - 1 {
      SinceLast(log[..|log| - 1], start, k);
    }
  }

  lemma {:induction false} SinceNone(log: seq<Activity>, start: Time)
    requires forall j :: 0 <= j < |log| ==> log[j].at < start
    ensures Since(log, start) == []
  {
    if log != [] {
      SinceNone(log[..|log| - 1], start);
    }
  }

  /** A declared validation is under way exactly when the last entry of the run's own process since its start runs one. */
  lemma InFlightIff(run: Run, o: Observation)
    ensures ValidationInFlight(run, o) <==>
            RunsAttempt(o) && exists k :: 0 <= k < |o.process.value.log| && InFlightAt(run, o, k)
  {
    if RunsAttempt(o) {
      var log := o.process.value.log;
      if exists k :: 0 <= k < |log| && log[k].at >= run.startedAt {
        var k := LastSince(log, run.startedAt);
        SinceLast(log, run.startedAt, k);
        if ValidationInFlight(run, o) {
          assert InFlightAt(run, o, k);
        }
      } else {
        SinceNone(log, run.startedAt);
      }
    }
  }

  predicate InFlightAt(run: Run, o: Observation, k: nat)
    requires o.process.Some? && k < |o.process.value.log|
  {
    var log := o.process.value.log;
    && log[k].at >= run.startedAt && (forall j :: k < j < |log| ==> log[j].at < run.startedAt)
    && log[k].command.Some? && o.declared(log[k].command.value)
  }

  lemma {:induction false} LastSince(log: seq<Activity>, start: Time) returns (k: nat)
    requires exists k :: 0 <= k < |log| && log[k].at >= start
    ensures k < |log| && log[k].at >= start && forall j :: k < j < |log| ==> log[j].at < start
  {
    var n := |log| - 1;
    if log[n].at >= start {
      k := n;
    } else {
      var i :| 0 <= i < |log| && log[i].at >= start;
      assert log[..n][i].at >= start;
      k := LastSince(log[..n], start);
      assert forall j :: 0 <= j < n ==> log[..n][j] == log[j];
    }
  }

  // ---------------------------------------------------------------- the signs of progress

  /** The worktree's signature after the observation. */
  function Signature(run: Run, o: Observation): Option<string> {
    if o.process.Some? && o.process.value.running && o.process.value.signature.Some? then o.process.value.signature else run.diff
  }

  /** The five signs of progress, each with its time and its fingerprint. */
  ghost predicate Sign(run: Run, o: Observation, digest: Evidence -> Fingerprint, now: Time, d: Dated) {
    || (o.event.Some? && d == Dated(o.event.value.0, digest(ProtocolEvent(o.event.value.1))))
    || (o.process.Some? && d == Dated(o.process.value.startedAt, digest(ProcessStart(o.process.value.id))))
    || (Alive(o) && d == Dated(o.process.value.lastSeen, digest(ProcessHeartbeat(o.process.value.id, o.process.value.lastSeen))))
    || (Edited(run, o, now, d.at) &&
        d.fp == digest(ProductDiff(if o.process.Some? then Some(o.process.value.id) else None, Signature(run, o))))
    || Worked(run, o, digest, d)
  }

  /** A running process counts as alive, unless the role is one that may only read. */
  predicate Alive(o: Observation) {
    && o.process.Some? && o.process.value.running
    && (o.execution.Some? ==> o.execution.value.role != REVIEWER && o.execution.value.role != QA)
  }

  /** The worktree changed now from a known signature, or did so at `at` before. */
  predicate Edited(run: Run, o: Observation, now: Time, at: Time) {
    if run.diff.Some? && Signature(run, o) != run.diff then at == now else run.diffAt == Some(at)
  }

  /** The latest new activity of the log, or the one on record if there is none. */
  ghost predicate Worked(run: Run, o: Observation, digest: Evidence -> Fingerprint, d: Dated) {
    if RunsAttempt(o) && exists k :: 0 <= k < |o.process.value.log| && NewEntry(o.process.value, run, k, digest)
    then exists k: nat :: LatestNew(o.process.value, run, k, digest) &&
           d == Dated(o.process.value.log[k].at, PrintOf(o.process.value, k, digest))
    else run.activityAt == Some(d.at) && run.activity == Some(d.fp)
  }

  lemma WorkedIs(run: Run, o: Observation, digest: Evidence -> Fingerprint, d: Dated)
    ensures var taken := Taken(run, o, digest);
            Worked(run, o, digest, d) <==> taken.activityAt == Some(d.at) && taken.activity == Some(d.fp)
  {
    if RunsAttempt(o) {
      var p := o.process.value;
      assert NewActivities(run, o, digest) == Kept(p, run, digest);
      var k := HindmostIsLatest(p, run, digest);
      if Hindmost(Kept(p, run, digest)).Some? {
        LatestIs(run, o, digest, d, k);
      }
    }
  }

  lemma LatestIs(run: Run, o: Observation, digest: Evidence -> Fingerprint, d: Dated, k: nat)
    requires RunsAttempt(o) && LatestNew(o.process.value, run, k, digest)
    ensures Worked(run, o, digest, d) <==> d == Dated(o.process.value.log[k].at, PrintOf(o.process.value, k, digest))
  {
    var p := o.process.value;
    assert NewEntry(p, run, k, digest);
    forall j: nat | LatestNew(p, run, j, digest) ensures j == k {
      OneLatest(p, run, j, k, digest);
    }
  }

  lemma CandidatesAre(run: Run, o: Observation, digest: Evidence -> Fingerprint, now: Time, d: Dated)
    ensures d in Candidates(run, o, digest, now) <==> Sign(run, o, digest, now, d)
  {
    WorkedIs(run, o, digest, d);
  }

  /**
   * What an evaluation credits is exactly this: the latest sign of progress, if it is not older than the run
   * and not the one credited last.
   */
  lemma CreditIs(run: Run, o: Observation, digest: Evidence -> Fingerprint, now: Time)
    ensures var next := Noticed(run, o, digest, now);
            && (next.lastProgress != run.lastProgress ==>
                  && Sign(run, o, digest, now, Dated(next.lastProgressAt, next.lastProgress)) && next.lastProgressAt >= run.startedAt
                  && (forall d :: Sign(run, o, digest, now, d) ==> d.at <= next.lastProgressAt))
            && (next.lastProgress == run.lastProgress ==> next.lastProgressAt == run.lastProgressAt)
            && (forall d :: Sign(run, o, digest, now, d) && d.at >= run.startedAt && d.fp != run.lastProgress
                            && (forall other :: Sign(run, o, digest, now, other) && other != d ==> other.at < d.at) ==>
                  next.lastProgressAt == d.at && next.lastProgress == d.fp)
  {
    var cs, next := Candidates(run, o, digest, now), Noticed(run, o, digest, now);
    var read := Taken(run, o, digest).(diff := NewDiff(run, o), diffAt := NewDiffAt(run, o, now));
    CreditsForemost(read, cs);
    if next.lastProgress != run.lastProgress {
      CandidatesAre(run, o, digest, now, Dated(next.lastProgressAt, next.lastProgress));
      forall d | Sign(run, o, digest, now, d) ensures d.at <= next.lastProgressAt {
        CandidatesAre(run, o, digest, now, d);
      }
    }
    forall d | Sign(run, o, digest, now, d) && d.at >= run.startedAt && d.fp != run.lastProgress
               && (forall other :: Sign(run, o, digest, now, other) && other != d ==> other.at < d.at)
      ensures next.lastProgressAt == d.at && next.lastProgress == d.fp
    {
      LatestSign(run, o, digest, now, d);
    }
  }

  lemma LatestSign(run: Run, o: Observation, digest: Evidence -> Fingerprint, now: Time, d: Dated)
    requires Sign(run, o, digest, now, d) && d.at >= run.startedAt && d.fp != run.lastProgress
    requires forall other :: Sign(run, o, digest, now, other) && other != d ==> other.at < d.at
    ensures Noticed(run, o, digest, now).lastProgressAt == d.at && Noticed(run, o, digest, now).lastProgress == d.fp
  {
    var cs := Candidates(run, o, digest, now);
    CandidatesAre(run, o, digest, now, d);
    forall other | other in cs && other != d ensures other.at < d.at {
      CandidatesAre(run, o, digest, now, other);
    }
    ForemostOf(cs, d);
  }

  lemma ForemostOf(cs: seq<Dated>, d: Dated)
    requires d in cs && forall other :: other in cs && other != d ==> other.at < d.at
    ensures Foremost(cs) == Some(d)
  {
    var i := ForemostIs(cs);
    assert cs[i] in cs;
    var j :| 0 <= j < |cs| && cs[j] == d;
  }

  lemma CreditsForemost(run: Run, cs: seq<Dated>)
    ensures var next := Credited(run, Foremost(cs));
            && (next.lastProgress != run.lastProgress ==>
                  && Dated(next.lastProgressAt, next.lastProgress) in cs && next.lastProgressAt >= run.startedAt
                  && (forall d :: d in cs ==> d.at <= next.lastProgressAt))
            && (next.lastProgress == run.lastProgress ==> next == run)
  {
    if cs != [] {
      var i := ForemostIs(cs);
      assert cs[i] in cs;
    }
  }

  // ---------------------------------------------------------------- consequences

  /** The heartbeat of a reviewing or testing role, or of a process that has ended, changes nothing. */
  lemma HeartbeatIgnored(run: Run, o: Observation, digest: Evidence -> Fingerprint, now: Time, seen: Time)
    requires o.process.Some?
    requires !o.process.value.running || (o.execution.Some? && o.execution.value.role in {REVIEWER, QA})
    ensures Noticed(run, o.(process := Some(o.process.value.(lastSeen := seen))), digest, now) == Noticed(run, o, digest, now)
  {
    var later := o.(process := Some(o.process.value.(lastSeen := seen)));
    SeenUnread(run, o, digest, seen);
    SameCandidates(run, o, later, digest, now);
  }

  lemma SameCandidates(run: Run, o: Observation, later: Observation, digest: Evidence -> Fingerprint, now: Time)
    requires Taken(run, later, digest) == Taken(run, o, digest) && later.event == o.event && later.execution == o.execution
    requires o.process.Some? && later.process.Some? && later.process.value == o.process.value.(lastSeen := later.process.value.lastSeen)
    requires !o.process.value.running || (o.execution.Some? && o.execution.value.role in {REVIEWER, QA})
    ensures Candidates(run, later, digest, now) == Candidates(run, o, digest, now)
    ensures NewDiff(run, later) == NewDiff(run, o) && NewDiffAt(run, later, now) == NewDiffAt(run, o, now)
  {
  }

  lemma SeenUnread(run: Run, o: Observation, digest: Evidence -> Fingerprint, seen: Time)
    requires o.process.Some?
    ensures Taken(run, o.(process := Some(o.process.value.(lastSeen := seen))), digest) == Taken(run, o, digest)
  {
    var later := o.(process := Some(o.process.value.(lastSeen := seen)));
    assert Recent(run, later) == Recent(run, o);
  }

  /** For any other role a running process seen later than every other sign moves the progress to when it was seen. */
  lemma HeartbeatCounts(run: Run, o: Observation, digest: Evidence -> Fingerprint, now: Time)
    requires o.process.Some? && o.process.value.running && o.process.value.lastSeen >= run.startedAt
    requires o.execution.Some? ==> o.execution.value.role !in {REVIEWER, QA}
    requires digest(ProcessHeartbeat(o.process.value.id, o.process.value.lastSeen)) != run.lastProgress
    requires var beat := Dated(o.process.value.lastSeen, digest(ProcessHeartbeat(o.process.value.id, o.process.value.lastSeen)));
             forall d :: Sign(run, o, digest, now, d) && d != beat ==> d.at < beat.at
    ensures Noticed(run, o, digest, now).lastProgressAt == o.process.value.lastSeen
  {
    CreditIs(run, o, digest, now);
    var p := o.process.value;
    assert Sign(run, o, digest, now, Dated(p.lastSeen, digest(ProcessHeartbeat(p.id, p.lastSeen))));
  }

  /** Before its deadline, with no validation under way, a run ends if its last progress and every sign are older than its budget. */
  lemma SilenceEnds(b: Books, o: Observation, digest: Evidence -> Fingerprint, x: Outside)
    requires Sound(b) && b.current.Some? && b.current.value.status == RunStatus.ACTIVE && x.judged < b.current.value.deadline
    requires !ValidationInFlight(b.current.value, o)
    requires var run := b.current.value;
             && x.judged - run.lastProgressAt >= run.noProgress
             && (forall d :: Sign(run, o, digest, x.observed, d) ==> x.judged - d.at >= run.noProgress)
    ensures var after := Evaluated(b, o, digest, x);
            after.current.Some? && after.current.value.status == EXHAUSTED
            && after.current.value.expiry == Some((x.expired, NO_PROGRESS_BUDGET))
            && !after.watching && !after.locked
  {
    var run := Noticed(b.current.value, o, digest, x.observed);
    CreditIs(b.current.value, o, digest, x.observed);
    NoticedIsFixed(b.current.value, o, digest, x.observed);
    JudgedSilent(Amended(b, run), x);
  }

  lemma JudgedSilent(b: Books, x: Outside)
    requires b.current.Some? && x.judged < b.current.value.deadline
    requires x.judged - b.current.value.lastProgressAt >= b.current.value.noProgress
    ensures Judged(b, false, x) == Expired(b, NO_PROGRESS_BUDGET, x)
  {
  }

  /** A sign that is new, of this run, later than all others and younger than the budget keeps the run going. */
  lemma ProgressKeeps(b: Books, o: Observation, digest: Evidence -> Fingerprint, x: Outside, d: Dated)
    requires Sound(b) && b.current.Some? && b.current.value.status == RunStatus.ACTIVE && x.judged < b.current.value.deadline
    requires var run := b.current.value;
             && Sign(run, o, digest, x.observed, d) && d.at >= run.startedAt && d.fp != run.lastProgress
             && x.judged - d.at < run.noProgress
             && (forall other :: Sign(run, o, digest, x.observed, other) && other != d ==> other.at < d.at)
    ensures var after := Evaluated(b, o, digest, x);
            after.current.Some? && after.current.value.status == RunStatus.ACTIVE && after.current.value.lastProgressAt == d.at
  {
    CreditIs(b.current.value, o, digest, x.observed);
    EndsEarlyIff(b, o, digest, x);
    var run := Noticed(b.current.value, o, digest, x.observed);
    NoticedIsFixed(b.current.value, o, digest, x.observed);
    JudgedIff(Amended(b, run), ValidationInFlight(b.current.value, o), x);
  }
}
