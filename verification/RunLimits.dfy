/** What starting and re-arming answer, and what limits the run they make has. */
module RunLimits {
  import opened Domain
  import opened RunBudget

  /** A run that has just begun: nothing counted, nothing seen, and its deadline a whole budget away. */
  predicate Begun(run: Run, project: ProjectId, budget: int, noProgress: int, now: Time, again: Time) {
    && run.project == project && run.budget == budget && run.noProgress == noProgress && run.status == RunStatus.ACTIVE
    && run.startedAt == now && run.lastProgressAt == now && run.deadline - again == budget && run.expiry.None?
    && run.diff.None? && run.diffAt.None? && run.seen == {} && run.activityAt.None? && run.activity.None?
  }

  /**
   * Starting makes a run only where there was none and the limits are positive; an existing run is handed out
   * only for its own project and limits, whatever its state, and is never extended.
   */
  lemma StartDecides(b: Books, project: ProjectId, budget: int, noProgress: int, now: Time, again: Time, newId: RunId)
    ensures var (after, r) := Started(b, project, budget, noProgress, now, again, newId);
            && (after != b ==> b.current.None?)
            && (budget <= 0 || noProgress <= 0 ==> after == b && r == Err(RUN_BUDGET_INVALID))
            && (budget > 0 && noProgress > 0 && b.current.Some? ==>
                  var run := b.current.value;
                  after == b && r == if run.project == project && run.budget == budget && run.noProgress == noProgress
                                     then Ok(run) else Err(EXTENSION_REQUIRES_HIGHER_AUTHORITY))
            && (budget > 0 && noProgress > 0 && b.current.None? ==>
                  r.Ok? && r.value.id == newId && Begun(r.value, project, budget, noProgress, now, again)
                  && after == b.(current := Some(r.value), runs := b.runs[newId := r.value]))
  {
  }

  /** Positive limits, filled-in provenance and sufficient authority. */
  predicate InOrder(q: Rearm) {
    q.budget > 0 && q.noProgress > 0 && q.documented && q.authorised
  }

  /** The current run has ended and is the one named, for the same project. */
  predicate Follows(b: Books, q: Rearm) {
    && b.current.Some? && b.current.value.status == EXHAUSTED
    && b.current.value.project == q.project && b.current.value.id == q.previous
  }

  /** What is to be continued, if anything is named, is still at the round named. */
  predicate Continues(q: Rearm, rounds: map<Role, nat>) {
    q.intent.Some? ==> q.intent.value.0 in rounds && rounds[q.intent.value.0] == q.intent.value.1
  }

  /**
   * A request that was not answered before makes a new run, with its own limits from now on and its intent,
   * exactly when it is in order, follows the current run and continues at the right round.
   */
  lemma RearmDecides(b: Books, q: Rearm, rounds: map<Role, nat>, now: Time, again: Time, newId: RunId)
    requires q.requestId !in b.rearmed
    ensures var (after, r) := Rearmed(b, q, rounds, now, again, newId);
            if InOrder(q) && Follows(b, q) && Continues(q, rounds)
            then && r.Ok? && r.value.id == newId && Begun(r.value, q.project, q.budget, q.noProgress, now, again)
                 && after == b.(current := Some(r.value), runs := b.runs[newId := r.value],
                                rearmed := b.rearmed[q.requestId := Link(q.previous, newId)],
                                intents := if q.intent.Some? then b.intents[newId := q.intent.value] else b.intents)
            else after == b && r.Err?
  {
  }

  /** The errors, in the order in which they are found. */
  lemma RearmErrors(b: Books, q: Rearm, rounds: map<Role, nat>, now: Time, again: Time, newId: RunId)
    ensures var (after, r) := Rearmed(b, q, rounds, now, again, newId);
            && (q.budget <= 0 || q.noProgress <= 0 ==> r == Err(RUN_BUDGET_INVALID))
            && (q.budget > 0 && q.noProgress > 0 && !q.documented ==> r == Err(REARM_PROVENANCE_REQUIRED))
            && (q.budget > 0 && q.noProgress > 0 && q.documented && !q.authorised ==> r == Err(REARM_REQUIRES_AUTHORITY))
            && (InOrder(q) && q.requestId in b.rearmed ==>
                  after == b && r == (if b.rearmed[q.requestId].next in b.runs then Ok(b.runs[b.rearmed[q.requestId].next])
                                      else Err(REARM_PROVENANCE_CORRUPT)))
            && (InOrder(q) && q.requestId !in b.rearmed && (b.current.None? || b.current.value.status != EXHAUSTED) ==>
                  r == Err(REARM_REQUIRES_EXHAUSTED_RUN))
            && (InOrder(q) && q.requestId !in b.rearmed && b.current.Some? && b.current.value.status == EXHAUSTED && !Follows(b, q) ==>
                  r == Err(REARM_BINDING_MISMATCH))
            && (InOrder(q) && q.requestId !in b.rearmed && Follows(b, q) && !Continues(q, rounds) ==>
                  r == Err(CONTINUATION_INTENT_BOUNDARY_MISMATCH))
  {
  }
}
