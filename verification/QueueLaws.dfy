/** What each statement does to a job row, said on the row, and how long a claimed job is left to its worker. */
module QueueLaws {
  import opened Text
  import opened AnswerQueue

  // ----- one statement -----

  /** A requeue puts back exactly the jobs running since before its cutoff, and leaves every other row alone. */
  lemma RequeueTakesTheStale(q: Queue, e: QStep, id: nat)
    requires QEnabled(q, e) && e.Requeue? && id in q.jobs
    ensures var row := q.jobs[id];
            && id in QApply(q, e).jobs && QApply(q, e).workers == q.workers && QApply(q, e).calls == q.calls
            && QApply(q, e).jobs[id] ==
               if row.status == Running && row.startedAt.Some? && row.startedAt.value < e.staleBefore
               then row.(status := Queued, startedAt := None) else row
  {
  }

  /** A claim starts the job at its own time and counts an attempt; it delivers the first five and refuses any more. */
  lemma ClaimStarts(q: Queue, e: QStep)
    requires QInv(q) && QEnabled(q, e) && e.Claim?
    ensures var row, q' := q.jobs[e.id], QApply(q, e);
            && e.id in q'.jobs && e.w in q'.workers
            && q'.jobs[e.id] == row.(status := Running, attempts := row.attempts + 1, startedAt := Some(e.now))
            && q'.workers[e.w] == (if row.attempts < 5 then Delivering(e.id, row.attempts + 1, Evaluating, 0)
                                   else Refusing(e.id))
            && forall k :: k in q.jobs && k != e.id ==> k in q'.jobs && q'.jobs[k] == q.jobs[k]
  {
    assert Shaped(q.jobs[e.id]);
  }

  /** A submission under a new key is stored queued, unstarted and untried, as it was sent but for a blank question; one
      under a known key changes nothing but the last request id, and that only if it gives one. */
  lemma SubmissionIsStored(q: Queue, e: QStep)
    requires QInv(q) && QEnabled(q, e) && e.Submit?
    ensures var q' := QApply(q, e);
            && e.id in q'.jobs
            && (forall k :: k in q.jobs && k != e.id ==> k in q'.jobs && q'.jobs[k] == q.jobs[k])
            && (if e.id in q.jobs then
                  q'.jobs[e.id] == if Blank(e.lastRequestId) then q.jobs[e.id]
                                   else q.jobs[e.id].(lastRequestId := e.lastRequestId)
                else
                  && q'.jobs[e.id].status == Queued && q'.jobs[e.id].attempts == 0
                  && q'.jobs[e.id].startedAt == None && q'.jobs[e.id].result == None
                  && q'.jobs[e.id].createdAt == e.now
                  && q'.jobs[e.id].lastRequestId == (if Blank(e.lastRequestId) then "" else e.lastRequestId)
                  && q'.jobs[e.id].request ==
                     e.request.(question := if Blank(e.request.question) then "" else e.request.question))
  {
  }

  /** A success stores its payload; a failure is stored as failed, conflict or canceled, as given, and as failed if it
      was none of these. */
  lemma MarkIsStored(q: Queue, e: QStep)
    requires QEnabled(q, e) && IsMark(e)
    ensures var id, q' := q.workers[e.w].job, QApply(q, e);
            && id in q.jobs && q'.workers == q.workers[e.w := Over]
            && q'.jobs == q.jobs[id := q'.jobs[id]]
            && q'.jobs[id] == (if e.Succeed? then q.jobs[id].(status := Succeeded, result := Some(e.payload))
                               else if e.status == JobConflict || e.status == Canceled
                               then q.jobs[id].(status := e.status) else q.jobs[id].(status := JobFailed))
  {
  }

  // ----- a claimed job is left to its worker -----

  /** A mark by a worker on the job. */
  predicate Marks(q: Queue, e: QStep, id: nat) {
    IsMark(e) && e.w in q.workers && !q.workers[e.w].Over? && q.workers[e.w].job == id
  }

  ghost predicate NeverMarked(q: Queue, es: seq<QStep>, id: nat)
    requires QRunnable(q, es)
    decreases |es|
  {
    es == [] || (NeverMarked(q, es[..|es| - 1], id) && !Marks(QAfter(q, es[..|es| - 1]), es[|es| - 1], id))
  }

  predicate CutoffsUpTo(es: seq<QStep>, at: int) {
    forall i :: 0 <= i < |es| && es[i].Requeue? ==> es[i].staleBefore <= at
  }

  predicate RunningSince(jobs: JobTable, id: nat, at: int) {
    id in jobs && jobs[id].status == Running && jobs[id].startedAt == Some(at)
  }

  lemma HeldStep(q: Queue, e: QStep, id: nat, at: int)
    requires QEnabled(q, e) && RunningSince(q.jobs, id, at)
    requires !Marks(q, e, id) && (e.Requeue? ==> e.staleBefore <= at)
    ensures RunningSince(QApply(q, e).jobs, id, at)
    ensures QApply(q, e).jobs[id].request == q.jobs[id].request && QApply(q, e).jobs[id].result == q.jobs[id].result
  {
  }

  /** Until it is marked, no run of requeues with cutoffs up to a job's start takes the job from its worker. */
  lemma {:induction false} HeldUntilStale(q: Queue, es: seq<QStep>, id: nat, at: int)
    requires QRunnable(q, es) && RunningSince(q.jobs, id, at) && NeverMarked(q, es, id) && CutoffsUpTo(es, at)
    ensures RunningSince(QAfter(q, es).jobs, id, at)
    ensures QAfter(q, es).jobs[id].request == q.jobs[id].request
    ensures QAfter(q, es).jobs[id].result == q.jobs[id].result
    decreases |es|
  {
    if es != [] {
      var init := es[..|es| - 1];
      assert forall i :: 0 <= i < |init| ==> init[i] == es[i];
      HeldUntilStale(q, init, id, at);
      HeldStep(QAfter(q, init), es[|es| - 1], id, at);
    }
  }

  /** A later cutoff does take it. */
  lemma StaleIsTaken(q: Queue, staleBefore: int, id: nat, at: int)
    requires RunningSince(q.jobs, id, at)
    ensures var jobs := QApply(q, Requeue(staleBefore)).jobs;
            id in jobs && (jobs[id].status == Queued <==> at < staleBefore)
  {
  }

  // ----- calls -----

  /** A call ends its round when it succeeds or is the third to fail, and leads from evaluating to opening to
      persisting; otherwise it adds a failure, and an attempt of the job if that is recorded. */
  lemma CallIsCounted(q: Queue, e: QStep)
    requires QEnabled(q, e) && e.CallProvider?
    ensures var d, q' := q.workers[e.w], QApply(q, e);
            var over := e.ok || d.failures >= 2;
            && e.w in q'.workers && d.job in q'.jobs
            && q'.workers[e.w] == (if over
                                   then d.(stage := if d.stage == Evaluating then Opening
                                           else Persisting, failures := 0)
                                   else d.(failures := d.failures + 1))
            && q'.jobs[d.job].attempts == q.jobs[d.job].attempts + (if !over && e.recorded then 1 else 0)
            && CallsOf(q', d.job, d.delivery) == CallsOf(q, d.job, d.delivery) + 1
  {
  }
}
