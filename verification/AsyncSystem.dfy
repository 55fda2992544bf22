/** The interview driven through its answer queue: deliveries come only from claimed jobs, claims may repeat,
    workers may crash or be late, and the marks on job rows are unguarded. */
module AsyncSystem {
  import opened Text
  import opened TurnPolicy
  import opened TurnStore
  import opened TurnMachine
  import opened TurnSafety
  import opened AnswerQueue
  import QueueLaws

  /** `jobOf` is the history of which job each delivery to the session came from; a delivery's id is its worker's. */
  datatype Async = Async(turn: System, queue: Queue, jobOf: map<nat, nat>)

  function AsyncInit(c: Config): Async { Async(Init(c), EMPTY_QUEUE, map[]) }

  /** `OnQueue` is a step of the queue that neither starts nor reports a turn of the session. */
  datatype AStep =
    | OnQueue(q: QStep)
    | Deliver(w: nat, id: nat, now: int)
    | OnTurn(e: Step)
    | Report(w: nat)

  function BeginOf(w: nat, row: JobRow): Step {
    BeginTurn(w, row.request.turn, row.request.answer, row.request.question, row.createdAt)
  }

  /** What a finished turn stores on its job. */
  function PayloadOf(r: Result): Option<Payload> {
    match r
    case NextQuestion(turnId) => Some(Payload(false, Some(turnId)))
    case DoneResult => Some(Payload(true, None))
    case _ => None
  }

  predicate Ours(me: string, jobs: JobTable, id: nat) { id in jobs && jobs[id].request.session == me }

  /** A delivery writes its turn only once its calls are over. */
  predicate Persists(q: Queue, w: nat) {
    w in q.workers && q.workers[w].Delivering? && q.workers[w].stage.Persisting?
  }

  ghost predicate AEnabled(c: Config, me: string, s: Async, e: AStep) {
    match e
    case OnQueue(q) =>
      && QEnabled(s.queue, q)
      && (q.Claim? && Ours(me, s.queue.jobs, q.id) ==> s.queue.jobs[q.id].attempts >= MAX_ATTEMPTS)
      && (q.Succeed? ==> !Ours(me, s.queue.jobs, s.queue.workers[q.w].job))
    case Deliver(w, id, now) =>
      && QEnabled(s.queue, Claim(w, id, now)) && Ours(me, s.queue.jobs, id)
      && s.queue.jobs[id].attempts < MAX_ATTEMPTS && w !in s.turn.procs
    case OnTurn(e) =>
      && Enabled(c, s.turn, e) && !e.BeginTurn?
      && (e.CommitTurn? || e.AdvanceTurn? ==> Persists(s.queue, e.pid))
    case Report(w) =>
      && w in s.queue.workers && s.queue.workers[w].Delivering? && Ours(me, s.queue.jobs, s.queue.workers[w].job)
      && w in s.turn.procs && s.turn.procs[w].pc.Finished? && PayloadOf(s.turn.procs[w].pc.result).Some?
  }

  ghost function AApply(c: Config, me: string, s: Async, e: AStep): Async
    requires AEnabled(c, me, s, e)
  {
    match e
    case OnQueue(q) => s.(queue := QApply(s.queue, q))
    case Deliver(w, id, now) =>
      Async(Apply(c, s.turn, BeginOf(w, s.queue.jobs[id])), QApply(s.queue, Claim(w, id, now)), s.jobOf[w := id])
    case OnTurn(e) => s.(turn := Apply(c, s.turn, e))
    case Report(w) => s.(queue := QApply(s.queue, Succeed(w, PayloadOf(s.turn.procs[w].pc.result).value)))
  }

  ghost predicate ARunnable(c: Config, me: string, s: Async, es: seq<AStep>)
    decreases |es|, 0
  {
    es == [] || (ARunnable(c, me, s, es[..|es| - 1]) && AEnabled(c, me, AAfter(c, me, s, es[..|es| - 1]), es[|es| - 1]))
  }

  ghost function AAfter(c: Config, me: string, s: Async, es: seq<AStep>): Async
    requires ARunnable(c, me, s, es)
    decreases |es|, 1
  {
    if es == [] then s else AApply(c, me, AAfter(c, me, s, es[..|es| - 1]), es[|es| - 1])
  }

  // ----- invariant -----

  predicate Carries(p: Proc, row: JobRow) {
    && p.turn == row.request.turn && p.answer == row.request.answer
    && p.question == row.request.question && p.submittedAt == row.createdAt
  }

  /** The stored answer is the one the request carried, or the placeholder for an empty one, in one language. */
  predicate Records(row: AnswerRow, r: Request) {
    && row.turn == r.turn && row.questionText == r.question
    && ((row.transcriptEs == AnswerText(r.answer, "es") && row.transcriptEn == "")
        || (row.transcriptEs == "" && row.transcriptEn == AnswerText(r.answer, "en")))
  }

  /** Every delivery to the session comes from one of its jobs. */
  ghost predicate Traced(me: string, procs: map<nat, Proc>, jobs: JobTable, jobOf: map<nat, nat>) {
    forall w :: w in procs ==> w in jobOf && Ours(me, jobs, jobOf[w]) && Carries(procs[w], jobs[jobOf[w]])
  }

  ghost predicate WorkersTraced(me: string, procs: map<nat, Proc>, q: Queue, jobOf: map<nat, nat>) {
    && (forall w :: w in procs ==> w in q.workers)
    && (forall w :: w in q.workers && q.workers[w].Delivering? && Ours(me, q.jobs, q.workers[w].job) ==>
          w in procs && w in jobOf && jobOf[w] == q.workers[w].job)
  }

  /** Every stored answer comes from one of the session's jobs. */
  ghost predicate AnswersTraced(me: string, answers: seq<AnswerRow>, jobs: JobTable) {
    forall i :: 0 <= i < |answers| ==> FromAJob(me, answers[i], jobs)
  }

  ghost predicate FromAJob(me: string, row: AnswerRow, jobs: JobTable) {
    exists id: nat :: Ours(me, jobs, id) && Records(row, jobs[id].request)
  }

  /** A job that succeeded with a next question names the turn installed by the commit that used up its own turn. */
  predicate ResultHolds(row: JobRow, consumed: map<string, Consumption>) {
    row.status.Succeeded? ==>
      row.result.Some?
      && (row.result.value.done ||
          (row.request.turn in consumed
           && consumed[row.request.turn].next == row.result.value.nextTurn
           && row.result.value.nextTurn.Some?))
  }

  ghost predicate ResultsHold(me: string, jobs: JobTable, consumed: map<string, Consumption>) {
    forall id :: Ours(me, jobs, id) ==> ResultHolds(jobs[id], consumed)
  }

  ghost predicate AInv(c: Config, me: string, s: Async) {
    && Inv(c, s.turn) && QInv(s.queue)
    && Traced(me, s.turn.procs, s.queue.jobs, s.jobOf)
    && WorkersTraced(me, s.turn.procs, s.queue, s.jobOf)
    && AnswersTraced(me, s.turn.db.answers, s.queue.jobs)
    && ResultsHold(me, s.queue.jobs, s.turn.consumed)
  }

  // ----- jobs only advance, so what was traced stays traced -----

  lemma TracedStays(me: string, s: Async, jobs: JobTable)
    requires Traced(me, s.turn.procs, s.queue.jobs, s.jobOf) && AnswersTraced(me, s.turn.db.answers, s.queue.jobs)
    requires JobsAdvance(s.queue.jobs, jobs)
    ensures Traced(me, s.turn.procs, jobs, s.jobOf) && AnswersTraced(me, s.turn.db.answers, jobs)
  {
  }

  /** A step of the queue that reports nothing about the session leaves its results in place. */
  lemma ResultsStay(me: string, q: Queue, e: QStep, consumed: map<string, Consumption>)
    requires QEnabled(q, e) && ResultsHold(me, q.jobs, consumed)
    requires e.Succeed? && Ours(me, q.jobs, q.workers[e.w].job) ==>
                   ResultHolds(QApply(q, e).jobs[q.workers[e.w].job], consumed)
    ensures ResultsHold(me, QApply(q, e).jobs, consumed)
  {
  }

  /** Workers keep their job until they are over; only a claim adds one. */
  lemma WorkersStay(me: string, q: Queue, e: QStep)
    requires QInv(q) && QEnabled(q, e)
    ensures q.workers.Keys <= QApply(q, e).workers.Keys
    ensures forall w :: w in QApply(q, e).workers && QApply(q, e).workers[w].Delivering? && !(e.Claim? && w == e.w) ==>
                          w in q.workers && q.workers[w].Delivering? && q.workers[w].job == QApply(q, e).workers[w].job
                          && q.workers[w].job in q.jobs
  {
  }

  lemma QueueStepKeeps(c: Config, me: string, s: Async, e: QStep)
    requires AInv(c, me, s) && QEnabled(s.queue, e)
    requires e.Claim? && Ours(me, s.queue.jobs, e.id) ==> s.queue.jobs[e.id].attempts >= MAX_ATTEMPTS
    requires e.Succeed? && Ours(me, s.queue.jobs, s.queue.workers[e.w].job) ==>
               ResultHolds(QApply(s.queue, e).jobs[s.queue.workers[e.w].job], s.turn.consumed)
    ensures AInv(c, me, s.(queue := QApply(s.queue, e)))
  {
    QStepKeepsInv(s.queue, e);
    StepAdvances(s.queue, e);
    TracedStays(me, s, QApply(s.queue, e).jobs);
    ResultsStay(me, s.queue, e, s.turn.consumed);
    QueueWorkersTraced(me, s, e);
  }

  lemma QueueWorkersTraced(me: string, s: Async, e: QStep)
    requires QInv(s.queue) && WorkersTraced(me, s.turn.procs, s.queue, s.jobOf) && QEnabled(s.queue, e)
    requires e.Claim? && Ours(me, s.queue.jobs, e.id) ==> s.queue.jobs[e.id].attempts >= MAX_ATTEMPTS
    ensures WorkersTraced(me, s.turn.procs, QApply(s.queue, e), s.jobOf)
  {
    var q := QApply(s.queue, e);
    WorkersStay(me, s.queue, e);
    StepAdvances(s.queue, e);
    forall w | w in q.workers && q.workers[w].Delivering? && Ours(me, q.jobs, q.workers[w].job)
      ensures w in s.turn.procs && w in s.jobOf && s.jobOf[w] == q.workers[w].job
    {
      var id := q.workers[w].job;
      assert id in s.queue.jobs && RowAdvances(s.queue.jobs[id], q.jobs[id]);
    }
  }

  lemma DeliverKeeps(c: Config, me: string, s: Async, e: AStep)
    requires ValidConfig(c) && AInv(c, me, s) && e.Deliver? && AEnabled(c, me, s, e)
    ensures AInv(c, me, AApply(c, me, s, e))
  {
    var claim := Claim(e.w, e.id, e.now);
    var begin := BeginOf(e.w, s.queue.jobs[e.id]);
    StepKeepsInv(c, s.turn, begin);
    QStepKeepsInv(s.queue, claim);
    StepAdvances(s.queue, claim);
    TracedStays(me, s, QApply(s.queue, claim).jobs);
    ResultsStay(me, s.queue, claim, s.turn.consumed);
    DeliverTraced(c, me, s, e);
  }

  lemma DeliverTraced(c: Config, me: string, s: Async, e: AStep)
    requires AInv(c, me, s) && e.Deliver? && AEnabled(c, me, s, e)
    requires Traced(me, s.turn.procs, QApply(s.queue, Claim(e.w, e.id, e.now)).jobs, s.jobOf)
    ensures var s' := AApply(c, me, s, e);
            && Traced(me, s'.turn.procs, s'.queue.jobs, s'.jobOf)
            && WorkersTraced(me, s'.turn.procs, s'.queue, s'.jobOf)
            && s'.turn.db == s.turn.db && s'.turn.consumed == s.turn.consumed
  {
    var row := s.queue.jobs[e.id];
    var p := Proc(row.request.turn, row.request.answer, row.request.question, row.createdAt, Begun);
    assert Apply(c, s.turn, BeginOf(e.w, row))
      == s.turn.(procs := s.turn.procs[e.w := p], seen := s.turn.seen + {row.request.turn});
    ClaimTraced(me, s, e, p);
  }

  lemma ClaimTraced(me: string, s: Async, e: AStep, p: Proc)
    requires QInv(s.queue) && e.Deliver? && QEnabled(s.queue, Claim(e.w, e.id, e.now)) && Ours(me, s.queue.jobs, e.id)
    requires WorkersTraced(me, s.turn.procs, s.queue, s.jobOf)
    requires Traced(me, s.turn.procs, QApply(s.queue, Claim(e.w, e.id, e.now)).jobs, s.jobOf)
    requires s.queue.jobs[e.id].attempts < MAX_ATTEMPTS && Carries(p, s.queue.jobs[e.id])
    ensures Traced(me, s.turn.procs[e.w := p], QApply(s.queue, Claim(e.w, e.id, e.now)).jobs, s.jobOf[e.w := e.id])
    ensures WorkersTraced(me, s.turn.procs[e.w := p], QApply(s.queue, Claim(e.w, e.id, e.now)), s.jobOf[e.w := e.id])
  {
    var q := QApply(s.queue, Claim(e.w, e.id, e.now));
    WorkersStay(me, s.queue, Claim(e.w, e.id, e.now));
    StepAdvances(s.queue, Claim(e.w, e.id, e.now));
    assert Ours(me, q.jobs, e.id) && Carries(p, q.jobs[e.id]);
    OneMoreTraced(me, s, e.w, e.id, p, q);
  }

  lemma OneMoreTraced(me: string, s: Async, w: nat, id: nat, p: Proc, q: Queue)
    requires WorkersTraced(me, s.turn.procs, s.queue, s.jobOf) && Traced(me, s.turn.procs, q.jobs, s.jobOf)
    requires JobsAdvance(s.queue.jobs, q.jobs) && s.queue.workers.Keys <= q.workers.Keys
    requires Ours(me, q.jobs, id) && Carries(p, q.jobs[id])
    requires w in q.workers && (q.workers[w].Delivering? ==> q.workers[w].job == id)
    requires forall v :: v in q.workers && q.workers[v].Delivering? && v != w ==>
                           v in s.queue.workers && s.queue.workers[v].Delivering?
                           && s.queue.workers[v].job == q.workers[v].job
                           && q.workers[v].job in s.queue.jobs
    ensures Traced(me, s.turn.procs[w := p], q.jobs, s.jobOf[w := id])
    ensures WorkersTraced(me, s.turn.procs[w := p], q, s.jobOf[w := id])
  {
  }

  /** The payload a delivery reports is what the commit of its turn installed. */
  lemma ReportIsTrue(c: Config, me: string, s: Async, w: nat)
    requires AInv(c, me, s) && AEnabled(c, me, s, Report(w))
    ensures var payload := PayloadOf(s.turn.procs[w].pc.result).value;
            ResultHolds(s.queue.jobs[s.queue.workers[w].job].(status := Succeeded, result := Some(payload)),
                        s.turn.consumed)
  {
    assert ProcResult(s.turn.procs[w], s.turn.consumed);
  }

  /** A report stores, on the job of its delivery alone, the next turn its delivery was handed, or that the interview is
      done. */
  lemma ReportIsStored(c: Config, me: string, s: Async, w: nat)
    requires AEnabled(c, me, s, Report(w))
    ensures var id, s' := s.queue.workers[w].job, AApply(c, me, s, Report(w));
            var result := s.turn.procs[w].pc.result;
            && (result.NextQuestion? || result.DoneResult?) && s'.turn == s.turn
            && s'.queue.jobs == s.queue.jobs[id := s.queue.jobs[id].(
                 status := Succeeded,
                 result := Some(if result.NextQuestion? then Payload(false, Some(result.turnId))
                                else Payload(true, None)))]
  {
    QueueLaws.MarkIsStored(s.queue, Succeed(w, PayloadOf(s.turn.procs[w].pc.result).value));
  }

  lemma ReportKeeps(c: Config, me: string, s: Async, e: AStep)
    requires AInv(c, me, s) && e.Report? && AEnabled(c, me, s, e)
    ensures AInv(c, me, AApply(c, me, s, e))
  {
    ReportIsTrue(c, me, s, e.w);
    QueueStepKeeps(c, me, s, Succeed(e.w, PayloadOf(s.turn.procs[e.w].pc.result).value));
  }

  // ----- steps of the turn machine -----

  predicate SameDeliveries(a: map<nat, Proc>, b: map<nat, Proc>) {
    && a.Keys == b.Keys
    && forall w :: w in a ==> b[w] == a[w].(pc := b[w].pc)
  }

  /** A step that stores no answer and uses up no turn. */
  ghost predicate Frame(s: System, s': System) {
    && SameDeliveries(s.procs, s'.procs)
    && s'.consumed == s.consumed && s'.db.answers == s.db.answers
  }

  lemma MoveFrames(s: System, pid: nat, pc: Pc, db: Db)
    requires pid in s.procs && db.answers == s.db.answers
    ensures Frame(s, WithDb(At(s, pid, pc), db))
  {
  }

  lemma ReadFrames(c: Config, s: System, e: Step)
    requires Enabled(c, s, e) && (e.ReadSession? || e.ReadFlowPointer? || e.ReadAreas? || e.ReadCurrentArea?)
    ensures Frame(s, Apply(c, s, e))
  {
    var s' := ApplyTurn(c, s, e);
    MoveFrames(s, e.pid, s'.procs[e.pid].pc, s.db);
    assert s' == At(s, e.pid, s'.procs[e.pid].pc);
  }

  lemma GuardFrames(c: Config, s: System, e: Step)
    requires Enabled(c, s, e) && (e.AlreadyDone? || e.RejectTurn? || e.TimeOut?)
    ensures Frame(s, Apply(c, s, e))
  {
    var s' := ApplyTurn(c, s, e);
    MoveFrames(s, e.pid, s'.procs[e.pid].pc, s.db);
    assert s' == At(s, e.pid, s'.procs[e.pid].pc);
  }

  lemma ExitFrames(c: Config, s: System, e: Step)
    requires Enabled(c, s, e) && (e.NoCurrentArea? || e.Refresh? || e.FailTurn?)
    ensures Frame(s, Apply(c, s, e))
  {
    var s' := ApplyTurn(c, s, e);
    MoveFrames(s, e.pid, s'.procs[e.pid].pc, s.db);
    assert s' == At(s, e.pid, s'.procs[e.pid].pc);
  }

  lemma WriteFrames(c: Config, s: System, e: Step)
    requires Enabled(c, s, e) && (e.MarkNotAssessed? || e.CloseFlow? || e.CompleteSession?)
    ensures Frame(s, Apply(c, s, e))
  {
    var s' := ApplyTurn(c, s, e);
    MoveFrames(s, e.pid, s'.procs[e.pid].pc, s'.db);
    assert s' == WithDb(At(s, e.pid, s'.procs[e.pid].pc), s'.db);
  }

  lemma StartRowFrames(c: Config, s: System, e: Step)
    requires Enabled(c, s, e) && (e.BeginStart? || e.CreateArea? || e.SetFirst?)
    ensures Frame(s, Apply(c, s, e))
  {
  }

  lemma StartFrames(c: Config, s: System, e: Step)
    requires Enabled(c, s, e) && IsStartStep(e)
    ensures Frame(s, Apply(c, s, e))
  {
    if e.BeginStart? || e.CreateArea? || e.SetFirst? {
      StartRowFrames(c, s, e);
    } else {
      assert ApplyStart(c, s, e).procs == s.procs;
      assert ApplyStart(c, s, e).db.answers == s.db.answers;
    }
  }

  lemma OtherFrames(c: Config, s: System, e: Step)
    requires Enabled(c, s, e) && !IsStartStep(e) && !e.BeginTurn? && !e.CommitTurn? && !e.AdvanceTurn?
    ensures Frame(s, Apply(c, s, e))
  {
    if e.ReadSession? || e.ReadFlowPointer? || e.ReadAreas? || e.ReadCurrentArea? {
      ReadFrames(c, s, e);
    } else if e.MarkNotAssessed? || e.CloseFlow? || e.CompleteSession? {
      WriteFrames(c, s, e);
    } else if e.NoCurrentArea? || e.Refresh? || e.FailTurn? {
      ExitFrames(c, s, e);
    } else {
      GuardFrames(c, s, e);
    }
  }

  /** What was recorded about a used-up turn is never overwritten. */
  ghost predicate HistoryGrows(a: map<string, Consumption>, b: map<string, Consumption>) {
    forall t :: t in a ==> t in b && b[t] == a[t]
  }

  /** A commit stores the answer its delivery carries, or nothing. */
  lemma CommitRecords(c: Config, s: System, e: Step)
    requires HistoryInv(s) && Enabled(c, s, e) && e.CommitTurn?
    ensures var s' := ApplyCommit(c, s, e);
            && SameDeliveries(s.procs, s'.procs) && HistoryGrows(s.consumed, s'.consumed)
            && (s'.db.answers == s.db.answers
                || exists row :: s'.db.answers == s.db.answers + [row] && RecordsProc(row, s.procs[e.pid]))
  {
    var p := s.procs[e.pid];
    var plan := PlanOf(c, p, e.reply, e.language, e.newId, e.now);
    PlannedAnswerRecords(c, p, e.reply, e.language, e.newId, e.now);
    PlanTakesTurn(c, p, e.reply, e.language, e.newId, e.now);
    TakenTurnIsNew(c, s, p);
    CommitAppends(s, e, plan, ApplyCommit(c, s, e));
  }

  lemma PlanTakesTurn(c: Config, p: Proc, reply: AiReply, language: string, newId: string, now: int)
    requires p.pc.Ready? && p.pc.snap.current.Some?
    ensures PlanOf(c, p, reply, language, newId, now).expectedTurn == p.turn
    ensures PlanOf(c, p, reply, language, newId, now).evaluation.Some?
  {
  }

  lemma CommitAppends(s: System, e: Step, plan: CommitParams, s': System)
    requires e.CommitTurn? && e.pid in s.procs && plan.expectedTurn == s.procs[e.pid].turn && plan.evaluation.Some?
    requires RecordsProc(AnswerOf(plan), s.procs[e.pid])
    requires Coalesce(s.db.session.expectedTurn) == s.procs[e.pid].turn ==> s.procs[e.pid].turn !in s.consumed
    requires match CommitOutcome(s.db, plan)
             case Committed(_) =>
               var next := if Blank(plan.nextArea) then None else Some(e.newId);
               s' == Consume(WithDb(At(s, e.pid, Refreshing(next)), Commit(s.db, plan)), s.procs[e.pid].turn,
                             Consumption(Criterion, next), e.newId)
             case TurnConflict => s' == At(s, e.pid, Finished(Conflict))
             case _ => s' == At(s, e.pid, Finished(Failed))
    ensures SameDeliveries(s.procs, s'.procs) && HistoryGrows(s.consumed, s'.consumed)
    ensures s'.db.answers == s.db.answers
            || exists row :: s'.db.answers == s.db.answers + [row] && RecordsProc(row, s.procs[e.pid])
  {
    if CommitOutcome(s.db, plan).Committed? {
      assert s'.db.answers == s.db.answers + [AnswerOf(plan)];
    }
  }

  /** A turn id that is still expected has not been used up. */
  lemma TakenTurnIsNew(c: Config, s: System, p: Proc)
    requires HistoryInv(s) && Admitted(c, p)
    ensures Coalesce(s.db.session.expectedTurn) == p.turn ==> p.turn !in s.consumed
  {
  }

  lemma AdvanceRecords(c: Config, s: System, e: Step)
    requires HistoryInv(s) && Enabled(c, s, e) && e.AdvanceTurn?
    ensures var s' := ApplyAdvance(c, s, e);
            SameDeliveries(s.procs, s'.procs) && HistoryGrows(s.consumed, s'.consumed) && s'.db.answers == s.db.answers
  {
    var plan := AdvanceOf(c, s.procs[e.pid], e.newId, e.now);
    TakenTurnIsNew(c, s, s.procs[e.pid]);
    AdvanceAppends(s, e, plan, ApplyAdvance(c, s, e));
  }

  lemma AdvanceAppends(s: System, e: Step, plan: AdvanceParams, s': System)
    requires e.AdvanceTurn? && e.pid in s.procs && plan.expectedTurn == s.procs[e.pid].turn
    requires Coalesce(s.db.session.expectedTurn) == s.procs[e.pid].turn ==> s.procs[e.pid].turn !in s.consumed
    requires match AdvanceOutcome(s.db, plan)
             case Committed(_) =>
               s' == Consume(WithDb(At(s, e.pid, Finished(NextQuestion(e.newId))), Advance(s.db, plan)),
                             s.procs[e.pid].turn, Consumption(plan.currentStep, Some(e.newId)), e.newId)
             case TurnConflict => s' == At(s, e.pid, Finished(Conflict))
             case _ => s' == At(s, e.pid, Finished(Failed))
    ensures SameDeliveries(s.procs, s'.procs) && HistoryGrows(s.consumed, s'.consumed) && s'.db.answers == s.db.answers
  {
  }

  /** No step but a commit stores an answer, and a commit stores the one its delivery carries; what was recorded
      about a used-up turn stays. */
  lemma TurnStepRecords(c: Config, s: System, e: Step)
    requires Inv(c, s) && Enabled(c, s, e) && !e.BeginTurn?
    ensures SameDeliveries(s.procs, Apply(c, s, e).procs) && HistoryGrows(s.consumed, Apply(c, s, e).consumed)
    ensures Apply(c, s, e).db.answers == s.db.answers
            || (e.CommitTurn? && exists row ::
                  Apply(c, s, e).db.answers == s.db.answers + [row] && RecordsProc(row, s.procs[e.pid]))
  {
    if IsStartStep(e) {
      StartFrames(c, s, e);
    } else if e.CommitTurn? {
      assert Apply(c, s, e) == ApplyCommit(c, s, e);
      CommitRecords(c, s, e);
    } else if e.AdvanceTurn? {
      assert Apply(c, s, e) == ApplyAdvance(c, s, e);
      AdvanceRecords(c, s, e);
    } else {
      OtherFrames(c, s, e);
    }
  }

  predicate RecordsProc(row: AnswerRow, p: Proc) {
    && row.turn == p.turn && row.questionText == p.question
    && ((row.transcriptEs == AnswerText(p.answer, "es") && row.transcriptEn == "")
        || (row.transcriptEs == "" && row.transcriptEn == AnswerText(p.answer, "en")))
  }

  lemma PlannedAnswerRecords(c: Config, p: Proc, reply: AiReply, language: string, newId: string, now: int)
    requires p.pc.Ready? && p.pc.snap.current.Some?
    ensures RecordsProc(AnswerOf(PlanOf(c, p, reply, language, newId, now)), p)
  {
    var text := AnswerText(p.answer, language);
    assert Trim("en") == "en" && Trim("es") == "es" by { TwoLetters('e', 'n'); TwoLetters('e', 's'); }
    PlaceholdersShow();
    assert !Blank(text);
    assert Lower("es")[1] == 's' && Lower("en")[1] == 'n';
    assert AnswerText(p.answer, if EqualFold(Trim(language), "en") then "en" else "es") == text;
  }

  lemma TwoLetters(a: char, b: char)
    requires !IsSpace(a) && !IsSpace(b)
    ensures Trim([a, b]) == [a, b]
  {
  }

  lemma PlaceholdersShow()
    ensures !Blank("[No response provided]") && !Blank("[No se proporciono respuesta]")
  {
  }

  lemma AnswersStayTraced(me: string, s: Async, pid: nat, row: AnswerRow)
    requires Traced(me, s.turn.procs, s.queue.jobs, s.jobOf) && AnswersTraced(me, s.turn.db.answers, s.queue.jobs)
    requires pid in s.turn.procs && RecordsProc(row, s.turn.procs[pid])
    ensures AnswersTraced(me, s.turn.db.answers + [row], s.queue.jobs)
  {
  }

  lemma OnTurnKeeps(c: Config, me: string, s: Async, e: AStep)
    requires ValidConfig(c) && AInv(c, me, s) && e.OnTurn? && AEnabled(c, me, s, e)
    ensures AInv(c, me, AApply(c, me, s, e))
  {
    StepKeepsInv(c, s.turn, e.e);
    TurnStepRecords(c, s.turn, e.e);
    var next := Apply(c, s.turn, e.e);
    if next.db.answers != s.turn.db.answers {
      var row :| next.db.answers == s.turn.db.answers + [row] && RecordsProc(row, s.turn.procs[e.e.pid]);
      AnswersStayTraced(me, s, e.e.pid, row);
    }
    ResultsOutlive(me, s.queue.jobs, s.turn.consumed, next.consumed);
    DeliveriesTraced(me, s, next.procs);
  }

  lemma DeliveriesTraced(me: string, s: Async, procs: map<nat, Proc>)
    requires Traced(me, s.turn.procs, s.queue.jobs, s.jobOf) && WorkersTraced(me, s.turn.procs, s.queue, s.jobOf)
    requires SameDeliveries(s.turn.procs, procs)
    ensures Traced(me, procs, s.queue.jobs, s.jobOf) && WorkersTraced(me, procs, s.queue, s.jobOf)
  {
  }

  lemma ResultsOutlive(me: string, jobs: JobTable, a: map<string, Consumption>, b: map<string, Consumption>)
    requires ResultsHold(me, jobs, a) && HistoryGrows(a, b)
    ensures ResultsHold(me, jobs, b)
  {
  }

  lemma AStepKeepsInv(c: Config, me: string, s: Async, e: AStep)
    requires ValidConfig(c) && AInv(c, me, s) && AEnabled(c, me, s, e)
    ensures AInv(c, me, AApply(c, me, s, e))
  {
    match e {
      case OnQueue(q) => QueueStepKeeps(c, me, s, q);
      case Deliver(_, _, _) => DeliverKeeps(c, me, s, e);
      case OnTurn(_) => OnTurnKeeps(c, me, s, e);
      case Report(_) => ReportKeeps(c, me, s, e);
    }
  }

  lemma {:induction false} ARunKeepsInv(c: Config, me: string, es: seq<AStep>)
    requires ValidConfig(c) && ARunnable(c, me, AsyncInit(c), es)
    ensures AInv(c, me, AAfter(c, me, AsyncInit(c), es))
    decreases |es|
  {
    if es == [] {
      InitInv(c);
    } else {
      ARunKeepsInv(c, me, es[..|es| - 1]);
      AStepKeepsInv(c, me, AAfter(c, me, AsyncInit(c), es[..|es| - 1]), es[|es| - 1]);
    }
  }

  // ----- what the whole system promises -----

  /** However jobs are duplicated, requeued, redelivered or marked late: a turn id has at most one stored answer,
      and that answer is, word for word, the one some job of the session carried for that turn. */
  lemma {:induction false} EachTurnIsAnsweredOnce(c: Config, me: string, es: seq<AStep>)
    requires ValidConfig(c) && ARunnable(c, me, AsyncInit(c), es)
    ensures var s := AAfter(c, me, AsyncInit(c), es);
            && AnswersMatch(s.turn.db.answers, s.turn.consumed)
            && AnswersTraced(me, s.turn.db.answers, s.queue.jobs)
            && 0 <= s.turn.db.session.lapsed <= c.budget
  {
    ARunKeepsInv(c, me, es);
  }

  /** A job that reads as succeeded and not done hands back the turn id installed by the commit that used up its own
      turn, and two such jobs for one turn hand back the same id. */
  lemma {:induction false} SucceededJobNamesItsSuccessor(c: Config, me: string, es: seq<AStep>, a: nat, b: nat)
    requires ValidConfig(c) && ARunnable(c, me, AsyncInit(c), es)
    requires var jobs := AAfter(c, me, AsyncInit(c), es).queue.jobs;
             && Ours(me, jobs, a) && jobs[a].status.Succeeded? && jobs[a].result.Some? && !jobs[a].result.value.done
             && Ours(me, jobs, b) && jobs[b].status.Succeeded? && jobs[b].result.Some? && !jobs[b].result.value.done
             && jobs[a].request.turn == jobs[b].request.turn
    ensures var s := AAfter(c, me, AsyncInit(c), es);
            var turn := s.queue.jobs[a].request.turn;
            && turn in s.turn.consumed
            && s.turn.consumed[turn].next == s.queue.jobs[a].result.value.nextTurn
            && s.turn.consumed[turn].next == s.queue.jobs[b].result.value.nextTurn
            && s.turn.consumed[turn].next.Some?
  {
    ARunKeepsInv(c, me, es);
    var s := AAfter(c, me, AsyncInit(c), es);
    assert ResultHolds(s.queue.jobs[a], s.turn.consumed);
    assert ResultHolds(s.queue.jobs[b], s.turn.consumed);
  }
}
