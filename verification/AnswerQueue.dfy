/** The durable queue of answer jobs: the statements that change job rows, and the workers
    that claim, retry, crash and mark them in any order. */
module AnswerQueue {
  import opened Text

  datatype JobStatus = Queued | Running | Succeeded | JobFailed | JobConflict | Canceled

  predicate Terminal(s: JobStatus) { !s.Queued? && !s.Running? }

  /** What a poll reads from a finished job: whether the interview is over, else the next turn id. */
  datatype Payload = Payload(done: bool, nextTurn: Option<string>)

  /** The part of a job its first upsert fixes for good. */
  datatype Request = Request(session: string, clientRequestId: string, turn: string, question: string, answer: string)

  datatype JobRow = JobRow(request: Request, lastRequestId: string, status: JobStatus, result: Option<Payload>,
                           attempts: nat, startedAt: Option<int>, createdAt: int)

  type JobTable = map<nat, JobRow>

  const MAX_ATTEMPTS: nat := 5
  const MAX_CALLS_PER_ROUND: nat := 3

  // ----- statements -----

  /** The unique index on session and client request id. */
  ghost predicate UniqueKeys(jobs: JobTable) {
    forall a, b :: a in jobs && b in jobs && SameKey(jobs[a].request, jobs[b].request) ==> a == b
  }

  predicate SameKey(a: Request, b: Request) {
    a.session == b.session && a.clientRequestId == b.clientRequestId
  }

  function NewJob(r: Request, lastRequestId: string, now: int): JobRow {
    JobRow(r.(question := NullIfEmpty(r.question)), NullIfEmpty(lastRequestId), Queued, None, 0, None, now)
  }

  function Touched(row: JobRow, lastRequestId: string): JobRow {
    if Blank(lastRequestId) then row else row.(lastRequestId := lastRequestId)
  }

  /** The table after an upsert, and the row it returns. */
  ghost predicate Upserted(before: JobTable, after: JobTable, r: Request, lastRequestId: string, newId: nat, now: int,
                           id: nat) {
    if exists h :: h in before && SameKey(before[h].request, r) then
      id in before && SameKey(before[id].request, r) && after == before[id := Touched(before[id], lastRequestId)]
    else id == newId && after == before[newId := NewJob(r, lastRequestId, now)]
  }

  function ClaimedRow(row: JobRow, now: int): JobRow {
    row.(status := Running, attempts := row.attempts + 1,
         startedAt := Some(if row.startedAt.Some? then row.startedAt.value else now))
  }

  predicate Stale(row: JobRow, staleBefore: int) {
    row.status.Running? && row.startedAt.Some? && row.startedAt.value < staleBefore
  }

  function Requeued(jobs: JobTable, staleBefore: int): JobTable {
    map id | id in jobs ::
      if Stale(jobs[id], staleBefore) then jobs[id].(status := Queued, startedAt := None) else jobs[id]
  }

  /** Only failure statuses can be stored as failures; anything else is stored as failed. */
  function FailureStatus(s: JobStatus): JobStatus {
    if s.JobFailed? || s.JobConflict? || s.Canceled? then s else JobFailed
  }

  /** Queued and not locked by another claim, and no older such job exists. */
  predicate IsOldestQueued(jobs: JobTable, locked: set<nat>, id: nat) {
    && id in jobs && jobs[id].status.Queued? && id !in locked
    && forall k :: k in jobs && jobs[k].status.Queued? && k !in locked ==> jobs[id].createdAt <= jobs[k].createdAt
  }

  lemma {:induction false} OldestExists(jobs: JobTable, candidates: set<nat>) returns (id: nat)
    requires candidates != {} && candidates <= jobs.Keys
    ensures id in candidates && forall k :: k in candidates ==> jobs[id].createdAt <= jobs[k].createdAt
    decreases |candidates|
  {
    var one :| one in candidates;
    var rest := candidates - {one};
    id := one;
    if rest != {} {
      var other := OldestExists(jobs, rest);
      if jobs[other].createdAt < jobs[one].createdAt { id := other; }
    }
    forall k | k in candidates
      ensures jobs[id].createdAt <= jobs[k].createdAt
    {
      assert k == one || k in rest;
    }
  }

  /** The job table, changed by one statement at a time. */
  class JobStore {
    var jobs: JobTable

    constructor ()
      ensures jobs == map[]
    {
      jobs := map[];
    }

    /** Creates a job or returns the existing one for its key; an existing job keeps its request. */
    method UpsertAnswerJob(r: Request, lastRequestId: string, newId: nat, now: int) returns (id: nat)
      requires newId !in jobs
      modifies this
      ensures id in jobs && Upserted(old(jobs), jobs, r, lastRequestId, newId, now, id)
    {
      if h :| h in jobs && SameKey(jobs[h].request, r) {
        id := h;
        jobs := jobs[h := Touched(jobs[h], lastRequestId)];
      } else {
        id := newId;
        jobs := jobs[newId := NewJob(r, lastRequestId, now)];
      }
    }

    /** Moves a queued job to running; returns nothing when it is already claimed or finished. */
    method ClaimQueuedAnswerJob(id: nat, now: int) returns (claimed: Option<JobRow>)
      modifies this
      ensures if id in old(jobs) && old(jobs)[id].status.Queued?
              then jobs == old(jobs)[id := ClaimedRow(old(jobs)[id], now)] && claimed == Some(jobs[id])
              else jobs == old(jobs) && claimed == None
    {
      claimed := None;
      if id in jobs && jobs[id].status == Queued {
        jobs := jobs[id := ClaimedRow(jobs[id], now)];
        claimed := Some(jobs[id]);
      }
    }

    /** Moves the oldest unlocked queued job to running; returns nothing exactly when there is none. */
    method ClaimNextQueuedAnswerJob(locked: set<nat>, now: int) returns (claimed: Option<nat>)
      modifies this
      ensures claimed.None? ==> jobs == old(jobs) && forall k :: k in jobs && jobs[k].status.Queued? ==> k in locked
      ensures claimed.Some? ==> IsOldestQueued(old(jobs), locked, claimed.value)
                                && jobs == old(jobs)[claimed.value := ClaimedRow(old(jobs)[claimed.value], now)]
    {
      var candidates := set k | k in jobs && jobs[k].status.Queued? && k !in locked;
      if candidates == {} {
        assert forall k :: k in jobs && jobs[k].status.Queued? ==> k in locked || k in candidates;
        return None;
      }
      ghost var oldest := OldestExists(jobs, candidates);
      assert IsOldestQueued(jobs, locked, oldest);
      var id :| id in jobs && IsOldestQueued(jobs, locked, id);
      jobs := jobs[id := ClaimedRow(jobs[id], now)];
      return Some(id);
    }

    method RequeueStaleRunningAnswerJobs(staleBefore: int) returns (count: nat)
      modifies this
      ensures jobs == Requeued(old(jobs), staleBefore)
      ensures jobs.Keys == old(jobs).Keys
      ensures forall id :: id in jobs ==>
                var row := old(jobs)[id];
                jobs[id] == if row.status == Running && row.startedAt.Some? && row.startedAt.value < staleBefore
                            then row.(status := Queued, startedAt := None) else row
      ensures count == |set id | id in old(jobs) && old(jobs)[id].status == Running
                                 && old(jobs)[id].startedAt.Some? && old(jobs)[id].startedAt.value < staleBefore|
    {
      var stale := set id | id in jobs && Stale(jobs[id], staleBefore);
      assert stale == set id | id in jobs && jobs[id].status == Running && jobs[id].startedAt.Some?
                               && jobs[id].startedAt.value < staleBefore;
      count := |stale|;
      jobs := map id | id in jobs :: if id in stale then jobs[id].(status := Queued, startedAt := None) else jobs[id];
    }

    /** Stores success whatever state the job is in. */
    method MarkAnswerJobSucceeded(id: nat, payload: Payload) returns (found: bool)
      modifies this
      ensures found <==> id in old(jobs)
      ensures jobs == if found then old(jobs)[id := old(jobs)[id].(status := Succeeded, result := Some(payload))]
              else old(jobs)
    {
      if id !in jobs { return false; }
      jobs := jobs[id := jobs[id].(status := Succeeded, result := Some(payload))];
      return true;
    }

    /** Stores failure whatever state the job is in. */
    method MarkAnswerJobFailed(id: nat, status: JobStatus) returns (found: bool)
      modifies this
      ensures found <==> id in old(jobs)
      ensures jobs == if found then old(jobs)[id := old(jobs)[id].(status := FailureStatus(status))] else old(jobs)
    {
      if id !in jobs { return false; }
      var stored := if status == JobFailed || status == JobConflict || status == Canceled then status else JobFailed;
      jobs := jobs[id := jobs[id].(status := stored)];
      return true;
    }

    method IncrementAnswerJobAttempts(id: nat) returns (found: bool)
      modifies this
      ensures found <==> id in old(jobs)
      ensures jobs == if found then old(jobs)[id := old(jobs)[id].(attempts := old(jobs)[id].attempts + 1)]
              else old(jobs)
    {
      if id !in jobs { return false; }
      jobs := jobs[id := jobs[id].(attempts := jobs[id].attempts + 1)];
      return true;
    }
  }

  // ----- calls to the model provider -----

  datatype CallOutcome = Answered | RetriesExhausted | Aborted

  /** One round of calls: the first answer or cut-short wait ends it, else the third failure does; every failure that
      is followed by a wait is also counted as an attempt of the job. `answers(k)` says whether call k succeeds,
      `cancels(k)` whether the wait after it is cut short. */
  ghost predicate Retried(answers: nat -> bool, cancels: nat -> bool, outcome: CallOutcome, calls: nat, counted: nat) {
    && 1 <= calls <= MAX_CALLS_PER_ROUND
    && (forall k :: 1 <= k < calls ==> !answers(k) && !cancels(k))
    && (outcome.Answered? <==> answers(calls))
    && (outcome.RetriesExhausted? <==> !answers(calls) && calls == MAX_CALLS_PER_ROUND)
    && (outcome.Aborted? <==> !answers(calls) && calls < MAX_CALLS_PER_ROUND && cancels(calls))
    && counted == if outcome.Aborted? then calls else calls - 1
  }

  method CallWithRetry(answers: nat -> bool, cancels: nat -> bool)
    returns (outcome: CallOutcome, calls: nat, counted: nat)
    ensures Retried(answers, cancels, outcome, calls, counted)
  {
    counted := 0;
    for attempt := 1 to MAX_CALLS_PER_ROUND + 1
      invariant counted == attempt - 1
      invariant forall k :: 1 <= k < attempt ==> !answers(k) && !cancels(k)
      invariant attempt <= MAX_CALLS_PER_ROUND
    {
      calls := attempt;
      if answers(attempt) {
        return Answered, calls, counted;
      }
      var retrying := attempt < MAX_CALLS_PER_ROUND;
      if retrying { counted := counted + 1; }
      if !retrying {
        return RetriesExhausted, calls, counted;
      }
      if cancels(attempt) {
        return Aborted, calls, counted;
      }
    }
    assert false;
  }

  // ----- workers -----

  /** What a delivery is about: a criterion turn has its answer evaluated, an area may be opened with a generated
      question, and then the turn is persisted. Only the first two call the provider. */
  datatype Stage = Evaluating | Opening | Persisting

  function NextStage(s: Stage): Stage { if s.Evaluating? then Opening else Persisting }

  function RoundsBefore(s: Stage): nat { match s case Evaluating => 0 case Opening => 1 case Persisting => 2 }

  /** One claim: `delivery` is the attempt number it was given, `failures` those of the current round of calls. */
  datatype Worker =
    | Delivering(job: nat, delivery: nat, stage: Stage, failures: nat)
    | Refusing(job: nat)
    | Over

  /** `calls` is the history of provider calls, per job and delivery. */
  datatype Queue = Queue(jobs: JobTable, workers: map<nat, Worker>, calls: map<(nat, nat), nat>)

  const EMPTY_QUEUE := Queue(map[], map[], map[])

  datatype QStep =
    | Submit(request: Request, lastRequestId: string, newId: nat, now: int, id: nat)
    | Claim(w: nat, id: nat, now: int)
    | CallProvider(w: nat, ok: bool, recorded: bool)
    | NoCallNeeded(w: nat)
    | Succeed(w: nat, payload: Payload)
    | Fail(w: nat, status: JobStatus)
    | Requeue(staleBefore: int)

  ghost predicate QEnabled(q: Queue, e: QStep) {
    match e
    case Submit(_, _, newId, _, id) => newId !in q.jobs && (id in q.jobs || id == newId)
                                       && (if exists h :: h in q.jobs && SameKey(q.jobs[h].request, e.request)
                                           then id in q.jobs && SameKey(q.jobs[id].request, e.request) else id == newId)
    case Claim(w, id, _) => w !in q.workers && id in q.jobs && q.jobs[id].status.Queued?
    case CallProvider(w, _, _) => w in q.workers && Calling(q.workers[w]) && q.workers[w].job in q.jobs
    case NoCallNeeded(w) => w in q.workers && Calling(q.workers[w]) && q.workers[w].failures == 0
    case Succeed(w, _) => w in q.workers && q.workers[w].Delivering? && q.workers[w].job in q.jobs
    case Fail(w, _) => w in q.workers && !q.workers[w].Over? && q.workers[w].job in q.jobs
    case Requeue(_) => true
  }

  function Incremented(jobs: JobTable, id: nat): JobTable {
    if id in jobs then jobs[id := jobs[id].(attempts := jobs[id].attempts + 1)] else jobs
  }

  predicate Calling(d: Worker) { d.Delivering? && !d.stage.Persisting? }

  predicate LastCall(d: Worker)
    requires d.Delivering?
  {
    d.failures + 1 >= MAX_CALLS_PER_ROUND
  }

  function Past(d: Worker): Worker
    requires d.Delivering?
  {
    d.(stage := NextStage(d.stage), failures := 0)
  }

  /** A round ends with an answer or with its third failure. */
  function Called(d: Worker, ok: bool): Worker
    requires d.Delivering?
  {
    if ok || LastCall(d) then Past(d) else d.(failures := d.failures + 1)
  }

  function CallsOf(q: Queue, job: nat, delivery: nat): nat {
    if (job, delivery) in q.calls then q.calls[(job, delivery)] else 0
  }

  ghost function QApply(q: Queue, e: QStep): Queue
    requires QEnabled(q, e)
  {
    match e
    case Submit(r, last, newId, now, id) =>
      q.(jobs := if id in q.jobs then q.jobs[id := Touched(q.jobs[id], last)]
                 else q.jobs[newId := NewJob(r, last, now)])
    case Claim(w, id, now) =>
      var row := ClaimedRow(q.jobs[id], now);
      if row.attempts > MAX_ATTEMPTS then
        Queue(q.jobs[id := row], q.workers[w := Refusing(id)], q.calls)
      else
        Queue(q.jobs[id := row], q.workers[w := Delivering(id, row.attempts, Evaluating, 0)],
              q.calls[(id, row.attempts) := 0])
    case CallProvider(w, ok, recorded) =>
      var d := q.workers[w];
      Queue(if !ok && !LastCall(d) && recorded then Incremented(q.jobs, d.job) else q.jobs,
            q.workers[w := Called(d, ok)],
            q.calls[(d.job, d.delivery) := CallsOf(q, d.job, d.delivery) + 1])
    case NoCallNeeded(w) => q.(workers := q.workers[w := Past(q.workers[w])])
    case Succeed(w, payload) =>
      var id := q.workers[w].job;
      Queue(q.jobs[id := q.jobs[id].(status := Succeeded, result := Some(payload))], q.workers[w := Over], q.calls)
    case Fail(w, status) =>
      var id := q.workers[w].job;
      Queue(q.jobs[id := q.jobs[id].(status := FailureStatus(status))], q.workers[w := Over], q.calls)
    case Requeue(staleBefore) => q.(jobs := Requeued(q.jobs, staleBefore))
  }

  ghost predicate QRunnable(q: Queue, es: seq<QStep>)
    decreases |es|, 0
  {
    es == [] || (QRunnable(q, es[..|es| - 1]) && QEnabled(QAfter(q, es[..|es| - 1]), es[|es| - 1]))
  }

  ghost function QAfter(q: Queue, es: seq<QStep>): Queue
    requires QRunnable(q, es)
    decreases |es|, 1
  {
    if es == [] then q else QApply(QAfter(q, es[..|es| - 1]), es[|es| - 1])
  }

  lemma {:induction false} RunOneMore(q: Queue, es: seq<QStep>, e: QStep)
    requires QRunnable(q, es) && QEnabled(QAfter(q, es), e)
    ensures QRunnable(q, es + [e]) && QAfter(q, es + [e]) == QApply(QAfter(q, es), e)
  {
  }

  // ----- invariant -----

  /** A queued job has not started; a running one has. */
  ghost predicate Shaped(row: JobRow) {
    && (row.status.Queued? ==> row.startedAt.None?)
    && (row.status.Running? ==> row.startedAt.Some? && row.attempts >= 1)
  }

  ghost predicate WorkerInv(q: Queue, w: Worker) {
    match w
    case Delivering(job, delivery, stage, failures) =>
      && job in q.jobs && 1 <= delivery <= MAX_ATTEMPTS && delivery <= q.jobs[job].attempts
      && failures < MAX_CALLS_PER_ROUND && (stage.Persisting? ==> failures == 0)
      && (job, delivery) in q.calls
      && q.calls[(job, delivery)] <= MAX_CALLS_PER_ROUND * RoundsBefore(stage) + failures
    case Refusing(job) => job in q.jobs
    case Over => true
  }

  predicate SameDelivery(a: Worker, b: Worker) {
    a.Delivering? && b.Delivering? && a.job == b.job && a.delivery == b.delivery
  }

  ghost predicate CallsInv(q: Queue) {
    forall k :: k in q.calls ==> k.0 in q.jobs && 1 <= k.1 <= MAX_ATTEMPTS && k.1 <= q.jobs[k.0].attempts
                                 && q.calls[k] <= MAX_CALLS_PER_ROUND * RoundsBefore(Persisting)
  }

  ghost predicate QInv(q: Queue) {
    && UniqueKeys(q.jobs)
    && (forall id :: id in q.jobs ==> Shaped(q.jobs[id]))
    && (forall w :: w in q.workers ==> WorkerInv(q, q.workers[w]))
    && (forall v, w :: v in q.workers && w in q.workers && v != w ==> !SameDelivery(q.workers[v], q.workers[w]))
    && CallsInv(q)
  }

  /** What no step undoes: the request of a job is fixed, its attempts only grow, a finished job stays finished. */
  ghost predicate RowAdvances(a: JobRow, b: JobRow) {
    && b.request == a.request && b.createdAt == a.createdAt
    && a.attempts <= b.attempts
    && (Terminal(a.status) ==> Terminal(b.status))
  }

  ghost predicate JobsAdvance(a: JobTable, b: JobTable) {
    forall id :: id in a ==> id in b && RowAdvances(a[id], b[id])
  }

  lemma StepAdvances(q: Queue, e: QStep)
    requires QEnabled(q, e)
    ensures JobsAdvance(q.jobs, QApply(q, e).jobs)
  {
  }

  /** One row changes, advancing; everything else stays. */
  lemma RowChangeKeeps(q: Queue, id: nat, row: JobRow)
    requires QInv(q) && id in q.jobs && RowAdvances(q.jobs[id], row) && Shaped(row)
    ensures QInv(q.(jobs := q.jobs[id := row]))
  {
  }

  lemma NewJobKeeps(q: Queue, id: nat, row: JobRow)
    requires QInv(q) && id !in q.jobs && row.status.Queued? && row.startedAt.None?
    requires forall h :: h in q.jobs ==> !SameKey(q.jobs[h].request, row.request)
    ensures QInv(q.(jobs := q.jobs[id := row]))
  {
  }

  lemma SubmitKeeps(q: Queue, e: QStep)
    requires QInv(q) && e.Submit? && QEnabled(q, e)
    ensures QInv(QApply(q, e))
  {
    if e.id in q.jobs {
      assert Shaped(q.jobs[e.id]);
      RowChangeKeeps(q, e.id, Touched(q.jobs[e.id], e.lastRequestId));
    } else {
      NewJobKeeps(q, e.newId, NewJob(e.request, e.lastRequestId, e.now));
    }
  }

  /** One worker changes, on a delivery no other worker has; the calls of no other delivery change. */
  lemma WorkerChangeKeeps(q: Queue, w: nat, d: Worker, calls: map<(nat, nat), nat>)
    requires QInv(q)
    requires forall v :: v in q.workers && v != w ==> !SameDelivery(q.workers[v], d)
    requires forall k :: k in q.calls ==>
                   k in calls && (calls[k] == q.calls[k] || (d.Delivering? && k == (d.job, d.delivery)))
    requires WorkerInv(Queue(q.jobs, q.workers[w := d], calls), d)
    requires CallsInv(Queue(q.jobs, q.workers[w := d], calls))
    ensures QInv(Queue(q.jobs, q.workers[w := d], calls))
  {
  }

  /** The attempt a claim gives out is one no worker was given before. */
  lemma NewDelivery(q: Queue, id: nat, delivery: nat)
    requires QInv(q) && id in q.jobs && delivery == q.jobs[id].attempts + 1
    ensures (id, delivery) !in q.calls
    ensures forall v :: v in q.workers ==> !SameDelivery(q.workers[v], Delivering(id, delivery, Evaluating, 0))
  {
  }

  lemma ClaimKeeps(q: Queue, e: QStep)
    requires QInv(q) && e.Claim? && QEnabled(q, e)
    ensures QInv(QApply(q, e))
  {
    var row := ClaimedRow(q.jobs[e.id], e.now);
    RowChangeKeeps(q, e.id, row);
    NewDelivery(q, e.id, row.attempts);
    var mid := q.(jobs := q.jobs[e.id := row]);
    if row.attempts > MAX_ATTEMPTS {
      WorkerChangeKeeps(mid, e.w, Refusing(e.id), q.calls);
    } else {
      WorkerChangeKeeps(mid, e.w, Delivering(e.id, row.attempts, Evaluating, 0), q.calls[(e.id, row.attempts) := 0]);
    }
  }

  lemma CallCounted(q: Queue, w: nat, ok: bool)
    requires QInv(q) && w in q.workers && Calling(q.workers[w])
    ensures var d := q.workers[w];
            var calls := q.calls[(d.job, d.delivery) := CallsOf(q, d.job, d.delivery) + 1];
            && WorkerInv(Queue(q.jobs, q.workers[w := Called(d, ok)], calls), Called(d, ok))
            && CallsInv(Queue(q.jobs, q.workers[w := Called(d, ok)], calls))
  {
    assert WorkerInv(q, q.workers[w]);
  }

  /** A call ends a round or adds a failure to it, so the calls of a delivery stay within its rounds. */
  lemma OneMoreCall(q: Queue, w: nat, ok: bool)
    requires QInv(q) && w in q.workers && Calling(q.workers[w])
    ensures var d := q.workers[w];
            QInv(Queue(q.jobs, q.workers[w := Called(d, ok)],
                       q.calls[(d.job, d.delivery) := CallsOf(q, d.job, d.delivery) + 1]))
  {
    var d := q.workers[w];
    CallCounted(q, w, ok);
    forall v | v in q.workers && v != w
      ensures !SameDelivery(q.workers[v], Called(d, ok))
    {
      assert !SameDelivery(q.workers[v], d);
    }
    WorkerChangeKeeps(q, w, Called(d, ok), q.calls[(d.job, d.delivery) := CallsOf(q, d.job, d.delivery) + 1]);
  }

  lemma FailureRecorded(q: Queue, id: nat, counts: bool) returns (mid: Queue)
    requires QInv(q)
    ensures mid == q.(jobs := if counts then Incremented(q.jobs, id) else q.jobs) && QInv(mid)
  {
    mid := q;
    if counts && id in q.jobs {
      var row := q.jobs[id].(attempts := q.jobs[id].attempts + 1);
      RowChangeKeeps(q, id, row);
      mid := q.(jobs := q.jobs[id := row]);
    }
  }

  lemma CallMade(q: Queue, w: nat, ok: bool, recorded: bool) returns (mid: Queue)
    requires QInv(q) && w in q.workers && Calling(q.workers[w])
    ensures mid == q.(jobs := if !ok && !LastCall(q.workers[w]) && recorded then Incremented(q.jobs, q.workers[w].job)
                      else q.jobs)
    ensures var d := mid.workers[w];
            QInv(Queue(mid.jobs, mid.workers[w := Called(d, ok)],
                       mid.calls[(d.job, d.delivery) := CallsOf(mid, d.job, d.delivery) + 1]))
  {
    mid := FailureRecorded(q, q.workers[w].job, !ok && !LastCall(q.workers[w]) && recorded);
    OneMoreCall(mid, w, ok);
  }

  lemma CallKeeps(q: Queue, e: QStep)
    requires QInv(q) && e.CallProvider? && QEnabled(q, e)
    ensures QInv(QApply(q, e))
  {
    var mid := CallMade(q, e.w, e.ok, e.recorded);
    var d := mid.workers[e.w];
    assert QApply(q, e) == Queue(mid.jobs, mid.workers[e.w := Called(d, e.ok)],
                                 mid.calls[(d.job, d.delivery) := CallsOf(mid, d.job, d.delivery) + 1]);
  }

  lemma SkipKeeps(q: Queue, e: QStep)
    requires QInv(q) && e.NoCallNeeded? && QEnabled(q, e)
    ensures QInv(QApply(q, e))
  {
    var d := q.workers[e.w];
    assert WorkerInv(q, d);
    forall v | v in q.workers && v != e.w
      ensures !SameDelivery(q.workers[v], Past(d))
    {
      assert !SameDelivery(q.workers[v], d);
    }
    WorkerChangeKeeps(q, e.w, Past(d), q.calls);
  }

  /** A mark finishes one job and ends one worker. */
  lemma MarkKeeps(q: Queue, w: nat, id: nat, row: JobRow)
    requires QInv(q) && w in q.workers && id in q.jobs && RowAdvances(q.jobs[id], row) && Terminal(row.status)
    ensures QInv(Queue(q.jobs[id := row], q.workers[w := Over], q.calls))
  {
    RowChangeKeeps(q, id, row);
    WorkerChangeKeeps(q.(jobs := q.jobs[id := row]), w, Over, q.calls);
  }

  lemma RequeuedAt(q: Queue, staleBefore: int, id: nat)
    requires QInv(q) && id in q.jobs
    ensures var row := Requeued(q.jobs, staleBefore)[id];
            Shaped(row) && row.request == q.jobs[id].request && row.attempts == q.jobs[id].attempts
  {
    assert Shaped(q.jobs[id]);
  }

  lemma RequeueKeeps(q: Queue, e: QStep)
    requires QInv(q) && e.Requeue? && QEnabled(q, e)
    ensures QInv(QApply(q, e))
  {
    var jobs := Requeued(q.jobs, e.staleBefore);
    forall id | id in q.jobs
      ensures Shaped(jobs[id]) && jobs[id].request == q.jobs[id].request && jobs[id].attempts == q.jobs[id].attempts
    {
      RequeuedAt(q, e.staleBefore, id);
    }
    forall w | w in q.workers
      ensures WorkerInv(q.(jobs := jobs), q.workers[w])
    {
      assert WorkerInv(q, q.workers[w]);
    }
  }

  lemma QStepKeepsInv(q: Queue, e: QStep)
    requires QInv(q) && QEnabled(q, e)
    ensures QInv(QApply(q, e))
  {
    match e {
      case Submit(_, _, _, _, _) => SubmitKeeps(q, e);
      case Claim(_, _, _) => ClaimKeeps(q, e);
      case CallProvider(_, _, _) => CallKeeps(q, e);
      case NoCallNeeded(_) => SkipKeeps(q, e);
      case Succeed(w, payload) =>
        var id := q.workers[w].job;
        MarkKeeps(q, w, id, q.jobs[id].(status := Succeeded, result := Some(payload)));
      case Fail(w, status) =>
        var id := q.workers[w].job;
        MarkKeeps(q, w, id, q.jobs[id].(status := FailureStatus(status)));
      case Requeue(_) => RequeueKeeps(q, e);
    }
  }

  lemma {:induction false} QRunKeepsInv(es: seq<QStep>)
    requires QRunnable(EMPTY_QUEUE, es)
    ensures QInv(QAfter(EMPTY_QUEUE, es))
    decreases |es|
  {
    if es != [] {
      QRunKeepsInv(es[..|es| - 1]);
      QStepKeepsInv(QAfter(EMPTY_QUEUE, es[..|es| - 1]), es[|es| - 1]);
    }
  }

  // ----- what the queue promises -----

  /** However long the run, a job keeps its request, its attempts never fall and once finished it stays finished,
      although the marks are unguarded and stale workers may still write. */
  lemma {:induction false} JobsOnlyAdvance(q: Queue, es: seq<QStep>)
    requires QRunnable(q, es)
    ensures JobsAdvance(q.jobs, QAfter(q, es).jobs)
    decreases |es|
  {
    if es != [] {
      var mid := QAfter(q, es[..|es| - 1]);
      JobsOnlyAdvance(q, es[..|es| - 1]);
      StepAdvances(mid, es[|es| - 1]);
      forall id | id in q.jobs
        ensures id in QAfter(q, es).jobs && RowAdvances(q.jobs[id], QAfter(q, es).jobs[id])
      {
        assert RowAdvances(q.jobs[id], mid.jobs[id]);
        assert RowAdvances(mid.jobs[id], QAfter(q, es).jobs[id]);
      }
    }
  }

  function TotalCalls(q: Queue, job: nat, upTo: nat): nat {
    if upTo == 0 then 0 else TotalCalls(q, job, upTo - 1) + CallsOf(q, job, upTo)
  }

  lemma {:induction false} CallsAddUp(q: Queue, job: nat, upTo: nat)
    requires CallsInv(q)
    ensures TotalCalls(q, job, upTo) <= 6 * upTo
  {
    if upTo > 0 { CallsAddUp(q, job, upTo - 1); }
  }

  /** The attempts of a job that reached a worker. */
  function Deliveries(q: Queue, job: nat): set<nat> {
    set k | k in q.calls && k.0 == job :: k.1
  }

  /** A job's turn is processed at most five times and costs at most thirty provider calls, however often it is
      requeued: its deliveries have distinct numbers up to five, and each makes two rounds of at most three calls. */
  lemma {:induction false} WorkIsBounded(es: seq<QStep>, job: nat)
    requires QRunnable(EMPTY_QUEUE, es)
    ensures var q := QAfter(EMPTY_QUEUE, es);
            && |Deliveries(q, job)| <= MAX_ATTEMPTS
            && (forall d: nat :: CallsOf(q, job, d) <= 6 && (CallsOf(q, job, d) > 0 ==> 1 <= d <= MAX_ATTEMPTS))
            && TotalCalls(q, job, MAX_ATTEMPTS) <= 30
  {
    QRunKeepsInv(es);
    FewDeliveries(QAfter(EMPTY_QUEUE, es), job);
    CallsAddUp(QAfter(EMPTY_QUEUE, es), job, MAX_ATTEMPTS);
  }

  lemma FewDeliveries(q: Queue, job: nat)
    requires CallsInv(q)
    ensures |Deliveries(q, job)| <= MAX_ATTEMPTS
    ensures forall d: nat :: CallsOf(q, job, d) <= 6 && (CallsOf(q, job, d) > 0 ==> 1 <= d <= MAX_ATTEMPTS)
  {
    assert Deliveries(q, job) <= {1, 2, 3, 4, 5};
    SubsetSize(Deliveries(q, job), {1, 2, 3, 4, 5});
  }

  lemma {:induction false} SubsetSize<T>(a: set<T>, b: set<T>)
    requires a <= b
    ensures |a| <= |b|
    decreases |a|
  {
    if |a| > 0 {
      var x :| x in a;
      SubsetSize(a - {x}, b - {x});
    }
  }

  // ----- a round of calls, as steps of its worker -----

  function CallSteps(w: nat, answers: nat -> bool, k: nat): seq<QStep> {
    if k == 0 then [] else CallSteps(w, answers, k - 1) + [CallProvider(w, answers(k), true)]
  }

  /** Some calls later: the worker where they took it, each call in the history, the counted failures on the job. */
  function AfterCalls(q: Queue, w: nat, worker: Worker, calls: nat, counted: nat): Queue
    requires w in q.workers && q.workers[w].Delivering? && q.workers[w].job in q.jobs
  {
    var d := q.workers[w];
    Queue(q.jobs[d.job := q.jobs[d.job].(attempts := q.jobs[d.job].attempts + counted)],
          q.workers[w := worker],
          if calls == 0 then q.calls else q.calls[(d.job, d.delivery) := CallsOf(q, d.job, d.delivery) + calls])
  }

  lemma CallAfterCalls(q: Queue, w: nat, k: nat, ok: bool)
    requires w in q.workers && Calling(q.workers[w]) && q.workers[w].job in q.jobs && k < MAX_CALLS_PER_ROUND
    ensures var d := q.workers[w].(failures := k);
            var e, before := CallProvider(w, ok, true), AfterCalls(q, w, d, k, k);
            && QEnabled(before, e)
            && QApply(before, e) == AfterCalls(q, w, Called(d, ok), k + 1, if ok || LastCall(d) then k else k + 1)
  {
    var d := q.workers[w].(failures := k);
    var e, before := CallProvider(w, ok, true), AfterCalls(q, w, d, k, k);
    assert QEnabled(before, e);
    assert CallsOf(before, d.job, d.delivery) == CallsOf(q, d.job, d.delivery) + k;
  }

  lemma {:induction false} FailuresAreARun(q: Queue, w: nat, answers: nat -> bool, k: nat)
    requires w in q.workers && Calling(q.workers[w]) && q.workers[w].failures == 0 && q.workers[w].job in q.jobs
    requires k < MAX_CALLS_PER_ROUND && forall i :: 1 <= i <= k ==> !answers(i)
    ensures QRunnable(q, CallSteps(w, answers, k))
    ensures QAfter(q, CallSteps(w, answers, k)) == AfterCalls(q, w, q.workers[w].(failures := k), k, k)
  {
    if k == 0 {
      assert AfterCalls(q, w, q.workers[w], 0, 0) == q;
    } else {
      FailuresAreARun(q, w, answers, k - 1);
      CallAfterCalls(q, w, k - 1, false);
      RunOneMore(q, CallSteps(w, answers, k - 1), CallProvider(w, false, true));
    }
  }

  /** The retry loop is the run of its calls: an answered or exhausted round takes its worker to the next stage, an
      aborted one leaves it there with its failures; every call is in the history, every counted failure on the job. */
  lemma RetryIsARun(q: Queue, w: nat, answers: nat -> bool, cancels: nat -> bool,
                    outcome: CallOutcome, calls: nat, counted: nat)
    requires w in q.workers && Calling(q.workers[w]) && q.workers[w].failures == 0 && q.workers[w].job in q.jobs
    requires Retried(answers, cancels, outcome, calls, counted)
    ensures QRunnable(q, CallSteps(w, answers, calls))
    ensures var d := q.workers[w];
            QAfter(q, CallSteps(w, answers, calls))
            == AfterCalls(q, w, if outcome.Aborted? then d.(failures := calls) else Past(d), calls, counted)
  {
    FailuresAreARun(q, w, answers, calls - 1);
    CallAfterCalls(q, w, calls - 1, answers(calls));
    RunOneMore(q, CallSteps(w, answers, calls - 1), CallProvider(w, answers(calls), true));
  }

  // ----- attempts and marks, over whole runs -----

  /** A claim of the job, or a recorded failure of a call for it that is not the last of its round. */
  ghost predicate AddsAttempt(q: Queue, e: QStep, id: nat)
    requires QEnabled(q, e)
  {
    || (e.Claim? && e.id == id)
    || (e.CallProvider? && !e.ok && e.recorded && q.workers[e.w].job == id && !LastCall(q.workers[e.w]))
  }

  ghost function AttemptsMade(q: Queue, es: seq<QStep>, id: nat): nat
    requires QRunnable(q, es)
    decreases |es|
  {
    if es == [] then 0
    else
      var init, last := es[..|es| - 1], es[|es| - 1];
      AttemptsMade(q, init, id) + if AddsAttempt(QAfter(q, init), last, id) then 1 else 0
  }

  /** A job's attempts are exactly its claims and its recorded failed calls that were to be retried. */
  lemma {:induction false} AttemptsAreTallied(es: seq<QStep>, id: nat)
    requires QRunnable(EMPTY_QUEUE, es)
    ensures var jobs := QAfter(EMPTY_QUEUE, es).jobs;
            AttemptsMade(EMPTY_QUEUE, es, id) == if id in jobs then jobs[id].attempts else 0
    decreases |es|
  {
    if es != [] {
      var init := es[..|es| - 1];
      AttemptsAreTallied(init, id);
      AttemptTallied(QAfter(EMPTY_QUEUE, init), es[|es| - 1], id);
    }
  }

  lemma AttemptTallied(q: Queue, e: QStep, id: nat)
    requires QEnabled(q, e)
    ensures var before := if id in q.jobs then q.jobs[id].attempts else 0;
            var jobs := QApply(q, e).jobs;
            (if id in jobs then jobs[id].attempts else 0) == before + if AddsAttempt(q, e, id) then 1 else 0
  {
  }

  /** The invariant is kept from wherever it holds. */
  lemma {:induction false} QRunFrom(q: Queue, es: seq<QStep>)
    requires QInv(q) && QRunnable(q, es)
    ensures QInv(QAfter(q, es))
    decreases |es|
  {
    if es != [] {
      QRunFrom(q, es[..|es| - 1]);
      QStepKeepsInv(QAfter(q, es[..|es| - 1]), es[|es| - 1]);
    }
  }

  lemma FinishedRowStep(q: Queue, e: QStep, id: nat)
    requires QEnabled(q, e) && id in q.jobs && Terminal(q.jobs[id].status)
    ensures e.Claim? ==> e.id != id
    ensures id in QApply(q, e).jobs && Terminal(QApply(q, e).jobs[id].status)
    ensures QApply(q, e).jobs[id].request == q.jobs[id].request
    ensures QApply(q, e).jobs[id].startedAt == q.jobs[id].startedAt
  {
  }

  lemma {:induction false} FinishedRow(q: Queue, es: seq<QStep>, id: nat)
    requires QRunnable(q, es) && id in q.jobs && Terminal(q.jobs[id].status)
    ensures id in QAfter(q, es).jobs && Terminal(QAfter(q, es).jobs[id].status)
    ensures QAfter(q, es).jobs[id].request == q.jobs[id].request
    ensures QAfter(q, es).jobs[id].startedAt == q.jobs[id].startedAt
    decreases |es|
  {
    if es != [] {
      FinishedRow(q, es[..|es| - 1], id);
      FinishedRowStep(QAfter(q, es[..|es| - 1]), es[|es| - 1], id);
    }
  }

  lemma {:induction false} NeverClaimedAgain(q: Queue, es: seq<QStep>, id: nat, i: nat)
    requires QRunnable(q, es) && id in q.jobs && Terminal(q.jobs[id].status) && i < |es| && es[i].Claim?
    ensures es[i].id != id
    decreases |es|
  {
    var init := es[..|es| - 1];
    if i < |init| {
      assert init[i] == es[i];
      NeverClaimedAgain(q, init, id, i);
    } else {
      FinishedRow(q, init, id);
      FinishedRowStep(QAfter(q, init), es[i], id);
    }
  }

  lemma DeliveriesStep(q: Queue, e: QStep, id: nat)
    requires QInv(q) && QEnabled(q, e) && (e.Claim? ==> e.id != id)
    ensures Deliveries(QApply(q, e), id) == Deliveries(q, id)
  {
    if e.CallProvider? { assert WorkerInv(q, q.workers[e.w]); }
  }

  lemma {:induction false} NoNewDelivery(q: Queue, es: seq<QStep>, id: nat)
    requires QInv(q) && QRunnable(q, es) && id in q.jobs && Terminal(q.jobs[id].status)
    ensures Deliveries(QAfter(q, es), id) == Deliveries(q, id)
    decreases |es|
  {
    if es != [] {
      var init := es[..|es| - 1];
      NoNewDelivery(q, init, id);
      QRunFrom(q, init);
      if es[|es| - 1].Claim? { NeverClaimedAgain(q, es, id, |es| - 1); }
      DeliveriesStep(QAfter(q, init), es[|es| - 1], id);
    }
  }

  /** Once a mark has finished a job, no later step claims it or makes it wait again, and no new delivery of it
      starts. */
  lemma {:induction false} MarkedForGood(q: Queue, es: seq<QStep>, id: nat)
    requires QInv(q) && QRunnable(q, es) && id in q.jobs && Terminal(q.jobs[id].status)
    ensures forall i :: 0 <= i < |es| && es[i].Claim? ==> es[i].id != id
    ensures id in QAfter(q, es).jobs && Terminal(QAfter(q, es).jobs[id].status)
    ensures QAfter(q, es).jobs[id].request == q.jobs[id].request
    ensures QAfter(q, es).jobs[id].startedAt == q.jobs[id].startedAt
    ensures Deliveries(QAfter(q, es), id) == Deliveries(q, id)
  {
    forall i | 0 <= i < |es| && es[i].Claim?
      ensures es[i].id != id
    {
      NeverClaimedAgain(q, es, id, i);
    }
    FinishedRow(q, es, id);
    NoNewDelivery(q, es, id);
  }

  // ----- from one terminal status to another -----

  predicate IsMark(e: QStep) { e.Succeed? || e.Fail? }

  /** The status a mark stores. */
  function MarkedStatus(e: QStep): JobStatus
    requires IsMark(e)
  {
    if e.Succeed? then Succeeded else FailureStatus(e.status)
  }

  /** A mark by a worker still on the job that stores another status than the present one. */
  predicate Overwrites(q: Queue, e: QStep, id: nat) {
    && id in q.jobs && IsMark(e)
    && e.w in q.workers && !q.workers[e.w].Over? && q.workers[e.w].job == id
    && MarkedStatus(e) != q.jobs[id].status
  }

  /** A step changes the status of a finished job if and only if it is such a mark. */
  lemma FinishedStatusChangesIff(q: Queue, e: QStep, id: nat)
    requires QEnabled(q, e) && id in q.jobs && Terminal(q.jobs[id].status)
    ensures id in QApply(q, e).jobs
    ensures QApply(q, e).jobs[id].status != q.jobs[id].status <==> Overwrites(q, e, id)
  {
  }

  /** The job has the status it started with after every prefix of the run. */
  ghost predicate KeepsStatus(q: Queue, es: seq<QStep>, id: nat)
    requires QRunnable(q, es) && id in q.jobs
    decreases |es|
  {
    && (es == [] || KeepsStatus(q, es[..|es| - 1], id))
    && id in QAfter(q, es).jobs && QAfter(q, es).jobs[id].status == q.jobs[id].status
  }

  ghost predicate NeverOverwritten(q: Queue, es: seq<QStep>, id: nat)
    requires QRunnable(q, es)
    decreases |es|
  {
    es == [] ||
    (NeverOverwritten(q, es[..|es| - 1], id) && !Overwrites(QAfter(q, es[..|es| - 1]), es[|es| - 1], id))
  }

  /** The status of a finished job is fixed over a run exactly when no mark of the run overwrites it. */
  lemma {:induction false} FinishedStatusFixedIff(q: Queue, es: seq<QStep>, id: nat)
    requires QRunnable(q, es) && id in q.jobs && Terminal(q.jobs[id].status)
    ensures KeepsStatus(q, es, id) <==> NeverOverwritten(q, es, id)
    decreases |es|
  {
    if es != [] {
      var init := es[..|es| - 1];
      FinishedStatusFixedIff(q, init, id);
      FinishedRow(q, init, id);
      FinishedStatusChangesIff(QAfter(q, init), es[|es| - 1], id);
    }
  }

  ghost predicate RunsTo(es: seq<QStep>, q: Queue) {
    QRunnable(EMPTY_QUEUE, es) && QAfter(EMPTY_QUEUE, es) == q
  }

  lemma Take(es: seq<QStep>, q: Queue, e: QStep, q': Queue) returns (more: seq<QStep>)
    requires RunsTo(es, q) && QEnabled(q, e) && q' == QApply(q, e)
    ensures more == es + [e] && RunsTo(more, q')
  {
    RunOneMore(EMPTY_QUEUE, es, e);
    more := es + [e];
  }

  function OnlyJob(status: JobStatus, attempts: nat, startedAt: Option<int>, result: Option<Payload>): JobTable {
    map[0 := JobRow(Request("s", "k", "t", "q", "a"), "", status, result, attempts, startedAt, 0)]
  }

  function On(attempt: nat): Worker { Delivering(0, attempt, Evaluating, 0) }

  lemma ClaimedOnce() returns (es: seq<QStep>)
    ensures RunsTo(es, Queue(OnlyJob(Running, 1, Some(0), None), map[0 := On(1)], map[(0, 1) := 0]))
  {
    assert RunsTo([], EMPTY_QUEUE) && !Blank("q") && Blank("");
    var submitted := Queue(OnlyJob(Queued, 0, None, None), map[], map[]);
    es := Take([], EMPTY_QUEUE, Submit(Request("s", "k", "t", "q", "a"), "", 0, 0, 0), submitted);
    es := Take(es, submitted, Claim(0, 0, 0),
               Queue(OnlyJob(Running, 1, Some(0), None), map[0 := On(1)], map[(0, 1) := 0]));
  }

  /** One job claimed twice, its first delivery having gone stale while still at work. */
  lemma ClaimedTwice() returns (es: seq<QStep>)
    ensures RunsTo(es, Queue(OnlyJob(Running, 2, Some(2), None), map[0 := On(1), 1 := On(2)],
                             map[(0, 1) := 0, (0, 2) := 0]))
  {
    es := ClaimedOnce();
    var claimed := Queue(OnlyJob(Running, 1, Some(0), None), map[0 := On(1)], map[(0, 1) := 0]);
    var requeued := Queue(OnlyJob(Queued, 1, None, None), map[0 := On(1)], map[(0, 1) := 0]);
    assert Requeued(claimed.jobs, 1) == requeued.jobs;
    es := Take(es, claimed, Requeue(1), requeued);
    es := Take(es, requeued, Claim(1, 0, 2),
               Queue(OnlyJob(Running, 2, Some(2), None), map[0 := On(1), 1 := On(2)], map[(0, 1) := 0, (0, 2) := 0]));
  }

  /** A run in which a job that has succeeded becomes a conflict. */
  lemma FinishedStatusCanChange() returns (es: seq<QStep>)
    ensures |es| > 0 && QRunnable(EMPTY_QUEUE, es) && QRunnable(EMPTY_QUEUE, es[..|es| - 1])
    ensures var before, after := QAfter(EMPTY_QUEUE, es[..|es| - 1]), QAfter(EMPTY_QUEUE, es);
            && 0 in before.jobs && before.jobs[0].status == Succeeded
            && 0 in after.jobs && after.jobs[0].status == JobConflict
  {
    es := ClaimedTwice();
    var q := Queue(OnlyJob(Running, 2, Some(2), None), map[0 := On(1), 1 := On(2)], map[(0, 1) := 0, (0, 2) := 0]);
    var payload := Payload(false, Some("next"));
    var succeeded := Queue(OnlyJob(Succeeded, 2, Some(2), Some(payload)), map[0 := Over, 1 := On(2)], q.calls);
    es := Take(es, q, Succeed(0, payload), succeeded);
    var conflict := Queue(OnlyJob(JobConflict, 2, Some(2), Some(payload)), map[0 := Over, 1 := Over], q.calls);
    var all := Take(es, succeeded, Fail(1, JobConflict), conflict);
    assert all[..|all| - 1] == es;
    es := all;
  }

  /** Queued means not started and running means started, after every run. */
  lemma {:induction false} QueueIsShaped(es: seq<QStep>, id: nat)
    requires QRunnable(EMPTY_QUEUE, es) && id in QAfter(EMPTY_QUEUE, es).jobs
    ensures var row := QAfter(EMPTY_QUEUE, es).jobs[id];
            (row.status.Queued? ==> row.startedAt.None?) && (row.status.Running? ==> row.startedAt.Some?)
  {
    QRunKeepsInv(es);
    assert Shaped(QAfter(EMPTY_QUEUE, es).jobs[id]);
  }

  /** Steps the queue can always take to finish a job: no hint is needed, a requeue, a claim and a mark suffice. */
  lemma {:induction false} NoJobIsStuck(es: seq<QStep>, id: nat, w: nat) returns (rest: seq<QStep>)
    requires QRunnable(EMPTY_QUEUE, es) && id in QAfter(EMPTY_QUEUE, es).jobs && w !in QAfter(EMPTY_QUEUE, es).workers
    ensures |rest| <= 3 && QRunnable(QAfter(EMPTY_QUEUE, es), rest)
    ensures id in QAfter(QAfter(EMPTY_QUEUE, es), rest).jobs
            && Terminal(QAfter(QAfter(EMPTY_QUEUE, es), rest).jobs[id].status)
  {
    QRunKeepsInv(es);
    var q := QAfter(EMPTY_QUEUE, es);
    assert Shaped(q.jobs[id]);
    rest := [];
    if q.jobs[id].status.Running? {
      rest := RequeueFrees(q, id);
    }
    if !Terminal(q.jobs[id].status) {
      rest := ClaimAndMark(q, rest, id, w);
    }
  }

  lemma RequeueFrees(q: Queue, id: nat) returns (rest: seq<QStep>)
    requires id in q.jobs && q.jobs[id].status.Running? && q.jobs[id].startedAt.Some?
    ensures |rest| == 1 && QRunnable(q, rest) && QAfter(q, rest).workers == q.workers
    ensures id in QAfter(q, rest).jobs && QAfter(q, rest).jobs[id].status.Queued?
  {
    rest := [Requeue(q.jobs[id].startedAt.value + 1)];
    RunOneMore(q, [], rest[0]);
    assert [] + [rest[0]] == rest;
  }

  lemma ClaimAndMark(q: Queue, rest: seq<QStep>, id: nat, w: nat) returns (all: seq<QStep>)
    requires QRunnable(q, rest) && w !in QAfter(q, rest).workers
    requires id in QAfter(q, rest).jobs && QAfter(q, rest).jobs[id].status.Queued?
    ensures |all| == |rest| + 2 && QRunnable(q, all)
    ensures id in QAfter(q, all).jobs && Terminal(QAfter(q, all).jobs[id].status)
  {
    var claim := Claim(w, id, 0);
    RunOneMore(q, rest, claim);
    var mark := Fail(w, JobFailed);
    RunOneMore(q, rest + [claim], mark);
    all := rest + [claim] + [mark];
  }

  ghost function ClaimsOf(q: Queue, es: seq<QStep>, id: nat): nat
    requires QRunnable(q, es)
    decreases |es|
  {
    if es == [] then 0
    else ClaimsOf(q, es[..|es| - 1], id) + if es[|es| - 1].Claim? && es[|es| - 1].id == id then 1 else 0
  }

  ghost predicate PutsBack(q: Queue, e: QStep, id: nat) {
    e.Requeue? && id in q.jobs && Stale(q.jobs[id], e.staleBefore)
  }

  ghost function TimesPutBack(q: Queue, es: seq<QStep>, id: nat): nat
    requires QRunnable(q, es)
    decreases |es|
  {
    if es == [] then 0
    else
      var init := es[..|es| - 1];
      TimesPutBack(q, init, id) + if PutsBack(QAfter(q, init), es[|es| - 1], id) then 1 else 0
  }

  predicate Unfinished(jobs: JobTable, id: nat) { id !in jobs || !Terminal(jobs[id].status) }

  predicate InHand(jobs: JobTable, id: nat) { id in jobs && jobs[id].status.Running? }

  lemma BalanceStep(q: Queue, e: QStep, id: nat)
    requires QEnabled(q, e) && Unfinished(QApply(q, e).jobs, id)
    ensures Unfinished(q.jobs, id)
    ensures (if InHand(QApply(q, e).jobs, id) then 1 else 0) + (if PutsBack(q, e, id) then 1 else 0)
            == (if InHand(q.jobs, id) then 1 else 0) + (if e.Claim? && e.id == id then 1 else 0)
  {
  }

  /** In every run a job not yet finished has been put back exactly as often as it was claimed, but for a claim still in
      hand: a claim ends in a mark, which finishes the job, or in a requeue, and in nothing else. */
  lemma {:induction false} ClaimsAreAnswered(es: seq<QStep>, id: nat)
    requires QRunnable(EMPTY_QUEUE, es) && Unfinished(QAfter(EMPTY_QUEUE, es).jobs, id)
    ensures ClaimsOf(EMPTY_QUEUE, es, id) ==
            TimesPutBack(EMPTY_QUEUE, es, id) + if InHand(QAfter(EMPTY_QUEUE, es).jobs, id) then 1 else 0
    decreases |es|
  {
    if es != [] {
      var init := es[..|es| - 1];
      BalanceStep(QAfter(EMPTY_QUEUE, init), es[|es| - 1], id);
      ClaimsAreAnswered(init, id);
    }
  }

  /** The queued jobs a fallback claim would take before this one. */
  ghost function Ahead(jobs: JobTable, id: nat): set<nat>
    requires id in jobs
  {
    set k | k in jobs && k != id && jobs[k].status.Queued? && jobs[k].createdAt <= jobs[id].createdAt
  }

  /** A claim of the fallback poll: it takes an oldest queued job. */
  ghost predicate FallbackClaim(q: Queue, e: QStep) { e.Claim? && IsOldestQueued(q.jobs, {}, e.id) }

  /** The job is queued after every prefix of the run. */
  ghost predicate Waits(q: Queue, es: seq<QStep>, id: nat)
    requires QRunnable(q, es)
    decreases |es|
  {
    && id in QAfter(q, es).jobs && QAfter(q, es).jobs[id].status.Queued?
    && (es == [] || Waits(q, es[..|es| - 1], id))
  }

  ghost function FallbackClaims(q: Queue, es: seq<QStep>): nat
    requires QRunnable(q, es)
    decreases |es|
  {
    if es == [] then 0
    else
      var init, last := es[..|es| - 1], es[|es| - 1];
      FallbackClaims(q, init) + if FallbackClaim(QAfter(q, init), last) then 1 else 0
  }

  /** How many jobs were put before this one during the run: older ones requeued, or submitted with an earlier time. */
  ghost function CutIns(q: Queue, es: seq<QStep>, id: nat): nat
    requires QRunnable(q, es) && Waits(q, es, id)
    decreases |es|
  {
    if es == [] then 0
    else
      var init := es[..|es| - 1];
      CutIns(q, init, id) + |Ahead(QAfter(q, es).jobs, id) - Ahead(QAfter(q, init).jobs, id)|
  }

  /** Every fallback claim either takes the job or takes one from before it. */
  lemma FallbackClaimMakesProgress(q: Queue, e: QStep, id: nat)
    requires QEnabled(q, e) && FallbackClaim(q, e)
    requires id in q.jobs && q.jobs[id].status.Queued?
    ensures e.id == id || (e.id in Ahead(q.jobs, id) && Ahead(QApply(q, e).jobs, id) == Ahead(q.jobs, id) - {e.id})
  {
  }

  lemma LineAfter(q: Queue, e: QStep, id: nat)
    requires QEnabled(q, e) && id in q.jobs && q.jobs[id].status.Queued?
    requires id in QApply(q, e).jobs && QApply(q, e).jobs[id].status.Queued?
    ensures var before, after := Ahead(q.jobs, id), Ahead(QApply(q, e).jobs, id);
            (if FallbackClaim(q, e) then 1 else 0) + |after| <= |before| + |after - before|
  {
    var before, after := Ahead(q.jobs, id), Ahead(QApply(q, e).jobs, id);
    if FallbackClaim(q, e) {
      FallbackClaimMakesProgress(q, e, id);
      assert |before - {e.id}| == |before| - 1;
    } else {
      assert after == (after - before) + (after * before);
      SubsetSize(after * before, before);
      assert |after| == |after - before| + |after * before|;
    }
  }

  /** While a job waits, no more fallback claims are made than jobs stood before it or cut in. */
  lemma {:induction false} LineDrains(q: Queue, es: seq<QStep>, id: nat)
    requires QRunnable(q, es) && id in q.jobs && Waits(q, es, id)
    ensures FallbackClaims(q, es) + |Ahead(QAfter(q, es).jobs, id)| <= |Ahead(q.jobs, id)| + CutIns(q, es, id)
    decreases |es|
  {
    if es != [] {
      var init := es[..|es| - 1];
      LineDrains(q, init, id);
      LineAfter(QAfter(q, init), es[|es| - 1], id);
    }
  }

  function StaleJobs(jobs: JobTable, staleBefore: int): set<nat> {
    set id | id in jobs && Stale(jobs[id], staleBefore)
  }

  /** How many jobs the requeues of the run put back. */
  ghost function PutBack(q: Queue, es: seq<QStep>): nat
    requires QRunnable(q, es)
    decreases |es|
  {
    if es == [] then 0
    else
      var init, last := es[..|es| - 1], es[|es| - 1];
      PutBack(q, init) + if last.Requeue? then |StaleJobs(QAfter(q, init).jobs, last.staleBefore)| else 0
  }

  predicate IsEarly(e: QStep, createdAt: int) { e.Submit? && e.now <= createdAt }

  /** How many submissions of the run carry no later time than this. */
  function EarlySubmits(es: seq<QStep>, createdAt: int): nat {
    if es == [] then 0
    else EarlySubmits(es[..|es| - 1], createdAt) + if IsEarly(es[|es| - 1], createdAt) then 1 else 0
  }

  /** The jobs a step may put before another: those it requeues, or the one it submits early. */
  function MayCutIn(q: Queue, e: QStep, createdAt: int): set<nat> {
    if e.Requeue? then StaleJobs(q.jobs, e.staleBefore) else if IsEarly(e, createdAt) then {e.newId} else {}
  }

  lemma OnlyTheseCutIn(q: Queue, e: QStep, id: nat)
    requires QEnabled(q, e) && id in q.jobs && id in QApply(q, e).jobs
    ensures Ahead(QApply(q, e).jobs, id) - Ahead(q.jobs, id) <= MayCutIn(q, e, q.jobs[id].createdAt)
  {
  }

  lemma CutInStep(q: Queue, e: QStep, id: nat)
    requires QEnabled(q, e) && id in q.jobs && id in QApply(q, e).jobs
    ensures |Ahead(QApply(q, e).jobs, id) - Ahead(q.jobs, id)| <=
            (if e.Requeue? then |StaleJobs(q.jobs, e.staleBefore)| else 0)
            + (if IsEarly(e, q.jobs[id].createdAt) then 1 else 0)
  {
    OnlyTheseCutIn(q, e, id);
    SubsetSize(Ahead(QApply(q, e).jobs, id) - Ahead(q.jobs, id), MayCutIn(q, e, q.jobs[id].createdAt));
  }

  lemma {:induction false} CutInsAreFew(q: Queue, es: seq<QStep>, id: nat)
    requires QRunnable(q, es) && id in q.jobs && Waits(q, es, id)
    ensures CutIns(q, es, id) <= PutBack(q, es) + EarlySubmits(es, q.jobs[id].createdAt)
    decreases |es|
  {
    if es != [] {
      var init := es[..|es| - 1];
      CutInsAreFew(q, init, id);
      JobsOnlyAdvance(q, init);
      assert RowAdvances(q.jobs[id], QAfter(q, init).jobs[id]);
      CutInStep(QAfter(q, init), es[|es| - 1], id);
    }
  }

  /** The idle poll alone drains the queue: whatever else happens, by the time more fallback claims are made than jobs
      stood before this one, were put back by requeues or submitted with no later time, it has been
      taken or finished. */
  lemma FallbackDrainsTheQueue(q: Queue, es: seq<QStep>, id: nat)
    requires QRunnable(q, es) && id in q.jobs
    requires FallbackClaims(q, es) > |Ahead(q.jobs, id)| + PutBack(q, es) + EarlySubmits(es, q.jobs[id].createdAt)
    ensures !Waits(q, es, id)
  {
    if Waits(q, es, id) {
      LineDrains(q, es, id);
      CutInsAreFew(q, es, id);
    }
  }
}
