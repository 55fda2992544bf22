/** The browser's side of an answer: a submission is stored before it is sent, sent again after any reload, crash or
    time-out, and polled until it ends. */
module ClientOutbox {
  import opened Text
  import opened AnswerQueue

  // ----- the server's idempotency check -----

  /** The stored payload of a key and the one just sent mean the same. */
  predicate SamePayload(stored: Request, sent: Request) {
    && Trim(stored.turn) == Trim(sent.turn)
    && Trim(stored.answer) == Trim(sent.answer)
    && Trim(stored.question) == Trim(sent.question)
  }

  lemma NullIfEmptyTrims(s: string)
    ensures Trim(NullIfEmpty(s)) == Trim(s)
  {
  }

  datatype Reply = Accepted(key: string, job: nat) | IdempotencyConflict(key: string)

  function ReplyFor(jobs: JobTable, id: nat, sent: Request): Reply
    requires id in jobs
  {
    if SamePayload(jobs[id].request, sent) then Accepted(jobs[id].request.clientRequestId, id)
    else IdempotencyConflict(sent.clientRequestId)
  }

  /** Sending a payload under a key another payload already took is refused exactly when the two differ after
      trimming. */
  lemma ConflictIffPayloadDiffers(jobs: JobTable, mid: JobTable, after: JobTable, first: Request, second: Request,
                                  a: nat, b: nat)
    requires SameKey(first, second) && forall h :: h in jobs ==> !SameKey(jobs[h].request, first)
    requires exists last: string, id: nat, now: int :: id !in jobs && Upserted(jobs, mid, first, last, id, now, a)
    requires exists again: string, other: nat, later: int ::
               other !in mid && Upserted(mid, after, second, again, other, later, b)
    ensures b in after
            && (ReplyFor(after, b, second) ==
                if Trim(first.turn) == Trim(second.turn) && Trim(first.answer) == Trim(second.answer)
                   && Trim(first.question) == Trim(second.question)
                then Accepted(first.clientRequestId, a) else IdempotencyConflict(first.clientRequestId))
    ensures b == a
  {
    NullIfEmptyTrims(first.question);
    assert a in mid && SameKey(mid[a].request, second);
  }

  // ----- the polling loop -----

  const BACKOFF_MS: seq<nat> := [1000, 2000, 3000, 5000, 8000, 15000, 20000, 30000]

  datatype Poll =
    | InProgressReply
    | TransientFailure
    | SucceededReply
    | EndedReply(code: string)
    | Rejected(code: string)

  datatype PollOutcome = PollSucceeded | PollEnded(code: string) | TimedOut | CircuitOpen | PollCanceled

  /** The wait after a poll: the backoff of that attempt, jittered, and never under a quarter of a second. */
  function WaitAfter(attempt: nat, factor: real): (ms: nat)
    ensures ms >= 250
  {
    var base := BACKOFF_MS[if attempt < |BACKOFF_MS| then attempt else |BACKOFF_MS| - 1];
    var jittered := (base as real * factor + 0.5).Floor;
    if jittered < 250 then 250 else jittered
  }

  /** The wait is the backoff of that attempt, scaled and rounded to the nearest millisecond, once that is a quarter of
      a second; after the eighth attempt the backoff grows no further. */
  lemma WaitIsTheBackoff(attempt: nat, factor: real)
    ensures var base := if attempt == 0 then 1000 else if attempt == 1 then 2000 else if attempt == 2 then 3000
                        else if attempt == 3 then 5000 else if attempt == 4 then 8000 else if attempt == 5 then 15000
                        else if attempt == 6 then 20000 else 30000;
            var scaled := base as real * factor;
            var ms := WaitAfter(attempt, factor) as real;
            && (scaled >= 250.0 ==> scaled - 0.5 <= ms <= scaled + 0.5)
            && (scaled < 250.0 ==> ms == 250.0)
  {
  }

  /** The time gone when poll k is due: what the earlier polls took and the waits after them. */
  function Elapsed(lag: nat -> nat, factor: nat -> real, k: nat): nat {
    if k == 0 then 0 else Elapsed(lag, factor, k - 1) + lag(k - 1) + WaitAfter(k - 1, factor(k - 1))
  }

  predicate Conclusive(p: Poll) { !p.InProgressReply? && !p.TransientFailure? }

  /** The unbroken run of failures the first k polls end in. */
  function Streak(polls: nat -> Poll, k: nat): nat {
    if k == 0 || !polls(k - 1).TransientFailure? then 0 else Streak(polls, k - 1) + 1
  }

  /** Poll k - 1 settled it: the job ended, or the breaker opened. */
  predicate Settled(polls: nat -> Poll, breaker: nat, k: nat) {
    k > 0 && (Conclusive(polls(k - 1)) || Streak(polls, k) >= breaker)
  }

  /** Poll k is made: nothing settled it before, the page is there and time is left. */
  predicate IsMade(polls: nat -> Poll, lag: nat -> nat, factor: nat -> real, canceled: nat -> bool, timeout: nat,
                   breaker: nat, k: nat) {
    !Settled(polls, breaker, k) && !canceled(k) && Elapsed(lag, factor, k) < timeout
  }

  /** Polls a job until it ends, the time is up, the breaker opens or the page goes away. The stored submission is
      cleared only on success. */
  method PollAsyncAnswerJob(polls: nat -> Poll, lag: nat -> nat, factor: nat -> real, canceled: nat -> bool,
                            timeout: nat, breaker: nat)
    returns (outcome: PollOutcome, made: nat, cleared: bool)
    requires breaker > 0
    ensures 250 * made < timeout + 250
    ensures forall k :: 0 <= k < made ==> IsMade(polls, lag, factor, canceled, timeout, breaker, k)
    ensures cleared <==> outcome.PollSucceeded?
    ensures outcome.PollSucceeded? <==> made > 0 && polls(made - 1).SucceededReply?
    ensures forall code ::
              outcome == PollEnded(code)
              <==> made > 0 && (polls(made - 1) == EndedReply(code) || polls(made - 1) == Rejected(code))
    ensures outcome.CircuitOpen? <==> Streak(polls, made) >= breaker
    ensures outcome.PollCanceled? <==> !Settled(polls, breaker, made) && canceled(made)
    ensures outcome.TimedOut? <==>
            !Settled(polls, breaker, made) && !canceled(made) && Elapsed(lag, factor, made) >= timeout
  {
    var elapsed, failures := 0, 0;
    made, cleared := 0, false;
    while true
      invariant elapsed == Elapsed(lag, factor, made)
      invariant 250 * made <= elapsed && 250 * made < timeout + 250
      invariant forall k :: 0 <= k < made ==> IsMade(polls, lag, factor, canceled, timeout, breaker, k)
      invariant !Settled(polls, breaker, made)
      invariant failures == Streak(polls, made) < breaker
      invariant !cleared
      decreases timeout + 250 - 250 * made
    {
      if canceled(made) {
        return PollCanceled, made, false;
      }
      if elapsed >= timeout {
        return TimedOut, made, false;
      }
      var reply := polls(made);
      made := made + 1;
      match reply {
        case SucceededReply => return PollSucceeded, made, true;
        case EndedReply(code) => return PollEnded(code), made, false;
        case Rejected(code) => return PollEnded(code), made, false;
        case TransientFailure =>
          failures := failures + 1;
          if failures >= breaker {
            return CircuitOpen, made, false;
          }
        case InProgressReply => failures := 0;
      }
      elapsed := elapsed + lag(made - 1) + WaitAfter(made - 1, factor(made - 1));
    }
  }

  // ----- the outbox, many page loads and the server, interleaved -----

  /** What a page stores and sends; `job` is known once a submission was accepted. */
  datatype Pending = Pending(key: string, turn: string, answer: string, question: string, job: Option<nat>)

  /** A page run: waiting for the reply to its submission, or polling a job. */
  datatype Page = Submitting(pending: Pending) | Polling(pending: Pending, job: nat)

  /** `drawn` is the history of keys and what was first stored under them; `wire` holds submissions that may
      still reach the server, any number of times; `replies` those that may still reach a page. */
  datatype World = World(queue: Queue, stored: Option<Pending>, pages: map<nat, Page>, drawn: map<string, Pending>,
                         wire: set<Pending>, replies: set<Reply>)

  const FRESH_WORLD := World(EMPTY_QUEUE, None, map[], map[], {}, {})

  datatype WStep =
    | Ask(page: nat, key: string, turn: string, answer: string, question: string, kept: bool)
    | Recover(page: nat)
    | Arrive(pending: Pending, lastRequestId: string, newId: nat, now: int, id: nat)
    | Hear(page: nat, reply: Reply, kept: bool)
    | Clear
    | Elsewhere(e: QStep)

  function RequestOf(me: string, p: Pending): Request { Request(me, p.key, p.turn, p.question, p.answer) }

  function SubmitOf(me: string, e: WStep): QStep
    requires e.Arrive?
  {
    Submit(RequestOf(me, e.pending), e.lastRequestId, e.newId, e.now, e.id)
  }

  ghost predicate WEnabled(me: string, w: World, e: WStep) {
    match e
    case Ask(page, key, _, _, _, _) =>
      && page !in w.pages && key !in w.drawn
      && forall id :: id in w.queue.jobs && w.queue.jobs[id].request.session == me ==>
           w.queue.jobs[id].request.clientRequestId != key
    case Recover(page) => page !in w.pages && w.stored.Some?
    case Arrive(p, _, _, _, _) => p in w.wire && QEnabled(w.queue, SubmitOf(me, e))
    case Hear(page, reply, _) =>
      page in w.pages && w.pages[page].Submitting? && reply in w.replies && reply.key == w.pages[page].pending.key
    case Clear => true
    case Elsewhere(q) =>
      QEnabled(w.queue, q) && (q.Submit? && q.request.session == me ==> q.request.clientRequestId !in w.drawn)
  }

  /** A page submits what it holds, or polls straight away when the job is known. */
  function Opened(w: World, page: nat, p: Pending): World {
    if p.job.Some? then w.(pages := w.pages[page := Polling(p, p.job.value)])
    else w.(pages := w.pages[page := Submitting(p)], wire := w.wire + {p})
  }

  ghost function WApply(me: string, w: World, e: WStep): World
    requires WEnabled(me, w, e)
  {
    match e
    case Ask(page, key, turn, answer, question, kept) =>
      var p := Pending(key, turn, answer, question, None);
      Opened(w.(stored := if kept then Some(p) else None, drawn := w.drawn[key := p]), page, p)
    case Recover(page) => Opened(w, page, w.stored.value)
    case Arrive(p, _, _, _, id) =>
      var queue := QApply(w.queue, SubmitOf(me, e));
      w.(queue := queue, replies := w.replies + {ReplyFor(queue.jobs, id, RequestOf(me, p))})
    case Hear(page, reply, kept) =>
      if reply.Accepted? then
        var p := w.pages[page].pending.(key := reply.key, job := Some(reply.job));
        w.(pages := w.pages[page := Polling(p, reply.job)], stored := if kept then Some(p) else None)
      else w.(pages := w.pages - {page}, stored := None)
    case Clear => w.(stored := None)
    case Elsewhere(q) => w.(queue := QApply(w.queue, q))
  }

  ghost predicate WRunnable(me: string, w: World, es: seq<WStep>)
    decreases |es|, 0
  {
    es == [] || (WRunnable(me, w, es[..|es| - 1]) && WEnabled(me, WAfter(me, w, es[..|es| - 1]), es[|es| - 1]))
  }

  ghost function WAfter(me: string, w: World, es: seq<WStep>): World
    requires WRunnable(me, w, es)
    decreases |es|, 1
  {
    if es == [] then w else WApply(me, WAfter(me, w, es[..|es| - 1]), es[|es| - 1])
  }

  // ----- invariant -----

  /** The job of one of this browser's keys carries what was first stored under that key. */
  predicate JobCarries(me: string, r: Request, p: Pending) {
    r == RequestOf(me, p).(question := NullIfEmpty(p.question))
  }

  /** A submission is what was first stored under its key, and its job, if known, is that key's. */
  predicate Faithful(me: string, w: World, p: Pending) {
    && p.key in w.drawn && p == w.drawn[p.key].(job := p.job)
    && (p.job.Some? ==> HasJob(me, w.queue.jobs, p.key, p.job.value))
  }

  predicate HasJob(me: string, jobs: JobTable, key: string, id: nat) {
    id in jobs && jobs[id].request.session == me && jobs[id].request.clientRequestId == key
  }

  ghost predicate JobsCarry(me: string, w: World) {
    forall id ::
      id in w.queue.jobs && w.queue.jobs[id].request.session == me
      && w.queue.jobs[id].request.clientRequestId in w.drawn ==>
      JobCarries(me, w.queue.jobs[id].request, w.drawn[w.queue.jobs[id].request.clientRequestId])
  }

  predicate PageInv(me: string, w: World, page: Page) {
    Faithful(me, w, page.pending) && (page.Polling? ==> page.pending.job == Some(page.job))
  }

  predicate ReplyInv(me: string, w: World, r: Reply) {
    r.Accepted? && r.key in w.drawn && HasJob(me, w.queue.jobs, r.key, r.job)
  }

  ghost predicate WInv(me: string, w: World) {
    && QInv(w.queue)
    && JobsCarry(me, w)
    && (w.stored.Some? ==> Faithful(me, w, w.stored.value))
    && (forall p :: p in w.pages ==> PageInv(me, w, w.pages[p]))
    && (forall p :: p in w.wire ==> Faithful(me, w, p) && p.job.None?)
    && (forall r :: r in w.replies ==> ReplyInv(me, w, r))
  }

  /** The rest of the world when only the queue moves on. */
  lemma QueueMovesOn(me: string, w: World, queue: Queue)
    requires WInv(me, w) && QInv(queue) && JobsAdvance(w.queue.jobs, queue.jobs) && JobsCarry(me, w.(queue := queue))
    ensures WInv(me, w.(queue := queue))
  {
  }

  /** A step of the queue keeps the link between keys and payloads unless it submits under one of the browser's keys. */
  lemma QueueStepCarries(me: string, w: World, e: QStep)
    requires WInv(me, w) && QEnabled(w.queue, e)
    requires e.Submit? && e.request.session == me && e.request.clientRequestId in w.drawn ==>
               e.request == RequestOf(me, w.drawn[e.request.clientRequestId])
    ensures JobsCarry(me, w.(queue := QApply(w.queue, e)))
  {
    var jobs := QApply(w.queue, e).jobs;
    StepAdvances(w.queue, e);
    forall id | id in jobs && jobs[id].request.session == me && jobs[id].request.clientRequestId in w.drawn
      ensures JobCarries(me, jobs[id].request, w.drawn[jobs[id].request.clientRequestId])
    {
      if id in w.queue.jobs { assert RowAdvances(w.queue.jobs[id], jobs[id]); }
    }
  }

  lemma ElsewhereKeeps(me: string, w: World, e: QStep)
    requires WInv(me, w) && WEnabled(me, w, Elsewhere(e))
    ensures WInv(me, WApply(me, w, Elsewhere(e)))
  {
    QStepKeepsInv(w.queue, e);
    StepAdvances(w.queue, e);
    QueueStepCarries(me, w, e);
    QueueMovesOn(me, w, QApply(w.queue, e));
  }

  /** The job a submission reaches carries that very submission, so the check accepts it. */
  lemma ArrivalIsAccepted(me: string, w: World, e: WStep)
    requires WInv(me, w) && e.Arrive? && WEnabled(me, w, e)
    ensures var jobs := QApply(w.queue, SubmitOf(me, e)).jobs;
            ReplyFor(jobs, e.id, RequestOf(me, e.pending)) == Accepted(e.pending.key, e.id)
            && HasJob(me, jobs, e.pending.key, e.id)
  {
  }

  lemma ArriveKeeps(me: string, w: World, e: WStep)
    requires WInv(me, w) && e.Arrive? && WEnabled(me, w, e)
    ensures WInv(me, WApply(me, w, e))
  {
    var submit := SubmitOf(me, e);
    assert Faithful(me, w, e.pending);
    QStepKeepsInv(w.queue, submit);
    StepAdvances(w.queue, submit);
    QueueStepCarries(me, w, submit);
    QueueMovesOn(me, w, QApply(w.queue, submit));
    ArrivalIsAccepted(me, w, e);
  }

  lemma AskKeeps(me: string, w: World, e: WStep)
    requires WInv(me, w) && e.Ask? && WEnabled(me, w, e)
    ensures WInv(me, WApply(me, w, e))
  {
  }

  lemma HearKeeps(me: string, w: World, e: WStep)
    requires WInv(me, w) && e.Hear? && WEnabled(me, w, e)
    ensures WInv(me, WApply(me, w, e))
  {
    assert ReplyInv(me, w, e.reply) && PageInv(me, w, w.pages[e.page]);
  }

  lemma RecoverKeeps(me: string, w: World, e: WStep)
    requires WInv(me, w) && e.Recover? && WEnabled(me, w, e)
    ensures WInv(me, WApply(me, w, e))
  {
  }

  lemma ClearKeeps(me: string, w: World, e: WStep)
    requires WInv(me, w) && e.Clear? && WEnabled(me, w, e)
    ensures WInv(me, WApply(me, w, e))
  {
  }

  lemma WStepKeepsInv(me: string, w: World, e: WStep)
    requires WInv(me, w) && WEnabled(me, w, e)
    ensures WInv(me, WApply(me, w, e))
  {
    match e {
      case Ask(_, _, _, _, _, _) => AskKeeps(me, w, e);
      case Recover(_) => RecoverKeeps(me, w, e);
      case Arrive(_, _, _, _, _) => ArriveKeeps(me, w, e);
      case Hear(_, _, _) => HearKeeps(me, w, e);
      case Clear => ClearKeeps(me, w, e);
      case Elsewhere(q) => ElsewhereKeeps(me, w, q);
    }
  }

  lemma {:induction false} WRunKeepsInv(me: string, es: seq<WStep>)
    requires WRunnable(me, FRESH_WORLD, es)
    ensures WInv(me, WAfter(me, FRESH_WORLD, es))
    decreases |es|
  {
    if es != [] {
      WRunKeepsInv(me, es[..|es| - 1]);
      WStepKeepsInv(me, WAfter(me, FRESH_WORLD, es[..|es| - 1]), es[|es| - 1]);
    }
  }

  // ----- what a client can rely on -----

  /** However often a stored submission is sent, after any crash, reload or time-out, it is accepted, it always reaches
      the same job, and that job carries the turn, answer and question first stored under its key. */
  lemma {:induction false} ResendReachesTheSameJob(me: string, es: seq<WStep>, a: Reply, b: Reply)
    requires WRunnable(me, FRESH_WORLD, es) && a in WAfter(me, FRESH_WORLD, es).replies
             && b in WAfter(me, FRESH_WORLD, es).replies
    ensures var w := WAfter(me, FRESH_WORLD, es);
            && a.Accepted? && b.Accepted?
            && (a.key == b.key ==> a.job == b.job)
            && a.job in w.queue.jobs && a.key in w.drawn && JobCarries(me, w.queue.jobs[a.job].request, w.drawn[a.key])
  {
    WRunKeepsInv(me, es);
    var w := WAfter(me, FRESH_WORLD, es);
    assert ReplyInv(me, w, a) && ReplyInv(me, w, b);
    if a.key == b.key { assert SameKey(w.queue.jobs[a.job].request, w.queue.jobs[b.job].request); }
  }

  /** A page only ever polls the job of the submission it holds. */
  lemma {:induction false} PagesPollTheirOwnJob(me: string, es: seq<WStep>, page: nat)
    requires WRunnable(me, FRESH_WORLD, es) && page in WAfter(me, FRESH_WORLD, es).pages
             && WAfter(me, FRESH_WORLD, es).pages[page].Polling?
    ensures var w := WAfter(me, FRESH_WORLD, es);
            var p := w.pages[page];
            && p.pending.key in w.drawn && p.pending == w.drawn[p.pending.key].(job := Some(p.job))
            && p.job in w.queue.jobs && JobCarries(me, w.queue.jobs[p.job].request, w.drawn[p.pending.key])
  {
    WRunKeepsInv(me, es);
    assert PageInv(me, WAfter(me, FRESH_WORLD, es), WAfter(me, FRESH_WORLD, es).pages[page]);
  }

  // ----- a stored submission gets through -----

  lemma OneStepOn(me: string, w: World, es: seq<WStep>, e: WStep)
    requires WRunnable(me, w, es) && WEnabled(me, WAfter(me, w, es), e)
    ensures WRunnable(me, w, es + [e]) && WAfter(me, w, es + [e]) == WApply(me, WAfter(me, w, es), e)
  {
    assert (es + [e])[..|es|] == es;
  }

  /** The page polls a job that carries the submission. */
  predicate PollsFor(me: string, w: World, page: nat, p: Pending) {
    && page in w.pages && w.pages[page].Polling?
    && var id := w.pages[page].job;
       && id in w.queue.jobs
       && w.queue.jobs[id].request
          == Request(me, p.key, p.turn, if Blank(p.question) then "" else p.question, p.answer)
  }

  /** The id of the job a submission reaches. */
  ghost function JobReached(jobs: JobTable, r: Request, newId: nat): (id: nat)
    ensures if exists h :: h in jobs && SameKey(jobs[h].request, r)
            then id in jobs && SameKey(jobs[id].request, r) else id == newId
  {
    if h: nat :| h in jobs && SameKey(jobs[h].request, r) then h else newId
  }

  lemma HeardIsPolled(me: string, w: World, page: nat, p: Pending, id: nat)
    requires WInv(me, w) && page in w.pages && w.pages[page] == Submitting(p) && Accepted(p.key, id) in w.replies
    ensures WEnabled(me, w, Hear(page, Accepted(p.key, id), true))
    ensures PollsFor(me, WApply(me, w, Hear(page, Accepted(p.key, id), true)), page, p)
  {
    assert ReplyInv(me, w, Accepted(p.key, id)) && PageInv(me, w, w.pages[page]);
    assert JobCarries(me, w.queue.jobs[id].request, w.drawn[p.key]);
  }

  /** Whatever was lost before, a page that opens while a submission is stored can come to poll a job that carries it,
      by sending it and hearing the reply at most once. */
  lemma {:induction false} StoredSubmissionGetsThrough(me: string, es: seq<WStep>, page: nat, newId: nat, now: int)
    returns (rest: seq<WStep>)
    requires WRunnable(me, FRESH_WORLD, es)
    requires var w := WAfter(me, FRESH_WORLD, es);
             w.stored.Some? && page !in w.pages && newId !in w.queue.jobs
    ensures var w := WAfter(me, FRESH_WORLD, es);
            |rest| <= 3 && WRunnable(me, w, rest) && PollsFor(me, WAfter(me, w, rest), page, w.stored.value)
  {
    WRunKeepsInv(me, es);
    var w := WAfter(me, FRESH_WORLD, es);
    var p := w.stored.value;
    OneStepOn(me, w, [], Recover(page));
    rest := [] + [Recover(page)];
    var reopened := WAfter(me, w, rest);
    RecoverKeeps(me, w, Recover(page));
    if p.job.Some? {
      assert JobCarries(me, w.queue.jobs[p.job.value].request, w.drawn[p.key]);
    } else {
      var arrive := Arrive(p, "", newId, now, JobReached(w.queue.jobs, RequestOf(me, p), newId));
      OneStepOn(me, w, rest, arrive);
      ArriveKeeps(me, reopened, arrive);
      ArrivalIsAccepted(me, reopened, arrive);
      var arrived := WApply(me, reopened, arrive);
      HeardIsPolled(me, arrived, page, p, arrive.id);
      OneStepOn(me, w, rest + [arrive], Hear(page, Accepted(p.key, arrive.id), true));
      rest := rest + [arrive] + [Hear(page, Accepted(p.key, arrive.id), true)];
    }
  }
}
