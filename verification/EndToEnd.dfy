/** Browser, answer queue and interview together: what a page that polls its job can rely on. */
module EndToEnd {
  import opened Text
  import opened TurnStore
  import opened TurnMachine
  import opened TurnSafety
  import opened AnswerQueue
  import opened AsyncSystem
  import opened ClientOutbox

  /** One browser and one session around the shared queue. */
  datatype Whole = Whole(world: World, turn: System, jobOf: map<nat, nat>)

  datatype Move = Client(w: WStep) | Server(a: AStep)

  function Opening(c: Config): Whole { Whole(ClientOutbox.FRESH_WORLD, Init(c), map[]) }

  function ServerOf(x: Whole): Async { Async(x.turn, x.world.queue, x.jobOf) }

  /** Server steps that submit are those of other clients. */
  ghost predicate CanMove(c: Config, me: string, x: Whole, m: Move) {
    match m
    case Client(w) => !w.Elsewhere? && WEnabled(me, x.world, w)
    case Server(a) => AEnabled(c, me, ServerOf(x), a) && (a.OnQueue? ==> WEnabled(me, x.world, Elsewhere(a.q)))
  }

  ghost function Moved(c: Config, me: string, x: Whole, m: Move): Whole
    requires CanMove(c, me, x, m)
  {
    match m
    case Client(w) => x.(world := WApply(me, x.world, w))
    case Server(a) =>
      var s := AApply(c, me, ServerOf(x), a);
      Whole(x.world.(queue := s.queue), s.turn, s.jobOf)
  }

  ghost predicate CanRun(c: Config, me: string, ms: seq<Move>)
    decreases |ms|, 0
  {
    ms == [] || (CanRun(c, me, ms[..|ms| - 1]) && CanMove(c, me, Reached(c, me, ms[..|ms| - 1]), ms[|ms| - 1]))
  }

  ghost function Reached(c: Config, me: string, ms: seq<Move>): Whole
    requires CanRun(c, me, ms)
    decreases |ms|, 1
  {
    if ms == [] then Opening(c) else Moved(c, me, Reached(c, me, ms[..|ms| - 1]), ms[|ms| - 1])
  }

  ghost predicate WholeInv(c: Config, me: string, x: Whole) { WInv(me, x.world) && AInv(c, me, ServerOf(x)) }

  lemma ClientKeeps(c: Config, me: string, x: Whole, w: WStep)
    requires WholeInv(c, me, x) && CanMove(c, me, x, Client(w))
    ensures WholeInv(c, me, Moved(c, me, x, Client(w)))
  {
    WStepKeepsInv(me, x.world, w);
    var x' := Moved(c, me, x, Client(w));
    if w.Arrive? {
      QueueStepKeeps(c, me, ServerOf(x), SubmitOf(me, w));
      assert ServerOf(x') == ServerOf(x).(queue := QApply(x.world.queue, SubmitOf(me, w)));
    } else {
      assert ServerOf(x') == ServerOf(x);
    }
  }

  /** The queue step a server step takes, if any. */
  ghost function QueueStepOf(s: Async, a: AStep): Option<QStep> {
    match a
    case OnQueue(q) => Some(q)
    case Deliver(w, id, now) => Some(Claim(w, id, now))
    case OnTurn(_) => None
    case Report(w) =>
      if w in s.turn.procs && s.turn.procs[w].pc.Finished? && PayloadOf(s.turn.procs[w].pc.result).Some?
      then Some(Succeed(w, PayloadOf(s.turn.procs[w].pc.result).value)) else None
  }

  lemma ServerStepsTheQueue(c: Config, me: string, x: Whole, a: AStep)
    requires CanMove(c, me, x, Server(a))
    ensures var q := QueueStepOf(ServerOf(x), a);
            && (q.None? ==> AApply(c, me, ServerOf(x), a).queue == x.world.queue)
            && (q.Some? ==>
                  && WEnabled(me, x.world, Elsewhere(q.value))
                  && AApply(c, me, ServerOf(x), a).queue == QApply(x.world.queue, q.value))
  {
  }

  lemma ServerKeeps(c: Config, me: string, x: Whole, a: AStep)
    requires ValidConfig(c) && WholeInv(c, me, x) && CanMove(c, me, x, Server(a))
    ensures WholeInv(c, me, Moved(c, me, x, Server(a)))
  {
    AStepKeepsInv(c, me, ServerOf(x), a);
    ServerStepsTheQueue(c, me, x, a);
    var q := QueueStepOf(ServerOf(x), a);
    var x' := Moved(c, me, x, Server(a));
    assert ServerOf(x') == AApply(c, me, ServerOf(x), a);
    if q.Some? {
      ElsewhereKeeps(me, x.world, q.value);
      assert x'.world == WApply(me, x.world, Elsewhere(q.value));
    } else {
      assert x'.world == x.world;
    }
  }

  lemma {:induction false} ReachedKeepsInv(c: Config, me: string, ms: seq<Move>)
    requires ValidConfig(c) && CanRun(c, me, ms)
    ensures WholeInv(c, me, Reached(c, me, ms))
    decreases |ms|
  {
    if ms == [] {
      InitInv(c);
    } else {
      ReachedKeepsInv(c, me, ms[..|ms| - 1]);
      match ms[|ms| - 1] {
        case Client(w) => ClientKeeps(c, me, Reached(c, me, ms[..|ms| - 1]), w);
        case Server(a) => ServerKeeps(c, me, Reached(c, me, ms[..|ms| - 1]), a);
      }
    }
  }

  /** Whatever crashed, was resent, redelivered or requeued: when the job a page polls has succeeded without ending the
      interview, the page's own turn has been used up, the turn id it is handed is the one that took its place, and if
      the turn was a criterion turn exactly one answer is stored for it. */
  lemma {:induction false} PolledSuccessIsMyTurn(c: Config, me: string, ms: seq<Move>, page: nat)
    requires ValidConfig(c) && CanRun(c, me, ms)
    requires var x := Reached(c, me, ms);
             && page in x.world.pages && x.world.pages[page].Polling? && x.world.pages[page].job in x.world.queue.jobs
             && var row := x.world.queue.jobs[x.world.pages[page].job];
                row.status.Succeeded? && row.result.Some? && !row.result.value.done
    ensures var x := Reached(c, me, ms);
            var mine := x.world.pages[page].pending.turn;
            && mine in x.turn.consumed && x.turn.consumed[mine].next.Some?
            && x.turn.consumed[mine].next == x.world.queue.jobs[x.world.pages[page].job].result.value.nextTurn
            && (x.turn.consumed[mine].step.Criterion? ==>
                  exists i :: 0 <= i < |x.turn.db.answers| && x.turn.db.answers[i].turn == mine
                              && forall j :: 0 <= j < |x.turn.db.answers| && x.turn.db.answers[j].turn == mine ==>
                                   j == i)
  {
    ReachedKeepsInv(c, me, ms);
    var x := Reached(c, me, ms);
    var p := x.world.pages[page];
    assert PageInv(me, x.world, p);
    var row := x.world.queue.jobs[p.job];
    assert JobCarries(me, row.request, x.world.drawn[p.pending.key]);
    assert Ours(me, x.world.queue.jobs, p.job) && ResultHolds(row, x.turn.consumed);
    if x.turn.consumed[p.pending.turn].step.Criterion? {
      EveryUsedTurnHasItsAnswer(x.turn.db.answers, x.turn.consumed, p.pending.turn);
    }
  }

  /** As many answers as used criterion turns, all of different turns: so none of those turns lacks its answer. */
  lemma EveryUsedTurnHasItsAnswer(answers: seq<AnswerRow>, consumed: map<string, Consumption>, turn: string)
    requires AnswersMatch(answers, consumed) && turn in CriterionTurns(consumed)
    ensures exists i :: 0 <= i < |answers| && answers[i].turn == turn
                        && forall j :: 0 <= j < |answers| && answers[j].turn == turn ==> j == i
  {
    var turns := set i | 0 <= i < |answers| :: answers[i].turn;
    DistinctTurnsCount(answers);
    assert turns <= CriterionTurns(consumed);
    if turn !in turns {
      SubsetSize(turns, CriterionTurns(consumed) - {turn});
      assert false;
    }
  }

  lemma {:induction false} DistinctTurnsCount(answers: seq<AnswerRow>)
    requires forall i, j :: 0 <= i < j < |answers| ==> answers[i].turn != answers[j].turn
    ensures |set i | 0 <= i < |answers| :: answers[i].turn| == |answers|
  {
    if answers != [] {
      var init, last := answers[..|answers| - 1], answers[|answers| - 1];
      DistinctTurnsCount(init);
      var before := set i | 0 <= i < |init| :: init[i].turn;
      assert last.turn !in before;
      assert (set i | 0 <= i < |answers| :: answers[i].turn) == before + {last.turn};
    }
  }
}
