/** The promises of the interview, over every run of any number of interleaved deliveries and starts. */
module TurnTheorems {
  import opened Text
  import opened AreaConfigs
  import opened TurnPolicy
  import opened TurnStore
  import opened TurnMachine
  import opened TurnSafety

  /** Each issued turn id gets at most one answer, however often the answer is delivered, and the
      answers are exactly the criterion turn ids that were used up. */
  lemma {:induction false} ExactlyOnce(c: Config, es: seq<Step>)
    requires ValidConfig(c) && Runnable(c, Init(c), es)
    ensures var s := After(c, Init(c), es);
            && AnswersMatch(s.db.answers, s.consumed)
            && (s.db.session.expectedTurn.Some? ==> s.db.session.expectedTurn.value !in s.consumed)
  {
    RunKeepsInv(c, es);
  }

  /** The interview time charged never exceeds the session's budget. */
  lemma {:induction false} BudgetNeverOverrun(c: Config, es: seq<Step>)
    requires ValidConfig(c) && Runnable(c, Init(c), es)
    ensures 0 <= After(c, Init(c), es).db.session.lapsed <= c.budget
  {
    RunKeepsInv(c, es);
  }

  /** At most six answers per area are ever committed, and every area's count stays within its status's bound. */
  lemma {:induction false} AnswersAreBounded(c: Config, es: seq<Step>)
    requires ValidConfig(c) && Runnable(c, Init(c), es)
    ensures var db := After(c, Init(c), es).db;
            && |db.answers| == SumCounts(c.order, db.areas) <= MAX_QUESTIONS_PER_AREA * |c.order|
            && (forall s :: s in db.areas ==> db.areas[s].count <= MAX_QUESTIONS_PER_AREA)
            && (forall s :: s in db.areas && db.areas[s].status.InProgress? ==>
                db.areas[s].count < MAX_QUESTIONS_PER_AREA)
  {
    RunKeepsInv(c, es);
    var db := After(c, Init(c), es).db;
    SumCountsBounded(c.order, db.areas);
    forall s | s in db.areas
      ensures db.areas[s].count <= MAX_QUESTIONS_PER_AREA
              && (db.areas[s].status.InProgress? ==> db.areas[s].count < MAX_QUESTIONS_PER_AREA)
    {
      assert CountFits(db.areas[s]);
    }
  }

  // ----- termination -----

  /** The transaction a criterion step runs. */
  ghost function PlanAt(c: Config, s: System, e: Step): CommitParams
    requires e.CommitTurn? && Enabled(c, s, e)
  {
    PlanOf(c, s.procs[e.pid], e.reply, e.language, e.newId, e.now)
  }

  /** Whether a step stores an answer. */
  ghost predicate Commits(c: Config, s: System, e: Step)
    requires Enabled(c, s, e)
  {
    e.CommitTurn? && CommitOutcome(s.db, PlanAt(c, s, e)).Committed?
  }

  lemma CommitIsItsTransaction(c: Config, s: System, e: Step)
    requires Enabled(c, s, e) && Commits(c, s, e)
    ensures Apply(c, s, e).db == Commit(s.db, PlanAt(c, s, e))
  {
  }

  lemma PlanIsReady(c: Config, db: Db, p: Proc, e: Step, plan: CommitParams)
    requires ValidConfig(c) && DbInv(c, db) && ProcAgrees(p, db) && e.CommitTurn? && !Blank(e.newId)
    requires Admitted(c, p) && p.pc.snap.current.Some? && plan == PlanOf(c, p, e.reply, e.language, e.newId, e.now)
    requires CommitOutcome(db, plan).Committed?
    ensures GoodOrder(c.order) && CommitReady(c, db, p, plan)
    ensures plan.nextArea == "" || !Blank(plan.nextArea)
  {
    ValidOrder(c);
    CommitIsReady(c, db, p, e.reply, e.language, e.newId, e.now);
  }

  /** A committing step, seen as its transaction. */
  lemma TheCommit(c: Config, s: System, e: Step) returns (p: Proc, plan: CommitParams)
    requires ValidConfig(c) && Inv(c, s) && Enabled(c, s, e) && Commits(c, s, e)
    ensures p == s.procs[e.pid] && plan == PlanAt(c, s, e)
    ensures GoodOrder(c.order) && CommitReady(c, s.db, p, plan) && CommitOutcome(s.db, plan).Committed?
    ensures Apply(c, s, e).db == Commit(s.db, plan)
    ensures plan.nextArea == "" || !Blank(plan.nextArea)
  {
    p := s.procs[e.pid];
    plan := PlanAt(c, s, e);
    assert ProcAgrees(p, s.db);
    PlanIsReady(c, s.db, p, e, plan);
    CommitIsItsTransaction(c, s, e);
  }

  /** What steps that commit no answer may do to the area table. */
  ghost predicate Quiet(a: AreaTable, b: AreaTable, marks: bool) {
    && a.Keys <= b.Keys
    && forall s :: s in b ==>
         if s !in a then b[s] == AreaRow(Pending, 0, "")
         else b[s] == a[s] || (Open(a[s].status)
                               && (b[s] == a[s].(status := InProgress)
                                   || (marks && b[s] == a[s].(status := NotAssessed))))
  }

  lemma TurnStepIsQuiet(c: Config, s: System, e: Step)
    requires Enabled(c, s, e) && !IsStartStep(e) && !Commits(c, s, e)
    ensures Apply(c, s, e).db.answers == s.db.answers
    ensures Quiet(s.db.areas, Apply(c, s, e).db.areas, e.MarkNotAssessed?)
  {
    if e.CommitTurn? {
      assert Apply(c, s, e) == ApplyCommit(c, s, e);
      assert Apply(c, s, e).db == s.db;
    } else if e.AdvanceTurn? {
      assert Apply(c, s, e) == ApplyAdvance(c, s, e);
      assert Apply(c, s, e).db.areas == s.db.areas;
    } else if e.MarkNotAssessed? {
      assert Apply(c, s, e) == ApplyTurn(c, s, e);
    } else {
      assert Apply(c, s, e).db.areas == s.db.areas;
    }
  }

  lemma StartStepIsQuiet(c: Config, s: System, e: Step)
    requires Enabled(c, s, e) && IsStartStep(e)
    ensures Apply(c, s, e).db.answers == s.db.answers
    ensures Quiet(s.db.areas, Apply(c, s, e).db.areas, false)
  {
  }

  lemma OtherStepsAreQuiet(c: Config, s: System, e: Step)
    requires Enabled(c, s, e) && !Commits(c, s, e)
    ensures Apply(c, s, e).db.answers == s.db.answers
    ensures Quiet(s.db.areas, Apply(c, s, e).db.areas, e.MarkNotAssessed?)
  {
    if IsStartStep(e) { StartStepIsQuiet(c, s, e); } else { TurnStepIsQuiet(c, s, e); }
  }

  lemma QuietSpendsNothing(order: seq<string>, a: AreaTable, b: AreaTable, marks: bool)
    requires Quiet(a, b, marks)
    ensures Potential(order, b) <= Potential(order, a)
  {
  }

  lemma CommitSpends(c: Config, s: System, e: Step)
    requires ValidConfig(c) && Inv(c, s) && Enabled(c, s, e) && Commits(c, s, e)
    ensures Potential(c.order, Apply(c, s, e).db.areas) < Potential(c.order, s.db.areas)
    ensures |Apply(c, s, e).db.answers| == |s.db.answers| + 1
  {
    var p, plan := TheCommit(c, s, e);
    CommitKeepsAreas(c, s.db, p, plan);
  }

  /** Every committed answer uses up potential and no other step gives any back, so every interview ends. */
  lemma PotentialOnlyFalls(c: Config, s: System, e: Step)
    requires ValidConfig(c) && Inv(c, s) && Enabled(c, s, e)
    ensures Potential(c.order, Apply(c, s, e).db.areas) <= Potential(c.order, s.db.areas)
    ensures Commits(c, s, e) <==> |Apply(c, s, e).db.answers| == |s.db.answers| + 1
    ensures Commits(c, s, e) ==> Potential(c.order, Apply(c, s, e).db.areas) < Potential(c.order, s.db.areas)
  {
    if Commits(c, s, e) {
      CommitSpends(c, s, e);
    } else {
      OtherStepsAreQuiet(c, s, e);
      QuietSpendsNothing(c.order, s.db.areas, Apply(c, s, e).db.areas, e.MarkNotAssessed?);
    }
  }

  /** The answers stored for one area. */
  function Tally(answers: seq<AnswerRow>, area: string): nat {
    if answers == [] then 0
    else Tally(answers[..|answers| - 1], area) + if answers[|answers| - 1].area == area then 1 else 0
  }

  ghost predicate Tallied(db: Db) {
    forall a :: Tally(db.answers, a) == Count(db.areas, a)
  }

  lemma MovedTallies(answers: seq<AnswerRow>, row: AnswerRow, a: AreaTable, b: AreaTable, action: TurnAction,
                     next: string)
    requires Moved(a, b, row.area, action, next) && forall s :: Tally(answers, s) == Count(a, s)
    ensures forall s :: Tally(answers + [row], s) == Count(b, s)
  {
  }

  lemma CommitTallies(c: Config, s: System, e: Step)
    requires ValidConfig(c) && Inv(c, s) && Enabled(c, s, e) && Commits(c, s, e) && Tallied(s.db)
    ensures Tallied(Apply(c, s, e).db)
  {
    var p, plan := TheCommit(c, s, e);
    CommitKeepsAreas(c, s.db, p, plan);
    MovedTallies(s.db.answers, AnswerOf(plan), s.db.areas, CommitAreas(s.db.areas, plan), plan.decision.action,
                 plan.nextArea);
  }

  lemma QuietTallies(a: Db, b: Db, marks: bool)
    requires Tallied(a) && b.answers == a.answers && Quiet(a.areas, b.areas, marks)
    ensures Tallied(b)
  {
  }

  /** After every run each area's question count is the number of answers stored for that area. */
  lemma {:induction false} CountsAreTallies(c: Config, es: seq<Step>)
    requires ValidConfig(c) && Runnable(c, Init(c), es)
    ensures Tallied(After(c, Init(c), es).db)
    decreases |es|
  {
    if es != [] {
      var s, e := After(c, Init(c), es[..|es| - 1]), es[|es| - 1];
      CountsAreTallies(c, es[..|es| - 1]);
      RunKeepsInv(c, es[..|es| - 1]);
      if Commits(c, s, e) {
        CommitTallies(c, s, e);
      } else {
        OtherStepsAreQuiet(c, s, e);
        QuietTallies(s.db, Apply(c, s, e).db, e.MarkNotAssessed?);
      }
    }
  }

  // ----- ordered coverage -----

  /** At most one area is in progress; every area before it is closed and every area after it has not been visited. */
  lemma {:induction false} AreasAreTakenInOrder(c: Config, es: seq<Step>, k: nat)
    requires ValidConfig(c) && Runnable(c, Init(c), es)
    requires k < |c.order| && c.order[k] in After(c, Init(c), es).db.areas
    requires After(c, Init(c), es).db.areas[c.order[k]].status.InProgress?
    ensures var areas := After(c, Init(c), es).db.areas;
            && (forall i :: 0 <= i < k ==> c.order[i] in areas && Closed(areas[c.order[i]].status))
            && (forall j :: k < j < |c.order| && c.order[j] in areas ==> !Visited(areas[c.order[j]].status))
  {
    RunKeepsInv(c, es);
    var areas := After(c, Init(c), es).db.areas;
    forall j | k < j < |c.order| && c.order[j] in areas
      ensures !Visited(areas[c.order[j]].status)
    {
      assert Visited(areas[c.order[j]].status) ==> Closed(areas[c.order[k]].status);
    }
  }

  /** A commit that runs out of areas ends the flow with every configured area closed. */
  lemma ExhaustionClosesEverything(c: Config, s: System, e: Step)
    requires ValidConfig(c) && Inv(c, s) && Enabled(c, s, e) && Commits(c, s, e)
    requires Apply(c, s, e).db.session.step.Done?
    ensures forall a :: a in c.order ==> a in Apply(c, s, e).db.areas && Closed(Apply(c, s, e).db.areas[a].status)
  {
    var p, plan := TheCommit(c, s, e);
    ExhaustedRowsAreClosed(c, s.db, p, plan);
  }

  lemma ExhaustedRowsAreClosed(c: Config, db: Db, p: Proc, plan: CommitParams)
    requires GoodOrder(c.order) && DbInv(c, db) && CommitReady(c, db, p, plan) && plan.nextArea == ""
    ensures forall a :: a in c.order ==> a in db.areas && Closed(CommitAreas(db.areas, plan)[a].status)
  {
    assert plan.current in c.order && plan.decision.action.Next?;
    var q := CommitPosition(c, db, p, plan);
    CommitMoves(c, db, p, plan);
    NothingLeftOpen(c.order, db.areas, CommitAreas(db.areas, plan), plan.current, q);
  }

  lemma NothingLeftOpen(order: seq<string>, a: AreaTable, b: AreaTable, current: string, q: nat)
    requires Moved(a, b, current, Next, "") && NextInOrder(order, a, current, "", q)
    ensures forall s :: s in order ==> s in b && Closed(b[s].status)
  {
    forall s | s in order
      ensures s in b && Closed(b[s].status)
    {
      assert RowMoved(s, a[s], b[s], current, Next, "");
    }
  }

  ghost predicate NoTimeouts(es: seq<Step>) {
    forall i :: 0 <= i < |es| ==> !es[i].MarkNotAssessed?
  }

  ghost predicate NoneSkipped(areas: AreaTable) {
    forall a :: a in areas ==> !areas[a].status.NotAssessed?
  }

  lemma MovedSkipsNone(a: AreaTable, b: AreaTable, current: string, action: TurnAction, next: string)
    requires Moved(a, b, current, action, next) && NoneSkipped(a)
    ensures NoneSkipped(b)
  {
  }

  lemma QuietSkipsNone(a: AreaTable, b: AreaTable)
    requires Quiet(a, b, false) && NoneSkipped(a)
    ensures NoneSkipped(b)
  {
  }

  lemma OnlyTimeoutsSkip(c: Config, s: System, e: Step)
    requires ValidConfig(c) && Inv(c, s) && Enabled(c, s, e) && !e.MarkNotAssessed? && NoneSkipped(s.db.areas)
    ensures NoneSkipped(Apply(c, s, e).db.areas)
  {
    ValidOrder(c);
    if Commits(c, s, e) {
      var p, plan := TheCommit(c, s, e);
      CommitKeepsAreas(c, s.db, p, plan);
      MovedSkipsNone(s.db.areas, CommitAreas(s.db.areas, plan), plan.current, plan.decision.action, plan.nextArea);
    } else {
      OtherStepsAreQuiet(c, s, e);
      QuietSkipsNone(s.db.areas, Apply(c, s, e).db.areas);
    }
  }

  lemma {:induction false} NoTimeoutNoneSkipped(c: Config, es: seq<Step>)
    requires ValidConfig(c) && Runnable(c, Init(c), es) && NoTimeouts(es)
    ensures NoneSkipped(After(c, Init(c), es).db.areas)
    decreases |es|
  {
    if es != [] {
      var init := es[..|es| - 1];
      forall i | 0 <= i < |init|
        ensures !init[i].MarkNotAssessed?
      {
        assert init[i] == es[i];
      }
      NoTimeoutNoneSkipped(c, init);
      RunKeepsInv(c, init);
      OnlyTimeoutsSkip(c, After(c, Init(c), init), es[|es| - 1]);
    }
  }

  /** A run without timeouts whose last commit runs out of areas has judged every configured area. */
  lemma {:induction false} FullCoverage(c: Config, es: seq<Step>, e: Step)
    requires ValidConfig(c) && Runnable(c, Init(c), es) && NoTimeouts(es)
    requires Enabled(c, After(c, Init(c), es), e) && Commits(c, After(c, Init(c), es), e)
    requires Apply(c, After(c, Init(c), es), e).db.session.step.Done?
    ensures var areas := Apply(c, After(c, Init(c), es), e).db.areas;
            forall a :: a in c.order ==> a in areas && (areas[a].status.Complete? || areas[a].status.Insufficient?)
  {
    var s := After(c, Init(c), es);
    RunKeepsInv(c, es);
    NoTimeoutNoneSkipped(c, es);
    ExhaustionClosesEverything(c, s, e);
    OnlyTimeoutsSkip(c, s, e);
  }

  // ----- flow coherence -----

  /** The flow pointer is coherent after every run: a criterion step always carries a criterion question under the
      expected turn, about an area that is in progress or that a timeout has just closed; and the question
      number counts the readiness acknowledgements and the answers, even when readiness is reopened. */
  lemma {:induction false} FlowIsCoherent(c: Config, es: seq<Step>)
    requires ValidConfig(c) && Runnable(c, Init(c), es)
    ensures var db := After(c, Init(c), es).db;
            && db.session.number == 1 + Acks(db.events) + |db.answers|
            && (db.session.step.Done? ==> db.session.expectedTurn.None? && ReadFlow(db.session).active.None?)
            && (db.session.step.Criterion? ==>
                  var flow := ReadFlow(db.session);
                  && flow.active.Some? && !Blank(flow.expectedTurn)
                  && flow.active.value.kind.CriterionKind? && flow.active.value.area in db.areas
                  && (db.areas[flow.active.value.area].status.InProgress?
                      || db.areas[flow.active.value.area].status.NotAssessed?)
                  && (NoTimeouts(es) ==> db.areas[flow.active.value.area].status.InProgress?))
  {
    RunKeepsInv(c, es);
    if NoTimeouts(es) { NoTimeoutNoneSkipped(c, es); }
    assert Blank("");
  }

  // ----- the plan and the commit, in the running system -----

  lemma SnapshotStillHolds(c: Config, db: Db, p: Proc, plan: CommitParams)
    requires CommitReady(c, db, p, plan)
    requires forall a :: a in db.areas && db.areas[a].status.NotAssessed? ==>
                           a in p.pc.snap.areas && p.pc.snap.areas[a].status.NotAssessed?
    ensures p.pc.snap.areas == db.areas
  {
  }

  lemma ReadyPlanFits(c: Config, db: Db, p: Proc, plan: CommitParams)
    requires ValidConfig(c) && DbInv(c, db) && CommitReady(c, db, p, plan) && p.pc.snap.areas == db.areas
    ensures PlanFits(db.areas, c.order, plan)
  {
    ValidOrder(c);
  }

  /** When the compare-and-swap succeeds and no area was closed by a timeout since the snapshot was read,
      the stored table is the planned projection with the chosen area promoted. */
  lemma CommittedPlanIsStored(c: Config, s: System, e: Step, plan: CommitParams, read: AreaTable)
    requires ValidConfig(c) && Inv(c, s) && Enabled(c, s, e) && Commits(c, s, e)
    requires plan == PlanAt(c, s, e)
    requires read == s.procs[e.pid].pc.snap.areas
    requires forall a :: a in s.db.areas && s.db.areas[a].status.NotAssessed? ==>
                   a in read && read[a].status.NotAssessed?
    ensures PlanFits(read, c.order, plan)
    ensures Apply(c, s, e).db.areas == CommitAreas(read, plan)
    ensures forall a :: a in read ==>
                          RowRefines(a, read[a], ProjectTable(read, plan.current, plan.decision, plan.flags)[a],
                                     CommitAreas(read, plan)[a], plan)
  {
    var p, thePlan := TheCommit(c, s, e);
    SnapshotStillHolds(c, s.db, p, plan);
    ReadyPlanFits(c, s.db, p, plan);
    assert Apply(c, s, e).db.areas == CommitAreas(read, plan);
    PlanRefinesCommit(read, c.order, plan);
  }

  /** The turn id a delivery hands back is the one installed by the commit that consumed its own turn. */
  lemma {:induction false} DeliveredTurnIsInstalled(c: Config, es: seq<Step>, pid: nat)
    requires ValidConfig(c) && Runnable(c, Init(c), es)
    requires pid in After(c, Init(c), es).procs
    ensures var s := After(c, Init(c), es);
            var p := s.procs[pid];
            p.pc.Finished? && p.pc.result.NextQuestion? ==>
              p.turn in s.consumed && s.consumed[p.turn].next == Some(p.pc.result.turnId)
  {
    RunKeepsInv(c, es);
    var s := After(c, Init(c), es);
    assert ProcResult(s.procs[pid], s.consumed);
  }
}
