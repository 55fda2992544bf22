/** Which area the question of a criterion step names, when timeouts mark areas between a delivery's reads and its
    commit. */
module TurnCoherence {
  import opened Text
  import opened AreaConfigs
  import opened TurnPolicy
  import opened Timing
  import opened TurnStore
  import opened TurnMachine
  import opened TurnSafety
  import opened TurnTheorems

  /** A criterion step asks about an area that is in progress. */
  predicate NamesOpenArea(db: Db) {
    db.session.step.Criterion? ==>
      && db.session.active.Some? && db.session.active.value.area in db.areas
      && db.areas[db.session.active.value.area].status.InProgress?
  }

  /** The commit moves to an area that, in the rows it locked, a timeout has already marked not assessed. */
  ghost predicate FindsSkipped(c: Config, s: System, e: Step)
    requires Enabled(c, s, e)
  {
    Commits(c, s, e) &&
    var next := PlanAt(c, s, e).nextArea;
    next in s.db.areas && s.db.areas[next].status.NotAssessed?
  }

  // ----- one step -----

  lemma CommittedSession(db: Db, plan: CommitParams)
    requires CommitOutcome(db, plan).Committed? && plan.nextArea != "" && plan.nextIssued.Some?
    requires plan.nextIssued.value.question.area == plan.nextArea
    ensures Commit(db, plan).session.step.Criterion?
    ensures Commit(db, plan).session.active.Some? && Commit(db, plan).session.active.value.area == plan.nextArea
  {
  }

  /** Of the area moved to: it is in progress after the commit exactly when it was not marked in the locked rows. */
  lemma PromotedUnlessSkipped(c: Config, db: Db, p: Proc, plan: CommitParams)
    requires GoodOrder(c.order) && AreasInv(c.order, db.areas) && CommitReady(c, db, p, plan) && plan.nextArea != ""
    ensures plan.nextArea in db.areas
    ensures CommitAreas(db.areas, plan)[plan.nextArea].status.InProgress?
            <==> !db.areas[plan.nextArea].status.NotAssessed?
  {
    var q := CommitPosition(c, db, p, plan);
    CommitMoves(c, db, p, plan);
    assert RowMoved(plan.nextArea, db.areas[plan.nextArea], CommitAreas(db.areas, plan)[plan.nextArea],
                    plan.current, plan.decision.action, plan.nextArea);
  }

  /** The question a commit installs names an area in progress if and only if the locked rows did not have it marked. */
  lemma CommitNamesOpenIff(c: Config, s: System, e: Step)
    requires ValidConfig(c) && Inv(c, s) && Enabled(c, s, e) && Commits(c, s, e)
    ensures NamesOpenArea(Apply(c, s, e).db) <==> !FindsSkipped(c, s, e)
  {
    var p, plan := TheCommit(c, s, e);
    if plan.nextArea == "" {
      assert "" !in s.db.areas;
    } else {
      CommittedSession(s.db, plan);
      PromotedUnlessSkipped(c, s.db, p, plan);
    }
  }

  /** The session still asks the same question, or no criterion question at all. */
  predicate SameQuestion(a: SessionRow, b: SessionRow) {
    b.step.Criterion? ==> a.step.Criterion? && b.active == a.active
  }

  lemma AdvanceNamesOpen(c: Config, s: System, e: Step)
    requires ValidConfig(c) && Inv(c, s) && Enabled(c, s, e) && e.AdvanceTurn? && NamesOpenArea(s.db)
    ensures NamesOpenArea(ApplyAdvance(c, s, e).db)
  {
    var p := s.procs[e.pid];
    if AdvanceOutcome(s.db, AdvanceOf(c, p, e.newId, e.now)).Committed? {
      LockGives(c, s.db, p);
    }
  }

  lemma TurnStepsKeepQuestion(c: Config, s: System, e: Step)
    requires Enabled(c, s, e) && !IsStartStep(e) && !e.AdvanceTurn? && !Commits(c, s, e)
    ensures SameQuestion(s.db.session, Apply(c, s, e).db.session)
  {
    if e.CommitTurn? { assert Apply(c, s, e) == ApplyCommit(c, s, e); }
  }

  lemma StartStepsKeepQuestion(c: Config, s: System, e: Step)
    requires Enabled(c, s, e) && IsStartStep(e)
    ensures SameQuestion(s.db.session, Apply(c, s, e).db.session)
  {
  }

  lemma QuietKeepsOpen(a: Db, b: Db, marks: bool)
    requires NamesOpenArea(a) && SameQuestion(a.session, b.session) && Quiet(a.areas, b.areas, marks)
    ensures NamesOpenArea(b)
  {
  }

  lemma OtherStepsKeepOpen(c: Config, s: System, e: Step)
    requires Enabled(c, s, e) && !Commits(c, s, e) && !e.AdvanceTurn? && NamesOpenArea(s.db)
    ensures NamesOpenArea(Apply(c, s, e).db)
  {
    OtherStepsAreQuiet(c, s, e);
    if IsStartStep(e) { StartStepsKeepQuestion(c, s, e); } else { TurnStepsKeepQuestion(c, s, e); }
    QuietKeepsOpen(s.db, Apply(c, s, e).db, e.MarkNotAssessed?);
  }

  lemma StepNamesOpenIff(c: Config, s: System, e: Step)
    requires ValidConfig(c) && Inv(c, s) && Enabled(c, s, e) && NamesOpenArea(s.db)
    ensures NamesOpenArea(Apply(c, s, e).db) <==> !FindsSkipped(c, s, e)
  {
    if Commits(c, s, e) {
      CommitNamesOpenIff(c, s, e);
    } else if e.AdvanceTurn? {
      assert Apply(c, s, e) == ApplyAdvance(c, s, e);
      AdvanceNamesOpen(c, s, e);
    } else {
      OtherStepsKeepOpen(c, s, e);
    }
  }

  // ----- every run -----

  /** At every point of the run the criterion question names an area in progress. */
  ghost predicate AlwaysNamesOpen(c: Config, es: seq<Step>)
    requires Runnable(c, Init(c), es)
    decreases |es|
  {
    (es == [] || AlwaysNamesOpen(c, es[..|es| - 1])) && NamesOpenArea(After(c, Init(c), es).db)
  }

  /** No commit of the run moves to an area that its locked rows have marked. */
  ghost predicate NeverFindsSkipped(c: Config, es: seq<Step>)
    requires Runnable(c, Init(c), es)
    decreases |es|
  {
    es == [] || (NeverFindsSkipped(c, es[..|es| - 1])
                 && !FindsSkipped(c, After(c, Init(c), es[..|es| - 1]), es[|es| - 1]))
  }

  /** The question names an area in progress throughout a run exactly when no commit of the run finds its next area
      marked. */
  lemma {:induction false} NamesOpenAreaIff(c: Config, es: seq<Step>)
    requires ValidConfig(c) && Runnable(c, Init(c), es)
    ensures AlwaysNamesOpen(c, es) <==> NeverFindsSkipped(c, es)
    decreases |es|
  {
    if es != [] {
      var init := es[..|es| - 1];
      NamesOpenAreaIff(c, init);
      if AlwaysNamesOpen(c, init) {
        RunKeepsInv(c, init);
        NowOpen(c, init);
        StepNamesOpenIff(c, After(c, Init(c), init), es[|es| - 1]);
      }
    }
  }

  lemma {:induction false} NowOpen(c: Config, es: seq<Step>)
    requires Runnable(c, Init(c), es) && AlwaysNamesOpen(c, es)
    ensures NamesOpenArea(After(c, Init(c), es).db)
  {
  }

  // ----- marks between a read and a commit -----

  /** A timeout has marked areas since this delivery last read them. */
  predicate MarkedSinceRead(es: seq<Step>, pid: nat) {
    es != [] &&
    var e := es[|es| - 1];
    e.MarkNotAssessed? || (e != ReadAreas(pid) && MarkedSinceRead(es[..|es| - 1], pid))
  }

  /** Every commit that stores an answer does so on areas read after the last mark. */
  ghost predicate CleanCommits(c: Config, es: seq<Step>)
    requires Runnable(c, Init(c), es)
    decreases |es|
  {
    es == [] ||
    var init, e := es[..|es| - 1], es[|es| - 1];
    CleanCommits(c, init) && (Commits(c, After(c, Init(c), init), e) ==> !MarkedSinceRead(init, e.pid))
  }

  predicate HasRead(p: Proc) { p.pc.GotAreas? || p.pc.Ready? }

  function AreasRead(p: Proc): AreaTable
    requires HasRead(p)
  {
    if p.pc.GotAreas? then p.pc.areas else p.pc.snap.areas
  }

  /** Every marked area was already marked when it was read. */
  predicate MarksWereRead(read: AreaTable, areas: AreaTable) {
    forall a :: a in areas && areas[a].status.NotAssessed? ==> a in read && read[a].status.NotAssessed?
  }

  /** What a delivery whose turn is still expected read shows every mark, unless one was made since. */
  ghost predicate ReadsShowMarks(s: System, es: seq<Step>) {
    forall pid {:trigger ReadShowsMarks(s, es, pid)} :: pid in s.procs ==> ReadShowsMarks(s, es, pid)
  }

  ghost predicate ReadShowsMarks(s: System, es: seq<Step>, pid: nat)
    requires pid in s.procs
  {
    var p := s.procs[pid];
    HasRead(p) && s.db.session.expectedTurn == Some(p.turn) && !MarkedSinceRead(es, pid) ==>
      MarksWereRead(AreasRead(p), s.db.areas)
  }

  /** A delivery that has read areas has just read them, or had them before. */
  predicate ReadKept(s: System, s': System, e: Step, pid: nat) {
    && pid in s'.procs && HasRead(s'.procs[pid])
    && (if e == ReadAreas(pid) then AreasRead(s'.procs[pid]) == s'.db.areas
        else pid in s.procs && HasRead(s.procs[pid]) && AreasRead(s'.procs[pid]) == AreasRead(s.procs[pid])
             && s'.procs[pid].turn == s.procs[pid].turn)
  }

  /** What a commit leaves of deliveries and turns: its own delivery has read nothing any more, and the turn expected
      next, if any, is a new one. */
  lemma CommitLeaves(s: System, e: Step, plan: CommitParams, s': System)
    requires e.CommitTurn? && e.pid in s.procs && e.newId !in s.seen
    requires plan.nextIssued.Some? ==> plan.nextIssued.value.turnId == e.newId
    requires match CommitOutcome(s.db, plan)
             case Committed(_) =>
               var next := if Blank(plan.nextArea) then None else Some(e.newId);
               s' == Consume(WithDb(At(s, e.pid, Refreshing(next)), Commit(s.db, plan)), s.procs[e.pid].turn,
                             Consumption(Criterion, next), e.newId)
             case TurnConflict => s' == At(s, e.pid, Finished(Conflict))
             case _ => s' == At(s, e.pid, Finished(Failed))
    ensures forall pid :: pid in s'.procs && HasRead(s'.procs[pid]) ==> ReadKept(s, s', e, pid)
    ensures TurnKept(s, s')
    ensures CommitOutcome(s.db, plan).Committed? && s'.db.session.expectedTurn.Some? ==>
              s'.db.session.expectedTurn.value !in s.seen
  {
  }

  lemma PlanIssuesNewTurn(c: Config, p: Proc, e: Step)
    requires e.CommitTurn? && p.pc.Ready? && p.pc.snap.current.Some?
    ensures var plan := PlanOf(c, p, e.reply, e.language, e.newId, e.now);
            plan.nextIssued.Some? ==> plan.nextIssued.value.turnId == e.newId
  {
  }

  lemma CommitEnds(c: Config, s: System, e: Step)
    requires Enabled(c, s, e) && e.CommitTurn?
    ensures var s' := Apply(c, s, e);
            && (forall pid :: pid in s'.procs && HasRead(s'.procs[pid]) ==> ReadKept(s, s', e, pid)) && TurnKept(s, s')
            && (Commits(c, s, e) && s'.db.session.expectedTurn.Some? ==> s'.db.session.expectedTurn.value !in s.seen)
  {
    PlanIssuesNewTurn(c, s.procs[e.pid], e);
    assert Apply(c, s, e) == ApplyCommit(c, s, e);
    CommitLeaves(s, e, PlanAt(c, s, e), ApplyCommit(c, s, e));
  }

  lemma AdvanceEndsReads(c: Config, s: System, e: Step, pid: nat)
    requires Enabled(c, s, e) && e.AdvanceTurn? && pid in ApplyAdvance(c, s, e).procs
             && HasRead(ApplyAdvance(c, s, e).procs[pid])
    ensures ReadKept(s, ApplyAdvance(c, s, e), e, pid)
  {
  }

  lemma StartsKeepReads(c: Config, s: System, e: Step)
    requires Enabled(c, s, e) && IsStartStep(e)
    ensures ApplyStart(c, s, e).procs == s.procs
  {
  }

  lemma TurnStepsKeepReads(c: Config, s: System, e: Step, pid: nat)
    requires Enabled(c, s, e) && !IsStartStep(e) && pid in Apply(c, s, e).procs && HasRead(Apply(c, s, e).procs[pid])
    ensures ReadKept(s, Apply(c, s, e), e, pid)
  {
    if e.CommitTurn? {
      CommitEnds(c, s, e);
    } else if e.AdvanceTurn? {
      assert Apply(c, s, e) == ApplyAdvance(c, s, e);
      AdvanceEndsReads(c, s, e, pid);
    } else {
      LocalReadsAreKept(c, s, e, pid);
    }
  }

  lemma ReadsAreKept(c: Config, s: System, e: Step, pid: nat)
    requires Enabled(c, s, e) && pid in Apply(c, s, e).procs && HasRead(Apply(c, s, e).procs[pid])
    ensures ReadKept(s, Apply(c, s, e), e, pid)
  {
    if IsStartStep(e) {
      StartsKeepReads(c, s, e);
    } else {
      TurnStepsKeepReads(c, s, e, pid);
    }
  }

  predicate IsRead(e: Step) {
    e.BeginTurn? || e.ReadSession? || e.ReadFlowPointer? || e.ReadAreas? || e.ReadCurrentArea?
  }

  lemma ReadingKeepsReads(c: Config, s: System, e: Step, pid: nat)
    requires Enabled(c, s, e) && IsRead(e) && pid in ApplyTurn(c, s, e).procs && HasRead(ApplyTurn(c, s, e).procs[pid])
    ensures ReadKept(s, ApplyTurn(c, s, e), e, pid)
  {
  }

  /** Where a delivery stands after one of its own steps that is neither a commit nor an advance. */
  lemma LocalReadsAreKept(c: Config, s: System, e: Step, pid: nat)
    requires Enabled(c, s, e) && !IsStartStep(e) && !e.CommitTurn? && !e.AdvanceTurn?
    requires pid in ApplyTurn(c, s, e).procs && HasRead(ApplyTurn(c, s, e).procs[pid])
    ensures ReadKept(s, ApplyTurn(c, s, e), e, pid)
  {
    if IsRead(e) { ReadingKeepsReads(c, s, e, pid); }
  }

  /** A turn id is expected because it was before, or because it is new. */
  predicate TurnKept(s: System, s': System) {
    s'.db.session.expectedTurn.Some? ==>
      s'.db.session.expectedTurn == s.db.session.expectedTurn || s'.db.session.expectedTurn.value !in s.seen
  }

  lemma AdvanceKeepsTurn(c: Config, s: System, e: Step)
    requires Enabled(c, s, e) && e.AdvanceTurn?
    ensures TurnKept(s, ApplyAdvance(c, s, e))
  {
  }

  lemma StartKeepsTurn(c: Config, s: System, e: Step)
    requires Enabled(c, s, e) && IsStartStep(e)
    ensures TurnKept(s, ApplyStart(c, s, e))
  {
  }

  lemma TurnsAreKept(c: Config, s: System, e: Step)
    requires Enabled(c, s, e)
    ensures TurnKept(s, Apply(c, s, e))
  {
    if IsStartStep(e) {
      StartKeepsTurn(c, s, e);
    } else if e.CommitTurn? {
      CommitEnds(c, s, e);
    } else if e.AdvanceTurn? {
      assert Apply(c, s, e) == ApplyAdvance(c, s, e);
      AdvanceKeepsTurn(c, s, e);
    } else {
      TurnStepsKeepTurn(c, s, e);
    }
  }

  lemma TurnStepsKeepTurn(c: Config, s: System, e: Step)
    requires Enabled(c, s, e) && !IsStartStep(e) && !e.CommitTurn? && !e.AdvanceTurn?
    ensures TurnKept(s, ApplyTurn(c, s, e))
  {
  }

  /** No row is marked that was not. */
  predicate NoNewMarks(a: AreaTable, b: AreaTable) {
    forall s :: s in b && b[s].status.NotAssessed? ==> s in a && a[s].status.NotAssessed?
  }

  /** A step that marks nothing and keeps the turn leaves what deliveries read as true as it was. */
  lemma ReadStillShows(s: System, s': System, es: seq<Step>, e: Step, pid: nat)
    requires pid in s'.procs && (HasRead(s'.procs[pid]) ==> ReadKept(s, s', e, pid)) && TurnKept(s, s')
    requires pid in s.procs ==> ReadShowsMarks(s, es, pid) && s.procs[pid].turn in s.seen
    requires e.MarkNotAssessed? || NoNewMarks(s.db.areas, s'.db.areas)
             || (s'.db.session.expectedTurn.Some? ==> s'.db.session.expectedTurn.value !in s.seen)
    ensures ReadShowsMarks(s', es + [e], pid)
  {
    assert (es + [e])[..|es|] == es;
  }

  /** A step that is no mark either marks nothing or takes the turn away. */
  lemma MarksOrNewTurn(c: Config, s: System, e: Step)
    requires Enabled(c, s, e) && !e.MarkNotAssessed?
    ensures NoNewMarks(s.db.areas, Apply(c, s, e).db.areas)
            || (Apply(c, s, e).db.session.expectedTurn.Some? ==>
                Apply(c, s, e).db.session.expectedTurn.value !in s.seen)
  {
    if Commits(c, s, e) {
      CommitEnds(c, s, e);
    } else {
      OtherStepsAreQuiet(c, s, e);
      QuietMarksNothing(s.db.areas, Apply(c, s, e).db.areas);
    }
  }

  lemma QuietMarksNothing(a: AreaTable, b: AreaTable)
    requires Quiet(a, b, false)
    ensures NoNewMarks(a, b)
  {
  }

  lemma ReadsStillShowMarks(c: Config, s: System, es: seq<Step>, e: Step)
    requires HistoryInv(s) && Enabled(c, s, e) && ReadsShowMarks(s, es)
    ensures ReadsShowMarks(Apply(c, s, e), es + [e])
  {
    var s' := Apply(c, s, e);
    TurnsAreKept(c, s, e);
    if !e.MarkNotAssessed? { MarksOrNewTurn(c, s, e); }
    forall pid | pid in s'.procs
      ensures ReadShowsMarks(s', es + [e], pid)
    {
      if HasRead(s'.procs[pid]) { ReadsAreKept(c, s, e, pid); }
      assert pid in s.procs ==> ReadShowsMarks(s, es, pid);
      ReadStillShows(s, s', es, e, pid);
    }
  }

  lemma {:induction false} RunReadsShowMarks(c: Config, es: seq<Step>)
    requires ValidConfig(c) && Runnable(c, Init(c), es)
    ensures ReadsShowMarks(After(c, Init(c), es), es)
    decreases |es|
  {
    if es != [] {
      var init, e := es[..|es| - 1], es[|es| - 1];
      RunReadsShowMarks(c, init);
      RunKeepsInv(c, init);
      ReadsStillShowMarks(c, After(c, Init(c), init), init, e);
      assert init + [e] == es;
    }
  }

  /** The area a plan moves to was open, or is the current one, in the areas it was planned on. */
  lemma PlannedAreaWasOpen(order: seq<string>, read: AreaTable, current: string, d: Decision)
    requires GoodOrder(order) && NextAreaIn(read, current, d, order) != ""
    ensures NextAreaIn(read, current, d, order) == current
            || (NextAreaIn(read, current, d, order) in read && Open(read[NextAreaIn(read, current, d, order)].status))
  {
    if d.action.Next? {
      var q := SelectionIsFirstOpen(order, Marked(StatusOf(read), current, d));
    }
  }

  lemma CleanPlanFindsNoMark(c: Config, db: Db, p: Proc, plan: CommitParams)
    requires GoodOrder(c.order) && CommitReady(c, db, p, plan) && MarksWereRead(p.pc.snap.areas, db.areas)
    requires plan.nextArea != "" && plan.nextArea in db.areas
    ensures !db.areas[plan.nextArea].status.NotAssessed?
  {
    PlannedAreaWasOpen(c.order, p.pc.snap.areas, plan.current, plan.decision);
  }

  lemma CleanCommitFindsNoMark(c: Config, s: System, es: seq<Step>, e: Step)
    requires ValidConfig(c) && Inv(c, s) && Enabled(c, s, e) && Commits(c, s, e)
    requires ReadShowsMarks(s, es, e.pid) && !MarkedSinceRead(es, e.pid)
    ensures !FindsSkipped(c, s, e)
  {
    var p, plan := TheCommit(c, s, e);
    assert MarksWereRead(p.pc.snap.areas, s.db.areas);
    assert "" !in s.db.areas;
    if plan.nextArea in s.db.areas { CleanPlanFindsNoMark(c, s.db, p, plan); }
  }

  /** If every stored answer is planned on areas read after the last mark, the question always names an area in
      progress. */
  lemma {:induction false} CleanCommitsNameOpenAreas(c: Config, es: seq<Step>)
    requires ValidConfig(c) && Runnable(c, Init(c), es) && CleanCommits(c, es)
    ensures NeverFindsSkipped(c, es) && NamesOpenArea(After(c, Init(c), es).db)
    decreases |es|
  {
    if es != [] {
      var init, e := es[..|es| - 1], es[|es| - 1];
      CleanCommitsNameOpenAreas(c, init);
      RunKeepsInv(c, init);
      RunReadsShowMarks(c, init);
      if Commits(c, After(c, Init(c), init), e) {
        assert ReadShowsMarks(After(c, Init(c), init), init, e.pid);
        CleanCommitFindsNoMark(c, After(c, Init(c), init), init, e);
      }
      StepNamesOpenIff(c, After(c, Init(c), init), e);
    }
  }

  // ----- timeouts that are not interrupted -----

  /** A timeout's marks run on to the statement that closes the flow, with nothing in between and no failure of it. */
  predicate TimeoutsAtomic(es: seq<Step>) {
    forall i {:trigger es[i].MarkNotAssessed?} :: 0 <= i < |es| - 1 && es[i].MarkNotAssessed? ==>
      (es[i + 1].MarkNotAssessed? && es[i + 1].pid == es[i].pid) || es[i + 1] == CloseFlow(es[i].pid, true)
  }

  predicate InsideTimeout(es: seq<Step>) { es != [] && es[|es| - 1].MarkNotAssessed? }

  /** No delivery that read areas before a mark has the expected turn any more. */
  ghost predicate OldReadsLost(s: System, es: seq<Step>) {
    forall pid {:trigger OldReadLost(s, es, pid)} :: pid in s.procs ==> OldReadLost(s, es, pid)
  }

  ghost predicate OldReadLost(s: System, es: seq<Step>, pid: nat)
    requires pid in s.procs
  {
    HasRead(s.procs[pid]) && MarkedSinceRead(es, pid) ==> s.db.session.expectedTurn != Some(s.procs[pid].turn)
  }

  lemma ClosingTakesTheTurn(c: Config, s: System, e: Step)
    requires Enabled(c, s, e) && e.CloseFlow? && e.ok
    ensures Apply(c, s, e).db.session.expectedTurn.None?
  {
  }

  lemma OldReadStaysLost(s: System, s': System, es: seq<Step>, e: Step, pid: nat)
    requires pid in s'.procs && (HasRead(s'.procs[pid]) ==> ReadKept(s, s', e, pid)) && TurnKept(s, s')
    requires pid in s.procs ==> OldReadLost(s, es, pid) && s.procs[pid].turn in s.seen
    requires !e.MarkNotAssessed?
    ensures OldReadLost(s', es + [e], pid)
  {
    assert (es + [e])[..|es|] == es;
  }

  lemma OldReadsStayLost(c: Config, s: System, es: seq<Step>, e: Step)
    requires HistoryInv(s) && Enabled(c, s, e) && !e.MarkNotAssessed?
    requires OldReadsLost(s, es) || (e.CloseFlow? && e.ok)
    ensures OldReadsLost(Apply(c, s, e), es + [e])
  {
    var s' := Apply(c, s, e);
    if e.CloseFlow? && e.ok {
      ClosingTakesTheTurn(c, s, e);
    } else {
      TurnsAreKept(c, s, e);
      forall pid | pid in s'.procs
        ensures OldReadLost(s', es + [e], pid)
      {
        if HasRead(s'.procs[pid]) { ReadsAreKept(c, s, e, pid); }
        assert pid in s.procs ==> OldReadLost(s, es, pid);
        OldReadStaysLost(s, s', es, e, pid);
      }
    }
  }

  lemma LostReadsCannotCommit(c: Config, s: System, es: seq<Step>, e: Step)
    requires ValidConfig(c) && Inv(c, s) && Enabled(c, s, e) && Commits(c, s, e) && OldReadLost(s, es, e.pid)
    ensures !MarkedSinceRead(es, e.pid)
  {
    var p, plan := TheCommit(c, s, e);
  }

  /** After a mark, an atomic timeout goes on. */
  lemma TimeoutGoesOn(es: seq<Step>)
    requires TimeoutsAtomic(es) && es != []
    ensures TimeoutsAtomic(es[..|es| - 1])
    ensures InsideTimeout(es[..|es| - 1]) ==>
              es[|es| - 1].MarkNotAssessed? || (es[|es| - 1].CloseFlow? && es[|es| - 1].ok)
  {
    var init := es[..|es| - 1];
    assert forall i :: 0 <= i < |init| ==> init[i] == es[i];
    if InsideTimeout(init) { assert es[|init| - 1].MarkNotAssessed? && es[|init| - 1 + 1] == es[|es| - 1]; }
  }

  lemma {:induction false} AtomicTimeoutsLoseReads(c: Config, es: seq<Step>)
    requires ValidConfig(c) && Runnable(c, Init(c), es) && TimeoutsAtomic(es)
    ensures InsideTimeout(es) || OldReadsLost(After(c, Init(c), es), es)
    decreases |es|
  {
    if es != [] && !es[|es| - 1].MarkNotAssessed? {
      var init, e := es[..|es| - 1], es[|es| - 1];
      TimeoutGoesOn(es);
      AtomicTimeoutsLoseReads(c, init);
      RunKeepsInv(c, init);
      OldReadsStayLost(c, After(c, Init(c), init), init, e);
      assert init + [e] == es;
    }
  }

  lemma CommitsAreOutside(c: Config, s: System, es: seq<Step>, e: Step)
    requires ValidConfig(c) && Inv(c, s) && Enabled(c, s, e) && Commits(c, s, e)
    requires InsideTimeout(es) || OldReadsLost(s, es)
    requires InsideTimeout(es) ==> e.MarkNotAssessed? || e.CloseFlow?
    ensures !MarkedSinceRead(es, e.pid)
  {
    assert OldReadLost(s, es, e.pid);
    LostReadsCannotCommit(c, s, es, e);
  }

  /** With atomic timeouts, every stored answer is planned on areas read after the last mark. */
  lemma {:induction false} AtomicTimeoutsAreClean(c: Config, es: seq<Step>)
    requires ValidConfig(c) && Runnable(c, Init(c), es) && TimeoutsAtomic(es)
    ensures CleanCommits(c, es)
    decreases |es|
  {
    if es != [] {
      var init := es[..|es| - 1];
      TimeoutGoesOn(es);
      AtomicTimeoutsAreClean(c, init);
      AtomicTimeoutsLoseReads(c, init);
      RunKeepsInv(c, init);
      if Commits(c, After(c, Init(c), init), es[|es| - 1]) {
        CommitsAreOutside(c, After(c, Init(c), init), init, es[|es| - 1]);
      }
    }
  }

  /** With atomic timeouts a criterion step always asks about an area in progress, in every run. */
  lemma {:induction false} AtomicTimeoutsNameOpenAreas(c: Config, es: seq<Step>)
    requires ValidConfig(c) && Runnable(c, Init(c), es) && TimeoutsAtomic(es)
    ensures AlwaysNamesOpen(c, es) && NamesOpenArea(After(c, Init(c), es).db)
  {
    AtomicTimeoutsAreClean(c, es);
    CleanCommitsNameOpenAreas(c, es);
    NamesOpenAreaIff(c, es);
  }
}
