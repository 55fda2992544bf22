/** What one turn does to the rows, said on the rows themselves: when an answer is stored, what is stored, how the area
    is judged, what time it is charged, and which question comes next. */
module TurnLaws {
  import opened Text
  import opened AreaConfigs
  import opened TurnPolicy
  import opened Timing
  import opened TurnStore
  import opened TurnMachine
  import opened TurnSafety
  import opened TurnTheorems

  // ----- when an answer is stored -----

  /** An admitted criterion submission is stored if and only if its turn is still the one expected; otherwise no row
      changes and the delivery ends with a conflict. */
  lemma StoredIffExpected(c: Config, s: System, e: Step)
    requires ValidConfig(c) && Inv(c, s) && Enabled(c, s, e) && e.CommitTurn?
    ensures |Apply(c, s, e).db.answers| == |s.db.answers| + 1 <==>
            s.db.session.expectedTurn == Some(s.procs[e.pid].turn)
    ensures s.db.session.expectedTurn != Some(s.procs[e.pid].turn) ==>
              Apply(c, s, e).db == s.db && Apply(c, s, e).procs[e.pid].pc == Finished(Conflict)
  {
    CommitsIffExpected(c, s, e);
    PotentialOnlyFalls(c, s, e);
    if s.db.session.expectedTurn != Some(s.procs[e.pid].turn) {
      LateCommitConflicts(c, s, e);
    }
  }

  lemma CommitsIffExpected(c: Config, s: System, e: Step)
    requires ValidConfig(c) && Inv(c, s) && Enabled(c, s, e) && e.CommitTurn?
    ensures Commits(c, s, e) <==> s.db.session.expectedTurn == Some(s.procs[e.pid].turn)
  {
    var p := s.procs[e.pid];
    assert ProcAgrees(p, s.db);
    assert Blank("");
    if s.db.session.expectedTurn == Some(p.turn) {
      ExpectedCommits(c, s.db, p, e);
    }
  }

  lemma ExpectedCommits(c: Config, db: Db, p: Proc, e: Step)
    requires ValidConfig(c) && DbInv(c, db) && ProcAgrees(p, db) && e.CommitTurn? && !Blank(e.newId)
    requires Admitted(c, p) && p.pc.snap.current.Some? && p.pc.snap.flow.step.Criterion?
    requires db.session.expectedTurn == Some(p.turn)
    ensures CommitOutcome(db, PlanOf(c, p, e.reply, e.language, e.newId, e.now)).Committed?
  {
    CommitIsReady(c, db, p, e.reply, e.language, e.newId, e.now);
  }

  lemma LateCommitConflicts(c: Config, s: System, e: Step)
    requires Inv(c, s) && Enabled(c, s, e) && e.CommitTurn?
    requires s.db.session.expectedTurn != Some(s.procs[e.pid].turn)
    ensures Apply(c, s, e).db == s.db && Apply(c, s, e).procs[e.pid].pc == Finished(Conflict)
  {
    LatePlanConflicts(c, s.db, s.procs[e.pid], e);
    assert Apply(c, s, e) == ApplyCommit(c, s, e);
  }

  lemma LatePlanConflicts(c: Config, db: Db, p: Proc, e: Step)
    requires e.CommitTurn? && Admitted(c, p) && p.pc.snap.current.Some? && db.session.expectedTurn != Some(p.turn)
    ensures CommitOutcome(db, PlanOf(c, p, e.reply, e.language, e.newId, e.now)).TurnConflict?
  {
    assert Blank("");
    PlanIssues(c, p, e);
  }

  lemma PlanIssues(c: Config, p: Proc, e: Step)
    requires e.CommitTurn? && p.pc.Ready? && p.pc.snap.current.Some?
    ensures var plan := PlanOf(c, p, e.reply, e.language, e.newId, e.now);
            plan.evaluation.Some? && (!Blank(plan.nextArea) ==> plan.nextIssued.Some?) && plan.expectedTurn == p.turn
  {
  }

  // ----- the time an answer is charged -----

  /** The nearest whole number of seconds to d microseconds, halves upwards, within the limit. */
  predicate IsCharge(d: int, limit: nat, seconds: int) {
    if d < 0 then seconds == 0
    else if d > limit * 1_000_000 then seconds == limit
    else 1_000_000 * seconds - 500_000 <= d < 1_000_000 * seconds + 500_000
  }

  lemma ChargeIsNearest(issuedAt: int, submittedAt: int, limit: nat)
    ensures IsCharge(submittedAt - issuedAt, limit, Charge(issuedAt, submittedAt, limit))
  {
  }

  function IssuedAt(session: SessionRow): int { if session.active.Some? then session.active.value.issuedAt else 0 }

  /** A stored answer is charged the time from the issue of its question to its submission. */
  lemma AnswerIsCharged(c: Config, s: System, e: Step)
    requires ValidConfig(c) && Inv(c, s) && Enabled(c, s, e) && Commits(c, s, e)
    ensures s.db.session.active.Some?
    ensures IsCharge(s.procs[e.pid].submittedAt - IssuedAt(s.db.session), c.limit,
                     Apply(c, s, e).db.session.lapsed - s.db.session.lapsed)
  {
    var p, plan := TheCommit(c, s, e);
    ChargeIsNearest(IssuedAt(s.db.session), p.submittedAt, c.limit);
  }

  lemma TurnStepChargesNothing(c: Config, s: System, e: Step)
    requires Enabled(c, s, e) && !IsStartStep(e) && !Commits(c, s, e)
    ensures Apply(c, s, e).db.session.lapsed == s.db.session.lapsed
  {
    if e.CommitTurn? {
      assert Apply(c, s, e) == ApplyCommit(c, s, e);
      assert Apply(c, s, e).db == s.db;
    } else if e.AdvanceTurn? {
      assert Apply(c, s, e) == ApplyAdvance(c, s, e);
    }
  }

  lemma StartStepChargesNothing(c: Config, s: System, e: Step)
    requires Enabled(c, s, e) && IsStartStep(e)
    ensures Apply(c, s, e).db.session.lapsed == s.db.session.lapsed
  {
  }

  /** When a committed answer's question was issued and when the answer was submitted. */
  datatype Span = Span(turn: string, issuedAt: int, submittedAt: int)

  ghost function SpanOf(c: Config, s: System, e: Step): seq<Span>
    requires Enabled(c, s, e)
  {
    if Commits(c, s, e) then [Span(s.procs[e.pid].turn, IssuedAt(s.db.session), s.procs[e.pid].submittedAt)] else []
  }

  ghost function Spans(c: Config, es: seq<Step>): seq<Span>
    requires Runnable(c, Init(c), es)
    decreases |es|
  {
    if es == [] then []
    else Spans(c, es[..|es| - 1]) + SpanOf(c, After(c, Init(c), es[..|es| - 1]), es[|es| - 1])
  }

  function Sum(ns: seq<int>): int { if ns == [] then 0 else Sum(ns[..|ns| - 1]) + ns[|ns| - 1] }

  /** The spans are those of the answers, in order, and each was charged its nearest seconds. */
  ghost predicate Accounts(spans: seq<Span>, charges: seq<int>, answers: seq<AnswerRow>, limit: nat) {
    && |spans| == |charges| == |answers|
    && (forall i :: 0 <= i < |spans| ==> answers[i].turn == spans[i].turn)
    && (forall i :: 0 <= i < |spans| ==> IsCharge(spans[i].submittedAt - spans[i].issuedAt, limit, charges[i]))
  }

  lemma AccountsGrow(spans: seq<Span>, charges: seq<int>, answers: seq<AnswerRow>, limit: nat,
                     span: Span, charge: int, row: AnswerRow)
    requires Accounts(spans, charges, answers, limit) && row.turn == span.turn
    requires IsCharge(span.submittedAt - span.issuedAt, limit, charge)
    ensures Accounts(spans + [span], charges + [charge], answers + [row], limit)
    ensures Sum(charges + [charge]) == Sum(charges) + charge
  {
    assert (charges + [charge])[..|charges|] == charges;
  }

  lemma CommitAddsAnswer(c: Config, s: System, e: Step) returns (row: AnswerRow)
    requires ValidConfig(c) && Inv(c, s) && Enabled(c, s, e) && Commits(c, s, e)
    ensures Apply(c, s, e).db.answers == s.db.answers + [row] && row.turn == s.procs[e.pid].turn
  {
    var p, plan := TheCommit(c, s, e);
    row := AnswerOf(plan);
  }

  lemma OtherStepsChargeNothing(c: Config, s: System, e: Step)
    requires Enabled(c, s, e) && !Commits(c, s, e)
    ensures Apply(c, s, e).db.session.lapsed == s.db.session.lapsed && Apply(c, s, e).db.answers == s.db.answers
  {
    OtherStepsAreQuiet(c, s, e);
    if IsStartStep(e) { StartStepChargesNothing(c, s, e); } else { TurnStepChargesNothing(c, s, e); }
  }

  /** What a step adds to the answers, their spans and the lapsed time. */
  ghost predicate Balances(spans: seq<Span>, charges: seq<int>, db: Db, limit: nat) {
    Accounts(spans, charges, db.answers, limit) && db.session.lapsed == Sum(charges)
  }

  lemma CommitIsCharged(c: Config, s: System, e: Step, spans: seq<Span>, charges: seq<int>) returns (after: seq<int>)
    requires ValidConfig(c) && Inv(c, s) && Enabled(c, s, e) && Commits(c, s, e)
    requires Balances(spans, charges, s.db, c.limit)
    ensures Balances(spans + SpanOf(c, s, e), after, Apply(c, s, e).db, c.limit)
  {
    AnswerIsCharged(c, s, e);
    var row := CommitAddsAnswer(c, s, e);
    var charge := Apply(c, s, e).db.session.lapsed - s.db.session.lapsed;
    AccountsGrow(spans, charges, s.db.answers, c.limit, SpanOf(c, s, e)[0], charge, row);
    after := charges + [charge];
  }

  lemma StepIsCharged(c: Config, s: System, e: Step, spans: seq<Span>, charges: seq<int>) returns (after: seq<int>)
    requires ValidConfig(c) && Inv(c, s) && Enabled(c, s, e)
    requires Balances(spans, charges, s.db, c.limit)
    ensures Balances(spans + SpanOf(c, s, e), after, Apply(c, s, e).db, c.limit)
  {
    after := charges;
    if Commits(c, s, e) {
      after := CommitIsCharged(c, s, e, spans, charges);
    } else {
      OtherStepsChargeNothing(c, s, e);
      assert spans + SpanOf(c, s, e) == spans;
    }
  }

  /** Over every run the lapsed time is the sum of what the stored answers were charged, each from its own question's
      issue to its own submission. */
  lemma {:induction false} LapsedIsTheSum(c: Config, es: seq<Step>) returns (charges: seq<int>)
    requires ValidConfig(c) && Runnable(c, Init(c), es)
    ensures Balances(Spans(c, es), charges, After(c, Init(c), es).db, c.limit)
    decreases |es|
  {
    charges := [];
    if es != [] {
      var init := es[..|es| - 1];
      charges := LapsedIsTheSum(c, init);
      RunKeepsInv(c, init);
      charges := StepIsCharged(c, After(c, Init(c), init), es[|es| - 1], Spans(c, init), charges);
    }
  }

  // ----- the time that is left -----

  /** How many microseconds the running criterion question has been open, within the limit. */
  function OpenFor(flow: Flow, at: int, limit: nat): int {
    if !flow.step.Criterion? || flow.active.None? || !flow.active.value.kind.CriterionKind? then 0
    else if at < flow.active.value.issuedAt then 0
    else if at - flow.active.value.issuedAt > limit * 1_000_000 then limit * 1_000_000
    else at - flow.active.value.issuedAt
  }

  /** The seconds left are what the budget leaves of the time charged and the time the question has been open, rounded
      up to whole seconds, and nothing once that is used up. */
  lemma TimeLeftIsExact(budget: int, lapsed: int, flow: Flow, at: int, limit: nat)
    ensures var left, exact := TimeRemaining(budget, lapsed, flow, at, limit),
                               (budget - lapsed) * 1_000_000 - OpenFor(flow, at, limit);
            if exact <= 0 then left == 0 else 1_000_000 * (left - 1) < exact <= 1_000_000 * left
  {
  }

  /** What every delivery of an expected turn meets before its step: it is admitted exactly while budget is left, and
      times out exactly when none is. */
  lemma AdmittedIffTimeIsLeft(c: Config, s: System, pid: nat, todo: seq<string>)
    requires pid in s.procs && s.procs[pid].pc.Ready? && !s.procs[pid].pc.snap.flow.step.Done?
    requires !Blank(s.procs[pid].turn) && s.procs[pid].turn == s.procs[pid].pc.snap.flow.expectedTurn
    requires forall a :: a in todo <==>
                           a in s.procs[pid].pc.snap.areas && Unresolved(s.procs[pid].pc.snap.areas[a].status)
    ensures var p := s.procs[pid];
            var open := OpenFor(p.pc.snap.flow, p.submittedAt, c.limit);
            && (Admitted(c, p) <==> open < (c.budget - p.pc.snap.lapsed) * 1_000_000)
            && (Enabled(c, s, TimeOut(pid, todo)) <==> open >= (c.budget - p.pc.snap.lapsed) * 1_000_000)
  {
    var p := s.procs[pid];
    TimeLeftIsExact(c.budget, p.pc.snap.lapsed, p.pc.snap.flow, p.submittedAt, c.limit);
  }

  // ----- how the area asked about is judged -----

  /** The reply judges the criterion of this area. */
  predicate JudgesArea(c: Config, reply: AiReply, area: string) {
    && reply.Reply? && reply.evaluation.Some?
    && exists i :: 0 <= i < |c.areas| && c.areas[i].slug == area && c.areas[i].id == reply.evaluation.value.current.id
  }

  lemma {:induction false} IdOfArea(areas: seq<AreaConfig>, i: nat)
    requires i < |areas| && forall j :: 0 <= j < i ==> areas[j].slug != areas[i].slug
    ensures CriterionId(areas, areas[i].slug) == areas[i].id
  {
    if i > 0 { IdOfArea(areas[1..], i - 1); }
  }

  lemma JudgeUsesReply(c: Config, reply: AiReply, area: string)
    requires ValidConfig(c) && area in c.order
    ensures JudgesArea(c, reply, area) <==>
            reply.Reply? && reply.evaluation.Some? && reply.evaluation.value.current.id == CriterionId(c.areas, area)
  {
    ValidOrder(c);
    var i :| 0 <= i < |c.order| && c.order[i] == area;
    forall j | 0 <= j < |c.areas| && c.areas[j].slug == area
      ensures j == i
    {
      assert c.order[j] == c.order[i];
      assert !(j < i) && !(i < j);
    }
    IdOfArea(c.areas, i);
  }

  /** What a committed answer makes of the row asked about. */
  predicate JudgedAs(before: AreaRow, after: AreaRow, judged: bool, current: CurrentCriterion) {
    var sufficient := judged && Trim(current.status) == "sufficient";
    var givenUp := judged && Trim(current.recommendation) == "move_on";
    var last := before.count == 5;
    && after.count == before.count + 1 && after.evidence == before.evidence
    && (after.status.Complete? <==> sufficient)
    && (after.status.Insufficient? <==> !sufficient && (givenUp || last))
    && (after.status.InProgress? <==> !sufficient && !givenUp && !last)
  }

  lemma RowIsJudged(before: AreaRow, p: CommitParams, reply: AiReply, criterion: int)
    requires p.evaluation == Some(Judge(reply, criterion))
    requires p.decision == Decide(Judge(reply, criterion).current, before.count + 1, MAX_QUESTIONS_PER_AREA)
    requires before.status.InProgress? && before.count <= 5
    requires p.decision.action.Next? ==> p.nextArea != p.current
    ensures var judges := reply.Reply? && reply.evaluation.Some? && reply.evaluation.value.current.id == criterion;
            var current := if judges then reply.evaluation.value.current else CurrentCriterion(0, "", "");
            JudgedAs(before, CommitRow(p.current, before, p), judges, current)
  {
    assert Trim("partially_sufficient") == "partially_sufficient" && Trim("follow_up") == "follow_up";
    assert "partially_sufficient"[0] == 'p' && "sufficient"[0] == 's' && "follow_up"[0] == 'f' && "move_on"[0] == 'm';
  }

  /** A committed answer judges the area its delivery asked about. */
  ghost predicate AreaJudged(c: Config, p: Proc, reply: AiReply, a: Db, b: Db) {
    && p.pc.Ready? && p.pc.snap.current.Some?
    && var area := p.pc.snap.current.value.area;
       var judged := JudgesArea(c, reply, area);
       && area in a.areas && a.areas[area].status.InProgress? && area in b.areas
       && JudgedAs(a.areas[area], b.areas[area], judged,
                   if judged then reply.evaluation.value.current else CurrentCriterion(0, "", ""))
  }

  lemma PlanJudges(c: Config, db: Db, p: Proc, e: Step, plan: CommitParams)
    requires ValidConfig(c) && GoodOrder(c.order) && DbInv(c, db) && CommitReady(c, db, p, plan) && e.CommitTurn?
    requires plan == PlanOf(c, p, e.reply, e.language, e.newId, e.now) && CommitOutcome(db, plan).Committed?
    ensures AreaJudged(c, p, e.reply, db, Commit(db, plan))
  {
    assert plan.current in c.order && CountFits(db.areas[plan.current]);
    JudgeUsesReply(c, e.reply, plan.current);
    var q := CommitPosition(c, db, p, plan);
    RowIsJudged(db.areas[plan.current], plan, e.reply, CriterionId(c.areas, plan.current));
  }

  /** The area asked about becomes complete exactly when the reply judges it sufficient; insufficient exactly when not
      and the reply says to move on or this was the sixth question; and stays in progress exactly otherwise. A reply
      that is missing, exhausted or about another criterion says neither. */
  lemma AreaIsJudged(c: Config, s: System, e: Step)
    requires ValidConfig(c) && Inv(c, s) && Enabled(c, s, e) && Commits(c, s, e)
    ensures AreaJudged(c, s.procs[e.pid], e.reply, s.db, Apply(c, s, e).db)
  {
    var p, plan := TheCommit(c, s, e);
    PlanJudges(c, s.db, p, e, plan);
  }

  // ----- what is stored -----

  /** The answer as given, or the placeholder of its language, in that language's column. */
  predicate IsTranscript(answer: string, language: string, es: string, en: string) {
    var english := Lower(Trim(language)) == "en";
    var text := if !Blank(answer) then answer
                else if english then "[No response provided]" else "[No se proporciono respuesta]";
    if english then en == text && es == "" else es == text && en == ""
  }

  lemma EnglishIs(language: string)
    ensures EqualFold(Trim(language), "en") <==> Lower(Trim(language)) == "en"
  {
    assert Lower("en") == "en";
  }

  lemma PlaceholdersAreTexts()
    ensures !Blank("[No response provided]") && !Blank("[No se proporciono respuesta]") && Blank("")
  {
    TrimRightKeepsHead("[No response provided]");
    TrimRightKeepsHead("[No se proporciono respuesta]");
  }

  /** The stored answer carries the turn, the area, the question, the answer in its language and the judged status. */
  ghost predicate AnswerStored(c: Config, p: Proc, reply: AiReply, language: string, a: Db, b: Db) {
    && |b.answers| == |a.answers| + 1 && b.answers[..|a.answers|] == a.answers
    && var row := b.answers[|a.answers|];
       && row.turn == p.turn && row.questionText == p.question
       && p.pc.Ready? && p.pc.snap.current.Some? && row.area == p.pc.snap.current.value.area
       && IsTranscript(p.answer, language, row.transcriptEs, row.transcriptEn)
       && (if JudgesArea(c, reply, row.area) then
             var status := reply.evaluation.value.current.status;
             row.sufficiency == if Blank(status) then "" else status
           else row.sufficiency == "partially_sufficient")
  }

  lemma TranscriptIsStored(plan: CommitParams, answer: string)
    requires plan.evaluation.Some? && plan.answerText == AnswerText(answer, plan.language)
    ensures IsTranscript(answer, plan.language, AnswerOf(plan).transcriptEs, AnswerOf(plan).transcriptEn)
  {
    EnglishIs(plan.language);
    PlaceholdersAreTexts();
  }

  lemma StatusIsStored(plan: CommitParams, reply: AiReply, criterion: int)
    requires plan.evaluation == Some(Judge(reply, criterion))
    ensures AnswerOf(plan).sufficiency ==
            if reply.Reply? && reply.evaluation.Some? && reply.evaluation.value.current.id == criterion then
              if Blank(reply.evaluation.value.current.status) then "" else reply.evaluation.value.current.status
            else "partially_sufficient"
  {
    assert !Blank("partially_sufficient") by { TrimRightKeepsHead("partially_sufficient"); }
  }

  lemma PlanStores(c: Config, db: Db, p: Proc, e: Step, plan: CommitParams)
    requires ValidConfig(c) && CommitReady(c, db, p, plan) && plan.current in c.order && e.CommitTurn?
    requires plan == PlanOf(c, p, e.reply, e.language, e.newId, e.now) && CommitOutcome(db, plan).Committed?
    ensures AnswerStored(c, p, e.reply, e.language, db, Commit(db, plan))
  {
    JudgeUsesReply(c, e.reply, plan.current);
    TranscriptIsStored(plan, p.answer);
    StatusIsStored(plan, e.reply, CriterionId(c.areas, plan.current));
    assert Commit(db, plan).answers == db.answers + [AnswerOf(plan)];
  }

  lemma AnswerIsStored(c: Config, s: System, e: Step)
    requires ValidConfig(c) && Inv(c, s) && Enabled(c, s, e) && Commits(c, s, e)
    ensures AnswerStored(c, s.procs[e.pid], e.reply, e.language, s.db, Apply(c, s, e).db)
  {
    var p, plan := TheCommit(c, s, e);
    PlanStores(c, s.db, p, e, plan);
  }

  // ----- the question that comes next -----

  /** A criterion question put at this moment, open for the time limit. */
  predicate AskedNow(session: SessionRow, turn: string, area: string, kind: QuestionKind, now: int, limit: nat) {
    && session.expectedTurn == Some(turn)
    && session.active == Some(ActiveQuestion(area, kind, now, now + limit * 1_000_000))
  }

  /** The area the next question is about: the same one while it is in progress, else the first configured one that the
      delivery had read as pending or pre-addressed, other than the one just closed. */
  predicate IsNextArea(order: seq<string>, read: AreaTable, current: string, closed: bool, next: string) {
    if !closed then next == current
    else
      exists q :: 0 <= q < |order| && order[q] == next && IsWaiting(read, current, next)
                  && forall i :: 0 <= i < q ==> !IsWaiting(read, current, order[i])
  }

  predicate IsWaiting(read: AreaTable, current: string, a: string) {
    a != current && a in read && (read[a].status == Pending || read[a].status == PreAddressed)
  }

  lemma SelectedIsWaiting(order: seq<string>, read: AreaTable, current: string, d: Decision)
    requires GoodOrder(order) && ValidDecision(d) && d.action.Next?
    ensures var next := NextAreaIn(read, current, d, order);
            if next == "" then forall a :: a in order ==> !IsWaiting(read, current, a)
            else IsNextArea(order, read, current, true, next)
  {
    var status := Marked(StatusOf(read), current, d);
    var q := SelectionIsFirstOpen(order, status);
    forall a | a in order
      ensures IsWaiting(read, current, a) <==> a in status && Open(status[a])
    {
    }
    if NextAreaIn(read, current, d, order) != "" {
      assert order[q] in order;
      forall i | 0 <= i < q
        ensures !IsWaiting(read, current, order[i])
      {
        assert order[i] in order;
      }
    }
  }

  /** After a stored answer the flow asks the next question under the new turn id, or is done exactly when the area was
      closed and no area was waiting. */
  ghost predicate NextAsked(c: Config, p: Proc, turn: string, now: int, a: Db, b: Db) {
    && p.pc.Ready? && p.pc.snap.current.Some?
    && b.session.number == a.session.number + 1
    && var area, read := p.pc.snap.current.value.area, p.pc.snap.areas;
       var closed := area in b.areas && !b.areas[area].status.InProgress?;
       if closed && forall x :: x in c.order ==> !IsWaiting(read, area, x) then
         b.session.step == Done && b.session.expectedTurn == None && b.session.active == None
       else
         && b.session.step == Criterion && b.session.active.Some?
         && IsNextArea(c.order, read, area, closed, b.session.active.value.area)
         && AskedNow(b.session, turn, b.session.active.value.area, CriterionKind, now, c.limit)
  }

  lemma SessionAsks(a: SessionRow, plan: CommitParams, now: int)
    requires plan.nextArea != "" && plan.nextIssued.Some? && !Blank(plan.nextIssued.value.turnId)
    requires plan.nextIssued.value.number == a.number + 1
    requires plan.nextIssued.value.question ==
             ActiveQuestion(plan.nextArea, CriterionKind, now, now + plan.limit * 1_000_000)
    ensures var b := CommitSession(a, plan);
            && b.number == a.number + 1 && b.step == Criterion && b.active.Some? && b.active.value.area == plan.nextArea
            && AskedNow(b, plan.nextIssued.value.turnId, plan.nextArea, CriterionKind, now, plan.limit)
  {
  }

  lemma SessionEnds(a: SessionRow, plan: CommitParams)
    requires plan.nextArea == "" && plan.nextIssued.None?
    ensures var b := CommitSession(a, plan);
            b.number == a.number + 1 && b.step == Done && b.expectedTurn == None && b.active == None
  {
  }

  lemma ClosedIffMovingOn(c: Config, db: Db, p: Proc, plan: CommitParams)
    requires GoodOrder(c.order) && AreasInv(c.order, db.areas) && CommitReady(c, db, p, plan)
    ensures plan.current in CommitAreas(db.areas, plan)
    ensures !CommitAreas(db.areas, plan)[plan.current].status.InProgress? <==> plan.decision.action.Next?
    ensures plan.decision.action.Stay? ==> plan.nextArea == plan.current
  {
    var q := CommitPosition(c, db, p, plan);
    CommitMoves(c, db, p, plan);
    assert RowMoved(plan.current, db.areas[plan.current], CommitAreas(db.areas, plan)[plan.current],
                    plan.current, plan.decision.action, plan.nextArea);
  }

  lemma NextAreaIsNext(c: Config, db: Db, p: Proc, plan: CommitParams)
    requires GoodOrder(c.order) && CommitReady(c, db, p, plan) && plan.current != ""
    requires plan.decision.action.Stay? ==> plan.nextArea == plan.current
    ensures var read := p.pc.snap.areas;
            if plan.nextArea == "" then
              plan.decision.action.Next? && forall x :: x in c.order ==> !IsWaiting(read, plan.current, x)
            else
              && IsNextArea(c.order, read, plan.current, plan.decision.action.Next?, plan.nextArea)
              && (plan.decision.action.Next? ==>
                  plan.nextArea in c.order && IsWaiting(read, plan.current, plan.nextArea))
  {
    if plan.decision.action.Next? { SelectedIsWaiting(c.order, p.pc.snap.areas, plan.current, plan.decision); }
  }

  lemma NextAskedIs(c: Config, p: Proc, turn: string, now: int, a: Db, b: Db, plan: CommitParams)
    requires p.pc.Ready? && p.pc.snap.current.Some? && p.pc.snap.current.value.area == plan.current
    requires plan.current in b.areas && b.session.number == a.session.number + 1
    requires !b.areas[plan.current].status.InProgress? <==> plan.decision.action.Next?
    requires if plan.nextArea == "" then
               && plan.decision.action.Next?
                  && (forall x :: x in c.order ==> !IsWaiting(p.pc.snap.areas, plan.current, x))
               && b.session.step == Done && b.session.expectedTurn == None && b.session.active == None
             else
               && IsNextArea(c.order, p.pc.snap.areas, plan.current, plan.decision.action.Next?, plan.nextArea)
               && (plan.decision.action.Next? ==>
                     plan.nextArea in c.order && IsWaiting(p.pc.snap.areas, plan.current, plan.nextArea))
               && b.session.step == Criterion && b.session.active.Some? && b.session.active.value.area == plan.nextArea
               && AskedNow(b.session, turn, plan.nextArea, CriterionKind, now, c.limit)
    ensures NextAsked(c, p, turn, now, a, b)
  {
  }

  lemma CommitSessionAsks(c: Config, db: Db, p: Proc, plan: CommitParams, turn: string, now: int)
    requires CommitReady(c, db, p, plan) && CommitOutcome(db, plan).Committed? && !Blank(turn)
    requires IssuesNow(plan, c.limit, turn, now)
    ensures var b := Commit(db, plan).session;
            && b.number == db.session.number + 1
            && (if plan.nextArea == "" then b.step == Done && b.expectedTurn == None && b.active == None
                else b.step == Criterion && b.active.Some? && b.active.value.area == plan.nextArea
                     && AskedNow(b, turn, plan.nextArea, CriterionKind, now, c.limit))
  {
    if plan.nextArea == "" { SessionEnds(db.session, plan); } else { SessionAsks(db.session, plan, now); }
  }

  predicate IssuesNow(plan: CommitParams, limit: nat, turn: string, now: int) {
    plan.nextIssued.Some? ==>
      && plan.nextIssued.value.turnId == turn
      && plan.nextIssued.value.question ==
         ActiveQuestion(plan.nextArea, CriterionKind, now, now + limit * 1_000_000)
  }

  lemma PlanAsks(c: Config, db: Db, p: Proc, plan: CommitParams, turn: string, now: int)
    requires GoodOrder(c.order) && AreasInv(c.order, db.areas) && CommitReady(c, db, p, plan)
    requires CommitOutcome(db, plan).Committed? && !Blank(turn) && IssuesNow(plan, c.limit, turn, now)
    ensures NextAsked(c, p, turn, now, db, Commit(db, plan))
  {
    assert plan.current in c.order;
    ClosedIffMovingOn(c, db, p, plan);
    NextAreaIsNext(c, db, p, plan);
    CommitSessionAsks(c, db, p, plan, turn, now);
    NextAskedIs(c, p, turn, now, db, Commit(db, plan), plan);
  }

  lemma IssuedNow(c: Config, p: Proc, e: Step)
    requires e.CommitTurn? && p.pc.Ready? && p.pc.snap.current.Some?
    ensures IssuesNow(PlanOf(c, p, e.reply, e.language, e.newId, e.now), c.limit, e.newId, e.now)
  {
  }

  lemma CommitAsks(c: Config, db: Db, p: Proc, e: Step, plan: CommitParams)
    requires ValidConfig(c) && GoodOrder(c.order) && DbInv(c, db) && CommitReady(c, db, p, plan) && e.CommitTurn?
    requires plan == PlanOf(c, p, e.reply, e.language, e.newId, e.now) && CommitOutcome(db, plan).Committed?
    requires !Blank(e.newId)
    ensures NextAsked(c, p, e.newId, e.now, db, Commit(db, plan))
  {
    IssuedNow(c, p, e);
    PlanAsks(c, db, p, plan, e.newId, e.now);
  }

  lemma NextQuestionIsAsked(c: Config, s: System, e: Step)
    requires ValidConfig(c) && Inv(c, s) && Enabled(c, s, e) && Commits(c, s, e)
    ensures NextAsked(c, s.procs[e.pid], e.newId, e.now, s.db, Apply(c, s, e).db)
  {
    var p, plan := TheCommit(c, s, e);
    CommitAsks(c, s.db, p, e, plan);
  }

  // ----- the other areas -----

  /** What a committed answer makes of a row it did not ask about: the first flag on a pending area pre-addresses it,
      the area moved on to is entered if it was waiting, and nothing else changes. */
  predicate RowFlagged(before: AreaRow, after: AreaRow, flags: seq<PreAddressedArea>, a: string, entered: bool) {
    var waiting := before.status == Pending || before.status == PreAddressed;
    && after.count == before.count
    && (if before.status == Pending && exists k :: 0 <= k < |flags| && FirstOf(flags, k, a) then
          exists k :: 0 <= k < |flags| && FirstOf(flags, k, a)
                      && after.evidence == if Blank(flags[k].evidence) then "" else flags[k].evidence
        else after.evidence == before.evidence)
    && after.status == if entered && waiting then InProgress
                       else if before.status == Pending && exists k :: 0 <= k < |flags| && FirstOf(flags, k, a)
                       then PreAddressed else before.status
  }

  predicate FirstOf(flags: seq<PreAddressedArea>, k: nat, a: string) {
    k < |flags| && flags[k].slug == a && forall i :: 0 <= i < k ==> flags[i].slug != a
  }

  lemma FirstOfIsFound(slugs: seq<string>, flags: seq<PreAddressedArea>, a: string)
    requires FoldDistinct(slugs) && a in slugs && !Blank(a) && FlagsConfigured(slugs, flags)
    ensures FirstEvidence(flags, a).None? <==> forall k :: 0 <= k < |flags| ==> !FirstOf(flags, k, a)
    ensures forall k :: 0 <= k < |flags| && FirstOf(flags, k, a) ==> FirstEvidence(flags, a) == Some(flags[k].evidence)
  {
    EvidenceSameFlags(slugs, flags, a);
    if k :| 0 <= k < |flags| && flags[k].slug == a {
      var first := FirstIndex(flags, a, k);
    }
    forall k | 0 <= k < |flags| && FirstOf(flags, k, a)
      ensures FirstEvidence(flags, a) == Some(flags[k].evidence)
    {
      assert FirstNamed(flags, k, a) by {
        forall i: nat | i < k
          ensures !TurnStore.Names(flags, i, a)
        {
        }
      }
      FirstEvidenceIs(slugs, flags, k, a);
    }
  }

  lemma {:induction false} FirstIndex(flags: seq<PreAddressedArea>, a: string, k: nat) returns (first: nat)
    requires k < |flags| && flags[k].slug == a
    ensures first <= k && FirstOf(flags, first, a)
    decreases k
  {
    if i :| 0 <= i < k && flags[i].slug == a {
      first := FirstIndex(flags, a, i);
    } else {
      first := k;
    }
  }

  /** The flags of the reply, if it judged the criterion asked about. */
  function FlagsOf(c: Config, reply: AiReply, area: string): seq<PreAddressedArea> {
    if JudgesArea(c, reply, area) then PreAddressedOf(c.areas, reply.evaluation.value.other) else []
  }

  lemma OtherRowIsFlagged(c: Config, row: AreaRow, plan: CommitParams, a: string)
    requires FoldDistinct(c.order) && a in c.order && !Blank(a) && FlagsConfigured(c.order, plan.flags)
    requires a != plan.current && (plan.nextArea == "" || !Blank(plan.nextArea))
    ensures RowFlagged(row, CommitRow(a, row, plan), plan.flags, a, plan.decision.action.Next? && a == plan.nextArea)
  {
    FirstOfIsFound(c.order, plan.flags, a);
  }

  lemma PlanFlags(c: Config, p: Proc, e: Step)
    requires ValidConfig(c) && e.CommitTurn? && p.pc.Ready? && p.pc.snap.current.Some?
    requires p.pc.snap.current.value.area in c.order
    ensures PlanOf(c, p, e.reply, e.language, e.newId, e.now).flags == FlagsOf(c, e.reply, p.pc.snap.current.value.area)
  {
    JudgeUsesReply(c, e.reply, p.pc.snap.current.value.area);
  }

  /** Every area but the one asked about. */
  ghost predicate OthersFlagged(c: Config, p: Proc, reply: AiReply, a: Db, b: Db) {
    && p.pc.Ready? && p.pc.snap.current.Some? && b.areas.Keys == a.areas.Keys
    && var area := p.pc.snap.current.value.area;
       area in b.areas && forall x :: x in a.areas && x != area ==>
         RowFlagged(a.areas[x], b.areas[x], FlagsOf(c, reply, area), x,
                    !b.areas[area].status.InProgress? && b.session.active.Some? && x == b.session.active.value.area)
  }

  lemma EnteredIsNext(c: Config, db: Db, p: Proc, plan: CommitParams, x: string)
    requires CommitReady(c, db, p, plan) && CommitOutcome(db, plan).Committed? && x != ""
    ensures var active := Commit(db, plan).session.active;
            active.Some? && x == active.value.area <==> x == plan.nextArea
  {
  }

  lemma PlanFlagsOthers(c: Config, db: Db, p: Proc, plan: CommitParams, reply: AiReply)
    requires FoldDistinct(c.order) && GoodOrder(c.order) && AreasInv(c.order, db.areas) && CommitReady(c, db, p, plan)
    requires CommitOutcome(db, plan).Committed? && plan.flags == FlagsOf(c, reply, plan.current)
    ensures OthersFlagged(c, p, reply, db, Commit(db, plan))
  {
    ClosedIffMovingOn(c, db, p, plan);
    PlanRowsFlagged(c, db, p, plan);
    assert Commit(db, plan).areas == CommitAreas(db.areas, plan);
    forall x | x in db.areas && x != plan.current
      ensures Commit(db, plan).session.active.Some? && x == Commit(db, plan).session.active.value.area
              <==> x == plan.nextArea
    {
      EnteredIsNext(c, db, p, plan, x);
    }
  }

  ghost predicate RowsFlagged(plan: CommitParams, a: map<string, AreaRow>, b: map<string, AreaRow>) {
    && b.Keys == a.Keys
    && forall x :: x in a && x != plan.current ==>
         RowFlagged(a[x], b[x], plan.flags, x, plan.decision.action.Next? && x == plan.nextArea)
  }

  lemma PlanRowsFlagged(c: Config, db: Db, p: Proc, plan: CommitParams)
    requires FoldDistinct(c.order) && GoodOrder(c.order) && AreasInv(c.order, db.areas) && CommitReady(c, db, p, plan)
    requires FlagsConfigured(c.order, plan.flags)
    ensures RowsFlagged(plan, db.areas, CommitAreas(db.areas, plan))
  {
    forall x | x in db.areas && x != plan.current
      ensures RowFlagged(db.areas[x], CommitAreas(db.areas, plan)[x], plan.flags, x,
                         plan.decision.action.Next? && x == plan.nextArea)
    {
      OtherRowIsFlagged(c, db.areas[x], plan, x);
    }
  }

  lemma OtherAreasAreFlagged(c: Config, s: System, e: Step)
    requires ValidConfig(c) && Inv(c, s) && Enabled(c, s, e) && Commits(c, s, e)
    ensures OthersFlagged(c, s.procs[e.pid], e.reply, s.db, Apply(c, s, e).db)
  {
    var p, plan := TheCommit(c, s, e);
    assert plan.current in c.order;
    ValidOrder(c);
    PlanFlags(c, p, e);
    PlanFlagsOthers(c, s.db, p, plan, e.reply);
  }

  // ----- disclaimer, readiness, start and end -----

  /** A disclaimer answer asks for readiness under the same number, a readiness answer puts the first criterion
      question; either leaves its event and nothing else. */
  ghost predicate StepAdvanced(p: Proc, turn: string, now: int, limit: nat, a: Db, b: Db) {
    && p.pc.Ready? && p.pc.snap.current.Some?
    && var area := p.pc.snap.current.value.area;
       && b.areas == a.areas && b.answers == a.answers && b.session.lapsed == a.session.lapsed
       && b.session.status == a.session.status
       && (if a.session.step == Disclaimer then
             && b.session.step == Readiness && b.session.number == a.session.number
             && b.events == a.events + [DisclaimerAck]
             && AskedNow(b.session, turn, area, ReadinessKind, now, limit)
           else
             && a.session.step == Readiness && b.session.step == Criterion
             && b.session.number == a.session.number + 1 && b.events == a.events + [ReadinessAck]
             && AskedNow(b.session, turn, area, CriterionKind, now, limit))
  }

  ghost predicate AdvanceEnds(s: System, e: Step, limit: nat, s': System)
    requires e.AdvanceTurn? && e.pid in s.procs
  {
    && e.pid in s'.procs
    && if s.db.session.expectedTurn == Some(s.procs[e.pid].turn) then
         && StepAdvanced(s.procs[e.pid], e.newId, e.now, limit, s.db, s'.db)
         && s'.procs[e.pid].pc == Finished(NextQuestion(e.newId))
       else s'.db == s.db && s'.procs[e.pid].pc == Finished(Conflict)
  }

  lemma AdvancedRows(c: Config, db: Db, p: Proc, newId: string, now: int)
    requires Admitted(c, p) && p.pc.snap.current.Some? && db.session.expectedTurn == Some(p.turn)
    requires p.pc.snap.flow == ReadFlow(db.session) && db.session.number >= 1
    requires p.pc.snap.flow.step.Disclaimer? || p.pc.snap.flow.step.Readiness?
    ensures var plan := AdvanceOf(c, p, newId, now);
            AdvanceOutcome(db, plan).Committed? && StepAdvanced(p, newId, now, c.limit, db, Advance(db, plan))
  {
  }

  /** An admitted disclaimer or readiness answer advances the flow if and only if its turn is still the one expected. */
  lemma AdvancesIffExpected(c: Config, s: System, e: Step)
    requires ValidConfig(c) && Inv(c, s) && Enabled(c, s, e) && e.AdvanceTurn?
    ensures AdvanceEnds(s, e, c.limit, Apply(c, s, e))
  {
    assert Apply(c, s, e) == ApplyAdvance(c, s, e);
    if s.db.session.expectedTurn == Some(s.procs[e.pid].turn) {
      ExpectedAdvances(c, s, e);
    } else {
      LateAdvanceConflicts(c, s.db, s.procs[e.pid], e.newId, e.now);
    }
  }

  lemma ExpectedAdvances(c: Config, s: System, e: Step)
    requires ValidConfig(c) && Inv(c, s) && Enabled(c, s, e) && e.AdvanceTurn?
    requires s.db.session.expectedTurn == Some(s.procs[e.pid].turn)
    ensures AdvanceEnds(s, e, c.limit, ApplyAdvance(c, s, e))
  {
    assert ProcAgrees(s.procs[e.pid], s.db);
    assert Blank("");
    AdvancedRows(c, s.db, s.procs[e.pid], e.newId, e.now);
  }

  lemma LateAdvanceConflicts(c: Config, db: Db, p: Proc, newId: string, now: int)
    requires Admitted(c, p) && p.pc.snap.current.Some? && db.session.expectedTurn != Some(p.turn)
    ensures AdvanceOutcome(db, AdvanceOf(c, p, newId, now)).TurnConflict?
  {
    assert Blank("");
  }

  /** A start that goes through asks for readiness when it resumes and shows the disclaimer when it does not. */
  lemma StartAsks(c: Config, s: System, e: Step)
    requires Enabled(c, s, e) && e.Prepare?
    ensures var st, s' := s.starts[e.sid], Apply(c, s, e);
            && s'.db.areas == s.db.areas && s'.db.answers == s.db.answers && s'.db.events == s.db.events
            && s'.db.session.number == s.db.session.number && s'.db.session.lapsed == s.db.session.lapsed
            && s'.db.session.step == (if st.resuming then Readiness else Disclaimer)
            && AskedNow(s'.db.session, e.newId, st.area, if st.resuming then ReadinessKind
                        else DisclaimerKind, e.now, c.limit)
  {
    assert Apply(c, s, e) == ApplyStart(c, s, e);
  }

  /** The end of an interview: the session is completed, the delivery is told it is done. */
  lemma SessionIsCompleted(c: Config, s: System, e: Step)
    requires Enabled(c, s, e) && e.CompleteSession?
    ensures var s' := Apply(c, s, e);
            && s'.procs[e.pid].pc == Finished(if e.ok then DoneResult else Failed)
            && s'.db.areas == s.db.areas && s'.db.answers == s.db.answers && s'.db.events == s.db.events
            && s'.db.session == s.db.session.(status := if e.ok && s.db.session.status == Interviewing then Completed
                                                        else s.db.session.status)
  {
    assert Apply(c, s, e) == ApplyTurn(c, s, e);
  }

  /** Each mark of a timeout skips the area it is about if that is still waiting, and nothing else. */
  lemma TimeoutSkips(c: Config, s: System, e: Step, a: string)
    requires Enabled(c, s, e) && e.MarkNotAssessed? && e.ok && s.procs[e.pid].pc.todo != [] && a in s.db.areas
    ensures var s' := Apply(c, s, e);
            && s'.db.session == s.db.session && s'.db.answers == s.db.answers && s'.db.areas.Keys == s.db.areas.Keys
            && s'.db.areas[a] ==
               (if a == s.procs[e.pid].pc.todo[0]
                && (s.db.areas[a].status == Pending || s.db.areas[a].status == PreAddressed)
                then s.db.areas[a].(status := NotAssessed) else s.db.areas[a])
  {
    assert Apply(c, s, e) == ApplyTurn(c, s, e);
  }
}
