/** The rows of one interview session and the transactions that change them. */
module TurnStore {
  import opened Text
  import opened AreaConfigs
  import opened TurnPolicy
  import opened Timing

  datatype FlowStep = Disclaimer | Readiness | Criterion | Done

  datatype QuestionKind = DisclaimerKind | ReadinessKind | CriterionKind

  datatype SessionStatus = Created | Paying | Active | Interviewing | Completed | Expired

  /** The active-question columns of a session row. */
  datatype ActiveQuestion = ActiveQuestion(area: string, kind: QuestionKind, issuedAt: int, deadlineAt: int)

  datatype IssuedQuestion = IssuedQuestion(turnId: string, number: int, question: ActiveQuestion)

  datatype SessionRow = SessionRow(status: SessionStatus, budget: nat, lapsed: int, step: FlowStep,
                                   expectedTurn: Option<string>, number: int, active: Option<ActiveQuestion>)

  /** `turn` is not a column: it records which turn the row answered. */
  datatype AnswerRow = AnswerRow(turn: string, area: string, questionText: string,
                                 transcriptEs: string, transcriptEn: string, sufficiency: string)

  datatype FlowEvent = DisclaimerAck | ReadinessAck

  datatype Db = Db(session: SessionRow, areas: AreaTable, answers: seq<AnswerRow>, events: seq<FlowEvent>)

  /** The flow pointer as it is read: the active question exists only under a turn id. */
  datatype Flow = Flow(step: FlowStep, expectedTurn: string, number: int, active: Option<ActiveQuestion>)

  function Coalesce(t: Option<string>): string { if t.Some? then t.value else "" }

  function ReadFlow(s: SessionRow): Flow {
    Flow(s.step, Coalesce(s.expectedTurn), s.number, if Blank(Coalesce(s.expectedTurn)) then None else s.active)
  }

  function TimeRemaining(budget: int, lapsed: int, flow: Flow, at: int, limit: nat): nat {
    var live := if flow.step.Criterion? && flow.active.Some? && flow.active.value.kind.CriterionKind?
                then LiveElapsed(flow.active.value.issuedAt, at, limit) else 0;
    Remaining(budget, lapsed, live)
  }

  // ----- one scored criterion answer -----

  datatype CommitParams = CommitParams(expectedTurn: string, current: string, questionText: string, answerText: string,
                                       submittedAt: int, language: string, evaluation: Option<Evaluation>,
                                       flags: seq<PreAddressedArea>, decision: Decision,
                                       nextArea: string, nextIssued: Option<IssuedQuestion>, limit: nat)

  datatype Outcome = Committed(newCount: nat) | InvalidFlow | TurnConflict | DbError

  function NextNumber(s: SessionRow, p: CommitParams): int {
    if p.nextArea == "" then s.number + 1 else if p.nextIssued.Some? then p.nextIssued.value.number else 0
  }

  function CommitOutcome(db: Db, p: CommitParams): Outcome {
    if p.evaluation.None? || (!Blank(p.nextArea) && p.nextIssued.None?) then InvalidFlow
    else if !db.session.step.Criterion? || Coalesce(db.session.expectedTurn) != p.expectedTurn then TurnConflict
    else if p.current !in db.areas || NextNumber(db.session, p) <= 0 then DbError
    else Committed(db.areas[p.current].count + 1)
  }

  function AnswerOf(p: CommitParams): AnswerRow
    requires p.evaluation.Some?
  {
    var english := EqualFold(Trim(p.language), "en");
    AnswerRow(p.expectedTurn, p.current, p.questionText,
              NullIfEmpty(if english then "" else p.answerText),
              NullIfEmpty(if english then p.answerText else ""),
              NullIfEmpty(p.evaluation.value.current.status))
  }

  /** The evidence the database keeps: that of the first flag naming the area, whatever its case. */
  function FirstEvidence(flags: seq<PreAddressedArea>, area: string): Option<string> {
    if flags == [] then None
    else if !Blank(flags[0].slug) && EqualFold(area, flags[0].slug) then Some(flags[0].evidence)
    else FirstEvidence(flags[1..], area)
  }

  function Answered(area: string, row: AreaRow, p: CommitParams): AreaRow {
    if area != p.current then row
    else AreaRow(if p.decision.mark == Some(Complete) then Complete
                 else if p.decision.mark == Some(Insufficient) then Insufficient else row.status,
                 row.count + 1, row.evidence)
  }

  function Flagged(area: string, row: AreaRow, flags: seq<PreAddressedArea>): AreaRow {
    var e := FirstEvidence(flags, area);
    if row.status.Pending? && e.Some? then AreaRow(PreAddressed, row.count, NullIfEmpty(e.value)) else row
  }

  function Promoted(area: string, row: AreaRow, p: CommitParams): AreaRow {
    if !Blank(p.nextArea) && p.decision.action.Next? && area == p.nextArea && Open(row.status)
    then row.(status := InProgress) else row
  }

  /** One area row after the turn: counted and closed if it was the current one, else flagged, then perhaps promoted. */
  function CommitRow(area: string, row: AreaRow, p: CommitParams): AreaRow {
    Promoted(area, Flagged(area, Answered(area, row, p), p.flags), p)
  }

  function CommitAreas(table: AreaTable, p: CommitParams): AreaTable {
    map s | s in table :: CommitRow(s, table[s], p)
  }

  function ChargedSeconds(s: SessionRow, p: CommitParams): nat {
    if s.active.Some? then Charge(s.active.value.issuedAt, p.submittedAt, p.limit) else 0
  }

  function CommitSession(s: SessionRow, p: CommitParams): SessionRow {
    s.(lapsed := s.lapsed + ChargedSeconds(s, p),
       step := if p.nextArea == "" then Done else Criterion,
       expectedTurn := if p.nextArea == "" || p.nextIssued.None? || Blank(p.nextIssued.value.turnId)
                       then None else Some(p.nextIssued.value.turnId),
       number := NextNumber(s, p),
       active := if p.nextIssued.Some? then Some(p.nextIssued.value.question) else None)
  }

  /** The whole transaction: all of it on success, none of it otherwise. */
  function Commit(db: Db, p: CommitParams): Db {
    if CommitOutcome(db, p).Committed? then
      Db(CommitSession(db.session, p), CommitAreas(db.areas, p), db.answers + [AnswerOf(p)], db.events)
    else db
  }

  // ----- disclaimer and readiness answers -----

  datatype AdvanceParams = AdvanceParams(expectedTurn: string, currentStep: FlowStep, nextStep: FlowStep,
                                         event: FlowEvent, nextIssued: Option<IssuedQuestion>)

  function AdvanceOutcome(db: Db, p: AdvanceParams): Outcome {
    if p.nextIssued.None? then InvalidFlow
    else if db.session.step != p.currentStep || Coalesce(db.session.expectedTurn) != p.expectedTurn then TurnConflict
    else if p.nextIssued.value.number <= 0 then DbError
    else Committed(0)
  }

  function WithQuestion(s: SessionRow, step: FlowStep, issued: IssuedQuestion): SessionRow {
    s.(step := step, expectedTurn := Some(issued.turnId), active := Some(issued.question))
  }

  function Advance(db: Db, p: AdvanceParams): Db {
    if AdvanceOutcome(db, p).Committed? then
      db.(session := WithQuestion(db.session, p.nextStep, p.nextIssued.value).(number := p.nextIssued.value.number),
          events := db.events + [p.event])
    else db
  }

  // ----- single statements -----

  function FlowDone(s: SessionRow): SessionRow {
    s.(step := Done, expectedTurn := None, active := None)
  }

  function WithArea(table: AreaTable, slug: string): AreaTable {
    if slug in table then table else table[slug := AreaRow(Pending, 0, "")]
  }

  function WithOpenMoved(table: AreaTable, slug: string, status: AreaStatus): AreaTable {
    if slug in table && Open(table[slug].status) then table[slug := table[slug].(status := status)] else table
  }

  /** The rows of one session, changed in place by statements and transactions. */
  class PostgresStore {
    var session: SessionRow
    var areas: AreaTable
    var answers: seq<AnswerRow>
    var events: seq<FlowEvent>

    constructor (budget: nat)
      ensures Rows() == Db(SessionRow(Created, budget, 0, Disclaimer, None, 1, None), map[], [], [])
    {
      session := SessionRow(Created, budget, 0, Disclaimer, None, 1, None);
      areas, answers, events := map[], [], [];
    }

    function Rows(): Db
      reads this
    {
      Db(session, areas, answers, events)
    }

    /** Persists one scored criterion answer and its transition atomically: any failing step restores every row. */
    method ProcessCriterionTurn(p: CommitParams) returns (outcome: Outcome)
      modifies this
      ensures outcome == CommitOutcome(old(Rows()), p)
      ensures Rows() == Commit(old(Rows()), p)
    {
      if p.evaluation.None? || (!Blank(p.nextArea) && p.nextIssued.None?) {
        return InvalidFlow;
      }
      // lock the flow pointer
      if session.step != Criterion || Coalesce(session.expectedTurn) != p.expectedTurn {
        return TurnConflict;
      }
      var savedSession, savedAreas, savedAnswers := session, areas, answers;
      answers := answers + [AnswerOf(p)];
      UpdateLapsedSeconds(p);
      var moved, newCount := MoveAreas(p);
      var ok := false;
      if moved {
        ok := PersistFlowState(p);
      }
      if !ok {
        session, areas, answers := savedSession, savedAreas, savedAnswers;
        return DbError;
      }
      return Committed(newCount);
    }

    /** Counts the question, closes, flags and promotes; fails when the current area has no row. */
    method MoveAreas(p: CommitParams) returns (ok: bool, newCount: nat)
      modifies this`areas
      ensures ok <==> p.current in old(areas)
      ensures ok ==> newCount == old(areas)[p.current].count + 1 && areas == CommitAreas(old(areas), p)
    {
      if p.current !in areas { return false, 0; }
      ghost var before := areas;
      newCount := areas[p.current].count + 1;
      areas := areas[p.current := areas[p.current].(count := newCount)];
      ApplyTerminalStatus(p.current, p.decision.mark);
      ghost var answered := areas;
      ApplyPreAddressed(p.flags);
      ghost var flagged := areas;
      PromoteNextArea(p);
      StatementsCompose(before, answered, flagged, areas, p);
      ok := true;
    }

    method UpdateLapsedSeconds(p: CommitParams)
      modifies this`session
      ensures session == old(session).(lapsed := old(session).lapsed + ChargedSeconds(old(session), p))
    {
      if session.active.Some? {
        var seconds := RoundSeconds(p.submittedAt - session.active.value.issuedAt);
        if seconds < 0 { seconds := 0; }
        if seconds > p.limit { seconds := p.limit; }
        session := session.(lapsed := session.lapsed + seconds);
      }
    }

    method ApplyTerminalStatus(current: string, mark: Option<AreaStatus>)
      requires current in areas
      modifies this`areas
      ensures areas == if mark == Some(Complete) || mark == Some(Insufficient)
                       then old(areas)[current := old(areas)[current].(status := mark.value)] else old(areas)
    {
      match mark
      case Some(Complete) => areas := areas[current := areas[current].(status := Complete)];
      case Some(Insufficient) => areas := areas[current := areas[current].(status := Insufficient)];
      case _ =>
    }

    /** One guarded update per flag; the guard on the status makes the first flag of an area the one that counts. */
    method ApplyPreAddressed(flags: seq<PreAddressedArea>)
      modifies this`areas
      ensures areas == map s | s in old(areas) :: Flagged(s, old(areas)[s], flags)
    {
      ghost var before := areas;
      for i := 0 to |flags|
        invariant areas == map s | s in before :: Flagged(s, before[s], flags[..i])
      {
        var flag := flags[i];
        FlagOneMore(flags, i);
        if Blank(flag.slug) { continue; }
        areas := map s | s in areas ::
          if EqualFold(s, flag.slug) && areas[s].status == Pending
          then AreaRow(PreAddressed, areas[s].count, NullIfEmpty(flag.evidence)) else areas[s];
      }
      assert flags[..|flags|] == flags;
    }

    method PromoteNextArea(p: CommitParams)
      modifies this`areas
      ensures areas == map s | s in old(areas) :: Promoted(s, old(areas)[s], p)
    {
      if Blank(p.nextArea) || p.decision.action != Next { return; }
      if p.nextArea in areas && Open(areas[p.nextArea].status) {
        areas := areas[p.nextArea := areas[p.nextArea].(status := InProgress)];
      }
    }

    /** Fails, changing nothing, when the question number would break the row's check constraint. */
    method PersistFlowState(p: CommitParams) returns (ok: bool)
      modifies this`session
      ensures ok <==> NextNumber(old(session), p) > 0
      ensures session == if ok then CommitSession(old(session), p).(lapsed := old(session).lapsed) else old(session)
    {
      var number := NextNumber(session, p);
      if number <= 0 { return false; }
      session := session.(
        step := if p.nextArea == "" then Done else Criterion,
        expectedTurn := if p.nextArea == "" || p.nextIssued.None? || Blank(p.nextIssued.value.turnId)
                        then None else Some(p.nextIssued.value.turnId),
        number := number,
        active := if p.nextIssued.Some? then Some(p.nextIssued.value.question) else None);
      return true;
    }

    /** Records a disclaimer or readiness answer and advances the flow atomically. */
    method AdvanceNonCriterionStep(p: AdvanceParams) returns (outcome: Outcome)
      modifies this
      ensures outcome == AdvanceOutcome(old(Rows()), p)
      ensures Rows() == Advance(old(Rows()), p)
    {
      if p.nextIssued.None? { return InvalidFlow; }
      if session.step != p.currentStep || Coalesce(session.expectedTurn) != p.expectedTurn {
        return TurnConflict;
      }
      var savedEvents := events;
      events := events + [p.event];
      if p.nextIssued.value.number <= 0 {
        events := savedEvents;
        return DbError;
      }
      session := WithQuestion(session, p.nextStep, p.nextIssued.value).(number := p.nextIssued.value.number);
      return Committed(0);
    }

    /** Forces the flow pointer to a step with a fresh question; the question number stays. */
    method PrepareStep(step: FlowStep, issued: IssuedQuestion)
      modifies this
      ensures Rows() == old(Rows()).(session := WithQuestion(old(session), step, issued))
    {
      session := session.(step := step, expectedTurn := Some(issued.turnId), active := Some(issued.question));
    }

    method MarkFlowDone()
      modifies this
      ensures Rows() == old(Rows()).(session := FlowDone(old(session)))
    {
      session := session.(step := Done, expectedTurn := None, active := None);
    }

    method CreateQuestionArea(slug: string)
      modifies this
      ensures Rows() == old(Rows()).(areas := WithArea(old(areas), slug))
    {
      if slug !in areas {
        areas := areas[slug := AreaRow(Pending, 0, "")];
      }
    }

    method SetAreaInProgress(slug: string)
      modifies this
      ensures Rows() == old(Rows()).(areas := WithOpenMoved(old(areas), slug, InProgress))
    {
      if slug in areas && Open(areas[slug].status) {
        areas := areas[slug := areas[slug].(status := InProgress)];
      }
    }

    method MarkAreaNotAssessed(slug: string)
      modifies this
      ensures Rows() == old(Rows()).(areas := WithOpenMoved(old(areas), slug, NotAssessed))
    {
      if slug in areas && Open(areas[slug].status) {
        areas := areas[slug := areas[slug].(status := NotAssessed)];
      }
    }
  }

  /** The statements of the transaction, one after the other, give each row its committed value. */
  lemma StatementsCompose(table: AreaTable, answered: AreaTable, flagged: AreaTable, promoted: AreaTable,
                          p: CommitParams)
    requires p.current in table
    requires answered == table[p.current := Answered(p.current, table[p.current], p)]
    requires flagged == map s | s in answered :: Flagged(s, answered[s], p.flags)
    requires promoted == map s | s in flagged :: Promoted(s, flagged[s], p)
    ensures promoted == CommitAreas(table, p)
  {
  }

  /** One more flag can only touch a row no earlier flag touched. */
  lemma {:induction false} FlagOneMore(flags: seq<PreAddressedArea>, i: nat)
    requires i < |flags|
    ensures forall s :: FirstEvidence(flags[..i + 1], s) ==
                          if FirstEvidence(flags[..i], s).Some? then FirstEvidence(flags[..i], s)
                          else if !Blank(flags[i].slug) && EqualFold(s, flags[i].slug) then Some(flags[i].evidence)
                          else None
  {
    if i == 0 {
      assert flags[..1] == [flags[0]];
    } else {
      FlagOneMore(flags[1..], i - 1);
      assert flags[..i + 1][1..] == flags[1..][..i] && flags[..i][1..] == flags[1..][..i - 1];
    }
  }

  // ----- the statements of starts and timeouts, in any order -----

  datatype AreaStatement = InsertArea(slug: string) | EnterArea(slug: string) | SkipArea(slug: string)

  function Run(table: AreaTable, st: AreaStatement): AreaTable {
    match st
    case InsertArea(slug) => WithArea(table, slug)
    case EnterArea(slug) => WithOpenMoved(table, slug, InProgress)
    case SkipArea(slug) => WithOpenMoved(table, slug, NotAssessed)
  }

  function RunAll(table: AreaTable, sts: seq<AreaStatement>): AreaTable
    decreases |sts|
  {
    if sts == [] then table else RunAll(Run(table, sts[0]), sts[1..])
  }

  /** The k-th statement is the first to enter or skip the area. */
  ghost predicate FirstMove(sts: seq<AreaStatement>, slug: string, k: nat) {
    && k < |sts| && sts[k].slug == slug && !sts[k].InsertArea?
    && forall i :: 0 <= i < k ==> sts[i].slug == slug ==> sts[i].InsertArea?
  }

  ghost predicate NeverMoved(sts: seq<AreaStatement>, slug: string) {
    forall i :: 0 <= i < |sts| ==> sts[i].slug == slug ==> sts[i].InsertArea?
  }

  /** However starts and timeouts interleave, an open area ends where the first statement to move it put it, and every
      other row is untouched. */
  lemma {:induction false} FirstStatementWins(table: AreaTable, sts: seq<AreaStatement>, slug: string, k: nat)
    requires slug in table
    ensures slug in RunAll(table, sts)
    ensures !Open(table[slug].status) || NeverMoved(sts, slug) ==> RunAll(table, sts)[slug] == table[slug]
    ensures Open(table[slug].status) && FirstMove(sts, slug, k) ==>
              RunAll(table, sts)[slug] == table[slug].(status := if sts[k].EnterArea? then InProgress else NotAssessed)
    decreases |sts|
  {
    if sts != [] {
      var rest := sts[1..];
      assert forall i :: 0 <= i < |rest| ==> rest[i] == sts[i + 1];
      assert NeverMoved(sts, slug) ==> NeverMoved(rest, slug);
      if k > 0 && FirstMove(sts, slug, k) {
        assert rest[k - 1] == sts[k];
        assert FirstMove(rest, slug, k - 1);
      }
      FirstStatementWins(Run(table, sts[0]), rest, slug, if k > 0 then k - 1 else 0);
    }
  }

  /** What a start does to the areas: a row for each configured slug, then the first one is entered. */
  function StartStatements(slugs: seq<string>): seq<AreaStatement>
    requires slugs != []
  {
    Creations(slugs) + [EnterArea(slugs[0])]
  }

  function Creations(slugs: seq<string>): seq<AreaStatement> {
    seq(|slugs|, i requires 0 <= i < |slugs| => InsertArea(slugs[i]))
  }

  ghost predicate Started(table: AreaTable, slugs: seq<string>)
    requires slugs != []
  {
    (forall s :: s in slugs ==> s in table) && !Open(table[slugs[0]].status)
  }

  lemma {:induction false} RunAllAppend(table: AreaTable, a: seq<AreaStatement>, b: seq<AreaStatement>)
    ensures RunAll(table, a + b) == RunAll(RunAll(table, a), b)
    decreases |a|
  {
    if a == [] {
      assert a + b == b;
    } else {
      assert (a + b)[0] == a[0] && (a + b)[1..] == a[1..] + b;
      RunAllAppend(Run(table, a[0]), a[1..], b);
    }
  }

  lemma {:induction false} CreatesRow(table: AreaTable, slugs: seq<string>, s: string)
    ensures var t := RunAll(table, Creations(slugs));
            && (s in t <==> s in table || s in slugs)
            && (s in table ==> t[s] == table[s])
            && (s in t && s !in table ==> t[s] == AreaRow(Pending, 0, ""))
    decreases |slugs|
  {
    if slugs != [] {
      assert Creations(slugs)[1..] == Creations(slugs[1..]);
      assert slugs == [slugs[0]] + slugs[1..];
      CreatesRow(Run(table, InsertArea(slugs[0])), slugs[1..], s);
    }
  }

  /** Starting makes a row for every configured area and nothing else, and leaves what was there. */
  lemma StartEstablishes(table: AreaTable, slugs: seq<string>, s: string)
    requires slugs != []
    ensures var t := RunAll(table, StartStatements(slugs));
            && slugs[0] in t && !Open(t[slugs[0]].status)
            && (s in t <==> s in table || s in slugs)
            && (s in table && s != slugs[0] ==> t[s] == table[s])
            && (slugs[0] !in table ==> t[slugs[0]] == AreaRow(InProgress, 0, ""))
  {
    RunAllAppend(table, Creations(slugs), [EnterArea(slugs[0])]);
    var created := RunAll(table, Creations(slugs));
    assert RunAll(created, [EnterArea(slugs[0])]) == Run(created, EnterArea(slugs[0]));
    CreatesRow(table, slugs, slugs[0]);
    CreatesRow(table, slugs, s);
  }

  /** Starting a session that was started before, whatever happened to its areas since, changes no area. */
  lemma RestartChangesNothing(table: AreaTable, slugs: seq<string>)
    requires slugs != [] && Started(table, slugs)
    ensures RunAll(table, StartStatements(slugs)) == table
  {
    var t := RunAll(table, StartStatements(slugs));
    forall s
      ensures s in t <==> s in table
      ensures s in t ==> t[s] == table[s]
    {
      StartEstablishes(table, slugs, s);
      if s in table { FirstStatementWins(table, StartStatements(slugs), slugs[0], 0); }
    }
  }

  lemma StartIsIdempotent(table: AreaTable, slugs: seq<string>)
    requires slugs != []
    ensures var t := RunAll(table, StartStatements(slugs));
            RunAll(t, StartStatements(slugs)) == t
  {
    var t := RunAll(table, StartStatements(slugs));
    forall s | s in slugs
      ensures s in t && slugs[0] in t && !Open(t[slugs[0]].status)
    {
      StartEstablishes(table, slugs, s);
    }
    assert slugs[0] in slugs;
    RestartChangesNothing(t, slugs);
  }

  // ----- which submissions still count -----

  datatype Submission = CriterionAnswer(commit: CommitParams) | StepAnswer(advance: AdvanceParams)

  function TurnOf(s: Submission): string {
    match s case CriterionAnswer(p) => p.expectedTurn case StepAnswer(p) => p.expectedTurn
  }

  function Submit(db: Db, s: Submission): Db {
    match s case CriterionAnswer(p) => Commit(db, p) case StepAnswer(p) => Advance(db, p)
  }

  function SubmitAll(db: Db, ss: seq<Submission>): Db
    decreases |ss|
  {
    if ss == [] then db else SubmitAll(Submit(db, ss[0]), ss[1..])
  }

  /** However many submissions of other turns arrive, no row changes. */
  lemma {:induction false} OtherTurnsChangeNothing(db: Db, ss: seq<Submission>)
    requires forall i :: 0 <= i < |ss| ==> TurnOf(ss[i]) != Coalesce(db.session.expectedTurn)
    ensures SubmitAll(db, ss) == db
    decreases |ss|
  {
    if ss != [] {
      assert forall i :: 0 <= i < |ss[1..]| ==> ss[1..][i] == ss[i + 1];
      assert Submit(db, ss[0]) == db;
      OtherTurnsChangeNothing(db, ss[1..]);
    }
  }

  /** A question issued outside a commit reads back as issued, under the old number, and outlives every submission of
      another turn: whatever was planned before it is lost. */
  lemma IssuedTurnAlone(db: Db, step: FlowStep, issued: IssuedQuestion, ss: seq<Submission>)
    requires !Blank(issued.turnId)
    requires forall i :: 0 <= i < |ss| ==> TurnOf(ss[i]) != issued.turnId
    ensures var db' := db.(session := WithQuestion(db.session, step, issued));
            && SubmitAll(db', ss) == db'
            && ReadFlow(db'.session) == Flow(step, issued.turnId, db.session.number, Some(issued.question))
  {
    OtherTurnsChangeNothing(db.(session := WithQuestion(db.session, step, issued)), ss);
  }

  /** Once the flow is done, no submission that names a turn changes any row. */
  lemma NoSubmissionAfterDone(db: Db, ss: seq<Submission>)
    requires forall i :: 0 <= i < |ss| ==> TurnOf(ss[i]) != ""
    ensures var db' := db.(session := FlowDone(db.session));
            SubmitAll(db', ss) == db' && ReadFlow(db'.session) == Flow(Done, "", db.session.number, None)
  {
    OtherTurnsChangeNothing(db.(session := FlowDone(db.session)), ss);
    assert Blank("");
  }

  // ----- the plan against the commit -----

  lemma {:induction false} EvidenceSameFlags(slugs: seq<string>, flags: seq<PreAddressedArea>, area: string)
    requires FoldDistinct(slugs) && area in slugs && FlagsConfigured(slugs, flags)
    ensures FirstEvidence(flags, area).Some? <==> exists k :: 0 <= k < |flags| && flags[k].slug == area && !Blank(area)
    decreases |flags|
  {
    if flags != [] {
      EvidenceSameFlags(slugs, flags[1..], area);
      var a :| 0 <= a < |slugs| && slugs[a] == area;
      assert flags[0].slug in slugs;
      var f :| 0 <= f < |slugs| && slugs[f] == flags[0].slug;
      assert EqualFold(slugs[a], slugs[f]) ==> a == f;
      if flags[0].slug != area && FirstEvidence(flags, area).Some? {
        var k :| 0 <= k < |flags[1..]| && flags[1..][k].slug == area && !Blank(area);
        assert flags[k + 1].slug == area;
      }
      if k :| 0 <= k < |flags| && flags[k].slug == area && !Blank(area) {
        if k > 0 { assert flags[1..][k - 1].slug == area; }
      }
    }
  }

  lemma {:induction false} LastEvidenceIff(flags: seq<PreAddressedArea>, area: string)
    ensures LastEvidence(flags, area).Some? <==> exists k :: 0 <= k < |flags| && flags[k].slug == area && !Blank(area)
    decreases |flags|
  {
    if flags != [] {
      var init := flags[..|flags| - 1];
      LastEvidenceIff(init, area);
      if k :| 0 <= k < |flags| && flags[k].slug == area && !Blank(area) {
        if k < |flags| - 1 { assert init[k].slug == area; }
      }
      if LastEvidence(flags, area).Some? {
        if LastEvidence(init, area).Some? && !(flags[|flags| - 1].slug == area) {
          var k :| 0 <= k < |init| && init[k].slug == area && !Blank(area);
          assert flags[k].slug == area;
        } else {
          assert flags[|flags| - 1].slug == area;
        }
      }
    }
  }

  /** The in-memory projection and the transaction agree on who is flagged, although one matches
      exactly and the other ignores case. */
  lemma SameAreasFlagged(slugs: seq<string>, flags: seq<PreAddressedArea>, area: string)
    requires FoldDistinct(slugs) && area in slugs && FlagsConfigured(slugs, flags)
    ensures FirstEvidence(flags, area).Some? == LastEvidence(flags, area).Some?
  {
    EvidenceSameFlags(slugs, flags, area);
    LastEvidenceIff(flags, area);
  }

  /** What the planner must have read for its plan to fit the commit. */
  ghost predicate PlanFits(table: AreaTable, slugs: seq<string>, p: CommitParams) {
    && FoldDistinct(slugs) && (forall s :: s in slugs ==> !Blank(s))
    && (forall s :: s in table ==> s in slugs)
    && p.current in table && table[p.current].status.InProgress?
    && FlagsConfigured(slugs, p.flags)
    && ValidDecision(p.decision)
    && p.nextArea == NextAreaIn(table, p.current, p.decision, slugs)
  }

  /** One stored row is the planned row with the chosen area promoted; only the evidence of an area
      flagged by this very turn may differ, and then it is the first flag's against the last flag's. */
  ghost predicate RowRefines(area: string, before: AreaRow, planned: AreaRow, stored: AreaRow, p: CommitParams) {
    && stored.count == planned.count
    && stored.status == (if p.decision.action.Next? && area == p.nextArea then InProgress else planned.status)
    && (stored.evidence == planned.evidence ||
        (&& before.status.Pending? && planned.status.PreAddressed?
         && FirstEvidence(p.flags, area).Some? && LastEvidence(p.flags, area).Some?
         && stored.evidence == NullIfEmpty(FirstEvidence(p.flags, area).value)
         && planned.evidence == LastEvidence(p.flags, area).value))
  }

  /** The area the plan moves to is open in the table and is not the current one. */
  lemma PlannedAreaIsOpen(table: AreaTable, slugs: seq<string>, p: CommitParams)
    requires PlanFits(table, slugs, p) && p.decision.action.Next? && p.nextArea != ""
    ensures p.nextArea in table && Open(table[p.nextArea].status) && p.nextArea != p.current && !Blank(p.nextArea)
  {
    assert Blank("");
    var q := SelectionIsFirstOpen(slugs, Marked(StatusOf(table), p.current, p.decision));
    assert slugs[q] in slugs;
  }

  lemma CurrentRowRefines(row: AreaRow, p: CommitParams)
    requires row.status.InProgress? && ValidDecision(p.decision)
    requires p.decision.action.Next? ==> p.current != p.nextArea
    ensures RowRefines(p.current, row, ProjectRow(p.current, row, p.current, p.decision, p.flags),
                       CommitRow(p.current, row, p), p)
  {
  }

  lemma OtherRowRefines(s: string, row: AreaRow, p: CommitParams)
    requires s != p.current
    requires FirstEvidence(p.flags, s).Some? == LastEvidence(p.flags, s).Some?
    requires p.decision.action.Next? && s == p.nextArea ==> Open(row.status) && !Blank(p.nextArea)
    ensures RowRefines(s, row, ProjectRow(s, row, p.current, p.decision, p.flags), CommitRow(s, row, p), p)
  {
  }

  lemma RowRefinesAt(table: AreaTable, slugs: seq<string>, p: CommitParams, s: string)
    requires PlanFits(table, slugs, p) && s in table
    ensures RowRefines(s, table[s], ProjectTable(table, p.current, p.decision, p.flags)[s], CommitAreas(table, p)[s], p)
  {
    assert s in slugs && p.current in slugs && !Blank(s) && !Blank(p.current);
    assert Blank("");
    SameAreasFlagged(slugs, p.flags, s);
    if p.decision.action.Next? && p.nextArea != "" {
      PlannedAreaIsOpen(table, slugs, p);
    }
    if s == p.current {
      CurrentRowRefines(table[s], p);
    } else {
      OtherRowRefines(s, table[s], p);
    }
  }

  /** The committed table is the projected table with the chosen area promoted. */
  lemma PlanRefinesCommit(table: AreaTable, slugs: seq<string>, p: CommitParams)
    requires PlanFits(table, slugs, p)
    ensures CommitAreas(table, p).Keys == ProjectTable(table, p.current, p.decision, p.flags).Keys
    ensures forall s :: s in table ==>
                          RowRefines(s, table[s], ProjectTable(table, p.current, p.decision, p.flags)[s],
                                     CommitAreas(table, p)[s], p)
  {
    forall s | s in table
      ensures RowRefines(s, table[s], ProjectTable(table, p.current, p.decision, p.flags)[s], CommitAreas(table, p)[s],
                         p)
    {
      RowRefinesAt(table, slugs, p, s);
    }
  }

  ghost predicate Names(flags: seq<PreAddressedArea>, k: nat, slug: string) {
    k < |flags| && flags[k].slug == slug
  }

  /** The k-th flag is the first to name the area. */
  ghost predicate FirstNamed(flags: seq<PreAddressedArea>, k: nat, slug: string) {
    Names(flags, k, slug) && forall i: nat :: i < k ==> !Names(flags, i, slug)
  }

  /** The k-th flag is the last to name the area. */
  ghost predicate LastNamed(flags: seq<PreAddressedArea>, k: nat, slug: string) {
    Names(flags, k, slug) && forall i: nat :: k < i ==> !Names(flags, i, slug)
  }

  /** Among configured slugs, matching ignoring case finds the first flag that names the area exactly. */
  lemma {:induction false} FirstEvidenceIs(slugs: seq<string>, flags: seq<PreAddressedArea>, k: nat, slug: string)
    requires FoldDistinct(slugs) && slug in slugs && !Blank(slug) && FlagsConfigured(slugs, flags)
    requires FirstNamed(flags, k, slug)
    ensures FirstEvidence(flags, slug) == Some(flags[k].evidence)
    decreases |flags|
  {
    if k > 0 {
      var rest := flags[1..];
      assert flags[0].slug in slugs && !Names(flags, 0, slug);
      DistinctSlugsDiffer(slugs, slug, flags[0].slug);
      forall i: nat | i < k - 1
        ensures !Names(rest, i, slug)
      {
        assert !Names(flags, i + 1, slug);
      }
      FirstEvidenceIs(slugs, rest, k - 1, slug);
    }
  }

  lemma DistinctSlugsDiffer(slugs: seq<string>, a: string, b: string)
    requires FoldDistinct(slugs) && a in slugs && b in slugs && a != b
    ensures !EqualFold(a, b)
  {
    var i :| 0 <= i < |slugs| && slugs[i] == a;
    var j :| 0 <= j < |slugs| && slugs[j] == b;
  }

  lemma {:induction false} LastEvidenceIs(flags: seq<PreAddressedArea>, k: nat, slug: string)
    requires !Blank(slug) && LastNamed(flags, k, slug)
    ensures LastEvidence(flags, slug) == Some(flags[k].evidence)
    decreases |flags|
  {
    var last := |flags| - 1;
    if k < last {
      assert !Names(flags, last, slug);
      forall i: nat | k < i
        ensures !Names(flags[..last], i, slug)
      {
        assert !Names(flags, i, slug);
      }
      LastEvidenceIs(flags[..last], k, slug);
    }
  }

  ghost predicate EvidenceAgrees(table: AreaTable, p: CommitParams, s: string)
    requires s in table
  {
    CommitAreas(table, p)[s].evidence == ProjectTable(table, p.current, p.decision, p.flags)[s].evidence
  }

  /** A newly flagged area's stored and projected evidence agree exactly when its last flag repeats the text of its
      first, or says nothing after a first that was blank. */
  lemma EvidenceAgreesIff(table: AreaTable, slugs: seq<string>, p: CommitParams, s: string, first: nat, last: nat)
    requires PlanFits(table, slugs, p)
    requires s in table && s != p.current && table[s].status.Pending?
    requires FirstNamed(p.flags, first, s) && LastNamed(p.flags, last, s)
    ensures EvidenceAgrees(table, p, s) <==>
            if Blank(p.flags[first].evidence) then p.flags[last].evidence == ""
            else p.flags[last].evidence == p.flags[first].evidence
  {
    assert s in slugs;
    FirstEvidenceIs(slugs, p.flags, first, s);
    LastEvidenceIs(p.flags, last, s);
  }

  /** An area flagged once: the two agree exactly unless its evidence is white space. */
  lemma FlaggedOnceAgreesIff(table: AreaTable, slugs: seq<string>, p: CommitParams, s: string, k: nat)
    requires PlanFits(table, slugs, p)
    requires s in table && s != p.current && table[s].status.Pending?
    requires Names(p.flags, k, s) && forall i: nat :: Names(p.flags, i, s) ==> i == k
    ensures EvidenceAgrees(table, p, s) <==> p.flags[k].evidence == "" || !Blank(p.flags[k].evidence)
  {
    assert Blank("");
    EvidenceAgreesIff(table, slugs, p, s, k, k);
  }

  /** An area not flagged, or not pending: nothing to disagree about. */
  lemma UnflaggedAgrees(table: AreaTable, slugs: seq<string>, p: CommitParams, s: string)
    requires PlanFits(table, slugs, p) && s in table
    requires table[s].status.Pending? ==> forall i: nat :: !Names(p.flags, i, s)
    ensures EvidenceAgrees(table, p, s)
  {
    assert s in slugs;
    LastEvidenceIff(p.flags, s);
    if LastEvidence(p.flags, s).Some? {
      var k :| 0 <= k < |p.flags| && p.flags[k].slug == s && !Blank(s);
      assert Names(p.flags, k, s);
    }
    RowRefinesAt(table, slugs, p, s);
  }

  /** Two flags on one area are stored and projected differently: the database keeps the first, memory the last. */
  lemma RepeatedFlagDiffers()
    ensures var table: AreaTable := map["harm" := AreaRow(InProgress, 0, ""), "nexus" := AreaRow(Pending, 0, "")];
            var flags := [PreAddressedArea("nexus", "early"), PreAddressedArea("nexus", "late")];
            var p := CommitParams("t", "harm", "", "", 0, "en", Some(FallbackEvaluation(1)), flags,
                                  Decision(Stay, None), "harm", None, 30);
            && CommitAreas(table, p)["nexus"].evidence == "early"
            && ProjectTable(table, "harm", p.decision, flags)["nexus"].evidence == "late"
  {
  }

  /** One flag whose evidence is a space is stored as nothing and projected as a space. */
  lemma BlankEvidenceDiffers()
    ensures var table: AreaTable := map["harm" := AreaRow(InProgress, 0, ""), "nexus" := AreaRow(Pending, 0, "")];
            var flags := [PreAddressedArea("nexus", " ")];
            var p := CommitParams("t", "harm", "", "", 0, "en", Some(FallbackEvaluation(1)), flags,
                                  Decision(Stay, None), "harm", None, 30);
            && CommitAreas(table, p)["nexus"].evidence == ""
            && ProjectTable(table, "harm", p.decision, flags)["nexus"].evidence == " "
  {
    assert Blank(" ");
  }
}
