/** What becomes of a delivery and of a start that nothing interrupts, from every reachable state. */
module TurnProgress {
  import opened Text
  import opened AreaConfigs
  import opened TurnPolicy
  import opened Timing
  import opened TurnStore
  import opened TurnMachine
  import opened TurnSafety
  import opened TurnTheorems
  import opened TurnLaws

  // ----- a delivery reads -----

  lemma {:induction false} RunFrom(c: Config, s: System, es: seq<Step>)
    requires ValidConfig(c) && Inv(c, s) && Runnable(c, s, es)
    ensures Inv(c, After(c, s, es))
    decreases |es|
  {
    if es != [] {
      RunFrom(c, s, es[..|es| - 1]);
      StepKeepsInv(c, After(c, s, es[..|es| - 1]), es[|es| - 1]);
    }
  }

  ghost predicate Leads(c: Config, s: System, es: seq<Step>, s': System) {
    Runnable(c, s, es) && After(c, s, es) == s'
  }

  lemma TakeStep(c: Config, s: System, es: seq<Step>, mid: System, e: Step, s': System) returns (more: seq<Step>)
    requires Leads(c, s, es, mid) && Enabled(c, mid, e) && s' == Apply(c, mid, e)
    ensures Leads(c, s, more, s')
  {
    more := es + [e];
    assert more[..|more| - 1] == es;
  }

  lemma BeginsAndReads(c: Config, s: System, pid: nat, turn: string, answer: string, question: string, at: int)
    returns (es: seq<Step>)
    requires pid !in s.procs
    ensures Leads(c, s, es, s.(procs := s.procs[pid := Proc(turn, answer, question, at,
                                                            GotFlow(s.db.session.lapsed, ReadFlow(s.db.session)))],
                               seen := s.seen + {turn}))
  {
    var begun := s.(procs := s.procs[pid := Proc(turn, answer, question, at, Begun)], seen := s.seen + {turn});
    assert Leads(c, s, [], s);
    es := TakeStep(c, s, [], s, BeginTurn(pid, turn, answer, question, at), begun);
    var read := At(begun, pid, GotSession(s.db.session.lapsed));
    es := TakeStep(c, s, es, begun, ReadSession(pid), read);
    var flow := At(read, pid, GotFlow(s.db.session.lapsed, ReadFlow(s.db.session)));
    es := TakeStep(c, s, es, read, ReadFlowPointer(pid), flow);
  }

  lemma ReadsAreas(c: Config, s: System, es: seq<Step>, mid: System, pid: nat, current: Option<QuestionArea>)
    returns (more: seq<Step>)
    requires Leads(c, s, es, mid) && pid in mid.procs && mid.procs[pid].pc.GotFlow?
    requires IsCurrent(mid.db.areas, current)
    ensures var pc := mid.procs[pid].pc;
            Leads(c, s, more, At(mid, pid, Ready(Snapshot(pc.lapsed, pc.flow, mid.db.areas, current))))
  {
    var pc := mid.procs[pid].pc;
    var read := At(mid, pid, GotAreas(pc.lapsed, pc.flow, mid.db.areas));
    more := TakeStep(c, s, es, mid, ReadAreas(pid), read);
    var ready := Ready(Snapshot(pc.lapsed, pc.flow, mid.db.areas, current));
    assert At(read, pid, ready) == At(mid, pid, ready);
    more := TakeStep(c, s, more, read, ReadCurrentArea(pid, current), At(mid, pid, ready));
  }

  /** The state in which a new delivery has read everything and nothing else has happened. */
  function ReadBy(s: System, pid: nat, turn: string, answer: string, question: string, at: int,
                  current: Option<QuestionArea>): System
  {
    var snap := Snapshot(s.db.session.lapsed, ReadFlow(s.db.session), s.db.areas, current);
    s.(procs := s.procs[pid := Proc(turn, answer, question, at, Ready(snap))], seen := s.seen + {turn})
  }

  lemma ReadsAll(c: Config, s: System, pid: nat, turn: string, answer: string, question: string, at: int,
                 current: Option<QuestionArea>)
    returns (es: seq<Step>)
    requires pid !in s.procs && IsCurrent(s.db.areas, current)
    ensures Leads(c, s, es, ReadBy(s, pid, turn, answer, question, at, current))
  {
    es := BeginsAndReads(c, s, pid, turn, answer, question, at);
    es := ReadsAreas(c, s, es, After(c, s, es), pid, current);
  }

  /** The delivery was told that the interview is done, and the session, if it was running, is completed. */
  predicate ToldDone(pid: nat, a: System, b: System) {
    && pid in b.procs && b.procs[pid].pc == Finished(DoneResult)
    && b.db.session.status == if a.db.session.status == Interviewing then Completed else a.db.session.status
  }

  predicate FlowKept(a: Db, b: Db) {
    b.session.step == a.session.step && b.session.expectedTurn == a.session.expectedTurn
    && b.session.active == a.session.active
  }

  predicate FlowEnded(b: Db) {
    b.session.step == Done && b.session.expectedTurn == None && b.session.active == None
  }

  predicate RecordsKept(a: Db, b: Db) {
    && b.answers == a.answers && b.events == a.events
    && b.session.lapsed == a.session.lapsed && b.session.number == a.session.number
  }

  lemma Completes(c: Config, s: System, es: seq<Step>, mid: System, pid: nat) returns (more: seq<Step>)
    requires Leads(c, s, es, mid) && pid in mid.procs && mid.procs[pid].pc.Completing?
    ensures Runnable(c, s, more) && ToldDone(pid, mid, After(c, s, more))
    ensures var t := After(c, s, more);
            t.db == mid.db.(session := mid.db.session.(status := t.db.session.status))
  {
    more := TakeStep(c, s, es, mid, CompleteSession(pid, true), Apply(c, mid, CompleteSession(pid, true)));
  }

  lemma Closes(c: Config, s: System, es: seq<Step>, mid: System, pid: nat) returns (more: seq<Step>)
    requires Leads(c, s, es, mid) && pid in mid.procs && mid.procs[pid].pc.Closing?
    ensures Runnable(c, s, more) && ToldDone(pid, mid, After(c, s, more))
    ensures var t := After(c, s, more);
            FlowEnded(t.db) && RecordsKept(mid.db, t.db) && t.db.areas == mid.db.areas
  {
    var closed := Apply(c, mid, CloseFlow(pid, true));
    more := TakeStep(c, s, es, mid, CloseFlow(pid, true), closed);
    more := Completes(c, s, more, closed, pid);
  }

  // ----- how a delivery ends -----

  /** A delivery to a finished flow is told so and changes no row but the session's status. */
  lemma FinishedFlowSaysDone(c: Config, s: System, pid: nat, turn: string, answer: string, question: string, at: int,
                             current: Option<QuestionArea>)
    returns (es: seq<Step>)
    requires pid !in s.procs && IsCurrent(s.db.areas, current) && s.db.session.step == Done
    ensures Runnable(c, s, es) && ToldDone(pid, s, After(c, s, es))
    ensures var t := After(c, s, es);
            FlowKept(s.db, t.db) && RecordsKept(s.db, t.db) && t.db.areas == s.db.areas
  {
    es := ReadsAll(c, s, pid, turn, answer, question, at, current);
    var ready := ReadBy(s, pid, turn, answer, question, at, current);
    es := TakeStep(c, s, es, ready, AlreadyDone(pid), At(ready, pid, Completing));
    es := Completes(c, s, es, At(ready, pid, Completing), pid);
  }

  /** A delivery of a turn that is not the one expected ends in a conflict and changes no row. */
  lemma OtherTurnConflicts(c: Config, s: System, pid: nat, turn: string, answer: string, question: string, at: int,
                           current: Option<QuestionArea>)
    returns (es: seq<Step>)
    requires pid !in s.procs && IsCurrent(s.db.areas, current) && s.db.session.step != Done
    requires Blank(turn) || s.db.session.expectedTurn != Some(turn)
    ensures Runnable(c, s, es)
    ensures var t := After(c, s, es);
            t.db == s.db && pid in t.procs && t.procs[pid].pc == Finished(Conflict)
  {
    assert Blank("");
    es := ReadsAll(c, s, pid, turn, answer, question, at, current);
    var ready := ReadBy(s, pid, turn, answer, question, at, current);
    es := TakeStep(c, s, es, ready, RejectTurn(pid), At(ready, pid, Finished(Conflict)));
  }

  /** The budget covers what was charged and the time the question has been open. */
  ghost predicate TimeIsLeft(c: Config, s: System, at: int) {
    OpenFor(ReadFlow(s.db.session), at, c.limit) < (c.budget - s.db.session.lapsed) * 1_000_000
  }

  lemma Admits(c: Config, s: System, pid: nat, turn: string, answer: string, question: string, at: int,
               current: Option<QuestionArea>, todo: seq<string>)
    requires Inv(c, s) && s.db.session.expectedTurn == Some(turn)
    requires forall a :: a in todo <==> a in s.db.areas && Unresolved(s.db.areas[a].status)
    ensures var ready := ReadBy(s, pid, turn, answer, question, at, current);
            if TimeIsLeft(c, s, at) then Admitted(c, ready.procs[pid]) else Enabled(c, ready, TimeOut(pid, todo))
  {
    AdmittedIffTimeIsLeft(c, ReadBy(s, pid, turn, answer, question, at, current), pid, todo);
  }

  lemma IsAdmitted(c: Config, s: System, pid: nat, turn: string, answer: string, question: string, at: int,
                   current: Option<QuestionArea>)
    requires Inv(c, s) && s.db.session.expectedTurn == Some(turn) && TimeIsLeft(c, s, at)
    ensures Admitted(c, ReadBy(s, pid, turn, answer, question, at, current).procs[pid])
  {
    TimeLeftIsExact(c.budget, s.db.session.lapsed, ReadFlow(s.db.session), at, c.limit);
  }

  /** With time left but no area in progress the interview ends: a criterion flow is closed first, nothing is stored. */
  lemma NoAreaEndsTheInterview(c: Config, s: System, pid: nat, turn: string, answer: string, question: string, at: int)
    returns (es: seq<Step>)
    requires Inv(c, s) && pid !in s.procs && IsCurrent(s.db.areas, None)
    requires s.db.session.expectedTurn == Some(turn) && TimeIsLeft(c, s, at)
    ensures Runnable(c, s, es) && ToldDone(pid, s, After(c, s, es))
    ensures var t := After(c, s, es);
            && RecordsKept(s.db, t.db) && t.db.areas == s.db.areas
            && if s.db.session.step == Criterion then FlowEnded(t.db) else FlowKept(s.db, t.db)
  {
    es := ReadsAll(c, s, pid, turn, answer, question, at, None);
    IsAdmitted(c, s, pid, turn, answer, question, at, None);
    var ready := ReadBy(s, pid, turn, answer, question, at, None);
    var next := Apply(c, ready, NoCurrentArea(pid));
    es := TakeStep(c, s, es, ready, NoCurrentArea(pid), next);
    if s.db.session.step == Criterion {
      es := Closes(c, s, es, next, pid);
    } else {
      es := Completes(c, s, es, next, pid);
    }
  }

  // ----- time is up -----

  /** Every waiting area of the list is skipped, and nothing else changes. */
  function Skipped(areas: AreaTable, todo: seq<string>): AreaTable {
    map a | a in areas ::
      if a in todo && (areas[a].status == Pending || areas[a].status == PreAddressed)
      then areas[a].(status := NotAssessed) else areas[a]
  }

  lemma {:induction false} MarksAll(c: Config, s: System, es: seq<Step>, mid: System, pid: nat, todo: seq<string>)
    returns (more: seq<Step>)
    requires Leads(c, s, es, mid) && pid in mid.procs && mid.procs[pid].pc == Marking(todo)
    ensures Leads(c, s, more, WithDb(At(mid, pid, Closing), mid.db.(areas := Skipped(mid.db.areas, todo))))
    decreases |todo|
  {
    var e := MarkNotAssessed(pid, true);
    if todo == [] {
      assert Skipped(mid.db.areas, todo) == mid.db.areas;
      more := TakeStep(c, s, es, mid, e, At(mid, pid, Closing));
    } else {
      var areas := WithOpenMoved(mid.db.areas, todo[0], NotAssessed);
      var next := WithDb(At(mid, pid, Marking(todo[1..])), mid.db.(areas := areas));
      more := TakeStep(c, s, es, mid, e, next);
      more := MarksAll(c, s, more, next, pid, todo[1..]);
      SkipOneMore(mid.db.areas, todo);
      assert WithDb(At(next, pid, Closing), next.db.(areas := Skipped(areas, todo[1..])))
          == WithDb(At(mid, pid, Closing), mid.db.(areas := Skipped(mid.db.areas, todo)));
    }
  }

  lemma SkipOneMore(areas: AreaTable, todo: seq<string>)
    requires todo != []
    ensures Skipped(WithOpenMoved(areas, todo[0], NotAssessed), todo[1..]) == Skipped(areas, todo)
  {
    assert todo == [todo[0]] + todo[1..];
  }

  /** With no time left the interview ends: every waiting area is skipped, the flow closed, nothing stored or charged,
      and the delivery told so. */
  lemma TimeoutEndsTheInterview(c: Config, s: System, pid: nat, turn: string, answer: string, question: string, at: int,
                                current: Option<QuestionArea>, todo: seq<string>)
    returns (es: seq<Step>)
    requires Inv(c, s) && pid !in s.procs && IsCurrent(s.db.areas, current)
    requires s.db.session.expectedTurn == Some(turn) && !TimeIsLeft(c, s, at)
    requires forall a :: a in todo <==> a in s.db.areas && Unresolved(s.db.areas[a].status)
    ensures Runnable(c, s, es) && ToldDone(pid, s, After(c, s, es))
    ensures var t := After(c, s, es);
            && RecordsKept(s.db, t.db) && FlowEnded(t.db) && t.db.areas.Keys == s.db.areas.Keys
            && forall a :: a in s.db.areas ==>
                 t.db.areas[a] ==
                 if s.db.areas[a].status == Pending || s.db.areas[a].status == PreAddressed
                 then s.db.areas[a].(status := NotAssessed) else s.db.areas[a]
  {
    es := ReadsAll(c, s, pid, turn, answer, question, at, current);
    Admits(c, s, pid, turn, answer, question, at, current, todo);
    var ready := ReadBy(s, pid, turn, answer, question, at, current);
    var marking := At(ready, pid, Marking(todo));
    es := TakeStep(c, s, es, ready, TimeOut(pid, todo), marking);
    es := MarksAll(c, s, es, marking, pid, todo);
    var closing := WithDb(At(marking, pid, Closing), s.db.(areas := Skipped(s.db.areas, todo)));
    es := Closes(c, s, es, closing, pid);
  }

  // ----- an answer gets through -----

  /** An answer of the expected turn was stored, and the delivery was handed the question that is now expected, or told
      that the interview is done. */
  ghost predicate Replied(pid: nat, newId: string, a: System, b: System) {
    && pid in b.procs && a.db.session.expectedTurn.Some?
    && |b.db.answers| == |a.db.answers| + 1
    && b.db.answers[|a.db.answers|].turn == a.db.session.expectedTurn.value
    && if b.db.session.step == Done then FlowEnded(b.db) && ToldDone(pid, a, b)
       else
         && b.db.session.expectedTurn == Some(newId) && b.procs[pid].pc == Finished(NextQuestion(newId))
         && b.db.session.status == a.db.session.status
  }

  /** What a stored answer leaves to be told. */
  predicate LeftToTell(pid: nat, newId: string, status: SessionStatus, t: System) {
    && pid in t.procs && t.procs[pid].pc.Refreshing? && t.db.session.status == status
    && if t.db.session.step == Done then FlowEnded(t.db) && t.procs[pid].pc.next == None
       else t.db.session.expectedTurn == Some(newId) && t.procs[pid].pc.next == Some(newId)
  }

  lemma CommitLeaves(c: Config, s: System, e: Step)
    requires ValidConfig(c) && Inv(c, s) && Enabled(c, s, e) && Commits(c, s, e)
    ensures LeftToTell(e.pid, e.newId, s.db.session.status, Apply(c, s, e))
  {
    var p, plan := TheCommit(c, s, e);
    assert Blank("");
    PlanLeaves(c, s.db, p, e, plan);
    assert Apply(c, s, e) == ApplyCommit(c, s, e);
  }

  lemma PlanLeaves(c: Config, db: Db, p: Proc, e: Step, plan: CommitParams)
    requires e.CommitTurn? && p.pc.Ready? && p.pc.snap.current.Some? && !Blank(e.newId)
    requires plan == PlanOf(c, p, e.reply, e.language, e.newId, e.now) && CommitOutcome(db, plan).Committed?
    requires plan.nextArea == "" || !Blank(plan.nextArea)
    ensures var session := Commit(db, plan).session;
            && session.status == db.session.status
            && if plan.nextArea == "" then FlowEnded(Commit(db, plan))
               else session.step == Criterion && session.expectedTurn == Some(e.newId)
  {
    assert Blank("");
  }

  lemma TellsWhatIsLeft(c: Config, s: System, es: seq<Step>, mid: System, pid: nat, newId: string)
    returns (more: seq<Step>)
    requires Leads(c, s, es, mid) && LeftToTell(pid, newId, s.db.session.status, mid)
    ensures Runnable(c, s, more)
    ensures var t := After(c, s, more);
            && t.db.answers == mid.db.answers
            && if t.db.session.step == Done then FlowEnded(t.db) && ToldDone(pid, s, t)
               else t.db.session.expectedTurn == Some(newId) && pid in t.procs
                    && t.procs[pid].pc == Finished(NextQuestion(newId)) && t.db.session.status == s.db.session.status
  {
    var told := Apply(c, mid, Refresh(pid));
    more := TakeStep(c, s, es, mid, Refresh(pid), told);
    if mid.db.session.step == Done { more := Completes(c, s, more, told, pid); }
  }

  /** From every state that expects a criterion turn with budget left and an area in progress, a delivery of that turn
      that nothing interrupts is stored, whatever the AI replies, and is told what comes next. */
  lemma AnswerIsReplied(c: Config, s: System, pid: nat, answer: string, question: string, at: int,
                        current: QuestionArea, reply: AiReply, language: string, newId: string, now: int)
    returns (es: seq<Step>)
    requires ValidConfig(c) && Inv(c, s) && pid !in s.procs && newId !in s.seen && !Blank(newId)
    requires s.db.session.step == Criterion && IsCurrent(s.db.areas, Some(current)) && TimeIsLeft(c, s, at)
    ensures Runnable(c, s, es) && Replied(pid, newId, s, After(c, s, es))
  {
    var turn := s.db.session.expectedTurn.value;
    es := ReadsAll(c, s, pid, turn, answer, question, at, Some(current));
    var ready := ReadBy(s, pid, turn, answer, question, at, Some(current));
    RunFrom(c, s, es);
    IsAdmitted(c, s, pid, turn, answer, question, at, Some(current));
    ExpectedIsSeen(c, s, turn);
    var e := CommitTurn(pid, reply, language, newId, now);
    StoresTheTurn(c, s, ready, e, turn);
    es := TakeStep(c, s, es, ready, e, Apply(c, ready, e));
    es := TellsWhatIsLeft(c, s, es, Apply(c, ready, e), pid, newId);
  }

  lemma ExpectedIsSeen(c: Config, s: System, turn: string)
    requires Inv(c, s) && s.db.session.expectedTurn == Some(turn)
    ensures turn in s.seen
  {
  }

  lemma StoresTheTurn(c: Config, s: System, ready: System, e: Step, turn: string)
    requires ValidConfig(c) && Inv(c, ready) && e.CommitTurn? && Enabled(c, ready, e) && ready.db == s.db
    requires s.db.session.expectedTurn == Some(turn) && ready.procs[e.pid].turn == turn
    ensures LeftToTell(e.pid, e.newId, s.db.session.status, Apply(c, ready, e))
    ensures var answers := Apply(c, ready, e).db.answers;
            |answers| == |s.db.answers| + 1 && answers[|s.db.answers|].turn == turn
  {
    StoredIffExpected(c, ready, e);
    CommitsIffExpected(c, ready, e);
    AnswerIsStored(c, ready, e);
    CommitLeaves(c, ready, e);
  }

  /** A disclaimer or readiness turn that is expected, with budget left and an area in progress, is acknowledged and
      hands out the question that is now expected. */
  lemma AcknowledgementIsReplied(c: Config, s: System, pid: nat, answer: string, question: string, at: int,
                                 current: QuestionArea, newId: string, now: int)
    returns (es: seq<Step>)
    requires ValidConfig(c) && Inv(c, s) && pid !in s.procs && newId !in s.seen && !Blank(newId)
    requires s.db.session.step in {Disclaimer, Readiness} && s.db.session.expectedTurn.Some?
    requires IsCurrent(s.db.areas, Some(current)) && TimeIsLeft(c, s, at)
    ensures Runnable(c, s, es)
    ensures var t := After(c, s, es);
            && pid in t.procs && t.procs[pid].pc == Finished(NextQuestion(newId)) && |t.db.events| == |s.db.events| + 1
            && t.db.session.expectedTurn == Some(newId)
            && t.db.session.step == if s.db.session.step == Disclaimer then Readiness else Criterion
  {
    var turn := s.db.session.expectedTurn.value;
    es := ReadsAll(c, s, pid, turn, answer, question, at, Some(current));
    var ready := ReadBy(s, pid, turn, answer, question, at, Some(current));
    RunFrom(c, s, es);
    IsAdmitted(c, s, pid, turn, answer, question, at, Some(current));
    ExpectedIsSeen(c, s, turn);
    var e := AdvanceTurn(pid, newId, now);
    AdvancesIffExpected(c, ready, e);
    es := TakeStep(c, s, es, ready, e, Apply(c, ready, e));
  }

  // ----- a start gets through -----

  /** The state in which a new start has got so far and nothing else has happened. */
  function Starting(s: System, sid: nat, st: Start, areas: AreaTable): System {
    s.(starts := s.starts[sid := st], db := s.db.(session := s.db.session.(status := Interviewing), areas := areas))
  }

  /** The first i configured areas have their rows. */
  function RowsMade(areas: AreaTable, order: seq<string>, i: nat): AreaTable
    requires i <= |order|
  {
    if i == 0 then areas else WithArea(RowsMade(areas, order, i - 1), order[i - 1])
  }

  lemma {:induction false} RowsAreMade(areas: AreaTable, order: seq<string>, i: nat, a: string)
    requires i <= |order|
    ensures var made := RowsMade(areas, order, i);
            && (a in made <==> a in areas || a in order[..i])
            && (a in made ==> made[a] == if a in areas then areas[a] else AreaRow(Pending, 0, ""))
  {
    if i > 0 {
      assert order[..i] == order[..i - 1] + [order[i - 1]];
      RowsAreMade(areas, order, i - 1, a);
      RowsAreMade(areas, order, i - 1, order[i - 1]);
    }
  }

  lemma {:induction false} MakesRows(c: Config, s: System, es: seq<Step>, sid: nat, resuming: bool, i: nat)
    returns (more: seq<Step>)
    requires i <= |c.order| && Leads(c, s, es, Starting(s, sid, Creating(resuming, 0), s.db.areas))
    ensures Leads(c, s, more, Starting(s, sid, Creating(resuming, i), RowsMade(s.db.areas, c.order, i)))
  {
    if i == 0 { return es; }
    more := MakesRows(c, s, es, sid, resuming, i - 1);
    more := TakeStep(c, s, more, Starting(s, sid, Creating(resuming, i - 1), RowsMade(s.db.areas, c.order, i - 1)),
                     CreateArea(sid), Starting(s, sid, Creating(resuming, i), RowsMade(s.db.areas, c.order, i)));
  }

  /** What a start makes of the areas: every configured one has a row, the first is entered if it waits. */
  ghost predicate AreasStarted(order: seq<string>, a: AreaTable, b: AreaTable) {
    && order != [] && (forall x :: x in b <==> x in a || x in order)
    && forall x :: x in b ==>
         var was := if x in a then a[x] else AreaRow(Pending, 0, "");
         b[x] == if x == order[0] && (was.status == Pending || was.status == PreAddressed)
                 then was.(status := InProgress) else was
  }

  lemma FirstIsEntered(areas: AreaTable, order: seq<string>)
    requires order != []
    ensures AreasStarted(order, areas, WithOpenMoved(RowsMade(areas, order, |order|), order[0], InProgress))
  {
    assert order[..|order|] == order;
    var made := RowsMade(areas, order, |order|);
    forall x
      ensures x in made <==> x in areas || x in order
      ensures x in made ==> made[x] == if x in areas then areas[x] else AreaRow(Pending, 0, "")
    {
      RowsAreMade(areas, order, |order|, x);
    }
  }

  /** The area a question after a start is about. */
  ghost predicate StartArea(order: seq<string>, areas: AreaTable, area: string) {
    if exists x :: x in areas && areas[x].status == InProgress
    then area in areas && areas[area].status == InProgress else order != [] && area == order[0]
  }

  /** What a start that got through leaves: the areas are there, and a new question is put, the disclaimer at the very
      beginning and readiness whenever anything has happened before; it names the area in progress, or
        else the first. */
  ghost predicate Started(c: Config, newId: string, now: int, a: Db, b: Db) {
    && b.session.status == Interviewing && RecordsKept(a, b) && AreasStarted(c.order, a.areas, b.areas)
    && var untouched := a.answers == [] && a.session.step == Disclaimer;
       && b.session.step == (if untouched then Disclaimer else Readiness)
       && b.session.active.Some?
       && AskedNow(b.session, newId, b.session.active.value.area, if untouched then DisclaimerKind
                   else ReadinessKind, now,
                   c.limit)
       && StartArea(c.order, b.areas, b.session.active.value.area)
  }

  /** The area a start looks up. */
  ghost function Entered(areas: AreaTable): (current: Option<QuestionArea>)
    ensures IsCurrent(areas, current)
  {
    if x :| x in areas && areas[x].status.InProgress? then Some(QuestionArea(x, areas[x])) else None
  }

  /** Before it reads the flow, a start has taken these steps. */
  lemma StartCounts(c: Config, s: System, sid: nat) returns (es: seq<Step>)
    requires sid !in s.starts && s.db.session.status in {Created, Active, Interviewing}
    ensures Leads(c, s, es, Starting(s, sid, Flowing(|s.db.answers|), s.db.areas))
  {
    assert Leads(c, s, [], s);
    var counting := Starting(s, sid, Counting, s.db.areas);
    es := TakeStep(c, s, [], s, BeginStart(sid), counting);
    es := TakeStep(c, s, es, counting, CountAnswers(sid), Starting(s, sid, Flowing(|s.db.answers|), s.db.areas));
  }

  predicate Resumes(db: Db) { !(db.answers == [] && db.session.step == Disclaimer) }

  lemma StartReaches(c: Config, s: System, sid: nat) returns (es: seq<Step>)
    requires sid !in s.starts && s.db.session.status in {Created, Active, Interviewing}
    requires s.db.session.expectedTurn == None
    ensures Leads(c, s, es, Starting(s, sid, Creating(Resumes(s.db), 0), s.db.areas))
  {
    assert Blank("");
    es := StartCounts(c, s, sid);
    es := TakeStep(c, s, es, Starting(s, sid, Flowing(|s.db.answers|), s.db.areas), StartReadFlow(sid),
                   Starting(s, sid, Creating(Resumes(s.db), 0), s.db.areas));
  }

  lemma StartEnters(c: Config, s: System, es: seq<Step>, sid: nat, resuming: bool, made: AreaTable)
    returns (more: seq<Step>)
    requires c.order != [] && Leads(c, s, es, Starting(s, sid, Creating(resuming, |c.order|), made))
    ensures Leads(c, s, more, Starting(s, sid, Looking(resuming), WithOpenMoved(made, c.order[0], InProgress)))
  {
    var setting := Starting(s, sid, SettingFirst(resuming), made);
    more := TakeStep(c, s, es, Starting(s, sid, Creating(resuming, |c.order|), made), CreateArea(sid), setting);
    more := TakeStep(c, s, more, setting, SetFirst(sid),
                     Starting(s, sid, Looking(resuming), WithOpenMoved(made, c.order[0], InProgress)));
  }

  lemma StartLooks(c: Config, s: System, es: seq<Step>, sid: nat, resuming: bool, areas: AreaTable)
    returns (more: seq<Step>, area: string)
    requires c.order != [] && forall x :: x in areas ==> !Blank(x)
    requires Leads(c, s, es, Starting(s, sid, Looking(resuming), areas))
    ensures StartArea(c.order, areas, area)
    ensures Leads(c, s, more, Starting(s, sid, Preparing(resuming, area), areas))
  {
    var current := Entered(areas);
    area := if current.Some? then current.value.area else c.order[0];
    more := TakeStep(c, s, es, Starting(s, sid, Looking(resuming), areas), LookForCurrent(sid, current),
                     Starting(s, sid, Preparing(resuming, area), areas));
  }

  lemma StartPrepares(c: Config, s: System, es: seq<Step>, sid: nat, area: string, areas: AreaTable, newId: string,
                      now: int)
    returns (more: seq<Step>)
    requires newId !in s.seen && !Blank(newId) && AreasStarted(c.order, s.db.areas, areas)
    requires StartArea(c.order, areas, area)
    requires Leads(c, s, es, Starting(s, sid, Preparing(Resumes(s.db), area), areas))
    ensures Runnable(c, s, more) && Started(c, newId, now, s.db, After(c, s, more).db)
  {
    var asking, e := Starting(s, sid, Preparing(Resumes(s.db), area), areas), Prepare(sid, newId, now);
    more := TakeStep(c, s, es, asking, e, Apply(c, asking, e));
    StartAsks(c, asking, e);
    assert Apply(c, asking, e).db.session.status == Interviewing;
  }

  /** From every reachable state without a question in force, a start that nothing interrupts gets through. */
  lemma StartGetsThrough(c: Config, s: System, sid: nat, newId: string, now: int) returns (es: seq<Step>)
    requires ValidConfig(c) && Inv(c, s) && sid !in s.starts && newId !in s.seen && !Blank(newId)
    requires s.db.session.status in {Created, Active, Interviewing} && s.db.session.expectedTurn == None
    ensures Runnable(c, s, es) && Started(c, newId, now, s.db, After(c, s, es).db)
  {
    ValidOrder(c);
    var made := RowsMade(s.db.areas, c.order, |c.order|);
    var areas := WithOpenMoved(made, c.order[0], InProgress);
    FirstIsEntered(s.db.areas, c.order);
    StartedAreasAreNamed(c.order, s.db.areas, areas);
    es := StartReaches(c, s, sid);
    es := MakesRows(c, s, es, sid, Resumes(s.db), |c.order|);
    es := StartEnters(c, s, es, sid, Resumes(s.db), made);
    var area;
    es, area := StartLooks(c, s, es, sid, Resumes(s.db), areas);
    es := StartPrepares(c, s, es, sid, area, areas, newId, now);
  }

  lemma StartedAreasAreNamed(order: seq<string>, a: AreaTable, b: AreaTable)
    requires GoodOrder(order) && AreasInv(order, a) && AreasStarted(order, a, b)
    ensures forall x :: x in b ==> !Blank(x)
  {
  }
}
