/** One interview under arbitrary interleaving. Every SQL statement or transaction is one
    atomic step; the unlocked reads of a turn are separate earlier steps; any number of turn
    deliveries and session starts run at once, each may stop for ever at any point. */
module TurnMachine {
  import opened Text
  import opened AreaConfigs
  import opened TurnPolicy
  import opened Timing
  import opened TurnStore

  /** The configured areas and their slugs in order, the answer time limit and the session's budget, in seconds. */
  datatype Config = Config(areas: seq<AreaConfig>, order: seq<string>, limit: nat, budget: nat)

  /** A configuration that passed start-up validation. */
  ghost predicate ValidConfig(c: Config) {
    ValidAreas(c.areas) && c.order == Slugs(c.areas)
  }

  datatype Snapshot = Snapshot(lapsed: int, flow: Flow, areas: AreaTable, current: Option<QuestionArea>)

  datatype Result = NextQuestion(turnId: string) | DoneResult | Conflict | Failed

  /** Where one delivery of an answer has got to. */
  datatype Pc =
    | Begun
    | GotSession(lapsed: int)
    | GotFlow(lapsed: int, flow: Flow)
    | GotAreas(lapsed: int, flow: Flow, areas: AreaTable)
    | Ready(snap: Snapshot)
    | Marking(todo: seq<string>)
    | Closing
    | Refreshing(next: Option<string>)
    | Completing
    | Finished(result: Result)

  datatype Proc = Proc(turn: string, answer: string, question: string, submittedAt: int, pc: Pc)

  /** Where one start of the session has got to. */
  datatype Start =
    | Counting
    | Flowing(answersCount: nat)
    | Creating(resuming: bool, i: nat)
    | SettingFirst(resuming: bool)
    | Looking(resuming: bool)
    | Preparing(resuming: bool, area: string)
    | StartEnded

  /** How a turn id was used up: at which step, and what was installed instead. */
  datatype Consumption = Consumption(step: FlowStep, next: Option<string>)

  /** `seen` holds every turn id ever named or drawn; `consumed` is the history of used turn ids. */
  datatype System = System(db: Db, procs: map<nat, Proc>, starts: map<nat, Start>,
                           seen: set<string>, consumed: map<string, Consumption>)

  function Init(c: Config): System {
    System(Db(SessionRow(Created, c.budget, 0, Disclaimer, None, 1, None), map[], [], []), map[], map[], {}, map[])
  }

  // ----- steps -----

  datatype Step =
    | BeginTurn(pid: nat, turn: string, answer: string, question: string, submittedAt: int)
    | ReadSession(pid: nat)
    | ReadFlowPointer(pid: nat)
    | ReadAreas(pid: nat)
    | ReadCurrentArea(pid: nat, current: Option<QuestionArea>)
    | AlreadyDone(pid: nat)
    | RejectTurn(pid: nat)
    | TimeOut(pid: nat, todo: seq<string>)
    | MarkNotAssessed(pid: nat, ok: bool)
    | NoCurrentArea(pid: nat)
    | CloseFlow(pid: nat, ok: bool)
    | AdvanceTurn(pid: nat, newId: string, now: int)
    | CommitTurn(pid: nat, reply: AiReply, language: string, newId: string, now: int)
    | Refresh(pid: nat)
    | CompleteSession(pid: nat, ok: bool)
    | FailTurn(pid: nat)
    | BeginStart(sid: nat)
    | CountAnswers(sid: nat)
    | StartReadFlow(sid: nat)
    | CreateArea(sid: nat)
    | SetFirst(sid: nat)
    | LookForCurrent(sid: nat, current: Option<QuestionArea>)
    | Prepare(sid: nat, newId: string, now: int)

  predicate IsStartStep(e: Step) {
    e.BeginStart? || e.CountAnswers? || e.StartReadFlow? || e.CreateArea? || e.SetFirst? || e.LookForCurrent?
    || e.Prepare?
  }

  predicate Fresh(s: System, id: string) { id !in s.seen && !Blank(id) }

  function TimeLeft(c: Config, p: Proc, snap: Snapshot): nat {
    TimeRemaining(c.budget, snap.lapsed, snap.flow, p.submittedAt, c.limit)
  }

  /** The turn passed every guard and dispatches on its step. */
  predicate Admitted(c: Config, p: Proc) {
    && p.pc.Ready?
    && !p.pc.snap.flow.step.Done?
    && !Blank(p.turn) && p.turn == p.pc.snap.flow.expectedTurn
    && TimeLeft(c, p, p.pc.snap) > 0
  }

  /** The in-progress row a read may return: any of them, or none when there is none. */
  ghost predicate IsCurrent(areas: AreaTable, current: Option<QuestionArea>) {
    match current
    case None => forall s :: s in areas ==> !areas[s].status.InProgress?
    case Some(a) => a.area in areas && areas[a.area] == a.row && a.row.status.InProgress?
  }

  function KindAt(step: FlowStep): QuestionKind {
    match step case Disclaimer => DisclaimerKind case Readiness => ReadinessKind case _ => CriterionKind
  }

  function Issue(c: Config, newId: string, number: int, area: string, kind: QuestionKind, now: int): IssuedQuestion {
    IssuedQuestion(newId, number, ActiveQuestion(area, kind, now, now + c.limit * SECOND))
  }

  function CriterionId(areas: seq<AreaConfig>, slug: string): int {
    if areas == [] then 0 else if areas[0].slug == slug then areas[0].id else CriterionId(areas[1..], slug)
  }

  function AnswerText(answer: string, language: string): string {
    if !Blank(answer) then answer
    else if EqualFold(Trim(language), "en") then "[No response provided]" else "[No se proporciono respuesta]"
  }

  /** The transaction a criterion turn plans from its snapshot and the reply it got. */
  function PlanOf(c: Config, p: Proc, reply: AiReply, language: string, newId: string, now: int): CommitParams
    requires p.pc.Ready? && p.pc.snap.current.Some?
  {
    var snap := p.pc.snap;
    var current := snap.current.value;
    var e := Judge(reply, CriterionId(c.areas, current.area));
    var d := Decide(e.current, current.row.count + 1, MAX_QUESTIONS_PER_AREA);
    var next := NextAreaIn(snap.areas, current.area, d, c.order);
    CommitParams(p.turn, current.area, p.question, AnswerText(p.answer, language), p.submittedAt, language,
                 Some(e), PreAddressedOf(c.areas, e.other), d, next,
                 if Blank(next) then None else Some(Issue(c, newId, snap.flow.number + 1, next, CriterionKind, now)),
                 c.limit)
  }

  /** A disclaimer answer leads to readiness with the same number; a readiness answer to the first criterion
      question. */
  function AdvanceOf(c: Config, p: Proc, newId: string, now: int): AdvanceParams
    requires p.pc.Ready? && p.pc.snap.current.Some?
  {
    var flow := p.pc.snap.flow;
    var area := p.pc.snap.current.value.area;
    if flow.step.Disclaimer? then
      AdvanceParams(p.turn, Disclaimer, Readiness, DisclaimerAck,
                    Some(Issue(c, newId, flow.number, area, ReadinessKind, now)))
    else
      AdvanceParams(p.turn, Readiness, Criterion, ReadinessAck,
                    Some(Issue(c, newId, flow.number + 1, area, CriterionKind, now)))
  }

  ghost predicate Enabled(c: Config, s: System, e: Step) {
    match e
    case BeginTurn(pid, _, _, _, _) => pid !in s.procs
    case ReadSession(pid) => pid in s.procs && s.procs[pid].pc.Begun?
    case ReadFlowPointer(pid) => pid in s.procs && s.procs[pid].pc.GotSession?
    case ReadAreas(pid) => pid in s.procs && s.procs[pid].pc.GotFlow?
    case ReadCurrentArea(pid, current) => pid in s.procs && s.procs[pid].pc.GotAreas? && IsCurrent(s.db.areas, current)
    case AlreadyDone(pid) => pid in s.procs && s.procs[pid].pc.Ready? && s.procs[pid].pc.snap.flow.step.Done?
    case RejectTurn(pid) =>
      && pid in s.procs && s.procs[pid].pc.Ready? && !s.procs[pid].pc.snap.flow.step.Done?
      && (Blank(s.procs[pid].turn) || s.procs[pid].turn != s.procs[pid].pc.snap.flow.expectedTurn)
    case TimeOut(pid, todo) =>
      && pid in s.procs && s.procs[pid].pc.Ready? && !s.procs[pid].pc.snap.flow.step.Done?
      && !Blank(s.procs[pid].turn) && s.procs[pid].turn == s.procs[pid].pc.snap.flow.expectedTurn
      && TimeLeft(c, s.procs[pid], s.procs[pid].pc.snap) == 0
      && (forall a ::
            a in todo <==> a in s.procs[pid].pc.snap.areas && Unresolved(s.procs[pid].pc.snap.areas[a].status))
    case MarkNotAssessed(pid, _) => pid in s.procs && s.procs[pid].pc.Marking?
    case NoCurrentArea(pid) => pid in s.procs && Admitted(c, s.procs[pid]) && s.procs[pid].pc.snap.current.None?
    case CloseFlow(pid, _) => pid in s.procs && s.procs[pid].pc.Closing?
    case AdvanceTurn(pid, newId, _) =>
      && pid in s.procs && Admitted(c, s.procs[pid]) && s.procs[pid].pc.snap.current.Some?
      && (s.procs[pid].pc.snap.flow.step.Disclaimer? || s.procs[pid].pc.snap.flow.step.Readiness?)
      && Fresh(s, newId)
    case CommitTurn(pid, _, _, newId, _) =>
      && pid in s.procs && Admitted(c, s.procs[pid]) && s.procs[pid].pc.snap.current.Some?
      && s.procs[pid].pc.snap.flow.step.Criterion?
      && Fresh(s, newId)
    case Refresh(pid) => pid in s.procs && s.procs[pid].pc.Refreshing?
    case CompleteSession(pid, _) => pid in s.procs && s.procs[pid].pc.Completing?
    case FailTurn(pid) => pid in s.procs && !s.procs[pid].pc.Finished?
    case BeginStart(sid) =>
      && sid !in s.starts
      && (s.db.session.status.Created? || s.db.session.status.Active? || s.db.session.status.Interviewing?)
    case CountAnswers(sid) => sid in s.starts && s.starts[sid].Counting?
    case StartReadFlow(sid) => sid in s.starts && s.starts[sid].Flowing?
    case CreateArea(sid) => sid in s.starts && s.starts[sid].Creating?
    case SetFirst(sid) => sid in s.starts && s.starts[sid].SettingFirst? && c.order != []
    case LookForCurrent(sid, current) =>
      sid in s.starts && s.starts[sid].Looking? && c.order != [] && IsCurrent(s.db.areas, current)
    case Prepare(sid, newId, _) => sid in s.starts && s.starts[sid].Preparing? && Fresh(s, newId)
  }

  function At(s: System, pid: nat, pc: Pc): System
    requires pid in s.procs
  {
    s.(procs := s.procs[pid := s.procs[pid].(pc := pc)])
  }

  function StartAt(s: System, sid: nat, st: Start): System { s.(starts := s.starts[sid := st]) }

  function WithDb(s: System, db: Db): System { s.(db := db) }

  function Consume(s: System, turn: string, how: Consumption, newId: string): System {
    s.(consumed := s.consumed[turn := how], seen := s.seen + {newId})
  }

  ghost function ApplyCommit(c: Config, s: System, e: Step): System
    requires e.CommitTurn? && Enabled(c, s, e)
  {
    var p := s.procs[e.pid];
    var plan := PlanOf(c, p, e.reply, e.language, e.newId, e.now);
    match CommitOutcome(s.db, plan)
    case Committed(_) =>
      var next := if Blank(plan.nextArea) then None else Some(e.newId);
      Consume(WithDb(At(s, e.pid, Refreshing(next)), Commit(s.db, plan)), p.turn, Consumption(Criterion, next), e.newId)
    case TurnConflict => At(s, e.pid, Finished(Conflict))
    case _ => At(s, e.pid, Finished(Failed))
  }

  ghost function ApplyAdvance(c: Config, s: System, e: Step): System
    requires e.AdvanceTurn? && Enabled(c, s, e)
  {
    var p := s.procs[e.pid];
    var plan := AdvanceOf(c, p, e.newId, e.now);
    match AdvanceOutcome(s.db, plan)
    case Committed(_) =>
      Consume(WithDb(At(s, e.pid, Finished(NextQuestion(e.newId))), Advance(s.db, plan)),
              p.turn, Consumption(plan.currentStep, Some(e.newId)), e.newId)
    case TurnConflict => At(s, e.pid, Finished(Conflict))
    case _ => At(s, e.pid, Finished(Failed))
  }

  ghost function ApplyTurn(c: Config, s: System, e: Step): System
    requires Enabled(c, s, e) && !IsStartStep(e)
  {
    match e
    case BeginTurn(pid, turn, answer, question, submittedAt) =>
      s.(procs := s.procs[pid := Proc(turn, answer, question, submittedAt, Begun)], seen := s.seen + {turn})
    case ReadSession(pid) => At(s, pid, GotSession(s.db.session.lapsed))
    case ReadFlowPointer(pid) => At(s, pid, GotFlow(s.procs[pid].pc.lapsed, ReadFlow(s.db.session)))
    case ReadAreas(pid) => At(s, pid, GotAreas(s.procs[pid].pc.lapsed, s.procs[pid].pc.flow, s.db.areas))
    case ReadCurrentArea(pid, current) =>
      var pc := s.procs[pid].pc;
      At(s, pid, Ready(Snapshot(pc.lapsed, pc.flow, pc.areas, current)))
    case AlreadyDone(pid) => At(s, pid, Completing)
    case RejectTurn(pid) => At(s, pid, Finished(Conflict))
    case TimeOut(pid, todo) => At(s, pid, Marking(todo))
    case MarkNotAssessed(pid, ok) =>
      var todo := s.procs[pid].pc.todo;
      if todo == [] then At(s, pid, Closing)
      else
        var areas := if ok then WithOpenMoved(s.db.areas, todo[0], NotAssessed) else s.db.areas;
        WithDb(At(s, pid, Marking(todo[1..])), s.db.(areas := areas))
    case NoCurrentArea(pid) =>
      At(s, pid, if s.procs[pid].pc.snap.flow.step.Criterion? then Closing else Completing)
    case CloseFlow(pid, ok) =>
      WithDb(At(s, pid, Completing), if ok then s.db.(session := FlowDone(s.db.session)) else s.db)
    case AdvanceTurn(pid, _, _) => ApplyAdvance(c, s, e)
    case CommitTurn(pid, _, _, _, _) => ApplyCommit(c, s, e)
    case Refresh(pid) =>
      var next := s.procs[pid].pc.next;
      At(s, pid, if next.Some? then Finished(NextQuestion(next.value)) else Completing)
    case CompleteSession(pid, ok) =>
      if ok then
        WithDb(At(s, pid, Finished(DoneResult)),
               if s.db.session.status.Interviewing? then s.db.(session := s.db.session.(status := Completed)) else s.db)
      else At(s, pid, Finished(Failed))
    case FailTurn(pid) => At(s, pid, Finished(Failed))
  }

  ghost function ApplyStart(c: Config, s: System, e: Step): System
    requires Enabled(c, s, e) && IsStartStep(e)
  {
    match e
    case BeginStart(sid) => WithDb(StartAt(s, sid, Counting), s.db.(session := s.db.session.(status := Interviewing)))
    case CountAnswers(sid) => StartAt(s, sid, Flowing(|s.db.answers|))
    case StartReadFlow(sid) =>
      var flow := ReadFlow(s.db.session);
      StartAt(s, sid, if flow.active.Some? then StartEnded
                      else Creating(s.starts[sid].answersCount > 0 || !flow.step.Disclaimer?, 0))
    case CreateArea(sid) =>
      var st := s.starts[sid];
      if st.i >= |c.order| then StartAt(s, sid, SettingFirst(st.resuming))
      else WithDb(StartAt(s, sid, Creating(st.resuming, st.i + 1)), s.db.(areas := WithArea(s.db.areas, c.order[st.i])))
    case SetFirst(sid) =>
      WithDb(StartAt(s, sid, Looking(s.starts[sid].resuming)),
             s.db.(areas := WithOpenMoved(s.db.areas, c.order[0], InProgress)))
    case LookForCurrent(sid, current) =>
      StartAt(s, sid, Preparing(s.starts[sid].resuming,
                                if current.Some? && !Blank(current.value.area) then current.value.area else c.order[0]))
    case Prepare(sid, newId, now) =>
      var st := s.starts[sid];
      var step := if st.resuming then Readiness else Disclaimer;
      WithDb(StartAt(s, sid, StartEnded),
             s.db.(session := WithQuestion(s.db.session, step,
                                           Issue(c, newId, s.db.session.number, st.area, KindAt(step), now))))
        .(seen := s.seen + {newId})
  }

  ghost function Apply(c: Config, s: System, e: Step): System
    requires Enabled(c, s, e)
  {
    if IsStartStep(e) then ApplyStart(c, s, e) else ApplyTurn(c, s, e)
  }

  ghost predicate Runnable(c: Config, s: System, es: seq<Step>)
    decreases |es|, 0
  {
    es == [] || (Runnable(c, s, es[..|es| - 1]) && Enabled(c, After(c, s, es[..|es| - 1]), es[|es| - 1]))
  }

  /** The state a run leads to. */
  ghost function After(c: Config, s: System, es: seq<Step>): System
    requires Runnable(c, s, es)
    decreases |es|, 1
  {
    if es == [] then s else Apply(c, After(c, s, es[..|es| - 1]), es[|es| - 1])
  }
}
