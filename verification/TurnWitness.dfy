/** A run in which a timeout that is not atomic makes a committed question name an area nobody is in. */
module TurnWitness {
  import opened Text
  import opened AreaConfigs
  import opened TurnPolicy
  import opened Timing
  import opened TurnStore
  import opened TurnMachine
  import opened TurnSafety
  import opened TurnTheorems
  import opened TurnCoherence

  /** Two areas, and a budget that one question's time limit uses up. */
  const TWO_AREAS := [AreaConfig(1, "h", "Harm"), AreaConfig(2, "n", "Nexus")]
  const SMALL := Config(TWO_AREAS, ["h", "n"], 60, 60)

  lemma SmallIsValid()
    ensures ValidConfig(SMALL)
  {
    assert Key("h") == "h" && Key("n") == "n";
    assert Apart(TWO_AREAS[0], TWO_AREAS[1]);
    assert Slugs(TWO_AREAS) == ["h", "n"];
  }

  lemma RunMore(es: seq<Step>, e: Step)
    requires Runnable(SMALL, Init(SMALL), es) && Enabled(SMALL, After(SMALL, Init(SMALL), es), e)
    ensures Runnable(SMALL, Init(SMALL), es + [e])
    ensures After(SMALL, Init(SMALL), es + [e]) == Apply(SMALL, After(SMALL, Init(SMALL), es), e)
  {
    assert (es + [e])[..|es + [e]| - 1] == es;
  }

  ghost predicate RunsTo(es: seq<Step>, s: System) {
    Runnable(SMALL, Init(SMALL), es) && After(SMALL, Init(SMALL), es) == s
  }

  /** A step taken from a state some run has led to. */
  lemma Take(es: seq<Step>, s: System, e: Step, s': System) returns (more: seq<Step>)
    requires RunsTo(es, s) && Enabled(SMALL, s, e) && s' == Apply(SMALL, s, e)
    ensures RunsTo(more, s')
  {
    RunMore(es, e);
    more := es + [e];
  }

  const FIRST := QuestionArea("h", AreaRow(InProgress, 0, ""))

  function Table(n: AreaStatus): AreaTable { map["h" := AreaRow(InProgress, 0, ""), "n" := AreaRow(n, 0, "")] }

  function Session(step: FlowStep, turn: string, number: int): SessionRow {
    SessionRow(Interviewing, 60, 0, step, Some(turn), number, Some(ActiveQuestion("h", KindAt(step), 0, 60 * SECOND)))
  }

  function Interview(step: FlowStep, turn: string, number: int, events: seq<FlowEvent>): Db {
    Db(Session(step, turn, number), Table(Pending), [], events)
  }

  /** The session is started: both areas exist, the first one is entered, the disclaimer is asked under turn "1". */
  lemma Started() returns (es: seq<Step>)
    ensures RunsTo(es, System(Interview(Disclaimer, "1", 1, []), map[], map[0 := StartEnded], {"1"}, map[]))
  {
    var s0 := Init(SMALL);
    assert RunsTo([], s0);
    var db1 := s0.db.(session := s0.db.session.(status := Interviewing));
    es := Take([], s0, BeginStart(0), s0.(db := db1, starts := map[0 := Counting]));
    es := Take(es, s0.(db := db1, starts := map[0 := Counting]), CountAnswers(0),
               s0.(db := db1, starts := map[0 := Flowing(0)]));
    var s3 := s0.(db := db1, starts := map[0 := Creating(false, 0)]);
    es := Take(es, s0.(db := db1, starts := map[0 := Flowing(0)]), StartReadFlow(0), s3);
    es := Entered(es, s3);
  }

  lemma Entered(start: seq<Step>, s: System) returns (es: seq<Step>)
    requires RunsTo(start, s)
    requires s == System(Init(SMALL).db.(session := Init(SMALL).db.session.(status := Interviewing)), map[],
                         map[0 := Creating(false, 0)], {}, map[])
    ensures RunsTo(es, System(Interview(Disclaimer, "1", 1, []), map[], map[0 := StartEnded], {"1"}, map[]))
  {
    var one: AreaTable := map["h" := AreaRow(Pending, 0, "")];
    var s1 := s.(db := s.db.(areas := one), starts := map[0 := Creating(false, 1)]);
    es := Take(start, s, CreateArea(0), s1);
    var s2 := s.(db := s.db.(areas := one["n" := AreaRow(Pending, 0, "")]), starts := map[0 := Creating(false, 2)]);
    es := Take(es, s1, CreateArea(0), s2);
    es := FirstEntered(es, s2);
  }

  lemma FirstEntered(start: seq<Step>, s: System) returns (es: seq<Step>)
    requires RunsTo(start, s)
    requires s == System(Db(Init(SMALL).db.session.(status := Interviewing),
                            map["h" := AreaRow(Pending, 0, ""), "n" := AreaRow(Pending, 0, "")], [], []),
                         map[], map[0 := Creating(false, 2)], {}, map[])
    ensures RunsTo(es, System(Interview(Disclaimer, "1", 1, []), map[], map[0 := StartEnded], {"1"}, map[]))
  {
    var s1 := s.(starts := map[0 := SettingFirst(false)]);
    es := Take(start, s, CreateArea(0), s1);
    var s2 := s.(db := s.db.(areas := Table(Pending)), starts := map[0 := Looking(false)]);
    es := Take(es, s1, SetFirst(0), s2);
    es := Asked(es, s2);
  }

  lemma Asked(start: seq<Step>, s: System) returns (es: seq<Step>)
    requires RunsTo(start, s)
    requires s == System(Db(Init(SMALL).db.session.(status := Interviewing), Table(Pending), [], []), map[],
                         map[0 := Looking(false)], {}, map[])
    ensures RunsTo(es, System(Interview(Disclaimer, "1", 1, []), map[], map[0 := StartEnded], {"1"}, map[]))
  {
    assert !Blank("h");
    var found := s.(starts := map[0 := Preparing(false, "h")]);
    es := Take(start, s, LookForCurrent(0, Some(FIRST)), found);
    es := DisclaimerAsked(es, found);
  }

  lemma DisclaimerAsked(start: seq<Step>, s: System) returns (es: seq<Step>)
    requires RunsTo(start, s)
    requires s == System(Db(Init(SMALL).db.session.(status := Interviewing), Table(Pending), [], []), map[],
                         map[0 := Preparing(false, "h")], {}, map[])
    ensures RunsTo(es, System(Interview(Disclaimer, "1", 1, []), map[], map[0 := StartEnded], {"1"}, map[]))
  {
    assert !Blank("1");
    var asked := System(Interview(Disclaimer, "1", 1, []), map[], map[0 := StartEnded], {"1"}, map[]);
    es := Take(start, s, Prepare(0, "1", 0), asked);
  }

  function Reading(turn: string, at: int, pc: Pc): Proc { Proc(turn, "yes", "", at, pc) }

  function ReadOf(db: Db): Snapshot { Snapshot(db.session.lapsed, ReadFlow(db.session), db.areas, Some(FIRST)) }

  lemma ReadTwice(start: seq<Step>, s: System, pid: nat) returns (es: seq<Step>)
    requires RunsTo(start, s) && pid in s.procs && s.procs[pid].pc.Begun?
    ensures RunsTo(es, At(s, pid, GotFlow(s.db.session.lapsed, ReadFlow(s.db.session))))
  {
    var read := At(s, pid, GotSession(s.db.session.lapsed));
    es := Take(start, s, ReadSession(pid), read);
    var flow := GotFlow(s.db.session.lapsed, ReadFlow(s.db.session));
    assert At(read, pid, flow) == At(s, pid, flow);
    es := Take(es, read, ReadFlowPointer(pid), At(s, pid, flow));
  }

  lemma ReadAreasTwice(start: seq<Step>, s: System, pid: nat) returns (es: seq<Step>)
    requires RunsTo(start, s) && pid in s.procs && IsCurrent(s.db.areas, Some(FIRST))
    requires s.procs[pid].pc == GotFlow(s.db.session.lapsed, ReadFlow(s.db.session))
    ensures RunsTo(es, At(s, pid, Ready(ReadOf(s.db))))
  {
    var read := At(s, pid, GotAreas(s.db.session.lapsed, ReadFlow(s.db.session), s.db.areas));
    es := Take(start, s, ReadAreas(pid), read);
    assert At(read, pid, Ready(ReadOf(s.db))) == At(s, pid, Ready(ReadOf(s.db)));
    es := Take(es, read, ReadCurrentArea(pid, Some(FIRST)), At(s, pid, Ready(ReadOf(s.db))));
  }

  /** A delivery begins and makes its four reads with nothing in between. */
  lemma Delivered(start: seq<Step>, s: System, pid: nat, turn: string, at: int) returns (es: seq<Step>)
    requires RunsTo(start, s) && pid !in s.procs && IsCurrent(s.db.areas, Some(FIRST))
    ensures RunsTo(es, s.(procs := s.procs[pid := Reading(turn, at, Ready(ReadOf(s.db)))], seen := s.seen + {turn}))
  {
    var begun: System := s.(procs := s.procs[pid := Reading(turn, at, Begun)], seen := s.seen + {turn});
    es := Take(start, s, BeginTurn(pid, turn, "yes", "", at), begun);
    es := ReadTwice(es, begun, pid);
    var read := At(begun, pid, GotFlow(s.db.session.lapsed, ReadFlow(s.db.session)));
    es := ReadAreasTwice(es, read, pid);
    assert At(read, pid, Ready(ReadOf(s.db)))
      == s.(procs := s.procs[pid := Reading(turn, at, Ready(ReadOf(s.db)))], seen := s.seen + {turn});
  }

  /** The disclaimer and the readiness question are answered: the first criterion question is asked under turn "3". */
  lemma Questioned() returns (es: seq<Step>, s: System)
    ensures RunsTo(es, s) && s.db == Interview(Criterion, "3", 2, [DisclaimerAck, ReadinessAck])
    ensures s.procs.Keys == {0, 1} && s.seen == {"1", "2", "3"}
  {
    es := Started();
    s := System(Interview(Disclaimer, "1", 1, []), map[], map[0 := StartEnded], {"1"}, map[]);
    es, s := Advanced(es, s, 0, Disclaimer, "1", "2");
    es, s := Advanced(es, s, 1, Readiness, "2", "3");
  }

  /** One non-criterion turn, from its delivery to its compare-and-swap. */
  lemma Advanced(start: seq<Step>, s: System, pid: nat, step: FlowStep, turn: string, next: string)
    returns (es: seq<Step>, s': System)
    requires RunsTo(start, s) && pid !in s.procs && turn in s.seen && next !in s.seen && !Blank(turn) && !Blank(next)
    requires step.Disclaimer? || step.Readiness?
    requires s.db == Interview(step, turn, 1, if step.Disclaimer? then [] else [DisclaimerAck])
    ensures RunsTo(es, s') && s'.procs.Keys == s.procs.Keys + {pid} && s'.seen == s.seen + {next}
    ensures s'.db == if step.Disclaimer? then Interview(Readiness, next, 1, [DisclaimerAck])
                     else Interview(Criterion, next, 2, [DisclaimerAck, ReadinessAck])
  {
    es := Delivered(start, s, pid, turn, 0);
    var read := s.(procs := s.procs[pid := Reading(turn, 0, Ready(ReadOf(s.db)))], seen := s.seen + {turn});
    es, s' := Swapped(es, read, pid, step, turn, next);
  }

  lemma Swapped(start: seq<Step>, s: System, pid: nat, step: FlowStep, turn: string, next: string)
    returns (es: seq<Step>, s': System)
    requires RunsTo(start, s) && turn in s.seen && next !in s.seen && !Blank(turn) && !Blank(next)
    requires step.Disclaimer? || step.Readiness?
    requires s.db == Interview(step, turn, 1, if step.Disclaimer? then [] else [DisclaimerAck])
    requires pid in s.procs && s.procs[pid] == Reading(turn, 0, Ready(ReadOf(s.db)))
    ensures RunsTo(es, s') && s'.procs.Keys == s.procs.Keys && s'.seen == s.seen + {next}
    ensures s'.db == if step.Disclaimer? then Interview(Readiness, next, 1, [DisclaimerAck])
                     else Interview(Criterion, next, 2, [DisclaimerAck, ReadinessAck])
  {
    var e := AdvanceTurn(pid, next, 0);
    assert Enabled(SMALL, s, e);
    s' := Apply(SMALL, s, e);
    assert s' == ApplyAdvance(SMALL, s, e);
    es := Take(start, s, e, s');
  }

  // ----- the race -----

  const ASKING := Interview(Criterion, "3", 2, [DisclaimerAck, ReadinessAck])

  /** Two deliveries of the same turn have read the same rows, one of them submitted when the time was up. */
  lemma BothRead() returns (es: seq<Step>, s: System)
    ensures RunsTo(es, s) && s.db == ASKING && s.seen == {"1", "2", "3"}
    ensures 2 in s.procs && s.procs[2] == Reading("3", 0, Ready(ReadOf(ASKING)))
    ensures 3 in s.procs && s.procs[3] == Reading("3", 60 * SECOND, Ready(ReadOf(ASKING)))
  {
    es, s := Questioned();
    es := Delivered(es, s, 2, "3", 0);
    s := s.(procs := s.procs[2 := Reading("3", 0, Ready(ReadOf(ASKING)))], seen := s.seen + {"3"});
    es := Delivered(es, s, 3, "3", 60 * SECOND);
    s := s.(procs := s.procs[3 := Reading("3", 60 * SECOND, Ready(ReadOf(ASKING)))], seen := s.seen + {"3"});
  }

  lemma TimesUp()
    ensures TimeRemaining(60, 0, ReadFlow(ASKING.session), 60 * SECOND, 60) == 0
    ensures TimeRemaining(60, 0, ReadFlow(ASKING.session), 0, 60) == 60
    ensures ReadFlow(ASKING.session).expectedTurn == "3" && !Blank("3") && ReadFlow(ASKING.session).step.Criterion?
  {
    assert !Blank("3");
  }

  /** The late delivery times out and marks the second area, but does not get to close the flow. */
  lemma SecondMarked() returns (es: seq<Step>, s: System)
    ensures RunsTo(es, s) && s.db == ASKING.(areas := Table(NotAssessed)) && s.seen == {"1", "2", "3"}
    ensures 2 in s.procs && s.procs[2] == Reading("3", 0, Ready(ReadOf(ASKING)))
  {
    es, s := BothRead();
    TimesUp();
    var late := TimeOut(3, ["n", "h"]);
    assert forall a :: a in ["n", "h"] <==> a in Table(Pending) && Unresolved(Table(Pending)[a].status);
    assert Enabled(SMALL, s, late);
    es := Take(es, s, late, At(s, 3, Marking(["n", "h"])));
    s := At(s, 3, Marking(["n", "h"]));
    es, s := MarkOne(es, s);
  }

  lemma MarkOne(start: seq<Step>, s: System) returns (es: seq<Step>, s': System)
    requires RunsTo(start, s) && 3 in s.procs && s.procs[3].pc == Marking(["n", "h"]) && s.db == ASKING
    ensures RunsTo(es, s') && s'.db == ASKING.(areas := Table(NotAssessed)) && s'.seen == s.seen
    ensures 2 in s.procs ==> 2 in s'.procs && s'.procs[2] == s.procs[2]
  {
    var e := MarkNotAssessed(3, true);
    s' := Apply(SMALL, s, e);
    assert s' == ApplyTurn(SMALL, s, e);
    assert WithOpenMoved(Table(Pending), "n", NotAssessed) == Table(NotAssessed);
    es := Take(start, s, e, s');
  }

  const SUFFICIENT := Reply(Some(Evaluation(CurrentCriterion(1, "sufficient", ""), [])))

  /** The early delivery plans from what it read: it moves on to the second area, which it saw pending. */
  lemma PlanMovesOn(now: int)
    ensures var plan := PlanOf(SMALL, Reading("3", 0, Ready(ReadOf(ASKING))), SUFFICIENT, "en", "4", now);
            && plan.nextArea == "n" && plan.current == "h" && plan.decision == Decision(Next, Some(Complete))
            && plan.nextIssued == Some(Issue(SMALL, "4", 3, "n", CriterionKind, now))
            && plan.expectedTurn == "3" && plan.evaluation.Some?
  {
    assert Trim("sufficient") == "sufficient" && !Blank("n") && !Blank("4");
    assert StatusOf(Table(Pending)) == map["h" := InProgress, "n" := Pending];
    var status := Marked(StatusOf(Table(Pending)), "h", Decision(Next, Some(Complete)));
    assert status["h"] == Complete && status["n"] == Pending;
    assert ["h", "n"][1..] == ["n"];
    assert SelectNextPendingArea(["h", "n"], status) == "n";
  }

  lemma EarlyPlanCommits(plan: CommitParams)
    requires plan.nextArea == "n" && plan.current == "h" && plan.expectedTurn == "3" && plan.evaluation.Some?
    requires plan.nextIssued == Some(Issue(SMALL, "4", 3, "n", CriterionKind, 0))
    ensures CommitOutcome(ASKING.(areas := Table(NotAssessed)), plan).Committed?
  {
    assert !Blank("n");
  }

  const EARLY_COMMIT := CommitTurn(2, SUFFICIENT, "en", "4", 0)

  lemma EarlyIsAdmitted(s: System)
    requires s.db == ASKING.(areas := Table(NotAssessed)) && s.seen == {"1", "2", "3"}
    requires 2 in s.procs && s.procs[2] == Reading("3", 0, Ready(ReadOf(ASKING)))
    ensures Enabled(SMALL, s, EARLY_COMMIT)
  {
    TimesUp();
    assert !Blank("4");
  }

  lemma CommitsOnSkipped(s: System)
    requires s.db == ASKING.(areas := Table(NotAssessed)) && s.seen == {"1", "2", "3"}
    requires 2 in s.procs && s.procs[2] == Reading("3", 0, Ready(ReadOf(ASKING)))
    requires Enabled(SMALL, s, EARLY_COMMIT)
    ensures FindsSkipped(SMALL, s, EARLY_COMMIT)
  {
    var plan := PlanAt(SMALL, s, EARLY_COMMIT);
    assert plan == PlanOf(SMALL, s.procs[2], SUFFICIENT, "en", "4", 0);
    PlanMovesOn(0);
    EarlyPlanCommits(plan);
  }

  /** A run from the start that ends with a criterion question about an area that is not in progress: a delivery reads
      its snapshot, a late delivery of the same turn marks the next area, the first one commits its plan. */
  lemma SkippedAreaCanBeNamed() returns (es: seq<Step>)
    ensures ValidConfig(SMALL) && Runnable(SMALL, Init(SMALL), es)
    ensures !NamesOpenArea(After(SMALL, Init(SMALL), es).db) && !TimeoutsAtomic(es)
  {
    SmallIsValid();
    var s: System;
    es, s := SecondMarked();
    EarlyIsAdmitted(s);
    CommitsOnSkipped(s);
    RunKeepsInv(SMALL, es);
    CommitNamesOpenIff(SMALL, s, EARLY_COMMIT);
    es := Take(es, s, EARLY_COMMIT, Apply(SMALL, s, EARLY_COMMIT));
    if TimeoutsAtomic(es) { AtomicTimeoutsNameOpenAreas(SMALL, es); }
  }
}
