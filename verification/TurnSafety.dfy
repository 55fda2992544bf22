/** What every reachable state of an interview satisfies, and why: the compare-and-swap on the
    turn id makes everything a turn read before the lock still true when its commit succeeds. */
module TurnSafety {
  import opened Text
  import opened AreaConfigs
  import opened TurnPolicy
  import opened Timing
  import opened TurnStore
  import opened TurnMachine

  // ----- areas -----

  predicate Visited(s: AreaStatus) { s.InProgress? || s.Complete? || s.Insufficient? }

  predicate Closed(s: AreaStatus) { s.Complete? || s.Insufficient? || s.NotAssessed? }

  /** Areas are taken in configured order: once an area has been visited, every earlier one is closed. */
  ghost predicate Ordered(order: seq<string>, areas: AreaTable) {
    forall i, j :: 0 <= i < j < |order| && order[j] in areas && Visited(areas[order[j]].status) ==>
                     order[i] in areas && Closed(areas[order[i]].status)
  }

  predicate CountFits(row: AreaRow) {
    match row.status
    case InProgress => row.count < MAX_QUESTIONS_PER_AREA
    case Complete => row.count <= MAX_QUESTIONS_PER_AREA
    case Insufficient => row.count <= MAX_QUESTIONS_PER_AREA
    case _ => row.count == 0
  }

  ghost predicate AreasInv(order: seq<string>, areas: AreaTable) {
    && (forall s :: s in areas ==> s in order)
    && Ordered(order, areas)
    && forall s :: s in areas ==> CountFits(areas[s])
  }

  /** Every configured area has its row and the first one has been entered. */
  ghost predicate StartedTable(order: seq<string>, areas: AreaTable) {
    && (forall s :: s in order ==> s in areas)
    && order != [] && !Open(areas[order[0]].status)
  }

  function Count(areas: AreaTable, s: string): nat { if s in areas then areas[s].count else 0 }

  function SumCounts(order: seq<string>, areas: AreaTable): nat {
    if order == [] then 0 else Count(areas, order[0]) + SumCounts(order[1..], areas)
  }

  function Potential1(areas: AreaTable, s: string): nat {
    if s !in areas then MAX_QUESTIONS_PER_AREA
    else if Unresolved(areas[s].status) && areas[s].count <= MAX_QUESTIONS_PER_AREA
    then MAX_QUESTIONS_PER_AREA - areas[s].count
    else 0
  }

  /** Questions the unresolved areas can still absorb. */
  function Potential(order: seq<string>, areas: AreaTable): nat {
    if order == [] then 0 else Potential1(areas, order[0]) + Potential(order[1..], areas)
  }

  lemma {:induction false} SumCountsSame(order: seq<string>, a: AreaTable, b: AreaTable)
    requires forall s :: s in order ==> Count(a, s) == Count(b, s)
    ensures SumCounts(order, a) == SumCounts(order, b)
  {
    if order != [] {
      assert order[0] in order;
      assert forall s :: s in order[1..] ==> s in order;
      SumCountsSame(order[1..], a, b);
    }
  }

  ghost predicate Distinct(order: seq<string>) {
    forall i, j :: 0 <= i < j < |order| ==> order[i] != order[j]
  }

  lemma {:induction false} SumCountsOneMore(order: seq<string>, a: AreaTable, b: AreaTable, x: string)
    requires Distinct(order) && x in order
    requires forall s :: s in order ==> Count(b, s) == Count(a, s) + if s == x then 1 else 0
    ensures SumCounts(order, b) == SumCounts(order, a) + 1
  {
    assert order[0] in order;
    assert forall s :: s in order[1..] ==> s in order;
    if order[0] == x {
      assert forall s :: s in order[1..] ==> s != x;
      SumCountsSame(order[1..], a, b);
    } else {
      SumCountsOneMore(order[1..], a, b, x);
    }
  }

  lemma {:induction false} SumCountsBounded(order: seq<string>, areas: AreaTable)
    requires forall s :: s in areas ==> CountFits(areas[s])
    ensures SumCounts(order, areas) <= MAX_QUESTIONS_PER_AREA * |order|
  {
    if order != [] { SumCountsBounded(order[1..], areas); }
  }

  lemma {:induction false} PotentialFalls(order: seq<string>, a: AreaTable, b: AreaTable)
    requires forall s :: s in order ==> Potential1(b, s) <= Potential1(a, s)
    ensures Potential(order, b) <= Potential(order, a)
    ensures (exists s :: s in order && Potential1(b, s) < Potential1(a, s)) ==>
                  Potential(order, b) < Potential(order, a)
  {
    if order != [] {
      assert order[0] in order;
      assert forall s :: s in order[1..] ==> s in order;
      PotentialFalls(order[1..], a, b);
      if s :| s in order && Potential1(b, s) < Potential1(a, s) {
        assert s == order[0] || s in order[1..];
      }
    }
  }

  /** What the order of a valid configuration is used for. */
  ghost predicate GoodOrder(order: seq<string>) {
    order != [] && Distinct(order) && forall s :: s in order ==> !Blank(s) && s != ""
  }

  lemma ValidOrder(c: Config)
    requires ValidConfig(c)
    ensures GoodOrder(c.order) && FoldDistinct(c.order)
  {
    ValidAreasFoldDistinct(c.areas);
    assert Blank("");
    forall i, j | 0 <= i < j < |c.order|
      ensures c.order[i] != c.order[j]
    {
      assert EqualFold(c.order[i], c.order[j]) ==> i == j;
    }
  }

  // ----- the session row -----

  function Acks(events: seq<FlowEvent>): nat {
    if events == [] then 0 else Acks(events[..|events| - 1]) + if events[|events| - 1].ReadinessAck? then 1 else 0
  }

  ghost predicate SessionInv(c: Config, db: Db) {
    && db.session.budget == c.budget
    && 0 <= db.session.lapsed <= db.session.budget
    && db.session.number == 1 + Acks(db.events) + |db.answers|
    && (db.session.expectedTurn.Some? <==> db.session.active.Some?)
    && (db.session.expectedTurn.Some? ==> !Blank(db.session.expectedTurn.value) && !db.session.step.Done?)
    && (db.session.step.Criterion? ==> db.session.expectedTurn.Some?)
    && (db.session.active.Some? ==> db.session.active.value.kind == KindAt(db.session.step))
  }

  ghost predicate DbInv(c: Config, db: Db) {
    && SessionInv(c, db)
    && AreasInv(c.order, db.areas)
    && SumCounts(c.order, db.areas) == |db.answers|
    && (db.session.expectedTurn.Some? ==> StartedTable(c.order, db.areas))
    && (db.session.step.Criterion? ==>
          && db.session.active.value.area in db.areas
          && (db.areas[db.session.active.value.area].status.InProgress?
              || db.areas[db.session.active.value.area].status.NotAssessed?))
  }

  // ----- what a delivery knows while its turn is still expected -----

  predicate RowKept(a: AreaRow, b: AreaRow) {
    a == b || (Open(a.status) && b == a.(status := NotAssessed))
  }

  /** Nothing happened to the table but statements marking open areas as not assessed. */
  ghost predicate OnlyMarked(a: AreaTable, b: AreaTable) {
    a.Keys == b.Keys && forall s :: s in a ==> RowKept(a[s], b[s])
  }

  ghost predicate SameTurn(a: SessionRow, b: SessionRow) {
    b == a.(status := b.status)
  }

  /** A step either leaves the expected turn and all a turn reads alone, or takes the turn away for good. */
  ghost predicate Compatible(a: Db, b: Db, seen: set<string>) {
    b.session.expectedTurn.Some? ==>
      || (SameTurn(a.session, b.session) && OnlyMarked(a.areas, b.areas))
      || b.session.expectedTurn.value !in seen
  }

  /** While the delivery's turn is the expected one, everything it has read is still so. */
  ghost predicate ProcAgrees(p: Proc, db: Db) {
    db.session.expectedTurn == Some(p.turn) ==>
      match p.pc
      case GotSession(lapsed) => lapsed == db.session.lapsed
      case GotFlow(lapsed, flow) => lapsed == db.session.lapsed && flow == ReadFlow(db.session)
      case GotAreas(lapsed, flow, areas) =>
        lapsed == db.session.lapsed && flow == ReadFlow(db.session) && OnlyMarked(areas, db.areas)
      case Ready(snap) =>
        && snap.lapsed == db.session.lapsed && snap.flow == ReadFlow(db.session)
        && OnlyMarked(snap.areas, db.areas) && IsCurrent(db.areas, snap.current)
      case _ => true
  }

  ghost predicate ProcResult(p: Proc, consumed: map<string, Consumption>) {
    match p.pc
    case Refreshing(next) => p.turn in consumed && consumed[p.turn].next == next
    case Finished(NextQuestion(turnId)) => p.turn in consumed && consumed[p.turn].next == Some(turnId)
    case _ => true
  }

  ghost predicate StartAgrees(order: seq<string>, st: Start, areas: AreaTable) {
    match st
    case Creating(_, i) => i <= |order| && forall k :: 0 <= k < i ==> order[k] in areas
    case SettingFirst(_) => forall s :: s in order ==> s in areas
    case Looking(_) => StartedTable(order, areas)
    case Preparing(_, _) => StartedTable(order, areas)
    case _ => true
  }

  ghost function CriterionTurns(consumed: map<string, Consumption>): set<string> {
    set t | t in consumed && consumed[t].step.Criterion?
  }

  /** The answers are the criterion turns used up, each once. */
  ghost predicate AnswersMatch(answers: seq<AnswerRow>, consumed: map<string, Consumption>) {
    && (forall i, j :: 0 <= i < j < |answers| ==> answers[i].turn != answers[j].turn)
    && (forall i :: 0 <= i < |answers| ==> answers[i].turn in CriterionTurns(consumed))
    && |answers| == |CriterionTurns(consumed)|
  }

  ghost predicate HistoryInv(s: System) {
    && (s.db.session.expectedTurn.Some? ==>
          s.db.session.expectedTurn.value in s.seen && s.db.session.expectedTurn.value !in s.consumed)
    && s.consumed.Keys <= s.seen
    && (forall pid :: pid in s.procs ==> s.procs[pid].turn in s.seen)
    && AnswersMatch(s.db.answers, s.consumed)
  }

  ghost predicate Inv(c: Config, s: System) {
    && DbInv(c, s.db)
    && HistoryInv(s)
    && (forall pid :: pid in s.procs ==> ProcAgrees(s.procs[pid], s.db) && ProcResult(s.procs[pid], s.consumed))
    && (forall sid :: sid in s.starts ==> StartAgrees(c.order, s.starts[sid], s.db.areas))
  }

  // ----- one statement at a time keeps the rows consistent -----

  /** Rows never disappear and a row once entered or closed never opens again. */
  ghost predicate Grows(a: AreaTable, b: AreaTable) {
    forall s :: s in a ==> s in b && (Open(b[s].status) ==> Open(a[s].status))
  }

  lemma MarkKeepsAreas(order: seq<string>, areas: AreaTable, slug: string)
    requires AreasInv(order, areas)
    ensures var after := WithOpenMoved(areas, slug, NotAssessed);
            AreasInv(order, after) && OnlyMarked(areas, after) && Grows(areas, after)
            && SumCounts(order, after) == SumCounts(order, areas)
  {
    SumCountsSame(order, areas, WithOpenMoved(areas, slug, NotAssessed));
  }

  lemma MarkKeeps(c: Config, db: Db, slug: string)
    requires DbInv(c, db)
    ensures var db' := db.(areas := WithOpenMoved(db.areas, slug, NotAssessed));
            DbInv(c, db') && OnlyMarked(db.areas, db'.areas) && Grows(db.areas, db'.areas)
  {
    MarkKeepsAreas(c.order, db.areas, slug);
  }

  lemma CloseKeeps(c: Config, db: Db)
    requires DbInv(c, db)
    ensures DbInv(c, db.(session := FlowDone(db.session)))
  {
  }

  lemma CreateKeepsOrder(order: seq<string>, areas: AreaTable, slug: string)
    requires Ordered(order, areas)
    ensures Ordered(order, WithArea(areas, slug))
  {
  }

  lemma CreateKeepsAreas(order: seq<string>, areas: AreaTable, slug: string)
    requires AreasInv(order, areas) && slug in order
    ensures var after := WithArea(areas, slug);
            AreasInv(order, after) && Grows(areas, after) && slug in after
            && SumCounts(order, after) == SumCounts(order, areas)
  {
    CreateKeepsOrder(order, areas, slug);
    SumCountsSame(order, areas, WithArea(areas, slug));
  }

  lemma CreateKeeps(c: Config, db: Db, slug: string)
    requires DbInv(c, db) && slug in c.order
    ensures var db' := db.(areas := WithArea(db.areas, slug));
            && DbInv(c, db') && Grows(db.areas, db'.areas) && slug in db'.areas
            && (db.session.expectedTurn.Some? ==> db'.areas == db.areas)
  {
    CreateKeepsAreas(c.order, db.areas, slug);
  }

  lemma FirstKeepsAreas(order: seq<string>, areas: AreaTable)
    requires AreasInv(order, areas) && order != [] && Distinct(order) && forall s :: s in order ==> s in areas
    ensures var after := WithOpenMoved(areas, order[0], InProgress);
            && AreasInv(order, after) && Grows(areas, after) && StartedTable(order, after)
            && SumCounts(order, after) == SumCounts(order, areas)
  {
    SumCountsSame(order, areas, WithOpenMoved(areas, order[0], InProgress));
  }

  lemma SetFirstKeeps(c: Config, db: Db)
    requires DbInv(c, db) && c.order != [] && Distinct(c.order) && forall s :: s in c.order ==> s in db.areas
    ensures var db' := db.(areas := WithOpenMoved(db.areas, c.order[0], InProgress));
            && DbInv(c, db') && Grows(db.areas, db'.areas) && StartedTable(c.order, db'.areas)
            && (db.session.expectedTurn.Some? ==> db'.areas == db.areas)
  {
    FirstKeepsAreas(c.order, db.areas);
  }

  lemma PrepareKeeps(c: Config, db: Db, step: FlowStep, issued: IssuedQuestion)
    requires DbInv(c, db) && StartedTable(c.order, db.areas)
    requires step.Disclaimer? || step.Readiness?
    requires !Blank(issued.turnId) && issued.question.kind == KindAt(step)
    ensures DbInv(c, db.(session := WithQuestion(db.session, step, issued)))
  {
  }

  // ----- a disclaimer or readiness answer -----

  /** What a delivery whose turn is still expected knows when it is admitted. */
  ghost predicate Holds(c: Config, db: Db, p: Proc) {
    && p.pc.Ready?
    && db.session.expectedTurn == Some(p.turn)
    && p.pc.snap.flow == ReadFlow(db.session)
    && db.session.active.Some?
    && db.session.active.value.kind == KindAt(db.session.step)
    && StartedTable(c.order, db.areas)
    && IsCurrent(db.areas, p.pc.snap.current)
    && OnlyMarked(p.pc.snap.areas, db.areas)
    && TimeRemaining(db.session.budget, db.session.lapsed, ReadFlow(db.session), p.submittedAt, c.limit) > 0
  }

  /** Winning the compare-and-swap makes everything the delivery read hold of the locked rows. */
  lemma LockGives(c: Config, db: Db, p: Proc)
    requires DbInv(c, db) && ProcAgrees(p, db) && Admitted(c, p)
    requires Coalesce(db.session.expectedTurn) == p.turn
    ensures Holds(c, db, p)
  {
  }

  lemma AdvanceKeeps(c: Config, db: Db, p: Proc, newId: string, now: int)
    requires DbInv(c, db) && Holds(c, db, p) && p.pc.snap.current.Some? && !Blank(newId)
    requires db.session.step.Disclaimer? || db.session.step.Readiness?
    requires AdvanceOutcome(db, AdvanceOf(c, p, newId, now)).Committed?
    ensures DbInv(c, Advance(db, AdvanceOf(c, p, newId, now)))
  {
  }

  // ----- the area table across a criterion answer -----

  /** What a criterion answer may do to one row. */
  ghost predicate RowMoved(s: string, row: AreaRow, row': AreaRow, current: string, action: TurnAction, next: string) {
    if s == current then
      && row'.count == row.count + 1
      && (action.Next? ==> row'.status.Complete? || row'.status.Insufficient?)
      && (action.Stay? ==> row'.status.InProgress?)
    else
      && row'.count == row.count
      && (!Open(row.status) ==> row' == row)
      && (Open(row.status) ==> Open(row'.status) || (row'.status.InProgress? && action.Next? && s == next))
      && (Open(row.status) && action.Next? && s == next ==> row'.status.InProgress?)
  }

  ghost predicate Moved(a: AreaTable, b: AreaTable, current: string, action: TurnAction, next: string) {
    && b.Keys == a.Keys && current in a && a[current].status.InProgress?
    && a[current].count < MAX_QUESTIONS_PER_AREA
    && (action.Stay? ==> a[current].count + 1 < MAX_QUESTIONS_PER_AREA)
    && forall s :: s in a ==> RowMoved(s, a[s], b[s], current, action, next)
  }

  /** The area moved to, if any, is the first one left: everything before it is closed or is the current area. */
  ghost predicate NextInOrder(order: seq<string>, a: AreaTable, current: string, next: string, q: nat) {
    && q <= |order|
    && (if next == "" then q == |order|
        else q < |order| && order[q] == next && next in a && (Open(a[next].status) || a[next].status.NotAssessed?))
    && forall i :: 0 <= i < q ==> order[i] == current || (order[i] in a && Closed(a[order[i]].status))
  }

  lemma MovedKeepsOrder(order: seq<string>, a: AreaTable, b: AreaTable, current: string, action: TurnAction,
                        next: string, q: nat)
    requires GoodOrder(order) && AreasInv(order, a) && Moved(a, b, current, action, next)
    requires action.Next? ==> NextInOrder(order, a, current, next, q)
    ensures Ordered(order, b)
  {
    forall i, j | 0 <= i < j < |order| && order[j] in b && Visited(b[order[j]].status)
      ensures order[i] in b && Closed(b[order[i]].status)
    {
      var s, t := order[i], order[j];
      assert s != t && t in order;
      assert RowMoved(t, a[t], b[t], current, action, next);
      if Visited(a[t].status) {
        assert s in a && Closed(a[s].status);
      } else {
        assert t == next && order[q] == order[j];
        assert j == q;
      }
      assert RowMoved(s, a[s], b[s], current, action, next);
    }
  }

  lemma MovedKeepsCounts(a: AreaTable, b: AreaTable, current: string, action: TurnAction, next: string)
    requires Moved(a, b, current, action, next) && forall s :: s in a ==> CountFits(a[s])
    ensures forall s :: s in b ==> CountFits(b[s])
  {
  }

  lemma MovedCountsOneMore(order: seq<string>, a: AreaTable, b: AreaTable, current: string, action: TurnAction,
                           next: string)
    requires Distinct(order) && current in order && Moved(a, b, current, action, next)
    ensures SumCounts(order, b) == SumCounts(order, a) + 1
    ensures Grows(a, b)
  {
    forall s | s in a
      ensures Count(b, s) == Count(a, s) + (if s == current then 1 else 0)
      ensures Open(b[s].status) ==> Open(a[s].status)
    {
      assert RowMoved(s, a[s], b[s], current, action, next);
    }
    SumCountsOneMore(order, a, b, current);
  }

  /** Every criterion answer uses up potential. */
  lemma MovedSpendsPotential(order: seq<string>, a: AreaTable, b: AreaTable, current: string, action: TurnAction,
                             next: string)
    requires current in order && Moved(a, b, current, action, next)
    requires forall s :: s in a ==> CountFits(a[s])
    ensures Potential(order, b) < Potential(order, a)
  {
    forall s | s in order
      ensures Potential1(b, s) <= Potential1(a, s)
    {
      if s in a { assert RowMoved(s, a[s], b[s], current, action, next) && CountFits(a[s]); }
    }
    assert RowMoved(current, a[current], b[current], current, action, next);
    assert Potential1(b, current) < Potential1(a, current);
    PotentialFalls(order, a, b);
  }

  // ----- a criterion answer -----

  /** A planned next area is a configured one, never a blank text. */
  lemma NextIsConfigured(order: seq<string>, read: AreaTable, current: string, d: Decision)
    requires GoodOrder(order) && current in order
    ensures NextAreaIn(read, current, d, order) == "" ||
            (NextAreaIn(read, current, d, order) in order && !Blank(NextAreaIn(read, current, d, order)))
  {
    if d.action.Next? {
      var q := SelectionIsFirstOpen(order, Marked(StatusOf(read), current, d));
    }
  }

  /** The area chosen from the snapshot is still the first one left in the locked table. */
  lemma NextIsFirst(order: seq<string>, read: AreaTable, areas: AreaTable, current: string, d: Decision)
    returns (q: nat)
    requires GoodOrder(order) && AreasInv(order, areas) && StartedTable(order, areas) && OnlyMarked(read, areas)
    requires current in areas && areas[current].status.InProgress?
    requires d.action.Next? && ValidDecision(d)
    ensures NextInOrder(order, areas, current, NextAreaIn(read, current, d, order), q)
    ensures NextAreaIn(read, current, d, order) != current
  {
    var status := Marked(StatusOf(read), current, d);
    var next := NextAreaIn(read, current, d, order);
    q := SelectionIsFirstOpen(order, status);
    if next == "" { q := |order|; }
    forall i | 0 <= i < q
      ensures order[i] == current || (order[i] in areas && Closed(areas[order[i]].status))
    {
      StillClosed(order, read, areas, current, d, order[i]);
    }
    if next != "" {
      assert next in order && next in areas;
      assert RowKept(read[next], areas[next]);
    }
  }

  lemma StillClosed(order: seq<string>, read: AreaTable, areas: AreaTable, current: string, d: Decision, s: string)
    requires AreasInv(order, areas) && OnlyMarked(read, areas) && s in order && s in areas
    requires current in areas && areas[current].status.InProgress?
    requires s in Marked(StatusOf(read), current, d) ==> !Open(Marked(StatusOf(read), current, d)[s])
    ensures s == current || Closed(areas[s].status)
  {
  }

  /** The facts a successful compare-and-swap gives about a planned criterion turn. */
  ghost predicate CommitReady(c: Config, db: Db, p: Proc, plan: CommitParams) {
    && Holds(c, db, p) && p.pc.snap.current.Some? && db.session.step.Criterion?
    && plan.current == p.pc.snap.current.value.area
    && plan.submittedAt == p.submittedAt && plan.limit == c.limit
    && plan.nextArea == NextAreaIn(p.pc.snap.areas, plan.current, plan.decision, c.order)
    && PlanShaped(c, db.session.number, db.areas[plan.current].count, plan)
  }

  /** The shape of every planned criterion transaction. */
  ghost predicate PlanShaped(c: Config, number: int, count: int, plan: CommitParams) {
    && ValidDecision(plan.decision) && FlagsConfigured(c.order, plan.flags)
    && (plan.decision.action.Stay? ==> count + 1 < MAX_QUESTIONS_PER_AREA)
    && (plan.nextArea == "" || (plan.nextArea in c.order && !Blank(plan.nextArea)))
    && (plan.nextIssued.Some? <==> plan.nextArea != "")
    && (plan.nextIssued.Some? ==>
          && !Blank(plan.nextIssued.value.turnId)
          && plan.nextIssued.value.number == number + 1
          && plan.nextIssued.value.question.area == plan.nextArea
          && plan.nextIssued.value.question.kind.CriterionKind?)
  }

  lemma PlanIsShaped(c: Config, p: Proc, reply: AiReply, language: string, newId: string, now: int)
    requires ValidConfig(c) && !Blank(newId)
    requires p.pc.Ready? && p.pc.snap.current.Some? && p.pc.snap.current.value.area in c.order
    ensures var plan := PlanOf(c, p, reply, language, newId, now);
            PlanShaped(c, p.pc.snap.flow.number, p.pc.snap.current.value.row.count, plan)
            && (plan.nextIssued.Some? ==> plan.nextIssued.value.turnId == newId)
  {
    ValidOrder(c);
    var plan := PlanOf(c, p, reply, language, newId, now);
    var e := Judge(reply, CriterionId(c.areas, plan.current));
    ExtractedFlagsAreConfigured(c.areas, e.other);
    NextIsConfigured(c.order, p.pc.snap.areas, plan.current, plan.decision);
    assert Blank("");
  }

  lemma CommitIsReady(c: Config, db: Db, p: Proc, reply: AiReply, language: string, newId: string, now: int)
    requires ValidConfig(c) && DbInv(c, db) && !Blank(newId)
    requires ProcAgrees(p, db) && Admitted(c, p) && p.pc.snap.current.Some?
    requires db.session.step.Criterion? && Coalesce(db.session.expectedTurn) == p.turn
    ensures CommitReady(c, db, p, PlanOf(c, p, reply, language, newId, now))
  {
    LockGives(c, db, p);
    PlanIsShaped(c, p, reply, language, newId, now);
  }

  lemma CommitRowMoves(s: string, row: AreaRow, plan: CommitParams)
    requires ValidDecision(plan.decision) && (plan.nextArea == "" || !Blank(plan.nextArea))
    requires s == plan.current ==> row.status.InProgress?
    requires plan.decision.action.Next? ==> plan.nextArea != plan.current
    requires s != ""
    ensures RowMoved(s, row, CommitRow(s, row, plan), plan.current, plan.decision.action, plan.nextArea)
  {
  }

  /** The transaction moves the area table as a criterion answer may. */
  lemma CommitMoves(c: Config, db: Db, p: Proc, plan: CommitParams)
    requires GoodOrder(c.order) && AreasInv(c.order, db.areas) && CommitReady(c, db, p, plan)
    requires plan.decision.action.Next? ==> plan.nextArea != plan.current
    ensures Moved(db.areas, CommitAreas(db.areas, plan), plan.current, plan.decision.action, plan.nextArea)
  {
    assert CountFits(db.areas[plan.current]);
    forall s | s in db.areas
      ensures RowMoved(s, db.areas[s], CommitAreas(db.areas, plan)[s], plan.current, plan.decision.action,
                       plan.nextArea)
    {
      assert s in c.order;
      CommitRowMoves(s, db.areas[s], plan);
    }
  }

  /** The position the transaction moves on to, for plans that move on. */
  lemma CommitPosition(c: Config, db: Db, p: Proc, plan: CommitParams) returns (q: nat)
    requires GoodOrder(c.order) && AreasInv(c.order, db.areas) && CommitReady(c, db, p, plan)
    ensures plan.decision.action.Next? ==>
              NextInOrder(c.order, db.areas, plan.current, plan.nextArea, q) && plan.nextArea != plan.current
    ensures plan.decision.action.Stay? ==> plan.nextArea == plan.current
  {
    q := 0;
    if plan.decision.action.Next? {
      q := NextIsFirst(c.order, p.pc.snap.areas, db.areas, plan.current, plan.decision);
    }
  }

  lemma CommitKeepsAreas(c: Config, db: Db, p: Proc, plan: CommitParams)
    requires GoodOrder(c.order) && AreasInv(c.order, db.areas) && CommitReady(c, db, p, plan)
    ensures var b := CommitAreas(db.areas, plan);
            && AreasInv(c.order, b) && StartedTable(c.order, b) && Grows(db.areas, b)
            && SumCounts(c.order, b) == SumCounts(c.order, db.areas) + 1
            && Potential(c.order, b) < Potential(c.order, db.areas)
            && Moved(db.areas, b, plan.current, plan.decision.action, plan.nextArea)
  {
    var b := CommitAreas(db.areas, plan);
    var q := CommitPosition(c, db, p, plan);
    CommitMoves(c, db, p, plan);
    assert plan.current in c.order && c.order[0] in c.order;
    MovedKeepsOrder(c.order, db.areas, b, plan.current, plan.decision.action, plan.nextArea, q);
    MovedKeepsCounts(db.areas, b, plan.current, plan.decision.action, plan.nextArea);
    MovedCountsOneMore(c.order, db.areas, b, plan.current, plan.decision.action, plan.nextArea);
    MovedSpendsPotential(c.order, db.areas, b, plan.current, plan.decision.action, plan.nextArea);
  }

  /** The question installed by a commit is about an area that is in progress, or was closed by a timeout meanwhile. */
  lemma CommitNamesArea(c: Config, db: Db, p: Proc, plan: CommitParams)
    requires GoodOrder(c.order) && AreasInv(c.order, db.areas) && CommitReady(c, db, p, plan) && plan.nextArea != ""
    ensures plan.nextArea in db.areas
    ensures var row := CommitAreas(db.areas, plan)[plan.nextArea];
            row.status.InProgress? || row.status.NotAssessed?
  {
    var q := CommitPosition(c, db, p, plan);
    CommitMoves(c, db, p, plan);
    assert RowMoved(plan.nextArea, db.areas[plan.nextArea], CommitAreas(db.areas, plan)[plan.nextArea],
                    plan.current, plan.decision.action, plan.nextArea);
  }

  lemma CommitKeepsSession(c: Config, db: Db, p: Proc, plan: CommitParams)
    requires SessionInv(c, db) && CommitReady(c, db, p, plan) && CommitOutcome(db, plan).Committed?
    ensures SessionInv(c, Commit(db, plan))
    ensures Commit(db, plan).session.expectedTurn ==
              if plan.nextArea == "" then None else Some(plan.nextIssued.value.turnId)
  {
  }

  lemma CommitKeeps(c: Config, db: Db, p: Proc, plan: CommitParams)
    requires GoodOrder(c.order) && DbInv(c, db) && CommitReady(c, db, p, plan) && CommitOutcome(db, plan).Committed?
    ensures DbInv(c, Commit(db, plan)) && Grows(db.areas, Commit(db, plan).areas)
    ensures Commit(db, plan).session.expectedTurn ==
              if plan.nextArea == "" then None else Some(plan.nextIssued.value.turnId)
  {
    CommitKeepsSession(c, db, p, plan);
    CommitKeepsAreas(c, db, p, plan);
    if plan.nextArea != "" { CommitNamesArea(c, db, p, plan); }
  }

  // ----- every step -----

  /** A delivery that did not move still agrees after any compatible step. */
  lemma ProcFrame(p: Proc, a: Db, b: Db, seen: set<string>)
    requires ProcAgrees(p, a) && Compatible(a, b, seen) && p.turn in seen
    ensures ProcAgrees(p, b)
  {
  }

  lemma StartFrame(order: seq<string>, st: Start, a: AreaTable, b: AreaTable)
    requires StartAgrees(order, st, a) && Grows(a, b)
    ensures StartAgrees(order, st, b)
  {
  }

  /** What one step may do to the rows. */
  ghost predicate DbStep(c: Config, s: System, db: Db) {
    DbInv(c, db) && Compatible(s.db, db, s.seen) && Grows(s.db.areas, db.areas)
  }

  lemma OthersKeep(c: Config, s: System, db: Db, consumed: map<string, Consumption>)
    requires Inv(c, s) && DbStep(c, s, db)
    requires forall t :: t in s.consumed ==> t in consumed && consumed[t] == s.consumed[t]
    ensures forall pid :: pid in s.procs ==> ProcAgrees(s.procs[pid], db) && ProcResult(s.procs[pid], consumed)
    ensures forall sid :: sid in s.starts ==> StartAgrees(c.order, s.starts[sid], db.areas)
  {
    forall pid | pid in s.procs
      ensures ProcAgrees(s.procs[pid], db) && ProcResult(s.procs[pid], consumed)
    {
      ProcFrame(s.procs[pid], s.db, db, s.seen);
    }
    forall sid | sid in s.starts
      ensures StartAgrees(c.order, s.starts[sid], db.areas)
    {
      StartFrame(c.order, s.starts[sid], s.db.areas, db.areas);
    }
  }

  /** The rows may change, but no answer is stored and no turn installed. */
  ghost predicate NoNewTurn(a: Db, b: Db) {
    && b.answers == a.answers
    && (b.session.expectedTurn.Some? ==> b.session.expectedTurn == a.session.expectedTurn)
  }

  /** One delivery moves and nothing is consumed. */
  lemma MoveProc(c: Config, s: System, pid: nat, pc: Pc, db: Db)
    requires Inv(c, s) && pid in s.procs && DbStep(c, s, db) && NoNewTurn(s.db, db)
    requires ProcAgrees(s.procs[pid].(pc := pc), db) && ProcResult(s.procs[pid].(pc := pc), s.consumed)
    ensures Inv(c, WithDb(At(s, pid, pc), db))
  {
    OthersKeep(c, s, db, s.consumed);
  }

  /** One delivery moves without touching a row. */
  lemma MoveLocally(c: Config, s: System, pid: nat, pc: Pc)
    requires Inv(c, s) && pid in s.procs
    requires ProcAgrees(s.procs[pid].(pc := pc), s.db) && ProcResult(s.procs[pid].(pc := pc), s.consumed)
    ensures Inv(c, At(s, pid, pc))
  {
  }

  /** One start moves without touching a row. */
  lemma MoveStartLocally(c: Config, s: System, sid: nat, st: Start)
    requires Inv(c, s) && StartAgrees(c.order, st, s.db.areas)
    ensures Inv(c, StartAt(s, sid, st))
  {
  }

  /** One start moves and nothing is consumed. */
  lemma MoveStart(c: Config, s: System, sid: nat, st: Start, db: Db)
    requires Inv(c, s) && DbStep(c, s, db) && NoNewTurn(s.db, db) && StartAgrees(c.order, st, db.areas)
    ensures Inv(c, WithDb(StartAt(s, sid, st), db))
  {
    OthersKeep(c, s, db, s.consumed);
  }

  lemma SameRows(c: Config, s: System)
    requires Inv(c, s)
    ensures DbStep(c, s, s.db) && NoNewTurn(s.db, s.db)
  {
  }

  /** A turn id is used up: its history entry is new, and a criterion turn stores exactly one answer under it. */
  lemma AnswersStillMatch(answers: seq<AnswerRow>, consumed: map<string, Consumption>, added: seq<AnswerRow>,
                          turn: string, how: Consumption)
    requires AnswersMatch(answers, consumed) && turn !in consumed
    requires if how.step.Criterion? then |added| == 1 && added[0].turn == turn else added == []
    ensures AnswersMatch(answers + added, consumed[turn := how])
  {
    var after := CriterionTurns(consumed[turn := how]);
    if how.step.Criterion? {
      assert after == CriterionTurns(consumed) + {turn};
      var n := |answers|;
      forall i | 0 <= i < n
        ensures answers[i].turn != turn && (answers + added)[i] == answers[i]
      {
        assert answers[i].turn in CriterionTurns(consumed);
      }
      assert (answers + added)[n] == added[0];
    } else {
      assert after == CriterionTurns(consumed);
      assert answers + added == answers;
    }
  }

  /** A turn is consumed: the delivery, the rows and the history move together. */
  lemma ConsumeKeeps(c: Config, s: System, pid: nat, pc: Pc, db: Db, added: seq<AnswerRow>, how: Consumption,
                     newId: string)
    requires Inv(c, s) && pid in s.procs && newId !in s.seen
    requires s.db.session.expectedTurn == Some(s.procs[pid].turn)
    requires DbInv(c, db) && Grows(s.db.areas, db.areas)
    requires db.session.expectedTurn.Some? ==> db.session.expectedTurn.value == newId
    requires db.answers == s.db.answers + added
    requires if how.step.Criterion? then |added| == 1 && added[0].turn == s.procs[pid].turn else added == []
    requires pc == Refreshing(how.next) || (how.next.Some? && pc == Finished(NextQuestion(how.next.value)))
    ensures Inv(c, Consume(WithDb(At(s, pid, pc), db), s.procs[pid].turn, how, newId))
  {
    var p := s.procs[pid];
    var procs := s.procs[pid := p.(pc := pc)];
    var consumed := s.consumed[p.turn := how];
    assert p.turn !in s.consumed;
    AnswersStillMatch(s.db.answers, s.consumed, added, p.turn, how);
    OthersKeep(c, s, db, consumed);
  }

  lemma CommitStep(c: Config, s: System, e: Step)
    requires ValidConfig(c) && Inv(c, s) && e.CommitTurn? && Enabled(c, s, e)
    ensures Inv(c, ApplyCommit(c, s, e))
    ensures Grows(s.db.areas, ApplyCommit(c, s, e).db.areas)
  {
    var p := s.procs[e.pid];
    var plan := PlanOf(c, p, e.reply, e.language, e.newId, e.now);
    if CommitOutcome(s.db, plan).Committed? {
      CommittedTurnKeeps(c, s, e, plan);
    } else {
      MoveLocally(c, s, e.pid, if CommitOutcome(s.db, plan).TurnConflict? then Finished(Conflict)
                  else Finished(Failed));
    }
  }

  lemma CommittedTurnKeeps(c: Config, s: System, e: Step, plan: CommitParams)
    requires ValidConfig(c) && Inv(c, s) && e.CommitTurn? && Enabled(c, s, e)
    requires plan == PlanOf(c, s.procs[e.pid], e.reply, e.language, e.newId, e.now)
    requires CommitOutcome(s.db, plan).Committed?
    ensures Inv(c, ApplyCommit(c, s, e))
    ensures Grows(s.db.areas, ApplyCommit(c, s, e).db.areas)
  {
    var p := s.procs[e.pid];
    var next := if Blank(plan.nextArea) then None else Some(e.newId);
    CommitPrepared(c, s.db, p, e, plan);
    ConsumeKeeps(c, s, e.pid, Refreshing(next), Commit(s.db, plan), [AnswerOf(plan)], Consumption(Criterion, next),
                 e.newId);
  }

  lemma CommitPrepared(c: Config, db: Db, p: Proc, e: Step, plan: CommitParams)
    requires ValidConfig(c) && DbInv(c, db) && ProcAgrees(p, db)
    requires Admitted(c, p) && p.pc.snap.current.Some? && p.pc.snap.flow.step.Criterion?
    requires e.CommitTurn? && !Blank(e.newId) && plan == PlanOf(c, p, e.reply, e.language, e.newId, e.now)
    requires CommitOutcome(db, plan).Committed?
    ensures DbInv(c, Commit(db, plan)) && Grows(db.areas, Commit(db, plan).areas)
    ensures db.session.expectedTurn == Some(p.turn)
    ensures Commit(db, plan).session.expectedTurn.Some? ==> Commit(db, plan).session.expectedTurn.value == e.newId
    ensures Commit(db, plan).answers == db.answers + [AnswerOf(plan)] && AnswerOf(plan).turn == p.turn
  {
    ValidOrder(c);
    CommitIsReady(c, db, p, e.reply, e.language, e.newId, e.now);
    CommitKeeps(c, db, p, plan);
    PlanIsShaped(c, p, e.reply, e.language, e.newId, e.now);
  }

  lemma AdvanceStep(c: Config, s: System, e: Step)
    requires GoodOrder(c.order) && Inv(c, s) && e.AdvanceTurn? && Enabled(c, s, e)
    ensures Inv(c, ApplyAdvance(c, s, e))
    ensures Grows(s.db.areas, ApplyAdvance(c, s, e).db.areas)
  {
    var p := s.procs[e.pid];
    var plan := AdvanceOf(c, p, e.newId, e.now);
    if AdvanceOutcome(s.db, plan).Committed? {
      AdvancedTurnKeeps(c, s, e, plan);
    } else {
      MoveLocally(c, s, e.pid, if AdvanceOutcome(s.db, plan).TurnConflict? then Finished(Conflict)
                  else Finished(Failed));
    }
  }

  lemma AdvancedTurnKeeps(c: Config, s: System, e: Step, plan: AdvanceParams)
    requires GoodOrder(c.order) && Inv(c, s) && e.AdvanceTurn? && Enabled(c, s, e)
    requires plan == AdvanceOf(c, s.procs[e.pid], e.newId, e.now)
    requires AdvanceOutcome(s.db, plan).Committed?
    ensures Inv(c, ApplyAdvance(c, s, e))
    ensures Grows(s.db.areas, ApplyAdvance(c, s, e).db.areas)
  {
    LockGives(c, s.db, s.procs[e.pid]);
    AdvanceKeeps(c, s.db, s.procs[e.pid], e.newId, e.now);
    ConsumeKeeps(c, s, e.pid, Finished(NextQuestion(e.newId)), Advance(s.db, plan), [],
                 Consumption(plan.currentStep, Some(e.newId)), e.newId);
  }

  lemma BeginStep(c: Config, s: System, e: Step)
    requires Inv(c, s) && e.BeginTurn? && Enabled(c, s, e)
    ensures Inv(c, ApplyTurn(c, s, e)) && ApplyTurn(c, s, e).db == s.db
  {
  }

  /** The four unlocked reads of a turn: the session row, the flow pointer, the areas, the current area. */
  lemma ReadRowStep(c: Config, s: System, e: Step)
    requires Inv(c, s) && Enabled(c, s, e) && (e.ReadSession? || e.ReadFlowPointer?)
    ensures Inv(c, ApplyTurn(c, s, e)) && ApplyTurn(c, s, e).db == s.db
  {
    assert ProcAgrees(s.procs[e.pid], s.db);
    MoveLocally(c, s, e.pid, if e.ReadSession? then GotSession(s.db.session.lapsed)
                             else GotFlow(s.procs[e.pid].pc.lapsed, ReadFlow(s.db.session)));
  }

  lemma ReadAreasStep(c: Config, s: System, e: Step)
    requires Inv(c, s) && Enabled(c, s, e) && e.ReadAreas?
    ensures Inv(c, ApplyTurn(c, s, e)) && ApplyTurn(c, s, e).db == s.db
  {
    var pc := s.procs[e.pid].pc;
    assert ProcAgrees(s.procs[e.pid], s.db);
    MoveLocally(c, s, e.pid, GotAreas(pc.lapsed, pc.flow, s.db.areas));
  }

  lemma ReadCurrentAreaStep(c: Config, s: System, e: Step)
    requires Inv(c, s) && Enabled(c, s, e) && e.ReadCurrentArea?
    ensures Inv(c, ApplyTurn(c, s, e)) && ApplyTurn(c, s, e).db == s.db
  {
    var pc := s.procs[e.pid].pc;
    assert ProcAgrees(s.procs[e.pid], s.db);
    MoveLocally(c, s, e.pid, Ready(Snapshot(pc.lapsed, pc.flow, pc.areas, e.current)));
  }

  /** Steps that only move a delivery on. */
  lemma AlreadyDoneStep(c: Config, s: System, e: Step)
    requires Inv(c, s) && Enabled(c, s, e) && e.AlreadyDone?
    ensures Inv(c, ApplyTurn(c, s, e)) && ApplyTurn(c, s, e).db == s.db
  {
  }

  lemma RejectTurnStep(c: Config, s: System, e: Step)
    requires Inv(c, s) && Enabled(c, s, e) && e.RejectTurn?
    ensures Inv(c, ApplyTurn(c, s, e)) && ApplyTurn(c, s, e).db == s.db
  {
  }

  lemma FailTurnStep(c: Config, s: System, e: Step)
    requires Inv(c, s) && Enabled(c, s, e) && e.FailTurn?
    ensures Inv(c, ApplyTurn(c, s, e)) && ApplyTurn(c, s, e).db == s.db
  {
  }

  lemma TimeOutStep(c: Config, s: System, e: Step)
    requires Inv(c, s) && Enabled(c, s, e) && e.TimeOut?
    ensures Inv(c, ApplyTurn(c, s, e)) && ApplyTurn(c, s, e).db == s.db
  {
    MoveLocally(c, s, e.pid, Marking(e.todo));
  }

  lemma NoCurrentAreaStep(c: Config, s: System, e: Step)
    requires Inv(c, s) && Enabled(c, s, e) && e.NoCurrentArea?
    ensures Inv(c, ApplyTurn(c, s, e)) && ApplyTurn(c, s, e).db == s.db
  {
    MoveLocally(c, s, e.pid, (if s.procs[e.pid].pc.snap.flow.step.Criterion? then Closing else Completing));
  }

  lemma RefreshStep(c: Config, s: System, e: Step)
    requires Inv(c, s) && Enabled(c, s, e) && e.Refresh?
    ensures Inv(c, ApplyTurn(c, s, e)) && ApplyTurn(c, s, e).db == s.db
  {
    var next := s.procs[e.pid].pc.next;
    assert ProcResult(s.procs[e.pid], s.consumed);
    MoveLocally(c, s, e.pid, if next.Some? then Finished(NextQuestion(next.value)) else Completing);
  }

  /** The unguarded statements that end an interview. */
  lemma MarkStep(c: Config, s: System, e: Step)
    requires Inv(c, s) && Enabled(c, s, e) && e.MarkNotAssessed?
    ensures Inv(c, ApplyTurn(c, s, e)) && Grows(s.db.areas, ApplyTurn(c, s, e).db.areas)
  {
    var todo := s.procs[e.pid].pc.todo;
    SameRows(c, s);
    if todo == [] {
      MoveLocally(c, s, e.pid, Closing);
    } else {
      MarkKeeps(c, s.db, todo[0]);
      var areas := if e.ok then WithOpenMoved(s.db.areas, todo[0], NotAssessed) else s.db.areas;
      MoveProc(c, s, e.pid, Marking(todo[1..]), s.db.(areas := areas));
    }
  }

  lemma CloseStep(c: Config, s: System, e: Step)
    requires Inv(c, s) && Enabled(c, s, e) && e.CloseFlow?
    ensures Inv(c, ApplyTurn(c, s, e)) && Grows(s.db.areas, ApplyTurn(c, s, e).db.areas)
  {
    SameRows(c, s);
    CloseKeeps(c, s.db);
    MoveProc(c, s, e.pid, Completing, if e.ok then s.db.(session := FlowDone(s.db.session)) else s.db);
  }

  lemma CompleteStep(c: Config, s: System, e: Step)
    requires Inv(c, s) && Enabled(c, s, e) && e.CompleteSession?
    ensures Inv(c, ApplyTurn(c, s, e)) && Grows(s.db.areas, ApplyTurn(c, s, e).db.areas)
  {
    SameRows(c, s);
    if e.ok {
      var db := if s.db.session.status.Interviewing? then s.db.(session := s.db.session.(status := Completed))
        else s.db;
      MoveProc(c, s, e.pid, Finished(DoneResult), db);
    } else {
      MoveLocally(c, s, e.pid, Finished(Failed));
    }
  }

  lemma StartReadStep(c: Config, s: System, e: Step)
    requires Inv(c, s) && Enabled(c, s, e)
    requires e.CountAnswers? || e.StartReadFlow? || e.LookForCurrent?
    ensures Inv(c, ApplyStart(c, s, e)) && ApplyStart(c, s, e).db == s.db
  {
    var st := ApplyStart(c, s, e).starts[e.sid];
    assert StartAgrees(c.order, s.starts[e.sid], s.db.areas);
    MoveStartLocally(c, s, e.sid, st);
    assert ApplyStart(c, s, e) == StartAt(s, e.sid, st);
  }

  lemma BeginStartStep(c: Config, s: System, e: Step)
    requires Inv(c, s) && Enabled(c, s, e) && e.BeginStart?
    ensures Inv(c, ApplyStart(c, s, e)) && ApplyStart(c, s, e).db.areas == s.db.areas
  {
    SameRows(c, s);
    MoveStart(c, s, e.sid, Counting, s.db.(session := s.db.session.(status := Interviewing)));
  }

  lemma AllCreatedStep(c: Config, s: System, e: Step)
    requires Inv(c, s) && Enabled(c, s, e) && e.CreateArea? && s.starts[e.sid].i >= |c.order|
    ensures Inv(c, ApplyStart(c, s, e)) && ApplyStart(c, s, e).db == s.db
  {
    assert StartAgrees(c.order, s.starts[e.sid], s.db.areas);
    MoveStartLocally(c, s, e.sid, SettingFirst(s.starts[e.sid].resuming));
  }

  lemma CreateOneStep(c: Config, s: System, e: Step)
    requires Inv(c, s) && Enabled(c, s, e) && e.CreateArea? && s.starts[e.sid].i < |c.order|
    ensures Inv(c, ApplyStart(c, s, e)) && Grows(s.db.areas, ApplyStart(c, s, e).db.areas)
  {
    var st := s.starts[e.sid];
    assert StartAgrees(c.order, st, s.db.areas);
    CreateKeeps(c, s.db, c.order[st.i]);
    MoveStart(c, s, e.sid, Creating(st.resuming, st.i + 1), s.db.(areas := WithArea(s.db.areas, c.order[st.i])));
  }

  lemma CreateAreaStep(c: Config, s: System, e: Step)
    requires Inv(c, s) && Enabled(c, s, e) && e.CreateArea?
    ensures Inv(c, ApplyStart(c, s, e)) && Grows(s.db.areas, ApplyStart(c, s, e).db.areas)
  {
    if s.starts[e.sid].i < |c.order| { CreateOneStep(c, s, e); } else { AllCreatedStep(c, s, e); }
  }

  lemma SetFirstStep(c: Config, s: System, e: Step)
    requires Inv(c, s) && Enabled(c, s, e) && e.SetFirst? && Distinct(c.order)
    ensures Inv(c, ApplyStart(c, s, e)) && Grows(s.db.areas, ApplyStart(c, s, e).db.areas)
  {
    assert StartAgrees(c.order, s.starts[e.sid], s.db.areas);
    SetFirstKeeps(c, s.db);
    MoveStart(c, s, e.sid, Looking(s.starts[e.sid].resuming),
              s.db.(areas := WithOpenMoved(s.db.areas, c.order[0], InProgress)));
  }

  /** A start installs a fresh turn over whatever was expected. */
  lemma InstallKeeps(c: Config, s: System, sid: nat, db: Db, newId: string)
    requires Inv(c, s) && newId !in s.seen
    requires DbInv(c, db) && db.areas == s.db.areas && db.answers == s.db.answers
    requires db.session.expectedTurn == Some(newId)
    ensures Inv(c, WithDb(StartAt(s, sid, StartEnded), db).(seen := s.seen + {newId}))
  {
  }

  lemma PrepareStep(c: Config, s: System, e: Step)
    requires Inv(c, s) && Enabled(c, s, e) && e.Prepare?
    ensures Inv(c, ApplyStart(c, s, e)) && ApplyStart(c, s, e).db.areas == s.db.areas
  {
    var st := s.starts[e.sid];
    assert StartAgrees(c.order, st, s.db.areas);
    var step := if st.resuming then Readiness else Disclaimer;
    var issued := Issue(c, e.newId, s.db.session.number, st.area, KindAt(step), e.now);
    PrepareKeeps(c, s.db, step, issued);
    InstallKeeps(c, s, e.sid, s.db.(session := WithQuestion(s.db.session, step, issued)), e.newId);
  }

  lemma DispatchReads(c: Config, s: System, e: Step)
    requires ValidConfig(c) && Inv(c, s) && Enabled(c, s, e)
    requires e.BeginTurn? || e.ReadSession? || e.ReadFlowPointer? || e.ReadAreas? || e.ReadCurrentArea?
    ensures Inv(c, ApplyTurn(c, s, e)) && Grows(s.db.areas, ApplyTurn(c, s, e).db.areas)
  {
    if e.BeginTurn? { BeginStep(c, s, e); }
    else if e.ReadAreas? { ReadAreasStep(c, s, e); }
    else if e.ReadCurrentArea? { ReadCurrentAreaStep(c, s, e); }
    else { ReadRowStep(c, s, e); }
  }

  lemma DispatchTransactions(c: Config, s: System, e: Step)
    requires ValidConfig(c) && Inv(c, s) && Enabled(c, s, e)
    requires e.CommitTurn? || e.AdvanceTurn?
    ensures Inv(c, ApplyTurn(c, s, e)) && Grows(s.db.areas, ApplyTurn(c, s, e).db.areas)
  {
    ValidOrder(c);
    if e.CommitTurn? { CommitStep(c, s, e); } else { AdvanceStep(c, s, e); }
  }

  lemma DispatchEndings(c: Config, s: System, e: Step)
    requires ValidConfig(c) && Inv(c, s) && Enabled(c, s, e)
    requires e.MarkNotAssessed? || e.CloseFlow? || e.CompleteSession?
    ensures Inv(c, ApplyTurn(c, s, e)) && Grows(s.db.areas, ApplyTurn(c, s, e).db.areas)
  {
    if e.MarkNotAssessed? { MarkStep(c, s, e); }
    else if e.CloseFlow? { CloseStep(c, s, e); }
    else { CompleteStep(c, s, e); }
  }

  lemma DispatchGuards(c: Config, s: System, e: Step)
    requires ValidConfig(c) && Inv(c, s) && Enabled(c, s, e)
    requires e.AlreadyDone? || e.RejectTurn? || e.TimeOut?
    ensures Inv(c, ApplyTurn(c, s, e)) && Grows(s.db.areas, ApplyTurn(c, s, e).db.areas)
  {
    if e.AlreadyDone? { AlreadyDoneStep(c, s, e); }
    else if e.RejectTurn? { RejectTurnStep(c, s, e); }
    else { TimeOutStep(c, s, e); }
  }

  lemma DispatchExits(c: Config, s: System, e: Step)
    requires ValidConfig(c) && Inv(c, s) && Enabled(c, s, e)
    requires e.NoCurrentArea? || e.FailTurn? || e.Refresh?
    ensures Inv(c, ApplyTurn(c, s, e)) && Grows(s.db.areas, ApplyTurn(c, s, e).db.areas)
  {
    if e.NoCurrentArea? { NoCurrentAreaStep(c, s, e); }
    else if e.FailTurn? { FailTurnStep(c, s, e); }
    else { RefreshStep(c, s, e); }
  }

  lemma DispatchStartRows(c: Config, s: System, e: Step)
    requires ValidConfig(c) && Inv(c, s) && Enabled(c, s, e)
    requires e.BeginStart? || e.CreateArea? || e.SetFirst?
    ensures Inv(c, ApplyStart(c, s, e)) && Grows(s.db.areas, ApplyStart(c, s, e).db.areas)
  {
    ValidOrder(c);
    if e.BeginStart? { BeginStartStep(c, s, e); }
    else if e.CreateArea? { CreateAreaStep(c, s, e); }
    else { SetFirstStep(c, s, e); }
  }

  lemma DispatchStartRest(c: Config, s: System, e: Step)
    requires ValidConfig(c) && Inv(c, s) && Enabled(c, s, e)
    requires e.Prepare? || e.CountAnswers? || e.StartReadFlow? || e.LookForCurrent?
    ensures Inv(c, ApplyStart(c, s, e)) && Grows(s.db.areas, ApplyStart(c, s, e).db.areas)
  {
    if e.Prepare? { PrepareStep(c, s, e); } else { StartReadStep(c, s, e); }
  }

  lemma TurnStepKeepsInv(c: Config, s: System, e: Step)
    requires ValidConfig(c) && Inv(c, s) && Enabled(c, s, e) && !IsStartStep(e)
    ensures Inv(c, ApplyTurn(c, s, e)) && Grows(s.db.areas, ApplyTurn(c, s, e).db.areas)
  {
    if e.CommitTurn? || e.AdvanceTurn? { DispatchTransactions(c, s, e); }
    else if e.MarkNotAssessed? || e.CloseFlow? || e.CompleteSession? { DispatchEndings(c, s, e); }
    else if e.AlreadyDone? || e.RejectTurn? || e.TimeOut? { DispatchGuards(c, s, e); }
    else if e.NoCurrentArea? || e.FailTurn? || e.Refresh? { DispatchExits(c, s, e); }
    else { DispatchReads(c, s, e); }
  }

  lemma StartStepKeepsInv(c: Config, s: System, e: Step)
    requires ValidConfig(c) && Inv(c, s) && Enabled(c, s, e) && IsStartStep(e)
    ensures Inv(c, ApplyStart(c, s, e)) && Grows(s.db.areas, ApplyStart(c, s, e).db.areas)
  {
    if e.BeginStart? || e.CreateArea? || e.SetFirst? { DispatchStartRows(c, s, e); }
    else { DispatchStartRest(c, s, e); }
  }

  lemma StepKeepsInv(c: Config, s: System, e: Step)
    requires ValidConfig(c) && Inv(c, s) && Enabled(c, s, e)
    ensures Inv(c, Apply(c, s, e)) && Grows(s.db.areas, Apply(c, s, e).db.areas)
  {
    if IsStartStep(e) { StartStepKeepsInv(c, s, e); } else { TurnStepKeepsInv(c, s, e); }
  }

  lemma InitInv(c: Config)
    ensures Inv(c, Init(c))
  {
    SumCountsSame(c.order, map[], map[]);
    SumOfNothing(c.order);
    assert CriterionTurns(map[]) == {};
  }

  lemma {:induction false} SumOfNothing(order: seq<string>)
    ensures SumCounts(order, map[]) == 0
  {
    if order != [] { SumOfNothing(order[1..]); }
  }

  /** The invariant holds after every run. */
  lemma {:induction false} RunKeepsInv(c: Config, es: seq<Step>)
    requires ValidConfig(c) && Runnable(c, Init(c), es)
    ensures Inv(c, After(c, Init(c), es))
    decreases |es|
  {
    if es == [] {
      InitInv(c);
    } else {
      RunKeepsInv(c, es[..|es| - 1]);
      StepKeepsInv(c, After(c, Init(c), es[..|es| - 1]), es[|es| - 1]);
    }
  }
}
