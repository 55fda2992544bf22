/** How one criterion answer is judged and what it does to the list of areas:
    the decision, the projected areas and the choice of the next area. */
module TurnPolicy {
  import opened Text
  import opened AreaConfigs

  datatype AreaStatus = Pending | PreAddressed | InProgress | Complete | Insufficient | NotAssessed

  /** Not yet visited, so still selectable as the next area. */
  predicate Open(s: AreaStatus) { s.Pending? || s.PreAddressed? }

  predicate Unresolved(s: AreaStatus) { Open(s) || s.InProgress? }

  /** One row of the area table without its key. */
  datatype AreaRow = AreaRow(status: AreaStatus, count: nat, evidence: string)

  type AreaTable = map<string, AreaRow>

  /** One element of a listing of the area table. */
  datatype QuestionArea = QuestionArea(area: string, row: AreaRow)

  datatype TurnAction = Stay | Next

  datatype Decision = Decision(action: TurnAction, mark: Option<AreaStatus>)

  datatype CurrentCriterion = CurrentCriterion(id: int, status: string, recommendation: string)

  datatype Evaluation = Evaluation(current: CurrentCriterion, other: seq<OtherCriterion>)

  /** What the model provider gives back after the retries: an answer or exhaustion. */
  datatype AiReply = Exhausted | Reply(evaluation: Option<Evaluation>)

  const MAX_QUESTIONS_PER_AREA: nat := 6

  function Decide(current: CurrentCriterion, questionsCount: int, maxQuestions: int): Decision {
    if Trim(current.status) == "sufficient" then Decision(Next, Some(Complete))
    else if Trim(current.recommendation) == "move_on" || (maxQuestions > 0 && questionsCount >= maxQuestions) then
      Decision(Next, Some(Insufficient))
    else Decision(Stay, None)
  }

  /** The shape every decision has: moving on and closing the current area go together. */
  predicate ValidDecision(d: Decision) {
    (d.action.Next? <==> d.mark.Some?) && (d.mark.Some? ==> d.mark.value.Complete? || d.mark.value.Insufficient?)
  }

  /** An area is never asked past its limit, is complete only on a sufficient answer, and closes whenever the turn moves
      on. */
  lemma DecisionsRespectTheLimit(current: CurrentCriterion, questionsCount: int)
    ensures var d := Decide(current, questionsCount, MAX_QUESTIONS_PER_AREA);
            && ValidDecision(d)
            && (d.action.Stay? ==> questionsCount < MAX_QUESTIONS_PER_AREA)
            && (d.mark == Some(Complete) <==> Trim(current.status) == "sufficient")
            && (Trim(current.status) != "sufficient" && questionsCount >= MAX_QUESTIONS_PER_AREA ==>
                d.mark == Some(Insufficient))
  {
  }

  function FallbackEvaluation(criterionId: int): Evaluation {
    Evaluation(CurrentCriterion(criterionId, "partially_sufficient", "follow_up"), [])
  }

  /** The evaluation a turn is decided on: the reply's, unless it is missing or judges another criterion. */
  function Judge(reply: AiReply, criterionId: int): (e: Evaluation)
    ensures e.current.id == criterionId
  {
    match reply
    case Reply(Some(e)) => if e.current.id == criterionId then e else FallbackEvaluation(criterionId)
    case _ => FallbackEvaluation(criterionId)
  }

  /** A substituted evaluation never ends an area early: it only moves on when the questions are used up. */
  lemma FallbackOnlyMovesOnAtLimit(criterionId: int, questionsCount: int)
    ensures Decide(FallbackEvaluation(criterionId).current, questionsCount, MAX_QUESTIONS_PER_AREA).action.Next?
            <==> questionsCount >= MAX_QUESTIONS_PER_AREA
  {
  }

  // ----- choosing the next area -----

  /** The first open area in configured order, or the empty text. */
  function SelectNextPendingArea(order: seq<string>, status: map<string, AreaStatus>): string {
    if order == [] then ""
    else if order[0] in status && Open(status[order[0]]) then order[0]
    else SelectNextPendingArea(order[1..], status)
  }

  /** What being selected means: it is open, and every earlier area is not. */
  ghost predicate FirstOpen(order: seq<string>, status: map<string, AreaStatus>, q: nat) {
    && q < |order| && order[q] in status && Open(status[order[q]])
    && forall i :: 0 <= i < q ==> order[i] in status ==> !Open(status[order[i]])
  }

  lemma {:induction false} SelectionIsFirstOpen(order: seq<string>, status: map<string, AreaStatus>) returns (q: nat)
    requires forall s :: s in order ==> s != ""
    ensures SelectNextPendingArea(order, status) != "" ==>
                  FirstOpen(order, status, q) && SelectNextPendingArea(order, status) == order[q]
    ensures SelectNextPendingArea(order, status) == "" <==> forall s :: s in order && s in status ==> !Open(status[s])
  {
    q := 0;
    if order != [] {
      assert order == [order[0]] + order[1..] && order[0] in order;
      if order[0] in status && Open(status[order[0]]) {
      } else {
        assert forall s :: s in order[1..] ==> s in order;
        var p := SelectionIsFirstOpen(order[1..], status);
        q := p + 1;
      }
    }
  }

  /** The same slugs are open in both. */
  ghost predicate SameOpen(a: map<string, AreaStatus>, b: map<string, AreaStatus>) {
    forall s :: (s in a && Open(a[s])) <==> (s in b && Open(b[s]))
  }

  lemma {:induction false} SelectionDependsOnOpen(order: seq<string>, a: map<string, AreaStatus>,
                                                  b: map<string, AreaStatus>)
    requires SameOpen(a, b)
    ensures SelectNextPendingArea(order, a) == SelectNextPendingArea(order, b)
  {
    if order != [] {
      assert (order[0] in a && Open(a[order[0]])) <==> (order[0] in b && Open(b[order[0]]));
      SelectionDependsOnOpen(order[1..], a, b);
    }
  }

  /** The status each area has in a listing; a later entry for the same area wins. */
  function StatusMap(areas: seq<QuestionArea>): map<string, AreaStatus> {
    if areas == [] then map[]
    else
      var last := areas[|areas| - 1];
      StatusMap(areas[..|areas| - 1])[last.area := last.row.status]
  }

  function ApplyFlag(status: map<string, AreaStatus>, flag: PreAddressedArea): map<string, AreaStatus> {
    if !Blank(flag.slug) && flag.slug in status && status[flag.slug].Pending?
    then status[flag.slug := PreAddressed] else status
  }

  function ApplyFlags(status: map<string, AreaStatus>, flags: seq<PreAddressedArea>): map<string, AreaStatus> {
    if flags == [] then status
    else ApplyFlag(ApplyFlags(status, flags[..|flags| - 1]), flags[|flags| - 1])
  }

  function Marked(status: map<string, AreaStatus>, current: string, d: Decision): map<string, AreaStatus> {
    if d.mark.Some? then status[current := d.mark.value] else status
  }

  function NextArea(areas: seq<QuestionArea>, current: string, d: Decision, flags: seq<PreAddressedArea>,
                    order: seq<string>): string {
    if d.action.Next? then SelectNextPendingArea(order, ApplyFlags(Marked(StatusMap(areas), current, d), flags))
    else current
  }

  method DetermineNextAreaAfterCriterionTurn(areas: seq<QuestionArea>, current: string, d: Decision,
                                             flags: seq<PreAddressedArea>, order: seq<string>)
    returns (next: string)
    ensures next == NextArea(areas, current, d, flags, order)
  {
    if d.action != Next {
      return current;
    }
    var statusByArea: map<string, AreaStatus> := map[];
    for i := 0 to |areas|
      invariant statusByArea == StatusMap(areas[..i])
    {
      assert areas[..i + 1][..i] == areas[..i];
      statusByArea := statusByArea[areas[i].area := areas[i].row.status];
    }
    assert areas[..|areas|] == areas;
    if d.mark.Some? {
      statusByArea := statusByArea[current := d.mark.value];
    }
    ghost var marked := statusByArea;
    for i := 0 to |flags|
      invariant statusByArea == ApplyFlags(marked, flags[..i])
    {
      assert flags[..i + 1][..i] == flags[..i];
      var flag := flags[i];
      if Blank(flag.slug) { continue; }
      if flag.slug in statusByArea && statusByArea[flag.slug] == Pending {
        statusByArea := statusByArea[flag.slug := PreAddressed];
      }
    }
    assert flags[..|flags|] == flags;
    next := SelectNextPendingArea(order, statusByArea);
  }

  lemma {:induction false} FlagsKeepOpen(status: map<string, AreaStatus>, flags: seq<PreAddressedArea>)
    ensures SameOpen(ApplyFlags(status, flags), status)
    decreases |flags|
  {
    if flags != [] { FlagsKeepOpen(status, flags[..|flags| - 1]); }
  }

  /** Flags raised on other areas never steer the interview: they do not change which area comes next. */
  lemma FlagsDoNotSteer(areas: seq<QuestionArea>, current: string, d: Decision,
                        flags: seq<PreAddressedArea>, flags': seq<PreAddressedArea>, order: seq<string>)
    ensures NextArea(areas, current, d, flags, order) == NextArea(areas, current, d, flags', order)
  {
    var m := Marked(StatusMap(areas), current, d);
    FlagsKeepOpen(m, flags);
    FlagsKeepOpen(m, flags');
    SelectionDependsOnOpen(order, ApplyFlags(m, flags), ApplyFlags(m, flags'));
  }

  // ----- projecting the areas -----

  /** The evidence the in-memory projection attaches: that of the last flag spelled exactly like the area. */
  function LastEvidence(flags: seq<PreAddressedArea>, area: string): Option<string> {
    if flags == [] then None
    else
      var f := flags[|flags| - 1];
      if !Blank(f.slug) && f.slug == area then Some(f.evidence) else LastEvidence(flags[..|flags| - 1], area)
  }

  function ProjectRow(area: string, row: AreaRow, current: string, d: Decision, flags: seq<PreAddressedArea>): AreaRow {
    if area == current then
      AreaRow(if d.mark.Some? then d.mark.value else row.status, row.count + 1, row.evidence)
    else if row.status.Pending? && LastEvidence(flags, area).Some? then
      AreaRow(PreAddressed, row.count, LastEvidence(flags, area).value)
    else row
  }

  function Project(areas: seq<QuestionArea>, current: string, d: Decision,
                   flags: seq<PreAddressedArea>): (r: seq<QuestionArea>)
    ensures |r| == |areas|
  {
    seq(|areas|, i requires 0 <= i < |areas| =>
      QuestionArea(areas[i].area, ProjectRow(areas[i].area, areas[i].row, current, d, flags)))
  }

  method ProjectAreasForNextAreaOpening(areas: seq<QuestionArea>, current: string, d: Decision,
                                        flags: seq<PreAddressedArea>)
    returns (result: seq<QuestionArea>)
    ensures result == Project(areas, current, d, flags)
  {
    var projected := new QuestionArea[|areas|](i requires 0 <= i < |areas| => areas[i]);
    var preAddressedEvidence: map<string, string> := map[];
    for k := 0 to |flags|
      invariant forall a ::
                  LastEvidence(flags[..k], a) ==
                  if a in preAddressedEvidence then Some(preAddressedEvidence[a]) else None
      invariant forall j :: 0 <= j < |areas| ==> projected[j] == areas[j]
    {
      assert flags[..k + 1][..k] == flags[..k];
      if Blank(flags[k].slug) { continue; }
      preAddressedEvidence := preAddressedEvidence[flags[k].slug := flags[k].evidence];
    }
    assert flags[..|flags|] == flags;
    for i := 0 to projected.Length
      invariant forall j :: i <= j < |areas| ==> projected[j] == areas[j]
      invariant forall j :: 0 <= j < i ==> projected[j] == Project(areas, current, d, flags)[j]
    {
      var row := projected[i].row;
      if projected[i].area == current {
        if d.mark.Some? { row := row.(status := d.mark.value); }
        projected[i] := projected[i].(row := row.(count := row.count + 1));
      } else if row.status == Pending {
        if projected[i].area in preAddressedEvidence {
          var evidence := preAddressedEvidence[projected[i].area];
          projected[i] := projected[i].(row := row.(status := PreAddressed, evidence := evidence));
        }
      }
    }
    result := projected[..];
  }

  lemma {:induction false} ProjectionKeepsOpen(areas: seq<QuestionArea>, current: string, d: Decision,
                                               flags: seq<PreAddressedArea>)
    ensures StatusMap(Project(areas, current, d, flags)).Keys == StatusMap(areas).Keys
    ensures forall s :: s in StatusMap(areas) ==>
                          if s == current && d.mark.Some?
                          then StatusMap(Project(areas, current, d, flags))[s] == d.mark.value
                          else Open(StatusMap(Project(areas, current, d, flags))[s]) == Open(StatusMap(areas)[s])
    decreases |areas|
  {
    if areas != [] {
      var init := areas[..|areas| - 1];
      ProjectionKeepsOpen(init, current, d, flags);
      assert Project(areas, current, d, flags)[..|areas| - 1] == Project(init, current, d, flags);
    }
  }

  /** The planner applies the turn to the areas and then lets the selection apply it again; for every listing,
      decision and list of flags that second application changes nothing. */
  lemma DoubleApplicationIsHarmless(areas: seq<QuestionArea>, current: string, d: Decision,
                                    flags: seq<PreAddressedArea>, order: seq<string>)
    ensures NextArea(Project(areas, current, d, flags), current, d, flags, order)
            == NextArea(areas, current, d, flags, order)
  {
    var raw := Marked(StatusMap(areas), current, d);
    var twice := Marked(StatusMap(Project(areas, current, d, flags)), current, d);
    ProjectionKeepsOpen(areas, current, d, flags);
    FlagsKeepOpen(raw, flags);
    FlagsKeepOpen(twice, flags);
    SelectionDependsOnOpen(order, ApplyFlags(twice, flags), ApplyFlags(raw, flags));
  }

  // ----- listings and the table they list -----

  /** The table a listing denotes. */
  function TableOf(areas: seq<QuestionArea>): AreaTable {
    if areas == [] then map[]
    else
      var last := areas[|areas| - 1];
      TableOf(areas[..|areas| - 1])[last.area := last.row]
  }

  function StatusOf(table: AreaTable): map<string, AreaStatus> {
    map s | s in table :: table[s].status
  }

  function ProjectTable(table: AreaTable, current: string, d: Decision, flags: seq<PreAddressedArea>): AreaTable {
    map s | s in table :: ProjectRow(s, table[s], current, d, flags)
  }

  /** The area chosen next, read off the table alone. */
  function NextAreaIn(table: AreaTable, current: string, d: Decision, order: seq<string>): string {
    if d.action.Next? then SelectNextPendingArea(order, Marked(StatusOf(table), current, d)) else current
  }

  lemma {:induction false} ListingDenotesTable(areas: seq<QuestionArea>, current: string, d: Decision,
                                               flags: seq<PreAddressedArea>)
    ensures StatusMap(areas) == StatusOf(TableOf(areas))
    ensures TableOf(Project(areas, current, d, flags)) == ProjectTable(TableOf(areas), current, d, flags)
    decreases |areas|
  {
    if areas != [] {
      var init := areas[..|areas| - 1];
      ListingDenotesTable(init, current, d, flags);
      assert Project(areas, current, d, flags)[..|areas| - 1] == Project(init, current, d, flags);
    }
  }

  /** Whatever order the rows are listed in, the planner picks the area the table determines. */
  lemma PlannedAreaReadsTable(areas: seq<QuestionArea>, current: string, d: Decision, flags: seq<PreAddressedArea>,
                              order: seq<string>)
    ensures NextArea(Project(areas, current, d, flags), current, d, flags, order)
            == NextAreaIn(TableOf(areas), current, d, order)
  {
    DoubleApplicationIsHarmless(areas, current, d, flags, order);
    FlagsDoNotSteer(areas, current, d, flags, [], order);
    ListingDenotesTable(areas, current, d, flags);
  }
}
