/** Exactly when normalising keeps every value of a schema, adds none, and does both. */
module SchemaFidelity {
  import opened Text
  import opened Schema
  import opened SchemaMeaning

  // ----- kinds of values -----

  /** Values without parts, one for all that no type tells apart: 0.0 is an integer, 0.5 is not. */
  const SCALARS: seq<Value> := [VNull, VBool(true), VNum(0.0), VNum(0.5), VStr("")]
  const KINDS: seq<Value> := SCALARS + [VArr([]), VObj(map[])]

  function KindOf(v: Value): Value {
    match v
    case VNull => VNull
    case VBool(_) => VBool(true)
    case VNum(n) => if n == n.Floor as real then VNum(0.0) else VNum(0.5)
    case VStr(_) => VStr("")
    case VArr(_) => VArr([])
    case VObj(_) => VObj(map[])
  }

  lemma KindIsListed(v: Value)
    ensures exists i :: 0 <= i < |KINDS| && KINDS[i] == KindOf(v)
    ensures !v.VArr? && !v.VObj? ==> exists i :: 0 <= i < |SCALARS| && SCALARS[i] == KindOf(v)
  {
    var i := match v
             case VNull => 0 case VBool(_) => 1 case VNum(n) => (if n == n.Floor as real then 2 else 3)
             case VStr(_) => 4 case VArr(_) => 5 case VObj(_) => 6;
    assert KINDS[i] == KindOf(v);
    if i < 5 { assert SCALARS[i] == KindOf(v); }
  }

  lemma TypeSeesKind(t: string, v: Value)
    ensures TypeMatches(t, v) <==> TypeMatches(t, KindOf(v))
  {
  }

  /** A type keyword tells values apart by kind only, in every dialect. */
  lemma TypesSeeKinds(d: Dialect, m: map<string, Json>, v: Value)
    ensures TypeAllows(d, m, v) <==> TypeAllows(d, m, KindOf(v))
  {
    forall t
      ensures TypeMatches(t, v) <==> TypeMatches(t, KindOf(v))
    {
      TypeSeesKind(t, v);
    }
  }

  /** An enumeration leaves values of a kind: only strings, and only if it lists some. */
  predicate EnumReaches(m: map<string, Json>, kind: Value) {
    "enum" in m ==> kind.VStr? && TypeStrings(m["enum"]) != []
  }

  predicate AdmitsKind(d: Dialect, m: map<string, Json>, kind: Value) {
    TypeAllows(d, m, kind) && EnumReaches(m, kind)
  }

  // ----- which values a schema accepts at all -----

  /** Whether an object can have this member. */
  predicate AdmitsMember(d: Dialect, j: Json, name: string)
    requires j.Map?
    decreases j, 0
  {
    if name in PropertiesOf(j) then Satisfiable(d, PropertiesOf(j)[name])
    else d.JsonSchema? && "additionalProperties" in j.fields ==>
           Satisfiable(JsonSchema, j.fields["additionalProperties"])
  }

  /** Whether some object is accepted: the type and every required member allow one. */
  predicate AdmitsObjects(d: Dialect, j: Json)
    requires j.Map?
    decreases j, 1
  {
    AdmitsKind(d, j.fields, VObj(map[])) && forall name :: name in RequiredNames(j.fields) ==> AdmitsMember(d, j, name)
  }

  /** Whether some value is accepted. */
  predicate Satisfiable(d: Dialect, j: Json)
    decreases j, 2
  {
    match j
    case Bool(b) => b
    case Map(m) =>
      || (exists i :: 0 <= i < |SCALARS| && AdmitsKind(d, m, SCALARS[i]))
      || AdmitsKind(d, m, VArr([]))
      || AdmitsObjects(d, j)
    case _ => true
  }

  ghost function Scalar(d: Dialect, m: map<string, Json>, kind: Value): (v: Value)
    requires AdmitsKind(d, m, kind) && kind in SCALARS
    ensures KindOf(v) == kind && EnumAllows(m, v)
  {
    if "enum" in m then VStr(TypeStrings(m["enum"])[0]) else kind
  }

  ghost function Sample(d: Dialect, j: Json): Value
    requires Satisfiable(d, j)
    decreases j, 2
  {
    if !j.Map? then VNull
    else if exists i :: 0 <= i < |SCALARS| && AdmitsKind(d, j.fields, SCALARS[i]) then
      var i :| 0 <= i < |SCALARS| && AdmitsKind(d, j.fields, SCALARS[i]);
      Scalar(d, j.fields, SCALARS[i])
    else if AdmitsKind(d, j.fields, VArr([])) then VArr([])
    else VObj(SampleMembers(d, j))
  }

  ghost function SampleMember(d: Dialect, j: Json, name: string): Value
    requires j.Map? && AdmitsMember(d, j, name)
    decreases j, 0
  {
    if name in PropertiesOf(j) then Sample(d, PropertiesOf(j)[name])
    else if d.JsonSchema? && "additionalProperties" in j.fields then Sample(d, j.fields["additionalProperties"])
    else VNull
  }

  ghost function SampleMembers(d: Dialect, j: Json): map<string, Value>
    requires j.Map? && AdmitsObjects(d, j)
    decreases j, 1
  {
    map name | name in RequiredNames(j.fields) :: SampleMember(d, j, name)
  }

  lemma ScalarIsValid(d: Dialect, j: Json, kind: Value)
    requires j.Map? && AdmitsKind(d, j.fields, kind) && kind in SCALARS
    ensures Valid(d, j, Scalar(d, j.fields, kind))
  {
    TypesSeeKinds(d, j.fields, Scalar(d, j.fields, kind));
  }

  lemma {:induction false} SampleIsValid(d: Dialect, j: Json)
    requires Satisfiable(d, j)
    ensures Valid(d, j, Sample(d, j))
    decreases j, 2
  {
    if j.Map? {
      if exists i :: 0 <= i < |SCALARS| && AdmitsKind(d, j.fields, SCALARS[i]) {
        forall i | 0 <= i < |SCALARS| && AdmitsKind(d, j.fields, SCALARS[i])
          ensures Valid(d, j, Scalar(d, j.fields, SCALARS[i]))
        {
          ScalarIsValid(d, j, SCALARS[i]);
        }
      } else if !AdmitsKind(d, j.fields, VArr([])) {
        SampleObject(d, j);
      }
    }
  }

  lemma {:induction false} SampleMemberIsValid(d: Dialect, j: Json, name: string)
    requires j.Map? && AdmitsMember(d, j, name)
    ensures MemberIsValid(d, j, name, SampleMember(d, j, name))
    decreases j, 0
  {
    if name in PropertiesOf(j) { SampleIsValid(d, PropertiesOf(j)[name]); }
    else if d.JsonSchema? && "additionalProperties" in j.fields { SampleIsValid(d, j.fields["additionalProperties"]); }
  }

  predicate MemberIsValid(d: Dialect, j: Json, name: string, v: Value)
    requires j.Map?
  {
    if name in PropertiesOf(j) then Valid(d, PropertiesOf(j)[name], v)
    else d.JsonSchema? && "additionalProperties" in j.fields ==> Valid(JsonSchema, j.fields["additionalProperties"], v)
  }

  /** An object is valid if its kind, its required names and each of its members are. */
  lemma ObjectByMembers(d: Dialect, j: Json, v: Value)
    requires j.Map? && v.VObj?
    ensures Valid(d, j, v) <==>
            && AdmitsKind(d, j.fields, VObj(map[])) && RequiredAllows(j.fields, v)
            && forall name :: name in v.members ==> MemberIsValid(d, j, name, v.members[name])
  {
    TypesSeeKinds(d, j.fields, v);
    if Valid(d, j, v) {
      assert PropertiesAllow(d, j, v) && (d.JsonSchema? ==> ExtrasAllowed(j, v));
    }
    if forall name :: name in v.members ==> MemberIsValid(d, j, name, v.members[name]) {
      forall name | name in v.members && name in PropertiesOf(j)
        ensures Valid(d, PropertiesOf(j)[name], v.members[name])
      {
        assert MemberIsValid(d, j, name, v.members[name]);
      }
      if d.JsonSchema? && "additionalProperties" in j.fields {
        forall name | name in v.members && name !in PropertiesOf(j)
          ensures Valid(JsonSchema, j.fields["additionalProperties"], v.members[name])
        {
          assert MemberIsValid(d, j, name, v.members[name]);
        }
      }
    }
  }

  lemma ArrayByItems(d: Dialect, j: Json, v: Value)
    requires j.Map? && v.VArr?
    ensures Valid(d, j, v) <==>
            && AdmitsKind(d, j.fields, VArr([]))
            && ("items" in j.fields ==> forall i :: 0 <= i < |v.items| ==> Valid(d, j.fields["items"], v.items[i]))
  {
    TypesSeeKinds(d, j.fields, v);
  }

  lemma {:induction false} SampleObject(d: Dialect, j: Json)
    requires j.Map? && AdmitsObjects(d, j)
    ensures Valid(d, j, VObj(SampleMembers(d, j)))
    decreases j, 1
  {
    var v := VObj(SampleMembers(d, j));
    forall name | name in v.members
      ensures MemberIsValid(d, j, name, v.members[name])
    {
      SampleMemberIsValid(d, j, name);
    }
    ObjectByMembers(d, j, v);
  }

  /** An accepted object may carry one member more, if that is accepted. */
  lemma ObjectWith(d: Dialect, j: Json, name: string, w: Value)
    requires j.Map? && AdmitsObjects(d, j) && MemberIsValid(d, j, name, w)
    ensures Valid(d, j, VObj(SampleMembers(d, j)[name := w]))
  {
    SampleObject(d, j);
    ObjectByMembers(d, j, VObj(SampleMembers(d, j)));
    ObjectByMembers(d, j, VObj(SampleMembers(d, j)[name := w]));
  }

  lemma {:induction false} AcceptedIsSatisfiable(d: Dialect, j: Json, v: Value)
    requires Valid(d, j, v)
    ensures Satisfiable(d, j)
    ensures j.Map? ==> if v.VObj? then AdmitsObjects(d, j) else AdmitsKind(d, j.fields, KindOf(v))
    decreases j
  {
    if j.Map? {
      TypesSeeKinds(d, j.fields, v);
      KindIsListed(v);
      if v.VObj? {
        ObjectByMembers(d, j, v);
        forall name | name in RequiredNames(j.fields)
          ensures AdmitsMember(d, j, name)
        {
          assert MemberIsValid(d, j, name, v.members[name]);
          if name in PropertiesOf(j) { AcceptedIsSatisfiable(d, PropertiesOf(j)[name], v.members[name]); }
          else if d.JsonSchema? && "additionalProperties" in j.fields {
            AcceptedIsSatisfiable(d, j.fields["additionalProperties"], v.members[name]);
          }
        }
      }
    }
  }

  // ----- whether every value is accepted -----

  predicate Universal(j: Json) {
    match j
    case Bool(b) => b
    case Map(m) =>
      && "enum" !in m && RequiredNames(m) == []
      && (forall i :: 0 <= i < |KINDS| ==> TypeAllows(JsonSchema, m, KINDS[i]))
      && (forall name :: name in PropertiesOf(j) ==> Universal(PropertiesOf(j)[name]))
      && ("items" in m ==> Universal(m["items"]))
      && ("additionalProperties" in m ==> Universal(m["additionalProperties"]))
    case _ => true
  }

  lemma {:induction false} UniversalAccepts(j: Json, v: Value)
    requires Universal(j)
    ensures Valid(JsonSchema, j, v)
    decreases j
  {
    if j.Map? {
      KindIsListed(v);
      TypesSeeKinds(JsonSchema, j.fields, v);
      if v.VObj? {
        forall name | name in v.members
          ensures MemberIsValid(JsonSchema, j, name, v.members[name])
        {
          if name in PropertiesOf(j) { UniversalAccepts(PropertiesOf(j)[name], v.members[name]); }
          else if "additionalProperties" in j.fields {
            UniversalAccepts(j.fields["additionalProperties"], v.members[name]);
          }
        }
        ObjectByMembers(JsonSchema, j, v);
      }
      if v.VArr? && "items" in j.fields {
        forall i | 0 <= i < |v.items|
          ensures Valid(JsonSchema, j.fields["items"], v.items[i])
        {
          UniversalAccepts(j.fields["items"], v.items[i]);
        }
      }
    }
  }

  lemma LongerThanAll(names: set<string>) returns (n: nat)
    ensures forall name :: name in names ==> |name| < n
  {
    if names == {} { return 0; }
    var name :| name in names;
    var rest := LongerThanAll(names - {name});
    n := if rest > |name| then rest else |name| + 1;
  }

  lemma NewName(names: set<string>) returns (name: string)
    ensures name !in names
  {
    var n := LongerThanAll(names);
    name := seq(n, _ => 'x');
  }

  /** A schema that is not universal refuses some value. */
  lemma {:induction false} Refused(j: Json) returns (v: Value)
    requires !Universal(j)
    ensures !Valid(JsonSchema, j, v)
    decreases j
  {
    if j.Bool? { return VNull; }
    var m := j.fields;
    if "enum" in m { return VNull; }
    if RequiredNames(m) != [] {
      assert RequiredNames(m)[0] in RequiredNames(m);
      return VObj(map[]);
    }
    if i :| 0 <= i < |KINDS| && !TypeAllows(JsonSchema, m, KINDS[i]) { return KINDS[i]; }
    if name :| name in PropertiesOf(j) && !Universal(PropertiesOf(j)[name]) {
      var w := Refused(PropertiesOf(j)[name]);
      v := VObj(map[name := w]);
      assert name in v.members;
      return;
    }
    if "items" in m && !Universal(m["items"]) {
      var w := Refused(m["items"]);
      v := VArr([w]);
      assert v.items[0] == w;
      return;
    }
    var w := Refused(m["additionalProperties"]);
    var name := NewName(PropertiesOf(j).Keys);
    v := VObj(map[name := w]);
    assert name in v.members;
  }

  /** `Universal` says what it is meant to. */
  lemma UniversalIff(j: Json)
    ensures Universal(j) <==> forall v :: Valid(JsonSchema, j, v)
  {
    if Universal(j) {
      forall v ensures Valid(JsonSchema, j, v) { UniversalAccepts(j, v); }
    } else {
      var v := Refused(j);
    }
  }

  // ----- one reading within the other -----

  /** The other of the two readings of a schema as written. */
  function Other(d: Dialect): Dialect { if d.JsonSchema? then Loose else JsonSchema }

  /** Every value accepted in one reading is accepted in the other: each kind of value that can reach the type keyword
      passes it in both, and so do the parts that can be reached; read as JSON Schema, no extra member is refused. */
  predicate Within(d: Dialect, j: Json) {
    j.Map? ==>
      var m := j.fields;
      && (forall i :: 0 <= i < |SCALARS| && AdmitsKind(d, m, SCALARS[i]) ==> TypeAllows(Other(d), m, SCALARS[i]))
      && (AdmitsKind(d, m, VArr([])) ==> TypeAllows(Other(d), m, VArr([])))
      && (AdmitsKind(d, m, VArr([])) && "items" in m ==> Within(d, m["items"]))
      && (AdmitsObjects(d, j) ==> TypeAllows(Other(d), m, VObj(map[])))
      && (AdmitsObjects(d, j) && !d.JsonSchema? && "additionalProperties" in m ==> Universal(m["additionalProperties"]))
      && (forall name :: name in PropertiesOf(j) && AdmitsObjects(d, j) ==> Within(d, PropertiesOf(j)[name]))
  }

  lemma {:induction false} ObjectStays(d: Dialect, j: Json, v: Value)
    requires !d.Vertex? && j.Map? && v.VObj? && Within(d, j) && Valid(d, j, v)
    ensures Valid(Other(d), j, v)
    decreases j, 0
  {
    AcceptedIsSatisfiable(d, j, v);
    ObjectByMembers(d, j, v);
    forall name | name in v.members
      ensures MemberIsValid(Other(d), j, name, v.members[name])
    {
      assert MemberIsValid(d, j, name, v.members[name]);
      if name in PropertiesOf(j) { StaysValid(d, PropertiesOf(j)[name], v.members[name]); }
      else if "additionalProperties" in j.fields && !d.JsonSchema? {
        UniversalAccepts(j.fields["additionalProperties"], v.members[name]);
      }
    }
    ObjectByMembers(Other(d), j, v);
  }

  lemma {:induction false} ArrayStays(d: Dialect, j: Json, v: Value)
    requires !d.Vertex? && j.Map? && v.VArr? && Within(d, j) && Valid(d, j, v)
    ensures Valid(Other(d), j, v)
    decreases j, 0
  {
    ArrayByItems(d, j, v);
    if "items" in j.fields {
      forall i | 0 <= i < |v.items|
        ensures Valid(Other(d), j.fields["items"], v.items[i])
      {
        StaysValid(d, j.fields["items"], v.items[i]);
      }
    }
    ArrayByItems(Other(d), j, v);
  }

  lemma ScalarStays(d: Dialect, j: Json, v: Value)
    requires !d.Vertex? && j.Map? && !v.VArr? && !v.VObj? && Within(d, j) && Valid(d, j, v)
    ensures Valid(Other(d), j, v)
  {
    AcceptedIsSatisfiable(d, j, v);
    KindIsListed(v);
    TypesSeeKinds(Other(d), j.fields, v);
  }

  lemma {:induction false} StaysValid(d: Dialect, j: Json, v: Value)
    requires !d.Vertex? && Within(d, j) && Valid(d, j, v)
    ensures Valid(Other(d), j, v)
    decreases j, 1
  {
    if j.Map? {
      if v.VObj? { ObjectStays(d, j, v); } else if v.VArr? { ArrayStays(d, j, v); } else { ScalarStays(d, j, v); }
    }
  }

  lemma {:induction false} StrayScalar(d: Dialect, j: Json, i: nat) returns (v: Value)
    requires j.Map? && i < |SCALARS| && AdmitsKind(d, j.fields, SCALARS[i])
    requires !TypeAllows(Other(d), j.fields, SCALARS[i])
    ensures Valid(d, j, v) && !Valid(Other(d), j, v)
  {
    v := Scalar(d, j.fields, SCALARS[i]);
    ScalarIsValid(d, j, SCALARS[i]);
    TypesSeeKinds(Other(d), j.fields, v);
  }

  lemma {:induction false} StrayArray(d: Dialect, j: Json) returns (v: Value)
    requires !d.Vertex? && j.Map? && AdmitsKind(d, j.fields, VArr([]))
    requires !TypeAllows(Other(d), j.fields, VArr([])) || ("items" in j.fields && !Within(d, j.fields["items"]))
    ensures Valid(d, j, v) && !Valid(Other(d), j, v)
    decreases j, 0
  {
    v := VArr([]);
    if TypeAllows(Other(d), j.fields, VArr([])) {
      var w := Stray(d, j.fields["items"]);
      v := VArr([w]);
      assert v.items[0] == w;
    }
    ArrayByItems(d, j, v);
    ArrayByItems(Other(d), j, v);
  }

  lemma StrayMember(d: Dialect, j: Json, name: string, w: Value)
    requires j.Map? && AdmitsObjects(d, j) && MemberIsValid(d, j, name, w) && !MemberIsValid(Other(d), j, name, w)
    ensures var v := VObj(SampleMembers(d, j)[name := w]);
            Valid(d, j, v) && !Valid(Other(d), j, v)
  {
    var v := VObj(SampleMembers(d, j)[name := w]);
    ObjectWith(d, j, name, w);
    assert name in v.members;
    ObjectByMembers(Other(d), j, v);
  }

  lemma {:induction false} StrayObject(d: Dialect, j: Json) returns (v: Value)
    requires !d.Vertex? && j.Map? && AdmitsObjects(d, j)
    requires || !TypeAllows(Other(d), j.fields, VObj(map[]))
             || (!d.JsonSchema? && "additionalProperties" in j.fields && !Universal(j.fields["additionalProperties"]))
             || (exists name :: name in PropertiesOf(j) && !Within(d, PropertiesOf(j)[name]))
    ensures Valid(d, j, v) && !Valid(Other(d), j, v)
    decreases j, 0
  {
    if !TypeAllows(Other(d), j.fields, VObj(map[])) {
      v := VObj(SampleMembers(d, j));
      SampleObject(d, j);
      TypesSeeKinds(Other(d), j.fields, v);
    } else if name :| name in PropertiesOf(j) && !Within(d, PropertiesOf(j)[name]) {
      var w := Stray(d, PropertiesOf(j)[name]);
      StrayMember(d, j, name, w);
      v := VObj(SampleMembers(d, j)[name := w]);
    } else {
      var w := Refused(j.fields["additionalProperties"]);
      var name := NewName(PropertiesOf(j).Keys);
      StrayMember(d, j, name, w);
      v := VObj(SampleMembers(d, j)[name := w]);
    }
  }

  /** If one reading is not within the other, some value is accepted in the one alone. */
  lemma {:induction false} Stray(d: Dialect, j: Json) returns (v: Value)
    requires !d.Vertex? && !Within(d, j)
    ensures Valid(d, j, v) && !Valid(Other(d), j, v)
    decreases j, 1
  {
    var m := j.fields;
    if i :| 0 <= i < |SCALARS| && AdmitsKind(d, m, SCALARS[i]) && !TypeAllows(Other(d), m, SCALARS[i]) {
      v := StrayScalar(d, j, i);
    } else if AdmitsKind(d, m, VArr([]))
              && (!TypeAllows(Other(d), m, VArr([])) || ("items" in m && !Within(d, m["items"]))) {
      v := StrayArray(d, j);
    } else {
      v := StrayObject(d, j);
    }
  }

  // ----- the three theorems -----

  predicate LosesNothing(j: Json) { Within(JsonSchema, j) }

  predicate GainsNothing(j: Json) { Within(Loose, j) }

  /** Every value of a supported schema is a value of its normal form if and only if `LosesNothing`. */
  lemma LosesNothingIff(j: Json)
    requires Supported(j)
    ensures LosesNothing(j) <==> forall v :: Valid(JsonSchema, j, v) ==> Valid(Vertex, Normalized(j), v)
  {
    if LosesNothing(j) {
      forall v | Valid(JsonSchema, j, v)
        ensures Valid(Vertex, Normalized(j), v)
      {
        StaysValid(JsonSchema, j, v);
        NormalFormIsLoose(j, v);
      }
    } else {
      var v := Stray(JsonSchema, j);
      NormalFormIsLoose(j, v);
    }
  }

  /** Every value of its normal form is a value of a supported schema if and only if `GainsNothing`. */
  lemma GainsNothingIff(j: Json)
    requires Supported(j)
    ensures GainsNothing(j) <==> forall v :: Valid(Vertex, Normalized(j), v) ==> Valid(JsonSchema, j, v)
  {
    if GainsNothing(j) {
      forall v | Valid(Vertex, Normalized(j), v)
        ensures Valid(JsonSchema, j, v)
      {
        NormalFormIsLoose(j, v);
        StaysValid(Loose, j, v);
      }
    } else {
      var v := Stray(Loose, j);
      NormalFormIsLoose(j, v);
    }
  }

  /** A supported schema and its normal form accept the same values if and only if nothing is lost and nothing
      gained. */
  lemma MeaningIsKeptIff(j: Json)
    requires Supported(j)
    ensures LosesNothing(j) && GainsNothing(j) <==>
            forall v :: Valid(JsonSchema, j, v) <==> Valid(Vertex, Normalized(j), v)
  {
    LosesNothingIff(j);
    GainsNothingIff(j);
    if LosesNothing(j) && GainsNothing(j) {
      forall v
        ensures Valid(JsonSchema, j, v) <==> Valid(Vertex, Normalized(j), v)
      {
      }
    }
  }

  // ----- what the conditions come to on the type keyword alone -----

  /** Every type of the list besides null is the first of them, or integer after number. */
  predicate KeptList(types: seq<string>) {
    forall i :: 0 <= i < |types| ==>
      types[i] == "null" || types[i] == FirstNamed(types) || (types[i] == "integer" && FirstNamed(types) == "number")
  }

  /** A value of this type and, but for numbers and integers, of no other. */
  function ValueOf(t: string): Value {
    if t == "null" then VNull
    else if t == "boolean" then VBool(true)
    else if t == "object" then VObj(map[])
    else if t == "array" then VArr([])
    else if t == "number" then VNum(0.5)
    else if t == "integer" then VNum(0.0)
    else VStr("")
  }

  lemma OnlyItsType(t: string, u: string)
    requires IsType(t) && IsType(u)
    ensures TypeMatches(t, ValueOf(t))
    ensures TypeMatches(u, ValueOf(t)) <==> u == t || (u == "number" && t == "integer")
  {
  }

  lemma KeptListKeeps(m: map<string, Json>, v: Value)
    requires SupportedType(m) && "type" in m && !m["type"].Str? && KeptList(TypeStrings(m["type"]))
    requires TypeAllows(JsonSchema, m, v)
    ensures TypeAllows(Loose, m, v)
  {
    var types := TypeStrings(m["type"]);
    var i :| 0 <= i < |types| && TypeMatches(types[i], v);
    if types[i] == "null" { assert "null" in types; }
  }

  /** A list of known types lets every value through to its normal form exactly when it is a kept list. */
  lemma KeptListIff(m: map<string, Json>)
    requires SupportedType(m) && "type" in m && !m["type"].Str?
    ensures KeptList(TypeStrings(m["type"])) <==> forall v :: TypeAllows(JsonSchema, m, v) ==> TypeAllows(Loose, m, v)
  {
    var types := TypeStrings(m["type"]);
    CollapsedNames(types);
    if KeptList(types) {
      forall v | TypeAllows(JsonSchema, m, v)
        ensures TypeAllows(Loose, m, v)
      {
        KeptListKeeps(m, v);
      }
    } else {
      var i :| 0 <= i < |types| && types[i] != "null" && types[i] != FirstNamed(types)
               && !(types[i] == "integer" && FirstNamed(types) == "number");
      assert types[i] in types && IsType(types[i]);
      OnlyItsType(types[i], FirstNamed(types));
      assert TypeMatches(types[i], ValueOf(types[i]));
      assert TypeAllows(JsonSchema, m, ValueOf(types[i])) && !TypeAllows(Loose, m, ValueOf(types[i]));
    }
  }

  /** Whether `nullable` adds null to a type that does not allow it. */
  predicate NullIsAdded(m: map<string, Json>) { "type" in m && Nullable(m) && "null" !in TypeNames(m) }

  /** A type keyword lets no new value in exactly when no null is added and the keyword is not dropped. */
  lemma TypeGainsIff(m: map<string, Json>)
    requires SupportedType(m) && "type" in m
    ensures !NullIsAdded(m) && !NamesNone(m) <==>
            forall v :: TypeAllows(Loose, m, v) ==> TypeAllows(JsonSchema, m, v)
  {
    var types := TypeNames(m);
    if NullIsAdded(m) {
      assert !TypeAllows(JsonSchema, m, VNull) && TypeAllows(Loose, m, VNull);
    } else if NamesNone(m) {
      CollapsedNames(types);
      assert forall i :: 0 <= i < |types| ==> types[i] in types;
      assert !TypeAllows(JsonSchema, m, VStr("")) && TypeAllows(Loose, m, VStr(""));
    } else {
      forall v | TypeAllows(Loose, m, v)
        ensures TypeAllows(JsonSchema, m, v)
      {
        LooseIsListed(m, v);
      }
    }
  }

  lemma LooseIsListed(m: map<string, Json>, v: Value)
    requires SupportedType(m) && "type" in m && !NullIsAdded(m) && !NamesNone(m) && TypeAllows(Loose, m, v)
    ensures TypeAllows(JsonSchema, m, v)
  {
    var types := TypeNames(m);
    if m["type"].Str? { assert types[0] == m["type"].s; } else { CollapsedNames(types); }
    var t := if m["type"].Str? then m["type"].s else FirstNamed(types);
    assert t in types;
    if TypeMatches(t, v) {
      var i :| 0 <= i < |types| && types[i] == t;
      assert TypeMatches(types[i], v);
    } else {
      var i :| 0 <= i < |types| && types[i] == "null";
      assert TypeMatches(types[i], v);
    }
  }

  /** Every list of types, here and below, is a kept list. */
  predicate ListsAreKept(j: Json) {
    j.Map? ==>
      && ("type" in j.fields && !j.fields["type"].Str? ==> KeptList(TypeStrings(j.fields["type"])))
      && ("items" in j.fields ==> ListsAreKept(j.fields["items"]))
      && (forall name :: name in PropertiesOf(j) ==> ListsAreKept(PropertiesOf(j)[name]))
  }

  lemma TypeIsKept(m: map<string, Json>, v: Value)
    requires SupportedType(m) && ("type" in m && !m["type"].Str? ==> KeptList(TypeStrings(m["type"])))
    requires TypeAllows(JsonSchema, m, v)
    ensures TypeAllows(Loose, m, v)
  {
    if "type" in m && !m["type"].Str? { KeptListKeeps(m, v); }
  }

  lemma {:induction false} KeptListsLoseNothing(j: Json)
    requires Supported(j) && ListsAreKept(j)
    ensures LosesNothing(j)
    decreases j
  {
    forall i | 0 <= i < |KINDS| && TypeAllows(JsonSchema, j.fields, KINDS[i])
      ensures TypeAllows(Loose, j.fields, KINDS[i])
    {
      TypeIsKept(j.fields, KINDS[i]);
    }
    assert KINDS[5] == VArr([]) && KINDS[6] == VObj(map[]);
    assert forall i :: 0 <= i < |SCALARS| ==> KINDS[i] == SCALARS[i];
    if "items" in j.fields { KeptListsLoseNothing(j.fields["items"]); }
    forall name | name in PropertiesOf(j)
      ensures Within(JsonSchema, PropertiesOf(j)[name])
    {
      KeptListsLoseNothing(PropertiesOf(j)[name]);
    }
  }

  /** Every value of a supported schema whose type lists are kept is a value of its normal form. */
  lemma NormalizingLosesNothing(j: Json, v: Value)
    requires Supported(j) && ListsAreKept(j) && Valid(JsonSchema, j, v)
    ensures Valid(Vertex, Normalized(j), v)
  {
    KeptListsLoseNothing(j);
    StaysValid(JsonSchema, j, v);
    NormalFormIsLoose(j, v);
  }

  // ----- the same meaning, written as JSON Schema -----

  function StruckProperties(j: Json): Json
    decreases j, 1
  {
    if j.Map? then Map(map name | name in j.fields :: Struck(j.fields[name])) else j
  }

  /** The schema without any additionalProperties, here and in every property and item. */
  function Struck(j: Json): Json
    decreases j, 0
  {
    if !j.Map? then j
    else Map(map k | k in j.fields && k != "additionalProperties" ::
               if k == "properties" then StruckProperties(j.fields[k])
               else if k == "items" then Struck(j.fields[k]) else j.fields[k])
  }

  /** The type keyword lets the same kinds of values through in both readings, here and below. */
  predicate TypesReadAlike(j: Json) {
    j.Map? ==>
      && (forall i :: 0 <= i < |KINDS| ==>
          (TypeAllows(JsonSchema, j.fields, KINDS[i]) <==> TypeAllows(Loose, j.fields, KINDS[i])))
      && (forall name :: name in PropertiesOf(j) ==> TypesReadAlike(PropertiesOf(j)[name]))
      && ("items" in j.fields ==> TypesReadAlike(j.fields["items"]))
  }

  lemma TypeReadsAlike(j: Json, v: Value)
    requires j.Map? && TypesReadAlike(j)
    ensures TypeAllows(JsonSchema, j.fields, v) <==> TypeAllows(Loose, j.fields, v)
  {
    KindIsListed(v);
    TypesSeeKinds(JsonSchema, j.fields, v);
    TypesSeeKinds(Loose, j.fields, v);
  }

  lemma StruckShape(j: Json)
    requires j.Map?
    ensures var m, k := j.fields, Struck(j).fields;
            && Struck(j).Map? && k.Keys == m.Keys - {"additionalProperties"}
            && (forall key :: key in k && key != "properties" && key != "items" ==> k[key] == m[key])
            && ("properties" in k ==> k["properties"] == StruckProperties(m["properties"]))
            && ("items" in k ==> k["items"] == Struck(m["items"]))
  {
  }

  lemma {:induction false} StruckFieldIsCopiedAlike(j: Json, key: string)
    requires j.Map? && key in j.fields && Copied(key)
    ensures key in Struck(j).fields && CopiedField(key, Struck(j).fields[key]) == CopiedField(key, j.fields[key])
    decreases j, 0
  {
    StruckShape(j);
    if key == "properties" {
      StruckPropertiesAreNormalizedAlike(j.fields[key]);
    } else if key == "items" {
      StruckIsNormalizedAlike(j.fields[key]);
    }
  }

  lemma SameFieldsAreNormalizedAlike(j: Json, k: Json)
    requires j.Map? && k.Map?
    requires forall key :: Copied(key) ==> (key in j.fields <==> key in k.fields)
    requires forall key :: key in j.fields && Copied(key) ==>
                   CopiedField(key, k.fields[key]) == CopiedField(key, j.fields[key])
    requires CollapsedType(j.fields) == CollapsedType(k.fields)
             && BecomesNullable(j.fields) == BecomesNullable(k.fields)
    ensures NormalizedFields(j) == NormalizedFields(k)
  {
  }

  /** The normaliser cannot tell a schema from its struck form. */
  lemma {:induction false} StruckIsNormalizedAlike(j: Json)
    ensures Normalized(Struck(j)) == Normalized(j)
    decreases j, 1
  {
    if j.Map? {
      StruckShape(j);
      forall key | key in j.fields && Copied(key)
        ensures CopiedField(key, Struck(j).fields[key]) == CopiedField(key, j.fields[key])
      {
        StruckFieldIsCopiedAlike(j, key);
      }
      SameFieldsAreNormalizedAlike(j, Struck(j));
    }
  }

  lemma {:induction false} StruckPropertiesAreNormalizedAlike(j: Json)
    ensures NormalizedProperties(StruckProperties(j)) == NormalizedProperties(j)
    decreases j, 2
  {
    if j.Map? {
      forall name | name in j.fields
        ensures Normalized(Struck(j.fields[name])) == Normalized(j.fields[name])
      {
        StruckIsNormalizedAlike(j.fields[name]);
      }
    }
  }

  lemma StruckParts(j: Json)
    requires j.Map?
    ensures var k := Struck(j);
            && k.Map? && "additionalProperties" !in k.fields
            && PropertiesOf(k).Keys == PropertiesOf(j).Keys
            && forall name :: name in PropertiesOf(j) ==> PropertiesOf(k)[name] == Struck(PropertiesOf(j)[name])
  {
    StruckShape(j);
  }

  lemma {:induction false} StruckPropertiesAreLoose(j: Json, v: Value)
    requires j.Map? && v.VObj? && TypesReadAlike(j)
    ensures PropertiesAllow(JsonSchema, Struck(j), v) <==> PropertiesAllow(Loose, j, v)
    decreases j, 0
  {
    StruckParts(j);
    forall name | name in v.members && name in PropertiesOf(j)
      ensures PropertiesOf(Struck(j))[name] == Struck(PropertiesOf(j)[name])
      ensures Valid(JsonSchema, Struck(PropertiesOf(j)[name]), v.members[name])
         <==> Valid(Loose, PropertiesOf(j)[name], v.members[name])
    {
      StruckIsLoose(PropertiesOf(j)[name], v.members[name]);
    }
  }

  lemma {:induction false} StruckItemsAreLoose(j: Json, v: Value)
    requires j.Map? && v.VArr? && TypesReadAlike(j)
    ensures ItemsAllow(JsonSchema, Struck(j), v) <==> ItemsAllow(Loose, j, v)
    decreases j, 0
  {
    StruckShape(j);
    if "items" in j.fields {
      forall i | 0 <= i < |v.items|
        ensures Valid(JsonSchema, Struck(j.fields["items"]), v.items[i])
                <==> Valid(Loose, j.fields["items"], v.items[i])
      {
        StruckIsLoose(j.fields["items"], v.items[i]);
      }
    }
  }

  lemma StruckReadsAlike(m: map<string, Json>, k: map<string, Json>, v: Value)
    requires forall key :: key != "additionalProperties" && key != "properties" && key != "items" ==>
                             (key in k <==> key in m) && (key in k ==> k[key] == m[key])
    ensures TypeAllows(JsonSchema, k, v) <==> TypeAllows(JsonSchema, m, v)
    ensures EnumAllows(k, v) <==> EnumAllows(m, v)
    ensures RequiredNames(k) == RequiredNames(m)
  {
  }

  lemma {:induction false} StruckIsLoose(j: Json, v: Value)
    requires TypesReadAlike(j)
    ensures Valid(JsonSchema, Struck(j), v) <==> Valid(Loose, j, v)
    decreases j, 1
  {
    if j.Map? {
      StruckShape(j);
      StruckReadsAlike(j.fields, Struck(j).fields, v);
      TypeReadsAlike(j, v);
      if v.VObj? { StruckPropertiesAreLoose(j, v); }
      if v.VArr? { StruckItemsAreLoose(j, v); }
    }
  }

  /** Normalising means striking additionalProperties, where the type keywords read alike. */
  lemma NormalizingStrikes(j: Json, v: Value)
    requires Supported(j) && TypesReadAlike(j)
    ensures Valid(Vertex, Normalized(j), v) <==> Valid(JsonSchema, Struck(j), v)
  {
    NormalFormIsLoose(j, v);
    StruckIsLoose(j, v);
  }

  // ----- three ways of widening, one of losing, and two that change nothing -----

  /** An object closed to extra members accepts one after normalising. */
  lemma RestrictionsAreDropped()
    ensures var closed := Map(map["additionalProperties" := Bool(false)]);
            var extra := VObj(map["x" := VNull]);
            Supported(closed) && !Valid(JsonSchema, closed, extra) && Valid(Vertex, Normalized(closed), extra)
  {
    var closed := Map(map["additionalProperties" := Bool(false)]);
    assert NormalizedFields(closed) == map[];
    assert "x" in VObj(map["x" := VNull]).members && "x" !in PropertiesOf(closed);
  }

  predicate TypeOnly(j: Json) {
    j.Map? && forall key :: key in j.fields ==> key == "type" || key == "nullable"
  }

  lemma TypeKeysAreRead()
    ensures !HoldsSchemas("type") && !HoldsSchemas("nullable")
  {
  }

  lemma NoOtherKeyword(j: Json)
    requires TypeOnly(j)
    ensures "enum" !in j.fields && "required" !in j.fields && "items" !in j.fields && "properties" !in j.fields
    ensures "additionalProperties" !in j.fields
  {
  }

  lemma TypeOnlyIsSupported(j: Json)
    requires TypeOnly(j) && SupportedType(j.fields)
    ensures Supported(j)
  {
    TypeKeysAreRead();
    NoOtherKeyword(j);
  }

  lemma TypeOnlyMeans(d: Dialect, j: Json, v: Value)
    requires TypeOnly(j)
    ensures Valid(d, j, v) <==> TypeAllows(d, j.fields, v)
  {
    NoOtherKeyword(j);
  }

  /** A schema that is nothing but a type keyword means what the keyword does. */
  lemma TypeAlone(j: Json, v: Value)
    requires TypeOnly(j) && SupportedType(j.fields)
    ensures Supported(j)
    ensures Valid(JsonSchema, j, v) <==> TypeAllows(JsonSchema, j.fields, v)
    ensures Valid(Vertex, Normalized(j), v) <==> TypeAllows(Loose, j.fields, v)
  {
    TypeOnlyIsSupported(j);
    TypeOnlyMeans(JsonSchema, j, v);
    TypeOnlyMeans(Loose, j, v);
    NormalFormIsLoose(j, v);
  }

  lemma LossIsOfTypes(j: Json)
    requires TypeOnly(j) && SupportedType(j.fields)
    ensures (forall v :: Valid(JsonSchema, j, v) ==> Valid(Vertex, Normalized(j), v)) <==>
            (forall v :: TypeAllows(JsonSchema, j.fields, v) ==> TypeAllows(Loose, j.fields, v))
  {
    if v :| Valid(JsonSchema, j, v) && !Valid(Vertex, Normalized(j), v) {
      TypeAlone(j, v);
    } else if v :| TypeAllows(JsonSchema, j.fields, v) && !TypeAllows(Loose, j.fields, v) {
      TypeAlone(j, v);
    }
  }

  lemma GainIsOfTypes(j: Json)
    requires TypeOnly(j) && SupportedType(j.fields)
    ensures (forall v :: Valid(Vertex, Normalized(j), v) ==> Valid(JsonSchema, j, v)) <==>
            (forall v :: TypeAllows(Loose, j.fields, v) ==> TypeAllows(JsonSchema, j.fields, v))
  {
    if v :| Valid(Vertex, Normalized(j), v) && !Valid(JsonSchema, j, v) {
      TypeAlone(j, v);
    } else if v :| TypeAllows(Loose, j.fields, v) && !TypeAllows(JsonSchema, j.fields, v) {
      TypeAlone(j, v);
    }
  }

  /** Of a schema that is nothing but a list of types: it loses no value exactly when the list is a kept list, and gains
      none exactly when the list names a type besides null and `nullable` adds no null to it. */
  lemma TypeListIff(j: Json)
    requires TypeOnly(j) && SupportedType(j.fields) && "type" in j.fields && !j.fields["type"].Str?
    ensures KeptList(TypeStrings(j.fields["type"])) <==>
            forall v :: Valid(JsonSchema, j, v) ==> Valid(Vertex, Normalized(j), v)
    ensures !NamesNone(j.fields) && !NullIsAdded(j.fields) <==>
            forall v :: Valid(Vertex, Normalized(j), v) ==> Valid(JsonSchema, j, v)
  {
    KeptListIff(j.fields);
    TypeGainsIff(j.fields);
    LossIsOfTypes(j);
    GainIsOfTypes(j);
  }

  /** A string said to be nullable may be null only after normalising. */
  lemma NullableTakesEffect()
    ensures var text := Map(map["type" := Str("string"), "nullable" := Bool(true)]);
            Supported(text) && !Valid(JsonSchema, text, VNull) && Valid(Vertex, Normalized(text), VNull)
  {
    var text := Map(map["type" := Str("string"), "nullable" := Bool(true)]);
    assert TypeNames(text.fields) == ["string"];
    TypeAlone(text, VNull);
  }

  /** What may only be null may be anything after normalising: the type is dropped. */
  lemma NullAloneIsDropped()
    ensures var nothing := Map(map["type" := StrList(["null"])]);
            Supported(nothing) && !Valid(JsonSchema, nothing, VStr("x"))
            && Valid(Vertex, Normalized(nothing), VStr("x"))
  {
    var nothing := Map(map["type" := StrList(["null"])]);
    assert TypeNames(nothing.fields) == ["null"] && FirstNamed(["null"]) == "";
    TypeAlone(nothing, VStr("x"));
  }

  /** Of two unrelated types only the first is kept. */
  lemma SecondTypeIsLost()
    ensures var either := Map(map["type" := StrList(["string", "number"])]);
            Supported(either) && Valid(JsonSchema, either, VNum(0.5)) && !Valid(Vertex, Normalized(either), VNum(0.5))
  {
    var types := ["string", "number"];
    var either := Map(map["type" := StrList(types)]);
    assert TypeNames(either.fields) == types && TypeMatches(types[1], VNum(0.5)) && FirstNamed(types) == "string";
    TypeAlone(either, VNum(0.5));
  }

  lemma NumberCovers(v: Value)
    ensures Listed(["number", "integer"], v) <==> TypeMatches("number", v)
  {
    var types := ["number", "integer"];
    if TypeMatches("number", v) { assert TypeMatches(types[0], v); }
  }

  /** An integer after a number is no loss. */
  lemma IntegerIsANumber(v: Value)
    ensures var either := Map(map["type" := StrList(["number", "integer"])]);
            Valid(JsonSchema, either, v) <==> Valid(Vertex, Normalized(either), v)
  {
    var types := ["number", "integer"];
    var either := Map(map["type" := StrList(types)]);
    assert TypeNames(either.fields) == types && FirstNamed(types) == "number";
    TypeAlone(either, v);
    NumberCovers(v);
  }

  /** An additionalProperties that refuses nothing is dropped without loss. */
  lemma OpenStaysOpen(v: Value)
    ensures var open := Map(map["additionalProperties" := Map(map[])]);
            Valid(JsonSchema, open, v) <==> Valid(Vertex, Normalized(open), v)
  {
    var open := Map(map["additionalProperties" := Map(map[])]);
    assert NormalizedFields(open) == map[];
    assert Universal(open.fields["additionalProperties"]);
    assert PropertiesOf(open) == map[] && RequiredNames(open.fields) == [];
  }
}
