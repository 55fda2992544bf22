/** What a schema means in JSON Schema and in the Vertex dialect, and how the normaliser reads it. */
module SchemaMeaning {
  import opened Text
  import opened Schema

  // ----- meaning -----

  /** JSON values. */
  datatype Value =
    | VNull
    | VBool(b: bool)
    | VNum(n: real)
    | VStr(s: string)
    | VArr(items: seq<Value>)
    | VObj(members: map<string, Value>)

  /** Types as in section 6.1.1 of JSON Schema Validation 2020-12. */
  predicate TypeMatches(t: string, v: Value) {
    || (t == "null" && v.VNull?)
    || (t == "boolean" && v.VBool?)
    || (t == "object" && v.VObj?)
    || (t == "array" && v.VArr?)
    || (t == "number" && v.VNum?)
    || (t == "integer" && v.VNum? && v.n == v.n.Floor as real)
    || (t == "string" && v.VStr?)
  }

  /** `JsonSchema` is the dialect of 2020-12. `Vertex` has one upper-case type name, to which `nullable` adds null as in
      OpenAPI 3.0, and no additionalProperties. `Loose` is between them, schemas written for the first and read as the
      normaliser reads them: of a list of types the first besides null counts, null is allowed if it is listed or
      `nullable`, a list of nothing but null restricts nothing, and additionalProperties is not read. */
  datatype Dialect = JsonSchema | Loose | Vertex

  predicate Nullable(m: map<string, Json>) { "nullable" in m && m["nullable"] == Bool(true) }

  function TypeNames(m: map<string, Json>): seq<string>
    requires "type" in m
  {
    if m["type"].Str? then [m["type"].s] else TypeStrings(m["type"])
  }

  /** The first type of a list besides null, or the empty text. */
  function FirstNamed(types: seq<string>): string {
    if types == [] then "" else if types[0] != "null" then types[0] else FirstNamed(types[1..])
  }

  /** A list of types that names none besides null. */
  predicate NamesNone(m: map<string, Json>) {
    "type" in m && !m["type"].Str? && FirstNamed(TypeStrings(m["type"])) == ""
  }

  /** How the normaliser reads the type keyword. */
  predicate LooseType(m: map<string, Json>, v: Value)
    requires "type" in m
  {
    if m["type"].Str? then TypeMatches(m["type"].s, v) || (Nullable(m) && v.VNull?)
    else
      var types := TypeStrings(m["type"]);
      NamesNone(m) || TypeMatches(FirstNamed(types), v) || ((Nullable(m) || "null" in types) && v.VNull?)
  }

  predicate Listed(names: seq<string>, v: Value) {
    exists i :: 0 <= i < |names| && TypeMatches(names[i], v)
  }

  predicate TypeAllows(d: Dialect, m: map<string, Json>, v: Value) {
    "type" in m ==>
      match d
      case JsonSchema => Listed(TypeNames(m), v)
      case Loose => LooseType(m, v)
      case Vertex => m["type"].Str? && (TypeMatches(Lower(m["type"].s), v) || (Nullable(m) && v.VNull?))
  }

  predicate EnumAllows(m: map<string, Json>, v: Value) {
    "enum" in m ==> v.VStr? && v.s in TypeStrings(m["enum"])
  }

  function RequiredNames(m: map<string, Json>): seq<string> {
    if "required" in m then TypeStrings(m["required"]) else []
  }

  predicate RequiredAllows(m: map<string, Json>, v: Value) {
    v.VObj? ==> forall name :: name in RequiredNames(m) ==> name in v.members
  }

  function PropertiesOf(j: Json): (properties: map<string, Json>)
    requires j.Map?
    ensures forall name :: name in properties ==> properties[name] < j
  {
    if "properties" in j.fields && j.fields["properties"].Map? then j.fields["properties"].fields else map[]
  }

  /** Whether a value is valid for a schema. Keywords other than these are ignored in every dialect. */
  predicate Valid(d: Dialect, j: Json, v: Value)
    decreases j, 1
  {
    match j
    case Bool(b) => b
    case Map(m) =>
      && TypeAllows(d, m, v) && EnumAllows(m, v) && RequiredAllows(m, v)
      && PropertiesAllow(d, j, v) && ItemsAllow(d, j, v)
      && (d.JsonSchema? ==> ExtrasAllowed(j, v))
    case _ => true
  }

  predicate PropertiesAllow(d: Dialect, j: Json, v: Value)
    requires j.Map?
    decreases j, 0
  {
    v.VObj? ==>
      forall name :: name in v.members && name in PropertiesOf(j) ==> Valid(d, PropertiesOf(j)[name], v.members[name])
  }

  predicate ItemsAllow(d: Dialect, j: Json, v: Value)
    requires j.Map?
    decreases j, 0
  {
    v.VArr? && "items" in j.fields ==>
      forall i :: 0 <= i < |v.items| ==> Valid(d, j.fields["items"], v.items[i])
  }

  predicate ExtrasAllowed(j: Json, v: Value)
    requires j.Map?
    decreases j, 0
  {
    v.VObj? && "additionalProperties" in j.fields ==>
      forall name :: name in v.members && name !in PropertiesOf(j) ==>
                       Valid(JsonSchema, j.fields["additionalProperties"], v.members[name])
  }

  // ----- normal forms read as the originals do, loosely -----

  predicate IsType(t: string) {
    || t == "null" || t == "boolean" || t == "object" || t == "array"
    || t == "number" || t == "integer" || t == "string"
  }

  predicate IsStrings(j: Json) { j.StrList? || (j.List? && forall i :: 0 <= i < |j.items| ==> j.items[i].Str?) }

  predicate KnownNames(types: seq<string>) { forall i :: 0 <= i < |types| ==> IsType(types[i]) }

  predicate SupportedType(m: map<string, Json>) {
    "type" in m ==> (m["type"].Str? || IsStrings(m["type"])) && KnownNames(TypeNames(m))
  }

  /** Keywords that hold or point to schemas `Valid` does not look into. */
  predicate HoldsSchemas(key: string) {
    || key == "allOf" || key == "anyOf" || key == "oneOf" || key == "not" || key == "if" || key == "then"
    || key == "else"
    || key == "$ref" || key == "$dynamicRef" || key == "dependentSchemas" || key == "prefixItems" || key == "contains"
    || key == "patternProperties" || key == "propertyNames" || key == "unevaluatedItems"
    || key == "unevaluatedProperties"
  }

  /** Types are known names or lists of them; enums and required names are strings; sub-schemas are found under
      properties and items only. Of additionalProperties nothing is asked. */
  predicate Supported(j: Json) {
    && j.Map?
    && SupportedType(j.fields)
    && (forall key :: key in j.fields ==> !HoldsSchemas(key))
    && ("enum" in j.fields ==> IsStrings(j.fields["enum"]))
    && ("required" in j.fields ==> IsStrings(j.fields["required"]))
    && ("items" in j.fields ==> Supported(j.fields["items"]))
    && ("properties" in j.fields ==> j.fields["properties"].Map?)
    && forall name :: name in PropertiesOf(j) ==> Supported(PropertiesOf(j)[name])
  }

  lemma KnownType(t: string)
    requires IsType(t)
    ensures Lower(NormalizeType(t)) == t && NormalizeType(t) != "" && (IsNullType(t) <==> t == "null")
  {
    NoBlanks(t);
    TypesAreLowerCase(t);
    TypesAreLowerCase("null");
    TypeIsUpperCased(t);
    CaseCollapse(t);
    assert |Upper(t)| == |t|;
  }

  lemma TypesAreLowerCase(t: string)
    requires IsType(t)
    ensures Lower(t) == t
  {
  }

  lemma NoBlanks(t: string)
    requires t != "" && !IsSpace(t[0]) && !IsSpace(t[|t| - 1])
    ensures Trim(t) == t
  {
  }

  /** Among known names, what the normaliser collapses a list to. */
  lemma {:induction false} CollapsedNames(types: seq<string>)
    requires KnownNames(types)
    ensures FirstType(types) == if FirstNamed(types) == "" then "" else NormalizeType(FirstNamed(types))
    ensures MentionsNull(types) <==> "null" in types
    ensures FirstNamed(types) == "" || (IsType(FirstNamed(types)) && FirstNamed(types) in types)
    ensures FirstNamed(types) != "null"
    ensures FirstNamed(types) == "" ==> forall t :: t in types ==> t == "null"
  {
    if types != [] {
      var rest := types[1..];
      assert forall i :: 0 <= i < |rest| ==> rest[i] == types[i + 1];
      assert types == [types[0]] + rest;
      assert IsType(types[0]);
      KnownType(types[0]);
      CollapsedNames(rest);
      MentionsEither(types);
    }
  }

  lemma MentionsEither(types: seq<string>)
    requires types != []
    ensures MentionsNull(types) <==> IsNullType(types[0]) || MentionsNull(types[1..])
  {
    if MentionsNull(types[1..]) {
      var i :| 0 <= i < |types[1..]| && IsNullType(types[1..][i]);
      assert IsNullType(types[i + 1]);
    }
    if MentionsNull(types) {
      var i :| 0 <= i < |types| && IsNullType(types[i]);
      if i > 0 { assert IsNullType(types[1..][i - 1]); }
    }
  }

  lemma {:induction false} StringsSurvive(strings: seq<string>)
    ensures StringsOf(seq(|strings|, i requires 0 <= i < |strings| => Str(strings[i]))) == strings
  {
    if strings != [] {
      var list := seq(|strings|, i requires 0 <= i < |strings| => Str(strings[i]));
      assert list[1..] == seq(|strings[1..]|, i requires 0 <= i < |strings[1..]| => Str(strings[1..][i]));
      StringsSurvive(strings[1..]);
    }
  }

  /** A list of strings says the same after normalising. */
  lemma NamesSurvive(j: Json)
    requires IsStrings(j)
    ensures TypeStrings(Normalized(j)) == TypeStrings(j)
  {
    if j.StrList? {
      StringsSurvive(j.strings);
    } else {
      assert Normalized(j).items == j.items;
    }
  }

  lemma NullableAfter(j: Json)
    requires j.Map?
    ensures Nullable(NormalizedFields(j)) <==> Nullable(j.fields) || BecomesNullable(j.fields)
  {
    var m, n := j.fields, NormalizedFields(j);
    assert "nullable" != "type" && "nullable" != "properties" && Copied("nullable");
    if !BecomesNullable(m) && "nullable" in m {
      assert "nullable" in n;
      assert n["nullable"] == CopiedField("nullable", m["nullable"]);
      assert CopiedField("nullable", m["nullable"]) == Normalized(m["nullable"]);
    }
  }

  lemma NamedTypeMeans(m: map<string, Json>, n: map<string, Json>, v: Value)
    requires "type" in m && m["type"].Str? && IsType(m["type"].s)
    requires "type" in n && n["type"] == Str(NormalizeType(m["type"].s)) && (Nullable(n) <==> Nullable(m))
    ensures TypeAllows(Vertex, n, v) <==> TypeAllows(Loose, m, v)
  {
    KnownType(m["type"].s);
  }

  lemma ListedTypeMeans(m: map<string, Json>, n: map<string, Json>, v: Value)
    requires "type" in m && !m["type"].Str? && SupportedType(m)
    requires "type" in n <==> !NamesNone(m)
    requires "type" in n ==> n["type"] == Str(NormalizeType(FirstNamed(TypeStrings(m["type"]))))
    requires Nullable(n) <==> Nullable(m) || "null" in TypeStrings(m["type"])
    ensures TypeAllows(Vertex, n, v) <==> TypeAllows(Loose, m, v)
  {
    CollapsedNames(TypeStrings(m["type"]));
    if !NamesNone(m) { KnownType(FirstNamed(TypeStrings(m["type"]))); }
  }

  lemma TypeIsListed(m: map<string, Json>)
    requires "type" in m && !m["type"].Str? && SupportedType(m)
    ensures CollapsedType(m) ==
            if NamesNone(m) then None else Some(NormalizeType(FirstNamed(TypeStrings(m["type"]))))
    ensures BecomesNullable(m) <==> "null" in TypeStrings(m["type"])
  {
    CollapsedNames(TypeStrings(m["type"]));
    if !NamesNone(m) { KnownType(FirstNamed(TypeStrings(m["type"]))); }
  }

  lemma TypeMeans(j: Json, v: Value)
    requires Supported(j)
    ensures TypeAllows(Vertex, NormalizedFields(j), v) <==> TypeAllows(Loose, j.fields, v)
  {
    NormalShape(j);
    NullableAfter(j);
    if "type" in j.fields {
      if j.fields["type"].Str? {
        assert TypeNames(j.fields)[0] == j.fields["type"].s;
        NamedTypeMeans(j.fields, NormalizedFields(j), v);
      } else {
        TypeIsListed(j.fields);
        ListedTypeMeans(j.fields, NormalizedFields(j), v);
      }
    }
  }

  /** A keyword whose value is a list of strings lists the same after normalising. */
  lemma NamesAreKept(j: Json, key: string)
    requires j.Map? && Copied(key) && key != "properties" && key != "nullable"
    requires key in j.fields ==> IsStrings(j.fields[key])
    ensures key in NormalizedFields(j) <==> key in j.fields
    ensures key in j.fields ==> TypeStrings(NormalizedFields(j)[key]) == TypeStrings(j.fields[key])
  {
    if key in j.fields {
      NamesSurvive(j.fields[key]);
      assert NormalizedFields(j)[key] == CopiedField(key, j.fields[key]);
    }
  }

  lemma EnumMeans(j: Json, v: Value)
    requires Supported(j)
    ensures EnumAllows(j.fields, v) <==> EnumAllows(NormalizedFields(j), v)
    ensures RequiredNames(j.fields) == RequiredNames(NormalizedFields(j))
  {
    NamesAreKept(j, "enum");
    NamesAreKept(j, "required");
  }

  /** The sub-schemas a normalised schema is left with. */
  lemma SubSchemas(j: Json)
    requires Supported(j)
    ensures PropertiesOf(Normalized(j)).Keys == PropertiesOf(j).Keys
    ensures forall name :: name in PropertiesOf(j) ==>
                             PropertiesOf(Normalized(j))[name] == Normalized(PropertiesOf(j)[name])
    ensures "items" in NormalizedFields(j) <==> "items" in j.fields
    ensures "items" in j.fields ==> NormalizedFields(j)["items"] == Normalized(j.fields["items"])
  {
    var m, n := j.fields, NormalizedFields(j);
    assert Copied("properties") && Copied("items") && "properties" != "nullable" && "items" != "nullable";
    assert ("properties" in n <==> "properties" in m) && ("items" in n <==> "items" in m);
    if "properties" in m {
      assert n["properties"] == CopiedField("properties", m["properties"]);
      assert CopiedField("properties", m["properties"]) == NormalizedProperties(m["properties"]);
    }
    if "items" in m {
      assert n["items"] == CopiedField("items", m["items"]);
    }
  }

  lemma {:induction false} PropertiesMean(j: Json, v: Value)
    requires Supported(j) && v.VObj?
    ensures PropertiesAllow(Vertex, Normalized(j), v) <==> PropertiesAllow(Loose, j, v)
    decreases j, 0
  {
    forall name | name in v.members && name in PropertiesOf(j)
      ensures Valid(Vertex, Normalized(PropertiesOf(j)[name]), v.members[name])
         <==> Valid(Loose, PropertiesOf(j)[name], v.members[name])
    {
      NormalFormIsLoose(PropertiesOf(j)[name], v.members[name]);
    }
    SubSchemas(j);
    PropertiesAgree(j, Normalized(j), v);
  }

  lemma PropertiesAgree(j: Json, n: Json, v: Value)
    requires j.Map? && n.Map? && v.VObj? && PropertiesOf(n).Keys == PropertiesOf(j).Keys
    requires forall name :: name in v.members && name in PropertiesOf(j) ==>
               (Valid(Vertex, PropertiesOf(n)[name], v.members[name])
                <==> Valid(Loose, PropertiesOf(j)[name], v.members[name]))
    ensures PropertiesAllow(Vertex, n, v) <==> PropertiesAllow(Loose, j, v)
  {
  }

  lemma {:induction false} ItemsMean(j: Json, v: Value)
    requires Supported(j) && v.VArr?
    ensures ItemsAllow(Vertex, Normalized(j), v) <==> ItemsAllow(Loose, j, v)
    decreases j, 0
  {
    SubSchemas(j);
    if "items" in j.fields {
      forall i | 0 <= i < |v.items|
        ensures Valid(Vertex, Normalized(j.fields["items"]), v.items[i])
                <==> Valid(Loose, j.fields["items"], v.items[i])
      {
        NormalFormIsLoose(j.fields["items"], v.items[i]);
      }
    }
  }

  /** The normal form of a supported schema accepts exactly what the schema itself accepts, read loosely. */
  lemma {:induction false} NormalFormIsLoose(j: Json, v: Value)
    requires Supported(j)
    ensures Valid(Vertex, Normalized(j), v) <==> Valid(Loose, j, v)
    decreases j, 1
  {
    TypeMeans(j, v);
    EnumMeans(j, v);
    if v.VObj? { PropertiesMean(j, v); }
    if v.VArr? { ItemsMean(j, v); }
  }
}
