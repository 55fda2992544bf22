/** The normaliser from JSON Schema to the Vertex response-schema dialect. */
module Schema {
  import opened Text

  /** Schema documents. A list of strings is kept apart from a list of anything. */
  datatype Json =
    | Null
    | Bool(b: bool)
    | Num(n: real)
    | Str(s: string)
    | StrList(strings: seq<string>)
    | List(items: seq<Json>)
    | Map(fields: map<string, Json>)

  // ----- types -----

  /** A schema type: the seven known names are spelled out, anything else is trimmed and upper-cased. */
  function NormalizeType(raw: string): string {
    var t := Lower(Trim(raw));
    if t == "object" then "OBJECT"
    else if t == "array" then "ARRAY"
    else if t == "string" then "STRING"
    else if t == "integer" then "INTEGER"
    else if t == "number" then "NUMBER"
    else if t == "boolean" then "BOOLEAN"
    else if t == "null" then "NULL"
    else Upper(Trim(raw))
  }

  predicate IsNullType(raw: string) { EqualFold(Trim(raw), "null") }

  /** The first type of a list that is neither null nor blank. */
  function FirstType(types: seq<string>): string {
    if types == [] then ""
    else if !IsNullType(types[0]) && NormalizeType(types[0]) != "" then NormalizeType(types[0])
    else FirstType(types[1..])
  }

  predicate MentionsNull(types: seq<string>) { exists i :: 0 <= i < |types| && IsNullType(types[i]) }

  method CollapseSchemaTypes(types: seq<string>) returns (schemaType: string, nullable: bool)
    ensures schemaType == FirstType(types) && nullable == MentionsNull(types)
  {
    schemaType, nullable := "", false;
    for i := 0 to |types|
      invariant nullable <==> exists k :: 0 <= k < i && IsNullType(types[k])
      invariant FirstType(types) == if schemaType != "" then schemaType else FirstType(types[i..])
    {
      assert types[i..][0] == types[i] && types[i..][1..] == types[i + 1..];
      if IsNullType(types[i]) {
        nullable := true;
      } else if schemaType == "" {
        schemaType := NormalizeType(types[i]);
      }
    }
  }

  /** The strings of a list, in order. */
  function StringsOf(items: seq<Json>): seq<string> {
    if items == [] then [] else (if items[0].Str? then [items[0].s] else []) + StringsOf(items[1..])
  }

  function TypeStrings(j: Json): seq<string> {
    match j case StrList(strings) => strings case List(items) => StringsOf(items) case _ => []
  }

  // ----- the normaliser -----

  /** The single type a schema object is left with, if any. */
  function CollapsedType(m: map<string, Json>): Option<string> {
    if "type" !in m then None
    else if m["type"].Str? then Some(NormalizeType(m["type"].s))
    else if FirstType(TypeStrings(m["type"])) != "" then Some(FirstType(TypeStrings(m["type"]))) else None
  }

  predicate BecomesNullable(m: map<string, Json>) { "type" in m && MentionsNull(TypeStrings(m["type"])) }

  function Normalized(j: Json): Json
    decreases j, 1
  {
    match j
    case StrList(strings) => List(seq(|strings|, i requires 0 <= i < |strings| => Str(strings[i])))
    case List(items) => List(seq(|items|, i requires 0 <= i < |items| => Normalized(items[i])))
    case Map(m) => Map(NormalizedFields(j))
    case _ => j
  }

  predicate Copied(key: string) { key != "type" && key != "additionalProperties" }

  function NormalizedProperties(j: Json): Json
    decreases j, 2
  {
    if j.Map? then Map(map k | k in j.fields :: Normalized(j.fields[k])) else Map(map[])
  }

  function CopiedField(key: string, value: Json): Json
    decreases value, 3
  {
    if key == "properties" then NormalizedProperties(value) else Normalized(value)
  }

  function NormalizedFields(j: Json): map<string, Json>
    requires j.Map?
    decreases j, 0
  {
    var m := j.fields;
    var copied := map k | k in m && Copied(k) :: CopiedField(k, m[k]);
    var typed := copied + if CollapsedType(m).Some? then map["type" := Str(CollapsedType(m).value)] else map[];
    if BecomesNullable(m) then typed["nullable" := Bool(true)] else typed
  }

  /** The normaliser as it runs: fresh maps and lists filled entry by entry. */
  method NormalizeSchemaValue(value: Json) returns (r: Json)
    ensures r == Normalized(value)
    decreases value, 2
  {
    match value {
      case StrList(strings) =>
        var items: seq<Json> := [];
        for i := 0 to |strings|
          invariant |items| == i && forall k :: 0 <= k < i ==> items[k] == Str(strings[k])
        {
          items := items + [Str(strings[i])];
        }
        return List(items);
      case List(list) =>
        var items: seq<Json> := [];
        for i := 0 to |list|
          invariant |items| == i && forall k :: 0 <= k < i ==> items[k] == Normalized(list[k])
        {
          var item := NormalizeSchemaValue(list[i]);
          items := items + [item];
        }
        return List(items);
      case Map(m) =>
        var fields := NormalizeSchemaMap(value);
        return Map(fields);
      case _ => return value;
    }
  }

  method NormalizeProperties(value: Json) returns (r: Json)
    ensures r == NormalizedProperties(value)
    decreases value, 3
  {
    var properties: map<string, Json> := map[];
    if value.Map? {
      var todo := value.fields.Keys;
      while todo != {}
        invariant todo <= value.fields.Keys && properties.Keys == value.fields.Keys - todo
        invariant forall k :: k in properties ==> properties[k] == Normalized(value.fields[k])
        decreases |todo|
      {
        var name :| name in todo;
        var child := NormalizeSchemaValue(value.fields[name]);
        properties := properties[name := child];
        todo := todo - {name};
      }
    }
    return Map(properties);
  }

  /** The type keyword of a schema object: one name, or none, and whether a list of types mentioned null. */
  method NormalizeTypeField(schema: map<string, Json>) returns (typed: map<string, Json>, nullable: bool)
    ensures typed == if CollapsedType(schema).Some? then map["type" := Str(CollapsedType(schema).value)] else map[]
    ensures nullable == BecomesNullable(schema)
  {
    typed, nullable := map[], false;
    if "type" in schema {
      match schema["type"] {
        case Str(text) => typed := map["type" := Str(NormalizeType(text))];
        case _ =>
          var schemaType, collapsed := CollapseSchemaTypes(TypeStrings(schema["type"]));
          if schemaType != "" { typed := map["type" := Str(schemaType)]; }
          nullable := collapsed;
      }
    }
  }

  method NormalizeField(key: string, value: Json) returns (r: Json)
    ensures r == CopiedField(key, value)
    decreases value, 4
  {
    if key == "properties" {
      r := NormalizeProperties(value);
    } else {
      r := NormalizeSchemaValue(value);
    }
  }

  function CopiedFields(m: map<string, Json>, keys: set<string>): map<string, Json> {
    map k | k in m && k in keys && Copied(k) :: CopiedField(k, m[k])
  }

  lemma OneMoreField(m: map<string, Json>, done: set<string>, key: string)
    requires key in m
    ensures CopiedFields(m, done + {key}) ==
            if Copied(key) then CopiedFields(m, done)[key := CopiedField(key, m[key])] else CopiedFields(m, done)
  {
  }

  /** Every other keyword that is kept: all but the type and additionalProperties. */
  method CopyFields(value: Json) returns (copied: map<string, Json>)
    requires value.Map?
    ensures copied == CopiedFields(value.fields, value.fields.Keys)
    decreases value, 0
  {
    copied := map[];
    var todo, done := value.fields.Keys, {};
    while todo != {}
      invariant todo + done == value.fields.Keys
      invariant copied == CopiedFields(value.fields, done)
      decreases |todo|
    {
      var key :| key in todo;
      OneMoreField(value.fields, done, key);
      todo, done := todo - {key}, done + {key};
      if !Copied(key) { continue; }
      var field := NormalizeField(key, value.fields[key]);
      copied := copied[key := field];
    }
  }

  lemma FieldsAreCopied(m: map<string, Json>)
    ensures CopiedFields(m, m.Keys) == map k | k in m && Copied(k) :: CopiedField(k, m[k])
  {
  }

  method NormalizeSchemaMap(value: Json) returns (normalized: map<string, Json>)
    requires value.Map?
    ensures normalized == NormalizedFields(value)
    decreases value, 1
  {
    var typed, nullable := NormalizeTypeField(value.fields);
    var copied := CopyFields(value);
    FieldsAreCopied(value.fields);
    normalized := copied + typed;
    if nullable { normalized := normalized["nullable" := Bool(true)]; }
  }

  /** A schema object keeps its keywords but type and additionalProperties, and keeps every plain value as it is; only a
      list of types that mentions null sets nullable. */
  lemma KeywordsAreKept(j: Json, key: string)
    requires j.Map? && key != "type" && key != "properties"
    requires key == "nullable" ==> !BecomesNullable(j.fields)
    ensures key in NormalizedFields(j) <==> key in j.fields && key != "additionalProperties"
    ensures key in NormalizedFields(j) && (j.fields[key].Null? || j.fields[key].Bool? || j.fields[key].Num?
                                           || j.fields[key].Str?) ==>
              NormalizedFields(j)[key] == j.fields[key]
  {
    if key in NormalizedFields(j) {
      assert NormalizedFields(j)[key] == CopiedField(key, j.fields[key]);
      assert CopiedField(key, j.fields[key]) == Normalized(j.fields[key]);
    }
  }

  // ----- normalising twice is normalising once -----

  lemma UpperLower(s: string)
    ensures Upper(Lower(s)) == Upper(s)
  {
  }

  /** The table of known names only spells out upper-casing. */
  lemma TypeIsUpperCased(raw: string)
    ensures NormalizeType(raw) == Upper(Trim(raw))
  {
    UpperLower(Trim(raw));
    assert Upper("object") == "OBJECT" && Upper("array") == "ARRAY" && Upper("string") == "STRING";
    assert Upper("integer") == "INTEGER" && Upper("number") == "NUMBER";
    assert Upper("boolean") == "BOOLEAN" && Upper("null") == "NULL";
  }

  lemma TypeIdempotent(raw: string)
    ensures NormalizeType(NormalizeType(raw)) == NormalizeType(raw)
  {
    TypeIsUpperCased(raw);
    TypeIsUpperCased(NormalizeType(raw));
    CaseTrimCommute(Trim(raw));
    TrimIdempotent(raw);
    CaseCollapse(Trim(raw));
  }

  lemma {:induction false} FirstTypeIsNormal(types: seq<string>)
    ensures NormalizeType(FirstType(types)) == FirstType(types) || FirstType(types) == ""
  {
    if types != [] {
      TypeIdempotent(types[0]);
      FirstTypeIsNormal(types[1..]);
    }
  }

  lemma CollapsedTypeIsNormal(m: map<string, Json>)
    ensures CollapsedType(m).Some? ==> NormalizeType(CollapsedType(m).value) == CollapsedType(m).value
  {
    if "type" in m {
      if m["type"].Str? { TypeIdempotent(m["type"].s); }
      FirstTypeIsNormal(TypeStrings(m["type"]));
    }
  }

  /** Normalising is idempotent on every document. */
  lemma {:induction false} NormalizeIdempotent(j: Json)
    ensures Normalized(Normalized(j)) == Normalized(j)
    decreases j, 1
  {
    match j
    case List(items) =>
      forall i | 0 <= i < |items|
        ensures Normalized(Normalized(items[i])) == Normalized(items[i])
      {
        NormalizeIdempotent(items[i]);
      }
    case Map(_) => FieldsIdempotent(j);
    case _ =>
  }

  lemma {:induction false} PropertiesIdempotent(j: Json)
    ensures NormalizedProperties(NormalizedProperties(j)) == NormalizedProperties(j)
    decreases j, 2
  {
    if j.Map? {
      forall k | k in j.fields
        ensures Normalized(Normalized(j.fields[k])) == Normalized(j.fields[k])
      {
        NormalizeIdempotent(j.fields[k]);
      }
    }
  }

  lemma {:induction false} FieldsIdempotent(j: Json)
    requires j.Map?
    ensures NormalizedFields(Map(NormalizedFields(j))) == NormalizedFields(j)
    decreases j, 0
  {
    var m, n := j.fields, NormalizedFields(j);
    CollapsedTypeIsNormal(m);
    forall k | k in n && Copied(k)
      ensures n[k] == CopiedField(k, n[k])
    {
      if k == "nullable" && BecomesNullable(m) {
      } else {
        FieldIdempotent(k, m[k]);
      }
    }
    NormalShape(j);
    FieldsAreKept(n);
  }

  lemma {:induction false} FieldIdempotent(key: string, j: Json)
    ensures CopiedField(key, CopiedField(key, j)) == CopiedField(key, j)
    decreases j, 3
  {
    if key == "properties" { PropertiesIdempotent(j); } else { NormalizeIdempotent(j); }
  }

  lemma NormalShape(j: Json)
    requires j.Map?
    ensures var n := NormalizedFields(j);
            && "additionalProperties" !in n
            && ("type" in n <==> CollapsedType(j.fields).Some?)
            && ("type" in n ==> n["type"] == Str(CollapsedType(j.fields).value))
  {
  }

  /** Fields that no longer change, with at most one normal type name, are all kept. */
  lemma FieldsAreKept(n: map<string, Json>)
    requires "additionalProperties" !in n
    requires "type" in n ==> n["type"].Str? && NormalizeType(n["type"].s) == n["type"].s
    requires forall k :: k in n && Copied(k) ==> n[k] == CopiedField(k, n[k])
    ensures NormalizedFields(Map(n)) == n
  {
  }
}
