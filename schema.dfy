/**
  The bridge from a tool's JSON Schema (draft-07 validation keywords `type`,
  `enum`, `items`, `properties`, `required`) to the argument model handed to
  the agent framework: a type descriptor per schema and a table of fields with
  their type, whether they are mandatory, their default and their description.
  Where the Python code would raise (a `.get` on a non-dict, iterating a
  number), the model returns a Fault.
*/
module SchemaBridge {
  import opened Wrappers
  import opened Json

  /** The Python types `_get_python_type` can return. */
  datatype PyType =
    | StrT
    | FloatT
    | IntT
    | BoolT
    | NoneT
    | ListT(item: PyType)
    | DictT                          // dict[str, Any], never expanded further
    | AnyT
    | LiteralT(values: set<Json>)    // Literal[...] compares by the set of its values
    | OptionalT(inner: PyType)       // T | None

  const AttributeFault := Fault("AttributeError: object has no attribute 'get'")
  const IterFault := Fault("TypeError: object is not iterable")
  const HashFault := Fault("TypeError: unhashable type")

  /** The seven `type` names the mapping recognises. */
  const KnownTypes: set<Json> :=
    {JStr("string"), JStr("number"), JStr("integer"), JStr("boolean"), JStr("null"), JStr("array"), JStr("object")}

  /** Whether `tuple(v)` / `set(v)` can iterate `v`: lists, strings and dicts. */
  predicate Iterable(v: Json) {
    v.JArr? || v.JStr? || v.JObj?
  }

  /** The values `tuple(v)` yields: list elements, the characters of a string, or a dict's keys. */
  function EnumValues(v: Json): (r: Result<set<Json>, Fault>)
    ensures r.Success? <==> Iterable(v)
    ensures v.JArr? ==> r.value == set x | x in v.items
    ensures v.JObj? ==> r.value == set k | k in v.fields :: JStr(k)
    ensures v.JStr? ==> forall x :: x in r.value <==> exists i :: 0 <= i < |v.s| && x == JStr([v.s[i]])
  {
    match v
    case JArr(xs) => Success(set x | x in xs)
    case JStr(s) => Success(set i | 0 <= i < |s| :: JStr([s[i]]))
    case JObj(m) => Success(set k | k in m :: JStr(k))
    case _ => Failure(IterFault)
  }

  /**
    `_get_python_type`. The `enum` test comes before the `type` test, so an
    enumeration wins whatever its type; an array without `items` has item type
    Any, because the default `{}` maps to Any.
  */
  function PythonType(schema: Json): (r: Result<PyType, Fault>)
    ensures !schema.JObj? ==> r == Failure(AttributeFault)
    ensures schema.JObj? && "enum" in schema.fields ==>
      && (r.Success? <==> Iterable(schema.fields["enum"]))
      && (r.Success? ==> r.value == LiteralT(EnumValues(schema.fields["enum"]).value))
    ensures schema.JObj? && "enum" !in schema.fields ==>
      var t := Get(schema.fields, "type");
      && (t == JStr("string") ==> r == Success(StrT))
      && (t == JStr("number") ==> r == Success(FloatT))
      && (t == JStr("integer") ==> r == Success(IntT))
      && (t == JStr("boolean") ==> r == Success(BoolT))
      && (t == JStr("null") ==> r == Success(NoneT))
      && (t == JStr("object") ==> r == Success(DictT))
      && (t == JStr("array") && "items" !in schema.fields ==> r == Success(ListT(AnyT)))
      && (t == JStr("array") && "items" in schema.fields ==>
            && (r.Success? <==> PythonType(schema.fields["items"]).Success?)
            && (r.Success? ==> r.value == ListT(PythonType(schema.fields["items"]).value)))
      && (t !in KnownTypes ==> r == Success(AnyT))
    decreases schema
  {
    match schema
    case JObj(f) =>
      if "enum" in f then
        match EnumValues(f["enum"])
        case Success(vs) => Success(LiteralT(vs))
        case Failure(e) => Failure(e)
      else
        var t := Get(f, "type");
        if t == JStr("string") then Success(StrT)
        else if t == JStr("number") then Success(FloatT)
        else if t == JStr("integer") then Success(IntT)
        else if t == JStr("boolean") then Success(BoolT)
        else if t == JStr("null") then Success(NoneT)
        else if t == JStr("array") then
          // `schema.get("items", {})`: the default `{}` maps to Any (EmptySchemaIsAny).
          if "items" in f then
            var item :- PythonType(f["items"]);
            Success(ListT(item))
          else Success(ListT(AnyT))
        else if t == JStr("object") then Success(DictT)
        else Success(AnyT)
    case _ => Failure(AttributeFault)
  }

  /** The default `items` schema `{}` maps to Any. */
  lemma EmptySchemaIsAny()
    ensures PythonType(JObj(map[])) == Success(AnyT)
  {
  }

  /**
    When the mapping succeeds, stated independently of it: the schema is a
    dict, an enumeration is iterable, and a list's `items` schema (when given,
    and only when no enumeration overrides it) succeeds in turn.
  */
  predicate WellShaped(schema: Json)
    decreases schema
  {
    && schema.JObj?
    && ("enum" in schema.fields ==> Iterable(schema.fields["enum"]))
    && ("enum" !in schema.fields && Get(schema.fields, "type") == JStr("array") && "items" in schema.fields ==>
          WellShaped(schema.fields["items"]))
  }

  /** The mapping fails exactly on schemas that are not well shaped; on all others it returns a type. */
  lemma {:induction false} PythonTypeTotal(schema: Json)
    ensures PythonType(schema).Success? <==> WellShaped(schema)
    decreases schema
  {
    if schema.JObj? && "enum" !in schema.fields && Get(schema.fields, "type") == JStr("array") && "items" in schema.fields {
      PythonTypeTotal(schema.fields["items"]);
    }
  }

  /** The list nesting of a type: how many `array` levels were mapped. */
  function ListDepth(t: PyType): nat {
    if t.ListT? then 1 + ListDepth(t.item) else 0
  }

  /** Number of nested `array`-typed `items` schemas below a schema (enumerations stop the descent). */
  function ArrayDepth(schema: Json): nat
    decreases schema
  {
    if schema.JObj? && "enum" !in schema.fields && Get(schema.fields, "type") == JStr("array") && "items" in schema.fields
    then 1 + ArrayDepth(schema.fields["items"])
    else if schema.JObj? && "enum" !in schema.fields && Get(schema.fields, "type") == JStr("array") then 1
    else 0
  }

  /** The mapping follows `items` exactly as deep as the schema nests arrays. */
  lemma {:induction false} PythonTypeDepth(schema: Json)
    requires PythonType(schema).Success?
    ensures ListDepth(PythonType(schema).value) == ArrayDepth(schema)
    decreases schema
  {
    if schema.JObj? && "enum" !in schema.fields && Get(schema.fields, "type") == JStr("array") && "items" in schema.fields {
      PythonTypeDepth(schema.fields["items"]);
      var item := PythonType(schema.fields["items"]).value;
      assert PythonType(schema).value == ListT(item);
    }
  }

  // ---------------------------------------------------------------------------
  // Required names
  // ---------------------------------------------------------------------------

  /**
    The string members of `set(v)`, which is all that a membership test
    with a property name can find. A list holding a list or a dict cannot be
    put in a set; a number, a boolean or null cannot be iterated.
  */
  function RequiredNames(v: Json): (r: Result<set<string>, Fault>)
    ensures r.Success? <==> Iterable(v) && (v.JArr? ==> forall x :: x in v.items ==> !x.JArr? && !x.JObj?)
    ensures r.Success? && v.JArr? ==> forall k :: k in r.value <==> JStr(k) in v.items
    ensures r.Success? && v.JObj? ==> r.value == v.fields.Keys
    ensures r.Success? && v.JStr? ==> forall k :: k in r.value <==> exists i :: 0 <= i < |v.s| && k == [v.s[i]]
  {
    match v
    case JArr(xs) =>
      if exists x :: x in xs && (x.JArr? || x.JObj?) then Failure(HashFault)
      else Success(set x | x in xs && x.JStr? :: x.s)
    case JStr(s) => Success(set i | 0 <= i < |s| :: [s[i]])
    case JObj(m) => Success(m.Keys)
    case _ => Failure(IterFault)
  }

  // ---------------------------------------------------------------------------
  // Field table (the argument model)
  // ---------------------------------------------------------------------------

  /** One model field: its type, whether it must be given, its default and its description. */
  datatype Field = Field(ty: PyType, mandatory: bool, default: Option<Json>, description: Option<Json>)

  type Model = map<string, Field>

  /** `T | None`; `NoneType | None` is `NoneType` itself. */
  function Nullable(t: PyType): PyType {
    if t == NoneT then NoneT else OptionalT(t)
  }

  /** The description a field carries: the property's `description`, when truthy. */
  function DescriptionOf(propSchema: Body): (d: Option<Json>)
    ensures d.Some? <==> "description" in propSchema && Truthy(propSchema["description"])
    ensures d.Some? ==> d.value == propSchema["description"]
  {
    var description := GetOr(propSchema, "description", JStr(""));
    if Truthy(description) then Some(description) else None
  }

  function FieldFor(propSchema: Json, required: bool): (f: Field)
    requires PythonType(propSchema).Success?
  {
    var t := PythonType(propSchema).value;
    if required then Field(t, true, None, DescriptionOf(propSchema.fields))
    else Field(Nullable(t), false, Some(JNull), DescriptionOf(propSchema.fields))
  }

  /**
    `json_schema_to_pydantic` as a field table. A non-object schema becomes a
    single mandatory field `value`; an object schema has one field per
    property, mandatory exactly when listed in `required`, otherwise nullable
    with default None.
  */
  function ModelOf(schema: Json): (r: Result<Model, Fault>)
    ensures !schema.JObj? ==> r.Failure?
    ensures schema.JObj? && Get(schema.fields, "type") != JStr("object") ==>
      && (r.Success? <==> PythonType(schema).Success?)
      && (r.Success? ==> r.value == map["value" := Field(PythonType(schema).value, true, None, None)])
    ensures r.Success? && Get(schema.fields, "type") == JStr("object") ==>
      var props := GetOr(schema.fields, "properties", JObj(map[]));
      var req := RequiredNames(GetOr(schema.fields, "required", JArr([])));
      && props.JObj? && req.Success?
      && r.value.Keys == props.fields.Keys
      && forall k :: k in r.value ==>
           var t := PythonType(props.fields[k]);
           && t.Success? && props.fields[k].JObj?
           && (r.value[k].mandatory <==> k in req.value)
           && r.value[k].description == DescriptionOf(props.fields[k].fields)
           && (r.value[k].mandatory ==> r.value[k].ty == t.value && r.value[k].default == None)
           && (!r.value[k].mandatory ==> r.value[k].default == Some(JNull))
           && (!r.value[k].mandatory && t.value == NoneT ==> r.value[k].ty == NoneT)
           && (!r.value[k].mandatory && t.value != NoneT ==> r.value[k].ty == OptionalT(t.value))
  {
    if !schema.JObj? then Failure(AttributeFault)
    else if Get(schema.fields, "type") != JStr("object") then
      var t :- PythonType(schema);
      Success(map["value" := Field(t, true, None, None)])
    else
      var props := GetOr(schema.fields, "properties", JObj(map[]));
      var req :- RequiredNames(GetOr(schema.fields, "required", JArr([])));
      if !props.JObj? then Failure(AttributeFault)
      else if exists k :: k in props.fields && PythonType(props.fields[k]).Failure? then
        Failure(AttributeFault)
      else
        Success(map k | k in props.fields :: FieldFor(props.fields[k], k in req))
  }

  /** An object schema builds a model exactly when its parts are well shaped. */
  lemma ModelOfSucceeds(schema: Json)
    requires schema.JObj? && Get(schema.fields, "type") == JStr("object")
    ensures ModelOf(schema).Success? <==>
      var props := GetOr(schema.fields, "properties", JObj(map[]));
      && RequiredNames(GetOr(schema.fields, "required", JArr([]))).Success?
      && props.JObj?
      && forall k :: k in props.fields ==> WellShaped(props.fields[k])
  {
    var props := GetOr(schema.fields, "properties", JObj(map[]));
    if props.JObj? {
      forall k | k in props.fields {
        PythonTypeTotal(props.fields[k]);
      }
    }
  }
}
