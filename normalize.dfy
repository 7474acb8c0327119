/**
  The heuristic argument normaliser applied to every tool call before it is
  sent: null optional arguments are dropped, and arguments whose declared
  type is `array` or `string` are coerced into that shape.
*/
module Normalizer {
  import opened Wrappers
  import opened Json
  import opened SchemaBridge

  // ---------------------------------------------------------------------------
  // Specification
  // ---------------------------------------------------------------------------

  /** The copy of the input without the null values of keys that are not required. */
  function StripNulls(input: Body, required: set<string>): (m: Body)
    ensures forall k :: k in m <==> k in input && (input[k] != JNull || k in required)
    ensures forall k :: k in m ==> m[k] == input[k]
  {
    map k | k in input && (input[k] != JNull || k in required) :: input[k]
  }

  /**
    One argument after coercion to its declared `type`; None when the key is
    dropped. Null is left alone; an `array` gets any non-list wrapped; a
    `string` gets `str` of the first element of a non-empty list, loses the
    key on an empty list, and gets `str` of any other non-string.
  */
  function Coerced(v: Json, expected: Json, render: Json -> string): (r: Option<Json>)
    ensures v == JNull ==> r == Some(v)
    ensures expected == JStr("array") && v != JNull ==> r == Some(if v.JArr? then v else JArr([v]))
    ensures expected == JStr("string") && v.JArr? && v.items != [] ==> r == Some(JStr(PyStr(v.items[0], render)))
    ensures expected == JStr("string") && v == JArr([]) ==> r == None
    ensures expected == JStr("string") && v != JNull && !v.JArr? ==> r == Some(JStr(PyStr(v, render)))
    ensures expected != JStr("array") && expected != JStr("string") ==> r == Some(v)
  {
    if v == JNull then Some(v)
    else if expected == JStr("array") then
      if v.JArr? then Some(v) else Some(JArr([v]))
    else if expected == JStr("string") then
      if v.JArr? && |v.items| > 0 then Some(JStr(PyStr(v.items[0], render)))
      else if v.JArr? then None
      else if !v.JStr? then Some(JStr(PyStr(v, render)))
      else Some(v)
    else Some(v)
  }

  /** The argument `k` after the coercion pass: undeclared keys are kept as they are. */
  function CoerceKey(m: Body, props: Body, k: string, render: Json -> string): Option<Json>
    requires k in m
    requires k in props ==> props[k].JObj?
  {
    if k in props then Coerced(m[k], Get(props[k].fields, "type"), render) else Some(m[k])
  }

  /** Whether some declared argument that is present has a schema that is not a dict. */
  predicate BadDeclared(m: Body, props: Body) {
    exists k :: k in props && k in m && !props[k].JObj?
  }

  /** The coercion pass over every argument. */
  function ApplyCoercions(m: Body, props: Body, render: Json -> string): Body
    requires !BadDeclared(m, props)
  {
    map k | k in m && CoerceKey(m, props, k, render).Some? :: CoerceKey(m, props, k, render).value
  }

  /**
    `_normalize_input`, as a value. A schema that is not a dict, a `required`
    that is not a set of names, `properties` that are not a dict, or a
    declared argument with a non-dict schema is a Python exception.
  */
  function NormalizeSpec(input: Body, schema: Json, render: Json -> string): (r: Result<Body, Fault>)
    ensures !schema.JObj? ==> r.Failure?
    ensures schema.JObj? && Get(schema.fields, "type") != JStr("object") ==> r == Success(input)
  {
    if !schema.JObj? then Failure(AttributeFault)
    else if Get(schema.fields, "type") != JStr("object") then Success(input)
    else
      var required :- RequiredNames(GetOr(schema.fields, "required", JArr([])));
      var props := GetOr(schema.fields, "properties", JObj(map[]));
      if !props.JObj? then Failure(AttributeFault)
      else
        var stripped := StripNulls(input, required);
        if BadDeclared(stripped, props.fields) then Failure(AttributeFault)
        else Success(ApplyCoercions(stripped, props.fields, render))
  }

  /** The pieces of an object schema the normaliser reads, when they have the right shape. */
  predicate ObjectSchema(schema: Json) {
    && schema.JObj?
    && Get(schema.fields, "type") == JStr("object")
    && RequiredNames(GetOr(schema.fields, "required", JArr([]))).Success?
    && GetOr(schema.fields, "properties", JObj(map[])).JObj?
  }

  function Required(schema: Json): set<string>
    requires ObjectSchema(schema)
  {
    RequiredNames(GetOr(schema.fields, "required", JArr([]))).value
  }

  function Properties(schema: Json): Body
    requires ObjectSchema(schema)
  {
    GetOr(schema.fields, "properties", JObj(map[])).fields
  }

  // ---------------------------------------------------------------------------
  // The imperative normaliser
  // ---------------------------------------------------------------------------

  /** Every visited declared argument that is present has a dict schema. */
  predicate VisitedWellShaped(m: Body, props: Body, done: set<string>) {
    forall k :: k in done && k in m && k in props ==> props[k].JObj?
  }

  /** The coercion pass after the declared keys in `done` have been visited. */
  function Partial(m: Body, props: Body, done: set<string>, render: Json -> string): Body
    requires VisitedWellShaped(m, props, done)
  {
    map k | k in m && (k in done && k in props ==> CoerceKey(m, props, k, render).Some?) ::
      if k in done && k in props then CoerceKey(m, props, k, render).value else m[k]
  }

  /**
    The normaliser as the source writes it: copy the input, collect the
    keys to remove, delete them, then visit every declared property and
    overwrite or delete its argument. The input map is a value and is not
    changed.
  */
  method Normalize(input: Body, schema: Json, render: Json -> string) returns (r: Result<Body, Fault>)
    ensures r == NormalizeSpec(input, schema, render)
  {
    if !schema.JObj? {
      return Failure(AttributeFault);
    }
    if Get(schema.fields, "type") != JStr("object") {
      return Success(input);
    }
    var props := GetOr(schema.fields, "properties", JObj(map[]));
    var requiredOrFault := RequiredNames(GetOr(schema.fields, "required", JArr([])));
    if requiredOrFault.Failure? {
      return Failure(requiredOrFault.error);
    }
    var required := requiredOrFault.value;
    var result := input;
    var keysToRemove := NullOptionals(result, required);
    result := RemoveKeys(result, keysToRemove);
    assert result == StripNulls(input, required);
    if !props.JObj? {
      return Failure(AttributeFault);
    }
    r := CoerceDeclared(result, props.fields, render);
  }

  /** The keys whose value is null and which are not required, in some iteration order. */
  method NullOptionals(m: Body, required: set<string>) returns (keys: seq<string>)
    ensures forall k :: k in keys <==> k in m && m[k] == JNull && k !in required
  {
    keys := [];
    var pending := m.Keys;
    while pending != {}
      invariant pending <= m.Keys
      invariant forall k :: k in keys <==> k in m && k !in pending && m[k] == JNull && k !in required
      decreases |pending|
    {
      var key :| key in pending;
      if m[key] == JNull && key !in required {
        keys := keys + [key];
      }
      pending := pending - {key};
    }
  }

  /** `del m[k]` for every collected key. */
  method RemoveKeys(m: Body, keys: seq<string>) returns (res: Body)
    ensures res == map k | k in m && k !in keys :: m[k]
  {
    res := m;
    var i := 0;
    while i < |keys|
      invariant 0 <= i <= |keys|
      invariant res == map k | k in m && k !in keys[..i] :: m[k]
    {
      res := res - {keys[i]};
      i := i + 1;
    }
    assert keys[..i] == keys;
  }

  /** The loop over the declared properties; a present argument with a non-dict schema raises. */
  method CoerceDeclared(m: Body, props: Body, render: Json -> string) returns (r: Result<Body, Fault>)
    ensures r.Failure? <==> BadDeclared(m, props)
    ensures r.Failure? ==> r == Failure(AttributeFault)
    ensures r.Success? ==> !BadDeclared(m, props) && r.value == ApplyCoercions(m, props, render)
  {
    var result := m;
    var todo := props.Keys;
    ghost var done: set<string> := {};
    while todo != {}
      invariant todo !! done && todo + done == props.Keys
      invariant VisitedWellShaped(m, props, done)
      invariant result == Partial(m, props, done, render)
      decreases |todo|
    {
      var key :| key in todo;
      if key in result {
        if !props[key].JObj? {
          return Failure(AttributeFault);
        }
        result := CoerceArgument(result, key, Get(props[key].fields, "type"), render);
      }
      PartialStep(m, props, done, key, render);
      todo := todo - {key};
      done := done + {key};
    }
    PartialComplete(m, props, render);
    return Success(result);
  }

  /** The coercion branches for one present argument, updating or deleting it in place. */
  method CoerceArgument(result: Body, key: string, expected: Json, render: Json -> string) returns (res: Body)
    requires key in result
    ensures Coerced(result[key], expected, render).Some? ==> res == result[key := Coerced(result[key], expected, render).value]
    ensures Coerced(result[key], expected, render).None? ==> res == result - {key}
  {
    res := result;
    var value := result[key];
    if value == JNull {
    } else if expected == JStr("array") {
      if !value.JArr? {
        res := res[key := JArr([value])];
      }
    } else if expected == JStr("string") {
      if value.JArr? && |value.items| > 0 {
        res := res[key := JStr(PyStr(value.items[0], render))];
      } else if value.JArr? {
        res := res - {key};
      } else if !value.JStr? {
        res := res[key := JStr(PyStr(value, render))];
      }
    }
  }

  /** Visiting one more declared key updates or deletes exactly that key. */
  lemma PartialStep(m: Body, props: Body, done: set<string>, key: string, render: Json -> string)
    requires VisitedWellShaped(m, props, done) && key in props && key !in done
    requires key in m ==> props[key].JObj?
    ensures VisitedWellShaped(m, props, done + {key})
    ensures var before := Partial(m, props, done, render);
      var after := Partial(m, props, done + {key}, render);
      && (key !in m ==> after == before)
      && (key in m && CoerceKey(m, props, key, render).Some? ==> after == before[key := CoerceKey(m, props, key, render).value])
      && (key in m && CoerceKey(m, props, key, render).None? ==> after == before - {key})
  {
  }

  /** Having visited every declared key, the pass is the whole coercion pass. */
  lemma PartialComplete(m: Body, props: Body, render: Json -> string)
    requires !BadDeclared(m, props)
    ensures Partial(m, props, props.Keys, render) == ApplyCoercions(m, props, render)
  {
  }

  // ---------------------------------------------------------------------------
  // Properties
  // ---------------------------------------------------------------------------

  /** Null arguments that are not required are removed; null arguments that are required are kept. */
  lemma NullHandling(input: Body, schema: Json, render: Json -> string, k: string)
    requires ObjectSchema(schema)
    requires NormalizeSpec(input, schema, render).Success?
    requires k in input && input[k] == JNull
    ensures var out := NormalizeSpec(input, schema, render).value;
      (k in out <==> k in Required(schema)) && (k in out ==> out[k] == JNull)
  {
  }

  /** Arguments the schema does not declare pass through untouched, unless they are null and optional. */
  lemma UndeclaredPassThrough(input: Body, schema: Json, render: Json -> string, k: string)
    requires ObjectSchema(schema)
    requires NormalizeSpec(input, schema, render).Success?
    requires k in input && k !in Properties(schema) && (input[k] != JNull || k in Required(schema))
    ensures var out := NormalizeSpec(input, schema, render).value;
      k in out && out[k] == input[k]
  {
  }

  /** The normaliser never adds an argument. */
  lemma NoNewKeys(input: Body, schema: Json, render: Json -> string)
    requires NormalizeSpec(input, schema, render).Success?
    ensures NormalizeSpec(input, schema, render).value.Keys <= input.Keys
  {
  }

  /** A non-null argument declared `array` ends up a list: itself when it was one, else wrapped. */
  lemma ArrayCoercion(input: Body, schema: Json, render: Json -> string, k: string)
    requires ObjectSchema(schema)
    requires NormalizeSpec(input, schema, render).Success?
    requires k in input && input[k] != JNull && k in Properties(schema)
    requires Properties(schema)[k].JObj? && Get(Properties(schema)[k].fields, "type") == JStr("array")
    ensures var out := NormalizeSpec(input, schema, render).value;
      k in out && out[k] == (if input[k].JArr? then input[k] else JArr([input[k]]))
  {
  }

  /**
    A non-null argument declared `string`: a non-empty list becomes `str` of
    its first element, an empty list removes the key, any other value
    becomes `str` of itself (the identity on strings).
  */
  lemma StringCoercion(input: Body, schema: Json, render: Json -> string, k: string)
    requires ObjectSchema(schema)
    requires NormalizeSpec(input, schema, render).Success?
    requires k in input && input[k] != JNull && k in Properties(schema)
    requires Properties(schema)[k].JObj? && Get(Properties(schema)[k].fields, "type") == JStr("string")
    ensures var out := NormalizeSpec(input, schema, render).value;
      && (input[k].JArr? && input[k].items != [] ==> k in out && out[k] == JStr(PyStr(input[k].items[0], render)))
      && (input[k] == JArr([]) ==> k !in out)
      && (!input[k].JArr? ==> k in out && out[k] == JStr(PyStr(input[k], render)))
  {
  }

  /** Coercing an already coerced argument changes nothing. */
  lemma CoercedIdempotent(v: Json, expected: Json, render: Json -> string)
    requires Coerced(v, expected, render).Some?
    ensures Coerced(Coerced(v, expected, render).value, expected, render) == Coerced(v, expected, render)
  {
  }

  /** Normalising twice is normalising once. */
  lemma NormalizeIdempotent(input: Body, schema: Json, render: Json -> string)
    requires NormalizeSpec(input, schema, render).Success?
    ensures var out := NormalizeSpec(input, schema, render).value;
      NormalizeSpec(out, schema, render) == Success(out)
  {
    var out := NormalizeSpec(input, schema, render).value;
    if ObjectSchema(schema) {
      var required, props := Required(schema), Properties(schema);
      var stripped := StripNulls(input, required);
      assert out == ApplyCoercions(stripped, props, render);
      // Coercion never produces null, so the only nulls left are required ones.
      forall k | k in out && out[k] == JNull
        ensures k in required
      {
        if k in props {
          assert Coerced(stripped[k], Get(props[k].fields, "type"), render).value == JNull;
        }
      }
      assert StripNulls(out, required) == out;
      assert !BadDeclared(out, props);
      forall k | k in out
        ensures CoerceKey(out, props, k, render) == Some(out[k])
      {
        if k in props {
          CoercedIdempotent(stripped[k], Get(props[k].fields, "type"), render);
        }
      }
      assert ApplyCoercions(out, props, render) == out;
    }
  }
}
