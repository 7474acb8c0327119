/**
  The tool adaptation layer: the per-tool invoker with its shared session
  map and its outcome dispatch, the catalog loader that turns the server's
  tool definitions into tools, and the single dynamic tool constructor.
*/
module Tools {
  import opened Wrappers
  import opened Json
  import opened Client
  import opened SchemaBridge
  import opened Normalizer
  import opened ToolNames

  const DELIVERED_ACK := "Content delivered directly to user"

  /** Content the server hands straight to the user, bypassing the agent. */
  datatype PassthroughContent = PassthroughContent(contentType: Json, content: Json, metadata: Json)

  /**
    The shared `trik id -> session id` table. One object is handed to every
    tool of a catalog, so a session opened by one tool is continued by the
    others of the same trik.
  */
  class Sessions {
    var tokens: map<string, Json>

    constructor ()
      ensures tokens == map[]
    {
      tokens := map[];
    }
  }

  /** What a tool is built from: its local name, description, argument model, gateway name, trik id and input schema. */
  datatype ToolSpec = ToolSpec(
    name: string,
    description: Json,
    argsSchema: Option<Model>,
    gatewayName: string,
    trikId: string,
    inputSchema: Json)

  /** A tool as the agent sees it, with the session table and passthrough callback its closure captured. */
  datatype Tool = Tool(spec: ToolSpec, sessions: Sessions, hasCallback: bool)

  /** A failure to build the argument model leaves the tool without one. */
  function MakeSpec(gatewayName: string, description: Json, inputSchema: Json): (t: ToolSpec)
    ensures t.name == ToToolName(gatewayName) && t.gatewayName == gatewayName
    ensures t.trikId == TrikIdOf(gatewayName)
    ensures t.argsSchema.Some? <==> ModelOf(inputSchema).Success?
    ensures t.argsSchema.Some? ==> t.argsSchema.value == ModelOf(inputSchema).value
    ensures t.description == description && t.inputSchema == inputSchema
  {
    ToolSpec(ToToolName(gatewayName), description, ModelOf(inputSchema).ToOption(), gatewayName, TrikIdOf(gatewayName), inputSchema)
  }

  // ---------------------------------------------------------------------------
  // The invoker
  // ---------------------------------------------------------------------------

  /** A response's truthy `sessionId` is stored for the trik, overwriting any earlier one. */
  function SessionAfter(tokens: map<string, Json>, trikId: string, body: Body): (t: map<string, Json>)
    ensures Truthy(Get(body, "sessionId")) ==> t == tokens[trikId := body["sessionId"]]
    ensures !Truthy(Get(body, "sessionId")) ==> t == tokens
  {
    if Truthy(Get(body, "sessionId")) then tokens[trikId := body["sessionId"]] else tokens
  }

  /** What the tool returns to the agent, and the content it delivered to the user, if any. */
  datatype ToolReply = ToolReply(result: Json, delivered: Option<PassthroughContent>)

  /** The dispatch of a server response, with the content reference it fetched, if any. */
  datatype Dispatched = Dispatched(outcome: Result<ToolReply, Fault>, fetchedRef: Option<Json>)

  function Ack(): Json {
    Obj2("success", JBool(true), "delivered", JStr(DELIVERED_ACK))
  }

  /**
    The passthrough branch. The acknowledgement is returned whatever happens
    to the content; the callback fires only when a reference was given, the
    content was fetched and carries truthy `content`, and a callback exists.
    A content payload that is not a dict makes the callback's `.get` raise.
  */
  function Passthrough(body: Body, contentReply: HttpReply, hasCallback: bool): (d: Dispatched)
    ensures d.fetchedRef.Some? <==> Truthy(Get(body, "userContentRef"))
    ensures d.fetchedRef.Some? ==> d.fetchedRef.value == body["userContentRef"]
    ensures d.outcome.Success? ==> d.outcome.value.result == Ack()
    ensures d.outcome.Failure? <==>
      && Truthy(Get(body, "userContentRef")) && hasCallback
      && GetContent(contentReply).Some? && Truthy(Get(GetContent(contentReply).value, "content"))
      && !GetContent(contentReply).value["content"].JObj?
    ensures d.outcome.Success? && d.outcome.value.delivered.Some? <==>
      && Truthy(Get(body, "userContentRef")) && hasCallback
      && GetContent(contentReply).Some? && Truthy(Get(GetContent(contentReply).value, "content"))
      && GetContent(contentReply).value["content"].JObj?
    ensures d.outcome.Success? && d.outcome.value.delivered.Some? ==>
      var data := GetContent(contentReply).value["content"].fields;
      var p := d.outcome.value.delivered.value;
      && p.contentType == GetOr(data, "contentType", GetOr(body, "contentType", JStr("text/plain")))
      && p.content == GetOr(data, "content", JStr(""))
      && p.metadata == Get(data, "metadata")
  {
    var contentRef := Get(body, "userContentRef");
    var contentType := GetOr(body, "contentType", JStr("text/plain"));
    if !Truthy(contentRef) then Dispatched(Success(ToolReply(Ack(), None)), None)
    else
      var fetched := GetContent(contentReply);
      if fetched.Some? && Truthy(Get(fetched.value, "content")) then
        var data := fetched.value["content"];
        if !hasCallback then Dispatched(Success(ToolReply(Ack(), None)), Some(contentRef))
        else if !data.JObj? then Dispatched(Failure(AttributeFault), Some(contentRef))
        else
          var delivered := PassthroughContent(
            GetOr(data.fields, "contentType", contentType),
            GetOr(data.fields, "content", JStr("")),
            Get(data.fields, "metadata"));
          Dispatched(Success(ToolReply(Ack(), Some(delivered))), Some(contentRef))
      else Dispatched(Success(ToolReply(Ack(), None)), Some(contentRef))
  }

  /**
    The outcome dispatch of `tool_func`, in the order the source tests:
    a truthy `error` first, then the `passthrough` and `template` response
    modes, and otherwise the raw response.
  */
  function Dispatch(body: Body, contentReply: HttpReply, hasCallback: bool): (d: Dispatched)
    ensures Truthy(Get(body, "error")) ==>
      d == Dispatched(Success(ToolReply(Obj2("success", JBool(false), "error", body["error"]), None)), None)
    ensures !Truthy(Get(body, "error")) && Get(body, "responseMode") == JStr("passthrough") ==>
      d == Passthrough(body, contentReply, hasCallback)
    ensures !Truthy(Get(body, "error")) && Get(body, "responseMode") == JStr("template") ==>
      d == Dispatched(Success(ToolReply(Obj2("success", JBool(true), "response", GetOr(body, "response", JStr(""))), None)), None)
    ensures Get(body, "responseMode") != JStr("passthrough") ==> d.outcome.Success? && d.outcome.value.delivered.None? && d.fetchedRef.None?
    ensures !Truthy(Get(body, "error")) && Get(body, "responseMode") != JStr("passthrough") && Get(body, "responseMode") != JStr("template") ==>
      d.outcome == Success(ToolReply(JObj(body), None))
  {
    if Truthy(Get(body, "error")) then
      Dispatched(Success(ToolReply(Obj2("success", JBool(false), "error", GetOr(body, "error", JStr("Unknown error"))), None)), None)
    else if Get(body, "responseMode") == JStr("passthrough") then
      Passthrough(body, contentReply, hasCallback)
    else if Get(body, "responseMode") == JStr("template") then
      Dispatched(Success(ToolReply(Obj2("success", JBool(true), "response", GetOr(body, "response", JStr(""))), None)), None)
    else
      Dispatched(Success(ToolReply(JObj(body), None)), None)
  }

  /** One call of a tool: its outcome, the session table afterwards, and the requests it sent. */
  datatype Invocation = Invocation(
    outcome: Result<ToolReply, Fault>,
    tokens: map<string, Json>,
    executed: Option<Body>,
    fetchedRef: Option<Json>)

  /** The input schema the invoker normalises against: `input_schema or {}`. */
  function InvokerSchema(inputSchema: Json): Json {
    if Truthy(inputSchema) then inputSchema else JObj(map[])
  }

  /**
    A tool without an input schema passes its arguments through untouched;
    a tool with one is normalised against exactly that schema.
  */
  lemma InvokerSchemaNormalizes(kwargs: Body, inputSchema: Json, render: Json -> string)
    ensures !Truthy(inputSchema) ==> NormalizeSpec(kwargs, InvokerSchema(inputSchema), render) == Success(kwargs)
    ensures Truthy(inputSchema) ==> NormalizeSpec(kwargs, InvokerSchema(inputSchema), render) == NormalizeSpec(kwargs, inputSchema, render)
  {
  }

  /**
    `tool_func` as a value: normalise (an exception escapes), send the
    execute request with the trik's stored session id, then either report
    the client error or store the new session id and dispatch.
  */
  function InvokeSpec(tokens: map<string, Json>, spec: ToolSpec, hasCallback: bool, kwargs: Body,
                      executeReply: HttpReply, contentReply: HttpReply, render: Json -> string): Invocation
  {
    match NormalizeSpec(kwargs, InvokerSchema(spec.inputSchema), render)
    case Failure(e) => Invocation(Failure(e), tokens, None, None)
    case Success(normalized) =>
      var payload := ExecutePayload(spec.gatewayName, normalized, Get(tokens, spec.trikId));
      match Classify(executeReply)
      case Failure(err) =>
        Invocation(Success(ToolReply(Obj2("success", JBool(false), "error", JStr(err.Text(render))), None)),
                   tokens, Some(payload), None)
      case Success(body) =>
        var d := Dispatch(body, contentReply, hasCallback);
        Invocation(d.outcome, SessionAfter(tokens, spec.trikId, body), Some(payload), d.fetchedRef)
  }

  /**
    Invokes a tool. Mutates the shared session table in place; the
    passthrough delivery is returned to the caller, which plays the callback.
  */
  method Invoke(client: TrikHubClient, tool: Tool, kwargs: Body, executeReply: HttpReply,
                contentReply: HttpReply, render: Json -> string)
    returns (r: Result<ToolReply, Fault>, sent: seq<HttpRequest>)
    modifies tool.sessions
    ensures var inv := InvokeSpec(old(tool.sessions.tokens), tool.spec, tool.hasCallback, kwargs, executeReply, contentReply, render);
      && r == inv.outcome
      && tool.sessions.tokens == inv.tokens
      && sent == (if inv.executed.None? then [] else [client.RequestFor("POST", API_EXECUTE, Some(inv.executed.value))])
                 + (if inv.fetchedRef.None? then [] else [client.RequestFor("GET", API_CONTENT + "/" + PyStr(inv.fetchedRef.value, render), None)])
  {
    sent := [];
    var normalized := Normalize(kwargs, InvokerSchema(tool.spec.inputSchema), render);
    if normalized.Failure? {
      return Failure(normalized.error), sent;
    }
    var sessionId := Get(tool.sessions.tokens, tool.spec.trikId);
    var request, reply := client.Execute(tool.spec.gatewayName, normalized.value, sessionId, executeReply);
    sent := sent + [request];
    if reply.Failure? {
      r := Success(ToolReply(Obj2("success", JBool(false), "error", JStr(reply.error.Text(render))), None));
      return;
    }
    var result := reply.value;
    if Truthy(Get(result, "sessionId")) {
      tool.sessions.tokens := tool.sessions.tokens[tool.spec.trikId := result["sessionId"]];
    }
    var d := Dispatch(result, contentReply, tool.hasCallback);
    if d.fetchedRef.Some? {
      sent := sent + [client.RequestFor("GET", API_CONTENT + "/" + PyStr(d.fetchedRef.value, render), None)];
    }
    r := d.outcome;
  }

  // ---------------------------------------------------------------------------
  // Properties of the invoker
  // ---------------------------------------------------------------------------

  /** The request carries the trik's stored session id, and only when it is truthy. */
  lemma SessionContinuity(tokens: map<string, Json>, spec: ToolSpec, hasCallback: bool, kwargs: Body,
                          executeReply: HttpReply, contentReply: HttpReply, render: Json -> string)
    requires InvokeSpec(tokens, spec, hasCallback, kwargs, executeReply, contentReply, render).executed.Some?
    ensures var payload := InvokeSpec(tokens, spec, hasCallback, kwargs, executeReply, contentReply, render).executed.value;
      && ("sessionId" in payload <==> spec.trikId in tokens && Truthy(tokens[spec.trikId]))
      && ("sessionId" in payload ==> payload["sessionId"] == tokens[spec.trikId])
      && payload["tool"] == JStr(spec.gatewayName)
  {
  }

  /**
    A truthy `sessionId` is stored before the error check, so an error
    response that opens a session still records it.
  */
  lemma SessionStoredEvenOnError(tokens: map<string, Json>, spec: ToolSpec, hasCallback: bool, kwargs: Body,
                                 status: int, body: Body, contentReply: HttpReply, render: Json -> string)
    requires NormalizeSpec(kwargs, InvokerSchema(spec.inputSchema), render).Success?
    requires status < 400 && Truthy(Get(body, "sessionId")) && Truthy(Get(body, "error"))
    ensures var inv := InvokeSpec(tokens, spec, hasCallback, kwargs, Response(status, body), contentReply, render);
      && inv.tokens == tokens[spec.trikId := body["sessionId"]]
      && inv.outcome == Success(ToolReply(Obj2("success", JBool(false), "error", body["error"]), None))
  {
  }

  /** Entries of other triks are never touched; the trik's own entry only changes to a truthy session id. */
  lemma OtherSessionsUnchanged(tokens: map<string, Json>, spec: ToolSpec, hasCallback: bool, kwargs: Body,
                               executeReply: HttpReply, contentReply: HttpReply, render: Json -> string, other: string)
    requires other != spec.trikId
    ensures var t := InvokeSpec(tokens, spec, hasCallback, kwargs, executeReply, contentReply, render).tokens;
      && (other in t <==> other in tokens)
      && (other in t ==> t[other] == tokens[other])
      && (spec.trikId in t && (spec.trikId !in tokens || t[spec.trikId] != tokens[spec.trikId]) ==> Truthy(t[spec.trikId]))
  {
  }

  /**
    Every error the client raises is caught and reported to the agent
    as an unsuccessful result carrying the error text; the session table is
    left as it was.
  */
  lemma ClientErrorsCaught(tokens: map<string, Json>, spec: ToolSpec, hasCallback: bool, kwargs: Body,
                           executeReply: HttpReply, contentReply: HttpReply, render: Json -> string)
    requires NormalizeSpec(kwargs, InvokerSchema(spec.inputSchema), render).Success?
    requires Classify(executeReply).Failure?
    ensures var inv := InvokeSpec(tokens, spec, hasCallback, kwargs, executeReply, contentReply, render);
      && IsSubclass(Classify(executeReply).error.Class(), ClientErrorClass)
      && inv.outcome == Success(ToolReply(Obj2("success", JBool(false), "error", JStr(Classify(executeReply).error.Text(render))), None))
      && inv.tokens == tokens
      && inv.fetchedRef.None?
  {
    EveryErrorIsClientError(Classify(executeReply).error);
  }

  /** A passthrough response always acknowledges delivery, whether or not anything was delivered. */
  lemma PassthroughAlwaysAcknowledged(body: Body, contentReply: HttpReply, hasCallback: bool)
    requires !Truthy(Get(body, "error")) && Get(body, "responseMode") == JStr("passthrough")
    requires Dispatch(body, contentReply, hasCallback).outcome.Success?
    ensures Dispatch(body, contentReply, hasCallback).outcome.value.result
         == Obj2("success", JBool(true), "delivered", JStr("Content delivered directly to user"))
  {
  }

  /** Without a callback nothing is delivered, and the content is still fetched (and so consumed). */
  lemma NoCallbackNoDelivery(body: Body, contentReply: HttpReply)
    requires Get(body, "responseMode") == JStr("passthrough")
    ensures var d := Dispatch(body, contentReply, false);
      && d.outcome.Success? && d.outcome.value.delivered.None?
      && (!Truthy(Get(body, "error")) ==> (d.fetchedRef.Some? <==> Truthy(Get(body, "userContentRef"))))
  {
  }

  // ---------------------------------------------------------------------------
  // The catalog loader
  // ---------------------------------------------------------------------------

  /** A schema table entry, as `tool_schemas[local_name]` records it. */
  datatype SchemaEntry = SchemaEntry(originalName: Json, schema: Json)

  /** What `load_trik_tools` returns. */
  datatype TrikToolsResult = TrikToolsResult(
    tools: seq<Tool>,
    toolSchemas: map<string, SchemaEntry>,
    loadedTriks: seq<Json>,
    sessions: Sessions)

  /**
    The elements a `for` loop visits, when they are all touched with `.get`:
    a list's elements; an empty dict or string yields nothing; a non-empty
    dict or string yields a string, whose `.get` raises; anything else cannot
    be iterated.
  */
  function Elements(v: Json): (r: Result<seq<Json>, Fault>)
    ensures v.JArr? ==> r == Success(v.items)
    ensures r.Success? <==> v.JArr? || v == JObj(map[]) || v == JStr("")
    ensures r.Success? && !v.JArr? ==> r.value == []
  {
    match v
    case JArr(xs) => Success(xs)
    case JObj(m) => if m == map[] then Success([]) else Failure(AttributeFault)
    case JStr(s) => if s == "" then Success([]) else Failure(AttributeFault)
    case _ => Failure(IterFault)
  }

  /** `[trik.get("id", "") for trik in triks]`. */
  function TrikIds(triks: seq<Json>): (r: Result<seq<Json>, Fault>)
    ensures r.Success? <==> forall i :: 0 <= i < |triks| ==> triks[i].JObj?
    ensures r.Success? ==> |r.value| == |triks|
    ensures r.Success? ==> forall i :: 0 <= i < |triks| ==> r.value[i] == GetOr(triks[i].fields, "id", JStr(""))
  {
    if triks == [] then Success([])
    else if !triks[0].JObj? then Failure(AttributeFault)
    else
      var rest :- TrikIds(triks[1..]);
      Success([GetOr(triks[0].fields, "id", JStr(""))] + rest)
  }

  /**
    The loop body for one tool definition: None when the name is falsy
    (skipped); a name that is truthy but not a string makes the string
    operations raise.
  */
  function SpecOf(def: Json): (r: Result<Option<ToolSpec>, Fault>)
    ensures r.Success? && r.value.Some? ==>
      && def.JObj? && "name" in def.fields && def.fields["name"].JStr? && def.fields["name"].s != ""
      && r.value.value == MakeSpec(def.fields["name"].s, GetOr(def.fields, "description", JStr("No description")),
                                   GetOr(def.fields, "inputSchema", JObj(map[])))
    ensures r.Success? && r.value.None? <==> def.JObj? && !Truthy(Get(def.fields, "name"))
    ensures r.Failure? <==> !def.JObj? || (Truthy(Get(def.fields, "name")) && !Get(def.fields, "name").JStr?)
  {
    if !def.JObj? then Failure(AttributeFault)
    else
      var name := GetOr(def.fields, "name", JStr(""));
      if !Truthy(name) then Success(None)
      else if !name.JStr? then Failure(IterFault)
      else Success(Some(MakeSpec(name.s,
                                 GetOr(def.fields, "description", JStr("No description")),
                                 GetOr(def.fields, "inputSchema", JObj(map[])))))
  }

  /** The tools built from a list of definitions, in order, skipping falsy names; a left fold, as the loop runs. */
  function Catalog(defs: seq<Json>): Result<seq<ToolSpec>, Fault>
  {
    if defs == [] then Success([])
    else
      var before :- Catalog(defs[..|defs| - 1]);
      var one :- SpecOf(defs[|defs| - 1]);
      Success(before + (if one.Some? then [one.value] else []))
  }

  /** The schema table after recording the given tools in order; a later tool with the same local name wins. */
  function SchemaTable(specs: seq<ToolSpec>): map<string, SchemaEntry>
  {
    if specs == [] then map[]
    else
      var t := specs[|specs| - 1];
      SchemaTable(specs[..|specs| - 1])[t.name := SchemaEntry(JStr(t.gatewayName), t.inputSchema)]
  }

  /** How many definitions a catalog keeps: those with a truthy name. */
  function NamedCount(defs: seq<Json>): nat {
    if defs == [] then 0
    else NamedCount(defs[..|defs| - 1]) + (if defs[|defs| - 1].JObj? && Truthy(Get(defs[|defs| - 1].fields, "name")) then 1 else 0)
  }

  /** The values `load_trik_tools` computes, without the session table object. */
  datatype Loaded = Loaded(specs: seq<ToolSpec>, toolSchemas: map<string, SchemaEntry>, loadedTriks: seq<Json>)

  /**
    `load_trik_tools` as a value: either listing call failing with a client
    error gives the empty result; an exception from the definitions escapes.
  */
  function LoadSpec(toolsReply: HttpReply, triksReply: HttpReply): (r: Result<Loaded, Fault>)
    ensures Classify(toolsReply).Failure? || Classify(triksReply).Failure? ==> r == Success(Loaded([], map[], []))
  {
    match (ListField(toolsReply, "tools"), ListField(triksReply, "triks"))
    case (Success(serverTools), Success(triks)) =>
      var trikList :- Elements(triks);
      var ids :- TrikIds(trikList);
      var defs :- Elements(serverTools);
      var specs :- Catalog(defs);
      Success(Loaded(specs, SchemaTable(specs), ids))
    case _ => Success(Loaded([], map[], []))
  }

  /** The tools a catalog load produced, as specifications. */
  function Specs(tools: seq<Tool>): (r: seq<ToolSpec>)
    ensures |r| == |tools| && forall i :: 0 <= i < |tools| ==> r[i] == tools[i].spec
  {
    if tools == [] then [] else Specs(tools[..|tools| - 1]) + [tools[|tools| - 1].spec]
  }

  /**
    `load_trik_tools`. Every tool it builds captures the same fresh, empty
    session table, which the result also carries.
  */
  method LoadTrikTools(client: TrikHubClient, toolsReply: HttpReply, triksReply: HttpReply, hasCallback: bool)
    returns (r: Result<TrikToolsResult, Fault>)
    ensures r.Success? <==> LoadSpec(toolsReply, triksReply).Success?
    ensures r.Success? ==>
      var l := LoadSpec(toolsReply, triksReply).value;
      && Specs(r.value.tools) == l.specs
      && r.value.toolSchemas == l.toolSchemas
      && r.value.loadedTriks == l.loadedTriks
      && fresh(r.value.sessions) && r.value.sessions.tokens == map[]
      && forall t :: t in r.value.tools ==> t.sessions == r.value.sessions && t.hasCallback == hasCallback
  {
    var serverTools := ListField(toolsReply, "tools");
    var triks := ListField(triksReply, "triks");
    if serverTools.Failure? || triks.Failure? {
      var empty := new Sessions();
      return Success(TrikToolsResult([], map[], [], empty));
    }
    var trikList := Elements(triks.value);
    if trikList.Failure? {
      return Failure(trikList.error);
    }
    var ids := TrikIds(trikList.value);
    if ids.Failure? {
      return Failure(ids.error);
    }
    var sessions := new Sessions();
    var defs := Elements(serverTools.value);
    if defs.Failure? {
      return Failure(defs.error);
    }
    var tools, toolSchemas := BuildTools(defs.value, sessions, hasCallback);
    if tools.Failure? {
      return Failure(tools.error);
    }
    return Success(TrikToolsResult(tools.value, toolSchemas, ids.value, sessions));
  }

  /**
    The loop of `load_trik_tools` over the tool definitions: every kept
    definition becomes a tool sharing `sessions`, and its schema is recorded
    under its local name.
  */
  method BuildTools(defs: seq<Json>, sessions: Sessions, hasCallback: bool)
    returns (r: Result<seq<Tool>, Fault>, toolSchemas: map<string, SchemaEntry>)
    ensures r.Success? <==> Catalog(defs).Success?
    ensures r.Success? ==>
      && Specs(r.value) == Catalog(defs).value
      && toolSchemas == SchemaTable(Catalog(defs).value)
      && forall t :: t in r.value ==> t.sessions == sessions && t.hasCallback == hasCallback
  {
    var tools: seq<Tool> := [];
    toolSchemas := map[];
    var i := 0;
    while i < |defs|
      invariant 0 <= i <= |defs|
      invariant Catalog(defs[..i]).Success?
      invariant Specs(tools) == Catalog(defs[..i]).value
      invariant toolSchemas == SchemaTable(Specs(tools))
      invariant forall t :: t in tools ==> t.sessions == sessions && t.hasCallback == hasCallback
    {
      var one := SpecOf(defs[i]);
      CatalogSnoc(defs, i);
      if one.Failure? {
        CatalogFailurePersists(defs, i + 1);
        return Failure(one.error), toolSchemas;
      }
      if one.value.Some? {
        var tool := Tool(one.value.value, sessions, hasCallback);
        toolSchemas := toolSchemas[tool.spec.name := SchemaEntry(JStr(tool.spec.gatewayName), tool.spec.inputSchema)];
        RecordTool(tools, tool);
        tools := tools + [tool];
      }
      i := i + 1;
    }
    assert defs[..i] == defs;
    return Success(tools), toolSchemas;
  }

  /** The catalog of one more definition extends the catalog before it. */
  lemma CatalogSnoc(defs: seq<Json>, i: nat)
    requires i < |defs|
    ensures Catalog(defs[..i + 1]) ==
      match Catalog(defs[..i])
      case Failure(e) => Failure(e)
      case Success(before) =>
        match SpecOf(defs[i])
        case Failure(e) => Failure(e)
        case Success(one) => Success(before + (if one.Some? then [one.value] else []))
  {
    assert defs[..i + 1][..i] == defs[..i];
  }

  /** Recording one more tool appends its spec and records its schema under its local name. */
  lemma RecordTool(tools: seq<Tool>, tool: Tool)
    ensures Specs(tools + [tool]) == Specs(tools) + [tool.spec]
    ensures SchemaTable(Specs(tools + [tool])) ==
      SchemaTable(Specs(tools))[tool.spec.name := SchemaEntry(JStr(tool.spec.gatewayName), tool.spec.inputSchema)]
  {
    assert (tools + [tool])[..|tools|] == tools;
    assert (Specs(tools) + [tool.spec])[..|tools|] == Specs(tools);
  }

  /** An exception in one definition aborts the whole load. */
  lemma {:induction false} CatalogFailurePersists(defs: seq<Json>, n: nat)
    requires n <= |defs| && Catalog(defs[..n]).Failure?
    ensures Catalog(defs).Failure?
    decreases |defs| - n
  {
    if n < |defs| {
      assert defs[..n + 1][..n] == defs[..n];
      CatalogFailurePersists(defs, n + 1);
    } else {
      assert defs[..n] == defs;
    }
  }

  // ---------------------------------------------------------------------------
  // Properties of the loader
  // ---------------------------------------------------------------------------

  /** Exactly the definitions with a truthy name become tools; each is named by the local form of its gateway name. */
  lemma {:induction false} CatalogKeepsNamed(defs: seq<Json>)
    requires Catalog(defs).Success?
    ensures |Catalog(defs).value| == NamedCount(defs)
    ensures forall t :: t in Catalog(defs).value ==>
      t.gatewayName != "" && t.name == ToToolName(t.gatewayName) && t.trikId == TrikIdOf(t.gatewayName)
  {
    if defs != [] {
      CatalogKeepsNamed(defs[..|defs| - 1]);
    }
  }

  /** The load of the definitions succeeds iff every definition is a dict whose name, when truthy, is a string. */
  lemma {:induction false} CatalogSucceeds(defs: seq<Json>)
    ensures Catalog(defs).Success? <==>
      forall i :: 0 <= i < |defs| ==>
        defs[i].JObj? && (Truthy(Get(defs[i].fields, "name")) ==> Get(defs[i].fields, "name").JStr?)
  {
    if defs != [] {
      var init := defs[..|defs| - 1];
      CatalogSucceeds(init);
      assert forall i :: 0 <= i < |init| ==> init[i] == defs[i];
    }
  }

  /** Each entry of the schema table was recorded from a tool with that local name; every tool has one. */
  lemma {:induction false} SchemaTableEntries(specs: seq<ToolSpec>)
    ensures forall i :: 0 <= i < |specs| ==> specs[i].name in SchemaTable(specs)
    ensures forall k :: k in SchemaTable(specs) ==>
      exists i :: 0 <= i < |specs| && specs[i].name == k && SchemaTable(specs)[k] == SchemaEntry(JStr(specs[i].gatewayName), specs[i].inputSchema)
  {
    if specs != [] {
      var init := specs[..|specs| - 1];
      var last := specs[|specs| - 1];
      SchemaTableEntries(init);
      var table := SchemaTable(specs);
      forall k | k in table
        ensures exists i :: 0 <= i < |specs| && specs[i].name == k && table[k] == SchemaEntry(JStr(specs[i].gatewayName), specs[i].inputSchema)
      {
        if k == last.name {
          assert specs[|specs| - 1] == last;
        } else {
          var j :| 0 <= j < |init| && init[j].name == k && SchemaTable(init)[k] == SchemaEntry(JStr(init[j].gatewayName), init[j].inputSchema);
          assert specs[j] == init[j];
        }
      }
    }
  }

  /** For the tools a load builds, every schema entry's original name maps to the key it is stored under. */
  lemma SchemaTableRecordsOriginal(specs: seq<ToolSpec>)
    requires forall i :: 0 <= i < |specs| ==> specs[i].name == ToToolName(specs[i].gatewayName)
    ensures forall k :: k in SchemaTable(specs) ==>
      SchemaTable(specs)[k].originalName.JStr? && ToToolName(SchemaTable(specs)[k].originalName.s) == k
  {
    SchemaTableEntries(specs);
  }

  /** A schema that fails to build an argument model leaves that one tool without one, and the load goes on. */
  lemma ModelFailureDoesNotAbort(defs: seq<Json>, def: Json)
    requires Catalog(defs).Success? && def.JObj? && "name" in def.fields && def.fields["name"].JStr? && def.fields["name"].s != ""
    requires ModelOf(GetOr(def.fields, "inputSchema", JObj(map[]))).Failure?
    ensures Catalog(defs + [def]).Success?
    ensures var specs := Catalog(defs + [def]).value;
      && |specs| == |Catalog(defs).value| + 1
      && specs[|specs| - 1].argsSchema.None?
  {
    assert (defs + [def])[..|defs + [def]| - 1] == defs;
  }

  /** The trik ids are listed in server order, with `""` for a trik without one. */
  lemma LoadedTriksInOrder(toolsReply: HttpReply, triksReply: HttpReply)
    requires LoadSpec(toolsReply, triksReply).Success?
    requires Classify(toolsReply).Success? && Classify(triksReply).Success?
    requires GetOr(triksReply.body, "triks", JArr([])).JArr?
    ensures var triks := GetOr(triksReply.body, "triks", JArr([])).items;
      var ids := LoadSpec(toolsReply, triksReply).value.loadedTriks;
      && |ids| == |triks|
      && forall i :: 0 <= i < |triks| ==> triks[i].JObj? && ids[i] == GetOr(triks[i].fields, "id", JStr(""))
  {
  }

  // ---------------------------------------------------------------------------
  // A single dynamic tool
  // ---------------------------------------------------------------------------

  /**
    `create_dynamic_tool`. `sessions or {}` keeps the caller's table only
    when it is non-empty: an empty one is replaced by a fresh one the caller
    never sees, so sessions opened by the tool are not shared.
  */
  method CreateDynamicTool(name: string, description: string, inputSchema: Json, sessions: Option<Sessions>, hasCallback: bool)
    returns (t: Tool)
    ensures t.spec == MakeSpec(name, JStr(description), inputSchema) && t.hasCallback == hasCallback
    ensures sessions.Some? && sessions.value.tokens != map[] ==> t.sessions == sessions.value
    ensures sessions.None? || sessions.value.tokens == map[] ==>
      fresh(t.sessions) && t.sessions.tokens == map[] && (sessions.Some? ==> t.sessions != sessions.value)
  {
    var table: Sessions;
    if sessions.Some? && sessions.value.tokens != map[] {
      table := sessions.value;
    } else {
      table := new Sessions();
    }
    t := Tool(MakeSpec(name, JStr(description), inputSchema), table, hasCallback);
  }
}
