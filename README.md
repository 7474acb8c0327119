# TrikHub conversation agent for Home Assistant: a Dafny model

This project models the core of the TrikHub integration for Home Assistant.
The integration is a conversation agent that answers a user's turn with a
language model, and the model can call "trik" tools served by a TrikHub
gateway. The project has three layers:

- **The HTTP client** (`client.py`). It holds the base URL and Bearer
  credential, classifies a reply by its status into data or one of three
  client error classes, and builds the execute payload. It also holds the
  partial percent-encoding of an uninstall name and the conversion to the LLM
  tool format. The transport is not modelled: every HTTP reply is an input
  value.
- **The tool adaptation layer** (`tools.py`). It has:
  - the mapping from a JSON Schema fragment to a Python type descriptor;
  - the argument model derived from it, as a table of fields;
  - the sanitiser of tool names and its lossy inverse;
  - the heuristic argument normaliser;
  - the per-tool invoker, with its shared `trik id -> session id` table and
    its outcome dispatch into error, passthrough, template and raw modes;
  - the catalog loader;
  - the constructor of a single dynamic tool.
- **The conversation entity** (`conversation.py`). It has:
  - a passthrough slot that the tools' callback fills and reply assembly
    empties;
  - a per-conversation history table;
  - the agent/tools graph loop, bounded by the graph runner's recursion limit;
  - the assembly of the spoken reply;
  - the catch-all that speaks any error.

The modules are:

- `Wrappers`: Option, Result, and Fault, which models a Python exception.
- `Json`: JSON values, truthiness, `dict.get`, and `str()`.
- `Strings`: `replace`, `rstrip`, `split("__")` and `split(":")[0]`.
- `ToolNames`: the name mapping.
- `Client`: the HTTP client's pure parts.
- `SchemaBridge`: the schema-to-type mapping and the field table.
- `Normalizer`: the argument normaliser.
- `Tools`: the invoker, the loader and the dynamic tool.
- `Conversation`: the entity.

The source's stateful parts are imperative Dafny:

- The normaliser's copy, collect, delete and coerce loops are a method,
  `Normalizer.Normalize`. It is proved equal to the value-level
  `Normalizer.NormalizeSpec`.
- The invoker's in-place update of the shared session table is a method,
  `Tools.Invoke`, on a `Sessions` object.
- The loader is `Tools.LoadTrikTools`, and its loop over the definitions is
  `Tools.BuildTools`. Every tool they build shares one fresh `Sessions`
  object.
- The entity is a class whose methods update its slot, history, graph, tools
  and model. The methods that touch only some fields say which in their
  frames. `Process`, `ReloadTools` and `AddedToHass` may change any field,
  and their postconditions state every field's new value.

Python exceptions that escape the modelled code become a `Fault`. Examples
are `.get` on a non-dict, iterating a number, and `len()` of an integer.

The language model and the tool node are oracles, passed in as functions.
`str()` of a non-string is an uninterpreted `render` parameter. The fresh
conversation id is also a parameter.

On `_from_tool_name` the docstring and the code disagree. The docstring at
`custom_components/trikhub/tools.py:132` claims
`molefas_article_search__list` maps to `article-search:list`. The code maps it
to `molefas-article-search:list`. The model follows the code: see
`ToolNames.FromToolNameShape`.

`create_dynamic_tool` uses `sessions or {}` (`tools.py:465`). A caller's
*empty* table is therefore replaced by a fresh table that is not shared.
`Tools.CreateDynamicTool` states this.

## Model

| member | source | states |
|---|---|---|
| Strings.ReplaceChar | custom_components/trikhub/tools.py:120-125 | `str.replace` with a one-character pattern: the pattern is gone when the replacement does not contain it, and text without the pattern is unchanged |
| Strings.RStrip | custom_components/trikhub/client.py:51 | `rstrip("/")` gives a prefix that does not end in the character, and only that character was removed |
| Strings.BeforeFirst | custom_components/trikhub/tools.py:383 | `split(c)[0]` is the longest prefix without `c`; it is shorter than the text exactly when `c` occurs, and then `c` follows it |
| Strings.SplitDunder | custom_components/trikhub/tools.py:136 | the reference definition of `split("__")` that `SplitDunderAt`, `FromToolNameSplit` and `RoundTrip` are proved against; it always yields at least one part |
| Strings.SplitDunderAt | custom_components/trikhub/tools.py:136-137 | `split("__")` of `a + "__" + b` is `[a, b]` when neither part holds `__` and `a` does not end in `_` |
| ToolNames.TrikIdOf | custom_components/trikhub/tools.py:383 | the trik id is the text before the first `:`, or the whole name when there is no `:`; it never holds `:` |
| ToolNames.ToToolName | custom_components/trikhub/tools.py:113-125 | the reference definition of `_to_tool_name`, the chained replacements that the `ToToolName...`, `ScopedLocal`, `UnscopedLocal`, `ColonJoin` and round-trip lemmas below are proved against |
| ToolNames.ToToolNameIsPlain | custom_components/trikhub/tools.py:113-125 | for every gateway name, the local name contains no `@`, `/`, `-` or `:` |
| ToolNames.ToToolNameAppend | custom_components/trikhub/tools.py:120-125 | the chained replacements act piece by piece: the local name of a concatenation is the concatenation of the local names |
| ToolNames.ToToolNameShape | custom_components/trikhub/tools.py:113-125 | `@scope/w1-w2:action` becomes `scope_w1_w2__action` for all plain pieces; the documented `@molefas/article-search:list` example is one instance |
| ToolNames.ScopedTrikLocal | custom_components/trikhub/tools.py:120-123 | the trik part `@scope/w1-w2` becomes `scope_w1_w2` |
| ToolNames.ScopedLocal | custom_components/trikhub/tools.py:120-125 | `@group/x:act` becomes `group_x__act` |
| ToolNames.UnscopedLocal | custom_components/trikhub/tools.py:120-125 | `group-x:act` becomes `group_x__act` |
| ToolNames.ColonJoin | custom_components/trikhub/tools.py:124 | the `:` between trik and action becomes `__` and each side is converted on its own |
| ToolNames.ToToolNameNotInjective | custom_components/trikhub/tools.py:113-125 | two different gateway names, one with the `@`/`/` of a scope and one without, have the same local name, so no exact inverse can exist |
| ToolNames.FromToolName | custom_components/trikhub/tools.py:128-141 | the reference definition of `_from_tool_name` that `FromToolNameSplit`, `FromToolNameShape`, `LossyRoundTrip` and `RoundTrip` are proved against |
| ToolNames.FromToolNameSplit | custom_components/trikhub/tools.py:136-140 | with exactly two `__` parts, the first part's `_` become `-`, then a `:`, then the untouched second part |
| ToolNames.FromToolNameShape | custom_components/trikhub/tools.py:128-141 | `scope_trik__action` maps back to `scope-trik:action` and keeps the scope (the code, not its docstring) |
| ToolNames.LossyRoundTrip | custom_components/trikhub/tools.py:113-141 | converting `@group/x:act` there and back gives `group-x:act`: the `@` is lost and the `/` comes back as `-` |
| ToolNames.RoundTrip | custom_components/trikhub/tools.py:113-141 | in general, when the local trik part holds no `__` and does not end in `_` and the local action holds no `__`, the way back splits at the converted `:` |
| Client.EveryErrorIsClientError | custom_components/trikhub/client.py:23-32 | the connection and auth errors are subclasses of the client error class, so one `except TrikHubClientError` catches every error the client raises |
| Client.Classify | custom_components/trikhub/client.py:101-123 | the result is the body iff the reply is below 400. 401 is the auth error "Authentication failed" and 403 the auth error "Access forbidden". Any other status of 400 or more is a client error with the body's `error` or `HTTP <status>`. A connector failure is a connection error, and nothing else is |
| Client.ExecutePayload | custom_components/trikhub/client.py:167-169 | the payload has exactly the keys `tool` and `input`, plus `sessionId` iff the session id is truthy |
| Client.GetContent | custom_components/trikhub/client.py:173-187 | None iff the request raises a client error; otherwise the reply's body |
| Client.ListField | custom_components/trikhub/client.py:133-149 | `data.get(key, [])` of a successful reply; a client error propagates unchanged |
| Client.EncodeTrikName | custom_components/trikhub/client.py:219 | the encoded name holds no `@` and no `/` |
| Client.EncodeTrikNameIsPerChar | custom_components/trikhub/client.py:219 | the two chained replacements equal a per-character substitution: `@` to `%40`, `/` to `%2F`, every other character kept |
| Client.DecodeEncodeTrikName | custom_components/trikhub/client.py:218-220 | percent-decoding the encoded name gives the name back when it holds no literal `%` |
| Client.UninstallEndpoint | custom_components/trikhub/client.py:209-220 | the uninstall endpoint is the triks endpoint followed by a single path segment, which decodes back to the name when it has no `%` |
| Client.ToLlmFormat | custom_components/trikhub/client.py:230-248 | the result exists iff the definition has a string `name`. It has keys `type` and `function`. The function name is `trik_` + the name with `:` replaced by `_`, and holds no `:`. The description defaults to `""`. The parameters default to an empty object schema |
| Client.TrikHubClient.constructor | custom_components/trikhub/client.py:38-54 | the base URL has its trailing `/` stripped and never ends in `/`; the token is kept |
| Client.TrikHubClient.Headers | custom_components/trikhub/client.py:69-74 | the headers are always `Content-Type: application/json`, plus `Authorization: Bearer <token>` iff the token is truthy, and nothing else |
| Client.TrikHubClient.RequestFor | custom_components/trikhub/client.py:97-104 | the reference definition of the request `_request` sends: the endpoint appended to the base URL, with this client's `Headers`; `Execute` and `Tools.Invoke` state the requests they send through it |
| Client.TrikHubClient.Execute | custom_components/trikhub/client.py:151-171 | the payload, built by conditional insertion, is exactly `ExecutePayload`; it is posted to the execute endpoint with the client's headers; the result is the classified reply |
| SchemaBridge.EnumValues | custom_components/trikhub/tools.py:40-42 | `tuple(enum)` succeeds exactly on lists, strings and dicts, with the elements, the characters or the keys |
| SchemaBridge.PythonType | custom_components/trikhub/tools.py:27-62 | an `enum` wins whatever the `type`, as a literal set (failing iff it cannot be iterated). Each basic type maps to its Python type. `object` maps to an unexpanded dict. `array` without `items` maps to a list of Any; with `items` it maps to a list of the mapped `items`, and fails iff mapping the `items` fails. An unknown or absent type maps to Any. A non-dict schema fails |
| SchemaBridge.EmptySchemaIsAny | custom_components/trikhub/tools.py:56-57 | the default `items` schema `{}` maps to Any |
| SchemaBridge.PythonTypeTotal | custom_components/trikhub/tools.py:27-62 | the mapping succeeds iff the schema is well shaped: a dict, an iterable enum, and recursively well-shaped `items` |
| SchemaBridge.PythonTypeDepth | custom_components/trikhub/tools.py:55-58 | the list nesting of the mapped type equals the number of nested `array` levels in the schema |
| SchemaBridge.RequiredNames | custom_components/trikhub/tools.py:84 | `set(required)` succeeds iff it is iterable and its list holds nothing unhashable; the names found are the strings its list holds, the characters of a string, or the dict's keys |
| SchemaBridge.DescriptionOf | custom_components/trikhub/tools.py:90-102 | a field carries the property's `description` iff it is present and truthy |
| SchemaBridge.ModelOf | custom_components/trikhub/tools.py:65-105 | a non-object schema gives exactly one mandatory field `value`. An object schema gives one field per property. A field is mandatory iff its property is in `required`, and then has the property's mapped type. The others default to None and have type `T | None`, where T is the mapped type; when T is NoneType, the type is NoneType itself. Each field's description is its property's `description`; the single `value` field has none. A non-dict schema fails |
| SchemaBridge.ModelOfSucceeds | custom_components/trikhub/tools.py:83-105 | an object schema builds a model iff `required` can be made a set, `properties` is a dict, and every property schema is well shaped |
| Normalizer.StripNulls | custom_components/trikhub/tools.py:177-183 | exactly the keys whose value is null and which are not required are dropped; the other values are kept |
| Normalizer.Coerced | custom_components/trikhub/tools.py:190-222 | one argument after coercion. Null is kept. For `array`, a non-list is wrapped in a one-element list. For `string`, a non-empty list becomes `str` of its first element, an empty list drops the key, and any other non-string becomes `str` of itself. Other types are untouched |
| Normalizer.NormalizeSpec | custom_components/trikhub/tools.py:163-225 | a non-dict schema fails; a non-object schema returns the input unchanged |
| Normalizer.Normalize | custom_components/trikhub/tools.py:163-225 | the copy, collect, delete and per-property coercion loops give exactly `NormalizeSpec`. The input map is a value, so it is not changed |
| Normalizer.NullOptionals | custom_components/trikhub/tools.py:178-181 | the collected keys are exactly those with a null value that are not required |
| Normalizer.RemoveKeys | custom_components/trikhub/tools.py:182-184 | deleting the collected keys leaves exactly the other entries |
| Normalizer.CoerceDeclared | custom_components/trikhub/tools.py:186-222 | the loop over the declared properties fails iff a present declared argument has a non-dict schema; otherwise it applies the coercion to every declared argument |
| Normalizer.CoerceArgument | custom_components/trikhub/tools.py:190-222 | the branches for one argument overwrite it with, or delete it as, the coerced value |
| Normalizer.PartialComplete | custom_components/trikhub/tools.py:186-222 | when every declared key has been visited, the loop's partial result is the whole coercion pass |
| Normalizer.NullHandling | custom_components/trikhub/tools.py:177-183 | a null argument is removed iff it is not required; a required null is kept as null |
| Normalizer.UndeclaredPassThrough | custom_components/trikhub/tools.py:186-188 | an argument not declared in `properties` passes through untouched, unless it is null and optional |
| Normalizer.NoNewKeys | custom_components/trikhub/tools.py:163-225 | the normaliser never adds an argument |
| Normalizer.ArrayCoercion | custom_components/trikhub/tools.py:198-209 | a non-null argument declared `array` ends up a list: itself if it was one, else wrapped |
| Normalizer.StringCoercion | custom_components/trikhub/tools.py:212-222 | a non-null argument declared `string`: a non-empty list gives `str(first)`, an empty list removes the key, and anything else gives `str(v)` |
| Normalizer.CoercedIdempotent | custom_components/trikhub/tools.py:190-222 | coercing an already coerced argument changes nothing |
| Normalizer.NormalizeIdempotent | custom_components/trikhub/tools.py:163-225 | normalising twice is normalising once |
| Tools.Sessions.constructor | custom_components/trikhub/tools.py:367 | a session table starts empty |
| Tools.MakeSpec | custom_components/trikhub/tools.py:383-418 | a tool is named by the local form of its gateway name and scoped by its trik id. It has an argument model iff the model can be built, and that model is `ModelOf` of its schema |
| Tools.SessionAfter | custom_components/trikhub/tools.py:269-271 | a truthy `sessionId` in the response overwrites the trik's entry; otherwise the table is unchanged |
| Tools.Passthrough | custom_components/trikhub/tools.py:285-322 | see the list below this table |
| Tools.Dispatch | custom_components/trikhub/tools.py:275-334 | a truthy `error` gives `{success: false, error}`. Then `passthrough` is the passthrough branch, and `template` gives `{success: true, response}` with `""` as the default. Anything else is returned raw. Only passthrough fetches or delivers |
| Tools.InvokerSchemaNormalizes | custom_components/trikhub/tools.py:259 | the invoker normalises against `input_schema or {}`: a tool whose schema is falsy passes its arguments through unchanged, and a tool with a truthy schema is normalised against exactly that schema |
| Tools.InvokeSpec | custom_components/trikhub/tools.py:253-338 | the reference definition of one `tool_func` call that `Tools.Invoke` and the session lemmas are proved against: normalise, send, then report the client error or store the session id and dispatch |
| Tools.Invoke | custom_components/trikhub/tools.py:253-338 | the outcome, the new session table and the requests sent (execute, then the content fetch, if any) are exactly `InvokeSpec`: normalise against `input_schema or {}`, send with the stored session id, then either report the client error or store the session id and dispatch |
| Tools.SessionContinuity | custom_components/trikhub/tools.py:261-267 | the request carries `sessionId` iff the trik has a truthy stored session id, and then it is that id; the tool is the gateway name |
| Tools.SessionStoredEvenOnError | custom_components/trikhub/tools.py:269-282 | a response of any status below 400 with both a truthy `sessionId` and a truthy `error` still stores the session id, and reports the error |
| Tools.OtherSessionsUnchanged | custom_components/trikhub/tools.py:269-271 | other triks' entries are never touched; the trik's own entry changes only to a truthy session id |
| Tools.ClientErrorsCaught | custom_components/trikhub/tools.py:336-338 | every client error is caught and becomes `{success: false, error: str(err)}`; the session table is unchanged and nothing is fetched |
| Tools.PassthroughAlwaysAcknowledged | custom_components/trikhub/tools.py:319-322 | a passthrough response that does not raise always returns the "Content delivered directly to user" acknowledgement |
| Tools.NoCallbackNoDelivery | custom_components/trikhub/tools.py:289-305 | without a callback nothing is delivered, yet the content is still fetched iff a reference is given |
| Tools.Elements | custom_components/trikhub/tools.py:366-377 | the loop succeeds exactly on a list, an empty dict or an empty string. A loop over a list visits its elements. An empty dict or string visits nothing. A non-empty dict or string makes `.get` raise, and anything else cannot be iterated |
| Tools.TrikIds | custom_components/trikhub/tools.py:366 | it succeeds iff every trik is a dict; the ids come in server order, with `""` as the default |
| Tools.SpecOf | custom_components/trikhub/tools.py:374-418 | a non-dict definition, or a dict whose name is truthy but not a string, raises, and every other definition is handled. A dict definition with a falsy name is skipped; one with a non-empty string name becomes `MakeSpec` of its name, description (default "No description") and input schema (default `{}`) |
| Tools.LoadSpec | custom_components/trikhub/tools.py:359-436 | a client error from either listing call gives the empty result |
| Tools.Specs | custom_components/trikhub/tools.py:420 | the specifications of the built tools, in order |
| Tools.Catalog | custom_components/trikhub/tools.py:374-420 | the reference definition of the specs the loader's loop builds from the definitions, in order, aborting on the first exception; `BuildTools`, `LoadSpec` and the catalog lemmas are proved against it |
| Tools.SchemaTable | custom_components/trikhub/tools.py:388-392 | the reference definition of the schema table after recording the specs in order, a later tool with the same local name winning; `BuildTools` and the schema table lemmas are proved against it |
| Tools.BuildTools | custom_components/trikhub/tools.py:374-420 | the loop over the definitions fails iff `Catalog` fails. It builds one tool per kept definition, in order, with exactly `Catalog`'s specs, and the schema table `SchemaTable` of those specs. Every tool shares the given session table and callback |
| Tools.LoadTrikTools | custom_components/trikhub/tools.py:343-436 | the loop builds exactly the tools, schema table and trik ids of `LoadSpec`. Every tool shares one fresh, empty session table and the loader's callback |
| Tools.CatalogFailurePersists | custom_components/trikhub/tools.py:374-420 | an exception from one definition aborts the whole load |
| Tools.CatalogSucceeds | custom_components/trikhub/tools.py:374-386 | the loop over the definitions runs to completion iff every definition is a dict whose name, when truthy, is a string |
| Tools.CatalogKeepsNamed | custom_components/trikhub/tools.py:374-386 | exactly the definitions with a truthy name become tools; each is named by the local form of its nonempty gateway name and scoped by its trik id |
| Tools.SchemaTableEntries | custom_components/trikhub/tools.py:388-392 | every tool has an entry under its local name; every entry was recorded from a tool with that name, and a later tool with the same local name wins |
| Tools.SchemaTableRecordsOriginal | custom_components/trikhub/tools.py:386-392 | every schema entry's `original_name` maps to the key it is stored under |
| Tools.ModelFailureDoesNotAbort | custom_components/trikhub/tools.py:399-420 | a schema that fails to build a model leaves that tool without one (`args_schema=None`), and the loop goes on |
| Tools.LoadedTriksInOrder | custom_components/trikhub/tools.py:366 | `loaded_triks` lists the trik ids in server order, with `""` as the default |
| Tools.CreateDynamicTool | custom_components/trikhub/tools.py:439-483 | the tool is named and scoped like a catalog tool. A non-empty caller table is shared. An absent or empty one is replaced by a fresh empty table that the caller does not hold |
| Conversation.ShouldContinue | custom_components/trikhub/conversation.py:226-233 | the route is to the tools iff the last message is an AI message with tool calls |
| Conversation.WithSystemPrompt | custom_components/trikhub/conversation.py:218-220 | the system prompt is put in front iff the list is empty or does not start with a system message; the prompt always starts with a system message |
| Conversation.WithSystemPromptIdempotent | custom_components/trikhub/conversation.py:218-220 | the prefixing never stacks: applying it twice is applying it once |
| Conversation.WithSystemPromptNotDuplicated | custom_components/trikhub/conversation.py:218-220 | a history without system messages is sent with exactly one, the system prompt, at its head |
| Conversation.RunFrom | custom_components/trikhub/conversation.py:212-256 | the reference definition of a graph run: agent steps and tools steps until the agent routes to the end or the recursion limit is hit. `RunGraph`, `AgentAndTools`, `Turn` and the run lemmas are proved against it |
| Conversation.AgentAndTools | custom_components/trikhub/conversation.py:214-252 | one agent step either ends the run with its outcome or runs the tools node and continues two steps later. The continuation carries the deliveries and a longer message list |
| Conversation.RunExtends | custom_components/trikhub/conversation.py:236-257 | a successful run only appends to the history it was given, and ends on an AI message that routes to the end |
| Conversation.NoToolsSingleStep | custom_components/trikhub/conversation.py:208-211 | with no tools, the agent node goes straight to the end: one model call, one new message, nothing delivered |
| Conversation.EndlessToolCallsHitLimit | custom_components/trikhub/conversation.py:246-252 | a model that always asks for tools is cut off by the recursion limit |
| Conversation.Latest | custom_components/trikhub/conversation.py:148-150 | after a series of callbacks the slot holds the last delivery, or what it held before when there was none |
| Conversation.LastAgentText | custom_components/trikhub/conversation.py:302-307 | the agent text is the content of an AI message with non-empty content and no later such message, or `""` when there is none |
| Conversation.ReplyText | custom_components/trikhub/conversation.py:309-335 | passthrough content comes first. The agent text is added when it is meaningful, after `"\n"` if content came first. `Done.` is used when there is neither |
| Conversation.AssemblySpec | custom_components/trikhub/conversation.py:313-335 | an empty slot gives the agent reply, and string content the full reply with the slot cleared. Any other content makes the assembly raise |
| Conversation.ConversationIdOf | custom_components/trikhub/conversation.py:269 | the input's conversation id when truthy, else the fresh one |
| Conversation.ConversationEntity.constructor | custom_components/trikhub/conversation.py:104-127 | a new entity has no graph, no tools, no model, no history and an empty slot |
| Conversation.ConversationEntity.HandlePassthrough | custom_components/trikhub/conversation.py:148-151 | the new content overwrites the slot |
| Conversation.ConversationEntity.PlayDeliveries | custom_components/trikhub/conversation.py:148-150 | the callback, once per delivery in order, leaves the slot at `Latest` |
| Conversation.ConversationEntity.InitializeGraph | custom_components/trikhub/conversation.py:190-263 | it fails iff loading or getting the model fails. A failed load changes nothing. The loaded tools are kept, with the callback and one fresh, empty session table that they all share, even when the model fails, and then the graph and model are unchanged. On success the model is the provider's and the graph runs that model, with a tools node iff there are tools. The slot and history are not touched |
| Conversation.ConversationEntity.RunGraph | custom_components/trikhub/conversation.py:292-295 | the agent/tools loop returns exactly the run's outcome, and leaves the slot at the last delivery made during the run |
| Conversation.ConversationEntity.FindAgentText | custom_components/trikhub/conversation.py:302-307 | the reversed scan that stops at the first hit returns `LastAgentText` |
| Conversation.ConversationEntity.AssembleReply | custom_components/trikhub/conversation.py:309-335 | the appends and the join give exactly `AssemblySpec`, and the slot is cleared exactly when the assembly took its content |
| Conversation.ConversationEntity.Turn | custom_components/trikhub/conversation.py:276-346 | see the list below this table |
| Conversation.ConversationEntity.Process | custom_components/trikhub/conversation.py:265-356 | see the list below this table |
| Conversation.ConversationEntity.ReloadTools | custom_components/trikhub/conversation.py:358-374 | it clears the graph, tools and model and initialises again. It succeeds iff loading and the model succeed. Then it returns the new tool count, and the graph runs the provider's model with a tools node iff that count is positive. A successful load keeps the loaded tools, with the callback, and they all share one fresh, empty session table, so no session id survives a reload. A failure leaves no graph and no model, and a failed load no tools. The slot and history are kept |
| Conversation.ConversationEntity.AddedToHass | custom_components/trikhub/conversation.py:134-146 | eager initialisation. When loading and the model succeed, the loaded tools are kept, with the callback and one fresh, empty shared session table, and the graph runs the provider's model with a tools node iff there are tools. A failure is swallowed: the graph and model stay as they were, so the graph is built on the first turn; a failed load also keeps the tools. The slot and history are kept |
| Conversation.PassthroughFirst | custom_components/trikhub/conversation.py:312-333 | passthrough content always leads the reply; the agent text follows only when it is meaningful |
| Conversation.DoneWithoutPassthrough | custom_components/trikhub/conversation.py:335 | without passthrough content the reply is `Done.` exactly when the agent said nothing meaningful, or said `Done.` |
| Conversation.EmptyPassthroughSpeaksNothing | custom_components/trikhub/conversation.py:319-335 | empty passthrough content still counts as a reply part, so the reply is `""` and not `Done.` |

`Tools.Passthrough` states that:

- a content reference is fetched iff it is truthy;
- the acknowledgement is returned whenever the branch does not raise;
- the callback fires iff a reference was given, the fetched content is
  truthy, and a callback exists;
- the content type falls back from the fetched content, to the response's
  `contentType`, to `text/plain`;
- non-dict content makes the callback's `.get` raise.

`Conversation.ConversationEntity.Turn` states that:

- only the turn's conversation entry changes, and it is created when missing;
- after a failed run the entry holds the old history plus the user message,
  and the error is spoken;
- after a successful run the entry is the run's full message list;
- the slot keeps the run's last delivery until the assembly takes it;
- the speech is the assembled reply, or the error with its prefix.

`Conversation.ConversationEntity.Process` states that:

- the conversation id is the same on success and on error;
- the graph is built on the first turn, and otherwise the graph, tools and
  model are kept;
- a graph built on the first turn runs the provider's model, with a tools
  node iff the loaded tools are non-empty, and the loaded tools carry the
  callback and share one fresh, empty session table;
- if building fails, the error is spoken; the graph stays unbuilt, and the
  model, history and slot are unchanged. When the load itself failed the
  tools are unchanged too; when only the model failed they are the loaded
  tools;
- otherwise the turn's effects are those of `Turn`.

## Left out

- HTTP transport (aiohttp sessions, `_get_session`/`close`, timeouts, JSON decoding): replies are input values. `health_check`, `install_trik` and `reload_triks` only send a request through `_request`, which is `Classify`.
- `json.dumps` of the tool results: outcomes are JSON values, not their serialised text.
- pydantic, LangChain and LangGraph internals:
  - `create_model`'s own validation (for example, a property name with a leading underscore) is not modelled, so `ModelOf` succeeds where pydantic might reject.
  - `StructuredTool.from_function` is a record of the tool's specification.
  - `ToolNode` is an oracle (`ToolExecutor`) and is not linked to `Tools.Invoke`.
  - `bind_tools` is folded into the model oracle.
- Conversation.ConversationEntity.RunGraph: the accounting of LangGraph's recursion limit (25 super-steps) is approximated as at most 25 node runs, one per agent or tools step.
- The fault texts are approximate: only their presence and the error prefix are stated, not CPython's exact messages.
- `_get_llm` provider selection (`conversation.py:153-188`) builds foreign library objects: the model is a parameter, and a configuration error is a failed `provider`.
- `config_flow.py`, `__init__.py` and `const.py`: UI flow, lifecycle and constants. The endpoint constants are reused as they are.
- Logging: it only logs. The one eager `len()` in an always-on debug log call (on passthrough content, at reply assembly) is modelled as the `len` fault in `AssemblySpec`.
- `debug=True` in `load_trik_tools` and `create_dynamic_tool` is not modelled: the model is the `debug=False` behaviour. With `debug=True`, the log arguments `len(...)` at `tools.py:311` and `response[:100]` at `tools.py:329` are evaluated eagerly and can raise. No caller in the core passes `debug=True` (`conversation.py:195`).
- `ulid` generation: the fresh conversation id is a parameter.
- Concurrency: turns are sequential; interleaved turns sharing the session table and the slot are not modelled.
- Floats: `number` is only a type tag; JSON numbers are integers.
- JSON object key order and dict iteration order: objects are maps. The order of `_normalize_input`'s loops does not affect the result, as the proof shows.
- AI message content is text only; list-valued (multi-part) content is not modelled.
- An `enum` whose values are unhashable (say, a list of lists): the model keeps the values in a set, so repeated values merge. `Literal[...]` accepts such values. For an optional property, `python_type | None` (`tools.py:101`) goes through `typing.Union`'s de-duplication, which on CPython versions that hash the arguments raises `TypeError` for such a `Literal`, so that tool gets `args_schema=None`; `ModelOf` succeeds there instead. What pydantic later does with such values is not modelled either.
- Non-object JSON replies: a reply body is always a JSON object (`Body`). A reply whose JSON is a list or a scalar would make `.get` raise (`client.py:113`, `client.py:144`, `client.py:149`, `tools.py:269`); that `AttributeError` is not modelled.
- An empty `enum` is accepted as an empty literal set.
- SchemaBridge.PythonType: it does fail, on a schema that is not a dict and on an enum that cannot be iterated, because the code raises there; it is total on well-shaped schemas.
- The callback is not called from inside the tool: `Tools.Invoke` returns the delivered content, and the entity plays it into its slot (`PlayDeliveries`). When the tools node fails, the deliveries of that round are lost.
