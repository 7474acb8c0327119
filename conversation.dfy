/**
  The conversation entity: a per-conversation message history, a
  passthrough slot filled by the tools' callback, an agent/tools loop run
  on every user turn, and the assembly of the spoken reply. The language
  model and the tool executor are oracles supplied by the caller.
*/
module Conversation {
  import opened Wrappers
  import opened Json
  import opened Client
  import opened Tools

  const SYSTEM_PROMPT := "You are a helpful Home Assistant AI assistant with access to various tools.\n\nIMPORTANT RULES for TrikHub Tools:\n\n1. **Template Mode Tools** (like \"search\"): These return a text response like \"I found 3 articles\".\n   - Just relay this response to the user and STOP\n   - Do NOT automatically call other tools to show more details\n   - Wait for the user to ask for more information\n\n2. **Passthrough Mode Tools** (like \"list\", \"details\"): These deliver content directly to the user.\n   - Only call these when the user explicitly asks (e.g., \"show me the list\", \"tell me about the first one\")\n   - When they return \"Content delivered directly to user\", just acknowledge briefly\n   - Do NOT repeat or summarize the content\n\n3. **One tool at a time**: After a tool succeeds, return the response to the user.\n   Do not chain multiple tool calls unless the user explicitly asks for multiple things.\n\n4. **General**: Be concise. If a tool returns an error, explain briefly what went wrong.\n\nAvailable tools will be shown in your tool list."

  /** The graph runner's default recursion limit: at most this many node runs per turn. */
  const RECURSION_LIMIT: nat := 25

  const RecursionFault := Fault("Recursion limit of 25 reached without hitting a stop condition.")

  /** The agent's texts that the reply never repeats. */
  const SKIP_RESPONSES: set<string> := {"Content delivered directly to user", "I processed your request but have no response."}

  const ERROR_PREFIX := "Error processing request: "

  datatype ToolCall = ToolCall(name: string, args: Body, id: string)

  /** The chat messages of a conversation. AI message content is text. */
  datatype Message =
    | SystemMessage(content: string)
    | HumanMessage(content: string)
    | AIMessage(content: string, toolCalls: seq<ToolCall>)
    | ToolMessage(content: string, toolCallId: string)

  /** One model answer: its text and the tool calls it requests. */
  datatype AiReply = AiReply(content: string, toolCalls: seq<ToolCall>)

  /** The language model with the tools bound, as an oracle from the prompt to its answer or a raised error. */
  type Llm = seq<Message> -> Result<AiReply, Fault>

  /** One run of the tools node: the tool messages it adds and the passthrough contents the tools delivered, in order. */
  datatype ToolRound = ToolRound(messages: seq<Message>, delivered: seq<PassthroughContent>)

  type ToolExecutor = seq<Message> -> Result<ToolRound, Fault>

  /** The compiled graph: whether it has a tools node, and the model its agent node calls. */
  datatype Graph = Graph(withTools: bool, model: Llm)

  datatype Route = ToTools | ToEnd

  datatype ConversationInput = ConversationInput(text: string, conversationId: Option<string>)

  datatype ConversationResult = ConversationResult(speech: string, conversationId: string)

  // ---------------------------------------------------------------------------
  // The agent node and the routing
  // ---------------------------------------------------------------------------

  /** `should_continue`: to the tools node exactly when the last message is an AI message with tool calls. */
  function ShouldContinue(messages: seq<Message>): (r: Route)
    requires messages != []
    ensures r == ToTools <==> messages[|messages| - 1].AIMessage? && messages[|messages| - 1].toolCalls != []
  {
    var last := messages[|messages| - 1];
    if last.AIMessage? && last.toolCalls != [] then ToTools else ToEnd
  }

  /** The agent node's prompt: the system prompt is put in front unless the list already starts with a system message. */
  function WithSystemPrompt(messages: seq<Message>): (r: seq<Message>)
    ensures r != [] && r[0].SystemMessage?
    ensures messages != [] && messages[0].SystemMessage? ==> r == messages
    ensures messages == [] || !messages[0].SystemMessage? ==> r == [SystemMessage(SYSTEM_PROMPT)] + messages
  {
    if messages == [] || !messages[0].SystemMessage? then [SystemMessage(SYSTEM_PROMPT)] + messages else messages
  }

  function SystemCount(messages: seq<Message>): nat {
    if messages == [] then 0
    else (if messages[0].SystemMessage? then 1 else 0) + SystemCount(messages[1..])
  }

  /** The prefixing never stacks: applying it again changes nothing. */
  lemma WithSystemPromptIdempotent(messages: seq<Message>)
    ensures WithSystemPrompt(WithSystemPrompt(messages)) == WithSystemPrompt(messages)
  {
  }

  /** A history without system messages is sent with exactly one, the system prompt, at its head. */
  lemma WithSystemPromptNotDuplicated(messages: seq<Message>)
    requires SystemCount(messages) == 0
    ensures SystemCount(WithSystemPrompt(messages)) == 1
    ensures WithSystemPrompt(messages)[0] == SystemMessage(SYSTEM_PROMPT)
  {
    assert ([SystemMessage(SYSTEM_PROMPT)] + messages)[1..] == messages;
  }

  // ---------------------------------------------------------------------------
  // The graph run
  // ---------------------------------------------------------------------------

  /** What a graph run produces: the final message list or the raised error, and every passthrough delivered on the way. */
  datatype RunResult = RunResult(outcome: Result<seq<Message>, Fault>, delivered: seq<PassthroughContent>)

  /**
    The graph run from `state`, after `steps` node runs: the agent node
    answers; without a tools node, or when the answer asks for no tool,
    the run ends; otherwise the tools node runs and control returns to the
    agent. A run that would exceed the recursion limit raises.
  */
  function RunFrom(g: Graph, runTools: ToolExecutor, state: seq<Message>, steps: nat): RunResult
    decreases RECURSION_LIMIT - steps
  {
    if steps >= RECURSION_LIMIT then RunResult(Failure(RecursionFault), [])
    else
      match g.model(WithSystemPrompt(state))
      case Failure(e) => RunResult(Failure(e), [])
      case Success(ai) =>
        var answered := state + [AIMessage(ai.content, ai.toolCalls)];
        if !g.withTools || ShouldContinue(answered) == ToEnd then RunResult(Success(answered), [])
        else if steps + 1 >= RECURSION_LIMIT then RunResult(Failure(RecursionFault), [])
        else
          match runTools(answered)
          case Failure(e) => RunResult(Failure(e), [])
          case Success(round) =>
            var rest := RunFrom(g, runTools, answered + round.messages, steps + 2);
            RunResult(rest.outcome, round.delivered + rest.delivered)
  }

  /** A run only appends to the history it was given, and it ends on an answer that routes to the end. */
  lemma {:induction false} RunExtends(g: Graph, runTools: ToolExecutor, state: seq<Message>, steps: nat)
    requires RunFrom(g, runTools, state, steps).outcome.Success?
    ensures var out := RunFrom(g, runTools, state, steps).outcome.value;
      && |out| > |state| && out[..|state|] == state
      && out[|out| - 1].AIMessage?
      && (g.withTools ==> ShouldContinue(out) == ToEnd)
    decreases RECURSION_LIMIT - steps
  {
    var ai := g.model(WithSystemPrompt(state)).value;
    var answered := state + [AIMessage(ai.content, ai.toolCalls)];
    if g.withTools && ShouldContinue(answered) == ToTools {
      var round := runTools(answered).value;
      var next := answered + round.messages;
      RunExtends(g, runTools, next, steps + 2);
      var out := RunFrom(g, runTools, next, steps + 2).outcome.value;
      assert out[..|state|] == next[..|state|] by {
        assert out[..|next|][..|state|] == out[..|state|];
      }
      assert next[..|state|] == state;
    }
  }

  /** With no tools loaded, the agent node goes straight to the end: one model call, one new message. */
  lemma NoToolsSingleStep(model: Llm, runTools: ToolExecutor, state: seq<Message>)
    requires model(WithSystemPrompt(state)).Success?
    ensures var ai := model(WithSystemPrompt(state)).value;
      RunFrom(Graph(false, model), runTools, state, 0) == RunResult(Success(state + [AIMessage(ai.content, ai.toolCalls)]), [])
  {
  }

  /** A model that keeps asking for tools is cut off by the recursion limit. */
  lemma {:induction false} EndlessToolCallsHitLimit(model: Llm, runTools: ToolExecutor, state: seq<Message>, steps: nat)
    requires forall s :: model(s).Success? && model(s).value.toolCalls != []
    requires forall s :: runTools(s).Success?
    ensures RunFrom(Graph(true, model), runTools, state, steps).outcome == Failure(RecursionFault)
    decreases RECURSION_LIMIT - steps
  {
    if steps < RECURSION_LIMIT {
      var ai := model(WithSystemPrompt(state)).value;
      var answered := state + [AIMessage(ai.content, ai.toolCalls)];
      assert ShouldContinue(answered) == ToTools;
      if steps + 1 < RECURSION_LIMIT {
        EndlessToolCallsHitLimit(model, runTools, answered + runTools(answered).value.messages, steps + 2);
      }
    }
  }

  /** The passthrough slot after the given deliveries: the last one wins. */
  function Latest(slot: Option<PassthroughContent>, delivered: seq<PassthroughContent>): (r: Option<PassthroughContent>)
    ensures delivered == [] ==> r == slot
    ensures delivered != [] ==> r == Some(delivered[|delivered| - 1])
  {
    if delivered == [] then slot else Some(delivered[|delivered| - 1])
  }

  // ---------------------------------------------------------------------------
  // Reply assembly
  // ---------------------------------------------------------------------------

  /** No AI message after position `i` has content. */
  predicate NoLaterText(messages: seq<Message>, i: int) {
    forall j :: 0 <= j < |messages| && i < j ==> !(messages[j].AIMessage? && messages[j].content != "")
  }

  /** The scan over a prefix looks at its last message first. */
  lemma LastAgentTextPrefix(messages: seq<Message>, i: nat)
    requires 0 < i <= |messages|
    ensures LastAgentText(messages[..i]) ==
      if messages[i - 1].AIMessage? && messages[i - 1].content != "" then messages[i - 1].content
      else LastAgentText(messages[..i - 1])
  {
    assert messages[..i][i - 1] == messages[i - 1];
    assert messages[..i][..i - 1] == messages[..i - 1];
  }

  /** The agent's text: the content of the last AI message with non-empty content, or `""`. */
  function LastAgentText(messages: seq<Message>): (r: string)
    ensures r == "" || exists i :: 0 <= i < |messages| && messages[i].AIMessage? && messages[i].content == r
    ensures r != "" ==> exists i :: 0 <= i < |messages| && messages[i].AIMessage? && messages[i].content == r && NoLaterText(messages, i)
    ensures r == "" ==> forall j :: 0 <= j < |messages| ==> !(messages[j].AIMessage? && messages[j].content != "")
  {
    if messages == [] then ""
    else
      var last := messages[|messages| - 1];
      if last.AIMessage? && last.content != "" then last.content
      else
        var r := LastAgentText(messages[..|messages| - 1]);
        assert forall j :: 0 <= j < |messages| - 1 ==> messages[..|messages| - 1][j] == messages[j];
        r
  }

  /** Whether the agent's text is worth speaking. */
  predicate Meaningful(agentText: string) {
    agentText != "" && agentText !in SKIP_RESPONSES
  }

  /**
    The spoken reply: the passthrough content first; then the agent's text
    when meaningful, after a line break if passthrough content came first;
    `Done.` when there is neither.
  */
  function ReplyText(passthrough: Option<string>, agentText: string): (r: string)
    ensures passthrough.None? && !Meaningful(agentText) ==> r == "Done."
    ensures passthrough.None? && Meaningful(agentText) ==> r == agentText
    ensures passthrough.Some? ==> r == passthrough.value + (if Meaningful(agentText) then "\n" + agentText else "")
  {
    match passthrough
    case Some(c) => c + (if Meaningful(agentText) then "\n" + agentText else "")
    case None => if Meaningful(agentText) then agentText else "Done."
  }

  /** `"".join(parts)`. */
  function Join(parts: seq<string>): string {
    if parts == [] then "" else parts[0] + Join(parts[1..])
  }

  lemma JoinSmall(parts: seq<string>)
    ensures |parts| == 1 ==> Join(parts) == parts[0]
    ensures |parts| == 2 ==> Join(parts) == parts[0] + parts[1]
  {
    if |parts| == 2 {
      assert parts[1..][1..] == [];
    }
  }

  /** What an assembly does with the slot's content: a string is spoken; a list or dict is taken, then breaks the join; anything else breaks `len`. */
  datatype Assembly = Assembly(speech: Result<string, Fault>, slotCleared: bool)

  const LenFault := Fault("TypeError: object has no len()")
  const JoinFault := Fault("TypeError: sequence item 0: expected str instance")

  function AssemblySpec(slot: Option<PassthroughContent>, agentText: string): (a: Assembly)
    ensures slot.None? ==> a == Assembly(Success(ReplyText(None, agentText)), false)
    ensures slot.Some? && slot.value.content.JStr? ==> a == Assembly(Success(ReplyText(Some(slot.value.content.s), agentText)), true)
    ensures a.speech.Success? ==> slot.None? || slot.value.content.JStr?
  {
    match slot
    case None => Assembly(Success(ReplyText(None, agentText)), false)
    case Some(p) =>
      match p.content
      case JStr(s) => Assembly(Success(ReplyText(Some(s), agentText)), true)
      case JArr(_) => Assembly(Failure(JoinFault), true)
      case JObj(_) => Assembly(Failure(JoinFault), true)
      case _ => Assembly(Failure(LenFault), false)
  }

  /** The conversation id of a turn: the caller's when truthy, else a fresh one. */
  function ConversationIdOf(input: ConversationInput, freshId: string): (cid: string)
    ensures input.conversationId.Some? && input.conversationId.value != "" ==> cid == input.conversationId.value
    ensures input.conversationId.None? || input.conversationId.value == "" ==> cid == freshId
  {
    if input.conversationId.Some? && input.conversationId.value != "" then input.conversationId.value else freshId
  }

  /** One agent step and, when the answer asks for tools, the tools step after it. */
  datatype Step =
    | Finished(result: Result<seq<Message>, Fault>)
    | Looped(next: seq<Message>, delivered: seq<PassthroughContent>)

  /**
    The two nodes' work from `state`: either the run ends here with its
    outcome and nothing delivered, or it continues two steps later from the
    grown message list, after the tools delivered `delivered`.
  */
  function AgentAndTools(g: Graph, runTools: ToolExecutor, state: seq<Message>, steps: nat): (s: Step)
    requires steps < RECURSION_LIMIT
    ensures s.Finished? ==> RunFrom(g, runTools, state, steps) == RunResult(s.result, [])
    ensures s.Looped? ==>
      && steps + 2 <= RECURSION_LIMIT
      && |s.next| > |state|
      && var rest := RunFrom(g, runTools, s.next, steps + 2);
         RunFrom(g, runTools, state, steps) == RunResult(rest.outcome, s.delivered + rest.delivered)
  {
    match g.model(WithSystemPrompt(state))
    case Failure(e) => Finished(Failure(e))
    case Success(ai) =>
      var answered := state + [AIMessage(ai.content, ai.toolCalls)];
      if !g.withTools || ShouldContinue(answered) == ToEnd then Finished(Success(answered))
      else if steps + 1 >= RECURSION_LIMIT then Finished(Failure(RecursionFault))
      else
        match runTools(answered)
        case Failure(e) => Finished(Failure(e))
        case Success(round) => Looped(answered + round.messages, round.delivered)
  }

  /** How far a turn got. */
  datatype Stage = InitFailed | RunFailed | AssemblyFailed | Completed

  /**
    What a turn on graph `g` leaves behind, from the history and slot it
    started with: only conversation `cid` changes; it holds the user message
    after a failed run and the run's message list otherwise; the slot holds
    the last delivery (a failed run leaves it for the next turn) until the
    assembly takes it; the speech is the error with its prefix, or the
    assembled reply.
  */
  ghost predicate TurnDone(history0: map<string, seq<Message>>, slot0: Option<PassthroughContent>,
                           history: map<string, seq<Message>>, slot: Option<PassthroughContent>, cid: string, text: string,
                           g: Graph, runTools: ToolExecutor, speech: string, stage: Stage)
  {
    var before := (if cid in history0 then history0[cid] else []) + [HumanMessage(text)];
    var run := RunFrom(g, runTools, before, 0);
    var filled := Latest(slot0, run.delivered);
    && history.Keys == history0.Keys + {cid}
    && (stage == RunFailed ==> slot == filled)
    && (stage == Completed || stage == AssemblyFailed ==>
          slot == (if AssemblySpec(filled, LastAgentText(history[cid])).slotCleared then None else filled))
    && (forall k :: k in history0 && k != cid ==> history[k] == history0[k])
    && (stage == RunFailed ==>
          && run.outcome.Failure?
          && history[cid] == before
          && speech == ERROR_PREFIX + run.outcome.error.text)
    && (stage == Completed || stage == AssemblyFailed ==>
          && run.outcome.Success?
          && history[cid] == run.outcome.value)
    && (stage == Completed ==>
          var a := AssemblySpec(Latest(slot0, run.delivered), LastAgentText(history[cid]));
          a.speech.Success? && speech == a.speech.value)
    && (stage == AssemblyFailed ==>
          var a := AssemblySpec(Latest(slot0, run.delivered), LastAgentText(history[cid]));
          a.speech.Failure? && speech == ERROR_PREFIX + a.speech.error.text)
  }

  // ---------------------------------------------------------------------------
  // The entity
  // ---------------------------------------------------------------------------

  class ConversationEntity {
    var lastPassthrough: Option<PassthroughContent>
    var history: map<string, seq<Message>>
    var graph: Option<Graph>
    var tools: seq<Tool>
    var llm: Option<Llm>
    const client: TrikHubClient

    /** A new entity: nothing loaded, no history, an empty slot. */
    constructor (client: TrikHubClient)
      ensures this.client == client
      ensures lastPassthrough.None? && history == map[] && graph.None? && tools == [] && llm.None?
    {
      this.client := client;
      lastPassthrough := None;
      history := map[];
      graph := None;
      tools := [];
      llm := None;
    }

    /** `_handle_passthrough`: the new content overwrites whatever the slot held. */
    method HandlePassthrough(content: PassthroughContent)
      modifies this`lastPassthrough
      ensures lastPassthrough == Some(content)
    {
      lastPassthrough := Some(content);
    }

    /**
      `_initialize_graph`: load the catalog (with this entity's callback),
      keep its tools, get the model, and compile a graph with a tools node
      only when there are tools. The tools are kept even when getting the
      model raises.
    */
    method InitializeGraph(toolsReply: HttpReply, triksReply: HttpReply, provider: Result<Llm, Fault>)
      returns (r: Result<(), Fault>)
      modifies this`tools, this`graph, this`llm
      ensures r.Failure? <==> LoadSpec(toolsReply, triksReply).Failure? || provider.Failure?
      ensures LoadSpec(toolsReply, triksReply).Failure? ==>
        tools == old(tools) && graph == old(graph) && llm == old(llm)
      ensures LoadSpec(toolsReply, triksReply).Success? ==>
        && Specs(tools) == LoadSpec(toolsReply, triksReply).value.specs
        && forall t :: t in tools ==> t.hasCallback
      ensures LoadSpec(toolsReply, triksReply).Success? ==>
        exists s: Sessions :: fresh(s) && s.tokens == map[] && forall t :: t in tools ==> t.sessions == s
      ensures LoadSpec(toolsReply, triksReply).Success? && provider.Failure? ==> graph == old(graph) && llm == old(llm)
      ensures r.Success? ==>
        provider.Success? && graph == Some(Graph(tools != [], provider.value)) && llm == Some(provider.value)
    {
      var loaded := LoadTrikTools(client, toolsReply, triksReply, true);
      if loaded.Failure? {
        return Failure(loaded.error);
      }
      tools := loaded.value.tools;
      if provider.Failure? {
        return Failure(provider.error);
      }
      llm := Some(provider.value);
      graph := Some(Graph(tools != [], provider.value));
      return Success(());
    }

    /** Runs the graph, playing every passthrough delivery into the slot as the tools report it. */
    method RunGraph(g: Graph, runTools: ToolExecutor, messages: seq<Message>) returns (r: Result<seq<Message>, Fault>)
      modifies this`lastPassthrough
      ensures r == RunFrom(g, runTools, messages, 0).outcome
      ensures lastPassthrough == Latest(old(lastPassthrough), RunFrom(g, runTools, messages, 0).delivered)
    {
      ghost var whole := RunFrom(g, runTools, messages, 0);
      var state := messages;
      var steps: nat := 0;
      ghost var delivered: seq<PassthroughContent> := [];
      while steps < RECURSION_LIMIT
        invariant whole == RunResult(RunFrom(g, runTools, state, steps).outcome, delivered + RunFrom(g, runTools, state, steps).delivered)
        invariant lastPassthrough == Latest(old(lastPassthrough), delivered)
        decreases RECURSION_LIMIT - steps
      {
        var step := AgentAndTools(g, runTools, state, steps);
        if step.Finished? {
          assert delivered + [] == delivered;
          return step.result;
        }
        ghost var rest := RunFrom(g, runTools, step.next, steps + 2);
        PlusAssoc(delivered, step.delivered, rest.delivered);
        PlayDeliveries(step.delivered);
        LatestAppend(old(lastPassthrough), delivered, step.delivered);
        delivered := delivered + step.delivered;
        state := step.next;
        steps := steps + 2;
      }
      return Failure(RecursionFault);
    }

    /** The tools' callback, once per delivered content, in order. */
    method PlayDeliveries(contents: seq<PassthroughContent>)
      modifies this`lastPassthrough
      ensures lastPassthrough == Latest(old(lastPassthrough), contents)
    {
      var j := 0;
      while j < |contents|
        invariant 0 <= j <= |contents|
        invariant lastPassthrough == Latest(old(lastPassthrough), contents[..j])
      {
        HandlePassthrough(contents[j]);
        j := j + 1;
      }
      assert contents[..j] == contents;
    }

    /** The last AI message with content, found by a reversed scan that stops at the first hit. */
    method FindAgentText(messages: seq<Message>) returns (text: string)
      ensures text == LastAgentText(messages)
    {
      text := "";
      var i := |messages|;
      assert messages[..i] == messages;
      while i > 0
        invariant 0 <= i <= |messages|
        invariant LastAgentText(messages) == LastAgentText(messages[..i])
        decreases i
      {
        var msg := messages[i - 1];
        LastAgentTextPrefix(messages, i);
        if msg.AIMessage? && msg.content != "" {
          text := msg.content;
          return;
        }
        i := i - 1;
      }
      assert messages[..i] == [];
    }

    /**
      Builds the reply from the slot and the agent's text. Taking string,
      list or dict content empties the slot; the reply parts are joined, or
      `Done.` when there are none.
    */
    method AssembleReply(agentText: string) returns (speech: Result<string, Fault>)
      modifies this`lastPassthrough
      ensures var a := AssemblySpec(old(lastPassthrough), agentText);
        && speech == a.speech
        && lastPassthrough == (if a.slotCleared then None else old(lastPassthrough))
    {
      var parts: seq<string> := [];
      var taken: Option<Json> := None;
      if lastPassthrough.Some? {
        var content := lastPassthrough.value.content;
        if !(content.JStr? || content.JArr? || content.JObj?) {
          return Failure(LenFault);
        }
        taken := Some(content);
        if content.JStr? {
          parts := parts + [content.s];
        }
        lastPassthrough := None;
      }
      if agentText != "" && agentText !in SKIP_RESPONSES {
        if parts != [] || taken.Some? {
          parts := parts + ["\n" + agentText];
        } else {
          parts := parts + [agentText];
        }
      }
      if taken.Some? && !taken.value.JStr? {
        return Failure(JoinFault);
      }
      JoinSmall(parts);
      if parts != [] {
        speech := Success(Join(parts));
      } else {
        speech := Success("Done.");
      }
    }

    /**
      `async_process`. The graph is built on the first turn; if that fails
      the error is spoken and nothing else changes. Any error becomes the
      spoken text, under the same conversation id.
    */
    method Process(input: ConversationInput, freshId: string, toolsReply: HttpReply, triksReply: HttpReply,
                   provider: Result<Llm, Fault>, runTools: ToolExecutor)
      returns (result: ConversationResult, ghost stage: Stage)
      modifies this
      ensures result.conversationId == ConversationIdOf(input, freshId)
      ensures stage == InitFailed ==>
        && old(graph).None? && history == old(history) && lastPassthrough == old(lastPassthrough)
        && |result.speech| >= |ERROR_PREFIX| && result.speech[..|ERROR_PREFIX|] == ERROR_PREFIX
      ensures stage == InitFailed <==>
        old(graph).None? && (LoadSpec(toolsReply, triksReply).Failure? || provider.Failure?)
      ensures old(graph).Some? ==> graph == old(graph) && tools == old(tools) && llm == old(llm)
      ensures stage == InitFailed ==> graph == old(graph) && llm == old(llm)
      ensures LoadSpec(toolsReply, triksReply).Failure? ==> tools == old(tools)
      ensures old(graph).None? && LoadSpec(toolsReply, triksReply).Success? ==>
        && Specs(tools) == LoadSpec(toolsReply, triksReply).value.specs
        && forall t :: t in tools ==> t.hasCallback
      ensures old(graph).None? && LoadSpec(toolsReply, triksReply).Success? ==>
        exists s: Sessions :: fresh(s) && s.tokens == map[] && forall t :: t in tools ==> t.sessions == s
      ensures old(graph).None? && stage != InitFailed ==>
        provider.Success? && graph == Some(Graph(tools != [], provider.value)) && llm == Some(provider.value)
      ensures stage != InitFailed ==> graph.Some?
      ensures stage != InitFailed ==> TurnDone(old(history), old(lastPassthrough), history, lastPassthrough, ConversationIdOf(input, freshId),
                                              input.text, graph.value, runTools, result.speech, stage)
    {
      var cid := ConversationIdOf(input, freshId);
      if graph.None? {
        var init := InitializeGraph(toolsReply, triksReply, provider);
        if init.Failure? {
          stage := InitFailed;
          return ConversationResult(ERROR_PREFIX + init.error.text, cid), stage;
        }
      }
      var speech;
      speech, stage := Turn(cid, input.text, runTools);
      return ConversationResult(speech, cid), stage;
    }

    /**
      One turn on a built graph. The user message is appended to the
      conversation's history before the run and stays there if the run
      raises; a successful run replaces that history with its full message
      list; other conversations are untouched.
    */
    method Turn(cid: string, text: string, runTools: ToolExecutor) returns (speech: string, ghost stage: Stage)
      requires graph.Some?
      modifies this`history, this`lastPassthrough
      ensures stage != InitFailed
      ensures TurnDone(old(history), old(lastPassthrough), history, lastPassthrough, cid, text, graph.value, runTools, speech, stage)
    {
      var messages := (if cid in history then history[cid] else []) + [HumanMessage(text)];
      history := history[cid := messages];
      var run := RunGraph(graph.value, runTools, messages);
      if run.Failure? {
        stage := RunFailed;
        return ERROR_PREFIX + run.error.text, stage;
      }
      history := history[cid := run.value];
      var agentText := FindAgentText(run.value);
      var reply := AssembleReply(agentText);
      if reply.Failure? {
        stage := AssemblyFailed;
        return ERROR_PREFIX + reply.error.text, stage;
      }
      stage := Completed;
      return reply.value, stage;
    }

    /** `async_reload_tools`: forget the graph, tools and model, initialise again, and report the number of tools. */
    method ReloadTools(toolsReply: HttpReply, triksReply: HttpReply, provider: Result<Llm, Fault>)
      returns (r: Result<nat, Fault>)
      modifies this
      ensures r.Success? <==> LoadSpec(toolsReply, triksReply).Success? && provider.Success?
      ensures r.Success? ==> r.value == |tools| && |tools| == |LoadSpec(toolsReply, triksReply).value.specs|
      ensures r.Success? ==>
        provider.Success? && graph == Some(Graph(r.value > 0, provider.value)) && llm == Some(provider.value)
      ensures r.Failure? ==> graph.None? && llm.None?
      ensures LoadSpec(toolsReply, triksReply).Failure? ==> tools == []
      ensures LoadSpec(toolsReply, triksReply).Success? ==>
        && Specs(tools) == LoadSpec(toolsReply, triksReply).value.specs
        && forall t :: t in tools ==> t.hasCallback
      ensures LoadSpec(toolsReply, triksReply).Success? ==>
        exists s: Sessions :: fresh(s) && s.tokens == map[] && forall t :: t in tools ==> t.sessions == s
      ensures lastPassthrough == old(lastPassthrough) && history == old(history)
    {
      graph := None;
      tools := [];
      llm := None;
      var init := InitializeGraph(toolsReply, triksReply, provider);
      if init.Failure? {
        return Failure(init.error);
      }
      return Success(|tools|);
    }

    /** `async_added_to_hass`: initialise eagerly; a failure is only logged, leaving the graph to be built on the first turn. */
    method AddedToHass(toolsReply: HttpReply, triksReply: HttpReply, provider: Result<Llm, Fault>)
      modifies this
      ensures LoadSpec(toolsReply, triksReply).Success? && provider.Success? ==>
        && graph == Some(Graph(tools != [], provider.value)) && llm == Some(provider.value)
        && Specs(tools) == LoadSpec(toolsReply, triksReply).value.specs
        && forall t :: t in tools ==> t.hasCallback
      ensures LoadSpec(toolsReply, triksReply).Failure? || provider.Failure? ==> graph == old(graph) && llm == old(llm)
      ensures LoadSpec(toolsReply, triksReply).Failure? ==> tools == old(tools)
      ensures LoadSpec(toolsReply, triksReply).Success? && provider.Failure? ==>
        && Specs(tools) == LoadSpec(toolsReply, triksReply).value.specs
        && forall t :: t in tools ==> t.hasCallback
      ensures LoadSpec(toolsReply, triksReply).Success? ==>
        exists s: Sessions :: fresh(s) && s.tokens == map[] && forall t :: t in tools ==> t.sessions == s
      ensures lastPassthrough == old(lastPassthrough) && history == old(history)
    {
      var init := InitializeGraph(toolsReply, triksReply, provider);
    }
  }

  lemma PlusAssoc<T>(a: seq<T>, b: seq<T>, c: seq<T>)
    ensures (a + b) + c == a + (b + c)
  {
  }

  lemma LatestAppend(slot: Option<PassthroughContent>, a: seq<PassthroughContent>, b: seq<PassthroughContent>)
    ensures Latest(Latest(slot, a), b) == Latest(slot, a + b)
  {
  }

  // ---------------------------------------------------------------------------
  // Properties of reply assembly
  // ---------------------------------------------------------------------------

  /** Passthrough content always leads the reply; the agent's text follows only when meaningful. */
  lemma PassthroughFirst(content: string, agentText: string)
    ensures |ReplyText(Some(content), agentText)| >= |content|
    ensures ReplyText(Some(content), agentText)[..|content|] == content
    ensures !Meaningful(agentText) ==> ReplyText(Some(content), agentText) == content
  {
  }

  /** Without passthrough content, `Done.` is spoken exactly when the agent said nothing worth speaking (or said `Done.`). */
  lemma DoneWithoutPassthrough(agentText: string)
    ensures ReplyText(None, agentText) == "Done." <==> !Meaningful(agentText) || agentText == "Done."
  {
  }

  /** An empty passthrough content is still a reply part: the reply is then empty rather than `Done.`. */
  lemma EmptyPassthroughSpeaksNothing(agentText: string)
    requires !Meaningful(agentText)
    ensures ReplyText(Some(""), agentText) == ""
  {
  }
}
