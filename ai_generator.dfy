/** The answer loop around the language model: the first request, up to
    `MAX_TOOL_ROUNDS` rounds in which the tool calls the model asks for are
    dispatched through the tool manager and their results sent back, and the
    extraction of the final text. */
module AiGenerator {
  import opened Wrappers
  import opened Text
  import SearchTools

  // ---------------------------------------------------------------------------
  // Constants and messages
  // ---------------------------------------------------------------------------

  /** The most rounds of tool execution per query. */
  const MAX_TOOL_ROUNDS: nat := 2

  /** The fixed request parameters `temperature` and `max_tokens`. */
  const TEMPERATURE: int := 0
  const MAX_TOKENS: int := 800

  /** The stop reason of a response that asks for tools, and the tool choice
      sent with the tools. */
  const TOOL_USE: string := "tool_use"
  const AUTO: string := "auto"

  /** The separator placed between the system prompt and the history. */
  const HISTORY_HEADER: string := "\n\nPrevious conversation:\n"

  /** The prefix of a tool result that reports an exception. */
  const TOOL_ERROR_PREFIX: string := "Tool execution error: "

  /** What `response.content[0].text` raises on an empty content list and on a
      tool-use block. */
  const INDEX_ERROR: string := "list index out of range"
  const NO_TEXT_ERROR: string := "'ToolUseBlock' object has no attribute 'text'"

  // ---------------------------------------------------------------------------
  // Messages, requests and responses
  // ---------------------------------------------------------------------------

  /** A content block of a model response: text, or a request to call a tool. */
  datatype Block =
    | TextBlock(text: string)
    | ToolUseBlock(id: string, name: string, input: SearchTools.Arguments)

  datatype Response = Response(stopReason: string, content: seq<Block>)

  /** One `{"type": "tool_result", "tool_use_id": id, "content": text}` entry. */
  datatype ToolResult = ToolResult(toolUseId: string, content: string)

  datatype Role = User | Assistant

  /** The content of a message: the query, an assistant turn's blocks, or the
      tool results sent back. */
  datatype Content =
    | Prompt(query: string)
    | Turn(blocks: seq<Block>)
    | Results(results: seq<ToolResult>)

  datatype Message = Message(role: Role, body: Content)

  /** The keyword arguments of one `messages.create` call. `tools` and
      `toolChoice` are `None` when the keys are absent. */
  datatype Request = Request(
    model: string,
    temperature: int,
    maxTokens: int,
    messages: seq<Message>,
    system: string,
    tools: Option<seq<SearchTools.ToolDefinition>>,
    toolChoice: Option<string>)

  /** The model: the response to the `i`-th call of the client is
      `reply(i, request)`; `calls` records every request sent. */
  class ModelClient {
    const reply: (nat, Request) -> Response
    var calls: seq<Request>

    constructor (reply: (nat, Request) -> Response)
      ensures this.reply == reply && calls == []
    {
      this.reply := reply;
      calls := [];
    }

    /** `messages.create(**request)`. */
    method Create(request: Request) returns (response: Response)
      modifies this
      ensures calls == old(calls) + [request]
      ensures response == reply(|old(calls)|, request)
    {
      response := reply(|calls|, request);
      calls := calls + [request];
    }
  }

  // ---------------------------------------------------------------------------
  // The first request and the direct answer
  // ---------------------------------------------------------------------------

  /** The system text: the prompt, followed by the history when there is one. */
  function SystemContent(prompt: string, history: Option<string>): string {
    if TruthyString(history) then prompt + HISTORY_HEADER + history.value else prompt
  }

  /** `if tools:` for the optional tool list. */
  predicate TruthyTools(tools: Option<seq<SearchTools.ToolDefinition>>) {
    tools.Some? && tools.value != []
  }

  /** The request of `generate_response`: the query as the only message, and
      the tools with `tool_choice` auto when the tool list is non-empty. */
  function FirstRequest(model: string, system: string, query: string,
                        tools: Option<seq<SearchTools.ToolDefinition>>): Request {
    Request(model, TEMPERATURE, MAX_TOKENS, [Message(User, Prompt(query))], system,
            if TruthyTools(tools) then tools else None,
            if TruthyTools(tools) then Some(AUTO) else None)
  }

  /** `response.content[0].text`, with the exceptions it raises. */
  function DirectText(r: Response): Result<string> {
    if |r.content| == 0 then Err(INDEX_ERROR)
    else match r.content[0]
      case TextBlock(t) => Ok(t)
      case ToolUseBlock(_, _, _) => Err(NO_TEXT_ERROR)
  }

  // ---------------------------------------------------------------------------
  // One round of tool execution
  // ---------------------------------------------------------------------------

  /** The tool result text: what the tool returned, or the exception as text. */
  function ResultText(o: SearchTools.Outcome): string {
    match o
    case Returned(t) => t
    case Raised(m) => TOOL_ERROR_PREFIX + m
  }

  /** How the loop executes a tool call: `tool_manager.execute_tool(name, **input)`. */
  type Executor = (string, SearchTools.Arguments) -> SearchTools.Outcome

  /** The executor of a tool manager with the given registry. */
  function DispatchOf(tools: map<string, SearchTools.ToolRef>): Executor {
    (name, input) => SearchTools.Dispatch(tools, name, input)
  }

  /** The tool results for the first `j` blocks of `content`. */
  function ResultsUpTo(exec: Executor, content: seq<Block>, j: nat): seq<ToolResult>
    requires j <= |content|
    decreases j
  {
    if j == 0 then []
    else ResultsUpTo(exec, content, j - 1)
         + match content[j - 1]
           case ToolUseBlock(id, name, input) => [ToolResult(id, ResultText(exec(name, input)))]
           case TextBlock(_) => []
  }

  /** The tool calls made for the first `j` blocks of `content`. */
  function CallsUpTo(content: seq<Block>, j: nat): seq<(string, SearchTools.Arguments)>
    requires j <= |content|
    decreases j
  {
    if j == 0 then []
    else CallsUpTo(content, j - 1)
         + match content[j - 1]
           case ToolUseBlock(_, name, input) => [(name, input)]
           case TextBlock(_) => []
  }

  function ToolResults(exec: Executor, content: seq<Block>): seq<ToolResult> {
    ResultsUpTo(exec, content, |content|)
  }

  function ToolCalls(content: seq<Block>): seq<(string, SearchTools.Arguments)> {
    CallsUpTo(content, |content|)
  }

  /** The history after a round: the assistant turn, then the results when
      there are any. */
  function AfterRound(messages: seq<Message>, content: seq<Block>, results: seq<ToolResult>): seq<Message> {
    messages + [Message(Assistant, Turn(content))]
    + (if results == [] then [] else [Message(User, Results(results))])
  }

  /** The follow-up request after round `round`: it keeps the first request's
      system text, and its tools only while `round < MAX_TOOL_ROUNDS`. */
  function FollowUp(model: string, base: Request, messages: seq<Message>, round: nat): Request {
    var keep := round < MAX_TOOL_ROUNDS && base.tools.Some?;
    Request(model, TEMPERATURE, MAX_TOKENS, messages, base.system,
            if keep then base.tools else None,
            if keep then Some(AUTO) else None)
  }

  /** The state of the round loop: the follow-up requests sent so far, the
      history, the current response, the round counter and the tool calls made. */
  datatype Trace = Trace(
    requests: seq<Request>,
    messages: seq<Message>,
    current: Response,
    rounds: nat,
    dispatched: seq<(string, SearchTools.Arguments)>)

  /** One iteration of the loop. The follow-up is the client's call number
      `start + |t.requests|`. */
  function Round(reply: (nat, Request) -> Response, start: nat, model: string,
                 exec: Executor, base: Request, t: Trace): Trace {
    var results := ToolResults(exec, t.current.content);
    var messages := AfterRound(t.messages, t.current.content, results);
    var request := FollowUp(model, base, messages, t.rounds + 1);
    Trace(t.requests + [request], messages, reply(start + |t.requests|, request),
          t.rounds + 1, t.dispatched + ToolCalls(t.current.content))
  }

  /** The loop: rounds run while the counter is below the cap and stop early
      once a response does not ask for tools. */
  function RoundLoop(reply: (nat, Request) -> Response, start: nat, model: string,
                     exec: Executor, base: Request, t: Trace): Trace
    requires t.rounds <= MAX_TOOL_ROUNDS
    decreases MAX_TOOL_ROUNDS - t.rounds
  {
    if t.rounds == MAX_TOOL_ROUNDS then t
    else
      var next := Round(reply, start, model, exec, base, t);
      if next.current.stopReason != TOOL_USE then next
      else RoundLoop(reply, start, model, exec, base, next)
  }

  /** The text of the first text block at or after position `i`, or `""`. */
  function FirstTextFrom(content: seq<Block>, i: nat): string
    requires i <= |content|
    decreases |content| - i
  {
    if i == |content| then ""
    else if content[i].TextBlock? then content[i].text
    else FirstTextFrom(content, i + 1)
  }

  function FirstText(content: seq<Block>): string {
    FirstTextFrom(content, 0)
  }

  // ---------------------------------------------------------------------------
  // The whole answer
  // ---------------------------------------------------------------------------

  /** What one `generate_response` call does: the requests it sends, its
      result, the tool calls it makes and the rounds it runs. */
  datatype Answer = Answer(
    requests: seq<Request>,
    result: Result<string>,
    dispatched: seq<(string, SearchTools.Arguments)>,
    rounds: nat)

  /** `generate_response`, for a client that has already received `start`
      calls; `manager` executes tool calls, `None` without a tool manager. */
  function Generate(reply: (nat, Request) -> Response, start: nat, model: string, prompt: string,
                    query: string, history: Option<string>,
                    tools: Option<seq<SearchTools.ToolDefinition>>,
                    manager: Option<Executor>): Answer {
    var first := FirstRequest(model, SystemContent(prompt, history), query, tools);
    var response := reply(start, first);
    if response.stopReason == TOOL_USE && manager.Some? then
      var t := RoundLoop(reply, start + 1, model, manager.value, first,
                         Trace([], first.messages, response, 0, []));
      Answer([first] + t.requests, Ok(FirstText(t.current.content)), t.dispatched, t.rounds)
    else
      Answer([first], DirectText(response), [], 0)
  }

  /** The names of the tools a sequence of calls invoked. */
  function CalledNames(calls: seq<(string, SearchTools.Arguments)>): set<string> {
    set c | c in calls :: c.0
  }

  lemma AppendAssociative<T>(a: seq<T>, b: seq<T>, c: seq<T>)
    ensures a + b + c == a + (b + c)
  {
  }

  // ---------------------------------------------------------------------------
  // The generator
  // ---------------------------------------------------------------------------

  class AIGenerator {
    const client: ModelClient
    const model: string
    /** The fixed system prompt; its text is given at construction. */
    const systemPrompt: string

    constructor (client: ModelClient, model: string, systemPrompt: string)
      ensures this.client == client && this.model == model && this.systemPrompt == systemPrompt
    {
      this.client := client;
      this.model := model;
      this.systemPrompt := systemPrompt;
    }

    /** `generate_response(query, conversation_history, tools, tool_manager)`;
        with no tool manager, `toolManager` is `null`. */
    method GenerateResponse(query: string, history: Option<string>,
                            tools: Option<seq<SearchTools.ToolDefinition>>,
                            toolManager: SearchTools.ToolManager?)
      returns (answer: Result<string>, ghost dispatched: seq<(string, SearchTools.Arguments)>)
      requires toolManager != null ==> toolManager.Valid()
      modifies client, if toolManager != null then toolManager.Repr() else {}
      ensures toolManager != null ==> unchanged(toolManager)
      ensures toolManager != null ==>
                forall n :: n in toolManager.tools.entries && n !in CalledNames(dispatched) ==>
                  SearchTools.SourcesOf(toolManager.tools.entries[n]) == old(SearchTools.SourcesOf(toolManager.tools.entries[n]))
      ensures var a := Generate(client.reply, |old(client.calls)|, model, systemPrompt, query, history, tools,
                                if toolManager != null then Some(DispatchOf(toolManager.tools.entries)) else None);
              client.calls == old(client.calls) + a.requests && answer == a.result && dispatched == a.dispatched
    {
      var systemContent := ComposeSystem(systemPrompt, history);
      var request := BuildRequest(model, systemContent, query, tools);
      var response := Send(request, toolManager);
      if response.stopReason == TOOL_USE && toolManager != null {
        ghost var before := client.calls;
        var text;
        text, dispatched := HandleToolExecution(response, request, toolManager);
        answer := Ok(text);
        ghost var t := RoundLoop(client.reply, |before|, model, DispatchOf(toolManager.tools.entries), request,
                                 Trace([], request.messages, response, 0, []));
        AppendAssociative(old(client.calls), [request], t.requests);
      } else {
        answer := FirstBlockText(response);
        dispatched := [];
      }
    }

    /** The first call of `generate_response`: only the client's log changes,
        so every tool keeps its citations. */
    method Send(request: Request, toolManager: SearchTools.ToolManager?) returns (response: Response)
      modifies client
      ensures client.calls == old(client.calls) + [request]
      ensures response == client.reply(|old(client.calls)|, request)
      ensures toolManager != null ==>
                (unchanged(toolManager) &&
                 forall n :: n in toolManager.tools.entries ==>
                   SearchTools.SourcesOf(toolManager.tools.entries[n]) == old(SearchTools.SourcesOf(toolManager.tools.entries[n])))
    {
      response := client.Create(request);
    }

    /** The system content of `generate_response`. */
    static method ComposeSystem(prompt: string, history: Option<string>) returns (systemContent: string)
      ensures systemContent == SystemContent(prompt, history)
    {
      systemContent := prompt;
      if TruthyString(history) {
        systemContent := prompt + HISTORY_HEADER + history.value;
      }
    }

    /** The parameters of the first call: `tools` and `tool_choice` are added
        only for a non-empty tool list. */
    static method BuildRequest(model: string, systemContent: string, query: string,
                               tools: Option<seq<SearchTools.ToolDefinition>>) returns (request: Request)
      ensures request == FirstRequest(model, systemContent, query, tools)
    {
      var toolsParam: Option<seq<SearchTools.ToolDefinition>> := None;
      var toolChoice: Option<string> := None;
      if TruthyTools(tools) {
        toolsParam := tools;
        toolChoice := Some(AUTO);
      }
      request := Request(model, TEMPERATURE, MAX_TOKENS, [Message(User, Prompt(query))],
                         systemContent, toolsParam, toolChoice);
    }

    /** `response.content[0].text` on the direct path. */
    static method FirstBlockText(response: Response) returns (answer: Result<string>)
      ensures answer == DirectText(response)
    {
      if |response.content| == 0 {
        return Err(INDEX_ERROR);
      }
      match response.content[0] {
        case TextBlock(t) => answer := Ok(t);
        case ToolUseBlock(_, _, _) => answer := Err(NO_TEXT_ERROR);
      }
    }

    /** `_handle_tool_execution(initial_response, base_params, tool_manager)`. */
    method HandleToolExecution(initial: Response, base: Request, toolManager: SearchTools.ToolManager)
      returns (text: string, ghost dispatched: seq<(string, SearchTools.Arguments)>)
      requires toolManager.Valid()
      modifies client, toolManager.Repr()
      ensures unchanged(toolManager)
      ensures forall n :: n in toolManager.tools.entries && n !in CalledNames(dispatched) ==>
                SearchTools.SourcesOf(toolManager.tools.entries[n]) == old(SearchTools.SourcesOf(toolManager.tools.entries[n]))
      ensures var t := RoundLoop(client.reply, |old(client.calls)|, model, DispatchOf(toolManager.tools.entries), base,
                                 Trace([], base.messages, initial, 0, []));
              client.calls == old(client.calls) + t.requests
              && text == FirstText(t.current.content) && dispatched == t.dispatched
    {
      ghost var prefix := client.calls;
      ghost var exec := DispatchOf(toolManager.tools.entries);
      ghost var goal := RoundLoop(client.reply, |prefix|, model, exec, base, Trace([], base.messages, initial, 0, []));
      var messages := base.messages;
      var current := initial;
      var roundCount: nat := 0;
      ghost var t := Trace([], messages, current, roundCount, []);
      while roundCount < MAX_TOOL_ROUNDS
        invariant t.messages == messages && t.current == current && t.rounds == roundCount <= MAX_TOOL_ROUNDS
        invariant unchanged(toolManager) && exec == DispatchOf(toolManager.tools.entries)
        invariant client.calls == prefix + t.requests
        invariant forall n :: n in toolManager.tools.entries && n !in CalledNames(t.dispatched) ==>
                  SearchTools.SourcesOf(toolManager.tools.entries[n]) == old(SearchTools.SourcesOf(toolManager.tools.entries[n]))
        invariant RoundLoop(client.reply, |prefix|, model, exec, base, t) == goal
        decreases MAX_TOOL_ROUNDS - roundCount
      {
        t, messages, current, roundCount := RunRound(prefix, base, toolManager, t, messages, current, roundCount);
        if current.stopReason != TOOL_USE {
          break;
        }
      }
      text := ExtractText(current.content);
      dispatched := t.dispatched;
    }

    /** One iteration of the loop: the assistant turn, the tool results when
        there are any, and the follow-up call, whose tools are dropped once the
        counter reaches the cap. */
    method RunRound(ghost prefix: seq<Request>, base: Request, toolManager: SearchTools.ToolManager,
                    ghost t: Trace, messages: seq<Message>, current: Response, roundCount: nat)
      returns (ghost next: Trace, nextMessages: seq<Message>, response: Response, nextCount: nat)
      requires toolManager.Valid()
      requires t.messages == messages && t.current == current && t.rounds == roundCount
      requires client.calls == prefix + t.requests
      modifies client, toolManager.Repr()
      ensures unchanged(toolManager)
      ensures next == Round(client.reply, |prefix|, model, DispatchOf(toolManager.tools.entries), base, t)
      ensures next.messages == nextMessages && next.current == response && next.rounds == nextCount
      ensures client.calls == prefix + next.requests
      ensures CalledNames(t.dispatched) <= CalledNames(next.dispatched)
      ensures forall n :: n in toolManager.tools.entries && n !in CalledNames(next.dispatched) ==>
                SearchTools.SourcesOf(toolManager.tools.entries[n]) == old(SearchTools.SourcesOf(toolManager.tools.entries[n]))
    {
      nextMessages := messages + [Message(Assistant, Turn(current.content))];
      ghost var callsBefore := client.calls;
      var results, calls := ExecuteToolUses(current.content, toolManager);
      assert client.calls == callsBefore;
      if results != [] {
        nextMessages := nextMessages + [Message(User, Results(results))];
      }
      nextCount := roundCount + 1;
      var keep := nextCount < MAX_TOOL_ROUNDS && base.tools.Some?;
      var request := Request(model, TEMPERATURE, MAX_TOKENS, nextMessages, base.system,
                             if keep then base.tools else None,
                             if keep then Some(AUTO) else None);
      response := client.Create(request);
      assert nextMessages == AfterRound(messages, current.content, results);
      next := Trace(t.requests + [request], nextMessages, response, nextCount, t.dispatched + calls);
    }

    /** The inner loop of a round: one tool result per tool-use block, in
        order, with the block's id; an exception becomes the result text. */
    method ExecuteToolUses(content: seq<Block>, toolManager: SearchTools.ToolManager)
      returns (results: seq<ToolResult>, ghost calls: seq<(string, SearchTools.Arguments)>)
      requires toolManager.Valid()
      modifies toolManager.Repr()
      ensures unchanged(toolManager)
      ensures results == ToolResults(DispatchOf(toolManager.tools.entries), content)
      ensures calls == ToolCalls(content)
      ensures forall n :: n in toolManager.tools.entries && n !in CalledNames(calls) ==>
                SearchTools.SourcesOf(toolManager.tools.entries[n]) == old(SearchTools.SourcesOf(toolManager.tools.entries[n]))
    {
      results := [];
      calls := [];
      for j := 0 to |content|
        invariant unchanged(toolManager)
        invariant results == ResultsUpTo(DispatchOf(toolManager.tools.entries), content, j)
        invariant calls == CallsUpTo(content, j)
        invariant forall n :: n in toolManager.tools.entries && n !in CalledNames(calls) ==>
                  SearchTools.SourcesOf(toolManager.tools.entries[n]) == old(SearchTools.SourcesOf(toolManager.tools.entries[n]))
      {
        match content[j] {
          case ToolUseBlock(id, name, input) =>
            var outcome := toolManager.ExecuteTool(name, input);
            var toolResult: string;
            match outcome {
              case Returned(t) => toolResult := t;
              case Raised(m) => toolResult := TOOL_ERROR_PREFIX + m;
            }
            results := results + [ToolResult(id, toolResult)];
            calls := calls + [(name, input)];
          case TextBlock(_) =>
        }
      }
    }

    /** The text of the first block that has one, or `""`. */
    static method ExtractText(content: seq<Block>) returns (text: string)
      ensures text == FirstText(content)
    {
      for i := 0 to |content|
        invariant FirstTextFrom(content, i) == FirstText(content)
      {
        if content[i].TextBlock? {
          return content[i].text;
        }
      }
      return "";
    }
  }
}
