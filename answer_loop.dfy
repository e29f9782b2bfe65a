/** Properties of the answer loop of `AiGenerator`: what one round appends to
    the history, how tool results correlate with the tool-use blocks, the
    round cap and the tool gating of the follow-up requests, and the final
    text. */
module AnswerLoop {
  import opened Wrappers
  import opened Text
  import SearchTools
  import opened AiGenerator

  // ---------------------------------------------------------------------------
  // System text and first request
  // ---------------------------------------------------------------------------

  /** The prompt always comes first; the header and the history follow
      exactly when the history is truthy (so `None` and `""` both leave the
      prompt unchanged). */
  lemma SystemContentShape(prompt: string, history: Option<string>)
    ensures var s := SystemContent(prompt, history);
            && prompt <= s
            && (TruthyString(history) ==> s[|prompt|..] == HISTORY_HEADER + history.value)
            && (!TruthyString(history) ==> s == prompt)
  {
    if TruthyString(history) {
      assert (prompt + HISTORY_HEADER + history.value)[|prompt|..] == HISTORY_HEADER + history.value;
    }
  }

  /** The first request holds the query as its only message and carries the
      tools, with `tool_choice` auto, exactly when the tool list is non-empty. */
  lemma FirstRequestGating(model: string, system: string, query: string,
                           tools: Option<seq<SearchTools.ToolDefinition>>)
    ensures var r := FirstRequest(model, system, query, tools);
            && r.messages == [Message(User, Prompt(query))] && r.system == system
            && (r.tools.Some? <==> tools.Some? && tools.value != [])
            && (r.tools.Some? ==> r.tools == tools && r.toolChoice == Some(AUTO))
            && (r.tools.None? ==> r.toolChoice.None?)
  {
  }

  // ---------------------------------------------------------------------------
  // Tool results
  // ---------------------------------------------------------------------------

  /** The tool-use blocks of `content`, in order. */
  function ToolUses(content: seq<Block>): (uses: seq<Block>)
    ensures forall k :: 0 <= k < |uses| ==> uses[k].ToolUseBlock?
  {
    if content == [] then []
    else (if content[0].ToolUseBlock? then [content[0]] else []) + ToolUses(content[1..])
  }

  predicate HasToolUse(content: seq<Block>) {
    exists k :: 0 <= k < |content| && content[k].ToolUseBlock?
  }

  lemma {:induction false} ToolUsesConcat(a: seq<Block>, b: seq<Block>)
    ensures ToolUses(a + b) == ToolUses(a) + ToolUses(b)
    decreases |a|
  {
    if a == [] {
      assert a + b == b;
    } else {
      assert (a + b)[0] == a[0];
      assert (a + b)[1..] == a[1..] + b;
      ToolUsesConcat(a[1..], b);
    }
  }

  lemma ToolUsesSnoc(content: seq<Block>, j: nat)
    requires j < |content|
    ensures ToolUses(content[..j + 1])
         == ToolUses(content[..j]) + (if content[j].ToolUseBlock? then [content[j]] else [])
  {
    assert content[..j + 1] == content[..j] + [content[j]];
    ToolUsesConcat(content[..j], [content[j]]);
    assert [content[j]][1..] == [];
  }

  /** `ResultsUpTo` and `CallsUpTo` follow the tool-use blocks among the first
      `j` blocks, one entry per block. */
  lemma {:induction false} ResultsFollowToolUses(exec: Executor, content: seq<Block>, j: nat)
    requires j <= |content|
    ensures var uses, results, calls := ToolUses(content[..j]), ResultsUpTo(exec, content, j), CallsUpTo(content, j);
            && |results| == |uses| && |calls| == |uses|
            && forall k :: 0 <= k < |uses| ==>
                 results[k] == ToolResult(uses[k].id, ResultText(exec(uses[k].name, uses[k].input)))
                 && calls[k] == (uses[k].name, uses[k].input)
    decreases j
  {
    if j > 0 {
      ResultsFollowToolUses(exec, content, j - 1);
      ToolUsesSnoc(content, j - 1);
    }
  }

  /** One tool result per tool-use block, in order, whose `tool_use_id` is the
      block's id and whose content is what the tool returned, or the exception
      message after `"Tool execution error: "`; and one dispatched call per
      block with the block's name and input. */
  lemma ToolResultsCorrelate(exec: Executor, content: seq<Block>)
    ensures var uses, results, calls := ToolUses(content), ToolResults(exec, content), ToolCalls(content);
            && |results| == |uses| && |calls| == |uses|
            && forall k :: 0 <= k < |uses| ==>
                 && results[k].toolUseId == uses[k].id
                 && calls[k] == (uses[k].name, uses[k].input)
                 && (exec(uses[k].name, uses[k].input).Returned? ==>
                       results[k].content == exec(uses[k].name, uses[k].input).text)
                 && (exec(uses[k].name, uses[k].input).Raised? ==>
                       results[k].content == TOOL_ERROR_PREFIX + exec(uses[k].name, uses[k].input).message)
  {
    assert content[..|content|] == content;
    ResultsFollowToolUses(exec, content, |content|);
  }

  /** There are tool-use blocks exactly when there is a tool-use block. */
  lemma {:induction false} ToolUsesEmpty(content: seq<Block>)
    ensures ToolUses(content) == [] <==> !HasToolUse(content)
    decreases |content|
  {
    if content != [] {
      ToolUsesEmpty(content[1..]);
      if HasToolUse(content[1..]) {
        var k :| 0 <= k < |content[1..]| && content[1..][k].ToolUseBlock?;
        assert content[k + 1].ToolUseBlock?;
      }
      if HasToolUse(content) && !content[0].ToolUseBlock? {
        var k :| 0 <= k < |content| && content[k].ToolUseBlock?;
        assert content[1..][k - 1].ToolUseBlock?;
      }
    }
  }

  // ---------------------------------------------------------------------------
  // The history
  // ---------------------------------------------------------------------------

  /** A round appends the assistant turn, then one user turn holding the tool
      results, but only when the response had a tool-use block. */
  lemma RoundHistory(reply: (nat, Request) -> Response, start: nat, model: string,
                     exec: Executor, base: Request, t: Trace)
    ensures var n := Round(reply, start, model, exec, base, t);
            var turn := Message(Assistant, Turn(t.current.content));
            && (HasToolUse(t.current.content) ==>
                  n.messages == t.messages + [turn, Message(User, Results(ToolResults(exec, t.current.content)))])
            && (!HasToolUse(t.current.content) ==> n.messages == t.messages + [turn])
  {
    ToolResultsCorrelate(exec, t.current.content);
    ToolUsesEmpty(t.current.content);
  }

  /** After the first round on a response with a tool-use block, the history is
      the query, the assistant turn and the tool results: three messages. */
  lemma FirstRoundHistory(reply: (nat, Request) -> Response, start: nat, model: string,
                          exec: Executor, base: Request, query: string, current: Response, k: nat)
    requires k < |current.content| && current.content[k].ToolUseBlock?
    ensures var n := Round(reply, start, model, exec, base, Trace([], [Message(User, Prompt(query))], current, 0, []));
            && |n.messages| == 3
            && n.messages == [Message(User, Prompt(query)), Message(Assistant, Turn(current.content)),
                              Message(User, Results(ToolResults(exec, current.content)))]
  {
    RoundHistory(reply, start, model, exec, base, Trace([], [Message(User, Prompt(query))], current, 0, []));
  }

  // ---------------------------------------------------------------------------
  // The round loop
  // ---------------------------------------------------------------------------

  /** A follow-up request sent after round `round`: the fixed parameters, the
      first request's system text, and the tools with `tool_choice` auto
      exactly while `round < MAX_TOOL_ROUNDS` and the first request had tools. */
  predicate Gated(model: string, base: Request, r: Request, round: nat) {
    var keep := round < MAX_TOOL_ROUNDS && base.tools.Some?;
    && r.model == model && r.temperature == TEMPERATURE && r.maxTokens == MAX_TOKENS
    && r.system == base.system
    && r.tools == (if keep then base.tools else None)
    && r.toolChoice == (if keep then Some(AUTO) else None)
  }

  /** The loop from state `t` counts rounds: it runs at least one round when
      the counter is below the cap and never exceeds the cap, it sends one
      follow-up per round after those already sent, and a loop that ends below
      the cap ends on a response that does not ask for tools. */
  lemma {:induction false} RoundLoopCount(reply: (nat, Request) -> Response, start: nat, model: string,
                                          exec: Executor, base: Request, t: Trace)
    requires t.rounds <= MAX_TOOL_ROUNDS
    ensures var r := RoundLoop(reply, start, model, exec, base, t);
            && t.rounds <= r.rounds <= MAX_TOOL_ROUNDS
            && (t.rounds < MAX_TOOL_ROUNDS ==> t.rounds < r.rounds)
            && (r.rounds == t.rounds ==> r == t)
            && |r.requests| == |t.requests| + (r.rounds - t.rounds)
            && r.requests[..|t.requests|] == t.requests
            && (r.rounds < MAX_TOOL_ROUNDS ==> r.current.stopReason != TOOL_USE)
    decreases MAX_TOOL_ROUNDS - t.rounds
  {
    if t.rounds < MAX_TOOL_ROUNDS {
      var next := Round(reply, start, model, exec, base, t);
      assert next.requests[..|t.requests|] == t.requests;
      if next.current.stopReason == TOOL_USE {
        RoundLoopCount(reply, start, model, exec, base, next);
        var r := RoundLoop(reply, start, model, exec, base, next);
        assert r.requests[..|t.requests|] == next.requests[..|t.requests|];
      }
    }
  }

  /** Tool gating of the loop from state `t`: the `i`-th new follow-up is
      gated by its round number. */
  lemma {:induction false} RoundLoopGating(reply: (nat, Request) -> Response, start: nat, model: string,
                                           exec: Executor, base: Request, t: Trace)
    requires t.rounds <= MAX_TOOL_ROUNDS
    ensures var r := RoundLoop(reply, start, model, exec, base, t);
            forall i :: |t.requests| <= i < |r.requests| ==>
              Gated(model, base, r.requests[i], t.rounds + (i - |t.requests|) + 1)
    decreases MAX_TOOL_ROUNDS - t.rounds
  {
    if t.rounds < MAX_TOOL_ROUNDS {
      var next := Round(reply, start, model, exec, base, t);
      if next.current.stopReason == TOOL_USE {
        RoundLoopGating(reply, start, model, exec, base, next);
        RoundLoopCount(reply, start, model, exec, base, next);
        var r := RoundLoop(reply, start, model, exec, base, next);
        assert r.requests[|t.requests|] == next.requests[|t.requests|];
      }
    }
  }

  /** The replies in the loop from state `t`: every new response but the last
      asked for tools, and the final response is the reply to the last
      request. */
  lemma {:induction false} RoundLoopReplies(reply: (nat, Request) -> Response, start: nat, model: string,
                                            exec: Executor, base: Request, t: Trace)
    requires t.rounds <= MAX_TOOL_ROUNDS
    ensures var r := RoundLoop(reply, start, model, exec, base, t);
            && (forall i :: |t.requests| <= i < |r.requests| - 1 ==> reply(start + i, r.requests[i]).stopReason == TOOL_USE)
            && (|t.requests| < |r.requests| ==> r.current == reply(start + |r.requests| - 1, r.requests[|r.requests| - 1]))
    decreases MAX_TOOL_ROUNDS - t.rounds
  {
    if t.rounds < MAX_TOOL_ROUNDS {
      var next := Round(reply, start, model, exec, base, t);
      if next.current.stopReason == TOOL_USE {
        RoundLoopReplies(reply, start, model, exec, base, next);
        RoundLoopCount(reply, start, model, exec, base, next);
        var r := RoundLoop(reply, start, model, exec, base, next);
        assert r.requests[|t.requests|] == next.requests[|t.requests|];
        assert reply(start + |t.requests|, r.requests[|t.requests|]) == next.current;
      }
    }
  }

  /** The tool calls of the responses to `requests[lo..hi]`, joined in order;
      the response to `requests[i]` is the client's call number `start + i`. */
  function RepliedCalls(reply: (nat, Request) -> Response, start: nat, requests: seq<Request>,
                        lo: nat, hi: nat): seq<(string, SearchTools.Arguments)>
    requires lo <= hi <= |requests|
    decreases hi - lo
  {
    if lo == hi then [] else ToolCalls(reply(start + lo, requests[lo]).content) + RepliedCalls(reply, start, requests, lo + 1, hi)
  }

  /** Counting the first request along shifts the call numbers by one. */
  lemma {:induction false} RepliedCallsShift(reply: (nat, Request) -> Response, start: nat, first: Request,
                                             requests: seq<Request>, lo: nat, hi: nat)
    requires lo <= hi <= |requests|
    ensures RepliedCalls(reply, start, [first] + requests, lo + 1, hi + 1) == RepliedCalls(reply, start + 1, requests, lo, hi)
    decreases hi - lo
  {
    if lo < hi {
      RepliedCallsShift(reply, start, first, requests, lo + 1, hi);
      assert ([first] + requests)[lo + 1] == requests[lo];
    }
  }

  /** The tool calls of the loop from state `t`: those of the current
      response, then those of every new response but the last, in order. The
      last response's tool-use blocks are never executed. */
  lemma {:induction false} RoundLoopDispatched(reply: (nat, Request) -> Response, start: nat, model: string,
                                               exec: Executor, base: Request, t: Trace)
    requires t.rounds <= MAX_TOOL_ROUNDS
    ensures var r := RoundLoop(reply, start, model, exec, base, t);
            && (r.rounds == t.rounds ==> r.dispatched == t.dispatched)
            && (r.rounds > t.rounds ==>
                  |t.requests| < |r.requests| &&
                  r.dispatched == t.dispatched + ToolCalls(t.current.content)
                                  + RepliedCalls(reply, start, r.requests, |t.requests|, |r.requests| - 1))
    decreases MAX_TOOL_ROUNDS - t.rounds
  {
    RoundLoopCount(reply, start, model, exec, base, t);
    if t.rounds < MAX_TOOL_ROUNDS {
      var next := Round(reply, start, model, exec, base, t);
      if next.current.stopReason == TOOL_USE {
        RoundLoopDispatched(reply, start, model, exec, base, next);
        RoundLoopCount(reply, start, model, exec, base, next);
        var r := RoundLoop(reply, start, model, exec, base, next);
        assert r.requests[|t.requests|] == next.requests[|t.requests|];
        assert reply(start + |t.requests|, r.requests[|t.requests|]) == next.current;
        if r.rounds == next.rounds {
          assert |r.requests| - 1 == |t.requests|;
        } else {
          calc {
            r.dispatched;
            next.dispatched + ToolCalls(next.current.content)
              + RepliedCalls(reply, start, r.requests, |t.requests| + 1, |r.requests| - 1);
            { AppendAssociative(next.dispatched, ToolCalls(next.current.content),
                                RepliedCalls(reply, start, r.requests, |t.requests| + 1, |r.requests| - 1)); }
            t.dispatched + ToolCalls(t.current.content)
              + RepliedCalls(reply, start, r.requests, |t.requests|, |r.requests| - 1);
          }
        }
      } else {
        assert next.requests[|t.requests|..|next.requests| - 1] == [];
      }
    }
  }

  /** The loop as `_handle_tool_execution` starts it, with no follow-up sent
      and the counter at zero: between one and `MAX_TOOL_ROUNDS` rounds, one
      follow-up per round, the `i`-th gated by round `i + 1`, every response
      but the last asking for tools, and a stop below the cap only on a
      response that does not. */
  lemma LoopFromStart(reply: (nat, Request) -> Response, start: nat, model: string,
                      exec: Executor, base: Request, response: Response)
    ensures var r := RoundLoop(reply, start, model, exec, base, Trace([], base.messages, response, 0, []));
            var last := |r.requests| - 1;
            && 1 <= r.rounds <= MAX_TOOL_ROUNDS && |r.requests| == r.rounds
            && (forall i :: 0 <= i < |r.requests| ==> Gated(model, base, r.requests[i], i + 1))
            && (forall i :: 0 <= i < last ==> reply(start + i, r.requests[i]).stopReason == TOOL_USE)
            && r.current == reply(start + last, r.requests[last])
            && (r.rounds < MAX_TOOL_ROUNDS ==> r.current.stopReason != TOOL_USE)
  {
    var t0 := Trace([], base.messages, response, 0, []);
    RoundLoopCount(reply, start, model, exec, base, t0);
    RoundLoopGating(reply, start, model, exec, base, t0);
    RoundLoopReplies(reply, start, model, exec, base, t0);
  }

  // ---------------------------------------------------------------------------
  // The whole answer
  // ---------------------------------------------------------------------------

  /** Without a tool manager, or when the first response does not ask for
      tools, exactly one call is made, no tool is called and the result is
      `content[0].text`. */
  lemma GenerateDirect(reply: (nat, Request) -> Response, start: nat, model: string, prompt: string,
                       query: string, history: Option<string>,
                       tools: Option<seq<SearchTools.ToolDefinition>>, manager: Option<Executor>)
    requires var first := FirstRequest(model, SystemContent(prompt, history), query, tools);
             reply(start, first).stopReason != TOOL_USE || manager.None?
    ensures var first := FirstRequest(model, SystemContent(prompt, history), query, tools);
            var a := Generate(reply, start, model, prompt, query, history, tools, manager);
            && a.requests == [first] && a.dispatched == [] && a.rounds == 0
            && a.result == DirectText(reply(start, first))
  {
  }

  /** The call bound: one call for the first request and one per round, at
      most `MAX_TOOL_ROUNDS` rounds; every response but the last asked for
      tools, and the last one does not when the loop stopped below the cap. */
  lemma GenerateCalls(reply: (nat, Request) -> Response, start: nat, model: string, prompt: string,
                      query: string, history: Option<string>,
                      tools: Option<seq<SearchTools.ToolDefinition>>, manager: Option<Executor>)
    ensures var first := FirstRequest(model, SystemContent(prompt, history), query, tools);
            var a := Generate(reply, start, model, prompt, query, history, tools, manager);
            var last := |a.requests| - 1;
            && |a.requests| == a.rounds + 1 && a.rounds <= MAX_TOOL_ROUNDS
            && a.requests[0] == first
            && (forall i :: 0 <= i < last ==> reply(start + i, a.requests[i]).stopReason == TOOL_USE)
            && (manager.Some? && a.rounds < MAX_TOOL_ROUNDS ==> reply(start + last, a.requests[last]).stopReason != TOOL_USE)
  {
    var first := FirstRequest(model, SystemContent(prompt, history), query, tools);
    var response := reply(start, first);
    if response.stopReason == TOOL_USE && manager.Some? {
      LoopFromStart(reply, start + 1, model, manager.value, first, response);
    }
  }

  /** The tools executed: the tool-use blocks of every response but the last,
      in the order of the responses, so none on the direct path and none of
      the response that ends the loop. */
  lemma GenerateDispatched(reply: (nat, Request) -> Response, start: nat, model: string, prompt: string,
                           query: string, history: Option<string>,
                           tools: Option<seq<SearchTools.ToolDefinition>>, manager: Option<Executor>)
    ensures var a := Generate(reply, start, model, prompt, query, history, tools, manager);
            && 1 <= |a.requests|
            && a.dispatched == RepliedCalls(reply, start, a.requests, 0, |a.requests| - 1)
  {
    var first := FirstRequest(model, SystemContent(prompt, history), query, tools);
    var response := reply(start, first);
    if response.stopReason == TOOL_USE && manager.Some? {
      var t0 := Trace([], first.messages, response, 0, []);
      RoundLoopDispatched(reply, start + 1, model, manager.value, first, t0);
      RoundLoopCount(reply, start + 1, model, manager.value, first, t0);
      var t := RoundLoop(reply, start + 1, model, manager.value, first, t0);
      RepliedCallsShift(reply, start, first, t.requests, 0, |t.requests| - 1);
      assert ([first] + t.requests)[0] == first;
    }
  }

  /** Tool gating: the `i`-th follow-up carries the tools, with `tool_choice`
      auto, exactly when `i < MAX_TOOL_ROUNDS` and the tool list was
      non-empty; the call after the last permitted round carries none. */
  lemma GenerateGating(reply: (nat, Request) -> Response, start: nat, model: string, prompt: string,
                       query: string, history: Option<string>,
                       tools: Option<seq<SearchTools.ToolDefinition>>, manager: Option<Executor>)
    ensures var a := Generate(reply, start, model, prompt, query, history, tools, manager);
            forall i :: 1 <= i < |a.requests| ==>
              && a.requests[i].system == SystemContent(prompt, history)
              && a.requests[i].tools == (if i < MAX_TOOL_ROUNDS && TruthyTools(tools) then tools else None)
              && a.requests[i].toolChoice == (if i < MAX_TOOL_ROUNDS && TruthyTools(tools) then Some(AUTO) else None)
  {
    var first := FirstRequest(model, SystemContent(prompt, history), query, tools);
    var response := reply(start, first);
    if response.stopReason == TOOL_USE && manager.Some? {
      LoopFromStart(reply, start + 1, model, manager.value, first, response);
      var a := Generate(reply, start, model, prompt, query, history, tools, manager);
      var t := RoundLoop(reply, start + 1, model, manager.value, first, Trace([], first.messages, response, 0, []));
      forall i | 1 <= i < |a.requests|
        ensures Gated(model, first, a.requests[i], i)
      {
        assert a.requests[i] == t.requests[i - 1];
      }
    }
  }

  /** On the tool path the answer is always text: the first text block of the
      last response, after at least one round. */
  lemma GenerateWithTools(reply: (nat, Request) -> Response, start: nat, model: string, prompt: string,
                          query: string, history: Option<string>,
                          tools: Option<seq<SearchTools.ToolDefinition>>, manager: Option<Executor>)
    requires var first := FirstRequest(model, SystemContent(prompt, history), query, tools);
             reply(start, first).stopReason == TOOL_USE && manager.Some?
    ensures var a := Generate(reply, start, model, prompt, query, history, tools, manager);
            var last := |a.requests| - 1;
            && 1 <= a.rounds
            && a.result == Ok(FirstText(reply(start + last, a.requests[last]).content))
  {
    var first := FirstRequest(model, SystemContent(prompt, history), query, tools);
    LoopFromStart(reply, start + 1, model, manager.value, first, reply(start, first));
  }

  /** A model that always asks for tools runs into the cap: three calls, the
      last one without tools, and exactly the tool calls of the first two
      responses executed. */
  lemma AlwaysToolUseHitsCap(reply: (nat, Request) -> Response, start: nat, model: string, prompt: string,
                             query: string, history: Option<string>,
                             tools: Option<seq<SearchTools.ToolDefinition>>, exec: Executor)
    requires forall i, r :: reply(i, r).stopReason == TOOL_USE
    ensures var a := Generate(reply, start, model, prompt, query, history, tools, Some(exec));
            && a.rounds == MAX_TOOL_ROUNDS && |a.requests| == MAX_TOOL_ROUNDS + 1
            && a.requests[MAX_TOOL_ROUNDS].tools.None? && a.requests[MAX_TOOL_ROUNDS].toolChoice.None?
            && a.dispatched == ToolCalls(reply(start, a.requests[0]).content)
                               + ToolCalls(reply(start + 1, a.requests[1]).content)
  {
    GenerateCalls(reply, start, model, prompt, query, history, tools, Some(exec));
    GenerateGating(reply, start, model, prompt, query, history, tools, Some(exec));
    GenerateDispatched(reply, start, model, prompt, query, history, tools, Some(exec));
    var a := Generate(reply, start, model, prompt, query, history, tools, Some(exec));
    assert RepliedCalls(reply, start, a.requests, 2, 2) == [];
  }

  /** The result of tool-use block `k` is among the results of the first `j`
      blocks once `j` is past `k`. */
  lemma {:induction false} ResultOfBlock(exec: Executor, content: seq<Block>, k: nat, j: nat)
    requires k < j <= |content| && content[k].ToolUseBlock?
    ensures ToolResult(content[k].id, ResultText(exec(content[k].name, content[k].input)))
              in ResultsUpTo(exec, content, j)
    decreases j
  {
    if j > k + 1 {
      ResultOfBlock(exec, content, k, j - 1);
    }
  }

  /** A tool that raises does not end the loop: the exception goes back to the
      model as the result text of its block, and when the model asks for tools
      again a second round runs. */
  lemma ToolErrorDoesNotEndLoop(reply: (nat, Request) -> Response, start: nat, model: string,
                                exec: Executor, base: Request, response: Response, k: nat)
    requires response.stopReason == TOOL_USE
    requires k < |response.content| && response.content[k].ToolUseBlock?
    requires exec(response.content[k].name, response.content[k].input).Raised?
    requires forall q :: reply(start, q).stopReason == TOOL_USE
    ensures var t0 := Trace([], base.messages, response, 0, []);
            var first := Round(reply, start, model, exec, base, t0);
            var block := response.content[k];
            && ToolResult(block.id, TOOL_ERROR_PREFIX + exec(block.name, block.input).message)
                 in ToolResults(exec, response.content)
            && first.requests[0].messages[|base.messages| + 1] == Message(User, Results(ToolResults(exec, response.content)))
            && RoundLoop(reply, start, model, exec, base, t0).rounds == MAX_TOOL_ROUNDS
  {
    var t0 := Trace([], base.messages, response, 0, []);
    ResultOfBlock(exec, response.content, k, |response.content|);
    var first := Round(reply, start, model, exec, base, t0);
    assert first.current.stopReason == TOOL_USE;
    assert RoundLoop(reply, start, model, exec, base, t0) == RoundLoop(reply, start, model, exec, base, first);
    var second := Round(reply, start, model, exec, base, first);
    assert second.rounds == MAX_TOOL_ROUNDS;
    assert RoundLoop(reply, start, model, exec, base, second) == second;
  }

  // ---------------------------------------------------------------------------
  // The final text
  // ---------------------------------------------------------------------------

  lemma {:induction false} FirstTextFromSkips(content: seq<Block>, k: nat, i: nat)
    requires k <= i < |content| && content[i].TextBlock?
    requires forall j :: k <= j < i ==> !content[j].TextBlock?
    ensures FirstTextFrom(content, k) == content[i].text
    decreases i - k
  {
    if k < i {
      FirstTextFromSkips(content, k + 1, i);
    }
  }

  lemma {:induction false} FirstTextFromNone(content: seq<Block>, k: nat)
    requires k <= |content|
    requires forall j :: k <= j < |content| ==> !content[j].TextBlock?
    ensures FirstTextFrom(content, k) == ""
    decreases |content| - k
  {
    if k < |content| {
      FirstTextFromNone(content, k + 1);
    }
  }

  /** The final text is the text of the first text block, and `""` when the
      response has no text block. */
  lemma FirstTextIsFirst(content: seq<Block>)
    ensures forall i :: 0 <= i < |content| && content[i].TextBlock?
                        && (forall j :: 0 <= j < i ==> !content[j].TextBlock?) ==>
              FirstText(content) == content[i].text
    ensures (forall j :: 0 <= j < |content| ==> !content[j].TextBlock?) ==> FirstText(content) == ""
  {
    forall i | 0 <= i < |content| && content[i].TextBlock? && (forall j :: 0 <= j < i ==> !content[j].TextBlock?)
      ensures FirstText(content) == content[i].text
    {
      FirstTextFromSkips(content, 0, i);
    }
    if forall j :: 0 <= j < |content| ==> !content[j].TextBlock? {
      FirstTextFromNone(content, 0);
    }
  }
}
