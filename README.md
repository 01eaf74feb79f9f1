# intellifun core in Dafny

This project models the two stateful parts of the intellifun library and proves what they promise.

- **The agent** (`intellifun/agent.py`). An `Agent` holds a registry of `Tool`s and a window of its most recent tool calls.
  - Each tool has an in-place call counter. A call to a tool that has already been called as often as its limit allows removes the tool from the registry, without running it.
  - The window holds at most five `(name, arguments)` calls. An exact repeat of a call in the window is answered with a guard message instead of being run.
  - `ask` runs at most ten rounds over a conversation that is only appended to. Each round calls the model backend, then does one of four things:
    - runs the reply's tool calls and goes round again;
    - asks for a correction after content that is not valid JSON;
    - stops on a backend error;
    - returns the reply's content.
  - At the end, the conversation is flushed to memory and the call's token usage is merged into the caller's accumulator.
- **The LLM function** (`intellifun/LLMFunc.py`). A system prompt, an optional result shape and an optional validator become a callable.
  - The callable asks the backend and checks the reply with `check_result`: parse, then validate.
  - On failure, it feeds the failed reply and a corrective turn back to the backend, for up to `max_attempts` calls.

Everything outside the process is a parameter:
- the backend is a script of replies indexed by call number (`Messages.Backend`);
- `json.loads` is a `Parser` and `json.dumps` is a `dumps` function;
- tool handlers are functions from a call to an outcome (`ToolDispatch.Handler`);
- the random apology text is a string argument (`apology`).

Layout:
- `wrappers.dfy`: `Option`, `Result` and `Outcome` (returns or raises).
- `messages.dfy`: values, messages, tool calls, per-model token totals and the `AgentUsage` accumulator class.
- `llm_func.dfy` and `llm_func_props.dfy`:
  - the LLM function: `CheckResult`, `check_result`, the retry loop as the method `Invoke`, and its specification `Retry`;
  - the properties of the retry loop, proved about `Retry`.
- `tool_dispatch.dfy`: the value model of `run_tool_func` and `process_func_call`, over a registry of tool views, with its properties.
- `agent_loop.dfy` and `agent_loop_props.dfy`:
  - the value model of the `ask` loop: `Round` and `Rounds`;
  - the properties of the whole loop.
- `agent.dfy`: the classes `Tool`, `Memory` and `Agent`. Their methods change the registry, the counters, the window, the memory and the usage accumulator in place, and are proved to do what the value models say.

Some methods split up code that the source writes inline, so that each verifies on its own:
- `Agent.HandleToolCall`: one pass of the `process_func_call` loop.
- `Agent.TakeRound`: one pass of the `ask` loop.
- `Agent.Finish`: the flush-and-merge code, which appears twice in `ask`.
- `Agent.RunTool`, `Agent.CallHandler`, `Agent.RemoveTool` and `Agent.CountCall`: the branches of `run_tool_func`.

The texts the tool layer hands back to the model are kept symbolic as a `ToolDispatch.Notice`. `ToolDispatch.Render` gives each notice's exact text, and `ToolDispatch.Content` turns a reply into the value placed in the `ToolMessage`.

## Model

| member | source | states |
|---|---|---|
| Messages.OptionalText | intellifun/LLMFunc.py:162 | absent content is `None`; present content is that string |
| Messages.AddTokens | intellifun/agent.py:94-95 | adding a reply's tokens raises only that model's total, and by exactly that amount |
| Messages.MergeTotals | intellifun/agent.py:124-125 | merging sums the totals model by model, over the union of the models |
| Messages.UsageOf | intellifun/LLMFunc.py:55-56 | a reply contributes usage if and only if it names a non-empty model and reports a usage |
| Messages.WithUsageOf | intellifun/agent.py:94-95 | the totals change only for a reply with usage, and then by adding its tokens to its model |
| Messages.AddRepliesSums | intellifun/agent.py:92-95 | after a sequence of replies, each model's total is the start plus the sum of the tokens reported for it |
| Messages.AgentUsage.constructor | intellifun/agent.py:72 | a fresh accumulator is empty |
| Messages.AgentUsage.AddUsage | intellifun/agent.py:95 | the accumulator becomes the old totals plus this reply's tokens for its model |
| Messages.AgentUsage.Merge | intellifun/agent.py:125 | the accumulator becomes the per-model sum of its totals and the other totals |
| Messages.UsageMergeExample | intellifun/agent.py:94-125 | replies of 10 and 5 tokens total 15; merged into 3 they give 18 |
| LLMFunc.Ok | intellifun/LLMFunc.py:13-16 | `ok(v)` is a success, and the LLM function hands back `v` for it |
| LLMFunc.Fail | intellifun/LLMFunc.py:18-21 | `fail(m)` is a failure carrying `m`, and the LLM function hands back `m` for it |
| LLMFunc.OkAndFail | intellifun/LLMFunc.py:13-21 | `ok(v)` carries no message and `fail(m)` no value; the two never coincide |
| LLMFunc.JsonFormat | intellifun/LLMFunc.py:24-34 | the format instruction has the encoded shape in its placeholder, between the fixed head and tail |
| LLMFunc.SystemPrompt | intellifun/LLMFunc.py:86-87 | the prompt is extended, by exactly the JSON instruction, if and only if the result shape is truthy |
| LLMFunc.PrepareUserMessage | intellifun/LLMFunc.py:36-43 | a user message is kept; text with images becomes a vision message; other text becomes a plain user message |
| LLMFunc.CheckReply | intellifun/LLMFunc.py:160-172 | it raises if and only if a shape is set and the content is absent, with the TypeError's text; without a validator, the result succeeds exactly when there is no shape or the content parses, and then its value is the parsed or the raw content |
| LLMFunc.CheckReplyCases | intellifun/LLMFunc.py:160-172 | only absent content under a shape raises (TypeError); a parse error is `fail(e)`; without a validator the answer is `ok`; otherwise the validator's verdict, or `fail(e)` if it raises |
| LLMFunc.MakeLLMFunc | intellifun/LLMFunc.py:86-96 | the function's system message is the prepared prompt; it records whether the shape is truthy, the validator and the attempt count |
| LLMFunc.Attempt | intellifun/LLMFunc.py:146-156 | an attempt is fed back only when it is not the last, a validator is set and the reply was delivered; the feedback is the reply and then a user turn |
| LLMFunc.AttemptEnds | intellifun/LLMFunc.py:146-156 | an attempt is fed back if and only if a delivered reply is judged a failure under a validator and it is not the last; the feedback is the reply and a user turn carrying the failure message; otherwise a backend error or the TypeError propagates, or the verdict's value or message is returned |
| LLMFunc.HandleLogging | intellifun/LLMFunc.py:55-56 | a given accumulator gains the reply's usage exactly when the reply has a model and a usage; none is touched otherwise |
| LLMFunc.Invoke | intellifun/LLMFunc.py:129-157 | the loop returns what `Retry` returns, sends what it sends and leaves the accumulator at its totals |
| LLMFunc.Retry | intellifun/LLMFunc.py:129-157 | from attempt `i` on: at most `max_attempts - i` calls, at least one while an attempt remains, at most one without a validator; every list sent starts with the list the attempt was given |
| LLMFuncProperties.AgainIsContinues | intellifun/LLMFunc.py:151-156 | an attempt that is fed back is one that continues |
| LLMFuncProperties.NotLastIsContinues | intellifun/LLMFunc.py:151-156 | before the last attempt, being fed back and continuing coincide |
| LLMFuncProperties.RetryShape | intellifun/LLMFunc.py:134-156 | from attempt `i` on, the number of calls stays within `max_attempts`, every call but the last continued, and the last call's end is the result |
| LLMFuncProperties.RetryShapeAgain | intellifun/LLMFunc.py:154-156 | the same, from an attempt that is fed back |
| LLMFuncProperties.RetrySent | intellifun/LLMFunc.py:131-136 | every call sends the list `SentAt` gives for its index |
| LLMFuncProperties.RetrySentAgain | intellifun/LLMFunc.py:154-156 | the same, from an attempt that is fed back |
| LLMFuncProperties.SentAgainClose | intellifun/LLMFunc.py:135-136 | the list of attempt `i` comes before the lists of the later attempts |
| LLMFuncProperties.SentStep | intellifun/LLMFunc.py:135-156 | the list attempt `i` sends, and the history it leaves when it continues |
| LLMFuncProperties.RetryTotals | intellifun/LLMFunc.py:142-144 | every delivered reply's usage is added once, in call order |
| LLMFuncProperties.RetryTotalsAgain | intellifun/LLMFunc.py:142-144 | the same, from an attempt that is fed back |
| LLMFuncProperties.InvocationTrace | intellifun/LLMFunc.py:129-157 | at most `max_attempts` calls; every call but the last was fed back, under a validator; the last call's end is the result; each call sends `SentAt`; usage is summed over the delivered replies |
| LLMFuncProperties.ContinuesNeedsValidator | intellifun/LLMFunc.py:151-152 | only a validator makes an attempt continue |
| LLMFuncProperties.SentTrace | intellifun/LLMFunc.py:131-136 | call `k` sends `SentAt(k)` |
| LLMFuncProperties.SentFromIndex | intellifun/LLMFunc.py:131-136 | the `k`-th list sent from attempt 0 is `SentAt(k)` |
| LLMFuncProperties.NoValidatorCallsOnce | intellifun/LLMFunc.py:146-152 | without a validator there is exactly one call; it sends the user turn alone; a backend error or the TypeError propagates, otherwise the verdict's value or message is returned |
| LLMFuncProperties.FirstSuccessReturned | intellifun/LLMFunc.py:134-149 | after `k` attempts that were fed back, a successful attempt `k` ends the invocation after `k + 1` calls and returns its value |
| LLMFuncProperties.AllAttemptsFail | intellifun/LLMFunc.py:151-152 | when every attempt fails under a validator, all `max_attempts` calls are made and the last failure message is returned, not raised |
| LLMFuncProperties.FeedbackLength | intellifun/LLMFunc.py:154-156 | each attempt that continues adds two turns to the history |
| LLMFuncProperties.ContinuedFeedback | intellifun/LLMFunc.py:151-156 | an attempt that continues was judged a failure and adds its reply, then a user turn carrying its failure message |
| LLMFuncProperties.FeedbackTurns | intellifun/LLMFunc.py:154-156 | after `n` attempts that continued, the history holds for each attempt `j`, at positions `2j` and `2j+1`, its reply and a user turn carrying its failure message |
| LLMFuncProperties.FeedbackTurnAt | intellifun/LLMFunc.py:154-156 | the same, for one attempt `j` |
| LLMFuncProperties.SentLength | intellifun/LLMFunc.py:131-136 | with a validator, attempt `k` sends 1 + k(k+1) messages, so earlier pairs are repeated |
| ToolDispatch.NatToString | intellifun/agent.py:175 | the arity is rendered as a non-empty decimal numeral without leading zeros |
| ToolDispatch.NatToStringRoundTrip | intellifun/agent.py:175 | reading the numeral back gives the number |
| ToolDispatch.Render | intellifun/agent.py:135-196 | the notice texts word for word: the repeat guard (135), the removal (158), the invalid arity (175), the finished tool (183, 186), the JSON decode error (188), the run error (194) and the unknown tool (196) |
| ToolDispatch.FindTool | intellifun/agent.py:154-155 | the position of the first tool with that name, and none exactly when no tool has it |
| ToolDispatch.FindToolAt | intellifun/agent.py:154-155 | a first match is the position found |
| ToolDispatch.Normalise | intellifun/agent.py:180-186 | the reply is the handler's value exactly for a string or a dict with `message`; any other reply is the finished notice |
| ToolDispatch.RunHandler | intellifun/agent.py:160-194 | the call counts if and only if the arguments decode, the arity is at most three and the handler returns; otherwise a decode, arity or run-error notice is handed back; every notice names the tool |
| ToolDispatch.DispatchTool | intellifun/agent.py:150-196 | the registry loses one tool exactly when the removal notice is the answer, and otherwise keeps its length |
| ToolDispatch.DispatchUnknown | intellifun/agent.py:196 | an unknown name gets the no-tool notice and leaves the registry unchanged |
| ToolDispatch.DispatchRemoves | intellifun/agent.py:156-158 | a first match at the limit is removed without running; the removal notice is returned; the others keep their order |
| ToolDispatch.RemovedThenUnknown | intellifun/agent.py:154-196 | once the only tool of a name is removed, a later call of that name gets the no-tool notice |
| ToolDispatch.DispatchCounts | intellifun/agent.py:161-177 | below the limit, the counter rises by exactly one if and only if the arguments decode, the arity is 0-3 and the handler returns, and then the tool is otherwise unchanged; nothing else changes; otherwise a notice is returned instead of raising |
| ToolDispatch.DispatchNormalises | intellifun/agent.py:180-186 | a dict with `message` gives that value; another dict, or a result that is neither dict nor string, gives the finished notice; a string passes through |
| ToolDispatch.DispatchErrors | intellifun/agent.py:161-194 | a decode error, an arity above three, a handler `JSONDecodeError` and any other handler error each give their own notice |
| ToolDispatch.PushRecent | intellifun/agent.py:52-57 | the window grows by one up to five entries, is the tail of the old window plus the key, and ends with the key |
| ToolDispatch.PushAllKeepsLast | intellifun/agent.py:33-57 | after any number of pushes, the window is the last at most five keys, in push order |
| ToolDispatch.HandleCall | intellifun/agent.py:133-144 | a repeated call leaves the registry and the window as they were; a new call becomes the last entry of the window |
| ToolDispatch.RepeatChangesNothing | intellifun/agent.py:134-137 | a call already in the window gets the guard notice; the registry, every counter and the window are unchanged |
| ToolDispatch.NewCallRemembered | intellifun/agent.py:139-144 | a call not in the window is dispatched and then pushed to the window, whatever the dispatch answered |
| ToolDispatch.ProcessCalls | intellifun/agent.py:131-144 | one reply per tool call, in order, each with that call's id |
| ToolDispatch.ToolMessages | intellifun/agent.py:136-141 | one tool message per reply, in order, with that reply's content and id |
| ToolDispatch.ProcessKeepsWindow | intellifun/agent.py:131-148 | the window stays within five entries, each of them either remembered before or one of this reply's calls |
| AgentLoop.ErrorReply | intellifun/agent.py:96-99 | after a backend error the reply is the apology, wrapped as `{"message": apology}` in JSON-reply mode |
| AgentLoop.UserTurn | intellifun/agent.py:78-81 | text becomes a user message with the user name; a message is kept |
| AgentLoop.JsonErrorText | intellifun/agent.py:112 | the correction text has the parse error at the placeholder, between the fixed head and tail |
| AgentLoop.Round | intellifun/agent.py:90-120 | a round only appends to the conversation; it stops with the conversation as it was if and only if the backend call failed |
| AgentLoop.Rounds | intellifun/agent.py:83-126 | the loop from round `i` on, as a definition: round `i` sends the history and the conversation; it stops with the reply or goes on; after ten rounds the fallback reply; its properties are `AgentLoopProperties.LoopShape`, `LoopGrows` and `LoopTotals` |
| AgentLoopProperties.RoundFacts | intellifun/agent.py:90-120 | every round only appends, appends the reply first when one is delivered, adds its usage, stops on a backend error and goes on after tool calls |
| AgentLoopProperties.RoundOkTools | intellifun/agent.py:103-107 | the same facts for a reply with tool calls |
| AgentLoopProperties.RoundOkJsonFix | intellifun/agent.py:108-114 | the same facts for content that does not parse in JSON-reply mode |
| AgentLoopProperties.RoundOkContent | intellifun/agent.py:105-120 | the same facts for the remaining replies |
| AgentLoopProperties.AskStepFacts | intellifun/agent.py:83-120 | the facts hold for every round of the agent's loop |
| AgentLoopProperties.ToolCallsRound | intellifun/agent.py:103-107 | a reply with tool calls appends the reply and the group of tool messages for its calls, and the loop goes on |
| AgentLoopProperties.JsonFailureRetries | intellifun/agent.py:108-114 | content that does not parse in JSON-reply mode appends the reply and one corrective user turn carrying the error, and the loop goes on |
| AgentLoopProperties.ContentRound | intellifun/agent.py:108-120 | content ends the loop, as text or parsed in JSON-reply mode; a reply with neither tool calls nor content lets the loop go round again |
| AgentLoopProperties.LoopShape | intellifun/agent.py:83-99 | at least one and at most ten calls; every call but the last delivered; a failed last call ends with the error reply |
| AgentLoopProperties.LoopShapeNext | intellifun/agent.py:83-99 | the same, from a round that goes on |
| AgentLoopProperties.AlwaysToolCalls | intellifun/agent.py:83-107 | replies that always carry tool calls use up every round and end with the fallback reply |
| AgentLoopProperties.LoopGrows | intellifun/agent.py:81-103 | every call sends the history and a prefix of the final conversation; the first sends the starting conversation; each sends more than the one before |
| AgentLoopProperties.LoopGrowsNext | intellifun/agent.py:81-103 | the same, from a round that goes on |
| AgentLoopProperties.LoopTotals | intellifun/agent.py:92-95 | the totals sum the usage of every delivered reply, in call order |
| AgentLoopProperties.LoopTotalsNext | intellifun/agent.py:92-95 | the same, from a round that goes on |
| AgentLoopProperties.AskLoop | intellifun/agent.py:72-126 | one to ten calls; a conversation that starts with the user turn, is only appended to, and grows on every call; every call but the last delivered; a failed last call gives the error reply; the totals sum the delivered replies |
| AgentLoopProperties.RoundStops | intellifun/agent.py:96-120 | a round stops exactly when `StopReply` gives a reply (the error reply, the content, or content that parses in JSON-reply mode), and stops with that reply |
| AgentLoopProperties.LoopReply | intellifun/agent.py:83-126 | from round `i` on, no call but the last stops the loop; the reply is what the last call stops with, or the fallback after all ten rounds |
| AgentLoopProperties.LoopReplyNext | intellifun/agent.py:83-126 | the same, from a round that goes on |
| AgentLoopProperties.AskReply | intellifun/agent.py:83-126 | the reply of `ask` is the error reply, the content or the parsed content of the last call, and no earlier call stops the loop; if the last call does not stop, all ten rounds were used and the reply is the fallback string |
| AgentLoopProperties.AskJsonRetry | intellifun/agent.py:108-120 | in JSON-reply mode, content that does not parse and then content that does give two calls; the second sends the reply and the correction request carrying the parse error, and the reply is the parsed content |
| AgentLoopProperties.AskAlwaysToolCalls | intellifun/agent.py:83-126 | an agent whose replies always carry tool calls makes exactly ten calls and answers with the fallback string |
| Agents.Tool.constructor | intellifun/agent.py:12-20 | a new tool has the given fields and no calls |
| Agents.Tool.CheckCallLimit | intellifun/agent.py:22-26 | the tool may be called if and only if it was called fewer than `limit` times |
| Agents.Tool.IncrementCallCount | intellifun/agent.py:28-30 | the counter rises by one |
| Agents.Memory.LoadMemory | intellifun/agent.py:75 | the history is what the memory holds |
| Agents.Memory.AddMessages | intellifun/agent.py:116 | the memory keeps the messages after what it held, and records one more flush |
| Agents.Agent.constructor | intellifun/agent.py:36-44 | the agent has the given tools, an empty window and the system message of the prompt |
| Agents.Agent.IsRepeatedToolCall | intellifun/agent.py:46-50 | a call is a repeat if and only if its name and arguments are in the window |
| Agents.Agent.AddToolCall | intellifun/agent.py:52-57 | the window becomes `PushRecent` of the old window and the call; the registry is unchanged |
| Agents.Agent.RunToolFunc | intellifun/agent.py:150-196 | the reply and the registry of counters the method leaves are those of `DispatchTool` on the registry it started with; the window is unchanged |
| Agents.Agent.RunTool | intellifun/agent.py:156-194 | the same, once the first tool of the name is found |
| Agents.Agent.CallHandler | intellifun/agent.py:160-194 | the tool run is `RunHandler` of the tool: decode, call by arity, then normalise or report the error |
| Agents.Agent.RemoveTool | intellifun/agent.py:157 | the tool at the position leaves the registry; the others keep their order |
| Agents.Agent.CountCall | intellifun/agent.py:177 | only that tool's counter rises by one |
| Agents.Agent.ProcessFuncCall | intellifun/agent.py:129-148 | the group is the tool messages of `ProcessCalls`, one per call, in order, with its id; the registry and the window become those `ProcessCalls` leaves |
| Agents.Agent.HandleToolCall | intellifun/agent.py:133-144 | a call's reply and the state it leaves are `HandleCall`'s: the guard notice for a repeat, otherwise the run, then the push to the window |
| Agents.Agent.Finish | intellifun/agent.py:116-126 | the conversation is flushed to memory exactly once and a given accumulator gains the call's totals; with no memory the flush raises and nothing is merged |
| Agents.Agent.TakeRound | intellifun/agent.py:90-120 | the conversation, registry, window and call totals the method leaves, and whether it stops, are those of `Round` |
| Agents.Agent.Ask | intellifun/agent.py:59-126 | the reply, the final registry and window, the flushed conversation and the merged totals are those of `Rounds` from the user turn over the memory's history |

## Left out

- Printing and logging are not modelled, because they only write output. This covers `print_message`, `print_system_prompt`, `agent_usage.format()` and the debug traceback.
- LLMFunc.Invoke: does not model the usage report of `_handle_logging` (`intellifun/LLMFunc.py:52-53`). With `print_usage_report` set, a reply without usage makes `ai_msg.usage.format()` raise an AttributeError, so the call raises; the model has no logging configuration and always goes on.
- The asynchronous LLM function (`intellifun/LLMFunc.py:98-127`) has no model of its own, because its body is the synchronous one with `await`.
- `llm_args` and `logging_config` are not modelled, because they only reach the backend and the logging.
- The backend is a script of replies by call index, so the model cannot express a backend whose replies depend on what is sent:
  - the script does not depend on the messages sent, the system message or the tools offered;
  - what is sent on each call is recorded in the `sent` lists of `AgentLoop.Rounds` and `LLMFunc.Invoke` instead. `Agents.Agent.Ask` does not return these lists; they are stated through `Rounds`, which its contract equals.
- `json.loads` and `json.dumps` are parameters, because their internals are not in scope.
- `inspect.signature` is not modelled, because it is reflection; each tool carries its arity as a field instead.
- The random apology of `get_random_error_message` is the `apology` argument, because the randomness is outside the model.
- Handlers are pure functions of their call, so a handler cannot change the agent, its tools or its context. The three-parameter handler is called with the input and the context, without the agent object.
- Exceptions that do not derive from `Exception` are not modelled, because the source does not catch them either.
- Values have integers, strings, lists and dicts but no floats. Python's cross-type equality (`1 == 1.0 == True`) is not modelled, because `Value` keeps these apart. Two calls whose arguments differ only that way count as different in the repeat guard.
- `message.py`, which holds `AgentUsage`, is not part of this model.
  - Usage is one token count per reply, and an accumulator maps each model to the sum of its counts; this summing is an assumption about that file.
  - `if usage:` is read as "an accumulator was given".
  - `UserVisionMessage` is assumed to be a subclass of `UserMessage`, so it passes the `isinstance` tests of `_prepare_user_message` (`Messages.IsUserTurn`).
- Memory internals are not part of this model. `Memory` is assumed to keep every message it is handed, in order, after what it already held.
- `if self.memory` (`intellifun/agent.py:75`) is read as "a memory was given" (`memory != null`). A memory object that Python treats as false is not modelled, because the memory classes are not part of this model.
- Agents.Agent.constructor: copies the caller's tool list into the `tools` sequence. The source keeps the caller's list object itself (`intellifun/agent.py:38`), so `Agents.Agent.RemoveTool` (`self.tools.remove(tool)`, `intellifun/agent.py:157`) would also shrink that list and the registry of every other agent built on it. The model does not capture this aliasing: each agent's registry changes alone.
- Agents.Agent.constructor: requires the tool objects to be pairwise distinct, and takes the system prompt as a string only. The source accepts the same `Tool` object twice and also a ready-made `SystemMessage`.
- Agents.Agent.ProcessFuncCall: requires the reply to carry tool calls. `ask` only calls it then, and the source raises a TypeError otherwise.
- Agents.Agent.RunToolFunc: returns the symbolic reply, and `Content` of it is the text or value the source returns.
- LLMFunc.PrepareUserMessage: requires a message argument to be a user turn. The source would wrap any other message object as the content of a new user message.
- Tool `description`, `parameters` and `prompt` are carried but unused, because they only reach the backend.
- A tool name registered twice is looked up by first match, as in the source. Once the first tool is removed, the next tool of that name is found. `ToolDispatch.RemovedThenUnknown` therefore assumes the name is registered once.
- With no memory, the source guards the load but not the flush. `ask` then raises an AttributeError after the loop, and the model follows the code: `Ask` returns `Throws` and merges no usage.
