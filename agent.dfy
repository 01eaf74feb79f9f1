/**
 * The agent as objects: tools with in-place call counters, a memory, and the
 * agent holding the tool registry and the window of recent calls. Each method
 * is proved to do what the value model of tool dispatch and of the `ask` loop
 * says.
 */
module Agents {
  import opened Wrappers
  import opened Messages
  import opened ToolDispatch
  import opened AgentLoop

  /** A tool: its name, its handler and the handler's number of parameters, and a counter of its calls. */
  class Tool {
    const name: string
    const handler: Handler
    const arity: nat
    const description: string
    const parameters: Value
    const prompt: Option<string>
    var calledTimes: nat

    constructor (name: string, handler: Handler, arity: nat, description: string, parameters: Value,
                 prompt: Option<string> := None)
      ensures this.name == name && this.handler == handler && this.arity == arity
      ensures this.description == description && this.parameters == parameters && this.prompt == prompt
      ensures calledTimes == 0
    {
      this.name := name;
      this.handler := handler;
      this.arity := arity;
      this.description := description;
      this.parameters := parameters;
      this.prompt := prompt;
      calledTimes := 0;
    }

    /** The tool as the value model sees it. */
    function View(): ToolView
      reads this
    {
      ToolView(name, arity, handler, calledTimes)
    }

    /** Whether the tool may still be called: fewer than `limit` calls so far. */
    method CheckCallLimit(limit: int := CallLimit) returns (ok: bool)
      ensures ok <==> calledTimes < limit
    {
      if calledTimes >= limit {
        return false;
      }
      return true;
    }

    method IncrementCallCount()
      modifies this
      ensures calledTimes == old(calledTimes) + 1
    {
      calledTimes := calledTimes + 1;
    }
  }

  /** A sequence of tools as values. */
  function ViewsOf(ts: seq<Tool>): (v: Registry)
    reads ts
    ensures |v| == |ts|
    ensures forall j :: 0 <= j < |ts| ==> v[j] == ts[j].View()
  {
    seq(|ts|, j requires 0 <= j < |ts| reads ts => ts[j].View())
  }

  /** A conversation memory that keeps every message it is handed, and how often it was handed some. */
  class Memory {
    var stored: seq<Message>
    var flushes: seq<seq<Message>>

    constructor (stored: seq<Message>)
      ensures this.stored == stored && flushes == []
    {
      this.stored := stored;
      flushes := [];
    }

    method LoadMemory() returns (history: seq<Message>)
      ensures history == stored
    {
      return stored;
    }

    method AddMessages(messages: seq<Message>)
      modifies this
      ensures stored == old(stored) + messages
      ensures flushes == old(flushes) + [messages]
    {
      stored := stored + messages;
      flushes := flushes + [messages];
    }
  }

  /** The text of the AttributeError flushing to an absent memory raises. */
  const NoMemoryError := "'NoneType' object has no attribute 'add_messages'"

  class Agent {
    var tools: seq<Tool>
    var recent: seq<CallKey>
    const sysMsg: Message
    const memory: Memory?
    const context: Value
    const jsonReply: bool
    /** The tools the agent was built with; tools are only ever dropped. */
    ghost const registered: set<Tool>

    /** The window is within its bound and the registry holds distinct tools the agent was built with. */
    ghost predicate Valid()
      reads this
    {
      && |recent| <= MaxRecentCalls
      && (forall i, j :: 0 <= i < j < |tools| ==> tools[i] != tools[j])
      && (forall j :: 0 <= j < |tools| ==> tools[j] in registered)
    }

    /** The registry as values, tool by tool. */
    function Views(): (v: Registry)
      reads this`tools, tools
      ensures |v| == |tools|
      ensures forall j :: 0 <= j < |tools| ==> v[j] == tools[j].View()
    {
      ViewsOf(tools)
    }

    /** What tool dispatch works on: the registry and the window of recent calls. */
    function State(): ToolState
      reads this`tools, this`recent, tools
    {
      ToolState(Views(), recent)
    }

    constructor (tools: seq<Tool>, sysPrompt: string, memory: Memory?, context: Value, jsonReply: bool)
      requires forall i, j :: 0 <= i < j < |tools| ==> tools[i] != tools[j]
      ensures Valid()
      ensures this.tools == tools && recent == []
      ensures sysMsg == SystemMessage(sysPrompt) && this.memory == memory
      ensures this.context == context && this.jsonReply == jsonReply
    {
      this.tools := tools;
      registered := set t | t in tools;
      recent := [];
      sysMsg := SystemMessage(sysPrompt);
      this.memory := memory;
      this.context := context;
      this.jsonReply := jsonReply;
    }

    /** Whether exactly this call, name and arguments, is in the window of recent calls. */
    method IsRepeatedToolCall(call: FunctionCall) returns (repeated: bool)
      ensures repeated <==> KeyOf(call) in recent
    {
      var current := (call.name, call.arguments);
      return current in recent;
    }

    /** Appends the call to the window and keeps only the last five entries. */
    method AddToolCall(call: FunctionCall)
      modifies this
      ensures recent == PushRecent(old(recent), KeyOf(call))
      ensures tools == old(tools)
    {
      var current := (call.name, call.arguments);
      recent := recent + [current];
      if |recent| > MaxRecentCalls {
        recent := recent[|recent| - MaxRecentCalls..];
      }
    }

    /**
     * Runs one function call against the registry: the first tool of that
     * name is removed at its call limit, otherwise its handler runs and, if it
     * returns, its counter goes up. The reply stands for the text handed back
     * (`Content` renders it).
     */
    method RunToolFunc(call: FunctionCall, parse: Parser) returns (reply: Reply)
      requires Valid()
      modifies this, registered
      ensures Valid() && recent == old(recent)
      ensures var d := DispatchTool(old(Views()), call, context, parse);
              reply == d.reply && Views() == d.registry
    {
      var name := call.name;
      var i := 0;
      while i < |tools|
        invariant 0 <= i <= |tools|
        invariant forall j :: 0 <= j < i ==> tools[j].name != name
      {
        if tools[i].name == name {
          FindToolAt(Views(), name, i);
          reply := RunTool(i, call, parse);
          return;
        }
        i := i + 1;
      }
      return Notice(NoTool(name));
    }

    /** Runs the call on the tool at position `k`, the first of its name. */
    method RunTool(k: nat, call: FunctionCall, parse: Parser) returns (reply: Reply)
      requires Valid() && k < |tools| && FindTool(Views(), call.name) == Some(k)
      modifies this, tools[k]
      ensures Valid() && recent == old(recent)
      ensures var d := DispatchTool(old(Views()), call, context, parse);
              reply == d.reply && Views() == d.registry
    {
      var tool := tools[k];
      var ok := tool.CheckCallLimit();
      if !ok {
        RemoveTool(k);
        return Notice(Removed(call.name));
      }
      var run := CallHandler(tool, call.arguments, parse);
      if run.returned {
        CountCall(k);
      }
      return run.reply;
    }

    /**
     * Decodes the arguments, calls the handler by its arity and turns what it
     * returns or raises into a reply.
     */
    method CallHandler(tool: Tool, args: Arguments, parse: Parser) returns (run: ToolRun)
      ensures run == RunHandler(tool.View(), args, context, parse)
    {
      var name := tool.name;
      match Decode(args, parse)
      case Failure(e) =>
        return ToolRun(Notice(DecodeFailed(name, e)), false);
      case Success(input) =>
        var c := CallFor(tool.arity, input, context);
        if c.None? {
          return ToolRun(Notice(InvalidArity(name, tool.arity)), false);
        }
        match tool.handler(c.value)
        case Raised(JsonDecodeError(e)) =>
          return ToolRun(Notice(DecodeFailed(name, e)), false);
        case Raised(OtherError(e)) =>
          return ToolRun(Notice(RunFailed(name, e)), false);
        case Returned(res) =>
          return ToolRun(Normalise(name, res), true);
    }

    /** Drops the tool at position `k` from the registry. */
    method RemoveTool(k: nat)
      requires Valid() && k < |tools|
      modifies this
      ensures Valid() && recent == old(recent)
      ensures tools == old(tools[..k] + tools[k + 1..])
      ensures Views() == old(Views()[..k] + Views()[k + 1..])
    {
      ghost var before := Views();
      RemoveAt(tools, k);
      RemoveAt(before, k);
      tools := tools[..k] + tools[k + 1..];
      assert forall j :: 0 <= j < k ==> tools[j] == old(tools[j]);
      assert forall j :: k <= j < |tools| ==> tools[j] == old(tools[j + 1]);
    }

    /** Counts one more call of the tool at position `k`. */
    method CountCall(k: nat)
      requires Valid() && k < |tools|
      modifies tools[k]
      ensures Views() == old(Views()[k := Counted(Views()[k])])
    {
      tools[k].IncrementCallCount();
      assert forall j :: 0 <= j < |tools| && j != k ==> tools[j] != tools[k];
    }

    /** Handles the tool calls of a reply in order, answering repeats with the guard's text. */
    method ProcessFuncCall(ai: AIMessage, parse: Parser) returns (group: Message)
      requires Valid() && ai.toolCalls.Some?
      modifies this, registered
      ensures Valid()
      ensures var p := ProcessCalls(old(State()), ai.toolCalls.value, context, parse);
              group == ToolMessageGroup(ToolMessages(p.replies)) && State() == p.state
      ensures group.ToolMessageGroup? && |group.toolMessages| == |ai.toolCalls.value|
      ensures forall i :: 0 <= i < |ai.toolCalls.value| ==> group.toolMessages[i].toolCallId == ai.toolCalls.value[i].id
    {
      var calls := ai.toolCalls.value;
      var msgs: seq<ToolMessage> := [];
      ghost var start := State();
      for i := 0 to |calls|
        invariant Valid()
        invariant State() == ProcessCalls(start, calls[..i], context, parse).state
        invariant msgs == ToolMessages(ProcessCalls(start, calls[..i], context, parse).replies)
      {
        var fc := calls[i];
        ghost var p := ProcessCalls(start, calls[..i], context, parse);
        assert calls[..i + 1][..i] == calls[..i];
        var reply := HandleToolCall(fc.call, parse);
        msgs := msgs + ToolMessages([CallReply(fc.id, reply)]);
        ToolMessagesSnoc(p.replies, CallReply(fc.id, reply));
      }
      assert calls[..|calls|] == calls;
      group := ToolMessageGroup(msgs);
    }

    /** One call of a reply: a repeat gets the guard's notice, anything else is run and remembered. */
    method HandleToolCall(call: FunctionCall, parse: Parser) returns (reply: Reply)
      requires Valid()
      modifies this, registered
      ensures Valid()
      ensures var h := HandleCall(old(State()), call, context, parse);
              reply == h.reply && State() == h.state
    {
      var repeated := IsRepeatedToolCall(call);
      if repeated {
        return Notice(Repeated(call.name));
      }
      reply := RunToolFunc(call, parse);
      AddToolCall(call);
    }

    /** Flushes the conversation to memory and merges the call's usage into the caller's accumulator. */
    method Finish(conversation: seq<Message>, callTotals: UsageTotals, usage: AgentUsage?, reply: Value)
      returns (result: Outcome<Value>)
      modifies memory, usage
      ensures State() == old(State())
      ensures memory == null ==> result == Throws(NoMemoryError) && (usage != null ==> usage.totals == old(usage.totals))
      ensures memory != null ==> result == Returns(reply)
                                 && memory.stored == old(memory.stored) + conversation
                                 && memory.flushes == old(memory.flushes) + [conversation]
                                 && (usage != null ==> usage.totals == MergeTotals(old(usage.totals), callTotals))
    {
      if memory == null {
        return Throws(NoMemoryError);
      }
      memory.AddMessages(conversation);
      if usage != null {
        usage.Merge(callTotals);
      }
      return Returns(reply);
    }

    /**
     * One pass of the loop of `ask` after the backend call: a failure stops
     * with the apology; otherwise the reply joins the conversation and its
     * usage the call's totals, then its tool calls are run, or its content is
     * the answer, or, in JSON-reply mode, content that does not parse is
     * answered with a correction request.
     */
    method TakeRound(r: BackendResult, conversation: seq<Message>, agentUsage: AgentUsage, parse: Parser, apology: string)
      returns (next: seq<Message>, stop: Option<Value>)
      requires Valid()
      modifies this, registered, agentUsage
      ensures Valid()
      ensures var st := LoopState(next, State(), agentUsage.totals);
              AskStep(Settings(context, jsonReply), parse, apology)(r, LoopState(conversation, old(State()), old(agentUsage.totals)))
              == if stop.Some? then Stop(stop.value, st) else Next(st)
    {
      next := conversation;
      match r
      case Failed(_) =>
        return next, Some(ErrorReply(apology, jsonReply));
      case Delivered(ai) =>
        if ai.usage.Some? && ai.model.Some? && ai.model.value != "" {
          agentUsage.AddUsage(ai.model.value, ai.usage.value);
        }
        next := next + [Assistant(ai)];
        if ai.toolCalls.Some? {
          ghost var p := ProcessCalls(old(State()), ai.toolCalls.value, context, parse);
          assert State() == old(State());
          var group := ProcessFuncCall(ai, parse);
          assert group == ToolMessageGroup(ToolMessages(p.replies)) && State() == p.state;
          return next + [group], None;
        }
        if ai.content.Some? && ai.content.value != "" {
          if !jsonReply {
            return next, Some(Str(ai.content.value));
          }
          match parse(ai.content.value)
          case Failure(e) =>
            return next + [UserMessage(Some(JsonErrorText(e)), None)], None;
          case Success(v) =>
            return next, Some(v);
        }
        return next, None;
    }

    /**
     * Asks the agent: the rounds of `Rounds` over the memory's history and the
     * user turn, with the conversation flushed to memory exactly once at the
     * end and the call's usage merged into the caller's accumulator. The
     * backend is the script of replies to this call's backend calls; the
     * apology is what the error-message source gives.
     */
    method Ask(message: Query, userName: Option<string>, usage: AgentUsage?, backend: Backend, parse: Parser,
               apology: string)
      returns (result: Outcome<Value>)
      requires Valid()
      modifies this, registered, memory, usage
      ensures Valid()
      ensures var history := if memory != null then old(memory.stored) else [];
              var e := Rounds(AskStep(Settings(context, jsonReply), parse, apology), history, backend, 0,
                              LoopState([UserTurn(message, userName)], old(State()), map[]));
              && State() == e.state.tools
              && (memory == null ==> result == Throws(NoMemoryError)
                                     && (usage != null ==> usage.totals == old(usage.totals)))
              && (memory != null ==> result == Returns(e.reply)
                                     && memory.stored == old(memory.stored) + e.state.conversation
                                     && memory.flushes == old(memory.flushes) + [e.state.conversation]
                                     && (usage != null ==> usage.totals == MergeTotals(old(usage.totals), e.state.totals)))
    {
      var agentUsage := new AgentUsage();
      var history: seq<Message> := [];
      if memory != null {
        history := memory.LoadMemory();
      }
      var user := UserTurn(message, userName);
      var conversation := [user];
      var reply: Option<Value> := None;
      ghost var step := AskStep(Settings(context, jsonReply), parse, apology);
      ghost var whole := Rounds(step, history, backend, 0, LoopState(conversation, State(), agentUsage.totals));
      assert history == if memory != null then old(memory.stored) else [];
      for i := 0 to MaxRounds
        invariant Valid()
        invariant memory != null ==> memory.stored == old(memory.stored) && memory.flushes == old(memory.flushes)
        invariant usage != null ==> usage.totals == old(usage.totals)
        invariant whole.reply == Rounds(step, history, backend, i, LoopState(conversation, State(), agentUsage.totals)).reply
        invariant whole.state == Rounds(step, history, backend, i, LoopState(conversation, State(), agentUsage.totals)).state
      {
        ghost var cur := LoopState(conversation, State(), agentUsage.totals);
        RoundsStep(step, history, backend, i, cur);
        var stop;
        conversation, stop := TakeRound(backend(i), conversation, agentUsage, parse, apology);
        if stop.Some? {
          reply := stop;
          break;
        }
      }
      var final := if reply.Some? then reply.value else Str(FallbackReply);
      assert whole.reply == final && whole.state == LoopState(conversation, State(), agentUsage.totals);
      result := Finish(conversation, agentUsage.totals, usage, final);
    }
  }
}
