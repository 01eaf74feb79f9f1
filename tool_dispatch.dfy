/**
 * Tool dispatch of the agent, as values: the registry of tools with their call
 * counters, the window of recent calls, running one tool call, and handling the
 * tool calls of one reply. The agent's methods are proved against these
 * definitions.
 */
module ToolDispatch {
  import opened Wrappers
  import opened Messages

  /**
   * What a handler is called with, by its number of parameters: nothing, the
   * decoded input, the input and the agent's context, or those two and the agent
   * itself (the agent is not passed in this model).
   */
  datatype HandlerCall =
    | NoArgs
    | WithInput(input: Value)
    | WithContext(input: Value, context: Value)
    | WithAgent(input: Value, context: Value)

  /** An exception a handler raises; a JSON decode error is reported differently from any other. */
  datatype Exception = JsonDecodeError(text: string) | OtherError(text: string)

  datatype HandlerOutcome = Returned(value: Value) | Raised(error: Exception)

  type Handler = HandlerCall -> HandlerOutcome

  /** A registered tool as a value: its name, its number of parameters, its handler and its call counter. */
  datatype ToolView = ToolView(name: string, arity: nat, handler: Handler, calledTimes: nat)

  type Registry = seq<ToolView>

  /** The default limit of `Tool.check_call_limit`. */
  const CallLimit: nat := 10

  /** How many recent calls the repetition guard remembers. */
  const MaxRecentCalls: nat := 5

  // ---------------------------------------------------------------------------
  // What a dispatch hands back to the model: a notice of the dispatcher, or
  // what the handler produced.
  // ---------------------------------------------------------------------------

  /** The texts the dispatcher hands back instead of a handler's result. */
  datatype Notice =
    | Repeated(name: string)
    | Removed(name: string)
    | InvalidArity(name: string, arity: nat)
    | Finished(name: string)
    | DecodeFailed(name: string, error: string)
    | RunFailed(name: string, error: string)
    | NoTool(name: string)

  datatype Reply = Notice(notice: Notice) | Result(value: Value)

  /** The text of a notice, as the model reads it. */
  function Render(n: Notice): string {
    match n
    case Repeated(name) =>
      "Tool \"" + name + "\" was just called with the same arguments again. " +
      "To prevent loops, please try a different approach or different arguments."
    case Removed(name) =>
      "Tool \"" + name + "\" has been called too many times, it will be removed from the list of available tools."
    case InvalidArity(name, arity) =>
      "Invalid number of parameters for tool function " + name + ": " + NatToString(arity)
    case Finished(name) => "tool function " + name + " finished"
    case DecodeFailed(name, error) =>
      "Error decoding JSON parameter for \"" + name + "\": " + error + ". Use valid JSON string without the `json` tag."
    case RunFailed(name, error) => "Error running tool \"" + name + "\": " + error
    case NoTool(name) => "No tool named \"" + name + "\" found. Do not call it again."
  }

  /** The content of the tool message for a reply: a notice's text, or the handler's value. */
  function Content(r: Reply): Value {
    match r
    case Notice(n) => Str(Render(n))
    case Result(v) => v
  }

  // ---------------------------------------------------------------------------
  // Decimal formatting of the arity in the invalid-arity text.
  // ---------------------------------------------------------------------------

  predicate IsDigit(c: char) {
    '0' <= c <= '9'
  }

  /** The decimal numeral of `n`, without leading zeros. */
  function NatToString(n: nat): (s: string)
    ensures |s| >= 1 && (|s| > 1 ==> s[0] != '0')
    ensures forall i :: 0 <= i < |s| ==> IsDigit(s[i])
    decreases n
  {
    if n < 10 then [(n + '0' as int) as char]
    else NatToString(n / 10) + [((n % 10) + '0' as int) as char]
  }

  /** The number a string of decimal digits denotes. */
  function DigitsValue(s: string): nat
    requires forall i :: 0 <= i < |s| ==> IsDigit(s[i])
    decreases |s|
  {
    if s == [] then 0
    else
      assert IsDigit(s[|s| - 1]);
      DigitsValue(s[..|s| - 1]) * 10 + (s[|s| - 1] as int - '0' as int)
  }

  /** Reading the numeral back gives the number: the formatting loses nothing. */
  lemma {:induction false} NatToStringRoundTrip(n: nat)
    ensures DigitsValue(NatToString(n)) == n
    decreases n
  {
    if n >= 10 {
      var prefix := NatToString(n / 10);
      NatToStringRoundTrip(n / 10);
      assert NatToString(n)[..|NatToString(n)| - 1] == prefix;
    }
  }

  // ---------------------------------------------------------------------------
  // Running one tool call.
  // ---------------------------------------------------------------------------

  /** The position of the first tool with the given name, if any. */
  function FindTool(reg: Registry, name: string): (k: Option<nat>)
    ensures k.Some? ==> k.value < |reg| && reg[k.value].name == name
    ensures k.Some? ==> forall j :: 0 <= j < k.value ==> reg[j].name != name
    ensures k.None? <==> forall j :: 0 <= j < |reg| ==> reg[j].name != name
    decreases |reg|
  {
    if reg == [] then None
    else if reg[0].name == name then Some(0)
    else
      match FindTool(reg[1..], name)
      case None => None
      case Some(k) => Some(k + 1)
  }

  /** A first match is the one `FindTool` reports. */
  lemma FindToolAt(reg: Registry, name: string, k: nat)
    requires k < |reg| && reg[k].name == name
    requires forall j :: 0 <= j < k ==> reg[j].name != name
    ensures FindTool(reg, name) == Some(k)
  {
    var r := FindTool(reg, name);
    assert r.Some?;
    assert !(r.value < k) && !(k < r.value);
  }

  /** The arguments: a string is decoded with `json.loads`, any other value is used as it is. */
  function Decode(args: Arguments, parse: Parser): Result<Value, string> {
    match args
    case Raw(text) => parse(text)
    case Structured(value) => Success(value)
  }

  /** How a handler of the given arity is called; a handler of more than three parameters is not. */
  function CallFor(arity: nat, input: Value, context: Value): Option<HandlerCall> {
    if arity == 0 then Some(NoArgs)
    else if arity == 1 then Some(WithInput(input))
    else if arity == 2 then Some(WithContext(input, context))
    else if arity == 3 then Some(WithAgent(input, context))
    else None
  }

  /** A handler's result as a reply: a dict's `message`, a string as it is, otherwise the finished notice. */
  function Normalise(name: string, result: Value): (r: Reply)
    ensures r.Result? <==> result.Str? || (result.Dict? && "message" in result.entries)
    ensures r.Notice? ==> r.notice == Finished(name)
  {
    match result
    case Dict(entries) => if "message" in entries then Result(entries["message"]) else Notice(Finished(name))
    case Str(_) => Result(result)
    case _ => Notice(Finished(name))
  }

  /** The reply of one tool run and whether the handler returned normally (which counts the call). */
  datatype ToolRun = ToolRun(reply: Reply, returned: bool)

  /**
   * One run of the tool's handler: the call counts exactly when the handler is
   * reached and returns; otherwise the error is handed back as a notice.
   */
  function RunHandler(t: ToolView, args: Arguments, context: Value, parse: Parser): (run: ToolRun)
    ensures run.returned <==> ReturnsNormally(t, args, context, parse)
    ensures !run.returned ==>
              run.reply.Notice? && (run.reply.notice.DecodeFailed? || run.reply.notice.InvalidArity? || run.reply.notice.RunFailed?)
    ensures run.reply.Notice? ==> run.reply.notice.name == t.name
  {
    match Decode(args, parse)
    case Failure(e) => ToolRun(Notice(DecodeFailed(t.name, e)), false)
    case Success(input) =>
      match CallFor(t.arity, input, context)
      case None => ToolRun(Notice(InvalidArity(t.name, t.arity)), false)
      case Some(c) =>
        match t.handler(c)
        case Raised(JsonDecodeError(e)) => ToolRun(Notice(DecodeFailed(t.name, e)), false)
        case Raised(OtherError(e)) => ToolRun(Notice(RunFailed(t.name, e)), false)
        case Returned(v) => ToolRun(Normalise(t.name, v), true)
  }

  /** The tool's handler is reached and returns: the arguments decode and the arity is at most three. */
  predicate ReturnsNormally(t: ToolView, args: Arguments, context: Value, parse: Parser) {
    && Decode(args, parse).Success?
    && t.arity <= 3
    && t.handler(CallFor(t.arity, Decode(args, parse).value, context).value).Returned?
  }

  /** The tool's counter after one more counted call. */
  function Counted(t: ToolView): ToolView {
    t.(calledTimes := t.calledTimes + 1)
  }

  /** What one dispatch hands back to the model and the registry it leaves. */
  datatype Dispatch = Dispatch(reply: Reply, registry: Registry)

  /**
   * Runs one function call: the first tool of that name is removed once it has
   * reached the call limit, otherwise its handler is run and, if it returned,
   * its counter goes up by one.
   */
  function DispatchTool(reg: Registry, call: FunctionCall, context: Value, parse: Parser): (d: Dispatch)
    ensures |d.registry| == if d.reply == Notice(Removed(call.name)) then |reg| - 1 else |reg|
  {
    match FindTool(reg, call.name)
    case None => Dispatch(Notice(NoTool(call.name)), reg)
    case Some(k) =>
      if reg[k].calledTimes >= CallLimit then
        Dispatch(Notice(Removed(call.name)), reg[..k] + reg[k + 1..])
      else
        var run := RunHandler(reg[k], call.arguments, context, parse);
        Dispatch(run.reply, if run.returned then reg[k := Counted(reg[k])] else reg)
  }

  /** An unknown name gets the no-tool notice and changes nothing. */
  lemma DispatchUnknown(reg: Registry, call: FunctionCall, context: Value, parse: Parser)
    requires forall j :: 0 <= j < |reg| ==> reg[j].name != call.name
    ensures DispatchTool(reg, call, context, parse) == Dispatch(Notice(NoTool(call.name)), reg)
  {
  }

  /**
   * A tool at its call limit is removed without running: the removal notice is
   * returned and the other tools stay, in their order.
   */
  lemma DispatchRemoves(reg: Registry, call: FunctionCall, context: Value, parse: Parser)
    requires FindTool(reg, call.name).Some?
    requires reg[FindTool(reg, call.name).value].calledTimes >= CallLimit
    ensures var k := FindTool(reg, call.name).value;
            var d := DispatchTool(reg, call, context, parse);
            && d.reply == Notice(Removed(call.name))
            && |d.registry| == |reg| - 1
            && (forall j :: 0 <= j < k ==> d.registry[j] == reg[j])
            && (forall j :: k < j < |reg| ==> d.registry[j - 1] == reg[j])
  {
    var k := FindTool(reg, call.name).value;
    RemoveAt(reg, k);
  }

  /** Dropping the element at `k` keeps the others in order. */
  lemma RemoveAt<T>(s: seq<T>, k: nat)
    requires k < |s|
    ensures |s[..k] + s[k + 1..]| == |s| - 1
    ensures forall j :: 0 <= j < k ==> (s[..k] + s[k + 1..])[j] == s[j]
    ensures forall j :: k < j < |s| ==> (s[..k] + s[k + 1..])[j - 1] == s[j]
  {
  }

  /** Once the only tool of a name is removed, calling that name again reports that there is no such tool. */
  lemma RemovedThenUnknown(reg: Registry, call: FunctionCall, later: FunctionCall, context: Value, parse: Parser)
    requires FindTool(reg, call.name).Some?
    requires reg[FindTool(reg, call.name).value].calledTimes >= CallLimit
    requires forall j :: 0 <= j < |reg| && j != FindTool(reg, call.name).value ==> reg[j].name != call.name
    requires later.name == call.name
    ensures var after := DispatchTool(reg, call, context, parse).registry;
            DispatchTool(after, later, context, parse) == Dispatch(Notice(NoTool(call.name)), after)
  {
    var k := FindTool(reg, call.name).value;
    var after := DispatchTool(reg, call, context, parse).registry;
    DispatchRemoves(reg, call, context, parse);
    forall j | 0 <= j < |after|
      ensures after[j].name != call.name
    {
      if j >= k {
        assert after[j] == reg[j + 1];
      }
    }
    DispatchUnknown(after, later, context, parse);
  }

  /**
   * Below the limit, the tool's counter goes up by exactly one if and only if
   * its handler returned normally, and nothing else in the registry changes;
   * when it did not return, the dispatch hands back a notice instead of raising.
   */
  lemma DispatchCounts(reg: Registry, call: FunctionCall, context: Value, parse: Parser)
    requires FindTool(reg, call.name).Some?
    requires reg[FindTool(reg, call.name).value].calledTimes < CallLimit
    ensures var k := FindTool(reg, call.name).value;
            var d := DispatchTool(reg, call, context, parse);
            && |d.registry| == |reg|
            && (forall j :: 0 <= j < |reg| && j != k ==> d.registry[j] == reg[j])
            && (d.registry[k].calledTimes == reg[k].calledTimes + 1 <==> ReturnsNormally(reg[k], call.arguments, context, parse))
            && (d.registry[k] == reg[k] <==> !ReturnsNormally(reg[k], call.arguments, context, parse))
            && (ReturnsNormally(reg[k], call.arguments, context, parse) ==> d.registry[k] == Counted(reg[k]))
            && (d.registry[k] == reg[k] ==> d.reply.Notice?)
  {
  }

  /** What a handler that returned normally hands back, by the kind of its result. */
  lemma DispatchNormalises(reg: Registry, call: FunctionCall, context: Value, parse: Parser)
    requires FindTool(reg, call.name).Some?
    requires reg[FindTool(reg, call.name).value].calledTimes < CallLimit
    requires ReturnsNormally(reg[FindTool(reg, call.name).value], call.arguments, context, parse)
    ensures var t := reg[FindTool(reg, call.name).value];
            var v := t.handler(CallFor(t.arity, Decode(call.arguments, parse).value, context).value).value;
            var r := DispatchTool(reg, call, context, parse).reply;
            && (v.Dict? && "message" in v.entries ==> r == Result(v.entries["message"]))
            && (v.Dict? && "message" !in v.entries ==> r == Notice(Finished(call.name)))
            && (v.Str? ==> r == Result(v))
            && (!v.Dict? && !v.Str? ==> r == Notice(Finished(call.name)))
  {
  }

  /** The notices of a call that is dispatched but does not return normally. */
  lemma DispatchErrors(reg: Registry, call: FunctionCall, context: Value, parse: Parser)
    requires FindTool(reg, call.name).Some?
    requires reg[FindTool(reg, call.name).value].calledTimes < CallLimit
    ensures var t := reg[FindTool(reg, call.name).value];
            var r := DispatchTool(reg, call, context, parse).reply;
            var decoded := Decode(call.arguments, parse);
            && (decoded.Failure? ==> r == Notice(DecodeFailed(call.name, decoded.error)))
            && (decoded.Success? && t.arity > 3 ==> r == Notice(InvalidArity(call.name, t.arity)))
            && (decoded.Success? && t.arity <= 3 ==>
                  var outcome := t.handler(CallFor(t.arity, decoded.value, context).value);
                  && (outcome.Raised? && outcome.error.JsonDecodeError? ==> r == Notice(DecodeFailed(call.name, outcome.error.text)))
                  && (outcome.Raised? && outcome.error.OtherError? ==> r == Notice(RunFailed(call.name, outcome.error.text))))
  {
  }

  // ---------------------------------------------------------------------------
  // The window of recent calls and the tool calls of one reply.
  // ---------------------------------------------------------------------------

  /** What the repetition guard compares: the function's name and its arguments. */
  type CallKey = (string, Arguments)

  function KeyOf(call: FunctionCall): CallKey {
    (call.name, call.arguments)
  }

  /** The last `n` elements of `s`, or all of them when there are fewer. */
  function LastN<T>(s: seq<T>, n: nat): seq<T> {
    if |s| <= n then s else s[|s| - n..]
  }

  /** The window after one more call: the key is appended and only the last five entries are kept. */
  function PushRecent(window: seq<CallKey>, key: CallKey): (w: seq<CallKey>)
    ensures |w| == if |window| < MaxRecentCalls then |window| + 1 else MaxRecentCalls
    ensures w == (window + [key])[|window| + 1 - |w|..]
    ensures w[|w| - 1] == key
  {
    LastN(window + [key], MaxRecentCalls)
  }

  /** The window after the keys are pushed one by one. */
  function PushAll(window: seq<CallKey>, keys: seq<CallKey>): seq<CallKey>
    decreases |keys|
  {
    if keys == [] then window
    else PushRecent(PushAll(window, keys[..|keys| - 1]), keys[|keys| - 1])
  }

  lemma LastNOfLastN<T>(s: seq<T>, x: T, n: nat)
    requires n >= 1
    ensures LastN(LastN(s, n) + [x], n) == LastN(s + [x], n)
  {
    if |s| > n {
      assert LastN(s, n) + [x] == (s + [x])[|s| - n..];
      assert (s + [x])[|s| - n..][1..] == (s + [x])[|s| + 1 - n..];
    }
  }

  /** However many calls are pushed, the window holds the last (at most five) of them, in the order they came. */
  lemma {:induction false} PushAllKeepsLast(window: seq<CallKey>, keys: seq<CallKey>)
    requires |window| <= MaxRecentCalls
    ensures PushAll(window, keys) == LastN(window + keys, MaxRecentCalls)
    ensures |PushAll(window, keys)| <= MaxRecentCalls
    decreases |keys|
  {
    if keys == [] {
      assert window + keys == window;
    } else {
      var init := keys[..|keys| - 1];
      var last := keys[|keys| - 1];
      PushAllKeepsLast(window, init);
      var before := PushAll(window, init);
      assert before == LastN(window + init, MaxRecentCalls);
      assert PushAll(window, keys) == LastN(before + [last], MaxRecentCalls);
      LastNOfLastN(window + init, last, MaxRecentCalls);
      assert window + init + [last] == window + keys;
    }
  }

  /** The state tool dispatch changes: the registry and the window of recent calls. */
  datatype ToolState = ToolState(registry: Registry, recent: seq<CallKey>)

  datatype Handled = Handled(reply: Reply, state: ToolState)

  /** One tool call of a reply: a repeat is answered by the guard, anything else is dispatched and remembered. */
  function HandleCall(s: ToolState, call: FunctionCall, context: Value, parse: Parser): (h: Handled)
    ensures KeyOf(call) in s.recent ==> h.state == s
    ensures KeyOf(call) !in s.recent ==> |h.state.recent| >= 1 && h.state.recent[|h.state.recent| - 1] == KeyOf(call)
  {
    var key := KeyOf(call);
    if key in s.recent then
      Handled(Notice(Repeated(call.name)), s)
    else
      var d := DispatchTool(s.registry, call, context, parse);
      Handled(d.reply, ToolState(d.registry, PushRecent(s.recent, key)))
  }

  /** A call already in the window gets the guard's notice; the registry, every counter and the window stay as they were. */
  lemma RepeatChangesNothing(s: ToolState, call: FunctionCall, context: Value, parse: Parser)
    requires KeyOf(call) in s.recent
    ensures HandleCall(s, call, context, parse) == Handled(Notice(Repeated(call.name)), s)
  {
  }

  /**
   * A call not in the window is dispatched and then remembered, whatever the
   * dispatch answered; the reply is the dispatch's.
   */
  lemma NewCallRemembered(s: ToolState, call: FunctionCall, context: Value, parse: Parser)
    requires KeyOf(call) !in s.recent
    ensures var h := HandleCall(s, call, context, parse);
            var d := DispatchTool(s.registry, call, context, parse);
            && h.state.recent == PushRecent(s.recent, KeyOf(call))
            && h.state.registry == d.registry
            && h.reply == d.reply
  {
  }

  /** The reply to one tool call, with the call's id. */
  datatype CallReply = CallReply(id: string, reply: Reply)

  datatype Processed = Processed(replies: seq<CallReply>, state: ToolState)

  /** The tool calls of one reply, handled in order. */
  function ProcessCalls(s: ToolState, calls: seq<ToolCalling>, context: Value, parse: Parser): (p: Processed)
    ensures |p.replies| == |calls|
    ensures forall i :: 0 <= i < |calls| ==> p.replies[i].id == calls[i].id
    decreases |calls|
  {
    if calls == [] then Processed([], s)
    else
      var p := ProcessCalls(s, calls[..|calls| - 1], context, parse);
      var last := calls[|calls| - 1];
      var h := HandleCall(p.state, last.call, context, parse);
      Processed(p.replies + [CallReply(last.id, h.reply)], h.state)
  }

  /** The tool messages for the replies, one per reply, in order. */
  function ToolMessages(replies: seq<CallReply>): (ms: seq<ToolMessage>)
    ensures |ms| == |replies|
    ensures forall i :: 0 <= i < |replies| ==> ms[i] == ToolMessage(Content(replies[i].reply), replies[i].id)
  {
    seq(|replies|, i requires 0 <= i < |replies| => ToolMessage(Content(replies[i].reply), replies[i].id))
  }

  /** One more reply adds one more tool message at the end. */
  lemma ToolMessagesSnoc(replies: seq<CallReply>, r: CallReply)
    ensures ToolMessages(replies + [r]) == ToolMessages(replies) + ToolMessages([r])
  {
    assert forall i :: 0 <= i < |replies| ==> (replies + [r])[i] == replies[i];
  }

  /** The window stays within five entries, each remembered before or the key of one of the calls. */
  lemma {:induction false} ProcessKeepsWindow(s: ToolState, calls: seq<ToolCalling>, context: Value, parse: Parser)
    requires |s.recent| <= MaxRecentCalls
    ensures var w := ProcessCalls(s, calls, context, parse).state.recent;
            && |w| <= MaxRecentCalls
            && forall key :: key in w ==> key in s.recent || exists i :: 0 <= i < |calls| && key == KeyOf(calls[i].call)
    decreases |calls|
  {
    if calls != [] {
      var init := calls[..|calls| - 1];
      ProcessKeepsWindow(s, init, context, parse);
      var p := ProcessCalls(s, init, context, parse);
      var last := calls[|calls| - 1];
      var w := ProcessCalls(s, calls, context, parse).state.recent;
      forall key | key in w
        ensures key in s.recent || exists i :: 0 <= i < |calls| && key == KeyOf(calls[i].call)
      {
        if key == KeyOf(last.call) {
          assert key == KeyOf(calls[|calls| - 1].call);
        } else {
          assert key in p.state.recent;
          if key !in s.recent {
            var i :| 0 <= i < |init| && key == KeyOf(init[i].call);
            assert calls[i] == init[i];
          }
        }
      }
    }
  }
}
