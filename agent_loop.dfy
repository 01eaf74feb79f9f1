/**
 * The conversation loop of `Agent.ask`, as values: at most ten rounds, each
 * calling the backend with the history and the conversation so far, then
 * dispatching tool calls, retrying after a reply that is not valid JSON,
 * stopping on a backend error or returning the reply's content.
 */
module AgentLoop {
  import opened Wrappers
  import opened Messages
  import opened ToolDispatch

  /** The iteration ceiling of the loop. */
  const MaxRounds: nat := 10

  const FallbackReply: string := "Sorry, I am not sure how to answer that."

  const JsonErrorHead: string := "Error processing JSON message: "
  const JsonErrorTail: string := ". Make sure your response is a valid JSON string and do not include the `json` tag."

  /** The correction request after content that is not valid JSON. */
  function JsonErrorText(error: string): (t: string)
    ensures |t| == |JsonErrorHead| + |error| + |JsonErrorTail|
    ensures t[|JsonErrorHead|..|JsonErrorHead| + |error|] == error
  {
    JsonErrorHead + error + JsonErrorTail
  }

  /** The settings of an agent the loop depends on. */
  datatype Settings = Settings(context: Value, jsonReply: bool)

  /** The reply after a backend error: the apology, wrapped as `{"message": ...}` in JSON-reply mode. */
  function ErrorReply(apology: string, jsonReply: bool): (v: Value)
    ensures jsonReply ==> v.Dict? && v.entries.Keys == {"message"} && v.entries["message"] == Str(apology)
    ensures !jsonReply ==> v == Str(apology)
  {
    if jsonReply then Dict(map["message" := Str(apology)]) else Str(apology)
  }

  /** The user turn of an `ask`: text becomes a user message with the given user name, a message is kept. */
  function UserTurn(message: Query, userName: Option<string>): (m: Message)
    ensures message.Text? ==> m == UserMessage(Some(message.text), userName)
    ensures message.Turn? ==> m == message.message
  {
    match message
    case Text(text) => UserMessage(Some(text), userName)
    case Turn(m) => m
  }

  /** What the loop carries from round to round. */
  datatype LoopState = LoopState(conversation: seq<Message>, tools: ToolState, totals: UsageTotals)

  /** How one round ends: go round again, or stop with the reply. */
  datatype RoundEnd = Next(state: LoopState) | Stop(reply: Value, state: LoopState)

  /** One round after the backend call, given what the call did. */
  function Round(s: Settings, reply: BackendResult, parse: Parser, apology: string, st: LoopState): (e: RoundEnd)
    ensures st.conversation <= e.state.conversation
    ensures reply.Failed? <==> e.state.conversation == st.conversation && e.Stop?
  {
    match reply
    case Failed(_) => Stop(ErrorReply(apology, s.jsonReply), st)
    case Delivered(ai) =>
      var st1 := st.(conversation := st.conversation + [Assistant(ai)], totals := WithUsageOf(st.totals, ai));
      if ai.toolCalls.Some? then
        var p := ProcessCalls(st.tools, ai.toolCalls.value, s.context, parse);
        Next(st1.(conversation := st1.conversation + [ToolMessageGroup(ToolMessages(p.replies))], tools := p.state))
      else if ai.content.Some? && ai.content.value != "" then
        if !s.jsonReply then Stop(Str(ai.content.value), st1)
        else
          match parse(ai.content.value)
          case Failure(e) => Next(st1.(conversation := st1.conversation + [UserMessage(Some(JsonErrorText(e)), None)]))
          case Success(v) => Stop(v, st1)
      else Next(st1)
  }

  /**
   * The reply a round stops with, if it stops: the error reply after a backend
   * error, the content of a reply without tool calls (parsed in JSON-reply mode,
   * where content that does not parse goes round again), and nothing otherwise.
   */
  function StopReply(s: Settings, reply: BackendResult, parse: Parser, apology: string): Option<Value> {
    match reply
    case Failed(_) => Some(ErrorReply(apology, s.jsonReply))
    case Delivered(ai) =>
      if ai.toolCalls.Some? || ai.content.None? || ai.content.value == "" then None
      else if !s.jsonReply then Some(Str(ai.content.value))
      else if parse(ai.content.value).Success? then Some(parse(ai.content.value).value)
      else None
  }

  /** How a round is taken: `Round` for an agent, or any other step. */
  type Step = (BackendResult, LoopState) -> RoundEnd

  /** The rounds of an agent with these settings, this parser and this apology. */
  function AskStep(s: Settings, parse: Parser, apology: string): (step: Step)
    ensures forall reply, st :: step(reply, st) == Round(s, reply, parse, apology, st)
  {
    (reply: BackendResult, st: LoopState) => Round(s, reply, parse, apology, st)
  }

  /** How the loop ends: the reply, the final state and what was sent to the backend on each call. */
  datatype Exit = Exit(reply: Value, state: LoopState, sent: seq<seq<Message>>)

  /** The rounds from the `i`-th on; round `i` sends the history and the conversation as it stands. */
  function Rounds(step: Step, history: seq<Message>, backend: Backend, i: nat, st: LoopState): Exit
    decreases MaxRounds - i
  {
    if i >= MaxRounds then Exit(Str(FallbackReply), st, [])
    else
      var m := history + st.conversation;
      match step(backend(i), st)
      case Stop(reply, st') => Exit(reply, st', [m])
      case Next(st') =>
        var rest := Rounds(step, history, backend, i + 1, st');
        Exit(rest.reply, rest.state, [m] + rest.sent)
  }

  /** One round of `Rounds`, unfolded. */
  lemma RoundsStep(step: Step, history: seq<Message>, backend: Backend, i: nat, st: LoopState)
    requires i < MaxRounds
    ensures var e := Rounds(step, history, backend, i, st);
            var m := history + st.conversation;
            match step(backend(i), st)
            case Stop(reply, st') => e == Exit(reply, st', [m])
            case Next(st') =>
              var rest := Rounds(step, history, backend, i + 1, st');
              e == Exit(rest.reply, rest.state, [m] + rest.sent)
  {
  }
}
