/**
 * The LLM function: a system prompt, an optional result shape and an optional
 * validator, turned into a callable that asks the backend, checks the reply and
 * retries with corrective feedback.
 */
module LLMFunc {
  import opened Wrappers
  import opened Messages

  /** The outcome of checking one reply: a value on success, a message on failure. */
  datatype CheckResult = CheckResult(success: bool, value: Value, message: Option<string>)

  /** What the LLM function hands back for a final check result. */
  function Answer(r: CheckResult): Value {
    if r.success then r.value else OptionalText(r.message)
  }

  /** A success: the LLM function hands back `value`. */
  function Ok(value: Value): (r: CheckResult)
    ensures r.success && Answer(r) == value
  {
    CheckResult(true, value, None)
  }

  /** A failure: the LLM function hands back `message`, or retries with it. */
  function Fail(message: string): (r: CheckResult)
    ensures !r.success && r.message == Some(message) && Answer(r) == Str(message)
  {
    CheckResult(false, Null, Some(message))
  }

  lemma OkAndFail(v: Value, m: string)
    ensures Ok(v).value == v && Ok(v).message.None?
    ensures Fail(m).value == Null
    ensures Ok(v) != Fail(m)
  {
  }

  /** A caller-supplied validator; it may raise, which the engine turns into a failure. */
  type Validator = Value -> Outcome<CheckResult>

  const JsonFormatHead := "\nYour answer MUST CONFORM to this JSON format:\n\n"
  const JsonFormatTail :=
    "\n\n\nEnsure your answer is a valid JSON object that can be parsed with Python's \n" +
    "json.loads() function successfully.\n" +
    "DO NOT include the JSON schema itself in the output, only the JSON object conforming to the schema.\n" +
    "DO NOT include the `json` tag in your answer.\n"

  /** The structured-output instruction with the encoded shape in its placeholder. */
  function JsonFormat(shape: string): (r: string)
    ensures |r| == |JsonFormatHead| + |shape| + |JsonFormatTail|
    ensures r[|JsonFormatHead|..|JsonFormatHead| + |shape|] == shape
  {
    JsonFormatHead + shape + JsonFormatTail
  }

  /** The system prompt: the caller's prompt, followed by the JSON instruction only when the shape is truthy. */
  function SystemPrompt(prompt: string, resultShape: Value, dumps: Value -> string): (r: string)
    ensures prompt <= r
    ensures r == prompt <==> !Truthy(resultShape)
    ensures Truthy(resultShape) ==> r[|prompt|..] == JsonFormat(dumps(resultShape))
  {
    if Truthy(resultShape) then prompt + JsonFormat(dumps(resultShape)) else prompt
  }

  /** The text `str(e)` of the TypeError `json.loads(None)` raises. */
  const NoneContentError := "the JSON object must be str, bytes or bytearray, not NoneType"

  /**
   * Turns the caller's query into the user turn: a user message object is kept,
   * text with images becomes a vision message, other text a plain user message.
   */
  function PrepareUserMessage(msg: Query, imageUrls: seq<string>): (m: Message)
    requires msg.Turn? ==> IsUserTurn(msg.message)
    ensures IsUserTurn(m)
    ensures msg.Turn? ==> m == msg.message
    ensures msg.Text? && imageUrls != [] ==> m.UserVisionMessage? && m.visionText == msg.text && m.imageUrls == imageUrls
    ensures msg.Text? && imageUrls == [] ==> m.UserMessage? && m.content == Some(msg.text) && m.userName.None?
  {
    match msg
    case Turn(message) => message
    case Text(text) => if imageUrls != [] then UserVisionMessage(text, imageUrls) else UserMessage(Some(text), None)
  }

  /**
   * Classifies a reply's content: parse it when a shape is configured, then
   * validate. Parse errors and validator exceptions become failures; only the
   * TypeError of parsing absent content propagates.
   */
  function CheckReply(content: Option<string>, shaped: bool, check: Option<Validator>, parse: Parser): (r: Outcome<CheckResult>)
    ensures r.Throws? <==> shaped && content.None?
    ensures r.Throws? ==> r.exception == NoneContentError
    ensures check.None? && r.Returns? ==> (r.value.success <==> !shaped || parse(content.value).Success?)
    ensures check.None? && r.Returns? && r.value.success ==>
              r.value.value == if shaped then parse(content.value).value else OptionalText(content)
  {
    if shaped && content.None? then Throws(NoneContentError)
    else
      var parsed := if shaped then parse(content.value) else Success(OptionalText(content));
      match parsed
      case Failure(e) => Returns(Fail(e))
      case Success(answer) =>
        match check
        case None => Returns(Ok(answer))
        case Some(validate) =>
          match validate(answer)
          case Returns(verdict) => Returns(verdict)
          case Throws(e) => Returns(Fail(e))
  }

  /** The cases of `CheckReply`, outcome by outcome. */
  lemma CheckReplyCases(content: Option<string>, shaped: bool, check: Option<Validator>, parse: Parser)
    ensures CheckReply(content, shaped, check, parse).Throws? <==> shaped && content.None?
    ensures CheckReply(content, shaped, check, parse).Throws? ==>
              CheckReply(content, shaped, check, parse).exception == NoneContentError
    ensures shaped && content.Some? && parse(content.value).Failure? ==>
              CheckReply(content, shaped, check, parse) == Returns(Fail(parse(content.value).error))
    ensures !shaped || (content.Some? && parse(content.value).Success?) ==>
              var answer := if shaped then parse(content.value).value else OptionalText(content);
              var r := CheckReply(content, shaped, check, parse);
              && (check.None? ==> r == Returns(Ok(answer)))
              && (check.Some? && check.value(answer).Returns? ==> r == check.value(answer))
              && (check.Some? && check.value(answer).Throws? ==> r == Returns(Fail(check.value(answer).exception)))
  {
  }

  /** A configured LLM function; `shaped` records whether the result shape was truthy. */
  datatype LLMFunction = LLMFunction(sysMsg: Message, shaped: bool, check: Option<Validator>, maxAttempts: int)

  function MakeLLMFunc(
    dumps: Value -> string, prompt: string, resultShape: Value := Null,
    check: Option<Validator> := None, maxAttempts: int := 3): (f: LLMFunction)
    ensures f.sysMsg == SystemMessage(SystemPrompt(prompt, resultShape, dumps))
    ensures f.shaped == Truthy(resultShape) && f.check == check && f.maxAttempts == maxAttempts
  {
    LLMFunction(SystemMessage(SystemPrompt(prompt, resultShape, dumps)), Truthy(resultShape), check, maxAttempts)
  }

  /** How the replies of a call are judged: `check_result` on their content, or any other judgement. */
  type Judgement = AIMessage -> Outcome<CheckResult>

  /** The judgement of an LLM function: its shape and validator applied to the reply's content. */
  function Judge(f: LLMFunction, parse: Parser): (j: Judgement)
    ensures forall ai :: j(ai) == CheckReply(ai.content, f.shaped, f.check, parse)
  {
    (ai: AIMessage) => CheckReply(ai.content, f.shaped, f.check, parse)
  }

  /** How one attempt ends: with the invocation's result, or with the two history turns to retry with. */
  datatype AttemptEnd = Done(result: Outcome<Value>) | Again(feedback: seq<Message>)

  /**
   * One attempt on `reply`: a backend error or the TypeError of parsing absent
   * content propagates; a success returns its value; a failure is returned as
   * its message unless a validator is set and attempts remain, in which case
   * the reply and a corrective user turn carrying the message are fed back.
   */
  function Attempt(f: LLMFunction, reply: BackendResult, judge: Judgement, last: bool): (a: AttemptEnd)
    ensures a.Again? ==> !last && f.check.Some? && reply.Delivered? && |a.feedback| == 2
    ensures a.Again? ==> a.feedback[0] == Assistant(reply.message) && a.feedback[1].UserMessage?
  {
    match reply
    case Failed(e) => Done(Throws(e))
    case Delivered(ai) =>
      match judge(ai)
      case Throws(e) => Done(Throws(e))
      case Returns(r) =>
        if r.success || f.check.None? || last then Done(Returns(Answer(r)))
        else Again([Assistant(ai), UserMessage(r.message, None)])
  }

  /**
   * How an attempt ends, case by case: it is fed back exactly when a delivered
   * reply is judged a failure under a validator and attempts remain, with the
   * reply and a user turn carrying the failure message; otherwise the backend
   * error or the TypeError propagates, or the verdict's answer is returned.
   */
  lemma AttemptEnds(f: LLMFunction, reply: BackendResult, judge: Judgement, last: bool)
    ensures var a := Attempt(f, reply, judge, last);
            && (a.Again? <==>
                  && !last && f.check.Some? && reply.Delivered?
                  && judge(reply.message).Returns? && !judge(reply.message).value.success)
            && (a.Again? ==>
                  a.feedback == [Assistant(reply.message), UserMessage(judge(reply.message).value.message, None)])
            && (reply.Failed? ==> a == Done(Throws(reply.error)))
            && (reply.Delivered? && judge(reply.message).Throws? ==> a == Done(Throws(judge(reply.message).exception)))
            && (a.Done? && reply.Delivered? && judge(reply.message).Returns? ==>
                  a.result == Returns(Answer(judge(reply.message).value)))
  {
  }

  /** What an invocation does: its result, the messages sent on each call and the caller's usage totals after it. */
  datatype Run = Run(result: Outcome<Value>, sent: seq<seq<Message>>, totals: UsageTotals)

  /**
   * The invocation from attempt `i` on, with `msgs` as the message list built
   * so far, `history` holding the failed replies and their corrective turns,
   * and `totals` the caller's usage totals so far.
   */
  function Retry(
    f: LLMFunction, backend: Backend, judge: Judgement,
    i: nat, msgs: seq<Message>, history: seq<Message>, totals: UsageTotals): (run: Run)
    ensures |run.sent| <= if i < f.maxAttempts then f.maxAttempts - i else 0
    ensures i < f.maxAttempts ==> 1 <= |run.sent|
    ensures f.check.None? ==> |run.sent| <= 1
    ensures forall k :: 0 <= k < |run.sent| ==> msgs <= run.sent[k]
    decreases f.maxAttempts - i
  {
    if i >= f.maxAttempts then Run(Returns(Null), [], totals)
    else
      var m := if f.check.Some? then msgs + history else msgs;
      var totals' := AfterCall(totals, backend(i));
      match Attempt(f, backend(i), judge, i == f.maxAttempts - 1)
      case Done(result) => Run(result, [m], totals')
      case Again(feedback) =>
        var rest := Retry(f, backend, judge, i + 1, m, history + feedback, totals');
        Run(rest.result, [m] + rest.sent, rest.totals)
  }

  /** Adds a reply's usage to the caller's accumulator when one was given. */
  method HandleLogging(ai: AIMessage, usage: AgentUsage?)
    modifies usage
    ensures usage != null ==> usage.totals == WithUsageOf(old(usage.totals), ai)
  {
    if usage != null && ai.model.Some? && ai.model.value != "" && ai.usage.Some? {
      usage.AddUsage(ai.model.value, ai.usage.value);
    }
  }

  /**
   * One call of the LLM function: the attempt loop over the backend. Without
   * an accumulator the usage totals are followed from empty, and discarded.
   */
  method Invoke(f: LLMFunction, msg: Query, imageUrls: seq<string>, usage: AgentUsage?, backend: Backend, parse: Parser)
    returns (result: Outcome<Value>, sent: seq<seq<Message>>)
    requires msg.Turn? ==> IsUserTurn(msg.message)
    modifies usage
    ensures var run := Retry(f, backend, Judge(f, parse), 0, [PrepareUserMessage(msg, imageUrls)], [],
                             if usage != null then old(usage.totals) else map[]);
            && result == run.result && sent == run.sent
            && (usage != null ==> usage.totals == run.totals)
  {
    var judge := Judge(f, parse);
    var userMsg := PrepareUserMessage(msg, imageUrls);
    var msgs := [userMsg];
    var history: seq<Message> := [];
    ghost var totals: UsageTotals := if usage != null then usage.totals else map[];
    ghost var whole := Retry(f, backend, judge, 0, msgs, history, totals);
    sent := [];
    var i := 0;
    while i < f.maxAttempts
      invariant 0 <= i
      invariant whole.result == Retry(f, backend, judge, i, msgs, history, totals).result
      invariant whole.sent == sent + Retry(f, backend, judge, i, msgs, history, totals).sent
      invariant whole.totals == Retry(f, backend, judge, i, msgs, history, totals).totals
      invariant usage != null ==> usage.totals == totals
    {
      RetryStep(f, backend, judge, i, msgs, history, totals);
      if f.check.Some? {
        msgs := msgs + history;
      }
      var reply := backend(i);
      if reply.Delivered? {
        HandleLogging(reply.message, usage);
      }
      totals := AfterCall(totals, reply);
      var end := Attempt(f, reply, judge, i == f.maxAttempts - 1);
      match end {
        case Done(res) =>
          sent := sent + [msgs];
          result := res;
          return;
        case Again(feedback) =>
          ghost var rest := Retry(f, backend, judge, i + 1, msgs, history + feedback, totals);
          assert sent + ([msgs] + rest.sent) == (sent + [msgs]) + rest.sent;
          sent := sent + [msgs];
          history := history + feedback;
      }
      i := i + 1;
    }
    assert sent + [] == sent;
    result := Returns(Null);
  }

  /** One unfolding of `Retry` at an attempt that is made. */
  lemma RetryStep(
    f: LLMFunction, backend: Backend, judge: Judgement,
    i: nat, msgs: seq<Message>, history: seq<Message>, totals: UsageTotals)
    requires i < f.maxAttempts
    ensures var run := Retry(f, backend, judge, i, msgs, history, totals);
            var m := if f.check.Some? then msgs + history else msgs;
            var totals' := AfterCall(totals, backend(i));
            var end := Attempt(f, backend(i), judge, i == f.maxAttempts - 1);
            && (end.Done? ==> run == Run(end.result, [m], totals'))
            && (end.Again? ==>
                  var rest := Retry(f, backend, judge, i + 1, m, history + end.feedback, totals');
                  run == Run(rest.result, [m] + rest.sent, rest.totals))
  {
  }
}
