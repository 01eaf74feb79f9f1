/**
 * The message and usage model shared by the agent loop and the LLM function:
 * Python values, conversation turns, tool calls and per-model token totals.
 */
module Messages {
  import opened Wrappers

  /** The Python values that flow through the core: JSON-shaped data and plain strings. */
  datatype Value =
    | Null
    | Bool(b: bool)
    | Num(n: int)
    | Str(s: string)
    | List(items: seq<Value>)
    | Dict(entries: map<string, Value>)

  /** Python truthiness of a value (`if result_shape:`, `if image_urls:` and the like). */
  predicate Truthy(v: Value) {
    match v
    case Null => false
    case Bool(b) => b
    case Num(n) => n != 0
    case Str(s) => s != ""
    case List(items) => items != []
    case Dict(entries) => entries != map[]
  }

  /** An optional string as the Python value it stands for (`None` or a `str`). */
  function OptionalText(t: Option<string>): (v: Value)
    ensures t.None? <==> v == Null
    ensures t.Some? ==> v == Str(t.value)
  {
    match t
    case None => Null
    case Some(s) => Str(s)
  }

  /** An argument value that is not a string, and so is not decoded again. */
  type Structure = v: Value | !v.Str? witness Null

  /** Tool-call arguments: a JSON string still to decode, or an already structured value. */
  datatype Arguments = Raw(text: string) | Structured(value: Structure)

  datatype FunctionCall = FunctionCall(name: string, arguments: Arguments)

  datatype ToolCalling = ToolCalling(id: string, kind: string, call: FunctionCall)

  /**
   * A model reply. `usage` is the reply's token count when the backend reports one;
   * `toolCalls` is `None` when the reply carries no tool-calling list at all.
   */
  datatype AIMessage = AIMessage(
    content: Option<string>,
    toolCalls: Option<seq<ToolCalling>>,
    model: Option<string>,
    usage: Option<nat>)

  datatype ToolMessage = ToolMessage(content: Value, toolCallId: string)

  datatype Message =
    | SystemMessage(text: string)
    | UserMessage(content: Option<string>, userName: Option<string>)
    | UserVisionMessage(visionText: string, imageUrls: seq<string>)
    | Assistant(reply: AIMessage)
    | ToolMessageGroup(toolMessages: seq<ToolMessage>)

  /** A vision message is a kind of user message, so both pass an `isinstance(m, UserMessage)` test. */
  predicate IsUserTurn(m: Message) {
    m.UserMessage? || m.UserVisionMessage?
  }

  /** What the caller asks: a plain string, or a message object passed as it is. */
  datatype Query = Text(text: string) | Turn(message: Message)

  /** What one backend call does: deliver a reply or raise an error. */
  datatype BackendResult = Delivered(message: AIMessage) | Failed(error: string)

  /** A backend scripted by call index: the reply to the k-th call of one invocation. */
  type Backend = nat -> BackendResult

  /** The `json.loads` oracle: a value, or the text of the decode error. */
  type Parser = string -> Result<Value, string>

  // ---------------------------------------------------------------------------
  // Usage: token totals keyed by model identifier.
  // ---------------------------------------------------------------------------

  type UsageTotals = map<string, nat>

  function TokensFor(totals: UsageTotals, model: string): nat {
    if model in totals then totals[model] else 0
  }

  /** Adds the tokens of one reply to its model's total. */
  function AddTokens(totals: UsageTotals, model: string, tokens: nat): (r: UsageTotals)
    ensures r.Keys == totals.Keys + {model}
    ensures TokensFor(r, model) == TokensFor(totals, model) + tokens
    ensures forall m :: m != model ==> TokensFor(r, m) == TokensFor(totals, m)
  {
    totals[model := TokensFor(totals, model) + tokens]
  }

  /** Combines two usage records by summing per model. */
  function MergeTotals(into: UsageTotals, other: UsageTotals): (r: UsageTotals)
    ensures r.Keys == into.Keys + other.Keys
    ensures forall m :: TokensFor(r, m) == TokensFor(into, m) + TokensFor(other, m)
  {
    map m | m in into.Keys + other.Keys :: TokensFor(into, m) + TokensFor(other, m)
  }

  /**
   * The usage a reply contributes: only when it names a (non-empty) model and
   * reports a usage record.
   */
  function UsageOf(ai: AIMessage): (u: Option<(string, nat)>)
    ensures u.Some? <==> ai.model.Some? && ai.model.value != "" && ai.usage.Some?
    ensures u.Some? ==> u.value == (ai.model.value, ai.usage.value)
  {
    if ai.model.Some? && ai.model.value != "" && ai.usage.Some?
    then Some((ai.model.value, ai.usage.value))
    else None
  }

  /** The totals after the usage of `ai`, if it has any, is added. */
  function WithUsageOf(totals: UsageTotals, ai: AIMessage): (r: UsageTotals)
    ensures UsageOf(ai).None? ==> r == totals
    ensures UsageOf(ai).Some? ==> r == AddTokens(totals, UsageOf(ai).value.0, UsageOf(ai).value.1)
  {
    match UsageOf(ai)
    case None => totals
    case Some((m, n)) => AddTokens(totals, m, n)
  }

  /** The totals after the usage of each reply, oldest first, is added. */
  function AddReplies(totals: UsageTotals, replies: seq<AIMessage>): UsageTotals
    decreases |replies|
  {
    if replies == [] then totals
    else WithUsageOf(AddReplies(totals, replies[..|replies| - 1]), replies[|replies| - 1])
  }

  /** The tokens the replies report for `model`. */
  function TokensReported(replies: seq<AIMessage>, model: string): nat
    decreases |replies|
  {
    if replies == [] then 0
    else
      var last := UsageOf(replies[|replies| - 1]);
      TokensReported(replies[..|replies| - 1], model) + (if last.Some? && last.value.0 == model then last.value.1 else 0)
  }

  /** Adding replies one by one sums, per model, the tokens they report. */
  lemma {:induction false} AddRepliesSums(totals: UsageTotals, replies: seq<AIMessage>, model: string)
    ensures TokensFor(AddReplies(totals, replies), model) == TokensFor(totals, model) + TokensReported(replies, model)
    decreases |replies|
  {
    if replies != [] {
      AddRepliesSums(totals, replies[..|replies| - 1], model);
    }
  }

  /** One more reply is one more `WithUsageOf`. */
  lemma AddRepliesSnoc(totals: UsageTotals, replies: seq<AIMessage>, ai: AIMessage)
    ensures AddReplies(totals, replies + [ai]) == WithUsageOf(AddReplies(totals, replies), ai)
  {
    assert (replies + [ai])[..|replies|] == replies;
  }

  /** The usage totals after the reply to a backend call, which adds its usage if it has any. */
  function AfterCall(totals: UsageTotals, reply: BackendResult): UsageTotals {
    match reply
    case Failed(_) => totals
    case Delivered(ai) => WithUsageOf(totals, ai)
  }

  /** The replies delivered by the first `n` calls, in call order. */
  function DeliveredUpTo(backend: Backend, n: nat): seq<AIMessage> {
    if n == 0 then []
    else DeliveredUpTo(backend, n - 1) + (if backend(n - 1).Delivered? then [backend(n - 1).message] else [])
  }

  /** The totals after a call are those of the replies delivered up to and including it. */
  lemma TotalsStep(backend: Backend, start: UsageTotals, i: nat, totals: UsageTotals)
    requires totals == AddReplies(start, DeliveredUpTo(backend, i))
    ensures AfterCall(totals, backend(i)) == AddReplies(start, DeliveredUpTo(backend, i + 1))
  {
    if backend(i).Delivered? {
      assert DeliveredUpTo(backend, i + 1) == DeliveredUpTo(backend, i) + [backend(i).message];
      AddRepliesSnoc(start, DeliveredUpTo(backend, i), backend(i).message);
    } else {
      assert DeliveredUpTo(backend, i + 1) == DeliveredUpTo(backend, i) + [] == DeliveredUpTo(backend, i);
    }
  }

  /**
   * The accumulator a caller may hand to an `ask` or LLM-function call; it
   * lives across calls and is updated in place.
   */
  class AgentUsage {
    var totals: UsageTotals

    constructor ()
      ensures totals == map[]
    {
      totals := map[];
    }

    method AddUsage(model: string, tokens: nat)
      modifies this
      ensures totals == AddTokens(old(totals), model, tokens)
    {
      totals := AddTokens(totals, model, tokens);
    }

    method Merge(other: UsageTotals)
      modifies this
      ensures totals == MergeTotals(old(totals), other)
    {
      totals := MergeTotals(totals, other);
    }
  }

  /**
   * Two replies of 10 and 5 tokens for one model total 15; merged into an
   * accumulator already holding 3 for that model, they give 18.
   */
  lemma UsageMergeExample()
    ensures var call := AddTokens(AddTokens(map[], "modelA", 10), "modelA", 5);
            call == map["modelA" := 15] && MergeTotals(map["modelA" := 3], call) == map["modelA" := 18]
  {
    var call := AddTokens(AddTokens(map[], "modelA", 10), "modelA", 5);
    assert call == map["modelA" := 15];
    var merged := MergeTotals(map["modelA" := 3], call);
    assert merged.Keys == {"modelA"};
    assert TokensFor(merged, "modelA") == 18;
  }
}
