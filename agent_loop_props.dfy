/**
 * What one `ask` loop does, stated over the whole run and proved round by
 * round: how many backend calls it makes, how a backend error ends it, that the
 * conversation is only appended to, and how usage is summed.
 */
module AgentLoopProperties {
  import opened Wrappers
  import opened Messages
  import opened ToolDispatch
  import opened AgentLoop

  /** What a round must do for the loop lemmas: the facts they rely on about one step. */
  ghost predicate RoundOk(step: Step, failure: Value, reply: BackendResult, st: LoopState) {
    var r := step(reply, st);
    && st.conversation <= r.state.conversation
    && (reply.Delivered? ==> |st.conversation| < |r.state.conversation|
                             && r.state.conversation[|st.conversation|] == Assistant(reply.message))
    && r.state.totals == AfterCall(st.totals, reply)
    && (reply.Failed? ==> r == Stop(failure, st))
    && (reply.Delivered? && reply.message.toolCalls.Some? ==> r.Next?)
  }

  /** Every round of the step has these facts. */
  ghost predicate StepFacts(step: Step, failure: Value) {
    forall reply, st :: RoundOk(step, failure, reply, st)
  }

  /** The facts of one round, in the cases of the reply. */
  lemma RoundFacts(s: Settings, reply: BackendResult, parse: Parser, apology: string, st: LoopState)
    ensures RoundOk(AskStep(s, parse, apology), ErrorReply(apology, s.jsonReply), reply, st)
  {
    if reply.Delivered? {
      var ai := reply.message;
      if ai.toolCalls.Some? {
        RoundOkTools(s, ai, parse, apology, st);
      } else if s.jsonReply && ai.content.Some? && ai.content.value != "" && parse(ai.content.value).Failure? {
        RoundOkJsonFix(s, ai, parse, apology, st);
      } else {
        RoundOkContent(s, ai, parse, apology, st);
      }
    }
  }

  lemma RoundOkTools(s: Settings, ai: AIMessage, parse: Parser, apology: string, st: LoopState)
    requires ai.toolCalls.Some?
    ensures RoundOk(AskStep(s, parse, apology), ErrorReply(apology, s.jsonReply), Delivered(ai), st)
  {
    ToolCallsRound(s, ai, parse, apology, st);
    AppendedTwo(st.conversation, Assistant(ai), ToolMessageGroup(ToolMessages(ProcessCalls(st.tools, ai.toolCalls.value, s.context, parse).replies)));
  }

  lemma RoundOkJsonFix(s: Settings, ai: AIMessage, parse: Parser, apology: string, st: LoopState)
    requires s.jsonReply && ai.toolCalls.None?
    requires ai.content.Some? && ai.content.value != "" && parse(ai.content.value).Failure?
    ensures RoundOk(AskStep(s, parse, apology), ErrorReply(apology, s.jsonReply), Delivered(ai), st)
  {
    JsonFailureRetries(s, ai, parse, apology, st);
    AppendedTwo(st.conversation, Assistant(ai), UserMessage(Some(JsonErrorText(parse(ai.content.value).error)), None));
  }

  lemma RoundOkContent(s: Settings, ai: AIMessage, parse: Parser, apology: string, st: LoopState)
    requires ai.toolCalls.None?
    requires !(s.jsonReply && ai.content.Some? && ai.content.value != "" && parse(ai.content.value).Failure?)
    ensures RoundOk(AskStep(s, parse, apology), ErrorReply(apology, s.jsonReply), Delivered(ai), st)
  {
    ContentRound(s, ai, parse, apology, st);
    assert st.conversation <= st.conversation + [Assistant(ai)];
  }

  lemma AppendedTwo<T>(c: seq<T>, x: T, y: T)
    ensures c <= c + [x, y] && |c| < |c + [x, y]| && (c + [x, y])[|c|] == x
  {
  }

  /** The rounds of an agent have the facts the loop lemmas rely on. */
  lemma AskStepFacts(s: Settings, parse: Parser, apology: string)
    ensures StepFacts(AskStep(s, parse, apology), ErrorReply(apology, s.jsonReply))
  {
    forall reply, st
      ensures RoundOk(AskStep(s, parse, apology), ErrorReply(apology, s.jsonReply), reply, st)
    {
      RoundFacts(s, reply, parse, apology, st);
    }
  }

  /**
   * A reply with tool calls: its calls are dispatched in order, and the reply
   * and the group of tool messages are appended.
   */
  lemma ToolCallsRound(s: Settings, ai: AIMessage, parse: Parser, apology: string, st: LoopState)
    requires ai.toolCalls.Some?
    ensures var p := ProcessCalls(st.tools, ai.toolCalls.value, s.context, parse);
            Round(s, Delivered(ai), parse, apology, st)
            == Next(LoopState(st.conversation + [Assistant(ai), ToolMessageGroup(ToolMessages(p.replies))], p.state, WithUsageOf(st.totals, ai)))
  {
    var p := ProcessCalls(st.tools, ai.toolCalls.value, s.context, parse);
    var st1 := st.(conversation := st.conversation + [Assistant(ai)], totals := WithUsageOf(st.totals, ai));
    assert Round(s, Delivered(ai), parse, apology, st)
        == Next(st1.(conversation := st1.conversation + [ToolMessageGroup(ToolMessages(p.replies))], tools := p.state));
    assert st1.conversation + [ToolMessageGroup(ToolMessages(p.replies))]
        == st.conversation + [Assistant(ai), ToolMessageGroup(ToolMessages(p.replies))];
  }

  /**
   * In JSON-reply mode, content that does not parse appends the reply and one
   * corrective user turn carrying the parse error, and the loop goes on.
   */
  lemma JsonFailureRetries(s: Settings, ai: AIMessage, parse: Parser, apology: string, st: LoopState)
    requires s.jsonReply && ai.toolCalls.None?
    requires ai.content.Some? && ai.content.value != "" && parse(ai.content.value).Failure?
    ensures var fix := UserMessage(Some(JsonErrorText(parse(ai.content.value).error)), None);
            Round(s, Delivered(ai), parse, apology, st)
            == Next(st.(conversation := st.conversation + [Assistant(ai), fix], totals := WithUsageOf(st.totals, ai)))
  {
    var fix := UserMessage(Some(JsonErrorText(parse(ai.content.value).error)), None);
    assert st.conversation + [Assistant(ai)] + [fix] == st.conversation + [Assistant(ai), fix];
  }

  /**
   * Content without tool calls ends the loop: as it is, or parsed in JSON-reply
   * mode; a reply with neither tool calls nor content lets the loop go round again.
   */
  lemma ContentRound(s: Settings, ai: AIMessage, parse: Parser, apology: string, st: LoopState)
    requires ai.toolCalls.None?
    ensures var r := Round(s, Delivered(ai), parse, apology, st);
            var st1 := st.(conversation := st.conversation + [Assistant(ai)], totals := WithUsageOf(st.totals, ai));
            && (ai.content.None? || ai.content.value == "" ==> r == Next(st1))
            && (ai.content.Some? && ai.content.value != "" && !s.jsonReply ==> r == Stop(Str(ai.content.value), st1))
            && (ai.content.Some? && ai.content.value != "" && s.jsonReply && parse(ai.content.value).Success? ==>
                  r == Stop(parse(ai.content.value).value, st1))
  {
  }

  // ---------------------------------------------------------------------------
  // Calls and endings.
  // ---------------------------------------------------------------------------

  /**
   * From round `i` on: the calls stay within the ceiling, at least one is made,
   * every call but the last delivered a reply, and a last call that failed ends
   * the loop with the error reply.
   */
  predicate ShapeFrom(backend: Backend, failure: Value, i: nat, e: Exit) {
    && i + |e.sent| <= MaxRounds
    && (i < MaxRounds ==> |e.sent| >= 1)
    && (forall k :: i <= k < i + |e.sent| - 1 ==> backend(k).Delivered?)
    && (|e.sent| >= 1 && backend(i + |e.sent| - 1).Failed? ==> e.reply == failure)
  }

  lemma {:induction false} LoopShape(step: Step, failure: Value, history: seq<Message>, backend: Backend,
                                     i: nat, st: LoopState)
    requires StepFacts(step, failure) && i <= MaxRounds
    ensures ShapeFrom(backend, failure, i, Rounds(step, history, backend, i, st))
    decreases MaxRounds - i, 1
  {
    if i < MaxRounds {
      RoundsStep(step, history, backend, i, st);
      assert RoundOk(step, failure, backend(i), st);
      if step(backend(i), st).Next? {
        LoopShapeNext(step, failure, history, backend, i, st);
      }
    }
  }

  lemma {:induction false} LoopShapeNext(step: Step, failure: Value, history: seq<Message>, backend: Backend,
                                         i: nat, st: LoopState)
    requires StepFacts(step, failure) && i < MaxRounds && step(backend(i), st).Next?
    ensures ShapeFrom(backend, failure, i, Rounds(step, history, backend, i, st))
    decreases MaxRounds - i, 0
  {
    var st' := step(backend(i), st).state;
    assert RoundOk(step, failure, backend(i), st);
    RoundsStep(step, history, backend, i, st);
    LoopShape(step, failure, history, backend, i + 1, st');
    ShapeCons(backend, failure, i, Rounds(step, history, backend, i + 1, st'), history + st.conversation);
  }

  /** A delivered call before rounds of the right shape gives rounds of the right shape. */
  lemma ShapeCons(backend: Backend, failure: Value, i: nat, rest: Exit, m: seq<Message>)
    requires i < MaxRounds && backend(i).Delivered? && ShapeFrom(backend, failure, i + 1, rest)
    ensures ShapeFrom(backend, failure, i, Exit(rest.reply, rest.state, [m] + rest.sent))
  {
    var e := Exit(rest.reply, rest.state, [m] + rest.sent);
    assert |e.sent| == 1 + |rest.sent|;
    forall k | i <= k < i + |e.sent| - 1
      ensures backend(k).Delivered?
    {
      if k > i {
        assert i + 1 <= k < i + 1 + |rest.sent| - 1;
      }
    }
  }

  /** Replies that always carry tool calls use up every round and end with the fallback reply. */
  lemma {:induction false} AlwaysToolCalls(step: Step, failure: Value, history: seq<Message>, backend: Backend,
                                           i: nat, st: LoopState)
    requires StepFacts(step, failure) && i <= MaxRounds
    requires forall k :: i <= k < MaxRounds ==> backend(k).Delivered? && backend(k).message.toolCalls.Some?
    ensures var e := Rounds(step, history, backend, i, st);
            |e.sent| == MaxRounds - i && e.reply == Str(FallbackReply)
    decreases MaxRounds - i
  {
    if i < MaxRounds {
      var st' := step(backend(i), st).state;
      assert RoundOk(step, failure, backend(i), st);
      AlwaysToolCalls(step, failure, history, backend, i + 1, st');
      RoundsStep(step, history, backend, i, st);
    }
  }

  // ---------------------------------------------------------------------------
  // What is sent: the history and a growing prefix of the final conversation.
  // ---------------------------------------------------------------------------

  /**
   * Every call sends the history followed by a prefix of the final
   * conversation; the first sends the conversation the rounds started with,
   * and each call sends more than the one before.
   */
  predicate GrowsFrom(history: seq<Message>, st: LoopState, e: Exit) {
    && st.conversation <= e.state.conversation
    && (|e.sent| > 0 ==> e.sent[0] == history + st.conversation)
    && (forall k :: 0 <= k < |e.sent| ==> history <= e.sent[k] && e.sent[k][|history|..] <= e.state.conversation)
    && (forall k :: 0 <= k < |e.sent| - 1 ==> |e.sent[k]| < |e.sent[k + 1]|)
  }

  lemma {:induction false} LoopGrows(step: Step, failure: Value, history: seq<Message>, backend: Backend,
                                     i: nat, st: LoopState)
    requires StepFacts(step, failure)
    ensures GrowsFrom(history, st, Rounds(step, history, backend, i, st))
    decreases MaxRounds - i, 1
  {
    if i < MaxRounds {
      RoundsStep(step, history, backend, i, st);
      assert RoundOk(step, failure, backend(i), st);
      if step(backend(i), st).Next? {
        LoopGrowsNext(step, failure, history, backend, i, st);
      } else {
        assert (history + st.conversation)[|history|..] == st.conversation;
      }
    }
  }

  lemma {:induction false} LoopGrowsNext(step: Step, failure: Value, history: seq<Message>, backend: Backend,
                                         i: nat, st: LoopState)
    requires StepFacts(step, failure) && i < MaxRounds && step(backend(i), st).Next?
    ensures GrowsFrom(history, st, Rounds(step, history, backend, i, st))
    decreases MaxRounds - i, 0
  {
    var st' := step(backend(i), st).state;
    var rest := Rounds(step, history, backend, i + 1, st');
    RoundsStep(step, history, backend, i, st);
    assert RoundOk(step, failure, backend(i), st);
    LoopGrows(step, failure, history, backend, i + 1, st');
    GrowsCons(history, st, st', rest);
  }

  /** A round that extends the conversation, followed by rounds that keep growing, keeps growing. */
  lemma GrowsCons(history: seq<Message>, st: LoopState, st': LoopState, rest: Exit)
    requires st.conversation <= st'.conversation && |st.conversation| < |st'.conversation|
    requires GrowsFrom(history, st', rest)
    ensures GrowsFrom(history, st, Exit(rest.reply, rest.state, [history + st.conversation] + rest.sent))
  {
    var m := history + st.conversation;
    var sent := [m] + rest.sent;
    PrefixTransitive(st.conversation, st'.conversation, rest.state.conversation);
    assert m[|history|..] == st.conversation;
    forall k | 0 <= k < |sent|
      ensures history <= sent[k] && sent[k][|history|..] <= rest.state.conversation
    {
      if k > 0 {
        assert sent[k] == rest.sent[k - 1];
      }
    }
    forall k | 0 <= k < |sent| - 1
      ensures |sent[k]| < |sent[k + 1]|
    {
      if k > 0 {
        assert sent[k] == rest.sent[k - 1] && sent[k + 1] == rest.sent[k];
      }
    }
  }

  lemma PrefixTransitive<T>(a: seq<T>, b: seq<T>, c: seq<T>)
    requires a <= b && b <= c
    ensures a <= c
  {
    assert c[..|a|] == c[..|b|][..|a|];
  }

  // ---------------------------------------------------------------------------
  // Usage.
  // ---------------------------------------------------------------------------

  /** From round `i` on, the usage of every delivered reply is added to the totals, in call order. */
  lemma {:induction false} LoopTotals(step: Step, failure: Value, history: seq<Message>, backend: Backend,
                                      start: UsageTotals, i: nat, st: LoopState)
    requires StepFacts(step, failure)
    requires st.totals == AddReplies(start, DeliveredUpTo(backend, i))
    ensures var e := Rounds(step, history, backend, i, st);
            e.state.totals == AddReplies(start, DeliveredUpTo(backend, i + |e.sent|))
    decreases MaxRounds - i, 1
  {
    if i < MaxRounds {
      RoundsStep(step, history, backend, i, st);
      TotalsStep(backend, start, i, st.totals);
      assert RoundOk(step, failure, backend(i), st);
      if step(backend(i), st).Next? {
        LoopTotalsNext(step, failure, history, backend, start, i, st);
      }
    }
  }

  lemma {:induction false} LoopTotalsNext(step: Step, failure: Value, history: seq<Message>, backend: Backend,
                                          start: UsageTotals, i: nat, st: LoopState)
    requires StepFacts(step, failure)
    requires st.totals == AddReplies(start, DeliveredUpTo(backend, i))
    requires i < MaxRounds && step(backend(i), st).Next?
    ensures var e := Rounds(step, history, backend, i, st);
            e.state.totals == AddReplies(start, DeliveredUpTo(backend, i + |e.sent|))
    decreases MaxRounds - i, 0
  {
    var st' := step(backend(i), st).state;
    RoundsStep(step, history, backend, i, st);
    TotalsStep(backend, start, i, st.totals);
    assert RoundOk(step, failure, backend(i), st);
    LoopTotals(step, failure, history, backend, start, i + 1, st');
  }

  // ---------------------------------------------------------------------------
  // The reply.
  // ---------------------------------------------------------------------------

  /** A round stops exactly when `StopReply` gives a reply, and then with that reply. */
  lemma RoundStops(s: Settings, reply: BackendResult, parse: Parser, apology: string, st: LoopState)
    ensures var e := Round(s, reply, parse, apology, st);
            var r := StopReply(s, reply, parse, apology);
            (e.Stop? <==> r.Some?) && (e.Stop? ==> e.reply == r.value)
  {
  }

  /** Which backend results stop a step, and with which reply. */
  ghost predicate StopsAs(step: Step, stops: BackendResult -> Option<Value>) {
    forall reply, st :: && (step(reply, st).Stop? <==> stops(reply).Some?)
                        && (step(reply, st).Stop? ==> step(reply, st).reply == stops(reply).value)
  }

  /** `StopReply` for an agent with these settings, as a function of the backend result. */
  function AskStops(s: Settings, parse: Parser, apology: string): (stops: BackendResult -> Option<Value>)
    ensures forall reply :: stops(reply) == StopReply(s, reply, parse, apology)
  {
    (reply: BackendResult) => StopReply(s, reply, parse, apology)
  }

  lemma AskStepStops(s: Settings, parse: Parser, apology: string)
    ensures StopsAs(AskStep(s, parse, apology), AskStops(s, parse, apology))
  {
    forall reply, st
      ensures var e := AskStep(s, parse, apology)(reply, st);
              var r := AskStops(s, parse, apology)(reply);
              (e.Stop? <==> r.Some?) && (e.Stop? ==> e.reply == r.value)
    {
      RoundStops(s, reply, parse, apology, st);
    }
  }

  /**
   * From round `i` on: no call but the last stops the loop, and the reply is
   * what the last call stops with; if it does not stop, every round was used
   * and the reply is the fallback.
   */
  ghost predicate ReplyFrom(stops: BackendResult -> Option<Value>, backend: Backend, i: nat, e: Exit) {
    var last := i + |e.sent| - 1;
    && (forall k :: i <= k < last ==> stops(backend(k)).None?)
    && (if |e.sent| >= 1 && stops(backend(last)).Some? then e.reply == stops(backend(last)).value
        else e.reply == Str(FallbackReply) && i + |e.sent| == MaxRounds)
  }

  lemma {:induction false} LoopReply(step: Step, stops: BackendResult -> Option<Value>, history: seq<Message>,
                                     backend: Backend, i: nat, st: LoopState)
    requires StopsAs(step, stops) && i <= MaxRounds
    ensures ReplyFrom(stops, backend, i, Rounds(step, history, backend, i, st))
    decreases MaxRounds - i, 1
  {
    if i < MaxRounds {
      RoundsStep(step, history, backend, i, st);
      assert step(backend(i), st).Stop? <==> stops(backend(i)).Some?;
      if step(backend(i), st).Next? {
        LoopReplyNext(step, stops, history, backend, i, st);
      }
    }
  }

  lemma {:induction false} LoopReplyNext(step: Step, stops: BackendResult -> Option<Value>, history: seq<Message>,
                                         backend: Backend, i: nat, st: LoopState)
    requires StopsAs(step, stops) && i < MaxRounds && step(backend(i), st).Next?
    ensures ReplyFrom(stops, backend, i, Rounds(step, history, backend, i, st))
    decreases MaxRounds - i, 0
  {
    var st' := step(backend(i), st).state;
    assert stops(backend(i)).None?;
    RoundsStep(step, history, backend, i, st);
    var rest := Rounds(step, history, backend, i + 1, st');
    LoopReply(step, stops, history, backend, i + 1, st');
    var e := Rounds(step, history, backend, i, st);
    assert |e.sent| == 1 + |rest.sent| && e.reply == rest.reply;
    forall k | i <= k < i + |e.sent| - 1
      ensures stops(backend(k)).None?
    {
      if k > i {
        assert i + 1 <= k < i + 1 + |rest.sent| - 1;
      }
    }
  }

  /**
   * The reply of one `ask`: no call but the last stops the loop, and the reply
   * is what the last call stops with (the error reply, the content, or the
   * parsed content); if the last call does not stop, all ten rounds were used
   * and the reply is the fallback.
   */
  lemma AskReply(s: Settings, parse: Parser, apology: string, history: seq<Message>, user: Message,
                 tools: ToolState, backend: Backend)
    ensures var e := Rounds(AskStep(s, parse, apology), history, backend, 0, LoopState([user], tools, map[]));
            && (forall k :: 0 <= k < |e.sent| - 1 ==> StopReply(s, backend(k), parse, apology).None?)
            && match StopReply(s, backend(|e.sent| - 1), parse, apology)
               case Some(v) => e.reply == v
               case None => e.reply == Str(FallbackReply) && |e.sent| == MaxRounds
  {
    var step := AskStep(s, parse, apology);
    var st := LoopState([user], tools, map[]);
    AskStepStops(s, parse, apology);
    LoopReply(step, AskStops(s, parse, apology), history, backend, 0, st);
    AskStepFacts(s, parse, apology);
    LoopShape(step, ErrorReply(apology, s.jsonReply), history, backend, 0, st);
  }

  /**
   * In JSON-reply mode, content that does not parse followed by content that
   * does: two calls, the second sending the reply and the correction request,
   * and the parsed content as the reply.
   */
  lemma AskJsonRetry(s: Settings, parse: Parser, apology: string, history: seq<Message>, user: Message,
                     tools: ToolState, backend: Backend)
    requires s.jsonReply
    requires forall k :: 0 <= k < 2 ==> && backend(k).Delivered? && backend(k).message.toolCalls.None?
                                        && backend(k).message.content.Some? && backend(k).message.content.value != ""
    requires parse(backend(0).message.content.value).Failure?
    requires parse(backend(1).message.content.value).Success?
    ensures var e := Rounds(AskStep(s, parse, apology), history, backend, 0, LoopState([user], tools, map[]));
            && |e.sent| == 2
            && e.sent[1] == history + [user, Assistant(backend(0).message),
                                       UserMessage(Some(JsonErrorText(parse(backend(0).message.content.value).error)), None)]
            && e.reply == parse(backend(1).message.content.value).value
  {
    var step := AskStep(s, parse, apology);
    var st := LoopState([user], tools, map[]);
    assert backend(0).Delivered? && backend(1).Delivered?;
    RoundsStep(step, history, backend, 0, st);
    var st1 := step(backend(0), st).state;
    assert st1.conversation == [user, Assistant(backend(0).message),
                                UserMessage(Some(JsonErrorText(parse(backend(0).message.content.value).error)), None)];
    RoundsStep(step, history, backend, 1, st1);
  }

  // ---------------------------------------------------------------------------
  // The whole loop of one `ask`.
  // ---------------------------------------------------------------------------

  /**
   * The loop of one `ask`, started on the user turn: one to ten backend calls,
   * each sending the history and a growing prefix of a conversation that starts
   * with the user turn; every call but the last delivered a reply; a failed
   * last call gives the error reply; the usage totals sum the delivered replies.
   */
  lemma AskLoop(s: Settings, parse: Parser, apology: string, history: seq<Message>, user: Message,
                tools: ToolState, backend: Backend)
    ensures var e := Rounds(AskStep(s, parse, apology), history, backend, 0, LoopState([user], tools, map[]));
            && 1 <= |e.sent| <= MaxRounds
            && |e.state.conversation| >= 1 && e.state.conversation[0] == user
            && e.sent[0] == history + [user]
            && (forall k :: 0 <= k < |e.sent| ==> history <= e.sent[k] && e.sent[k][|history|..] <= e.state.conversation)
            && (forall k :: 0 <= k < |e.sent| - 1 ==> |e.sent[k]| < |e.sent[k + 1]|)
            && (forall k :: 0 <= k < |e.sent| - 1 ==> backend(k).Delivered?)
            && (backend(|e.sent| - 1).Failed? ==> e.reply == ErrorReply(apology, s.jsonReply))
            && e.state.totals == AddReplies(map[], DeliveredUpTo(backend, |e.sent|))
  {
    var step := AskStep(s, parse, apology);
    var failure := ErrorReply(apology, s.jsonReply);
    var st := LoopState([user], tools, map[]);
    AskStepFacts(s, parse, apology);
    LoopShape(step, failure, history, backend, 0, st);
    LoopGrows(step, failure, history, backend, 0, st);
    LoopTotals(step, failure, history, backend, map[], 0, st);
  }

  /** An agent whose replies always carry tool calls makes exactly ten calls and answers with the fallback. */
  lemma AskAlwaysToolCalls(s: Settings, parse: Parser, apology: string, history: seq<Message>, user: Message,
                           tools: ToolState, backend: Backend)
    requires forall k :: 0 <= k < MaxRounds ==> backend(k).Delivered? && backend(k).message.toolCalls.Some?
    ensures var e := Rounds(AskStep(s, parse, apology), history, backend, 0, LoopState([user], tools, map[]));
            |e.sent| == MaxRounds && e.reply == Str(FallbackReply)
  {
    AskStepFacts(s, parse, apology);
    AlwaysToolCalls(AskStep(s, parse, apology), ErrorReply(apology, s.jsonReply), history, backend, 0,
                    LoopState([user], tools, map[]));
  }
}
