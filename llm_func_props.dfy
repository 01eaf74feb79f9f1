/**
 * What an LLM-function invocation does, stated attempt by attempt and proved
 * about `LLMFunc.Retry`, which `LLMFunc.Invoke` is verified to follow.
 */
module LLMFuncProperties {
  import opened Wrappers
  import opened Messages
  import opened LLMFunc

  /** Attempt `k` was judged a failure and, a validator being set, was fed back for another attempt. */
  predicate Continues(f: LLMFunction, backend: Backend, judge: Judgement, k: nat) {
    Attempt(f, backend(k), judge, false).Again?
  }

  /** The two turns attempt `k` adds to the retry history when it continues, and nothing otherwise. */
  function FeedbackOf(f: LLMFunction, backend: Backend, judge: Judgement, k: nat): seq<Message> {
    match Attempt(f, backend(k), judge, false)
    case Again(feedback) => feedback
    case Done(_) => []
  }

  /** The retry history after the first `n` attempts. */
  function FeedbackUpTo(f: LLMFunction, backend: Backend, judge: Judgement, n: nat): seq<Message> {
    if n == 0 then [] else FeedbackUpTo(f, backend, judge, n - 1) + FeedbackOf(f, backend, judge, n - 1)
  }

  /**
   * The messages sent on attempt `k`: with a validator, the previous attempt's
   * list extended by the whole current history; without one, the user turn only.
   */
  function SentAt(f: LLMFunction, backend: Backend, judge: Judgement, user: Message, k: nat): seq<Message> {
    if f.check.None? then [user]
    else (if k == 0 then [user] else SentAt(f, backend, judge, user, k - 1)) + FeedbackUpTo(f, backend, judge, k)
  }

  /** How attempt `k` ends when it is made. */
  function EndOf(f: LLMFunction, backend: Backend, judge: Judgement, k: nat): AttemptEnd {
    Attempt(f, backend(k), judge, k == f.maxAttempts - 1)
  }

  /** An attempt that is fed back is not the last, so it ends as `Continues` says. */
  lemma AgainIsContinues(f: LLMFunction, backend: Backend, judge: Judgement, k: nat)
    requires EndOf(f, backend, judge, k).Again?
    ensures Continues(f, backend, judge, k)
    ensures EndOf(f, backend, judge, k).feedback == FeedbackOf(f, backend, judge, k)
  {
  }

  /** An attempt before the last one ends as `Continues` says. */
  lemma NotLastIsContinues(f: LLMFunction, backend: Backend, judge: Judgement, k: nat)
    ensures k < f.maxAttempts - 1 ==> (EndOf(f, backend, judge, k).Again? <==> Continues(f, backend, judge, k))
  {
    if k < f.maxAttempts - 1 {
      assert EndOf(f, backend, judge, k) == Attempt(f, backend(k), judge, false);
    }
  }

  /** The shape of an invocation from attempt `i` on: how many calls, and how they end. */
  predicate ShapeFrom(f: LLMFunction, backend: Backend, judge: Judgement, i: nat, run: Run, totals: UsageTotals) {
    && (i < f.maxAttempts ==> 1 <= |run.sent| <= f.maxAttempts - i)
    && (i >= f.maxAttempts ==> run.sent == [] && run.result == Returns(Null) && run.totals == totals)
    && (forall k :: i <= k < i + |run.sent| - 1 ==> Continues(f, backend, judge, k))
    && (|run.sent| >= 1 ==>
          var last := EndOf(f, backend, judge, i + |run.sent| - 1);
          last.Done? && run.result == last.result)
  }

  /**
   * From attempt `i` on: the number of calls, that every call but the last
   * continued, and that the last call's end is the result.
   */
  lemma {:induction false} RetryShape(
    f: LLMFunction, backend: Backend, judge: Judgement,
    i: nat, msgs: seq<Message>, history: seq<Message>, totals: UsageTotals)
    ensures ShapeFrom(f, backend, judge, i, Retry(f, backend, judge, i, msgs, history, totals), totals)
    decreases f.maxAttempts - i, 1
  {
    if i < f.maxAttempts {
      if Attempt(f, backend(i), judge, i == f.maxAttempts - 1).Again? {
        RetryShapeAgain(f, backend, judge, i, msgs, history, totals);
      } else {
        RetryStep(f, backend, judge, i, msgs, history, totals);
      }
    }
  }

  /** `RetryShape` at an attempt that is fed back. */
  lemma {:induction false} RetryShapeAgain(
    f: LLMFunction, backend: Backend, judge: Judgement,
    i: nat, msgs: seq<Message>, history: seq<Message>, totals: UsageTotals)
    requires i < f.maxAttempts && Attempt(f, backend(i), judge, i == f.maxAttempts - 1).Again?
    ensures ShapeFrom(f, backend, judge, i, Retry(f, backend, judge, i, msgs, history, totals), totals)
    decreases f.maxAttempts - i, 0
  {
    var m := if f.check.Some? then msgs + history else msgs;
    var feedback := Attempt(f, backend(i), judge, i == f.maxAttempts - 1).feedback;
    var totals' := AfterCall(totals, backend(i));
    AgainIsContinues(f, backend, judge, i);
    RetryShape(f, backend, judge, i + 1, m, history + feedback, totals');
    RetryStep(f, backend, judge, i, msgs, history, totals);
    var run := Retry(f, backend, judge, i, msgs, history, totals);
    var rest := Retry(f, backend, judge, i + 1, m, history + feedback, totals');
    assert |run.sent| == 1 + |rest.sent|;
  }

  /** The values of `g` at `i`, `i + 1`, ..., `i + n - 1`. */
  function Tabulate<T>(g: nat -> T, i: nat, n: nat): seq<T>
    decreases n
  {
    if n == 0 then [] else [g(i)] + Tabulate(g, i + 1, n - 1)
  }

  lemma {:induction false} TabulateIndex<T>(g: nat -> T, i: nat, n: nat)
    ensures |Tabulate(g, i, n)| == n
    ensures forall j :: 0 <= j < n ==> Tabulate(g, i, n)[j] == g(i + j)
    decreases n
  {
    if n > 0 {
      TabulateIndex(g, i + 1, n - 1);
      var rest := Tabulate(g, i + 1, n - 1);
      forall j | 0 <= j < n
        ensures Tabulate(g, i, n)[j] == g(i + j)
      {
        if j > 0 {
          assert Tabulate(g, i, n)[j] == rest[j - 1];
        }
      }
    }
  }

  /** `SentAt` as a function of the attempt index. */
  function SentFn(f: LLMFunction, backend: Backend, judge: Judgement, user: Message): nat -> seq<Message> {
    (k: nat) => SentAt(f, backend, judge, user, k)
  }

  /** The lists sent on the `n` attempts from attempt `i` on. */
  function SentFrom(f: LLMFunction, backend: Backend, judge: Judgement, user: Message, i: nat, n: nat): seq<seq<Message>> {
    Tabulate(SentFn(f, backend, judge, user), i, n)
  }

  /** From attempt `i` on, every call is sent `SentAt` for its index. */
  lemma {:induction false} RetrySent(
    f: LLMFunction, backend: Backend, judge: Judgement, user: Message,
    i: nat, msgs: seq<Message>, history: seq<Message>, totals: UsageTotals)
    requires msgs == if i == 0 then [user] else SentAt(f, backend, judge, user, i - 1)
    requires history == FeedbackUpTo(f, backend, judge, i)
    ensures var run := Retry(f, backend, judge, i, msgs, history, totals);
            run.sent == SentFrom(f, backend, judge, user, i, |run.sent|)
    decreases f.maxAttempts - i, 1
  {
    if i < f.maxAttempts {
      var end := Attempt(f, backend(i), judge, i == f.maxAttempts - 1);
      if end.Again? {
        RetrySentAgain(f, backend, judge, user, i, msgs, history, totals);
      } else {
        var m := if f.check.Some? then msgs + history else msgs;
        SentStep(f, backend, judge, user, i, msgs, history);
        RetryStep(f, backend, judge, i, msgs, history, totals);
        SentFromCons(f, backend, judge, user, i, 0);
      }
    }
  }

  /** `RetrySent` at an attempt that is fed back. */
  lemma {:induction false} RetrySentAgain(
    f: LLMFunction, backend: Backend, judge: Judgement, user: Message,
    i: nat, msgs: seq<Message>, history: seq<Message>, totals: UsageTotals)
    requires i < f.maxAttempts && Attempt(f, backend(i), judge, i == f.maxAttempts - 1).Again?
    requires msgs == if i == 0 then [user] else SentAt(f, backend, judge, user, i - 1)
    requires history == FeedbackUpTo(f, backend, judge, i)
    ensures var run := Retry(f, backend, judge, i, msgs, history, totals);
            run.sent == SentFrom(f, backend, judge, user, i, |run.sent|)
    decreases f.maxAttempts - i, 0
  {
    var m := if f.check.Some? then msgs + history else msgs;
    var feedback := Attempt(f, backend(i), judge, i == f.maxAttempts - 1).feedback;
    SentStep(f, backend, judge, user, i, msgs, history);
    RetrySent(f, backend, judge, user, i + 1, m, history + feedback, AfterCall(totals, backend(i)));
    SentAgainClose(f, backend, judge, user, i, msgs, history, totals);
  }

  /** The list attempt `i` sends goes in front of the lists sent from `i + 1` on. */
  lemma SentAgainClose(
    f: LLMFunction, backend: Backend, judge: Judgement, user: Message,
    i: nat, msgs: seq<Message>, history: seq<Message>, totals: UsageTotals)
    requires i < f.maxAttempts
    requires Attempt(f, backend(i), judge, i == f.maxAttempts - 1).Again?
    requires (if f.check.Some? then msgs + history else msgs) == SentAt(f, backend, judge, user, i)
    requires var m := if f.check.Some? then msgs + history else msgs;
             var feedback := Attempt(f, backend(i), judge, i == f.maxAttempts - 1).feedback;
             var rest := Retry(f, backend, judge, i + 1, m, history + feedback, AfterCall(totals, backend(i)));
             rest.sent == SentFrom(f, backend, judge, user, i + 1, |rest.sent|)
    ensures var run := Retry(f, backend, judge, i, msgs, history, totals);
            run.sent == SentFrom(f, backend, judge, user, i, |run.sent|)
  {
    var m := if f.check.Some? then msgs + history else msgs;
    var feedback := Attempt(f, backend(i), judge, i == f.maxAttempts - 1).feedback;
    var rest := Retry(f, backend, judge, i + 1, m, history + feedback, AfterCall(totals, backend(i)));
    RetryStep(f, backend, judge, i, msgs, history, totals);
    SentFromCons(f, backend, judge, user, i, |rest.sent|);
  }

  /** The list attempt `i` sends, and the history it leaves when it is fed back. */
  lemma SentStep(
    f: LLMFunction, backend: Backend, judge: Judgement, user: Message,
    i: nat, msgs: seq<Message>, history: seq<Message>)
    requires msgs == if i == 0 then [user] else SentAt(f, backend, judge, user, i - 1)
    requires history == FeedbackUpTo(f, backend, judge, i)
    ensures (if f.check.Some? then msgs + history else msgs) == SentAt(f, backend, judge, user, i)
    ensures var end := Attempt(f, backend(i), judge, i == f.maxAttempts - 1);
            end.Again? ==> history + end.feedback == FeedbackUpTo(f, backend, judge, i + 1)
  {
    var end := Attempt(f, backend(i), judge, i == f.maxAttempts - 1);
    if end.Again? {
      AgainIsContinues(f, backend, judge, i);
    }
  }

  lemma SentFromCons(f: LLMFunction, backend: Backend, judge: Judgement, user: Message, i: nat, n: nat)
    ensures SentFrom(f, backend, judge, user, i, n + 1)
         == [SentAt(f, backend, judge, user, i)] + SentFrom(f, backend, judge, user, i + 1, n)
    ensures SentFrom(f, backend, judge, user, i + 1, 0) == []
  {
    assert SentFn(f, backend, judge, user)(i) == SentAt(f, backend, judge, user, i);
  }

  /** From attempt `i` on, the usage of every delivered reply is added to the totals, in call order. */
  lemma {:induction false} RetryTotals(
    f: LLMFunction, backend: Backend, judge: Judgement, start: UsageTotals,
    i: nat, msgs: seq<Message>, history: seq<Message>, totals: UsageTotals)
    requires totals == AddReplies(start, DeliveredUpTo(backend, i))
    ensures var run := Retry(f, backend, judge, i, msgs, history, totals);
            run.totals == AddReplies(start, DeliveredUpTo(backend, i + |run.sent|))
    decreases f.maxAttempts - i, 1
  {
    if i < f.maxAttempts {
      if Attempt(f, backend(i), judge, i == f.maxAttempts - 1).Again? {
        RetryTotalsAgain(f, backend, judge, start, i, msgs, history, totals);
      } else {
        RetryStep(f, backend, judge, i, msgs, history, totals);
        TotalsStep(backend, start, i, totals);
      }
    }
  }

  /** `RetryTotals` at an attempt that is fed back. */
  lemma {:induction false} RetryTotalsAgain(
    f: LLMFunction, backend: Backend, judge: Judgement, start: UsageTotals,
    i: nat, msgs: seq<Message>, history: seq<Message>, totals: UsageTotals)
    requires i < f.maxAttempts && Attempt(f, backend(i), judge, i == f.maxAttempts - 1).Again?
    requires totals == AddReplies(start, DeliveredUpTo(backend, i))
    ensures var run := Retry(f, backend, judge, i, msgs, history, totals);
            run.totals == AddReplies(start, DeliveredUpTo(backend, i + |run.sent|))
    decreases f.maxAttempts - i, 0
  {
    var m := if f.check.Some? then msgs + history else msgs;
    var feedback := Attempt(f, backend(i), judge, i == f.maxAttempts - 1).feedback;
    TotalsStep(backend, start, i, totals);
    RetryTotals(f, backend, judge, start, i + 1, m, history + feedback, AfterCall(totals, backend(i)));
    RetryStep(f, backend, judge, i, msgs, history, totals);
  }

  /**
   * The whole invocation: at most `maxAttempts` backend calls; every call but
   * the last was judged a failure and fed back, which needs a validator; the
   * last call ends the invocation and its result is returned; each call was
   * sent exactly `SentAt`; the usage of every delivered reply is added once.
   */
  lemma InvocationTrace(f: LLMFunction, backend: Backend, judge: Judgement, user: Message, start: UsageTotals)
    ensures var run := Retry(f, backend, judge, 0, [user], [], start);
            && ShapeFrom(f, backend, judge, 0, run, start)
            && (|run.sent| > 1 ==> f.check.Some?)
            && (forall k :: 0 <= k < |run.sent| ==> run.sent[k] == SentAt(f, backend, judge, user, k))
            && run.totals == AddReplies(start, DeliveredUpTo(backend, |run.sent|))
  {
    var run := Retry(f, backend, judge, 0, [user], [], start);
    RetryShape(f, backend, judge, 0, [user], [], start);
    SentTrace(f, backend, judge, user, start);
    RetryTotals(f, backend, judge, start, 0, [user], [], start);
    ContinuesNeedsValidator(f, backend, judge, 0);
  }

  /** An attempt is only fed back under a validator. */
  lemma ContinuesNeedsValidator(f: LLMFunction, backend: Backend, judge: Judgement, k: nat)
    ensures Continues(f, backend, judge, k) ==> f.check.Some?
  {
  }

  /** Every call of an invocation is sent `SentAt` for its index. */
  lemma SentTrace(f: LLMFunction, backend: Backend, judge: Judgement, user: Message, start: UsageTotals)
    ensures var run := Retry(f, backend, judge, 0, [user], [], start);
            forall k :: 0 <= k < |run.sent| ==> run.sent[k] == SentAt(f, backend, judge, user, k)
  {
    var run := Retry(f, backend, judge, 0, [user], [], start);
    RetrySent(f, backend, judge, user, 0, [user], [], start);
    SentFromIndex(f, backend, judge, user, |run.sent|);
  }

  /** The `k`-th list of `SentFrom` from attempt 0 is `SentAt(k)`. */
  lemma SentFromIndex(f: LLMFunction, backend: Backend, judge: Judgement, user: Message, n: nat)
    ensures |SentFrom(f, backend, judge, user, 0, n)| == n
    ensures forall k :: 0 <= k < n ==> SentFrom(f, backend, judge, user, 0, n)[k] == SentAt(f, backend, judge, user, k)
  {
    var g := SentFn(f, backend, judge, user);
    TabulateIndex(g, 0, n);
    forall k | 0 <= k < n
      ensures SentFrom(f, backend, judge, user, 0, n)[k] == SentAt(f, backend, judge, user, k)
    {
      assert Tabulate(g, 0, n)[k] == g(0 + k) == g(k);
    }
  }

  /** Without a validator exactly one call is made, sent the user turn alone, and its verdict is returned. */
  lemma NoValidatorCallsOnce(f: LLMFunction, backend: Backend, judge: Judgement, user: Message, start: UsageTotals)
    requires f.check.None? && f.maxAttempts >= 1
    ensures var run := Retry(f, backend, judge, 0, [user], [], start);
            && run.sent == [[user]]
            && run.result == Attempt(f, backend(0), judge, f.maxAttempts == 1).result
            && (backend(0).Failed? ==> run.result == Throws(backend(0).error))
            && (backend(0).Delivered? ==>
                  run.result == match judge(backend(0).message)
                                case Throws(e) => Throws(e)
                                case Returns(r) => Returns(Answer(r)))
  {
    AttemptEnds(f, backend(0), judge, f.maxAttempts == 1);
    InvocationTrace(f, backend, judge, user, start);
  }

  /** Attempt `k` was delivered and judged, with the verdict `success`. */
  predicate Verdict(judge: Judgement, backend: Backend, k: nat, success: bool) {
    && backend(k).Delivered?
    && var v := judge(backend(k).message);
       v.Returns? && v.value.success == success
  }

  /** The check result of an attempt that reached a verdict. */
  function VerdictOf(judge: Judgement, backend: Backend, k: nat): CheckResult
    requires backend(k).Delivered? && judge(backend(k).message).Returns?
  {
    judge(backend(k).message).value
  }

  /**
   * After attempts ending only in failures that were fed back, the first
   * successful attempt ends the invocation: exactly that many calls, and its
   * value is returned.
   */
  lemma FirstSuccessReturned(f: LLMFunction, backend: Backend, judge: Judgement, user: Message, start: UsageTotals, k: nat)
    requires k < f.maxAttempts
    requires forall j :: 0 <= j < k ==> Continues(f, backend, judge, j)
    requires Verdict(judge, backend, k, true)
    ensures var run := Retry(f, backend, judge, 0, [user], [], start);
            && |run.sent| == k + 1
            && run.result == Returns(VerdictOf(judge, backend, k).value)
  {
    InvocationTrace(f, backend, judge, user, start);
    var run := Retry(f, backend, judge, 0, [user], [], start);
    var last := |run.sent| - 1;
    assert !Continues(f, backend, judge, k);
    NotLastIsContinues(f, backend, judge, last);
  }

  /** When every attempt fails under a validator, all `maxAttempts` calls are made and the last message is returned. */
  lemma AllAttemptsFail(f: LLMFunction, backend: Backend, judge: Judgement, user: Message, start: UsageTotals)
    requires f.check.Some? && f.maxAttempts >= 1
    requires forall j :: 0 <= j < f.maxAttempts ==> Verdict(judge, backend, j, false)
    ensures Verdict(judge, backend, f.maxAttempts - 1, false)
    ensures var run := Retry(f, backend, judge, 0, [user], [], start);
            && |run.sent| == f.maxAttempts
            && run.result == Returns(OptionalText(VerdictOf(judge, backend, f.maxAttempts - 1).message))
  {
    InvocationTrace(f, backend, judge, user, start);
    var run := Retry(f, backend, judge, 0, [user], [], start);
    var last := |run.sent| - 1;
    assert Verdict(judge, backend, last, false);
    NotLastIsContinues(f, backend, judge, last);
  }

  /** Each attempt that continues adds two turns to the history. */
  lemma {:induction false} FeedbackLength(f: LLMFunction, backend: Backend, judge: Judgement, n: nat)
    requires forall k :: 0 <= k < n ==> Continues(f, backend, judge, k)
    ensures |FeedbackUpTo(f, backend, judge, n)| == 2 * n
  {
    if n > 0 {
      FeedbackLength(f, backend, judge, n - 1);
      assert Continues(f, backend, judge, n - 1);
      assert |FeedbackOf(f, backend, judge, n - 1)| == 2;
    }
  }

  /**
   * The retry history after `n` attempts that were fed back: for each attempt
   * `j`, its failed reply and then a user turn carrying its failure message.
   */
  lemma FeedbackTurns(f: LLMFunction, backend: Backend, judge: Judgement, n: nat)
    requires forall k :: 0 <= k < n ==> Continues(f, backend, judge, k)
    ensures |FeedbackUpTo(f, backend, judge, n)| == 2 * n
    ensures forall j :: 0 <= j < n ==>
              && Verdict(judge, backend, j, false)
              && FeedbackUpTo(f, backend, judge, n)[2 * j] == Assistant(backend(j).message)
              && FeedbackUpTo(f, backend, judge, n)[2 * j + 1] == UserMessage(VerdictOf(judge, backend, j).message, None)
  {
    FeedbackLength(f, backend, judge, n);
    forall j | 0 <= j < n
      ensures Verdict(judge, backend, j, false)
      ensures FeedbackUpTo(f, backend, judge, n)[2 * j] == Assistant(backend(j).message)
      ensures FeedbackUpTo(f, backend, judge, n)[2 * j + 1] == UserMessage(VerdictOf(judge, backend, j).message, None)
    {
      FeedbackTurnAt(f, backend, judge, n, j);
    }
  }

  /** The turns attempt `j` left in the history after `n` continued attempts sit at `2 * j` and `2 * j + 1`. */
  lemma {:induction false} FeedbackTurnAt(f: LLMFunction, backend: Backend, judge: Judgement, n: nat, j: nat)
    requires j < n
    requires forall k :: 0 <= k < n ==> Continues(f, backend, judge, k)
    ensures |FeedbackUpTo(f, backend, judge, n)| == 2 * n
    ensures Verdict(judge, backend, j, false)
    ensures FeedbackUpTo(f, backend, judge, n)[2 * j] == Assistant(backend(j).message)
    ensures FeedbackUpTo(f, backend, judge, n)[2 * j + 1] == UserMessage(VerdictOf(judge, backend, j).message, None)
  {
    FeedbackLength(f, backend, judge, n);
    var before := FeedbackUpTo(f, backend, judge, n - 1);
    var added := FeedbackOf(f, backend, judge, n - 1);
    var all := FeedbackUpTo(f, backend, judge, n);
    FeedbackLength(f, backend, judge, n - 1);
    assert all == before + added;
    if j < n - 1 {
      FeedbackTurnAt(f, backend, judge, n - 1, j);
      assert all[2 * j] == before[2 * j] && all[2 * j + 1] == before[2 * j + 1];
    } else {
      ContinuedFeedback(f, backend, judge, j);
      assert 2 * j == |before|;
      assert all[2 * j] == added[0] && all[2 * j + 1] == added[1];
    }
  }

  /** The two turns a continued attempt adds: its reply, then a user turn with its failure message. */
  lemma ContinuedFeedback(f: LLMFunction, backend: Backend, judge: Judgement, k: nat)
    requires Continues(f, backend, judge, k)
    ensures Verdict(judge, backend, k, false)
    ensures FeedbackOf(f, backend, judge, k)
         == [Assistant(backend(k).message), UserMessage(VerdictOf(judge, backend, k).message, None)]
  {
    AttemptEnds(f, backend(k), judge, false);
  }

  /**
   * With a validator, attempt `k` sends 1 + k(k+1) messages: each attempt
   * re-appends the whole history, so earlier pairs are repeated.
   */
  lemma {:induction false} SentLength(f: LLMFunction, backend: Backend, judge: Judgement, user: Message, k: nat)
    requires f.check.Some?
    requires forall j :: 0 <= j < k ==> Continues(f, backend, judge, j)
    ensures |SentAt(f, backend, judge, user, k)| == 1 + k * (k + 1)
    ensures SentAt(f, backend, judge, user, k)[0] == user
  {
    FeedbackLength(f, backend, judge, k);
    if k > 0 {
      SentLength(f, backend, judge, user, k - 1);
      var before := SentAt(f, backend, judge, user, k - 1);
      assert SentAt(f, backend, judge, user, k) == before + FeedbackUpTo(f, backend, judge, k);
      assert (k - 1) * k + 2 * k == k * (k + 1);
    }
  }
}
