/**
 * What the retry policy of `generateReply` guarantees, stated about the
 * reference definitions `Run` and `Generate` that `GenerateReply` is proved equal to.
 */
module CompletionProperties {
  import opened Wrappers
  import opened Context
  import opened Completion

  /** The sleeps of a run started at `attempt` double from `Backoff(attempt)` on. */
  lemma {:induction false} RunDelays(outcomes: seq<Outcome>, retries: int, attempt: nat)
    requires retries < |outcomes|
    ensures forall k | 0 <= k < |Run(outcomes, retries, attempt).delays| ::
      Run(outcomes, retries, attempt).delays[k] == Backoff(attempt + k)
    decreases retries - attempt
  {
    if attempt <= retries {
      var t := Run(outcomes, retries, attempt);
      match Classify(outcomes[attempt], attempt, retries)
      case Finish(_) =>
      case Retry(d) =>
        RunDelays(outcomes, retries, attempt + 1);
        var rest := Run(outcomes, retries, attempt + 1);
        assert t.delays == [d] + rest.delays;
        forall k | 0 <= k < |t.delays| ensures t.delays[k] == Backoff(attempt + k) {
          if k > 0 { assert t.delays[k] == rest.delays[k - 1]; }
        }
    }
  }

  /**
   * Every attempt of a run but its last was retried, and the last one's
   * outcome decides the reply.
   */
  lemma {:induction false} RunSteps(outcomes: seq<Outcome>, retries: int, attempt: nat)
    requires retries < |outcomes| && attempt <= retries
    ensures forall k | attempt <= k < attempt + Run(outcomes, retries, attempt).calls - 1 ::
      Classify(outcomes[k], k, retries).Retry?
    ensures Classify(outcomes[attempt + Run(outcomes, retries, attempt).calls - 1],
                     attempt + Run(outcomes, retries, attempt).calls - 1, retries)
      == Finish(Run(outcomes, retries, attempt).reply)
    decreases retries - attempt
  {
    match Classify(outcomes[attempt], attempt, retries)
    case Finish(_) =>
    case Retry(_) =>
      RunSteps(outcomes, retries, attempt + 1);
  }

  /** Both facts about a run started at an attempt that is still allowed. */
  lemma RunShape(outcomes: seq<Outcome>, retries: int, attempt: nat)
    requires retries < |outcomes| && attempt <= retries
    ensures var t := Run(outcomes, retries, attempt);
      && (forall k | 0 <= k < |t.delays| :: t.delays[k] == Backoff(attempt + k))
      && (forall k | attempt <= k < attempt + t.calls - 1 :: Classify(outcomes[k], k, retries).Retry?)
      && Classify(outcomes[attempt + t.calls - 1], attempt + t.calls - 1, retries) == Finish(t.reply)
  {
    RunDelays(outcomes, retries, attempt);
    RunSteps(outcomes, retries, attempt);
  }

  /**
   * A call makes no provider call without a key or when `retries` is
   * negative, and otherwise at most `retries + 1` calls, with one sleep
   * between consecutive calls.
   */
  lemma CallsBounded(apiKey: Option<string>, retries: int, outcomes: seq<Outcome>)
    requires retries < |outcomes|
    ensures var t := Generate(apiKey, outcomes, retries);
      && (t.calls == 0 <==> !Present(apiKey) || retries < 0)
      && (t.calls > 0 ==> t.calls <= retries + 1 && |t.delays| == t.calls - 1)
      && (t.calls == 0 ==> t.delays == [])
  {
  }

  /** The sleeps are a prefix of 1000, 2000, 4000, ... milliseconds. */
  lemma DelaySchedule(apiKey: Option<string>, retries: int, outcomes: seq<Outcome>)
    requires retries < |outcomes|
    ensures var t := Generate(apiKey, outcomes, retries);
      && |t.delays| <= (if retries < 0 then 0 else retries)
      && (forall k | 0 <= k < |t.delays| :: t.delays[k] == 1000 * Pow2(k))
  {
    if Present(apiKey) && retries >= 0 {
      RunShape(outcomes, retries, 0);
    }
  }

  /**
   * The attempts before the last one were all retried: each saw status 429
   * or at least 500 while attempts remained. The last one was not retried,
   * and it alone decides the reply.
   */
  lemma RetriedIffRetryable(apiKey: Option<string>, retries: int, outcomes: seq<Outcome>)
    requires Present(apiKey) && 0 <= retries < |outcomes|
    ensures var t := Generate(apiKey, outcomes, retries);
      && (forall k | 0 <= k < t.calls - 1 :: Retryable(outcomes[k]) && k < retries)
      && 1 <= t.calls
      && !(Retryable(outcomes[t.calls - 1]) && t.calls - 1 < retries)
      && (t.reply.Success? <==> Delivered(outcomes[t.calls - 1]))
      && (t.reply.Success? ==> t.reply.text == outcomes[t.calls - 1].content.value)
      && (t.reply.Fail? ==> t.reply.error == TerminalError(outcomes[t.calls - 1]))
  {
    RunShape(outcomes, retries, 0);
  }

  /** A successful call returns exactly the content of a truthy 2xx reply. */
  lemma SuccessIsDeliveredContent(apiKey: Option<string>, retries: int, outcomes: seq<Outcome>, text: string)
    requires retries < |outcomes|
    requires Generate(apiKey, outcomes, retries).reply == Success(text)
    ensures var t := Generate(apiKey, outcomes, retries);
      t.calls >= 1 && outcomes[t.calls - 1] == Ok2xx(Some(text)) && text != ""
  {
    RunShape(outcomes, retries, 0);
  }

  /** A call reaches attempt `k` when every attempt before it failed with status 429 or at least 500. */
  predicate ReachedBy(outcomes: seq<Outcome>, k: nat)
    requires k <= |outcomes|
  {
    forall i | 0 <= i < k :: Retryable(outcomes[i])
  }

  /**
   * When attempts `first` to `k - 1` were all retried, the run from `first`
   * is those retries, with their sleeps, followed by the run from `k`.
   */
  lemma {:induction false} ReachesAttempt(outcomes: seq<Outcome>, retries: int, first: nat, k: nat)
    requires first <= k <= retries < |outcomes|
    requires forall i | first <= i < k :: Retryable(outcomes[i])
    ensures Run(outcomes, retries, first) == After(k - first, Schedule(first, k - first), Run(outcomes, retries, k))
    decreases k - first
  {
    if first < k {
      ReachesAttempt(outcomes, retries, first + 1, k);
      var next := Run(outcomes, retries, first + 1);
      var rest := Run(outcomes, retries, k);
      var later := Schedule(first + 1, k - first - 1);
      assert Classify(outcomes[first], first, retries) == Retry(Backoff(first));
      assert Run(outcomes, retries, first) == Trace(next.reply, next.calls + 1, [Backoff(first)] + next.delays);
      assert next.delays == later + rest.delays;
      assert Schedule(first, k - first) == [Backoff(first)] + later;
      assert [Backoff(first)] + (later + rest.delays) == ([Backoff(first)] + later) + rest.delays;
    }
  }

  /** A truthy 2xx reply at any reached attempt `k` is returned at once: no further call, no further sleep. */
  lemma FirstDeliveredReturnsAtOnce(apiKey: Option<string>, retries: int, outcomes: seq<Outcome>, k: nat)
    requires Present(apiKey) && k <= retries < |outcomes|
    requires ReachedBy(outcomes, k) && Delivered(outcomes[k])
    ensures Generate(apiKey, outcomes, retries) == Trace(Success(outcomes[k].content.value), k + 1, Schedule(0, k))
  {
    ReachesAttempt(outcomes, retries, 0, k);
  }

  /**
   * A 401 is never retried, whatever attempts remain: a call that reaches
   * it ends there, with the provider's message if it sent one, else the
   * invalid-key message.
   */
  lemma UnauthorizedNeverRetried(apiKey: Option<string>, retries: int, outcomes: seq<Outcome>, k: nat, msg: Option<string>)
    requires Present(apiKey) && k <= retries < |outcomes|
    requires ReachedBy(outcomes, k) && outcomes[k] == HttpErr(401, msg)
    ensures Generate(apiKey, outcomes, retries)
      == Trace(Fail(if Present(msg) then ProviderError(msg.value) else InvalidKey), k + 1, Schedule(0, k))
  {
    ReachesAttempt(outcomes, retries, 0, k);
  }

  /**
   * An empty or missing 2xx content, a timeout and a network error are not
   * retried even with attempts left: a call that reaches one ends there with
   * the generic message.
   */
  lemma StatuslessFailureNotRetried(apiKey: Option<string>, retries: int, outcomes: seq<Outcome>, k: nat)
    requires Present(apiKey) && k <= retries < |outcomes|
    requires ReachedBy(outcomes, k)
    requires outcomes[k] == NoResponse || (outcomes[k].Ok2xx? && !Present(outcomes[k].content))
    ensures Generate(apiKey, outcomes, retries) == Trace(Fail(Unavailable), k + 1, Schedule(0, k))
  {
    ReachesAttempt(outcomes, retries, 0, k);
  }

  /**
   * A provider message on a 429 or 5xx response does not stop the retry:
   * at a reached attempt `k` with attempts left, the call sleeps
   * `Backoff(k)` and makes at least one more call.
   */
  lemma ProviderMessageStillRetried(apiKey: Option<string>, retries: int, outcomes: seq<Outcome>, k: nat)
    requires Present(apiKey) && k < retries < |outcomes|
    requires ReachedBy(outcomes, k)
    requires outcomes[k].HttpErr? && Present(outcomes[k].providerMsg)
    requires outcomes[k].status == 429 || outcomes[k].status >= 500
    ensures var t := Generate(apiKey, outcomes, retries);
      t.calls >= k + 2 && |t.delays| > k && t.delays[k] == Backoff(k)
  {
    ReachesAttempt(outcomes, retries, 0, k);
    assert Run(outcomes, retries, k).delays[0] == Backoff(k);
  }

  /**
   * When every allowed attempt fails with status 429 or at least 500, the
   * call makes all `retries + 1` calls, sleeps 1 s, 2 s, 4 s, ... between them,
   * and ends with the failure of the last attempt.
   */
  lemma PersistentFailureExhausts(apiKey: Option<string>, retries: int, outcomes: seq<Outcome>)
    requires Present(apiKey) && 0 <= retries < |outcomes|
    requires forall k | 0 <= k <= retries :: Retryable(outcomes[k])
    ensures var t := Generate(apiKey, outcomes, retries);
      && t.calls == retries + 1
      && |t.delays| == retries
      && (forall k | 0 <= k < retries :: t.delays[k] == 1000 * Pow2(k))
      && t.reply == Fail(TerminalError(outcomes[retries]))
  {
    RunShape(outcomes, retries, 0);
  }

  /**
   * With the default two retries, a 429, another 429, then a truthy 2xx reply:
   * three calls, a 1 s sleep and then a 2 s sleep, and the reply text.
   */
  lemma RateLimitedTwiceThenSuccess(apiKey: Option<string>, text: string, rest: seq<Outcome>)
    requires Present(apiKey) && text != ""
    ensures var outcomes := [HttpErr(429, None), HttpErr(429, None), Ok2xx(Some(text))] + rest;
      Generate(apiKey, outcomes) == Trace(Success(text), 3, [1000, 2000])
  {
    var outcomes := [HttpErr(429, None), HttpErr(429, None), Ok2xx(Some(text))] + rest;
    assert Run(outcomes, 2, 2) == Trace(Success(text), 1, []);
    assert Run(outcomes, 2, 1) == Trace(Success(text), 2, [2000]);
  }

  /** A 5xx with no provider message on every attempt ends with the generic message. */
  lemma ServerErrorExhausts(apiKey: Option<string>, retries: int, outcomes: seq<Outcome>)
    requires Present(apiKey) && 0 <= retries < |outcomes|
    requires forall k | 0 <= k <= retries :: outcomes[k].HttpErr? && outcomes[k].status >= 500 && !Present(outcomes[k].providerMsg)
    ensures var t := Generate(apiKey, outcomes, retries);
      t.calls == retries + 1 && t.reply == Fail(Unavailable)
  {
    PersistentFailureExhausts(apiKey, retries, outcomes);
  }

  /** No run of the attempt loop ends with the missing-key error. */
  lemma {:induction false} RunNeverMissingKey(outcomes: seq<Outcome>, retries: int, attempt: nat)
    requires retries < |outcomes|
    ensures Run(outcomes, retries, attempt).reply != Fail(MissingKey)
    decreases retries - attempt
  {
    if attempt <= retries {
      match Classify(outcomes[attempt], attempt, retries)
      case Finish(_) =>
      case Retry(_) =>
        RunNeverMissingKey(outcomes, retries, attempt + 1);
    }
  }

  /** The missing-key error is the result exactly when the key is absent or empty. */
  lemma MissingKeyIffAbsent(apiKey: Option<string>, retries: int, outcomes: seq<Outcome>)
    requires retries < |outcomes|
    ensures Generate(apiKey, outcomes, retries).reply == Fail(MissingKey) <==> !Present(apiKey)
  {
    RunNeverMissingKey(outcomes, retries, 0);
  }

  /** The defensive fallback after the loop is reached only when `retries` is negative. */
  lemma FallbackOnlyWithoutAttempts(apiKey: Option<string>, retries: int, outcomes: seq<Outcome>)
    requires retries < |outcomes|
    ensures Generate(apiKey, outcomes, retries).reply == Fail(Exhausted) <==> Present(apiKey) && retries < 0
  {
  }

  /** Outcomes after the last call are never consumed: changing them changes nothing. */
  lemma {:induction false} RunReadsOnlyConsumed(outcomes: seq<Outcome>, other: seq<Outcome>, retries: int, attempt: nat)
    requires retries < |outcomes| && retries < |other|
    requires forall k | attempt <= k < attempt + Run(outcomes, retries, attempt).calls :: other[k] == outcomes[k]
    ensures Run(other, retries, attempt) == Run(outcomes, retries, attempt)
    decreases retries - attempt
  {
    if attempt <= retries {
      assert other[attempt] == outcomes[attempt];
      match Classify(outcomes[attempt], attempt, retries)
      case Finish(_) =>
      case Retry(_) =>
        RunReadsOnlyConsumed(outcomes, other, retries, attempt + 1);
    }
  }

  lemma OnlyConsumedOutcomesMatter(apiKey: Option<string>, retries: int, outcomes: seq<Outcome>, other: seq<Outcome>)
    requires retries < |outcomes| && retries < |other|
    requires forall k | 0 <= k < Generate(apiKey, outcomes, retries).calls :: other[k] == outcomes[k]
    ensures Generate(apiKey, other, retries) == Generate(apiKey, outcomes, retries)
  {
    if Present(apiKey) {
      RunReadsOnlyConsumed(outcomes, other, retries, 0);
    }
  }
}
