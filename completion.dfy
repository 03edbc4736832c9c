/**
 * The completion client: one call of `generateReply`, with the provider
 * transport replaced by the sequence of outcomes its attempts observe.
 */
module Completion {
  import opened Wrappers
  import opened Context

  /** What one attempt at the provider call observes. */
  datatype Outcome =
    | Ok2xx(content: Option<string>)                     // a 2xx response; `choices[0].message.content`
    | HttpErr(status: int, providerMsg: Option<string>)  // a rejected response; its `error.message`
    | NoResponse                                         // a timeout or a network error

  /** Why a call failed: one kind per message the source throws. */
  datatype Failure =
    | MissingKey              // no API key configured
    | ProviderError(msg: string)  // the provider's own `error.message`
    | InvalidKey              // status 401
    | RateLimited             // status 429 that is no longer retried
    | Unavailable             // anything else
    | Exhausted               // the loop ended without returning

  /**
   * The text of the error thrown for each kind of failure. Every text is
   * non-empty, and a provider's message can be read back after its prefix.
   */
  function Message(f: Failure): (m: string)
    ensures |m| > 0
    ensures f.ProviderError? ==> |m| == 10 + |f.msg| && m[..10] == "AI Error: " && m[10..] == f.msg
  {
    match f
    case MissingKey => "OPENROUTER_API_KEY is not set in environment variables."
    case ProviderError(msg) =>
      var prefix := "AI Error: ";
      assert |prefix| == 10 && (prefix + msg)[..10] == prefix && (prefix + msg)[10..] == msg;
      prefix + msg
    case InvalidKey => "Invalid OpenRouter API Key. Please check your .env file."
    case RateLimited => "The AI is currently busy (Rate Limit). Please wait a few seconds and try again."
    case Unavailable => "Failed to generate reply from AI. The service might be temporarily unavailable."
    case Exhausted => "Failed to generate reply after multiple attempts."
  }

  /** What the caller finally observes: the reply text, or the thrown failure. */
  datatype Reply = Success(text: string) | Fail(error: Failure)

  /** Retries when the caller gives none. */
  const DefaultRetries: int := 2

  function Pow2(k: nat): (r: nat)
    ensures r >= 1
  {
    if k == 0 then 1 else 2 * Pow2(k - 1)
  }

  /** Milliseconds slept after a retried attempt number `attempt`. */
  function Backoff(attempt: nat): (ms: nat)
    ensures ms >= 1000
  {
    Pow2(attempt) * 1000
  }

  /** The sleeps after `n` retried attempts numbered `first`, `first + 1`, ... */
  function Schedule(first: nat, n: nat): (s: seq<nat>)
    ensures |s| == n
    ensures forall i | 0 <= i < n :: s[i] == Backoff(first + i)
    decreases n
  {
    if n == 0 then [] else [Backoff(first)] + Schedule(first + 1, n - 1)
  }

  /** Each backoff is twice the previous one: 1000, 2000, 4000, ... */
  lemma BackoffDoubles(attempt: nat)
    ensures Backoff(attempt + 1) == 2 * Backoff(attempt)
    ensures Backoff(0) == 1000
  {
  }

  /** An attempt that returns the reply text: a 2xx response whose content is truthy. */
  predicate Delivered(o: Outcome)
  {
    o.Ok2xx? && Present(o.content)
  }

  /**
   * `error.response?.status` in the failure handler. An empty 2xx reply is
   * turned into a plain error, and timeouts have no response, so neither has one.
   */
  function StatusOf(o: Outcome): Option<int>
  {
    if o.HttpErr? then Some(o.status) else None
  }

  /** `error.response?.data?.error?.message` in the failure handler. */
  function ProviderMessageOf(o: Outcome): Option<string>
  {
    if o.HttpErr? then o.providerMsg else None
  }

  /** Status 429 or at least 500: a failure worth another attempt. */
  predicate Retryable(o: Outcome)
  {
    var s := StatusOf(o);
    s.Some? && (s.value == 429 || s.value >= 500)
  }

  /**
   * The message of a failure that is not retried, by the handler's
   * precedence: provider message, then 401, then 429, then the generic one.
   */
  function TerminalError(o: Outcome): (f: Failure)
    ensures f.ProviderError? <==> Present(ProviderMessageOf(o))
    ensures f.ProviderError? ==> f.msg == ProviderMessageOf(o).value
    ensures f == InvalidKey <==> !Present(ProviderMessageOf(o)) && StatusOf(o) == Some(401)
    ensures f == RateLimited <==> !Present(ProviderMessageOf(o)) && StatusOf(o) == Some(429)
    ensures f != MissingKey && f != Exhausted
  {
    var data := ProviderMessageOf(o);
    var status := StatusOf(o);
    if Present(data) then ProviderError(data.value)
    else if status == Some(401) then InvalidKey
    else if status == Some(429) then RateLimited
    else Unavailable
  }

  /** The decision taken after one attempt: stop with a reply, or sleep and try again. */
  datatype Step = Finish(reply: Reply) | Retry(delay: nat)

  function Classify(o: Outcome, attempt: nat, retries: int): (s: Step)
    ensures s.Retry? <==> Retryable(o) && attempt < retries
    ensures s.Retry? ==> s.delay == Backoff(attempt)
    ensures s.Finish? && s.reply.Success? <==> Delivered(o)
    ensures s.Finish? && s.reply.Success? ==> s.reply.text == o.content.value
    ensures s.Finish? && s.reply.Fail? ==> s.reply.error == TerminalError(o)
  {
    if Delivered(o) then Finish(Success(o.content.value))
    else if Retryable(o) && attempt < retries then Retry(Backoff(attempt))
    else Finish(Fail(TerminalError(o)))
  }

  /** What one call observably does: its reply, how many provider calls it made, and the sleeps between them. */
  datatype Trace = Trace(reply: Reply, calls: nat, delays: seq<nat>)

  /**
   * Reference definition of the attempt loop from attempt number `attempt` on:
   * the outcome of attempt `k` is `outcomes[k]`.
   */
  function Run(outcomes: seq<Outcome>, retries: int, attempt: nat): (t: Trace)
    requires retries < |outcomes|
    ensures attempt > retries ==> t == Trace(Fail(Exhausted), 0, [])
    ensures attempt <= retries ==> 1 <= t.calls <= retries - attempt + 1 && |t.delays| == t.calls - 1
    ensures attempt <= retries ==> t.reply != Fail(Exhausted)
    decreases retries - attempt
  {
    if attempt > retries then Trace(Fail(Exhausted), 0, [])
    else match Classify(outcomes[attempt], attempt, retries)
      case Finish(reply) => Trace(reply, 1, [])
      case Retry(d) =>
        var rest := Run(outcomes, retries, attempt + 1);
        Trace(rest.reply, rest.calls + 1, [d] + rest.delays)
  }

  /** Reference definition of a whole call: the credential check, then the loop. */
  function Generate(apiKey: Option<string>, outcomes: seq<Outcome>, retries: int := DefaultRetries): (t: Trace)
    requires retries < |outcomes|
    ensures !Present(apiKey) ==> t == Trace(Fail(MissingKey), 0, [])
    ensures Present(apiKey) && retries >= 0 ==> 1 <= t.calls <= retries + 1
  {
    if !Present(apiKey) then Trace(Fail(MissingKey), 0, [])
    else Run(outcomes, retries, 0)
  }

  /** Run from `attempt` on, preceded by `done` retried attempts whose sleeps were `delays`. */
  function After(done: nat, delays: seq<nat>, rest: Trace): Trace
  {
    Trace(rest.reply, done + rest.calls, delays + rest.delays)
  }

  /**
   * The attempt loop of `generateReply`: sends the same `request` on every
   * attempt, numbered `0..retries`, and returns the reply, the requests sent
   * in order, and each backoff slept, in order.
   */
  method Attempts(request: Request, outcomes: seq<Outcome>, retries: int)
    returns (reply: Reply, sent: seq<Request>, delays: seq<nat>)
    requires retries < |outcomes|
    ensures Trace(reply, |sent|, delays) == Run(outcomes, retries, 0)
    ensures forall i | 0 <= i < |sent| :: sent[i] == request
  {
    sent, delays := [], [];
    var attempt: nat := 0;
    while attempt <= retries
      invariant attempt == 0 || attempt <= retries
      invariant |sent| == attempt
      invariant forall i | 0 <= i < |sent| :: sent[i] == request
      invariant Run(outcomes, retries, 0) == After(attempt, delays, Run(outcomes, retries, attempt))
      decreases retries - attempt
    {
      sent := sent + [request];
      var outcome := outcomes[attempt];
      ghost var step := Classify(outcome, attempt, retries);
      assert step.Finish? ==> Run(outcomes, retries, attempt) == Trace(step.reply, 1, []);
      if Delivered(outcome) {
        return Success(outcome.content.value), sent, delays;
      }

      var status := StatusOf(outcome);
      var data := ProviderMessageOf(outcome);
      if (status == Some(429) || (status.Some? && status.value >= 500)) && attempt < retries {
        ghost var rest := Run(outcomes, retries, attempt + 1);
        assert Run(outcomes, retries, attempt) == Trace(rest.reply, rest.calls + 1, [Backoff(attempt)] + rest.delays);
        assert (delays + [Backoff(attempt)]) + rest.delays == delays + ([Backoff(attempt)] + rest.delays);
        delays := delays + [Pow2(attempt) * 1000];
        attempt := attempt + 1;
        continue;
      }
      if Present(data) {
        return Fail(ProviderError(data.value)), sent, delays;
      }
      if status == Some(401) {
        return Fail(InvalidKey), sent, delays;
      }
      if status == Some(429) {
        return Fail(RateLimited), sent, delays;
      }
      return Fail(Unavailable), sent, delays;
    }

    reply := Fail(Exhausted);
  }

  /**
   * `generateReply`: the key check, the request built once, then the
   * attempt loop. Returns the reply, the request sent on each provider call
   * in order, and each backoff the call slept for, in order.
   */
  method GenerateReply(config: Config, history: seq<Turn>, userMessage: string, outcomes: seq<Outcome>, retries: int := DefaultRetries)
    returns (reply: Reply, sent: seq<Request>, delays: seq<nat>)
    requires retries < |outcomes|
    ensures Trace(reply, |sent|, delays) == Generate(config.apiKey, outcomes, retries)
    ensures forall i | 0 <= i < |sent| :: sent[i] == BuildRequest(config, history, userMessage)
  {
    if !Present(config.apiKey) {
      return Fail(MissingKey), [], [];
    }
    var request := BuildRequest(config, history, userMessage);
    reply, sent, delays := Attempts(request, outcomes, retries);
  }
}
