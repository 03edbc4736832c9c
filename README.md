# Reply generation of the Tech Store support chat

This project models `generateReply`, the reply-generation client of the chat
backend. It checks that an API key is configured. It keeps the last ten turns
of the stored conversation. It builds one message list: the system persona,
then those turns, then the new user message. It then calls the completion
provider at most `retries + 1` times. After a 429 or 5xx response it sleeps
`2^attempt` seconds and tries again while attempts remain. Any other failure
becomes one terminal error, chosen by a fixed precedence.

The model has four modules:

- `Wrappers`: `Option`, and `Present`, which is JavaScript truthiness of an
  optional string (an empty string counts as absent).
- `Context`: the pure part. `SliceFrom` is one-argument `Array.prototype.slice`.
  `Window` is `history.slice(-10)`. `BuildMessages` and `BuildRequest` build
  the message list and the request body.
- `Completion`: the outcomes an attempt can observe (`Ok2xx`, `HttpErr`,
  `NoResponse`). The failure kinds, with `Message` giving the exact text the
  source throws for each. The per-attempt decision `Classify`. The reference
  definitions `Run` (the attempt loop) and `Generate` (key check, then loop).
  The method `Attempts`, which is the source's `for` loop written as a
  `while` loop and proved equal to `Run` from attempt 0. The method
  `GenerateReply`, which checks the key, builds the request once, calls
  `Attempts`, and is proved equal to `Generate`.
- `CompletionProperties`: lemmas about the retry policy, stated on `Generate`
  and `Run`.

The provider call is replaced by a sequence of outcomes: attempt `k` observes
`outcomes[k]`. `GenerateReply` returns the reply and a log of its
interactions. The log lists the request sent on each provider call and the
backoff slept before each retry.

Four behaviours of the code are easy to misread:

- A 2xx reply with empty or missing content is not retried. It ends with the
  generic "unavailable" message, not "AI returned an empty response". The
  error thrown for it at backend/src/llm.ts:71 has no `response`. So the
  status read at line 75 is undefined, the retry test at line 85 is false,
  and the handler falls through to line 105.
- Timeouts and network errors have no status either (backend/src/llm.ts:75).
  They are not retried, and they end with the generic message.
- A provider `error.message` on a 429 or 5xx response does not stop the
  retry while attempts remain. The retry test at backend/src/llm.ts:85 comes
  before the message test at line 93.
- A 5xx that runs out of attempts has no message of its own. It gives the
  provider's message when there is one (backend/src/llm.ts:93), and the
  generic message otherwise (line 105).

## Model

| member | source | states |
|---|---|---|
| `Context.SliceFrom` | backend/src/llm.ts:41 | one-argument `slice`: a negative start keeps the last `min(-start, n)` elements, a non-negative start drops `min(start, n)`; the result is always a suffix of the input |
| `Context.Window` | backend/src/llm.ts:40-41 | the window has `min(10, n)` turns, n being the history length, is the suffix of `history` of that length (order kept, the oldest turns dropped), and is `history` itself when n <= 10 |
| `Context.WindowIdempotent` | backend/src/llm.ts:41 | windowing an already windowed history changes nothing |
| `Context.BuildMessages` | backend/src/llm.ts:43-47 | the list has two more entries than the window: the system turn with the persona first, then exactly the window, then the user turn with the new message last |
| `Context.BuildRequest` | backend/src/llm.ts:41-57 | the request carries the configured model and temperature 0.7, and `min(10, n) + 2` messages for a history of n turns: system turn first, the window in between, user turn last |
| `Context.SingleSystemTurn` | backend/src/llm.ts:43-47 | when the stored turns are user and assistant turns only, the request has exactly one system turn, and it is at index 0 |
| `Completion.Backoff` | backend/src/llm.ts:86 | a backoff is at least one second |
| `Completion.BackoffDoubles` | backend/src/llm.ts:86 | the backoff after attempt 0 is 1000 ms and each later one is twice the previous one |
| `Completion.Schedule` | backend/src/llm.ts:85-89 | the sleeps after `n` retried attempts numbered from `first` are `n` backoffs, `Backoff(first + i)` at position `i` |
| `Completion.Message` | backend/src/llm.ts:36-109 | every thrown error has a non-empty message, and a provider error's message is "AI Error: " followed by the provider's text verbatim |
| `Completion.TerminalError` | backend/src/llm.ts:92-105 | a failure that is not retried gives the provider's message exactly when it is truthy; otherwise the invalid-key error exactly for status 401, otherwise the rate-limit error exactly for 429, otherwise the generic error; never the missing-key or exhausted error |
| `Completion.Classify` | backend/src/llm.ts:69-105 | an attempt is retried iff its status is 429 or at least 500 and `attempt < retries`, with delay `Backoff(attempt)`; it succeeds iff the 2xx content is truthy, returning that content; any other failure gives `TerminalError` |
| `Completion.Run` | backend/src/llm.ts:49-109 | from an allowed attempt the loop makes between 1 and `retries - attempt + 1` calls with one sleep between consecutive calls, and never reaches the fallback; from past the last attempt it makes no call and gives the fallback error |
| `Completion.Generate` | backend/src/llm.ts:33-110 | without a truthy key the call fails with the missing-key error after no provider call; with one and `retries >= 0` it makes between 1 and `retries + 1` calls |
| `Completion.Attempts` | backend/src/llm.ts:49-109 | the attempt loop's reply, number of calls and sleeps are those of `Run` from attempt 0, and every call sends the one request it was given |
| `Completion.GenerateReply` | backend/src/llm.ts:33-110 | with `retries` defaulting to 2, the reply, number of calls and sleeps are those of `Generate`, and every call sends the same request, `BuildRequest(config, history, userMessage)`, built once after the key check |
| `CompletionProperties.RunDelays` | backend/src/llm.ts:85-89 | the sleeps of a run started at attempt `a` are `Backoff(a)`, `Backoff(a + 1)`, ... in order |
| `CompletionProperties.RunSteps` | backend/src/llm.ts:49-105 | every attempt of a run except the last was retried, and the last attempt's outcome decides the reply |
| `CompletionProperties.RunShape` | backend/src/llm.ts:49-109 | the two facts above together, for any allowed starting attempt |
| `CompletionProperties.CallsBounded` | backend/src/llm.ts:34-49 | no provider call is made iff the key is absent or empty or `retries < 0`; otherwise at most `retries + 1` calls are made, with exactly one sleep between consecutive calls |
| `CompletionProperties.DelaySchedule` | backend/src/llm.ts:85-89 | the sleeps are a prefix of 1000, 2000, 4000, ... ms, and there are at most `retries` of them |
| `CompletionProperties.RetriedIffRetryable` | backend/src/llm.ts:69-105 | every attempt before the last saw 429 or 5xx while attempts remained; the last attempt did not; the call succeeds iff the last outcome was a truthy 2xx, returning its content, and otherwise fails with that outcome's `TerminalError` |
| `CompletionProperties.SuccessIsDeliveredContent` | backend/src/llm.ts:69-73 | a successful reply is exactly the non-empty content of the 2xx response of the last call made |
| `CompletionProperties.ReachesAttempt` | backend/src/llm.ts:49-89 | when attempts `first` to `k - 1` all saw 429 or 5xx, the run from `first` is those `k - first` calls and their sleeps `Schedule(first, k - first)`, followed by the run from attempt `k` |
| `CompletionProperties.FirstDeliveredReturnsAtOnce` | backend/src/llm.ts:69-73 | a truthy 2xx at any attempt `k` the call reaches (every earlier attempt saw 429 or 5xx) returns its content after `k + 1` calls and the sleeps `Schedule(0, k)`, with no further call |
| `CompletionProperties.UnauthorizedNeverRetried` | backend/src/llm.ts:85-99 | a 401 at any reached attempt `k` ends the call there, after `k + 1` calls, whatever attempts remain: with the provider's message if it sent one, otherwise with the invalid-key error |
| `CompletionProperties.StatuslessFailureNotRetried` | backend/src/llm.ts:69-105 | a timeout, a network error or an empty 2xx content at any reached attempt `k` ends the call there, after `k + 1` calls, with the generic error, even when attempts remain |
| `CompletionProperties.ProviderMessageStillRetried` | backend/src/llm.ts:85-95 | a 429 or 5xx that carries a provider message at a reached attempt `k < retries` is still retried: at least `k + 2` calls, the sleep after attempt `k` being `Backoff(k)` |
| `CompletionProperties.PersistentFailureExhausts` | backend/src/llm.ts:85-105 | when every allowed attempt sees 429 or 5xx, all `retries + 1` calls are made, the sleeps are 1000, 2000, ... ms, and the call fails with the last attempt's `TerminalError` |
| `CompletionProperties.RateLimitedTwiceThenSuccess` | backend/src/llm.ts:33-89 | with the default two retries, 429, 429 and then a truthy 2xx give three calls, sleeps of 1000 and 2000 ms, and the reply text |
| `CompletionProperties.ServerErrorExhausts` | backend/src/llm.ts:85-105 | a 5xx without provider message on every attempt gives `retries + 1` calls and the generic error |
| `CompletionProperties.RunNeverMissingKey` | backend/src/llm.ts:49-109 | no run of the attempt loop ends with the missing-key error |
| `CompletionProperties.MissingKeyIffAbsent` | backend/src/llm.ts:34-38 | the call fails with the missing-key error exactly when the key is absent or empty |
| `CompletionProperties.FallbackOnlyWithoutAttempts` | backend/src/llm.ts:49-109 | the fallback error after the loop is the result iff the key is present and `retries < 0` |
| `CompletionProperties.RunReadsOnlyConsumed` | backend/src/llm.ts:49-73 | a run from any attempt reads only the outcomes of the calls it makes |
| `CompletionProperties.OnlyConsumedOutcomesMatter` | backend/src/llm.ts:49-73 | two transports that agree on the calls a request makes give the same reply, calls and sleeps: after a success or a terminal error no further outcome is consumed |

## Left out

- The HTTP call itself (axios, endpoint URL, headers, bearer token) is replaced by the outcome sequence.
- The 15-second per-attempt timeout is not modelled as a mechanism. An attempt that times out is the outcome `NoResponse`.
- The sleeps are not modelled as time passing. Only the requested durations are recorded.
- Console logging is not modelled, because it does not affect the result.
- The persona text, the `LLM_MODEL` value and the API key are fields of a `Config` parameter, not environment lookups.
- The temperature is an exact real 0.7, not a binary floating-point number.
- Backoff: the wait is an exact integer `2^attempt * 1000` for every attempt. The source computes it as a double, which overflows to `Infinity` from attempt 1015 on.
- `GenerateReply` requires one outcome for every attempt it may make (`retries < |outcomes|`). It is a condition on the modelled transport, not on callers of the source function.
- `retries` is an integer. A fractional or non-numeric argument in JavaScript is not modelled.
- Reply content and provider messages are strings. A non-string JSON value in those fields, which the source would return or format as is, is not modelled.
- A 2xx body without `choices` (including an empty one) is the same as missing content. In both cases the source throws an error without a response, which ends in the generic error.
- The HTTP routes in backend/src/index.ts are not part of this model. That includes the non-empty check, truncation to 1000 UTF-16 code units and dropping the just-saved user turn.
- The SQLite store in backend/src/db.ts is not part of this model. Its only effect here is that stored turns have role user or assistant, which `SingleSystemTurn` takes as its precondition.
- The React client and its HTTP wrappers in frontend/src are not part of this model.
