/**
 * The pure part of reply generation: trimming the stored conversation to its
 * most recent turns and assembling the list of messages sent to the provider.
 */
module Context {
  import opened Wrappers

  /** Who wrote a turn. Stored turns are only ever `User` or `Assistant`. */
  datatype Role = System | User | Assistant

  /** One `{ role, content }` message. */
  datatype Turn = Turn(role: Role, content: string)

  /** Number of past turns kept in the request. */
  const HistoryLimit: nat := 10

  /** Sampling temperature sent with every request. */
  const Temperature: real := 0.7

  /**
   * The configuration a call depends on: the API key (read from the
   * environment on every call), the model identifier (read once when the
   * module is loaded) and the fixed persona text.
   */
  datatype Config = Config(apiKey: Option<string>, model: Option<string>, systemPrompt: string)

  /** The body posted to the completion endpoint. */
  datatype Request = Request(model: Option<string>, messages: seq<Turn>, temperature: real)

  function Min(a: int, b: int): int { if a <= b then a else b }

  /**
   * `s.slice(start)` with a single argument: a negative start counts back
   * from the end and is clamped at 0, a positive one is clamped at `|s|`.
   */
  function SliceFrom<T>(s: seq<T>, start: int): (r: seq<T>)
    ensures |r| == if start < 0 then Min(-start, |s|) else |s| - Min(start, |s|)
    ensures r == s[|s| - |r|..]
  {
    if start < 0 then
      (if |s| + start < 0 then s else s[|s| + start..])
    else s[Min(start, |s|)..]
  }

  /** `history.slice(-10)`: the turns that go into the request. */
  function Window(history: seq<Turn>): (r: seq<Turn>)
    ensures |r| == Min(HistoryLimit, |history|)
    ensures |history| <= HistoryLimit ==> r == history
    ensures r == history[|history| - |r|..]
  {
    SliceFrom(history, -(HistoryLimit as int))
  }

  /** Windowing twice is the same as windowing once. */
  lemma WindowIdempotent(history: seq<Turn>)
    ensures Window(Window(history)) == Window(history)
  {
  }

  /** System turn, then the windowed history, then the new user turn. */
  function BuildMessages(systemPrompt: string, window: seq<Turn>, userMessage: string): (r: seq<Turn>)
    ensures |r| == |window| + 2
    ensures r[0] == Turn(System, systemPrompt)
    ensures r[1..|r| - 1] == window
    ensures r[|r| - 1] == Turn(User, userMessage)
  {
    [Turn(System, systemPrompt)] + window + [Turn(User, userMessage)]
  }

  /** The request built once per call and reused by every attempt. */
  function BuildRequest(config: Config, history: seq<Turn>, userMessage: string): (r: Request)
    ensures r.model == config.model && r.temperature == Temperature
    ensures |r.messages| == Min(HistoryLimit, |history|) + 2
    ensures r.messages[0] == Turn(System, config.systemPrompt)
    ensures r.messages[|r.messages| - 1] == Turn(User, userMessage)
    ensures r.messages[1..|r.messages| - 1] == Window(history)
  {
    Request(config.model, BuildMessages(config.systemPrompt, Window(history), userMessage), Temperature)
  }

  /** How many turns of `ms` have the given role. */
  function CountRole(ms: seq<Turn>, role: Role): nat
  {
    if ms == [] then 0
    else (if ms[0].role == role then 1 else 0) + CountRole(ms[1..], role)
  }

  lemma {:induction false} CountRoleAppend(a: seq<Turn>, b: seq<Turn>, role: Role)
    ensures CountRole(a + b, role) == CountRole(a, role) + CountRole(b, role)
  {
    if a == [] {
      assert a + b == b;
    } else {
      assert (a + b)[1..] == a[1..] + b;
      CountRoleAppend(a[1..], b, role);
    }
  }

  lemma {:induction false} CountRoleZero(ms: seq<Turn>, role: Role)
    requires forall i | 0 <= i < |ms| :: ms[i].role != role
    ensures CountRole(ms, role) == 0
  {
    if ms != [] {
      CountRoleZero(ms[1..], role);
    }
  }

  /**
   * When the history holds only user and assistant turns, the assembled list
   * holds exactly one system turn, and it is the first message.
   */
  lemma {:induction false} SingleSystemTurn(config: Config, history: seq<Turn>, userMessage: string)
    requires forall i | 0 <= i < |history| :: history[i].role != System
    ensures var ms := BuildRequest(config, history, userMessage).messages;
      CountRole(ms, System) == 1 && ms[0].role == System
  {
    var w := Window(history);
    forall i | 0 <= i < |w| ensures w[i].role != System {
      assert w[i] == history[|history| - |w| + i];
    }
    CountRoleZero(w, System);
    CountRoleAppend([Turn(System, config.systemPrompt)], w, System);
    CountRoleAppend([Turn(System, config.systemPrompt)] + w, [Turn(User, userMessage)], System);
    assert CountRole([Turn(User, userMessage)], System) == 0 by {
      assert [Turn(User, userMessage)][1..] == [];
    }
    assert CountRole([Turn(System, config.systemPrompt)], System) == 1 by {
      assert [Turn(System, config.systemPrompt)][1..] == [];
    }
  }
}
