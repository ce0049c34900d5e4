/**
 * The model gateway (backend/src/services/geminiService.js): the message list sent to the
 * provider and the "one retry, never throw" call. The provider is an oracle: the outcome of
 * each attempt is given.
 */
module Gateway {
  import opened Wrappers
  import opened Model

  /** A `{ role, content }` pair of the model's message list. */
  datatype Turn = Turn(role: Role, content: string)

  /** Per-call options; "" and 0 stand for an absent or falsy value. */
  datatype Options = Options(model: string, maxTokens: int, temperature: Option<real>)

  /** What one provider call receives. There is no temperature: it is never sent. */
  datatype Request = Request(model: string, messages: seq<Turn>, maxTokens: int)

  /** How one provider call ends: it throws, or returns a response with or without string content. */
  datatype Outcome =
    | Throws
    | Content(text: string)
    | NoContent(serialized: string)  // the response as `JSON.stringify` renders it

  /** The outcomes of the first call and of the retry. */
  datatype Script = Script(first: Outcome, second: Outcome)

  const DefaultOptions := Options("", 0, None)
  const DefaultModel := "gemini-2.0-flash"
  const DefaultMaxTokens := 800
  const DefaultTemperature: real := 0.2
  /** The reply when both attempts throw (written in two pieces to keep each literal short). */
  const FailureSentinel := "Error: Could not fetch response " + "from the model at this time."
  /** Stands for the fixed style instructions of `buildSystemPrompt`. */
  const SystemPrompt := "<system prompt>"

  /** `options.model || process.env.GEN_MODEL || "gemini-2.0-flash"` */
  function ResolveModel(options: Options, env: string): (m: string)
    ensures m != ""
    ensures options.model != "" ==> m == options.model
    ensures options.model == "" && env != "" ==> m == env
    ensures options.model == "" && env == "" ==> m == DefaultModel
  {
    if options.model != "" then options.model else if env != "" then env else DefaultModel
  }

  /** `options.maxTokens || 800`: an absent or zero value becomes 800. */
  function MaxTokens(options: Options): (n: int)
    ensures n != 0
    ensures options.maxTokens != 0 ==> n == options.maxTokens
    ensures options.maxTokens == 0 ==> n == DefaultMaxTokens
  {
    if options.maxTokens != 0 then options.maxTokens else DefaultMaxTokens
  }

  /** The temperature the source computes (and then never uses). */
  function Temperature(options: Options): real {
    options.temperature.GetOr(DefaultTemperature)
  }

  /** `buildMessages`: the system message, the history as given (none when it is not an array), the user message. */
  function BuildMessages(message: string, history: Option<seq<Turn>>): (ms: seq<Turn>)
    ensures var h := history.GetOr([]);
      && |ms| == |h| + 2
      && ms[0] == Turn(System, SystemPrompt)
      && ms[|ms| - 1] == Turn(User, message)
      && ms[1..|ms| - 1] == h
  {
    [Turn(System, SystemPrompt)] + history.GetOr([]) + [Turn(User, message)]
  }

  /** The request both attempts send. */
  function RequestFor(message: string, history: Option<seq<Turn>>, options: Options, env: string): Request {
    Request(ResolveModel(options, env), BuildMessages(message, history), MaxTokens(options))
  }

  /** What an attempt that did not throw yields: the string content, else the serialised response. */
  function Answer(o: Outcome): string
    requires !o.Throws?
  {
    match o
    case Content(t) => t
    case NoContent(j) => j
  }

  /** The gateway's result for a script of outcomes. */
  function ReplyOf(script: Script): (r: string)
    ensures !script.first.Throws? ==> r == Answer(script.first)
    ensures script.first.Throws? && !script.second.Throws? ==> r == Answer(script.second)
    ensures script.first.Throws? && script.second.Throws? ==> r == FailureSentinel
  {
    if !script.first.Throws? then Answer(script.first)
    else if !script.second.Throws? then Answer(script.second)
    else FailureSentinel
  }

  /**
   * `sendMessageToOpenAI`: one call, a retry only when the first throws, and a string in
   * every case. `requests` lists the calls made, in order.
   */
  method SendMessageToOpenAI(message: string, history: Option<seq<Turn>>, options: Options, env: string, script: Script)
    returns (reply: string, requests: seq<Request>)
    ensures 1 <= |requests| <= 2
    ensures |requests| == 2 <==> script.first.Throws?
    ensures forall i :: 0 <= i < |requests| ==> requests[i] == RequestFor(message, history, options, env)
    ensures reply == ReplyOf(script)
  {
    var model := ResolveModel(options, env);
    var maxTokens := MaxTokens(options);
    var temperature := Temperature(options);
    var messages := BuildMessages(message, history);
    var request := Request(model, messages, maxTokens);
    requests := [request];
    if !script.first.Throws? {
      reply := Answer(script.first);
      return;
    }
    requests := requests + [request];
    if !script.second.Throws? {
      reply := Answer(script.second);
    } else {
      reply := FailureSentinel;
    }
  }

  /** Changing the temperature changes nothing that is sent. */
  lemma TemperatureNeverSent(message: string, history: Option<seq<Turn>>, options: Options, env: string, t: real)
    ensures RequestFor(message, history, options.(temperature := Some(t)), env) == RequestFor(message, history, options, env)
  {
  }

  /** A history that is not an array gives exactly the system message and the user message. */
  lemma NonArrayHistory(message: string)
    ensures BuildMessages(message, None) == [Turn(System, SystemPrompt), Turn(User, message)]
  {
  }
}
