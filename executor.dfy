/**
 * The single-task executor (src/utils/index.ts, `executeTask`): it builds
 * one chat-completion request, hands it to the transport and turns what
 * comes back into a `TaskResult`.
 *
 * The network (`fetch`, `response.json()`), the clock (`Date.now()`) and
 * the tokenizer (`countTokens`) are not part of this model: the transport
 * is a function from the request to a `Reply`, the elapsed time is a given
 * number of milliseconds, and the tokenizer is a function to `nat`.
 */
module Executor {
  import opened Types

  type Headers = map<string, string>

  datatype Message = Message(role: string, content: string)

  /** The JSON request body; `model` is `None` when the field is not written. */
  datatype RequestBody = RequestBody(
    messages: seq<Message>,
    temperature: real,
    maxTokens: nat,
    model: Option<string>)

  /** The value a `catch` clause receives. */
  datatype Thrown = ErrorObject(message: string) | OtherValue

  /**
   * The outcome of the transport step as a whole: either the answer text at
   * `choices[0].message.content`, or whatever was thrown on the way (a
   * network failure, an unparsable body, a missing `choices` entry).
   */
  datatype Reply = Delivered(content: string) | Threw(thrown: Thrown)

  const ContentType: string := "Content-Type"
  const Authorization: string := "Authorization"
  const JsonMediaType: string := "application/json"
  const Temperature: real := 0.7
  const MaxTokens: nat := 1000

  /** The headers the executor sends for a given credential. */
  function RequestHeaders(apiKey: Option<string>): (h: Headers)
    ensures ContentType in h && h[ContentType] == JsonMediaType
    ensures Authorization in h <==> Truthy(apiKey)
    ensures Authorization in h ==> h[Authorization] == "Bearer " + apiKey.value
    ensures h.Keys <= {ContentType, Authorization}
  {
    if Truthy(apiKey) then map[ContentType := JsonMediaType, Authorization := "Bearer " + apiKey.value]
    else map[ContentType := JsonMediaType]
  }

  /** The body the executor sends for a task and an optional model name. */
  function RequestBodyFor(task: Task, modelName: Option<string>): (b: RequestBody)
    ensures b.messages == [Message("user", task.question)]
    ensures b.temperature == Temperature && b.maxTokens == MaxTokens
    ensures b.model.Some? <==> Truthy(modelName)
    ensures b.model.Some? ==> b.model.value == modelName.value
  {
    RequestBody([Message("user", task.question)], Temperature, MaxTokens,
                if Truthy(modelName) then Some(modelName.value) else None)
  }

  /**
   * Builds headers and body the way the source does: a base value first,
   * then the optional `Authorization` header and `model` field written into
   * it when the credential or the model name is non-empty.
   */
  method BuildRequest(task: Task, apiKey: Option<string>, modelName: Option<string>)
    returns (headers: Headers, body: RequestBody)
    ensures headers == RequestHeaders(apiKey)
    ensures body == RequestBodyFor(task, modelName)
  {
    headers := map[ContentType := JsonMediaType];
    if Truthy(apiKey) {
      headers := headers[Authorization := "Bearer " + apiKey.value];
    }
    body := RequestBody([Message("user", task.question)], Temperature, MaxTokens, None);
    if Truthy(modelName) {
      body := body.(model := Some(modelName.value));
    }
  }

  /** The text stored in `error`: the thrown error's message, or a fixed fallback. */
  function ErrorText(thrown: Thrown): string
  {
    match thrown
    case ErrorObject(message) => message
    case OtherValue => "Unknown error"
  }

  /**
   * The record built from a reply. On success the duration is the elapsed
   * milliseconds divided by 1000, both token counts come from the local
   * tokenizer (a usage block in the reply is never read) and the rate is
   * their sum per second. A zero elapsed time on success would make the
   * source divide by zero, so it is excluded.
   */
  function ShapeResult(task: Task, reply: Reply, elapsedMs: nat, countTokens: string -> nat): (r: TaskResult)
    requires reply.Delivered? ==> elapsedMs > 0
    ensures r.question == task.question && r.expectedAnswer == task.answer
    ensures r.success <==> reply.Delivered?
    ensures r.success ==>
      && r.actualAnswer == Some(reply.content)
      && r.error.None?
      && r.duration == Some(elapsedMs as real / 1000.0) && r.duration.value > 0.0
      && r.inputTokens == Some(countTokens(task.question))
      && r.outputTokens == Some(countTokens(reply.content))
      && r.tokensPerSecond.Some?
      && r.tokensPerSecond.value * r.duration.value == (r.inputTokens.value + r.outputTokens.value) as real
    ensures !r.success ==>
      && r.error == Some(ErrorText(reply.thrown))
      && r.actualAnswer.None? && r.duration.None?
      && r.inputTokens.None? && r.outputTokens.None? && r.tokensPerSecond.None?
  {
    match reply
    case Delivered(content) =>
      var duration := elapsedMs as real / 1000.0;
      var inputTokens := countTokens(task.question);
      var outputTokens := countTokens(content);
      var totalTokens := inputTokens + outputTokens;
      TaskResult(true, task.question, task.answer, Some(content), None, Some(duration),
                 Some(inputTokens), Some(outputTokens), Some(totalTokens as real / duration))
    case Threw(thrown) =>
      TaskResult(false, task.question, task.answer, None, Some(ErrorText(thrown)), None, None, None, None)
  }

  /**
   * One request/response cycle: build the request, hand it to the
   * transport, shape the result. Every failure becomes a failed record; the
   * executor never raises.
   */
  method ExecuteTask(endpoint: string, task: Task, apiKey: Option<string>, modelName: Option<string>,
                     transport: (string, Headers, RequestBody) -> Reply,
                     elapsedMs: nat, countTokens: string -> nat)
    returns (r: TaskResult)
    requires transport(endpoint, RequestHeaders(apiKey), RequestBodyFor(task, modelName)).Delivered? ==> elapsedMs > 0
    ensures r == ShapeResult(task, transport(endpoint, RequestHeaders(apiKey), RequestBodyFor(task, modelName)),
                             elapsedMs, countTokens)
  {
    var headers, body := BuildRequest(task, apiKey, modelName);
    var reply := transport(endpoint, headers, body);
    r := ShapeResult(task, reply, elapsedMs, countTokens);
  }

  /**
   * A result is a success exactly when it carries an answer, and then it
   * carries every measurement; a failure carries an error and no
   * measurement.
   */
  lemma ResultShapeDichotomy(task: Task, reply: Reply, elapsedMs: nat, countTokens: string -> nat)
    requires reply.Delivered? ==> elapsedMs > 0
    ensures var r := ShapeResult(task, reply, elapsedMs, countTokens);
            && (r.success <==> r.actualAnswer.Some?)
            && (r.success <==> r.error.None?)
            && (r.success <==> r.duration.Some?)
            && (r.duration.Some? <==> r.tokensPerSecond.Some?)
  {
  }
}
