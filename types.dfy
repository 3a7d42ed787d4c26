/**
 * Data model shared by the benchmark engine: tasks, per-task results,
 * custom categories and the GPU cost configuration
 * (src/types/index.ts and llm-web-bench/src/types/index.ts).
 */
module Types {

  datatype Option<+T> = None | Some(value: T)

  /** One benchmark unit: a question and the answer it is expected to get. */
  datatype Task = Task(question: string, answer: string)

  /**
   * The record built once per executed task. Optional fields of the source
   * record are `Option`s: `None` is a field the record does not carry.
   * Durations are in the unit the executor writes (seconds); token counts
   * come from the local tokenizer and are natural numbers.
   */
  datatype TaskResult = TaskResult(
    success: bool,
    question: string,
    expectedAnswer: string,
    actualAnswer: Option<string>,
    error: Option<string>,
    duration: Option<real>,
    inputTokens: Option<nat>,
    outputTokens: Option<nat>,
    tokensPerSecond: Option<real>)

  /** A user-registered category together with its parsed task list. */
  datatype CustomTask = CustomTask(category: string, tasks: seq<Task>)

  /**
   * A category's entry in a benchmark report as the cost calculation reads
   * it: the results, the two metrics and a token total
   * (llm-web-bench/src/types/index.ts, `CategoryResults`).
   */
  datatype CategoryReport = CategoryReport(
    results: seq<TaskResult>,
    accuracy: real,
    averageTokensPerSecond: real,
    totalTokens: nat)

  /** The GPU cost configuration; `count` and `costPerHour` are plain numbers in the source. */
  datatype GpuInfo = GpuInfo(model: string, count: real, costPerHour: real)

  /** JavaScript truthiness of an optional string: present and non-empty. */
  predicate Truthy(s: Option<string>)
  {
    s.Some? && s.value != ""
  }

  /** No name occurs twice in the list. */
  predicate Distinct(names: seq<string>)
  {
    forall i, j :: 0 <= i < j < |names| ==> names[i] != names[j]
  }

  /** The names of a list of (name, value) pairs, in order: `Object.keys` of an object literal. */
  function Names<T>(pairs: seq<(string, T)>): (names: seq<string>)
    ensures |names| == |pairs|
    ensures forall k :: 0 <= k < |pairs| ==> names[k] == pairs[k].0
  {
    if pairs == [] then [] else Names(pairs[..|pairs| - 1]) + [pairs[|pairs| - 1].0]
  }
}
