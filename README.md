# LLMWebBench benchmark engine in Dafny

LLMWebBench is a browser page that benchmarks a chat-completion endpoint. The user picks task
categories and can register custom categories as JSON. A run sends every task of the selected
categories to the endpoint, in batches of `concurrency` tasks. For each category it records
the accuracy and the average tokens per second. The newer page (`src/App.tsx`) also sums
durations and token counts and prices the run from a GPU configuration.

This project models that engine and proves properties about it.

- `types.dfy` holds the shared records: task, task result, custom category, GPU configuration
  and a category report. Optional result fields are `Option`s.
- `catalogue.dfy` models the built-in catalogue: five categories of thirty generated tasks.
  It includes the decimal rendering of numbers and the square root rounded to two decimals,
  which the generated answers use.
- `executor.dfy` models `executeTask`. It builds the request, hands it to a transport and
  shapes the reply or the thrown value into a result record.
- `scheduler.dfy` models `executeTasksConcurrently`: contiguous batches whose results are
  appended in order.
- `metrics.dfy` models `calculateAccuracy` and `calculateAverageTokensPerSecond`.
- `costs.dfy` models JavaScript numbers as a finite value or NaN. It also models the GPU cost
  formula and `calculateCosts`.
- `bench.dfy` models the state of the `src/App.tsx` page as a class (`BenchmarkPage`). It
  covers `handleAddCustomTask` and `runBenchmark`, with the run's fold given as a
  specification function.
- `legacy.dfy` models the older page `llm-web-bench/src/App.tsx` as a class (`LegacyPage`). It
  includes a lemma pair that contrasts how the two pages resolve a category name.

The run's arithmetic follows the code as written, including these quirks:

- The executor stores durations in seconds (elapsed ms / 1000). `runBenchmark` passes their
  sum to `calculateGPUCost`, which expects milliseconds, so the reported cost is 1000 times
  too small (`Bench.CategoryCostOfFiveSeconds`).
- `calculateCosts` divides the stored seconds by 1000 once more.
- `runBenchmark` stores a category's token count under `costPerTokenCategory`.
- `runBenchmark`'s sums read `r.duration`, `r.inputTokens` and `r.outputTokens` with no
  default. A single failed task therefore makes the totals NaN
  (`Bench.UnmeasuredTaskPoisonsTotals`).
- `runBenchmark` prices the summed duration, so a category selected twice has both executions'
  durations priced in the total cost, while the per-category map keeps only the last one
  (`Bench.DuplicateSelectionCountsTwice`).

Two behaviours of the code that a reader might not expect are modelled as written:

- `calculateAccuracy` divides by the number of results with no guard for an empty list.
  `Metrics.Accuracy` therefore requires a non-empty list. For a payload that is a task array,
  the only kind the model admits (see JSON parsing under Left out), `runBenchmark` never calls
  it with an empty one, because it skips categories without tasks. A non-array payload such as
  `{}` is not skipped and reaches it with an empty list, where the source gives NaN.
- `executeTask` always takes the token counts from the local tokenizer. It never reads a usage
  block in the reply.

Collaborators the model cannot see are parameters:

- the network transport;
- the clock, given as the elapsed milliseconds;
- the tokenizer (`countTokens: string -> nat`);
- the execution of one task (`exec: Task -> TaskResult`, standing for `executeTask` with the
  page's endpoint, credential and model name fixed);
- for the older page, the batch runner and the two metrics of its own utilities.

The built-in task lists are a parameter of the run functions and a `const` of each page class.
`BenchmarkPage` sets it to `Catalogue.DefaultTasksOf`.

## Model

| member | source | states |
|---|---|---|
| Catalogue.NatToString | src/utils/index.ts:11-12 | the rendering of a number is a non-empty digit string with no leading zero |
| Catalogue.DecimalRoundTrip | src/utils/index.ts:11-12 | reading back a rendered number gives the number |
| Catalogue.NatToStringInjective | src/utils/index.ts:10-13 | distinct numbers render to distinct strings |
| Catalogue.CentiSqrt | src/utils/index.ts:8 | the result h is the square root in hundredths rounded to nearest: (2h−1)² ≤ 40000·n < (2h+1)² |
| Catalogue.FixedTwo | src/utils/index.ts:8 | the rendering is an integer part without a leading zero, a point and exactly two digits; the digits without the point denote the count of hundredths h, so the string denotes h/100 |
| Catalogue.DecimalValueTwoMore | src/utils/index.ts:8 | appending two digits to a numeral multiplies its value by 100 and adds them |
| Catalogue.MathTasks | src/utils/index.ts:6-9 | thirty tasks; task i expects √(i+1) to two decimals |
| Catalogue.LogicTasks | src/utils/index.ts:10-13 | thirty tasks; task i expects the numeral of 2i+3 |
| Catalogue.QaTasks | src/utils/index.ts:14-17 | thirty tasks; task i expects the character with code 65+i |
| Catalogue.CodeTasks | src/utils/index.ts:18-21 | thirty tasks, all expecting the same factorial source |
| Catalogue.TextTasks | src/utils/index.ts:22-25 | thirty tasks; task i expects "这是一个" followed by i+1 |
| Catalogue.DefaultTasksOf | src/App.tsx:264 | a name gets a non-empty list iff it is one of the five defaults, and then thirty tasks; any other name gets `[]` |
| Catalogue.LogicAnswersDistinct | src/utils/index.ts:10-13 | two logic tasks share an expected answer only if they are the same task |
| Catalogue.LogicAnswerValue | src/utils/index.ts:12 | the expected answer of logic task i denotes 2i+3 |
| Catalogue.QaAnswerIsLetterIff | src/utils/index.ts:16 | a qa answer is an upper-case letter iff i < 26; tasks 26-29 expect punctuation |
| Executor.RequestHeaders | src/utils/index.ts:38-45 | JSON content type always; `Authorization: Bearer key` iff the key is non-empty; no other header |
| Executor.RequestBodyFor | src/utils/index.ts:48-57 | one user message holding the question, temperature 0.7, 1000 max tokens, `model` iff a non-empty name is given |
| Executor.BuildRequest | src/utils/index.ts:38-57 | the step-by-step construction yields exactly the specified headers and body |
| Executor.ShapeResult | src/utils/index.ts:67-90 | success iff the reply was delivered; a success carries the answer, duration in seconds, tokenizer counts, and a rate whose product with the duration is the token total; a failure carries the error text and no measurement |
| Executor.ExecuteTask | src/utils/index.ts:35-91 | the result is the shaped result of the transport's reply to the specified request |
| Executor.ResultShapeDichotomy | src/utils/index.ts:73-90 | success iff an answer is present iff no error iff a duration is present; a duration is present iff a rate is |
| Scheduler.MapExec | src/utils/index.ts:104-106 | one result per task of a batch, in task order |
| Scheduler.FlattenBatchesFrom | src/utils/index.ts:102-103 | the batches from offset i, joined, are exactly the tasks from i on |
| Scheduler.RunBatchesFromIsMap | src/utils/index.ts:102-108 | running the batches one after another is running every task in order |
| Scheduler.BatchCount | src/utils/index.ts:102 | from offset i there are ⌈(n−i)/c⌉ batches |
| Scheduler.BatchSizes | src/utils/index.ts:103 | every batch is non-empty and all but the last hold exactly c tasks |
| Scheduler.BatchAt | src/utils/index.ts:102-103 | the k-th batch is the slice starting at i + k·c, cut at the end of the list |
| Scheduler.ExecuteTasksConcurrently | src/utils/index.ts:94-110 | one result per task, in task order: result j is the execution of task j |
| Scheduler.TenTasksThreeWide | src/utils/index.ts:102-103 | ten tasks three at a time form batches of 3, 3, 3 and 1 |
| Metrics.Successful | src/utils/index.ts:114 | the filter keeps only successful results and never grows the list |
| Metrics.SuccessfulIsFilter | src/utils/index.ts:114 | each successful result is kept exactly as often as it occurs in the input, and no failed one is kept |
| Metrics.SuccessfulCounts | src/utils/index.ts:114 | every result is kept iff all succeeded; none is kept iff none succeeded |
| Metrics.Accuracy | src/utils/index.ts:113-116 | the percentage lies in [0, 100]; it is 100 iff all succeeded and 0 iff none did |
| Metrics.PercentBounds | src/utils/index.ts:115 | a share of a positive whole, as a percentage, lies in [0, 100] and reaches each end exactly at the ends |
| Metrics.SuccessCountByFlags | src/utils/index.ts:114 | the success count depends only on the success flags |
| Metrics.AccuracyIgnoresAnswers | src/utils/index.ts:113-116 | two result lists with equal flags have equal accuracy whatever the answers: accuracy never compares answers |
| Metrics.SuccessfulAppend | src/utils/index.ts:114 | the filter distributes over concatenation |
| Metrics.Rated | src/utils/index.ts:120 | only rated results are kept; the kept list is empty iff no result is rated |
| Metrics.RatedIsFilter | src/utils/index.ts:120 | each rated result is kept exactly as often as it occurs in the input, and no unrated one is kept |
| Metrics.AverageTokensPerSecond | src/utils/index.ts:119-124 | the average is 0 when no result carries a rate |
| Metrics.RatedIdempotent | src/utils/index.ts:120 | filtering the rated results twice equals filtering once |
| Metrics.RatedAppend | src/utils/index.ts:120 | the rated filter distributes over concatenation |
| Metrics.AverageOverRatedOnly | src/utils/index.ts:119-124 | the average equals the average of the rated results alone |
| Metrics.AverageIgnoresUnrated | src/utils/index.ts:119-124 | appending a result without a rate leaves the average unchanged |
| Metrics.SumRatesBounds | src/utils/index.ts:122 | bounds on every summand bound the sum by n times the bounds |
| Metrics.RatedElements | src/utils/index.ts:120 | every kept result comes from the input |
| Metrics.AverageWithinRateBounds | src/utils/index.ts:119-124 | with at least one rate and all rates in [lo, hi], the average lies in [lo, hi] |
| Costs.OrOne | src/App.tsx:304-305 | the default-to-1 of a falsy value is a number other than 0, and leaves a non-zero number as it is |
| Costs.AddAssociates | src/App.tsx:281-284 | NaN-propagating addition associates |
| Costs.GpuCostLinear | src/App.tsx:211-216 | the GPU cost of no time is 0 and the cost is additive over durations |
| Costs.GpuCostOneHour | src/App.tsx:211-216 | one hour (3,600,000 ms) on two GPUs at 10 per hour costs 20 |
| Costs.GpuCostNum | src/App.tsx:211-216 | the cost of a duration is NaN iff the duration is NaN |
| Costs.GpuCostNumAdditive | src/App.tsx:211-216 | the cost of a sum is the sum of the costs, NaN included |
| Costs.SumOrZeroAppend | src/App.tsx:167 | the default-to-0 sum distributes over concatenation |
| Costs.SumOrZeroNonNegative | src/App.tsx:175-176 | a sum of non-negative fields is non-negative |
| Costs.CostPerThousandTokens | src/App.tsx:193 | 0 when the category reports no tokens; otherwise, times the token count, it gives the category cost times 1000 |
| Costs.Keys | src/App.tsx:166 | the key set holds exactly the entries' names |
| Costs.MeasureCategory | src/App.tsx:167-193 | the category cost is `calculateGPUCost` of the stored durations read as milliseconds; the cost per 1000 tokens is 0 without tokens and otherwise, times the token count, gives 1000 times the cost; when the reported total is input plus output tokens, the two duration shares add up to the duration (both 0 without tokens) |
| Costs.CostMapKeys | src/App.tsx:190-193 | both per-category maps are keyed by exactly the entries' names |
| Costs.DistinctPrefix | src/App.tsx:166 | dropping the last entry keeps names distinct, and the last name is not among the others |
| Costs.CostMapLookup | src/App.tsx:189-193 | with distinct names, each name maps to its own category cost and cost per 1000 tokens |
| Costs.SumCategoryCosts | src/App.tsx:196 | summing the map's values over the entries gives the sum of the category costs |
| Costs.CalculateCosts | src/App.tsx:156-208 | the summary's maps and seven totals each equal the corresponding fold over the report's entries |
| Costs.CategorySplitAddsUp | src/App.tsx:181-184 | when the reported total is input plus output tokens, the two duration shares add up to the duration, and are both 0 when there are no tokens |
| Costs.SharesAddUp | src/App.tsx:181-184 | splitting d in the proportions i : o of t = i + o gives back d |
| Costs.CategoryCostReadsMilliseconds | src/App.tsx:167-189 | the category cost of `calculateCosts` is `calculateGPUCost` of the plain sum of stored durations, so seconds are read as milliseconds |
| Costs.FailedResultsCostNothing | src/App.tsx:167-189 | adding results without duration or tokens changes neither the cost nor the token sums |
| Costs.SumOrZeroOfAbsent | src/App.tsx:167-176 | absent fields sum to 0 |
| Costs.TotalCostIsCostOfAllDurations | src/App.tsx:189-196 | the total cost is the GPU cost of all stored durations together |
| Bench.ConfigAcceptance | src/App.tsx:224-237 | a run starts iff there is a selection, an endpoint, a GPU model, a count of at least 1 and a positive price; the first failing check in that order is the one reported |
| Bench.FindCustom | src/App.tsx:257 | None iff no entry has the name; otherwise the tasks of the first entry with that name |
| Bench.CustomShadowsDefault | src/App.tsx:257-265 | the first custom entry under a name replaces the built-in list |
| Bench.UnknownCategoryHasNoTasks | src/App.tsx:264 | a name neither registered nor built in gets no tasks |
| Bench.BenchmarkPage.constructor | src/App.tsx:14-38 | empty configuration, concurrency 1, no custom tasks or results, all five categories selected and offered, GPU `{'', 1, 0}`, zero summary |
| Bench.BenchmarkPage.AddCustomTask | src/App.tsx:90-150 | a parsed payload appends one custom entry, one selected name and one option; an unparsable payload changes nothing |
| Bench.BenchmarkPage.RunBenchmark | src/App.tsx:223-329 | the outcome is the configuration check; a rejection leaves results and summary unchanged; a completed run stores the fold's entries and its summary |
| Bench.RunCategories | src/App.tsx:243-298 | the loop's accumulators equal the fold over the selected categories |
| Bench.FindCustomAppend | src/App.tsx:257 | appending an entry only affects the lookup of a name not registered before |
| Bench.RegistrationLookup | src/App.tsx:257-265 | after registration a new name runs the parsed tasks, a name registered before keeps its first list, other names keep theirs |
| Bench.RunKeys | src/App.tsx:252-297 | the results, cost and token maps are keyed by exactly the selected names that have tasks |
| Bench.RunEntries | src/App.tsx:269-297 | each selected category with tasks maps to its own results, metrics, cost and token count |
| Bench.AddInterchange | src/App.tsx:277-284 | NaN-propagating sums can be regrouped |
| Bench.TokenSumSplits | src/App.tsx:277-279 | a category's token count is its input sum plus its output sum |
| Bench.RunTokensAddUp | src/App.tsx:282-284 | the run's token total is its input total plus its output total |
| Bench.SumOverUpdateOther | src/App.tsx:288 | setting a key outside the summed keys leaves the sum unchanged |
| Bench.ProcessedMembers | src/App.tsx:252-267 | the processed categories are exactly the selected names with tasks |
| Bench.TotalCostIsSumOfCategoryCosts | src/App.tsx:287-301 | with each name selected once, the total cost is the sum of the per-category costs |
| Bench.CostStep | src/App.tsx:281-301 | adding a category's duration adds its cost under a new key |
| Bench.DuplicateSelectionCountsTwice | src/App.tsx:252-301 | a name selected twice has one map entry; the total cost prices the durations of both executions, while the map keeps the last one; with execution a function, the total is that entry counted twice and differs from it when non-zero |
| Bench.RunAppend | src/App.tsx:252-298 | one more selected name leaves the fold unchanged when it has no tasks, and adds one step otherwise |
| Bench.StrictSumNaN | src/App.tsx:276-279 | a strict sum is NaN iff some summed field is missing |
| Bench.StrictSumNonNegative | src/App.tsx:278-279 | a strict sum of non-negative fields is NaN or non-negative |
| Bench.UnmeasuredTaskPoisonsTotals | src/App.tsx:276-307 | one executed task without a duration makes the total duration, total cost and both duration shares NaN |
| Bench.CategorySumsDefined | src/App.tsx:276-279 | with all results measured, a category's sums are numbers and its token sums non-negative |
| Bench.MeasuredRunIsDefined | src/App.tsx:281-284 | with all executed tasks measured, the run's duration and token totals are numbers, and the token totals non-negative |
| Bench.RunSplitAddsUp | src/App.tsx:304-307 | with all tasks measured, the input and output shares add up to the total duration when tokens were counted, and are both 0 otherwise |
| Bench.SplitSharesAddUp | src/App.tsx:304-307 | with tokens counted, the two shares of a duration add up to it |
| Bench.SplitOfNoTokens | src/App.tsx:304-307 | with no tokens, both shares are 0 |
| Bench.CategoryCostOfFiveSeconds | src/App.tsx:276-288 | tasks of 2 s and 3 s on one GPU at 10 per hour are priced at 1/72000 rather than 1/72 |
| LegacyBench.LegacyCheckOrder | llm-web-bench/src/App.tsx:36-44 | a run starts iff the endpoint is set and the selection non-empty; a missing endpoint is reported first |
| LegacyBench.FromEntriesLastWins | llm-web-bench/src/App.tsx:50 | the entry map holds exactly the registered names, each mapped to its last registration's tasks |
| LegacyBench.AllTasksLookup | llm-web-bench/src/App.tsx:48-51 | the merged table's names are the defaults' plus the custom ones; a custom name gets its last list; any other default keeps its list |
| LegacyBench.LegacyRunEntries | llm-web-bench/src/App.tsx:54-63 | the results are keyed by exactly the selected names present in the table, even those with an empty list, each computed from its own list |
| Types.Names | llm-web-bench/src/App.tsx:17 | the key list follows the table's entries in order |
| LegacyBench.EntryMap | llm-web-bench/src/App.tsx:48-49 | the table holds exactly the names of its entries |
| LegacyBench.EntryMapLastWins | llm-web-bench/src/App.tsx:48-49 | each name maps to the list of the last pair that carries it |
| LegacyBench.LegacyPage.constructor | llm-web-bench/src/App.tsx:11-17 | empty endpoint, concurrency 1, no custom tasks, results null; the built-in table maps each name to its list and the selection is its key list in table order |
| LegacyBench.LegacyPage.AddCustomTask | llm-web-bench/src/App.tsx:19-29 | a parsed payload appends one custom entry and one selected name; an unparsable payload changes nothing |
| LegacyBench.LegacyPage.HandleRunBenchmark | llm-web-bench/src/App.tsx:35-70 | the outcome is the two checks; a rejection leaves results as they were; a completed run stores the run over the merged table |
| LegacyBench.RunSelected | llm-web-bench/src/App.tsx:53-63 | the loop's map equals the run function over the selection |
| LegacyBench.FirstWinsVersusLastWins | llm-web-bench/src/App.tsx:48-51 | with two registrations under one name, `src/App.tsx` runs the first list and `llm-web-bench` the last |
| LegacyBench.EmptyCustomListRuns | llm-web-bench/src/App.tsx:55 | a category registered with no tasks is skipped by `src/App.tsx` but run and stored by `llm-web-bench` |

## Left out

- Network, clock and tokenizer: `fetch`, `response.json()`, `Date.now()` and the tiktoken encoder are parameters (transport, elapsed milliseconds, `countTokens`), not models.
- Concurrency: batches run strictly one after another, because each `Promise.all` is awaited before the next slice is taken (src/utils/index.ts:102-108). Within a batch the requests may complete in any order, and only that order is abstracted: `Promise.all` returns the results in task order, so a batch is modelled as mapping over its tasks.
- Executor.ShapeResult: requires a positive elapsed time on success. In the source, a zero duration would make the rate `Infinity`; floating-point infinities are not modelled.
- Executor.ShapeResult: does not state that the error text is non-empty, because an `Error` with an empty message yields an empty string in the source too.
- Floating point: numbers are exact reals (with NaN where `undefined` is added). Rounding, infinities and `-0` are not modelled. The math answers are specified by exact rounding of the square root to the nearest hundredth, not by the binary `toFixed`.
- Metrics.Accuracy: requires a non-empty list. In the source an empty list gives NaN (0/0). The only caller never passes one for a payload that is a task array, the only kind the model admits; a non-array custom payload such as `{}` reaches it with an empty list, and that NaN is not modelled (see JSON parsing).
- JSON parsing: `JSON.parse` of the custom payload is an `Option` argument of `AddCustomTask`; parsing itself is not modelled. The source does not check that the parsed value is a task array (`as Task[]` is only a compile-time cast); the model assumes it is. In src/App.tsx a parsed `null` is rejected when the option label reads its `length` (src/App.tsx:100), while a value such as `{}` is registered and later runs to an entry with no results and a NaN accuracy; neither case is modelled.
- Presentation: JSX, charts, tables, the example modals, `message` toasts, the `loading` flag and `form.resetFields()` are not modelled. The option list of `src/App.tsx` is modelled by its values only.
- `handleTaskTypeChange` (src/App.tsx:152-154, llm-web-bench/src/App.tsx:31-33): a plain setter of the selection, not modelled as a member. Every run property holds for any selection.
- The configuration setters (endpoint, key, model name, concurrency, GPU form) are plain field updates and are not modelled as members.
- Bench.DuplicateSelectionCountsTwice: task execution is a function here, so executing a category twice gives the same results twice. In the source each execution makes fresh requests, with sampling at temperature 0.7 and fresh timings: the total cost prices d1 + d2 while the map keeps the cost of d2 only. The model does not capture the two executions differing.
- Scheduler.ExecuteTasksConcurrently: requires a width of at least 1, and the page's `concurrency` field is a natural number. In the source the field takes `Number(e.target.value)` (src/App.tsx:477), and `min={1}` does not stop the user entering 0, a negative number or an empty field (which gives 0). `runBenchmark` does not check it, so with a value of 0 or less the loop `i += concurrency` never ends and the page hangs. A fractional value is truncated by `slice`: consecutive batches still meet exactly, so every task still runs once and in order, but batch sizes vary. Neither case is modelled.
- Bench.BenchmarkPage.RunBenchmark: requires `concurrency >= 1` for the reason above; the source's hang with a width of 0 or less is not modelled.
- Metrics.Successful: its own contract states only that kept results succeeded and the list never grows. That every successful result is kept, as often as it occurs, is stated by `Metrics.SuccessfulIsFilter`, because that clause on the function itself made every proof that unfolds the filter too costly.
- Metrics.Rated: likewise, that every rated result is kept is stated by `Metrics.RatedIsFilter`.
- LegacyBench.EntryMap: its own contract states the key set; that each name maps to its last pair's list is stated by `LegacyBench.EntryMapLastWins`, for the same cost reason.
- Errors thrown during a run (the `catch` in `runBenchmark` and `handleRunBenchmark`): executing a task is a total function here, so the run never throws. The model does not capture a run that aborts and leaves `results` empty or stale.
- `calculateCosts` (src/App.tsx:156-208) is never called by the page. It is modelled as `Costs.CalculateCosts` over a report whose entries carry a `totalTokens` field, which `runBenchmark`'s entries do not have.
- `calculateCategoryGPUCost` is the same function as `calculateGPUCost` and is modelled by `Costs.GpuCost`.
- `src/App.tsx:11` takes `Object.values` of `TaskCategories`, which in `src/types/index.ts` is a type, not an enum. The model uses the five category names the catalogue defines.
- The older page stores entries without the `totalTokens` field that its own type declares. Its `executeTasksConcurrently`, `calculateAccuracy`, `calculateAverageTokensPerSecond` and `defaultTasks` come from a utilities file that is not part of this model, so they are parameters.
- LegacyBench.LegacyRunEntries: looks names up as own keys of the merged table. A selected name equal to an inherited property of `Object.prototype` (such as `constructor`) would pass the source's truthiness check; that case is not modelled.
- `src/utils/WebSocketClient.js` is not part of this model: the benchmark never uses it.
