/**
 * The benchmark page of src/App.tsx: the state it keeps (configuration,
 * registered custom categories, selection, last results and cost summary),
 * the registration of a custom category (`handleAddCustomTask`) and the run
 * (`runBenchmark`): validation, category lookup, per-category execution and
 * metrics, and the accumulation of durations, tokens and costs.
 *
 * The run's formulas are the source's, including its quirks:
 * results store seconds but `calculateGPUCost` expects milliseconds, the
 * stored "cost per token" of a category is its token count, and the sums
 * read `r.duration`, `r.inputTokens` and `r.outputTokens` without a
 * default, so one failed task turns them into NaN.
 */
module Bench {
  import opened Types
  import opened Catalogue
  import opened Scheduler
  import opened Metrics
  import opened Costs

  /** What the run stores per category: note the key `avgTokensPerSecond`. */
  datatype BenchEntry = BenchEntry(results: seq<TaskResult>, accuracy: real, avgTokensPerSecond: real)

  datatype ConfigError = NoCategorySelected | MissingEndpoint | InvalidGpuInfo

  datatype RunOutcome = Completed | Rejected(reason: ConfigError)

  /**
   * The checks made before anything runs, in the source's order: a
   * selection, an endpoint, then a GPU model name, a count of at least one
   * and a positive hourly price.
   */
  function CheckConfig(selected: seq<string>, endpoint: string, gpu: GpuInfo): RunOutcome
  {
    if |selected| == 0 then Rejected(NoCategorySelected)
    else if endpoint == "" then Rejected(MissingEndpoint)
    else if gpu.model == "" || gpu.count < 1.0 || gpu.costPerHour <= 0.0 then Rejected(InvalidGpuInfo)
    else Completed
  }

  /**
   * A run starts exactly when all checks pass; an empty selection is
   * reported before a missing endpoint, and both before the GPU settings.
   */
  lemma ConfigAcceptance(selected: seq<string>, endpoint: string, gpu: GpuInfo)
    ensures CheckConfig(selected, endpoint, gpu) == Completed <==>
              |selected| > 0 && endpoint != "" && gpu.model != "" && gpu.count >= 1.0 && gpu.costPerHour > 0.0
    ensures CheckConfig(selected, endpoint, gpu) == Rejected(NoCategorySelected) <==> |selected| == 0
    ensures CheckConfig(selected, endpoint, gpu) == Rejected(MissingEndpoint) <==> |selected| > 0 && endpoint == ""
    ensures CheckConfig(selected, endpoint, gpu) == Rejected(InvalidGpuInfo) <==>
              |selected| > 0 && endpoint != "" && (gpu.model == "" || gpu.count < 1.0 || gpu.costPerHour <= 0.0)
  {
  }

  /** `customTasks.find(ct => ct.category === category)`, yielding the entry's tasks. */
  function FindCustom(customs: seq<CustomTask>, category: string): (r: Option<seq<Task>>)
    ensures r.None? <==> forall j :: 0 <= j < |customs| ==> customs[j].category != category
    ensures r.Some? ==> exists j :: 0 <= j < |customs| && customs[j].category == category &&
                          r.value == customs[j].tasks &&
                          forall i :: 0 <= i < j ==> customs[i].category != category
  {
    if customs == [] then None
    else if customs[0].category == category then Some(customs[0].tasks)
    else
      var r := FindCustom(customs[1..], category);
      if r.Some? then
        ghost var j :| 0 <= j < |customs[1..]| && customs[1..][j].category == category &&
                       r.value == customs[1..][j].tasks &&
                       forall i :: 0 <= i < j ==> customs[1..][i].category != category;
        assert customs[j + 1].category == category && forall i :: 0 <= i < j + 1 ==> customs[i].category != category;
        r
      else r
  }

  /**
   * The task list a category runs with: the first matching custom entry,
   * else the built-in list. The page looks the built-in list up with
   * `DefaultTasksOf`; it is a parameter here so that the properties of a run
   * hold for any table of built-in lists.
   */
  function TasksFor(category: string, customs: seq<CustomTask>, defaults: string -> seq<Task>): seq<Task>
  {
    match FindCustom(customs, category)
    case Some(tasks) => tasks
    case None => defaults(category)
  }

  /** A custom category registered under a default name replaces the default list. */
  lemma CustomShadowsDefault(category: string, customs: seq<CustomTask>, defaults: string -> seq<Task>, j: nat)
    requires j < |customs| && customs[j].category == category
    requires forall i :: 0 <= i < j ==> customs[i].category != category
    ensures TasksFor(category, customs, defaults) == customs[j].tasks
  {
    var r := FindCustom(customs, category);
    var j' :| 0 <= j' < |customs| && customs[j'].category == category && r.value == customs[j'].tasks &&
              forall i :: 0 <= i < j' ==> customs[i].category != category;
    assert j' == j;
  }

  /** A name that is neither registered nor a default yields no tasks. */
  lemma UnknownCategoryHasNoTasks(category: string, customs: seq<CustomTask>)
    requires category !in DefaultCategories
    requires forall j :: 0 <= j < |customs| ==> customs[j].category != category
    ensures TasksFor(category, customs, DefaultTasksOf) == []
  {
  }

  // ---------------------------------------------------------------------------
  // The sums of the run: `reduce` over the results with no default for a
  // missing field
  // ---------------------------------------------------------------------------

  function DurationField(r: TaskResult): Num { FromReal(r.duration) }
  function InputField(r: TaskResult): Num { FromNat(r.inputTokens) }
  function OutputField(r: TaskResult): Num { FromNat(r.outputTokens) }

  /** `rs.reduce((sum, r) => sum + r.field, 0)`. */
  function StrictSum(rs: seq<TaskResult>, field: TaskResult -> Num): Num
  {
    if rs == [] then Num(0.0) else Add(StrictSum(rs[..|rs| - 1], field), field(rs[|rs| - 1]))
  }

  /** `rs.reduce((sum, r) => sum + r.inputTokens + r.outputTokens, 0)`. */
  function StrictTokenSum(rs: seq<TaskResult>): Num
  {
    if rs == [] then Num(0.0)
    else Add(Add(StrictTokenSum(rs[..|rs| - 1]), InputField(rs[|rs| - 1])), OutputField(rs[|rs| - 1]))
  }

  /** The run's accumulators: the `let` totals and the three maps it fills. */
  datatype Acc = Acc(
    allResults: map<string, BenchEntry>,
    totalDuration: Num,
    totalTokens: Num,
    inputTokens: Num,
    outputTokens: Num,
    costPerCategory: map<string, Num>,
    costPerTokenCategory: map<string, Num>)

  const InitAcc: Acc := Acc(map[], Num(0.0), Num(0.0), Num(0.0), Num(0.0), map[], map[])

  /** One processed category: store its entry, add its sums, record its cost and token count. */
  function Step(acc: Acc, category: string, rs: seq<TaskResult>, gpu: GpuInfo): Acc
    requires |rs| > 0
  {
    var categoryDuration := StrictSum(rs, DurationField);
    var categoryTokens := StrictTokenSum(rs);
    Acc(acc.allResults[category := BenchEntry(rs, Accuracy(rs), AverageTokensPerSecond(rs))],
        Add(acc.totalDuration, categoryDuration),
        Add(acc.totalTokens, categoryTokens),
        Add(acc.inputTokens, StrictSum(rs, InputField)),
        Add(acc.outputTokens, StrictSum(rs, OutputField)),
        acc.costPerCategory[category := GpuCostNum(categoryDuration, gpu)],
        acc.costPerTokenCategory[category := categoryTokens])
  }

  /** The accumulators after visiting the selected categories in order; empty categories are skipped. */
  function RunFold(selected: seq<string>, customs: seq<CustomTask>, defaults: string -> seq<Task>, exec: Task -> TaskResult, gpu: GpuInfo): Acc
  {
    if selected == [] then InitAcc
    else
      var acc := RunFold(selected[..|selected| - 1], customs, defaults, exec, gpu);
      var tasks := TasksFor(selected[|selected| - 1], customs, defaults);
      if tasks == [] then acc else Step(acc, selected[|selected| - 1], MapExec(exec, tasks), gpu)
  }

  /** A share of the total duration in proportion to `part` out of `tokens` tokens (`tokens || 1`). */
  function SplitDuration(total: Num, part: Num, tokens: Num): Num
  {
    Mul(total, Div(part, OrOne(tokens)))
  }

  /** The summary written at the end of a run. */
  function Summary(acc: Acc, gpu: GpuInfo): CostSummary
  {
    CostSummary(GpuCostNum(acc.totalDuration, gpu), acc.totalDuration, acc.totalTokens,
                acc.inputTokens, acc.outputTokens,
                SplitDuration(acc.totalDuration, acc.inputTokens, acc.totalTokens),
                SplitDuration(acc.totalDuration, acc.outputTokens, acc.totalTokens),
                acc.costPerCategory, acc.costPerTokenCategory)
  }

  /** The categories that actually run, in selection order. */
  function Processed(selected: seq<string>, customs: seq<CustomTask>, defaults: string -> seq<Task>): seq<string>
  {
    if selected == [] then []
    else
      var rest := Processed(selected[..|selected| - 1], customs, defaults);
      if TasksFor(selected[|selected| - 1], customs, defaults) == [] then rest else rest + [selected[|selected| - 1]]
  }

  // ---------------------------------------------------------------------------
  // The page state
  // ---------------------------------------------------------------------------

  class BenchmarkPage {
    var endpoint: string
    var apiKey: string
    var modelName: string
    var concurrency: nat
    var customTasks: seq<CustomTask>
    var results: map<string, BenchEntry>
    var selected: seq<string>
    var taskOptions: seq<string>
    var gpu: GpuInfo
    var costSummary: CostSummary
    /** The built-in task lists, looked up by category name. */
    const defaults: string -> seq<Task>

    /** The initial state: every default category selected and offered, no GPU model. */
    constructor ()
      ensures endpoint == "" && apiKey == "" && modelName == "" && concurrency == 1
      ensures customTasks == [] && results == map[]
      ensures selected == DefaultCategories && taskOptions == DefaultCategories
      ensures gpu == GpuInfo("", 1.0, 0.0) && costSummary == EmptySummary
      ensures defaults == DefaultTasksOf
    {
      defaults := DefaultTasksOf;
      endpoint, apiKey, modelName, concurrency := "", "", "", 1;
      customTasks, results := [], map[];
      selected, taskOptions := DefaultCategories, DefaultCategories;
      gpu, costSummary := GpuInfo("", 1.0, 0.0), EmptySummary;
    }

    /**
     * Registers a custom category. A parsed payload appends exactly one
     * entry, selects the category and offers it as an option; a payload that
     * does not parse changes nothing.
     */
    method AddCustomTask(category: string, parsed: Option<seq<Task>>)
      modifies this`customTasks, this`selected, this`taskOptions
      ensures parsed.Some? ==>
                && customTasks == old(customTasks) + [CustomTask(category, parsed.value)]
                && selected == old(selected) + [category]
                && taskOptions == old(taskOptions) + [category]
      ensures parsed.None? ==>
                customTasks == old(customTasks) && selected == old(selected) && taskOptions == old(taskOptions)
    {
      if parsed.Some? {
        customTasks := customTasks + [CustomTask(category, parsed.value)];
        selected := selected + [category];
        taskOptions := taskOptions + [category];
      }
    }

    /**
     * Runs the benchmark. `exec` stands for `executeTask` with this page's
     * endpoint, credential and model name. An invalid configuration stops
     * the run before anything executes and leaves the state as it was;
     * otherwise results and cost summary are replaced by those of the run.
     */
    method RunBenchmark(exec: Task -> TaskResult) returns (outcome: RunOutcome)
      requires concurrency >= 1
      modifies this`results, this`costSummary
      ensures outcome == CheckConfig(selected, endpoint, gpu)
      ensures outcome.Rejected? ==> results == old(results) && costSummary == old(costSummary)
      ensures outcome.Completed? ==>
                && results == RunFold(selected, customTasks, defaults, exec, gpu).allResults
                && costSummary == Summary(RunFold(selected, customTasks, defaults, exec, gpu), gpu)
    {
      outcome := CheckConfig(selected, endpoint, gpu);
      if outcome.Rejected? {
        return;
      }
      results := map[];
      var acc := RunCategories(selected, customTasks, defaults, concurrency, exec, gpu);
      var totalCost := GpuCostNum(acc.totalDuration, gpu);
      var inputRatio := Div(acc.inputTokens, OrOne(acc.totalTokens));
      var outputRatio := Div(acc.outputTokens, OrOne(acc.totalTokens));
      costSummary := CostSummary(totalCost, acc.totalDuration, acc.totalTokens, acc.inputTokens, acc.outputTokens,
                                 Mul(acc.totalDuration, inputRatio), Mul(acc.totalDuration, outputRatio),
                                 acc.costPerCategory, acc.costPerTokenCategory);
      assert costSummary == Summary(acc, gpu);
      results := acc.allResults;
    }
  }

  /**
   * The loop of the run over the selected categories: look the category up,
   * skip it when it has no tasks, execute its tasks in batches of `width`,
   * compute its metrics and sums and fold them into the totals and maps.
   */
  method RunCategories(selected: seq<string>, customs: seq<CustomTask>, defaults: string -> seq<Task>, width: nat,
                       exec: Task -> TaskResult, gpu: GpuInfo) returns (acc: Acc)
    requires width >= 1
    ensures acc == RunFold(selected, customs, defaults, exec, gpu)
  {
    var allResults: map<string, BenchEntry> := map[];
    var totalDuration, totalTokens, inputTokens, outputTokens := Num(0.0), Num(0.0), Num(0.0), Num(0.0);
    var costPerCategory: map<string, Num> := map[];
    var costPerTokenCategory: map<string, Num> := map[];
    for k := 0 to |selected|
      invariant Acc(allResults, totalDuration, totalTokens, inputTokens, outputTokens,
                    costPerCategory, costPerTokenCategory) == RunFold(selected[..k], customs, defaults, exec, gpu)
    {
      assert selected[..k + 1][..k] == selected[..k];
      var category := selected[k];
      var tasks: seq<Task>;
      var customTaskEntry := FindCustom(customs, category);
      if customTaskEntry.Some? {
        tasks := customTaskEntry.value;
      } else {
        tasks := defaults(category);
      }
      assert tasks == TasksFor(category, customs, defaults);
      ghost var before := RunFold(selected[..k], customs, defaults, exec, gpu);
      assert RunFold(selected[..k + 1], customs, defaults, exec, gpu) ==
             if tasks == [] then before else Step(before, category, MapExec(exec, tasks), gpu);
      if |tasks| > 0 {
        var rs := ExecuteTasksConcurrently(tasks, width, exec);
        assert rs == MapExec(exec, tasks);
        var accuracy := Accuracy(rs);
        var avgTokensPerSecond := AverageTokensPerSecond(rs);
        var categoryDuration := StrictSum(rs, DurationField);
        var categoryTokens := StrictTokenSum(rs);
        var categoryInputTokens := StrictSum(rs, InputField);
        var categoryOutputTokens := StrictSum(rs, OutputField);
        totalDuration := Add(totalDuration, categoryDuration);
        totalTokens := Add(totalTokens, categoryTokens);
        inputTokens := Add(inputTokens, categoryInputTokens);
        outputTokens := Add(outputTokens, categoryOutputTokens);
        costPerCategory := costPerCategory[category := GpuCostNum(categoryDuration, gpu)];
        costPerTokenCategory := costPerTokenCategory[category := categoryTokens];
        allResults := allResults[category := BenchEntry(rs, accuracy, avgTokensPerSecond)];
        assert Acc(allResults, totalDuration, totalTokens, inputTokens, outputTokens,
                   costPerCategory, costPerTokenCategory) == Step(before, category, rs, gpu);
      }
    }
    assert selected[..|selected|] == selected;
    acc := Acc(allResults, totalDuration, totalTokens, inputTokens, outputTokens, costPerCategory, costPerTokenCategory);
  }

  // ---------------------------------------------------------------------------
  // Registration and lookup
  // ---------------------------------------------------------------------------

  lemma {:induction false} FindCustomAppend(customs: seq<CustomTask>, entry: CustomTask, category: string)
    ensures FindCustom(customs + [entry], category) ==
              if FindCustom(customs, category).Some? then FindCustom(customs, category)
              else if entry.category == category then Some(entry.tasks)
              else None
  {
    if customs != [] {
      assert (customs + [entry])[1..] == customs[1..] + [entry];
      FindCustomAppend(customs[1..], entry, category);
    }
  }

  /**
   * Registering a category: a new name runs with the parsed tasks, a name
   * registered before keeps its first task list, and every other name keeps
   * the list it had.
   */
  lemma RegistrationLookup(customs: seq<CustomTask>, defaults: string -> seq<Task>, category: string, tasks: seq<Task>)
    ensures (forall j :: 0 <= j < |customs| ==> customs[j].category != category) ==>
              TasksFor(category, customs + [CustomTask(category, tasks)], defaults) == tasks
    ensures (exists j :: 0 <= j < |customs| && customs[j].category == category) ==>
              TasksFor(category, customs + [CustomTask(category, tasks)], defaults) == TasksFor(category, customs, defaults)
    ensures forall other :: other != category ==>
              TasksFor(other, customs + [CustomTask(category, tasks)], defaults) == TasksFor(other, customs, defaults)
  {
    FindCustomAppend(customs, CustomTask(category, tasks), category);
    forall other | other != category
      ensures TasksFor(other, customs + [CustomTask(category, tasks)], defaults) == TasksFor(other, customs, defaults)
    {
      FindCustomAppend(customs, CustomTask(category, tasks), other);
    }
  }

  // ---------------------------------------------------------------------------
  // Properties of a run
  // ---------------------------------------------------------------------------

  /** The three maps of a run are keyed by exactly the selected categories that have tasks. */
  lemma {:induction false} RunKeys(selected: seq<string>, customs: seq<CustomTask>, defaults: string -> seq<Task>,
                                   exec: Task -> TaskResult, gpu: GpuInfo)
    ensures forall c :: c in RunFold(selected, customs, defaults, exec, gpu).allResults <==>
                          c in selected && TasksFor(c, customs, defaults) != []
    ensures forall c :: c in RunFold(selected, customs, defaults, exec, gpu).costPerCategory <==>
                          c in selected && TasksFor(c, customs, defaults) != []
    ensures forall c :: c in RunFold(selected, customs, defaults, exec, gpu).costPerTokenCategory <==>
                          c in selected && TasksFor(c, customs, defaults) != []
  {
    if selected != [] {
      var init, last := selected[..|selected| - 1], selected[|selected| - 1];
      assert selected == init + [last];
      RunKeys(init, customs, defaults, exec, gpu);
      RunAppend(init, last, customs, defaults, exec, gpu);
    }
  }

  /**
   * Each entry of a run is computed from that category's own results. Task
   * execution is a function here, so a category selected twice gets the same
   * results both times; the source executes it again.
   */
  lemma {:induction false} RunEntries(selected: seq<string>, customs: seq<CustomTask>, defaults: string -> seq<Task>,
                                      exec: Task -> TaskResult, gpu: GpuInfo, c: string)
    requires c in selected && TasksFor(c, customs, defaults) != []
    ensures var rs := MapExec(exec, TasksFor(c, customs, defaults));
            var acc := RunFold(selected, customs, defaults, exec, gpu);
            && c in acc.allResults && c in acc.costPerCategory && c in acc.costPerTokenCategory
            && acc.allResults[c] == BenchEntry(rs, Accuracy(rs), AverageTokensPerSecond(rs))
            && acc.costPerCategory[c] == GpuCostNum(StrictSum(rs, DurationField), gpu)
            && acc.costPerTokenCategory[c] == StrictTokenSum(rs)
  {
    var init, last := selected[..|selected| - 1], selected[|selected| - 1];
    assert selected == init + [last];
    RunAppend(init, last, customs, defaults, exec, gpu);
    if last != c {
      RunEntries(init, customs, defaults, exec, gpu, c);
    }
  }

  lemma AddInterchange(a: Num, b: Num, c: Num, d: Num)
    ensures Add(Add(a, b), Add(c, d)) == Add(Add(a, c), Add(b, d))
  {
  }

  /** A category's token count is its input tokens plus its output tokens. */
  lemma {:induction false} TokenSumSplits(rs: seq<TaskResult>)
    ensures StrictTokenSum(rs) == Add(StrictSum(rs, InputField), StrictSum(rs, OutputField))
  {
    if rs != [] {
      var init, r := rs[..|rs| - 1], rs[|rs| - 1];
      TokenSumSplits(init);
      AddAssociates(StrictTokenSum(init), InputField(r), OutputField(r));
      AddInterchange(StrictSum(init, InputField), StrictSum(init, OutputField), InputField(r), OutputField(r));
    }
  }

  /** The run's token total is its input total plus its output total. */
  lemma {:induction false} RunTokensAddUp(selected: seq<string>, customs: seq<CustomTask>, defaults: string -> seq<Task>, exec: Task -> TaskResult, gpu: GpuInfo)
    ensures RunFold(selected, customs, defaults, exec, gpu).totalTokens ==
            Add(RunFold(selected, customs, defaults, exec, gpu).inputTokens, RunFold(selected, customs, defaults, exec, gpu).outputTokens)
  {
    if selected != [] {
      var init, last := selected[..|selected| - 1], selected[|selected| - 1];
      RunTokensAddUp(init, customs, defaults, exec, gpu);
      var acc := RunFold(init, customs, defaults, exec, gpu);
      var tasks := TasksFor(last, customs, defaults);
      if tasks != [] {
        var rs := MapExec(exec, tasks);
        TokenSumSplits(rs);
        AddInterchange(acc.inputTokens, acc.outputTokens, StrictSum(rs, InputField), StrictSum(rs, OutputField));
      }
    }
  }

  /** The values of `m` at `keys` added up in order; a missing key adds 0. */
  function SumOver(keys: seq<string>, m: map<string, Num>): Num
  {
    if keys == [] then Num(0.0)
    else
      var k := keys[|keys| - 1];
      Add(SumOver(keys[..|keys| - 1], m), if k in m then m[k] else Num(0.0))
  }

  lemma {:induction false} SumOverUpdateOther(keys: seq<string>, m: map<string, Num>, k: string, v: Num)
    requires k !in keys
    ensures SumOver(keys, m[k := v]) == SumOver(keys, m)
  {
    if keys != [] {
      SumOverUpdateOther(keys[..|keys| - 1], m, k, v);
    }
  }

  lemma {:induction false} ProcessedMembers(selected: seq<string>, customs: seq<CustomTask>, defaults: string -> seq<Task>)
    ensures forall c :: c in Processed(selected, customs, defaults) <==> c in selected && TasksFor(c, customs, defaults) != []
  {
    if selected != [] {
      var init, last := selected[..|selected| - 1], selected[|selected| - 1];
      assert selected == init + [last];
      ProcessedMembers(init, customs, defaults);
    }
  }

  /**
   * With every category selected once, the run's total cost is the sum of
   * the per-category costs it reports.
   */
  lemma {:induction false} TotalCostIsSumOfCategoryCosts(selected: seq<string>, customs: seq<CustomTask>, defaults: string -> seq<Task>,
                                                         exec: Task -> TaskResult, gpu: GpuInfo)
    requires Distinct(selected)
    ensures Summary(RunFold(selected, customs, defaults, exec, gpu), gpu).totalCost ==
            SumOver(Processed(selected, customs, defaults), RunFold(selected, customs, defaults, exec, gpu).costPerCategory)
  {
    if selected != [] {
      var init, last := selected[..|selected| - 1], selected[|selected| - 1];
      assert Distinct(init);
      TotalCostIsSumOfCategoryCosts(init, customs, defaults, exec, gpu);
      var tasks := TasksFor(last, customs, defaults);
      if tasks != [] {
        var acc := RunFold(init, customs, defaults, exec, gpu);
        var rs := MapExec(exec, tasks);
        assert RunFold(selected, customs, defaults, exec, gpu) == Step(acc, last, rs, gpu);
        var keys := Processed(init, customs, defaults);
        assert Processed(selected, customs, defaults) == keys + [last];
        ProcessedMembers(init, customs, defaults);
        assert last !in keys;
        CostStep(keys, acc.costPerCategory, last, acc.totalDuration, StrictSum(rs, DurationField), gpu);
      } else {
        assert RunFold(selected, customs, defaults, exec, gpu) == RunFold(init, customs, defaults, exec, gpu);
        assert Processed(selected, customs, defaults) == Processed(init, customs, defaults);
      }
    } else {
      GpuCostLinear(0.0, 0.0, gpu);
    }
  }

  /** One more category: its cost joins the sum under a key not yet summed. */
  lemma CostStep(keys: seq<string>, m: map<string, Num>, last: string, total: Num, d: Num, gpu: GpuInfo)
    requires last !in keys
    requires GpuCostNum(total, gpu) == SumOver(keys, m)
    ensures GpuCostNum(Add(total, d), gpu) == SumOver(keys + [last], m[last := GpuCostNum(d, gpu)])
  {
    GpuCostNumAdditive(total, d, gpu);
    SumOverUpdateOther(keys, m, last, GpuCostNum(d, gpu));
    assert (keys + [last])[..|keys|] == keys;
  }

  /**
   * A category selected twice is executed twice: the total cost prices the
   * durations of both executions, while the per-category map keeps only the
   * last one. Task execution is a function here, so both executions give the
   * same results and the total is the map's entry counted twice; a non-zero
   * total then differs from the only per-category cost reported.
   */
  lemma DuplicateSelectionCountsTwice(category: string, customs: seq<CustomTask>, defaults: string -> seq<Task>, exec: Task -> TaskResult, gpu: GpuInfo)
    requires TasksFor(category, customs, defaults) != []
    ensures RunFold([category, category], customs, defaults, exec, gpu).costPerCategory.Keys == {category}
    ensures Summary(RunFold([category, category], customs, defaults, exec, gpu), gpu).totalCost ==
            Add(RunFold([category, category], customs, defaults, exec, gpu).costPerCategory[category],
                RunFold([category, category], customs, defaults, exec, gpu).costPerCategory[category])
    ensures var total := Summary(RunFold([category, category], customs, defaults, exec, gpu), gpu).totalCost;
            total.Num? && total.v != 0.0 ==>
              total != RunFold([category, category], customs, defaults, exec, gpu).costPerCategory[category]
  {
    var rs := MapExec(exec, TasksFor(category, customs, defaults));
    RunAppend([], category, customs, defaults, exec, gpu);
    assert [] + [category] == [category];
    var once := RunFold([category], customs, defaults, exec, gpu);
    RunAppend([category], category, customs, defaults, exec, gpu);
    assert [category] + [category] == [category, category];
    var d := StrictSum(rs, DurationField);
    assert once.totalDuration == Add(Num(0.0), d) == d;
    GpuCostNumAdditive(d, d, gpu);
  }

  /** Selecting one more category runs it after the others and folds in its results, if it has tasks. */
  lemma RunAppend(selected: seq<string>, last: string, customs: seq<CustomTask>, defaults: string -> seq<Task>,
                  exec: Task -> TaskResult, gpu: GpuInfo)
    ensures TasksFor(last, customs, defaults) == [] ==>
              RunFold(selected + [last], customs, defaults, exec, gpu) == RunFold(selected, customs, defaults, exec, gpu)
    ensures TasksFor(last, customs, defaults) != [] ==>
              RunFold(selected + [last], customs, defaults, exec, gpu) ==
              Step(RunFold(selected, customs, defaults, exec, gpu), last, MapExec(exec, TasksFor(last, customs, defaults)), gpu)
  {
    assert (selected + [last])[..|selected|] == selected;
  }

  /** A sum over the results is NaN exactly when one of the summed fields is missing. */
  lemma {:induction false} StrictSumNaN(rs: seq<TaskResult>, field: TaskResult -> Num)
    ensures StrictSum(rs, field).NaN? <==> exists k :: 0 <= k < |rs| && field(rs[k]).NaN?
  {
    if rs != [] {
      var init := rs[..|rs| - 1];
      StrictSumNaN(init, field);
      assert forall k :: 0 <= k < |init| ==> init[k] == rs[k];
      if exists k :: 0 <= k < |rs| && field(rs[k]).NaN? {
        var k :| 0 <= k < |rs| && field(rs[k]).NaN?;
        if k < |init| {
          assert field(init[k]).NaN?;
        }
      }
    }
  }

  /** Sums of fields that are never negative are never negative. */
  lemma {:induction false} StrictSumNonNegative(rs: seq<TaskResult>, field: TaskResult -> Num)
    requires forall k :: 0 <= k < |rs| ==> field(rs[k]).NaN? || field(rs[k]).v >= 0.0
    ensures StrictSum(rs, field).NaN? || StrictSum(rs, field).v >= 0.0
  {
    if rs != [] {
      StrictSumNonNegative(rs[..|rs| - 1], field);
    }
  }

  /**
   * One executed task without a duration (every failed task) makes the
   * run's total duration NaN, and with it the total cost and both duration
   * shares.
   */
  lemma {:induction false} UnmeasuredTaskPoisonsTotals(selected: seq<string>, customs: seq<CustomTask>, defaults: string -> seq<Task>,
                                                       exec: Task -> TaskResult, gpu: GpuInfo,
                                                       category: string, task: Task)
    requires category in selected && task in TasksFor(category, customs, defaults) && exec(task).duration.None?
    ensures RunFold(selected, customs, defaults, exec, gpu).totalDuration.NaN?
    ensures Summary(RunFold(selected, customs, defaults, exec, gpu), gpu).totalCost.NaN?
    ensures Summary(RunFold(selected, customs, defaults, exec, gpu), gpu).inputDuration.NaN?
    ensures Summary(RunFold(selected, customs, defaults, exec, gpu), gpu).outputDuration.NaN?
  {
    var init, last := selected[..|selected| - 1], selected[|selected| - 1];
    assert selected == init + [last];
    var tasks := TasksFor(last, customs, defaults);
    if last == category {
      var rs := MapExec(exec, tasks);
      var k :| 0 <= k < |tasks| && tasks[k] == task;
      assert DurationField(rs[k]).NaN?;
      StrictSumNaN(rs, DurationField);
    } else {
      UnmeasuredTaskPoisonsTotals(init, customs, defaults, exec, gpu, category, task);
    }
  }

  /** A result that carries a duration and both token counts, as every successful one does. */
  predicate Measured(r: TaskResult)
  {
    r.duration.Some? && r.inputTokens.Some? && r.outputTokens.Some?
  }

  predicate AllMeasured(selected: seq<string>, customs: seq<CustomTask>, defaults: string -> seq<Task>, exec: Task -> TaskResult)
  {
    forall c, t :: c in selected && t in TasksFor(c, customs, defaults) ==> Measured(exec(t))
  }

  /** Every category's sums when all its results are measured: defined, token counts non-negative. */
  lemma CategorySumsDefined(rs: seq<TaskResult>)
    requires forall k :: 0 <= k < |rs| ==> Measured(rs[k])
    ensures StrictSum(rs, DurationField).Num?
    ensures StrictSum(rs, InputField).Num? && StrictSum(rs, InputField).v >= 0.0
    ensures StrictSum(rs, OutputField).Num? && StrictSum(rs, OutputField).v >= 0.0
  {
    StrictSumNaN(rs, DurationField);
    StrictSumNaN(rs, InputField);
    StrictSumNaN(rs, OutputField);
    StrictSumNonNegative(rs, InputField);
    StrictSumNonNegative(rs, OutputField);
  }

  /** When every executed task is measured, the run's totals are numbers and its token totals non-negative. */
  lemma {:induction false} MeasuredRunIsDefined(selected: seq<string>, customs: seq<CustomTask>, defaults: string -> seq<Task>,
                                                exec: Task -> TaskResult, gpu: GpuInfo)
    requires AllMeasured(selected, customs, defaults, exec)
    ensures RunFold(selected, customs, defaults, exec, gpu).totalDuration.Num?
    ensures RunFold(selected, customs, defaults, exec, gpu).inputTokens.Num?
    ensures RunFold(selected, customs, defaults, exec, gpu).outputTokens.Num?
    ensures RunFold(selected, customs, defaults, exec, gpu).inputTokens.v >= 0.0
    ensures RunFold(selected, customs, defaults, exec, gpu).outputTokens.v >= 0.0
  {
    if selected != [] {
      var init, last := selected[..|selected| - 1], selected[|selected| - 1];
      assert selected == init + [last];
      assert AllMeasured(init, customs, defaults, exec);
      MeasuredRunIsDefined(init, customs, defaults, exec, gpu);
      var tasks := TasksFor(last, customs, defaults);
      if tasks != [] {
        var rs := MapExec(exec, tasks);
        forall k | 0 <= k < |rs|
          ensures Measured(rs[k])
        {
          assert tasks[k] in tasks;
        }
        CategorySumsDefined(rs);
      }
    }
  }

  /**
   * The split of the total duration by token share: when tokens were
   * counted, the input and output shares add up to the total duration; when
   * none were, both shares are 0.
   */
  lemma RunSplitAddsUp(selected: seq<string>, customs: seq<CustomTask>, defaults: string -> seq<Task>, exec: Task -> TaskResult, gpu: GpuInfo)
    requires AllMeasured(selected, customs, defaults, exec)
    ensures Summary(RunFold(selected, customs, defaults, exec, gpu), gpu).totalTokens.Num?
    ensures var s := Summary(RunFold(selected, customs, defaults, exec, gpu), gpu);
            s.totalTokens.v > 0.0 ==> Add(s.inputDuration, s.outputDuration) == s.totalDuration
    ensures var s := Summary(RunFold(selected, customs, defaults, exec, gpu), gpu);
            s.totalTokens.v == 0.0 ==> s.inputDuration == Num(0.0) && s.outputDuration == Num(0.0)
  {
    MeasuredRunIsDefined(selected, customs, defaults, exec, gpu);
    RunTokensAddUp(selected, customs, defaults, exec, gpu);
    var acc := RunFold(selected, customs, defaults, exec, gpu);
    if acc.inputTokens.v + acc.outputTokens.v > 0.0 {
      SplitSharesAddUp(acc.totalDuration, acc.inputTokens, acc.outputTokens);
    } else {
      SplitOfNoTokens(acc.totalDuration, acc.inputTokens, acc.outputTokens);
    }
  }

  /** With tokens counted, the input and output shares of a duration add up to it. */
  lemma SplitSharesAddUp(duration: Num, input: Num, output: Num)
    requires duration.Num? && input.Num? && output.Num? && input.v + output.v > 0.0
    ensures Add(SplitDuration(duration, input, Add(input, output)),
                SplitDuration(duration, output, Add(input, output))) == duration
  {
    var d, i, o := duration.v, input.v, output.v;
    assert OrOne(Add(input, output)) == Num(i + o);
    SharesAddUp(d, i, o, i + o);
  }

  /** With no tokens counted, both shares of a duration are 0. */
  lemma SplitOfNoTokens(duration: Num, input: Num, output: Num)
    requires duration.Num? && input == Num(0.0) && output == Num(0.0)
    ensures SplitDuration(duration, input, Add(input, output)) == Num(0.0)
    ensures SplitDuration(duration, output, Add(input, output)) == Num(0.0)
  {
    assert OrOne(Add(input, output)) == Num(1.0);
  }

  /**
   * The run keeps durations in seconds but prices them as milliseconds: a
   * category whose two tasks took 2 and 3 seconds on one GPU at 10 per hour
   * is reported as costing 1/72000, not the 1/72 that 5 seconds cost.
   */
  lemma CategoryCostOfFiveSeconds(rs: seq<TaskResult>, model: string)
    requires |rs| == 2 && rs[0].duration == Some(2.0) && rs[1].duration == Some(3.0)
    ensures GpuCostNum(StrictSum(rs, DurationField), GpuInfo(model, 1.0, 10.0)) == Num(1.0 / 72000.0)
  {
    var first := rs[..1];
    assert first[..0] == [] && first[0] == rs[0];
    assert StrictSum(first, DurationField) == Add(Num(0.0), Num(2.0));
    assert StrictSum(rs, DurationField) == Add(StrictSum(first, DurationField), Num(3.0));
  }
}
