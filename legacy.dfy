/**
 * The older benchmark page of llm-web-bench/src/App.tsx: its state,
 * `handleAddCustomTask` and `handleRunBenchmark`.
 *
 * The utilities this page imports are not part of this model, so running a
 * category's tasks and the two metrics are parameters: `run` stands for
 * `executeTasksConcurrently` with the page's endpoint and concurrency,
 * `accuracy` and `averageRate` for `calculateAccuracy` and
 * `calculateAverageTokensPerSecond`. The built-in task table is likewise
 * given to the constructor.
 *
 * Unlike src/App.tsx, this page resolves a category through the object
 * `{...defaultTasks, ...Object.fromEntries(custom pairs)}`: a custom entry
 * overrides a default of the same name and, among custom entries of the
 * same name, the LAST one wins. Any list found there runs, even an empty
 * one.
 */
module LegacyBench {
  import opened Types
  import Bench

  /** What the page stores per category. */
  datatype LegacyEntry = LegacyEntry(results: seq<TaskResult>, accuracy: real, averageTokensPerSecond: real)

  datatype LegacyError = MissingEndpoint | NoCategorySelected

  datatype LegacyOutcome = Completed | Rejected(reason: LegacyError)

  /** The two checks before a run, endpoint first. */
  function LegacyCheck(endpoint: string, selected: seq<string>): LegacyOutcome
  {
    if endpoint == "" then Rejected(MissingEndpoint)
    else if |selected| == 0 then Rejected(NoCategorySelected)
    else Completed
  }

  /** A run starts exactly when both checks pass, and a missing endpoint is reported before an empty selection. */
  lemma LegacyCheckOrder(endpoint: string, selected: seq<string>)
    ensures LegacyCheck(endpoint, selected) == Completed <==> endpoint != "" && |selected| > 0
    ensures LegacyCheck(endpoint, selected) == Rejected(MissingEndpoint) <==> endpoint == ""
    ensures LegacyCheck(endpoint, selected) == Rejected(NoCategorySelected) <==> endpoint != "" && |selected| == 0
  {
  }

  /** `Object.fromEntries(pairs)`: later pairs overwrite earlier ones with the same key. */
  function FromEntries(customs: seq<CustomTask>): map<string, seq<Task>>
  {
    if customs == [] then map[]
    else FromEntries(customs[..|customs| - 1])[customs[|customs| - 1].category := customs[|customs| - 1].tasks]
  }

  /** `{...defaults, ...Object.fromEntries(customs)}`: the spread of the custom pairs overrides the defaults. */
  function AllTasks(defaults: map<string, seq<Task>>, customs: seq<CustomTask>): map<string, seq<Task>>
  {
    defaults + FromEntries(customs)
  }

  /** The names of the registered custom categories. */
  function CustomNames(customs: seq<CustomTask>): set<string>
  {
    set j | 0 <= j < |customs| :: customs[j].category
  }

  /** `fromEntries` keeps one entry per name: the last pair that carries it. */
  lemma {:induction false} FromEntriesLastWins(customs: seq<CustomTask>)
    ensures FromEntries(customs).Keys == CustomNames(customs)
    ensures forall j :: 0 <= j < |customs| && (forall i :: j < i < |customs| ==> customs[i].category != customs[j].category) ==>
              FromEntries(customs)[customs[j].category] == customs[j].tasks
  {
    if customs != [] {
      var init, last := customs[..|customs| - 1], customs[|customs| - 1];
      FromEntriesLastWins(init);
      assert CustomNames(customs) == CustomNames(init) + {last.category} by {
        assert forall j :: 0 <= j < |init| ==> customs[j] == init[j];
      }
      forall j | 0 <= j < |customs| - 1 && (forall i :: j < i < |customs| ==> customs[i].category != customs[j].category)
        ensures FromEntries(customs)[customs[j].category] == customs[j].tasks
      {
        assert customs[j] == init[j];
        assert last.category != customs[j].category;
      }
    }
  }

  /**
   * The merged table: its names are the defaults' and the custom ones; a
   * custom name maps to the tasks of its last registration; any other name
   * keeps its default list.
   */
  lemma AllTasksLookup(defaults: map<string, seq<Task>>, customs: seq<CustomTask>)
    ensures AllTasks(defaults, customs).Keys == defaults.Keys + CustomNames(customs)
    ensures forall j :: 0 <= j < |customs| && (forall i :: j < i < |customs| ==> customs[i].category != customs[j].category) ==>
              AllTasks(defaults, customs)[customs[j].category] == customs[j].tasks
    ensures forall c :: c in defaults && c !in CustomNames(customs) ==> AllTasks(defaults, customs)[c] == defaults[c]
  {
    FromEntriesLastWins(customs);
  }

  /** The results after visiting the selected categories in order; names missing from the table are skipped. */
  function LegacyRun(selected: seq<string>, allTasks: map<string, seq<Task>>, run: seq<Task> -> seq<TaskResult>,
                     accuracy: seq<TaskResult> -> real, averageRate: seq<TaskResult> -> real): map<string, LegacyEntry>
  {
    if selected == [] then map[]
    else
      var results := LegacyRun(selected[..|selected| - 1], allTasks, run, accuracy, averageRate);
      var category := selected[|selected| - 1];
      if category in allTasks then
        var rs := run(allTasks[category]);
        results[category := LegacyEntry(rs, accuracy(rs), averageRate(rs))]
      else results
  }

  /**
   * The result map is keyed by exactly the selected names found in the
   * table, and each entry is computed from that category's own list.
   */
  lemma {:induction false} LegacyRunEntries(selected: seq<string>, allTasks: map<string, seq<Task>>,
                                            run: seq<Task> -> seq<TaskResult>, accuracy: seq<TaskResult> -> real,
                                            averageRate: seq<TaskResult> -> real)
    ensures forall c :: c in LegacyRun(selected, allTasks, run, accuracy, averageRate) <==> c in selected && c in allTasks
    ensures forall c :: c in LegacyRun(selected, allTasks, run, accuracy, averageRate) ==>
              LegacyRun(selected, allTasks, run, accuracy, averageRate)[c] ==
              LegacyEntry(run(allTasks[c]), accuracy(run(allTasks[c])), averageRate(run(allTasks[c])))
  {
    if selected != [] {
      var init, last := selected[..|selected| - 1], selected[|selected| - 1];
      assert selected == init + [last];
      LegacyRunEntries(init, allTasks, run, accuracy, averageRate);
    }
  }

  /** An object literal given as its pairs, in order. */
  function EntryMap(entries: seq<(string, seq<Task>)>): (m: map<string, seq<Task>>)
    ensures forall c :: c in m <==> exists k :: 0 <= k < |entries| && entries[k].0 == c
  {
    if entries == [] then map[]
    else
      var m := EntryMap(entries[..|entries| - 1])[entries[|entries| - 1].0 := entries[|entries| - 1].1];
      assert forall k :: 0 <= k < |entries| - 1 ==> entries[..|entries| - 1][k] == entries[k];
      m
  }

  /** A name maps to the list of the last pair that carries it. */
  lemma {:induction false} EntryMapLastWins(entries: seq<(string, seq<Task>)>)
    ensures forall k :: 0 <= k < |entries| && (forall i :: k < i < |entries| ==> entries[i].0 != entries[k].0) ==>
              EntryMap(entries)[entries[k].0] == entries[k].1
  {
    if entries != [] {
      var init, last := entries[..|entries| - 1], entries[|entries| - 1];
      EntryMapLastWins(init);
      forall k | 0 <= k < |entries| - 1 && (forall i :: k < i < |entries| ==> entries[i].0 != entries[k].0)
        ensures EntryMap(entries)[entries[k].0] == entries[k].1
      {
        assert entries[k] == init[k];
        assert last.0 != entries[k].0;
      }
    }
  }

  class LegacyPage {
    var endpoint: string
    var concurrency: nat
    var customTasks: seq<CustomTask>
    /** `null` until a run completes. */
    var results: Option<map<string, LegacyEntry>>
    var selected: seq<string>
    const defaults: map<string, seq<Task>>

    /**
     * The initial state: the built-in table holds each pair's list under its
     * name, and the selection is the table's key list, in its order.
     */
    constructor (defaultEntries: seq<(string, seq<Task>)>)
      requires Distinct(Names(defaultEntries))
      ensures defaults == EntryMap(defaultEntries)
      ensures forall k :: 0 <= k < |defaultEntries| ==> defaults[defaultEntries[k].0] == defaultEntries[k].1
      ensures selected == Names(defaultEntries)
      ensures forall c :: c in selected <==> c in defaults
      ensures endpoint == "" && concurrency == 1 && customTasks == [] && results == None
    {
      EntryMapLastWins(defaultEntries);
      defaults := EntryMap(defaultEntries);
      selected := Names(defaultEntries);
      endpoint, concurrency, customTasks, results := "", 1, [], None;
    }

    /**
     * Registers a custom category: a parsed payload appends one entry and
     * selects the category; a payload that does not parse changes nothing.
     */
    method AddCustomTask(category: string, parsed: Option<seq<Task>>)
      modifies this`customTasks, this`selected
      ensures parsed.Some? ==>
                customTasks == old(customTasks) + [CustomTask(category, parsed.value)] &&
                selected == old(selected) + [category]
      ensures parsed.None? ==> customTasks == old(customTasks) && selected == old(selected)
    {
      if parsed.Some? {
        customTasks := customTasks + [CustomTask(category, parsed.value)];
        selected := selected + [category];
      }
    }

    /**
     * Runs the benchmark: nothing runs and `results` keeps its value when a
     * check fails; otherwise `results` becomes the map of the run over the
     * merged table.
     */
    method HandleRunBenchmark(run: seq<Task> -> seq<TaskResult>, accuracy: seq<TaskResult> -> real,
                              averageRate: seq<TaskResult> -> real) returns (outcome: LegacyOutcome)
      modifies this`results
      ensures outcome == LegacyCheck(endpoint, selected)
      ensures outcome.Rejected? ==> results == old(results)
      ensures outcome.Completed? ==>
                results == Some(LegacyRun(selected, AllTasks(defaults, customTasks), run, accuracy, averageRate))
    {
      outcome := LegacyCheck(endpoint, selected);
      if outcome.Rejected? {
        return;
      }
      var allTasks := defaults + FromEntries(customTasks);
      var runResults := RunSelected(selected, allTasks, run, accuracy, averageRate);
      results := Some(runResults);
    }
  }

  /** The loop over the selection, filling the result map. */
  method RunSelected(selected: seq<string>, allTasks: map<string, seq<Task>>, run: seq<Task> -> seq<TaskResult>,
                     accuracy: seq<TaskResult> -> real, averageRate: seq<TaskResult> -> real)
    returns (results: map<string, LegacyEntry>)
    ensures results == LegacyRun(selected, allTasks, run, accuracy, averageRate)
  {
    results := map[];
    for k := 0 to |selected|
      invariant results == LegacyRun(selected[..k], allTasks, run, accuracy, averageRate)
    {
      assert selected[..k + 1][..k] == selected[..k];
      var category := selected[k];
      if category in allTasks {
        var categoryResults := run(allTasks[category]);
        results := results[category := LegacyEntry(categoryResults, accuracy(categoryResults), averageRate(categoryResults))];
      }
    }
    assert selected[..|selected|] == selected;
  }

  // ---------------------------------------------------------------------------
  // How the two pages differ
  // ---------------------------------------------------------------------------

  /**
   * Two registrations under one name: src/App.tsx runs the first list,
   * this page runs the last one.
   */
  lemma FirstWinsVersusLastWins(category: string, first: seq<Task>, second: seq<Task>,
                                defaults: map<string, seq<Task>>, defaultLists: string -> seq<Task>)
    ensures Bench.TasksFor(category, [CustomTask(category, first), CustomTask(category, second)], defaultLists) == first
    ensures AllTasks(defaults, [CustomTask(category, first), CustomTask(category, second)])[category] == second
  {
    var customs := [CustomTask(category, first), CustomTask(category, second)];
    Bench.CustomShadowsDefault(category, customs, defaultLists, 0);
    AllTasksLookup(defaults, customs);
    assert customs[1].category == category;
  }

  /**
   * A category registered with an empty list: src/App.tsx skips it, this
   * page runs it and stores an entry for it.
   */
  lemma EmptyCustomListRuns(category: string, defaults: map<string, seq<Task>>, defaultLists: string -> seq<Task>,
                            run: seq<Task> -> seq<TaskResult>, accuracy: seq<TaskResult> -> real,
                            averageRate: seq<TaskResult> -> real, exec: Task -> TaskResult, gpu: GpuInfo)
    ensures category in LegacyRun([category], AllTasks(defaults, [CustomTask(category, [])]), run, accuracy, averageRate)
    ensures category !in Bench.RunFold([category], [CustomTask(category, [])], defaultLists, exec, gpu).allResults
  {
    var customs := [CustomTask(category, [])];
    AllTasksLookup(defaults, customs);
    assert customs[0].category == category;
    LegacyRunEntries([category], AllTasks(defaults, customs), run, accuracy, averageRate);
    Bench.CustomShadowsDefault(category, customs, defaultLists, 0);
    Bench.RunKeys([category], customs, defaultLists, exec, gpu);
  }
}
