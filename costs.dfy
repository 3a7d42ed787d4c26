/**
 * The cost model of the benchmark page (src/App.tsx): the GPU cost formula
 * `calculateGPUCost`, the number arithmetic that the run accumulates with,
 * and `calculateCosts`, which turns a finished report into a cost summary.
 */
module Costs {
  import opened Types
  import opened Arith

  /**
   * A JavaScript number as far as this code can produce one: a finite value
   * or NaN. NaN is what adding `undefined` to a number yields, and it
   * absorbs every later sum and product. Infinities cannot arise here
   * because no denominator can be zero.
   */
  datatype Num = Num(v: real) | NaN

  function Add(a: Num, b: Num): Num
  {
    if a.Num? && b.Num? then Num(a.v + b.v) else NaN
  }

  function Mul(a: Num, b: Num): Num
  {
    if a.Num? && b.Num? then Num(a.v * b.v) else NaN
  }

  function Div(a: Num, b: Num): Num
    requires b != Num(0.0)
  {
    if a.Num? && b.Num? then Num(a.v / b.v) else NaN
  }

  /** `x || 1`: both NaN and 0 are falsy, so the result is never zero. */
  function OrOne(a: Num): (r: Num)
    ensures r.Num? && r != Num(0.0)
    ensures a.Num? && a.v != 0.0 ==> r == a
  {
    if a.NaN? || a == Num(0.0) then Num(1.0) else a
  }

  /** The value of an optional numeric field inside `+`: `undefined` becomes NaN. */
  function FromReal(o: Option<real>): Num
  {
    if o.Some? then Num(o.value) else NaN
  }

  function FromNat(o: Option<nat>): Num
  {
    if o.Some? then Num(o.value as real) else NaN
  }

  lemma AddAssociates(a: Num, b: Num, c: Num)
    ensures Add(Add(a, b), c) == Add(a, Add(b, c))
  {
  }

  const MillisecondsPerHour: real := 3600000.0

  /**
   * `calculateGPUCost`: a duration in milliseconds, turned into hours,
   * times the number of GPUs and their hourly price.
   */
  function GpuCost(durationMs: real, gpu: GpuInfo): real
  {
    durationMs / MillisecondsPerHour * gpu.count * gpu.costPerHour
  }

  /** The cost is linear in the duration: zero for no time, additive over parts. */
  lemma GpuCostLinear(a: real, b: real, gpu: GpuInfo)
    ensures GpuCost(0.0, gpu) == 0.0
    ensures GpuCost(a + b, gpu) == GpuCost(a, gpu) + GpuCost(b, gpu)
  {
    assert (a + b) / MillisecondsPerHour == a / MillisecondsPerHour + b / MillisecondsPerHour;
  }

  /** One hour on two GPUs at 10 per hour costs 20. */
  lemma GpuCostOneHour(model: string)
    ensures GpuCost(3600000.0, GpuInfo(model, 2.0, 10.0)) == 20.0
  {
  }

  /** `calculateGPUCost` applied to a number that may be NaN. */
  function GpuCostNum(duration: Num, gpu: GpuInfo): (c: Num)
    ensures c.NaN? <==> duration.NaN?
  {
    if duration.Num? then Num(GpuCost(duration.v, gpu)) else NaN
  }

  lemma GpuCostNumAdditive(a: Num, b: Num, gpu: GpuInfo)
    ensures GpuCostNum(Add(a, b), gpu) == Add(GpuCostNum(a, gpu), GpuCostNum(b, gpu))
  {
    if a.Num? && b.Num? {
      GpuCostLinear(a.v, b.v, gpu);
    }
  }

  /** The cost summary of a run; every figure is a number that may be NaN. */
  datatype CostSummary = CostSummary(
    totalCost: Num,
    totalDuration: Num,
    totalTokens: Num,
    inputTokens: Num,
    outputTokens: Num,
    inputDuration: Num,
    outputDuration: Num,
    costPerCategory: map<string, Num>,
    costPerTokenCategory: map<string, Num>)

  const EmptySummary: CostSummary :=
    CostSummary(Num(0.0), Num(0.0), Num(0.0), Num(0.0), Num(0.0), Num(0.0), Num(0.0), map[], map[])

  // ---------------------------------------------------------------------------
  // calculateCosts: every missing field counts as 0 (`|| 0`)
  // ---------------------------------------------------------------------------

  function DurationOrZero(r: TaskResult): real
  {
    if r.duration.Some? then r.duration.value else 0.0
  }

  function InputOrZero(r: TaskResult): real
  {
    if r.inputTokens.Some? then r.inputTokens.value as real else 0.0
  }

  function OutputOrZero(r: TaskResult): real
  {
    if r.outputTokens.Some? then r.outputTokens.value as real else 0.0
  }

  /** `reduce((sum, r) => sum + (r.field || 0), 0)` over the results, for a field selector. */
  function SumOrZero(rs: seq<TaskResult>, field: TaskResult -> real): real
  {
    if rs == [] then 0.0 else SumOrZero(rs[..|rs| - 1], field) + field(rs[|rs| - 1])
  }

  lemma {:induction false} SumOrZeroAppend(rs: seq<TaskResult>, extra: seq<TaskResult>, field: TaskResult -> real)
    ensures SumOrZero(rs + extra, field) == SumOrZero(rs, field) + SumOrZero(extra, field)
    decreases |extra|
  {
    if extra == [] {
      assert rs + extra == rs;
    } else {
      var last := |extra| - 1;
      assert (rs + extra)[..|rs + extra| - 1] == rs + extra[..last];
      SumOrZeroAppend(rs, extra[..last], field);
    }
  }

  lemma {:induction false} SumOrZeroNonNegative(rs: seq<TaskResult>, field: TaskResult -> real)
    requires forall k :: 0 <= k < |rs| ==> field(rs[k]) >= 0.0
    ensures SumOrZero(rs, field) >= 0.0
  {
    if rs != [] {
      SumOrZeroNonNegative(rs[..|rs| - 1], field);
    }
  }

  /** The category's duration: the stored durations summed and divided by 1000. */
  function CategoryDuration(rep: CategoryReport): real
  {
    SumOrZero(rep.results, DurationOrZero) / 1000.0
  }

  function CategoryInputTokens(rep: CategoryReport): real
  {
    SumOrZero(rep.results, InputOrZero)
  }

  function CategoryOutputTokens(rep: CategoryReport): real
  {
    SumOrZero(rep.results, OutputOrZero)
  }

  function ReportedTokens(rep: CategoryReport): real
  {
    rep.totalTokens as real
  }

  /** `categoryTokens || 1` for the token total the report carries. */
  function TokensOrOne(rep: CategoryReport): real
  {
    if rep.totalTokens == 0 then 1.0 else rep.totalTokens as real
  }

  function InputDurationShare(rep: CategoryReport): real
  {
    CategoryDuration(rep) * (CategoryInputTokens(rep) / TokensOrOne(rep))
  }

  function OutputDurationShare(rep: CategoryReport): real
  {
    CategoryDuration(rep) * (CategoryOutputTokens(rep) / TokensOrOne(rep))
  }

  function CategoryCost(rep: CategoryReport, gpu: GpuInfo): real
  {
    (CategoryDuration(rep) / 3600.0) * gpu.costPerHour * gpu.count
  }

  /** Cost per 1000 tokens, 0 when the category reports no tokens. */
  function CostPerThousandTokens(rep: CategoryReport, gpu: GpuInfo): (c: real)
    ensures rep.totalTokens == 0 ==> c == 0.0
    ensures rep.totalTokens > 0 ==> c * rep.totalTokens as real == CategoryCost(rep, gpu) * 1000.0
  {
    if rep.totalTokens > 0 then CategoryCost(rep, gpu) * 1000.0 / rep.totalTokens as real else 0.0
  }

  type Entries = seq<(string, CategoryReport)>

  /** The category names of the entries. */
  function Keys(entries: Entries): (ks: set<string>)
    ensures forall j :: 0 <= j < |entries| ==> entries[j].0 in ks
    ensures forall c :: c in ks ==> exists j :: 0 <= j < |entries| && entries[j].0 == c
  {
    if entries == [] then {} else Keys(entries[..|entries| - 1]) + {entries[|entries| - 1].0}
  }

  /** A per-category figure summed over the entries, in entry order. */
  function SumBy(entries: Entries, f: CategoryReport -> real): real
  {
    if entries == [] then 0.0 else SumBy(entries[..|entries| - 1], f) + f(entries[|entries| - 1].1)
  }

  function TotalCost(entries: Entries, gpu: GpuInfo): real
  {
    if entries == [] then 0.0
    else TotalCost(entries[..|entries| - 1], gpu) + CategoryCost(entries[|entries| - 1].1, gpu)
  }

  /**
   * The per-category step of `calculateCosts`: duration in seconds (the
   * stored durations over 1000), token sums, the token-ratio split of the
   * duration, the category cost and the cost per 1000 reported tokens. The
   * cost is `calculateGPUCost` of the stored durations read as milliseconds;
   * the cost per 1000 tokens times the token count gives back 1000 times the
   * cost; and when the reported total is input plus output tokens, the split
   * adds up to the duration.
   */
  method MeasureCategory(data: CategoryReport, gpu: GpuInfo)
    returns (categoryDuration: real, categoryInputTokens: real, categoryOutputTokens: real,
             categoryInputDuration: real, categoryOutputDuration: real,
             categoryCost: real, perThousand: real)
    ensures categoryDuration == CategoryDuration(data)
    ensures categoryInputTokens == CategoryInputTokens(data)
    ensures categoryOutputTokens == CategoryOutputTokens(data)
    ensures categoryInputDuration == InputDurationShare(data)
    ensures categoryOutputDuration == OutputDurationShare(data)
    ensures categoryCost == CategoryCost(data, gpu)
    ensures perThousand == CostPerThousandTokens(data, gpu)
    ensures categoryCost == GpuCost(SumOrZero(data.results, DurationOrZero), gpu)
    ensures data.totalTokens == 0 ==> perThousand == 0.0
    ensures data.totalTokens > 0 ==> perThousand * data.totalTokens as real == categoryCost * 1000.0
    ensures data.totalTokens as real == categoryInputTokens + categoryOutputTokens ==>
              if data.totalTokens > 0 then categoryInputDuration + categoryOutputDuration == categoryDuration
              else categoryInputDuration == 0.0 && categoryOutputDuration == 0.0
  {
    categoryDuration := SumOrZero(data.results, DurationOrZero) / 1000.0;
    var categoryTokens := data.totalTokens;
    categoryInputTokens := SumOrZero(data.results, InputOrZero);
    categoryOutputTokens := SumOrZero(data.results, OutputOrZero);
    var inputRatio := categoryInputTokens / (if categoryTokens == 0 then 1.0 else categoryTokens as real);
    var outputRatio := categoryOutputTokens / (if categoryTokens == 0 then 1.0 else categoryTokens as real);
    categoryInputDuration := categoryDuration * inputRatio;
    categoryOutputDuration := categoryDuration * outputRatio;
    categoryCost := (categoryDuration / 3600.0) * gpu.costPerHour * gpu.count;
    perThousand := if categoryTokens > 0 then (categoryCost * 1000.0) / categoryTokens as real else 0.0;
    CategoryCostReadsMilliseconds(data, gpu);
    if ReportedTokens(data) == CategoryInputTokens(data) + CategoryOutputTokens(data) {
      CategorySplitAddsUp(data);
    }
  }

  /** The map `costPerCategory` after visiting the entries in order. */
  function CostMap(entries: Entries, gpu: GpuInfo): map<string, Num>
  {
    if entries == [] then map[]
    else
      var (category, data) := entries[|entries| - 1];
      CostMap(entries[..|entries| - 1], gpu)[category := Num(CategoryCost(data, gpu))]
  }

  /** The map `costPerTokenCategory` after visiting the entries in order. */
  function PerThousandMap(entries: Entries, gpu: GpuInfo): map<string, Num>
  {
    if entries == [] then map[]
    else
      var (category, data) := entries[|entries| - 1];
      PerThousandMap(entries[..|entries| - 1], gpu)[category := Num(CostPerThousandTokens(data, gpu))]
  }

  /** Both maps have exactly the entries' names as keys. */
  lemma {:induction false} CostMapKeys(entries: Entries, gpu: GpuInfo)
    ensures CostMap(entries, gpu).Keys == Keys(entries)
    ensures PerThousandMap(entries, gpu).Keys == Keys(entries)
  {
    if entries != [] {
      CostMapKeys(entries[..|entries| - 1], gpu);
    }
  }

  lemma DistinctPrefix(entries: Entries)
    requires entries != [] && Distinct(Names(entries))
    ensures Distinct(Names(entries[..|entries| - 1]))
    ensures forall j :: 0 <= j < |entries| - 1 ==> entries[j].0 != entries[|entries| - 1].0
  {
  }

  /** With distinct names, each entry's name maps to its own cost and cost per 1000 tokens. */
  lemma {:induction false} CostMapLookup(entries: Entries, gpu: GpuInfo)
    requires Distinct(Names(entries))
    ensures forall j :: 0 <= j < |entries| ==>
              && entries[j].0 in CostMap(entries, gpu)
              && CostMap(entries, gpu)[entries[j].0] == Num(CategoryCost(entries[j].1, gpu))
    ensures forall j :: 0 <= j < |entries| ==>
              && entries[j].0 in PerThousandMap(entries, gpu)
              && PerThousandMap(entries, gpu)[entries[j].0] == Num(CostPerThousandTokens(entries[j].1, gpu))
  {
    if entries != [] {
      var n := |entries| - 1;
      var init := entries[..n];
      DistinctPrefix(entries);
      CostMapLookup(init, gpu);
      forall j | 0 <= j < n
        ensures entries[j] == init[j]
      {
      }
    }
  }

  /** `Object.values(costPerCategory).reduce((sum, cost) => sum + cost, 0)`. */
  method SumCategoryCosts(entries: Entries, costPerCategory: map<string, Num>, gpu: GpuInfo)
    returns (totalCost: real)
    requires forall k :: 0 <= k < |entries| ==>
               entries[k].0 in costPerCategory && costPerCategory[entries[k].0] == Num(CategoryCost(entries[k].1, gpu))
    ensures totalCost == TotalCost(entries, gpu)
  {
    totalCost := 0.0;
    for j := 0 to |entries|
      invariant totalCost == TotalCost(entries[..j], gpu)
    {
      assert entries[..j + 1][..j] == entries[..j];
      totalCost := totalCost + costPerCategory[entries[j].0].v;
    }
    assert entries[..|entries|] == entries;
  }

  /**
   * `calculateCosts`: walks the report's entries once, accumulating the
   * totals and filling the two per-category maps, then sums the per-category
   * costs into the total cost. The entries of a report object have distinct
   * names.
   */
  method CalculateCosts(entries: Entries, gpu: GpuInfo) returns (summary: CostSummary)
    requires Distinct(Names(entries))
    ensures summary.costPerCategory == CostMap(entries, gpu)
    ensures summary.costPerTokenCategory == PerThousandMap(entries, gpu)
    ensures summary.totalCost == Num(TotalCost(entries, gpu))
    ensures summary.totalDuration == Num(SumBy(entries, CategoryDuration))
    ensures summary.totalTokens == Num(SumBy(entries, ReportedTokens))
    ensures summary.inputTokens == Num(SumBy(entries, CategoryInputTokens))
    ensures summary.outputTokens == Num(SumBy(entries, CategoryOutputTokens))
    ensures summary.inputDuration == Num(SumBy(entries, InputDurationShare))
    ensures summary.outputDuration == Num(SumBy(entries, OutputDurationShare))
  {
    var costPerCategory: map<string, Num> := map[];
    var costPerTokenCategory: map<string, Num> := map[];
    var totalDuration, totalTokens, totalInputTokens, totalOutputTokens := 0.0, 0.0, 0.0, 0.0;
    var inputDuration, outputDuration := 0.0, 0.0;
    for j := 0 to |entries|
      invariant costPerCategory == CostMap(entries[..j], gpu)
      invariant costPerTokenCategory == PerThousandMap(entries[..j], gpu)
      invariant totalDuration == SumBy(entries[..j], CategoryDuration)
      invariant totalTokens == SumBy(entries[..j], ReportedTokens)
      invariant totalInputTokens == SumBy(entries[..j], CategoryInputTokens)
      invariant totalOutputTokens == SumBy(entries[..j], CategoryOutputTokens)
      invariant inputDuration == SumBy(entries[..j], InputDurationShare)
      invariant outputDuration == SumBy(entries[..j], OutputDurationShare)
    {
      var (category, data) := entries[j];
      assert entries[..j + 1][..j] == entries[..j];
      var categoryDuration, categoryInputTokens, categoryOutputTokens, categoryInputDuration,
          categoryOutputDuration, categoryCost, perThousand := MeasureCategory(data, gpu);
      totalDuration := totalDuration + categoryDuration;
      totalTokens := totalTokens + data.totalTokens as real;
      totalInputTokens := totalInputTokens + categoryInputTokens;
      totalOutputTokens := totalOutputTokens + categoryOutputTokens;
      inputDuration := inputDuration + categoryInputDuration;
      outputDuration := outputDuration + categoryOutputDuration;
      costPerCategory := costPerCategory[category := Num(categoryCost)];
      costPerTokenCategory := costPerTokenCategory[category := Num(perThousand)];
    }
    assert entries[..|entries|] == entries;
    CostMapLookup(entries, gpu);
    CostMapKeys(entries, gpu);
    var totalCost := SumCategoryCosts(entries, costPerCategory, gpu);
    summary := CostSummary(Num(totalCost), Num(totalDuration), Num(totalTokens), Num(totalInputTokens),
                           Num(totalOutputTokens), Num(inputDuration), Num(outputDuration),
                           costPerCategory, costPerTokenCategory);
  }

  /**
   * The token-ratio split of a category's duration: when the report's token
   * total is the sum of its input and output tokens, the two shares add up
   * to the whole duration, and to 0 when there are no tokens.
   */
  lemma CategorySplitAddsUp(rep: CategoryReport)
    requires ReportedTokens(rep) == CategoryInputTokens(rep) + CategoryOutputTokens(rep)
    ensures rep.totalTokens > 0 ==> InputDurationShare(rep) + OutputDurationShare(rep) == CategoryDuration(rep)
    ensures rep.totalTokens == 0 ==> InputDurationShare(rep) == 0.0 && OutputDurationShare(rep) == 0.0
  {
    SumOrZeroNonNegative(rep.results, InputOrZero);
    SumOrZeroNonNegative(rep.results, OutputOrZero);
    var d, i, o, t := CategoryDuration(rep), CategoryInputTokens(rep), CategoryOutputTokens(rep), TokensOrOne(rep);
    if rep.totalTokens > 0 {
      assert t == i + o && t > 0.0;
      SharesAddUp(d, i, o, t);
    }
  }

  /** Splitting d in the proportions i : o of a positive total t = i + o gives back d. */
  lemma SharesAddUp(d: real, i: real, o: real, t: real)
    requires t == i + o && t > 0.0
    ensures d * (i / t) + d * (o / t) == d
  {
    var a, b := i / t, o / t;
    assert a * t == i && b * t == o;
    assert (a + b - 1.0) * t == a * t + b * t - t;
    if a + b - 1.0 > 0.0 {
      MulPositive(a + b - 1.0, t);
    } else if a + b - 1.0 < 0.0 {
      MulPositive(1.0 - a - b, t);
    }
    assert d * a + d * b == d * (a + b);
  }

  /**
   * `calculateCosts` treats the stored durations as milliseconds: its
   * category cost is `calculateGPUCost` of their plain sum.
   */
  lemma CategoryCostReadsMilliseconds(rep: CategoryReport, gpu: GpuInfo)
    ensures CategoryCost(rep, gpu) == GpuCost(SumOrZero(rep.results, DurationOrZero), gpu)
  {
    var sum := SumOrZero(rep.results, DurationOrZero);
    assert sum / 1000.0 / 3600.0 == sum / MillisecondsPerHour;
  }

  /**
   * Failed results carry no duration and no token counts, so adding them to
   * a category changes neither its cost nor its token sums: absent fields
   * count as 0.
   */
  lemma FailedResultsCostNothing(rep: CategoryReport, failed: seq<TaskResult>, gpu: GpuInfo)
    requires forall k :: 0 <= k < |failed| ==>
               failed[k].duration.None? && failed[k].inputTokens.None? && failed[k].outputTokens.None?
    ensures var more := rep.(results := rep.results + failed);
            && CategoryDuration(more) == CategoryDuration(rep)
            && CategoryCost(more, gpu) == CategoryCost(rep, gpu)
            && CategoryInputTokens(more) == CategoryInputTokens(rep)
            && CategoryOutputTokens(more) == CategoryOutputTokens(rep)
  {
    SumOrZeroAppend(rep.results, failed, DurationOrZero);
    SumOrZeroAppend(rep.results, failed, InputOrZero);
    SumOrZeroAppend(rep.results, failed, OutputOrZero);
    SumOrZeroOfAbsent(failed);
  }

  lemma {:induction false} SumOrZeroOfAbsent(failed: seq<TaskResult>)
    requires forall k :: 0 <= k < |failed| ==>
               failed[k].duration.None? && failed[k].inputTokens.None? && failed[k].outputTokens.None?
    ensures SumOrZero(failed, DurationOrZero) == 0.0
    ensures SumOrZero(failed, InputOrZero) == 0.0
    ensures SumOrZero(failed, OutputOrZero) == 0.0
  {
    if failed != [] {
      SumOrZeroOfAbsent(failed[..|failed| - 1]);
    }
  }

  /** By linearity, the total cost is the GPU cost of all stored durations together. */
  lemma {:induction false} TotalCostIsCostOfAllDurations(entries: Entries, gpu: GpuInfo)
    ensures TotalCost(entries, gpu) == GpuCost(SumBy(entries, CategoryDuration) * 1000.0, gpu)
  {
    if entries == [] {
      GpuCostLinear(0.0, 0.0, gpu);
    } else {
      var init, last := entries[..|entries| - 1], entries[|entries| - 1].1;
      TotalCostIsCostOfAllDurations(init, gpu);
      CategoryCostReadsMilliseconds(last, gpu);
      GpuCostLinear(SumBy(init, CategoryDuration) * 1000.0, CategoryDuration(last) * 1000.0, gpu);
      assert SumBy(entries, CategoryDuration) * 1000.0
          == SumBy(init, CategoryDuration) * 1000.0 + CategoryDuration(last) * 1000.0;
    }
  }
}
