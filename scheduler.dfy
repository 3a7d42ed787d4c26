/**
 * The batch scheduler (src/utils/index.ts, `executeTasksConcurrently`): the
 * task list is cut into contiguous batches of `concurrency` tasks, each
 * batch is executed, and the batch results are appended in order.
 *
 * Executing one task is the function `exec`, standing for `executeTask`
 * with the run's endpoint, credential and model name fixed. The tasks of a
 * batch run concurrently in the source; a batch's results come back in the
 * order of its tasks, which is what mapping `exec` over the batch gives.
 */
module Scheduler {
  import opened Types

  function Min(a: int, b: int): int
  {
    if a <= b then a else b
  }

  /** `batch.map(exec)`: one result per task, in task order. */
  function MapExec(exec: Task -> TaskResult, batch: seq<Task>): (rs: seq<TaskResult>)
    ensures |rs| == |batch|
    ensures forall k :: 0 <= k < |batch| ==> rs[k] == exec(batch[k])
  {
    seq(|batch|, k requires 0 <= k < |batch| => exec(batch[k]))
  }

  /** The batches the loop visits from offset `i` on: `tasks[i .. i+c]`, `tasks[i+c .. i+2c]`, ... */
  function BatchesFrom(tasks: seq<Task>, c: nat, i: nat): seq<seq<Task>>
    requires c >= 1
    decreases |tasks| - i
  {
    if i >= |tasks| then []
    else [tasks[i .. Min(i + c, |tasks|)]] + BatchesFrom(tasks, c, i + c)
  }

  function Batches(tasks: seq<Task>, c: nat): seq<seq<Task>>
    requires c >= 1
  {
    BatchesFrom(tasks, c, 0)
  }

  function Flatten(bs: seq<seq<Task>>): seq<Task>
  {
    if bs == [] then [] else bs[0] + Flatten(bs[1..])
  }

  /** The results of running the batches one after the other. */
  function RunBatches(exec: Task -> TaskResult, bs: seq<seq<Task>>): seq<TaskResult>
  {
    if bs == [] then [] else MapExec(exec, bs[0]) + RunBatches(exec, bs[1..])
  }

  /** Batches from offset i put back together are the tasks from i on. */
  lemma {:induction false} FlattenBatchesFrom(tasks: seq<Task>, c: nat, i: nat)
    requires c >= 1 && i <= |tasks|
    ensures Flatten(BatchesFrom(tasks, c, i)) == tasks[i..]
    decreases |tasks| - i
  {
    var bs := BatchesFrom(tasks, c, i);
    if i < |tasks| {
      var j := Min(i + c, |tasks|);
      assert bs[1..] == BatchesFrom(tasks, c, i + c);
      if i + c <= |tasks| {
        FlattenBatchesFrom(tasks, c, i + c);
      } else {
        assert BatchesFrom(tasks, c, i + c) == [];
      }
      assert tasks[i..] == tasks[i..j] + tasks[j..];
    }
  }

  /** Running batches from offset i is running every task from i on, in order. */
  lemma {:induction false} RunBatchesFromIsMap(exec: Task -> TaskResult, tasks: seq<Task>, c: nat, i: nat)
    requires c >= 1 && i <= |tasks|
    ensures RunBatches(exec, BatchesFrom(tasks, c, i)) == MapExec(exec, tasks[i..])
    decreases |tasks| - i
  {
    var bs := BatchesFrom(tasks, c, i);
    if i < |tasks| {
      var j := Min(i + c, |tasks|);
      assert bs[1..] == BatchesFrom(tasks, c, i + c);
      if i + c <= |tasks| {
        RunBatchesFromIsMap(exec, tasks, c, i + c);
      } else {
        assert BatchesFrom(tasks, c, i + c) == [];
      }
      assert MapExec(exec, tasks[i..]) == MapExec(exec, tasks[i..j]) + MapExec(exec, tasks[j..]);
    }
  }

  /** From offset i there are ⌈(n − i)/c⌉ batches. */
  lemma {:induction false} BatchCount(tasks: seq<Task>, c: nat, i: nat)
    requires c >= 1 && i <= |tasks|
    ensures |BatchesFrom(tasks, c, i)| == (|tasks| - i + c - 1) / c
    decreases |tasks| - i
  {
    var n := |tasks|;
    if i < n {
      assert |BatchesFrom(tasks, c, i)| == 1 + |BatchesFrom(tasks, c, i + c)|;
      if i + c <= n {
        BatchCount(tasks, c, i + c);
        DivPlusOne(n - i - 1, c);
      } else {
        DivOfRange(n - i + c - 1, c);
      }
    } else {
      DivOfRange(n - i + c - 1, c);
    }
  }

  /** Every batch is non-empty, and all but the last hold exactly c tasks. */
  lemma {:induction false} BatchSizes(tasks: seq<Task>, c: nat, i: nat)
    requires c >= 1
    ensures forall k :: 0 <= k < |BatchesFrom(tasks, c, i)| ==> |BatchesFrom(tasks, c, i)[k]| >= 1
    ensures forall k :: 0 <= k < |BatchesFrom(tasks, c, i)| - 1 ==> |BatchesFrom(tasks, c, i)[k]| == c
    decreases |tasks| - i
  {
    var bs := BatchesFrom(tasks, c, i);
    if i < |tasks| {
      var rest := BatchesFrom(tasks, c, i + c);
      BatchSizes(tasks, c, i + c);
      assert forall k :: 1 <= k < |bs| ==> bs[k] == rest[k - 1];
      if rest != [] {
        assert i + c < |tasks|;
      }
    }
  }

  /** The k-th batch from offset i is the slice starting at i + k·c. */
  lemma {:induction false} BatchAt(tasks: seq<Task>, c: nat, i: nat, k: nat)
    requires c >= 1 && k < |BatchesFrom(tasks, c, i)|
    ensures i + k * c < |tasks|
    ensures BatchesFrom(tasks, c, i)[k] == tasks[i + k * c .. Min(i + k * c + c, |tasks|)]
    decreases k
  {
    if k > 0 {
      BatchAt(tasks, c, i + c, k - 1);
      assert (i + c) + (k - 1) * c == i + k * c by {
        assert (k - 1) * c == k * c - c;
      }
    }
  }

  /** Euclidean quotient: the q with x = q·c + r and 0 ≤ r < c. */
  lemma DivUnique(x: int, c: int, q: int, r: int)
    requires c >= 1 && x == q * c + r && 0 <= r < c
    ensures x / c == q
  {
    var d := x / c - q;
    assert d * c == r - x % c by {
      assert x == (x / c) * c + x % c;
      assert (x / c) * c - q * c == d * c;
    }
    if d >= 1 {
      MulAtLeast(d, c);
    } else if d <= -1 {
      MulAtLeast(-d, c);
    }
  }

  lemma MulAtLeast(a: int, c: int)
    requires a >= 1 && c >= 1
    ensures a * c >= c
  {
    assert a * c == (a - 1) * c + c;
    assert (a - 1) * c >= 0;
  }

  lemma DivPlusOne(x: int, c: int)
    requires c >= 1 && x >= 0
    ensures (x + c) / c == x / c + 1
  {
    var q, r := x / c, x % c;
    assert x + c == (q + 1) * c + r;
    DivUnique(x + c, c, q + 1, r);
  }

  lemma DivOfRange(x: int, c: int)
    requires c >= 1 && 0 <= x < 2 * c
    ensures x / c == (if x < c then 0 else 1)
  {
    if x < c {
      DivUnique(x, c, 0, x);
    } else {
      DivUnique(x, c, 1, x - c);
    }
  }

  /**
   * Runs the tasks batch by batch and appends each batch's results. The
   * results are exactly one per task, in task order: batching never drops,
   * duplicates or reorders a result.
   */
  method ExecuteTasksConcurrently(tasks: seq<Task>, concurrency: nat, exec: Task -> TaskResult)
    returns (results: seq<TaskResult>)
    requires concurrency >= 1
    ensures results == RunBatches(exec, Batches(tasks, concurrency))
    ensures |results| == |tasks|
    ensures forall j :: 0 <= j < |tasks| ==> results[j] == exec(tasks[j])
  {
    results := [];
    var i: nat := 0;
    while i < |tasks|
      invariant results + RunBatches(exec, BatchesFrom(tasks, concurrency, i)) == RunBatches(exec, Batches(tasks, concurrency))
      decreases |tasks| - i
    {
      var batch := tasks[i .. Min(i + concurrency, |tasks|)];
      var batchResults := MapExec(exec, batch);
      ghost var later := RunBatches(exec, BatchesFrom(tasks, concurrency, i + concurrency));
      assert RunBatches(exec, BatchesFrom(tasks, concurrency, i)) == batchResults + later by {
        assert BatchesFrom(tasks, concurrency, i)[1..] == BatchesFrom(tasks, concurrency, i + concurrency);
      }
      assert results + (batchResults + later) == (results + batchResults) + later;
      results := results + batchResults;
      i := i + concurrency;
    }
    RunBatchesFromIsMap(exec, tasks, concurrency, 0);
    assert tasks[0..] == tasks;
  }

  /** Ten tasks three at a time: four batches, of sizes 3, 3, 3 and 1. */
  lemma TenTasksThreeWide(tasks: seq<Task>)
    requires |tasks| == 10
    ensures |Batches(tasks, 3)| == 4
    ensures |Batches(tasks, 3)[0]| == 3 && |Batches(tasks, 3)[1]| == 3
    ensures |Batches(tasks, 3)[2]| == 3 && |Batches(tasks, 3)[3]| == 1
  {
    BatchCount(tasks, 3, 0);
    BatchSizes(tasks, 3, 0);
    BatchAt(tasks, 3, 0, 3);
  }
}
