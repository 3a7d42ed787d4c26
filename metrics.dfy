/**
 * Per-category metrics (src/utils/index.ts, `calculateAccuracy` and
 * `calculateAverageTokensPerSecond`).
 */
module Metrics {
  import opened Types
  import opened Arith

  /** `results.filter(r => r.success)`. */
  function Successful(rs: seq<TaskResult>): (s: seq<TaskResult>)
    ensures |s| <= |rs|
    ensures forall k :: 0 <= k < |s| ==> s[k].success
  {
    if rs == [] then []
    else if rs[0].success then [rs[0]] + Successful(rs[1..])
    else Successful(rs[1..])
  }

  /** The filter keeps every successful result, as often as it occurs, and nothing else. */
  lemma {:induction false} SuccessfulIsFilter(rs: seq<TaskResult>)
    ensures forall x :: multiset(Successful(rs))[x] == if x.success then multiset(rs)[x] else 0
  {
    if rs != [] {
      SuccessfulIsFilter(rs[1..]);
      assert rs == [rs[0]] + rs[1..];
    }
  }

  /** Every result is kept exactly when all succeeded, and none exactly when none did. */
  lemma {:induction false} SuccessfulCounts(rs: seq<TaskResult>)
    ensures |Successful(rs)| == |rs| <==> (forall k :: 0 <= k < |rs| ==> rs[k].success)
    ensures |Successful(rs)| == 0 <==> (forall k :: 0 <= k < |rs| ==> !rs[k].success)
  {
    if rs != [] {
      SuccessfulCounts(rs[1..]);
      assert forall k :: 1 <= k < |rs| ==> rs[k] == rs[1..][k - 1];
    }
  }

  /**
   * The percentage of results flagged as successful. The source divides by
   * the number of results without a guard, so callers must pass a
   * non-empty list. The answer itself is never compared with the expected
   * one: only the `success` flag counts.
   */
  function Accuracy(rs: seq<TaskResult>): (a: real)
    requires |rs| > 0
    ensures 0.0 <= a <= 100.0
    ensures a == 100.0 <==> (forall k :: 0 <= k < |rs| ==> rs[k].success)
    ensures a == 0.0 <==> (forall k :: 0 <= k < |rs| ==> !rs[k].success)
  {
    var passed, total := |Successful(rs)| as real, |rs| as real;
    SuccessfulCounts(rs);
    PercentBounds(passed, total);
    (passed / total) * 100.0
  }

  /** A share of a positive whole, as a percentage, lies in [0, 100] and hits each end exactly at the ends. */
  lemma PercentBounds(part: real, whole: real)
    requires 0.0 <= part <= whole && whole > 0.0
    ensures 0.0 <= (part / whole) * 100.0 <= 100.0
    ensures (part / whole) * 100.0 == 100.0 <==> part == whole
    ensures (part / whole) * 100.0 == 0.0 <==> part == 0.0
  {
    var q := part / whole;
    assert q * whole == part;
    if q > 1.0 {
      MulPositive(q - 1.0, whole);
    }
    if q < 0.0 {
      MulPositive(0.0 - q, whole);
    }
  }

  /** The number of successes depends on the success flags and nothing else. */
  lemma {:induction false} SuccessCountByFlags(a: seq<TaskResult>, b: seq<TaskResult>)
    requires |a| == |b|
    requires forall k :: 0 <= k < |a| ==> a[k].success == b[k].success
    ensures |Successful(a)| == |Successful(b)|
  {
    if a != [] {
      SuccessCountByFlags(a[1..], b[1..]);
    }
  }

  /**
   * Two result lists with the same success flags have the same accuracy,
   * whatever answers they hold: accuracy does not check `actualAnswer`
   * against `expectedAnswer`.
   */
  lemma AccuracyIgnoresAnswers(a: seq<TaskResult>, b: seq<TaskResult>)
    requires |a| == |b| > 0
    requires forall k :: 0 <= k < |a| ==> a[k].success == b[k].success
    ensures Accuracy(a) == Accuracy(b)
  {
    SuccessCountByFlags(a, b);
  }

  /** Successes of a concatenation are the successes of each part. */
  lemma {:induction false} SuccessfulAppend(a: seq<TaskResult>, b: seq<TaskResult>)
    ensures Successful(a + b) == Successful(a) + Successful(b)
  {
    if a != [] {
      SuccessfulAppend(a[1..], b);
      assert (a + b)[0] == a[0] && (a + b)[1..] == a[1..] + b;
    } else {
      assert a + b == b;
    }
  }

  /** `results.filter(r => r.tokensPerSecond !== undefined)`. */
  function Rated(rs: seq<TaskResult>): (s: seq<TaskResult>)
    ensures |s| <= |rs|
    ensures forall k :: 0 <= k < |s| ==> s[k].tokensPerSecond.Some?
    ensures |s| == 0 <==> (forall k :: 0 <= k < |rs| ==> rs[k].tokensPerSecond.None?)
  {
    if rs == [] then []
    else if rs[0].tokensPerSecond.Some? then [rs[0]] + Rated(rs[1..])
    else Rated(rs[1..])
  }

  /** The filter keeps every rated result, as often as it occurs, and nothing else. */
  lemma {:induction false} RatedIsFilter(rs: seq<TaskResult>)
    ensures forall x :: multiset(Rated(rs))[x] == if x.tokensPerSecond.Some? then multiset(rs)[x] else 0
  {
    if rs != [] {
      RatedIsFilter(rs[1..]);
      assert rs == [rs[0]] + rs[1..];
    }
  }

  /** The value a result adds in the source's sum, `r.tokensPerSecond || 0`. */
  function RateOrZero(r: TaskResult): real
  {
    if r.tokensPerSecond.Some? then r.tokensPerSecond.value else 0.0
  }

  function SumRates(rs: seq<TaskResult>): real
  {
    if rs == [] then 0.0 else RateOrZero(rs[0]) + SumRates(rs[1..])
  }

  /** The mean rate over the results that have one; 0 when none has. */
  function AverageTokensPerSecond(rs: seq<TaskResult>): (avg: real)
    ensures (forall k :: 0 <= k < |rs| ==> rs[k].tokensPerSecond.None?) ==> avg == 0.0
  {
    var valid := Rated(rs);
    if |valid| == 0 then 0.0 else SumRates(valid) / |valid| as real
  }

  /** Filtering the rated results a second time changes nothing. */
  lemma {:induction false} RatedIdempotent(rs: seq<TaskResult>)
    ensures Rated(Rated(rs)) == Rated(rs)
  {
    if rs != [] {
      RatedIdempotent(rs[1..]);
      if rs[0].tokensPerSecond.Some? {
        assert ([rs[0]] + Rated(rs[1..]))[1..] == Rated(rs[1..]);
      }
    }
  }

  lemma {:induction false} RatedAppend(a: seq<TaskResult>, b: seq<TaskResult>)
    ensures Rated(a + b) == Rated(a) + Rated(b)
  {
    if a != [] {
      RatedAppend(a[1..], b);
      assert (a + b)[1..] == a[1..] + b;
    } else {
      assert a + b == b;
    }
  }

  /** Results without a rate do not move the average: it is the average of the rated ones. */
  lemma AverageOverRatedOnly(rs: seq<TaskResult>)
    ensures AverageTokensPerSecond(rs) == AverageTokensPerSecond(Rated(rs))
  {
    RatedIdempotent(rs);
  }

  /** Appending a result without a rate leaves the average unchanged. */
  lemma AverageIgnoresUnrated(rs: seq<TaskResult>, u: TaskResult)
    requires u.tokensPerSecond.None?
    ensures AverageTokensPerSecond(rs + [u]) == AverageTokensPerSecond(rs)
  {
    RatedAppend(rs, [u]);
    assert Rated([u]) == [];
    assert Rated(rs) + [] == Rated(rs);
  }

  /** Bounds on every rate bound the sum. */
  lemma {:induction false} SumRatesBounds(rs: seq<TaskResult>, lo: real, hi: real)
    requires forall k :: 0 <= k < |rs| ==> lo <= RateOrZero(rs[k]) <= hi
    ensures lo * |rs| as real <= SumRates(rs) <= hi * |rs| as real
  {
    if rs != [] {
      SumRatesBounds(rs[1..], lo, hi);
      assert lo * |rs| as real == lo + lo * |rs[1..]| as real;
      assert hi * |rs| as real == hi + hi * |rs[1..]| as real;
    }
  }

  lemma {:induction false} RatedElements(rs: seq<TaskResult>, k: nat)
    requires k < |Rated(rs)|
    ensures Rated(rs)[k] in rs
  {
    if rs != [] {
      if rs[0].tokensPerSecond.Some? {
        if k > 0 {
          RatedElements(rs[1..], k - 1);
        }
      } else {
        RatedElements(rs[1..], k);
      }
    }
  }

  /**
   * The average is a mean: when every defined rate lies in [lo, hi] and at
   * least one is defined, the average lies in [lo, hi] too.
   */
  lemma AverageWithinRateBounds(rs: seq<TaskResult>, lo: real, hi: real)
    requires forall k :: 0 <= k < |rs| && rs[k].tokensPerSecond.Some? ==>
               lo <= rs[k].tokensPerSecond.value <= hi
    requires exists k :: 0 <= k < |rs| && rs[k].tokensPerSecond.Some?
    ensures lo <= AverageTokensPerSecond(rs) <= hi
  {
    var valid := Rated(rs);
    forall k | 0 <= k < |valid|
      ensures lo <= RateOrZero(valid[k]) <= hi
    {
      RatedElements(rs, k);
    }
    SumRatesBounds(valid, lo, hi);
    var n := |valid| as real;
    assert n > 0.0;
    assert lo * n <= SumRates(valid) <= hi * n;
    assert lo <= SumRates(valid) / n <= hi by {
      DivideBounds(SumRates(valid), n, lo, hi);
    }
  }

  lemma DivideBounds(s: real, n: real, lo: real, hi: real)
    requires n > 0.0 && lo * n <= s <= hi * n
    ensures lo <= s / n <= hi
  {
    assert s / n * n == s;
  }
}
