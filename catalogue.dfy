/**
 * The default task catalogue (src/utils/index.ts, `defaultTasks`): five
 * categories of thirty generated tasks each, plus the decimal rendering of
 * numbers that the generators use for questions and answers.
 */
module Catalogue {
  import opened Types

  const TasksPerCategory: nat := 30

  /** The category names, in the order the catalogue declares them. */
  const DefaultCategories: seq<string> := ["math", "logic", "qa", "code", "text"]

  // ---------------------------------------------------------------------------
  // Decimal rendering of natural numbers (`toString()` and template literals)
  // ---------------------------------------------------------------------------

  predicate IsDigit(c: char)
  {
    '0' <= c <= '9'
  }

  predicate AllDigits(s: string)
  {
    forall k :: 0 <= k < |s| ==> IsDigit(s[k])
  }

  function DigitChar(d: nat): (c: char)
    requires d < 10
    ensures IsDigit(c) && c as int - '0' as int == d
  {
    ('0' as int + d) as char
  }

  /** The shortest decimal numeral of `n`, as JavaScript prints a non-negative integer. */
  function NatToString(n: nat): (s: string)
    ensures |s| >= 1 && AllDigits(s)
    ensures |s| > 1 ==> s[0] != '0'
    decreases n
  {
    if n < 10 then [DigitChar(n)] else NatToString(n / 10) + [DigitChar(n % 10)]
  }

  /** The number a string of decimal digits denotes; the partner of `NatToString`. */
  function DecimalValue(s: string): nat
    requires AllDigits(s)
  {
    if s == [] then 0
    else DecimalValue(s[..|s| - 1]) * 10 + (s[|s| - 1] as int - '0' as int)
  }

  /** Reading back a rendered number gives the number. */
  lemma {:induction false} DecimalRoundTrip(n: nat)
    ensures DecimalValue(NatToString(n)) == n
    decreases n
  {
    var s := NatToString(n);
    if n >= 10 {
      DecimalRoundTrip(n / 10);
      assert s[..|s| - 1] == NatToString(n / 10);
    }
  }

  /** Distinct numbers render differently, so generated answers never collide. */
  lemma NatToStringInjective(m: nat, n: nat)
    requires NatToString(m) == NatToString(n)
    ensures m == n
  {
    DecimalRoundTrip(m);
    DecimalRoundTrip(n);
  }

  // ---------------------------------------------------------------------------
  // Square roots rendered with two decimals (`Math.sqrt(n).toFixed(2)`)
  // ---------------------------------------------------------------------------

  /**
   * Searches upward from `k` for the hundredths `h` nearest to the square
   * root of `n`: the first `h` with 100·√n < h + 1/2, written without roots
   * as 40000·n < (2h+1)².
   */
  function CentiSqrtFrom(n: nat, k: nat): (h: nat)
    requires k == 0 || (2 * k - 1) * (2 * k - 1) <= 40000 * n
    ensures k <= h
    ensures h == 0 || (2 * h - 1) * (2 * h - 1) <= 40000 * n
    ensures 40000 * n < (2 * h + 1) * (2 * h + 1)
    decreases 40000 * n + 1 - k
  {
    if 40000 * n < (2 * k + 1) * (2 * k + 1) then k
    else
      assert (2 * k + 1) * (2 * k + 1) >= 2 * k + 1 by { SquareAtLeast(2 * k + 1); }
      CentiSqrtFrom(n, k + 1)
  }

  lemma SquareAtLeast(x: nat)
    requires x >= 1
    ensures x * x >= x
  {
    assert x * x == x * (x - 1) + x;
  }

  /** `√n` rounded to the nearest hundredth, counted in hundredths. */
  function CentiSqrt(n: nat): (h: nat)
    ensures h == 0 || (2 * h - 1) * (2 * h - 1) <= 40000 * n
    ensures 40000 * n < (2 * h + 1) * (2 * h + 1)
  {
    CentiSqrtFrom(n, 0)
  }

  /**
   * A count of hundredths printed with exactly two decimals, as `toFixed(2)`
   * prints: an integer part, a point, two digits, and the digits without the
   * point denote the count.
   */
  function FixedTwo(h: nat): (s: string)
    ensures |s| >= 4 && s[|s| - 3] == '.'
    ensures AllDigits(s[..|s| - 3]) && IsDigit(s[|s| - 2]) && IsDigit(s[|s| - 1])
    ensures |s| > 4 ==> s[0] != '0'
    ensures DecimalValue(s[..|s| - 3] + s[|s| - 2..]) == h
  {
    var whole := NatToString(h / 100);
    var tens, units := DigitChar(h % 100 / 10), DigitChar(h % 10);
    var s := whole + "." + [tens, units];
    assert s[..|s| - 3] == whole && s[|s| - 2..] == [tens, units];
    DecimalRoundTrip(h / 100);
    DecimalValueTwoMore(whole, tens, units);
    assert h % 100 == (h % 100 / 10) * 10 + h % 10;
    s
  }

  /** Appending two digits to a numeral multiplies its value by 100 and adds them. */
  lemma DecimalValueTwoMore(a: string, d1: char, d2: char)
    requires AllDigits(a) && IsDigit(d1) && IsDigit(d2)
    ensures AllDigits(a + [d1, d2])
    ensures DecimalValue(a + [d1, d2]) == DecimalValue(a) * 100 + (d1 as int - '0' as int) * 10 + (d2 as int - '0' as int)
  {
    var s := a + [d1, d2];
    assert s[..|s| - 1] == a + [d1];
    assert (a + [d1])[..|a|] == a;
  }

  // ---------------------------------------------------------------------------
  // The five generators (task i, for i in 0..29)
  // ---------------------------------------------------------------------------

  function MathTask(i: nat): Task
  {
    Task("计算 " + NatToString(i + 1) + " 的平方根，保留两位小数", FixedTwo(CentiSqrt(i + 1)))
  }

  function LogicTask(i: nat): Task
  {
    Task("如果 A = " + NatToString(i + 1) + ", B = " + NatToString(i + 2) + ", 那么 A + B 等于多少？",
         NatToString(i + 1 + i + 2))
  }

  function QaTask(i: nat): Task
    requires i < TasksPerCategory
  {
    Task("第 " + NatToString(i + 1) + " 个字母是什么？", [(65 + i) as char])
  }

  const FactorialSource: string := "function factorial(n) { return n <= 1 ? 1 : n * factorial(n-1); }"

  function CodeTask(i: nat): Task
  {
    Task("写一个函数计算 " + NatToString(i + 1) + " 的阶乘", FactorialSource)
  }

  function TextTask(i: nat): Task
  {
    Task("用一句话描述数字 " + NatToString(i + 1), "这是一个" + NatToString(i + 1))
  }

  function MathTasks(): (ts: seq<Task>)
    ensures |ts| == TasksPerCategory
    ensures forall i :: 0 <= i < |ts| ==> ts[i].answer == FixedTwo(CentiSqrt(i + 1))
  {
    seq(TasksPerCategory, i requires 0 <= i < TasksPerCategory => MathTask(i))
  }

  function LogicTasks(): (ts: seq<Task>)
    ensures |ts| == TasksPerCategory
    ensures forall i :: 0 <= i < |ts| ==> ts[i].answer == NatToString(2 * i + 3)
  {
    seq(TasksPerCategory, i requires 0 <= i < TasksPerCategory => LogicTask(i))
  }

  function QaTasks(): (ts: seq<Task>)
    ensures |ts| == TasksPerCategory
    ensures forall i :: 0 <= i < |ts| ==> ts[i].answer == [(65 + i) as char]
  {
    seq(TasksPerCategory, i requires 0 <= i < TasksPerCategory => QaTask(i))
  }

  function CodeTasks(): (ts: seq<Task>)
    ensures |ts| == TasksPerCategory
    ensures forall i :: 0 <= i < |ts| ==> ts[i].answer == FactorialSource
  {
    seq(TasksPerCategory, i requires 0 <= i < TasksPerCategory => CodeTask(i))
  }

  function TextTasks(): (ts: seq<Task>)
    ensures |ts| == TasksPerCategory
    ensures forall i :: 0 <= i < |ts| ==> ts[i].answer == "这是一个" + NatToString(i + 1)
  {
    seq(TasksPerCategory, i requires 0 <= i < TasksPerCategory => TextTask(i))
  }

  /**
   * The catalogue lookup `defaultTasks[category] || []`: the generated list
   * of a default category, and the empty list for any other name.
   */
  function DefaultTasksOf(category: string): (ts: seq<Task>)
    ensures category in DefaultCategories <==> ts != []
    ensures category in DefaultCategories ==> |ts| == TasksPerCategory
  {
    match category
    case "math" => MathTasks()
    case "logic" => LogicTasks()
    case "qa" => QaTasks()
    case "code" => CodeTasks()
    case "text" => TextTasks()
    case _ => []
  }

  /** Two logic tasks share an answer only when they are the same task. */
  lemma LogicAnswersDistinct(i: nat, j: nat)
    requires i < TasksPerCategory && j < TasksPerCategory
    requires LogicTasks()[i].answer == LogicTasks()[j].answer
    ensures i == j
  {
    NatToStringInjective(2 * i + 3, 2 * j + 3);
  }

  /** The expected answer of logic task i, read back as a number, is 2i+3. */
  lemma LogicAnswerValue(i: nat)
    requires i < TasksPerCategory
    ensures DecimalValue(LogicTasks()[i].answer) == 2 * i + 3
  {
    DecimalRoundTrip(2 * i + 3);
  }

  /**
   * The "i-th letter" answers are upper-case Latin letters only for the first
   * 26 tasks; tasks 26 to 29 expect '[', '\', ']' and '^'.
   */
  lemma QaAnswerIsLetterIff(i: nat)
    requires i < TasksPerCategory
    ensures ('A' <= QaTasks()[i].answer[0] <= 'Z') <==> i < 26
  {
  }
}
