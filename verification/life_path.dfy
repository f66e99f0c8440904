/**
 * The numerology life-path number: year + month + day, then repeated
 * base-10 digit sums until the value is a single digit or one of the
 * master numbers 11, 22 and 33; and the human-readable trace of that
 * reduction shown next to the result.
 */
module LifePath {
  import opened Wrappers
  import opened Text

  /** The loop of the reduction stops on these values. */
  predicate IsFinal(n: int)
  {
    n <= 9 || n == 11 || n == 22 || n == 33
  }

  /** The numbers a life path can be: 1..9 and the master numbers. */
  predicate IsLifePathNumber(n: int)
  {
    1 <= n <= 9 || n == 11 || n == 22 || n == 33
  }

  /** Sum of the decimal digits of `n`: below `n` from 10 on, positive when `n` is. */
  function DigitSum(n: nat): (r: nat)
    ensures n >= 10 ==> r < n
    ensures n >= 1 ==> r >= 1
  {
    DigitSumBound(n);
    Sum(DigitsOf(n))
  }

  /** The value the reduction loop ends on when it starts from `n`. */
  function Reduce(n: int): (r: int)
    ensures IsFinal(r)
    ensures n >= 1 ==> IsLifePathNumber(r)
    ensures IsFinal(n) ==> r == n
    decreases if n < 0 then 0 else n
  {
    if IsFinal(n) then n else Reduce(DigitSum(n))
  }

  /** One line of the trace: the operands that were added and their total. */
  datatype Step = Step(operands: seq<int>, total: int)

  /** The digit-sum steps the reduction loop performs from `n`, in order. */
  function ReductionTrace(n: int): (steps: seq<Step>)
    ensures |steps| == 0 <==> IsFinal(n)
    decreases if n < 0 then 0 else n
  {
    if IsFinal(n) then [] else [Step(DigitsOf(n), DigitSum(n))] + ReductionTrace(DigitSum(n))
  }

  /** The full trace of a date: the raw addition of year, month and day, then the reduction. */
  function CalculationTrace(year: int, month: int, day: int): (steps: seq<Step>)
    ensures |steps| >= 1 && steps[0] == Step([year, month, day], year + month + day)
  {
    [Step([year, month, day], year + month + day)] + ReductionTrace(year + month + day)
  }

  /** "a + b + c = total", as the template literals of the source print a step. */
  function RenderStep(s: Step): string
  {
    Join(OperandTexts(s.operands), " + ") + " = " + IntToString(s.total)
  }

  /** `digits.join(' + ')` and the first line print each operand with `toString`. */
  function OperandTexts(operands: seq<int>): (texts: seq<string>)
    ensures |texts| == |operands|
    ensures forall i :: 0 <= i < |operands| ==> texts[i] == IntToString(operands[i])
  {
    seq(|operands|, i requires 0 <= i < |operands| => IntToString(operands[i]))
  }

  function RenderSteps(steps: seq<Step>): (lines: seq<string>)
    ensures |lines| == |steps|
    ensures forall i :: 0 <= i < |steps| ==> lines[i] == RenderStep(steps[i])
  {
    seq(|steps|, i requires 0 <= i < |steps| => RenderStep(steps[i]))
  }

  // ---- the loops of the source ----

  /** `n.toString().split('').reduce((a, b) => parseInt(a) + parseInt(b), 0)` for a positive n. */
  method DigitSumOfText(n: nat) returns (total: nat)
    ensures total == DigitSum(n)
  {
    var text := DecimalString(n);
    DecimalStringIsDigits(n);
    ghost var ds := DigitsOf(n);
    total := 0;
    for i := 0 to |text|
      invariant total == Sum(ds[..i])
    {
      assert ds[..i + 1][..i] == ds[..i];
      total := total + CharDigit(text[i]);
    }
    assert ds[..|text|] == ds;
  }

  /** `calculateLifePathNumber`: the number the reduction loop returns for a birth date. */
  method CalculateLifePathNumber(year: int, month: int, day: int) returns (lifePath: int)
    ensures lifePath == Reduce(year + month + day)
    ensures year + month + day >= 1 ==> IsLifePathNumber(lifePath)
  {
    var sum := year + month + day;
    while sum > 9 && sum != 11 && sum != 22 && sum != 33
      invariant Reduce(sum) == Reduce(year + month + day)
      decreases if sum < 0 then 0 else sum
    {
      sum := DigitSumOfText(sum);
    }
    lifePath := sum;
  }

  /** `getCalculationSteps`: the addition line followed by one line per digit-sum iteration. */
  method GetCalculationSteps(year: int, month: int, day: int) returns (steps: seq<string>)
    ensures steps == RenderSteps(CalculationTrace(year, month, day))
  {
    var sum := year + month + day;
    steps := [AdditionLine(year, month, day)];
    FirstLine(year, month, day);
    var currentSum := sum;
    while currentSum > 9 && currentSum != 11 && currentSum != 22 && currentSum != 33
      invariant steps + RenderSteps(ReductionTrace(currentSum)) == RenderSteps(CalculationTrace(year, month, day))
      decreases if currentSum < 0 then 0 else currentSum
    {
      var digits := DigitsOf(currentSum);
      var newSum := DigitSumOfText(currentSum);
      ReductionStepKeeps(steps, currentSum, RenderSteps(CalculationTrace(year, month, day)));
      steps := steps + [RenderStep(Step(digits, newSum))];
      currentSum := newSum;
    }
  }

  /** The first line, `${year} + ${month} + ${day} = ${sum}`. */
  function AdditionLine(year: int, month: int, day: int): string
  {
    IntToString(year) + " + " + IntToString(month) + " + " + IntToString(day) + " = " + IntToString(year + month + day)
  }

  lemma FirstLine(year: int, month: int, day: int)
    ensures [AdditionLine(year, month, day)] + RenderSteps(ReductionTrace(year + month + day))
      == RenderSteps(CalculationTrace(year, month, day))
  {
    assert OperandTexts([year, month, day]) == [IntToString(year), IntToString(month), IntToString(day)];
    JoinThree(IntToString(year), IntToString(month), IntToString(day), " + ");
    RenderStepsCons(Step([year, month, day], year + month + day), ReductionTrace(year + month + day));
  }

  lemma ReductionLine(n: int)
    requires !IsFinal(n)
    ensures RenderSteps(ReductionTrace(n))
      == [RenderStep(Step(DigitsOf(n), DigitSum(n)))] + RenderSteps(ReductionTrace(DigitSum(n)))
  {
    RenderStepsCons(Step(DigitsOf(n), DigitSum(n)), ReductionTrace(DigitSum(n)));
  }

  /** One pass of a digit-sum loop keeps "lines so far + lines still to come" fixed. */
  lemma ReductionStepKeeps(lines: seq<string>, n: int, whole: seq<string>)
    requires !IsFinal(n)
    requires lines + RenderSteps(ReductionTrace(n)) == whole
    ensures (lines + [RenderStep(Step(DigitsOf(n), DigitSum(n)))]) + RenderSteps(ReductionTrace(DigitSum(n))) == whole
  {
    ReductionLine(n);
    AppendRegroups(lines, [RenderStep(Step(DigitsOf(n), DigitSum(n)))], RenderSteps(ReductionTrace(DigitSum(n))));
  }

  lemma AppendRegroups(a: seq<string>, b: seq<string>, c: seq<string>)
    ensures a + (b + c) == (a + b) + c
  {
  }

  lemma RenderStepsCons(s: Step, rest: seq<Step>)
    ensures RenderSteps([s] + rest) == [RenderStep(s)] + RenderSteps(rest)
  {
    var steps := [s] + rest;
    var a, b := RenderSteps(steps), [RenderStep(s)] + RenderSteps(rest);
    forall i | 0 <= i < |a| ensures a[i] == b[i] {
      if i > 0 {
        assert steps[i] == rest[i - 1];
      }
    }
  }

  // ---- properties of the reduction and its trace ----

  /** The trace of `n` ends on the reduced value; an empty trace means `n` was already final. */
  lemma {:induction false} TraceEndsOnReduce(n: int)
    ensures |ReductionTrace(n)| == 0 <==> IsFinal(n)
    ensures |ReductionTrace(n)| > 0 ==> Last(ReductionTrace(n)).total == Reduce(n)
    decreases if n < 0 then 0 else n
  {
    if !IsFinal(n) {
      DigitSumBound(n);
      TraceEndsOnReduce(DigitSum(n));
    }
  }

  /** Unfolds one step of the trace. */
  lemma TraceCons(n: int)
    requires !IsFinal(n)
    ensures n >= 10 && 0 <= DigitSum(n) < n
    ensures ReductionTrace(n) == [Step(DigitsOf(n), DigitSum(n))] + ReductionTrace(DigitSum(n))
  {
  }

  /** Every line of the reduction trace is a true addition of the digits of the previous total. */
  lemma {:induction false} TraceLinesAreDigitSums(n: int)
    ensures forall i :: 0 <= i < |ReductionTrace(n)| ==>
      Sum(ReductionTrace(n)[i].operands) == ReductionTrace(n)[i].total
    ensures |ReductionTrace(n)| > 0 ==> n >= 10 && ReductionTrace(n)[0].operands == DigitsOf(n)
    ensures forall i :: 0 <= i < |ReductionTrace(n)| - 1 ==>
      ReductionTrace(n)[i].total >= 10 && ReductionTrace(n)[i + 1].operands == DigitsOf(ReductionTrace(n)[i].total)
    decreases if n < 0 then 0 else n
  {
    if !IsFinal(n) {
      TraceCons(n);
      var m := DigitSum(n);
      TraceLinesAreDigitSums(m);
      var t, u := ReductionTrace(n), ReductionTrace(m);
      assert t == [Step(DigitsOf(n), m)] + u;
      forall i | 0 <= i < |t| ensures Sum(t[i].operands) == t[i].total {
        if i > 0 {
          assert t[i] == u[i - 1];
        }
      }
      forall i | 0 <= i < |t| - 1 ensures t[i].total >= 10 && t[i + 1].operands == DigitsOf(t[i].total) {
        assert t[i + 1] == u[i];
        if i > 0 {
          assert t[i] == u[i - 1];
        }
      }
    }
  }

  /** The calculation trace of a date starts with the raw addition and ends on the life-path number. */
  lemma CalculationTraceEnds(year: int, month: int, day: int)
    ensures CalculationTrace(year, month, day)[0] == Step([year, month, day], year + month + day)
    ensures |CalculationTrace(year, month, day)| == 1 + |ReductionTrace(year + month + day)|
    ensures Last(CalculationTrace(year, month, day)).total == Reduce(year + month + day)
  {
    TraceEndsOnReduce(year + month + day);
  }

  /** The trace shows a reduction line exactly when the raw sum is not yet final. */
  lemma ReductionShownIffNotFinal(year: int, month: int, day: int)
    ensures |CalculationTrace(year, month, day)| > 1 <==> !IsFinal(year + month + day)
  {
    TraceEndsOnReduce(year + month + day);
  }

  /** The characters a rendered step consists of: digits, '-', '+', ' ', '='. */
  lemma IntTextHasNoEquals(i: int)
    ensures '=' !in IntToString(i)
  {
    if i < 0 {
      assert IntToString(i) == "-" + DecimalString(-i);
    }
  }

  /**
   * The number printed after the '=' of the last calculation line reads back
   * as the life-path number of the same date.
   */
  lemma LastLineShowsLifePath(year: int, month: int, day: int)
    ensures var lines := RenderSteps(CalculationTrace(year, month, day));
      |lines| >= 1 &&
      var after := Last(Split(Last(lines), '='));
      |after| >= 1 && after[0] == ' ' && ParseInt(after[1..]) == Some(Reduce(year + month + day))
  {
    var trace := CalculationTrace(year, month, day);
    CalculationTraceEnds(year, month, day);
    var s := Last(trace);
    assert Last(RenderSteps(trace)) == RenderStep(s);
    RenderStepSplitsOnEquals(s);
    var right := " " + IntToString(s.total);
    assert right[1..] == IntToString(s.total);
    ParseIntToString(s.total);
  }

  /** A rendered step splits on '=' into the operands and the total, each with its space. */
  lemma RenderStepSplitsOnEquals(s: Step)
    ensures Split(RenderStep(s), '=') == [Join(OperandTexts(s.operands), " + ") + " ", " " + IntToString(s.total)]
  {
    var parts := OperandTexts(s.operands);
    forall i | 0 <= i < |parts| ensures '=' !in parts[i] {
      IntTextHasNoEquals(s.operands[i]);
    }
    JoinAvoids(parts, " + ", '=');
    var left := Join(parts, " + ") + " ";
    var right := " " + IntToString(s.total);
    IntTextHasNoEquals(s.total);
    assert '=' !in right;
    assert [left, right][1..] == [right];
    assert Join([left, right], ['=']) == left + ['='] + right;
    assert RenderStep(s) == left + ['='] + right;
    SplitJoin([left, right], '=');
  }

  /** Example: 1990-12-25 adds up to 2027, whose digits give the master number 11. */
  lemma ExampleMasterNumber()
    ensures ReductionTrace(1990 + 12 + 25) == [Step([2, 0, 2, 7], 11)]
    ensures Reduce(1990 + 12 + 25) == 11
  {
    assert DigitsOf(2027) == [2, 0, 2, 7];
    SumOfFourDigits(2, 0, 2, 7);
  }

  /** Example: 2000-01-01 adds up to 2002, whose digits give 4. */
  lemma ExampleSingleDigit()
    ensures Reduce(2000 + 1 + 1) == 4
  {
    assert DigitsOf(2002) == [2, 0, 0, 2];
    SumOfFourDigits(2, 0, 0, 2);
    assert DigitSum(2002) == 4;
  }

  lemma SumOfFourDigits(a: int, b: int, c: int, d: int)
    ensures Sum([a, b, c, d]) == a + b + c + d
  {
    assert [a, b, c, d][..3] == [a, b, c];
    assert [a, b, c][..2] == [a, b];
    assert [a, b][..1] == [a];
    assert [a][..0] == [];
    assert Sum([a]) == a;
    assert Sum([a, b]) == a + b;
    assert Sum([a, b, c]) == a + b + c;
  }
}
