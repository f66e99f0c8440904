/**
 * The vanilla site's numerology page: the birth-date selection the three
 * pickers update, the day picker that follows the chosen month, the
 * calculate button, the checks run before a reading, and the calculation
 * preview shown beside the pickers.
 */
module NumerologyScript {
  import opened Wrappers
  import opened Text
  import opened Calendar
  import opened LifePath

  /** `parseInt(select.value) || null`; `parsed` is None where parseInt gives NaN. Zero is falsy too. */
  function FieldValue(parsed: Option<int>): (v: Option<int>)
    ensures v.Some? <==> parsed.Some? && parsed.value != 0
    ensures v.Some? ==> v == parsed
  {
    if parsed.Some? && parsed.value != 0 then parsed else None
  }

  /** The day `updateDayOptions` keeps: the previous one when it is set and fits the month, else none. */
  function KeptDay(previous: Option<int>, daysInMonth: int): (day: Option<int>)
    ensures day.Some? ==> day == previous && day.value <= daysInMonth
    ensures previous.Some? && previous.value != 0 && previous.value <= daysInMonth ==> day == previous
  {
    if previous.Some? && previous.value != 0 && previous.value <= daysInMonth then previous else None
  }

  /** Why `calculateNumerology` stops, or the birth date it goes on with. */
  datatype Outcome = MissingField | InvalidDate | FutureDate | Proceed(birth: Date)

  /** The blocks of the calculation preview, in display order. */
  datatype PreviewBlock =
    | DatePartsBlock(text: string)       // step 1: "Y年 M月 D日"
    | SumBlock(line: string)             // step 2: "Y + M + D = S"
    | ReductionBlock(lines: seq<string>) // step 3: one line per digit sum
    | ResultBlock(lifePath: int)         // the life-path number

  /** The global `selectedDate`. */
  class DateSelection {
    var year: Option<int>
    var month: Option<int>
    var day: Option<int>

    /** The pickers never store a falsy value: null stands for every one. */
    predicate Valid()
      reads this
    {
      year != Some(0) && month != Some(0) && day != Some(0)
    }

    predicate Complete()
      reads this
    {
      year.Some? && month.Some? && day.Some?
    }

    constructor()
      ensures Valid() && year.None? && month.None? && day.None?
    {
      year, month, day := None, None, None;
    }

    /** The year picker's change listener. */
    method SelectYear(parsed: Option<int>)
      requires Valid()
      modifies this
      ensures Valid()
      ensures year == FieldValue(parsed) && month == old(month) && day == old(day)
    {
      year := FieldValue(parsed);
    }

    /** The month picker's change listener: it also rebuilds the day picker. */
    method SelectMonth(parsed: Option<int>)
      requires Valid()
      modifies this
      ensures Valid()
      ensures month == FieldValue(parsed) && year == old(year)
      ensures (year.None? || month.None?) ==> day == old(day)
      ensures year.Some? && month.Some? ==> day == KeptDay(old(day), JsDate(year.value, month.value, 0).day)
    {
      month := FieldValue(parsed);
      UpdateDayOptions();
    }

    /** The day picker's change listener. */
    method SelectDay(parsed: Option<int>)
      requires Valid()
      modifies this
      ensures Valid()
      ensures day == FieldValue(parsed) && year == old(year) && month == old(month)
    {
      day := FieldValue(parsed);
    }

    /**
     * `updateDayOptions`: without a year or a month nothing is kept or
     * cleared; otherwise the day survives only if it fits the month's length,
     * the day of `new Date(year, month, 0)`.
     */
    method UpdateDayOptions()
      requires Valid()
      modifies this
      ensures Valid()
      ensures year == old(year) && month == old(month)
      ensures (year.None? || month.None?) ==> day == old(day)
      ensures year.Some? && month.Some? ==> day == KeptDay(old(day), JsDate(year.value, month.value, 0).day)
    {
      if year.None? || month.None? {
        return;
      }
      var daysInMonth := JsDate(year.value, month.value, 0).day;
      day := KeptDay(day, daysInMonth);
    }

    /** `updateCalculateButton`: `disabled = !(year && month && day)`. */
    function CalculateButtonDisabled(): (disabled: bool)
      reads this
      requires Valid()
      ensures disabled <==> !Complete()
    {
      !(year.Some? && year.value != 0 && month.Some? && month.value != 0 && day.Some? && day.value != 0)
    }

    /**
     * The checks of `calculateNumerology` on the calendar day `today`: every
     * field set, `new Date(y, m - 1, d)` reading back the same fields, and
     * the date not after today.
     */
    function CheckBirthDate(today: Date): (o: Outcome)
      reads this
      requires Valid()
      ensures o == MissingField <==> !Complete()
      ensures o.Proceed? ==> Complete() && o.birth == Date(year.value, month.value, day.value)
      ensures o.Proceed? ==> IsCalendarDate(o.birth.year, o.birth.month, o.birth.day) && !IsAfter(o.birth, today)
      ensures Complete() && (0 <= year.value <= 99 || !IsCalendarDate(year.value, month.value, day.value))
        ==> o == InvalidDate
      ensures o == FutureDate ==> Complete() && IsAfter(Date(year.value, month.value, day.value), today)
      ensures Complete() && !(0 <= year.value <= 99) && IsCalendarDate(year.value, month.value, day.value) ==>
        var birth := Date(year.value, month.value, day.value);
        o == (if IsAfter(birth, today) then FutureDate else Proceed(birth))
    {
      if year.None? || month.None? || day.None? then MissingField
      else
        var date := JsDate(year.value, month.value - 1, day.value);
        JsDateRoundTrip(year.value, month.value, day.value);
        if date != Date(year.value, month.value, day.value) then InvalidDate
        else if IsAfter(date, today) then FutureDate
        else Proceed(date)
    }

    /** `updateCalculationPreview`: the preview once every field is set, else the placeholder (None). */
    method CalculationPreview() returns (preview: Option<seq<PreviewBlock>>)
      requires Valid()
      ensures preview.None? <==> !Complete()
      ensures preview.Some? ==> preview.value == PreviewOf(year.value, month.value, day.value)
    {
      if year.None? || month.None? || day.None? {
        return None;
      }
      var blocks := CalculateLifePathPreview(year.value, month.value, day.value);
      preview := Some(blocks);
    }
  }

  /** Steps 1 and 2 of the preview: the date as entered and the raw addition. */
  function PreviewHeader(year: int, month: int, day: int): (h: seq<PreviewBlock>)
    ensures |h| == 2 && h[1] == SumBlock(AdditionLine(year, month, day))
  {
    [DatePartsBlock(IntToString(year) + "年 " + IntToString(month) + "月 " + IntToString(day) + "日"),
     SumBlock(AdditionLine(year, month, day))]
  }

  /** The preview of a birth date, block by block; step 3 only when the sum is reduced at all. */
  function PreviewOf(year: int, month: int, day: int): (p: seq<PreviewBlock>)
    ensures |p| >= 3 && p[1] == SumBlock(AdditionLine(year, month, day))
    ensures Last(p) == ResultBlock(Reduce(year + month + day))
  {
    var sum := year + month + day;
    PreviewHeader(year, month, day)
    + (if IsFinal(sum) then [] else [ReductionBlock(RenderSteps(ReductionTrace(sum)))])
    + [ResultBlock(Reduce(sum))]
  }

  /** `calculateLifePathPreview(year, month, day)`. */
  method CalculateLifePathPreview(year: int, month: int, day: int) returns (blocks: seq<PreviewBlock>)
    ensures blocks == PreviewOf(year, month, day)
  {
    var header := PreviewHeader(year, month, day);
    blocks := header;
    var sum := year + month + day;
    var steps, currentSum := ReductionLines(sum);
    assert |ReductionTrace(sum)| == 0 <==> IsFinal(sum);
    if |steps| > 0 {
      blocks := blocks + [ReductionBlock(steps)];
    }
    blocks := blocks + [ResultBlock(currentSum)];
    assert blocks == header + (if IsFinal(sum) then [] else [ReductionBlock(steps)]) + [ResultBlock(currentSum)];
  }

  /** The preview's digit-sum loop: the lines it pushes and the value it stops on. */
  method ReductionLines(sum: int) returns (steps: seq<string>, currentSum: int)
    ensures steps == RenderSteps(ReductionTrace(sum))
    ensures currentSum == Reduce(sum)
  {
    currentSum := sum;
    steps := [];
    while currentSum > 9 && currentSum != 11 && currentSum != 22 && currentSum != 33
      invariant steps + RenderSteps(ReductionTrace(currentSum)) == RenderSteps(ReductionTrace(sum))
      invariant Reduce(currentSum) == Reduce(sum)
      decreases if currentSum < 0 then 0 else currentSum
    {
      var digits := DigitsOf(currentSum);
      var newSum := DigitSumOfText(currentSum);
      ReductionStepKeeps(steps, currentSum, RenderSteps(ReductionTrace(sum)));
      steps := steps + [RenderStep(Step(digits, newSum))];
      currentSum := newSum;
    }
    assert RenderSteps(ReductionTrace(currentSum)) == [];
  }

  /**
   * The preview ends on the life-path number, and the step-3 block appears
   * exactly when the sum is reduced, listing the lines of the reduction
   * (whose last total is that number, by `LifePath.TraceEndsOnReduce`).
   */
  lemma PreviewShowsReduction(year: int, month: int, day: int)
    ensures var p, sum := PreviewOf(year, month, day), year + month + day;
      Last(p) == ResultBlock(Reduce(sum)) &&
      (|p| == 4 <==> !IsFinal(sum)) &&
      (!IsFinal(sum) ==> p[2] == ReductionBlock(RenderSteps(ReductionTrace(sum))))
  {
    var sum := year + month + day;
    var p, header := PreviewOf(year, month, day), PreviewHeader(year, month, day);
    var middle := if IsFinal(sum) then [] else [ReductionBlock(RenderSteps(ReductionTrace(sum)))];
    assert p == header + middle + [ResultBlock(Reduce(sum))];
    assert |p| == 3 + |middle|;
    if !IsFinal(sum) {
      assert p[2] == middle[0];
    }
  }
}
