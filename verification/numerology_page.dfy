/**
 * The framework site's numerology page: the three date fields, the date
 * check behind the calculate button, and the life-path result it stores for
 * the result page. The current year is a parameter.
 */
module NumerologyPageNext {
  import opened Wrappers
  import opened Text
  import opened Calendar
  import opened LifePath
  import opened NextRecords
  import NumerologyTable
  import Utils

  /** `DateInput`: each field may still be empty (`null`). */
  datatype DateInput = DateInput(year: Option<int>, month: Option<int>, day: Option<int>)

  /** `keyof DateInput`. */
  datatype Field = Year | Month | Day

  datatype PageStep = Input | Loading

  const Directions: seq<string> := ["北", "南", "東", "西"]

  /** A field holds a truthy number: present and not zero. */
  predicate Filled(field: Option<int>)
  {
    field.Some? && field.value != 0
  }

  /**
   * `isValidDate()`: every field filled, the year from 1900 to this year,
   * and the day within the month's length as `new Date(year, month, 0)`
   * reports it. That is exactly a real calendar date in that year range,
   * and such a date survives `new Date(year, month - 1, day)` unchanged.
   */
  function IsValidDate(input: DateInput, currentYear: int): (ok: bool)
    ensures ok <==> (input.year.Some? && input.month.Some? && input.day.Some? &&
      1900 <= input.year.value <= currentYear &&
      IsCalendarDate(input.year.value, input.month.value, input.day.value))
    ensures ok ==> (JsDate(input.year.value, input.month.value - 1, input.day.value) ==
      Date(input.year.value, input.month.value, input.day.value))
  {
    if !Filled(input.year) || !Filled(input.month) || !Filled(input.day) then false
    else
      var year, month, day := input.year.value, input.month.value, input.day.value;
      if year < 1900 || year > currentYear then false
      else if month < 1 || month > 12 then false
      else if day < 1 || day > 31 then false
      else
        JsMonthLength(year, month);
        JsDateRoundTrip(year, month, day);
        day <= JsDate(year, month, 0).day
  }

  /** February 29th passes only in a leap year; April has no 31st. */
  lemma MonthLengthsChecked()
    ensures IsValidDate(DateInput(Some(2024), Some(2), Some(29)), 2025)
    ensures !IsValidDate(DateInput(Some(2023), Some(2), Some(29)), 2025)
    ensures !IsValidDate(DateInput(Some(2000), Some(4), Some(31)), 2025)
    ensures !IsValidDate(DateInput(Some(2026), Some(1), Some(1)), 2025)
  {
  }

  /** `${year}年${month}月${day}日`. */
  function BirthDateText(year: int, month: int, day: int): string
  {
    IntToString(year) + "年" + IntToString(month) + "月" + IntToString(day) + "日"
  }

  /** The page's state. */
  class NumerologyPage {
    var currentStep: PageStep
    var dateInput: DateInput
    var isLoading: bool

    constructor()
      ensures currentStep == Input && dateInput == DateInput(None, None, None) && !isLoading
    {
      currentStep := Input;
      dateInput := DateInput(None, None, None);
      isLoading := false;
    }

    /** `handleDateChange(field, value)`: only the named field changes. */
    method HandleDateChange(field: Field, value: Option<int>)
      modifies this
      ensures field == Year ==> dateInput == old(dateInput).(year := value)
      ensures field == Month ==> dateInput == old(dateInput).(month := value)
      ensures field == Day ==> dateInput == old(dateInput).(day := value)
      ensures currentStep == old(currentStep) && isLoading == old(isLoading)
    {
      match field {
        case Year => dateInput := dateInput.(year := value);
        case Month => dateInput := dateInput.(month := value);
        case Day => dateInput := dateInput.(day := value);
      }
    }

    /**
     * `handleCalculate()`: nothing for an invalid date; otherwise the
     * reading of the date is stored as `numerology-result`.
     */
    method HandleCalculate(storage: LocalStorage, currentYear: int, direction: real, timestamp: string)
      returns (stored: Option<FortuneResult>)
      requires 0.0 <= direction < 1.0
      modifies this, storage
      ensures dateInput == old(dateInput)
      ensures stored.Some? <==> IsValidDate(dateInput, currentYear)
      ensures stored.None? ==>
        (storage.items == old(storage.items) && currentStep == old(currentStep) && isLoading == old(isLoading))
      ensures stored.Some? ==> (currentStep == Loading && isLoading &&
        stored.value == NumerologyReading(dateInput.year.value, dateInput.month.value, dateInput.day.value,
          Utils.GetRandomElement(Directions, direction), timestamp) &&
        storage.items == old(storage.items)["numerology-result" := Parsed(ResultJson(stored.value))])
    {
      if !IsValidDate(dateInput, currentYear) {
        return None;
      }
      isLoading := true;
      currentStep := Loading;
      var result := CalculateReading(dateInput, currentYear, direction, timestamp);
      storage.SetItem("numerology-result", ResultJson(result));
      stored := Some(result);
    }
  }

  /**
   * The body of `handleCalculate()` after the date check: the date goes
   * through `new Date(year, month - 1, day)`, its life-path number and
   * calculation lines are worked out, and the number's profile fills in the
   * texts.
   */
  method CalculateReading(input: DateInput, currentYear: int, direction: real, timestamp: string)
    returns (result: FortuneResult)
    requires IsValidDate(input, currentYear) && 0.0 <= direction < 1.0
    ensures result == NumerologyReading(input.year.value, input.month.value, input.day.value,
      Utils.GetRandomElement(Directions, direction), timestamp)
  {
    var year, month, day := input.year.value, input.month.value, input.day.value;
    assert 1900 <= year && IsCalendarDate(year, month, day);
    var birthDate := JsDate(year, month - 1, day);
    assert birthDate == Date(year, month, day);
    var lifePathNumber := CalculateLifePathNumber(birthDate.year, birthDate.month, birthDate.day);
    assert lifePathNumber == Reduce(year + month + day);
    var calculationSteps := GetCalculationSteps(year, month, day);
    var luckyDirection := Utils.GetRandomElement(Directions, direction);
    ReadingFromParts(year, month, day, lifePathNumber, calculationSteps, luckyDirection, timestamp);
    var numerologyInfo := NumerologyTable.Profiles[lifePathNumber];
    result := ResultOf(lifePathNumber, numerologyInfo, BirthDateText(year, month, day), calculationSteps,
      luckyDirection, timestamp);
  }

  /** The parts the page works out separately assemble into the reading of the date. */
  lemma ReadingFromParts(year: int, month: int, day: int, lifePath: int, steps: seq<string>,
    direction: Option<string>, timestamp: string)
    requires year + month + day >= 1 && lifePath == Reduce(year + month + day)
    requires steps == RenderSteps(CalculationTrace(year, month, day))
    ensures lifePath in NumerologyTable.Profiles
    ensures ResultOf(lifePath, NumerologyTable.Profiles[lifePath], BirthDateText(year, month, day), steps, direction, timestamp)
      == NumerologyReading(year, month, day, direction, timestamp)
  {
    NumerologyTable.LifePathHasProfile(year, month, day);
  }

  /** The `result` object the page writes, from the life-path number, its profile and its calculation lines. */
  function ResultOf(lifePath: int, info: NumerologyTable.Profile, birthDate: string, steps: seq<string>,
    direction: Option<string>, timestamp: string): (r: FortuneResult)
    ensures r.title == "あなたのライフパスナンバー: " + IntToString(lifePath)
    ensures r.detail.NumerologyDetail? && r.detail.lifePathNumber == lifePath && r.detail.calculation.finalNumber == lifePath
    ensures r.lucky.number == Some(lifePath) && r.lucky.color == Some(info.luckyColor)
    ensures r.description == info.description && r.detail.personality == info.personality
  {
    FortuneResult(
      "あなたのライフパスナンバー: " + IntToString(lifePath),
      info.description,
      info.advice,
      Lucky(Some(info.luckyColor), Some(lifePath), Some(info.luckyItem), direction),
      timestamp,
      NumerologyDetail(lifePath, Calculation(birthDate, steps, lifePath), info.personality))
  }

  /** The result stored for a valid date, with the drawn direction and the clock's timestamp. */
  function NumerologyReading(year: int, month: int, day: int, direction: Option<string>, timestamp: string): (r: FortuneResult)
    requires year + month + day >= 1
    ensures r.detail.NumerologyDetail? && IsLifePathNumber(r.detail.lifePathNumber)
    ensures r.detail.lifePathNumber == Reduce(year + month + day)
    ensures r.detail.calculation.steps == RenderSteps(CalculationTrace(year, month, day))
    ensures r.lucky.direction == direction && r.timestamp == timestamp
  {
    var lifePath := Reduce(year + month + day);
    NumerologyTable.LifePathHasProfile(year, month, day);
    ResultOf(lifePath, NumerologyTable.Profiles[lifePath], BirthDateText(year, month, day),
      RenderSteps(CalculationTrace(year, month, day)), direction, timestamp)
  }

  /**
   * One number throughout a stored reading: the title, the detail, the
   * calculation's final number and the lucky number all show the date's
   * life-path number, and the profile texts are that number's.
   */
  lemma ReadingShowsOneNumber(year: int, month: int, day: int, direction: Option<string>, timestamp: string)
    requires year >= 1900 && month >= 1 && day >= 1
    ensures var r := NumerologyReading(year, month, day, direction, timestamp);
      var lifePath := Reduce(year + month + day);
      IsLifePathNumber(lifePath) && lifePath in NumerologyTable.Profiles &&
      r.title == "あなたのライフパスナンバー: " + IntToString(lifePath) &&
      r.detail.NumerologyDetail? && r.detail.lifePathNumber == lifePath &&
      r.detail.calculation.finalNumber == lifePath &&
      r.lucky.number == Some(lifePath) &&
      r.description == NumerologyTable.Profiles[lifePath].description &&
      r.detail.personality == NumerologyTable.Profiles[lifePath].personality
  {
    NumerologyTable.LifePathHasProfile(year, month, day);
  }

  /**
   * The last calculation line of a stored result ends on the number its
   * title and lucky number show.
   */
  lemma StoredStepsEndOnLifePath(year: int, month: int, day: int)
    ensures var lines := RenderSteps(CalculationTrace(year, month, day));
      |lines| >= 1 &&
      var after := Last(Split(Last(lines), '='));
      |after| >= 1 && ParseInt(after[1..]) == Some(Reduce(year + month + day))
  {
    LastLineShowsLifePath(year, month, day);
  }
}
