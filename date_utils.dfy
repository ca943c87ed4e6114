/** Date helpers (DateUtils): range validation with defaults, day differences and
    "n days ago". The clock is the parameter `today`. */
module DateUtils {
  import opened Results
  import opened Model

  /** A date string as LocalDate.parse sees it: ISO text naming a day, or anything else. */
  datatype DateText = Iso(day: int) | Unparsable(text: string)

  /** The day number of a proleptic Gregorian date, counted from 1970-01-01 as
      LocalDate.toEpochDay does; used to name the calendar days of the fixtures. */
  function EpochDay(year: int, month: int, day: int): int
    requires 1 <= month <= 12 && 1 <= day <= 31
  {
    var y := if month <= 2 then year - 1 else year;
    var era := y / 400;  // Euclidean division rounds down, as the era needs
    var yoe := y - era * 400;
    var mp := (month + 9) % 12;
    var doy := (153 * mp + 2) / 5 + day - 1;
    var doe := yoe * 365 + yoe / 4 - yoe / 100 + doy;
    era * 146097 + doe - 719468
  }

  /** The origin, and the lengths of the years around year 0 (year 0 is a leap year, year
      -1 is not), as the proleptic Gregorian calendar counts them. */
  lemma EpochDayAnchors()
    ensures EpochDay(1970, 1, 1) == 0 && EpochDay(2000, 3, 1) == 11017
    ensures EpochDay(-1, 3, 1) - EpochDay(-2, 3, 1) == 365
    ensures EpochDay(0, 3, 1) - EpochDay(-1, 3, 1) == 366
  {
  }

  /** verifyDateRange: a missing start defaults to `minStartDate` and a missing end to
      `maxEndDate`; then, in this order, a start before the minimum, an end after the
      maximum and a start after the end are rejected. */
  function VerifyDateRange(startDate: Option<int>, endDate: Option<int>, minStartDate: int, maxEndDate: int)
    : (r: Result<DateRange, Failure>)
    ensures var s, e := startDate.GetOr(minStartDate), endDate.GetOr(maxEndDate);
      && (r.Ok? <==> minStartDate <= s <= e <= maxEndDate)
      && (r.Ok? ==> r.value == DateRange(s, e))
      && (s < minStartDate ==> r == Err(IllegalArgument(StartTooEarly(minStartDate))))
      && (minStartDate <= s && maxEndDate < e ==> r == Err(IllegalArgument(EndTooLate(maxEndDate))))
      && (minStartDate <= s && e <= maxEndDate && e < s ==> r == Err(IllegalArgument(StartAfterEnd(s, e))))
  {
    var s := if startDate.Some? then startDate.value else minStartDate;
    var e := if endDate.Some? then endDate.value else maxEndDate;
    if s < minStartDate then Err(IllegalArgument(StartTooEarly(minStartDate)))
    else if e > maxEndDate then Err(IllegalArgument(EndTooLate(maxEndDate)))
    else if s > e then Err(IllegalArgument(StartAfterEnd(s, e)))
    else Ok(DateRange(s, e))
  }

  /** A validated range is a fixed point: validating it again against the same bounds
      gives it back. */
  lemma VerifyDateRangeIdempotent(startDate: Option<int>, endDate: Option<int>, minStartDate: int, maxEndDate: int)
    requires VerifyDateRange(startDate, endDate, minStartDate, maxEndDate).Ok?
    ensures var d := VerifyDateRange(startDate, endDate, minStartDate, maxEndDate).value;
      VerifyDateRange(Some(d.startDate), Some(d.endDate), minStartDate, maxEndDate) == Ok(d)
  {
  }

  /** With neither end given the range is the whole allowed span, which exists exactly
      when the bounds are ordered. */
  lemma DefaultRangeIsBounds(minStartDate: int, maxEndDate: int)
    ensures VerifyDateRange(None, None, minStartDate, maxEndDate)
      == if minStartDate <= maxEndDate then Ok(DateRange(minStartDate, maxEndDate))
         else Err(IllegalArgument(StartAfterEnd(minStartDate, maxEndDate)))
  {
  }

  /** calculateNumDaysBetweenDates: the signed number of days from `startDate` to
      `endDate`, narrowed to an int as the `(int)` cast does. */
  function CalculateNumDaysBetweenDates(startDate: int, endDate: int): (r: Int32)
    ensures -0x8000_0000 <= endDate - startDate < 0x8000_0000 ==> startDate + r == endDate
    ensures (r - (endDate - startDate)) % 0x1_0000_0000 == 0
  {
    ToInt32(endDate - startDate)
  }

  /** Within the int range the difference is antisymmetric and adds up along a chain of days. */
  lemma DaysBetweenAdditive(a: int, b: int, c: int)
    requires -0x4000_0000 <= b - a < 0x4000_0000 && -0x4000_0000 <= c - b < 0x4000_0000
    ensures CalculateNumDaysBetweenDates(a, c)
      == CalculateNumDaysBetweenDates(a, b) + CalculateNumDaysBetweenDates(b, c)
    ensures CalculateNumDaysBetweenDates(b, a) == -CalculateNumDaysBetweenDates(a, b)
  {
  }

  /** getPastDate: the day `numDaysAgo` days before `today`. */
  function GetPastDate(today: int, numDaysAgo: int): (r: int)
    ensures CalculateNumDaysBetweenDates(r, today) == ToInt32(numDaysAgo)
  {
    today - numDaysAgo
  }

  /** convertToDate: null stays null, ISO text becomes its day, any other text is an
      IllegalArgumentException. */
  function ConvertToDate(date: Option<DateText>): (r: Result<Option<int>, Failure>)
    ensures date.None? ==> r == Ok(None)
    ensures r.Err? <==> date.Some? && date.value.Unparsable?
    ensures r.Err? ==> r.error == IllegalArgument(BadDateFormat)
    ensures r.Ok? && date.Some? ==> r.value == Some(date.value.day)
  {
    match date
    case None => Ok(None)
    case Some(Iso(day)) => Ok(Some(day))
    case Some(Unparsable(_)) => Err(IllegalArgument(BadDateFormat))
  }
}
