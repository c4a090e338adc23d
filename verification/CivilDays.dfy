/** The closed-form day count behind HTTP dates (section 5.6.7 of RFC 9110). */
module CivilDays {
  import opened Basics

  const MIN32: int := -0x8000_0000
  const MAX32: int := 0x7FFF_FFFF

  predicate Fits32(x: int) { MIN32 <= x <= MAX32 }

  /** Division that rounds toward zero. */
  function Trunc(a: int, b: int): int
    requires b > 0
  {
    if a >= 0 then a / b else -((-a) / b)
  }

  // ---------------------------------------------------------------- the closed form

  /** The year counted from March. */
  function MarchYear(year: int, month: nat): int { if month <= 2 then year - 1 else year }

  function Era(y: int): int { Trunc(if y >= 0 then y else y - 399, 400) }

  function YearOfEra(y: int): int { y - Era(y) * 400 }

  function DayOfYear(month: nat, day: nat): int
    requires 1 <= month <= 12
  {
    Trunc(153 * (month + (if month > 2 then -3 else 9)) + 2, 5) + day - 1
  }

  function DayOfEra(y: int, dayOfYear: int): int {
    YearOfEra(y) * 365 + Trunc(YearOfEra(y), 4) - Trunc(YearOfEra(y), 100) + dayOfYear
  }

  function DaysFromCivil(year: int, month: nat, day: nat): Option<int> {
    if !(1 <= month <= 12) || !(1 <= day <= 31) then None
    else
      var y := MarchYear(year, month);
      var dayOfYear := DayOfYear(month, day);
      if !(0 <= dayOfYear <= 365) then None
      else Some(Era(y) * 146_097 + DayOfEra(y, dayOfYear) - 719_468)
  }

  /** The value of every 32-bit operation, in evaluation order. */
  function Steps32(year: int, month: nat, day: nat): seq<int>
    requires 1 <= month <= 12 && 1 <= day <= 31
  {
    var y := MarchYear(year, month);
    var shifted := if y >= 0 then y else y - 399;
    var m := month + (if month > 2 then -3 else 9);
    var yoe := YearOfEra(y);
    var doy := DayOfYear(month, day);
    [ year, y, shifted, Era(y), Era(y) * 400, yoe,
      m, 153 * m, 153 * m + 2, Trunc(153 * m + 2, 5), Trunc(153 * m + 2, 5) + day, doy,
      yoe * 365, Trunc(yoe, 4), yoe * 365 + Trunc(yoe, 4), Trunc(yoe, 100),
      yoe * 365 + Trunc(yoe, 4) - Trunc(yoe, 100), DayOfEra(y, doy),
      Era(y) * 146_097, Era(y) * 146_097 + DayOfEra(y, doy), Era(y) * 146_097 + DayOfEra(y, doy) - 719_468 ]
  }

  // ---------------------------------------------------------------- the naive count

  predicate Leap(year: int) { year % 4 == 0 && (year % 100 != 0 || year % 400 == 0) }

  function YearLength(year: int): nat { if Leap(year) then 366 else 365 }

  function MonthLength(year: int, month: nat): nat {
    if month == 2 then (if Leap(year) then 29 else 28)
    else if month == 4 || month == 6 || month == 9 || month == 11 then 30
    else 31
  }

  predicate RealDate(year: int, month: nat, day: nat) {
    1 <= month <= 12 && 1 <= day <= MonthLength(year, month)
  }

  /** Days from 1970-01-01 to January 1st of a year, one year at a time. */
  function DaysBeforeYear(year: int): int
    decreases if year >= 1970 then year - 1970 else 1970 - year
  {
    if year == 1970 then 0
    else if year > 1970 then DaysBeforeYear(year - 1) + YearLength(year - 1)
    else DaysBeforeYear(year + 1) - YearLength(year)
  }

  function DaysBeforeMonth(year: int, month: nat): nat
    requires 1 <= month
  {
    if month == 1 then 0 else DaysBeforeMonth(year, month - 1) + MonthLength(year, month - 1)
  }

  function NaiveDays(year: int, month: nat, day: nat): int
    requires 1 <= month
  {
    DaysBeforeYear(year) + DaysBeforeMonth(year, month) + day - 1
  }

  // ---------------------------------------------------------------- they agree

  /** Days from the start of the count to March 1st of a year, without eras. */
  function MarchDays(y: int): int { 365 * y + y / 4 - y / 100 + y / 400 }

  lemma EraIsFloor(y: int)
    ensures Era(y) == y / 400 && 0 <= YearOfEra(y) < 400
  {
  }

  lemma ErasAreUniform(y: int)
    ensures forall d :: Era(y) * 146_097 + DayOfEra(y, d) == MarchDays(y) + d
  {
    EraIsFloor(y);
    var q, r := Era(y), YearOfEra(y);
    assert y == 400 * q + r;
    assert y / 4 == 100 * q + r / 4;
    assert y / 100 == 4 * q + r / 100;
  }

  lemma MarchYearLength(y: int)
    ensures MarchDays(y) - MarchDays(y - 1) == YearLength(y)
  {
    QuotientStep(y, 4);
    QuotientStep(y, 100);
    QuotientStep(y, 400);
    LeapCases(y);
  }

  lemma LeapCases(y: int)
    ensures y % 400 == 0 ==> y % 100 == 0
    ensures y % 100 == 0 ==> y % 4 == 0
  {
    if y % 400 == 0 { MultipleHasNoRemainder(4 * (y / 400), 100); }
    if y % 100 == 0 { MultipleHasNoRemainder(25 * (y / 100), 4); }
  }

  lemma MultipleHasNoRemainder(k: int, n: int)
    requires n == 4 || n == 100
    ensures (n * k) % n == 0
  {
  }

  lemma QuotientStep(y: int, n: int)
    requires n == 4 || n == 100 || n == 400
    ensures y / n - (y - 1) / n == if y % n == 0 then 1 else 0
  {
  }

  /** January 1st and March 1st of one year. */
  lemma {:induction false} JanuaryFirst(year: int)
    ensures DaysBeforeYear(year) == MarchDays(year - 1) + 306 - 719_468
    decreases if year >= 1970 then year - 1970 else 1970 - year
  {
    if year > 1970 {
      JanuaryFirst(year - 1);
      MarchYearLength(year - 1);
    } else if year < 1970 {
      JanuaryFirst(year + 1);
      MarchYearLength(year);
    }
  }

  lemma MonthTable(year: int, month: nat, day: nat)
    requires 1 <= month <= 12
    ensures DayOfYear(month, day) ==
      DaysBeforeMonth(year, month) + day - 1 + (if month <= 2 then 306 else -59 - (if Leap(year) then 1 else 0))
  {
    assert DaysBeforeMonth(year, 2) == 31;
    assert DaysBeforeMonth(year, 3) == 31 + MonthLength(year, 2);
    assert DaysBeforeMonth(year, 4) == DaysBeforeMonth(year, 3) + 31;
    assert DaysBeforeMonth(year, 5) == DaysBeforeMonth(year, 3) + 61;
    assert DaysBeforeMonth(year, 6) == DaysBeforeMonth(year, 3) + 92;
    assert DaysBeforeMonth(year, 7) == DaysBeforeMonth(year, 3) + 122;
    assert DaysBeforeMonth(year, 8) == DaysBeforeMonth(year, 3) + 153;
    assert DaysBeforeMonth(year, 9) == DaysBeforeMonth(year, 3) + 184;
    assert DaysBeforeMonth(year, 10) == DaysBeforeMonth(year, 3) + 214;
    assert DaysBeforeMonth(year, 11) == DaysBeforeMonth(year, 3) + 245;
    assert DaysBeforeMonth(year, 12) == DaysBeforeMonth(year, 3) + 275;
  }

  /** The closed form is the naive count, on every real date of every year. */
  lemma ClosedFormIsNaiveCount(year: int, month: nat, day: nat)
    requires RealDate(year, month, day)
    ensures DaysFromCivil(year, month, day) == Some(NaiveDays(year, month, day))
  {
    var y := MarchYear(year, month);
    ErasAreUniform(y);
    MonthTable(year, month, day);
    JanuaryFirst(year);
    MarchYearLength(year);
    DayOfYearBound(month, day);
  }

  /** Dates that do not exist: a month or day out of range is refused, and so are 30 and 31 February; any
      other day past the end of its month counts on into the next one. */
  lemma UnrealDates(year: int, month: nat, day: nat)
    ensures DaysFromCivil(year, month, day) ==
      if month < 1 || month > 12 || day < 1 || day > 31 || (month == 2 && day >= 30) then None
      else Some(NaiveDays(year, month, 1) + day - 1)
  {
    if 1 <= month <= 12 && 1 <= day <= 31 {
      var y := MarchYear(year, month);
      ErasAreUniform(y);
      MonthTable(year, month, day);
      JanuaryFirst(year);
      MarchYearLength(year);
      DayOfYearBound(month, day);
    }
  }

  lemma DayOfYearBound(month: nat, day: nat)
    requires 1 <= month <= 12 && 1 <= day <= 31
    ensures 0 <= DayOfYear(month, day) <= 367
    ensures day <= MonthLength(0, month) ==> DayOfYear(month, day) <= 365
    ensures DayOfYear(month, day) > 365 <==> month == 2 && day >= 30
  {
  }

  // ---------------------------------------------------------------- calendar order

  datatype Date = Date(year: int, month: nat, day: nat) {
    predicate Real() { RealDate(year, month, day) }
    predicate Before(other: Date) {
      || year < other.year
      || (year == other.year && month < other.month)
      || (year == other.year && month == other.month && day < other.day)
    }
    function Next(): Date {
      if day < MonthLength(year, month) then Date(year, month, day + 1)
      else if month < 12 then Date(year, month + 1, 1)
      else Date(year + 1, 1, 1)
    }
    function Days(): int
      requires Real()
    {
      ClosedFormIsNaiveCount(year, month, day);
      DaysFromCivil(year, month, day).value
    }
  }

  /** The following day has the following number. */
  lemma NextDayIsNextNumber(a: Date)
    requires a.Real()
    ensures a.Next().Real() && a.Next().Days() == a.Days() + 1
  {
    ClosedFormIsNaiveCount(a.year, a.month, a.day);
    assert a.Next().Real();
    ClosedFormIsNaiveCount(a.Next().year, a.Next().month, a.Next().day);
    if a.month == 12 { YearIsItsMonths(a.year); YearStep(a.year); }
  }

  lemma YearStep(year: int)
    ensures DaysBeforeYear(year + 1) == DaysBeforeYear(year) + YearLength(year)
  {
  }

  lemma YearIsItsMonths(year: int)
    ensures DaysBeforeMonth(year, 12) + 31 == YearLength(year)
  {
    MonthTable(year, 12, 1);
  }

  lemma {:induction false} MonthsIncrease(year: int, m: nat, n: nat)
    requires 1 <= m < n <= 12
    ensures DaysBeforeMonth(year, m) + MonthLength(year, m) <= DaysBeforeMonth(year, n)
  {
    if m < n - 1 { MonthsIncrease(year, m, n - 1); }
  }

  lemma {:induction false} YearsIncrease(a: int, b: int)
    requires a < b
    ensures DaysBeforeYear(a) + YearLength(a) <= DaysBeforeYear(b)
    decreases b - a
  {
    YearStep(b - 1);
    if a < b - 1 { YearsIncrease(a, b - 1); }
  }

  lemma WithinYear(a: Date)
    requires a.Real()
    ensures a.Days() == DaysBeforeYear(a.year) + DaysBeforeMonth(a.year, a.month) + a.day - 1
    ensures DaysBeforeYear(a.year) <= a.Days() < DaysBeforeYear(a.year) + YearLength(a.year)
  {
    ClosedFormIsNaiveCount(a.year, a.month, a.day);
    YearIsItsMonths(a.year);
    if a.month < 12 { MonthsIncrease(a.year, a.month, 12); }
  }

  lemma EarlierIsSmaller(a: Date, b: Date)
    requires a.Real() && b.Real() && a.Before(b)
    ensures a.Days() < b.Days()
  {
    WithinYear(a);
    WithinYear(b);
    if a.year < b.year {
      YearsIncrease(a.year, b.year);
    } else if a.month < b.month {
      MonthsIncrease(a.year, a.month, b.month);
    }
  }

  /** Dates and numbers are in the same order; different dates have different numbers. */
  lemma StrictlyIncreasing(a: Date, b: Date)
    requires a.Real() && b.Real()
    ensures a.Before(b) <==> a.Days() < b.Days()
    ensures a == b <==> a.Days() == b.Days()
  {
    if a.Before(b) { EarlierIsSmaller(a, b); }
    if b.Before(a) { EarlierIsSmaller(b, a); }
  }

  // ---------------------------------------------------------------- 32-bit range

  predicate AllFit(xs: seq<int>) { forall i :: 0 <= i < |xs| ==> Fits32(xs[i]) }

  lemma SmallSteps(year: int, month: nat, day: nat)
    requires 1 <= month <= 12 && 1 <= day <= 31
    ensures var s := Steps32(year, month, day);
      && (forall i :: 5 <= i < 18 ==> 0 <= s[i] <= 150_000)
      && s[18] == 146_097 * s[3] && s[19] == s[18] + s[17] && s[20] == s[19] - 719_468
      && 0 <= s[17] <= 146_463
      && s[3] == s[1] / 400 && s[4] == 400 * s[3]
      && s[1] == MarchYear(year, month) && s[2] == (if s[1] >= 0 then s[1] else s[1] - 399)
  {
    var y := MarchYear(year, month);
    EraIsFloor(y);
    DayOfYearBound(month, day);
  }

  lemma FitsWhileResultsFit(year: int, month: nat, day: nat)
    requires RealDate(year, month, day)
    ensures AllFit(Steps32(year, month, day)) <==>
      MIN32 <= NaiveDays(year, month, day) && NaiveDays(year, month, day) + 719_468 <= MAX32
  {
    ClosedFormIsNaiveCount(year, month, day);
    SmallSteps(year, month, day);
    var s := Steps32(year, month, day);
    assert s[20] == NaiveDays(year, month, day);
    if MIN32 <= s[20] && s[19] <= MAX32 {
      assert forall i :: 0 <= i < |s| ==> Fits32(s[i]);
    } else {
      assert !Fits32(s[20]) || !Fits32(s[19]);
    }
  }

  /** The first and the last date whose count can be computed in 32 bits. */
  const FIRST: Date := Date(-5_877_641, 6, 23)
  const LAST: Date := Date(5_879_610, 9, 9)

  lemma EndsOfRange()
    ensures FIRST.Real() && FIRST.Days() == MIN32
    ensures LAST.Real() && LAST.Days() + 719_468 == MAX32
  {
  }

  /** No 32-bit step overflows exactly from 23 June -5877641 to 9 September 5879610. */
  lemma OverflowExactly(date: Date)
    requires date.Real()
    ensures AllFit(Steps32(date.year, date.month, date.day)) <==> !date.Before(FIRST) && !LAST.Before(date)
  {
    EndsOfRange();
    FitsWhileResultsFit(date.year, date.month, date.day);
    ClosedFormIsNaiveCount(date.year, date.month, date.day);
    StrictlyIncreasing(date, FIRST);
    StrictlyIncreasing(LAST, date);
  }

  /** In particular no step overflows within 5.8 million years of year 0. */
  lemma NoOverflowInRange(year: int, month: nat, day: nat)
    requires -5_800_000 <= year <= 5_800_000 && 1 <= month <= 12 && 1 <= day <= 31
    ensures AllFit(Steps32(year, month, day))
  {
    SmallSteps(year, month, day);
  }

  // ---------------------------------------------------------------- HTTP dates

  /** Seconds since the epoch named by an HTTP date; hour, minute and second are not range-checked. */
  function HttpSeconds(date: Date, hour: nat, minute: nat, second: nat): Option<nat> {
    match DaysFromCivil(date.year, date.month, date.day)
    case None => None
    case Some(days) =>
      var seconds := days * 86_400 + hour * 3_600 + minute * 60 + second;
      if seconds < 0 then None else Some(seconds)
  }

  predicate RealTime(hour: nat, minute: nat, second: nat) { hour < 24 && minute < 60 && second < 60 }

  /** For a real time of a real date the parser gives the naive second count, and rejects exactly
      the dates before 1970. */
  lemma HttpDateCountsSeconds(date: Date, hour: nat, minute: nat, second: nat)
    requires date.Real() && RealTime(hour, minute, second)
    ensures HttpSeconds(date, hour, minute, second).None? <==> date.year < 1970
    ensures var seconds := NaiveDays(date.year, date.month, date.day) * 86_400 + hour * 3_600 + minute * 60 + second;
      date.year >= 1970 ==> seconds >= 0 && HttpSeconds(date, hour, minute, second) == Some(seconds)
  {
    WithinYear(date);
    var epoch := Date(1970, 1, 1);
    WithinYear(epoch);
    StrictlyIncreasing(date, epoch);
    ClosedFormIsNaiveCount(date.year, date.month, date.day);
  }

  /** Hours, minutes and seconds beyond a clock's simply count on, for every date that is not refused. */
  lemma AnyTimeCounts(date: Date, hour: nat, minute: nat, second: nat)
    requires 1 <= date.month <= 12 && 1 <= date.day <= 31 && !(date.month == 2 && date.day >= 30)
    ensures
      var days := NaiveDays(date.year, date.month, 1) + date.day - 1;
      var seconds := days * 86_400 + hour * 3_600 + minute * 60 + second;
      HttpSeconds(date, hour, minute, second) == if seconds < 0 then None else Some(seconds)
  {
    UnrealDates(date.year, date.month, date.day);
  }
}
