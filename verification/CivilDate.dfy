/**
 * Civil date from epoch days (`epoch_days_to_ymd` of
 * wacp/crates/wacp-runtime/build.rs), against plain Gregorian counting.
 */
module CivilDate {

  datatype Date = Date(year: nat, month: nat, day: nat)

  // The algorithm; every `nat` below is a subtraction that the verifier shows not to underflow

  function YearOfEra(doe: nat): nat
    requires doe < 146097
  {
    var a: nat := doe - doe / 1460;
    var b: nat := a + doe / 36524 - doe / 146096;
    b / 365
  }

  /** Days of an era before its March-based year `yoe`. */
  function YearStart(yoe: nat): (days: nat)
    ensures 365 * yoe <= days
  {
    365 * yoe + yoe / 4 - yoe / 100
  }

  /** Month and day of the `doy`-th day of a March-based year. */
  function MonthDay(doy: nat): (nat, nat)
    requires doy <= 365
  {
    var mp := (5 * doy + 2) / 153;
    var before: nat := doy - (153 * mp + 2) / 5;
    (if mp < 10 then mp + 3 else mp - 9, before + 1)
  }

  function EpochDaysToYmd(days: nat): Date {
    var z := days + 719468;
    var era := z / 146097;
    var doe: nat := z - era * 146097;
    var yoe := YearOfEra(doe);
    YearOfEraIsRight(doe);
    var y := yoe + era * 400;
    var doy: nat := doe - YearStart(yoe);
    var (m, d) := MonthDay(doy);
    Date(if m <= 2 then y + 1 else y, m, d)
  }

  /** Length of the March-based year `yoe` of an era: its February belongs to year yoe + 1. */
  function MarchYearLength(yoe: nat): nat {
    if (yoe + 1) % 4 == 0 && ((yoe + 1) % 100 != 0 || (yoe + 1) % 400 == 0) then 366 else 365
  }

  /** The division chain, for day `s` of four-year cycle `q` of century `c`. */
  lemma YearOfCycle(c: nat, q: nat, s: nat)
    requires c <= 3 && q <= 24 && s <= 1460 && (q == 24 ==> s < 1460)
    ensures var doe := 36524 * c + 1461 * q + s;
      YearOfEra(doe) == 100 * c + 4 * q + (if s == 1460 then 3 else s / 365)
  {
    var doe := 36524 * c + 1461 * q + s;
    assert doe == 1460 * (25 * c + q) + (24 * c + q + s);
    var t := if 24 * c + q + s >= 1460 then 1 else 0;
    assert doe / 1460 == 25 * c + q + t;
    assert doe / 36524 == c && doe / 146096 == 0;
    assert doe - doe / 1460 + doe / 36524 - doe / 146096 == 365 * (100 * c + 4 * q) + (s - t);
  }

  lemma CycleStart(c: nat, q: nat, k: nat)
    requires c <= 3 && q <= 24 && k <= 3
    ensures var y := 100 * c + 4 * q + k;
      YearStart(y) == 36524 * c + 1461 * q + 365 * k
      && MarchYearLength(y) == if k == 3 && (q < 24 || c == 3) then 366 else 365
  {
    var y := 100 * c + 4 * q + k;
    assert y / 4 == 25 * c + q && y / 100 == c;
    assert (y + 1) % 4 == 0 <==> k == 3;
    assert k == 3 ==> ((y + 1) % 100 == 0 <==> q == 24);
    assert k == 3 && q == 24 ==> ((y + 1) % 400 == 0 <==> c == 3);
  }

  /** Day `doe` of an era is day `s` of four-year cycle `q` of century `c`. */
  lemma CycleOf(doe: nat) returns (c: nat, q: nat, s: nat)
    requires doe < 146096
    ensures c <= 3 && q <= 24 && s <= 1460 && (q == 24 ==> s < 1460) && doe == 36524 * c + 1461 * q + s
  {
    c := doe / 36524;
    q := (doe - 36524 * c) / 1461;
    s := doe - 36524 * c - 1461 * q;
  }

  /** The division chain finds the one year of the era that holds day `doe`. */
  lemma YearOfEraIsRight(doe: nat)
    requires doe < 146097
    ensures YearOfEra(doe) < 400
    ensures YearStart(YearOfEra(doe)) <= doe < YearStart(YearOfEra(doe)) + MarchYearLength(YearOfEra(doe))
  {
    if doe < 146096 {
      var c, q, s := CycleOf(doe);
      YearOfCycle(c, q, s);
      CycleStart(c, q, if s == 1460 then 3 else s / 365);
    }
  }

  /** No other year does: March-based years follow each other without gap or overlap. */
  lemma YearStartsMeet(yoe: nat)
    requires yoe < 399
    ensures YearStart(yoe + 1) == YearStart(yoe) + MarchYearLength(yoe)
  {
    var y := yoe + 1;
    assert y / 4 == yoe / 4 + if y % 4 == 0 then 1 else 0;
    assert y / 100 == yoe / 100 + if y % 100 == 0 then 1 else 0;
    assert y % 400 != 0;
  }

  lemma {:induction false} YearStartsAscend(a: nat, b: nat)
    requires a < b < 400
    ensures YearStart(a) + MarchYearLength(a) <= YearStart(b)
    decreases b
  {
    if a + 1 < b {
      YearStartsAscend(a, b - 1);
      YearStartsMeet(b - 1);
    } else {
      YearStartsMeet(a);
    }
  }

  lemma YearOfEraIsUnique(yoe: nat, doy: nat)
    requires yoe < 400 && doy < MarchYearLength(yoe)
    ensures YearStart(yoe) + doy < 146097
    ensures YearOfEra(YearStart(yoe) + doy) == yoe
  {
    assert YearStart(399) + MarchYearLength(399) == 146097;
    if yoe < 399 {
      YearStartsAscend(yoe, 399);
    }
    var y := YearOfEra(YearStart(yoe) + doy);
    YearOfEraIsRight(YearStart(yoe) + doy);
    if y < yoe {
      YearStartsAscend(y, yoe);
    } else if yoe < y {
      YearStartsAscend(yoe, y);
    }
  }

  /** The date of day `doy` of the March-based year that begins in year `y`. */
  function DateIn(y: nat, doy: nat): Date
    requires doy <= 365
  {
    var (m, d) := MonthDay(doy);
    Date(if m <= 2 then y + 1 else y, m, d)
  }

  /** The date of day `doy` of March-based year `yoe` of era `era`. */
  function FromParts(era: nat, yoe: nat, doy: nat): Date
    requires doy <= 365
  {
    DateIn(yoe + era * 400, doy)
  }

  /** The algorithm takes a day number apart into the only parts it has. */
  lemma PartsAreUnique(days: nat, era: nat, yoe: nat, doy: nat)
    requires yoe < 400 && doy < MarchYearLength(yoe)
    requires days + 719468 == era * 146097 + YearStart(yoe) + doy
    ensures EpochDaysToYmd(days) == FromParts(era, yoe, doy)
  {
    YearOfEraIsUnique(yoe, doy);
    assert (days + 719468) / 146097 == era;
  }

  lemma PartsOf(days: nat) returns (era: nat, yoe: nat, doy: nat)
    ensures yoe < 400 && doy < MarchYearLength(yoe)
    ensures days + 719468 == era * 146097 + YearStart(yoe) + doy
    ensures EpochDaysToYmd(days) == FromParts(era, yoe, doy)
  {
    var z := days + 719468;
    era := z / 146097;
    var doe := z - era * 146097;
    yoe := YearOfEra(doe);
    YearOfEraIsRight(doe);
    doy := doe - YearStart(yoe);
  }

  // The Gregorian calendar

  predicate IsLeap(y: nat) {
    y % 4 == 0 && (y % 100 != 0 || y % 400 == 0)
  }

  function MonthLength(leap: bool, m: nat): nat {
    if m == 2 then (if leap then 29 else 28)
    else if m == 4 || m == 6 || m == 9 || m == 11 then 30
    else 31
  }

  function DaysInMonth(y: nat, m: nat): nat {
    MonthLength(IsLeap(y), m)
  }

  predicate IsDate(d: Date) {
    1 <= d.month <= 12 && 1 <= d.day <= DaysInMonth(d.year, d.month)
  }

  function NextDay(d: Date): Date {
    if d.day < DaysInMonth(d.year, d.month) then d.(day := d.day + 1)
    else if d.month < 12 then Date(d.year, d.month + 1, 1)
    else Date(d.year + 1, 1, 1)
  }

  /** Plain counting from 1970-01-01, one day at a time. */
  function Count(n: nat): Date {
    if n == 0 then Date(1970, 1, 1) else NextDay(Count(n - 1))
  }

  lemma RemaindersRepeat(x: nat)
    ensures (x + 400) % 4 == x % 4 && (x + 400) % 100 == x % 100 && (x + 400) % 400 == x % 400
  {
    assert x + 400 == 4 * (x / 4 + 100) + x % 4;
    assert x + 400 == 100 * (x / 100 + 4) + x % 100;
  }

  lemma LeapRepeats(x: nat)
    ensures IsLeap(x + 400) <==> IsLeap(x)
  {
    RemaindersRepeat(x);
  }

  /** Leap years repeat every era. */
  lemma {:induction false} LeapOfEra(era: nat, yoe: nat)
    requires yoe < 400
    ensures MarchYearLength(yoe) == if IsLeap(yoe + era * 400 + 1) then 366 else 365
  {
    if era > 0 {
      LeapOfEra(era - 1, yoe);
      LeapRepeats(yoe + (era - 1) * 400 + 1);
    }
  }

  /** Month and day of consecutive days of a March-based year whose February is `leap` or not. */
  lemma MonthDayNext(leap: bool, doy: nat)
    requires doy < if leap then 366 else 365
    ensures var (m, d) := MonthDay(doy);
      && 1 <= m <= 12 && 1 <= d <= MonthLength(leap, m)
      && (doy + 1 < (if leap then 366 else 365) ==>
            MonthDay(doy + 1) == if d < MonthLength(leap, m) then (m, d + 1) else (if m == 12 then 1 else m + 1, 1))
      && (doy + 1 < (if leap then 366 else 365) && m == 2 ==> d < MonthLength(leap, m))
      && (doy + 1 == (if leap then 366 else 365) ==> m == 2 && d == MonthLength(leap, m))
  {
    var mp := (5 * doy + 2) / 153;
    assert mp <= 11;
  }

  /** Within a March-based year the next day is the next date. */
  lemma NextInYear(era: nat, yoe: nat, doy: nat)
    requires yoe < 400 && doy < MarchYearLength(yoe)
    ensures IsDate(FromParts(era, yoe, doy))
    ensures doy + 1 < MarchYearLength(yoe) ==>
      NextDay(FromParts(era, yoe, doy)) == FromParts(era, yoe, doy + 1)
    ensures doy + 1 == MarchYearLength(yoe) ==>
      NextDay(FromParts(era, yoe, doy)) == Date(yoe + era * 400 + 1, 3, 1)
  {
    LeapOfEra(era, yoe);
    DatesFollow(yoe + era * 400, IsLeap(yoe + era * 400 + 1), doy);
  }

  /** Consecutive days of the March-based year that begins in year `y`. */
  lemma DatesFollow(y: nat, leap: bool, doy: nat)
    requires leap == IsLeap(y + 1) && doy < if leap then 366 else 365
    ensures IsDate(DateIn(y, doy))
    ensures doy + 1 < (if leap then 366 else 365) ==> NextDay(DateIn(y, doy)) == DateIn(y, doy + 1)
    ensures doy + 1 == (if leap then 366 else 365) ==> NextDay(DateIn(y, doy)) == Date(y + 1, 3, 1)
  {
    MonthDayNext(leap, doy);
  }

  /** The day after the one with these parts, by the algorithm and by the calendar: within a year, */
  lemma NextSameYear(days: nat, era: nat, yoe: nat, doy: nat)
    requires yoe < 400 && doy + 1 < MarchYearLength(yoe)
    requires days + 719468 == era * 146097 + YearStart(yoe) + doy
    ensures EpochDaysToYmd(days + 1) == NextDay(FromParts(era, yoe, doy))
  {
    NextInYear(era, yoe, doy);
    PartsAreUnique(days + 1, era, yoe, doy + 1);
  }

  lemma FirstOfMarch(era: nat, yoe: nat)
    ensures FromParts(era, yoe, 0) == Date(yoe + era * 400, 3, 1)
  {
  }

  /** from a year to the next, */
  lemma NextNewYear(days: nat, era: nat, yoe: nat, doy: nat)
    requires yoe < 399 && doy + 1 == MarchYearLength(yoe)
    requires days + 719468 == era * 146097 + YearStart(yoe) + doy
    ensures EpochDaysToYmd(days + 1) == NextDay(FromParts(era, yoe, doy))
  {
    NextInYear(era, yoe, doy);
    YearStartsMeet(yoe);
    PartsAreUnique(days + 1, era, yoe + 1, 0);
    FirstOfMarch(era, yoe + 1);
  }

  /** and from an era to the next. */
  lemma NextNewEra(days: nat, era: nat, doy: nat)
    requires doy + 1 == MarchYearLength(399)
    requires days + 719468 == era * 146097 + YearStart(399) + doy
    ensures EpochDaysToYmd(days + 1) == NextDay(FromParts(era, 399, doy))
  {
    NextInYear(era, 399, doy);
    assert YearStart(399) + MarchYearLength(399) == 146097;
    PartsAreUnique(days + 1, era + 1, 0, 0);
    FirstOfMarch(era + 1, 0);
  }

  /** The day after is the calendar's successor. */
  lemma NextIsSuccessor(days: nat)
    ensures IsDate(EpochDaysToYmd(days))
    ensures EpochDaysToYmd(days + 1) == NextDay(EpochDaysToYmd(days))
  {
    var era, yoe, doy := PartsOf(days);
    NextInYear(era, yoe, doy);
    if doy + 1 < MarchYearLength(yoe) {
      NextSameYear(days, era, yoe, doy);
    } else if yoe < 399 {
      NextNewYear(days, era, yoe, doy);
    } else {
      NextNewEra(days, era, doy);
    }
  }

  lemma EpochStart()
    ensures EpochDaysToYmd(0) == Date(1970, 1, 1)
  {
    PartsAreUnique(0, 4, 369, 306);
  }

  predicate Succeeds(f: nat -> Date, k: nat) {
    f(k + 1) == NextDay(f(k)) && IsDate(f(k))
  }

  /** Whatever starts at the epoch and takes every day to its successor counts days. */
  lemma {:induction false} SuccessorsCount(f: nat -> Date, n: nat)
    requires f(0) == Date(1970, 1, 1) && forall k: nat :: Succeeds(f, k)
    ensures f(n) == Count(n) && IsDate(f(n))
  {
    assert Succeeds(f, n);
    if n > 0 {
      assert Succeeds(f, n - 1);
      SuccessorsCount(f, n - 1);
    }
  }

  /** For every day number the algorithm gives the date that plain counting gives. */
  lemma EpochDaysIsCounting(days: nat)
    ensures EpochDaysToYmd(days) == Count(days)
    ensures IsDate(EpochDaysToYmd(days))
  {
    var f := (n: nat) => EpochDaysToYmd(n);
    forall k: nat
      ensures Succeeds(f, k)
    {
      NextIsSuccessor(k);
    }
    EpochStart();
    SuccessorsCount(f, days);
  }

  // The inverse: whole years, then whole months, then days

  function DaysBeforeYear(y: nat): nat
    requires y >= 1970
  {
    if y == 1970 then 0 else DaysBeforeYear(y - 1) + if IsLeap(y - 1) then 366 else 365
  }

  function DaysBeforeMonth(y: nat, m: nat): nat
    requires 1 <= m
  {
    if m == 1 then 0 else DaysBeforeMonth(y, m - 1) + DaysInMonth(y, m - 1)
  }

  function DayNumber(d: Date): nat
    requires IsDate(d) && d.year >= 1970
  {
    DaysBeforeYear(d.year) + DaysBeforeMonth(d.year, d.month) + d.day - 1
  }

  lemma MonthsFillYear(y: nat)
    ensures DaysBeforeMonth(y, 12) + 31 == if IsLeap(y) then 366 else 365
  {
    assert DaysBeforeMonth(y, 4) == DaysBeforeMonth(y, 2) + DaysInMonth(y, 2) + 31;
    assert DaysBeforeMonth(y, 7) == DaysBeforeMonth(y, 5) + 61;
    assert DaysBeforeMonth(y, 10) == DaysBeforeMonth(y, 8) + 61;
  }

  /** The date before, for any date after 1970-01-01. */
  function PreviousDay(d: Date): Date
    requires IsDate(d)
  {
    if d.day > 1 then d.(day := d.day - 1)
    else if d.month > 1 then Date(d.year, d.month - 1, DaysInMonth(d.year, d.month - 1))
    else Date(if d.year > 0 then d.year - 1 else 0, 12, 31)
  }

  lemma PreviousDayCounts(d: Date)
    requires IsDate(d) && d.year >= 1970 && d != Date(1970, 1, 1)
    ensures var p := PreviousDay(d);
      IsDate(p) && p.year >= 1970 && NextDay(p) == d && DayNumber(d) == DayNumber(p) + 1
  {
    if d.day == 1 && d.month == 1 {
      MonthsFillYear(d.year - 1);
    }
  }

  lemma {:induction false} CountReaches(d: Date)
    requires IsDate(d) && d.year >= 1970
    ensures Count(DayNumber(d)) == d
    decreases DayNumber(d)
  {
    if d != Date(1970, 1, 1) {
      PreviousDayCounts(d);
      CountReaches(PreviousDay(d));
    }
  }

  /** Every Gregorian date from 1970 on is the algorithm's date of its day number. */
  lemma EpochDaysInvertsDayNumber(d: Date)
    requires IsDate(d) && d.year >= 1970
    ensures EpochDaysToYmd(DayNumber(d)) == d
  {
    CountReaches(d);
    EpochDaysIsCounting(DayNumber(d));
  }

  lemma {:induction false} CountCounts(n: nat)
    ensures IsDate(Count(n)) && Count(n).year >= 1970 && DayNumber(Count(n)) == n
  {
    if n > 0 {
      CountCounts(n - 1);
      NextThenPrevious(Count(n - 1));
      PreviousDayCounts(Count(n));
    }
  }

  lemma NextThenPrevious(d: Date)
    requires IsDate(d) && d.year >= 1970
    ensures var n := NextDay(d);
      IsDate(n) && n.year >= 1970 && n != Date(1970, 1, 1) && PreviousDay(n) == d
  {
  }

  /** And the day number of the algorithm's date is the one it was given. */
  lemma DayNumberInvertsEpochDays(days: nat)
    ensures IsDate(EpochDaysToYmd(days)) && EpochDaysToYmd(days).year >= 1970
    ensures DayNumber(EpochDaysToYmd(days)) == days
  {
    EpochDaysIsCounting(days);
    CountCounts(days);
  }
}
