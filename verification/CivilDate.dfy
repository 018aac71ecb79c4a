/** The civil-date arithmetic behind SFTP's long listings (src/sftp/server.rs).

The source turns a count of days since 1970-01-01 into a date by Hinnant's closed formula:
eras of 400 years that begin on the first of March. It is proved to be the Gregorian
calendar, stated independently as a successor relation on dates, for every day count. */
module CivilDate {
  import opened Bytes

  datatype Date = Date(year: int, month: int, day: int)

  predicate Leap(y: int) {
    y % 4 == 0 && (y % 100 != 0 || y % 400 == 0)
  }

  function DaysInMonth(y: int, m: int): int
    requires 1 <= m <= 12
  {
    if m == 2 then (if Leap(y) then 29 else 28)
    else if m == 4 || m == 6 || m == 9 || m == 11 then 30
    else 31
  }

  predicate Valid(d: Date) {
    1 <= d.month <= 12 && 1 <= d.day <= DaysInMonth(d.year, d.month)
  }

  /** The day after `d` in the Gregorian calendar. */
  function Tomorrow(d: Date): Date
    requires Valid(d)
  {
    if d.day < DaysInMonth(d.year, d.month) then Date(d.year, d.month, d.day + 1)
    else if d.month < 12 then Date(d.year, d.month + 1, 1)
    else Date(d.year + 1, 1, 1)
  }

  /** Division of the source's signed integers, which truncates toward zero. */
  function TruncDiv(a: int, b: int): int
    requires b > 0
  {
    if a >= 0 then a / b else -((-a) / b)
  }

  function Era(z: int): int {
    TruncDiv(if z >= 0 then z else z - 146_096, 146_097)
  }

  function YearOfEra(doe: int): int {
    TruncDiv(doe - TruncDiv(doe, 1460) + TruncDiv(doe, 36524) - TruncDiv(doe, 146_096), 365)
  }

  /** Days from the start of an era to the start of its year `yoe`. */
  function YearStart(yoe: int): int {
    365 * yoe + TruncDiv(yoe, 4) - TruncDiv(yoe, 100)
  }

  function MonthOf(doy: int): int {
    TruncDiv(5 * doy + 2, 153)
  }

  function DayOf(doy: int): int {
    doy - TruncDiv(153 * MonthOf(doy) + 2, 5) + 1
  }

  /** The date of the day `doy` of a year that begins on the first of March of year `y`. */
  function FromMarch(y: int, doy: int): Date {
    var mp := MonthOf(doy);
    var m := if mp < 10 then mp + 3 else mp - 9;
    Date(if m <= 2 then y + 1 else y, m, DayOf(doy))
  }

  function CivilFromDays(days: int): Date {
    var z := days + 719_468;
    var era := Era(z);
    var doe := z - era * 146_097;
    var yoe := YearOfEra(doe);
    FromMarch(yoe + era * 400, doe - YearStart(yoe))
  }

  lemma EraFloors(z: int)
    ensures 0 <= z - Era(z) * 146_097 < 146_097
    ensures Era(z + 1) == if z + 1 - Era(z) * 146_097 == 146_097 then Era(z) + 1 else Era(z)
  {
  }

  /** A March year has 366 days exactly when the February that ends it is a leap February. */
  lemma YearLength(yoe: int)
    requires 0 <= yoe < 399
    ensures YearStart(yoe + 1) - YearStart(yoe) == if Leap(yoe + 1) then 366 else 365
  {
  }

  lemma YearContains(doe: int)
    requires 0 <= doe < 146_097
    ensures 0 <= YearOfEra(doe) <= 399
    ensures YearStart(YearOfEra(doe)) <= doe
    ensures YearOfEra(doe) < 399 ==> doe < YearStart(YearOfEra(doe) + 1)
  {
    var c := if doe / 36524 == 4 then 3 else doe / 36524;
    var inC := doe - c * 36524;
    var q := inC / 1461;
    var inQ := inC - q * 1461;
    var y := if inQ / 365 == 4 then 3 else inQ / 365;
    var year := 100 * c + 4 * q + y;
    YearStartAt(c, q, y);
    YearFormula(doe, c, q, y);
    if year < 399 {
      YearLength(year);
      assert year + 1 == 100 * c + 4 * q + (y + 1);
    }
  }

  lemma YearStartAt(c: int, q: int, y: int)
    requires 0 <= c < 4 && 0 <= q < 25 && 0 <= y < 4
    ensures YearStart(100 * c + 4 * q + y) == 36524 * c + 1461 * q + 365 * y
  {
  }

  lemma QuotientIs(n: int, d: int, q: int)
    requires d == 365 || d == 1460 || d == 36524 || d == 146_096
    requires n >= 0 && q * d <= n < q * d + d
    ensures TruncDiv(n, d) == q
  {
    if d == 365 { assert n / 365 == q; }
    else if d == 1460 { assert n / 1460 == q; }
    else if d == 36524 { assert n / 36524 == q; }
    else { assert n / 146_096 == q; }
  }

  /** The formula's corrections: one day for each fourth year passed, less one for each century. */
  lemma YearFormula(doe: int, c: int, q: int, y: int)
    requires 0 <= c < 4 && 0 <= q < 25 && 0 <= y < 4
    requires var inQ := doe - 36524 * c - 1461 * q;
      365 * y <= inQ < if y < 3 then 365 * (y + 1) else 1461
    requires 0 <= doe < 146_097
    requires doe - 36524 * c < 36524 || c == 3
    ensures YearOfEra(doe) == 100 * c + 4 * q + y
  {
    hide TruncDiv;
    var r := doe - 36524 * c - 1461 * q;
    var late := if 24 * c + q + r >= 1460 then 1 else 0;
    QuotientIs(doe, 1460, 25 * c + q + late);
    if doe == 146_096 {
      QuotientIs(doe, 36524, 4);
      QuotientIs(doe, 146_096, 1);
    } else {
      QuotientIs(doe, 36524, c);
      QuotientIs(doe, 146_096, 0);
    }
    QuotientIs(365 * (100 * c + 4 * q) + r - late, 365, 100 * c + 4 * q + y);
  }

  const ORDINARY: seq<int> := [31, 30, 31, 30, 31, 31, 30, 31, 30, 31, 31, 29]

  lemma MonthSteps(doy: int)
    requires 0 <= doy < 366
    ensures 0 <= MonthOf(doy) <= 11 && 1 <= DayOf(doy) <= ORDINARY[MonthOf(doy)]
    ensures doy < 365 && DayOf(doy) < ORDINARY[MonthOf(doy)] ==>
      MonthOf(doy + 1) == MonthOf(doy) && DayOf(doy + 1) == DayOf(doy) + 1
    ensures doy < 365 && DayOf(doy) == ORDINARY[MonthOf(doy)] ==>
      MonthOf(doy + 1) == MonthOf(doy) + 1 && DayOf(doy + 1) == 1
    ensures MonthOf(doy) == 11 <==> doy >= 337
    ensures MonthOf(doy) == 11 ==> DayOf(doy) == doy - 336
  {
    assert MonthOf(doy) == (5 * doy + 2) / 153;
  }

  lemma {:induction false} LeapInEra(y: int, era: int)
    ensures Leap(y + era * 400) == Leap(y)
    decreases if era < 0 then -era else era
  {
    if era > 0 {
      LeapInEra(y, era - 1);
      LeapPeriod(y + (era - 1) * 400);
    } else if era < 0 {
      LeapInEra(y, era + 1);
      LeapPeriod(y + era * 400);
    }
  }

  lemma LeapPeriod(y: int)
    ensures Leap(y + 400) == Leap(y)
  {
  }

  /** Within a March year, the next day of the year is the calendar's next day. */
  lemma NextInYear(y: int, doy: int)
    requires 0 <= doy < if Leap(y + 1) then 366 else 365
    ensures Valid(FromMarch(y, doy))
    ensures doy + 1 < (if Leap(y + 1) then 366 else 365) ==> FromMarch(y, doy + 1) == Tomorrow(FromMarch(y, doy))
    ensures doy + 1 == (if Leap(y + 1) then 366 else 365) ==> FromMarch(y + 1, 0) == Tomorrow(FromMarch(y, doy))
  {
    hide MonthOf, DayOf, Leap;
    MonthSteps(doy);
    MarchFirst();
  }

  lemma MarchFirst()
    ensures MonthOf(0) == 0 && DayOf(0) == 1
  {
  }

  /** The split of a day count into era, year of era and day of year. */
  lemma Split(z: int) returns (era: int, yoe: int, doy: int)
    ensures era == Era(z) && yoe == YearOfEra(z - era * 146_097)
    ensures doy == z - era * 146_097 - YearStart(yoe)
    ensures 0 <= yoe <= 399 && 0 <= doy < if Leap(yoe + 1) then 366 else 365
  {
    hide Leap, YearOfEra, YearStart;
    era := Era(z);
    EraFloors(z);
    var doe := z - era * 146_097;
    yoe := YearOfEra(doe);
    YearContains(doe);
    doy := doe - YearStart(yoe);
    if yoe < 399 {
      YearLength(yoe);
    } else {
      LastYear();
    }
  }

  lemma LastYear()
    ensures YearStart(399) == 146_097 - 366 && Leap(400) && YearStart(0) == 0 && YearOfEra(0) == 0
  {
  }

  /** The formula steps through the calendar one day at a time, from any day to the next. */
  lemma CivilSuccessor(days: int)
    ensures Valid(CivilFromDays(days))
    ensures CivilFromDays(days + 1) == Tomorrow(CivilFromDays(days))
  {
    hide Era, YearOfEra, YearStart, FromMarch, Leap, Tomorrow, Valid;
    var z := days + 719_468;
    var era, yoe, doy := Split(z);
    var y := yoe + era * 400;
    LeapInEra(yoe + 1, era);
    assert y + 1 == yoe + 1 + era * 400;
    NextInYear(y, doy);
    NextSplit(z, era, yoe, doy);
  }

  lemma NextSplit(z: int, era: int, yoe: int, doy: int)
    requires era == Era(z) && yoe == YearOfEra(z - era * 146_097)
    requires doy == z - era * 146_097 - YearStart(yoe)
    ensures var era' := Era(z + 1); var doe' := z + 1 - era' * 146_097;
      var y' := YearOfEra(doe') + era' * 400; var doy' := doe' - YearStart(YearOfEra(doe'));
      if doy + 1 == (if Leap(yoe + 1) then 366 else 365) then y' == yoe + era * 400 + 1 && doy' == 0
      else y' == yoe + era * 400 && doy' == doy + 1
  {
    hide YearOfEra, YearStart, Leap, Era;
    var doe := z - era * 146_097;
    EraFloors(z);
    YearContains(doe);
    LastYear();
    if yoe < 399 {
      YearLength(yoe);
      YearStartGrows(yoe, 399);
    }
    if doe + 1 < 146_097 {
      if yoe < 399 && doe + 1 == YearStart(yoe + 1) {
        if yoe + 1 < 399 {
          YearLength(yoe + 1);
        }
        YearUnique(doe + 1, yoe + 1);
      } else {
        YearUnique(doe + 1, yoe);
      }
    }
  }

  lemma {:induction false} YearStartGrows(a: int, b: int)
    requires 0 <= a < b <= 399
    ensures YearStart(a + 1) <= YearStart(b)
  {
    if a + 1 < b {
      YearStartGrows(a, b - 1);
      YearLength(b - 1);
    }
  }

  lemma YearUnique(doe: int, y: int)
    requires 0 <= doe < 146_097 && 0 <= y <= 399
    requires YearStart(y) <= doe && (y < 399 ==> doe < YearStart(y + 1))
    ensures YearOfEra(doe) == y
  {
    YearContains(doe);
    var r := YearOfEra(doe);
    if r < y {
      YearStartGrows(r, y);
    } else if y < r {
      YearStartGrows(y, r);
    }
  }

  const EPOCH: Date := Date(1970, 1, 1)

  /** The calendar itself: day 0 is the epoch, every later day is the morrow of the one before. */
  ghost function Calendar(days: nat): (d: Date)
    ensures Valid(d)
  {
    if days == 0 then EPOCH
    else var d := Calendar(days - 1);
         TomorrowValid(d);
         Tomorrow(d)
  }

  lemma TomorrowValid(d: Date)
    requires Valid(d)
    ensures Valid(Tomorrow(d))
  {
  }

  lemma {:induction false} CivilIsCalendar(days: nat)
    ensures CivilFromDays(days) == Calendar(days)
  {
    hide CivilFromDays, Tomorrow, Valid;
    if days == 0 {
      Epoch();
    } else {
      CivilIsCalendar(days - 1);
      CivilSuccessor(days - 1);
    }
  }

  lemma Epoch()
    ensures CivilFromDays(0) == EPOCH
  {
    assert Era(719_468) == 4;
    assert YearOfEra(135_080) == 369 && YearStart(369) == 134_774;
    assert MonthOf(306) == 10 && DayOf(306) == 1;
  }

  const MONTHS: seq<string> :=
    ["Jan", "Feb", "Mar", "Apr", "May", "Jun", "Jul", "Aug", "Sep", "Oct", "Nov", "Dec"]

  function TwoDigits(n: int, pad: char): (s: string)
    requires 0 <= n < 100
    ensures |s| == 2
  {
    if n < 10 then [pad, '0' + n as char] else ['0' + (n / 10) as char, '0' + (n % 10) as char]
  }

  function ShortMonth(m: int): (s: string)
    requires 1 <= m <= 12
    ensures |s| == 3
  {
    MONTHS[m - 1]
  }

  /** `Mon DD HH:MM`: the month indexes the table and every field fits its columns. */
  function LsDate(secs: u32): (s: string)
    ensures s == ShortMonth(Calendar(secs / 86_400).month) + " " + TwoDigits(Calendar(secs / 86_400).day, ' ') + " " + Clock(secs)
  {
    hide CivilFromDays, Clock, ShortMonth, TwoDigits;
    CivilIsCalendar(secs / 86_400);
    var date := CivilFromDays(secs / 86_400);
    ShortMonth(date.month) + " " + TwoDigits(date.day, ' ') + " " + Clock(secs)
  }

  /** Hours and minutes of the day. */
  function Clock(secs: u32): string {
    var rem := secs % 86_400;
    TwoDigits(rem / 3600, '0') + ":" + TwoDigits(rem % 3600 / 60, '0')
  }

  lemma Hours(secs: int, q: int)
    requires 3600 * q <= secs < 3600 * q + 3600
    ensures secs / 3600 == q
  {
  }

  lemma Minutes(secs: int, q: int)
    requires 60 * q <= secs < 60 * q + 60
    ensures secs / 60 == q
  {
  }

  lemma OfDay(d: int, h: int, m: int)
    requires 0 <= h < 24 && 0 <= m < 60
    ensures (24 * d + h) % 24 == h && (60 * (24 * d + h) + m) % 60 == m
  {
  }

  /** The clock shows the hour of the day and the minute of the hour, counted from the epoch. */
  lemma ClockTells(secs: u32)
    ensures Clock(secs) == TwoDigits(secs / 3600 % 24, '0') + ":" + TwoDigits(secs / 60 % 60, '0')
  {
    hide TwoDigits;
    var d, rem := secs / 86_400, secs % 86_400;
    var h := rem / 3600;
    var m := rem % 3600 / 60;
    Hours(secs, 24 * d + h);
    Minutes(secs, 60 * (24 * d + h) + m);
    OfDay(d, h, m);
  }
}
