/** The build stamp's date (`build.rs`): days since 1970-01-01 to a Gregorian date. */
module CivilDate {

  datatype Date = Date(year: int, month: int, day: int)

  /** Integer division as the source's language does it: towards zero. */
  function Quot(a: int, b: int): int
    requires b > 0
  {
    if a >= 0 then a / b else -((-a) / b)
  }

  /** The 400-year era, and the day within it counted from 1 March. */
  function Era(z: int): int {
    Quot(if z >= 0 then z else z - 146_096, 146_097)
  }

  function YearOfEra(doe: int): int {
    Quot(doe - Quot(doe, 1_460) + Quot(doe, 36_524) - Quot(doe, 146_096), 365)
  }

  function CivilDate(days: int): Date {
    var z := days + 719_468;
    var era := Era(z);
    var doe := z - era * 146_097;
    var yoe := YearOfEra(doe);
    var year := yoe + era * 400;
    var doy := doe - (365 * yoe + Quot(yoe, 4) - Quot(yoe, 100));
    var mp := Quot(5 * doy + 2, 153);
    var day := doy - Quot(153 * mp + 2, 5) + 1;
    var month := mp + (if mp < 10 then 3 else -9);
    Date(if month <= 2 then year + 1 else year, month, day)
  }

  // ----- The calendar -----------------------------------------------------

  /** The leap-year rule of Appendix C of RFC 3339. */
  predicate IsLeap(year: int) {
    year % 4 == 0 && (year % 100 != 0 || year % 400 == 0)
  }

  function DaysInMonth(year: int, month: int): int {
    if month == 2 then (if IsLeap(year) then 29 else 28)
    else if month == 4 || month == 6 || month == 9 || month == 11 then 30
    else 31
  }

  predicate IsValid(d: Date) {
    1 <= d.month <= 12 && 1 <= d.day <= DaysInMonth(d.year, d.month)
  }

  function NextDay(d: Date): Date {
    if d.day < DaysInMonth(d.year, d.month) then Date(d.year, d.month, d.day + 1)
    else if d.month < 12 then Date(d.year, d.month + 1, 1)
    else Date(d.year + 1, 1, 1)
  }

  predicate Before(a: Date, b: Date) {
    a.year < b.year || (a.year == b.year && (a.month < b.month || (a.month == b.month && a.day < b.day)))
  }

  // ----- Correctness ------------------------------------------------------

  lemma EraIsFloor(z: int)
    ensures Era(z) == z / 146_097
    ensures 0 <= z - Era(z) * 146_097 < 146_097
  {
  }

  /** Days of an era before its year `y`, years counted from March. */
  function YearStart(y: int): int {
    365 * y + y / 4 - y / 100
  }

  /** The days of the year that begins on 1 March of year `y` of an era: the
      leap day, if any, is its last one. */
  function YearLength(y: int): int {
    if IsLeap(y + 1) then 366 else 365
  }

  /** Every day of an era splits into centuries, four-year cycles, years and days. */
  lemma Split(doe: int) returns (c: int, q: int, t: int, u: int)
    requires 0 <= doe < 146_097
    ensures 0 <= c <= 3 && 0 <= q <= 24 && 0 <= t <= 3 && 0 <= u <= 365
    ensures doe == 36_524 * c + 1_461 * q + 365 * t + u
    ensures u == 365 ==> t == 3 && (q < 24 || c == 3)
  {
    c := if doe / 36_524 > 3 then 3 else doe / 36_524;
    var r := doe - 36_524 * c;
    q := r / 1_461;
    var s := r - 1_461 * q;
    t := if s / 365 > 3 then 3 else s / 365;
    u := s - 365 * t;
  }

  lemma SplitYear(c: int, q: int, t: int)
    requires 0 <= c <= 3 && 0 <= q <= 24 && 0 <= t <= 3
    ensures YearStart(100 * c + 4 * q + t) == 36_524 * c + 1_461 * q + 365 * t
    ensures IsLeap(100 * c + 4 * q + t + 1) <==> t == 3 && (q < 24 || c == 3)
  {
    var y := 100 * c + 4 * q + t;
    assert y / 4 == 25 * c + q;
    assert y / 100 == c;
  }

  lemma SplitQuotients(c: int, q: int, t: int, u: int)
    requires 0 <= c <= 3 && 0 <= q <= 24 && 0 <= t <= 3 && 0 <= u <= 365
    requires u == 365 ==> t == 3 && (q < 24 || c == 3)
    ensures var doe := 36_524 * c + 1_461 * q + 365 * t + u;
            && doe / 36_524 - doe / 146_096 == c
            && doe / 1_460 == 25 * c + q + (if 24 * c + q + 365 * t + u >= 1_460 then 1 else 0)
  {
    Centuries(c, 1_461 * q + 365 * t + u);
    Divide1460(25 * c + q, 24 * c + q + 365 * t + u);
  }

  lemma Centuries(c: int, r: int)
    requires 0 <= c <= 3 && 0 <= r <= 36_524 && (r == 36_524 ==> c == 3)
    ensures (36_524 * c + r) / 36_524 - (36_524 * c + r) / 146_096 == c
  {
    if r < 36_524 {
      Divide36524(c, r);
    }
  }

  lemma Divide36524(a: int, r: int)
    requires 0 <= r < 36_524
    ensures (36_524 * a + r) / 36_524 == a
  {
  }

  lemma Divide1460(a: int, r: int)
    requires 0 <= r < 2_920
    ensures (1_460 * a + r) / 1_460 == a + (if r >= 1_460 then 1 else 0)
  {
    if r >= 1_460 {
      Quotient1460(a + 1, r - 1_460);
    } else {
      Quotient1460(a, r);
    }
  }

  lemma Quotient1460(a: int, r: int)
    requires 0 <= r < 1_460
    ensures (1_460 * a + r) / 1_460 == a
  {
  }

  lemma YearOfEraBySplit(c: int, q: int, t: int, u: int)
    requires 0 <= c <= 3 && 0 <= q <= 24 && 0 <= t <= 3 && 0 <= u <= 365
    requires u == 365 ==> t == 3 && (q < 24 || c == 3)
    ensures YearOfEra(36_524 * c + 1_461 * q + 365 * t + u) == 100 * c + 4 * q + t
  {
    SplitQuotients(c, q, t, u);
    var e := if 24 * c + q + 365 * t + u >= 1_460 then 1 else 0;
    Divide365(100 * c + 4 * q + t, u - e);
  }

  lemma Divide365(y: int, k: int)
    requires 0 <= k < 365
    ensures (365 * y + k) / 365 == y
  {
  }

  lemma YearOfEraIsRight(doe: int)
    requires 0 <= doe < 146_097
    ensures var y := YearOfEra(doe);
            && 0 <= y < 400
            && 0 <= doe - YearStart(y) < YearLength(y)
  {
    hide YearOfEra, YearStart, IsLeap;
    var c, q, t, u := Split(doe);
    SplitYear(c, q, t);
    YearOfEraBySplit(c, q, t, u);
  }

  /** The next year of the era begins right after the last day of this one. */
  lemma YearStartStep(y: int)
    requires 0 <= y < 400
    ensures y < 399 ==> YearStart(y + 1) == YearStart(y) + YearLength(y)
    ensures y == 399 ==> YearStart(y) + YearLength(y) == 146_097
  {
  }

  lemma {:induction false} YearStartMonotone(a: int, b: int)
    requires 0 <= a < b < 400
    ensures YearStart(a) + YearLength(a) <= YearStart(b)
    decreases b - a
  {
    YearStartStep(a);
    if a + 1 < b {
      YearStartMonotone(a + 1, b);
    }
  }

  lemma YearOfEraUnique(doe: int, y: int)
    requires 0 <= doe < 146_097 && 0 <= y < 400
    requires 0 <= doe - YearStart(y) < YearLength(y)
    ensures YearOfEra(doe) == y
  {
    hide YearOfEra, YearStart, YearLength;
    YearOfEraIsRight(doe);
    var found := YearOfEra(doe);
    if found < y {
      YearStartMonotone(found, y);
    } else if y < found {
      YearStartMonotone(y, found);
    }
  }

  /** The date of day `doy` of the year that begins on 1 March of `year`. */
  function FromMarch(year: int, doy: int): Date {
    var mp := (5 * doy + 2) / 153;
    var month := mp + (if mp < 10 then 3 else -9);
    Date(if month <= 2 then year + 1 else year, month, doy - (153 * mp + 2) / 5 + 1)
  }

  /** The day of the March-based year on which its month `mp` begins. */
  function MonthStart(mp: int): int {
    if mp <= 5 then (if mp <= 2 then (if mp == 0 then 0 else if mp == 1 then 31 else 61)
                     else if mp == 3 then 92 else if mp == 4 then 122 else 153)
    else if mp <= 8 then (if mp == 6 then 184 else if mp == 7 then 214 else 245)
    else if mp == 9 then 275 else if mp == 10 then 306 else if mp == 11 then 337 else 367
  }

  lemma MonthStartIs(mp: int)
    requires 0 <= mp <= 12
    ensures (153 * mp + 2) / 5 == MonthStart(mp)
  {
  }

  lemma MonthOfDay(doy: int) returns (mp: int)
    requires 0 <= doy <= 365
    ensures 0 <= mp <= 11 && MonthStart(mp) <= doy < MonthStart(mp + 1) && (5 * doy + 2) / 153 == mp
  {
    mp := (5 * doy + 2) / 153;
  }

  lemma FromMarchIs(year: int, doy: int) returns (mp: int)
    requires 0 <= doy <= 365
    ensures 0 <= mp <= 11 && MonthStart(mp) <= doy < MonthStart(mp + 1)
    ensures FromMarch(year, doy) ==
              Date(if mp < 10 then year else year + 1, if mp < 10 then mp + 3 else mp - 9, doy - MonthStart(mp) + 1)
  {
    hide MonthStart;
    mp := MonthOfDay(doy);
    MonthStartIs(mp);
  }

  lemma FromMarchStep(year: int, doy: int)
    requires 0 <= doy <= 365
    requires doy == 365 ==> IsLeap(year + 1)
    ensures IsValid(FromMarch(year, doy))
    ensures doy + 1 < (if IsLeap(year + 1) then 366 else 365) ==> FromMarch(year, doy + 1) == NextDay(FromMarch(year, doy))
    ensures doy + 1 == (if IsLeap(year + 1) then 366 else 365) ==> FromMarch(year + 1, 0) == NextDay(FromMarch(year, doy))
  {
    hide FromMarch, IsLeap;
    var mp := FromMarchIs(year, doy);
    if doy + 1 < (if IsLeap(year + 1) then 366 else 365) {
      var next := FromMarchIs(year, doy + 1);
    }
    var first := FromMarchIs(year + 1, 0);
  }

  lemma EraUnique(z: int, era: int, doe: int)
    requires z == era * 146_097 + doe && 0 <= doe < 146_097
    ensures Era(z) == era
  {
    EraIsFloor(z);
  }

  lemma DayOfEra(y: int, doy: int)
    requires 0 <= y < 400 && 0 <= doy < YearLength(y)
    ensures 0 <= YearStart(y) + doy < 146_097
  {
    YearStartStep(y);
    if y < 399 {
      YearStartMonotone(y, 399);
      YearStartStep(399);
    }
  }

  lemma CivilDateIsFromMarch(days: int, era: int, y: int, doy: int)
    requires 0 <= y < 400 && 0 <= doy < YearLength(y)
    requires days + 719_468 == era * 146_097 + YearStart(y) + doy
    ensures CivilDate(days) == FromMarch(y + era * 400, doy)
  {
    hide Era, YearOfEra, YearLength;
    DayOfEra(y, doy);
    EraUnique(days + 719_468, era, YearStart(y) + doy);
    YearOfEraUnique(YearStart(y) + doy, y);
  }

  lemma LeapShift(y: int, era: int)
    ensures IsLeap(y + era * 400) <==> IsLeap(y)
  {
    assert (y + era * 400) % 4 == y % 4 by { Mod4(y, era); }
    assert (y + era * 400) % 100 == y % 100 by { Mod100(y, era); }
    assert (y + era * 400) % 400 == y % 400 by { Mod400(y, era); }
  }

  lemma Mod4(y: int, era: int)
    ensures (y + era * 400) % 4 == y % 4
  {
    Remainder4(y + era * 400, y / 4 + 100 * era, y % 4);
  }

  lemma Mod100(y: int, era: int)
    ensures (y + era * 400) % 100 == y % 100
  {
    Remainder100(y + era * 400, y / 100 + 4 * era, y % 100);
  }

  lemma Mod400(y: int, era: int)
    ensures (y + era * 400) % 400 == y % 400
  {
    Remainder400(y + era * 400, y / 400 + era, y % 400);
  }

  lemma Remainder4(a: int, q: int, r: int)
    requires a == 4 * q + r && 0 <= r < 4
    ensures a % 4 == r
  {
  }

  lemma Remainder100(a: int, q: int, r: int)
    requires a == 100 * q + r && 0 <= r < 100
    ensures a % 100 == r
  {
  }

  lemma Remainder400(a: int, q: int, r: int)
    requires a == 400 * q + r && 0 <= r < 400
    ensures a % 400 == r
  {
  }

  /** The date of the day after is the day after the date, for every day number,
      before the epoch as well as after it. */
  lemma CivilDateStep(days: int)
    ensures IsValid(CivilDate(days))
    ensures CivilDate(days + 1) == NextDay(CivilDate(days))
  {
    hide CivilDate, Era, YearOfEra, IsLeap, FromMarch, NextDay, IsValid;
    var z := days + 719_468;
    EraIsFloor(z);
    var era := Era(z);
    var doe := z - era * 146_097;
    YearOfEraIsRight(doe);
    var y := YearOfEra(doe);
    var doy := doe - YearStart(y);
    CivilDateIsFromMarch(days, era, y, doy);
    LeapShift(y + 1, era);
    FromMarchStep(y + era * 400, doy);
    YearStartStep(y);
    if doy + 1 < YearLength(y) {
      CivilDateIsFromMarch(days + 1, era, y, doy + 1);
    } else if y < 399 {
      CivilDateIsFromMarch(days + 1, era, y + 1, 0);
    } else {
      CivilDateIsFromMarch(days + 1, era + 1, 0, 0);
    }
  }

  lemma EpochDay()
    ensures CivilDate(0) == Date(1970, 1, 1)
  {
  }

  lemma NextDayIsLater(d: Date)
    requires IsValid(d)
    ensures Before(d, NextDay(d)) && IsValid(NextDay(d))
  {
  }

  /** Later day numbers give later dates, so no two days share a date. */
  lemma {:induction false} OrderPreserved(a: int, b: int)
    requires a < b
    ensures Before(CivilDate(a), CivilDate(b))
    decreases b - a
  {
    hide CivilDate, NextDay, IsValid, Before;
    CivilDateStep(b - 1);
    NextDayIsLater(CivilDate(b - 1));
    if a < b - 1 {
      OrderPreserved(a, b - 1);
      BeforeTransitive(CivilDate(a), CivilDate(b - 1), CivilDate(b));
    }
  }

  lemma BeforeTransitive(a: Date, b: Date, c: Date)
    requires Before(a, b) && Before(b, c)
    ensures Before(a, c)
  {
  }

  lemma BeforeIrreflexive(a: Date)
    ensures !Before(a, a)
  {
  }

  lemma Injective(a: int, b: int)
    requires CivilDate(a) == CivilDate(b)
    ensures a == b
  {
    hide CivilDate, Before;
    BeforeIrreflexive(CivilDate(a));
    if a < b {
      OrderPreserved(a, b);
    } else if b < a {
      OrderPreserved(b, a);
    }
  }

  // ----- Every date is some day's date ------------------------------------

  /** The day of the March-based year that a month and a day of it fall on. */
  function DayOfYear(month: int, day: int): int {
    (153 * (if month > 2 then month - 3 else month + 9) + 2) / 5 + day - 1
  }

  /** The number of a valid date's day: the inverse the build script never needs. */
  function DayNumber(d: Date): int {
    var year := if d.month <= 2 then d.year - 1 else d.year;
    year / 400 * 146_097 + YearStart(year % 400) + DayOfYear(d.month, d.day) - 719_468
  }

  lemma FromMarchDayOfYear(d: Date)
    requires IsValid(d)
    ensures var year := if d.month <= 2 then d.year - 1 else d.year;
            var doy := DayOfYear(d.month, d.day);
            && 0 <= doy <= 365 && (doy == 365 ==> IsLeap(year + 1))
            && FromMarch(year, doy) == d
  {
  }

  /** Every valid Gregorian date is the date of exactly one day number. */
  lemma EveryDateIsReached(d: Date, days: int)
    requires IsValid(d)
    ensures CivilDate(days) == d <==> days == DayNumber(d)
  {
    hide CivilDate, IsLeap, FromMarch, IsValid, DayOfYear, YearStart;
    FromMarchDayOfYear(d);
    var year := if d.month <= 2 then d.year - 1 else d.year;
    var era, y := year / 400, year % 400;
    LeapShift(y + 1, era);
    CivilDateIsFromMarch(DayNumber(d), era, y, DayOfYear(d.month, d.day));
    if CivilDate(days) == d {
      Injective(days, DayNumber(d));
    }
  }
}
