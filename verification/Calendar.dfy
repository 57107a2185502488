/**
 The calendar fields of timestamp rendering (src/timestamp.rs; section 5.6 of
 RFC 3339): days since 1970-01-01 to a Gregorian date, against a calendar
 defined by year and month lengths alone.
 */
module Calendar {

  datatype Date = Date(y: int, m: int, d: int)

  // ----- the Gregorian calendar by its rules

  predicate Leap(y: int) { y % 4 == 0 && (y % 100 != 0 || y % 400 == 0) }

  function YearLen(y: int): int { if Leap(y) then 366 else 365 }

  function MonthLen(y: int, m: int): int {
    if m == 2 then (if Leap(y) then 29 else 28) else if m == 4 || m == 6 || m == 9 || m == 11 then 30 else 31
  }

  predicate ValidDate(t: Date) { 1 <= t.m <= 12 && 1 <= t.d <= MonthLen(t.y, t.m) }

  function NextDate(t: Date): Date {
    if t.d < MonthLen(t.y, t.m) then t.(d := t.d + 1)
    else if t.m < 12 then Date(t.y, t.m + 1, 1)
    else Date(t.y + 1, 1, 1)
  }

  /** Days from 1970-01-01 to the first of January of year `y`: year lengths added or taken away. */
  function YearStart(y: int): int
    decreases if y >= 1970 then y - 1970 else 1970 - y
  {
    if y == 1970 then 0
    else if y > 1970 then YearStart(y - 1) + YearLen(y - 1)
    else YearStart(y + 1) - YearLen(y)
  }

  /** Days of year `y` before month `m`. */
  function MonthStart(y: int, m: nat): int {
    if m <= 1 then 0 else MonthStart(y, m - 1) + MonthLen(y, m - 1)
  }

  /** Days from 1970-01-01 to a date. */
  function DayNumber(t: Date): int
    requires t.m >= 0
  {
    YearStart(t.y) + MonthStart(t.y, t.m) + t.d - 1
  }

  // ----- the computation

  /** Division that truncates towards zero, as on machine integers. */
  function TruncDiv(a: int, b: nat): int
    requires b > 0
  {
    if a >= 0 then a / b else -((-a) / b)
  }

  /** The 400-year era of a day counted from 0000-03-01. */
  function Era(z: int): int { TruncDiv(if z >= 0 then z else z - 146_096, 146_097) }

  /** `civil_from_days`. */
  function Civil(days: int): Date {
    var z := days + 719_468;
    DateOf(Era(z), DayOfEra(z))
  }

  function DayOfEra(z: int): int { z - Era(z) * 146_097 }

  function YearOfEra(doe: int): int { (doe - doe / 1460 + doe / 36_524 - doe / 146_096) / 365 }

  /** The month, counted from March, of a day of the year. */
  function MonthIndex(doy: int): int { (5 * doy + 2) / 153 }

  /** The date of day `doe` of an era. */
  function DateOf(era: int, doe: int): Date {
    var yoe := YearOfEra(doe);
    var doy := doe - (365 * yoe + yoe / 4 - yoe / 100);
    var mp := MonthIndex(doy);
    var d := doy - (153 * mp + 2) / 5 + 1;
    var m := if mp < 10 then mp + 3 else mp - 9;
    Date(yoe + era * 400 + (if m <= 2 then 1 else 0), m, d)
  }

  // ----- years

  /** Days before January of year `y`, counted from year 1, without summing. */
  function Gregorian(y: int): int { 365 * (y - 1) + (y - 1) / 4 - (y - 1) / 100 + (y - 1) / 400 }

  // Quotients of consecutive years, one divisor at a time.

  lemma Step4(y: int)
    ensures y / 4 == (y - 1) / 4 + if y % 4 == 0 then 1 else 0
  {
  }

  lemma Step100(y: int)
    ensures y / 100 == (y - 1) / 100 + if y % 100 == 0 then 1 else 0
  {
  }

  lemma Step400(y: int)
    ensures y / 400 == (y - 1) / 400 + if y % 400 == 0 then 1 else 0
  {
  }

  lemma Multiples(y: int)
    ensures y % 400 == 0 ==> y % 100 == 0
    ensures y % 100 == 0 ==> y % 4 == 0
  {
  }

  lemma GregorianStep(y: int)
    ensures Gregorian(y + 1) == Gregorian(y) + YearLen(y)
  {
    Step4(y);
    Step100(y);
    Step400(y);
    Multiples(y);
  }

  // Quotients and remainders of sums, one divisor at a time.

  lemma Add4(k: int, n: int)
    ensures (4 * k + n) / 4 == k + n / 4 && (4 * k + n) % 4 == n % 4
  {
  }

  lemma Add100(k: int, n: int)
    ensures (100 * k + n) / 100 == k + n / 100 && (100 * k + n) % 100 == n % 100
  {
  }

  lemma Add400(k: int, n: int)
    ensures (400 * k + n) / 400 == k + n / 400 && (400 * k + n) % 400 == n % 400
  {
  }

  lemma {:induction false} YearStartIs(y: int)
    ensures YearStart(y) == Gregorian(y) - 719_162
    decreases if y >= 1970 then y - 1970 else 1970 - y
  {
    if y > 1970 {
      YearStartIs(y - 1);
      GregorianStep(y - 1);
    } else if y < 1970 {
      YearStartIs(y + 1);
      GregorianStep(y);
    }
  }

  lemma YearStartStep(y: int)
    ensures YearStart(y + 1) == YearStart(y) + YearLen(y)
  {
    YearStartIs(y);
    YearStartIs(y + 1);
    GregorianStep(y);
  }

  lemma {:induction false} YearStartMono(a: int, b: int)
    requires a <= b
    ensures YearStart(a) <= YearStart(b)
    decreases b - a
  {
    if a < b {
      YearStartMono(a, b - 1);
      YearStartStep(b - 1);
    }
  }

  // ----- the 400-year era, counted from the first of March

  /** Days of an era before its `yoe`-th year. */
  function EraYear(yoe: int): int { 365 * yoe + yoe / 4 - yoe / 100 }

  /** A day of the era as century, four-year cycle, year and day of year. */
  datatype EraDay = EraDay(c: int, q: int, t: int, r: int) {
    predicate Ok() {
      && 0 <= c <= 3 && 0 <= q <= 24 && 0 <= t <= 3 && 0 <= r <= 365
      && (r == 365 ==> t == 3 && (q < 24 || c == 3))
    }

    function Year(): int { 100 * c + 4 * q + t }

    function Day(): int { 36_524 * c + 1461 * q + 365 * t + r }
  }

  /** Every day of the era splits that way. */
  lemma Split(doe: int) returns (e: EraDay)
    requires 0 <= doe <= 146_096
    ensures e.Ok() && e.Day() == doe
  {
    var c := if doe == 146_096 then 3 else doe / 36_524;
    var a := doe - 36_524 * c;
    var q := a / 1461;
    var b := a - 1461 * q;
    var t := if b == 1460 then 3 else b / 365;
    e := EraDay(c, q, t, b - 365 * t);
  }

  lemma EraYearIs(e: EraDay)
    requires e.Ok()
    ensures EraYear(e.Year()) == e.Day() - e.r
  {
    Add4(25 * e.c + e.q, e.t);
    Add100(e.c, 4 * e.q + e.t);
  }

  /** The year formula finds the year. */
  lemma YearFound(e: EraDay)
    requires e.Ok()
    ensures YearOfEra(e.Day()) == e.Year()
  {
    var doe := e.Day();
    var k := if 24 * e.c + e.q + 365 * e.t + e.r >= 1460 then 1 else 0;
    assert doe / 1460 == 25 * e.c + e.q + k;
    assert doe / 36_524 - doe / 146_096 == e.c by {
      if doe == 146_096 {
        assert doe / 36_524 == 4 && doe / 146_096 == 1;
      } else {
        assert doe < 36_524 * (e.c + 1);
        assert doe / 36_524 == e.c && doe / 146_096 == 0;
      }
    }
    assert doe - doe / 1460 + doe / 36_524 - doe / 146_096 == 365 * e.Year() + e.r - k;
    assert 0 <= e.r - k < 365;
  }

  // ----- months, counted from March

  /** Days of a March-based year before its `mp`-th month. */
  function MarchMonth(mp: int): int { (153 * mp + 2) / 5 }

  lemma MonthFound(r: int)
    requires 0 <= r <= 365
    ensures var mp := MonthIndex(r);
            && 0 <= mp <= 11 && MarchMonth(mp) <= r && (mp < 11 ==> r < MarchMonth(mp + 1))
  {
  }

  /** The months from March to December, and January and February of the next year. */
  lemma MonthStartIs(y: int, mp: int)
    requires 0 <= mp <= 11
    ensures mp < 10 ==> MonthStart(y, mp + 3) == 59 + (if Leap(y) then 1 else 0) + MarchMonth(mp)
    ensures mp >= 10 ==> MonthStart(y, mp - 9) == MarchMonth(mp) - 306
  {
    var m2 := MonthStart(y, 2) + MonthLen(y, 2);
    assert MonthStart(y, 2) == MonthStart(y, 1) + 31 && MonthStart(y, 1) == 0;
    assert MonthStart(y, 3) == m2 && MonthStart(y, 4) == m2 + 31;
    assert MonthStart(y, 5) == m2 + 61 && MonthStart(y, 6) == m2 + 92;
    assert MonthStart(y, 7) == m2 + 122 && MonthStart(y, 8) == m2 + 153;
    assert MonthStart(y, 9) == m2 + 184 && MonthStart(y, 10) == m2 + 214;
    assert MonthStart(y, 11) == m2 + 245 && MonthStart(y, 12) == m2 + 275;
  }

  // ----- round trip

  /** The first of March of year `400 * era + yoe`. */
  lemma MarchFirst(era: int, yoe: int)
    requires 0 <= yoe < 400
    ensures YearStart(400 * era + yoe + 1) - 306 == 146_097 * era + EraYear(yoe) - 719_468
  {
    YearStartIs(400 * era + yoe + 1);
    Add4(100 * era, yoe);
    Add100(4 * era, yoe);
    Add400(era, yoe);
  }

  /** The steps of the computation, in the terms above. */
  lemma CivilIs(days: int) returns (era: int, e: EraDay, mp: int)
    ensures e.Ok() && days == 146_097 * era + e.Day() - 719_468 && 0 <= mp <= 11
    ensures mp == MonthIndex(e.r)
    ensures var m := if mp < 10 then mp + 3 else mp - 9;
            Civil(days) == Date(400 * era + e.Year() + (if mp < 10 then 0 else 1), m, e.r - MarchMonth(mp) + 1)
  {
    hide Era, DayOfEra, DateOf, MonthIndex, MarchMonth;
    var z := days + 719_468;
    EraFloor(z);
    era := Era(z);
    e := Split(DayOfEra(z));
    mp := DateOfIs(era, e);
  }

  lemma DateOfIs(era: int, e: EraDay) returns (mp: int)
    requires e.Ok()
    ensures 0 <= mp <= 11 && mp == MonthIndex(e.r)
    ensures var m := if mp < 10 then mp + 3 else mp - 9;
            DateOf(era, e.Day()) == Date(400 * era + e.Year() + (if mp < 10 then 0 else 1), m, e.r - MarchMonth(mp) + 1)
  {
    hide YearOfEra, MonthIndex;
    YearFound(e);
    EraYearIs(e);
    MonthFound(e.r);
    mp := MonthIndex(e.r);
  }

  lemma EraFloor(z: int)
    ensures 0 <= DayOfEra(z) <= 146_096 && z == 146_097 * Era(z) + DayOfEra(z)
  {
    var n := if z >= 0 then z else 146_096 - z;
    assert n == 146_097 * (n / 146_097) + n % 146_097;
  }

  /** The date computed is a valid date, and counting the days to it gives back the input. */
  lemma RoundTrip(days: int)
    ensures ValidDate(Civil(days)) && DayNumber(Civil(days)) == days
  {
    hide Civil, MonthIndex, Leap;
    var era, e, mp := CivilIs(days);
    var y := 400 * era + e.Year();
    MonthFound(e.r);
    MarchFirst(era, e.Year());
    EraYearIs(e);
    YearStartStep(y);
    MonthStartIs(if mp < 10 then y else y + 1, mp);
    DayFits(era, e, mp);
  }

  /** The day is within its month; the 29th of February only comes in a leap year. */
  lemma DayFits(era: int, e: EraDay, mp: int)
    requires e.Ok() && mp == MonthIndex(e.r) && 0 <= mp <= 11
    ensures var y := 400 * era + e.Year();
            var m := if mp < 10 then mp + 3 else mp - 9;
            1 <= e.r - MarchMonth(mp) + 1 <= MonthLen(if mp < 10 then y else y + 1, m)
  {
    hide MonthIndex;
    MonthFound(e.r);
    if mp == 11 && e.r == 365 { LeapEnd(era, e); }
  }

  lemma LeapEnd(era: int, e: EraDay)
    requires e.Ok() && e.r == 365
    ensures Leap(400 * era + e.Year() + 1)
  {
    var y := 400 * era + e.Year() + 1;
    if e.q == 24 {
      LeapCentury(era + 1);
    } else {
      LeapWithin(4 * era + e.c, e.q + 1);
    }
  }

  lemma LeapCentury(k: int)
    ensures Leap(400 * k)
  {
    Add400(k, 0);
    Add4(100 * k, 0);
  }

  lemma LeapWithin(k: int, n: int)
    requires 0 < n < 25
    ensures Leap(100 * k + 4 * n)
  {
    Add100(k, 4 * n);
    Add4(25 * k + n, 0);
  }

  // ----- uniqueness and succession

  lemma {:induction false} MonthStartMono(y: int, a: nat, b: nat)
    requires 1 <= a <= b
    ensures MonthStart(y, a) <= MonthStart(y, b)
    decreases b
  {
    if a < b { MonthStartMono(y, a, b - 1); }
  }

  lemma MonthsAreYear(y: int)
    ensures MonthStart(y, 12) + MonthLen(y, 12) == YearLen(y)
  {
    MonthStartIs(y, 9);
  }

  lemma WithinYear(t: Date)
    requires ValidDate(t)
    ensures YearStart(t.y) <= DayNumber(t) < YearStart(t.y + 1)
  {
    YearStartStep(t.y);
    MonthStartMono(t.y, 1, t.m);
    MonthsAreYear(t.y);
    if t.m < 12 { MonthStartMono(t.y, t.m + 1, 12); }
  }

  lemma LaterYear(a: Date, b: Date)
    requires ValidDate(a) && ValidDate(b) && a.y < b.y
    ensures DayNumber(a) < DayNumber(b)
  {
    WithinYear(a);
    WithinYear(b);
    YearStartMono(a.y + 1, b.y);
  }

  lemma LaterMonth(a: Date, b: Date)
    requires ValidDate(a) && ValidDate(b) && a.y == b.y && a.m < b.m
    ensures DayNumber(a) < DayNumber(b)
  {
    MonthStartMono(a.y, a.m + 1, b.m);
  }

  /** No two valid dates have the same day number. */
  lemma Injective(a: Date, b: Date)
    requires ValidDate(a) && ValidDate(b) && DayNumber(a) == DayNumber(b)
    ensures a == b
  {
    if a.y < b.y { LaterYear(a, b); }
    if b.y < a.y { LaterYear(b, a); }
    if a.y == b.y && a.m < b.m { LaterMonth(a, b); }
    if a.y == b.y && b.m < a.m { LaterMonth(b, a); }
  }

  lemma NextNumber(t: Date)
    requires ValidDate(t)
    ensures ValidDate(NextDate(t)) && DayNumber(NextDate(t)) == DayNumber(t) + 1
  {
    if t.d == MonthLen(t.y, t.m) && t.m == 12 {
      YearStartStep(t.y);
      MonthsAreYear(t.y);
    }
  }

  /** The computation inverts the calendar: every valid date comes back from its own day number. */
  lemma CivilInverts(t: Date)
    requires ValidDate(t)
    ensures Civil(DayNumber(t)) == t
  {
    hide Civil;
    RoundTrip(DayNumber(t));
    Injective(Civil(DayNumber(t)), t);
  }

  /** Consecutive days are consecutive dates. */
  lemma Consecutive(days: int)
    ensures Civil(days + 1) == NextDate(Civil(days))
  {
    hide Civil, NextDate;
    RoundTrip(days);
    RoundTrip(days + 1);
    NextNumber(Civil(days));
    Injective(Civil(days + 1), NextDate(Civil(days)));
  }

  // ----- a whole timestamp

  datatype Fields = Fields(date: Date, h: int, mi: int, s: int)

  /** The fields `write_iso8601` renders. */
  function FieldsOf(sec: nat): Fields {
    var ofDay := sec % 86_400;
    Fields(Civil(sec / 86_400), ofDay / 3600, ofDay % 3600 / 60, ofDay % 60)
  }

  function Seconds(f: Fields): int
    requires f.date.m >= 0
  {
    86_400 * DayNumber(f.date) + 3600 * f.h + 60 * f.mi + f.s
  }

  /** The rendered fields are a valid date and time, and name exactly the second rendered. */
  lemma TimestampRoundTrip(sec: nat)
    ensures var f := FieldsOf(sec);
            && ValidDate(f.date) && 0 <= f.h < 24 && 0 <= f.mi < 60 && 0 <= f.s < 60
            && Seconds(f) == sec
  {
    hide Civil, DayNumber, ValidDate;
    RoundTrip(sec / 86_400);
    ClockParts(sec % 86_400);
    assert sec == 86_400 * (sec / 86_400) + sec % 86_400;
  }

  lemma ClockParts(n: int)
    requires 0 <= n < 86_400
    ensures 0 <= n / 3600 < 24 && 0 <= n % 3600 / 60 < 60 && 0 <= n % 60 < 60
    ensures 3600 * (n / 3600) + 60 * (n % 3600 / 60) + n % 60 == n
  {
    var h, rest := n / 3600, n % 3600;
    assert n == 60 * (60 * h + rest / 60) + rest % 60;
  }
}
