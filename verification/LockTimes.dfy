/** Rendering a lock time: the civil calendar, and the label on the review screen. */
module LockTimes {

  const U64_LIMIT: nat := 0x1_0000_0000_0000_0000
  const I32_LIMIT: nat := 0x8000_0000
  const LOCK_TIME_THRESHOLD: nat := 500_000_000_000

  /** The original's division rounds toward zero. */
  function Div(a: int, b: int): int
    requires b > 0
  {
    if a >= 0 then a / b else -(-a / b)
  }

  datatype Date = Date(year: int, month: int, day: int)

  /** Year of the era for a day of the era, counting years from March. */
  function YearOfEra(doe: int): int {
    Div(doe - Div(doe, 1460) + Div(doe, 36_524) - Div(doe, 146_096), 365)
  }

  function DayOfYear(doe: int): int {
    var yoe := YearOfEra(doe);
    doe - (365 * yoe + Div(yoe, 4) - Div(yoe, 100))
  }

  /** `civil_from_days`. */
  function CivilFromDays(days: int): Date {
    var z := days + 719_468;
    var era := Div(if z >= 0 then z else z - 146_096, 146_097);
    var doe := z - era * 146_097;
    var y := YearOfEra(doe) + era * 400;
    var doy := DayOfYear(doe);
    var mp := Div(5 * doy + 2, 153);
    var d := doy - Div(153 * mp + 2, 5) + 1;
    var m := if mp < 10 then mp + 3 else mp - 9;
    Date(if m <= 2 then y + 1 else y, m, d)
  }

  // ---- an independent day count ----

  predicate IsLeap(y: int) {
    y % 4 == 0 && (y % 100 != 0 || y % 400 == 0)
  }

  function DaysIn(y: int, m: int): int
    requires 1 <= m <= 12
  {
    if m == 2 then if IsLeap(y) then 29 else 28
    else if m == 4 || m == 6 || m == 9 || m == 11 then 30
    else 31
  }

  predicate ValidDate(t: Date) {
    1 <= t.month <= 12 && 1 <= t.day <= DaysIn(t.year, t.month)
  }

  function DaysBeforeMonth(y: int, m: int): int
    requires 1 <= m <= 12
    decreases m
  {
    if m == 1 then 0 else DaysBeforeMonth(y, m - 1) + DaysIn(y, m - 1)
  }

  /** Leap years before year `y`, counted from year 1. */
  function LeapsBefore(y: int): int {
    (y - 1) / 4 - (y - 1) / 100 + (y - 1) / 400
  }

  /** Days from 1970-01-01 to the first day of year `y`. */
  function DaysBeforeYear(y: int): int {
    365 * (y - 1970) + LeapsBefore(y) - LeapsBefore(1970)
  }

  /** The count is right: it starts at 0, and every year adds its own length. */
  lemma {:induction false} YearLengths(y: int)
    ensures DaysBeforeYear(1970) == 0
    ensures DaysBeforeYear(y + 1) == DaysBeforeYear(y) + if IsLeap(y) then 366 else 365
    ensures DaysBeforeMonth(y, 12) + 31 == if IsLeap(y) then 366 else 365
  {
    MonthStarts(y);
    FloorStep(y, 4);
    FloorStep(y, 100);
    FloorStep(y, 400);
    LeapParts(y);
    hide IsLeap, DaysBeforeMonth;
  }

  lemma FloorStep(y: int, n: int)
    requires n in {4, 100, 400}
    ensures y / n - (y - 1) / n == if y % n == 0 then 1 else 0
  {
  }

  lemma LeapParts(y: int)
    ensures y % 400 == 0 ==> y % 100 == 0
    ensures y % 100 == 0 ==> y % 4 == 0
    ensures IsLeap(y) <==> (y % 4 == 0 && !(y % 100 == 0)) || y % 400 == 0
  {
  }

  function DayNumber(t: Date): int
    requires ValidDate(t)
  {
    DaysBeforeYear(t.year) + DaysBeforeMonth(t.year, t.month) + t.day - 1
  }

  lemma {:induction false} MonthStarts(y: int)
    ensures DaysBeforeMonth(y, 1) == 0 && DaysBeforeMonth(y, 2) == 31
    ensures
      var l := if IsLeap(y) then 1 else 0;
      && DaysBeforeMonth(y, 3) == 59 + l && DaysBeforeMonth(y, 4) == 90 + l && DaysBeforeMonth(y, 5) == 120 + l
      && DaysBeforeMonth(y, 6) == 151 + l && DaysBeforeMonth(y, 7) == 181 + l && DaysBeforeMonth(y, 8) == 212 + l
      && DaysBeforeMonth(y, 9) == 243 + l && DaysBeforeMonth(y, 10) == 273 + l && DaysBeforeMonth(y, 11) == 304 + l
      && DaysBeforeMonth(y, 12) == 334 + l
  {
    hide IsLeap;
    assert DaysBeforeMonth(y, 3) == DaysBeforeMonth(y, 2) + DaysIn(y, 2);
    assert DaysBeforeMonth(y, 5) == DaysBeforeMonth(y, 4) + DaysIn(y, 4);
    assert DaysBeforeMonth(y, 7) == DaysBeforeMonth(y, 6) + DaysIn(y, 6);
    assert DaysBeforeMonth(y, 9) == DaysBeforeMonth(y, 8) + DaysIn(y, 8);
    assert DaysBeforeMonth(y, 11) == DaysBeforeMonth(y, 10) + DaysIn(y, 10);
  }

  // ---- inside an era ----

  /** A day of the era as centuries, four-year cycles, years and days. */
  ghost predicate Parts(doe: int, c: int, q: int, s: int, t: int) {
    && 0 <= c <= 3 && 0 <= q <= 24 && 0 <= s <= 3 && 0 <= t <= 365
    && doe == 36_524 * c + 1461 * q + 365 * s + t
    && (t == 365 ==> s == 3 && (q < 24 || c == 3))
  }

  lemma {:induction false} SplitEra(doe: int) returns (c: int, q: int, s: int, t: int)
    requires 0 <= doe <= 146_096
    ensures Parts(doe, c, q, s, t)
  {
    c := if doe == 146_096 then 3 else doe / 36_524;
    var r := doe - 36_524 * c;
    assert 0 <= r <= 36_524 && (r == 36_524 ==> c == 3);
    q := r / 1461;
    var u := r - 1461 * q;
    assert 0 <= q <= 24 && 0 <= u <= 1460;
    s := if u == 1460 then 3 else u / 365;
    t := u - 365 * s;
  }

  /** The divisions of the original find the year and the day of the year. */
  lemma {:induction false} YearIs(doe: int, c: int, q: int, s: int, t: int)
    requires Parts(doe, c, q, s, t)
    ensures YearOfEra(doe) == 100 * c + 4 * q + s && DayOfYear(doe) == t
  {
    var extra := 24 * c + q + 365 * s + t;
    var e := if extra >= 1460 then 1 else 0;
    assert doe == 1460 * (25 * c + q) + extra;
    assert doe / 1460 == 25 * c + q + e;
    assert doe / 36_524 - doe / 146_096 == c by {
      assert doe == 36_524 * c + (1461 * q + 365 * s + t);
    }
    var yoe := 100 * c + 4 * q + s;
    assert doe - doe / 1460 + doe / 36_524 - doe / 146_096 == 365 * yoe + (t - e);
    assert YearOfEra(doe) == yoe;
    assert yoe / 4 == 25 * c + q && yoe / 100 == c;
  }

  // ---- months, counted from March ----

  function MonthStart(mp: int): int {
    Div(153 * mp + 2, 5)
  }

  lemma MonthTable()
    ensures MonthStart(0) == 0 && MonthStart(1) == 31 && MonthStart(2) == 61 && MonthStart(3) == 92
    ensures MonthStart(4) == 122 && MonthStart(5) == 153 && MonthStart(6) == 184 && MonthStart(7) == 214
    ensures MonthStart(8) == 245 && MonthStart(9) == 275 && MonthStart(10) == 306 && MonthStart(11) == 337
  {
  }

  lemma {:induction false} MonthIs(doy: int)
    requires 0 <= doy <= 365
    ensures
      var mp := Div(5 * doy + 2, 153);
      && 0 <= mp <= 11 && MonthStart(mp) <= doy
      && (mp < 11 ==> doy < MonthStart(mp + 1))
  {
    MonthTable();
    var mp := Div(5 * doy + 2, 153);
    assert 0 <= mp <= 11;
    assert 153 * mp <= 5 * doy + 2 < 153 * mp + 153;
    hide MonthStart;
    assert mp == 0 || mp == 1 || mp == 2 || mp == 3 || mp == 4 || mp == 5 || mp == 6 || mp == 7 || mp == 8 || mp == 9
        || mp == 10 || mp == 11;
  }

  /** The date of day `doy` of the March year `y`. */
  function DateIn(y: int, doy: int): Date {
    var mp := Div(5 * doy + 2, 153);
    var m := if mp < 10 then mp + 3 else mp - 9;
    Date(if m <= 2 then y + 1 else y, m, doy - MonthStart(mp) + 1)
  }

  /** It is a date, and its number is that of 1 March of that year plus `doy`. */
  lemma {:induction false} DateInIs(y: int, doy: int)
    requires 0 <= doy <= 365 && (doy == 365 ==> IsLeap(y + 1))
    ensures ValidDate(DateIn(y, doy))
    ensures DayNumber(DateIn(y, doy)) == DaysBeforeYear(y + 1) - 306 + doy
  {
    MonthTable();
    MonthIs(doy);
    MonthStarts(y);
    MonthStarts(y + 1);
    YearLengths(y);
    var mp := Div(5 * doy + 2, 153);
    hide Div, MonthStart, IsLeap, DaysBeforeYear, DaysBeforeMonth;
    assert mp == 0 || mp == 1 || mp == 2 || mp == 3 || mp == 4 || mp == 5 || mp == 6 || mp == 7 || mp == 8 || mp == 9
        || mp == 10 || mp == 11;
  }

  // ---- the calendar ----

  lemma EraIs(z: int)
    ensures
      var era := Div(if z >= 0 then z else z - 146_096, 146_097);
      era == z / 146_097 && 0 <= z - era * 146_097 <= 146_096
  {
  }

  /** Years of whole eras: the leap count of the year after an era's start. */
  lemma {:induction false} EraDays(era: int, c: int, q: int, s: int)
    requires 0 <= c <= 3 && 0 <= q <= 24 && 0 <= s <= 3
    ensures
      var y := 400 * era + 100 * c + 4 * q + s;
      DaysBeforeYear(y + 1) == 146_097 * era + 36_524 * c + 1461 * q + 365 * s + 306 - 719_468
  {
    var y := 400 * era + 100 * c + 4 * q + s;
    assert y / 4 == 100 * era + 25 * c + q;
    assert y / 100 == 4 * era + c;
    assert y / 400 == era;
  }

  lemma {:induction false} LeapDay(era: int, c: int, q: int)
    requires 0 <= c <= 3 && 0 <= q <= 24 && (q < 24 || c == 3)
    ensures IsLeap(400 * era + 100 * c + 4 * q + 3 + 1)
  {
    var y := 400 * era + 100 * c + 4 * q + 4;
    assert y == 4 * (100 * era + 25 * c + q + 1);
    assert y == 100 * (4 * era + c) + (4 * q + 4);
    assert q == 24 ==> y == 400 * (era + 1);
  }

  /**
   * For every day, past or future, the result is a date of the Gregorian calendar, and counting
   * days to that date gives the day back.
   */
  lemma {:induction false} CalendarExact(z: int)
    ensures ValidDate(CivilFromDays(z)) && DayNumber(CivilFromDays(z)) == z
  {
    hide YearOfEra, DayOfYear, Div, CivilFromDays, DateIn, DaysBeforeYear, IsLeap, ValidDate, DayNumber, Parts;
    var shifted := z + 719_468;
    EraIs(shifted);
    var era := shifted / 146_097;
    var doe := shifted - era * 146_097;
    var c, q, s, t := SplitEra(doe);
    YearIs(doe, c, q, s, t);
    Unfolded(z, era, doe);
    EraDate(z, era, doe, c, q, s, t);
  }

  lemma {:induction false} EraDate(z: int, era: int, doe: int, c: int, q: int, s: int, t: int)
    requires Parts(doe, c, q, s, t) && z + 719_468 == 146_097 * era + doe
    ensures
      var date := DateIn(100 * c + 4 * q + s + 400 * era, t);
      ValidDate(date) && DayNumber(date) == z
  {
    hide DateIn, DaysBeforeYear, IsLeap, ValidDate, DayNumber;
    if t == 365 {
      LeapDay(era, c, q);
    }
    EraDays(era, c, q, s);
    DateInIs(400 * era + 100 * c + 4 * q + s, t);
  }

  lemma {:induction false} Unfolded(z: int, era: int, doe: int)
    requires era == (z + 719_468) / 146_097 && doe == z + 719_468 - era * 146_097
    ensures CivilFromDays(z) == DateIn(YearOfEra(doe) + 400 * era, DayOfYear(doe))
  {
    hide YearOfEra, DayOfYear, Div;
    EraIs(z + 719_468);
  }

  // ---- and only that date ----

  function NextDay(t: Date): Date
    requires ValidDate(t)
  {
    if t.day < DaysIn(t.year, t.month) then t.(day := t.day + 1)
    else if t.month < 12 then Date(t.year, t.month + 1, 1)
    else Date(t.year + 1, 1, 1)
  }

  lemma {:induction false} NextDayNumber(t: Date)
    requires ValidDate(t)
    ensures ValidDate(NextDay(t)) && DayNumber(NextDay(t)) == DayNumber(t) + 1
  {
    YearLengths(t.year);
    hide IsLeap, DaysBeforeYear;
    assert DaysBeforeMonth(t.year + 1, 1) == 0;
    assert t.month < 12 ==>
        DaysBeforeMonth(t.year, t.month + 1) == DaysBeforeMonth(t.year, t.month) + DaysIn(t.year, t.month);
  }

  lemma {:induction false} YearsMonotone(a: int, b: int)
    requires a <= b
    ensures DaysBeforeYear(a) + 365 * (b - a) <= DaysBeforeYear(b)
    decreases b - a
  {
    if a < b {
      YearsMonotone(a, b - 1);
      YearLengths(b - 1);
      hide DaysBeforeYear, IsLeap;
    }
  }

  lemma {:induction false} InYear(t: Date)
    requires ValidDate(t)
    ensures DaysBeforeYear(t.year) <= DayNumber(t) < DaysBeforeYear(t.year + 1)
  {
    YearLengths(t.year);
    MonthStarts(t.year);
    hide DaysBeforeYear, IsLeap, DaysBeforeMonth;
    var m := t.month;
    assert m == 1 || m == 2 || m == 3 || m == 4 || m == 5 || m == 6 || m == 7 || m == 8 || m == 9 || m == 10
        || m == 11 || m == 12;
  }

  lemma {:induction false} MonthsMonotone(y: int, a: int, b: int)
    requires 1 <= a < b <= 12
    ensures DaysBeforeMonth(y, a) + DaysIn(y, a) <= DaysBeforeMonth(y, b)
    decreases b
  {
    hide IsLeap;
    if a < b - 1 {
      MonthsMonotone(y, a, b - 1);
    }
  }

  /** The number tells the year. */
  lemma {:induction false} SameYear(t: Date, u: Date)
    requires ValidDate(t) && ValidDate(u) && DayNumber(t) == DayNumber(u)
    ensures t.year == u.year
  {
    hide DaysBeforeYear, IsLeap, ValidDate, DayNumber;
    InYear(t);
    InYear(u);
    if t.year < u.year {
      YearsMonotone(t.year + 1, u.year);
    } else if u.year < t.year {
      YearsMonotone(u.year + 1, t.year);
    }
  }

  /** Different dates have different numbers. */
  lemma {:induction false} DayNumberInjective(t: Date, u: Date)
    requires ValidDate(t) && ValidDate(u) && DayNumber(t) == DayNumber(u)
    ensures t == u
  {
    hide DaysBeforeYear, IsLeap, DaysBeforeMonth, DaysIn;
    SameYear(t, u);
    if t.month < u.month {
      MonthsMonotone(t.year, t.month, u.month);
    } else if u.month < t.month {
      MonthsMonotone(t.year, u.month, t.month);
    }
  }

  /** Every date is the conversion of its own number. */
  lemma {:induction false} CalendarComplete(t: Date)
    requires ValidDate(t)
    ensures CivilFromDays(DayNumber(t)) == t
  {
    CalendarExact(DayNumber(t));
    hide CivilFromDays, DayNumber, ValidDate;
    DayNumberInjective(CivilFromDays(DayNumber(t)), t);
  }

  /** The day after a day is the next day of the calendar. */
  lemma {:induction false} CalendarSteps(z: int)
    ensures ValidDate(CivilFromDays(z)) && CivilFromDays(z + 1) == NextDay(CivilFromDays(z))
  {
    CalendarExact(z);
    hide CivilFromDays, DayNumber, ValidDate, NextDay;
    NextDayNumber(CivilFromDays(z));
    CalendarComplete(NextDay(CivilFromDays(z)));
  }

  /** The epoch. */
  lemma {:induction false} Epoch()
    ensures CivilFromDays(0) == Date(1970, 1, 1)
  {
    YearLengths(1970);
    assert DayNumber(Date(1970, 1, 1)) == 0;
    CalendarComplete(Date(1970, 1, 1));
  }

  // ---- timestamps ----

  datatype Civil = Civil(date: Date, hour: int, minute: int, second: int)

  /** `civil_from_unix_ms`. */
  function CivilFromUnixMs(ms: nat): Civil {
    var secs := ms / 1000;
    var sod := secs % 86_400;
    Civil(CivilFromDays(secs / 86_400), sod / 3600, sod % 3600 / 60, sod % 60)
  }

  /**
   * Every u64 gives a date whose year fits an i32 and prints in nine digits, a time of day, and
   * together the second it came from.
   */
  lemma {:induction false} TimestampExact(ms: nat)
    requires ms < U64_LIMIT
    ensures
      var c := CivilFromUnixMs(ms);
      && ValidDate(c.date) && 1970 <= c.date.year < 1_000_000_000 < I32_LIMIT
      && 0 <= c.hour < 24 && 0 <= c.minute < 60 && 0 <= c.second < 60
      && ((DayNumber(c.date) * 24 + c.hour) * 60 + c.minute) * 60 + c.second == ms / 1000
  {
    hide CivilFromDays, DaysBeforeYear, DayNumber, ValidDate, IsLeap;
    var secs := ms / 1000;
    var days := secs / 86_400;
    CalendarExact(days);
    InYear(CivilFromDays(days));
    DaysBound(ms);
    YearBound(CivilFromDays(days).year, days);
    TimeOfDay(secs);
  }

  lemma DaysBound(ms: nat)
    requires ms < U64_LIMIT
    ensures 0 <= ms / 1000 / 86_400 < 300_000_000_000
  {
  }

  lemma {:induction false} TimeOfDay(secs: nat)
    ensures
      var sod := secs % 86_400;
      && 0 <= sod / 3600 < 24 && 0 <= sod % 3600 / 60 < 60 && 0 <= sod % 60 < 60
      && ((secs / 86_400 * 24 + sod / 3600) * 60 + sod % 3600 / 60) * 60 + sod % 60 == secs
  {
    var sod := secs % 86_400;
    var h, r := sod / 3600, sod % 3600;
    assert sod == 3600 * h + r;
    assert r % 60 == sod % 60;
  }

  lemma {:induction false} YearBound(y: int, days: int)
    requires 0 <= days < 300_000_000_000 && DaysBeforeYear(y) <= days < DaysBeforeYear(y + 1)
    ensures 1970 <= y < 1_000_000_000
  {
    YearLengths(1970);
    hide DaysBeforeYear, IsLeap;
    if y < 1970 {
      YearsMonotone(y + 1, 1970);
    } else if y >= 1_000_000_000 {
      YearsMonotone(1970, y);
    }
  }

  // ---- labels ----

  datatype LockTime = None | DaaScore(score: nat) | Timestamp(civil: Civil)

  /** `classify_lock_time`. */
  function Classify(lock: nat): LockTime {
    if lock == 0 then None
    else if lock < LOCK_TIME_THRESHOLD then DaaScore(lock)
    else Timestamp(CivilFromUnixMs(lock))
  }

  function Digit(d: nat): char
    requires d < 10
  {
    "0123456789"[d]
  }

  /** Decimal digits, at least one. */
  function Decimal(v: nat): (s: string)
    ensures |s| > 0
  {
    if v < 10 then [Digit(v)] else Decimal(v / 10) + [Digit(v % 10)]
  }

  /** Padded with zeros to at least `width` digits. */
  function Padded(v: nat, width: nat): (s: string)
    ensures |s| == if |Decimal(v)| < width then width else |Decimal(v)|
  {
    var digits := Decimal(v);
    if |digits| < width then seq(width - |digits|, i => '0') + digits else digits
  }

  /** The pieces that are written, in order. */
  function Pieces(t: LockTime): seq<string>
    requires t.Timestamp? ==>
               && t.civil.date.year >= 0 && t.civil.date.month >= 0 && t.civil.date.day >= 0
               && t.civil.hour >= 0 && t.civil.minute >= 0
  {
    match t
    case None => []
    case DaaScore(d) => ["Locked until DAA ", Decimal(d)]
    case Timestamp(c) =>
      ["Locked until ", Padded(c.date.year, 4), "-", Padded(c.date.month, 2), "-", Padded(c.date.day, 2),
       " ", Padded(c.hour, 2), ":", Padded(c.minute, 2), " UTC"]
  }

  function Joined(pieces: seq<string>): string {
    if pieces == [] then [] else Joined(pieces[..|pieces| - 1]) + pieces[|pieces| - 1]
  }

  function Pow10(n: nat): (p: nat)
    ensures p > 0
  {
    if n == 0 then 1 else 10 * Pow10(n - 1)
  }

  lemma {:induction false} DecimalLength(v: nat, n: nat)
    requires n > 0 && v < Pow10(n)
    ensures |Decimal(v)| <= n
  {
    if v >= 10 {
      assert n > 1 by {
        assert Pow10(1) == 10;
      }
      DecimalLength(v / 10, n - 1);
    }
  }

  lemma {:induction false} Powers()
    ensures Pow10(2) == 100 && Pow10(9) == 1_000_000_000 && Pow10(12) == 1_000_000_000_000
  {
    assert Pow10(2) == 100;
    assert Pow10(4) == 10_000;
    assert Pow10(6) == 1_000_000;
    assert Pow10(8) == 100_000_000;
    assert Pow10(10) == 10_000_000_000;
  }

  lemma {:induction false} Fields(lock: nat)
    requires lock < U64_LIMIT
    ensures
      var t := Classify(lock);
      t.Timestamp? ==>
        && 1970 <= t.civil.date.year < 1_000_000_000 && 1 <= t.civil.date.month <= 12 && 1 <= t.civil.date.day <= 31
        && 0 <= t.civil.hour < 24 && 0 <= t.civil.minute < 60
  {
    TimestampExact(lock);
    hide CivilFromDays, DayNumber, IsLeap;
  }

  /** The whole label. */
  function Label(lock: nat): string
    requires lock < U64_LIMIT
  {
    Fields(lock);
    Joined(Pieces(Classify(lock)))
  }

  lemma {:induction false} TwoDigits(v: nat)
    requires v < 100
    ensures |Padded(v, 2)| == 2
  {
    Powers();
    DecimalLength(v, 2);
    hide Decimal;
  }

  lemma {:induction false} JoinedTwo(a: string, b: string)
    ensures Joined([a, b]) == a + b
  {
    var one: seq<string> := [a];
    assert [a, b][..1] == one && one[..0] == [] && Joined(one) == [] + a;
  }

  lemma {:induction false} JoinedMore(p: seq<string>, a: string)
    ensures |Joined(p + [a])| == |Joined(p)| + |a|
  {
    assert (p + [a])[..|p|] == p;
  }

  /** Every label fits the buffer: 38 characters at most. */
  lemma {:induction false} LabelFits(lock: nat)
    requires lock < U64_LIMIT
    ensures |Label(lock)| <= 38
  {
    hide Joined, Padded, Decimal, CivilFromUnixMs;
    Fields(lock);
    Powers();
    match Classify(lock) {
      case None => NothingJoined();
      case DaaScore(d) =>
        DecimalLength(d, 12);
        JoinedTwo("Locked until DAA ", Decimal(d));
      case Timestamp(c) =>
        TimestampLength(c);
    }
  }

  lemma NothingJoined()
    ensures Joined([]) == []
  {
  }

  lemma {:induction false} TimestampLength(c: Civil)
    requires 0 <= c.date.year < 1_000_000_000 && 0 <= c.date.month < 100 && 0 <= c.date.day < 100 && 0 <= c.hour < 100
              && 0 <= c.minute < 100
    ensures |Joined(Pieces(Timestamp(c)))| <= 38
  {
    hide Joined, Padded, Decimal;
    Powers();
    var y, m, d, h, n := Padded(c.date.year, 4), Padded(c.date.month, 2), Padded(c.date.day, 2), Padded(c.hour, 2),
        Padded(c.minute, 2);
    DecimalLength(c.date.year, 9);
    TwoDigits(c.date.month);
    TwoDigits(c.date.day);
    TwoDigits(c.hour);
    TwoDigits(c.minute);
    var p2 := ["Locked until ", y];
    var p3 := p2 + ["-"];
    var p4 := p3 + [m];
    var p5 := p4 + ["-"];
    var p6 := p5 + [d];
    var p7 := p6 + [" "];
    var p8 := p7 + [h];
    var p9 := p8 + [":"];
    var p10 := p9 + [n];
    JoinedTwo("Locked until ", y);
    JoinedMore(p2, "-");
    JoinedMore(p3, m);
    JoinedMore(p4, "-");
    JoinedMore(p5, d);
    JoinedMore(p6, " ");
    JoinedMore(p7, h);
    JoinedMore(p8, ":");
    JoinedMore(p9, n);
    JoinedMore(p10, " UTC");
    assert Pieces(Timestamp(c)) == p10 + [" UTC"];
  }

  // ---- reading a label back ----

  predicate IsDigits(s: string) {
    forall i :: 0 <= i < |s| ==> '0' <= s[i] <= '9'
  }

  /** What digits say, the most significant first. */
  function Reads(s: string): nat
    requires IsDigits(s)
  {
    if s == [] then 0 else 10 * Reads(s[..|s| - 1]) + (s[|s| - 1] as int - '0' as int)
  }

  /** Digits that say `v`. */
  predicate Says(s: string, v: int) {
    IsDigits(s) && Reads(s) == v
  }

  /** A number as one writes it: some digits, and no zero in front of others. */
  predicate Numeral(s: string) {
    |s| > 0 && (|s| > 1 ==> s[0] != '0')
  }

  lemma {:induction false} DigitSays(d: nat)
    requires d < 10
    ensures '0' <= Digit(d) <= '9' && Digit(d) as int - '0' as int == d && (d > 0 ==> Digit(d) != '0')
  {
  }

  lemma {:induction false} DecimalSays(v: nat)
    ensures Says(Decimal(v), v) && Numeral(Decimal(v)) && (v > 0 ==> Decimal(v)[0] != '0')
  {
    hide Digit;
    DigitSays(v % 10);
    if v < 10 {
      assert Decimal(v)[..0] == [] && Reads(Decimal(v)[..0]) == 0;
    } else {
      DecimalSays(v / 10);
      assert Decimal(v)[..|Decimal(v)| - 1] == Decimal(v / 10);
    }
  }

  lemma {:induction false} ZerosSay(n: nat)
    ensures Says(seq(n, i => '0'), 0)
  {
    var z := seq(n, i => '0');
    if n > 0 {
      assert z[..n - 1] == seq(n - 1, i => '0');
      ZerosSay(n - 1);
    }
  }

  /** Zeros in front change nothing. */
  lemma {:induction false} LeadingZeros(z: string, s: string)
    requires Says(z, 0) && IsDigits(s)
    ensures Says(z + s, Reads(s))
  {
    if s == [] {
      assert z + s == z;
    } else {
      var n := |s| - 1;
      assert (z + s)[..|z + s| - 1] == z + s[..n];
      LeadingZeros(z, s[..n]);
    }
  }

  lemma {:induction false} PaddedSays(v: nat, width: nat)
    ensures Says(Padded(v, width), v)
  {
    hide Decimal;
    DecimalSays(v);
    if |Decimal(v)| < width {
      var n := width - |Decimal(v)|;
      ZerosSay(n);
      LeadingZeros(seq(n, i => '0'), Decimal(v));
    }
  }

  /** The label of a lock in blocks: the text, and then the number. */
  predicate ScoreLabel(s: string, lock: nat) {
    && |s| > 17
    && s[..17] == "Locked until DAA "
    && Says(s[17..], lock) && Numeral(s[17..])
  }

  /** The label of a lock in time: date and time of day in their places, counted from the end behind the year. */
  predicate TimeLabel(s: string, c: Civil) {
    var n := |s|;
    && n >= 33 && (c.date.year < 10_000 ==> n == 33)
    && s[..13] == "Locked until "
    && Says(s[13..n - 16], c.date.year)
    && s[n - 16] == '-' && Says(s[n - 15..n - 13], c.date.month)
    && s[n - 13] == '-' && Says(s[n - 12..n - 10], c.date.day)
    && s[n - 10] == ' ' && Says(s[n - 9..n - 7], c.hour)
    && s[n - 7] == ':' && Says(s[n - 6..n - 4], c.minute)
    && s[n - 4..] == " UTC"
  }

  /** What a label says. */
  predicate LabelSays(s: string, lock: nat) {
    if lock == 0 then s == []
    else if lock < 500_000_000_000 then ScoreLabel(s, lock)
    else TimeLabel(s, CivilFromUnixMs(lock))
  }

  lemma {:induction false} JoinedEnd(p: seq<string>, a: string)
    ensures Joined(p + [a]) == Joined(p) + a
  {
    assert (p + [a])[..|p|] == p;
  }

  lemma {:induction false} JoinedTime(y: string, m: string, d: string, h: string, i: string)
    ensures Joined(["Locked until ", y, "-", m, "-", d, " ", h, ":", i, " UTC"])
              == "Locked until " + y + "-" + m + "-" + d + " " + h + ":" + i + " UTC"
  {
    hide Joined;
    var p2 := ["Locked until ", y];
    var p3 := p2 + ["-"];
    var p4 := p3 + [m];
    var p5 := p4 + ["-"];
    var p6 := p5 + [d];
    var p7 := p6 + [" "];
    var p8 := p7 + [h];
    var p9 := p8 + [":"];
    var p10 := p9 + [i];
    JoinedTwo("Locked until ", y);
    JoinedEnd(p2, "-");
    JoinedEnd(p3, m);
    JoinedEnd(p4, "-");
    JoinedEnd(p5, d);
    JoinedEnd(p6, " ");
    JoinedEnd(p7, h);
    JoinedEnd(p8, ":");
    JoinedEnd(p9, i);
    JoinedEnd(p10, " UTC");
    assert p10 + [" UTC"] == ["Locked until ", y, "-", m, "-", d, " ", h, ":", i, " UTC"];
  }

  lemma {:induction false} TimePlaces(y: string, m: string, d: string, h: string, i: string)
    requires |m| == |d| == |h| == |i| == 2
    ensures
      var s := "Locked until " + y + "-" + m + "-" + d + " " + h + ":" + i + " UTC";
      var n := |s|;
      && n == 29 + |y| && s[..13] == "Locked until " && s[13..n - 16] == y
      && s[n - 16] == '-' && s[n - 15..n - 13] == m && s[n - 13] == '-' && s[n - 12..n - 10] == d
      && s[n - 10] == ' ' && s[n - 9..n - 7] == h && s[n - 7] == ':' && s[n - 6..n - 4] == i && s[n - 4..] == " UTC"
  {
  }

  lemma {:induction false} TimeSays(c: Civil)
    requires 0 <= c.date.year && 0 <= c.date.month < 100 && 0 <= c.date.day < 100 && 0 <= c.hour < 100
              && 0 <= c.minute < 100
    ensures TimeLabel(Joined(Pieces(Timestamp(c))), c)
  {
    hide Joined, Padded, Decimal, Reads, IsDigits;
    TwoDigits(c.date.month);
    TwoDigits(c.date.day);
    TwoDigits(c.hour);
    TwoDigits(c.minute);
    PaddedSays(c.date.year, 4);
    PaddedSays(c.date.month, 2);
    PaddedSays(c.date.day, 2);
    PaddedSays(c.hour, 2);
    PaddedSays(c.minute, 2);
    YearWidth(c.date.year);
    var y, m, d := Padded(c.date.year, 4), Padded(c.date.month, 2), Padded(c.date.day, 2);
    var h, i := Padded(c.hour, 2), Padded(c.minute, 2);
    JoinedTime(y, m, d, h, i);
    TimePlaces(y, m, d, h, i);
  }

  lemma {:induction false} YearWidth(y: nat)
    ensures |Padded(y, 4)| >= 4 && (y < 10_000 ==> |Padded(y, 4)| == 4)
  {
    hide Decimal;
    if y < 10_000 {
      assert Pow10(2) == 100 && Pow10(4) == 10_000;
      DecimalLength(y, 4);
    }
  }

  /** Every label says its lock. */
  lemma {:induction false} LabelIs(lock: nat)
    requires lock < U64_LIMIT
    ensures LabelSays(Label(lock), lock)
  {
    hide Joined, Decimal, CivilFromUnixMs, Pieces, TimeLabel, Reads, IsDigits;
    Fields(lock);
    if lock == 0 {
      NothingJoined();
      assert Pieces(LockTime.None) == [] by {
        NoPieces();
      }
    } else if lock < 500_000_000_000 {
      DecimalSays(lock);
      JoinedTwo("Locked until DAA ", Decimal(lock));
      ScorePieces(lock);
      ScorePlaces(Decimal(lock));
    } else {
      TimeSays(CivilFromUnixMs(lock));
    }
  }

  lemma NoPieces()
    ensures Pieces(LockTime.None) == []
  {
  }

  lemma ScorePieces(d: nat)
    ensures Pieces(DaaScore(d)) == ["Locked until DAA ", Decimal(d)]
  {
  }

  lemma ScorePlaces(d: string)
    ensures ("Locked until DAA " + d)[..17] == "Locked until DAA " && ("Locked until DAA " + d)[17..] == d
  {
  }

  /** The writer over the caller's buffer: a piece that does not fit is refused whole. */
  class Writer {
    const buf: array<char>
    var n: nat

    constructor (out: array<char>)
      ensures buf == out && n == 0
    {
      buf := out;
      n := 0;
    }

    method WriteStr(s: string) returns (ok: bool)
      requires n <= buf.Length
      modifies this`n, buf
      ensures n <= buf.Length && (ok <==> old(n) + |s| <= buf.Length)
      ensures buf[..n] == old(buf[..n]) + if ok then s else []
      ensures forall i :: n <= i < buf.Length ==> buf[i] == old(buf[i])
    {
      if n + |s| > buf.Length {
        return false;
      }
      ghost var was := buf[..n];
      for i := 0 to |s|
        invariant n == old(n) && buf[..n] == was && buf[n..n + i] == s[..i]
        invariant forall j :: n + i <= j < buf.Length ==> buf[j] == old(buf[j])
      {
        buf[n + i] := s[i];
        assert buf[n..n + i + 1] == buf[n..n + i] + [s[i]];
      }
      n := n + |s|;
      assert buf[..n] == was + s;
      return true;
    }
  }

  lemma {:induction false} PrefixFits(pieces: seq<string>, k: nat)
    requires k <= |pieces|
    ensures |Joined(pieces[..k])| <= |Joined(pieces)|
    decreases |pieces| - k
  {
    if k < |pieces| {
      assert pieces[..k + 1][..k] == pieces[..k];
      PrefixFits(pieces, k + 1);
    } else {
      assert pieces[..k] == pieces;
    }
  }

  /** `lock_time_label`: the whole label is written, nothing is dropped, and the rest of the buffer is left alone. */
  method LockTimeLabel(lock: nat, out: array<char>) returns (n: nat)
    requires lock < U64_LIMIT && out.Length == 40
    modifies out
    ensures n == |Label(lock)| <= 38 && out[..n] == Label(lock)
    ensures LabelSays(out[..n], lock)
    ensures forall i :: n <= i < 40 ==> out[i] == old(out[i])
  {
    hide Joined, Classify, Pieces, LabelSays;
    Fields(lock);
    LabelFits(lock);
    LabelIs(lock);
    var pieces := Pieces(Classify(lock));
    var w := new Writer(out);
    NothingJoined();
    for k := 0 to |pieces|
      invariant w.buf == out && w.n <= 40 && out[..w.n] == Joined(pieces[..k])
      invariant forall i :: w.n <= i < 40 ==> out[i] == old(out[i])
    {
      PrefixFits(pieces, k + 1);
      NextPiece(pieces, k);
      var ok := w.WriteStr(pieces[k]);
    }
    assert pieces[..|pieces|] == pieces;
    return w.n;
  }

  lemma {:induction false} NextPiece(pieces: seq<string>, k: nat)
    requires k < |pieces|
    ensures Joined(pieces[..k + 1]) == Joined(pieces[..k]) + pieces[k]
  {
    assert pieces[..k + 1][..k] == pieces[..k];
  }
}
