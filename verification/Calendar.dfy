/**
 Dates and instants as ECMA-262 defines them (section 21.4.1, "Time Values and Time Range"
 to "Date Time String Format"): proleptic Gregorian calendar, milliseconds since 1970, for
 the four-digit years 0000 to 9999.
 */
module Calendar {

  const DAY: int := 86_400_000

  datatype Date = Date(year: int, month: int, day: int)

  // ---------------------------------------------------------------- years

  predicate Leap(y: int) {
    y % 4 == 0 && (y % 100 != 0 || y % 400 == 0)
  }

  function DaysInYear(y: int): int {
    if Leap(y) then 366 else 365
  }

  /** DayFromYear: the number of the first day of year y. Division rounds down. */
  function DayFromYear(y: int): int {
    365 * (y - 1970) + (y - 1969) / 4 - (y - 1901) / 100 + (y - 1601) / 400
  }

  lemma {:induction false} YearLength(y: int)
    ensures DayFromYear(y + 1) == DayFromYear(y) + DaysInYear(y)
  {
    Quarter(y);
    Century(y);
    Cycle(y);
  }

  lemma {:induction false} Quarter(y: int)
    ensures (y - 1968) / 4 == (y - 1969) / 4 + if y % 4 == 0 then 1 else 0
  {
  }

  lemma {:induction false} Century(y: int)
    ensures (y - 1900) / 100 == (y - 1901) / 100 + if y % 100 == 0 then 1 else 0
    ensures y % 100 == 0 ==> y % 4 == 0
  {
  }

  lemma {:induction false} Cycle(y: int)
    ensures (y - 1600) / 400 == (y - 1601) / 400 + if y % 400 == 0 then 1 else 0
    ensures y % 400 == 0 ==> y % 100 == 0
  {
  }

  lemma {:induction false} YearsOrdered(y: int, z: int)
    requires y <= z
    ensures DayFromYear(y) + 365 * (z - y) <= DayFromYear(z)
    decreases z - y
  {
    if y < z {
      YearsOrdered(y, z - 1);
      YearLength(z - 1);
    }
  }

  // ---------------------------------------------------------------- months

  function DaysInMonth(y: int, m: int): int {
    if m == 2 then (if Leap(y) then 29 else 28)
    else if m == 4 || m == 6 || m == 9 || m == 11 then 30
    else 31
  }

  /** Day within the year on which month m begins (the table of MonthFromTime). */
  function MonthStart(y: int, m: int): int
    requires 1 <= m <= 13
  {
    (match m
     case 1 => 0 case 2 => 31 case 3 => 59 case 4 => 90 case 5 => 120 case 6 => 151 case 7 => 181
     case 8 => 212 case 9 => 243 case 10 => 273 case 11 => 304 case 12 => 334 case _ => 365) +
    if m > 2 && Leap(y) then 1 else 0
  }

  lemma {:induction false} MonthLength(y: int, m: int)
    requires 1 <= m <= 12
    ensures MonthStart(y, m + 1) == MonthStart(y, m) + DaysInMonth(y, m)
    ensures MonthStart(y, 13) == DaysInYear(y)
  {
  }

  lemma {:induction false} MonthsOrdered(y: int, m: int, n: int)
    requires 1 <= m <= n <= 13
    ensures MonthStart(y, m) <= MonthStart(y, n)
    decreases n - m
  {
    if m < n {
      MonthsOrdered(y, m, n - 1);
      MonthLength(y, n - 1);
    }
  }

  /** MonthFromTime: the month of day k of the year, searched upwards from m. */
  function MonthOf(y: int, k: int, m: int): (r: int)
    requires 1 <= m <= 12
    ensures 1 <= r <= 12
    decreases 12 - m
  {
    if m == 12 || k < MonthStart(y, m + 1) then m else MonthOf(y, k, m + 1)
  }

  lemma {:induction false} MonthFound(y: int, k: int, m: int)
    requires 1 <= m <= 12 && MonthStart(y, m) <= k < DaysInYear(y)
    ensures MonthStart(y, MonthOf(y, k, m)) <= k < MonthStart(y, MonthOf(y, k, m) + 1)
    decreases 12 - m
  {
    MonthLength(y, m);
    if m < 12 && MonthStart(y, m + 1) <= k {
      MonthFound(y, k, m + 1);
    }
  }

  // ---------------------------------------------------------------- dates

  predicate ValidDate(d: Date) {
    0 <= d.year <= 9999 && 1 <= d.month <= 12 && 1 <= d.day <= DaysInMonth(d.year, d.month)
  }

  /** MakeDay: the number of days from 1970-01-01 to d. */
  function DayNumber(d: Date): int
    requires 1 <= d.month <= 12
  {
    DayFromYear(d.year) + MonthStart(d.year, d.month) + d.day - 1
  }

  /** Days of the years 0000 to 9999. */
  predicate InCalendar(n: int) {
    -719_528 <= n < 2_932_897
  }

  lemma {:induction false} CalendarEnds()
    ensures DayFromYear(0) == -719_528 && DayFromYear(10000) == 2_932_897
  {
  }

  /**
   YearFromTime, MonthFromTime and DateFromTime together: the date of day n, whose year is
   the largest one that has begun, searched upwards from y.
   */
  function DateFrom(n: int, y: int): Date
    decreases n - DayFromYear(y)
  {
    YearLength(y);
    if n < DayFromYear(y + 1) then DateInYear(y, n - DayFromYear(y)) else DateFrom(n, y + 1)
  }

  function DateInYear(y: int, k: int): Date {
    var m := MonthOf(y, k, 1);
    Date(y, m, k - MonthStart(y, m) + 1)
  }

  function DateOf(n: int): Date {
    DateFrom(n, 0)
  }

  lemma {:induction false} DateFound(n: int, y: int)
    requires 0 <= y && DayFromYear(y) <= n && InCalendar(n)
    ensures ValidDate(DateFrom(n, y)) && DayNumber(DateFrom(n, y)) == n
    decreases n - DayFromYear(y)
  {
    YearLength(y);
    if n < DayFromYear(y + 1) {
      YearBounds(n, y);
      MonthInYear(y, n - DayFromYear(y));
    } else {
      DateFound(n, y + 1);
    }
  }

  /** The date of a day is a date of the calendar and has that day number. */
  lemma {:induction false} DateOfDay(n: int)
    requires InCalendar(n)
    ensures ValidDate(DateOf(n)) && DayNumber(DateOf(n)) == n
  {
    CalendarEnds();
    DateFound(n, 0);
  }

  lemma {:induction false} MonthInYear(y: int, k: int)
    requires 0 <= k < DaysInYear(y)
    ensures 1 <= DateInYear(y, k).month <= 12
    ensures 1 <= DateInYear(y, k).day <= DaysInMonth(y, DateInYear(y, k).month)
  {
    MonthFound(y, k, 1);
    MonthLength(y, MonthOf(y, k, 1));
  }

  lemma {:induction false} YearBounds(n: int, y: int)
    requires InCalendar(n) && DayFromYear(y) <= n < DayFromYear(y + 1)
    ensures 0 <= y <= 9999
  {
    CalendarEnds();
    if y < 0 {
      YearsOrdered(y + 1, 0);
    } else if y > 9999 {
      YearsOrdered(10000, y);
    }
  }

  lemma {:induction false} DayOfValidDate(d: Date)
    requires ValidDate(d)
    ensures InCalendar(DayNumber(d))
    ensures DayFromYear(d.year) <= DayNumber(d) < DayFromYear(d.year + 1)
  {
    CalendarEnds();
    YearLength(d.year);
    MonthLength(d.year, d.month);
    MonthsOrdered(d.year, 1, d.month);
    MonthsOrdered(d.year, d.month + 1, 13);
    YearsOrdered(0, d.year);
    YearsOrdered(d.year + 1, 10000);
  }

  predicate Before(a: Date, b: Date) {
    a.year < b.year ||
    (a.year == b.year && (a.month < b.month || (a.month == b.month && a.day < b.day)))
  }

  lemma {:induction false} BeforeIsEarlier(a: Date, b: Date)
    requires ValidDate(a) && ValidDate(b) && Before(a, b)
    ensures DayNumber(a) < DayNumber(b)
  {
    DayOfValidDate(a);
    DayOfValidDate(b);
    if a.year < b.year {
      YearsOrdered(a.year + 1, b.year);
    } else if a.month < b.month {
      MonthLength(a.year, a.month);
      MonthsOrdered(a.year, a.month + 1, b.month);
    }
  }

  /** Calendar order is day order, so every day has one date. */
  lemma {:induction false} DateOrder(a: Date, b: Date)
    requires ValidDate(a) && ValidDate(b)
    ensures Before(a, b) <==> DayNumber(a) < DayNumber(b)
    ensures a == b <==> DayNumber(a) == DayNumber(b)
  {
    if Before(a, b) {
      BeforeIsEarlier(a, b);
    } else if a != b {
      BeforeIsEarlier(b, a);
    }
  }

  lemma {:induction false} DateOfDayNumber(d: Date)
    requires ValidDate(d)
    ensures InCalendar(DayNumber(d)) && DateOf(DayNumber(d)) == d
  {
    DayOfValidDate(d);
    DateOfDay(DayNumber(d));
    DateOrder(DateOf(DayNumber(d)), d);
  }

  /** The day after d, by the rules of the wall calendar. */
  function NextDay(d: Date): Date {
    if d.day < DaysInMonth(d.year, d.month) then d.(day := d.day + 1)
    else if d.month < 12 then Date(d.year, d.month + 1, 1)
    else Date(d.year + 1, 1, 1)
  }

  /** The closed formulas count days: the next date has the next number. */
  lemma {:induction false} NextDayNumber(d: Date)
    requires ValidDate(d)
    ensures DayNumber(NextDay(d)) == DayNumber(d) + 1
    ensures ValidDate(NextDay(d)) <==> d != Date(9999, 12, 31)
  {
    MonthLength(d.year, d.month);
    YearLength(d.year);
  }

  // ---------------------------------------------------------------- digits

  function Digit(n: int): char
    requires 0 <= n <= 9
  {
    ('0' as int + n) as char
  }

  predicate IsDigit(c: char) { '0' <= c <= '9' }

  /** n in decimal, padded with zeros to the given width. */
  function Pad(n: int, width: nat): (s: string)
    ensures |s| == width
    decreases width
  {
    if width == 0 then "" else Pad(n / 10, width - 1) + [Digit(n % 10)]
  }

  predicate Digits(s: string) {
    forall i :: 0 <= i < |s| ==> IsDigit(s[i])
  }

  /** The number a string of digits denotes. */
  function Value(s: string): nat
    requires Digits(s)
  {
    if s == "" then 0 else Value(s[..|s| - 1]) * 10 + (s[|s| - 1] as int - '0' as int)
  }

  function Power10(width: nat): nat {
    if width == 0 then 1 else 10 * Power10(width - 1)
  }

  lemma {:induction false} PadValue(n: nat, width: nat)
    requires n < Power10(width)
    ensures Digits(Pad(n, width)) && Value(Pad(n, width)) == n
  {
    if width > 0 {
      PadValue(n / 10, width - 1);
      var front := Pad(n / 10, width - 1);
      assert Pad(n, width)[..width - 1] == front;
    }
  }

  // ---------------------------------------------------------------- string order

  /** The < of the language on strings: by code unit, a proper prefix first. */
  predicate TextLess(a: string, b: string) {
    b != "" && (a == "" || a[0] < b[0] || (a[0] == b[0] && TextLess(a[1..], b[1..])))
  }

  lemma {:induction false} TextIrreflexive(a: string)
    ensures !TextLess(a, a)
  {
    if a != "" {
      TextIrreflexive(a[1..]);
    }
  }

  lemma {:induction false} TextTotal(a: string, b: string)
    ensures TextLess(a, b) || a == b || TextLess(b, a)
    ensures !(TextLess(a, b) && TextLess(b, a))
  {
    if a != "" && b != "" {
      TextTotal(a[1..], b[1..]);
      assert a == [a[0]] + a[1..] && b == [b[0]] + b[1..];
    }
  }

  lemma {:induction false} TextTransitive(a: string, b: string, c: string)
    requires TextLess(a, b) && TextLess(b, c)
    ensures TextLess(a, c)
  {
    if a != "" {
      if a[0] == b[0] == c[0] {
        TextTransitive(a[1..], b[1..], c[1..]);
      }
    }
  }

  /** Fixed-width pieces compare piece by piece. */
  lemma {:induction false} TextLessConcat(a: string, b: string, x: string, y: string)
    requires |a| == |b|
    ensures TextLess(a + x, b + y) <==> TextLess(a, b) || (a == b && TextLess(x, y))
  {
    if a == "" {
      assert a + x == x && b + y == y;
    } else {
      TextLessConcat(a[1..], b[1..], x, y);
      assert (a + x)[1..] == a[1..] + x && (b + y)[1..] == b[1..] + y;
      assert a == [a[0]] + a[1..] && b == [b[0]] + b[1..];
    }
  }

  lemma {:induction false} PadOrder(m: nat, n: nat, width: nat)
    requires m < Power10(width) && n < Power10(width)
    ensures TextLess(Pad(m, width), Pad(n, width)) <==> m < n
    ensures Pad(m, width) == Pad(n, width) <==> m == n
  {
    if width > 0 {
      PadOrder(m / 10, n / 10, width - 1);
      var a, b := Pad(m / 10, width - 1), Pad(n / 10, width - 1);
      TextLessConcat(a, b, [Digit(m % 10)], [Digit(n % 10)]);
      if Pad(m, width) == Pad(n, width) {
        assert a == Pad(m, width)[..width - 1] == b;
        assert Pad(m, width)[width - 1] == Digit(m % 10) == Digit(n % 10);
      }
    }
  }
}
