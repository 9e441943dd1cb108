/**
 KST date ranges of the landing dashboard (web/app/admin/_lib/range.ts).

 Instants are whole milliseconds. Date.parse is modelled on the one shape the program
 hands it, YYYY-MM-DDTHH:MM:SS.mmm+HH:MM, with NaN (None) for an element out of range.
 */
module KstRange {
  import opened Basics
  import opened Calendar

  const KST: int := 9 * 60 * 60 * 1000

  /** n days in milliseconds. */
  function Days(n: int): int {
    DAY * n
  }

  /** The number of the Korean day an instant falls in. */
  function KoreanDay(t: int): int {
    (t + KST) / DAY
  }

  /** The first instant of a Korean day. */
  function Midnight(n: int): int {
    DAY * n - KST
  }

  lemma {:induction false} DayOfMidnight(t: int, n: int)
    ensures Midnight(n) <= t < Midnight(n) + DAY <==> KoreanDay(t) == n
    ensures KoreanDay(t) == (t + KST) / DAY
    ensures Midnight(n) == Days(n) - KST
  {
  }

  lemma {:induction false} DaysEarlier(t: int, k: int)
    ensures KoreanDay(t - Days(k)) == KoreanDay(t) - k
    ensures Midnight(KoreanDay(t) - k) == Midnight(KoreanDay(t)) - Days(k)
  {
    DayOfMidnight(t, KoreanDay(t));
    DayOfMidnight(t - Days(k), KoreanDay(t) - k);
  }

  // ---------------------------------------------------------------- texts of dates

  function DateText(d: Date): (s: string)
    ensures |s| == 10
  {
    Pad(d.year, 4) + "-" + Pad(d.month, 2) + "-" + Pad(d.day, 2)
  }

  /** The isDate regular expression: four digits, two digits, two digits. */
  predicate IsDate(s: string) {
    |s| == 10 && Digits(s[..4]) && s[4] == '-' && Digits(s[5..7]) && s[7] == '-' && Digits(s[8..])
  }

  function DateIn(s: string): Date
    requires IsDate(s)
  {
    Date(Value(s[..4]), Value(s[5..7]), Value(s[8..]))
  }

  /** Four digits, a dash, two digits, a dash and two digits, and nothing else. */
  lemma {:induction false} DateShape(s: string)
    ensures IsDate(s) <==>
            |s| == 10 && forall i :: 0 <= i < 10 ==> if i == 4 || i == 7 then s[i] == '-' else '0' <= s[i] <= '9'
  {
    if |s| == 10 {
      DigitsOf(s, 0, 4);
      DigitsOf(s, 5, 7);
      DigitsOf(s, 8, 10);
      assert s[8..] == s[8..10] && s[..4] == s[0..4];
    }
  }

  lemma {:induction false} DigitsOf(s: string, i: nat, j: nat)
    requires i <= j <= |s|
    ensures Digits(s[i..j]) <==> forall k :: i <= k < j ==> '0' <= s[k] <= '9'
  {
    assert forall k :: i <= k < j ==> s[k] == s[i..j][k - i];
    assert forall k :: 0 <= k < j - i ==> s[i..j][k] == s[i + k];
  }

  /** A text of a day that exists. */
  predicate IsRealDate(s: string) {
    IsDate(s) && ValidDate(DateIn(s))
  }

  function TimeText(ms: int): string
    requires 0 <= ms < DAY
  {
    "T" + Pad(ms / 3_600_000, 2) + ":" + Pad(ms / 60_000 % 60, 2) + ":" + Pad(ms / 1000 % 60, 2) +
    "." + Pad(ms % 1000, 3) + "Z"
  }

  /** toISOString, for an instant whose UTC year has four digits. */
  function IsoText(ms: int): string
    requires InCalendar(ms / DAY)
  {
    DateText(DateOf(ms / DAY)) + TimeText(ms % DAY)
  }

  lemma {:induction false} TimeSlices(h: string, m: string, s: string, ms: string)
    requires |h| == 2 && |m| == 2 && |s| == 2 && |ms| == 3
    ensures var t := "T" + h + ":" + m + ":" + s + "." + ms + "Z";
            |t| == 14 && t[0] == 'T' && t[1..3] == h && t[3] == ':' && t[4..6] == m && t[6] == ':' && t[7..9] == s &&
            t[9] == '.' && t[10..13] == ms && t[13] == 'Z'
  {
  }

  lemma {:induction false} TimeParts(ms: int)
    requires 0 <= ms < DAY
    ensures var h, m, s, r := ms / 3_600_000, ms / 60_000 % 60, ms / 1000 % 60, ms % 1000;
            h < 24 && ((h * 60 + m) * 60 + s) * 1000 + r == ms
  {
  }

  /** The time of day reads back as hours, minutes, seconds and milliseconds. */
  lemma {:induction false} TimeReads(ms: int)
    requires 0 <= ms < DAY
    ensures var t := TimeText(ms);
            |t| == 14 && t[0] == 'T' && t[3] == ':' && t[6] == ':' && t[9] == '.' && t[13] == 'Z' &&
            Digits(t[1..3]) && Digits(t[4..6]) && Digits(t[7..9]) && Digits(t[10..13]) &&
            Value(t[1..3]) < 24 && Value(t[4..6]) < 60 && Value(t[7..9]) < 60 &&
            ((Value(t[1..3]) * 60 + Value(t[4..6])) * 60 + Value(t[7..9])) * 1000 + Value(t[10..13]) == ms
  {
    assert Power10(2) == 100 && Power10(3) == 1000;
    TimeParts(ms);
    PadValue(ms / 3_600_000, 2);
    PadValue(ms / 60_000 % 60, 2);
    PadValue(ms / 1000 % 60, 2);
    PadValue(ms % 1000, 3);
    TimeSlices(Pad(ms / 3_600_000, 2), Pad(ms / 60_000 % 60, 2), Pad(ms / 1000 % 60, 2), Pad(ms % 1000, 3));
  }

  function KstDateStr(ms: int): string
    requires InCalendar(KoreanDay(ms))
  {
    DateText(DateOf(KoreanDay(ms)))
  }

  /** The text the program takes: the first ten characters of the shifted instant. */
  lemma {:induction false} KstDateStrIsIsoPrefix(ms: int)
    requires InCalendar(KoreanDay(ms))
    ensures InCalendar((ms + KST) / DAY) && |IsoText(ms + KST)| >= 10
    ensures IsoText(ms + KST)[..10] == KstDateStr(ms)
  {
    DayOfMidnight(ms, 0);
    var d := KstDateStr(ms);
    assert (d + TimeText((ms + KST) % DAY))[..10] == d;
  }

  /**
   Date.parse of a date text followed by a time of day and an offset. The program always
   writes the latter two out, so they are given here as the milliseconds they denote.
   */
  function DateParse(dateStr: string, timeOfDay: int, offset: int): Option<int> {
    if IsRealDate(dateStr) then Some(DayNumber(DateIn(dateStr)) * 86_400_000 + timeOfDay - offset) else None
  }

  function DayStartMs(dateStr: string): Option<int> {
    DateParse(dateStr, 0, KST)
  }

  function DayEndMs(dateStr: string): Option<int> {
    DateParse(dateStr, ((23 * 60 + 59) * 60 + 59) * 1000 + 999, KST)
  }

  // ---------------------------------------------------------------- one day

  lemma {:induction false} DateTextReads(d: Date)
    requires ValidDate(d)
    ensures IsDate(DateText(d)) && DateIn(DateText(d)) == d
  {
    assert Power10(4) == 10000 && Power10(2) == 100;
    PadValue(d.year, 4);
    PadValue(d.month, 2);
    PadValue(d.day, 2);
    SliceDate(Pad(d.year, 4), Pad(d.month, 2), Pad(d.day, 2));
  }

  lemma {:induction false} SliceDate(y: string, m: string, d: string)
    requires |y| == 4 && |m| == 2 && |d| == 2
    ensures var s := y + "-" + m + "-" + d;
            s[..4] == y && s[4] == '-' && s[5..7] == m && s[7] == '-' && s[8..] == d
  {
  }

  /** A real date starts and ends at its Korean midnights; any other text is NaN. */
  lemma {:induction false} DayBounds(s: string)
    ensures IsRealDate(s) ==>
              DayStartMs(s) == Some(Midnight(DayNumber(DateIn(s)))) &&
              DayEndMs(s) == Some(Midnight(DayNumber(DateIn(s))) + DAY - 1)
    ensures !IsRealDate(s) ==> DayStartMs(s) == None && DayEndMs(s) == None
  {
  }

  /** Two texts with the same reading are the same text. */
  lemma {:induction false} DateTextUnique(s: string)
    requires IsRealDate(s)
    ensures DateText(DateIn(s)) == s
  {
    PadOfValue(s[..4]);
    PadOfValue(s[5..7]);
    PadOfValue(s[8..]);
    assert s == s[..4] + "-" + s[5..7] + "-" + s[8..];
  }

  lemma {:induction false} PadOfValue(s: string)
    requires Digits(s)
    ensures Pad(Value(s), |s|) == s
  {
    if s != "" {
      var front, c := s[..|s| - 1], s[|s| - 1];
      PadOfValue(front);
      assert Value(s) / 10 == Value(front) && Digit(Value(s) % 10) == c;
      assert s == front + [c];
    }
  }

  /** A day text is recovered from its first instant, in every leap year and month end. */
  lemma {:induction false} DayStartRoundTrip(s: string)
    requires IsRealDate(s)
    ensures var start := DayStartMs(s);
            start.Some? && InCalendar(KoreanDay(start.value)) && KstDateStr(start.value) == s
  {
    var n := DayNumber(DateIn(s));
    DayBounds(s);
    DateOfDayNumber(DateIn(s));
    DayOfMidnight(Midnight(n), n);
    DateTextUnique(s);
  }

  /** Every instant lies inside the day it is filed under, and that day is exactly DAY long. */
  lemma {:induction false} InstantInsideItsDay(t: int)
    requires InCalendar(KoreanDay(t))
    ensures var s := KstDateStr(t);
            IsRealDate(s) && DayStartMs(s).Some? && DayEndMs(s).Some? &&
            DayStartMs(s).value <= t <= DayEndMs(s).value &&
            DayEndMs(s).value - DayStartMs(s).value == DAY - 1
  {
    DayOfInstant(t);
    DayOfMidnight(t, KoreanDay(t));
  }

  /** The bounds of the Korean day of an instant, by day number. */
  lemma {:induction false} DayOfInstant(t: int)
    requires InCalendar(KoreanDay(t))
    ensures IsRealDate(KstDateStr(t))
    ensures DayStartMs(KstDateStr(t)) == Some(Midnight(KoreanDay(t)))
    ensures DayEndMs(KstDateStr(t)) == Some(Midnight(KoreanDay(t)) + DAY - 1)
  {
    TextBoundsOfDay(KoreanDay(t));
  }

  lemma {:induction false} TextBoundsOfDay(n: int)
    requires InCalendar(n)
    ensures IsRealDate(DateText(DateOf(n)))
    ensures DayStartMs(DateText(DateOf(n))) == Some(Midnight(n))
    ensures DayEndMs(DateText(DateOf(n))) == Some(Midnight(n) + DAY - 1)
  {
    DateOfDay(n);
    TextBounds(DateOf(n), n);
  }

  lemma {:induction false} TextBounds(d: Date, n: int)
    requires ValidDate(d) && DayNumber(d) == n
    ensures IsRealDate(DateText(d))
    ensures DayStartMs(DateText(d)) == Some(Midnight(n))
    ensures DayEndMs(DateText(d)) == Some(Midnight(n) + DAY - 1)
  {
    DateTextReads(d);
    DayBounds(DateText(d));
  }

  /** Two texts that start with pieces of one width and a dash compare piece by piece. */
  lemma {:induction false} DashedOrder(a: string, b: string, x: string, y: string)
    requires |a| == |b|
    ensures TextLess(a + "-" + x, b + "-" + y) <==> TextLess(a, b) || (a == b && TextLess(x, y))
  {
    TextLessConcat(a, b, "-" + x, "-" + y);
    TextLessConcat("-", "-", x, y);
    TextIrreflexive("-");
    assert a + "-" + x == a + ("-" + x) && b + "-" + y == b + ("-" + y);
  }

  lemma {:induction false} DateTextOrder(a: Date, b: Date)
    requires ValidDate(a) && ValidDate(b)
    ensures TextLess(DateText(a), DateText(b)) <==> Before(a, b)
  {
    assert Power10(4) == 10000 && Power10(2) == 100;
    PadOrder(a.year, b.year, 4);
    PadOrder(a.month, b.month, 2);
    PadOrder(a.day, b.day, 2);
    DashedOrder(Pad(a.month, 2), Pad(b.month, 2), Pad(a.day, 2), Pad(b.day, 2));
    DateTextParts(a);
    DateTextParts(b);
    DashedOrder(Pad(a.year, 4), Pad(b.year, 4), Pad(a.month, 2) + "-" + Pad(a.day, 2),
                Pad(b.month, 2) + "-" + Pad(b.day, 2));
  }

  lemma {:induction false} DateTextParts(d: Date)
    ensures DateText(d) == Pad(d.year, 4) + "-" + (Pad(d.month, 2) + "-" + Pad(d.day, 2))
  {
  }

  /** Text order on dates is millisecond order on their instants. */
  lemma {:induction false} TextOrderIsTimeOrder(s: string, t: string)
    requires IsRealDate(s) && IsRealDate(t)
    ensures DayStartMs(s).Some? && DayStartMs(t).Some?
    ensures TextLess(s, t) <==> DayStartMs(s).value < DayStartMs(t).value
    ensures s == t <==> DayStartMs(s).value == DayStartMs(t).value
  {
    DayBounds(s);
    DayBounds(t);
    DateTextUnique(s);
    DateTextUnique(t);
    DateTextOrder(DateIn(s), DateIn(t));
    DateOrder(DateIn(s), DateIn(t));
  }

  /** The next day begins one millisecond after a day ends. */
  lemma {:induction false} DaysAreAdjacent(s: string)
    requires IsRealDate(s) && DateIn(s) != Date(9999, 12, 31)
    ensures ValidDate(NextDay(DateIn(s))) && DayEndMs(s).Some?
    ensures DayStartMs(DateText(NextDay(DateIn(s)))) == Some(DayEndMs(s).value + 1)
  {
    NextDayNumber(DateIn(s));
    TextBounds(NextDay(DateIn(s)), DayNumber(NextDay(DateIn(s))));
    DayBounds(s);
  }

  // ---------------------------------------------------------------- resolveRange

  /** A range end: null, a number, or NaN. */
  datatype Bound = Open | At(ms: int) | NotANumber

  /** What the range parameter names; anything unknown means all. */
  datatype RangeKey = Today | Days7 | Days30 | All

  function KeyOf(range: Option<string>): RangeKey {
    match range
    case None => All
    case Some(r) => if r == "today" then Today else if r == "7d" then Days7 else if r == "30d" then Days30 else All
  }

  datatype RangeName = Named(key: RangeKey) | CustomDates

  datatype ResolvedRange = ResolvedRange(name: RangeName, fromMs: Bound, toMs: Bound, fromStr: string, toStr: string)

  function BoundOf(t: Option<int>): Bound {
    if t.Some? then At(t.value) else NotANumber
  }

  predicate GivenDate(s: Option<string>) {
    s.Some? && IsDate(s.value)
  }

  function Custom(a: string, b: string): ResolvedRange {
    ResolvedRange(CustomDates, BoundOf(DayStartMs(a)), BoundOf(DayEndMs(b)), a, b)
  }

  predicate NoDate(from: Option<string>, to: Option<string>) {
    !GivenDate(from) && !GivenDate(to)
  }

  /** The three parameters as they arrive in the address; only presets look 29 days back. */
  function ResolveRange(range: Option<string>, from: Option<string>, to: Option<string>, now: int): ResolvedRange
    requires InCalendar(KoreanDay(now)) && (NoDate(from, to) ==> InCalendar(KoreanDay(now) - 29))
  {
    if GivenDate(from) || GivenDate(to) then
      var f := if GivenDate(from) then from.value else KstDateStr(now);
      var t := if GivenDate(to) then to.value else KstDateStr(now);
      if !TextLess(t, f) then Custom(f, t) else Custom(t, f)
    else Preset(KeyOf(range), now)
  }

  /** A malformed date counts as none. */
  lemma {:induction false} MalformedIgnored(
      range: Option<string>, from: Option<string>, to: Option<string>, bad: string, now: int)
    requires !IsDate(bad) && InCalendar(KoreanDay(now)) && InCalendar(KoreanDay(now) - 29)
    ensures ResolveRange(range, Some(bad), to, now) == ResolveRange(range, None, to, now)
    ensures ResolveRange(range, from, Some(bad), now) == ResolveRange(range, from, None, now)
  {
  }

  function Preset(key: RangeKey, now: int): ResolvedRange
    requires InCalendar(KoreanDay(now)) && InCalendar(KoreanDay(now) - 29)
  {
    Between(key, FirstInstant(key, now), now)
  }

  /** The present moment on the first day of a preset. */
  function FirstInstant(key: RangeKey, now: int): (first: int)
    requires InCalendar(KoreanDay(now)) && InCalendar(KoreanDay(now) - 29)
    ensures InCalendar(KoreanDay(first))
  {
    DaysEarlier(now, PresetDays(key) - 1);
    now - Days(PresetDays(key) - 1)
  }

  function PresetDays(key: RangeKey): int {
    match key case Today => 1 case Days7 => 7 case _ => 30
  }

  /** A preset from an instant of its first day; "all" keeps only the texts. */
  function Between(key: RangeKey, first: int, now: int): ResolvedRange
    requires InCalendar(KoreanDay(first)) && InCalendar(KoreanDay(now))
  {
    var fromStr, today := KstDateStr(first), KstDateStr(now);
    if key == All then ResolvedRange(Named(All), Open, Open, fromStr, today)
    else ResolvedRange(Named(key), BoundOf(DayStartMs(fromStr)), BoundOf(DayEndMs(today)), fromStr, today)
  }

  lemma {:induction false} BetweenBounds(key: RangeKey, first: int, now: int)
    requires InCalendar(KoreanDay(now)) && InCalendar(KoreanDay(first)) && key != All
    ensures Between(key, first, now).fromMs == At(Midnight(KoreanDay(first)))
    ensures Between(key, first, now).toMs == At(Midnight(KoreanDay(now)) + DAY - 1)
  {
    DayOfInstant(first);
    DayOfInstant(now);
  }

  lemma {:induction false} PresetDaysSpan(key: RangeKey, now: int)
    requires InCalendar(KoreanDay(now)) && InCalendar(KoreanDay(now) - 29)
    ensures var first := KoreanDay(FirstInstant(key, now));
            Midnight(first) <= now <= Midnight(KoreanDay(now)) + DAY - 1 &&
            Midnight(KoreanDay(now)) + DAY - 1 - Midnight(first) + 1 == Days(PresetDays(key))
  {
    DaysEarlier(now, PresetDays(key) - 1);
    DayOfMidnight(now, KoreanDay(now));
  }

  lemma {:induction false} NoDatesMeansPreset(range: Option<string>, from: Option<string>, to: Option<string>, now: int)
    requires NoDate(from, to)
    requires InCalendar(KoreanDay(now)) && InCalendar(KoreanDay(now) - 29)
    ensures ResolveRange(range, from, to, now) == Preset(KeyOf(range), now)
  {
  }

  lemma {:induction false} PresetSpan(key: RangeKey, now: int)
    requires key != All
    requires InCalendar(KoreanDay(now)) && InCalendar(KoreanDay(now) - 29)
    ensures var r := Preset(key, now);
            r.fromMs.At? && r.toMs.At? && r.fromMs.ms <= now <= r.toMs.ms &&
            r.toMs.ms == Midnight(KoreanDay(now)) + DAY - 1 &&
            r.toMs.ms - r.fromMs.ms + 1 == Days(PresetDays(key))
  {
    PresetDaysSpan(key, now);
    BetweenBounds(key, FirstInstant(key, now), now);
  }

  /**
   Without a well-formed date a preset covers now and exactly the last 1, 7 or 30 Korean
   days, today included.
   */
  lemma {:induction false} PresetWindow(range: Option<string>, from: Option<string>, to: Option<string>, now: int)
    requires NoDate(from, to) && KeyOf(range) != All
    requires InCalendar(KoreanDay(now)) && InCalendar(KoreanDay(now) - 29)
    ensures var r := ResolveRange(range, from, to, now);
            r.fromMs.At? && r.toMs.At? && r.fromMs.ms <= now <= r.toMs.ms &&
            r.toMs.ms == Midnight(KoreanDay(now)) + DAY - 1 &&
            r.toMs.ms - r.fromMs.ms + 1 == Days(PresetDays(KeyOf(range)))
  {
    NoDatesMeansPreset(range, from, to, now);
    PresetSpan(KeyOf(range), now);
  }

  lemma {:induction false} KeysNamed()
    ensures KeyOf(Some("today")) == Today && KeyOf(Some("7d")) == Days7 && KeyOf(Some("30d")) == Days30
  {
    assert |"7d"| != |"30d"| && |"today"| != |"7d"| && |"today"| != |"30d"|;
  }

  lemma {:induction false} NestedPresets(
      now: int, today: Option<string>, week: Option<string>, month: Option<string>, from: Option<string>,
      to: Option<string>)
    requires NoDate(from, to) && KeyOf(today) == Today && KeyOf(week) == Days7 && KeyOf(month) == Days30
    requires InCalendar(KoreanDay(now)) && InCalendar(KoreanDay(now) - 29)
    ensures Nested(ResolveRange(today, from, to, now), ResolveRange(week, from, to, now),
                   ResolveRange(month, from, to, now))
  {
    PresetWindow(today, from, to, now);
    PresetWindow(week, from, to, now);
    PresetWindow(month, from, to, now);
  }

  /** Windows of 1, 7 and 30 days with one end. */
  predicate Nested(d: ResolvedRange, w: ResolvedRange, m: ResolvedRange) {
    d.fromMs.At? && w.fromMs.At? && m.fromMs.At? && d.toMs.At? && d.toMs == w.toMs == m.toMs &&
    m.fromMs.ms + Days(23) == w.fromMs.ms && w.fromMs.ms + Days(6) == d.fromMs.ms
  }

  /** The three presets end together and contain one another. */
  lemma {:induction false} PresetsNested(now: int, from: Option<string>, to: Option<string>)
    requires NoDate(from, to)
    requires InCalendar(KoreanDay(now)) && InCalendar(KoreanDay(now) - 29)
    ensures Nested(ResolveRange(Some("today"), from, to, now), ResolveRange(Some("7d"), from, to, now),
                   ResolveRange(Some("30d"), from, to, now))
    ensures var day, month := ResolveRange(Some("today"), from, to, now), ResolveRange(Some("30d"), from, to, now);
            day.fromMs.At? && month.fromMs.At? && day.fromMs.ms - month.fromMs.ms == 29 * 86_400_000 &&
            day.toMs == month.toMs
  {
    KeysNamed();
    NestedPresets(now, Some("today"), Some("7d"), Some("30d"), from, to);
  }

  /** Two given real dates resolve to the same non-empty window whichever comes first. */
  lemma {:induction false} CustomWindow(range: Option<string>, f: string, t: string, now: int)
    requires IsRealDate(f) && IsRealDate(t)
    requires InCalendar(KoreanDay(now))
    ensures var r := ResolveRange(range, Some(f), Some(t), now);
            r == ResolveRange(range, Some(t), Some(f), now) &&
            r.fromMs.At? && r.toMs.At? && r.fromMs.ms < r.toMs.ms &&
            {r.fromStr, r.toStr} == {f, t} && !TextLess(r.toStr, r.fromStr)
  {
    TextTotal(f, t);
    TextOrderIsTimeOrder(f, t);
    DayBounds(f);
    DayBounds(t);
  }

  /** With one given date the other end is today, whichever way round that comes out. */
  lemma {:induction false} OneDateMeansToday(range: Option<string>, s: string, other: Option<string>, now: int)
    requires IsDate(s) && !GivenDate(other)
    requires InCalendar(KoreanDay(now))
    ensures var r := ResolveRange(range, Some(s), other, now);
            r == ResolveRange(range, other, Some(s), now) == ResolveRange(range, Some(s), Some(KstDateStr(now)), now) &&
            {r.fromStr, r.toStr} == {s, KstDateStr(now)}
  {
    TextTotal(s, KstDateStr(now));
    DayOfInstant(now);
  }

  // ---------------------------------------------------------------- filterData

  datatype SheetData<T> = SheetData(events: seq<T>, signups: seq<T>)

  /** Whether a row stamped t (None when its stamp cannot be parsed) is kept. */
  predicate Keeps(r: ResolvedRange, t: Option<int>) {
    t.Some? && !(r.fromMs.At? && t.value < r.fromMs.ms) && !(r.toMs.At? && t.value > r.toMs.ms)
  }

  /** stamp reads the instant of a row, None when its text cannot be parsed. */
  function FilterData<T>(data: SheetData<T>, r: ResolvedRange, stamp: T -> Option<int>): SheetData<T> {
    if r.fromMs.Open? && r.toMs.Open? then data
    else SheetData(Filter(data.events, row => Keeps(r, stamp(row))), Filter(data.signups, row => Keeps(r, stamp(row))))
  }

  /**
   A custom range keeps exactly the rows stamped inside it, inclusive at both ends. An end
   whose text names no real day is NaN, with which nothing compares: it bounds nothing.
   */
  lemma {:induction false} KeepsInside(a: string, b: string, t: Option<int>)
    ensures IsRealDate(a) ==> DayStartMs(a).Some?
    ensures IsRealDate(b) ==> DayEndMs(b).Some?
    ensures Keeps(Custom(a, b), t) <==>
            t.Some? && (IsRealDate(a) ==> DayStartMs(a).value <= t.value) &&
            (IsRealDate(b) ==> t.value <= DayEndMs(b).value)
  {
    DayBounds(a);
    DayBounds(b);
  }

  lemma {:induction false} InstantAfterMidnight(t: int, n: int)
    ensures Midnight(n) <= t <==> n <= KoreanDay(t)
  {
  }

  /** A preset keeps exactly the rows stamped on the last 1, 7 or 30 Korean days. */
  lemma {:induction false} PresetKeepsDays(
      range: Option<string>, from: Option<string>, to: Option<string>, now: int, t: Option<int>)
    requires NoDate(from, to) && KeyOf(range) != All
    requires InCalendar(KoreanDay(now)) && InCalendar(KoreanDay(now) - 29)
    ensures Keeps(ResolveRange(range, from, to, now), t) <==>
            t.Some? && KoreanDay(now) - PresetDays(KeyOf(range)) < KoreanDay(t.value) <= KoreanDay(now)
  {
    PresetWindow(range, from, to, now);
    if t.Some? {
      InstantAfterMidnight(t.value, KoreanDay(now) - PresetDays(KeyOf(range)) + 1);
      InstantAfterMidnight(t.value, KoreanDay(now) + 1);
    }
  }

  /** No date is given and the range parameter names no preset. */
  predicate AsksForAll(range: Option<string>, from: Option<string>, to: Option<string>) {
    NoDate(from, to) && KeyOf(range) == All
  }

  /** A range is open exactly when all is asked for, and then at both ends. */
  lemma {:induction false} OpenIffAll(range: Option<string>, from: Option<string>, to: Option<string>, now: int)
    requires InCalendar(KoreanDay(now)) && (NoDate(from, to) ==> InCalendar(KoreanDay(now) - 29))
    ensures var r := ResolveRange(range, from, to, now);
            (r.fromMs.Open? <==> AsksForAll(range, from, to)) && (r.toMs.Open? <==> AsksForAll(range, from, to))
  {
    if NoDate(from, to) {
      NoDatesMeansPreset(range, from, to, now);
    }
  }

  lemma {:induction false} KeptRowsReadable<T>(rows: seq<T>, r: ResolvedRange, stamp: T -> Option<int>)
    ensures var kept := Filter(rows, row => Keeps(r, stamp(row)));
            forall x :: x in kept ==> stamp(x).Some?
  {
    if rows != [] {
      KeptRowsReadable(rows[..|rows| - 1], r, stamp);
    }
  }

  /**
   Rows without a readable stamp pass exactly when all is asked for: then the data come back
   as they are, and under every other range each kept row has a stamp.
   */
  lemma {:induction false} UnreadablePassIffAll<T>(
      data: SheetData<T>, range: Option<string>, from: Option<string>, to: Option<string>, now: int,
      stamp: T -> Option<int>)
    requires InCalendar(KoreanDay(now)) && (NoDate(from, to) ==> InCalendar(KoreanDay(now) - 29))
    ensures var kept := FilterData(data, ResolveRange(range, from, to, now), stamp);
            if AsksForAll(range, from, to) then kept == data
            else forall row :: row in kept.events || row in kept.signups ==> stamp(row).Some?
  {
    var r := ResolveRange(range, from, to, now);
    OpenIffAll(range, from, to, now);
    KeptRowsReadable(data.events, r, stamp);
    KeptRowsReadable(data.signups, r, stamp);
  }

  /** The bounds of three dates in order and of the day after the middle one. */
  lemma {:induction false} CutBounds(a: string, b: string, c: string)
    requires IsRealDate(a) && IsRealDate(b) && IsRealDate(c) && !TextLess(b, a) && TextLess(b, c)
    ensures ValidDate(NextDay(DateIn(b))) && DayStartMs(a).Some? && DayEndMs(b).Some? && DayEndMs(c).Some?
    ensures DayStartMs(a).value <= DayEndMs(b).value < DayEndMs(c).value
    ensures DayStartMs(DateText(NextDay(DateIn(b)))) == Some(DayEndMs(b).value + 1)
  {
    TextOrderIsTimeOrder(b, c);
    TextOrderIsTimeOrder(a, b);
    TextTotal(a, b);
    DayBounds(a);
    DayBounds(b);
    DayBounds(c);
    NotLastDay(DateIn(b), DateIn(c));
    DaysAreAdjacent(b);
  }

  lemma {:induction false} AdjacentKeeps(a: string, b: string, c: string, t: Option<int>)
    requires IsRealDate(a) && IsRealDate(b) && IsRealDate(c) && !TextLess(b, a) && TextLess(b, c)
    ensures var next := DateText(NextDay(DateIn(b)));
            (Keeps(Custom(a, c), t) <==> Keeps(Custom(a, b), t) || Keeps(Custom(next, c), t)) &&
            !(Keeps(Custom(a, b), t) && Keeps(Custom(next, c), t))
  {
    CutBounds(a, b, c);
  }

  lemma {:induction false} NotLastDay(b: Date, c: Date)
    requires ValidDate(b) && ValidDate(c) && DayNumber(b) < DayNumber(c)
    ensures b != Date(9999, 12, 31)
  {
    DateOrder(b, c);
  }

  /**
   Cutting a custom range after any of its days cuts its rows: every row of the whole
   range falls in exactly one of the two parts, none lost and none counted twice.
   */
  lemma {:induction false} AdjacentRangesPartition<T>(
      data: SheetData<T>, a: string, b: string, c: string, stamp: T -> Option<int>)
    requires IsRealDate(a) && IsRealDate(b) && IsRealDate(c)
    requires !TextLess(b, a) && TextLess(b, c)
    ensures ValidDate(NextDay(DateIn(b)))
    ensures var whole := FilterData(data, Custom(a, c), stamp);
            var left := FilterData(data, Custom(a, b), stamp);
            var right := FilterData(data, Custom(DateText(NextDay(DateIn(b))), c), stamp);
            multiset(whole.events) == multiset(left.events) + multiset(right.events) &&
            multiset(whole.signups) == multiset(left.signups) + multiset(right.signups) &&
            |whole.events| == |left.events| + |right.events| &&
            |whole.signups| == |left.signups| + |right.signups|
  {
    CutBounds(a, b, c);
    var next := DateText(NextDay(DateIn(b)));
    forall row: T
      ensures Keeps(Custom(a, c), stamp(row)) <==>
              Keeps(Custom(a, b), stamp(row)) || Keeps(Custom(next, c), stamp(row))
      ensures !(Keeps(Custom(a, b), stamp(row)) && Keeps(Custom(next, c), stamp(row)))
    {
      AdjacentKeeps(a, b, c, stamp(row));
    }
    SplitRows(data.events, Custom(a, c), Custom(a, b), Custom(next, c), stamp);
    SplitRows(data.signups, Custom(a, c), Custom(a, b), Custom(next, c), stamp);
  }

  lemma {:induction false} SplitRows<T>(
      rows: seq<T>, whole: ResolvedRange, left: ResolvedRange, right: ResolvedRange, stamp: T -> Option<int>)
    requires forall row :: row in rows ==>
               (Keeps(whole, stamp(row)) <==> Keeps(left, stamp(row)) || Keeps(right, stamp(row))) &&
               !(Keeps(left, stamp(row)) && Keeps(right, stamp(row)))
    ensures var w, l, r := Filter(rows, row => Keeps(whole, stamp(row))),
                           Filter(rows, row => Keeps(left, stamp(row))),
                           Filter(rows, row => Keeps(right, stamp(row)));
            multiset(w) == multiset(l) + multiset(r) && |w| == |l| + |r|
  {
    FilterSplit(rows, row => Keeps(whole, stamp(row)), row => Keeps(left, stamp(row)), row => Keeps(right, stamp(row)));
  }
}
