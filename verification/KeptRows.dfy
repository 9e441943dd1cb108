/** Which rows of the sheet a resolved range keeps (filterData of web/app/admin/_lib/range.ts). */
module KeptRows {
  import opened Basics
  import opened Calendar
  import opened KstRange

  /** How often a row occurs among the events and among the signups. */
  function Copies<T(==)>(data: SheetData<T>, x: T): (nat, nat) {
    (multiset(data.events)[x], multiset(data.signups)[x])
  }

  /** In both lists a chosen row keeps all its copies and any other loses them, in the old order. */
  ghost predicate KeepsExactly<T(!new)>(kept: SheetData<T>, data: SheetData<T>, chosen: T -> bool) {
    (forall x :: Copies(kept, x) == if chosen(x) then Copies(data, x) else (0, 0)) &&
    InOrder(kept.events, data.events) && InOrder(kept.signups, data.signups)
  }

  /** The row is stamped on one of the Korean days first..last. */
  function StampedOn<T>(stamp: T -> Option<int>, first: int, last: int): T -> bool {
    (x: T) => stamp(x).Some? && first <= (stamp(x).value + 32_400_000) / 86_400_000 <= last
  }

  lemma {:induction false} FilterKeepsExactly<T(!new)>(
      data: SheetData<T>, r: ResolvedRange, stamp: T -> Option<int>, chosen: T -> bool)
    requires r.fromMs.At? && r.toMs.At?
    requires forall x :: chosen(x) <==> Keeps(r, stamp(x))
    ensures KeepsExactly(FilterData(data, r, stamp), data, chosen)
  {
    var kept := FilterData(data, r, stamp);
    KeptOfOne(data.events, r, stamp, chosen, kept.events);
    KeptOfOne(data.signups, r, stamp, chosen, kept.signups);
    assert forall x :: Copies(kept, x) == if chosen(x) then Copies(data, x) else (0, 0);
  }

  lemma {:induction false} KeptOfOne<T(!new)>(
      rows: seq<T>, r: ResolvedRange, stamp: T -> Option<int>, chosen: T -> bool, kept: seq<T>)
    requires kept == Filter(rows, row => Keeps(r, stamp(row)))
    requires forall x :: chosen(x) <==> Keeps(r, stamp(x))
    ensures forall x :: multiset(kept)[x] == if chosen(x) then multiset(rows)[x] else 0
    ensures InOrder(kept, rows)
  {
    FilterAgree(rows, row => Keeps(r, stamp(row)), chosen);
    forall x ensures multiset(kept)[x] == if chosen(x) then multiset(rows)[x] else 0 {
      FilterCounts(rows, chosen, x);
    }
    FilterInOrder(rows, chosen);
  }

  lemma {:induction false} DaysOfBounds(r: ResolvedRange, first: int, last: int, t: Option<int>)
    requires r.fromMs == At(Midnight(first)) && r.toMs == At(Midnight(last) + DAY - 1)
    ensures Keeps(r, t) <==> t.Some? && first <= (t.value + 32_400_000) / 86_400_000 <= last
  {
    if t.Some? {
      InstantAfterMidnight(t.value, first);
      InstantAfterMidnight(t.value, last + 1);
    }
  }

  lemma {:induction false} DaysKept<T(!new)>(
      data: SheetData<T>, r: ResolvedRange, stamp: T -> Option<int>, first: int, last: int)
    requires r.fromMs == At(Midnight(first)) && r.toMs == At(Midnight(last) + DAY - 1)
    ensures KeepsExactly(FilterData(data, r, stamp), data, StampedOn(stamp, first, last))
  {
    forall x ensures StampedOn(stamp, first, last)(x) <==> Keeps(r, stamp(x)) {
      DaysOfBounds(r, first, last, stamp(x));
    }
    FilterKeepsExactly(data, r, stamp, StampedOn(stamp, first, last));
  }

  /** The window of two real dates, by day numbers. */
  lemma {:induction false} CustomDays(range: Option<string>, f: string, t: string, now: int)
    requires IsRealDate(f) && IsRealDate(t) && InCalendar(KoreanDay(now))
    requires DayNumber(DateIn(f)) <= DayNumber(DateIn(t))
    ensures var r := ResolveRange(range, Some(f), Some(t), now);
            r == ResolveRange(range, Some(t), Some(f), now) &&
            r.fromMs == At(Midnight(DayNumber(DateIn(f)))) && r.toMs == At(Midnight(DayNumber(DateIn(t))) + DAY - 1)
  {
    CustomWindow(range, f, t, now);
    TextOrderIsTimeOrder(t, f);
    DayBounds(f);
    DayBounds(t);
  }

  /**
   A range of two real dates, given in either order, keeps of the events and of the signups
   exactly the rows stamped on a Korean day from the first to the second, each as often as
   it occurs and in the same order.
   */
  lemma {:induction false} CustomKeepsRows<T(!new)>(
      data: SheetData<T>, range: Option<string>, f: string, t: string, now: int, stamp: T -> Option<int>)
    requires IsRealDate(f) && IsRealDate(t) && InCalendar(KoreanDay(now))
    requires DayNumber(DateIn(f)) <= DayNumber(DateIn(t))
    ensures var chosen := StampedOn(stamp, DayNumber(DateIn(f)), DayNumber(DateIn(t)));
            KeepsExactly(FilterData(data, ResolveRange(range, Some(f), Some(t), now), stamp), data, chosen) &&
            KeepsExactly(FilterData(data, ResolveRange(range, Some(t), Some(f), now), stamp), data, chosen)
  {
    CustomDays(range, f, t, now);
    DaysKept(data, ResolveRange(range, Some(f), Some(t), now), stamp, DayNumber(DateIn(f)), DayNumber(DateIn(t)));
  }

  /** The name of a preset and the days it goes back. */
  datatype Window = Window(key: RangeKey, back: nat)

  function WindowOf(range: Option<string>): Window {
    if range == Some("today") then Window(Today, 0) else if range == Some("7d") then Window(Days7, 6)
    else if range == Some("30d") then Window(Days30, 29) else Window(All, 29)
  }

  lemma {:induction false} NamedPreset(range: Option<string>)
    ensures KeyOf(range) == WindowOf(range).key && PresetDays(KeyOf(range)) == WindowOf(range).back + 1
  {
  }

  /**
   today, 7d and 30d keep exactly the rows stamped today or on one of the 0, 6 or 29 Korean
   days before, likewise.
   */
  lemma {:induction false} PresetKeepsRows<T(!new)>(
      data: SheetData<T>, range: Option<string>, from: Option<string>, to: Option<string>, now: int,
      stamp: T -> Option<int>)
    requires NoDate(from, to) && range in {Some("today"), Some("7d"), Some("30d")}
    requires InCalendar(KoreanDay(now)) && InCalendar(KoreanDay(now) - 29)
    ensures var today := (now + 32_400_000) / 86_400_000;
            KeepsExactly(FilterData(data, ResolveRange(range, from, to, now), stamp), data,
                         StampedOn(stamp, today - WindowOf(range).back, today))
  {
    var today := KoreanDay(now);
    NamedPreset(range);
    PresetWindow(range, from, to, now);
    PresetFirstDay(today, WindowOf(range).back);
    DaysKept(data, ResolveRange(range, from, to, now), stamp, today - WindowOf(range).back, today);
  }

  lemma {:induction false} PresetFirstDay(today: int, back: int)
    ensures Midnight(today) + DAY - 1 + 1 - Days(back + 1) == Midnight(today - back)
  {
  }

  lemma {:induction false} DayBefore(now: int, back: nat)
    ensures KoreanDay(now - Days(back)) == KoreanDay(now) - back
  {
    DaysEarlier(now, back);
  }

  lemma {:induction false} BetweenTexts(key: RangeKey, first: int, now: int)
    requires InCalendar(KoreanDay(first)) && InCalendar(KoreanDay(now))
    ensures var r := Between(key, first, now);
            r.name == Named(key) && r.fromStr == KstDateStr(first) && r.toStr == KstDateStr(now)
  {
  }

  lemma {:induction false} TextOfDay(t: int, n: int)
    requires InCalendar(n) && KoreanDay(t) == n
    ensures KstDateStr(t) == DateText(DateOf(n))
  {
  }

  lemma {:induction false} PresetTexts(key: RangeKey, now: int, back: nat)
    requires back == PresetDays(key) - 1
    requires InCalendar(KoreanDay(now)) && InCalendar(KoreanDay(now) - 29) && InCalendar(KoreanDay(now) - back)
    ensures var r := Preset(key, now);
            r.name == Named(key) && r.toStr == DateText(DateOf(KoreanDay(now))) &&
            r.fromStr == DateText(DateOf(KoreanDay(now) - back))
  {
    DayBefore(now, back);
    BetweenTexts(key, FirstInstant(key, now), now);
    TextOfDay(now, KoreanDay(now));
    TextOfDay(FirstInstant(key, now), KoreanDay(now) - back);
  }

  lemma {:induction false} DatesAreCustom(range: Option<string>, from: Option<string>, to: Option<string>, now: int)
    requires InCalendar(KoreanDay(now)) && !NoDate(from, to)
    ensures ResolveRange(range, from, to, now).name == CustomDates
  {
  }

  /** Without a date a range is named by its key and shows its first day and today; with one it is custom. */
  lemma {:induction false} ResolvedTexts(range: Option<string>, from: Option<string>, to: Option<string>, now: int)
    requires InCalendar(KoreanDay(now)) && (NoDate(from, to) ==> InCalendar(KoreanDay(now) - 29))
    ensures NoDate(from, to) ==>
              var r := ResolveRange(range, from, to, now);
              InCalendar(KoreanDay(now) - WindowOf(range).back) &&
              r.name == Named(WindowOf(range).key) && r.toStr == DateText(DateOf(KoreanDay(now))) &&
              r.fromStr == DateText(DateOf(KoreanDay(now) - WindowOf(range).back))
    ensures !NoDate(from, to) ==> ResolveRange(range, from, to, now).name == CustomDates
  {
    if NoDate(from, to) {
      NamedPreset(range);
      NoDatesMeansPreset(range, from, to, now);
      PresetTexts(KeyOf(range), now, WindowOf(range).back);
    } else {
      DatesAreCustom(range, from, to, now);
    }
  }
}
