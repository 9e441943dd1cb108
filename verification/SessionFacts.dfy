/** What a landing session is, field by field, in terms of the raw rows alone. */
module SessionFacts {
  import opened Basics
  import opened Calendar
  import opened StableSorting
  import opened LandingSessions

  function OfKind(k: Kind): Row -> bool {
    (row: Row) => KindOf(row.event) == k
  }

  const TEXT_OF: Row -> string := (row: Row) => row.text

  const ROW_ITEM: Row -> Item := (row: Row) => ItemOf(row)

  // ---------------------------------------------------------------- one row, field by field

  lemma {:induction false} NotedAsCounts(s: Summary, row: Row, k: Kind)
    ensures var t := NotedAs(s, row, k);
            t.id == s.id && t.eventCount == s.eventCount && t.events == s.events &&
            t.pageViews == s.pageViews + (if k == PageView then 1 else 0) &&
            t.ctaClicks == (if k == CtaClick then s.ctaClicks + [row.text] else s.ctaClicks) &&
            (t.submitAttempt <==> s.submitAttempt || k == SubmitAttempt)
  {
  }

  lemma {:induction false} NotedAsRest(s: Summary, row: Row, k: Kind)
    ensures var t := NotedAs(s, row, k);
            t.firstTs == s.firstTs && t.lastTs == s.lastTs && t.signedUp == s.signedUp &&
            t.sectionsReached ==
              (if k == SectionView && row.text != "" && row.text !in s.sectionsReached
               then s.sectionsReached + [row.text] else s.sectionsReached) &&
            t.maxScroll == (if k == ScrollDepth then MaxReal(s.maxScroll, ScrollOf(row)) else s.maxScroll) &&
            t.durationMs == (if k == SessionEnd then MaxReal(s.durationMs, row.durationMs) else s.durationMs)
  {
  }

  lemma {:induction false} AbsorbCounts(s: Summary, row: Row, k: Kind)
    requires k == KindOf(row.event)
    ensures var t := Absorb(s, row);
            t.id == s.id && t.eventCount == s.eventCount + 1 && t.events == s.events + [ItemOf(row)] &&
            t.pageViews == s.pageViews + (if k == PageView then 1 else 0) &&
            t.ctaClicks == (if k == CtaClick then s.ctaClicks + [row.text] else s.ctaClicks) &&
            (t.submitAttempt <==> s.submitAttempt || k == SubmitAttempt)
  {
    NotedAsCounts(Stamped(s, row), row, k);
  }

  lemma {:induction false} AbsorbStamps(s: Summary, row: Row)
    ensures var t := Absorb(s, row);
            t.firstTs ==
              (if row.ts != "" && (s.firstTs == "" || TextLess(row.ts, s.firstTs)) then row.ts else s.firstTs) &&
            t.lastTs == (if row.ts != "" && TextLess(s.lastTs, row.ts) then row.ts else s.lastTs)
  {
    NotedAsRest(Stamped(s, row), row, KindOf(row.event));
  }

  lemma {:induction false} AbsorbSections(s: Summary, row: Row)
    ensures Absorb(s, row).sectionsReached ==
            if OfKind(SectionView)(row) && row.text != "" && row.text !in s.sectionsReached
            then s.sectionsReached + [row.text] else s.sectionsReached
  {
    NotedAsRest(Stamped(s, row), row, KindOf(row.event));
  }

  lemma {:induction false} AbsorbMaxima(s: Summary, row: Row)
    ensures var t := Absorb(s, row);
            t.maxScroll == (if OfKind(ScrollDepth)(row) then MaxReal(s.maxScroll, ScrollOf(row)) else s.maxScroll) &&
            t.durationMs == (if OfKind(SessionEnd)(row) then MaxReal(s.durationMs, row.durationMs) else s.durationMs)
  {
    NotedAsRest(Stamped(s, row), row, KindOf(row.event));
  }

  // ---------------------------------------------------------------- counts

  /** Counts, timeline and clicks of a session are those of its rows. */
  ghost predicate CountsRows(s: Summary, rows: seq<Row>) {
    s.eventCount == |rows| && s.events == Map(rows, ROW_ITEM) && s.pageViews == |Filter(rows, OfKind(PageView))| &&
    s.ctaClicks == Map(Filter(rows, OfKind(CtaClick)), TEXT_OF) &&
    (s.submitAttempt <==> exists i :: 0 <= i < |rows| && OfKind(SubmitAttempt)(rows[i]))
  }

  lemma {:induction false} ClicksAppend(rows: seq<Row>, row: Row)
    ensures Map(Filter(rows + [row], OfKind(CtaClick)), TEXT_OF) ==
            Map(Filter(rows, OfKind(CtaClick)), TEXT_OF) + if OfKind(CtaClick)(row) then [row.text] else []
  {
    FilterSnoc(rows, row, OfKind(CtaClick));
    MapSnoc(Filter(rows, OfKind(CtaClick)), row, TEXT_OF);
    assert Filter(rows, OfKind(CtaClick)) + [] == Filter(rows, OfKind(CtaClick));
  }

  lemma {:induction false} AttemptAppend(rows: seq<Row>, row: Row)
    ensures (exists i :: 0 <= i < |rows + [row]| && OfKind(SubmitAttempt)((rows + [row])[i])) <==>
            (exists i :: 0 <= i < |rows| && OfKind(SubmitAttempt)(rows[i])) || OfKind(SubmitAttempt)(row)
  {
    var all := rows + [row];
    assert all[|rows|] == row && forall i :: 0 <= i < |rows| ==> all[i] == rows[i];
  }

  lemma {:induction false} CountsAppend(s: Summary, rows: seq<Row>, row: Row, all: seq<Row>)
    requires CountsRows(s, rows) && all == rows + [row]
    ensures CountsRows(Absorb(s, row), all) && Absorb(s, row).id == s.id
  {
    AbsorbCounts(s, row, KindOf(row.event));
    MapSnoc(rows, row, ROW_ITEM);
    FilterSnoc(rows, row, OfKind(PageView));
    ClicksAppend(rows, row);
    AttemptAppend(rows, row);
  }

  lemma {:induction false} NoCounts(id: string)
    ensures CountsRows(Fresh(id, ""), [])
  {
  }

  /** Induction over a sequence, for any step. */
  lemma {:induction false} StepsKeep<S(!new), T(!new)>(
      rows: seq<T>, folded: seq<T> -> S, step: (S, T) -> S, holds: (S, seq<T>) -> bool)
    requires holds(folded([]), [])
    requires forall front, row :: folded(front + [row]) == step(folded(front), row)
    requires forall s, front, row :: holds(s, front) ==> holds(step(s, row), front + [row])
    ensures holds(folded(rows), rows)
  {
    if rows != [] {
      var front, row := rows[..|rows| - 1], rows[|rows| - 1];
      StepsKeep(front, folded, step, holds);
      assert rows == front + [row] && folded(front + [row]) == step(folded(front), row);
    }
  }

  ghost function FoldedBy(id: string): seq<Row> -> Summary {
    (rows: seq<Row>) => Folded(id, rows)
  }

  const ABSORB: (Summary, Row) -> Summary := (s: Summary, row: Row) => Absorb(s, row)

  /** What holds of a fresh session and is kept by every row holds of the fold. */
  lemma {:induction false} FoldedKeeps(id: string, rows: seq<Row>, holds: (Summary, seq<Row>) -> bool)
    requires holds(Fresh(id, ""), [])
    requires forall s, front, row :: holds(s, front) ==> holds(ABSORB(s, row), front + [row])
    ensures holds(Folded(id, rows), rows)
  {
    forall front, row ensures FoldedBy(id)(front + [row]) == ABSORB(FoldedBy(id)(front), row) {
      FoldedAppend(id, front, row);
    }
    StepsKeep(rows, FoldedBy(id), ABSORB, holds);
  }

  ghost function Counting(id: string): (Summary, seq<Row>) -> bool {
    (s: Summary, rows: seq<Row>) => s.id == id && CountsRows(s, rows)
  }

  lemma {:induction false} FoldedCounts(id: string, rows: seq<Row>)
    ensures Folded(id, rows).id == id && CountsRows(Folded(id, rows), rows)
  {
    NoCounts(id);
    forall s, front, row | Counting(id)(s, front) ensures Counting(id)(ABSORB(s, row), front + [row]) {
      CountsAppend(s, front, row, front + [row]);
    }
    FoldedKeeps(id, rows, Counting(id));
  }

  // ---------------------------------------------------------------- first and last stamp

  /** ts is the least non-empty stamp, or "" when every stamp is empty. */
  ghost predicate IsFirstStamp(rows: seq<Row>, ts: string) {
    (ts == "" ==> forall row :: row in rows ==> row.ts == "") &&
    (ts != "" ==> exists row :: row in rows && row.ts == ts) &&
    (forall row :: row in rows && row.ts != "" ==> !TextLess(row.ts, ts))
  }

  ghost predicate IsLastStamp(rows: seq<Row>, ts: string) {
    (ts == "" ==> forall row :: row in rows ==> row.ts == "") &&
    (ts != "" ==> exists row :: row in rows && row.ts == ts) &&
    (forall row :: row in rows ==> !TextLess(ts, row.ts))
  }

  lemma {:induction false} FirstStampStep(rows: seq<Row>, row: Row, ts: string)
    requires IsFirstStamp(rows, ts)
    ensures IsFirstStamp(rows + [row], if row.ts != "" && (ts == "" || TextLess(row.ts, ts)) then row.ts else ts)
  {
    var ts' := if row.ts != "" && (ts == "" || TextLess(row.ts, ts)) then row.ts else ts;
    assert row in rows + [row];
    TextIrreflexive(row.ts);
    forall r | r in rows + [row] && r.ts != "" ensures !TextLess(r.ts, ts') {
      if TextLess(r.ts, ts') && TextLess(ts', ts) {
        TextTransitive(r.ts, ts', ts);
      }
    }
    if ts != "" {
      var w :| w in rows && w.ts == ts;
      assert w in rows + [row];
    }
  }

  lemma {:induction false} LastStampStep(rows: seq<Row>, row: Row, ts: string)
    requires IsLastStamp(rows, ts)
    ensures IsLastStamp(rows + [row], if row.ts != "" && TextLess(ts, row.ts) then row.ts else ts)
  {
    var ts' := if row.ts != "" && TextLess(ts, row.ts) then row.ts else ts;
    assert row in rows + [row];
    TextIrreflexive(row.ts);
    forall r | r in rows + [row] ensures !TextLess(ts', r.ts) {
      if TextLess(ts, ts') && TextLess(ts', r.ts) {
        TextTransitive(ts, ts', r.ts);
      }
    }
    if ts != "" {
      var w :| w in rows && w.ts == ts;
      assert w in rows + [row];
    }
  }

  lemma {:induction false} FirstStampAppend(s: Summary, rows: seq<Row>, row: Row)
    requires IsFirstStamp(rows, s.firstTs)
    ensures IsFirstStamp(rows + [row], Absorb(s, row).firstTs)
  {
    AbsorbStamps(s, row);
    FirstStampStep(rows, row, s.firstTs);
  }

  lemma {:induction false} LastStampAppend(s: Summary, rows: seq<Row>, row: Row)
    requires IsLastStamp(rows, s.lastTs)
    ensures IsLastStamp(rows + [row], Absorb(s, row).lastTs)
  {
    AbsorbStamps(s, row);
    LastStampStep(rows, row, s.lastTs);
  }

  lemma {:induction false} StampsAppend(s: Summary, rows: seq<Row>, row: Row, all: seq<Row>)
    requires all == rows + [row] && IsFirstStamp(rows, s.firstTs) && IsLastStamp(rows, s.lastTs)
    ensures IsFirstStamp(all, Absorb(s, row).firstTs) && IsLastStamp(all, Absorb(s, row).lastTs)
  {
    FirstStampAppend(s, rows, row);
    LastStampAppend(s, rows, row);
  }

  lemma {:induction false} NoStamps()
    ensures IsFirstStamp([], "") && IsLastStamp([], "")
  {
  }

  ghost const STAMPED: (Summary, seq<Row>) -> bool :=
    (s: Summary, rows: seq<Row>) => IsFirstStamp(rows, s.firstTs) && IsLastStamp(rows, s.lastTs)

  /** firstTs and lastTs are the least and the greatest non-empty stamps. */
  lemma {:induction false} FoldedStamps(id: string, rows: seq<Row>)
    ensures IsFirstStamp(rows, Folded(id, rows).firstTs) && IsLastStamp(rows, Folded(id, rows).lastTs)
  {
    NoStamps();
    forall s, front, row | STAMPED(s, front) ensures STAMPED(ABSORB(s, row), front + [row]) {
      StampsAppend(s, front, row, front + [row]);
    }
    FoldedKeeps(id, rows, STAMPED);
  }

  lemma {:induction false} FirstStampUnique(rows: seq<Row>, rows': seq<Row>, a: string, b: string)
    requires IsFirstStamp(rows, a) && IsFirstStamp(rows', b) && forall r :: r in rows <==> r in rows'
    ensures a == b
  {
    TextTotal(a, b);
  }

  lemma {:induction false} LastStampUnique(rows: seq<Row>, rows': seq<Row>, a: string, b: string)
    requires IsLastStamp(rows, a) && IsLastStamp(rows', b) && forall r :: r in rows <==> r in rows'
    ensures a == b
  {
    TextTotal(a, b);
  }

  // ---------------------------------------------------------------- sections

  /** Some row of the sequence is a view of the section. */
  predicate Viewed(rows: seq<Row>, section: string) {
    exists i :: 0 <= i < |rows| && OfKind(SectionView)(rows[i]) && rows[i].text == section
  }

  lemma {:induction false} ViewedAppend(rows: seq<Row>, row: Row, x: string)
    ensures Viewed(rows + [row], x) <==> Viewed(rows, x) || (OfKind(SectionView)(row) && row.text == x)
  {
    var all := rows + [row];
    assert all[|rows|] == row && forall i :: 0 <= i < |rows| ==> all[i] == rows[i];
  }

  /** The sections are the viewed ones, each once; an empty label is not a section. */
  ghost predicate ReachedViewed(reached: seq<string>, rows: seq<Row>) {
    NoDuplicates(reached) && forall x :: x in reached <==> x != "" && Viewed(rows, x)
  }

  lemma {:induction false} SectionsAppend(reached: seq<string>, rows: seq<Row>, row: Row)
    requires ReachedViewed(reached, rows)
    ensures ReachedViewed(if OfKind(SectionView)(row) && row.text != "" && row.text !in reached
                          then reached + [row.text] else reached, rows + [row])
  {
    forall x ensures Viewed(rows + [row], x) <==> Viewed(rows, x) || (OfKind(SectionView)(row) && row.text == x) {
      ViewedAppend(rows, row, x);
    }
  }

  lemma {:induction false} AbsorbReaches(s: Summary, rows: seq<Row>, row: Row, all: seq<Row>)
    requires ReachedViewed(s.sectionsReached, rows) && all == rows + [row]
    ensures ReachedViewed(Absorb(s, row).sectionsReached, all)
  {
    AbsorbSections(s, row);
    SectionsAppend(s.sectionsReached, rows, row);
  }

  lemma {:induction false} FoldedSections(id: string, rows: seq<Row>)
    ensures ReachedViewed(Folded(id, rows).sectionsReached, rows)
  {
    if rows != [] {
      FoldedSections(id, rows[..|rows| - 1]);
      AbsorbReaches(Folded(id, rows[..|rows| - 1]), rows[..|rows| - 1], rows[|rows| - 1], rows);
    }
  }

  // ---------------------------------------------------------------- maxima

  /** m is the greatest value over the rows of a kind, or 0 when that is greater. */
  ghost predicate IsMaximum(rows: seq<Row>, k: Kind, value: Row -> real, m: real) {
    m >= 0.0 && (forall row :: row in rows && OfKind(k)(row) ==> value(row) <= m) &&
    (m == 0.0 || exists row :: row in rows && OfKind(k)(row) && value(row) == m)
  }

  const SCROLL_VALUE: Row -> real := (row: Row) => ScrollOf(row)

  const DURATION_VALUE: Row -> real := (row: Row) => row.durationMs

  lemma {:induction false} MaximumStep(rows: seq<Row>, row: Row, k: Kind, value: Row -> real, m: real)
    requires IsMaximum(rows, k, value, m)
    ensures IsMaximum(rows + [row], k, value, if OfKind(k)(row) then MaxReal(m, value(row)) else m)
  {
    var m' := if OfKind(k)(row) then MaxReal(m, value(row)) else m;
    assert row in rows + [row];
    if m' != 0.0 && m' == m {
      var w :| w in rows && OfKind(k)(w) && value(w) == m;
      assert w in rows + [row];
    }
  }

  lemma {:induction false} MaximaAppend(s: Summary, rows: seq<Row>, row: Row, all: seq<Row>)
    requires all == rows + [row]
    requires IsMaximum(rows, ScrollDepth, SCROLL_VALUE, s.maxScroll)
    requires IsMaximum(rows, SessionEnd, DURATION_VALUE, s.durationMs)
    ensures IsMaximum(all, ScrollDepth, SCROLL_VALUE, Absorb(s, row).maxScroll)
    ensures IsMaximum(all, SessionEnd, DURATION_VALUE, Absorb(s, row).durationMs)
  {
    AbsorbMaxima(s, row);
    MaximumStep(rows, row, ScrollDepth, SCROLL_VALUE, s.maxScroll);
    MaximumStep(rows, row, SessionEnd, DURATION_VALUE, s.durationMs);
  }

  lemma {:induction false} NoMaximum(k: Kind, value: Row -> real)
    ensures IsMaximum([], k, value, 0.0)
  {
  }

  lemma {:induction false} FoldedMaxima(id: string, rows: seq<Row>)
    ensures IsMaximum(rows, ScrollDepth, SCROLL_VALUE, Folded(id, rows).maxScroll)
    ensures IsMaximum(rows, SessionEnd, DURATION_VALUE, Folded(id, rows).durationMs)
  {
    if rows == [] {
      NoMaximum(ScrollDepth, SCROLL_VALUE);
      NoMaximum(SessionEnd, DURATION_VALUE);
    } else {
      FoldedMaxima(id, rows[..|rows| - 1]);
      MaximaAppend(Folded(id, rows[..|rows| - 1]), rows[..|rows| - 1], rows[|rows| - 1], rows);
    }
  }

  lemma {:induction false} MaximumUnique(rows: seq<Row>, rows': seq<Row>, k: Kind, value: Row -> real, a: real, b: real)
    requires IsMaximum(rows, k, value, a) && IsMaximum(rows', k, value, b) && forall r :: r in rows <==> r in rows'
    ensures a == b
  {
  }

  // ---------------------------------------------------------------- order does not matter

  /** Sessions that agree on every field that does not depend on the order of the rows. */
  ghost predicate SameUpToOrder(a: Summary, b: Summary) {
    a.id == b.id && a.eventCount == b.eventCount && a.pageViews == b.pageViews && a.firstTs == b.firstTs &&
    a.lastTs == b.lastTs && a.maxScroll == b.maxScroll && a.durationMs == b.durationMs &&
    a.submitAttempt == b.submitAttempt && (forall x :: x in a.sectionsReached <==> x in b.sectionsReached) &&
    multiset(a.ctaClicks) == multiset(b.ctaClicks) && multiset(a.events) == multiset(b.events)
  }

  lemma {:induction false} PermutedCounts(id: string, rows: seq<Row>, rows': seq<Row>)
    requires multiset(rows) == multiset(rows')
    ensures var s, s' := Folded(id, rows), Folded(id, rows');
            s.id == s'.id && s.eventCount == s'.eventCount && s.pageViews == s'.pageViews &&
            multiset(s.ctaClicks) == multiset(s'.ctaClicks) && multiset(s.events) == multiset(s'.events)
  {
    FoldedCounts(id, rows);
    FoldedCounts(id, rows');
    PermutedMembers(rows, rows');
    FilterPermuted(rows, rows', OfKind(PageView));
    PermutedMembers(Filter(rows, OfKind(PageView)), Filter(rows', OfKind(PageView)));
    FilterPermuted(rows, rows', OfKind(CtaClick));
    MapPermuted(Filter(rows, OfKind(CtaClick)), Filter(rows', OfKind(CtaClick)), TEXT_OF);
    MapPermuted(rows, rows', ROW_ITEM);
  }

  lemma {:induction false} PermutedAttempt(id: string, rows: seq<Row>, rows': seq<Row>)
    requires forall r :: r in rows <==> r in rows'
    ensures Folded(id, rows).submitAttempt == Folded(id, rows').submitAttempt
  {
    FoldedCounts(id, rows);
    FoldedCounts(id, rows');
    if Folded(id, rows).submitAttempt {
      var i :| 0 <= i < |rows| && OfKind(SubmitAttempt)(rows[i]);
      assert rows[i] in rows';
    }
    if Folded(id, rows').submitAttempt {
      var i :| 0 <= i < |rows'| && OfKind(SubmitAttempt)(rows'[i]);
      assert rows'[i] in rows;
    }
  }

  lemma {:induction false} PermutedStamps(id: string, rows: seq<Row>, rows': seq<Row>)
    requires forall r :: r in rows <==> r in rows'
    ensures Folded(id, rows).firstTs == Folded(id, rows').firstTs && Folded(id, rows).lastTs == Folded(id, rows').lastTs
  {
    FoldedStamps(id, rows);
    FoldedStamps(id, rows');
    FirstStampUnique(rows, rows', Folded(id, rows).firstTs, Folded(id, rows').firstTs);
    LastStampUnique(rows, rows', Folded(id, rows).lastTs, Folded(id, rows').lastTs);
  }

  lemma {:induction false} PermutedMaxima(id: string, rows: seq<Row>, rows': seq<Row>)
    requires forall r :: r in rows <==> r in rows'
    ensures Folded(id, rows).maxScroll == Folded(id, rows').maxScroll
    ensures Folded(id, rows).durationMs == Folded(id, rows').durationMs
  {
    FoldedMaxima(id, rows);
    FoldedMaxima(id, rows');
    MaximumUnique(rows, rows', ScrollDepth, SCROLL_VALUE, Folded(id, rows).maxScroll, Folded(id, rows').maxScroll);
    MaximumUnique(rows, rows', SessionEnd, DURATION_VALUE, Folded(id, rows).durationMs, Folded(id, rows').durationMs);
  }

  lemma {:induction false} ViewedPermuted(rows: seq<Row>, rows': seq<Row>, x: string)
    requires forall r :: r in rows <==> r in rows'
    ensures Viewed(rows, x) ==> Viewed(rows', x)
  {
    if Viewed(rows, x) {
      var i :| 0 <= i < |rows| && OfKind(SectionView)(rows[i]) && rows[i].text == x;
      assert rows[i] in rows';
    }
  }

  lemma {:induction false} PermutedSections(id: string, rows: seq<Row>, rows': seq<Row>)
    requires forall r :: r in rows <==> r in rows'
    ensures forall x :: x in Folded(id, rows).sectionsReached <==> x in Folded(id, rows').sectionsReached
  {
    FoldedSections(id, rows);
    FoldedSections(id, rows');
    forall x ensures Viewed(rows, x) <==> Viewed(rows', x) {
      ViewedPermuted(rows, rows', x);
      ViewedPermuted(rows', rows, x);
    }
  }

  /** Finishing two sessions that agree up to order keeps them so. */
  lemma {:induction false} FinishedUpToOrder(
      a: Summary, b: Summary, signup: Option<SignupRow>, parse: string -> Option<real>)
    requires SameUpToOrder(a, b)
    ensures SameUpToOrder(Finished(a, signup, parse), Finished(b, signup, parse))
  {
    SortPermutes(a.events, BY_STAMP);
    SortPermutes(b.events, BY_STAMP);
    SortMembers(a.sectionsReached, BY_SECTION);
    SortMembers(b.sectionsReached, BY_SECTION);
  }

  /**
   Permuting the whole log leaves every session's counts, stamps, maxima, duration, attempt
   flag, set of sections and multisets of clicks and timeline items unchanged.
   */
  lemma {:induction false} LogOrderIrrelevant(
      events: seq<Row>, events': seq<Row>, signups: seq<SignupRow>, parse: string -> Option<real>, id: string)
    requires multiset(events) == multiset(events')
    ensures id in SessionIds(events) <==> id in SessionIds(events')
    ensures SameUpToOrder(SessionOf(events, signups, parse)(id), SessionOf(events', signups, parse)(id))
  {
    var rows, rows' := RowsOf(events, id), RowsOf(events', id);
    SameIds(events, events', id);
    FilterPermuted(events, events', HasId(id));
    PermutedMembers(rows, rows');
    PermutedCounts(id, rows, rows');
    PermutedAttempt(id, rows, rows');
    PermutedStamps(id, rows, rows');
    PermutedMaxima(id, rows, rows');
    PermutedSections(id, rows, rows');
    FinishedUpToOrder(Folded(id, rows), Folded(id, rows'), SignupOf(signups, id), parse);
  }

  lemma {:induction false} SameIds(events: seq<Row>, events': seq<Row>, id: string)
    requires multiset(events) == multiset(events')
    ensures id in SessionIds(events) <==> id in SessionIds(events')
  {
    SessionIdsDistinct(events);
    SessionIdsDistinct(events');
    PermutedMembers(events, events');
    if exists i :: 0 <= i < |events| && events[i].sessionId == id {
      var i :| 0 <= i < |events| && events[i].sessionId == id;
      assert events[i] in events';
    }
    if exists i :: 0 <= i < |events'| && events'[i].sessionId == id {
      var i :| 0 <= i < |events'| && events'[i].sessionId == id;
      assert events'[i] in events;
    }
  }
}
