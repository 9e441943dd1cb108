/** The list of sessions against the raw log: nothing lost, nothing counted twice, newest first. */
module SessionList {
  import opened Basics
  import opened Calendar
  import opened StableSorting
  import opened LandingSessions
  import opened SessionFacts

  const ID_OF: Summary -> string := (s: Summary) => s.id

  const EVENT_COUNT_OF: Summary -> int := (s: Summary) => s.eventCount

  const CLICKS_OF: Summary -> int := (s: Summary) => |s.ctaClicks|

  const PAGE_VIEWS_OF: Summary -> int := (s: Summary) => s.pageViews

  function Unsorted(events: seq<Row>, signups: seq<SignupRow>, parse: string -> Option<real>): seq<Summary> {
    Map(SessionIds(events), SessionOf(events, signups, parse))
  }

  // ---------------------------------------------------------------- one session per id

  /** h makes the session of every id. */
  ghost predicate KeepsIds(h: string -> Summary) {
    forall id: string :: h(id).id == id
  }

  lemma {:induction false} SessionsKeepIds(events: seq<Row>, signups: seq<SignupRow>, parse: string -> Option<real>)
    ensures KeepsIds(SessionOf(events, signups, parse))
  {
    forall id: string ensures SessionOf(events, signups, parse)(id).id == id {
      FoldedCounts(id, RowsOf(events, id));
    }
  }

  lemma {:induction false} MappedIds(ids: seq<string>, h: string -> Summary)
    requires KeepsIds(h)
    ensures Map(Map(ids, h), ID_OF) == ids
  {
  }

  lemma {:induction false} ArrangedIds(ids: seq<string>, h: string -> Summary, r: seq<Summary>)
    requires KeepsIds(h) && NoDuplicates(ids) && multiset(r) == multiset(Map(ids, h))
    ensures NoDuplicates(Map(r, ID_OF)) && multiset(Map(r, ID_OF)) == multiset(ids)
  {
    MapPermuted(r, Map(ids, h), ID_OF);
    MappedIds(ids, h);
    PermutedDistinct(ids, Map(r, ID_OF));
  }

  lemma {:induction false} ArrangedOnce(events: seq<Row>, signups: seq<SignupRow>, parse: string -> Option<real>)
    ensures var ids := Map(Sessions(events, signups, parse), ID_OF);
            NoDuplicates(ids) && multiset(ids) == multiset(SessionIds(events))
  {
    SortPermutes(Unsorted(events, signups, parse), NEWEST_FIRST);
    SessionsKeepIds(events, signups, parse);
    SessionIdsDistinct(events);
    ArrangedIds(SessionIds(events), SessionOf(events, signups, parse), Sessions(events, signups, parse));
  }

  /** Some row carries this non-empty id. */
  ghost predicate Appears(events: seq<Row>, id: string) {
    id != "" && exists i :: 0 <= i < |events| && events[i].sessionId == id
  }

  lemma {:induction false} IdsAppear(events: seq<Row>, ids: seq<string>)
    requires multiset(ids) == multiset(SessionIds(events))
    ensures forall id :: id in ids <==> Appears(events, id)
  {
    PermutedMembers(SessionIds(events), ids);
    SessionIdsDistinct(events);
  }

  /** The ids of the sessions are exactly the distinct non-empty ids of the rows, each once. */
  lemma {:induction false} IdsExactlyOnce(events: seq<Row>, signups: seq<SignupRow>, parse: string -> Option<real>)
    ensures NoDuplicates(Map(Sessions(events, signups, parse), ID_OF))
    ensures forall id :: id in Map(Sessions(events, signups, parse), ID_OF) <==> Appears(events, id)
  {
    ArrangedOnce(events, signups, parse);
    IdsAppear(events, Map(Sessions(events, signups, parse), ID_OF));
  }

  lemma {:induction false} MappedMember(ids: seq<string>, h: string -> Summary, s: Summary)
    requires KeepsIds(h) && s in Map(ids, h)
    ensures s.id in ids && s == h(s.id)
  {
    var k :| 0 <= k < |ids| && Map(ids, h)[k] == s;
    assert h(ids[k]).id == ids[k];
  }

  /** Every session is the finished session of its own id. */
  lemma {:induction false} SessionsOfTheirIds(events: seq<Row>, signups: seq<SignupRow>, parse: string -> Option<real>)
    ensures forall s :: s in Sessions(events, signups, parse) ==>
              s.id in SessionIds(events) && s == SessionOf(events, signups, parse)(s.id)
  {
    SortMembers(Unsorted(events, signups, parse), NEWEST_FIRST);
    SessionsKeepIds(events, signups, parse);
    forall s | s in Unsorted(events, signups, parse)
      ensures s.id in SessionIds(events) && s == SessionOf(events, signups, parse)(s.id) {
      MappedMember(SessionIds(events), SessionOf(events, signups, parse), s);
    }
  }

  // ---------------------------------------------------------------- a session is its rows

  lemma {:induction false} StampOrder()
    ensures TotalPreorder(BY_STAMP)
  {
    forall x: Item, y: Item ensures BY_STAMP(x, y) || BY_STAMP(y, x) {
      TextTotal(x.ts, y.ts);
    }
    forall x: Item, y: Item, z: Item | BY_STAMP(x, y) && BY_STAMP(y, z) ensures BY_STAMP(x, z) {
      NotAfterTransitive(x.ts, y.ts, z.ts);
    }
  }

  lemma {:induction false} NotAfterTransitive(a: string, b: string, c: string)
    requires !TextLess(b, a) && !TextLess(c, b)
    ensures !TextLess(c, a)
  {
    if TextLess(c, a) {
      TextTotal(a, b);
      if a != b {
        TextTransitive(c, a, b);
      }
    }
  }

  lemma {:induction false} NewestFirstOrder()
    ensures TotalPreorder(NEWEST_FIRST)
  {
    forall x: Summary, y: Summary ensures NEWEST_FIRST(x, y) || NEWEST_FIRST(y, x) {
      TextTotal(x.firstTs, y.firstTs);
    }
    forall x: Summary, y: Summary, z: Summary | NEWEST_FIRST(x, y) && NEWEST_FIRST(y, z) ensures NEWEST_FIRST(x, z) {
      NotAfterTransitive(z.firstTs, y.firstTs, x.firstTs);
    }
  }

  /** What a finished session says about the rows that carry its id. */
  ghost predicate Describes(s: Summary, rows: seq<Row>) {
    s.eventCount == |rows| && s.pageViews == |Filter(rows, OfKind(PageView))| &&
    s.ctaClicks == Map(Filter(rows, OfKind(CtaClick)), TEXT_OF) &&
    IsFirstStamp(rows, s.firstTs) && IsLastStamp(rows, s.lastTs) &&
    multiset(s.events) == multiset(Map(rows, ROW_ITEM)) && Sorted(s.events, BY_STAMP) &&
    IsMaximum(rows, ScrollDepth, SCROLL_VALUE, s.maxScroll) &&
    (s.submitAttempt <==> exists i :: 0 <= i < |rows| && OfKind(SubmitAttempt)(rows[i]))
  }

  lemma {:induction false} FinishedDescribes(
      id: string, rows: seq<Row>, signup: Option<SignupRow>, parse: string -> Option<real>)
    ensures Describes(Finished(Folded(id, rows), signup, parse), rows)
  {
    FoldedCounts(id, rows);
    FoldedStamps(id, rows);
    FoldedMaxima(id, rows);
    SortPermutes(Map(rows, ROW_ITEM), BY_STAMP);
    StampOrder();
    SortSorts(Map(rows, ROW_ITEM), BY_STAMP);
  }

  lemma {:induction false} SessionHasRows(events: seq<Row>, id: string)
    requires id in SessionIds(events)
    ensures RowsOf(events, id) != []
  {
    SessionIdsDistinct(events);
    var i :| 0 <= i < |events| && events[i].sessionId == id;
    FilterMembers(events, HasId(id));
    assert events[i] in RowsOf(events, id);
  }

  lemma {:induction false} DescribesOwnRows(
      events: seq<Row>, signups: seq<SignupRow>, parse: string -> Option<real>, id: string)
    ensures Describes(SessionOf(events, signups, parse)(id), RowsOf(events, id))
  {
    FinishedDescribes(id, RowsOf(events, id), SignupOf(signups, id), parse);
  }

  /** Every session describes exactly the rows of its id, and has some. */
  lemma {:induction false} SessionDescribesItsRows(
      events: seq<Row>, signups: seq<SignupRow>, parse: string -> Option<real>)
    ensures forall s :: s in Sessions(events, signups, parse) ==>
              Describes(s, RowsOf(events, s.id)) && RowsOf(events, s.id) != []
  {
    SessionsOfTheirIds(events, signups, parse);
    forall s | s in Sessions(events, signups, parse)
      ensures Describes(s, RowsOf(events, s.id)) && RowsOf(events, s.id) != []
    {
      SessionHasRows(events, s.id);
      DescribesOwnRows(events, signups, parse, s.id);
    }
  }

  lemma {:induction false} FinishedSections(
      id: string, rows: seq<Row>, signup: Option<SignupRow>, parse: string -> Option<real>)
    ensures var s := Finished(Folded(id, rows), signup, parse);
            NoDuplicates(s.sectionsReached) && Sorted(s.sectionsReached, BY_SECTION) &&
            forall x :: x in s.sectionsReached <==> x != "" && Viewed(rows, x)
  {
    var reached := Folded(id, rows).sectionsReached;
    FoldedSections(id, rows);
    SortPermutes(reached, BY_SECTION);
    PermutedDistinct(reached, StableSort(reached, BY_SECTION));
    SortMembers(reached, BY_SECTION);
    SortSorts(reached, BY_SECTION);
  }

  /** The sections are those the rows viewed, each once, in page order. */
  ghost predicate SectionsInOrder(s: Summary, rows: seq<Row>) {
    ReachedViewed(s.sectionsReached, rows) && Sorted(s.sectionsReached, BY_SECTION)
  }

  lemma {:induction false} SectionsOfId(
      events: seq<Row>, signups: seq<SignupRow>, parse: string -> Option<real>, id: string)
    ensures SectionsInOrder(SessionOf(events, signups, parse)(id), RowsOf(events, id))
  {
    FinishedSections(id, RowsOf(events, id), SignupOf(signups, id), parse);
  }

  lemma {:induction false} SessionSections(events: seq<Row>, signups: seq<SignupRow>, parse: string -> Option<real>)
    ensures forall s :: s in Sessions(events, signups, parse) ==> SectionsInOrder(s, RowsOf(events, s.id))
  {
    SessionsOfTheirIds(events, signups, parse);
    forall s | s in Sessions(events, signups, parse) ensures SectionsInOrder(s, RowsOf(events, s.id)) {
      SectionsOfId(events, signups, parse, s.id);
    }
  }

  lemma {:induction false} SessionsNewestFirst(events: seq<Row>, signups: seq<SignupRow>, parse: string -> Option<real>)
    ensures Sorted(Sessions(events, signups, parse), NEWEST_FIRST)
  {
    NewestFirstOrder();
    SortSorts(Unsorted(events, signups, parse), NEWEST_FIRST);
  }

  // ---------------------------------------------------------------- conservation

  /** The rows of a session that satisfy p, counted. */
  function CountIn(events: seq<Row>, p: Row -> bool): string -> int {
    (id: string) => |Filter(RowsOf(events, id), p)|
  }

  /** The rows that carry an id and satisfy p. */
  function WithId(p: Row -> bool): Row -> bool {
    (row: Row) => row.sessionId != "" && p(row)
  }

  lemma {:induction false} CountInAppend(events: seq<Row>, row: Row, p: Row -> bool, id: string)
    ensures CountIn(events + [row], p)(id) == CountIn(events, p)(id) + if row.sessionId == id && p(row) then 1 else 0
  {
    RowsOfAppend(events, row, id);
    assert RowsOf(events, id) + [] == RowsOf(events, id);
    FilterSnoc(RowsOf(events, id), row, p);
  }

  lemma {:induction false} CountInNew(events: seq<Row>, row: Row, p: Row -> bool)
    requires row.sessionId != "" && row.sessionId !in SessionIds(events)
    ensures CountIn(events + [row], p)(row.sessionId) == if p(row) then 1 else 0
  {
    CountInAppend(events, row, p, row.sessionId);
    NoRowsYet(events, row.sessionId);
  }

  lemma {:induction false} OldGroups(front: seq<Row>, row: Row, p: Row -> bool)
    ensures Sum(SessionIds(front), CountIn(front + [row], p)) == Sum(SessionIds(front), CountIn(front, p)) +
            if row.sessionId in SessionIds(front) && p(row) then 1 else 0
  {
    var d := if p(row) then 1 else 0;
    SessionIdsDistinct(front);
    forall y ensures CountIn(front + [row], p)(y) == CountIn(front, p)(y) + if y == row.sessionId then d else 0 {
      CountInAppend(front, row, p, y);
    }
    SumBump(SessionIds(front), CountIn(front, p), CountIn(front + [row], p), row.sessionId, d);
  }

  lemma {:induction false} SumOne<T>(s: seq<T>, x: T, f: T -> int)
    ensures Sum(s + [x], f) == Sum(s, f) + f(x)
  {
    assert (s + [x])[..|s|] == s;
  }

  lemma {:induction false} GroupedCountStep(front: seq<Row>, row: Row, p: Row -> bool)
    requires Sum(SessionIds(front), CountIn(front, p)) == |Filter(front, WithId(p))|
    ensures Sum(SessionIds(front + [row]), CountIn(front + [row], p)) == |Filter(front + [row], WithId(p))|
  {
    SessionIdsAppend(front, row);
    NoEmptyId(front);
    FilterSnoc(front, row, WithId(p));
    OldGroups(front, row, p);
    if row.sessionId != "" && row.sessionId !in SessionIds(front) {
      CountInNew(front, row, p);
      SumOne(SessionIds(front), row.sessionId, CountIn(front + [row], p));
    }
  }

  lemma {:induction false} NoEmptyId(events: seq<Row>)
    ensures "" !in SessionIds(events)
  {
    SessionIdsDistinct(events);
  }

  /** The two ways of counting agree on a log. */
  predicate CountsAgree(events: seq<Row>, p: Row -> bool) {
    Sum(SessionIds(events), CountIn(events, p)) == |Filter(events, WithId(p))|
  }

  lemma {:induction false} NoRowsAgree(p: Row -> bool)
    ensures CountsAgree([], p)
  {
  }

  lemma {:induction false} RowAgrees(front: seq<Row>, row: Row, p: Row -> bool, events: seq<Row>)
    requires CountsAgree(front, p) && events == front + [row]
    ensures CountsAgree(events, p)
  {
    GroupedCountStep(front, row, p);
  }

  lemma {:induction false} RowsAgree(events: seq<Row>, p: Row -> bool)
    ensures CountsAgree(events, p)
  {
    if events == [] {
      NoRowsAgree(p);
    } else {
      RowsAgree(events[..|events| - 1], p);
      RowAgrees(events[..|events| - 1], events[|events| - 1], p, events);
    }
  }

  /** Counting per session and adding up is counting the rows that carry an id. */
  lemma {:induction false} GroupedCount(events: seq<Row>, p: Row -> bool)
    ensures Sum(SessionIds(events), CountIn(events, p)) == |Filter(events, WithId(p))|
  {
    RowsAgree(events, p);
  }

  const ANY_ROW: Row -> bool := (row: Row) => true

  /** The measure of a finished session is the number of its rows that satisfy p. */
  ghost predicate Measures(measure: Summary -> int, p: Row -> bool, parse: string -> Option<real>) {
    forall id, rows, signup :: measure(Finished(Folded(id, rows), signup, parse)) == |Filter(rows, p)|
  }

  lemma {:induction false} MeasuredSession(
      events: seq<Row>, signups: seq<SignupRow>, parse: string -> Option<real>, measure: Summary -> int,
      p: Row -> bool, id: string)
    requires Measures(measure, p, parse)
    ensures measure(SessionOf(events, signups, parse)(id)) == CountIn(events, p)(id)
  {
    var s := Finished(Folded(id, RowsOf(events, id)), SignupOf(signups, id), parse);
    assert measure(s) == |Filter(RowsOf(events, id), p)|;
  }

  /** A measure that counts rows adds up to those rows in the log. */
  lemma {:induction false} MeasureAddsUp(
      events: seq<Row>, signups: seq<SignupRow>, parse: string -> Option<real>, measure: Summary -> int, p: Row -> bool)
    requires Measures(measure, p, parse)
    ensures Sum(Sessions(events, signups, parse), measure) == |Filter(events, WithId(p))|
  {
    var ids, list := SessionIds(events), Unsorted(events, signups, parse);
    SortPermutes(list, NEWEST_FIRST);
    SumPermuted(Sessions(events, signups, parse), list, measure);
    forall id | id in ids ensures measure(SessionOf(events, signups, parse)(id)) == CountIn(events, p)(id) {
      MeasuredSession(events, signups, parse, measure, p, id);
    }
    SumOfMap(ids, SessionOf(events, signups, parse), measure, CountIn(events, p));
    GroupedCount(events, p);
  }

  lemma {:induction false} CountsAreMeasures(parse: string -> Option<real>)
    ensures Measures(EVENT_COUNT_OF, ANY_ROW, parse) && Measures(PAGE_VIEWS_OF, OfKind(PageView), parse)
    ensures Measures(CLICKS_OF, OfKind(CtaClick), parse)
  {
    forall id, rows, signup
      ensures var s := Finished(Folded(id, rows), signup, parse);
              EVENT_COUNT_OF(s) == |Filter(rows, ANY_ROW)| && PAGE_VIEWS_OF(s) == |Filter(rows, OfKind(PageView))| &&
              CLICKS_OF(s) == |Filter(rows, OfKind(CtaClick))| {
      FoldedCounts(id, rows);
      FilterAll(rows, ANY_ROW);
    }
  }

  /** Event counts add up to the rows that carry an id; page views and clicks likewise. */
  lemma {:induction false} SessionsConserveRows(
      events: seq<Row>, signups: seq<SignupRow>, parse: string -> Option<real>)
    ensures var r := Sessions(events, signups, parse);
            Sum(r, EVENT_COUNT_OF) == |Filter(events, WithId(ANY_ROW))| &&
            Sum(r, PAGE_VIEWS_OF) == |Filter(events, WithId(OfKind(PageView)))| &&
            Sum(r, CLICKS_OF) == |Filter(events, WithId(OfKind(CtaClick)))|
  {
    CountsAreMeasures(parse);
    MeasureAddsUp(events, signups, parse, EVENT_COUNT_OF, ANY_ROW);
    MeasureAddsUp(events, signups, parse, PAGE_VIEWS_OF, OfKind(PageView));
    MeasureAddsUp(events, signups, parse, CLICKS_OF, OfKind(CtaClick));
  }
}
