/** The fields of a landing session that depend on the order of its rows, told by the raw rows. */
module SessionFields {
  import opened Basics
  import opened Calendar
  import opened StableSorting
  import opened LandingSessions
  import opened SessionFacts
  import opened SessionList

  /** The first row that satisfies p. */
  function FirstWhere<T>(rows: seq<T>, p: T -> bool): Option<T> {
    if rows == [] then None
    else
      var earlier, last := FirstWhere(rows[..|rows| - 1], p), rows[|rows| - 1];
      if earlier.None? && p(last) then Some(last) else earlier
  }

  /** The last row that satisfies p. */
  function LastWhere<T>(rows: seq<T>, p: T -> bool): Option<T> {
    if rows == [] then None
    else if p(rows[|rows| - 1]) then Some(rows[|rows| - 1])
    else LastWhere(rows[..|rows| - 1], p)
  }

  function IsEvent(event: string): Row -> bool {
    (row: Row) => row.event == event
  }

  const REFERRED: Row -> bool := (row: Row) => row.event == "page_view" && row.referrerHost != ""

  // ---------------------------------------------------------------- the kinds of events

  lemma {:induction false} Kinds(row: Row)
    ensures OfKind(PageView)(row) <==> row.event == "page_view"
    ensures OfKind(SectionView)(row) <==> row.event == "section_view"
    ensures OfKind(ScrollDepth)(row) <==> row.event == "scroll_depth"
    ensures OfKind(CtaClick)(row) <==> row.event == "cta_click"
    ensures OfKind(RoleSelect)(row) <==> row.event == "role_select"
    ensures OfKind(SubmitAttempt)(row) <==> row.event == "waitlist_submit_attempt"
    ensures OfKind(SessionEnd)(row) <==> row.event == "session_end"
  {
  }

  /** The depth of a scroll row: its percentage unless that is 0, else the number its label reads as, else 0. */
  lemma {:induction false} ScrollDepths(row: Row)
    ensures row.pct != 0.0 ==> ScrollOf(row) == row.pct
    ensures row.pct == 0.0 ==> ScrollOf(row) == match row.labelNumber case None => 0.0 case Some(n) => n
  {
  }

  lemma {:induction false} TimelineItems(row: Row)
    ensures ROW_ITEM(row) == Item(row.ts, row.event, row.text, row.detail) && TEXT_OF(row) == row.text
  {
  }

  /** The position of a section on the page; sections that are not on it come before all others. */
  function PlaceOf(section: string): int {
    if section == "top" then 0 else if section == "why" then 1 else if section == "character" then 2
    else if section == "how" then 3 else if section == "partners" then 4 else if section == "process" then 5
    else if section == "finale" then 6 else -1
  }

  lemma {:induction false} IndexAt(s: seq<string>, x: string, k: nat)
    requires k < |s| && s[k] == x && forall i :: 0 <= i < k ==> s[i] != x
    ensures IndexIn(s, x) == k
  {
    if k > 0 {
      IndexAt(s[1..], x, k - 1);
    }
  }

  lemma {:induction false} NotIndexed(s: seq<string>, x: string)
    requires x !in s
    ensures IndexIn(s, x) == -1
  {
    if s != [] {
      NotIndexed(s[1..], x);
    }
  }

  lemma {:induction false} Places(section: string)
    ensures IndexIn(SECTION_ORDER, section) == PlaceOf(section)
  {
    if PlaceOf(section) < 0 {
      NotIndexed(SECTION_ORDER, section);
    } else {
      IndexAt(SECTION_ORDER, section, PlaceOf(section));
    }
  }

  /** Sections are kept in the order of the page. */
  lemma {:induction false} SectionsOnPage(a: string, b: string)
    ensures BY_SECTION(a, b) <==> PlaceOf(a) <= PlaceOf(b)
  {
    Places(a);
    Places(b);
  }

  // ---------------------------------------------------------------- source, referrer and role

  /** The source of the first page view, where none is given it is direct. */
  function SourceFrom(rows: seq<Row>): string {
    match FirstWhere(rows, IsEvent("page_view"))
    case None => ""
    case Some(row) => if row.utmSource == "" then "direct" else row.utmSource
  }

  function ReferrerFrom(rows: seq<Row>): string {
    match FirstWhere(rows, REFERRED) case None => "" case Some(row) => row.referrerHost
  }

  function RoleFrom(rows: seq<Row>): string {
    match LastWhere(rows, IsEvent("role_select")) case None => "" case Some(row) => row.text
  }

  lemma {:induction false} NotedAttributes(s: Summary, row: Row, k: Kind)
    ensures var t := NotedAs(s, row, k);
            t.source == (if k == PageView && s.source == ""
                         then if row.utmSource == "" then "direct" else row.utmSource else s.source) &&
            t.referrer == (if k == PageView && s.referrer == "" then row.referrerHost else s.referrer) &&
            t.roleSelected == (if k == RoleSelect then row.text else s.roleSelected) &&
            t.signedUp == s.signedUp && t.signupRole == s.signupRole && t.signupEmail == s.signupEmail &&
            t.lastEvent == s.lastEvent
  {
  }

  lemma {:induction false} AbsorbAttributes(s: Summary, row: Row)
    ensures var t := Absorb(s, row);
            t.source == (if row.event == "page_view" && s.source == ""
                         then if row.utmSource == "" then "direct" else row.utmSource else s.source) &&
            t.referrer == (if row.event == "page_view" && s.referrer == "" then row.referrerHost else s.referrer) &&
            t.roleSelected == (if row.event == "role_select" then row.text else s.roleSelected) &&
            t.signedUp == s.signedUp && t.signupRole == s.signupRole && t.signupEmail == s.signupEmail &&
            t.lastEvent == s.lastEvent
  {
    Kinds(row);
    NotedAttributes(Stamped(s, row), row, KindOf(row.event));
  }

  lemma {:induction false} FirstWhereHolds<T>(rows: seq<T>, p: T -> bool)
    ensures FirstWhere(rows, p).Some? ==> p(FirstWhere(rows, p).value) && FirstWhere(rows, p).value in rows
  {
    if rows != [] {
      FirstWhereHolds(rows[..|rows| - 1], p);
    }
  }

  ghost predicate AttributesOf(s: Summary, rows: seq<Row>) {
    s.source == SourceFrom(rows) && s.referrer == ReferrerFrom(rows) && s.roleSelected == RoleFrom(rows) &&
    !s.signedUp && s.signupRole == "" && s.signupEmail == "" && s.lastEvent == ""
  }

  lemma {:induction false} AttributesStep(s: Summary, rows: seq<Row>)
    requires rows != [] && AttributesOf(s, rows[..|rows| - 1])
    ensures AttributesOf(Absorb(s, rows[|rows| - 1]), rows)
  {
    var front, row := rows[..|rows| - 1], rows[|rows| - 1];
    AbsorbAttributes(s, row);
    FirstWhereHolds(front, IsEvent("page_view"));
    FirstWhereHolds(front, REFERRED);
  }

  lemma {:induction false} FoldedAttributes(id: string, rows: seq<Row>)
    ensures AttributesOf(Folded(id, rows), rows)
  {
    if rows != [] {
      FoldedAttributes(id, rows[..|rows| - 1]);
      AttributesStep(Folded(id, rows[..|rows| - 1]), rows);
    }
  }

  // ---------------------------------------------------------------- the finished session

  /** The time between the first and the last stamp, where both can be read and it is positive. */
  function Span(first: string, last: string, parse: string -> Option<real>): real {
    match (parse(first), parse(last))
    case (Some(a), Some(b)) => if b > a then b - a else 0.0
    case _ => 0.0
  }

  /** The longest duration reported on leaving, none when it is not positive. */
  ghost predicate IsReported(rows: seq<Row>, d: real) {
    (forall row :: row in rows && row.event == "session_end" ==> row.durationMs <= d) &&
    (exists row :: row in rows && row.event == "session_end" && row.durationMs == d)
  }

  ghost predicate NoneReported(rows: seq<Row>) {
    forall row :: row in rows && row.event == "session_end" ==> row.durationMs <= 0.0
  }

  /** Where the visitor came from, chose, stayed how long and did what last. */
  ghost predicate FieldsOf(s: Summary, rows: seq<Row>, parse: string -> Option<real>) {
    s.source == (if SourceFrom(rows) == "" then "direct" else SourceFrom(rows)) &&
    s.referrer == ReferrerFrom(rows) && s.roleSelected == RoleFrom(rows) &&
    (if NoneReported(rows) then s.durationMs == Span(s.firstTs, s.lastTs, parse)
     else s.durationMs > 0.0 && IsReported(rows, s.durationMs)) &&
    (rows != [] ==> exists k: nat :: LastDone(rows, k, s.lastEvent))
  }

  /** Row k is the latest one, of equally late ones the last in the log, and of this event. */
  ghost predicate LastDone(rows: seq<Row>, k: nat, event: string) {
    k < |rows| && rows[k].event == event && (forall j :: 0 <= j < k ==> !TextLess(rows[k].ts, rows[j].ts)) &&
    (forall j :: k < j < |rows| ==> TextLess(rows[j].ts, rows[k].ts))
  }

  ghost predicate SignupOn(s: Summary, signup: Option<SignupRow>) {
    match signup
    case None => !s.signedUp && s.signupRole == "" && s.signupEmail == ""
    case Some(row) => s.signedUp && s.signupRole == row.role && s.signupEmail == row.email
  }

  lemma {:induction false} LastDoneRow(rows: seq<Row>)
    requires rows != []
    ensures exists k: nat :: LastDone(rows, k, LastEvent(StableSort(Map(rows, ROW_ITEM), BY_STAMP)))
  {
    var items := Map(rows, ROW_ITEM);
    StampOrder();
    var k := SortEnds(items, BY_STAMP);
    assert |items| == |rows|;
    assert LastEvent(StableSort(items, BY_STAMP)) == items[k].event;
    forall j | 0 <= j < |rows| ensures items[j] == Item(rows[j].ts, rows[j].event, rows[j].text, rows[j].detail) {
      TimelineItems(rows[j]);
    }
    assert LastDone(rows, k, items[k].event) by {
      forall j | 0 <= j < k ensures !TextLess(rows[k].ts, rows[j].ts) {
        assert BY_STAMP(items[j], items[k]);
      }
      forall j | k < j < |rows| ensures TextLess(rows[j].ts, rows[k].ts) {
        assert !BY_STAMP(items[k], items[j]);
      }
    }
  }

  lemma {:induction false} DurationOf(id: string, rows: seq<Row>)
    ensures var d := Folded(id, rows).durationMs;
            if NoneReported(rows) then d == 0.0 else d > 0.0 && IsReported(rows, d)
  {
    var d := Folded(id, rows).durationMs;
    FoldedMaxima(id, rows);
    forall row ensures OfKind(SessionEnd)(row) <==> row.event == "session_end" {
      Kinds(row);
    }
    if d > 0.0 {
      var top :| top in rows && OfKind(SessionEnd)(top) && DURATION_VALUE(top) == d;
      assert top.durationMs == d;
    }
    forall row | row in rows && row.event == "session_end" ensures row.durationMs <= d {
      assert DURATION_VALUE(row) <= d;
    }
  }

  lemma {:induction false} FinishedParts(s: Summary, signup: Option<SignupRow>, parse: string -> Option<real>)
    ensures var t := Finished(s, signup, parse);
            t.source == (if s.source == "" then "direct" else s.source) && t.referrer == s.referrer &&
            t.roleSelected == s.roleSelected && t.firstTs == s.firstTs && t.lastTs == s.lastTs &&
            t.durationMs == (if s.durationMs == 0.0 then Span(s.firstTs, s.lastTs, parse) else s.durationMs) &&
            t.lastEvent == LastEvent(StableSort(s.events, BY_STAMP))
  {
  }

  lemma {:induction false} FinishedSignup(s: Summary, signup: Option<SignupRow>, parse: string -> Option<real>)
    requires !s.signedUp && s.signupRole == "" && s.signupEmail == ""
    ensures SignupOn(Finished(s, signup, parse), signup)
  {
  }

  lemma {:induction false} FinishedFields(
      id: string, rows: seq<Row>, signup: Option<SignupRow>, parse: string -> Option<real>)
    ensures FieldsOf(Finished(Folded(id, rows), signup, parse), rows, parse)
    ensures SignupOn(Finished(Folded(id, rows), signup, parse), signup)
  {
    FoldedAttributes(id, rows);
    FoldedCounts(id, rows);
    DurationOf(id, rows);
    FinishedParts(Folded(id, rows), signup, parse);
    FinishedSignup(Folded(id, rows), signup, parse);
    if rows != [] {
      LastDoneRow(rows);
    }
  }

  function OfSession(id: string): SignupRow -> bool {
    (row: SignupRow) => row.sessionId == id
  }

  lemma {:induction false} SignupIsLast(signups: seq<SignupRow>, id: string)
    ensures SignupOf(signups, id) == LastWhere(signups, OfSession(id))
  {
    if signups != [] {
      SignupIsLast(signups[..|signups| - 1], id);
    }
  }

  lemma {:induction false} FieldsOfId(
      events: seq<Row>, signups: seq<SignupRow>, parse: string -> Option<real>, id: string)
    ensures var s := SessionOf(events, signups, parse)(id);
            FieldsOf(s, RowsOf(events, id), parse) && SignupOn(s, LastWhere(signups, OfSession(id)))
  {
    SignupIsLast(signups, id);
    FinishedFields(id, RowsOf(events, id), SignupOf(signups, id), parse);
  }

  /**
   Every session came from the source of its first page view (direct where none was named) and
   the first referrer given, chose the last role, stayed as long as its longest report says, or
   from first to last stamp where there is none, and did last what its latest row says; it is
   signed up exactly when a signup row carries its id, as the last such row says.
   */
  lemma {:induction false} SessionsTellFields(
      events: seq<Row>, signups: seq<SignupRow>, parse: string -> Option<real>)
    ensures forall s :: s in Sessions(events, signups, parse) ==>
              FieldsOf(s, RowsOf(events, s.id), parse) && SignupOn(s, LastWhere(signups, OfSession(s.id)))
  {
    SessionsOfTheirIds(events, signups, parse);
    forall s | s in Sessions(events, signups, parse)
      ensures FieldsOf(s, RowsOf(events, s.id), parse) && SignupOn(s, LastWhere(signups, OfSession(s.id)))
    {
      FieldsOfId(events, signups, parse, s.id);
    }
  }
}
