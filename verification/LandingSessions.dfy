/**
 Landing sessions from the raw event log (buildSessions of web/app/admin/_lib/analytics.ts).

 A row carries its columns as read by str, and the parsed props: utm_source, the referrer
 host, the percentage and duration as numbers, the label as a number, None when it is none,
 and the line that describes the row. Locale order on stamps is the order of the texts; the
 reading of a stamp as an instant is the parameter `parse`.
 */
module LandingSessions {
  import opened Basics
  import opened Calendar
  import opened StableSorting

  datatype Row = Row(sessionId: string, event: string, text: string, ts: string,
                     utmSource: string, referrerHost: string, pct: real, durationMs: real, labelNumber: Option<real>,
                     detail: string)

  datatype SignupRow = SignupRow(sessionId: string, role: string, email: string)

  datatype Item = Item(ts: string, event: string, text: string, detail: string)

  datatype Summary = Summary(
    id: string, firstTs: string, lastTs: string, durationMs: real, eventCount: nat, pageViews: nat,
    source: string, referrer: string, sectionsReached: seq<string>, maxScroll: real, ctaClicks: seq<string>,
    roleSelected: string, submitAttempt: bool, signedUp: bool, signupRole: string, signupEmail: string,
    lastEvent: string, events: seq<Item>)

  function Fresh(id: string, ts: string): Summary {
    Summary(id, ts, ts, 0.0, 0, 0, "", "", [], 0.0, [], "", false, false, "", "", "", [])
  }

  function MaxReal(a: real, b: real): real {
    if a < b then b else a
  }

  /** The depth a scroll row reports: its percentage, else its label read as a number, else none. */
  function ScrollOf(row: Row): real {
    if row.pct != 0.0 then row.pct else if row.labelNumber.Some? then row.labelNumber.value else 0.0
  }

  function ItemOf(row: Row): Item {
    Item(row.ts, row.event, row.text, row.detail)
  }

  // ---------------------------------------------------------------- one row

  /** The first and last stamp, widened by a stamp that is there. */
  function Widened(s: Summary, ts: string): Summary {
    s.(firstTs := if ts != "" && (s.firstTs == "" || TextLess(ts, s.firstTs)) then ts else s.firstTs,
       lastTs := if ts != "" && TextLess(s.lastTs, ts) then ts else s.lastTs)
  }

  /** The fields every row updates. */
  function Stamped(s: Summary, row: Row): Summary {
    Widened(s, row.ts).(eventCount := s.eventCount + 1, events := s.events + [ItemOf(row)])
  }

  datatype Kind = PageView | SectionView | ScrollDepth | CtaClick | RoleSelect | SubmitAttempt | SessionEnd | OtherKind

  function KindOf(event: string): Kind {
    if event == "page_view" then PageView
    else if event == "section_view" then SectionView
    else if event == "scroll_depth" then ScrollDepth
    else if event == "cta_click" then CtaClick
    else if event == "role_select" then RoleSelect
    else if event == "waitlist_submit_attempt" then SubmitAttempt
    else if event == "session_end" then SessionEnd
    else OtherKind
  }

  /** The field an event of the kind updates. */
  function NotedAs(s: Summary, row: Row, kind: Kind): Summary {
    match kind
    case PageView =>
      s.(pageViews := s.pageViews + 1,
         source := if s.source != "" then s.source else if row.utmSource != "" then row.utmSource else "direct",
         referrer := if s.referrer != "" then s.referrer else row.referrerHost)
    case SectionView =>
      if row.text != "" && row.text !in s.sectionsReached
      then s.(sectionsReached := s.sectionsReached + [row.text]) else s
    case ScrollDepth => s.(maxScroll := MaxReal(s.maxScroll, ScrollOf(row)))
    case CtaClick => s.(ctaClicks := s.ctaClicks + [row.text])
    case RoleSelect => s.(roleSelected := row.text)
    case SubmitAttempt => s.(submitAttempt := true)
    case SessionEnd => s.(durationMs := MaxReal(s.durationMs, row.durationMs))
    case OtherKind => s
  }

  function Noted(s: Summary, row: Row): Summary {
    NotedAs(s, row, KindOf(row.event))
  }

  function Absorb(s: Summary, row: Row): Summary {
    Noted(Stamped(s, row), row)
  }

  /** A session after its rows, in log order. */
  function Folded(id: string, rows: seq<Row>): Summary {
    if rows == [] then Fresh(id, "") else Absorb(Folded(id, rows[..|rows| - 1]), rows[|rows| - 1])
  }

  function HasId(id: string): Row -> bool {
    (row: Row) => row.sessionId == id
  }

  function RowsOf(events: seq<Row>, id: string): seq<Row> {
    Filter(events, HasId(id))
  }

  /** The non-empty session ids, in order of first appearance. */
  function SessionIds(events: seq<Row>): seq<string> {
    if events == [] then []
    else
      var ids, id := SessionIds(events[..|events| - 1]), events[|events| - 1].sessionId;
      if id == "" || id in ids then ids else ids + [id]
  }

  // ---------------------------------------------------------------- finishing

  const SECTION_ORDER: seq<string> := ["top", "why", "character", "how", "partners", "process", "finale"]

  /** indexOf: -1 for a section that is not listed. */
  function IndexIn(s: seq<string>, x: string): int {
    if s == [] then -1 else if s[0] == x then 0
    else
      var k := IndexIn(s[1..], x);
      if k < 0 then -1 else k + 1
  }

  const BY_STAMP: (Item, Item) -> bool := (a: Item, b: Item) => !TextLess(b.ts, a.ts)

  const BY_SECTION: (string, string) -> bool :=
    (a: string, b: string) => IndexIn(SECTION_ORDER, a) <= IndexIn(SECTION_ORDER, b)

  const NEWEST_FIRST: (Summary, Summary) -> bool := (a: Summary, b: Summary) => !TextLess(a.firstTs, b.firstTs)

  /** The last signup row of a session. */
  function SignupOf(signups: seq<SignupRow>, id: string): Option<SignupRow> {
    if signups == [] then None
    else if signups[|signups| - 1].sessionId == id then Some(signups[|signups| - 1])
    else SignupOf(signups[..|signups| - 1], id)
  }

  function Elapsed(first: string, last: string, parse: string -> Option<real>): real {
    if parse(first).Some? && parse(last).Some? && parse(last).value - parse(first).value > 0.0
    then parse(last).value - parse(first).value else 0.0
  }

  function LastEvent(items: seq<Item>): string {
    if items == [] then "" else items[|items| - 1].event
  }

  function Filled(s: Summary, parse: string -> Option<real>): Summary {
    s.(source := if s.source == "" then "direct" else s.source,
       durationMs := if s.durationMs == 0.0 then Elapsed(s.firstTs, s.lastTs, parse) else s.durationMs)
  }

  function Ordered(s: Summary): Summary {
    var items := StableSort(s.events, BY_STAMP);
    s.(events := items, lastEvent := LastEvent(items), sectionsReached := StableSort(s.sectionsReached, BY_SECTION))
  }

  function Matched(s: Summary, signup: Option<SignupRow>): Summary {
    match signup
    case None => s
    case Some(row) => s.(signedUp := true, signupRole := row.role, signupEmail := row.email)
  }

  function Finished(s: Summary, signup: Option<SignupRow>, parse: string -> Option<real>): Summary {
    Matched(Ordered(Filled(s, parse)), signup)
  }

  /** The finished session of an id. */
  function SessionOf(events: seq<Row>, signups: seq<SignupRow>, parse: string -> Option<real>): string -> Summary {
    (id: string) => Finished(Folded(id, RowsOf(events, id)), SignupOf(signups, id), parse)
  }

  function Sessions(events: seq<Row>, signups: seq<SignupRow>, parse: string -> Option<real>): seq<Summary> {
    StableSort(Map(SessionIds(events), SessionOf(events, signups, parse)), NEWEST_FIRST)
  }

  // ---------------------------------------------------------------- the program

  lemma {:induction false} RowsOfAppend(events: seq<Row>, row: Row, id: string)
    ensures RowsOf(events + [row], id) == RowsOf(events, id) + if row.sessionId == id then [row] else []
  {
    assert (events + [row])[..|events|] == events;
  }

  lemma {:induction false} SessionIdsAppend(events: seq<Row>, row: Row)
    ensures SessionIds(events + [row]) ==
            if row.sessionId == "" || row.sessionId in SessionIds(events) then SessionIds(events)
            else SessionIds(events) + [row.sessionId]
  {
    assert (events + [row])[..|events|] == events;
  }

  lemma {:induction false} FoldedAppend(id: string, rows: seq<Row>, row: Row)
    ensures Folded(id, rows + [row]) == Absorb(Folded(id, rows), row)
  {
    assert (rows + [row])[..|rows|] == rows;
  }

  /** Starting a session from its first stamp or from none makes no difference. */
  lemma {:induction false} FreshStart(id: string, row: Row)
    ensures Absorb(Fresh(id, row.ts), row) == Absorb(Fresh(id, ""), row)
  {
    TextIrreflexive(row.ts);
  }

  lemma {:induction false} NoRowsYet(events: seq<Row>, id: string)
    requires id != "" && id !in SessionIds(events)
    ensures RowsOf(events, id) == []
  {
    if events != [] {
      NoRowsYet(events[..|events| - 1], id);
    }
  }

  /** The mutable session object that the Map holds. */
  class SessionObject {
    const id: string
    var firstTs: string
    var lastTs: string
    var durationMs: real
    var eventCount: nat
    var pageViews: nat
    var source: string
    var referrer: string
    var sectionsReached: seq<string>
    var maxScroll: real
    var ctaClicks: seq<string>
    var roleSelected: string
    var submitAttempt: bool
    var signedUp: bool
    var signupRole: string
    var signupEmail: string
    var lastEvent: string
    var events: seq<Item>

    function Value(): Summary
      reads this
    {
      Summary(id, firstTs, lastTs, durationMs, eventCount, pageViews, source, referrer, sectionsReached, maxScroll,
              ctaClicks, roleSelected, submitAttempt, signedUp, signupRole, signupEmail, lastEvent, events)
    }

    constructor (id: string, ts: string)
      ensures Value() == Fresh(id, ts)
    {
      this.id, firstTs, lastTs, durationMs, eventCount, pageViews := id, ts, ts, 0.0, 0, 0;
      source, referrer, sectionsReached, maxScroll, ctaClicks := "", "", [], 0.0, [];
      roleSelected, submitAttempt, signedUp, signupRole, signupEmail := "", false, false, "", "";
      lastEvent, events := "", [];
    }

    method WidenSpan(ts: string)
      modifies this
      ensures Value() == Widened(old(Value()), ts)
    {
      if ts != "" && (firstTs == "" || TextLess(ts, firstTs)) { firstTs := ts; }
      if ts != "" && TextLess(lastTs, ts) { lastTs := ts; }
    }

    /** The updates every row makes. */
    method Stamp(row: Row)
      modifies this
      ensures Value() == Stamped(old(Value()), row)
    {
      eventCount := eventCount + 1;
      WidenSpan(row.ts);
      events := events + [ItemOf(row)];
    }

    method NotePageView(row: Row)
      modifies this
      ensures Value() == NotedAs(old(Value()), row, PageView)
    {
      pageViews := pageViews + 1;
      if source == "" { source := if row.utmSource != "" then row.utmSource else "direct"; }
      if referrer == "" { referrer := row.referrerHost; }
    }

    method NoteSection(row: Row)
      modifies this
      ensures Value() == NotedAs(old(Value()), row, SectionView)
    {
      if row.text != "" && row.text !in sectionsReached { sectionsReached := sectionsReached + [row.text]; }
    }

    method NoteKind(row: Row, kind: Kind)
      modifies this
      ensures Value() == NotedAs(old(Value()), row, kind)
    {
      match kind
      case PageView => NotePageView(row);
      case SectionView => NoteSection(row);
      case ScrollDepth => maxScroll := MaxReal(maxScroll, ScrollOf(row));
      case CtaClick => ctaClicks := ctaClicks + [row.text];
      case RoleSelect => roleSelected := row.text;
      case SubmitAttempt => submitAttempt := true;
      case SessionEnd => durationMs := MaxReal(durationMs, row.durationMs);
      case OtherKind =>
    }

    /** The update the kind of event makes. */
    method Note(row: Row)
      modifies this
      ensures Value() == Noted(old(Value()), row)
    {
      NoteKind(row, KindOf(row.event));
    }

    method FillGaps(parse: string -> Option<real>)
      modifies this
      ensures Value() == Filled(old(Value()), parse)
    {
      if source == "" { source := "direct"; }
      if durationMs == 0.0 { durationMs := Elapsed(firstTs, lastTs, parse); }
    }

    method SortTimeline()
      modifies this
      ensures Value() == old(Value()).(events := StableSort(old(events), BY_STAMP),
                                       lastEvent := LastEvent(StableSort(old(events), BY_STAMP)))
    {
      events := StableSort(events, BY_STAMP);
      lastEvent := LastEvent(events);
    }

    method SortLists()
      modifies this
      ensures Value() == Ordered(old(Value()))
    {
      SortTimeline();
      sectionsReached := StableSort(sectionsReached, BY_SECTION);
    }

    method MatchSignup(signup: Option<SignupRow>)
      modifies this
      ensures Value() == Matched(old(Value()), signup)
    {
      if signup.Some? {
        signedUp, signupRole, signupEmail := true, signup.value.role, signup.value.email;
      }
    }

    /** The second pass. */
    method Finish(signup: Option<SignupRow>, parse: string -> Option<real>)
      modifies this
      ensures Value() == Finished(old(Value()), signup, parse)
    {
      FillGaps(parse);
      SortLists();
      MatchSignup(signup);
    }
  }

  method MatchSignups(signups: seq<SignupRow>) returns (bySession: map<string, SignupRow>)
    ensures forall id :: id in bySession <==> id != "" && SignupOf(signups, id).Some?
    ensures forall id :: id in bySession ==> SignupOf(signups, id) == Some(bySession[id])
  {
    bySession := map[];
    for i := 0 to |signups|
      invariant forall id :: id in bySession <==> id != "" && SignupOf(signups[..i], id).Some?
      invariant forall id :: id in bySession ==> SignupOf(signups[..i], id) == Some(bySession[id])
    {
      assert signups[..i + 1][..i] == signups[..i];
      if signups[i].sessionId != "" {
        bySession := bySession[signups[i].sessionId := signups[i]];
      }
    }
    assert signups[..|signups|] == signups;
  }

  /** The ids in the order a Map keeps them, and for each the fold of its rows, after some rows. */
  ghost predicate Grouped(
      rows: seq<Row>, ids: seq<string>, open: map<string, Summary>, fold: (string, seq<Row>) -> Summary) {
    ids == SessionIds(rows) && (forall id :: id in open <==> id in ids) &&
    (forall id :: id in open ==> id != "" && open[id] == fold(id, RowsOf(rows, id)))
  }

  lemma {:induction false} RowWithoutId(
      rows: seq<Row>, row: Row, ids: seq<string>, open: map<string, Summary>, fold: (string, seq<Row>) -> Summary)
    requires Grouped(rows, ids, open, fold) && row.sessionId == ""
    ensures Grouped(rows + [row], ids, open, fold)
  {
    SessionIdsAppend(rows, row);
    forall id: string ensures id != "" ==> RowsOf(rows + [row], id) == RowsOf(rows, id) {
      RowsOfAppend(rows, row, id);
    }
  }

  lemma {:induction false} OtherRowsSame(rows: seq<Row>, row: Row, all: seq<Row>)
    requires all == rows + [row]
    ensures forall id: string :: id != row.sessionId ==> RowsOf(all, id) == RowsOf(rows, id)
  {
    forall id: string | id != row.sessionId ensures RowsOf(all, id) == RowsOf(rows, id) {
      RowsOfAppend(rows, row, id);
    }
  }

  lemma {:induction false} RegroupedWith(
      rows: seq<Row>, all: seq<Row>, ids: seq<string>, open: map<string, Summary>, fold: (string, seq<Row>) -> Summary,
      sid: string, s: Summary)
    requires Grouped(rows, ids, open, fold) && sid != "" && s == fold(sid, RowsOf(all, sid))
    requires SessionIds(all) == if sid in ids then ids else ids + [sid]
    requires forall id: string :: id != sid ==> RowsOf(all, id) == RowsOf(rows, id)
    ensures Grouped(all, SessionIds(all), open[sid := s], fold)
  {
  }

  lemma {:induction false} RowOfSession(
      rows: seq<Row>, row: Row, ids: seq<string>, open: map<string, Summary>, fold: (string, seq<Row>) -> Summary,
      ids': seq<string>, s: Summary)
    requires Grouped(rows, ids, open, fold) && row.sessionId != ""
    requires ids' == if row.sessionId in ids then ids else ids + [row.sessionId]
    requires s == fold(row.sessionId, RowsOf(rows + [row], row.sessionId))
    ensures Grouped(rows + [row], ids', open[row.sessionId := s], fold)
  {
    SessionIdsAppend(rows, row);
    OtherRowsSame(rows, row, rows + [row]);
    RegroupedWith(rows, rows + [row], ids, open, fold, row.sessionId, s);
  }

  /** The session kept under an id, or a fresh one. */
  function Found(open: map<string, Summary>, sid: string, ts: string): Summary {
    if sid in open then open[sid] else Fresh(sid, ts)
  }

  const FOLD_ROWS: (string, seq<Row>) -> Summary := (id: string, rows: seq<Row>) => Folded(id, rows)

  /** The next row of a session, from its open object or from a fresh one. */
  lemma {:induction false} NextRow(rows: seq<Row>, row: Row, ids: seq<string>, open: map<string, Summary>)
    requires Grouped(rows, ids, open, FOLD_ROWS) && row.sessionId != ""
    ensures Absorb(Found(open, row.sessionId, row.ts), row) ==
            FOLD_ROWS(row.sessionId, RowsOf(rows + [row], row.sessionId))
  {
    var id := row.sessionId;
    RowsOfAppend(rows, row, id);
    FoldedAppend(id, RowsOf(rows, id), row);
    if id !in open {
      NoRowsYet(rows, id);
      FreshStart(id, row);
    }
  }

  /** The values of the objects of a Map. */
  ghost function Values(open: map<string, SessionObject>): map<string, Summary>
    reads open.Values
  {
    map id | id in open :: open[id].Value()
  }

  /** Different keys hold different objects. */
  ghost predicate Apart(open: map<string, SessionObject>) {
    forall a, b :: a in open && b in open && a != b ==> open[a] != open[b]
  }

  lemma {:induction false} OneChanged(
      before: map<string, Summary>, after: map<string, Summary>, sid: string, v: Summary)
    requires after.Keys == before.Keys && sid in before && after[sid] == v
    requires forall id :: id in before && id != sid ==> after[id] == before[id]
    ensures after == before[sid := v]
  {
  }

  /** One row, absorbed by its object in place; the other objects stay as they are. */
  method AbsorbInPlace(open: map<string, SessionObject>, sid: string, row: Row)
    requires sid in open && Apart(open)
    modifies open[sid]
    ensures Values(open) == old(Values(open))[sid := Absorb(old(open[sid].Value()), row)]
  {
    ghost var before := Values(open);
    open[sid].Stamp(row);
    open[sid].Note(row);
    OneChanged(before, Values(open), sid, Absorb(before[sid], row));
  }

  /** The open session of an id; a missing one is created and kept under the id. */
  method Lookup(ids: seq<string>, open: map<string, SessionObject>, sid: string, ts: string)
    returns (ids': seq<string>, open': map<string, SessionObject>)
    requires Apart(open) && forall id :: id in open <==> id in ids
    ensures Apart(open') && sid in open' && ids' == (if sid in ids then ids else ids + [sid])
    ensures forall s :: s in open'.Values ==> s in open.Values || fresh(s)
    ensures Values(open') == Values(open)[sid := Found(Values(open), sid, ts)]
  {
    ids', open' := ids, open;
    if sid !in open {
      var s := new SessionObject(sid, ts);
      ids', open' := ids + [sid], open[sid := s];
    }
  }

  lemma {:induction false} PutTwice(m: map<string, Summary>, k: string, a: Summary, b: Summary)
    ensures m[k := a][k := b] == m[k := b]
  {
  }

  /** Look the session of a row up, or open one, then update it in place. */
  method UpdateSession(ids: seq<string>, open: map<string, SessionObject>, sid: string, row: Row)
    returns (ids': seq<string>, open': map<string, SessionObject>)
    requires Apart(open) && forall id :: id in open <==> id in ids
    modifies open.Values
    ensures Apart(open') && forall s :: s in open'.Values ==> s in open.Values || fresh(s)
    ensures ids' == if sid in ids then ids else ids + [sid]
    ensures Values(open') == old(Values(open))[sid := Absorb(old(Found(Values(open), sid, row.ts)), row)]
  {
    ids', open' := Lookup(ids, open, sid, row.ts);
    ghost var s := open'[sid].Value();
    assert s == Values(open')[sid];
    AbsorbInPlace(open', sid, row);
    PutTwice(old(Values(open)), sid, s, Absorb(s, row));
  }

  /** One row of the loop. */
  method TakeRow(ids: seq<string>, open: map<string, SessionObject>, row: Row, ghost rows: seq<Row>)
    returns (ids': seq<string>, open': map<string, SessionObject>)
    requires Grouped(rows, ids, Values(open), FOLD_ROWS) && Apart(open) && row.sessionId != ""
    modifies open.Values
    ensures Grouped(rows + [row], ids', Values(open'), FOLD_ROWS) && Apart(open')
    ensures forall s :: s in open'.Values ==> s in open.Values || fresh(s)
  {
    ghost var before := Values(open);
    NextRow(rows, row, ids, before);
    ids', open' := UpdateSession(ids, open, row.sessionId, row);
    RowOfSession(rows, row, ids, before, FOLD_ROWS, ids', Absorb(Found(before, row.sessionId, row.ts), row));
  }

  method GroupRows(events: seq<Row>) returns (ids: seq<string>, open: map<string, SessionObject>)
    ensures Grouped(events, ids, Values(open), FOLD_ROWS)
    ensures Apart(open) && forall s :: s in open.Values ==> fresh(s)
  {
    ids, open := [], map[];
    for i := 0 to |events|
      invariant Grouped(events[..i], ids, Values(open), FOLD_ROWS)
      invariant Apart(open) && forall s :: s in open.Values ==> fresh(s)
    {
      var row := events[i];
      assert events[..i + 1] == events[..i] + [row];
      if row.sessionId == "" {
        RowWithoutId(events[..i], row, ids, Values(open), FOLD_ROWS);
        continue;
      }
      ids, open := TakeRow(ids, open, row, events[..i]);
    }
    assert events[..|events|] == events;
  }

  function SignupIn(bySession: map<string, SignupRow>, id: string): Option<SignupRow> {
    if id in bySession then Some(bySession[id]) else None
  }

  /** The second pass over one object; what it holds then. */
  method FinishOne(s: SessionObject, signup: Option<SignupRow>, parse: string -> Option<real>) returns (v: Summary)
    modifies s
    ensures v == Finished(old(s.Value()), signup, parse)
  {
    s.Finish(signup, parse);
    v := s.Value();
  }

  /** The second pass over the objects, in the order of the Map. */
  method FinishAll(
      ids: seq<string>, open: map<string, SessionObject>, bySession: map<string, SignupRow>,
      parse: string -> Option<real>,
      ghost folded: map<string, Summary>)
    returns (done: seq<Summary>)
    requires NoDuplicates(ids) && Apart(open) && forall k :: 0 <= k < |ids| ==> ids[k] in open
    requires folded == Values(open)
    modifies open.Values
    ensures |done| == |ids|
    ensures forall k :: 0 <= k < |ids| ==>
              ids[k] in folded && done[k] == Finished(folded[ids[k]], SignupIn(bySession, ids[k]), parse)
  {
    done := [];
    for i := 0 to |ids|
      invariant |done| == i
      invariant forall k :: 0 <= k < i ==> done[k] == Finished(folded[ids[k]], SignupIn(bySession, ids[k]), parse)
      invariant forall k :: i <= k < |ids| ==> open[ids[k]].Value() == folded[ids[k]]
    {
      var v := FinishOne(open[ids[i]], SignupIn(bySession, ids[i]), parse);
      done := done + [v];
    }
  }

  lemma {:induction false} AllFinished(
      events: seq<Row>, signups: seq<SignupRow>, parse: string -> Option<real>, ids: seq<string>,
      open: map<string, Summary>, bySession: map<string, SignupRow>, done: seq<Summary>)
    requires |done| == |ids|
    requires forall k :: 0 <= k < |ids| ==>
               ids[k] in open && done[k] == Finished(open[ids[k]], SignupIn(bySession, ids[k]), parse) &&
               open[ids[k]] == Folded(ids[k], RowsOf(events, ids[k])) &&
               SignupIn(bySession, ids[k]) == SignupOf(signups, ids[k])
    ensures done == Map(ids, SessionOf(events, signups, parse))
  {
  }

  lemma {:induction false} SessionIdsDistinct(events: seq<Row>)
    ensures NoDuplicates(SessionIds(events))
    ensures forall id :: id in SessionIds(events) <==>
                         id != "" && exists i :: 0 <= i < |events| && events[i].sessionId == id
  {
    if events != [] {
      SessionIdsDistinct(events[..|events| - 1]);
      var last := events[|events| - 1];
      assert forall i :: 0 <= i < |events| - 1 ==> events[..|events| - 1][i] == events[i];
    }
  }

  lemma {:induction false} GroupedIds(events: seq<Row>, ids: seq<string>, folded: map<string, Summary>)
    requires Grouped(events, ids, folded, FOLD_ROWS)
    ensures NoDuplicates(ids)
    ensures forall k :: 0 <= k < |ids| ==>
              ids[k] != "" && ids[k] in folded && folded[ids[k]] == Folded(ids[k], RowsOf(events, ids[k]))
  {
    SessionIdsDistinct(events);
    assert forall k :: 0 <= k < |ids| ==> ids[k] in ids;
  }

  method BuildSessions(
      events: seq<Row>, signups: seq<SignupRow>, parse: string -> Option<real>)
    returns (r: seq<Summary>)
    ensures r == Sessions(events, signups, parse)
  {
    var bySession := MatchSignups(signups);
    var ids, open := GroupRows(events);
    ghost var folded := Values(open);
    GroupedIds(events, ids, folded);
    var done := FinishAll(ids, open, bySession, parse, folded);
    AllFinished(events, signups, parse, ids, folded, bySession, done);
    return StableSort(done, NEWEST_FIRST);
  }
}
