/** The overview against direct counting on the raw log. */
module OverviewFacts {
  import opened Basics
  import opened LandingSessions
  import opened SessionFacts
  import opened SessionList
  import opened StableSorting
  import opened Tally
  import opened Overviews

  // ---------------------------------------------------------------- sessions counted as ids

  lemma {:induction false} SelectedIds(
      ids: seq<string>, h: string -> Summary, r: seq<Summary>, p: Summary -> bool, chosen: set<string>)
    requires NoDuplicates(ids) && multiset(r) == multiset(Map(ids, h))
    requires forall id :: id in chosen <==> id in ids && p(h(id))
    ensures |Filter(r, p)| == |chosen|
  {
    FilterPermuted(r, Map(ids, h), p);
    PermutedMembers(Filter(r, p), Filter(Map(ids, h), p));
    CountMapped(ids, h, p, chosen);
  }

  /** The sessions that satisfy p are as many as their ids. */
  lemma {:induction false} CountSessions(
      events: seq<Row>, signups: seq<SignupRow>, parse: string -> Option<real>, p: Summary -> bool, chosen: set<string>)
    requires forall id :: id in chosen <==> id in SessionIds(events) && p(SessionOf(events, signups, parse)(id))
    ensures |Filter(Sessions(events, signups, parse), p)| == |chosen|
  {
    SessionIdsDistinct(events);
    SortPermutes(Unsorted(events, signups, parse), NEWEST_FIRST);
    SelectedIds(SessionIds(events), SessionOf(events, signups, parse), Sessions(events, signups, parse), p, chosen);
  }

  lemma {:induction false} RowsOfMember(events: seq<Row>, row: Row)
    requires row in events && row.sessionId != ""
    ensures row in RowsOf(events, row.sessionId) && row.sessionId in SessionIds(events)
  {
    FilterMembers(events, HasId(row.sessionId));
    SessionIdsDistinct(events);
    var i :| 0 <= i < |events| && events[i] == row;
  }

  lemma {:induction false} MemberOfRows(events: seq<Row>, id: string, row: Row)
    requires row in RowsOf(events, id)
    ensures row in events && row.sessionId == id
  {
    FilterMembers(events, HasId(id));
  }

  // ---------------------------------------------------------------- sections

  function Views(section: string): Row -> bool {
    (row: Row) => row.event == "section_view" && row.text == section
  }

  function ScrollsTo(depth: int): Row -> bool {
    (row: Row) => row.event == "scroll_depth" && ScrollOf(row) >= depth as real
  }

  const ATTEMPTS: Row -> bool := (row: Row) => row.event == "waitlist_submit_attempt"

  /** The distinct non-empty ids on the rows that satisfy p. */
  function IdsWhere(events: seq<Row>, p: Row -> bool): set<string> {
    set row | row in events && row.sessionId != "" && p(row) :: row.sessionId
  }

  ghost predicate SomeRow(rows: seq<Row>, p: Row -> bool) {
    exists i :: 0 <= i < |rows| && p(rows[i])
  }

  /** A session satisfies `has` exactly when one of its rows satisfies p. */
  ghost predicate Shows(has: Summary -> bool, p: Row -> bool, parse: string -> Option<real>) {
    forall id, rows, signup :: has(Finished(Folded(id, rows), signup, parse)) <==> SomeRow(rows, p)
  }

  lemma {:induction false} IdOfSomeRow(events: seq<Row>, p: Row -> bool, id: string)
    ensures id in IdsWhere(events, p) <==> id in SessionIds(events) && SomeRow(RowsOf(events, id), p)
  {
    if id in IdsWhere(events, p) {
      var row :| row in events && row.sessionId != "" && p(row) && row.sessionId == id;
      RowsOfMember(events, row);
      var i :| 0 <= i < |RowsOf(events, id)| && RowsOf(events, id)[i] == row;
    }
    if id in SessionIds(events) && SomeRow(RowsOf(events, id), p) {
      var i :| 0 <= i < |RowsOf(events, id)| && p(RowsOf(events, id)[i]);
      MemberOfRows(events, id, RowsOf(events, id)[i]);
      SessionIdsDistinct(events);
    }
  }

  lemma {:induction false} ShownSession(
      events: seq<Row>, signups: seq<SignupRow>, parse: string -> Option<real>, has: Summary -> bool, p: Row -> bool,
      id: string)
    requires Shows(has, p, parse)
    ensures has(SessionOf(events, signups, parse)(id)) <==> SomeRow(RowsOf(events, id), p)
  {
    var s := Finished(Folded(id, RowsOf(events, id)), SignupOf(signups, id), parse);
    assert has(s) <==> SomeRow(RowsOf(events, id), p);
  }

  lemma {:induction false} ShownCount(
      events: seq<Row>, signups: seq<SignupRow>, parse: string -> Option<real>, has: Summary -> bool, p: Row -> bool)
    requires Shows(has, p, parse)
    ensures |Filter(Sessions(events, signups, parse), has)| == |IdsWhere(events, p)|
  {
    forall id
      ensures id in IdsWhere(events, p) <==> id in SessionIds(events) && has(SessionOf(events, signups, parse)(id))
    {
      IdOfSomeRow(events, p, id);
      ShownSession(events, signups, parse, has, p, id);
    }
    CountSessions(events, signups, parse, has, IdsWhere(events, p));
  }

  /** Counting the sessions that show something is counting the ids on the rows that say it. */
  ghost predicate CountsIds(sessions: seq<Summary>, events: seq<Row>, parse: string -> Option<real>) {
    forall has, p :: Shows(has, p, parse) ==> |Filter(sessions, has)| == |IdsWhere(events, p)|
  }

  lemma {:induction false} SessionsCountIds(events: seq<Row>, signups: seq<SignupRow>, parse: string -> Option<real>)
    ensures CountsIds(Sessions(events, signups, parse), events, parse)
  {
    forall has, p | Shows(has, p, parse)
      ensures |Filter(Sessions(events, signups, parse), has)| == |IdsWhere(events, p)| {
      ShownCount(events, signups, parse, has, p);
    }
  }

  lemma {:induction false} SectionsShown(parse: string -> Option<real>, section: string)
    requires section != ""
    ensures Shows(Reached(section), Views(section), parse)
  {
    forall id, rows, signup
      ensures Reached(section)(Finished(Folded(id, rows), signup, parse)) <==> SomeRow(rows, Views(section)) {
      FinishedSections(id, rows, signup, parse);
      ViewedRows(rows, section);
    }
  }

  lemma {:induction false} ViewedRows(rows: seq<Row>, section: string)
    ensures Viewed(rows, section) <==> SomeRow(rows, Views(section))
  {
  }

  lemma {:induction false} ScrollShown(parse: string -> Option<real>, depth: int)
    requires depth > 0
    ensures Shows(Scrolled(depth), ScrollsTo(depth), parse)
  {
    forall id, rows, signup
      ensures Scrolled(depth)(Finished(Folded(id, rows), signup, parse)) <==> SomeRow(rows, ScrollsTo(depth)) {
      FoldedMaxima(id, rows);
      MaximumReaches(rows, Folded(id, rows).maxScroll, depth);
    }
  }

  lemma {:induction false} MaximumReaches(rows: seq<Row>, m: real, depth: int)
    requires IsMaximum(rows, ScrollDepth, SCROLL_VALUE, m) && depth > 0
    ensures m >= depth as real <==> SomeRow(rows, ScrollsTo(depth))
  {
    if m >= depth as real {
      var row :| row in rows && OfKind(ScrollDepth)(row) && SCROLL_VALUE(row) == m;
      var i :| 0 <= i < |rows| && rows[i] == row;
      assert ScrollsTo(depth)(rows[i]);
    }
    if SomeRow(rows, ScrollsTo(depth)) {
      var i :| 0 <= i < |rows| && ScrollsTo(depth)(rows[i]);
      assert rows[i] in rows && OfKind(ScrollDepth)(rows[i]) && SCROLL_VALUE(rows[i]) <= m;
    }
  }

  lemma {:induction false} AttemptsShown(parse: string -> Option<real>)
    ensures Shows(ATTEMPTED, ATTEMPTS, parse)
  {
    forall id, rows, signup ensures ATTEMPTED(Finished(Folded(id, rows), signup, parse)) <==> SomeRow(rows, ATTEMPTS) {
      FoldedCounts(id, rows);
      AttemptRows(rows);
    }
  }

  lemma {:induction false} AttemptRows(rows: seq<Row>)
    ensures (exists i :: 0 <= i < |rows| && OfKind(SubmitAttempt)(rows[i])) <==> SomeRow(rows, ATTEMPTS)
  {
  }

  function ViewersOf(events: seq<Row>): string -> int {
    (section: string) => |IdsWhere(events, Views(section))|
  }

  function ScrollersOf(events: seq<Row>): int -> int {
    (depth: int) => |IdsWhere(events, ScrollsTo(depth))|
  }

  lemma {:induction false} BarsAsCounted(sections: seq<string>, sessions: seq<Summary>, viewers: string -> int)
    requires forall x :: x in sections ==> |Filter(sessions, Reached(x))| == viewers(x)
    ensures var bars := Map(sections, SectionBar(sessions));
            forall k :: 0 <= k < |sections| ==> bars[k].key == sections[k] && bars[k].count == viewers(sections[k])
  {
  }

  lemma {:induction false} DepthsAsCounted(depths: seq<int>, sessions: seq<Summary>, scrollers: int -> int)
    requires forall d :: d in depths ==> |Filter(sessions, Scrolled(d))| == scrollers(d)
    ensures var bars := Map(depths, ScrollBar(sessions));
            forall k :: 0 <= k < |depths| ==> bars[k].key == depths[k] && bars[k].count == scrollers(depths[k])
  {
  }

  lemma {:induction false} SectionCounts(
      sessions: seq<Summary>, events: seq<Row>, parse: string -> Option<real>, sections: seq<string>)
    requires CountsIds(sessions, events, parse) && forall x :: x in sections ==> x != ""
    ensures forall x :: x in sections ==> |Filter(sessions, Reached(x))| == ViewersOf(events)(x)
  {
    forall x | x in sections ensures |Filter(sessions, Reached(x))| == ViewersOf(events)(x) {
      SectionsShown(parse, x);
    }
  }

  lemma {:induction false} DepthCounts(
      sessions: seq<Summary>, events: seq<Row>, parse: string -> Option<real>, depths: seq<int>)
    requires CountsIds(sessions, events, parse) && forall d :: d in depths ==> d > 0
    ensures forall d :: d in depths ==> |Filter(sessions, Scrolled(d))| == ScrollersOf(events)(d)
  {
    forall d | d in depths ensures |Filter(sessions, Scrolled(d))| == ScrollersOf(events)(d) {
      ScrollShown(parse, d);
    }
  }

  lemma {:induction false} ListedBars()
    ensures (forall x :: x in SECTION_ORDER ==> x != "") && forall d :: d in DEPTHS ==> d > 0
  {
  }

  lemma {:induction false} BarsOfCountedSessions(
      sessions: seq<Summary>, events: seq<Row>, parse: string -> Option<real>)
    requires CountsIds(sessions, events, parse)
    ensures forall k :: 0 <= k < |SECTION_ORDER| ==>
              SectionFunnel(sessions)[k].key == SECTION_ORDER[k] &&
              SectionFunnel(sessions)[k].count == ViewersOf(events)(SECTION_ORDER[k])
    ensures forall k :: 0 <= k < |DEPTHS| ==>
              ScrollDist(sessions)[k].key == DEPTHS[k] &&
              ScrollDist(sessions)[k].count == ScrollersOf(events)(DEPTHS[k])
  {
    ListedBars();
    SectionCounts(sessions, events, parse, SECTION_ORDER);
    DepthCounts(sessions, events, parse, DEPTHS);
    BarsAsCounted(SECTION_ORDER, sessions, ViewersOf(events));
    DepthsAsCounted(DEPTHS, sessions, ScrollersOf(events));
  }

  /**
   Each section is counted with the number of distinct ids that viewed it, and each scroll
   depth with the number of distinct ids that reached it.
   */
  lemma {:induction false} BarsCountIds(events: seq<Row>, signups: seq<SignupRow>, parse: string -> Option<real>)
    ensures var funnel := SectionFunnel(Sessions(events, signups, parse));
            forall k :: 0 <= k < |SECTION_ORDER| ==>
              funnel[k].key == SECTION_ORDER[k] && funnel[k].count == ViewersOf(events)(SECTION_ORDER[k])
    ensures var dist := ScrollDist(Sessions(events, signups, parse));
            forall k :: 0 <= k < |DEPTHS| ==>
              dist[k].key == DEPTHS[k] && dist[k].count == ScrollersOf(events)(DEPTHS[k])
  {
    SessionsCountIds(events, signups, parse);
    BarsOfCountedSessions(Sessions(events, signups, parse), events, parse);
  }

  lemma {:induction false} FunnelSteps(events: seq<Row>, sessions: seq<Summary>)
    ensures var f := SignupFunnel(events, sessions);
            f[0].count == |sessions| && f[1].count == |Filter(sessions, Reached("finale"))| &&
            f[2].count == |IdsWith(events, "email_focus")| && f[3].count == |Filter(sessions, CHOSE_ROLE)| &&
            f[4].count == |Filter(sessions, ATTEMPTED)| && f[5].count == |Filter(sessions, SIGNED_UP)|
  {
  }

  /** The finale and attempt steps count distinct ids too. */
  lemma {:induction false} StepsCountIds(events: seq<Row>, signups: seq<SignupRow>, parse: string -> Option<real>)
    ensures var f := SignupFunnel(events, Sessions(events, signups, parse));
            f[1].count == |IdsWhere(events, Views("finale"))| && f[4].count == |IdsWhere(events, ATTEMPTS)|
  {
    FunnelSteps(events, Sessions(events, signups, parse));
    SectionsShown(parse, "finale");
    AttemptsShown(parse);
    ShownCount(events, signups, parse, Reached("finale"), Views("finale"));
    ShownCount(events, signups, parse, ATTEMPTED, ATTEMPTS);
  }

  function SignupIds(signups: seq<SignupRow>): set<string> {
    set s | s in signups :: s.sessionId
  }

  lemma {:induction false} SignupFound(signups: seq<SignupRow>, id: string)
    ensures SignupOf(signups, id).Some? <==> id in SignupIds(signups)
  {
    if signups != [] {
      var front, last := signups[..|signups| - 1], signups[|signups| - 1];
      assert signups == front + [last];
      SignupFound(front, id);
    }
  }

  lemma {:induction false} UnsignedBefore(id: string, rows: seq<Row>)
    ensures !Folded(id, rows).signedUp
  {
    if rows != [] {
      UnsignedBefore(id, rows[..|rows| - 1]);
      AbsorbKeepsUnsigned(Folded(id, rows[..|rows| - 1]), rows[|rows| - 1]);
    }
  }

  lemma {:induction false} AbsorbKeepsUnsigned(s: Summary, row: Row)
    ensures Absorb(s, row).signedUp == s.signedUp
  {
    NotedAsRest(Stamped(s, row), row, KindOf(row.event));
  }

  /** A finished session is marked exactly when it was matched with a signup row. */
  ghost predicate MarksMatched(marked: Summary -> bool, parse: string -> Option<real>) {
    forall id, rows, signup {:trigger Finished(Folded(id, rows), signup, parse)} ::
      marked(Finished(Folded(id, rows), signup, parse)) <==> signup.Some?
  }

  lemma {:induction false} SignupsAreMarked(parse: string -> Option<real>)
    ensures MarksMatched(SIGNED_UP, parse)
  {
    forall id, rows, signup ensures SIGNED_UP(Finished(Folded(id, rows), signup, parse)) <==> signup.Some? {
      UnsignedBefore(id, rows);
    }
  }

  lemma {:induction false} MarkedSession(
      marked: Summary -> bool, id: string, rows: seq<Row>, signup: Option<SignupRow>, parse: string -> Option<real>)
    requires MarksMatched(marked, parse)
    ensures marked(Finished(Folded(id, rows), signup, parse)) <==> signup.Some?
  {
  }

  lemma {:induction false} MarkedId(
      events: seq<Row>, signups: seq<SignupRow>, parse: string -> Option<real>, marked: Summary -> bool, id: string)
    requires MarksMatched(marked, parse)
    ensures marked(SessionOf(events, signups, parse)(id)) <==> SignupOf(signups, id).Some?
  {
    MarkedSession(marked, id, RowsOf(events, id), SignupOf(signups, id), parse);
  }

  lemma {:induction false} MarkedCount(
      events: seq<Row>, signups: seq<SignupRow>, parse: string -> Option<real>, marked: Summary -> bool,
      chosen: set<string>)
    requires MarksMatched(marked, parse)
    requires forall id :: id in chosen <==> id in SessionIds(events) && SignupOf(signups, id).Some?
    ensures |Filter(Sessions(events, signups, parse), marked)| == |chosen|
  {
    forall id ensures id in chosen <==> id in SessionIds(events) && marked(SessionOf(events, signups, parse)(id)) {
      MarkedId(events, signups, parse, marked, id);
    }
    CountSessions(events, signups, parse, marked, chosen);
  }

  lemma {:induction false} IdsOfAnyRow(events: seq<Row>, id: string)
    ensures id in IdsWhere(events, ANY_ROW) <==> id in SessionIds(events)
  {
    SessionIdsDistinct(events);
    if id in SessionIds(events) {
      var i :| 0 <= i < |events| && events[i].sessionId == id;
      assert events[i] in events && ANY_ROW(events[i]);
    }
  }

  lemma {:induction false} MatchedIds(events: seq<Row>, signups: seq<SignupRow>, chosen: set<string>)
    requires chosen == IdsWhere(events, ANY_ROW) * SignupIds(signups)
    ensures forall id :: id in chosen <==> id in SessionIds(events) && SignupOf(signups, id).Some?
  {
    forall id ensures id in chosen <==> id in SessionIds(events) && SignupOf(signups, id).Some? {
      IdsOfAnyRow(events, id);
      SignupFound(signups, id);
    }
  }

  lemma {:induction false} SignupStep(events: seq<Row>, sessions: seq<Summary>)
    ensures SignupFunnel(events, sessions)[5].count == |Filter(sessions, SIGNED_UP)|
  {
    FunnelSteps(events, sessions);
  }

  /** The signup step counts the distinct ids that occur both in the log and in the signup rows. */
  lemma {:induction false} SignupStepCountsIds(events: seq<Row>, signups: seq<SignupRow>, parse: string -> Option<real>)
    ensures SignupFunnel(events, Sessions(events, signups, parse))[5].count ==
            |IdsWhere(events, ANY_ROW) * SignupIds(signups)|
  {
    var chosen := IdsWhere(events, ANY_ROW) * SignupIds(signups);
    SignupsAreMarked(parse);
    MatchedIds(events, signups, chosen);
    MarkedCount(events, signups, parse, SIGNED_UP, chosen);
    SignupStep(events, Sessions(events, signups, parse));
  }

  // ---------------------------------------------------------------- steps within the whole

  /** Scroll counts never increase from 25 to 100, and neither do their percentages. */
  lemma {:induction false} ScrollNeverIncreases(sessions: seq<Summary>, j: nat, k: nat)
    requires j <= k < |DEPTHS|
    ensures var dist := ScrollDist(sessions);
            dist[k].count <= dist[j].count && dist[k].pct <= dist[j].pct
  {
    FilterImplies(sessions, Scrolled(DEPTHS[k]), Scrolled(DEPTHS[j]));
    PctMonotone(|Filter(sessions, Scrolled(DEPTHS[k]))|, |Filter(sessions, Scrolled(DEPTHS[j]))|, |sessions|);
  }

  /** Every step but the email step is at most the number of sessions, which is the visit step. */
  lemma {:induction false} FunnelWithinTotal(events: seq<Row>, sessions: seq<Summary>, k: nat)
    requires k < 6 && k != 2
    ensures SignupFunnel(events, sessions)[k].count <= SignupFunnel(events, sessions)[0].count == |sessions|
  {
    FunnelSteps(events, sessions);
    FilterImplies(sessions, Reached("finale"), Reached("finale"));
    FilterImplies(sessions, CHOSE_ROLE, CHOSE_ROLE);
    FilterImplies(sessions, ATTEMPTED, ATTEMPTED);
    FilterImplies(sessions, SIGNED_UP, SIGNED_UP);
  }

  /** Some row of the event carries no id, yet every session has a row of it. */
  predicate StrayOverflow(events: seq<Row>, event: string) {
    (exists row :: row in events && row.event == event && row.sessionId == "") &&
    forall id :: id in SessionIds(events) ==> exists row :: row in events && row.event == event && row.sessionId == id
  }

  lemma {:induction false} StrayIds(events: seq<Row>, event: string, ids: set<string>)
    requires forall id :: id in ids <==> id in SessionIds(events)
    ensures "" !in ids && IdsWith(events, event) - {""} <= ids
    ensures StrayOverflow(events, event) <==> "" in IdsWith(events, event) && ids <= IdsWith(events, event)
  {
    SessionIdsDistinct(events);
    forall id | id in IdsWith(events, event) && id != "" ensures id in ids {
      var row :| row in events && row.event == event && row.sessionId == id;
      RowsOfMember(events, row);
    }
  }

  lemma {:induction false} OneMore(ids: set<string>, found: set<string>)
    requires "" !in ids && found - {""} <= ids
    ensures |found| > |ids| <==> "" in found && ids <= found
  {
    SubsetSize(found - {""}, ids);
    if "" in found {
      SetGrows(found - {""}, found, "");
      if ids <= found {
        assert ids == found - {""};
      }
    } else {
      assert found - {""} == found;
    }
  }

  lemma {:induction false} ListSize(
      events: seq<Row>, signups: seq<SignupRow>, parse: string -> Option<real>, ids: set<string>)
    requires forall id :: id in ids <==> id in SessionIds(events)
    ensures |Sessions(events, signups, parse)| == |ids|
  {
    SessionIdsDistinct(events);
    DistinctSize(SessionIds(events), ids);
  }

  lemma {:induction false} EmailIdsOverflow(
      events: seq<Row>, signups: seq<SignupRow>, parse: string -> Option<real>, event: string)
    ensures |IdsWith(events, event)| > |Sessions(events, signups, parse)| <==> StrayOverflow(events, event)
  {
    var ids := set id | id in SessionIds(events);
    ListSize(events, signups, parse, ids);
    StrayIds(events, event, ids);
    OneMore(ids, IdsWith(events, event));
  }

  /** More visitors focused the email field than there were visits. */
  predicate EmailOverflow(funnel: seq<Bar<Stage>>)
    requires |funnel| == 6
  {
    funnel[2].count > funnel[0].count
  }

  lemma {:induction false} EmailStep(events: seq<Row>, sessions: seq<Summary>, more: bool)
    requires more <==> |IdsWith(events, "email_focus")| > |sessions|
    ensures EmailOverflow(SignupFunnel(events, sessions)) <==> more
  {
    FunnelSteps(events, sessions);
  }

  /** The email step exceeds the number of sessions exactly in the stray case. */
  lemma {:induction false} EmailStepOverflowsIffStray(
      events: seq<Row>, signups: seq<SignupRow>, parse: string -> Option<real>)
    ensures EmailOverflow(SignupFunnel(events, Sessions(events, signups, parse))) <==>
            StrayOverflow(events, "email_focus")
  {
    EmailIdsOverflow(events, signups, parse, "email_focus");
    EmailStep(events, Sessions(events, signups, parse), StrayOverflow(events, "email_focus"));
  }

  /** One visitor who focused the email field, and one such row without an id: two of one. */
  lemma {:induction false} StrayRowOverflows(focus: Row, stray: Row)
    requires focus.event == "email_focus" && stray.event == "email_focus"
    requires focus.sessionId == "a" && stray.sessionId == ""
    ensures StrayOverflow([focus, stray], "email_focus")
  {
    var events := [focus, stray];
    SessionIdsDistinct(events);
    assert events[0] in events && events[1] in events;
  }

  // ---------------------------------------------------------------- clicks and sources

  /** The rows of a kind that carry no id. */
  function WithoutId(p: Row -> bool): Row -> bool {
    (row: Row) => row.sessionId == "" && p(row)
  }

  lemma {:induction false} ClicksSplit(events: seq<Row>)
    ensures |ClickLabels(events)| ==
            |Filter(events, WithId(OfKind(CtaClick)))| + |Filter(events, WithoutId(OfKind(CtaClick)))|
  {
    FilterSplit(events, Named("cta_click"), WithId(OfKind(CtaClick)), WithoutId(OfKind(CtaClick)));
  }

  lemma {:induction false} SessionClicks(events: seq<Row>, signups: seq<SignupRow>, parse: string -> Option<real>)
    ensures Sum(Sessions(events, signups, parse), CLICKS_OF) == |Filter(events, WithId(OfKind(CtaClick)))|
  {
    CountsAreMeasures(parse);
    MeasureAddsUp(events, signups, parse, CLICKS_OF, OfKind(CtaClick));
  }

  /** The clicks of all sessions and the clicks without an id make up the total. */
  lemma {:induction false} ClicksConserved(events: seq<Row>, signups: seq<SignupRow>, parse: string -> Option<real>)
    ensures Sum(Sessions(events, signups, parse), CLICKS_OF) + |Filter(events, WithoutId(OfKind(CtaClick)))| ==
            |ClickLabels(events)| == |Filter(events, Named("cta_click"))|
  {
    SessionClicks(events, signups, parse);
    ClicksSplit(events);
  }

  /** The label counts make up the total. */
  lemma {:induction false} LabelsConserved(events: seq<Row>)
    ensures Sum(ClickBars(events), BAR_COUNT) == |ClickLabels(events)|
  {
    BarSums(ClickLabels(events), |ClickLabels(events)|);
  }

  /** Every session comes from exactly one source. */
  lemma {:induction false} SourcesConserved(sessions: seq<Summary>)
    ensures Sum(SourceBars(sessions), BAR_COUNT) == |sessions|
  {
    BarSums(Map(sessions, SOURCE_OF), |sessions|);
  }

  /** With k labels and at least one click, the percentages sum to 100 within k/2. */
  lemma {:induction false} ClickPercentages(events: seq<Row>)
    requires ClickLabels(events) != []
    ensures var bars := ClickBars(events);
            200 - |bars| < 2 * Sum(bars, BAR_PCT) <= 200 + |bars|
  {
    PercentagesSum(ClickLabels(events));
  }

  /** The same for k sources and at least one session. */
  lemma {:induction false} SourcePercentages(sessions: seq<Summary>)
    requires sessions != []
    ensures var bars := SourceBars(sessions);
            200 - |bars| < 2 * Sum(bars, BAR_PCT) <= 200 + |bars|
  {
    PercentagesSum(Map(sessions, SOURCE_OF));
  }

  // ---------------------------------------------------------------- the order of the log

  lemma {:induction false} SameRowsSameIds(events: seq<Row>, events': seq<Row>, p: Row -> bool)
    requires forall row :: row in events <==> row in events'
    ensures IdsWhere(events, p) == IdsWhere(events', p)
  {
  }

  lemma {:induction false} SameSectionBars(sections: seq<string>, sessions: seq<Summary>, sessions': seq<Summary>)
    requires |sessions| == |sessions'|
    requires forall x :: x in sections ==> |Filter(sessions, Reached(x))| == |Filter(sessions', Reached(x))|
    ensures Map(sections, SectionBar(sessions)) == Map(sections, SectionBar(sessions'))
  {
  }

  lemma {:induction false} SameDepthBars(depths: seq<int>, sessions: seq<Summary>, sessions': seq<Summary>)
    requires |sessions| == |sessions'|
    requires forall d :: d in depths ==> |Filter(sessions, Scrolled(d))| == |Filter(sessions', Scrolled(d))|
    ensures Map(depths, ScrollBar(sessions)) == Map(depths, ScrollBar(sessions'))
  {
  }

  lemma {:induction false} SameSize(
      events: seq<Row>, events': seq<Row>, signups: seq<SignupRow>, parse: string -> Option<real>)
    requires multiset(events) == multiset(events')
    ensures |Sessions(events, signups, parse)| == |Sessions(events', signups, parse)|
  {
    var ids := set id | id in SessionIds(events);
    forall id ensures id in SessionIds(events) <==> id in SessionIds(events') {
      SameIds(events, events', id);
    }
    ListSize(events, signups, parse, ids);
    ListSize(events', signups, parse, ids);
  }

  lemma {:induction false} SameCounts(
      events: seq<Row>, events': seq<Row>, parse: string -> Option<real>, sessions: seq<Summary>,
      sessions': seq<Summary>)
    requires forall row :: row in events <==> row in events'
    requires CountsIds(sessions, events, parse) && CountsIds(sessions', events', parse)
    ensures forall x :: x in SECTION_ORDER ==> |Filter(sessions, Reached(x))| == |Filter(sessions', Reached(x))|
    ensures forall d :: d in DEPTHS ==> |Filter(sessions, Scrolled(d))| == |Filter(sessions', Scrolled(d))|
  {
    ListedBars();
    SectionCounts(sessions, events, parse, SECTION_ORDER);
    SectionCounts(sessions', events', parse, SECTION_ORDER);
    DepthCounts(sessions, events, parse, DEPTHS);
    DepthCounts(sessions', events', parse, DEPTHS);
    forall x ensures ViewersOf(events)(x) == ViewersOf(events')(x) {
      SameRowsSameIds(events, events', Views(x));
    }
    forall d ensures ScrollersOf(events)(d) == ScrollersOf(events')(d) {
      SameRowsSameIds(events, events', ScrollsTo(d));
    }
  }

  lemma {:induction false} SameFunnels(
      events: seq<Row>, events': seq<Row>, parse: string -> Option<real>, sessions: seq<Summary>,
      sessions': seq<Summary>)
    requires |sessions| == |sessions'| && forall row :: row in events <==> row in events'
    requires CountsIds(sessions, events, parse) && CountsIds(sessions', events', parse)
    ensures SectionFunnel(sessions) == SectionFunnel(sessions') && ScrollDist(sessions) == ScrollDist(sessions')
  {
    SameCounts(events, events', parse, sessions, sessions');
    SameSectionBars(SECTION_ORDER, sessions, sessions');
    SameDepthBars(DEPTHS, sessions, sessions');
  }

  /** Permuting the log changes neither the section funnel nor the scroll distribution. */
  lemma {:induction false} FunnelsIgnoreOrder(
      events: seq<Row>, events': seq<Row>, signups: seq<SignupRow>, parse: string -> Option<real>)
    requires multiset(events) == multiset(events')
    ensures SectionFunnel(Sessions(events, signups, parse)) == SectionFunnel(Sessions(events', signups, parse))
    ensures ScrollDist(Sessions(events, signups, parse)) == ScrollDist(Sessions(events', signups, parse))
  {
    PermutedMembers(events, events');
    SessionsCountIds(events, signups, parse);
    SessionsCountIds(events', signups, parse);
    SameSize(events, events', signups, parse);
    SameFunnels(events, events', parse, Sessions(events, signups, parse), Sessions(events', signups, parse));
  }
}
