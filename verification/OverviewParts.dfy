/** The remaining parts of the overview: totals, roles, keys, percentages and the role step. */
module OverviewParts {
  import opened Basics
  import opened LandingSessions
  import opened SessionFields
  import opened OverviewFacts
  import opened Tally
  import opened Overviews

  function AppliesAs(role: string): SignupRow -> bool {
    (row: SignupRow) => row.role == role
  }

  const APPLIES_OTHERWISE: SignupRow -> bool := (row: SignupRow) => row.role != "아이돌" && row.role != "소속사"

  /** Who applied as an idol, for an agency, and as anybody else; nobody is counted twice or left out. */
  lemma {:induction false} RolesTold(signups: seq<SignupRow>)
    ensures var r := RolesOf(signups);
            r.idol == |Filter(signups, AppliesAs("아이돌"))| &&
            r.agency == |Filter(signups, AppliesAs("소속사"))| &&
            r.fan == |Filter(signups, APPLIES_OTHERWISE)| && r.total == |signups|
  {
    FilterAgree(signups, AppliesAs("아이돌"), InRole(IDOL_ROLE));
    FilterAgree(signups, AppliesAs("소속사"), InRole(AGENCY_ROLE));
    FilterAgree(signups, APPLIES_OTHERWISE, IN_OTHER_ROLE);
  }

  lemma {:induction false} EventsNamed(events: seq<Row>, event: string)
    ensures Filter(events, Named(event)) == Filter(events, IsEvent(event))
  {
    FilterAgree(events, Named(event), IsEvent(event));
  }

  lemma {:induction false} Interactions(events: seq<Row>)
    ensures |Filter(events, ON_CHARACTER)| ==
            |Filter(events, IsEvent("character_click"))| + |Filter(events, IsEvent("character_drag"))|
  {
    FilterSplit(events, ON_CHARACTER, IsEvent("character_click"), IsEvent("character_drag"));
  }

  /** The totals of an overview are those of the log, the signups and the sessions. */
  lemma {:induction false} TotalsTold(
      o: Overview, events: seq<Row>, signups: seq<SignupRow>, sessions: seq<Summary>)
    requires Totals(o, events, signups, sessions)
    ensures o.totalSessions == |sessions| && o.totalEvents == |events| && o.signups.total == |signups|
    ensures o.totalPageViews == |Filter(events, IsEvent("page_view"))|
    ensures o.characterInteractions ==
            |Filter(events, IsEvent("character_click"))| + |Filter(events, IsEvent("character_drag"))|
    ensures o.signups.idol + o.signups.agency + o.signups.fan == |signups|
  {
    EventsNamed(events, "page_view");
    Interactions(events);
    RolesTold(signups);
    FilterSplit(signups, APPLIES_AS_ANYTHING, AppliesAs("아이돌"), APPLIES_AS_NO_IDOL);
    FilterSplit(signups, APPLIES_AS_NO_IDOL, AppliesAs("소속사"), APPLIES_OTHERWISE);
    FilterAll(signups, APPLIES_AS_ANYTHING);
  }

  const APPLIES_AS_ANYTHING: SignupRow -> bool := (row: SignupRow) => true

  const APPLIES_AS_NO_IDOL: SignupRow -> bool := (row: SignupRow) => row.role != "아이돌"

  // ---------------------------------------------------------------- keys and percentages

  /** The bars have these keys, from left to right, and each percentage is that of its count. */
  ghost predicate BarsOver<K(!new)>(bars: seq<Bar<K>>, keys: seq<K>, base: nat) {
    |bars| == |keys| &&
    forall k :: 0 <= k < |keys| ==>
      bars[k].key == keys[k] && bars[k].pct == if base == 0 then 0 else (200 * bars[k].count + base) / (2 * base)
  }

  lemma {:induction false} SectionBars(sessions: seq<Summary>)
    ensures BarsOver(SectionFunnel(sessions), ["top", "why", "character", "how", "partners", "process", "finale"],
                     |sessions|)
  {
    assert SECTION_ORDER == ["top", "why", "character", "how", "partners", "process", "finale"];
    forall k | 0 <= k < |SECTION_ORDER|
      ensures SectionFunnel(sessions)[k] == SectionBar(sessions)(SECTION_ORDER[k]) {
    }
  }

  lemma {:induction false} DepthBars(sessions: seq<Summary>)
    ensures BarsOver(ScrollDist(sessions), [25, 50, 75, 100], |sessions|)
  {
    assert DEPTHS == [25, 50, 75, 100];
    forall k | 0 <= k < |DEPTHS| ensures ScrollDist(sessions)[k] == ScrollBar(sessions)(DEPTHS[k]) {
    }
  }

  lemma {:induction false} StageBars(events: seq<Row>, sessions: seq<Summary>)
    ensures BarsOver(SignupFunnel(events, sessions), [Visit, Finale, Email, Role, Attempt, Signup], |sessions|)
  {
  }

  // ---------------------------------------------------------------- the email and the role step

  /** The email step counts the distinct ids of the focus rows, a missing one included. */
  lemma {:induction false} EmailStepCountsIds(events: seq<Row>, sessions: seq<Summary>)
    ensures SignupFunnel(events, sessions)[2].count ==
            |set row | row in events && row.event == "email_focus" :: row.sessionId|
  {
    FunnelSteps(events, sessions);
  }

  lemma {:induction false} ChoseFields(s: Summary, rows: seq<Row>, parse: string -> Option<real>)
    requires FieldsOf(s, rows, parse)
    ensures CHOSE_ROLE(s) <==> RoleFrom(rows) != ""
  {
  }

  /** The ids whose last choice of a role names one. */
  function Choosers(events: seq<Row>): set<string> {
    set id | id in SessionIds(events) && RoleFrom(RowsOf(events, id)) != ""
  }

  /** A finished session chose a role exactly when its rows say so. */
  ghost predicate ReadsRole(chose: Summary -> bool, parse: string -> Option<real>) {
    forall id, rows, signup {:trigger Finished(Folded(id, rows), signup, parse)} ::
      chose(Finished(Folded(id, rows), signup, parse)) <==> RoleFrom(rows) != ""
  }

  lemma {:induction false} RoleIsRead(parse: string -> Option<real>)
    ensures ReadsRole(CHOSE_ROLE, parse)
  {
    forall id, rows, signup ensures CHOSE_ROLE(Finished(Folded(id, rows), signup, parse)) <==> RoleFrom(rows) != "" {
      FinishedFields(id, rows, signup, parse);
      ChoseFields(Finished(Folded(id, rows), signup, parse), rows, parse);
    }
  }

  lemma {:induction false} ReadSession(
      chose: Summary -> bool, id: string, rows: seq<Row>, signup: Option<SignupRow>, parse: string -> Option<real>)
    requires ReadsRole(chose, parse)
    ensures chose(Finished(Folded(id, rows), signup, parse)) <==> RoleFrom(rows) != ""
  {
  }

  lemma {:induction false} ChooserId(
      events: seq<Row>, signups: seq<SignupRow>, parse: string -> Option<real>, chose: Summary -> bool, id: string)
    requires ReadsRole(chose, parse)
    ensures chose(SessionOf(events, signups, parse)(id)) <==> RoleFrom(RowsOf(events, id)) != ""
  {
    ReadSession(chose, id, RowsOf(events, id), SignupOf(signups, id), parse);
  }

  lemma {:induction false} ChooserCount(
      events: seq<Row>, signups: seq<SignupRow>, parse: string -> Option<real>, chose: Summary -> bool,
      chosen: set<string>)
    requires ReadsRole(chose, parse)
    requires forall id :: id in chosen <==> id in SessionIds(events) && RoleFrom(RowsOf(events, id)) != ""
    ensures |Filter(Sessions(events, signups, parse), chose)| == |chosen|
  {
    forall id ensures id in chosen <==> id in SessionIds(events) && chose(SessionOf(events, signups, parse)(id)) {
      ChooserId(events, signups, parse, chose, id);
    }
    CountSessions(events, signups, parse, chose, chosen);
  }

  lemma {:induction false} RoleStep(events: seq<Row>, sessions: seq<Summary>)
    ensures SignupFunnel(events, sessions)[3].count == |Filter(sessions, CHOSE_ROLE)|
  {
    FunnelSteps(events, sessions);
  }

  /** The role step counts the ids whose last choice of a role names one. */
  lemma {:induction false} RoleStepCountsIds(
      events: seq<Row>, signups: seq<SignupRow>, parse: string -> Option<real>)
    ensures SignupFunnel(events, Sessions(events, signups, parse))[3].count == |Choosers(events)|
  {
    RoleIsRead(parse);
    ChooserCount(events, signups, parse, CHOSE_ROLE, Choosers(events));
    RoleStep(events, Sessions(events, signups, parse));
  }
}
