/** The landing overview computed from the log and the sessions (buildOverview of analytics.ts). */
module Overviews {
  import opened Basics
  import opened LandingSessions
  import opened SessionFacts
  import opened Tally

  datatype Roles = Roles(total: nat, idol: nat, agency: nat, fan: nat)

  /** The steps of the signup funnel. */
  datatype Stage = Visit | Finale | Email | Role | Attempt | Signup

  datatype Overview = Overview(
    totalSessions: nat, totalPageViews: nat, totalEvents: nat, signups: Roles, ctaTotal: nat,
    ctaByLabel: seq<Bar<string>>, sectionFunnel: seq<Bar<string>>, scrollDist: seq<Bar<int>>,
    signupFunnel: seq<Bar<Stage>>, sources: seq<Bar<string>>,
    characterInteractions: nat)

  // ---------------------------------------------------------------- conditions on rows and sessions

  function Named(event: string): Row -> bool {
    (row: Row) => row.event == event
  }

  const ON_CHARACTER: Row -> bool := (row: Row) => row.event == "character_click" || row.event == "character_drag"

  function Reached(section: string): Summary -> bool {
    (s: Summary) => section in s.sectionsReached
  }

  function Scrolled(depth: int): Summary -> bool {
    (s: Summary) => s.maxScroll >= depth as real
  }

  const CHOSE_ROLE: Summary -> bool := (s: Summary) => s.roleSelected != ""

  const ATTEMPTED: Summary -> bool := (s: Summary) => s.submitAttempt

  const SIGNED_UP: Summary -> bool := (s: Summary) => s.signedUp

  const SOURCE_OF: Summary -> string := (s: Summary) => s.source

  function InRole(role: string): SignupRow -> bool {
    (s: SignupRow) => s.role == role
  }

  const IDOL_ROLE := "아이돌"

  const AGENCY_ROLE := "소속사"

  const IN_OTHER_ROLE: SignupRow -> bool := (s: SignupRow) => s.role != IDOL_ROLE && s.role != AGENCY_ROLE

  /** The labels of the clicks, in log order. */
  function ClickLabels(events: seq<Row>): seq<string> {
    Map(Filter(events, Named("cta_click")), TEXT_OF)
  }

  /** The ids on the rows of an event, the empty one included. */
  function IdsWith(events: seq<Row>, event: string): set<string> {
    set row | row in events && row.event == event :: row.sessionId
  }

  // ---------------------------------------------------------------- bars

  function Counted<K>(sessions: seq<Summary>, key: K, p: Summary -> bool): Bar<K> {
    Bar(key, |Filter(sessions, p)|, Pct(|Filter(sessions, p)|, |sessions|))
  }

  function SectionBar(sessions: seq<Summary>): string -> Bar<string> {
    (section: string) => Counted(sessions, section, Reached(section))
  }

  const DEPTHS: seq<int> := [25, 50, 75, 100]

  function ScrollBar(sessions: seq<Summary>): int -> Bar<int> {
    (depth: int) => Counted(sessions, depth, Scrolled(depth))
  }

  function Step(key: Stage, count: nat, base: nat): Bar<Stage> {
    Bar(key, count, Pct(count, base))
  }

  function SectionFunnel(sessions: seq<Summary>): seq<Bar<string>> {
    Map(SECTION_ORDER, SectionBar(sessions))
  }

  function ScrollDist(sessions: seq<Summary>): seq<Bar<int>> {
    Map(DEPTHS, ScrollBar(sessions))
  }

  function ClickBars(events: seq<Row>): seq<Bar<string>> {
    BarsOf(ClickLabels(events), |ClickLabels(events)|)
  }

  function SourceBars(sessions: seq<Summary>): seq<Bar<string>> {
    BarsOf(Map(sessions, SOURCE_OF), |sessions|)
  }

  function SignupFunnel(events: seq<Row>, sessions: seq<Summary>): (r: seq<Bar<Stage>>)
    ensures |r| == 6
  {
    [Step(Visit, |sessions|, |sessions|),
     Counted(sessions, Finale, Reached("finale")),
     Step(Email, |IdsWith(events, "email_focus")|, |sessions|),
     Counted(sessions, Role, CHOSE_ROLE),
     Counted(sessions, Attempt, ATTEMPTED),
     Counted(sessions, Signup, SIGNED_UP)]
  }

  function RolesOf(signups: seq<SignupRow>): Roles {
    Roles(|signups|, |Filter(signups, InRole(IDOL_ROLE))|, |Filter(signups, InRole(AGENCY_ROLE))|,
          |Filter(signups, IN_OTHER_ROLE)|)
  }

  // ---------------------------------------------------------------- the program

  method CountClicks(events: seq<Row>) returns (keys: seq<string>, counts: map<string, nat>)
    ensures Tallied(ClickLabels(events), keys, counts)
  {
    keys, counts := [], map[];
    for i := 0 to |events|
      invariant Tallied(ClickLabels(events[..i]), keys, counts)
    {
      assert events[..i + 1] == events[..i] + [events[i]];
      FilterSnoc(events[..i], events[i], Named("cta_click"));
      if events[i].event != "cta_click" {
        assert Filter(events[..i], Named("cta_click")) + [] == Filter(events[..i], Named("cta_click"));
        continue;
      }
      MapSnoc(Filter(events[..i], Named("cta_click")), events[i], TEXT_OF);
      keys, counts := Increment(keys, counts, events[i].text, ClickLabels(events[..i]));
    }
    assert events[..|events|] == events;
  }

  method CountSources(sessions: seq<Summary>) returns (keys: seq<string>, counts: map<string, nat>)
    ensures Tallied(Map(sessions, SOURCE_OF), keys, counts)
  {
    keys, counts := [], map[];
    for i := 0 to |sessions|
      invariant Tallied(Map(sessions[..i], SOURCE_OF), keys, counts)
    {
      assert sessions[..i + 1] == sessions[..i] + [sessions[i]];
      MapSnoc(sessions[..i], sessions[i], SOURCE_OF);
      keys, counts := Increment(keys, counts, sessions[i].source, Map(sessions[..i], SOURCE_OF));
    }
    assert sessions[..|sessions|] == sessions;
  }

  method CountRoles(signups: seq<SignupRow>) returns (r: Roles)
    ensures r == RolesOf(signups)
    ensures r.idol + r.agency + r.fan == r.total
  {
    var idol, agency, fan := 0, 0, 0;
    for i := 0 to |signups|
      invariant idol == |Filter(signups[..i], InRole(IDOL_ROLE))| &&
                agency == |Filter(signups[..i], InRole(AGENCY_ROLE))|
      invariant fan == |Filter(signups[..i], IN_OTHER_ROLE)| && idol + agency + fan == i
    {
      assert signups[..i + 1] == signups[..i] + [signups[i]];
      FilterSnoc(signups[..i], signups[i], InRole(IDOL_ROLE));
      FilterSnoc(signups[..i], signups[i], InRole(AGENCY_ROLE));
      FilterSnoc(signups[..i], signups[i], IN_OTHER_ROLE);
      if signups[i].role == IDOL_ROLE {
        idol := idol + 1;
      } else if signups[i].role == AGENCY_ROLE {
        agency := agency + 1;
      } else {
        fan := fan + 1;
      }
    }
    assert signups[..|signups|] == signups;
    r := Roles(|signups|, idol, agency, fan);
  }

  ghost predicate Totals(o: Overview, events: seq<Row>, signups: seq<SignupRow>, sessions: seq<Summary>) {
    o.totalSessions == |sessions| && o.totalEvents == |events| &&
    o.totalPageViews == |Filter(events, Named("page_view"))| &&
    o.characterInteractions == |Filter(events, ON_CHARACTER)| && o.signups == RolesOf(signups)
  }

  method BuildOverview(events: seq<Row>, signups: seq<SignupRow>, sessions: seq<Summary>) returns (o: Overview)
    ensures Totals(o, events, signups, sessions)
    ensures o.ctaTotal == |ClickLabels(events)| && o.ctaByLabel == ClickBars(events)
    ensures o.sectionFunnel == SectionFunnel(sessions) && o.scrollDist == ScrollDist(sessions)
    ensures o.signupFunnel == SignupFunnel(events, sessions) && o.sources == SourceBars(sessions)
  {
    var keys, counts := CountClicks(events);
    var ctaTotal := Total(keys, counts, ClickLabels(events));
    var ctaByLabel := MakeBars(keys, counts, ctaTotal, ClickLabels(events));
    var srcKeys, srcCounts := CountSources(sessions);
    var sources := MakeBars(srcKeys, srcCounts, |sessions|, Map(sessions, SOURCE_OF));
    var roles := CountRoles(signups);
    o := Overview(
      |sessions|, |Filter(events, Named("page_view"))|, |events|, roles, ctaTotal, ctaByLabel,
      SectionFunnel(sessions), ScrollDist(sessions), SignupFunnel(events, sessions), sources,
      |Filter(events, ON_CHARACTER)|);
  }
}
