/** What the tracker sends and remembers, in terms of the calls and the requests sent so far. */
module TrackerFacts {
  import opened Basics
  import opened Track

  /** Repeats of these events are dropped within so many milliseconds. */
  const DEDUP: map<string, nat> :=
    map["cta_click" := 1500, "character_click" := 800, "character_drag" := 1500, "email_focus" := 5000,
        "section_view" := 1000]

  lemma {:induction false} Windows(event: string)
    ensures Window(event) == if event in DEDUP then DEDUP[event] else 0
  {
  }

  /** Only pages outside the admin area are tracked, and only in a browser. */
  predicate OnPublicPage(env: Env) {
    env.path.Some? && !(|env.path.value| >= 6 && env.path.value[..6] == "/admin")
  }

  lemma {:induction false} ExcludedPages(env: Env)
    ensures Excluded(env) <==> !OnPublicPage(env)
  {
  }

  /** The label tells calls of one event apart, the id only where there is no label. */
  function StreamOf(props: Props): string {
    if props.labelled.Some? then props.labelled.value
    else match props.id case None => "" case Some(id) => id
  }

  /** The id under which a call is sent: the one held, else the stored one, else a new one. */
  function IdFor(m: Memory, env: Env): string {
    if m.sessionId.Some? && |m.sessionId.value| > 0 then m.sessionId.value
    else if env.stored.Some? && |env.stored.value| > 0 then env.stored.value
    else env.random
  }

  /** A new id is made only when none is held and none is stored. */
  predicate Starts(m: Memory, env: Env) {
    (m.sessionId == None || m.sessionId == Some("")) && (env.stored == None || env.stored == Some(""))
  }

  predicate Repeats(m: Memory, event: string, props: Props, now: int) {
    var key := event + "::" + StreamOf(props);
    event in DEDUP && key in m.dedupCache && now - m.dedupCache[key] < DEDUP[event]
  }

  // ---------------------------------------------------------------- one call

  lemma {:induction false} SessionFor(m: Memory, env: Env)
    requires env.path.Some?
    ensures WithSession(m, env) == m.(sessionId := Some(IdFor(m, env)),
                                      sessionStartTs := if Starts(m, env) then Some(env.now) else m.sessionStartTs)
  {
  }

  lemma {:induction false} EmitsUnlessRepeated(m: Memory, event: string, props: Props, now: int)
    ensures Emits(m, event, props, now) <==> !Repeats(m, event, props, now)
  {
    Windows(event);
    assert Key(event, Tag(props)) == event + "::" + StreamOf(props);
  }

  /** Milliseconds since the page was loaded, 0 before. */
  function SinceLoad(m: Memory, now: int): int {
    match m.pageLoadTs case None => 0 case Some(loaded) => now - loaded
  }

  function PostFor(m: Memory, event: string, props: Props, env: Env): Post {
    Post(event, props, IdFor(m, env), SinceLoad(m, env.now), env.now)
  }

  /**
   A call off the public pages does nothing. On them it makes sure of the session; a repeat
   ends there, anything else is sent, remembered as the last event and, if it is one of the
   five, as the last of its stream.
   */
  lemma {:induction false} TrackTells(m: Memory, event: string, props: Props, env: Env)
    ensures !OnPublicPage(env) ==> Tracked(m, event, props, env) == m
    ensures OnPublicPage(env) ==>
              var s := m.(sessionId := Some(IdFor(m, env)),
                          sessionStartTs := if Starts(m, env) then Some(env.now) else m.sessionStartTs);
              Tracked(m, event, props, env) ==
              if Repeats(m, event, props, env.now) then s
              else s.(dedupCache := if event in DEDUP
                                    then m.dedupCache[event + "::" + StreamOf(props) := env.now] else m.dedupCache,
                      posted := m.posted + [PostFor(m, event, props, env)],
                      lastEvent := Some(event), lastEventTs := Some(env.now))
  {
    ExcludedPages(env);
    if OnPublicPage(env) {
      SessionFor(m, env);
      Windows(event);
      EmitsUnlessRepeated(WithSession(m, env), event, props, env.now);
    }
  }

  /** A call that is not one of the five events is never dropped on a public page. */
  lemma {:induction false} OthersAlwaysSent(calls: seq<Call>, event: string, props: Props, env: Env)
    requires event !in DEDUP && OnPublicPage(env)
    ensures var m := Run(calls);
            Run(calls + [TrackCall(event, props, env)]).posted == m.posted + [PostFor(m, event, props, env)]
  {
    assert (calls + [TrackCall(event, props, env)])[..|calls|] == calls;
    TrackTells(Run(calls), event, props, env);
  }

  // ---------------------------------------------------------------- what is remembered of a run

  /** The last event remembered is that of the last request sent. */
  predicate RemembersLast(m: Memory) {
    if m.posted == [] then m.lastEvent == None && m.lastEventTs == None
    else m.lastEvent == Some(m.posted[|m.posted| - 1].event) && m.lastEventTs == Some(m.posted[|m.posted| - 1].ts)
  }

  lemma {:induction false} TrackRemembers(m: Memory, event: string, props: Props, env: Env)
    requires RemembersLast(m)
    ensures RemembersLast(Tracked(m, event, props, env))
  {
    TrackTells(m, event, props, env);
  }

  lemma {:induction false} LoadSends(m: Memory, env: Env)
    ensures var n := PageLoaded(m, env);
            n.posted == m.posted && n.lastEvent == m.lastEvent && n.lastEventTs == m.lastEventTs &&
            n.pageLoadTs == (if m.pageLoadTs.Some? then m.pageLoadTs else Some(env.now)) && n.sessionStartTs.Some?
  {
  }

  lemma {:induction false} CallRemembers(m: Memory, call: Call)
    requires RemembersLast(m)
    ensures RemembersLast(After(m, call))
  {
    match call
    case TrackCall(event, props, env) => TrackRemembers(m, event, props, env);
    case EndCall(reason, env) =>
      TrackRemembers(m.(lastSessionEndTs := env.now), "session_end", EndProps(m, reason, env.now), env);
    case LoadCall(env) => LoadSends(m, env);
  }

  lemma {:induction false} RunRemembers(calls: seq<Call>)
    ensures RemembersLast(Run(calls))
  {
    if calls != [] {
      RunRemembers(calls[..|calls| - 1]);
      CallRemembers(Run(calls[..|calls| - 1]), calls[|calls| - 1]);
    }
  }

  /** When the page was first reported as loaded. */
  function FirstLoad(calls: seq<Call>): Option<int> {
    if calls == [] then None
    else
      var earlier, last := FirstLoad(calls[..|calls| - 1]), calls[|calls| - 1];
      if earlier.None? && last.LoadCall? then Some(last.env.now) else earlier
  }

  /** Elapsed times count from the first page load. */
  lemma {:induction false} LoadedOnce(calls: seq<Call>)
    ensures Run(calls).pageLoadTs == FirstLoad(calls)
  {
    if calls != [] {
      var m, last := Run(calls[..|calls| - 1]), calls[|calls| - 1];
      LoadedOnce(calls[..|calls| - 1]);
      match last
      case TrackCall(event, props, env) => TrackTells(m, event, props, env);
      case EndCall(reason, env) =>
        TrackTells(m.(lastSessionEndTs := env.now), "session_end", EndProps(m, reason, env.now), env);
      case LoadCall(env) => LoadSends(m, env);
    }
  }

  /** All requests carry the one session id that is held. */
  ghost predicate OneSession(m: Memory) {
    (m.sessionId.Some? ==> m.sessionId.value != "") &&
    forall p :: p in m.posted ==> m.sessionId == Some(p.sessionId)
  }

  lemma {:induction false} TrackKeepsSession(m: Memory, event: string, props: Props, env: Env)
    requires OneSession(m) && env.random != ""
    ensures OneSession(Tracked(m, event, props, env))
  {
    TrackTells(m, event, props, env);
  }

  lemma {:induction false} LoadKeepsSession(m: Memory, env: Env)
    requires OneSession(m) && env.random != ""
    ensures OneSession(PageLoaded(m, env))
  {
  }

  /** Whatever storage says later, all requests of a run carry one and the same id. */
  lemma {:induction false} RunIsOneSession(calls: seq<Call>)
    requires forall i :: 0 <= i < |calls| ==> calls[i].env.random != ""
    ensures OneSession(Run(calls))
  {
    if calls != [] {
      var m, last := Run(calls[..|calls| - 1]), calls[|calls| - 1];
      RunIsOneSession(calls[..|calls| - 1]);
      match last
      case TrackCall(event, props, env) => TrackKeepsSession(m, event, props, env);
      case EndCall(reason, env) =>
        TrackKeepsSession(m.(lastSessionEndTs := env.now), "session_end", EndProps(m, reason, env.now), env);
      case LoadCall(env) => LoadKeepsSession(m, env);
    }
  }

  // ---------------------------------------------------------------- the end report

  /** How long the session lasted, what was sent last and how long ago; an instant 0 counts as none. */
  function EndingOf(m: Memory, reason: string, now: int): Ending {
    Ending(reason, if m.sessionStartTs == None || m.sessionStartTs == Some(0) then 0 else now - m.sessionStartTs.value,
           if m.posted == [] then "" else m.posted[|m.posted| - 1].event,
           if m.posted == [] || m.posted[|m.posted| - 1].ts == 0 then 0 else now - m.posted[|m.posted| - 1].ts)
  }

  lemma {:induction false} EndPropsTell(m: Memory, reason: string, now: int)
    requires RemembersLast(m)
    ensures EndProps(m, reason, now) == Props(None, None, Some(EndingOf(m, reason, now)))
  {
  }

  lemma {:induction false} EndPosts(m: Memory, reason: string, env: Env, props: Props)
    requires env.path.Some? && env.now - m.lastSessionEndTs >= 1000 && props == EndProps(m, reason, env.now)
    ensures var n := SessionEnded(m, reason, env);
            n.lastSessionEndTs == env.now &&
            n.posted == if OnPublicPage(env) then m.posted + [PostFor(m, "session_end", props, env)] else m.posted
  {
    TrackTells(m.(lastSessionEndTs := env.now), "session_end", props, env);
  }

  /**
   Leaving the page sends one report of the run so far, unless one was attempted less than a
   second before or the page is not a public one.
   */
  lemma {:induction false} EndReports(calls: seq<Call>, reason: string, env: Env)
    ensures var m, n := Run(calls), Run(calls + [EndCall(reason, env)]);
            if env.path.Some? && env.now - m.lastSessionEndTs >= 1000
            then n.lastSessionEndTs == env.now &&
                 n.posted == if OnPublicPage(env)
                             then m.posted + [PostFor(m, "session_end",
                                                      Props(None, None, Some(EndingOf(m, reason, env.now))), env)]
                             else m.posted
            else n == m
  {
    assert (calls + [EndCall(reason, env)])[..|calls|] == calls;
    RunRemembers(calls);
    EndPropsTell(Run(calls), reason, env.now);
    if env.path.Some? && env.now - Run(calls).lastSessionEndTs >= 1000 {
      EndPosts(Run(calls), reason, env, EndProps(Run(calls), reason, env.now));
    }
  }

  /** A page load makes sure of the session and is the start of it where none was known. */
  lemma {:induction false} LoadTells(m: Memory, env: Env)
    ensures var starts := env.path.Some? && Starts(m, env);
            PageLoaded(m, env) ==
            m.(pageLoadTs := if m.pageLoadTs.Some? then m.pageLoadTs else Some(env.now),
               sessionId := if env.path.Some? then Some(IdFor(m, env)) else m.sessionId,
               sessionStartTs := if starts || m.sessionStartTs.None? then Some(env.now) else m.sessionStartTs)
  {
    var loaded := if m.pageLoadTs.None? then m.(pageLoadTs := Some(env.now)) else m;
    if env.path.Some? {
      SessionFor(loaded, env);
    }
  }

  /** When leaving was last noticed, a second or more after the time before; 0 before the first time. */
  function LastNoticed(calls: seq<Call>): int {
    if calls == [] then 0
    else
      var before, last := LastNoticed(calls[..|calls| - 1]), calls[|calls| - 1];
      if last.EndCall? && last.env.path.Some? && last.env.now - before >= 1000 then last.env.now else before
  }

  lemma {:induction false} EndsNoticed(calls: seq<Call>)
    ensures Run(calls).lastSessionEndTs == LastNoticed(calls)
  {
    if calls != [] {
      var m, last := Run(calls[..|calls| - 1]), calls[|calls| - 1];
      EndsNoticed(calls[..|calls| - 1]);
      match last
      case TrackCall(event, props, env) => TrackTells(m, event, props, env);
      case EndCall(reason, env) =>
        TrackTells(m.(lastSessionEndTs := env.now), "session_end", EndProps(m, reason, env.now), env);
      case LoadCall(env) => LoadTells(m, env);
    }
  }

  /** The id handed out outside a browser is the one held, if any. */
  lemma {:induction false} IdWithoutBrowser(m: Memory, env: Env)
    requires env.path == None
    ensures WithSession(m, env) == m
    ensures SessionId(m) == match m.sessionId case None => "" case Some(id) => id
  {
  }
}
