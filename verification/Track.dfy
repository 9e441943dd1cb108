/**
 Client event tracking with a de-duplication gate (web/app/_lib/track.ts).

 The browser is a parameter of each call (Env): the clock, read once per call, the page
 path, what session storage holds and the random id. Requests sent are kept in `posted`.
 */
module Track {
  import opened Basics

  /** now; the path, None when there is no window; the stored session id; a random id. */
  datatype Env = Env(now: int, path: Option<string>, stored: Option<string>, random: string)

  /** The two fields the gate looks at (None when absent or null), and the session-end fields. */
  datatype Props = Props(labelled: Option<string>, id: Option<string>, ended: Option<Ending>)

  datatype Ending = Ending(reason: string, durationMs: int, lastEvent: string, sinceLastMs: int)

  datatype Post = Post(event: string, props: Props, sessionId: string, elapsedMs: int, ts: int)

  /** The module variables of the tracker. */
  datatype Memory = Memory(
    sessionId: Option<string>,
    sessionStartTs: Option<int>,
    pageLoadTs: Option<int>,
    lastEvent: Option<string>,
    lastEventTs: Option<int>,
    dedupCache: map<string, int>,
    lastSessionEndTs: int,
    posted: seq<Post>)

  const INITIAL := Memory(None, None, None, None, None, map[], 0, [])

  /** Milliseconds during which a repeated event is dropped; 0 when it never is. */
  function Window(event: string): nat {
    if event == "cta_click" then 1500
    else if event == "character_click" then 800
    else if event == "character_drag" then 1500
    else if event == "email_focus" then 5000
    else if event == "section_view" then 1000
    else 0
  }

  function Tag(props: Props): string {
    match props.labelled
    case Some(text) => text
    case None => if props.id.Some? then props.id.value else ""
  }

  function Key(event: string, tag: string): string {
    event + "::" + tag
  }

  predicate Excluded(env: Env) {
    env.path.None? || "/admin" <= env.path.value
  }

  // ---------------------------------------------------------------- what one call does

  /** ensureSession: the id held, else the stored one, else a fresh one that starts the session. */
  function WithSession(m: Memory, env: Env): Memory {
    if m.sessionId.Some? && m.sessionId.value != "" then m
    else if env.path.None? then m
    else if env.stored.Some? && env.stored.value != "" then m.(sessionId := env.stored)
    else m.(sessionId := Some(env.random), sessionStartTs := Some(env.now))
  }

  function SessionId(m: Memory): string {
    if m.sessionId.Some? then m.sessionId.value else ""
  }

  predicate Emits(m: Memory, event: string, props: Props, now: int) {
    var key := Key(event, Tag(props));
    Window(event) == 0 || key !in m.dedupCache || now - m.dedupCache[key] >= Window(event)
  }

  function Tracked(m: Memory, event: string, props: Props, env: Env): Memory {
    if Excluded(env) then m
    else
      var s := WithSession(m, env);
      if !Emits(s, event, props, env.now) then s
      else
        s.(dedupCache := if Window(event) == 0 then s.dedupCache
                         else s.dedupCache[Key(event, Tag(props)) := env.now],
           posted := s.posted + [Post(event, props, SessionId(s),
                                      if s.pageLoadTs.Some? then env.now - s.pageLoadTs.value else 0, env.now)],
           lastEvent := Some(event),
           lastEventTs := Some(env.now))
  }

  /** A recorded instant, where 0 counts as absent. */
  function Since(start: Option<int>, now: int): int {
    if start.Some? && start.value != 0 then now - start.value else 0
  }

  function EndProps(m: Memory, reason: string, now: int): Props {
    Props(None, None, Some(Ending(reason, Since(m.sessionStartTs, now),
                                  if m.lastEvent.Some? then m.lastEvent.value else "", Since(m.lastEventTs, now))))
  }

  function SessionEnded(m: Memory, reason: string, env: Env): Memory {
    if env.path.None? || env.now - m.lastSessionEndTs < 1000 then m
    else Tracked(m.(lastSessionEndTs := env.now), "session_end", EndProps(m, reason, env.now), env)
  }

  function PageLoaded(m: Memory, env: Env): Memory {
    var s := WithSession(if m.pageLoadTs.None? then m.(pageLoadTs := Some(env.now)) else m, env);
    if s.sessionStartTs.None? then s.(sessionStartTs := Some(env.now)) else s
  }

  // ---------------------------------------------------------------- the module

  class Tracker {
    var sessionId: Option<string>
    var sessionStartTs: Option<int>
    var pageLoadTs: Option<int>
    var lastEvent: Option<string>
    var lastEventTs: Option<int>
    var dedupCache: map<string, int>
    var lastSessionEndTs: int
    var posted: seq<Post>

    function Contents(): Memory
      reads this
    {
      Memory(sessionId, sessionStartTs, pageLoadTs, lastEvent, lastEventTs, dedupCache, lastSessionEndTs, posted)
    }

    constructor ()
      ensures Contents() == INITIAL
    {
      sessionId, sessionStartTs, pageLoadTs, lastEvent, lastEventTs := None, None, None, None, None;
      dedupCache, lastSessionEndTs, posted := map[], 0, [];
    }

    method EnsureSession(env: Env) returns (id: string)
      modifies this
      ensures Contents() == WithSession(old(Contents()), env) && id == SessionId(Contents())
    {
      if sessionId.Some? && sessionId.value != "" { return sessionId.value; }
      if env.path.None? { return SessionId(Contents()); }
      if env.stored.Some? && env.stored.value != "" {
        sessionId := env.stored;
        return env.stored.value;
      }
      sessionId := Some(env.random);
      sessionStartTs := Some(env.now);
      return env.random;
    }

    method MarkPageLoad(env: Env)
      modifies this
      ensures Contents() == PageLoaded(old(Contents()), env)
    {
      if pageLoadTs.None? { pageLoadTs := Some(env.now); }
      var _ := EnsureSession(env);
      if sessionStartTs.None? { sessionStartTs := Some(env.now); }
    }

    method ShouldEmit(event: string, props: Props, now: int) returns (r: bool)
      modifies this
      ensures r == Emits(old(Contents()), event, props, now)
      ensures Contents() == if r && Window(event) != 0
                            then old(Contents()).(dedupCache := old(dedupCache)[Key(event, Tag(props)) := now])
                            else old(Contents())
    {
      var win := Window(event);
      if win == 0 { return true; }
      var key := Key(event, Tag(props));
      if key in dedupCache && now - dedupCache[key] < win { return false; }
      dedupCache := dedupCache[key := now];
      return true;
    }

    method Track(event: string, props: Props, env: Env)
      modifies this
      ensures Contents() == Tracked(old(Contents()), event, props, env)
    {
      if Excluded(env) { return; }
      var id := EnsureSession(env);
      var elapsed := if pageLoadTs.None? then 0 else env.now - pageLoadTs.value;
      var emit := ShouldEmit(event, props, env.now);
      if !emit { return; }
      posted := posted + [Post(event, props, id, elapsed, env.now)];
      lastEvent := Some(event);
      lastEventTs := Some(env.now);
    }

    method FireSessionEnd(reason: string, env: Env)
      modifies this
      ensures Contents() == SessionEnded(old(Contents()), reason, env)
    {
      if env.path.None? { return; }
      if env.now - lastSessionEndTs < 1000 { return; }
      var props := EndProps(Contents(), reason, env.now);
      lastSessionEndTs := env.now;
      Track("session_end", props, env);
    }
  }

  // ---------------------------------------------------------------- whole runs

  datatype Call =
    | TrackCall(event: string, props: Props, env: Env)
    | EndCall(reason: string, env: Env)
    | LoadCall(env: Env)

  function After(m: Memory, call: Call): Memory {
    match call
    case TrackCall(event, props, env) => Tracked(m, event, props, env)
    case EndCall(reason, env) => SessionEnded(m, reason, env)
    case LoadCall(env) => PageLoaded(m, env)
  }

  function Run(calls: seq<Call>): Memory {
    if calls == [] then INITIAL else After(Run(calls[..|calls| - 1]), calls[|calls| - 1])
  }

  predicate Asks(call: Call, event: string, tag: string) {
    call.TrackCall? && call.event == event && Tag(call.props) == tag && !Excluded(call.env)
  }

  /** When an event with this tag is offered to the gate. */
  function Offered(calls: seq<Call>, event: string, tag: string): seq<int> {
    if calls == [] then []
    else
      var last := calls[|calls| - 1];
      Offered(calls[..|calls| - 1], event, tag) + if Asks(last, event, tag) then [last.env.now] else []
  }

  /** When an event with this tag is sent. */
  function Sent(posts: seq<Post>, event: string, tag: string): seq<int> {
    if posts == [] then []
    else
      var last := posts[|posts| - 1];
      Sent(posts[..|posts| - 1], event, tag) + if last.event == event && Tag(last.props) == tag then [last.ts] else []
  }

  /** The positions a rate gate of width w lets through, on one stream taken alone. */
  function Picks(ts: seq<int>, w: nat): (r: seq<nat>)
    ensures forall i :: 0 <= i < |r| ==> r[i] < |ts|
  {
    if ts == [] then []
    else
      var n, p := |ts| - 1, Picks(ts[..|ts| - 1], w);
      if p == [] || ts[n] - ts[p[|p| - 1]] >= w then p + [n] else p
  }

  function At(ts: seq<int>, idx: seq<nat>): (r: seq<int>)
    requires forall i :: 0 <= i < |idx| ==> idx[i] < |ts|
    ensures |r| == |idx|
    ensures forall i :: 0 <= i < |idx| ==> r[i] == ts[idx[i]]
  {
    seq(|idx|, i requires 0 <= i < |idx| => ts[idx[i]])
  }

  lemma {:induction false} KeyIdentifies(e1: string, t1: string, e2: string, t2: string)
    requires Window(e1) > 0 && Window(e2) > 0
    ensures Key(e1, t1) == Key(e2, t2) <==> e1 == e2 && t1 == t2
  {
    if Key(e1, t1) == Key(e2, t2) {
      KeyParts(e1, t1);
      KeyParts(e2, t2);
      NoColon(e1);
      NoColon(e2);
      assert |e1| == |e2|;
    }
  }

  lemma {:induction false} NoColon(e: string)
    requires Window(e) > 0
    ensures forall i :: 0 <= i < |e| ==> e[i] != ':'
  {
  }

  lemma {:induction false} KeyParts(e: string, t: string)
    ensures |Key(e, t)| == |e| + 2 + |t| && Key(e, t)[|e|] == ':'
    ensures Key(e, t)[..|e|] == e && Key(e, t)[|e| + 2..] == t
    ensures forall i :: 0 <= i < |e| ==> Key(e, t)[i] == e[i]
  {
  }

  lemma {:induction false} SentAppend(posts: seq<Post>, post: Post, event: string, tag: string)
    ensures Sent(posts + [post], event, tag) ==
            Sent(posts, event, tag) + if post.event == event && Tag(post.props) == tag then [post.ts] else []
  {
    assert (posts + [post])[..|posts|] == posts;
  }

  /** The cache remembers exactly the last sending under a key. */
  ghost predicate CacheExact(cache: map<string, int>, sent: seq<int>, key: string) {
    (key in cache <==> sent != []) && (sent != [] ==> cache[key] == sent[|sent| - 1])
  }

  /** What one gated offer at time t adds to what was sent. */
  function Gated(sent: seq<int>, t: int, w: nat): seq<int> {
    if sent == [] || t - sent[|sent| - 1] >= w then sent + [t] else sent
  }

  /** What a tracked call does to the requests and the cache. */
  lemma {:induction false} TrackedEffect(m: Memory, e: string, props: Props, env: Env)
    returns (sends: bool, post: Post)
    ensures sends <==> !Excluded(env) && Emits(m, e, props, env.now)
    ensures post.event == e && post.props == props && post.ts == env.now
    ensures var after := Tracked(m, e, props, env);
            after.posted == (if sends then m.posted + [post] else m.posted) &&
            after.dedupCache == if sends && Window(e) != 0
                                then m.dedupCache[Key(e, Tag(props)) := env.now] else m.dedupCache
    ensures Tracked(m, e, props, env).lastSessionEndTs == m.lastSessionEndTs
  {
    var s := WithSession(m, env);
    sends := !Excluded(env) && Emits(s, e, props, env.now);
    post := Post(e, props, SessionId(s), if s.pageLoadTs.Some? then env.now - s.pageLoadTs.value else 0, env.now);
  }

  lemma {:induction false} TrackKeepsCache(m: Memory, e: string, props: Props, env: Env, event: string, tag: string)
    requires Window(event) > 0 && CacheExact(m.dedupCache, Sent(m.posted, event, tag), Key(event, tag))
    ensures var after := Tracked(m, e, props, env);
            CacheExact(after.dedupCache, Sent(after.posted, event, tag), Key(event, tag)) &&
            Sent(after.posted, event, tag) ==
            if e == event && Tag(props) == tag && !Excluded(env)
            then Gated(Sent(m.posted, event, tag), env.now, Window(event)) else Sent(m.posted, event, tag)
  {
    var sends, post := TrackedEffect(m, e, props, env);
    SentAppend(m.posted, post, event, tag);
    if Window(e) > 0 {
      KeyIdentifies(e, Tag(props), event, tag);
    }
  }

  lemma {:induction false} CallKeepsCache(m: Memory, call: Call, event: string, tag: string)
    requires Window(event) > 0 && CacheExact(m.dedupCache, Sent(m.posted, event, tag), Key(event, tag))
    ensures var after := After(m, call);
            CacheExact(after.dedupCache, Sent(after.posted, event, tag), Key(event, tag)) &&
            Sent(after.posted, event, tag) ==
            if Asks(call, event, tag)
            then Gated(Sent(m.posted, event, tag), call.env.now, Window(event)) else Sent(m.posted, event, tag)
  {
    match call
    case TrackCall(e, props, env) =>
      TrackKeepsCache(m, e, props, env, event, tag);
    case EndCall(reason, env) =>
      assert event != "session_end";
      TrackKeepsCache(m.(lastSessionEndTs := env.now), "session_end", EndProps(m, reason, env.now), env, event, tag);
    case LoadCall(env) =>
      assert After(m, call).posted == m.posted && After(m, call).dedupCache == m.dedupCache;
  }

  /**
   Every windowed event and tag is gated on its own: in any run of calls, whatever the
   other calls are, what is sent is what a gate on that stream alone lets through.
   */
  lemma {:induction false} GateIsPerStream(calls: seq<Call>, event: string, tag: string)
    requires Window(event) > 0
    ensures CacheExact(Run(calls).dedupCache, Sent(Run(calls).posted, event, tag), Key(event, tag))
    ensures var offered := Offered(calls, event, tag);
            Sent(Run(calls).posted, event, tag) == At(offered, Picks(offered, Window(event)))
  {
    if calls != [] {
      var front, last := calls[..|calls| - 1], calls[|calls| - 1];
      GateIsPerStream(front, event, tag);
      CallKeepsCache(Run(front), last, event, tag);
      PicksAppend(Offered(front, event, tag), last.env.now, Window(event));
      OfferedLast(calls, event, tag);
    }
  }

  lemma {:induction false} OfferedLast(calls: seq<Call>, event: string, tag: string)
    requires calls != []
    ensures var front, last := calls[..|calls| - 1], calls[|calls| - 1];
            Offered(calls, event, tag) ==
            if Asks(last, event, tag) then Offered(front, event, tag) + [last.env.now] else Offered(front, event, tag)
  {
  }

  lemma {:induction false} PicksAppend(ts: seq<int>, t: int, w: nat)
    ensures At(ts + [t], Picks(ts + [t], w)) == Gated(At(ts, Picks(ts, w)), t, w)
  {
    assert (ts + [t])[..|ts|] == ts;
  }

  // ---------------------------------------------------------------- quality of the gate

  /** A choice of positions, in order, any two of them at least w apart. */
  ghost predicate Separated(ts: seq<int>, idx: seq<nat>, w: nat) {
    (forall i :: 0 <= i < |idx| ==> idx[i] < |ts|) &&
    (forall i, j :: 0 <= i < j < |idx| ==> idx[i] < idx[j] && ts[idx[j]] - ts[idx[i]] >= w)
  }

  ghost predicate Nondecreasing(ts: seq<int>) {
    forall i, j :: 0 <= i < j < |ts| ==> ts[i] <= ts[j]
  }

  /** Emissions are at least the window apart, with no assumption on the clock. */
  lemma {:induction false} PicksSeparated(ts: seq<int>, w: nat)
    ensures Separated(ts, Picks(ts, w), w)
  {
    if ts != [] {
      PicksSeparated(ts[..|ts| - 1], w);
    }
  }

  /**
   The greedy gate is optimal: no window-separated choice of offers is larger, and
   among the largest ones the gate finishes first.
   */
  lemma {:induction false} PicksAreMost(ts: seq<int>, idx: seq<nat>, w: nat)
    requires Nondecreasing(ts) && Separated(ts, idx, w)
    ensures |idx| <= |Picks(ts, w)|
    ensures idx != [] && |idx| == |Picks(ts, w)| ==>
              ts[Picks(ts, w)[|idx| - 1]] <= ts[idx[|idx| - 1]]
  {
    if idx == [] {
    } else if idx[|idx| - 1] == |ts| - 1 {
      SeparatedInit(ts, idx, w);
      PicksAreMost(ts[..|ts| - 1], idx[..|idx| - 1], w);
    } else {
      SeparatedEarlier(ts, idx, w);
      PicksAreMost(ts[..|ts| - 1], idx, w);
    }
  }

  lemma {:induction false} SeparatedInit(ts: seq<int>, idx: seq<nat>, w: nat)
    requires Nondecreasing(ts) && Separated(ts, idx, w) && idx != []
    ensures ts != [] && Nondecreasing(ts[..|ts| - 1]) && Separated(ts[..|ts| - 1], idx[..|idx| - 1], w)
  {
    var front, rest := ts[..|ts| - 1], idx[..|idx| - 1];
    assert idx[|idx| - 1] <= |front|;
    forall i | 0 <= i < |rest| ensures rest[i] < |front| && front[rest[i]] == ts[idx[i]] {
      assert rest[i] == idx[i] < idx[|idx| - 1];
    }
  }

  lemma {:induction false} SeparatedEarlier(ts: seq<int>, idx: seq<nat>, w: nat)
    requires Nondecreasing(ts) && Separated(ts, idx, w) && idx != [] && idx[|idx| - 1] != |ts| - 1
    ensures ts != [] && Nondecreasing(ts[..|ts| - 1]) && Separated(ts[..|ts| - 1], idx, w)
  {
    var front, last := ts[..|ts| - 1], |idx| - 1;
    assert idx[last] < |front|;
    forall i | 0 <= i < |idx| ensures idx[i] < |front| && front[idx[i]] == ts[idx[i]] {
      assert i < last ==> idx[i] < idx[last];
    }
  }

  /**
   Any run of calls: the requests of one windowed event and tag are a window apart, and
   under a nondecreasing clock no window-separated choice of the offers is larger.
   */
  lemma {:induction false} GateSendsMost(calls: seq<Call>, event: string, tag: string, idx: seq<nat>)
    requires Window(event) > 0
    requires Separated(Offered(calls, event, tag), idx, Window(event))
    ensures var sent := Sent(Run(calls).posted, event, tag);
            (forall i, j :: 0 <= i < j < |sent| ==> sent[j] - sent[i] >= Window(event)) &&
            (Nondecreasing(Offered(calls, event, tag)) ==> |idx| <= |sent|)
  {
    var offered, w := Offered(calls, event, tag), Window(event);
    GateIsPerStream(calls, event, tag);
    PicksSeparated(offered, w);
    if Nondecreasing(offered) {
      PicksAreMost(offered, idx, w);
    }
  }

  lemma {:induction false} GatedIffNear(sent: seq<int>, now: int, w: nat)
    requires forall i, j :: 0 <= i < j < |sent| ==> sent[j] - sent[i] >= w
    ensures Gated(sent, now, w) == if exists t :: t in sent && now - t < w then sent else sent + [now]
  {
    if t :| t in sent && now - t < w {
      var i :| 0 <= i < |sent| && sent[i] == t;
      assert i < |sent| - 1 ==> sent[|sent| - 1] - sent[i] >= w;
    }
    if sent != [] {
      assert sent[|sent| - 1] in sent;
    }
  }

  /** The next call of a stream in a run. */
  lemma {:induction false} NextOffer(calls: seq<Call>, call: Call, event: string, tag: string)
    requires Window(event) > 0 && Asks(call, event, tag)
    ensures Sent(Run(calls + [call]).posted, event, tag) ==
            Gated(Sent(Run(calls).posted, event, tag), call.env.now, Window(event))
  {
    assert (calls + [call])[..|calls|] == calls;
    GateIsPerStream(calls, event, tag);
    CallKeepsCache(Run(calls), call, event, tag);
  }

  /**
   In any run, whatever the clock does, a call of a windowed event is suppressed exactly when
   its stream has a request sent less than a window before; otherwise it is sent.
   */
  lemma {:induction false} SuppressedIffCovered(calls: seq<Call>, call: Call, event: string, tag: string)
    requires Window(event) > 0 && Asks(call, event, tag)
    ensures var sent := Sent(Run(calls).posted, event, tag);
            Sent(Run(calls + [call]).posted, event, tag) ==
            if exists t :: t in sent && call.env.now - t < Window(event) then sent else sent + [call.env.now]
  {
    NextOffer(calls, call, event, tag);
    GateSendsMost(calls, event, tag, []);
    GatedIffNear(Sent(Run(calls).posted, event, tag), call.env.now, Window(event));
  }

  // ---------------------------------------------------------------- session ends

  /** Instants at which session_end was sent. */
  function Ends(posts: seq<Post>): seq<int> {
    if posts == [] then []
    else
      var last := posts[|posts| - 1];
      Ends(posts[..|posts| - 1]) + if last.event == "session_end" then [last.ts] else []
  }

  /** Session ends sent so far are a second apart and not after the last one remembered. */
  ghost predicate EndsSpaced(m: Memory) {
    m.lastSessionEndTs >= 0 &&
    (forall i :: 0 <= i < |Ends(m.posted)| ==> 1000 <= Ends(m.posted)[i] <= m.lastSessionEndTs) &&
    (forall i, j :: 0 <= i < j < |Ends(m.posted)| ==> Ends(m.posted)[j] - Ends(m.posted)[i] >= 1000)
  }

  lemma {:induction false} EndsAppend(posts: seq<Post>, post: Post)
    ensures Ends(posts + [post]) == Ends(posts) + if post.event == "session_end" then [post.ts] else []
  {
    assert (posts + [post])[..|posts|] == posts;
  }

  lemma {:induction false} TrackKeepsEndsSpaced(m: Memory, e: string, props: Props, env: Env)
    requires EndsSpaced(m) && e != "session_end"
    ensures EndsSpaced(Tracked(m, e, props, env))
  {
    var _, post := TrackedEffect(m, e, props, env);
    EndsAppend(m.posted, post);
  }

  lemma {:induction false} EndKeepsEndsSpaced(m: Memory, reason: string, env: Env)
    requires EndsSpaced(m)
    ensures EndsSpaced(SessionEnded(m, reason, env))
  {
    if !env.path.None? && env.now - m.lastSessionEndTs >= 1000 {
      var m' := m.(lastSessionEndTs := env.now);
      var _, post := TrackedEffect(m', "session_end", EndProps(m, reason, env.now), env);
      EndsAppend(m.posted, post);
    }
  }

  lemma {:induction false} CallKeepsEndsSpaced(m: Memory, call: Call)
    requires EndsSpaced(m) && (call.TrackCall? ==> call.event != "session_end")
    ensures EndsSpaced(After(m, call))
  {
    match call
    case TrackCall(e, props, env) => TrackKeepsEndsSpaced(m, e, props, env);
    case EndCall(reason, env) => EndKeepsEndsSpaced(m, reason, env);
    case LoadCall(env) => assert After(m, call).posted == m.posted;
  }

  /** In a run where only the listeners send it, session_end is sent at most once a second. */
  lemma {:induction false} SessionEndsSpaced(calls: seq<Call>)
    requires forall i :: 0 <= i < |calls| && calls[i].TrackCall? ==> calls[i].event != "session_end"
    ensures EndsSpaced(Run(calls))
    ensures var ends := Ends(Run(calls).posted);
            forall i, j :: 0 <= i < j < |ends| ==> ends[j] - ends[i] >= 1000
  {
    if calls != [] {
      SessionEndsSpaced(calls[..|calls| - 1]);
      CallKeepsEndsSpaced(Run(calls[..|calls| - 1]), calls[|calls| - 1]);
    }
  }
}
