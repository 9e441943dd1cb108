/**
 Who sees which chat message, and that a fan learns nothing of what other fans write.

 One idol message fans out to every subscriber; a fan message is for the room's idol only.
 The observer is any user without the admin role. Rows hidden from the observer are the fan
 messages other users sent to rooms that are not the observer's own.
 */
module Visibility {
  import opened Basics
  import opened Schema
  import opened Services

  /** The rows the select policy returns to a user. */
  function View(db: Db, uid: Uuid): map<Uuid, Message> {
    map i | i in db.messages && CanSee(db, uid, db.messages[i]) :: db.messages[i]
  }

  /** A fan message reaches its sender, the room's idol and active admins, nobody else. */
  lemma {:induction false} FanMessageReaders(db: Db, uid: Uuid, id: Uuid)
    requires id in db.messages && db.messages[id].kind == FanToIdol
    ensures id in View(db, uid) <==>
            uid == db.messages[id].senderId || uid == db.messages[id].idolId || IsAdmin(db, uid)
  {
  }

  /** A new idol message is one row that every current subscriber of the room sees at once. */
  lemma {:induction false} IdolMessageFansOut(db: Db, sender: Uuid, id: Uuid, d: Draft, now: int, uid: Uuid)
    requires d.kind != FanToIdol && Send(db, sender, id, d, now).Ok?
    ensures var after := Send(db, sender, id, d, now).db;
            d.idolId == sender && IsActiveIdol(db, sender) &&
            after.messages == db.messages[id := Drafted(sender, d, now)] && id !in db.messages &&
            (id in View(after, uid) <==> uid == sender || IsSubscribedTo(db, uid, sender) || IsAdmin(db, uid))
  {
  }

  lemma {:induction false} FanMessagesComeFromSubscribers(db: Db, sender: Uuid, id: Uuid, d: Draft, now: int)
    requires d.kind == FanToIdol && Send(db, sender, id, d, now).Ok?
    ensures IsSubscribedTo(db, sender, d.idolId) && d.recipientId == Some(d.idolId)
    ensures Send(db, sender, id, d, now).db == db.(messages := db.messages[id := Drafted(sender, d, now)])
  {
  }

  /** A fan message enters a room only from a current subscriber, and stays between the two but for admins. */
  lemma {:induction false} FanMessageStaysPrivate(db: Db, sender: Uuid, id: Uuid, d: Draft, now: int, uid: Uuid)
    requires d.kind == FanToIdol && Send(db, sender, id, d, now).Ok?
    ensures var after := Send(db, sender, id, d, now).db;
            IsSubscribedTo(db, sender, d.idolId) &&
            (id in View(after, uid) <==> uid == sender || uid == d.idolId || IsAdmin(db, uid)) &&
            (uid != sender && uid != d.idolId && !IsAdmin(db, uid) ==> Hidden(after.messages[id], uid))
  {
    FanMessagesComeFromSubscribers(db, sender, id, d, now);
    FanMessageReaders(Send(db, sender, id, d, now).db, uid, id);
  }

  // ---------------------------------------------------------------- what the observer cannot tell apart

  predicate Hidden(m: Message, u: Uuid) {
    m.kind == FanToIdol && m.senderId != u && m.idolId != u
  }

  /** The row without its contents and edit stamps. */
  function Blanked(m: Message): Message {
    m.(body := Body(None, TextMedia, None), editedAt := None, deletedAt := None)
  }

  predicate SameRow(a: Message, b: Message, u: Uuid) {
    a == b || (Hidden(a, u) && Blanked(a) == Blanked(b))
  }

  ghost predicate SameMessages(a: map<Uuid, Message>, b: map<Uuid, Message>, u: Uuid) {
    a.Keys == b.Keys && forall i :: i in a ==> SameRow(a[i], b[i], u)
  }

  /** The two databases differ at most in the contents of rows hidden from u. */
  ghost predicate SameFor(a: Db, b: Db, u: Uuid) {
    b == a.(messages := b.messages) && SameMessages(a.messages, b.messages, u)
  }

  predicate NotAdmin(db: Db, u: Uuid) {
    u in db.profiles ==> db.profiles[u].role != Admin
  }

  lemma {:induction false} SameForSameView(a: Db, b: Db, u: Uuid)
    requires SameFor(a, b, u) && NotAdmin(a, u)
    ensures View(a, u) == View(b, u)
  {
    forall i | i in a.messages
      ensures (i in View(a, u) <==> i in View(b, u)) && (i in View(a, u) ==> a.messages[i] == b.messages[i])
    {
      assert SameRow(a.messages[i], b.messages[i], u);
    }
  }

  // ---------------------------------------------------------------- requests that differ only in hidden contents

  /** An edit of a row hidden from u, or of no row at all. */
  predicate HiddenEdit(db: Db, r: Request, u: Uuid) {
    r.op.ToChat? && r.op.chat.EditOp? && (r.op.chat.id in db.messages ==> Hidden(db.messages[r.op.chat.id], u))
  }

  /** Another user's message to an idol other than u. */
  predicate HiddenSend(r: Request, u: Uuid) {
    r.op.ToChat? && r.op.chat.SendOp? && r.op.chat.sender != u &&
    r.op.chat.draft.kind == FanToIdol && r.op.chat.draft.idolId != u
  }

  /** Two such messages that agree in all but what they say, and are equally well formed. */
  predicate SameSendOtherBody(r: Request, q: Request) {
    r.op.ToChat? && r.op.chat.SendOp? && q.op.ToChat? && q.op.chat.SendOp? &&
    r.now == q.now && r.op.chat.sender == q.op.chat.sender && r.op.chat.id == q.op.chat.id &&
    r.op.chat.draft == q.op.chat.draft.(body := r.op.chat.draft.body) &&
    (BodyValid(r.op.chat.draft.body) <==> BodyValid(q.op.chat.draft.body))
  }

  /** r in a and q in b differ only in what they do to contents hidden from u. */
  predicate Alike(a: Db, r: Request, b: Db, q: Request, u: Uuid) {
    r == q || (HiddenEdit(a, r, u) && HiddenEdit(b, q, u)) ||
    (HiddenSend(r, u) && HiddenSend(q, u) && SameSendOtherBody(r, q))
  }

  // ---------------------------------------------------------------- one request

  function WithMessages(o: Outcome, messages: map<Uuid, Message>): Outcome {
    match o case Ok(db) => Ok(db.(messages := messages)) case Err(e) => o
  }

  lemma {:induction false} AdminIgnoresMessages(db: Db, op: AdminOp, now: int, ms: map<Uuid, Message>)
    ensures HandleAdmin(db.(messages := ms), op, now) == WithMessages(HandleAdmin(db, op, now), ms)
  {
    if op.ApproveOp? && op.appId in db.applications {
      assert StageNameTaken(db.(messages := ms), db.applications[op.appId].stageName) ==
             StageNameTaken(db, db.applications[op.appId].stageName);
    }
  }

  lemma {:induction false} AuthIgnoresMessages(db: Db, op: AuthOp, now: int, ms: map<Uuid, Message>)
    ensures HandleAuth(db.(messages := ms), op, now) == WithMessages(HandleAuth(db, op, now), ms)
  {
    if op.ReapplyOp? {
      assert HasPending(db.(messages := ms), op.user) == HasPending(db, op.user);
    }
  }

  lemma {:induction false} SubscriptionIgnoresMessages(db: Db, op: SubscriptionOp, now: int, ms: map<Uuid, Message>)
    ensures HandleSubscription(db.(messages := ms), op, now) == WithMessages(HandleSubscription(db, op, now), ms)
  {
  }

  lemma {:induction false} FilingSeesSender(
      db: Db, id: Uuid, reporter: Uuid, messageId: Uuid, reason: string, now: int, ms: map<Uuid, Message>, u: Uuid)
    requires SameMessages(db.messages, ms, u)
    ensures CreateReport(db.(messages := ms), id, reporter, messageId, reason, now) ==
            WithMessages(CreateReport(db, id, reporter, messageId, reason, now), ms)
  {
    assert AlreadyReported(db.(messages := ms), reporter, messageId) == AlreadyReported(db, reporter, messageId);
    assert messageId in db.messages ==> SameRow(db.messages[messageId], ms[messageId], u);
  }

  /** What a resolution makes of the outcome of its nested suspension. */
  function Finished(e: Outcome, registered: bool, reports: map<Uuid, Report>): Outcome {
    if e.Err? then e else if !registered then Err(Integrity) else Ok(e.db.(reports := reports))
  }

  lemma {:induction false} ResolveIsFinished(
      db: Db, id: Uuid, admin: Uuid, action: ReportAction, note: Option<string>, now: int, e: Outcome)
    requires id in db.reports && db.reports[id].status != Handled
    requires e == ResolutionEffect(db, db.reports[id], admin, action, note, now)
    ensures ResolveReport(db, id, admin, action, note, now) ==
            Finished(e, admin in db.profiles, db.reports[id := HandledReport(db.reports[id], admin, action, note, now)])
  {
  }

  lemma {:induction false} FinishedAgrees(
      e: Outcome, registered: bool, reports: map<Uuid, Report>, ms: map<Uuid, Message>)
    ensures Finished(WithMessages(e, ms), registered, reports) == WithMessages(Finished(e, registered, reports), ms)
  {
  }

  lemma {:induction false} EffectSeesSender(
      db: Db, r: Report, admin: Uuid, action: ReportAction, note: Option<string>, now: int, ms: map<Uuid, Message>,
      u: Uuid)
    requires SameMessages(db.messages, ms, u)
    ensures ResolutionEffect(db.(messages := ms), r, admin, action, note, now) ==
            WithMessages(ResolutionEffect(db, r, admin, action, note, now), ms)
  {
    if r.messageId in db.messages {
      SuspensionSeesSender(db, r, admin, action, note, now, ms, u);
    } else {
      assert r.messageId !in ms;
    }
  }

  lemma {:induction false} ResolutionSeesSender(
      db: Db, id: Uuid, admin: Uuid, action: ReportAction, note: Option<string>, now: int, ms: map<Uuid, Message>,
      u: Uuid)
    requires SameMessages(db.messages, ms, u)
    ensures ResolveReport(db.(messages := ms), id, admin, action, note, now) ==
            WithMessages(ResolveReport(db, id, admin, action, note, now), ms)
  {
    if id in db.reports && db.reports[id].status != Handled {
      var e := ResolutionEffect(db, db.reports[id], admin, action, note, now);
      EffectSeesSender(db, db.reports[id], admin, action, note, now, ms, u);
      ResolveIsFinished(db, id, admin, action, note, now, e);
      ResolveIsFinished(db.(messages := ms), id, admin, action, note, now, WithMessages(e, ms));
      FinishedAgrees(e, admin in db.profiles,
                     db.reports[id := HandledReport(db.reports[id], admin, action, note, now)], ms);
    }
  }

  /** Report handling looks at messages only for who sent them. */
  lemma {:induction false} ReportsSeeSenders(db: Db, op: ReportOp, now: int, ms: map<Uuid, Message>, u: Uuid)
    requires SameMessages(db.messages, ms, u)
    ensures HandleReport(db.(messages := ms), op, now) == WithMessages(HandleReport(db, op, now), ms)
  {
    match op
    case CreateReportOp(id, reporter, messageId, reason) =>
      FilingSeesSender(db, id, reporter, messageId, reason, now, ms, u);
    case ResolveReportOp(id, admin, action, note) => ResolutionSeesSender(db, id, admin, action, note, now, ms, u);
  }

  lemma {:induction false} SuspensionSeesSender(
      db: Db, r: Report, admin: Uuid, action: ReportAction, note: Option<string>, now: int, ms: map<Uuid, Message>,
      u: Uuid)
    requires SameMessages(db.messages, ms, u) && r.messageId in db.messages
    ensures ResolutionEffect(db.(messages := ms), r, admin, action, note, now) ==
            WithMessages(ResolutionEffect(db, r, admin, action, note, now), ms)
  {
    assert SameRow(db.messages[r.messageId], ms[r.messageId], u);
  }

  /** Whether a message may be inserted depends on nothing hidden. */
  lemma {:induction false} InsertChecksAgree(
      db: Db, ms: map<Uuid, Message>, uid: Uuid, m: Message, m': Message, u: Uuid)
    requires SameMessages(db.messages, ms, u) && Blanked(m) == Blanked(m')
    ensures var db' := db.(messages := ms);
            (IdolMayInsert(db', uid, m') <==> IdolMayInsert(db, uid, m)) &&
            (FanMayInsert(db', uid, m') <==> FanMayInsert(db, uid, m)) &&
            (AlreadySent(db', m') <==> AlreadySent(db, m)) && KindValid(m) == KindValid(m')
  {
    if m.parentId.Some? && m.parentId.value in db.messages {
      assert SameRow(db.messages[m.parentId.value], ms[m.parentId.value], u);
    }
    forall i | i in db.messages ensures SameSend(m, db.messages[i]) <==> SameSend(m', ms[i]) {
      assert SameRow(db.messages[i], ms[i], u);
    }
  }

  /** Two outcomes that u cannot tell apart. */
  ghost predicate SameOutcome(o: Outcome, o': Outcome, u: Uuid) {
    (o.Ok? <==> o'.Ok?) && (o.Err? ==> o == o') && (o.Ok? ==> SameFor(o.db, o'.db, u))
  }

  lemma {:induction false} InsertedSame(db: Db, ms: map<Uuid, Message>, id: Uuid, m: Message, m': Message, u: Uuid)
    requires SameMessages(db.messages, ms, u) && SameRow(m, m', u)
    ensures SameFor(db.(messages := db.messages[id := m]), db.(messages := ms[id := m']), u)
  {
  }

  lemma {:induction false} SendsAgree(
      db: Db, ms: map<Uuid, Message>, sender: Uuid, id: Uuid, d: Draft, d': Draft, now: int, u: Uuid)
    requires SameMessages(db.messages, ms, u)
    requires d == d'.(body := d.body) && (BodyValid(d.body) <==> BodyValid(d'.body))
    requires d == d' || (sender != u && d.kind == FanToIdol && d.idolId != u)
    ensures SameOutcome(Send(db, sender, id, d, now), Send(db.(messages := ms), sender, id, d', now), u)
  {
    var m, m' := Drafted(sender, d, now), Drafted(sender, d', now);
    InsertChecksAgree(db, ms, sender, m, m', u);
    assert SameRow(m, m', u);
    InsertedSame(db, ms, id, m, m', u);
  }

  /** An edit of a hidden row leaves everything the observer can tell. */
  lemma {:induction false} HiddenEditInvisible(db: Db, r: Request, u: Uuid)
    requires HiddenEdit(db, r, u)
    ensures SameFor(db, Step(db, r), u) && SameFor(Step(db, r), db, u)
  {
    assert Step(db, r).messages.Keys == db.messages.Keys;
  }

  lemma {:induction false} SameForTransitive(a: Db, b: Db, c: Db, u: Uuid)
    requires SameFor(a, b, u) && SameFor(b, c, u)
    ensures SameFor(a, c, u)
  {
    forall i | i in a.messages ensures SameRow(a.messages[i], c.messages[i], u) {
      assert SameRow(a.messages[i], b.messages[i], u) && SameRow(b.messages[i], c.messages[i], u);
    }
  }

  /** An edit of a row the observer may know has the same fate in both databases. */
  lemma {:induction false} OpenEditsAgree(
      db: Db, ms: map<Uuid, Message>, actor: Uuid, id: Uuid, change: Change, now: int, u: Uuid)
    requires SameMessages(db.messages, ms, u) && id in db.messages && !Hidden(db.messages[id], u)
    ensures SameOutcome(Edit(db, actor, id, change, now), Edit(db.(messages := ms), actor, id, change, now), u)
  {
    assert SameRow(db.messages[id], ms[id], u);
  }

  /** A request that neither reads nor writes messages. */
  lemma {:induction false} OutcomeWithMessages(db: Db, o: Outcome, ms: map<Uuid, Message>, u: Uuid)
    requires SameMessages(db.messages, ms, u) && (o.Ok? ==> o.db.messages == db.messages)
    ensures SameOutcome(o, WithMessages(o, ms), u)
  {
  }

  lemma {:induction false} ChatAgrees(db: Db, ms: map<Uuid, Message>, op: ChatOp, now: int, u: Uuid)
    requires SameMessages(db.messages, ms, u)
    requires op.EditOp? ==> op.id in db.messages && !Hidden(db.messages[op.id], u)
    ensures SameOutcome(HandleChat(db, op, now), HandleChat(db.(messages := ms), op, now), u)
  {
    match op
    case SendOp(sender, id, d) => SendsAgree(db, ms, sender, id, d, d, now, u);
    case EditOp(actor, id, change) => OpenEditsAgree(db, ms, actor, id, change, now, u);
  }

  lemma {:induction false} OthersAgree(db: Db, ms: map<Uuid, Message>, r: Request, u: Uuid)
    requires SameMessages(db.messages, ms, u) && !r.op.ToChat?
    ensures Handle(db.(messages := ms), r) == WithMessages(Handle(db, r), ms)
    ensures Handle(db, r).Ok? ==> Handle(db, r).db.messages == db.messages
  {
    match r.op
    case ToAdmin(op) => AdminIgnoresMessages(db, op, r.now, ms); AdminFrame(db, op, r.now);
    case ToReports(op) => ReportsSeeSenders(db, op, r.now, ms, u); ReportFrame(db, op, r.now);
    case ToAuth(op) => AuthIgnoresMessages(db, op, r.now, ms); AuthFrame(db, op, r.now);
    case ToSubscriptions(op) => SubscriptionIgnoresMessages(db, op, r.now, ms); SubscriptionFrame(db, op, r.now);
  }

  lemma {:induction false} RequestAgrees(db: Db, ms: map<Uuid, Message>, r: Request, u: Uuid)
    requires SameMessages(db.messages, ms, u) && !HiddenEdit(db, r, u)
    ensures SameOutcome(Handle(db, r), Handle(db.(messages := ms), r), u)
  {
    if r.op.ToChat? {
      ChatAgrees(db, ms, r.op.chat, r.now, u);
    } else {
      OthersAgree(db, ms, r, u);
      OutcomeWithMessages(db, Handle(db, r), ms, u);
    }
  }

  lemma {:induction false} AfterSameOutcome(a: Db, b: Db, o: Outcome, o': Outcome, u: Uuid)
    requires SameFor(a, b, u) && SameOutcome(o, o', u)
    ensures SameFor(After(a, o), After(b, o'), u)
  {
  }

  /** The same request, not touching a hidden row, gets the same answer and leaves the databases indistinguishable. */
  lemma {:induction false} SameRequestAgrees(a: Db, b: Db, r: Request, u: Uuid)
    requires SameFor(a, b, u) && !HiddenEdit(a, r, u)
    ensures SameOutcome(Handle(a, r), Handle(b, r), u)
    ensures SameFor(Step(a, r), Step(b, r), u)
  {
    RequestAgrees(a, b.messages, r, u);
    AfterSameOutcome(a, b, Handle(a, r), Handle(b, r), u);
  }

  /** The two edits may be of different rows and do different things. */
  lemma {:induction false} HiddenEditsAgree(a: Db, r: Request, b: Db, q: Request, u: Uuid)
    requires SameFor(a, b, u) && HiddenEdit(a, r, u) && HiddenEdit(b, q, u)
    ensures SameFor(Step(a, r), Step(b, q), u)
  {
    HiddenEditInvisible(a, r, u);
    HiddenEditInvisible(b, q, u);
    SameForTransitive(Step(a, r), a, b, u);
    SameForTransitive(Step(a, r), b, Step(b, q), u);
  }

  lemma {:induction false} HiddenInBoth(a: Db, b: Db, r: Request, u: Uuid)
    requires SameFor(a, b, u) && HiddenEdit(a, r, u)
    ensures HiddenEdit(b, r, u)
  {
    if r.op.chat.id in a.messages {
      assert SameRow(a.messages[r.op.chat.id], b.messages[r.op.chat.id], u);
    }
  }

  lemma {:induction false} AlikeKeepsSame(a: Db, r: Request, b: Db, q: Request, u: Uuid)
    requires SameFor(a, b, u) && Alike(a, r, b, q, u)
    ensures SameFor(Step(a, r), Step(b, q), u)
  {
    if HiddenEdit(a, r, u) && HiddenEdit(b, q, u) {
      HiddenEditsAgree(a, r, b, q, u);
    } else if r == q {
      if HiddenEdit(a, r, u) {
        HiddenInBoth(a, b, r, u);
      }
      SameRequestAgrees(a, b, r, u);
    } else {
      SendsAgree(a, b.messages, r.op.chat.sender, r.op.chat.id, r.op.chat.draft, q.op.chat.draft, r.now, u);
    }
  }

  lemma {:induction false} NoNewAdminsByAdmin(db: Db, op: AdminOp, now: int, u: Uuid)
    requires NotAdmin(db, u)
    ensures NotAdmin(After(db, HandleAdmin(db, op, now)), u)
  {
  }

  lemma {:induction false} NoNewAdminsByAuth(db: Db, op: AuthOp, now: int, u: Uuid)
    requires NotAdmin(db, u)
    ensures NotAdmin(After(db, HandleAuth(db, op, now)), u)
  {
    AuthFrame(db, op, now);
  }

  /** No request hands out the admin role. */
  lemma {:induction false} NoNewAdmins(db: Db, r: Request, u: Uuid)
    requires NotAdmin(db, u)
    ensures NotAdmin(Step(db, r), u)
  {
    match r.op
    case ToAdmin(op) => NoNewAdminsByAdmin(db, op, r.now, u);
    case ToReports(op) => NoNewAdminsByReport(db, op, r.now, u);
    case ToAuth(op) => NoNewAdminsByAuth(db, op, r.now, u);
    case ToSubscriptions(op) => NoNewAdminsBySubscription(db, op, r.now, u);
    case ToChat(op) => NoNewAdminsByChat(db, op, r.now, u);
  }

  lemma {:induction false} NoNewAdminsBySubscription(db: Db, op: SubscriptionOp, now: int, u: Uuid)
    requires NotAdmin(db, u)
    ensures NotAdmin(After(db, HandleSubscription(db, op, now)), u)
  {
    SubscriptionFrame(db, op, now);
  }

  lemma {:induction false} NoNewAdminsByChat(db: Db, op: ChatOp, now: int, u: Uuid)
    requires NotAdmin(db, u)
    ensures NotAdmin(After(db, HandleChat(db, op, now)), u)
  {
    ChatFrame(db, op, now);
  }

  lemma {:induction false} NoNewAdminsByReport(db: Db, op: ReportOp, now: int, u: Uuid)
    requires NotAdmin(db, u)
    ensures NotAdmin(After(db, HandleReport(db, op, now)), u)
  {
  }

  // ---------------------------------------------------------------- whole runs

  /** Two runs that differ, request by request, only in contents hidden from u. */
  ghost predicate AlikeRuns(a: Db, rs: seq<Request>, b: Db, qs: seq<Request>, u: Uuid) {
    |rs| == |qs| && forall k :: 0 <= k < |rs| ==> Alike(Run(a, rs[..k]), rs[k], Run(b, qs[..k]), qs[k], u)
  }

  lemma {:induction false} AlikePrefix(a: Db, rs: seq<Request>, b: Db, qs: seq<Request>, u: Uuid, n: nat)
    requires AlikeRuns(a, rs, b, qs, u) && n <= |rs|
    ensures AlikeRuns(a, rs[..n], b, qs[..n], u)
  {
    forall k | 0 <= k < n
      ensures Alike(Run(a, rs[..n][..k]), rs[..n][k], Run(b, qs[..n][..k]), qs[..n][k], u)
    {
      assert rs[..n][..k] == rs[..k] && qs[..n][..k] == qs[..k];
    }
  }

  lemma {:induction false} AlikeRunsStaySame(a: Db, rs: seq<Request>, b: Db, qs: seq<Request>, u: Uuid)
    requires SameFor(a, b, u) && NotAdmin(a, u) && AlikeRuns(a, rs, b, qs, u)
    ensures SameFor(Run(a, rs), Run(b, qs), u) && NotAdmin(Run(a, rs), u)
  {
    if rs != [] {
      var n := |rs| - 1;
      AlikePrefix(a, rs, b, qs, u, n);
      AlikeRunsStaySame(a, rs[..n], b, qs[..n], u);
      AlikeKeepsSame(Run(a, rs[..n]), rs[n], Run(b, qs[..n]), qs[n], u);
      NoNewAdmins(Run(a, rs[..n]), rs[n], u);
    }
  }

  /**
   Noninterference. Take two runs of the modelled requests, over databases and requests that differ
   only in what other fans write to other idols (contents of new messages, edits, deletions,
   even edits present in one run and missing in the other). At every step a user without the
   admin role sees the same rows in both.
   */
  lemma {:induction false} OtherFansAreInvisible(a: Db, rs: seq<Request>, b: Db, qs: seq<Request>, u: Uuid, n: nat)
    requires SameFor(a, b, u) && NotAdmin(a, u) && AlikeRuns(a, rs, b, qs, u) && n <= |rs|
    ensures View(Run(a, rs[..n]), u) == View(Run(b, qs[..n]), u)
  {
    AlikePrefix(a, rs, b, qs, u, n);
    AlikeRunsStaySame(a, rs[..n], b, qs[..n], u);
    SameForSameView(Run(a, rs[..n]), Run(b, qs[..n]), u);
  }

  /** What a request answers: its error, or the tables its returned rows come from as u may read them. */
  ghost predicate SameAnswer(o: Outcome, o': Outcome, u: Uuid) {
    match o
    case Err(_) => o' == o
    case Ok(d) => o'.Ok? && o'.db == d.(messages := o'.db.messages) && View(d, u) == View(o'.db, u)
  }

  lemma {:induction false} SameStepSameAnswer(a: Db, b: Db, r: Request, u: Uuid)
    requires SameFor(a, b, u) && NotAdmin(a, u) && !HiddenEdit(a, r, u)
    ensures SameAnswer(Handle(a, r), Handle(b, r), u)
  {
    SameRequestAgrees(a, b, r, u);
    NoNewAdmins(a, r, u);
    SameForSameView(Step(a, r), Step(b, r), u);
  }

  /** The answers to the observer's own requests, of any kind, tell nothing either. */
  lemma {:induction false} AnswersTellNothing(a: Db, rs: seq<Request>, b: Db, qs: seq<Request>, u: Uuid, r: Request)
    requires SameFor(a, b, u) && NotAdmin(a, u) && AlikeRuns(a, rs, b, qs, u)
    requires HiddenEdit(Run(a, rs), r, u) ==> r.op.chat.actor == u
    ensures SameAnswer(Handle(Run(a, rs), r), Handle(Run(b, qs), r), u)
  {
    AlikeRunsStaySame(a, rs, b, qs, u);
    if HiddenEdit(Run(a, rs), r, u) {
      HiddenInBoth(Run(a, rs), Run(b, qs), r, u);
      OwnHiddenEditRefused(Run(a, rs), r, u);
      OwnHiddenEditRefused(Run(b, qs), r, u);
    } else {
      SameStepSameAnswer(Run(a, rs), Run(b, qs), r, u);
    }
  }

  lemma {:induction false} OwnHiddenEditRefused(db: Db, r: Request, u: Uuid)
    requires NotAdmin(db, u) && HiddenEdit(db, r, u) && r.op.chat.actor == u
    ensures Handle(db, r) == Err(Forbidden)
  {
  }

  /** A message by another fan to another idol, or an edit or deletion of one, never changes the view. */
  lemma {:induction false} HiddenRequestsKeepView(db: Db, r: Request, u: Uuid)
    requires NotAdmin(db, u) && (HiddenSend(r, u) || HiddenEdit(db, r, u))
    ensures View(Step(db, r), u) == View(db, u)
  {
    if HiddenEdit(db, r, u) {
      HiddenEditInvisible(db, r, u);
      SameForSameView(db, Step(db, r), u);
    } else {
      ChatFrame(db, r.op.chat, r.now);
    }
  }
}
