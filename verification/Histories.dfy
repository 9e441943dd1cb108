/**
 Every row of every table, told by the successful requests about it alone.

 For each table an event says what a request means for one row, and a small function what the
 event makes of the row. After any run the row is what its events have made of it; a request
 that fails, or is about other rows, makes nothing of it.
 */
module Histories {
  import opened Basics
  import opened Schema
  import opened Services

  function RowOf<K, V>(table: map<K, V>, key: K): Option<V> {
    if key in table then Some(table[key]) else None
  }

  // ---------------------------------------------------------------- whole runs

  /** One step: a successful request makes next of the row. */
  ghost predicate Tells<V(!new)>(row: Db -> Option<V>, next: (Db, Request, Option<V>) -> Option<V>) {
    forall db, r :: row(Step(db, r)) == if Handle(db, r).Ok? then next(db, r, row(db)) else row(db)
  }

  /** What the successful requests of a run make of a row. */
  function Told<V>(
      db: Db, rs: seq<Request>, row: Option<V>, next: (Db, Request, Option<V>) -> Option<V>): Option<V> {
    if rs == [] then row
    else
      var front, last := rs[..|rs| - 1], rs[|rs| - 1];
      if Handle(Run(db, front), last).Ok?
      then next(Run(db, front), last, Told(db, front, row, next)) else Told(db, front, row, next)
  }

  lemma {:induction false} RunTells<V(!new)>(
      db: Db, rs: seq<Request>, row: Db -> Option<V>, next: (Db, Request, Option<V>) -> Option<V>)
    requires Tells(row, next)
    ensures row(Run(db, rs)) == Told(db, rs, row(db), next)
  {
    if rs != [] {
      RunTells(db, rs[..|rs| - 1], row, next);
      assert row(Step(Run(db, rs[..|rs| - 1]), rs[|rs| - 1])) == Told(db, rs, row(db), next);
    }
  }

  // ---------------------------------------------------------------- applications

  datatype ApplicationEvent =
    | Filed(user: Uuid, stageName: string, bio: Option<string>, note: Option<string>)
    | Settled(status: ApplicationStatus, handler: Uuid, reason: Option<string>)

  function ApplicationEventOf(op: Op, id: Uuid): Option<ApplicationEvent> {
    match op
    case ToAuth(SignupOp(user, req, appId)) =>
      if appId == id && req.asIdol && req.stageName.Some?
      then Some(Filed(user, req.stageName.value, req.bio, req.note)) else None
    case ToAuth(ReapplyOp(user, appId, stageName, bio, note)) =>
      if appId == id then Some(Filed(user, stageName, bio, note)) else None
    case ToAuth(WithdrawOp(user, appId)) => if appId == id then Some(Settled(Withdrawn, user, None)) else None
    case ToAdmin(ApproveOp(appId, admin)) => if appId == id then Some(Settled(Approved, admin, None)) else None
    case ToAdmin(RejectOp(appId, admin, reason)) =>
      if appId == id then Some(Settled(Rejected, admin, Some(reason))) else None
    case _ => None
  }

  /** A filed application is pending; a settled one names who settled it, when and, if so, why. */
  function AfterApplicationEvent(row: Option<Application>, e: ApplicationEvent, now: int): Option<Application> {
    match e
    case Filed(user, stageName, bio, note) =>
      Some(Application(user, stageName, bio, note, Pending, None, None, None, now))
    case Settled(status, handler, reason) =>
      if row.None? then None
      else
        var a := row.value;
        Some(Application(a.userId, a.stageName, a.bio, a.note, status, Some(handler), Some(now),
                         if reason.Some? then reason else a.rejectionReason, a.createdAt))
  }

  function ApplicationAfter(op: Op, now: int, id: Uuid, row: Option<Application>): Option<Application> {
    match ApplicationEventOf(op, id) case None => row case Some(e) => AfterApplicationEvent(row, e, now)
  }

  function NextApplication(id: Uuid): (Db, Request, Option<Application>) -> Option<Application> {
    (db: Db, r: Request, row: Option<Application>) => ApplicationAfter(r.op, r.now, id, row)
  }

  function ApplicationRow(id: Uuid): Db -> Option<Application> {
    (db: Db) => RowOf(db.applications, id)
  }

  lemma {:induction false} ApproveSettles(db: Db, appId: Uuid, admin: Uuid, now: int, id: Uuid)
    requires Approve(db, appId, admin, now).Ok?
    ensures RowOf(Approve(db, appId, admin, now).db.applications, id) ==
            ApplicationAfter(ToAdmin(ApproveOp(appId, admin)), now, id, RowOf(db.applications, id))
  {
  }

  lemma {:induction false} RejectSettles(db: Db, appId: Uuid, admin: Uuid, reason: string, now: int, id: Uuid)
    requires Reject(db, appId, admin, reason, now).Ok?
    ensures RowOf(Reject(db, appId, admin, reason, now).db.applications, id) ==
            ApplicationAfter(ToAdmin(RejectOp(appId, admin, reason)), now, id, RowOf(db.applications, id))
  {
  }

  lemma {:induction false} AdminSettles(db: Db, op: AdminOp, now: int, id: Uuid)
    requires HandleAdmin(db, op, now).Ok?
    ensures RowOf(HandleAdmin(db, op, now).db.applications, id) ==
            ApplicationAfter(ToAdmin(op), now, id, RowOf(db.applications, id))
  {
    match op
    case ApproveOp(appId, admin) => ApproveSettles(db, appId, admin, now, id);
    case RejectOp(appId, admin, reason) => RejectSettles(db, appId, admin, reason, now, id);
    case SuspendOp(_, _, _) =>
    case UnsuspendOp(_) =>
  }

  lemma {:induction false} SignupFiles(
      db: Db, user: Uuid, req: SignupRequest, appId: Uuid, now: int, id: Uuid)
    requires Signup(CURRENT_VERSIONS, db, user, req, appId, now).Ok?
    ensures RowOf(Signup(CURRENT_VERSIONS, db, user, req, appId, now).db.applications, id) ==
            ApplicationAfter(ToAuth(SignupOp(user, req, appId)), now, id, RowOf(db.applications, id))
  {
  }

  lemma {:induction false} ReapplyFiles(
      db: Db, user: Uuid, appId: Uuid, stageName: string, bio: Option<string>, note: Option<string>, now: int,
      id: Uuid)
    requires Reapply(db, user, appId, stageName, bio, note, now).Ok?
    ensures RowOf(Reapply(db, user, appId, stageName, bio, note, now).db.applications, id) ==
            ApplicationAfter(ToAuth(ReapplyOp(user, appId, stageName, bio, note)), now, id, RowOf(db.applications, id))
  {
  }

  lemma {:induction false} WithdrawSettles(db: Db, user: Uuid, appId: Uuid, now: int, id: Uuid)
    requires Withdraw(db, user, appId, now).Ok?
    ensures RowOf(Withdraw(db, user, appId, now).db.applications, id) ==
            ApplicationAfter(ToAuth(WithdrawOp(user, appId)), now, id, RowOf(db.applications, id))
  {
  }

  lemma {:induction false} AuthFiles(db: Db, op: AuthOp, now: int, id: Uuid)
    requires HandleAuth(db, op, now).Ok?
    ensures RowOf(HandleAuth(db, op, now).db.applications, id) ==
            ApplicationAfter(ToAuth(op), now, id, RowOf(db.applications, id))
  {
    match op
    case SignupOp(user, req, appId) => SignupFiles(db, user, req, appId, now, id);
    case ReagreeOp(_, _) =>
    case ReapplyOp(user, appId, stageName, bio, note) => ReapplyFiles(db, user, appId, stageName, bio, note, now, id);
    case WithdrawOp(user, appId) => WithdrawSettles(db, user, appId, now, id);
  }

  lemma {:induction false} ApplicationMoves(db: Db, r: Request, id: Uuid)
    requires Handle(db, r).Ok?
    ensures RowOf(Step(db, r).applications, id) == ApplicationAfter(r.op, r.now, id, RowOf(db.applications, id))
  {
    match r.op
    case ToAdmin(op) => AdminSettles(db, op, r.now, id);
    case ToReports(op) => ReportFrame(db, op, r.now);
    case ToAuth(op) => AuthFiles(db, op, r.now, id);
    case ToSubscriptions(op) => SubscriptionFrame(db, op, r.now);
    case ToChat(op) => ChatFrame(db, op, r.now);
  }

  /** An application is what its filing and the decisions on it have made of it. */
  lemma {:induction false} ApplicationTold(db: Db, rs: seq<Request>, id: Uuid)
    ensures RowOf(Run(db, rs).applications, id) == Told(db, rs, RowOf(db.applications, id), NextApplication(id))
  {
    forall d, r | Handle(d, r).Ok?
      ensures ApplicationRow(id)(Step(d, r)) == NextApplication(id)(d, r, ApplicationRow(id)(d)) {
      ApplicationMoves(d, r, id);
    }
    RunTells(db, rs, ApplicationRow(id), NextApplication(id));
  }

  // ---------------------------------------------------------------- profiles

  datatype ProfileEvent = Registered(name: string) | MadeIdol | Banned(reason: string) | Lifted

  predicate AppliedBy(db: Db, appId: Uuid, user: Uuid) {
    appId in db.applications && db.applications[appId].userId == user
  }

  /** The report is on a message of the user. */
  predicate ReportedMessageOf(db: Db, id: Uuid, user: Uuid) {
    id in db.reports && db.reports[id].messageId in db.messages &&
    db.messages[db.reports[id].messageId].senderId == user
  }

  /** The note of the resolution, where there is one. */
  function ReasonFor(note: Option<string>): string {
    if note == None || note == Some("") then "신고 처리로 인한 정지" else note.value
  }

  function ProfileEventOf(db: Db, op: Op, user: Uuid): Option<ProfileEvent> {
    match op
    case ToAuth(SignupOp(u, req, _)) => if u == user then Some(Registered(req.displayName)) else None
    case ToAdmin(ApproveOp(appId, _)) => if AppliedBy(db, appId, user) then Some(MadeIdol) else None
    case ToAdmin(SuspendOp(target, _, reason)) => if target == user then Some(Banned(reason)) else None
    case ToAdmin(UnsuspendOp(target)) => if target == user then Some(Lifted) else None
    case ToReports(ResolveReportOp(id, _, SuspendedSender, note)) =>
      if ReportedMessageOf(db, id, user)
      then Some(Banned(ReasonFor(note))) else None
    case _ => None
  }

  /** Who signs up is an active fan; a ban records when and why, and lifting it clears both. */
  function AfterProfileEvent(row: Option<Profile>, e: ProfileEvent, now: int): Option<Profile> {
    if e.Registered? then Some(Profile(Fan, Active, e.name, None, None, None))
    else if row.None? then None
    else
      var p := row.value;
      match e
      case MadeIdol => Some(Profile(Idol, p.status, p.displayName, p.suspendedAt, p.suspendReason, p.deletedAt))
      case Banned(reason) => Some(Profile(p.role, Suspended, p.displayName, Some(now), Some(reason), p.deletedAt))
      case Lifted => Some(Profile(p.role, Active, p.displayName, None, None, p.deletedAt))
  }

  function ProfileAfter(db: Db, op: Op, now: int, user: Uuid, row: Option<Profile>): Option<Profile> {
    match ProfileEventOf(db, op, user) case None => row case Some(e) => AfterProfileEvent(row, e, now)
  }

  function NextProfile(user: Uuid): (Db, Request, Option<Profile>) -> Option<Profile> {
    (db: Db, r: Request, row: Option<Profile>) => ProfileAfter(db, r.op, r.now, user, row)
  }

  function ProfileRow(user: Uuid): Db -> Option<Profile> {
    (db: Db) => RowOf(db.profiles, user)
  }

  lemma {:induction false} ApproveMovesProfile(db: Db, appId: Uuid, admin: Uuid, now: int, user: Uuid)
    requires Approve(db, appId, admin, now).Ok?
    ensures RowOf(Approve(db, appId, admin, now).db.profiles, user) ==
            ProfileAfter(db, ToAdmin(ApproveOp(appId, admin)), now, user, RowOf(db.profiles, user))
  {
  }

  lemma {:induction false} SuspendMovesProfile(
      db: Db, target: Uuid, admin: Uuid, reason: string, now: int, user: Uuid)
    requires Suspend(db, target, admin, reason, now).Ok?
    ensures RowOf(Suspend(db, target, admin, reason, now).db.profiles, user) ==
            if target == user then AfterProfileEvent(RowOf(db.profiles, user), Banned(reason), now)
            else RowOf(db.profiles, user)
  {
  }

  lemma {:induction false} UnsuspendMovesProfile(db: Db, target: Uuid, now: int, user: Uuid)
    requires Unsuspend(db, target).Ok?
    ensures RowOf(Unsuspend(db, target).db.profiles, user) ==
            if target == user then AfterProfileEvent(RowOf(db.profiles, user), Lifted, now)
            else RowOf(db.profiles, user)
  {
  }

  lemma {:induction false} AdminMovesProfile(db: Db, op: AdminOp, now: int, user: Uuid)
    requires HandleAdmin(db, op, now).Ok?
    ensures RowOf(HandleAdmin(db, op, now).db.profiles, user) ==
            ProfileAfter(db, ToAdmin(op), now, user, RowOf(db.profiles, user))
  {
    match op
    case ApproveOp(appId, admin) => ApproveMovesProfile(db, appId, admin, now, user);
    case RejectOp(_, _, _) =>
    case SuspendOp(target, admin, reason) => SuspendMovesProfile(db, target, admin, reason, now, user);
    case UnsuspendOp(target) => UnsuspendMovesProfile(db, target, now, user);
  }

  lemma {:induction false} ReasonOf(note: Option<string>)
    ensures SuspendReasonOf(note) == ReasonFor(note)
  {
  }

  lemma {:induction false} ResolveMovesProfile(
      db: Db, id: Uuid, admin: Uuid, action: ReportAction, note: Option<string>, now: int, user: Uuid)
    requires ResolveReport(db, id, admin, action, note, now).Ok?
    ensures RowOf(ResolveReport(db, id, admin, action, note, now).db.profiles, user) ==
            if action == SuspendedSender && ReportedMessageOf(db, id, user)
            then AfterProfileEvent(RowOf(db.profiles, user), Banned(ReasonFor(note)), now) else RowOf(db.profiles, user)
  {
    ReasonOf(note);
    if action == SuspendedSender {
      SuspendMovesProfile(db, db.messages[db.reports[id].messageId].senderId, admin, SuspendReasonOf(note), now, user);
    }
  }

  lemma {:induction false} ReportMovesProfile(db: Db, op: ReportOp, now: int, user: Uuid)
    requires HandleReport(db, op, now).Ok?
    ensures RowOf(HandleReport(db, op, now).db.profiles, user) ==
            ProfileAfter(db, ToReports(op), now, user, RowOf(db.profiles, user))
  {
    match op
    case CreateReportOp(_, _, _, _) => ReportFrame(db, op, now);
    case ResolveReportOp(id, admin, action, note) => ResolveMovesProfile(db, id, admin, action, note, now, user);
  }

  lemma {:induction false} AuthMovesProfile(db: Db, op: AuthOp, now: int, user: Uuid)
    requires HandleAuth(db, op, now).Ok?
    ensures RowOf(HandleAuth(db, op, now).db.profiles, user) ==
            ProfileAfter(db, ToAuth(op), now, user, RowOf(db.profiles, user))
  {
    if !op.SignupOp? {
      AuthFrame(db, op, now);
    }
  }

  lemma {:induction false} ProfileMoves(db: Db, r: Request, user: Uuid)
    requires Handle(db, r).Ok?
    ensures RowOf(Step(db, r).profiles, user) == ProfileAfter(db, r.op, r.now, user, RowOf(db.profiles, user))
  {
    match r.op
    case ToAdmin(op) => AdminMovesProfile(db, op, r.now, user);
    case ToReports(op) => ReportMovesProfile(db, op, r.now, user);
    case ToAuth(op) => AuthMovesProfile(db, op, r.now, user);
    case ToSubscriptions(op) => SubscriptionFrame(db, op, r.now);
    case ToChat(op) => ChatFrame(db, op, r.now);
  }

  /** A profile is what the signup, the approval and the suspensions of its user have made of it. */
  lemma {:induction false} ProfileTold(db: Db, rs: seq<Request>, user: Uuid)
    ensures RowOf(Run(db, rs).profiles, user) == Told(db, rs, RowOf(db.profiles, user), NextProfile(user))
  {
    forall d, r | Handle(d, r).Ok?
      ensures ProfileRow(user)(Step(d, r)) == NextProfile(user)(d, r, ProfileRow(user)(d)) {
      ProfileMoves(d, r, user);
    }
    RunTells(db, rs, ProfileRow(user), NextProfile(user));
  }

  // ---------------------------------------------------------------- idol profiles

  function IdolProfileAfter(db: Db, op: Op, now: int, user: Uuid, row: Option<IdolProfile>): Option<IdolProfile> {
    match op
    case ToAdmin(ApproveOp(appId, _)) =>
      if AppliedBy(db, appId, user)
      then Some(IdolProfile(appId, db.applications[appId].stageName, db.applications[appId].bio, now)) else row
    case _ => row
  }

  function NextIdolProfile(user: Uuid): (Db, Request, Option<IdolProfile>) -> Option<IdolProfile> {
    (db: Db, r: Request, row: Option<IdolProfile>) => IdolProfileAfter(db, r.op, r.now, user, row)
  }

  function IdolProfileRow(user: Uuid): Db -> Option<IdolProfile> {
    (db: Db) => RowOf(db.idolProfiles, user)
  }

  lemma {:induction false} AdminActivates(db: Db, op: AdminOp, now: int, user: Uuid)
    requires HandleAdmin(db, op, now).Ok?
    ensures RowOf(HandleAdmin(db, op, now).db.idolProfiles, user) ==
            IdolProfileAfter(db, ToAdmin(op), now, user, RowOf(db.idolProfiles, user))
  {
  }

  lemma {:induction false} IdolProfileMoves(db: Db, r: Request, user: Uuid)
    requires Handle(db, r).Ok?
    ensures RowOf(Step(db, r).idolProfiles, user) ==
            IdolProfileAfter(db, r.op, r.now, user, RowOf(db.idolProfiles, user))
  {
    match r.op
    case ToAdmin(op) => AdminActivates(db, op, r.now, user);
    case ToReports(op) => ReportFrame(db, op, r.now);
    case ToAuth(op) => AuthFrame(db, op, r.now);
    case ToSubscriptions(op) => SubscriptionFrame(db, op, r.now);
    case ToChat(op) => ChatFrame(db, op, r.now);
  }

  /** An idol profile carries the name and text of the approved application, from the approval on. */
  lemma {:induction false} IdolProfileTold(db: Db, rs: seq<Request>, user: Uuid)
    ensures RowOf(Run(db, rs).idolProfiles, user) ==
            Told(db, rs, RowOf(db.idolProfiles, user), NextIdolProfile(user))
  {
    forall d, r | Handle(d, r).Ok?
      ensures IdolProfileRow(user)(Step(d, r)) == NextIdolProfile(user)(d, r, IdolProfileRow(user)(d)) {
      IdolProfileMoves(d, r, user);
    }
    RunTells(db, rs, IdolProfileRow(user), NextIdolProfile(user));
  }

  // ---------------------------------------------------------------- subscriptions

  /** Starting afresh or again reads up to now; starting twice or stopping twice changes nothing. */
  function SubscriptionAfter(op: Op, now: int, p: Pair, row: Option<Subscription>): Option<Subscription> {
    match op
    case ToSubscriptions(SubscribeOp(fan, idol)) =>
      if Pair(fan, idol) != p then row
      else if row.None? then Some(Subscription(now, None, now))
      else if row.value.unsubscribedAt.None? then row
      else Some(Subscription(row.value.subscribedAt, None, now))
    case ToSubscriptions(UnsubscribeOp(fan, idol)) =>
      if Pair(fan, idol) != p || row.None? || row.value.unsubscribedAt.Some? then row
      else Some(Subscription(row.value.subscribedAt, Some(now), row.value.lastReadAt))
    case _ => row
  }

  function NextSubscription(p: Pair): (Db, Request, Option<Subscription>) -> Option<Subscription> {
    (db: Db, r: Request, row: Option<Subscription>) => SubscriptionAfter(r.op, r.now, p, row)
  }

  function SubscriptionRow(p: Pair): Db -> Option<Subscription> {
    (db: Db) => RowOf(db.subscriptions, p)
  }

  lemma {:induction false} SubscribeMoves(db: Db, fan: Uuid, idol: Uuid, now: int, p: Pair)
    requires Subscribe(db, fan, idol, now).Ok?
    ensures RowOf(Subscribe(db, fan, idol, now).db.subscriptions, p) ==
            SubscriptionAfter(ToSubscriptions(SubscribeOp(fan, idol)), now, p, RowOf(db.subscriptions, p))
  {
  }

  lemma {:induction false} UnsubscribeMoves(db: Db, fan: Uuid, idol: Uuid, now: int, p: Pair)
    requires Unsubscribe(db, fan, idol, now).Ok?
    ensures RowOf(Unsubscribe(db, fan, idol, now).db.subscriptions, p) ==
            SubscriptionAfter(ToSubscriptions(UnsubscribeOp(fan, idol)), now, p, RowOf(db.subscriptions, p))
  {
  }

  lemma {:induction false} SubscriptionMoves(db: Db, r: Request, p: Pair)
    requires Handle(db, r).Ok?
    ensures RowOf(Step(db, r).subscriptions, p) == SubscriptionAfter(r.op, r.now, p, RowOf(db.subscriptions, p))
  {
    match r.op
    case ToAdmin(op) => AdminFrame(db, op, r.now);
    case ToReports(op) => ReportFrame(db, op, r.now);
    case ToAuth(op) => AuthFrame(db, op, r.now);
    case ToSubscriptions(SubscribeOp(fan, idol)) => SubscribeMoves(db, fan, idol, r.now, p);
    case ToSubscriptions(UnsubscribeOp(fan, idol)) => UnsubscribeMoves(db, fan, idol, r.now, p);
    case ToChat(op) => ChatFrame(db, op, r.now);
  }

  /** A subscription is what the calls of its fan about its idol have made of it. */
  lemma {:induction false} SubscriptionTold(db: Db, rs: seq<Request>, p: Pair)
    ensures RowOf(Run(db, rs).subscriptions, p) == Told(db, rs, RowOf(db.subscriptions, p), NextSubscription(p))
  {
    forall d, r | Handle(d, r).Ok?
      ensures SubscriptionRow(p)(Step(d, r)) == NextSubscription(p)(d, r, SubscriptionRow(p)(d)) {
      SubscriptionMoves(d, r, p);
    }
    RunTells(db, rs, SubscriptionRow(p), NextSubscription(p));
  }

  // ---------------------------------------------------------------- messages

  /** An edited message keeps everything but its text, a deleted one everything; both are stamped. */
  function Edited(m: Message, change: Change, now: int): Message {
    match change
    case NewText(text) =>
      Message(m.clientId, m.kind, m.senderId, m.idolId, m.recipientId, m.parentId,
              Body(Some(text), m.body.mediaType, m.body.mediaUrl), m.createdAt, Some(now), m.deletedAt)
    case SoftDelete =>
      Message(m.clientId, m.kind, m.senderId, m.idolId, m.recipientId, m.parentId, m.body, m.createdAt, m.editedAt,
              Some(now))
  }

  function MessageAfter(op: Op, now: int, id: Uuid, row: Option<Message>): Option<Message> {
    match op
    case ToChat(SendOp(sender, i, d)) =>
      if i != id then row
      else Some(Message(d.clientId, d.kind, sender, d.idolId, d.recipientId, d.parentId, d.body, now, None, None))
    case ToChat(EditOp(_, i, change)) => if i != id || row.None? then row else Some(Edited(row.value, change, now))
    case _ => row
  }

  function NextMessage(id: Uuid): (Db, Request, Option<Message>) -> Option<Message> {
    (db: Db, r: Request, row: Option<Message>) => MessageAfter(r.op, r.now, id, row)
  }

  function MessageRow(id: Uuid): Db -> Option<Message> {
    (db: Db) => RowOf(db.messages, id)
  }

  lemma {:induction false} ChatMoves(db: Db, op: ChatOp, now: int, id: Uuid)
    requires HandleChat(db, op, now).Ok?
    ensures RowOf(HandleChat(db, op, now).db.messages, id) ==
            MessageAfter(ToChat(op), now, id, RowOf(db.messages, id))
  {
  }

  lemma {:induction false} MessageMoves(db: Db, r: Request, id: Uuid)
    requires Handle(db, r).Ok?
    ensures RowOf(Step(db, r).messages, id) == MessageAfter(r.op, r.now, id, RowOf(db.messages, id))
  {
    match r.op
    case ToAdmin(op) => AdminFrame(db, op, r.now);
    case ToReports(op) => ReportFrame(db, op, r.now);
    case ToAuth(op) => AuthFrame(db, op, r.now);
    case ToSubscriptions(op) => SubscriptionFrame(db, op, r.now);
    case ToChat(op) => ChatMoves(db, op, r.now, id);
  }

  /** A message is what was sent, with the last text and the stamps of its edits. */
  lemma {:induction false} MessageTold(db: Db, rs: seq<Request>, id: Uuid)
    ensures RowOf(Run(db, rs).messages, id) == Told(db, rs, RowOf(db.messages, id), NextMessage(id))
  {
    forall d, r | Handle(d, r).Ok? ensures MessageRow(id)(Step(d, r)) == NextMessage(id)(d, r, MessageRow(id)(d)) {
      MessageMoves(d, r, id);
    }
    RunTells(db, rs, MessageRow(id), NextMessage(id));
  }

  // ---------------------------------------------------------------- reports

  /** A filed report waits; its resolution says who handled it, when, how and with what note. */
  function ReportAfter(op: Op, now: int, id: Uuid, row: Option<Report>): Option<Report> {
    match op
    case ToReports(CreateReportOp(i, reporter, messageId, reason)) =>
      if i != id then row else Some(Report(reporter, messageId, reason, Waiting, None, None, None, None, now))
    case ToReports(ResolveReportOp(i, admin, action, note)) =>
      if i != id || row.None? then row
      else Some(Report(row.value.reporterId, row.value.messageId, row.value.reason, Handled, Some(action), note,
                       Some(admin), Some(now), row.value.createdAt))
    case _ => row
  }

  function NextReport(id: Uuid): (Db, Request, Option<Report>) -> Option<Report> {
    (db: Db, r: Request, row: Option<Report>) => ReportAfter(r.op, r.now, id, row)
  }

  function ReportRow(id: Uuid): Db -> Option<Report> {
    (db: Db) => RowOf(db.reports, id)
  }

  lemma {:induction false} FilesAndResolves(db: Db, op: ReportOp, now: int, id: Uuid)
    requires HandleReport(db, op, now).Ok?
    ensures RowOf(HandleReport(db, op, now).db.reports, id) ==
            ReportAfter(ToReports(op), now, id, RowOf(db.reports, id))
  {
  }

  lemma {:induction false} ReportMoves(db: Db, r: Request, id: Uuid)
    requires Handle(db, r).Ok?
    ensures RowOf(Step(db, r).reports, id) == ReportAfter(r.op, r.now, id, RowOf(db.reports, id))
  {
    match r.op
    case ToAdmin(op) => AdminFrame(db, op, r.now);
    case ToReports(op) => FilesAndResolves(db, op, r.now, id);
    case ToAuth(op) => AuthFrame(db, op, r.now);
    case ToSubscriptions(op) => SubscriptionFrame(db, op, r.now);
    case ToChat(op) => ChatFrame(db, op, r.now);
  }

  /** A report is what its filing and its resolution have made of it. */
  lemma {:induction false} ReportTold(db: Db, rs: seq<Request>, id: Uuid)
    ensures RowOf(Run(db, rs).reports, id) == Told(db, rs, RowOf(db.reports, id), NextReport(id))
  {
    forall d, r | Handle(d, r).Ok? ensures ReportRow(id)(Step(d, r)) == NextReport(id)(d, r, ReportRow(id)(d)) {
      ReportMoves(d, r, id);
    }
    RunTells(db, rs, ReportRow(id), NextReport(id));
  }

  // ---------------------------------------------------------------- agreements

  /** The consent a request gives to the terms. */
  function ConsentTo(a: Agreements, t: AgreementType): Option<string> {
    match t
    case Tos => Some(a.tos.version)
    case Privacy => Some(a.privacy.version)
    case Marketing =>
      if a.marketing.Some? && a.marketing.value.agreed then Some(a.marketing.value.version) else None
  }

  /** An agreement is stamped by the request that gave the consent. */
  function AgreementAfter(op: Op, now: int, k: AgreementKey, row: Option<int>): Option<int> {
    match op
    case ToAuth(SignupOp(user, req, _)) =>
      if user == k.userId && ConsentTo(req.agreements, k.terms) == Some(k.version) then Some(now) else row
    case ToAuth(ReagreeOp(user, a)) =>
      if user == k.userId && ConsentTo(a, k.terms) == Some(k.version) then Some(now) else row
    case _ => row
  }

  function NextAgreement(k: AgreementKey): (Db, Request, Option<int>) -> Option<int> {
    (db: Db, r: Request, row: Option<int>) => AgreementAfter(r.op, r.now, k, row)
  }

  function AgreementRow(k: AgreementKey): Db -> Option<int> {
    (db: Db) => RowOf(db.agreements, k)
  }

  lemma {:induction false} RowsGiven(user: Uuid, a: Agreements, k: AgreementKey)
    ensures k in NewRows(user, a) <==> user == k.userId && ConsentTo(a, k.terms) == Some(k.version)
  {
  }

  lemma {:induction false} AuthAgrees(db: Db, op: AuthOp, now: int, k: AgreementKey)
    requires HandleAuth(db, op, now).Ok?
    ensures RowOf(HandleAuth(db, op, now).db.agreements, k) ==
            AgreementAfter(ToAuth(op), now, k, RowOf(db.agreements, k))
  {
    if op.SignupOp? {
      RowsGiven(op.user, op.req.agreements, k);
    } else if op.ReagreeOp? {
      RowsGiven(op.user, op.agreements, k);
    }
  }

  lemma {:induction false} AgreementMoves(db: Db, r: Request, k: AgreementKey)
    requires Handle(db, r).Ok?
    ensures RowOf(Step(db, r).agreements, k) == AgreementAfter(r.op, r.now, k, RowOf(db.agreements, k))
  {
    match r.op
    case ToAdmin(op) => AdminFrame(db, op, r.now);
    case ToReports(op) => ReportFrame(db, op, r.now);
    case ToAuth(op) => AuthAgrees(db, op, r.now, k);
    case ToSubscriptions(op) => SubscriptionFrame(db, op, r.now);
    case ToChat(op) => ChatFrame(db, op, r.now);
  }

  /** An agreement is there from the request that gave it on, under that instant. */
  lemma {:induction false} AgreementTold(db: Db, rs: seq<Request>, k: AgreementKey)
    ensures RowOf(Run(db, rs).agreements, k) == Told(db, rs, RowOf(db.agreements, k), NextAgreement(k))
  {
    forall d, r | Handle(d, r).Ok? ensures AgreementRow(k)(Step(d, r)) == NextAgreement(k)(d, r, AgreementRow(k)(d)) {
      AgreementMoves(d, r, k);
    }
    RunTells(db, rs, AgreementRow(k), NextAgreement(k));
  }
}
