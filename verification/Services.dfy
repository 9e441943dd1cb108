/**
 What one committed or failed request does to the tables, service by service:
 admin, report, auth and subscription services of the backend, and the direct client
 writes the row-level policies allow (applying again, withdrawing, chat messages).

 A request either commits new tables or fails and leaves them alone (get_session).
 */
module Services {
  import opened Basics
  import opened Schema

  /** Integrity is a constraint violation no handler turns into another error. */
  datatype Error = NotFound | Conflict | Validation | Forbidden | Integrity

  datatype Outcome = Ok(db: Db) | Err(error: Error)

  /** The tables after a request. */
  function After(db: Db, o: Outcome): Db {
    if o.Ok? then o.db else db
  }

  // ---------------------------------------------------------------- admin service

  predicate StageNameTaken(db: Db, name: string) {
    exists u :: u in db.idolProfiles && db.idolProfiles[u].stageName == name
  }

  function Decided(a: Application, status: ApplicationStatus, admin: Uuid, now: int): Application {
    a.(status := status, handledBy := Some(admin), handledAt := Some(now))
  }

  /** The three writes of an approval. */
  function ApprovedDb(db: Db, appId: Uuid, admin: Uuid, now: int): Db
    requires appId in db.applications && db.applications[appId].userId in db.profiles
  {
    var a := db.applications[appId];
    db.(applications := db.applications[appId := Decided(a, Approved, admin, now)],
        idolProfiles := db.idolProfiles[a.userId := IdolProfile(appId, a.stageName, a.bio, now)],
        profiles := db.profiles[a.userId := db.profiles[a.userId].(role := Idol)])
  }

  function Approve(db: Db, appId: Uuid, admin: Uuid, now: int): Outcome {
    if appId !in db.applications then Err(NotFound)
    else
      var a := db.applications[appId];
      if a.status != Pending then Err(Conflict)
      else if admin !in db.profiles || a.userId !in db.profiles then Err(Integrity)
      else if a.userId in db.idolProfiles || StageNameTaken(db, a.stageName) then Err(Conflict)
      else Ok(ApprovedDb(db, appId, admin, now))
  }

  function Reject(db: Db, appId: Uuid, admin: Uuid, reason: string, now: int): Outcome {
    if appId !in db.applications then Err(NotFound)
    else
      var a := db.applications[appId];
      if a.status != Pending then Err(Conflict)
      else if admin !in db.profiles then Err(Integrity)
      else
        var rejected := Decided(a, Rejected, admin, now).(rejectionReason := Some(reason));
        Ok(db.(applications := db.applications[appId := rejected]))
  }

  function Suspend(db: Db, target: Uuid, admin: Uuid, reason: string, now: int): Outcome {
    if target == admin then Err(Validation)
    else if target !in db.profiles then Err(NotFound)
    else if db.profiles[target].status == Suspended then Err(Validation)
    else Ok(db.(profiles := db.profiles[target := db.profiles[target].(
                              status := Suspended, suspendedAt := Some(now), suspendReason := Some(reason))]))
  }

  function Unsuspend(db: Db, target: Uuid): Outcome {
    if target !in db.profiles then Err(NotFound)
    else if db.profiles[target].status != Suspended then Err(Validation)
    else Ok(db.(profiles := db.profiles[target := db.profiles[target].(
                              status := Active, suspendedAt := None, suspendReason := None)]))
  }

  // ---------------------------------------------------------------- report service

  predicate AlreadyReported(db: Db, reporter: Uuid, messageId: Uuid) {
    exists r :: r in db.reports && db.reports[r].messageId == messageId && db.reports[r].reporterId == reporter
  }

  function CreateReport(db: Db, id: Uuid, reporter: Uuid, messageId: Uuid, reason: string, now: int): Outcome {
    if messageId !in db.messages then Err(NotFound)
    else if db.messages[messageId].senderId == reporter then Err(Validation)
    else if AlreadyReported(db, reporter, messageId) || id in db.reports || reporter !in db.profiles then Err(Conflict)
    else Ok(db.(reports := db.reports[id := Report(reporter, messageId, reason, Waiting, None, None, None, None, now)]))
  }

  const DEFAULT_SUSPEND_REASON := "신고 처리로 인한 정지"

  /** resolution_note or the default text. */
  function SuspendReasonOf(note: Option<string>): string {
    if note.Some? && note.value != "" then note.value else DEFAULT_SUSPEND_REASON
  }

  function HandledReport(r: Report, admin: Uuid, action: ReportAction, note: Option<string>, now: int): Report {
    r.(status := Handled, action := Some(action), note := note, handledBy := Some(admin), handledAt := Some(now))
  }

  /** The nested suspension of a resolution, when there is one. */
  function ResolutionEffect(
      db: Db, r: Report, admin: Uuid, action: ReportAction, note: Option<string>, now: int): Outcome {
    if action != SuspendedSender then Ok(db)
    else if r.messageId !in db.messages then Err(NotFound)
    else Suspend(db, db.messages[r.messageId].senderId, admin, SuspendReasonOf(note), now)
  }

  function ResolveReport(db: Db, id: Uuid, admin: Uuid, action: ReportAction, note: Option<string>, now: int): Outcome {
    if id !in db.reports then Err(NotFound)
    else if db.reports[id].status == Handled then Err(Conflict)
    else
      var effect := ResolutionEffect(db, db.reports[id], admin, action, note, now);
      if effect.Err? then effect
      else if admin !in db.profiles then Err(Integrity)
      else Ok(effect.db.(reports := db.reports[id := HandledReport(db.reports[id], admin, action, note, now)]))
  }

  // ---------------------------------------------------------------- auth service

  datatype Consent = Consent(version: string, agreed: bool)

  datatype Agreements = Agreements(tos: Consent, privacy: Consent, marketing: Option<Consent>)

  /** The version in force of each kind of terms. */
  datatype Versions = Versions(tos: string, privacy: string, marketing: string)

  const CURRENT_VERSIONS := Versions("v1", "v1", "v1")

  predicate ValidAgreements(cur: Versions, a: Agreements) {
    a.tos.agreed && a.privacy.agreed && a.tos.version == cur.tos && a.privacy.version == cur.privacy &&
    (a.marketing.Some? ==> a.marketing.value.version == cur.marketing)
  }

  /** The agreement rows a request adds. */
  function NewRows(user: Uuid, a: Agreements): set<AgreementKey> {
    {AgreementKey(user, Tos, a.tos.version), AgreementKey(user, Privacy, a.privacy.version)} +
    if a.marketing.Some? && a.marketing.value.agreed
    then {AgreementKey(user, Marketing, a.marketing.value.version)} else {}
  }

  function WithRows(agreements: map<AgreementKey, int>, rows: set<AgreementKey>, now: int): map<AgreementKey, int> {
    agreements + map k | k in rows :: now
  }

  datatype SignupRequest = SignupRequest(
    asIdol: bool, displayName: string, stageName: Option<string>, bio: Option<string>,
    note: Option<string>, agreements: Agreements)

  function NewApplication(
      user: Uuid, stageName: string, bio: Option<string>, note: Option<string>, now: int): Application {
    Application(user, stageName, bio, note, Pending, None, None, None, now)
  }

  function Signup(cur: Versions, db: Db, user: Uuid, req: SignupRequest, appId: Uuid, now: int): Outcome {
    if user in db.profiles then Err(Conflict)
    else if req.asIdol && (req.stageName.None? || req.stageName.value == "") then Err(Validation)
    else if !ValidAgreements(cur, req.agreements) then Err(Validation)
    else if req.asIdol && appId in db.applications then Err(Integrity)
    else if NewRows(user, req.agreements) !! db.agreements.Keys then
      Ok(db.(profiles := db.profiles[user := Profile(Fan, Active, req.displayName, None, None, None)],
             applications := if req.asIdol
                             then db.applications[appId := NewApplication(user, req.stageName.value, req.bio,
                                                                          req.note, now)]
                             else db.applications,
             agreements := WithRows(db.agreements, NewRows(user, req.agreements), now)))
    else Err(Integrity)
  }

  function Reagree(cur: Versions, db: Db, user: Uuid, a: Agreements, now: int): Outcome {
    if !ValidAgreements(cur, a) then Err(Validation)
    else if user !in db.profiles || !(NewRows(user, a) !! db.agreements.Keys) then Err(Integrity)
    else Ok(db.(agreements := WithRows(db.agreements, NewRows(user, a), now)))
  }

  predicate HasPending(db: Db, user: Uuid) {
    exists i :: i in db.applications && db.applications[i].userId == user && db.applications[i].status == Pending
  }

  /** A client insert under apps_insert_self. */
  function Reapply(
      db: Db, user: Uuid, appId: Uuid, stageName: string, bio: Option<string>, note: Option<string>,
      now: int): Outcome {
    if user !in db.profiles || appId in db.applications || HasPending(db, user) then Err(Integrity)
    else Ok(db.(applications := db.applications[appId := NewApplication(user, stageName, bio, note, now)]))
  }

  /** A client update under apps_update_withdraw; the handled columns satisfy apps_handled_consistency. */
  function Withdraw(db: Db, user: Uuid, appId: Uuid, now: int): Outcome {
    if appId !in db.applications || db.applications[appId].userId != user || db.applications[appId].status != Pending
    then Err(Forbidden)
    else if user !in db.profiles then Err(Integrity)
    else Ok(db.(applications := db.applications[appId := Decided(db.applications[appId], Withdrawn, user, now)]))
  }

  // ---------------------------------------------------------------- subscription service

  function Subscribe(db: Db, fan: Uuid, idol: Uuid, now: int): Outcome {
    var p := Pair(fan, idol);
    if fan == idol then Err(Validation)
    else if !IsActiveIdol(db, idol) then Err(NotFound)
    else if p !in db.subscriptions then
      if fan !in db.profiles then Err(Integrity)
      else Ok(db.(subscriptions := db.subscriptions[p := Subscription(now, None, now)]))
    else if db.subscriptions[p].unsubscribedAt.None? then Ok(db)
    else
      var restored := db.subscriptions[p].(unsubscribedAt := None, lastReadAt := now);
      Ok(db.(subscriptions := db.subscriptions[p := restored]))
  }

  function Unsubscribe(db: Db, fan: Uuid, idol: Uuid, now: int): Outcome {
    var p := Pair(fan, idol);
    if p !in db.subscriptions then Err(NotFound)
    else if db.subscriptions[p].unsubscribedAt.Some? then Ok(db)
    else Ok(db.(subscriptions := db.subscriptions[p := db.subscriptions[p].(unsubscribedAt := Some(now))]))
  }

  // ---------------------------------------------------------------- chat messages (client writes)

  datatype Draft = Draft(
    clientId: Option<Uuid>, kind: MessageType, idolId: Uuid, recipientId: Option<Uuid>, parentId: Option<Uuid>,
    body: Body)

  function Drafted(sender: Uuid, d: Draft, now: int): Message {
    Message(d.clientId, d.kind, sender, d.idolId, d.recipientId, d.parentId, d.body, now, None, None)
  }

  predicate AlreadySent(db: Db, m: Message) {
    exists i :: i in db.messages && SameSend(m, db.messages[i])
  }

  function Send(db: Db, sender: Uuid, id: Uuid, d: Draft, now: int): Outcome {
    var m := Drafted(sender, d, now);
    if !IdolMayInsert(db, sender, m) && !FanMayInsert(db, sender, m) then Err(Forbidden)
    else if id in db.messages || !BodyValid(m.body) || !KindValid(m) ||
            !MessageKeysValid(db.profiles.Keys, db.messages.Keys, m) || AlreadySent(db, m)
    then Err(Integrity)
    else Ok(db.(messages := db.messages[id := m]))
  }

  /** An edit sets the text; a deletion only stamps the row. */
  datatype Change = NewText(text: string) | SoftDelete

  function Changed(m: Message, change: Change, now: int): Message {
    match change
    case NewText(text) => m.(body := m.body.(content := Some(text)), editedAt := Some(now))
    case SoftDelete => m.(deletedAt := Some(now))
  }

  function Edit(db: Db, actor: Uuid, id: Uuid, change: Change, now: int): Outcome {
    if id !in db.messages || !MayUpdate(db, actor, db.messages[id]) then Err(Forbidden)
    else Ok(db.(messages := db.messages[id := Changed(db.messages[id], change, now)]))
  }

  // ---------------------------------------------------------------- requests and runs

  datatype AdminOp =
    | ApproveOp(appId: Uuid, admin: Uuid)
    | RejectOp(appId: Uuid, admin: Uuid, reason: string)
    | SuspendOp(target: Uuid, admin: Uuid, reason: string)
    | UnsuspendOp(target: Uuid)

  datatype ReportOp =
    | CreateReportOp(id: Uuid, reporter: Uuid, messageId: Uuid, reason: string)
    | ResolveReportOp(id: Uuid, admin: Uuid, action: ReportAction, note: Option<string>)

  datatype AuthOp =
    | SignupOp(user: Uuid, req: SignupRequest, appId: Uuid)
    | ReagreeOp(user: Uuid, agreements: Agreements)
    | ReapplyOp(user: Uuid, appId: Uuid, stageName: string, bio: Option<string>, note: Option<string>)
    | WithdrawOp(user: Uuid, appId: Uuid)

  datatype SubscriptionOp = SubscribeOp(fan: Uuid, idol: Uuid) | UnsubscribeOp(fan: Uuid, idol: Uuid)

  datatype ChatOp = SendOp(sender: Uuid, id: Uuid, draft: Draft) | EditOp(actor: Uuid, id: Uuid, change: Change)

  datatype Op =
    | ToAdmin(admin: AdminOp)
    | ToReports(report: ReportOp)
    | ToAuth(auth: AuthOp)
    | ToSubscriptions(subscription: SubscriptionOp)
    | ToChat(chat: ChatOp)

  datatype Request = Request(now: int, op: Op)

  function HandleAdmin(db: Db, op: AdminOp, now: int): Outcome {
    match op
    case ApproveOp(appId, admin) => Approve(db, appId, admin, now)
    case RejectOp(appId, admin, reason) => Reject(db, appId, admin, reason, now)
    case SuspendOp(target, admin, reason) => Suspend(db, target, admin, reason, now)
    case UnsuspendOp(target) => Unsuspend(db, target)
  }

  function HandleReport(db: Db, op: ReportOp, now: int): Outcome {
    match op
    case CreateReportOp(id, reporter, messageId, reason) => CreateReport(db, id, reporter, messageId, reason, now)
    case ResolveReportOp(id, admin, action, note) => ResolveReport(db, id, admin, action, note, now)
  }

  function HandleAuth(db: Db, op: AuthOp, now: int): Outcome {
    match op
    case SignupOp(user, req, appId) => Signup(CURRENT_VERSIONS, db, user, req, appId, now)
    case ReagreeOp(user, a) => Reagree(CURRENT_VERSIONS, db, user, a, now)
    case ReapplyOp(user, appId, stageName, bio, note) => Reapply(db, user, appId, stageName, bio, note, now)
    case WithdrawOp(user, appId) => Withdraw(db, user, appId, now)
  }

  function HandleSubscription(db: Db, op: SubscriptionOp, now: int): Outcome {
    match op
    case SubscribeOp(fan, idol) => Subscribe(db, fan, idol, now)
    case UnsubscribeOp(fan, idol) => Unsubscribe(db, fan, idol, now)
  }

  function HandleChat(db: Db, op: ChatOp, now: int): Outcome {
    match op
    case SendOp(sender, id, draft) => Send(db, sender, id, draft, now)
    case EditOp(actor, id, change) => Edit(db, actor, id, change, now)
  }

  function Handle(db: Db, r: Request): Outcome {
    match r.op
    case ToAdmin(op) => HandleAdmin(db, op, r.now)
    case ToReports(op) => HandleReport(db, op, r.now)
    case ToAuth(op) => HandleAuth(db, op, r.now)
    case ToSubscriptions(op) => HandleSubscription(db, op, r.now)
    case ToChat(op) => HandleChat(db, op, r.now)
  }

  function Step(db: Db, r: Request): Db {
    After(db, Handle(db, r))
  }

  /** The tables after a serial run of requests. */
  function Run(db: Db, rs: seq<Request>): Db {
    if rs == [] then db else Step(Run(db, rs[..|rs| - 1]), rs[|rs| - 1])
  }

  lemma {:induction false} RunAppend(db: Db, rs: seq<Request>, r: Request)
    ensures Run(db, rs + [r]) == Step(Run(db, rs), r)
  {
    assert (rs + [r])[..|rs|] == rs;
  }

  // ---------------------------------------------------------------- which service writes which table

  lemma {:induction false} AdminFrame(db: Db, op: AdminOp, now: int)
    ensures var d := After(db, HandleAdmin(db, op, now));
            d.subscriptions == db.subscriptions && d.messages == db.messages && d.reports == db.reports &&
            d.agreements == db.agreements
  {
  }

  lemma {:induction false} ReportFrame(db: Db, op: ReportOp, now: int)
    ensures var d := After(db, HandleReport(db, op, now));
            d.subscriptions == db.subscriptions && d.messages == db.messages && d.agreements == db.agreements &&
            d.applications == db.applications && d.idolProfiles == db.idolProfiles &&
            (op.CreateReportOp? ==> d.profiles == db.profiles)
  {
  }

  lemma {:induction false} AuthFrame(db: Db, op: AuthOp, now: int)
    ensures var d := After(db, HandleAuth(db, op, now));
            d.subscriptions == db.subscriptions && d.messages == db.messages && d.reports == db.reports &&
            d.idolProfiles == db.idolProfiles && (!op.SignupOp? ==> d.profiles == db.profiles)
  {
  }

  lemma {:induction false} SubscriptionFrame(db: Db, op: SubscriptionOp, now: int)
    ensures var d := After(db, HandleSubscription(db, op, now));
            d == db.(subscriptions := d.subscriptions)
  {
  }

  lemma {:induction false} ChatFrame(db: Db, op: ChatOp, now: int)
    ensures var d := After(db, HandleChat(db, op, now));
            d == db.(messages := d.messages)
  {
  }
}
