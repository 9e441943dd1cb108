/**
 The tables of the first migration (backend/migrations/versions/0001_initial.py) as values:
 their CHECK, UNIQUE and FOREIGN KEY constraints, the row-level helper predicates and the
 policies on messages. A table is a map from its key; instants are integers of one clock.
 */
module Schema {
  import opened Basics

  type Uuid = nat

  datatype Role = Fan | Idol | Admin

  datatype UserStatus = Unconfirmed | Active | Suspended

  datatype Profile = Profile(
    role: Role, status: UserStatus, displayName: string,
    suspendedAt: Option<int>, suspendReason: Option<string>, deletedAt: Option<int>)

  datatype ApplicationStatus = Pending | Approved | Rejected | Withdrawn

  datatype Application = Application(
    userId: Uuid, stageName: string, bio: Option<string>, note: Option<string>,
    status: ApplicationStatus, handledBy: Option<Uuid>, handledAt: Option<int>,
    rejectionReason: Option<string>, createdAt: int)

  datatype IdolProfile = IdolProfile(applicationId: Uuid, stageName: string, bio: Option<string>, activatedAt: int)

  datatype Subscription = Subscription(subscribedAt: int, unsubscribedAt: Option<int>, lastReadAt: int)

  /** (fan, idol), the primary key of subscriptions. */
  datatype Pair = Pair(fan: Uuid, idol: Uuid)

  datatype MessageType = IdolToFans | FanToIdol | IdolReply

  datatype MediaType = TextMedia | Photo | Voice

  datatype Body = Body(content: Option<string>, mediaType: MediaType, mediaUrl: Option<string>)

  datatype Message = Message(
    clientId: Option<Uuid>, kind: MessageType, senderId: Uuid, idolId: Uuid, recipientId: Option<Uuid>,
    parentId: Option<Uuid>, body: Body, createdAt: int, editedAt: Option<int>, deletedAt: Option<int>)

  datatype ReportStatus = Waiting | Handled

  datatype ReportAction = Dismissed | MessageDeleted | Warned | SuspendedSender

  datatype Report = Report(
    reporterId: Uuid, messageId: Uuid, reason: string, status: ReportStatus, action: Option<ReportAction>,
    note: Option<string>, handledBy: Option<Uuid>, handledAt: Option<int>, createdAt: int)

  datatype AgreementType = Tos | Privacy | Marketing

  /** (user, type, version), unique among the agreements; the value is agreed_at. */
  datatype AgreementKey = AgreementKey(userId: Uuid, terms: AgreementType, version: string)

  datatype Db = Db(
    profiles: map<Uuid, Profile>,
    applications: map<Uuid, Application>,
    idolProfiles: map<Uuid, IdolProfile>,
    subscriptions: map<Pair, Subscription>,
    messages: map<Uuid, Message>,
    reports: map<Uuid, Report>,
    agreements: map<AgreementKey, int>)

  // ---------------------------------------------------------------- constraints

  /** profiles_suspend_consistency. */
  predicate ProfileRowValid(p: Profile) {
    p.suspendedAt.None? ==> p.suspendReason.None?
  }

  ghost predicate ProfilesValid(profiles: map<Uuid, Profile>) {
    forall u :: u in profiles ==> ProfileRowValid(profiles[u])
  }

  /** apps_handled_consistency and apps_rejected_reason_required. */
  predicate ApplicationRowValid(a: Application) {
    (a.status == Pending <==> a.handledBy.None?) && (a.status == Pending <==> a.handledAt.None?) &&
    (a.status == Rejected ==> a.rejectionReason.Some?)
  }

  predicate ApplicationKeysValid(users: set<Uuid>, a: Application) {
    a.userId in users && (a.handledBy.Some? ==> a.handledBy.value in users)
  }

  /** Two rows idx_idol_apps_one_pending_per_user forbids side by side. */
  predicate BothPending(a: Application, b: Application) {
    a.userId == b.userId && a.status == Pending && b.status == Pending
  }

  ghost predicate ApplicationsValid(apps: map<Uuid, Application>, users: set<Uuid>) {
    (forall i :: i in apps ==> ApplicationRowValid(apps[i]) && ApplicationKeysValid(users, apps[i])) &&
    (forall i, j | i in apps && j in apps && BothPending(apps[i], apps[j]) :: i == j)
  }

  ghost predicate IdolProfilesValid(idols: map<Uuid, IdolProfile>, users: set<Uuid>, apps: set<Uuid>) {
    (forall u :: u in idols ==> u in users && idols[u].applicationId in apps) &&
    (forall u, v | u in idols && v in idols && idols[u].stageName == idols[v].stageName :: u == v)
  }

  /** Foreign keys and subs_no_self. */
  ghost predicate SubscriptionsValid(subs: map<Pair, Subscription>, users: set<Uuid>) {
    forall p :: p in subs ==> p.fan in users && p.idol in users && p.fan != p.idol
  }

  /** messages_media_consistency. */
  predicate BodyValid(b: Body) {
    match b.mediaType
    case TextMedia => b.mediaUrl.None? && b.content.Some?
    case _ => b.mediaUrl.Some?
  }

  /**
   messages_type_consistency. A CHECK passes when it is NULL, so a fan message without a
   recipient passes here; the insert policy is what refuses it.
   */
  predicate KindValid(m: Message) {
    match m.kind
    case IdolToFans => m.recipientId.None? && m.parentId.None?
    case FanToIdol => (m.recipientId.None? || m.recipientId == Some(m.idolId)) && m.parentId.None?
    case IdolReply => m.recipientId.None? && m.parentId.Some?
  }

  predicate MessageKeysValid(users: set<Uuid>, messages: set<Uuid>, m: Message) {
    m.senderId in users && m.idolId in users && (m.recipientId.Some? ==> m.recipientId.value in users) &&
    (m.parentId.Some? ==> m.parentId.value in messages)
  }

  /** Two rows idx_messages_idempotency forbids side by side. */
  predicate SameSend(a: Message, b: Message) {
    a.clientId.Some? && a.clientId == b.clientId && a.senderId == b.senderId
  }

  ghost predicate MessagesValid(messages: map<Uuid, Message>, users: set<Uuid>) {
    (forall i :: i in messages ==>
                   BodyValid(messages[i].body) && KindValid(messages[i]) &&
                   MessageKeysValid(users, messages.Keys, messages[i])) &&
    (forall i, j | i in messages && j in messages && SameSend(messages[i], messages[j]) :: i == j)
  }

  /** reports_handled_consistency. */
  predicate ReportRowValid(r: Report) {
    (r.status == Handled <==> r.action.Some?) && (r.status == Handled <==> r.handledBy.Some?) &&
    (r.status == Handled <==> r.handledAt.Some?)
  }

  predicate ReportKeysValid(users: set<Uuid>, messages: set<Uuid>, r: Report) {
    r.reporterId in users && r.messageId in messages && (r.handledBy.Some? ==> r.handledBy.value in users)
  }

  predicate SameReport(r: Report, s: Report) {
    r.messageId == s.messageId && r.reporterId == s.reporterId
  }

  ghost predicate ReportsValid(reports: map<Uuid, Report>, users: set<Uuid>, messages: set<Uuid>) {
    (forall i :: i in reports ==> ReportRowValid(reports[i]) && ReportKeysValid(users, messages, reports[i])) &&
    (forall i, j | i in reports && j in reports && SameReport(reports[i], reports[j]) :: i == j)
  }

  ghost predicate AgreementsValid(agreements: map<AgreementKey, int>, users: set<Uuid>) {
    forall k :: k in agreements ==> k.userId in users
  }

  /** Every constraint of the migration on the modelled columns. */
  ghost predicate Valid(db: Db) {
    var users := db.profiles.Keys;
    ProfilesValid(db.profiles) && ApplicationsValid(db.applications, users) &&
    IdolProfilesValid(db.idolProfiles, users, db.applications.Keys) && SubscriptionsValid(db.subscriptions, users) &&
    MessagesValid(db.messages, users) && ReportsValid(db.reports, users, db.messages.Keys) &&
    AgreementsValid(db.agreements, users)
  }

  // ---------------------------------------------------------------- row-level helpers and policies

  predicate IsAdmin(db: Db, uid: Uuid) {
    uid in db.profiles && db.profiles[uid].role == Admin && db.profiles[uid].status == Active &&
    db.profiles[uid].deletedAt.None?
  }

  predicate IsActiveIdol(db: Db, uid: Uuid) {
    uid in db.profiles && uid in db.idolProfiles && db.profiles[uid].role == Idol &&
    db.profiles[uid].status == Active && db.profiles[uid].deletedAt.None?
  }

  predicate IsSubscribedTo(db: Db, uid: Uuid, idol: Uuid) {
    Pair(uid, idol) in db.subscriptions && db.subscriptions[Pair(uid, idol)].unsubscribedAt.None?
  }

  /** messages_select_visible. */
  predicate CanSee(db: Db, uid: Uuid, m: Message) {
    m.senderId == uid ||
    ((m.kind == IdolToFans || m.kind == IdolReply) && IsSubscribedTo(db, uid, m.idolId)) ||
    (m.kind == FanToIdol && m.idolId == uid) ||
    IsAdmin(db, uid)
  }

  /** messages_insert_idol. */
  predicate IdolMayInsert(db: Db, uid: Uuid, m: Message) {
    m.senderId == uid && m.idolId == uid && (m.kind == IdolToFans || m.kind == IdolReply) &&
    m.recipientId.None? && IsActiveIdol(db, uid) &&
    (m.kind == IdolReply ==>
       m.parentId.Some? && m.parentId.value in db.messages &&
       db.messages[m.parentId.value].idolId == uid && db.messages[m.parentId.value].kind == FanToIdol)
  }

  /** messages_insert_fan. */
  predicate FanMayInsert(db: Db, uid: Uuid, m: Message) {
    m.senderId == uid && m.kind == FanToIdol && m.recipientId == Some(m.idolId) && m.parentId.None? &&
    IsSubscribedTo(db, uid, m.idolId)
  }

  /** messages_update_self and messages_update_admin. */
  predicate MayUpdate(db: Db, uid: Uuid, m: Message) {
    (m.senderId == uid && m.deletedAt.None?) || IsAdmin(db, uid)
  }
}
