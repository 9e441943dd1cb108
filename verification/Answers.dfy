/**
 When each request succeeds and how it fails, in terms of the columns it meets.

 With Histories, which says what a successful request writes, this leaves a service nothing to
 decide; a request that fails leaves every table as it was.
 */
module Answers {
  import opened Basics
  import opened Schema
  import opened Services

  /** The outcome is one of the given errors or success, each exactly on its condition. */
  predicate Answered(
      o: Outcome, notFound: bool, conflict: bool, validation: bool, forbidden: bool, integrity: bool) {
    (o == Err(NotFound) <==> notFound) && (o == Err(Conflict) <==> conflict) &&
    (o == Err(Validation) <==> validation) && (o == Err(Forbidden) <==> forbidden) &&
    (o == Err(Integrity) <==> integrity)
  }

  predicate ActiveAs(p: Profile, role: Role) {
    p.role == role && p.status == Active && p.deletedAt.None?
  }

  // ---------------------------------------------------------------- decisions

  /** The application is there and nobody has decided it. */
  predicate Open(db: Db, appId: Uuid) {
    appId in db.applications && db.applications[appId].status == Pending
  }

  predicate Decidable(db: Db, appId: Uuid, admin: Uuid) {
    Open(db, appId) && admin in db.profiles && db.applications[appId].userId in db.profiles
  }

  /** The applicant is an idol already, or another idol carries the name. */
  ghost predicate NameOrUserTaken(db: Db, a: Application) {
    a.userId in db.idolProfiles || exists u :: u in db.idolProfiles && db.idolProfiles[u].stageName == a.stageName
  }

  lemma {:induction false} ApproveAnswers(db: Db, appId: Uuid, admin: Uuid, now: int)
    ensures Answered(Approve(db, appId, admin, now), appId !in db.applications,
                     appId in db.applications &&
                     (!Open(db, appId) ||
                      (Decidable(db, appId, admin) && NameOrUserTaken(db, db.applications[appId]))),
                     false, false, Open(db, appId) && !Decidable(db, appId, admin))
  {
  }

  lemma {:induction false} RejectAnswers(db: Db, appId: Uuid, admin: Uuid, reason: string, now: int)
    ensures Answered(Reject(db, appId, admin, reason, now), appId !in db.applications,
                     appId in db.applications && !Open(db, appId), false, false,
                     Open(db, appId) && admin !in db.profiles)
  {
  }

  // ---------------------------------------------------------------- suspensions

  lemma {:induction false} SuspendAnswers(db: Db, target: Uuid, admin: Uuid, reason: string, now: int)
    ensures Answered(Suspend(db, target, admin, reason, now), target != admin && target !in db.profiles, false,
                     target == admin || (target in db.profiles && db.profiles[target].status == Suspended),
                     false, false)
  {
  }

  lemma {:induction false} UnsuspendAnswers(db: Db, target: Uuid)
    ensures Answered(Unsuspend(db, target), target !in db.profiles, false,
                     target in db.profiles && db.profiles[target].status != Suspended, false, false)
  {
  }

  // ---------------------------------------------------------------- reports

  /** The message is there and somebody else's. */
  predicate Reportable(db: Db, messageId: Uuid, reporter: Uuid) {
    messageId in db.messages && db.messages[messageId].senderId != reporter
  }

  lemma {:induction false} CreateReportAnswers(
      db: Db, id: Uuid, reporter: Uuid, messageId: Uuid, reason: string, now: int)
    ensures Answered(CreateReport(db, id, reporter, messageId, reason, now), messageId !in db.messages,
                     Reportable(db, messageId, reporter) &&
                     (id in db.reports || reporter !in db.profiles ||
                      exists r :: r in db.reports && db.reports[r].messageId == messageId &&
                                  db.reports[r].reporterId == reporter),
                     messageId in db.messages && !Reportable(db, messageId, reporter), false, false)
  {
  }

  predicate Unhandled(db: Db, id: Uuid) {
    id in db.reports && db.reports[id].status == Waiting
  }

  /** The sender of the reported message, when there is one. */
  function SenderOf(db: Db, id: Uuid): Option<Uuid> {
    if id in db.reports && db.reports[id].messageId in db.messages
    then Some(db.messages[db.reports[id].messageId].senderId) else None
  }

  /** The sender can be suspended by the admin. */
  predicate Suspendable(db: Db, target: Option<Uuid>, admin: Uuid) {
    target.Some? && target != Some(admin) && target.value in db.profiles &&
    db.profiles[target.value].status != Suspended
  }

  lemma {:induction false} ResolveAnswers(
      db: Db, id: Uuid, admin: Uuid, action: ReportAction, note: Option<string>, now: int)
    ensures var o, target := ResolveReport(db, id, admin, action, note, now), SenderOf(db, id);
            var suspends := Unhandled(db, id) && action == SuspendedSender;
            Answered(o, id !in db.reports || (suspends && (target.None? || (target != Some(admin) &&
                                                                           target.value !in db.profiles))),
                     id in db.reports && db.reports[id].status == Handled,
                     suspends && target.Some? && !Suspendable(db, target, admin) &&
                     (target == Some(admin) || target.value in db.profiles),
                     false,
                     Unhandled(db, id) && (suspends ==> Suspendable(db, target, admin)) && admin !in db.profiles)
  {
  }

  // ---------------------------------------------------------------- signup, terms and applications

  /** Both required terms are agreed to, and every version named is the one in force. */
  predicate Consents(cur: Versions, a: Agreements) {
    a.tos == Consent(cur.tos, true) && a.privacy == Consent(cur.privacy, true) &&
    match a.marketing case None => true case Some(c) => c.version == cur.marketing
  }

  /** An agreement of the user to a version the request names. */
  ghost predicate AgreedBefore(db: Db, user: Uuid, a: Agreements) {
    AgreementKey(user, Tos, a.tos.version) in db.agreements ||
    AgreementKey(user, Privacy, a.privacy.version) in db.agreements ||
    (a.marketing.Some? && a.marketing.value.agreed &&
     AgreementKey(user, Marketing, a.marketing.value.version) in db.agreements)
  }

  lemma {:induction false} RowsTaken(db: Db, user: Uuid, a: Agreements)
    ensures NewRows(user, a) !! db.agreements.Keys <==> !AgreedBefore(db, user, a)
  {
    assert AgreementKey(user, Tos, a.tos.version) in NewRows(user, a);
    assert AgreementKey(user, Privacy, a.privacy.version) in NewRows(user, a);
    assert a.marketing.Some? && a.marketing.value.agreed ==>
        AgreementKey(user, Marketing, a.marketing.value.version) in NewRows(user, a);
  }

  /** An idol names a stage, and the terms are in order. */
  predicate SignupComplete(cur: Versions, req: SignupRequest) {
    (req.asIdol ==> req.stageName.Some? && req.stageName != Some("")) && Consents(cur, req.agreements)
  }

  lemma {:induction false} SignupAnswers(cur: Versions, db: Db, user: Uuid, req: SignupRequest, appId: Uuid, now: int)
    ensures Answered(Signup(cur, db, user, req, appId, now), false, user in db.profiles,
                     user !in db.profiles && !SignupComplete(cur, req), false,
                     user !in db.profiles && SignupComplete(cur, req) &&
                     ((req.asIdol && appId in db.applications) || AgreedBefore(db, user, req.agreements)))
  {
    RowsTaken(db, user, req.agreements);
  }

  lemma {:induction false} ReagreeAnswers(cur: Versions, db: Db, user: Uuid, a: Agreements, now: int)
    ensures Answered(Reagree(cur, db, user, a, now), false, false, !Consents(cur, a), false,
                     Consents(cur, a) && (user !in db.profiles || AgreedBefore(db, user, a)))
  {
    RowsTaken(db, user, a);
  }

  /** The service asks for version v1 of everything. */
  lemma {:induction false} ServedConsents(db: Db, user: Uuid, a: Agreements, now: int)
    ensures Handle(db, Request(now, ToAuth(ReagreeOp(user, a)))) == Err(Validation) <==>
            !(a.tos == Consent("v1", true) && a.privacy == Consent("v1", true) &&
              (a.marketing.Some? ==> a.marketing.value.version == "v1"))
  {
    ReagreeAnswers(Versions("v1", "v1", "v1"), db, user, a, now);
  }

  lemma {:induction false} ReapplyAnswers(
      db: Db, user: Uuid, appId: Uuid, stageName: string, bio: Option<string>, note: Option<string>, now: int)
    ensures Answered(Reapply(db, user, appId, stageName, bio, note, now), false, false, false, false,
                     user !in db.profiles || appId in db.applications ||
                     exists i :: Open(db, i) && db.applications[i].userId == user)
  {
  }

  lemma {:induction false} WithdrawAnswers(db: Db, user: Uuid, appId: Uuid, now: int)
    ensures Answered(Withdraw(db, user, appId, now), false, false, false,
                     !(Open(db, appId) && db.applications[appId].userId == user),
                     Open(db, appId) && db.applications[appId].userId == user && user !in db.profiles)
  {
  }

  // ---------------------------------------------------------------- subscriptions

  predicate ActiveIdol(db: Db, u: Uuid) {
    u in db.idolProfiles && u in db.profiles && ActiveAs(db.profiles[u], Idol)
  }

  lemma {:induction false} SubscribeAnswers(db: Db, fan: Uuid, idol: Uuid, now: int)
    ensures Answered(Subscribe(db, fan, idol, now), fan != idol && !ActiveIdol(db, idol), false, fan == idol, false,
                     fan != idol && ActiveIdol(db, idol) && Pair(fan, idol) !in db.subscriptions &&
                     fan !in db.profiles)
  {
  }

  lemma {:induction false} UnsubscribeAnswers(db: Db, fan: Uuid, idol: Uuid, now: int)
    ensures Answered(Unsubscribe(db, fan, idol, now), Pair(fan, idol) !in db.subscriptions, false, false, false, false)
  {
  }

  // ---------------------------------------------------------------- messages

  predicate Subscribed(db: Db, fan: Uuid, idol: Uuid) {
    Pair(fan, idol) in db.subscriptions && db.subscriptions[Pair(fan, idol)].unsubscribedAt == None
  }

  /** A fan message that the idol got. */
  predicate FanMessageTo(db: Db, id: Uuid, idol: Uuid) {
    id in db.messages && db.messages[id].kind == FanToIdol && db.messages[id].idolId == idol
  }

  /** Who may send what: an active idol in the own room, answering only what fans wrote there, and its fans. */
  predicate MaySend(db: Db, sender: Uuid, d: Draft) {
    match d.kind
    case IdolToFans => d.idolId == sender && ActiveIdol(db, sender) && d.recipientId == None
    case IdolReply =>
      d.idolId == sender && ActiveIdol(db, sender) && d.recipientId == None &&
      d.parentId.Some? && FanMessageTo(db, d.parentId.value, sender)
    case FanToIdol => d.recipientId == Some(d.idolId) && d.parentId == None && Subscribed(db, sender, d.idolId)
  }

  /** Text has text and no file; a photo or a voice message has a file. */
  predicate WellFormed(b: Body) {
    if b.mediaType == TextMedia then b.content.Some? && b.mediaUrl.None? else b.mediaUrl.Some?
  }

  /** A message to everybody answers nothing, and both ends are registered. */
  predicate Placed(db: Db, sender: Uuid, d: Draft) {
    sender in db.profiles && d.idolId in db.profiles && (d.kind == IdolToFans ==> d.parentId == None)
  }

  /** The sender has sent under the same client id before. */
  ghost predicate SentBefore(db: Db, sender: Uuid, d: Draft) {
    d.clientId.Some? &&
    exists i :: i in db.messages && db.messages[i].senderId == sender && db.messages[i].clientId == d.clientId
  }

  lemma {:induction false} DraftAllowed(db: Db, sender: Uuid, d: Draft, now: int)
    ensures IdolMayInsert(db, sender, Drafted(sender, d, now)) || FanMayInsert(db, sender, Drafted(sender, d, now)) <==>
            MaySend(db, sender, d)
  {
  }

  lemma {:induction false} DraftValid(db: Db, sender: Uuid, d: Draft, now: int)
    requires MaySend(db, sender, d)
    ensures var m := Drafted(sender, d, now);
            BodyValid(m.body) && KindValid(m) && MessageKeysValid(db.profiles.Keys, db.messages.Keys, m) <==>
            WellFormed(d.body) && Placed(db, sender, d)
  {
  }

  lemma {:induction false} DraftRepeats(db: Db, sender: Uuid, d: Draft, now: int)
    ensures AlreadySent(db, Drafted(sender, d, now)) <==> SentBefore(db, sender, d)
  {
    var m := Drafted(sender, d, now);
    forall i | i in db.messages
      ensures SameSend(m, db.messages[i]) <==>
              d.clientId.Some? && db.messages[i].senderId == sender && db.messages[i].clientId == d.clientId
    {
    }
  }

  lemma {:induction false} SendAnswers(db: Db, sender: Uuid, id: Uuid, d: Draft, now: int)
    ensures Answered(Send(db, sender, id, d, now), false, false, false, !MaySend(db, sender, d),
                     MaySend(db, sender, d) &&
                     (id in db.messages || !WellFormed(d.body) || !Placed(db, sender, d) || SentBefore(db, sender, d)))
  {
    DraftAllowed(db, sender, d, now);
    DraftRepeats(db, sender, d, now);
    if MaySend(db, sender, d) {
      DraftValid(db, sender, d, now);
    }
  }

  /** The author until the message is deleted, and active admins always. */
  predicate MayEdit(db: Db, actor: Uuid, id: Uuid) {
    id in db.messages &&
    ((db.messages[id].senderId == actor && db.messages[id].deletedAt == None) ||
     (actor in db.profiles && ActiveAs(db.profiles[actor], Admin)))
  }

  lemma {:induction false} EditAnswers(db: Db, actor: Uuid, id: Uuid, change: Change, now: int)
    ensures Answered(Edit(db, actor, id, change, now), false, false, false, !MayEdit(db, actor, id), false)
  {
  }
}
