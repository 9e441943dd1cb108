/** The services never commit a row the constraints of the migration forbid. */
module Constraints {
  import opened Basics
  import opened Schema
  import opened Services

  // ---------------------------------------------------------------- writing one table

  lemma {:induction false} PutProfile(db: Db, u: Uuid, p: Profile)
    requires Valid(db) && ProfileRowValid(p)
    ensures Valid(db.(profiles := db.profiles[u := p]))
  {
    var users := db.profiles[u := p].Keys;
    assert db.profiles.Keys <= users;
    MoreUsers(db, users);
  }

  lemma {:induction false} MoreUsers(db: Db, users: set<Uuid>)
    requires Valid(db) && db.profiles.Keys <= users
    ensures ApplicationsValid(db.applications, users) && MessagesValid(db.messages, users)
    ensures IdolProfilesValid(db.idolProfiles, users, db.applications.Keys) &&
            SubscriptionsValid(db.subscriptions, users)
    ensures ReportsValid(db.reports, users, db.messages.Keys) && AgreementsValid(db.agreements, users)
  {
  }

  lemma {:induction false} PutApplication(db: Db, i: Uuid, a: Application)
    requires Valid(db) && ApplicationRowValid(a) && ApplicationKeysValid(db.profiles.Keys, a)
    requires forall j :: j in db.applications && BothPending(a, db.applications[j]) ==> i == j
    ensures Valid(db.(applications := db.applications[i := a]))
  {
    var apps := db.applications[i := a];
    assert IdolProfilesValid(db.idolProfiles, db.profiles.Keys, apps.Keys);
  }

  lemma {:induction false} PutIdolProfile(db: Db, u: Uuid, ip: IdolProfile)
    requires Valid(db) && u in db.profiles && ip.applicationId in db.applications
    requires u !in db.idolProfiles && !StageNameTaken(db, ip.stageName)
    ensures Valid(db.(idolProfiles := db.idolProfiles[u := ip]))
  {
    AddIdol(db.idolProfiles, db.profiles.Keys, db.applications.Keys, u, ip);
  }

  lemma {:induction false} AddIdol(
      idols: map<Uuid, IdolProfile>, users: set<Uuid>, apps: set<Uuid>, u: Uuid, ip: IdolProfile)
    requires IdolProfilesValid(idols, users, apps) && u in users && ip.applicationId in apps && u !in idols
    requires forall v :: v in idols ==> idols[v].stageName != ip.stageName
    ensures IdolProfilesValid(idols[u := ip], users, apps)
  {
  }

  lemma {:induction false} PutSubscription(db: Db, p: Pair, s: Subscription)
    requires Valid(db) && p.fan in db.profiles && p.idol in db.profiles && p.fan != p.idol
    ensures Valid(db.(subscriptions := db.subscriptions[p := s]))
  {
  }

  lemma {:induction false} PutMessage(db: Db, i: Uuid, m: Message)
    requires Valid(db) && BodyValid(m.body) && KindValid(m) && MessageKeysValid(db.profiles.Keys, db.messages.Keys, m)
    requires forall j :: j in db.messages && (SameSend(m, db.messages[j]) || SameSend(db.messages[j], m)) ==> i == j
    ensures Valid(db.(messages := db.messages[i := m]))
  {
    AddMessage(db.messages, db.profiles.Keys, i, m);
    MoreMessages(db.reports, db.profiles.Keys, db.messages.Keys, db.messages[i := m].Keys);
  }

  lemma {:induction false} MoreMessages(reports: map<Uuid, Report>, users: set<Uuid>, ids: set<Uuid>, ids': set<Uuid>)
    requires ReportsValid(reports, users, ids) && ids <= ids'
    ensures ReportsValid(reports, users, ids')
  {
  }

  lemma {:induction false} AddMessage(messages: map<Uuid, Message>, users: set<Uuid>, i: Uuid, m: Message)
    requires MessagesValid(messages, users) && BodyValid(m.body) && KindValid(m)
    requires MessageKeysValid(users, messages.Keys, m)
    requires forall j :: j in messages && (SameSend(m, messages[j]) || SameSend(messages[j], m)) ==> i == j
    ensures MessagesValid(messages[i := m], users)
  {
    assert messages.Keys <= messages[i := m].Keys;
  }

  lemma {:induction false} PutReport(db: Db, i: Uuid, r: Report)
    requires Valid(db) && ReportRowValid(r) && ReportKeysValid(db.profiles.Keys, db.messages.Keys, r)
    requires forall j :: j in db.reports && SameReport(r, db.reports[j]) ==> i == j
    ensures Valid(db.(reports := db.reports[i := r]))
  {
    assert ReportsValid(db.reports[i := r], db.profiles.Keys, db.messages.Keys);
  }

  lemma {:induction false} PutAgreements(db: Db, rows: set<AgreementKey>, now: int)
    requires Valid(db) && forall k :: k in rows ==> k.userId in db.profiles
    ensures Valid(db.(agreements := WithRows(db.agreements, rows, now)))
  {
  }

  // ---------------------------------------------------------------- one service at a time

  lemma {:induction false} ApproveKeepsValid(db: Db, appId: Uuid, admin: Uuid, now: int)
    requires Valid(db)
    ensures Valid(After(db, Approve(db, appId, admin, now)))
  {
    if Approve(db, appId, admin, now).Ok? {
      var a := db.applications[appId];
      var db1 := db.(applications := db.applications[appId := Decided(a, Approved, admin, now)]);
      PutApplication(db, appId, Decided(a, Approved, admin, now));
      var db2 := db1.(idolProfiles := db1.idolProfiles[a.userId := IdolProfile(appId, a.stageName, a.bio, now)]);
      PutIdolProfile(db1, a.userId, IdolProfile(appId, a.stageName, a.bio, now));
      PutProfile(db2, a.userId, db.profiles[a.userId].(role := Idol));
    }
  }

  lemma {:induction false} RejectKeepsValid(db: Db, appId: Uuid, admin: Uuid, reason: string, now: int)
    requires Valid(db)
    ensures Valid(After(db, Reject(db, appId, admin, reason, now)))
  {
    if Reject(db, appId, admin, reason, now).Ok? {
      PutApplication(db, appId,
                     Decided(db.applications[appId], Rejected, admin, now).(rejectionReason := Some(reason)));
    }
  }

  lemma {:induction false} SuspendKeepsValid(db: Db, target: Uuid, admin: Uuid, reason: string, now: int)
    requires Valid(db)
    ensures Valid(After(db, Suspend(db, target, admin, reason, now)))
  {
    if Suspend(db, target, admin, reason, now).Ok? {
      var p := db.profiles[target].(status := Suspended, suspendedAt := Some(now), suspendReason := Some(reason));
      PutProfile(db, target, p);
    }
  }

  lemma {:induction false} UnsuspendKeepsValid(db: Db, target: Uuid)
    requires Valid(db)
    ensures Valid(After(db, Unsuspend(db, target)))
  {
    if Unsuspend(db, target).Ok? {
      PutProfile(db, target, db.profiles[target].(status := Active, suspendedAt := None, suspendReason := None));
    }
  }

  lemma {:induction false} CreateReportKeepsValid(
      db: Db, id: Uuid, reporter: Uuid, messageId: Uuid, reason: string, now: int)
    requires Valid(db)
    ensures Valid(After(db, CreateReport(db, id, reporter, messageId, reason, now)))
  {
    if CreateReport(db, id, reporter, messageId, reason, now).Ok? {
      PutReport(db, id, Report(reporter, messageId, reason, Waiting, None, None, None, None, now));
    }
  }

  lemma {:induction false} SuspendWrites(db: Db, target: Uuid, admin: Uuid, reason: string, now: int)
    ensures var d := After(db, Suspend(db, target, admin, reason, now));
            d == db.(profiles := d.profiles) && forall u :: u in db.profiles ==> u in d.profiles
  {
  }

  /** The nested suspension of a resolution, if there is one. */
  lemma {:induction false} EffectIs(
      db: Db, r: Report, admin: Uuid, action: ReportAction, note: Option<string>, now: int)
    ensures var d := After(db, ResolutionEffect(db, r, admin, action, note, now));
            if action == SuspendedSender && r.messageId in db.messages
            then d == After(db, Suspend(db, db.messages[r.messageId].senderId, admin, SuspendReasonOf(note), now))
            else d == db
  {
  }

  lemma {:induction false} EffectKeepsValid(
      db: Db, r: Report, admin: Uuid, action: ReportAction, note: Option<string>, now: int)
    requires Valid(db)
    ensures var d := After(db, ResolutionEffect(db, r, admin, action, note, now));
            Valid(d) && d == db.(profiles := d.profiles) && forall u :: u in db.profiles ==> u in d.profiles
  {
    EffectIs(db, r, admin, action, note, now);
    if action == SuspendedSender && r.messageId in db.messages {
      SuspendKeepsValid(db, db.messages[r.messageId].senderId, admin, SuspendReasonOf(note), now);
      SuspendWrites(db, db.messages[r.messageId].senderId, admin, SuspendReasonOf(note), now);
    }
  }

  lemma {:induction false} HandlingKeepsValid(
      d: Db, id: Uuid, admin: Uuid, action: ReportAction, note: Option<string>, now: int)
    requires Valid(d) && id in d.reports && admin in d.profiles
    ensures Valid(d.(reports := d.reports[id := HandledReport(d.reports[id], admin, action, note, now)]))
  {
    PutReport(d, id, HandledReport(d.reports[id], admin, action, note, now));
  }

  lemma {:induction false} ResolveWrites(
      db: Db, id: Uuid, admin: Uuid, action: ReportAction, note: Option<string>, now: int)
    requires ResolveReport(db, id, admin, action, note, now).Ok?
    ensures id in db.reports && admin in db.profiles
    ensures var d := After(db, ResolutionEffect(db, db.reports[id], admin, action, note, now));
            ResolveReport(db, id, admin, action, note, now).db ==
            d.(reports := db.reports[id := HandledReport(db.reports[id], admin, action, note, now)])
  {
  }

  lemma {:induction false} ResolveKeepsValid(
      db: Db, id: Uuid, admin: Uuid, action: ReportAction, note: Option<string>, now: int)
    requires Valid(db)
    ensures Valid(After(db, ResolveReport(db, id, admin, action, note, now)))
  {
    if ResolveReport(db, id, admin, action, note, now).Ok? {
      ResolveWrites(db, id, admin, action, note, now);
      EffectKeepsValid(db, db.reports[id], admin, action, note, now);
      var d := After(db, ResolutionEffect(db, db.reports[id], admin, action, note, now));
      HandlingKeepsValid(d, id, admin, action, note, now);
    }
  }

  lemma {:induction false} SignupKeepsValid(
      cur: Versions, db: Db, user: Uuid, req: SignupRequest, appId: Uuid, now: int)
    requires Valid(db)
    ensures Valid(After(db, Signup(cur, db, user, req, appId, now)))
  {
    if Signup(cur, db, user, req, appId, now).Ok? {
      var p := Profile(Fan, Active, req.displayName, None, None, None);
      var db1 := db.(profiles := db.profiles[user := p]);
      PutProfile(db, user, p);
      PutAgreements(db1, NewRows(user, req.agreements), now);
      var db2 := db1.(agreements := WithRows(db1.agreements, NewRows(user, req.agreements), now));
      if req.asIdol {
        var a := NewApplication(user, req.stageName.value, req.bio, req.note, now);
        assert forall j :: j in db.applications ==> ApplicationKeysValid(db.profiles.Keys, db.applications[j]);
        PutApplication(db2, appId, a);
      }
    }
  }

  lemma {:induction false} ReagreeKeepsValid(cur: Versions, db: Db, user: Uuid, a: Agreements, now: int)
    requires Valid(db)
    ensures Valid(After(db, Reagree(cur, db, user, a, now)))
  {
    if Reagree(cur, db, user, a, now).Ok? {
      PutAgreements(db, NewRows(user, a), now);
    }
  }

  lemma {:induction false} ReapplyKeepsValid(
      db: Db, user: Uuid, appId: Uuid, stageName: string, bio: Option<string>, note: Option<string>, now: int)
    requires Valid(db)
    ensures Valid(After(db, Reapply(db, user, appId, stageName, bio, note, now)))
  {
    if Reapply(db, user, appId, stageName, bio, note, now).Ok? {
      PutApplication(db, appId, NewApplication(user, stageName, bio, note, now));
    }
  }

  lemma {:induction false} WithdrawKeepsValid(db: Db, user: Uuid, appId: Uuid, now: int)
    requires Valid(db)
    ensures Valid(After(db, Withdraw(db, user, appId, now)))
  {
    if Withdraw(db, user, appId, now).Ok? {
      PutApplication(db, appId, Decided(db.applications[appId], Withdrawn, user, now));
    }
  }

  lemma {:induction false} PairRegistered(db: Db, p: Pair)
    requires Valid(db) && p in db.subscriptions
    ensures p.fan in db.profiles && p.idol in db.profiles && p.fan != p.idol
  {
  }

  lemma {:induction false} SubscribeKeepsValid(db: Db, fan: Uuid, idol: Uuid, now: int)
    requires Valid(db)
    ensures Valid(After(db, Subscribe(db, fan, idol, now)))
  {
    var p := Pair(fan, idol);
    if Subscribe(db, fan, idol, now).Ok? {
      if p in db.subscriptions {
        PairRegistered(db, p);
        PutSubscription(db, p, db.subscriptions[p].(unsubscribedAt := None, lastReadAt := now));
      } else {
        PutSubscription(db, p, Subscription(now, None, now));
      }
    }
  }

  lemma {:induction false} UnsubscribeKeepsValid(db: Db, fan: Uuid, idol: Uuid, now: int)
    requires Valid(db)
    ensures Valid(After(db, Unsubscribe(db, fan, idol, now)))
  {
    var p := Pair(fan, idol);
    if Unsubscribe(db, fan, idol, now).Ok? {
      PairRegistered(db, p);
      PutSubscription(db, p, db.subscriptions[p].(unsubscribedAt := Some(now)));
    }
  }

  lemma {:induction false} SendKeepsValid(db: Db, sender: Uuid, id: Uuid, d: Draft, now: int)
    requires Valid(db)
    ensures Valid(After(db, Send(db, sender, id, d, now)))
  {
    if Send(db, sender, id, d, now).Ok? {
      PutMessage(db, id, Drafted(sender, d, now));
    }
  }

  lemma {:induction false} EditKeepsValid(db: Db, actor: Uuid, id: Uuid, change: Change, now: int)
    requires Valid(db)
    ensures Valid(After(db, Edit(db, actor, id, change, now)))
  {
    if Edit(db, actor, id, change, now).Ok? {
      var m, m' := db.messages[id], Changed(db.messages[id], change, now);
      assert KindValid(m') && MessageKeysValid(db.profiles.Keys, db.messages.Keys, m') && BodyValid(m'.body);
      assert forall j :: j in db.messages && SameSend(m, db.messages[j]) ==> id == j;
      PutMessage(db, id, m');
    }
  }

  lemma {:induction false} AdminKeepsValid(db: Db, op: AdminOp, now: int)
    requires Valid(db)
    ensures Valid(After(db, HandleAdmin(db, op, now)))
  {
    match op
    case ApproveOp(appId, admin) => ApproveKeepsValid(db, appId, admin, now);
    case RejectOp(appId, admin, reason) => RejectKeepsValid(db, appId, admin, reason, now);
    case SuspendOp(target, admin, reason) => SuspendKeepsValid(db, target, admin, reason, now);
    case UnsuspendOp(target) => UnsuspendKeepsValid(db, target);
  }

  lemma {:induction false} ReportsKeepValid(db: Db, op: ReportOp, now: int)
    requires Valid(db)
    ensures Valid(After(db, HandleReport(db, op, now)))
  {
    match op
    case CreateReportOp(id, reporter, messageId, reason) =>
      CreateReportKeepsValid(db, id, reporter, messageId, reason, now);
    case ResolveReportOp(id, admin, action, note) => ResolveKeepsValid(db, id, admin, action, note, now);
  }

  lemma {:induction false} AuthKeepsValid(db: Db, op: AuthOp, now: int)
    requires Valid(db)
    ensures Valid(After(db, HandleAuth(db, op, now)))
  {
    match op
    case SignupOp(user, req, appId) => SignupKeepsValid(CURRENT_VERSIONS, db, user, req, appId, now);
    case ReagreeOp(user, a) => ReagreeKeepsValid(CURRENT_VERSIONS, db, user, a, now);
    case ReapplyOp(user, appId, stageName, bio, note) => ReapplyKeepsValid(db, user, appId, stageName, bio, note, now);
    case WithdrawOp(user, appId) => WithdrawKeepsValid(db, user, appId, now);
  }

  lemma {:induction false} SubscriptionsKeepValid(db: Db, op: SubscriptionOp, now: int)
    requires Valid(db)
    ensures Valid(After(db, HandleSubscription(db, op, now)))
  {
    match op
    case SubscribeOp(fan, idol) => SubscribeKeepsValid(db, fan, idol, now);
    case UnsubscribeOp(fan, idol) => UnsubscribeKeepsValid(db, fan, idol, now);
  }

  lemma {:induction false} ChatKeepsValid(db: Db, op: ChatOp, now: int)
    requires Valid(db)
    ensures Valid(After(db, HandleChat(db, op, now)))
  {
    match op
    case SendOp(sender, id, draft) => SendKeepsValid(db, sender, id, draft, now);
    case EditOp(actor, id, change) => EditKeepsValid(db, actor, id, change, now);
  }

  /** No single request commits a row a constraint forbids. */
  lemma {:induction false} StepKeepsValid(db: Db, r: Request)
    requires Valid(db)
    ensures Valid(Step(db, r))
  {
    match r.op
    case ToAdmin(op) => AdminKeepsValid(db, op, r.now);
    case ToReports(op) => ReportsKeepValid(db, op, r.now);
    case ToAuth(op) => AuthKeepsValid(db, op, r.now);
    case ToSubscriptions(op) => SubscriptionsKeepValid(db, op, r.now);
    case ToChat(op) => ChatKeepsValid(db, op, r.now);
  }

  /** Every constraint holds after any run of requests. */
  lemma {:induction false} RunKeepsValid(db: Db, rs: seq<Request>)
    requires Valid(db)
    ensures Valid(Run(db, rs))
  {
    if rs != [] {
      RunKeepsValid(db, rs[..|rs| - 1]);
      StepKeepsValid(Run(db, rs[..|rs| - 1]), rs[|rs| - 1]);
    }
  }

  /**
   An approval of a pending application by a registered admin commits exactly when the three
   writes leave a database without duplicate keys that meets every constraint; otherwise it
   is the conflict the code reports.
   */
  lemma {:induction false} ApproveCommitsIffConstraintsHold(db: Db, appId: Uuid, admin: Uuid, now: int)
    requires Valid(db) && appId in db.applications && db.applications[appId].status == Pending && admin in db.profiles
    ensures Approve(db, appId, admin, now).Ok? <==>
            db.applications[appId].userId !in db.idolProfiles && Valid(ApprovedDb(db, appId, admin, now))
    ensures Approve(db, appId, admin, now).Err? ==> Approve(db, appId, admin, now).error == Conflict
  {
    var a := db.applications[appId];
    ApproveKeepsValid(db, appId, admin, now);
    if a.userId !in db.idolProfiles && StageNameTaken(db, a.stageName) {
      var db' := ApprovedDb(db, appId, admin, now);
      var u :| u in db.idolProfiles && db.idolProfiles[u].stageName == a.stageName;
      assert db'.idolProfiles[u].stageName == db'.idolProfiles[a.userId].stageName && u != a.userId;
    }
  }
}
