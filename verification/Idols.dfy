/** Roles, idol profiles and applications agree in every reachable database. */
module Idols {
  import opened Basics
  import opened Schema
  import opened Services
  import opened Constraints

  /** The role column says idol exactly for the users with an idol profile. */
  ghost predicate RolesMatch(profiles: map<Uuid, Profile>, idols: map<Uuid, IdolProfile>) {
    forall u :: u in profiles ==> (profiles[u].role == Idol <==> u in idols)
  }

  /** Each idol profile comes from an approved application of the same user, under the name applied for. */
  ghost predicate ProfilesApproved(idols: map<Uuid, IdolProfile>, apps: map<Uuid, Application>) {
    forall u :: u in idols ==>
      idols[u].applicationId in apps && apps[idols[u].applicationId].userId == u &&
      apps[idols[u].applicationId].status == Approved && apps[idols[u].applicationId].stageName == idols[u].stageName
  }

  /** Each approved application is the one its user's idol profile points back to. */
  ghost predicate ApprovalsProfiled(idols: map<Uuid, IdolProfile>, apps: map<Uuid, Application>) {
    forall i :: i in apps && apps[i].status == Approved ==>
      apps[i].userId in idols && idols[apps[i].userId].applicationId == i
  }

  ghost predicate IdolsMatch(db: Db) {
    RolesMatch(db.profiles, db.idolProfiles) && ProfilesApproved(db.idolProfiles, db.applications) &&
    ApprovalsProfiled(db.idolProfiles, db.applications)
  }

  /** A database before any idol was made. */
  ghost predicate NoIdols(db: Db) {
    db.idolProfiles == map[] &&
    (forall u :: u in db.profiles ==> db.profiles[u].role != Idol) &&
    (forall i :: i in db.applications ==> db.applications[i].status != Approved)
  }

  // ---------------------------------------------------------------- one request

  lemma {:induction false} ApproveKeepsIdols(db: Db, appId: Uuid, admin: Uuid, now: int)
    requires IdolsMatch(db)
    ensures IdolsMatch(After(db, Approve(db, appId, admin, now)))
  {
    if Approve(db, appId, admin, now).Ok? {
      var a, db' := db.applications[appId], ApprovedDb(db, appId, admin, now);
      assert RolesMatch(db'.profiles, db'.idolProfiles);
      assert ProfilesApproved(db'.idolProfiles, db'.applications);
      assert ApprovalsProfiled(db'.idolProfiles, db'.applications);
    }
  }

  /** Writing an application that is not approved, over none or a pending one, disturbs nothing. */
  lemma {:induction false} OtherApplicationWrite(db: Db, i: Uuid, a: Application)
    requires IdolsMatch(db) && a.status != Approved
    requires i in db.applications ==> db.applications[i].status == Pending
    ensures IdolsMatch(db.(applications := db.applications[i := a]))
  {
  }

  /** Writing a profile without touching an existing role, or a new fan, disturbs nothing. */
  lemma {:induction false} OtherProfileWrite(db: Db, u: Uuid, p: Profile)
    requires IdolsMatch(db) && IdolProfilesValid(db.idolProfiles, db.profiles.Keys, db.applications.Keys)
    requires if u in db.profiles then p.role == db.profiles[u].role else p.role == Fan
    ensures IdolsMatch(db.(profiles := db.profiles[u := p]))
  {
  }

  lemma {:induction false} SignupKeepsIdols(
      cur: Versions, db: Db, user: Uuid, req: SignupRequest, appId: Uuid, now: int)
    requires IdolsMatch(db) && Valid(db)
    ensures IdolsMatch(After(db, Signup(cur, db, user, req, appId, now)))
  {
    if Signup(cur, db, user, req, appId, now).Ok? {
      var p := Profile(Fan, Active, req.displayName, None, None, None);
      OtherProfileWrite(db, user, p);
      if req.asIdol {
        OtherApplicationWrite(db.(profiles := db.profiles[user := p]), appId,
                              NewApplication(user, req.stageName.value, req.bio, req.note, now));
      }
    }
  }

  lemma {:induction false} SuspendKeepsIdols(db: Db, target: Uuid, admin: Uuid, reason: string, now: int)
    requires IdolsMatch(db) && Valid(db)
    ensures IdolsMatch(After(db, Suspend(db, target, admin, reason, now)))
  {
    if Suspend(db, target, admin, reason, now).Ok? {
      OtherProfileWrite(db, target, After(db, Suspend(db, target, admin, reason, now)).profiles[target]);
    }
  }

  lemma {:induction false} AdminKeepsIdols(db: Db, op: AdminOp, now: int)
    requires IdolsMatch(db) && Valid(db)
    ensures IdolsMatch(After(db, HandleAdmin(db, op, now)))
  {
    var o := HandleAdmin(db, op, now);
    if o.Ok? {
      match op
      case ApproveOp(appId, admin) => ApproveKeepsIdols(db, appId, admin, now);
      case RejectOp(appId, _, _) => OtherApplicationWrite(db, appId, o.db.applications[appId]);
      case SuspendOp(target, _, _) => OtherProfileWrite(db, target, o.db.profiles[target]);
      case UnsuspendOp(target) => OtherProfileWrite(db, target, o.db.profiles[target]);
    }
  }

  lemma {:induction false} AuthKeepsIdols(db: Db, op: AuthOp, now: int)
    requires IdolsMatch(db) && Valid(db)
    ensures IdolsMatch(After(db, HandleAuth(db, op, now)))
  {
    var o := HandleAuth(db, op, now);
    if o.Ok? {
      match op
      case SignupOp(user, req, appId) => SignupKeepsIdols(CURRENT_VERSIONS, db, user, req, appId, now);
      case ReagreeOp(_, _) =>
      case ReapplyOp(_, appId, _, _, _) => OtherApplicationWrite(db, appId, o.db.applications[appId]);
      case WithdrawOp(_, appId) => OtherApplicationWrite(db, appId, o.db.applications[appId]);
    }
  }

  /** Tables with the same users, applications and idols. */
  lemma {:induction false} IdolsMatchAlone(db: Db, d: Db)
    requires IdolsMatch(db)
    requires d.profiles == db.profiles && d.applications == db.applications && d.idolProfiles == db.idolProfiles
    ensures IdolsMatch(d)
  {
  }

  function SuspensionIn(db: Db, op: ReportOp, now: int): Outcome
    requires op.ResolveReportOp? && op.id in db.reports && db.reports[op.id].messageId in db.messages
  {
    Suspend(db, db.messages[db.reports[op.id].messageId].senderId, op.admin, SuspendReasonOf(op.note), now)
  }

  /** A suspending resolution writes, besides its report, what the suspension writes. */
  lemma {:induction false} ResolutionWrites(db: Db, op: ReportOp, now: int)
    requires op.ResolveReportOp? && op.action == SuspendedSender && HandleReport(db, op, now).Ok?
    ensures op.id in db.reports && db.reports[op.id].messageId in db.messages && SuspensionIn(db, op, now).Ok?
    ensures var d, e := HandleReport(db, op, now).db, SuspensionIn(db, op, now).db;
            d.profiles == e.profiles && d.applications == e.applications && d.idolProfiles == e.idolProfiles
  {
  }

  lemma {:induction false} SuspendingKeepsIdols(db: Db, op: ReportOp, now: int)
    requires IdolsMatch(db) && Valid(db)
    requires op.ResolveReportOp? && op.action == SuspendedSender && HandleReport(db, op, now).Ok?
    ensures IdolsMatch(HandleReport(db, op, now).db)
  {
    ResolutionWrites(db, op, now);
    SuspendKeepsIdols(db, db.messages[db.reports[op.id].messageId].senderId, op.admin, SuspendReasonOf(op.note), now);
    IdolsMatchAlone(SuspensionIn(db, op, now).db, HandleReport(db, op, now).db);
  }

  /** Other report requests write reports only. */
  lemma {:induction false} ReportWritesAlone(db: Db, op: ReportOp, now: int)
    requires !(op.ResolveReportOp? && op.action == SuspendedSender && HandleReport(db, op, now).Ok?)
    ensures var d := After(db, HandleReport(db, op, now));
            d.profiles == db.profiles && d.applications == db.applications && d.idolProfiles == db.idolProfiles
  {
  }

  lemma {:induction false} ReportKeepsIdols(db: Db, op: ReportOp, now: int)
    requires IdolsMatch(db) && Valid(db)
    ensures IdolsMatch(After(db, HandleReport(db, op, now)))
  {
    if op.ResolveReportOp? && op.action == SuspendedSender && HandleReport(db, op, now).Ok? {
      SuspendingKeepsIdols(db, op, now);
    } else {
      ReportWritesAlone(db, op, now);
      IdolsMatchAlone(db, After(db, HandleReport(db, op, now)));
    }
  }

  lemma {:induction false} SubscriptionKeepsIdols(db: Db, op: SubscriptionOp, now: int)
    requires IdolsMatch(db)
    ensures IdolsMatch(After(db, HandleSubscription(db, op, now)))
  {
    SubscriptionFrame(db, op, now);
    IdolsMatchAlone(db, After(db, HandleSubscription(db, op, now)));
  }

  lemma {:induction false} ChatKeepsIdols(db: Db, op: ChatOp, now: int)
    requires IdolsMatch(db)
    ensures IdolsMatch(After(db, HandleChat(db, op, now)))
  {
    ChatFrame(db, op, now);
    IdolsMatchAlone(db, After(db, HandleChat(db, op, now)));
  }

  lemma {:induction false} StepKeepsIdols(db: Db, r: Request)
    requires IdolsMatch(db) && Valid(db)
    ensures IdolsMatch(Step(db, r))
  {
    match r.op
    case ToAdmin(op) => AdminKeepsIdols(db, op, r.now);
    case ToReports(op) => ReportKeepsIdols(db, op, r.now);
    case ToAuth(op) => AuthKeepsIdols(db, op, r.now);
    case ToSubscriptions(op) => SubscriptionKeepsIdols(db, op, r.now);
    case ToChat(op) => ChatKeepsIdols(db, op, r.now);
  }

  // ---------------------------------------------------------------- whole runs

  lemma {:induction false} RunKeepsIdols(db: Db, rs: seq<Request>)
    requires IdolsMatch(db) && Valid(db)
    ensures IdolsMatch(Run(db, rs)) && Valid(Run(db, rs))
  {
    if rs != [] {
      RunKeepsIdols(db, rs[..|rs| - 1]);
      StepKeepsIdols(Run(db, rs[..|rs| - 1]), rs[|rs| - 1]);
      StepKeepsValid(Run(db, rs[..|rs| - 1]), rs[|rs| - 1]);
    }
  }

  /** The users with an idol profile, and the approved applications. */
  function IdolUsers(db: Db): set<Uuid> {
    db.idolProfiles.Keys
  }

  function ApprovedIds(db: Db): set<Uuid> {
    set i | i in db.applications && db.applications[i].status == Approved
  }

  /**
   In every database reached from one without idols: the role is idol exactly where an idol
   profile exists, stage names are unique, each user has at most one pending application,
   and sending an idol to its application and an approved application to its user are
   inverse maps between idol profiles and approved applications.
   */
  lemma {:induction false} ReachableIdols(db: Db, rs: seq<Request>)
    requires Valid(db) && NoIdols(db)
    ensures var d := Run(db, rs);
            IdolsMatch(d) &&
            (forall u, v | u in d.idolProfiles && v in d.idolProfiles &&
                           d.idolProfiles[u].stageName == d.idolProfiles[v].stageName :: u == v) &&
            (forall i, j | i in d.applications && j in d.applications &&
                           BothPending(d.applications[i], d.applications[j]) :: i == j) &&
            (forall u :: u in IdolUsers(d) ==> d.idolProfiles[u].applicationId in ApprovedIds(d)) &&
            (forall i :: i in ApprovedIds(d) ==> d.applications[i].userId in IdolUsers(d)) &&
            |IdolUsers(d)| == |ApprovedIds(d)|
  {
    RunKeepsIdols(db, rs);
    var d := Run(db, rs);
    InjectiveSize(IdolUsers(d), map u | u in d.idolProfiles :: d.idolProfiles[u].applicationId, ApprovedIds(d));
    InjectiveSize(ApprovedIds(d), map i | i in d.applications :: d.applications[i].userId, IdolUsers(d));
  }
}
