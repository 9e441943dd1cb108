/** Accounting of suspensions over serial runs, direct and through report resolution. */
module Suspensions {
  import opened Basics
  import opened Schema
  import opened Services
  import opened Constraints

  /** A profile whose three suspension columns agree. */
  predicate RowConsistent(p: Profile) {
    (p.status == Suspended <==> p.suspendedAt.Some?) && (p.status == Suspended <==> p.suspendReason.Some?)
  }

  ghost predicate AllConsistent(db: Db) {
    forall u :: u in db.profiles ==> RowConsistent(db.profiles[u])
  }

  function Suspended01(db: Db, u: Uuid): int {
    if u in db.profiles && db.profiles[u].status == Suspended then 1 else 0
  }

  /** The report is there and its message was sent by u. */
  predicate IsAbout(db: Db, id: Uuid, u: Uuid) {
    id in db.reports && db.reports[id].messageId in db.messages &&
    db.messages[db.reports[id].messageId].senderId == u
  }

  /** The request resolves a report on a message of u with the given action, and succeeds. */
  predicate Resolves(db: Db, r: Request, u: Uuid, action: ReportAction) {
    r.op.ToReports? && r.op.report.ResolveReportOp? && r.op.report.action == action && Handle(db, r).Ok? &&
    IsAbout(db, r.op.report.id, u)
  }

  predicate SuspendsDirectly(db: Db, r: Request, u: Uuid) {
    r.op.ToAdmin? && r.op.admin.SuspendOp? && r.op.admin.target == u && Handle(db, r).Ok?
  }

  predicate Unsuspends(db: Db, r: Request, u: Uuid) {
    r.op.ToAdmin? && r.op.admin.UnsuspendOp? && r.op.admin.target == u && Handle(db, r).Ok?
  }

  /** How many requests of a run satisfy a condition in the database they meet. */
  function Count(db: Db, rs: seq<Request>, p: (Db, Request) -> bool): nat {
    if rs == [] then 0
    else
      var front, last := rs[..|rs| - 1], rs[|rs| - 1];
      Count(db, front, p) + if p(Run(db, front), last) then 1 else 0
  }

  function DirectCount(db: Db, rs: seq<Request>, u: Uuid): nat {
    Count(db, rs, (d, r) => SuspendsDirectly(d, r, u))
  }

  function ResolveCount(db: Db, rs: seq<Request>, u: Uuid, action: ReportAction): nat {
    Count(db, rs, (d, r) => Resolves(d, r, u, action))
  }

  function UnsuspendCount(db: Db, rs: seq<Request>, u: Uuid): nat {
    Count(db, rs, (d, r) => Unsuspends(d, r, u))
  }

  // ---------------------------------------------------------------- one request

  lemma {:induction false} AdminCounts(db: Db, op: AdminOp, now: int, u: Uuid)
    ensures var o := HandleAdmin(db, op, now);
            Suspended01(After(db, o), u) == Suspended01(db, u) +
            (if op.SuspendOp? && op.target == u && o.Ok? then 1 else 0) -
            (if op.UnsuspendOp? && op.target == u && o.Ok? then 1 else 0)
  {
  }

  lemma {:induction false} ResolveCounts(db: Db, op: ReportOp, now: int, u: Uuid)
    ensures var o := HandleReport(db, op, now);
            Suspended01(After(db, o), u) == Suspended01(db, u) +
            if op.ResolveReportOp? && op.action == SuspendedSender && o.Ok? && IsAbout(db, op.id, u) then 1 else 0
  {
    if op.CreateReportOp? {
      ReportFrame(db, op, now);
    }
  }

  lemma {:induction false} AuthCounts(db: Db, op: AuthOp, now: int, u: Uuid)
    ensures Suspended01(After(db, HandleAuth(db, op, now)), u) == Suspended01(db, u)
  {
    AuthFrame(db, op, now);
  }

  lemma {:induction false} SubscriptionCounts(db: Db, op: SubscriptionOp, now: int, u: Uuid)
    ensures Suspended01(After(db, HandleSubscription(db, op, now)), u) == Suspended01(db, u)
  {
    SubscriptionFrame(db, op, now);
  }

  lemma {:induction false} ChatCounts(db: Db, op: ChatOp, now: int, u: Uuid)
    ensures Suspended01(After(db, HandleChat(db, op, now)), u) == Suspended01(db, u)
  {
    ChatFrame(db, op, now);
  }

  lemma {:induction false} StepCounts(db: Db, r: Request, u: Uuid)
    ensures Suspended01(Step(db, r), u) ==
            Suspended01(db, u) + (if SuspendsDirectly(db, r, u) || Resolves(db, r, u, SuspendedSender) then 1 else 0) -
            (if Unsuspends(db, r, u) then 1 else 0)
  {
    match r.op
    case ToAdmin(op) => AdminCounts(db, op, r.now, u);
    case ToReports(op) => ResolveCounts(db, op, r.now, u);
    case ToAuth(op) => AuthCounts(db, op, r.now, u);
    case ToSubscriptions(op) => SubscriptionCounts(db, op, r.now, u);
    case ToChat(op) => ChatCounts(db, op, r.now, u);
  }

  lemma {:induction false} AdminKeepsConsistent(db: Db, op: AdminOp, now: int)
    requires AllConsistent(db)
    ensures AllConsistent(After(db, HandleAdmin(db, op, now)))
  {
  }

  lemma {:induction false} ReportKeepsConsistent(db: Db, op: ReportOp, now: int)
    requires AllConsistent(db)
    ensures AllConsistent(After(db, HandleReport(db, op, now)))
  {
    ReportFrame(db, op, now);
  }

  lemma {:induction false} AuthKeepsConsistent(db: Db, op: AuthOp, now: int)
    requires AllConsistent(db)
    ensures AllConsistent(After(db, HandleAuth(db, op, now)))
  {
    AuthFrame(db, op, now);
  }

  lemma {:induction false} SameProfilesConsistent(db: Db, d: Db)
    requires AllConsistent(db) && d.profiles == db.profiles
    ensures AllConsistent(d)
  {
  }

  lemma {:induction false} StepKeepsConsistent(db: Db, r: Request)
    requires AllConsistent(db)
    ensures AllConsistent(Step(db, r))
  {
    match r.op
    case ToAdmin(op) => AdminKeepsConsistent(db, op, r.now);
    case ToReports(op) => ReportKeepsConsistent(db, op, r.now);
    case ToAuth(op) => AuthKeepsConsistent(db, op, r.now);
    case ToSubscriptions(op) =>
      SubscriptionFrame(db, op, r.now);
      SameProfilesConsistent(db, After(db, HandleSubscription(db, op, r.now)));
    case ToChat(op) =>
      ChatFrame(db, op, r.now);
      SameProfilesConsistent(db, After(db, HandleChat(db, op, r.now)));
  }

  /** suspended_at and suspend_reason are set exactly on suspended users, after any run. */
  lemma {:induction false} SuspensionColumnsAgree(db: Db, rs: seq<Request>)
    requires AllConsistent(db)
    ensures AllConsistent(Run(db, rs))
    ensures forall u :: u in Run(db, rs).profiles ==>
              var p := Run(db, rs).profiles[u];
              (p.status == Suspended <==> p.suspendedAt != None) && (p.status == Suspended <==> p.suspendReason != None)
  {
    if rs != [] {
      SuspensionColumnsAgree(db, rs[..|rs| - 1]);
      StepKeepsConsistent(Run(db, rs[..|rs| - 1]), rs[|rs| - 1]);
    }
  }

  /** Suspensions minus unsuspensions is the change in whether the user is suspended: never above one. */
  lemma {:induction false} SuspensionsBalance(db: Db, rs: seq<Request>, u: Uuid)
    ensures Suspended01(db, u) + DirectCount(db, rs, u) + ResolveCount(db, rs, u, SuspendedSender) -
            UnsuspendCount(db, rs, u) ==
            Suspended01(Run(db, rs), u)
  {
    if rs != [] {
      var front, last := rs[..|rs| - 1], rs[|rs| - 1];
      SuspensionsBalance(db, front, u);
      StepCounts(Run(db, front), last, u);
    }
  }

  // ---------------------------------------------------------------- resolved reports

  /** Reports on messages of u that were resolved with an action. */
  function HandledReports(db: Db, u: Uuid, action: ReportAction): set<Uuid> {
    set i | i in db.reports && db.reports[i].action == Some(action) &&
            db.reports[i].messageId in db.messages && db.messages[db.reports[i].messageId].senderId == u
  }

  /** get_warned_count_for_user. */
  function GetWarnedCount(db: Db, u: Uuid): nat {
    |HandledReports(db, u, Warned)|
  }

  /** Messages are never removed and never change sender. */
  ghost predicate SameSenders(db: Db, d: Db) {
    forall i :: i in db.messages ==> i in d.messages && d.messages[i].senderId == db.messages[i].senderId
  }

  lemma {:induction false} ChatKeepsSenders(db: Db, op: ChatOp, now: int)
    ensures SameSenders(db, After(db, HandleChat(db, op, now)))
  {
  }

  lemma {:induction false} MessagesKept(db: Db, r: Request)
    requires !r.op.ToChat?
    ensures Step(db, r).messages == db.messages
  {
    match r.op
    case ToAdmin(op) => AdminFrame(db, op, r.now);
    case ToReports(op) => ReportFrame(db, op, r.now);
    case ToAuth(op) => AuthFrame(db, op, r.now);
    case ToSubscriptions(op) => SubscriptionFrame(db, op, r.now);
  }

  lemma {:induction false} SendersFixed(db: Db, r: Request)
    ensures SameSenders(db, Step(db, r))
  {
    if r.op.ToChat? {
      ChatKeepsSenders(db, r.op.chat, r.now);
    } else {
      MessagesKept(db, r);
    }
  }

  lemma {:induction false} ReportsFixed(db: Db, r: Request)
    requires !r.op.ToReports?
    ensures Step(db, r).reports == db.reports
  {
    match r.op
    case ToAdmin(op) => AdminFrame(db, op, r.now);
    case ToAuth(op) => AuthFrame(db, op, r.now);
    case ToSubscriptions(op) => SubscriptionFrame(db, op, r.now);
    case ToChat(op) => ChatFrame(db, op, r.now);
  }

  /** Reports stay as they are; new ones are not handled. */
  ghost predicate OnlyFiled(db: Db, d: Db) {
    (forall i :: i in d.reports ==> i in db.reports || d.reports[i].action.None?) &&
    (forall i :: i in db.reports ==> i in d.reports && d.reports[i] == db.reports[i])
  }

  lemma {:induction false} SameHandledReports(db: Db, d: Db, u: Uuid, action: ReportAction)
    requires Valid(db) && SameSenders(db, d) && OnlyFiled(db, d)
    ensures HandledReports(d, u, action) == HandledReports(db, u, action)
  {
    forall i ensures i in HandledReports(d, u, action) <==> i in HandledReports(db, u, action) {
      if i in db.reports {
        assert db.reports[i].messageId in db.messages;
      }
    }
  }

  lemma {:induction false} FilingOnly(db: Db, op: ReportOp, now: int)
    requires op.CreateReportOp? || HandleReport(db, op, now).Err?
    ensures OnlyFiled(db, After(db, HandleReport(db, op, now)))
  {
  }

  lemma {:induction false} NothingResolved(db: Db, r: Request)
    requires !(r.op.ToReports? && r.op.report.ResolveReportOp? && Handle(db, r).Ok?)
    ensures OnlyFiled(db, Step(db, r))
  {
    if r.op.ToReports? {
      FilingOnly(db, r.op.report, r.now);
    } else {
      ReportsFixed(db, r);
    }
  }

  lemma {:induction false} StepCountsReports(db: Db, r: Request, u: Uuid, action: ReportAction)
    requires Valid(db)
    ensures |HandledReports(Step(db, r), u, action)| ==
            |HandledReports(db, u, action)| + if Resolves(db, r, u, action) then 1 else 0
  {
    if r.op.ToReports? && r.op.report.ResolveReportOp? && Handle(db, r).Ok? {
      ResolvedOne(db, r.op.report, r.now, u, action);
    } else {
      SendersFixed(db, r);
      NothingResolved(db, r);
      SameHandledReports(db, Step(db, r), u, action);
    }
  }

  lemma {:induction false} ResolvedOne(db: Db, op: ReportOp, now: int, u: Uuid, action: ReportAction)
    requires Valid(db) && op.ResolveReportOp? && HandleReport(db, op, now).Ok?
    ensures |HandledReports(HandleReport(db, op, now).db, u, action)| ==
            |HandledReports(db, u, action)| + if op.action == action && IsAbout(db, op.id, u) then 1 else 0
  {
    ReportFrame(db, op, now);
    OneMoreHandled(db, HandleReport(db, op, now).db, op.id,
                   HandledReport(db.reports[op.id], op.admin, op.action, op.note, now), u, action);
  }

  lemma {:induction false} OneMoreHandled(db: Db, db': Db, id: Uuid, r: Report, u: Uuid, action: ReportAction)
    requires db'.messages == db.messages && id in db.reports && db'.reports == db.reports[id := r]
    requires db.reports[id].action.None? && r.messageId == db.reports[id].messageId
    ensures |HandledReports(db', u, action)| ==
            |HandledReports(db, u, action)| + if r.action == Some(action) && IsAbout(db, id, u) then 1 else 0
  {
    var before, after := HandledReports(db, u, action), HandledReports(db', u, action);
    assert id !in before && (id in after <==> r.action == Some(action) && IsAbout(db, id, u));
    forall i | i != id ensures i in after <==> i in before {
      assert i in db'.reports <==> i in db.reports;
    }
    if id in after {
      SetGrows(before, after, id);
    } else {
      assert after == before;
    }
  }

  /** The reports on a user's messages under an action are one for each successful resolution with it. */
  lemma {:induction false} ReportsCounted(db: Db, rs: seq<Request>, u: Uuid, action: ReportAction)
    requires Valid(db)
    ensures |HandledReports(Run(db, rs), u, action)| ==
            |HandledReports(db, u, action)| + ResolveCount(db, rs, u, action)
  {
    if rs != [] {
      var front, last := rs[..|rs| - 1], rs[|rs| - 1];
      ReportsCounted(db, front, u, action);
      RunKeepsValid(db, front);
      StepCountsReports(Run(db, front), last, u, action);
    }
  }

  /** The warnings on record are the successful resolutions as warned. */
  lemma {:induction false} WarnedCountTellsResolutions(db: Db, rs: seq<Request>, u: Uuid)
    requires Valid(db) && db.reports == map[]
    ensures GetWarnedCount(Run(db, rs), u) == ResolveCount(db, rs, u, Warned)
  {
    ReportsCounted(db, rs, u, Warned);
  }

  /** At most one more report than unsuspensions is resolved by suspending the same user. */
  lemma {:induction false} FewSuspendedReports(db: Db, rs: seq<Request>, u: Uuid)
    requires Valid(db) && HandledReports(db, u, SuspendedSender) == {}
    ensures |HandledReports(Run(db, rs), u, SuspendedSender)| <= UnsuspendCount(db, rs, u) + 1
  {
    ReportsCounted(db, rs, u, SuspendedSender);
    SuspensionsBalance(db, rs, u);
  }

  /**
   A resolution whose nested suspension fails (the sender is the admin, or is suspended
   already) fails with that error, and the report stays pending.
   */
  lemma {:induction false} FailedSuspensionLeavesReport(db: Db, id: Uuid, admin: Uuid, note: Option<string>, now: int)
    requires Valid(db) && id in db.reports && db.reports[id].status == Waiting
    ensures var sender := db.messages[db.reports[id].messageId].senderId;
            var o := ResolveReport(db, id, admin, SuspendedSender, note, now);
            (o.Ok? <==> admin in db.profiles && sender != admin && db.profiles[sender].status != Suspended) &&
            (o.Err? ==> After(db, o).reports[id].status == Waiting && After(db, o) == db) &&
            (o.Ok? ==> After(db, o).profiles[sender].status == Suspended &&
                       After(db, o).profiles[sender].suspendReason.Some? &&
                       After(db, o).profiles[sender].suspendReason.value != "" &&
                       After(db, o).reports[id].status == Handled)
  {
  }
}
