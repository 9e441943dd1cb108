/** Who counts as an active idol, on idol pages, in the list of idols and for subscribing. */
module ActiveIdols {
  import opened Basics
  import opened Schema
  import opened Services
  import opened Answers
  import opened Paging
  import opened Subscriptions

  /** The page exists exactly for active idols, and shows their profile. */
  lemma {:induction false} PageIffActive(db: Db, idol: Uuid, viewer: Uuid)
    ensures GetIdolDetail(db, idol, viewer).Some? <==> ActiveIdol(db, idol)
    ensures ActiveIdol(db, idol) ==> GetIdolDetail(db, idol, viewer).value.idol == db.idolProfiles[idol]
  {
  }

  /** A list of idols shows exactly the active ones with a matching name. */
  lemma {:induction false} ListedIffActive(db: Db, matches: string -> bool, rows: seq<Uuid>, u: Uuid)
    requires IsIdolList(db, matches, rows)
    ensures u in rows <==> ActiveIdol(db, u) && matches(db.idolProfiles[u].stageName)
  {
    assert u in rows <==> u in Matching(db, matches);
  }

  /** The idol has no page, is in no list, and nobody can subscribe. */
  ghost predicate OutOfSight(db: Db, idol: Uuid) {
    (forall viewer :: GetIdolDetail(db, idol, viewer) == None) &&
    (forall matches, rows :: IsIdolList(db, matches, rows) ==> idol !in rows) &&
    (forall fan, now :: fan != idol ==> Subscribe(db, fan, idol, now) == Err(NotFound))
  }

  /** Page, lists under a matching name, and subscriptions of registered users are there. */
  ghost predicate InSight(db: Db, idol: Uuid) {
    idol in db.idolProfiles && (forall viewer :: GetIdolDetail(db, idol, viewer).Some?) &&
    (forall matches, rows :: IsIdolList(db, matches, rows) ==>
       (idol in rows <==> matches(db.idolProfiles[idol].stageName))) &&
    (forall fan, now :: fan != idol && fan in db.profiles ==> Subscribe(db, fan, idol, now).Ok?)
  }

  /** A user is in sight exactly as an active idol, and out of sight otherwise. */
  lemma {:induction false} SightIffActive(db: Db, u: Uuid)
    ensures ActiveIdol(db, u) ==> InSight(db, u)
    ensures !ActiveIdol(db, u) ==> OutOfSight(db, u)
  {
    forall viewer ensures GetIdolDetail(db, u, viewer).Some? <==> ActiveIdol(db, u) {
      PageIffActive(db, u, viewer);
    }
    forall matches, rows | IsIdolList(db, matches, rows)
      ensures u in rows <==> ActiveIdol(db, u) && matches(db.idolProfiles[u].stageName) {
      ListedIffActive(db, matches, rows, u);
    }
    forall fan, now | fan != u
      ensures Subscribe(db, fan, u, now) == Err(NotFound) <==> !ActiveIdol(db, u)
      ensures fan in db.profiles && ActiveIdol(db, u) ==> Subscribe(db, fan, u, now).Ok? {
      SubscribeAnswers(db, fan, u, now);
    }
  }

  /** The request suspends the user, directly or by resolving a report on a message of theirs. */
  predicate Bans(db: Db, op: Op, user: Uuid) {
    match op
    case ToAdmin(SuspendOp(target, _, _)) => target == user
    case ToReports(ResolveReportOp(id, _, SuspendedSender, _)) => SenderOf(db, id) == Some(user)
    case _ => false
  }

  predicate Banned(db: Db, user: Uuid) {
    user in db.profiles && db.profiles[user].status == Suspended
  }

  lemma {:induction false} SuspendBans(db: Db, target: Uuid, admin: Uuid, reason: string, now: int)
    requires Suspend(db, target, admin, reason, now).Ok?
    ensures Banned(Suspend(db, target, admin, reason, now).db, target)
  {
  }

  lemma {:induction false} ResolutionBans(db: Db, id: Uuid, admin: Uuid, note: Option<string>, now: int, user: Uuid)
    requires ResolveReport(db, id, admin, SuspendedSender, note, now).Ok? && SenderOf(db, id) == Some(user)
    ensures Banned(ResolveReport(db, id, admin, SuspendedSender, note, now).db, user)
  {
    SuspendBans(db, user, admin, SuspendReasonOf(note), now);
  }

  lemma {:induction false} BannedNow(db: Db, r: Request, user: Uuid)
    requires Bans(db, r.op, user) && Handle(db, r).Ok?
    ensures Banned(Step(db, r), user)
  {
    if r.op.ToAdmin? {
      SuspendBans(db, user, r.op.admin.admin, r.op.admin.reason, r.now);
    } else {
      ResolutionBans(db, r.op.report.id, r.op.report.admin, r.op.report.note, r.now, user);
    }
  }

  /** Right after a successful suspension, of either kind, an idol is out of sight. */
  lemma {:induction false} SuspensionHides(db: Db, r: Request, user: Uuid)
    requires Bans(db, r.op, user) && Handle(db, r).Ok?
    ensures OutOfSight(Step(db, r), user)
  {
    BannedNow(db, r, user);
    SightIffActive(Step(db, r), user);
  }

  /** And right after the suspension is lifted, in sight again. */
  lemma {:induction false} UnsuspensionShows(db: Db, user: Uuid, now: int)
    requires user in db.profiles && db.profiles[user].status == Suspended
    requires user in db.idolProfiles && db.profiles[user].role == Idol && db.profiles[user].deletedAt == None
    ensures InSight(Step(db, Request(now, ToAdmin(UnsuspendOp(user)))), user)
  {
    SightIffActive(Step(db, Request(now, ToAdmin(UnsuspendOp(user)))), user);
  }

  /** The report queue holds exactly the reports nobody has handled. */
  lemma {:induction false} QueueHoldsUnhandled(db: Db, rows: seq<Uuid>, id: Uuid)
    requires IsReportQueue(db, rows)
    ensures id in rows <==> Unhandled(db, id)
  {
    assert id in rows <==> id in WaitingReports(db);
  }

  /** Right after it is filed a report is in the queue, and right after it is resolved it is not. */
  lemma {:induction false} QueueMoves(db: Db, op: ReportOp, now: int, rows: seq<Uuid>)
    requires HandleReport(db, op, now).Ok? && IsReportQueue(HandleReport(db, op, now).db, rows)
    ensures op.id in rows <==> op.CreateReportOp?
  {
    QueueHoldsUnhandled(HandleReport(db, op, now).db, rows, op.id);
  }

  /** A page says which page it is. */
  lemma {:induction false} PageSaysWhich<T>(rows: seq<T>, page: nat, pageSize: nat)
    requires page >= 1 && pageSize >= 1
    ensures Page(rows, page, pageSize).page == page && Page(rows, page, pageSize).pageSize == pageSize
  {
  }
}
