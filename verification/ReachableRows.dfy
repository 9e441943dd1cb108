/** The constraints of the migration, column by column, on every database a run can reach. */
module ReachableRows {
  import opened Basics
  import opened Schema
  import opened Services
  import opened Constraints

  predicate Registered(db: Db, u: Option<Uuid>) {
    u.Some? ==> u.value in db.profiles
  }

  lemma {:induction false} ProfileColumns(db: Db, u: Uuid)
    requires Valid(db) && u in db.profiles
    ensures db.profiles[u].suspendReason.Some? ==> db.profiles[u].suspendedAt.Some?
  {
    assert ProfileRowValid(db.profiles[u]);
  }

  /** Pending exactly while nobody has handled it; a rejection has a reason; users and handlers are registered. */
  lemma {:induction false} ApplicationColumns(db: Db, i: Uuid)
    requires Valid(db) && i in db.applications
    ensures var a := db.applications[i];
            (a.status == Pending <==> a.handledBy == None) && (a.status == Pending <==> a.handledAt == None) &&
            (a.status == Rejected ==> a.rejectionReason.Some?) && a.userId in db.profiles &&
            Registered(db, a.handledBy)
  {
    assert ApplicationRowValid(db.applications[i]) && ApplicationKeysValid(db.profiles.Keys, db.applications[i]);
  }

  lemma {:induction false} OnePending(db: Db, i: Uuid, j: Uuid)
    requires Valid(db) && i in db.applications && j in db.applications
    requires db.applications[i].userId == db.applications[j].userId
    requires db.applications[i].status == Pending && db.applications[j].status == Pending
    ensures i == j
  {
    assert BothPending(db.applications[i], db.applications[j]);
  }

  lemma {:induction false} IdolColumns(db: Db, u: Uuid, v: Uuid)
    requires Valid(db) && u in db.idolProfiles
    ensures u in db.profiles && db.idolProfiles[u].applicationId in db.applications
    ensures v in db.idolProfiles && db.idolProfiles[u].stageName == db.idolProfiles[v].stageName ==> u == v
  {
  }

  lemma {:induction false} SubscriptionColumns(db: Db, fan: Uuid, idol: Uuid)
    requires Valid(db) && Pair(fan, idol) in db.subscriptions
    ensures fan in db.profiles && idol in db.profiles && fan != idol
  {
    assert Pair(fan, idol).fan == fan;
  }

  /** Text without a file or a file; a broadcast answers nothing, a reply answers something; no dangling keys. */
  lemma {:induction false} MessageColumns(db: Db, i: Uuid)
    requires Valid(db) && i in db.messages
    ensures var m := db.messages[i];
            (if m.body.mediaType == TextMedia then m.body.content.Some? && m.body.mediaUrl == None
             else m.body.mediaUrl.Some?) &&
            (m.kind == FanToIdol ==> m.recipientId in {None, Some(m.idolId)} && m.parentId == None) &&
            (m.kind != FanToIdol ==> m.recipientId == None && (m.kind == IdolReply <==> m.parentId.Some?)) &&
            m.senderId in db.profiles && m.idolId in db.profiles && Registered(db, m.recipientId) &&
            (m.parentId.Some? ==> m.parentId.value in db.messages)
  {
    var m := db.messages[i];
    assert BodyValid(m.body) && KindValid(m) && MessageKeysValid(db.profiles.Keys, db.messages.Keys, m);
  }

  lemma {:induction false} OneOfClientId(db: Db, i: Uuid, j: Uuid)
    requires Valid(db) && i in db.messages && j in db.messages && db.messages[i].clientId.Some?
    requires db.messages[i].clientId == db.messages[j].clientId && db.messages[i].senderId == db.messages[j].senderId
    ensures i == j
  {
    assert SameSend(db.messages[i], db.messages[j]);
  }

  /** Handled exactly with an action, a handler and an instant; no dangling keys. */
  lemma {:induction false} ReportColumns(db: Db, i: Uuid)
    requires Valid(db) && i in db.reports
    ensures var r := db.reports[i];
            (r.status == Handled <==> r.action.Some?) && (r.status == Handled <==> r.handledBy.Some?) &&
            (r.status == Handled <==> r.handledAt.Some?) && r.reporterId in db.profiles &&
            r.messageId in db.messages && Registered(db, r.handledBy)
  {
    assert ReportRowValid(db.reports[i]) && ReportKeysValid(db.profiles.Keys, db.messages.Keys, db.reports[i]);
  }

  lemma {:induction false} OneReportEach(db: Db, i: Uuid, j: Uuid)
    requires Valid(db) && i in db.reports && j in db.reports
    requires db.reports[i].messageId == db.reports[j].messageId
    requires db.reports[i].reporterId == db.reports[j].reporterId
    ensures i == j
  {
    assert SameReport(db.reports[i], db.reports[j]);
  }

  lemma {:induction false} AgreementColumns(db: Db, k: AgreementKey)
    requires Valid(db) && k in db.agreements
    ensures k.userId in db.profiles
  {
  }

  /** What is promised of single rows, all tables together. */
  ghost predicate RowsObey(db: Db) {
    (forall u :: u in db.profiles && db.profiles[u].suspendReason.Some? ==> db.profiles[u].suspendedAt.Some?) &&
    (forall i :: i in db.applications ==>
       db.applications[i].userId in db.profiles && Registered(db, db.applications[i].handledBy) &&
       (db.applications[i].status == Pending <==> db.applications[i].handledBy == None) &&
       (db.applications[i].status == Rejected ==> db.applications[i].rejectionReason.Some?)) &&
    (forall i :: i in db.reports ==>
       db.reports[i].reporterId in db.profiles && db.reports[i].messageId in db.messages &&
       (db.reports[i].status == Handled <==> db.reports[i].action.Some?)) &&
    (forall p :: p in db.subscriptions ==> p.fan in db.profiles && p.idol in db.profiles && p.fan != p.idol)
  }

  /** After any run, served from tables that satisfy the constraints, the rows still obey them. */
  lemma {:induction false} RunObeys(db: Db, rs: seq<Request>)
    requires Valid(db)
    ensures RowsObey(Run(db, rs))
  {
    var d := Run(db, rs);
    RunKeepsValid(db, rs);
    forall u | u in d.profiles ensures d.profiles[u].suspendReason.Some? ==> d.profiles[u].suspendedAt.Some? {
      ProfileColumns(d, u);
    }
    forall i | i in d.applications
      ensures d.applications[i].userId in d.profiles && Registered(d, d.applications[i].handledBy)
      ensures d.applications[i].status == Pending <==> d.applications[i].handledBy == None
      ensures d.applications[i].status == Rejected ==> d.applications[i].rejectionReason.Some?
    {
      ApplicationColumns(d, i);
    }
    forall i | i in d.reports
      ensures d.reports[i].reporterId in d.profiles && d.reports[i].messageId in d.messages
      ensures d.reports[i].status == Handled <==> d.reports[i].action.Some?
    {
      ReportColumns(d, i);
    }
  }
}
