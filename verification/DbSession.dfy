/** A database session: the tables as one transaction sees them, committed or rolled back as a whole (core/db.py). */
module DbSession {
  import opened Basics
  import opened Schema
  import opened Services

  datatype Result<+T> = Returned(value: T) | Raised(error: Error)

  class Session {
    var profiles: map<Uuid, Profile>
    var applications: map<Uuid, Application>
    var idolProfiles: map<Uuid, IdolProfile>
    var subscriptions: map<Pair, Subscription>
    var messages: map<Uuid, Message>
    var reports: map<Uuid, Report>
    var agreements: map<AgreementKey, int>
    var committed: Db

    /** The tables as this transaction sees them. */
    function Tables(): Db
      reads this
    {
      Db(profiles, applications, idolProfiles, subscriptions, messages, reports, agreements)
    }

    /** No uncommitted write. */
    ghost predicate Clean()
      reads this
    {
      Tables() == committed && Valid(committed)
    }

    constructor (db: Db)
      requires Valid(db)
      ensures Clean() && committed == db
    {
      profiles, applications, idolProfiles := db.profiles, db.applications, db.idolProfiles;
      subscriptions, messages, reports, agreements := db.subscriptions, db.messages, db.reports, db.agreements;
      committed := db;
    }

    method Commit()
      modifies this
      ensures Tables() == committed == old(Tables())
    {
      committed := Tables();
    }

    method Rollback()
      modifies this
      ensures Tables() == committed == old(committed)
    {
      profiles, applications, idolProfiles := committed.profiles, committed.applications, committed.idolProfiles;
      subscriptions, messages := committed.subscriptions, committed.messages;
      reports, agreements := committed.reports, committed.agreements;
    }

    /** The conditional update of a pending application; None is a foreign key violation. */
    method UpdatePending(appId: Uuid, status: ApplicationStatus, reason: Option<string>, admin: Uuid, now: int)
      returns (rowcount: Option<nat>)
      modifies this`applications
      ensures var hit := appId in old(applications) && old(applications)[appId].status == Pending;
              if !hit then rowcount == Some(0) && applications == old(applications)
              else if admin !in profiles then rowcount == None && applications == old(applications)
              else rowcount == Some(1) &&
                   var a := Decided(old(applications)[appId], status, admin, now);
                   applications == old(applications)[appId := if reason.Some? then a.(rejectionReason := reason) else a]
    {
      if appId !in applications || applications[appId].status != Pending { return Some(0); }
      if admin !in profiles { return None; }
      var a := Decided(applications[appId], status, admin, now);
      applications := applications[appId := if reason.Some? then a.(rejectionReason := reason) else a];
      return Some(1);
    }
  }
}
