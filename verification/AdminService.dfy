/** backend/app/features/admin/service.py, statement by statement. */
module AdminService {
  import opened Basics
  import opened Schema
  import opened Services
  import opened DbSession

  method ApproveIdolApplication(session: Session, applicationId: Uuid, adminUserId: Uuid, now: int)
    returns (r: Result<Application>)
    requires session.Clean()
    modifies session
    ensures session.committed == old(session.committed)
    ensures var o := Approve(old(session.Tables()), applicationId, adminUserId, now);
            match o
            case Ok(db) => session.Tables() == db && r == Returned(db.applications[applicationId])
            case Err(e) => r == Raised(e) && session.Tables() == old(session.Tables())
  {
    if applicationId !in session.applications { return Raised(NotFound); }
    var application := session.applications[applicationId];
    if application.status != Pending { return Raised(Conflict); }

    // 1. The conditional UPDATE.
    var rowcount := session.UpdatePending(applicationId, Approved, None, adminUserId, now);
    if rowcount.None? { return Raised(Integrity); }
    if rowcount == Some(0) { return Raised(Conflict); }

    // 2. The idol profile waits for the flush.
    var idolProfile := IdolProfile(applicationId, application.stageName, application.bio, now);

    // 3. The role UPDATE.
    if application.userId in session.profiles {
      var profile := session.profiles[application.userId];
      session.profiles := session.profiles[application.userId := profile.(role := Idol)];
    }

    if application.userId in session.idolProfiles || StageNameTaken(session.Tables(), idolProfile.stageName) {
      session.Rollback();
      return Raised(Conflict);
    }
    session.idolProfiles := session.idolProfiles[application.userId := idolProfile];
    return Returned(session.applications[applicationId]);
  }

  method RejectIdolApplication(
      session: Session, applicationId: Uuid, adminUserId: Uuid, rejectionReason: string, now: int)
    returns (r: Result<Application>)
    requires session.Clean()
    modifies session
    ensures session.committed == old(session.committed)
    ensures match Reject(old(session.Tables()), applicationId, adminUserId, rejectionReason, now)
            case Ok(db) => session.Tables() == db && r == Returned(db.applications[applicationId])
            case Err(e) => r == Raised(e) && session.Tables() == old(session.Tables())
  {
    if applicationId !in session.applications { return Raised(NotFound); }
    if session.applications[applicationId].status != Pending { return Raised(Conflict); }
    var rowcount := session.UpdatePending(applicationId, Rejected, Some(rejectionReason), adminUserId, now);
    if rowcount.None? { return Raised(Integrity); }
    if rowcount == Some(0) { return Raised(Conflict); }
    return Returned(session.applications[applicationId]);
  }

  method SuspendUser(session: Session, targetUserId: Uuid, adminUserId: Uuid, suspendReason: string, now: int)
    returns (r: Result<Profile>)
    modifies session`profiles
    ensures match Suspend(old(session.Tables()), targetUserId, adminUserId, suspendReason, now)
            case Ok(db) => session.Tables() == db && r == Returned(db.profiles[targetUserId])
            case Err(e) => r == Raised(e) && session.Tables() == old(session.Tables())
  {
    if targetUserId == adminUserId { return Raised(Validation); }
    if targetUserId !in session.profiles { return Raised(NotFound); }
    var profile := session.profiles[targetUserId];
    if profile.status == Suspended { return Raised(Validation); }
    profile := profile.(status := Suspended, suspendedAt := Some(now), suspendReason := Some(suspendReason));
    session.profiles := session.profiles[targetUserId := profile];
    return Returned(profile);
  }

  method UnsuspendUser(session: Session, targetUserId: Uuid) returns (r: Result<Profile>)
    modifies session`profiles
    ensures match Unsuspend(old(session.Tables()), targetUserId)
            case Ok(db) => session.Tables() == db && r == Returned(db.profiles[targetUserId])
            case Err(e) => r == Raised(e) && session.Tables() == old(session.Tables())
  {
    if targetUserId !in session.profiles { return Raised(NotFound); }
    var profile := session.profiles[targetUserId];
    if profile.status != Suspended { return Raised(Validation); }
    profile := profile.(status := Active, suspendedAt := None, suspendReason := None);
    session.profiles := session.profiles[targetUserId := profile];
    return Returned(profile);
  }
}
