/** backend/app/features/auth/service.py: signup and re-agreement, statement by statement. */
module AuthService {
  import opened Basics
  import opened Schema
  import opened Services
  import opened DbSession

  /** _validate_agreements; false is its ValidationError. */
  method ValidateAgreements(cur: Versions, a: Agreements) returns (ok: bool)
    ensures ok == ValidAgreements(cur, a)
  {
    if !a.tos.agreed || !a.privacy.agreed { return false; }
    if a.tos.version != cur.tos { return false; }
    if a.privacy.version != cur.privacy { return false; }
    if a.marketing.Some? && a.marketing.value.version != cur.marketing { return false; }
    return true;
  }

  /** The agreement rows added one after the other, before the flush. */
  method CollectRows(user: Uuid, a: Agreements) returns (added: seq<AgreementKey>)
    ensures (set k | k in added) == NewRows(user, a)
  {
    added := [];
    for i := 0 to 2
      invariant added == [AgreementKey(user, Tos, a.tos.version), AgreementKey(user, Privacy, a.privacy.version)][..i]
    {
      var (terms, consent) := if i == 0 then (Tos, a.tos) else (Privacy, a.privacy);
      added := added + [AgreementKey(user, terms, consent.version)];
    }
    assert added == [AgreementKey(user, Tos, a.tos.version), AgreementKey(user, Privacy, a.privacy.version)];
    assert (set k | k in added) ==
      {AgreementKey(user, Tos, a.tos.version), AgreementKey(user, Privacy, a.privacy.version)};
    if a.marketing.Some? && a.marketing.value.agreed {
      ghost var required := added;
      added := added + [AgreementKey(user, Marketing, a.marketing.value.version)];
      assert (set k | k in added) ==
        (set k | k in required) + {AgreementKey(user, Marketing, a.marketing.value.version)};
    }
  }

  /** INSERT of the collected rows; false, and nothing added, when one exists already. */
  method FlushAgreements(session: Session, added: seq<AgreementKey>, now: int) returns (ok: bool)
    modifies session`agreements
    ensures ok <==> (set k | k in added) !! old(session.agreements).Keys
    ensures session.agreements == if ok then WithRows(old(session.agreements), (set k | k in added), now)
                                  else old(session.agreements)
  {
    if exists k :: k in added && k in session.agreements { return false; }
    session.agreements := WithRows(session.agreements, (set k | k in added), now);
    return true;
  }

  method CreateSignup(session: Session, cur: Versions, userId: Uuid, req: SignupRequest, newAppId: Uuid, now: int)
    returns (r: Result<(Profile, Option<Application>)>)
    requires session.Clean()
    modifies session
    ensures session.committed == old(session.committed)
    ensures match Signup(cur, old(session.Tables()), userId, req, newAppId, now)
            case Ok(db) =>
              session.Tables() == db &&
              r == Returned((db.profiles[userId], if req.asIdol then Some(db.applications[newAppId]) else None))
            case Err(e) => r == Raised(e)
  {
    if userId in session.profiles { return Raised(Conflict); }
    if req.asIdol && (req.stageName.None? || req.stageName.value == "") { return Raised(Validation); }
    var valid := ValidateAgreements(cur, req.agreements);
    if !valid { return Raised(Validation); }

    var profile := Profile(Fan, Active, req.displayName, None, None, None);
    session.profiles := session.profiles[userId := profile];

    var application: Option<Application> := None;
    if req.asIdol {
      application := Some(NewApplication(userId, req.stageName.value, req.bio, req.note, now));
    }
    var added := CollectRows(userId, req.agreements);

    // The flush: the application, then the agreements.
    if application.Some? {
      if newAppId in session.applications { return Raised(Integrity); }
      session.applications := session.applications[newAppId := application.value];
    }
    var flushed := FlushAgreements(session, added, now);
    if !flushed { return Raised(Integrity); }
    return Returned((profile, application));
  }

  method AgreeAgain(session: Session, cur: Versions, userId: Uuid, a: Agreements, now: int) returns (r: Result<()>)
    modifies session`agreements
    ensures match Reagree(cur, old(session.Tables()), userId, a, now)
            case Ok(db) => session.Tables() == db && r == Returned(())
            case Err(e) => r == Raised(e) && session.Tables() == old(session.Tables())
  {
    var valid := ValidateAgreements(cur, a);
    if !valid { return Raised(Validation); }
    var added := CollectRows(userId, a);
    if userId !in session.profiles { return Raised(Integrity); }
    var flushed := FlushAgreements(session, added, now);
    if !flushed { return Raised(Integrity); }
    return Returned(());
  }
}
