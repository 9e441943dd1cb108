/** One request on a session: the service call, then commit on return or rollback on an exception (get_session). */
module Requests {
  import opened Basics
  import opened Services
  import opened DbSession
  import opened Constraints
  import AdminService
  import ReportService
  import AuthService
  import SubscriptionService

  method CallAdmin(session: Session, op: AdminOp, now: int) returns (error: Option<Error>)
    requires session.Clean()
    modifies session
    ensures session.committed == old(session.committed)
    ensures match HandleAdmin(old(session.Tables()), op, now)
            case Ok(db) => error == None && session.Tables() == db
            case Err(e) => error == Some(e)
  {
    match op
    case ApproveOp(appId, admin) =>
      var r := AdminService.ApproveIdolApplication(session, appId, admin, now);
      return if r.Raised? then Some(r.error) else None;
    case RejectOp(appId, admin, reason) =>
      var r := AdminService.RejectIdolApplication(session, appId, admin, reason, now);
      return if r.Raised? then Some(r.error) else None;
    case SuspendOp(target, admin, reason) =>
      var r := AdminService.SuspendUser(session, target, admin, reason, now);
      return if r.Raised? then Some(r.error) else None;
    case UnsuspendOp(target) =>
      var r := AdminService.UnsuspendUser(session, target);
      return if r.Raised? then Some(r.error) else None;
  }

  method CallReports(session: Session, op: ReportOp, now: int) returns (error: Option<Error>)
    requires session.Clean()
    modifies session
    ensures session.committed == old(session.committed)
    ensures match HandleReport(old(session.Tables()), op, now)
            case Ok(db) => error == None && session.Tables() == db
            case Err(e) => error == Some(e)
  {
    match op
    case CreateReportOp(id, reporter, messageId, reason) =>
      var r := ReportService.FileReport(session, id, reporter, messageId, reason, now);
      return if r.Raised? then Some(r.error) else None;
    case ResolveReportOp(id, admin, action, note) =>
      var r := ReportService.Resolve(session, id, admin, action, note, now);
      return if r.Raised? then Some(r.error) else None;
  }

  method CallAuth(session: Session, op: AuthOp, now: int) returns (error: Option<Error>)
    requires session.Clean() && (op.SignupOp? || op.ReagreeOp?)
    modifies session
    ensures session.committed == old(session.committed)
    ensures match HandleAuth(old(session.Tables()), op, now)
            case Ok(db) => error == None && session.Tables() == db
            case Err(e) => error == Some(e)
  {
    match op
    case SignupOp(user, req, appId) =>
      var r := AuthService.CreateSignup(session, CURRENT_VERSIONS, user, req, appId, now);
      return if r.Raised? then Some(r.error) else None;
    case ReagreeOp(user, a) =>
      var r := AuthService.AgreeAgain(session, CURRENT_VERSIONS, user, a, now);
      return if r.Raised? then Some(r.error) else None;
  }

  method CallSubscriptions(session: Session, op: SubscriptionOp, now: int) returns (error: Option<Error>)
    requires session.Clean()
    modifies session
    ensures session.committed == old(session.committed)
    ensures match HandleSubscription(old(session.Tables()), op, now)
            case Ok(db) => error == None && session.Tables() == db
            case Err(e) => error == Some(e)
  {
    match op
    case SubscribeOp(fan, idol) =>
      var r := SubscriptionService.StartSupport(session, fan, idol, now);
      return if r.Raised? then Some(r.error) else None;
    case UnsubscribeOp(fan, idol) =>
      var r := SubscriptionService.StopSupport(session, fan, idol, now);
      return if r.Raised? then Some(r.error) else None;
  }

  /** Requests the backend serves; the others are direct client writes. */
  predicate IsBackend(op: Op) {
    match op
    case ToAuth(auth) => auth.SignupOp? || auth.ReagreeOp?
    case ToChat(_) => false
    case _ => true
  }

  /** Whatever happens inside, the committed tables move by exactly the modelled step, and no write is left over. */
  method Serve(session: Session, r: Request) returns (error: Option<Error>)
    requires session.Clean() && IsBackend(r.op)
    modifies session
    ensures session.Clean()
    ensures session.committed == Step(old(session.committed), r)
    ensures error == match Handle(old(session.committed), r) case Ok(_) => None case Err(e) => Some(e)
  {
    StepKeepsValid(session.committed, r);
    match r.op {
      case ToAdmin(op) => error := CallAdmin(session, op, r.now);
      case ToReports(op) => error := CallReports(session, op, r.now);
      case ToAuth(op) => error := CallAuth(session, op, r.now);
      case ToSubscriptions(op) => error := CallSubscriptions(session, op, r.now);
    }
    if error.Some? {
      session.Rollback();
    } else {
      session.Commit();
    }
  }
}
