/** backend/app/features/report/service.py, statement by statement. */
module ReportService {
  import opened Basics
  import opened Schema
  import opened Services
  import opened DbSession
  import AdminService

  /** newId is the generated key of the row. */
  method FileReport(session: Session, newId: Uuid, reporterId: Uuid, messageId: Uuid, reason: string, now: int)
    returns (r: Result<Report>)
    modifies session`reports
    ensures match CreateReport(old(session.Tables()), newId, reporterId, messageId, reason, now)
            case Ok(db) => session.Tables() == db && r == Returned(db.reports[newId])
            case Err(e) => r == Raised(e) && session.Tables() == old(session.Tables())
  {
    if messageId !in session.messages { return Raised(NotFound); }
    if session.messages[messageId].senderId == reporterId { return Raised(Validation); }
    if AlreadyReported(session.Tables(), reporterId, messageId) { return Raised(Conflict); }
    var report := Report(reporterId, messageId, reason, Waiting, None, None, None, None, now);
    // The flush; an integrity violation is reported as a conflict.
    if newId in session.reports || reporterId !in session.profiles { return Raised(Conflict); }
    session.reports := session.reports[newId := report];
    return Returned(report);
  }

  /** The five columns a resolution assigns. */
  method MarkHandled(report: Report, adminUserId: Uuid, action: ReportAction, note: Option<string>, now: int)
    returns (handled: Report)
    ensures handled == HandledReport(report, adminUserId, action, note, now)
  {
    handled := report.(status := Handled);
    handled := handled.(action := Some(action));
    handled := handled.(note := note);
    handled := handled.(handledBy := Some(adminUserId));
    handled := handled.(handledAt := Some(now));
  }

  /** The side effect of a resolution that suspends: the sender of the message is suspended. */
  method SuspendSender(
      session: Session, report: Report, adminUserId: Uuid, action: ReportAction, note: Option<string>, now: int)
    returns (error: Option<Error>)
    modifies session`profiles
    ensures match ResolutionEffect(old(session.Tables()), report, adminUserId, action, note, now)
            case Ok(db) => error == None && session.Tables() == db
            case Err(e) => error == Some(e) && session.Tables() == old(session.Tables())
  {
    if action != SuspendedSender { return None; }
    if report.messageId !in session.messages { return Some(NotFound); }
    var suspended := AdminService.SuspendUser(session, session.messages[report.messageId].senderId, adminUserId,
                                              SuspendReasonOf(note), now);
    return if suspended.Raised? then Some(suspended.error) else None;
  }

  method Resolve(
      session: Session, reportId: Uuid, adminUserId: Uuid, action: ReportAction, note: Option<string>, now: int)
    returns (r: Result<Report>)
    modifies session`profiles, session`reports
    ensures match ResolveReport(old(session.Tables()), reportId, adminUserId, action, note, now)
            case Ok(db) => session.Tables() == db && r == Returned(db.reports[reportId])
            case Err(e) => r == Raised(e)
  {
    if reportId !in session.reports { return Raised(NotFound); }
    var report := session.reports[reportId];
    if report.status == Handled { return Raised(Conflict); }
    var error := SuspendSender(session, report, adminUserId, action, note, now);
    if error.Some? { return Raised(error.value); }
    report := MarkHandled(report, adminUserId, action, note, now);
    // The flush.
    if adminUserId !in session.profiles { return Raised(Integrity); }
    session.reports := session.reports[reportId := report];
    return Returned(report);
  }
}
