/** backend/app/features/subscription/service.py, statement by statement. */
module SubscriptionService {
  import opened Basics
  import opened Schema
  import opened Services
  import opened DbSession

  method StartSupport(session: Session, fanId: Uuid, idolId: Uuid, now: int) returns (r: Result<Subscription>)
    modifies session`subscriptions
    ensures match Subscribe(old(session.Tables()), fanId, idolId, now)
            case Ok(db) => session.Tables() == db && r == Returned(db.subscriptions[Pair(fanId, idolId)])
            case Err(e) => r == Raised(e) && session.Tables() == old(session.Tables())
  {
    if fanId == idolId { return Raised(Validation); }
    if !IsActiveIdol(session.Tables(), idolId) { return Raised(NotFound); }
    var key := Pair(fanId, idolId);
    if key !in session.subscriptions {
      if fanId !in session.profiles { return Raised(Integrity); }
      session.subscriptions := session.subscriptions[key := Subscription(now, None, now)];
      return Returned(session.subscriptions[key]);
    }
    var existing := session.subscriptions[key];
    if existing.unsubscribedAt.None? { return Returned(existing); }
    existing := existing.(unsubscribedAt := None);
    existing := existing.(lastReadAt := now);
    session.subscriptions := session.subscriptions[key := existing];
    return Returned(existing);
  }

  method StopSupport(session: Session, fanId: Uuid, idolId: Uuid, now: int) returns (r: Result<Subscription>)
    modifies session`subscriptions
    ensures match Unsubscribe(old(session.Tables()), fanId, idolId, now)
            case Ok(db) => session.Tables() == db && r == Returned(db.subscriptions[Pair(fanId, idolId)])
            case Err(e) => r == Raised(e) && session.Tables() == old(session.Tables())
  {
    var key := Pair(fanId, idolId);
    if key !in session.subscriptions { return Raised(NotFound); }
    var sub := session.subscriptions[key];
    if sub.unsubscribedAt.Some? { return Returned(sub); }
    sub := sub.(unsubscribedAt := Some(now));
    session.subscriptions := session.subscriptions[key := sub];
    return Returned(sub);
  }
}
