/** What holds of the messages and reports of every reachable database, whoever sent what. */
module RoomFacts {
  import opened Basics
  import opened Schema
  import opened Services
  import opened Suspensions
  import opened Constraints
  import opened Answers
  import opened Visibility

  /** A reply is its idol's and answers a fan message to that idol. */
  predicate ReplyOk(db: Db, m: Message) {
    m.kind == IdolReply ==>
      m.senderId == m.idolId && m.parentId.Some? && m.parentId.value in db.messages &&
      db.messages[m.parentId.value].kind == FanToIdol && db.messages[m.parentId.value].idolId == m.idolId
  }

  /** A broadcast is its idol's; a fan message is addressed to the idol of the room and answers nothing. */
  predicate AddressOk(m: Message) {
    (m.kind == IdolToFans ==> m.senderId == m.idolId && m.recipientId == None) &&
    (m.kind == FanToIdol ==> m.recipientId == Some(m.idolId) && m.parentId == None)
  }

  ghost predicate RoomsOk(db: Db) {
    forall i :: i in db.messages ==> ReplyOk(db, db.messages[i]) && AddressOk(db.messages[i])
  }

  /** Nobody reported a message of their own. */
  ghost predicate NoSelfReports(db: Db) {
    forall i :: i in db.reports && db.reports[i].messageId in db.messages ==>
      db.messages[db.reports[i].messageId].senderId != db.reports[i].reporterId
  }

  lemma {:induction false} SendKeepsRooms(db: Db, sender: Uuid, id: Uuid, d: Draft, now: int)
    requires RoomsOk(db) && Send(db, sender, id, d, now).Ok?
    ensures RoomsOk(Send(db, sender, id, d, now).db)
  {
    SendAnswers(db, sender, id, d, now);
  }

  lemma {:induction false} EditKeepsRooms(db: Db, actor: Uuid, id: Uuid, change: Change, now: int)
    requires RoomsOk(db)
    ensures RoomsOk(After(db, Edit(db, actor, id, change, now)))
  {
  }

  lemma {:induction false} StepKeepsRooms(db: Db, r: Request)
    requires RoomsOk(db)
    ensures RoomsOk(Step(db, r))
  {
    if r.op.ToChat? {
      match r.op.chat
      case SendOp(sender, id, d) =>
        if Send(db, sender, id, d, r.now).Ok? {
          SendKeepsRooms(db, sender, id, d, r.now);
        }
      case EditOp(actor, id, change) => EditKeepsRooms(db, actor, id, change, r.now);
    } else {
      MessagesKept(db, r);
    }
  }

  /**
   After any run every reply is by the idol of its room and answers a fan message to that very
   idol, broadcasts are the idol's own, and fan messages are addressed to the idol.
   */
  lemma {:induction false} RunKeepsRooms(db: Db, rs: seq<Request>)
    requires RoomsOk(db)
    ensures RoomsOk(Run(db, rs))
  {
    if rs != [] {
      RunKeepsRooms(db, rs[..|rs| - 1]);
      StepKeepsRooms(Run(db, rs[..|rs| - 1]), rs[|rs| - 1]);
    }
  }

  /** A reply to anything but a fan message to the sender is refused and changes nothing. */
  lemma {:induction false} OtherParentRefused(db: Db, sender: Uuid, id: Uuid, d: Draft, now: int)
    requires d.kind == IdolReply
    requires !(d.parentId.Some? && d.parentId.value in db.messages &&
               db.messages[d.parentId.value].kind == FanToIdol && db.messages[d.parentId.value].idolId == sender)
    ensures Send(db, sender, id, d, now) == Err(Forbidden)
    ensures Step(db, Request(now, ToChat(SendOp(sender, id, d)))) == db
  {
    SendAnswers(db, sender, id, d, now);
  }

  lemma {:induction false} StepKeepsReporters(db: Db, r: Request)
    requires NoSelfReports(db) && forall i :: i in db.reports ==> db.reports[i].messageId in db.messages
    ensures NoSelfReports(Step(db, r))
  {
    SendersFixed(db, r);
    if r.op.ToReports? {
      ReportsKeepReporters(db, r.op.report, r.now);
    } else {
      ReportsFixed(db, r);
    }
  }

  lemma {:induction false} ReportsKeepReporters(db: Db, op: ReportOp, now: int)
    requires NoSelfReports(db)
    ensures NoSelfReports(After(db, HandleReport(db, op, now)))
  {
    ReportFrame(db, op, now);
    if op.CreateReportOp? {
      CreateReportAnswers(db, op.id, op.reporter, op.messageId, op.reason, now);
    }
  }

  /** After any run nobody is on record as reporting a message of their own. */
  lemma {:induction false} RunKeepsReporters(db: Db, rs: seq<Request>)
    requires Valid(db) && NoSelfReports(db)
    ensures NoSelfReports(Run(db, rs))
  {
    if rs != [] {
      var front := rs[..|rs| - 1];
      RunKeepsReporters(db, front);
      RunKeepsValid(db, front);
      ReportsPointSomewhere(Run(db, front));
      StepKeepsReporters(Run(db, front), rs[|rs| - 1]);
    }
  }

  lemma {:induction false} ReportsPointSomewhere(db: Db)
    requires Valid(db)
    ensures forall i :: i in db.reports ==> db.reports[i].messageId in db.messages
  {
    assert forall i :: i in db.reports ==> ReportKeysValid(db.profiles.Keys, db.messages.Keys, db.reports[i]);
  }

  /** The author and active admins read it; what idols write, current subscribers; what fans write, the idol. */
  predicate MayRead(db: Db, u: Uuid, m: Message) {
    m.senderId == u || (u in db.profiles && ActiveAs(db.profiles[u], Admin)) ||
    match m.kind
    case FanToIdol => m.idolId == u
    case _ => Subscribed(db, u, m.idolId)
  }

  /** A user sees exactly the messages they may read, as they are. */
  lemma {:induction false} ViewTold(db: Db, u: Uuid, id: Uuid)
    ensures id in View(db, u) <==> id in db.messages && MayRead(db, u, db.messages[id])
    ensures id in View(db, u) ==> View(db, u)[id] == db.messages[id]
  {
  }

  /** Right after a fan stops supporting an idol, what the idol writes is out of sight. */
  lemma {:induction false} StoppingHides(db: Db, r: Request, u: Uuid, idol: Uuid, id: Uuid)
    requires r.op == ToSubscriptions(UnsubscribeOp(u, idol)) && Handle(db, r).Ok?
    requires var d := Step(db, r);
             id in d.messages && d.messages[id].idolId == idol && d.messages[id].kind != FanToIdol &&
             d.messages[id].senderId != u && !(u in d.profiles && ActiveAs(d.profiles[u], Admin))
    ensures id !in View(Step(db, r), u)
  {
    ViewTold(Step(db, r), u, id);
  }

  /** An admin who is not active sees no fan message of others. */
  lemma {:induction false} SuspendedAdminSeesOwn(db: Db, u: Uuid, id: Uuid)
    requires u in db.profiles && db.profiles[u].status != Active
    requires id in db.messages && db.messages[id].kind == FanToIdol && u != db.messages[id].idolId
    ensures id in View(db, u) <==> db.messages[id].senderId == u
  {
    ViewTold(db, u, id);
  }
}
