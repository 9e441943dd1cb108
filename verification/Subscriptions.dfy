/** Subscriptions as a function of the calls that were made, and what idol pages show of them. */
module Subscriptions {
  import opened Basics
  import opened Schema
  import opened Services
  import opened Constraints

  // ---------------------------------------------------------------- queries

  datatype IdolDetail = IdolDetail(idol: IdolProfile, fanCount: nat, isSubscribed: bool)

  /** Active subscriptions of an idol. */
  function ActiveRows(db: Db, idol: Uuid): set<Pair> {
    set p | p in db.subscriptions && p.idol == idol && db.subscriptions[p].unsubscribedAt.None?
  }

  /** get_idol_detail; None is its NotFoundError. */
  function GetIdolDetail(db: Db, idol: Uuid, viewer: Uuid): Option<IdolDetail> {
    if !IsActiveIdol(db, idol) then None
    else
      var subscribed := viewer != idol && IsSubscribedTo(db, viewer, idol);
      Some(IdolDetail(db.idolProfiles[idol], |ActiveRows(db, idol)|, subscribed))
  }

  // ---------------------------------------------------------------- the calls that were made

  /** Some(true) or Some(false): the request is a successful subscribe or unsubscribe of the pair. */
  function Choice(db: Db, r: Request, p: Pair): Option<bool> {
    if r.op.ToSubscriptions? && Handle(db, r).Ok? then
      match r.op.subscription
      case SubscribeOp(fan, idol) => if p == Pair(fan, idol) then Some(true) else None
      case UnsubscribeOp(fan, idol) => if p == Pair(fan, idol) then Some(false) else None
    else None
  }

  /** The last successful call about the pair. */
  function LastChoice(db: Db, rs: seq<Request>, p: Pair): Option<bool> {
    if rs == [] then None
    else
      var front, last := rs[..|rs| - 1], rs[|rs| - 1];
      var c := Choice(Run(db, front), last, p);
      if c.Some? then c else LastChoice(db, front, p)
  }

  lemma {:induction false} OtherServices(db: Db, r: Request)
    requires !r.op.ToSubscriptions?
    ensures Step(db, r).subscriptions == db.subscriptions
  {
    match r.op
    case ToAdmin(op) => AdminFrame(db, op, r.now);
    case ToReports(op) => ReportFrame(db, op, r.now);
    case ToAuth(op) => AuthFrame(db, op, r.now);
    case ToChat(op) => ChatFrame(db, op, r.now);
  }

  /** The row of p is the same in both databases, or missing in both. */
  predicate SameSubscription(db: Db, d: Db, p: Pair) {
    (p in d.subscriptions <==> p in db.subscriptions) &&
    (p in d.subscriptions ==> d.subscriptions[p] == db.subscriptions[p])
  }

  lemma {:induction false} SubscribeWrites(db: Db, fan: Uuid, idol: Uuid, now: int, p: Pair)
    ensures var o := Subscribe(db, fan, idol, now);
            if o.Ok? && p == Pair(fan, idol)
            then p in o.db.subscriptions && o.db.subscriptions[p].unsubscribedAt.None?
            else SameSubscription(db, After(db, o), p)
  {
  }

  lemma {:induction false} UnsubscribeWrites(db: Db, fan: Uuid, idol: Uuid, now: int, p: Pair)
    ensures var o := Unsubscribe(db, fan, idol, now);
            if o.Ok? && p == Pair(fan, idol)
            then p in o.db.subscriptions && o.db.subscriptions[p].unsubscribedAt.Some?
            else SameSubscription(db, After(db, o), p)
  {
  }

  lemma {:induction false} ChoiceDecides(db: Db, r: Request, p: Pair)
    ensures var c, d := Choice(db, r, p), Step(db, r);
            (c == Some(true) ==> p in d.subscriptions && d.subscriptions[p].unsubscribedAt.None?) &&
            (c == Some(false) ==> p in d.subscriptions && d.subscriptions[p].unsubscribedAt.Some?) &&
            (c == None ==> SameSubscription(db, d, p))
  {
    if r.op.ToSubscriptions? {
      match r.op.subscription
      case SubscribeOp(fan, idol) => SubscribeWrites(db, fan, idol, r.now, p);
      case UnsubscribeOp(fan, idol) => UnsubscribeWrites(db, fan, idol, r.now, p);
    } else {
      OtherServices(db, r);
    }
  }

  /** A pair has a row exactly when some call about it succeeded, and is active exactly when the last one subscribed. */
  lemma {:induction false} RowTellsLastChoice(db: Db, rs: seq<Request>, p: Pair)
    requires db.subscriptions == map[]
    ensures p in Run(db, rs).subscriptions <==> LastChoice(db, rs, p).Some?
    ensures IsSubscribedTo(Run(db, rs), p.fan, p.idol) <==> LastChoice(db, rs, p) == Some(true)
  {
    if rs != [] {
      RowTellsLastChoice(db, rs[..|rs| - 1], p);
      ChoiceDecides(Run(db, rs[..|rs| - 1]), rs[|rs| - 1], p);
    }
    assert Pair(p.fan, p.idol) == p;
  }

  /** The fans whose last successful call about the idol was to subscribe. */
  function CurrentFans(db: Db, rs: seq<Request>, idol: Uuid): set<Uuid> {
    set f | f in Run(db, rs).profiles && LastChoice(db, rs, Pair(f, idol)) == Some(true)
  }

  /** An idol page shows the fan count and the viewer's flag that the calls amount to. */
  lemma {:induction false} DetailTellsCalls(db: Db, rs: seq<Request>, idol: Uuid, viewer: Uuid)
    requires Valid(db) && db.subscriptions == map[]
    ensures var page := GetIdolDetail(Run(db, rs), idol, viewer);
            (page.Some? <==> IsActiveIdol(Run(db, rs), idol)) &&
            (page.Some? ==>
               page.value.fanCount == |CurrentFans(db, rs, idol)| &&
               idol !in CurrentFans(db, rs, idol) &&
               (page.value.isSubscribed <==> viewer in CurrentFans(db, rs, idol)))
  {
    var d, fans := Run(db, rs), CurrentFans(db, rs, idol);
    RunKeepsValid(db, rs);
    forall f: Uuid
      ensures f in fans <==> Pair(f, idol) in ActiveRows(d, idol)
    {
      RowTellsLastChoice(db, rs, Pair(f, idol));
    }
    FansAreRows(fans, ActiveRows(d, idol), idol);
  }

  lemma {:induction false} FansAreRows(fans: set<Uuid>, rows: set<Pair>, idol: Uuid)
    requires forall f: Uuid :: f in fans <==> Pair(f, idol) in rows
    requires forall p :: p in rows ==> p.idol == idol
    ensures |fans| == |rows|
  {
    if fans == {} {
      assert rows == {} by {
        assert forall p :: p in rows ==> p == Pair(p.fan, idol);
      }
    } else {
      var f :| f in fans;
      FansAreRows(fans - {f}, rows - {Pair(f, idol)}, idol);
    }
  }

  // ---------------------------------------------------------------- instants

  ghost predicate Clocked(rs: seq<Request>) {
    forall i, j :: 0 <= i < j < |rs| ==> rs[i].now <= rs[j].now
  }

  /** Times of a row in order, none after now. */
  predicate RowInOrder(s: Subscription, now: int) {
    s.subscribedAt <= s.lastReadAt <= now &&
    (s.unsubscribedAt.Some? ==> s.subscribedAt <= s.unsubscribedAt.value <= now)
  }

  /** The row of p, if there is one, is in order; an older row keeps its first instant. */
  predicate TimesKept(db: Db, d: Db, p: Pair, now: int) {
    (p in d.subscriptions ==> RowInOrder(d.subscriptions[p], now)) &&
    (p in db.subscriptions ==>
       p in d.subscriptions && d.subscriptions[p].subscribedAt == db.subscriptions[p].subscribedAt)
  }

  lemma {:induction false} SubscribeKeepsTimes(db: Db, fan: Uuid, idol: Uuid, now: int, p: Pair, before: int)
    requires before <= now && (p in db.subscriptions ==> RowInOrder(db.subscriptions[p], before))
    ensures TimesKept(db, After(db, Subscribe(db, fan, idol, now)), p, now)
  {
  }

  lemma {:induction false} UnsubscribeKeepsTimes(db: Db, fan: Uuid, idol: Uuid, now: int, p: Pair, before: int)
    requires before <= now && (p in db.subscriptions ==> RowInOrder(db.subscriptions[p], before))
    ensures TimesKept(db, After(db, Unsubscribe(db, fan, idol, now)), p, now)
  {
  }

  lemma {:induction false} StepKeepsTimes(db: Db, r: Request, p: Pair, before: int)
    requires before <= r.now && (p in db.subscriptions ==> RowInOrder(db.subscriptions[p], before))
    ensures TimesKept(db, Step(db, r), p, r.now)
  {
    if r.op.ToSubscriptions? {
      match r.op.subscription
      case SubscribeOp(fan, idol) => SubscribeKeepsTimes(db, fan, idol, r.now, p, before);
      case UnsubscribeOp(fan, idol) => UnsubscribeKeepsTimes(db, fan, idol, r.now, p, before);
    } else {
      OtherServices(db, r);
    }
  }

  /**
   Under a nondecreasing clock a row's subscribed_at is not after its last_read_at nor after
   its unsubscribed_at.
   */
  lemma {:induction false} SubscriptionTimes(db: Db, rs: seq<Request>, p: Pair)
    requires db.subscriptions == map[] && Clocked(rs)
    ensures p in Run(db, rs).subscriptions ==> rs != [] && RowInOrder(Run(db, rs).subscriptions[p], rs[|rs| - 1].now)
    ensures p in Run(db, rs).subscriptions ==>
              var s := Run(db, rs).subscriptions[p];
              s.subscribedAt <= s.lastReadAt && (s.unsubscribedAt.Some? ==> s.subscribedAt <= s.unsubscribedAt.value)
  {
    if rs != [] {
      var front, last := rs[..|rs| - 1], rs[|rs| - 1];
      SubscriptionTimes(db, front, p);
      StepKeepsTimes(Run(db, front), last, p, if front == [] then last.now else front[|front| - 1].now);
    }
  }

  /** Once a row exists it stays, under the subscribed_at it was created with. */
  lemma {:induction false} SubscribedAtNeverChanges(db: Db, rs: seq<Request>, more: seq<Request>, p: Pair)
    requires p in Run(db, rs).subscriptions
    ensures p in Run(db, rs + more).subscriptions
    ensures Run(db, rs + more).subscriptions[p].subscribedAt == Run(db, rs).subscriptions[p].subscribedAt
  {
    if more == [] {
      assert rs + more == rs;
    } else {
      var front, last := more[..|more| - 1], more[|more| - 1];
      SubscribedAtNeverChanges(db, rs, front, p);
      assert rs + more == (rs + front) + [last];
      RunAppend(db, rs + front, last);
      RowStays(Run(db, rs + front), last, p);
    }
  }

  lemma {:induction false} RowStays(db: Db, r: Request, p: Pair)
    requires p in db.subscriptions
    ensures p in Step(db, r).subscriptions
    ensures Step(db, r).subscriptions[p].subscribedAt == db.subscriptions[p].subscribedAt
  {
    if !r.op.ToSubscriptions? {
      OtherServices(db, r);
    }
  }
}
