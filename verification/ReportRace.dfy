/**
 Resolutions of one report overtaking one another in a race of admin requests.

 A resolution reads that the report is waiting and later writes the row without asking again,
 so a handled report can be written again: by resolutions that read it waiting, and only by
 those.
 */
module ReportRace {
  import opened Basics
  import opened Schema
  import opened Services
  import opened Suspensions
  import opened AdminRace
  import opened AdminRaceFacts
  import opened SuspensionRace

  /** The move commits a resolution of the report. */
  predicate SetsReport(w: World, s: Move, id: Uuid) {
    Commits(w, s) && w.changes[s.change.t].job.Resolving? && w.changes[s.change.t].job.report == id
  }

  predicate ReadsReport(w: World, s: Move, t: nat) {
    s == Change(ReadReport(t)) && CanDo(w, s.change)
  }

  /** Somebody else commits a resolution of the report of t. */
  predicate Forestalls(w: World, s: Move, t: nat) {
    t in w.changes && w.changes[t].job.Resolving? && SetsReport(w, s, w.changes[t].job.report) && s.change.t != t
  }

  /** Since t read its report somebody else committed a resolution of it. */
  ghost predicate ResolvedSince(db: Db, steps: seq<Move>, t: nat) {
    steps != [] &&
    var front, s := steps[..|steps| - 1], steps[|steps| - 1];
    !ReadsReport(Reached(db, front), s, t) &&
    (Forestalls(Reached(db, front), s, t) || ResolvedSince(db, front, t))
  }

  // ---------------------------------------------------------------- who moves a report

  function Handled01(db: Db, id: Uuid): int {
    if id in db.reports && db.reports[id].status == Handled then 1 else 0
  }

  lemma {:induction false} DecisionKeepsReports(w: World, d: A.TxStep)
    ensures AfterDecision(w, d).db.reports == w.db.reports
  {
    DecisionWrites(Decisions(w), d);
    if MayDecide(w, d) && AfterDecision(w, d).db != w.db {
      EffectWrites(w.db, w.decisions[d.t]);
    }
  }

  /** Moves other than the commit of a change write no report that is there. */
  lemma {:induction false} QuietMove(w: World, s: Move, id: Uuid)
    requires !Commits(w, s)
    ensures id in w.db.reports ==> id in Take(w, s).db.reports && Take(w, s).db.reports[id] == w.db.reports[id]
    ensures id !in w.db.reports && id in Take(w, s).db.reports ==> Take(w, s).db.reports[id].action.None?
  {
    match s
    case Decide(d) => DecisionKeepsReports(w, d);
    case Change(c) =>
    case Meanwhile(r) =>
      if CanPass(w, r) {
        NothingResolved(w.db, r);
      }
  }

  lemma {:induction false} CommitWritesReport(db: Db, tx: Tx)
    requires TxOk(db, tx) && ReadyToCommit(tx)
    ensures if tx.job.Resolving?
            then tx.seen.Some? && tx.job.report in db.reports &&
                 Published(db, tx).reports == db.reports[tx.job.report := NewReport(db.reports[tx.job.report], tx)]
            else Published(db, tx).reports == db.reports
  {
  }

  /** The row after a move; only the commit of a resolution writes it. */
  predicate RowMoves(w: World, s: Move, id: Uuid, row: Report, next: Report) {
    if SetsReport(w, s, id)
    then w.changes[s.change.t].seen.Some? && next == NewReport(row, w.changes[s.change.t]) else next == row
  }

  lemma {:induction false} CommitMovesReport(w: World, s: Move, id: Uuid)
    requires Commits(w, s) && TxOk(w.db, w.changes[s.change.t]) && id in w.db.reports
    ensures id in Take(w, s).db.reports && RowMoves(w, s, id, w.db.reports[id], Take(w, s).db.reports[id])
  {
    CommitTakes(w, s);
    CommitWritesReport(w.db, w.changes[s.change.t]);
  }

  lemma {:induction false} ReportMoves(w: World, s: Move, id: Uuid)
    requires ChangesOk(w) && id in w.db.reports
    ensures id in Take(w, s).db.reports && RowMoves(w, s, id, w.db.reports[id], Take(w, s).db.reports[id])
  {
    if Commits(w, s) {
      ChangeIsOk(w, s.change.t);
      CommitMovesReport(w, s, id);
    } else {
      QuietMove(w, s, id);
    }
  }

  /** A report without an action waits. */
  lemma {:induction false} NoActionWaits(db: Db, id: Uuid)
    requires Valid(db) && (id in db.reports ==> db.reports[id].action.None?)
    ensures Handled01(db, id) == 0
  {
  }

  lemma {:induction false} NewReportsWait(w: World, s: Move, id: Uuid)
    requires Inv(w) && id !in w.db.reports
    ensures Handled01(Take(w, s).db, id) == 0 && !SetsReport(w, s, id)
  {
    if Commits(w, s) {
      ChangeIsOk(w, s.change.t);
      CommitWritesReport(w.db, w.changes[s.change.t]);
    } else {
      QuietMove(w, s, id);
      TakeKeepsInv(w, s);
      NoActionWaits(Take(w, s).db, id);
    }
  }

  lemma {:induction false} RowHandled(w: World, s: Move, id: Uuid, row: Report, next: Report)
    requires RowMoves(w, s, id, row, next)
    ensures next.status == if SetsReport(w, s, id) then Handled else row.status
  {
  }

  lemma {:induction false} HandledMoves(w: World, s: Move, id: Uuid)
    requires Inv(w)
    ensures Handled01(Take(w, s).db, id) == if SetsReport(w, s, id) then 1 else Handled01(w.db, id)
  {
    if id in w.db.reports {
      ReportMoves(w, s, id);
      RowHandled(w, s, id, w.db.reports[id], Take(w, s).db.reports[id]);
    } else {
      NewReportsWait(w, s, id);
    }
  }

  // ---------------------------------------------------------------- what a resolution still knows

  /** Past its read of the report and not finished. */
  predicate Reader(w: World, t: nat, id: Uuid) {
    t in w.changes && w.changes[t].job.Resolving? && w.changes[t].job.report == id &&
    (w.changes[t].phase == Asked || Underway(w.changes[t]))
  }

  predicate SameCall(a: Tx, b: Tx) {
    a.job == b.job && a.admin == b.admin && a.now == b.now
  }

  lemma {:induction false} OwnStep(w: World, c: TxStep, id: Uuid)
    requires c.t in w.changes && PhaseOk(w.changes[c.t]) && Reader(Do(w, c), c.t, id)
    ensures SameCall(Do(w, c).changes[c.t], w.changes[c.t])
    ensures if ReadsReport(w, Change(c), c.t) then Handled01(w.db, id) == 0 && Do(w, c).db == w.db
            else Reader(w, c.t, id) && !Commits(w, Change(c))
  {
  }

  lemma {:induction false} NewIsNoReader(w: World, c: TxStep, id: Uuid)
    requires c.t !in w.changes
    ensures !Reader(Do(w, c), c.t, id)
  {
  }

  lemma {:induction false} WasReader(w: World, s: Move, t: nat, id: Uuid)
    requires ChangesOk(w) && Reader(Take(w, s), t, id)
    ensures t in w.changes && SameCall(Take(w, s).changes[t], w.changes[t])
    ensures if ReadsReport(w, s, t) then Handled01(w.db, id) == 0 && Take(w, s).db == w.db
            else Reader(w, t, id) && !(Commits(w, s) && s.change.t == t)
  {
    if s.Change? && s.change.t == t {
      if t in w.changes {
        ChangeIsOk(w, t);
        OwnStep(w, s.change, id);
      } else {
        NewIsNoReader(w, s.change, id);
      }
    } else {
      OtherChange(w, s, t);
    }
  }

  /** The report a resolution is about is handled exactly when it was resolved since the read. */
  lemma {:induction false} TracksReport(db: Db, steps: seq<Move>, t: nat, id: Uuid)
    requires Valid(db) && Reader(Reached(db, steps), t, id)
    ensures Handled01(Reached(db, steps).db, id) == 1 <==> ResolvedSince(db, steps, t)
  {
    if steps != [] {
      var front, s := steps[..|steps| - 1], steps[|steps| - 1];
      var w := Reached(db, front);
      RaceKeepsValid(db, front);
      WasReader(w, s, t, id);
      if !ReadsReport(w, s, t) {
        TracksReport(db, front, t, id);
        HandledMoves(w, s, id);
      }
    }
  }

  lemma {:induction false} CommitterReads(w: World, s: Move, id: Uuid)
    requires ChangesOk(w) && SetsReport(w, s, id)
    ensures Reader(w, s.change.t, id)
  {
  }

  // ---------------------------------------------------------------- the balance

  /** How many resolutions of the report are committed. */
  ghost function Resolutions(db: Db, steps: seq<Move>, id: Uuid): nat {
    if steps == [] then 0
    else
      var front, s := steps[..|steps| - 1], steps[|steps| - 1];
      Resolutions(db, front, id) + if SetsReport(Reached(db, front), s, id) then 1 else 0
  }

  /** How many of them came after another one committed since their read. */
  ghost function LateResolutions(db: Db, steps: seq<Move>, id: Uuid): nat {
    if steps == [] then 0
    else
      var front, s := steps[..|steps| - 1], steps[|steps| - 1];
      LateResolutions(db, front, id) +
      if SetsReport(Reached(db, front), s, id) && ResolvedSince(db, front, s.change.t) then 1 else 0
  }

  /** All committed resolutions of a waiting report but one were forestalled, and all of a handled one. */
  lemma {:induction false} OneTimelyResolution(db: Db, steps: seq<Move>, id: Uuid)
    requires Valid(db)
    ensures Handled01(db, id) + Resolutions(db, steps, id) ==
            Handled01(Reached(db, steps).db, id) + LateResolutions(db, steps, id)
  {
    if steps != [] {
      var front, s := steps[..|steps| - 1], steps[|steps| - 1];
      OneTimelyResolution(db, front, id);
      RaceKeepsValid(db, front);
      HandledMoves(Reached(db, front), s, id);
      if SetsReport(Reached(db, front), s, id) {
        CommitterReads(Reached(db, front), s, id);
        TracksReport(db, front, s.change.t, id);
      }
    }
  }

  // ---------------------------------------------------------------- when a handled report changes again

  /** The report was handled as the transaction says. */
  predicate Says(r: Report, tx: Tx) {
    tx.job.Resolving? && r.status == Handled && r.action == Some(tx.job.action) && r.handledBy == Some(tx.admin) &&
    r.handledAt == Some(tx.now)
  }

  /** The last to commit a resolution of the report. */
  ghost function LastResolver(w: World, steps: seq<Move>, id: Uuid): Option<nat> {
    if steps == [] then None
    else
      var front := steps[..|steps| - 1];
      NextResolver(Exec(w, front), steps[|steps| - 1], id, LastResolver(w, front, id))
  }

  function NextResolver(w: World, s: Move, id: Uuid, last: Option<nat>): Option<nat> {
    if SetsReport(w, s, id) then Some(s.change.t) else last
  }

  lemma {:induction false} NewReportSays(r: Report, tx: Tx)
    requires tx.job.Resolving? && tx.seen.Some?
    ensures Says(NewReport(r, tx), tx.(phase := Done(true)))
  {
  }

  lemma {:induction false} ResolverSays(w: World, s: Move, id: Uuid)
    requires id in w.db.reports && SetsReport(w, s, id) && id in Take(w, s).db.reports
    requires RowMoves(w, s, id, w.db.reports[id], Take(w, s).db.reports[id])
    ensures RowTells(w, Take(w, s), id, Some(s.change.t))
  {
    CommitTakes(w, s);
    NewReportSays(w.db.reports[id], w.changes[s.change.t]);
  }

  lemma {:induction false} StaysDone(w: World, s: Move, t: nat)
    requires t in w.changes && w.changes[t].phase.Done?
    ensures t in Take(w, s).changes && Take(w, s).changes[t] == w.changes[t]
  {
  }

  /** The row in v is that of w, or what the given transaction says. */
  predicate RowTells(w: World, v: World, id: Uuid, last: Option<nat>)
    requires id in w.db.reports
  {
    id in v.db.reports &&
    match last
    case None => v.db.reports[id] == w.db.reports[id]
    case Some(t) => t in v.changes && v.changes[t].phase == Done(true) && Says(v.db.reports[id], v.changes[t])
  }

  lemma {:induction false} QuietRow(w: World, v: World, s: Move, id: Uuid, last: Option<nat>)
    requires ChangesOk(v) && id in w.db.reports && RowTells(w, v, id, last) && !SetsReport(v, s, id)
    ensures RowTells(w, Take(v, s), id, last)
  {
    ReportMoves(v, s, id);
    if last.Some? {
      StaysDone(v, s, last.value);
    }
  }

  lemma {:induction false} NextRow(w: World, v: World, s: Move, id: Uuid, last: Option<nat>)
    requires ChangesOk(v) && id in w.db.reports && RowTells(w, v, id, last)
    ensures RowTells(w, Take(v, s), id, NextResolver(v, s, id, last))
  {
    if SetsReport(v, s, id) {
      ReportMoves(v, s, id);
      ResolverSays(v, s, id);
    } else {
      QuietRow(w, v, s, id, last);
    }
  }

  /** In any interleaving a report is as it was, or as the last committed resolution of it says. */
  lemma {:induction false} ReportTellsLastResolver(w: World, steps: seq<Move>, id: Uuid)
    requires Inv(w) && id in w.db.reports
    ensures RowTells(w, Exec(w, steps), id, LastResolver(w, steps, id))
  {
    if steps != [] {
      var front, s := steps[..|steps| - 1], steps[|steps| - 1];
      ReportTellsLastResolver(w, front, id);
      ExecKeepsInv(w, front);
      NextRow(w, Exec(w, front), s, id, LastResolver(w, front, id));
    }
  }

  /** Whoever is past its read of the report in v was so in w. */
  ghost predicate NoNewReader(w: World, v: World, id: Uuid) {
    forall t :: Reader(v, t, id) ==> Reader(w, t, id) && SameCall(v.changes[t], w.changes[t])
  }

  lemma {:induction false} NobodyReads(w: World, v: World, s: Move, id: Uuid)
    requires ChangesOk(v) && Handled01(v.db, id) == 1 && NoNewReader(w, v, id)
    ensures NoNewReader(w, Take(v, s), id)
  {
    forall t | Reader(Take(v, s), t, id)
      ensures Reader(w, t, id) && SameCall(Take(v, s).changes[t], w.changes[t])
    {
      WasReader(v, s, t, id);
    }
  }

  lemma {:induction false} HandledStaysHandled(w: World, steps: seq<Move>, id: Uuid)
    requires Inv(w) && Handled01(w.db, id) == 1
    ensures Handled01(Exec(w, steps).db, id) == 1 && NoNewReader(w, Exec(w, steps), id)
  {
    if steps != [] {
      var front, s := steps[..|steps| - 1], steps[|steps| - 1];
      HandledStaysHandled(w, front, id);
      ExecKeepsInv(w, front);
      HandledMoves(Exec(w, front), s, id);
      NobodyReads(w, Exec(w, front), s, id);
    }
  }

  ghost predicate FinishedReader(w: World, v: World, t: nat, id: Uuid) {
    Reader(w, t, id) && t in v.changes && v.changes[t].phase == Done(true) && SameCall(v.changes[t], w.changes[t])
  }

  lemma {:induction false} FinishesNow(w: World, v: World, s: Move, id: Uuid)
    requires ChangesOk(v) && SetsReport(v, s, id) && NoNewReader(w, v, id)
    ensures FinishedReader(w, Take(v, s), s.change.t, id)
  {
    CommitterReads(v, s, id);
  }

  lemma {:induction false} ResolverWasReader(w: World, steps: seq<Move>, id: Uuid)
    requires Inv(w) && Handled01(w.db, id) == 1 && LastResolver(w, steps, id).Some?
    ensures FinishedReader(w, Exec(w, steps), LastResolver(w, steps, id).value, id)
  {
    if steps != [] {
      var front, s := steps[..|steps| - 1], steps[|steps| - 1];
      ExecKeepsInv(w, front);
      if SetsReport(Exec(w, front), s, id) {
        HandledStaysHandled(w, front, id);
        FinishesNow(w, Exec(w, front), s, id);
      } else {
        ResolverWasReader(w, front, id);
        StaysDone(Exec(w, front), s, LastResolver(w, front, id).value);
      }
    }
  }

  /**
   A handled report is written again exactly when a resolution that had read it waiting
   commits: with none the row stays as it is for good, with some it says what the last of
   them says.
   */
  lemma {:induction false} HandledChangesIffReaderCommits(w: World, steps: seq<Move>, id: Uuid)
    requires Inv(w) && Handled01(w.db, id) == 1
    ensures var v := Exec(w, steps);
            id in v.db.reports &&
            match LastResolver(w, steps, id)
            case None => v.db.reports[id] == w.db.reports[id]
            case Some(t) =>
              Reader(w, t, id) && w.changes[t].seen.Some? && w.changes[t].seen.value.status == Waiting &&
              Says(v.db.reports[id], w.changes[t])
  {
    ReportTellsLastResolver(w, steps, id);
    if LastResolver(w, steps, id).Some? {
      ResolverWasReader(w, steps, id);
      ChangeIsOk(w, LastResolver(w, steps, id).value);
    }
  }

  // ---------------------------------------------------------------- dismissed by one, suspended by the other

  /** Two resolutions of one report, of the message of user: a suspends the sender, b dismisses. */
  datatype Clash = Clash(id: Uuid, user: Uuid, a: Uuid, note: Option<string>, aNow: int, b: Uuid, bNow: int)

  function Suspender(c: Clash): Job {
    Resolving(c.id, SuspendedSender, c.note)
  }

  function Dismisser(c: Clash): Job {
    Resolving(c.id, Dismissed, None)
  }

  /** Both read the report waiting; then a goes all the way, and then b. */
  function BothReadIt(c: Clash): seq<Move> {
    [Change(Begin(0, Suspender(c), c.user, c.a, c.aNow))] + [Change(Begin(1, Dismisser(c), c.user, c.b, c.bNow))] +
    [Change(ReadReport(0))] + [Change(ReadReport(1))]
  }

  function SuspenderFirst(c: Clash): seq<Move> {
    BothReadIt(c) + [Change(ReadProfile(0))] + [Change(WriteProfile(0))] + [Change(WriteReport(0))] +
    [Change(Commit(0))]
  }

  function ThenDismisser(c: Clash): seq<Move> {
    SuspenderFirst(c) + [Change(WriteReport(1))] + [Change(Commit(1))]
  }

  predicate MayClash(db: Db, c: Clash) {
    c.id in db.reports && db.reports[c.id].status == Waiting && db.reports[c.id].note == None &&
    db.reports[c.id].messageId in db.messages && db.messages[db.reports[c.id].messageId].senderId == c.user &&
    c.user in db.profiles && db.profiles[c.user].status != Suspended && c.user != c.a &&
    c.a in db.profiles && c.b in db.profiles
  }

  function Two(db: Db, x: Tx, y: Tx, log: seq<Request>): World {
    World(db, map[], map[0 := x, 1 := y], log)
  }

  lemma {:induction false} PutTwo(db: Db, x: Tx, y: Tx, log: seq<Request>, tx: Tx)
    ensures Put(Two(db, x, y, log), 0, tx) == Two(db, tx, y, log)
    ensures Put(Two(db, x, y, log), 1, tx) == Two(db, x, tx, log)
  {
    assert map[0 := x, 1 := y][0 := tx] == map[0 := tx, 1 := y];
    assert map[0 := x, 1 := y][1 := tx] == map[0 := x, 1 := tx];
  }

  lemma {:induction false} Follow(db: Db, steps: seq<Move>, c: TxStep, v: World)
    requires Do(Reached(db, steps), c) == v
    ensures Reached(db, steps + [Change(c)]) == v
  {
    assert (steps + [Change(c)])[..|steps|] == steps;
  }

  function SuspenderAsks(db: Db, c: Clash): Tx
    requires MayClash(db, c)
  {
    NewTx(Suspender(c), c.user, c.a, c.aNow).(phase := Asked, seen := Some(db.reports[c.id]))
  }

  function SuspenderDone(db: Db, c: Clash): Tx
    requires MayClash(db, c)
  {
    var tx := SuspenderAsks(db, c);
    tx.(phase := Done(true), newProfile := Some(NewProfile(db.profiles[c.user], tx)),
        newReport := Some(NewReport(db.reports[c.id], tx)))
  }

  function DismisserReady(db: Db, c: Clash): Tx
    requires MayClash(db, c)
  {
    NewTx(Dismisser(c), c.user, c.b, c.bNow).(phase := Checked, seen := Some(db.reports[c.id]))
  }

  lemma {:induction false} BothBegin(db: Db, c: Clash)
    requires MayClash(db, c)
    ensures Reached(db, [Change(Begin(0, Suspender(c), c.user, c.a, c.aNow))] +
                        [Change(Begin(1, Dismisser(c), c.user, c.b, c.bNow))]) ==
            Two(db, NewTx(Suspender(c), c.user, c.a, c.aNow), NewTx(Dismisser(c), c.user, c.b, c.bNow), [])
  {
    var x, y := NewTx(Suspender(c), c.user, c.a, c.aNow), NewTx(Dismisser(c), c.user, c.b, c.bNow);
    var first := [Change(Begin(0, Suspender(c), c.user, c.a, c.aNow))];
    assert [] + first == first && Reached(db, []) == Start(db);
    Follow(db, [], first[0].change, Put(Start(db), 0, x));
    assert map[0 := x][1 := y] == map[0 := x, 1 := y];
    Follow(db, first, Begin(1, Dismisser(c), c.user, c.b, c.bNow), Two(db, x, y, []));
  }

  lemma {:induction false} BothReadWaiting(db: Db, c: Clash)
    requires MayClash(db, c)
    ensures Reached(db, BothReadIt(c)) == Two(db, SuspenderAsks(db, c), DismisserReady(db, c), [])
  {
    var x, y := NewTx(Suspender(c), c.user, c.a, c.aNow), NewTx(Dismisser(c), c.user, c.b, c.bNow);
    var begun := [Change(Begin(0, Suspender(c), c.user, c.a, c.aNow))] +
                 [Change(Begin(1, Dismisser(c), c.user, c.b, c.bNow))];
    BothBegin(db, c);
    PutTwo(db, x, y, [], SuspenderAsks(db, c));
    Follow(db, begun, ReadReport(0), Two(db, SuspenderAsks(db, c), y, []));
    PutTwo(db, SuspenderAsks(db, c), y, [], DismisserReady(db, c));
    Follow(db, begun + [Change(ReadReport(0))], ReadReport(1),
           Two(db, SuspenderAsks(db, c), DismisserReady(db, c), []));
  }

  lemma {:induction false} SuspenderPasses(db: Db, c: Clash)
    requires MayClash(db, c)
    ensures Reached(db, BothReadIt(c) + [Change(ReadProfile(0))]) ==
            Two(db, SuspenderAsks(db, c).(phase := Checked), DismisserReady(db, c), [])
  {
    var x, y := SuspenderAsks(db, c), DismisserReady(db, c);
    BothReadWaiting(db, c);
    PutTwo(db, x, y, [], x.(phase := Checked));
    Follow(db, BothReadIt(c), ReadProfile(0), Two(db, x.(phase := Checked), y, []));
  }

  lemma {:induction false} FreeRows(db: Db, x: Tx, y: Tx, log: seq<Request>, u: Uuid)
    requires !HoldsProfile(x) && !HoldsProfile(y)
    ensures !HeldByChange(Two(db, x, y, log), u) && !HeldByDecision(Two(db, x, y, log), u)
  {
  }

  lemma {:induction false} SuspenderWrites(db: Db, c: Clash)
    requires MayClash(db, c)
    ensures Reached(db, BothReadIt(c) + [Change(ReadProfile(0))] + [Change(WriteProfile(0))]) ==
            Two(db, SuspenderDone(db, c).(phase := Wrote, newReport := None), DismisserReady(db, c), [])
  {
    var x, y := SuspenderAsks(db, c).(phase := Checked), DismisserReady(db, c);
    var wrote := SuspenderDone(db, c).(phase := Wrote, newReport := None);
    SuspenderPasses(db, c);
    FreeRows(db, x, y, [], c.user);
    PutTwo(db, x, y, [], wrote);
    Follow(db, BothReadIt(c) + [Change(ReadProfile(0))], WriteProfile(0), Two(db, wrote, y, []));
  }

  lemma {:induction false} FreeReport(db: Db, x: Tx, y: Tx, log: seq<Request>, id: Uuid)
    requires !HoldsReport(x) && !HoldsReport(y)
    ensures !ReportHeld(Two(db, x, y, log), id)
  {
  }

  lemma {:induction false} SuspenderFiles(db: Db, c: Clash)
    requires MayClash(db, c)
    ensures Reached(db, BothReadIt(c) + [Change(ReadProfile(0))] + [Change(WriteProfile(0))] +
                        [Change(WriteReport(0))]) ==
            Two(db, SuspenderDone(db, c).(phase := Filed), DismisserReady(db, c), [])
  {
    var x, y := SuspenderDone(db, c).(phase := Wrote, newReport := None), DismisserReady(db, c);
    SuspenderWrites(db, c);
    FreeReport(db, x, y, [], c.id);
    PutTwo(db, x, y, [], SuspenderDone(db, c).(phase := Filed));
    Follow(db, BothReadIt(c) + [Change(ReadProfile(0))] + [Change(WriteProfile(0))], WriteReport(0),
           Two(db, SuspenderDone(db, c).(phase := Filed), y, []));
  }

  lemma {:induction false} SuspenderCommits(db: Db, c: Clash)
    requires MayClash(db, c)
    ensures var x, y := SuspenderDone(db, c), DismisserReady(db, c);
            Reached(db, SuspenderFirst(c)) == Two(Published(db, x), x, y, [RequestOf(x)])
  {
    var x, y := SuspenderDone(db, c), DismisserReady(db, c);
    SuspenderFiles(db, c);
    PutTwo(Published(db, x), x.(phase := Filed), y, [RequestOf(x)], x);
    Follow(db, BothReadIt(c) + [Change(ReadProfile(0))] + [Change(WriteProfile(0))] + [Change(WriteReport(0))],
           Commit(0), Two(Published(db, x), x, y, [RequestOf(x)]));
  }

  lemma {:induction false} DismisserFiles(db: Db, c: Clash)
    requires MayClash(db, c)
    ensures var x, y := SuspenderDone(db, c), DismisserReady(db, c);
            var d := Published(db, x);
            var filed := y.(phase := Filed, newReport := Some(NewReport(d.reports[c.id], y)));
            Reached(db, SuspenderFirst(c) + [Change(WriteReport(1))]) == Two(d, x, filed, [RequestOf(x)])
  {
    var x, y := SuspenderDone(db, c), DismisserReady(db, c);
    var d, log := Published(db, x), [RequestOf(x)];
    var filed := y.(phase := Filed, newReport := Some(NewReport(d.reports[c.id], y)));
    SuspenderCommits(db, c);
    FreeReport(d, x, y, log, c.id);
    PutTwo(d, x, y, log, filed);
    Follow(db, SuspenderFirst(c), WriteReport(1), Two(d, x, filed, log));
  }

  lemma {:induction false} DismisserCommits(db: Db, c: Clash)
    requires MayClash(db, c)
    ensures var d, y := Published(db, SuspenderDone(db, c)), DismisserReady(db, c);
            Reached(db, ThenDismisser(c)).db == d.(reports := d.reports[c.id := NewReport(d.reports[c.id], y)])
  {
    var w := Reached(db, SuspenderFirst(c) + [Change(WriteReport(1))]);
    DismisserFiles(db, c);
    Follow(db, SuspenderFirst(c) + [Change(WriteReport(1))], Commit(1), Do(w, Commit(1)));
  }

  /**
   Any waiting report shows it: the sender is suspended by a resolution of the report, which
   in the end reads as dismissed by the other admin, with the note of the first.
   */
  lemma {:induction false} DismissedYetSuspended(db: Db, c: Clash)
    requires MayClash(db, c)
    ensures var d := Reached(db, ThenDismisser(c)).db;
            c.user in d.profiles && d.profiles[c.user].status == Suspended &&
            d.profiles[c.user].suspendReason == Some(SuspendReasonOf(c.note)) &&
            c.id in d.reports && d.reports[c.id] == HandledReport(db.reports[c.id], c.b, Dismissed, c.note, c.bNow)
  {
    DismisserCommits(db, c);
  }
}
