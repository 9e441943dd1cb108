/** When a race of admin requests amounts to a serial run of them, in commit order. */
module RaceSerial {
  import opened Basics
  import opened Schema
  import opened Services
  import opened Suspensions
  import opened AdminRace
  import opened AdminRaceFacts
  import opened SuspensionRace
  import opened ReportRace

  // ---------------------------------------------------------------- one commit

  /** What a change checked before it wrote is still so. */
  predicate ChecksHold(db: Db, tx: Tx) {
    (ChangesStatus(tx.job) ==> Suspended01(db, tx.target) == Flag(tx.job.Unsuspending?)) &&
    (tx.job.Resolving? ==> Handled01(db, tx.job.report) == 0)
  }

  lemma {:induction false} StatusChangeIsSerial(db: Db, tx: Tx)
    requires TxOk(db, tx) && ReadyToCommit(tx) && !tx.job.Resolving?
    ensures Handle(db, RequestOf(tx)).Ok? <==> ChecksHold(db, tx)
    ensures ChecksHold(db, tx) ==> Handle(db, RequestOf(tx)) == Ok(Published(db, tx))
  {
  }

  lemma {:induction false} ResolutionIsSerial(db: Db, tx: Tx)
    requires TxOk(db, tx) && ReadyToCommit(tx) && tx.job.Resolving?
    ensures Handle(db, RequestOf(tx)).Ok? <==> ChecksHold(db, tx)
    ensures ChecksHold(db, tx) ==> Handle(db, RequestOf(tx)) == Ok(Published(db, tx))
  {
    assert HoldsReport(tx);
  }

  lemma {:induction false} ChangeIsSerial(db: Db, tx: Tx)
    requires TxOk(db, tx) && ReadyToCommit(tx)
    ensures Handle(db, RequestOf(tx)).Ok? <==> ChecksHold(db, tx)
    ensures ChecksHold(db, tx) ==> Handle(db, RequestOf(tx)) == Ok(Published(db, tx))
  {
    if tx.job.Resolving? {
      ResolutionIsSerial(db, tx);
    } else {
      StatusChangeIsSerial(db, tx);
    }
  }

  /** The last change of its user since its read did what t does, or its report was resolved since. */
  ghost predicate Overtaken(db: Db, steps: seq<Move>, t: nat)
    requires t in Reached(db, steps).changes
  {
    var job := Reached(db, steps).changes[t].job;
    (ChangesStatus(job) && LastChange(db, steps, t) == Some(Suspends(job))) ||
    (job.Resolving? && ResolvedSince(db, steps, t))
  }

  lemma {:induction false} ChecksHoldIffNotOvertaken(db: Db, steps: seq<Move>, t: nat)
    requires Valid(db) && CanDo(Reached(db, steps), Commit(t))
    ensures ChecksHold(Reached(db, steps).db, Reached(db, steps).changes[t]) <==> !Overtaken(db, steps, t)
  {
    var w := Reached(db, steps);
    var tx := w.changes[t];
    if ChangesStatus(tx.job) {
      RepeatsIffOvertaken(db, steps, t);
    }
    if tx.job.Resolving? {
      TracksReport(db, steps, t, tx.job.report);
    }
  }

  /**
   The request of a committing change, served at once on the tables of the moment, succeeds
   exactly when the change was not overtaken, and then does what the commit does.
   */
  lemma {:induction false} CommitIsSerialIffNotOvertaken(db: Db, steps: seq<Move>, t: nat)
    requires Valid(db) && CanDo(Reached(db, steps), Commit(t))
    ensures var w := Reached(db, steps);
            var o := Handle(w.db, RequestOf(w.changes[t]));
            (o.Ok? <==> !Overtaken(db, steps, t)) && (o.Ok? ==> o.db == Do(w, Commit(t)).db)
  {
    RaceKeepsValid(db, steps);
    ChangeIsOk(Reached(db, steps), t);
    ChangeIsSerial(Reached(db, steps).db, Reached(db, steps).changes[t]);
    ChecksHoldIffNotOvertaken(db, steps, t);
  }

  // ---------------------------------------------------------------- whole races

  /** Every request of a serial run succeeds. */
  predicate Accepted(db: Db, rs: seq<Request>) {
    rs == [] || (Accepted(db, rs[..|rs| - 1]) && Handle(Run(db, rs[..|rs| - 1]), rs[|rs| - 1]).Ok?)
  }

  lemma {:induction false} AcceptedAppend(db: Db, rs: seq<Request>, r: Request)
    ensures Accepted(db, rs + [r]) <==> Accepted(db, rs) && Handle(Run(db, rs), r).Ok?
    ensures Run(db, rs + [r]) == Step(Run(db, rs), r)
  {
    assert (rs + [r])[..|rs|] == rs;
  }

  ghost predicate OvertakenNow(db: Db, steps: seq<Move>, s: Move) {
    Commits(Reached(db, steps), s) && Overtaken(db, steps, s.change.t)
  }

  ghost predicate NoneOvertaken(db: Db, steps: seq<Move>) {
    steps == [] ||
    (NoneOvertaken(db, steps[..|steps| - 1]) && !OvertakenNow(db, steps[..|steps| - 1], steps[|steps| - 1]))
  }

  /** A move that logs nothing changes no table; one that logs a request does what the request does, if it may. */
  ghost predicate Logs(w: World, v: World, late: bool) {
    if v.log == w.log then v.db == w.db && !late
    else
      |v.log| == |w.log| + 1 && v.log[..|w.log|] == w.log &&
      var o := Handle(w.db, v.log[|w.log|]);
      (o.Ok? <==> !late) && (o.Ok? ==> o.db == v.db)
  }

  lemma {:induction false} DecisionCommits(w: A.World, d: A.TxStep)
    requires A.CanDo(w, d) && d.Commit? && Valid(w.db) && A.TxOk(w.db, w.txs[d.t])
    ensures A.Do(w, d).log == w.log + [A.Decision(w.txs[d.t])]
    ensures Handle(w.db, A.Decision(w.txs[d.t])) == Ok(A.Do(w, d).db)
  {
    A.CommitIsSerial(w.db, w.txs[d.t]);
  }

  lemma {:induction false} DecisionLogs(w: World, d: A.TxStep)
    requires A.CanDo(Decisions(w), d) && d.Commit? ==> Valid(w.db) && A.TxOk(w.db, w.decisions[d.t])
    ensures Logs(w, AfterDecision(w, d), false)
  {
    if MayDecide(w, d) && A.CanDo(Decisions(w), d) && d.Commit? {
      DecisionCommits(Decisions(w), d);
    }
  }

  lemma {:induction false} DecisionReady(w: World, d: A.TxStep)
    requires Inv(w) && A.CanDo(Decisions(w), d) && d.Commit?
    ensures Valid(w.db) && A.TxOk(w.db, w.decisions[d.t])
  {
  }

  lemma {:induction false} ChangeLogs(db: Db, steps: seq<Move>, c: TxStep)
    requires Valid(db)
    ensures Logs(Reached(db, steps), Do(Reached(db, steps), c), OvertakenNow(db, steps, Change(c)))
  {
    if CanDo(Reached(db, steps), c) && c.Commit? {
      CommitIsSerialIffNotOvertaken(db, steps, c.t);
    }
  }

  lemma {:induction false} PassLogs(w: World, r: Request)
    ensures Logs(w, Pass(w, r), false)
  {
  }

  lemma {:induction false} MoveLogs(db: Db, steps: seq<Move>, s: Move)
    requires Valid(db)
    ensures Logs(Reached(db, steps), Take(Reached(db, steps), s), OvertakenNow(db, steps, s))
  {
    RaceKeepsValid(db, steps);
    match s
    case Decide(d) =>
      if A.CanDo(Decisions(Reached(db, steps)), d) && d.Commit? {
        DecisionReady(Reached(db, steps), d);
      }
      DecisionLogs(Reached(db, steps), d);
    case Change(c) => ChangeLogs(db, steps, c);
    case Meanwhile(r) => PassLogs(Reached(db, steps), r);
  }

  lemma {:induction false} LoggedStep(db: Db, w: World, v: World, late: bool)
    requires Logs(w, v, late) && (Accepted(db, w.log) ==> w.db == Run(db, w.log))
    ensures Accepted(db, v.log) <==> Accepted(db, w.log) && !late
    ensures Accepted(db, v.log) ==> v.db == Run(db, v.log)
  {
    if v.log != w.log {
      assert v.log == w.log + [v.log[|w.log|]];
      AcceptedAppend(db, w.log, v.log[|w.log|]);
    }
  }

  /**
   The requests that went through, approvals, rejections, suspensions, unsuspensions,
   resolutions and all others, make in commit order a serial run in which every one succeeds
   exactly when no change was overtaken; the tables are then those of that run.
   */
  lemma {:induction false} SerialIffNoneOvertaken(db: Db, steps: seq<Move>)
    requires Valid(db)
    ensures var w := Reached(db, steps);
            (Accepted(db, w.log) <==> NoneOvertaken(db, steps)) && (Accepted(db, w.log) ==> w.db == Run(db, w.log))
  {
    if steps != [] {
      var front, s := steps[..|steps| - 1], steps[|steps| - 1];
      SerialIffNoneOvertaken(db, front);
      MoveLogs(db, front, s);
      LoggedStep(db, Reached(db, front), Reached(db, steps), OvertakenNow(db, front, s));
    }
  }
}
