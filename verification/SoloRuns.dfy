/**
 A transaction that races with nobody is the serial request, whether it commits or fails: the
 steps of the two races take no more and no less than the services do.
 */
module SoloRuns {
  import opened Basics
  import opened Schema
  import opened Services
  import opened Answers
  import R = AdminRace
  import A = ApprovalRace

  // ---------------------------------------------------------------- a decision alone

  function DecisionSteps(appId: Uuid, admin: Uuid, now: int, verdict: A.Verdict): seq<A.TxStep> {
    [A.Begin(0, appId, admin, now, verdict), A.Read(0), A.Claim(0), A.SetRole(0), A.Insert(0), A.Commit(0)]
  }

  ghost function DoAll(w: A.World, steps: seq<A.TxStep>): A.World {
    if steps == [] then w else A.Do(DoAll(w, steps[..|steps| - 1]), steps[|steps| - 1])
  }

  function OneDecision(db: Db, tx: A.Tx, log: seq<Request>): A.World {
    A.World(db, map[0 := tx], log)
  }

  lemma {:induction false} DecisionPut(db: Db, tx: A.Tx, log: seq<Request>, next: A.Tx)
    ensures OneDecision(db, tx, log).txs[0 := next] == OneDecision(db, next, log).txs
    ensures !A.Waiting(OneDecision(db, tx, log), 0)
  {
    assert map[0 := tx][0 := next] == map[0 := next];
  }

  lemma {:induction false} DoneDecision(db: Db, tx: A.Tx, log: seq<Request>, s: A.TxStep)
    requires tx.phase.Done? && s.t == 0
    ensures A.Do(OneDecision(db, tx, log), s) == OneDecision(db, tx, log)
  {
  }

  function Reader(appId: Uuid, admin: Uuid, now: int, verdict: A.Verdict): A.Tx {
    A.Tx(appId, admin, now, verdict, None, A.Started)
  }

  function EndOf(o: Outcome): A.Ending {
    match o case Ok(_) => A.Committed case Err(e) => A.Failed(e)
  }

  lemma {:induction false} OneMoreStep(w: A.World, steps: seq<A.TxStep>, s: A.TxStep)
    ensures DoAll(w, steps + [s]) == A.Do(DoAll(w, steps), s)
  {
    assert (steps + [s])[..|steps|] == steps;
  }

  lemma {:induction false} SixTogether<S>(a: S, b: S, c: S, d: S, e: S, f: S)
    ensures [] + [a] == [a] && [a] + [b] == [a, b] && [a, b] + [c] == [a, b, c]
    ensures [a, b, c] + [d] == [a, b, c, d] && [a, b, c, d] + [e] == [a, b, c, d, e]
    ensures [a, b, c, d, e] + [f] == [a, b, c, d, e, f]
  {
  }

  lemma {:induction false} SixSteps(
      w: A.World, a: A.TxStep, b: A.TxStep, c: A.TxStep, d: A.TxStep, e: A.TxStep, f: A.TxStep)
    ensures DoAll(w, [a, b, c, d, e, f]) == A.Do(A.Do(A.Do(A.Do(A.Do(A.Do(w, a), b), c), d), e), f)
  {
    OneMoreStep(w, [], a);
    OneMoreStep(w, [a], b);
    OneMoreStep(w, [a, b], c);
    OneMoreStep(w, [a, b, c], d);
    OneMoreStep(w, [a, b, c, d], e);
    OneMoreStep(w, [a, b, c, d, e], f);
    SixTogether(a, b, c, d, e, f);
  }

  /** The world after reading and claiming. */
  ghost function ReadAndClaimed(db: Db, appId: Uuid, admin: Uuid, now: int, verdict: A.Verdict): A.World {
    A.Do(A.Do(A.Do(A.World(db, map[], []), A.Begin(0, appId, admin, now, verdict)), A.Read(0)), A.Claim(0))
  }

  lemma {:induction false} Begins(db: Db, appId: Uuid, admin: Uuid, now: int, verdict: A.Verdict)
    requires admin in db.profiles
    ensures A.Do(A.World(db, map[], []), A.Begin(0, appId, admin, now, verdict)) ==
            OneDecision(db, Reader(appId, admin, now, verdict), [])
  {
  }

  lemma {:induction false} ClaimAlone(db: Db, appId: Uuid, admin: Uuid, now: int, verdict: A.Verdict)
    requires admin in db.profiles
    ensures var tx := Reader(appId, admin, now, verdict);
            ReadAndClaimed(db, appId, admin, now, verdict) ==
            OneDecision(db,
                        if appId !in db.applications then tx.(phase := A.Done(A.Failed(NotFound)))
                        else if db.applications[appId].status != Pending then tx.(phase := A.Done(A.Failed(Conflict)))
                        else tx.(row := Some(db.applications[appId]), phase := A.Claimed), [])
  {
    var tx := Reader(appId, admin, now, verdict);
    Begins(db, appId, admin, now, verdict);
    DecisionPut(db, tx, [], A.AfterRead(db, tx));
    if Open(db, appId) {
      var read := tx.(row := Some(db.applications[appId]), phase := A.HasRead);
      DecisionPut(db, read, [], read.(phase := A.Claimed));
    } else {
      DoneDecision(db, A.AfterRead(db, tx), [], A.Claim(0));
    }
  }

  ghost function Rest(w: A.World): A.World {
    A.Do(A.Do(A.Do(w, A.SetRole(0)), A.Insert(0)), A.Commit(0))
  }

  lemma {:induction false} RestOfDone(db: Db, tx: A.Tx)
    requires tx.phase.Done?
    ensures Rest(OneDecision(db, tx, [])) == OneDecision(db, tx, [])
  {
    DoneDecision(db, tx, [], A.SetRole(0));
    DoneDecision(db, tx, [], A.Insert(0));
    DoneDecision(db, tx, [], A.Commit(0));
  }

  lemma {:induction false} RestOfReject(db: Db, tx: A.Tx)
    requires tx.phase == A.Claimed && tx.verdict.ToReject? && A.CanCommit(db, tx)
    ensures Rest(OneDecision(db, tx, [])) ==
            OneDecision(A.Effect(db, tx), tx.(phase := A.Done(A.Committed)), [A.Decision(tx)])
  {
    DecisionPut(db, tx, [], tx.(phase := A.Done(A.Committed)));
  }

  lemma {:induction false} CommitAlone(db: Db, tx: A.Tx)
    requires tx.phase == A.Inserted && A.CanCommit(db, tx)
    ensures A.Do(OneDecision(db, tx, []), A.Commit(0)) ==
            OneDecision(A.Effect(db, tx), tx.(phase := A.Done(A.Committed)), [A.Decision(tx)])
  {
    DecisionPut(db, tx, [], tx.(phase := A.Done(A.Committed)));
  }

  lemma {:induction false} RestOfApprove(db: Db, tx: A.Tx)
    requires tx.phase == A.Claimed && tx.verdict.ToApprove? && A.CanCommit(db, tx)
    ensures Rest(OneDecision(db, tx, [])) ==
            if NameOrUserTaken(db, tx.row.value) then OneDecision(db, tx.(phase := A.Done(A.Failed(Conflict))), [])
            else OneDecision(A.Effect(db, tx.(phase := A.Inserted)), tx.(phase := A.Done(A.Committed)),
                             [A.Decision(tx)])
  {
    var held := tx.(phase := A.RoleSet);
    DecisionPut(db, tx, [], held);
    DecisionPut(db, held, [], A.AfterInsert(db, held));
    if NameOrUserTaken(db, tx.row.value) {
      DoneDecision(db, tx.(phase := A.Done(A.Failed(Conflict))), [], A.Commit(0));
    } else {
      CommitAlone(db, tx.(phase := A.Inserted));
    }
  }

  /** The ending of a claimed decision is that of the request. */
  lemma {:induction false} RejectAlone(db: Db, tx: A.Tx)
    requires Valid(db) && A.TxOk(db, tx) && tx.phase == A.Claimed && tx.verdict.ToReject?
    ensures var o := Handle(db, A.Decision(tx));
            Rest(OneDecision(db, tx, [])).db == After(db, o) &&
            Rest(OneDecision(db, tx, [])).txs == map[0 := tx.(phase := A.Done(EndOf(o)))]
  {
    A.CommitIsSerial(db, tx);
    RestOfReject(db, tx);
  }

  lemma {:induction false} ApproveAlone(db: Db, tx: A.Tx)
    requires Valid(db) && A.TxOk(db, tx) && tx.phase == A.Claimed && tx.verdict.ToApprove?
    requires tx.row == Some(db.applications[tx.appId])
    ensures var o := Handle(db, A.Decision(tx));
            Rest(OneDecision(db, tx, [])).db == After(db, o) &&
            Rest(OneDecision(db, tx, [])).txs == map[0 := tx.(phase := A.Done(EndOf(o)))]
  {
    ApproveAnswers(db, tx.appId, tx.admin, tx.now);
    ApplicantRegistered(db, tx.appId);
    RestOfApprove(db, tx);
    if !NameOrUserTaken(db, tx.row.value) {
      A.CommitIsSerial(db, tx.(phase := A.Inserted));
    }
  }

  lemma {:induction false} ApplicantRegistered(db: Db, appId: Uuid)
    requires Valid(db) && appId in db.applications
    ensures db.applications[appId].userId in db.profiles
  {
    assert ApplicationKeysValid(db.profiles.Keys, db.applications[appId]);
  }

  lemma {:induction false} EarlyEnd(db: Db, appId: Uuid, admin: Uuid, now: int, verdict: A.Verdict)
    requires !Open(db, appId)
    ensures Handle(db, A.Decision(Reader(appId, admin, now, verdict))) ==
            Err(if appId in db.applications then Conflict else NotFound)
  {
  }

  /**
   The steps of an approval or a rejection that meets nobody end as its request does, with the
   same tables and the same error.
   */
  lemma {:induction false} DecisionAlone(db: Db, appId: Uuid, admin: Uuid, now: int, verdict: A.Verdict)
    requires Valid(db) && admin in db.profiles
    ensures var w := DoAll(A.World(db, map[], []), DecisionSteps(appId, admin, now, verdict));
            var o := Handle(db, A.Decision(Reader(appId, admin, now, verdict)));
            w.db == After(db, o) && 0 in w.txs && w.txs[0].phase == A.Done(EndOf(o))
  {
    var tx := Reader(appId, admin, now, verdict);
    SixSteps(A.World(db, map[], []), A.Begin(0, appId, admin, now, verdict), A.Read(0), A.Claim(0), A.SetRole(0),
             A.Insert(0), A.Commit(0));
    ClaimAlone(db, appId, admin, now, verdict);
    if Open(db, appId) {
      var claimed := tx.(row := Some(db.applications[appId]), phase := A.Claimed);
      if verdict.ToReject? {
        RejectAlone(db, claimed);
      } else {
        ApproveAlone(db, claimed);
      }
    } else {
      EarlyEnd(db, appId, admin, now, verdict);
      RestOfDone(db, tx.(phase := A.Done(A.Failed(if appId in db.applications then Conflict else NotFound))));
    }
  }

  // ---------------------------------------------------------------- a change alone

  ghost function ChangeAll(w: R.World, steps: seq<R.TxStep>): R.World {
    if steps == [] then w else R.Do(ChangeAll(w, steps[..|steps| - 1]), steps[|steps| - 1])
  }

  function ChangeSteps(job: R.Job, target: Uuid, admin: Uuid, now: int): seq<R.TxStep> {
    [R.Begin(0, job, target, admin, now), R.ReadReport(0), R.ReadProfile(0), R.WriteProfile(0), R.WriteReport(0),
     R.Commit(0)]
  }

  lemma {:induction false} OneMoreChange(w: R.World, steps: seq<R.TxStep>, s: R.TxStep)
    ensures ChangeAll(w, steps + [s]) == R.Do(ChangeAll(w, steps), s)
  {
    assert (steps + [s])[..|steps|] == steps;
  }

  lemma {:induction false} SixChanges(
      w: R.World, a: R.TxStep, b: R.TxStep, c: R.TxStep, d: R.TxStep, e: R.TxStep, f: R.TxStep)
    ensures ChangeAll(w, [a, b, c, d, e, f]) == R.Do(R.Do(R.Do(R.Do(R.Do(R.Do(w, a), b), c), d), e), f)
  {
    OneMoreChange(w, [], a);
    OneMoreChange(w, [a], b);
    OneMoreChange(w, [a, b], c);
    OneMoreChange(w, [a, b, c], d);
    OneMoreChange(w, [a, b, c, d], e);
    OneMoreChange(w, [a, b, c, d, e], f);
    SixTogether(a, b, c, d, e, f);
  }

  function OneChange(db: Db, tx: R.Tx): R.World {
    R.World(db, map[], map[0 := tx], [])
  }

  lemma {:induction false} StepAlone(db: Db, tx: R.Tx, s: R.TxStep)
    requires s.t == 0 && !s.Begin? && !s.Commit?
    ensures var w := OneChange(db, tx);
            R.Do(w, s) == if R.CanDo(w, s) then OneChange(db, R.Next(w, s)) else w
  {
    var w := OneChange(db, tx);
    if R.CanDo(w, s) {
      assert map[0 := tx][0 := R.Next(w, s)] == map[0 := R.Next(w, s)];
    }
  }

  lemma {:induction false} DoneChange(db: Db, tx: R.Tx, s: R.TxStep)
    requires tx.phase.Done? && s.t == 0
    ensures R.Do(OneChange(db, tx), s) == OneChange(db, tx)
  {
  }

  lemma {:induction false} BeginsChange(db: Db, job: R.Job, target: Uuid, admin: Uuid, now: int)
    requires admin in db.profiles
    ensures R.Do(R.Start(db), R.Begin(0, job, target, admin, now)) == OneChange(db, R.NewTx(job, target, admin, now))
  {
  }

  /** The end of a change alone: the tables after it, and whether it committed. */
  ghost predicate EndsAs(w: R.World, db: Db, o: Outcome) {
    w.db == After(db, o) && 0 in w.changes && w.changes[0].phase == R.Done(o.Ok?)
  }

  ghost function WritesAndCommit(w: R.World): R.World {
    R.Do(R.Do(R.Do(w, R.WriteProfile(0)), R.WriteReport(0)), R.Commit(0))
  }

  lemma {:induction false} NothingLeft(db: Db, tx: R.Tx)
    requires tx.phase.Done?
    ensures WritesAndCommit(OneChange(db, tx)) == OneChange(db, tx)
  {
    DoneChange(db, tx, R.WriteProfile(0));
    DoneChange(db, tx, R.WriteReport(0));
    DoneChange(db, tx, R.Commit(0));
  }

  lemma {:induction false} CommitsAlone(db: Db, tx: R.Tx)
    requires R.ReadyToCommit(tx)
    ensures var w := R.Do(OneChange(db, tx), R.Commit(0));
            w.db == R.Published(db, tx) && 0 in w.changes && w.changes[0].phase == R.Done(true)
  {
  }

  /** The profile written by a change past its check. */
  function WithProfile(db: Db, tx: R.Tx): R.Tx
    requires tx.target in db.profiles
  {
    tx.(phase := R.Wrote, newProfile := Some(R.NewProfile(db.profiles[tx.target], tx)))
  }

  function WithReport(db: Db, tx: R.Tx): R.Tx
    requires tx.job.Resolving? && tx.job.report in db.reports && tx.seen.Some?
  {
    tx.(phase := R.Filed, newReport := Some(R.NewReport(db.reports[tx.job.report], tx)))
  }

  predicate Unwritten(tx: R.Tx) {
    tx.newProfile == None && tx.newReport == None
  }

  lemma {:induction false} WritesProfile(db: Db, tx: R.Tx)
    requires tx.phase == R.Checked && R.ChangesStatus(tx.job) && Unwritten(tx) && tx.target in db.profiles
    ensures R.Do(OneChange(db, tx), R.WriteProfile(0)) == OneChange(db, WithProfile(db, tx))
  {
    StepAlone(db, tx, R.WriteProfile(0));
  }

  lemma {:induction false} WritesReport(db: Db, tx: R.Tx)
    requires R.MayWriteReport(tx) && tx.newReport == None && tx.job.report in db.reports
    ensures R.Do(OneChange(db, tx), R.WriteReport(0)) == OneChange(db, WithReport(db, tx))
  {
    StepAlone(db, tx, R.WriteReport(0));
  }

  /** A suspension or unsuspension, past its check. */
  lemma {:induction false} StatusCommits(db: Db, tx: R.Tx)
    requires tx.phase == R.Checked && !tx.job.Resolving? && Unwritten(tx) && R.Admitted(db, tx)
    ensures EndsAs(WritesAndCommit(OneChange(db, tx)), db, Handle(db, R.RequestOf(tx)))
  {
    var wrote := WithProfile(db, tx);
    WritesProfile(db, tx);
    StepAlone(db, wrote, R.WriteReport(0));
    CommitsAlone(db, wrote);
  }

  /** A resolution that suspends, past both checks. */
  lemma {:induction false} SuspendingCommits(db: Db, tx: R.Tx)
    requires tx.phase == R.Checked && tx.job.Resolving? && R.ChangesStatus(tx.job) && Unwritten(tx)
    requires R.Admitted(db, tx) && tx.job.report in db.reports && tx.seen == Some(db.reports[tx.job.report])
    ensures var w := WritesAndCommit(OneChange(db, tx));
            w.db == R.Published(db, WithReport(db, WithProfile(db, tx))) && 0 in w.changes &&
            w.changes[0].phase == R.Done(true)
  {
    WritesProfile(db, tx);
    WritesReport(db, WithProfile(db, tx));
    CommitsAlone(db, WithReport(db, WithProfile(db, tx)));
  }

  /** A resolution that suspends nobody, past its check. */
  lemma {:induction false} HandlingCommits(db: Db, tx: R.Tx)
    requires tx.phase == R.Checked && tx.job.Resolving? && !R.ChangesStatus(tx.job) && Unwritten(tx)
    requires tx.job.report in db.reports && tx.seen == Some(db.reports[tx.job.report])
    ensures var w := WritesAndCommit(OneChange(db, tx));
            w.db == R.Published(db, WithReport(db, tx)) && 0 in w.changes && w.changes[0].phase == R.Done(true)
  {
    StepAlone(db, tx, R.WriteProfile(0));
    WritesReport(db, tx);
    CommitsAlone(db, WithReport(db, tx));
  }

  ghost function ReadsAlone(db: Db, job: R.Job, target: Uuid, admin: Uuid, now: int): R.World {
    R.Do(R.Do(R.Do(R.Start(db), R.Begin(0, job, target, admin, now)), R.ReadReport(0)), R.ReadProfile(0))
  }

  lemma {:induction false} StatusReads(db: Db, job: R.Job, target: Uuid, admin: Uuid, now: int)
    requires admin in db.profiles && !job.Resolving?
    ensures ReadsAlone(db, job, target, admin, now) ==
            OneChange(db, R.AfterProfile(db, R.NewTx(job, target, admin, now)))
  {
    var tx := R.NewTx(job, target, admin, now);
    BeginsChange(db, job, target, admin, now);
    StepAlone(db, tx, R.ReadReport(0));
    StepAlone(db, tx, R.ReadProfile(0));
  }

  lemma {:induction false} ResolutionReads(db: Db, job: R.Job, target: Uuid, admin: Uuid, now: int)
    requires admin in db.profiles && job.Resolving?
    ensures var tx := R.AfterReport(db, R.NewTx(job, target, admin, now));
            ReadsAlone(db, job, target, admin, now) ==
            OneChange(db, if tx.phase == R.Asked then R.AfterProfile(db, tx) else tx)
  {
    var tx := R.NewTx(job, target, admin, now);
    BeginsChange(db, job, target, admin, now);
    StepAlone(db, tx, R.ReadReport(0));
    StepAlone(db, R.AfterReport(db, tx), R.ReadProfile(0));
  }

  lemma {:induction false} StatusAlone(db: Db, job: R.Job, target: Uuid, admin: Uuid, now: int)
    requires admin in db.profiles && !job.Resolving?
    ensures EndsAs(WritesAndCommit(ReadsAlone(db, job, target, admin, now)), db,
                   Handle(db, R.RequestOf(R.NewTx(job, target, admin, now))))
  {
    var tx := R.NewTx(job, target, admin, now);
    StatusReads(db, job, target, admin, now);
    if R.Admitted(db, tx) {
      StatusCommits(db, tx.(phase := R.Checked));
    } else {
      NothingLeft(db, R.AfterProfile(db, tx));
    }
  }

  /** What a resolution writes when it meets nobody. */
  lemma {:induction false} HandlingIsServed(db: Db, tx: R.Tx)
    requires tx.job.Resolving? && !R.ChangesStatus(tx.job) && Unwritten(tx) && Unhandled(db, tx.job.report)
    requires tx.admin in db.profiles && tx.seen == Some(db.reports[tx.job.report])
    ensures Handle(db, R.RequestOf(tx)) == Ok(R.Published(db, WithReport(db, tx)))
  {
  }

  lemma {:induction false} SuspendingIsServed(db: Db, tx: R.Tx)
    requires tx.job.Resolving? && R.ChangesStatus(tx.job) && Unwritten(tx) && Unhandled(db, tx.job.report)
    requires tx.admin in db.profiles && tx.seen == Some(db.reports[tx.job.report])
    requires SenderOf(db, tx.job.report) == Some(tx.target) && R.Admitted(db, tx)
    ensures Handle(db, R.RequestOf(tx)) == Ok(R.Published(db, WithReport(db, WithProfile(db, tx))))
  {
  }

  lemma {:induction false} ResolutionFails(db: Db, tx: R.Tx)
    requires tx.job.Resolving? && tx.admin in db.profiles
    requires !Unhandled(db, tx.job.report) ||
             (R.ChangesStatus(tx.job) && !Suspendable(db, SenderOf(db, tx.job.report), tx.admin))
    ensures Handle(db, R.RequestOf(tx)).Err?
  {
    ResolveAnswers(db, tx.job.report, tx.admin, tx.job.action, tx.job.note, tx.now);
  }

  lemma {:induction false} ResolutionAlone(db: Db, job: R.Job, target: Uuid, admin: Uuid, now: int)
    requires admin in db.profiles && job.Resolving?
    ensures EndsAs(WritesAndCommit(ReadsAlone(db, job, target, admin, now)), db,
                   Handle(db, R.RequestOf(R.NewTx(job, target, admin, now))))
  {
    var tx := R.NewTx(job, target, admin, now);
    var read := R.AfterReport(db, tx);
    ResolutionReads(db, job, target, admin, now);
    if read.phase == R.Checked {
      HandlingCommits(db, read);
      HandlingIsServed(db, read);
    } else if read.phase == R.Asked && R.Admitted(db, read) {
      SuspendingCommits(db, read.(phase := R.Checked));
      SuspendingIsServed(db, read.(phase := R.Checked));
    } else {
      ResolutionFails(db, tx);
      NothingLeft(db, if read.phase == R.Asked then R.AfterProfile(db, read) else read);
    }
  }

  /**
   The steps of a suspension, an unsuspension or a resolution that meets nobody commit exactly
   when its request succeeds, and then leave the tables of the request.
   */
  lemma {:induction false} ChangeAlone(db: Db, job: R.Job, target: Uuid, admin: Uuid, now: int)
    requires admin in db.profiles
    ensures EndsAs(ChangeAll(R.Start(db), ChangeSteps(job, target, admin, now)), db,
                   Handle(db, R.RequestOf(R.NewTx(job, target, admin, now))))
  {
    SixChanges(R.Start(db), R.Begin(0, job, target, admin, now), R.ReadReport(0), R.ReadProfile(0), R.WriteProfile(0),
               R.WriteReport(0), R.Commit(0));
    if job.Resolving? {
      ResolutionAlone(db, job, target, admin, now);
    } else {
      StatusAlone(db, job, target, admin, now);
    }
  }

  // ---------------------------------------------------------------- who waits for whom

  /** The rows a decision holds by its phase. */
  predicate ClaimHeld(tx: A.Tx) {
    match tx.phase case Claimed => true case RoleSet => true case Inserted => true case _ => false
  }

  predicate RoleHeld(tx: A.Tx) {
    match tx.phase case RoleSet => true case Inserted => true case _ => false
  }

  predicate SameApplicant(a: A.Tx, b: A.Tx) {
    match (a.row, b.row) case (Some(x), Some(y)) => x.userId == y.userId case _ => false
  }

  predicate SameStageName(a: A.Tx, b: A.Tx) {
    match (a.row, b.row) case (Some(x), Some(y)) => x.stageName == y.stageName case _ => false
  }

  /**
   A decision waits for another exactly when that one holds the row it writes next: to claim,
   the application; to set the role, the profile; to flush, a key or name just flushed.
   */
  lemma {:induction false} WaitsExactly(tx: A.Tx, other: A.Tx)
    ensures A.Waits(tx, other) <==>
            match tx.phase
            case HasRead => ClaimHeld(other) && other.appId == tx.appId
            case Claimed => tx.verdict == A.ToApprove && RoleHeld(other) && SameApplicant(tx, other)
            case RoleSet => other.phase == A.Inserted && (SameApplicant(tx, other) || SameStageName(tx, other))
            case _ => false
  {
  }

  /** Decisions on unrelated applications never wait for one another. */
  lemma {:induction false} UnrelatedNeverWait(tx: A.Tx, other: A.Tx)
    requires tx.appId != other.appId && !SameApplicant(tx, other) && !SameStageName(tx, other)
    ensures !A.Waits(tx, other) && !A.Waits(other, tx)
  {
    WaitsExactly(tx, other);
    WaitsExactly(other, tx);
  }

  function ApplicantOf(tx: A.Tx): Option<Uuid> {
    match tx.row case None => None case Some(a) => Some(a.userId)
  }

  /** The requests of other kinds that have to wait for a decision are those that write a row it holds. */
  lemma {:induction false} BlocksExactly(db: Db, tx: A.Tx, op: Op)
    ensures A.Blocks(db, tx, op) <==>
            match op
            case ToAuth(WithdrawOp(_, id)) => ClaimHeld(tx) && id == tx.appId
            case ToAuth(ReapplyOp(user, _, _, _, _)) => ClaimHeld(tx) && ApplicantOf(tx) == Some(user)
            case ToAdmin(SuspendOp(user, _, _)) => RoleHeld(tx) && ApplicantOf(tx) == Some(user)
            case ToAdmin(UnsuspendOp(user)) => RoleHeld(tx) && ApplicantOf(tx) == Some(user)
            case ToReports(ResolveReportOp(id, _, SuspendedSender, _)) =>
              RoleHeld(tx) && SenderOf(db, id).Some? && ApplicantOf(tx) == SenderOf(db, id)
            case _ => false
  {
  }

  lemma {:induction false} DecisionsAre(op: Op)
    ensures A.IsDecision(op) <==>
            match op case ToAdmin(ApproveOp(_, _)) => true case ToAdmin(RejectOp(_, _, _)) => true case _ => false
  {
  }

  /** Nobody waits for itself. */
  lemma {:induction false} WaitsForOthers(w: A.World, t: nat)
    requires t in w.txs
    ensures A.Waiting(w, t) <==> exists o: nat :: o in w.txs && o != t && A.Waits(w.txs[t], w.txs[o])
  {
  }
}
