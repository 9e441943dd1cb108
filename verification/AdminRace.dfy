/**
 Every admin request racing with every other: approvals and rejections (the steps of
 ApprovalRace), suspensions, unsuspensions and resolutions of reports.

 The updates of the last three repeat no check. A change of that kind reads the report (when
 it resolves one) and the profile (when it changes the status), writes the new version of the
 profile row, then of the report row, and commits or is aborted. A written row is held until
 then and its new version is published by the commit. What users do happens between these
 steps in one go, as long as it leaves held rows alone.
 */
module AdminRace {
  import opened Basics
  import opened Schema
  import opened Services
  import opened Constraints
  import opened Suspensions
  import A = ApprovalRace

  datatype Job =
    | Suspending(reason: string)
    | Unsuspending
    | Resolving(report: Uuid, action: ReportAction, note: Option<string>)

  datatype Phase =
    | Called            // a resolution that has not read its report
    | Asked             // the profile is not read yet
    | Checked           // every check passed, nothing is written
    | Wrote             // the profile row is held
    | Filed             // the report row is held too
    | Done(committed: bool)

  /** The target of a resolution is known once the report is read; seen is the report read. */
  datatype Tx = Tx(
    job: Job, target: Uuid, admin: Uuid, now: int, phase: Phase, seen: Option<Report>,
    newProfile: Option<Profile>, newReport: Option<Report>)

  datatype TxStep =
    | Begin(t: nat, job: Job, target: Uuid, admin: Uuid, now: int)
    | ReadReport(t: nat)
    | ReadProfile(t: nat)
    | WriteProfile(t: nat)
    | WriteReport(t: nat)
    | Commit(t: nat)
    | Abort(t: nat)

  /** Committed tables, all transactions so far, and the requests that went through, in commit order. */
  datatype World = World(db: Db, decisions: map<nat, A.Tx>, changes: map<nat, Tx>, log: seq<Request>)

  datatype Move = Decide(decision: A.TxStep) | Change(change: TxStep) | Meanwhile(r: Request)

  // ---------------------------------------------------------------- locks

  predicate ChangesStatus(job: Job) {
    job.Resolving? ==> job.action == SuspendedSender
  }

  predicate HoldsProfile(tx: Tx) {
    tx.newProfile.Some? && !tx.phase.Done?
  }

  predicate HoldsReport(tx: Tx) {
    tx.newReport.Some? && !tx.phase.Done? && tx.job.Resolving?
  }

  /** A change holds the profile row of u. */
  predicate HeldByChange(w: World, u: Uuid) {
    exists o :: o in w.changes && HoldsProfile(w.changes[o]) && w.changes[o].target == u
  }

  predicate DecisionHolds(tx: A.Tx, u: Uuid) {
    A.HoldsProfile(tx) && tx.row.Some? && tx.row.value.userId == u
  }

  predicate HeldByDecision(w: World, u: Uuid) {
    exists o :: o in w.decisions && DecisionHolds(w.decisions[o], u)
  }

  predicate ReportHeld(w: World, id: Uuid) {
    exists o :: o in w.changes && HoldsReport(w.changes[o]) && w.changes[o].job.report == id
  }

  // ---------------------------------------------------------------- steps

  /** What resolve_report sees of its report. */
  function AfterReport(db: Db, tx: Tx): Tx
    requires tx.job.Resolving?
  {
    var id := tx.job.report;
    if id !in db.reports || db.reports[id].status == Handled then tx.(phase := Done(false))
    else if tx.job.action != SuspendedSender then tx.(phase := Checked, seen := Some(db.reports[id]))
    else if db.reports[id].messageId !in db.messages then tx.(phase := Done(false))
    else tx.(phase := Asked, seen := Some(db.reports[id]), target := db.messages[db.reports[id].messageId].senderId)
  }

  /** The checks of suspend_user and unsuspend_user on what was read. */
  predicate Admitted(db: Db, tx: Tx) {
    tx.target in db.profiles &&
    if tx.job.Unsuspending? then db.profiles[tx.target].status == Suspended
    else tx.target != tx.admin && db.profiles[tx.target].status != Suspended
  }

  function AfterProfile(db: Db, tx: Tx): Tx {
    tx.(phase := if Admitted(db, tx) then Checked else Done(false))
  }

  function NewProfile(p: Profile, tx: Tx): Profile {
    match tx.job
    case Unsuspending => p.(status := Active, suspendedAt := None, suspendReason := None)
    case Suspending(reason) => p.(status := Suspended, suspendedAt := Some(tx.now), suspendReason := Some(reason))
    case Resolving(_, _, note) =>
      p.(status := Suspended, suspendedAt := Some(tx.now), suspendReason := Some(SuspendReasonOf(note)))
  }

  /**
   The row a resolution writes. The ORM sets the columns that differ from what it read, and
   of those of a waiting report only the note may not.
   */
  function NewReport(r: Report, tx: Tx): Report
    requires tx.job.Resolving? && tx.seen.Some?
  {
    var note := if tx.job.note == tx.seen.value.note then r.note else tx.job.note;
    HandledReport(r, tx.admin, tx.job.action, note, tx.now)
  }

  predicate MayWriteReport(tx: Tx) {
    tx.job.Resolving? && tx.seen.Some? && tx.phase == if ChangesStatus(tx.job) then Wrote else Checked
  }

  predicate ReadyToCommit(tx: Tx) {
    tx.phase == if tx.job.Resolving? then Filed else Wrote
  }

  /** Profiles and reports are never deleted, so the rows to write are there. */
  predicate CanDo(w: World, s: TxStep) {
    match s
    case Begin(t, _, _, admin, _) => t !in w.changes && admin in w.db.profiles
    case ReadReport(t) => t in w.changes && w.changes[t].phase == Called && w.changes[t].job.Resolving?
    case ReadProfile(t) => t in w.changes && w.changes[t].phase == Asked
    case WriteProfile(t) =>
      t in w.changes && w.changes[t].phase == Checked && ChangesStatus(w.changes[t].job) &&
      w.changes[t].target in w.db.profiles &&
      !HeldByChange(w, w.changes[t].target) && !HeldByDecision(w, w.changes[t].target)
    case WriteReport(t) =>
      t in w.changes && MayWriteReport(w.changes[t]) && w.changes[t].job.report in w.db.reports &&
      !ReportHeld(w, w.changes[t].job.report)
    case Commit(t) => t in w.changes && ReadyToCommit(w.changes[t])
    case Abort(t) => t in w.changes && !w.changes[t].phase.Done?
  }

  /** The tables with the written rows of a transaction. */
  function Published(db: Db, tx: Tx): Db {
    db.(profiles := if tx.newProfile.Some? then db.profiles[tx.target := tx.newProfile.value] else db.profiles,
        reports := if tx.newReport.Some? && tx.job.Resolving?
                   then db.reports[tx.job.report := tx.newReport.value] else db.reports)
  }

  /** The serial request a change amounts to. */
  function RequestOf(tx: Tx): Request {
    Request(tx.now,
            match tx.job
            case Suspending(reason) => ToAdmin(SuspendOp(tx.target, tx.admin, reason))
            case Unsuspending => ToAdmin(UnsuspendOp(tx.target))
            case Resolving(report, action, note) => ToReports(ResolveReportOp(report, tx.admin, action, note)))
  }

  function Put(w: World, t: nat, tx: Tx): World {
    w.(changes := w.changes[t := tx])
  }

  function Committed(w: World, t: nat): World
    requires t in w.changes
  {
    var tx := w.changes[t];
    World(Published(w.db, tx), w.decisions, w.changes[t := tx.(phase := Done(true))], w.log + [RequestOf(tx)])
  }

  function NewTx(job: Job, target: Uuid, admin: Uuid, now: int): Tx {
    Tx(job, target, admin, now, if job.Resolving? then Called else Asked, None, None, None)
  }

  /** What a step other than a commit makes of its transaction. */
  function Next(w: World, s: TxStep): Tx
    requires CanDo(w, s) && !s.Commit?
  {
    match s
    case Begin(t, job, target, admin, now) => NewTx(job, target, admin, now)
    case ReadReport(t) => AfterReport(w.db, w.changes[t])
    case ReadProfile(t) => AfterProfile(w.db, w.changes[t])
    case WriteProfile(t) =>
      var tx := w.changes[t];
      tx.(phase := Wrote, newProfile := Some(NewProfile(w.db.profiles[tx.target], tx)))
    case WriteReport(t) =>
      var tx := w.changes[t];
      tx.(phase := Filed, newReport := Some(NewReport(w.db.reports[tx.job.report], tx)))
    case Abort(t) => w.changes[t].(phase := Done(false))
  }

  /** A step that is not enabled waits: nothing happens. */
  function Do(w: World, s: TxStep): World {
    if !CanDo(w, s) then w else if s.Commit? then Committed(w, s.t) else Put(w, s.t, Next(w, s))
  }

  /** The race of decisions alone. */
  function Decisions(w: World): A.World {
    A.World(w.db, w.decisions, w.log)
  }

  /** Setting the role needs the profile row. */
  predicate MayDecide(w: World, s: A.TxStep) {
    s.SetRole? && s.t in w.decisions && w.decisions[s.t].row.Some? ==>
      !HeldByChange(w, w.decisions[s.t].row.value.userId)
  }

  ghost function AfterDecision(w: World, s: A.TxStep): World {
    if !MayDecide(w, s) then w
    else
      var v := A.Do(Decisions(w), s);
      World(v.db, v.txs, w.changes, v.log)
  }

  /** A request that decides, suspends, unsuspends or resolves nothing. */
  predicate Bystander(op: Op) {
    !op.ToAdmin? && !(op.ToReports? && op.report.ResolveReportOp?)
  }

  predicate CanPass(w: World, r: Request) {
    Bystander(r.op) && forall t :: t in w.decisions ==> !A.Blocks(w.db, w.decisions[t], r.op)
  }

  function Pass(w: World, r: Request): World {
    if !CanPass(w, r) || Handle(w.db, r).Err? then w else w.(db := Step(w.db, r), log := w.log + [r])
  }

  ghost function Take(w: World, s: Move): World {
    match s
    case Decide(d) => AfterDecision(w, d)
    case Change(c) => Do(w, c)
    case Meanwhile(r) => Pass(w, r)
  }

  /** The move commits a change. */
  predicate Commits(w: World, s: Move) {
    s.Change? && s.change.Commit? && CanDo(w, s.change)
  }

  lemma {:induction false} CommitTakes(w: World, s: Move)
    requires Commits(w, s)
    ensures Take(w, s).db == Published(w.db, w.changes[s.change.t])
    ensures Take(w, s).changes == w.changes[s.change.t := w.changes[s.change.t].(phase := Done(true))]
  {
  }

  /** Any interleaving. */
  ghost function Exec(w: World, steps: seq<Move>): World {
    if steps == [] then w else Take(Exec(w, steps[..|steps| - 1]), steps[|steps| - 1])
  }

  /** Tables with nothing in flight. */
  function Start(db: Db): World {
    World(db, map[], map[], [])
  }

  // ---------------------------------------------------------------- invariant

  /** Past its checks and not finished. */
  predicate Underway(tx: Tx) {
    tx.phase == Checked || tx.phase == Wrote || tx.phase == Filed
  }

  predicate PhaseOk(tx: Tx) {
    (tx.phase == Called ==> tx.job.Resolving?) && (tx.phase == Asked || tx.phase == Wrote ==> ChangesStatus(tx.job)) &&
    (tx.phase == Filed ==> tx.job.Resolving?) &&
    (HoldsProfile(tx) <==> ChangesStatus(tx.job) && (tx.phase == Wrote || tx.phase == Filed)) &&
    (!tx.phase.Done? ==> (tx.newReport.Some? <==> tx.phase == Filed))
  }

  /** A resolution past its read: the report was waiting, and unless handled since it is as read. */
  predicate ReportOk(db: Db, tx: Tx) {
    tx.job.Resolving? && (tx.phase == Asked || Underway(tx)) ==>
      tx.seen.Some? && tx.seen.value.status == Waiting && tx.job.report in db.reports &&
      tx.seen.value.messageId == db.reports[tx.job.report].messageId &&
      (db.reports[tx.job.report].status == Waiting ==> db.reports[tx.job.report] == tx.seen.value) &&
      (ChangesStatus(tx.job) ==>
         tx.seen.value.messageId in db.messages && db.messages[tx.seen.value.messageId].senderId == tx.target)
  }

  predicate StatusOk(db: Db, tx: Tx) {
    ChangesStatus(tx.job) && Underway(tx) ==>
      tx.target in db.profiles && (tx.job.Unsuspending? || tx.target != tx.admin)
  }

  /** What will be published is the update of the rows as they are. */
  predicate VersionsOk(db: Db, tx: Tx) {
    (HoldsProfile(tx) ==>
       tx.target in db.profiles && tx.newProfile == Some(NewProfile(db.profiles[tx.target], tx))) &&
    (HoldsReport(tx) ==>
       tx.job.report in db.reports && tx.seen.Some? &&
       tx.newReport == Some(NewReport(db.reports[tx.job.report], tx)))
  }

  predicate TxOk(db: Db, tx: Tx) {
    tx.admin in db.profiles && PhaseOk(tx) && ReportOk(db, tx) && StatusOk(db, tx) && VersionsOk(db, tx)
  }

  /** Two different changes never hold one row. */
  predicate PairOk(a: Tx, b: Tx) {
    !(HoldsProfile(a) && HoldsProfile(b) && a.target == b.target) &&
    !(HoldsReport(a) && HoldsReport(b) && a.job.report == b.job.report)
  }

  /** Nor do a decision and a change. */
  predicate CrossOk(a: A.Tx, b: Tx) {
    !(DecisionHolds(a, b.target) && HoldsProfile(b))
  }

  ghost predicate ChangesOk(w: World) {
    (forall t :: t in w.changes ==> TxOk(w.db, w.changes[t])) &&
    (forall t, o :: t in w.changes && o in w.changes && t != o ==> PairOk(w.changes[t], w.changes[o]))
  }

  ghost predicate CrossesOk(decisions: map<nat, A.Tx>, changes: map<nat, Tx>) {
    forall d, t :: d in decisions && t in changes ==> CrossOk(decisions[d], changes[t])
  }

  ghost predicate RowsOk(w: World) {
    ChangesOk(w) && CrossesOk(w.decisions, w.changes)
  }

  ghost predicate Inv(w: World) {
    A.Inv(Decisions(w)) && RowsOk(w)
  }

  // ---------------------------------------------------------------- what a move does to the rows of others

  /** Users, messages and reports stay; a report is written only to be handled. */
  ghost predicate Grows(db: Db, d: Db) {
    (forall u :: u in db.profiles ==> u in d.profiles) && SameSenders(db, d) &&
    (forall i :: i in db.reports ==>
       i in d.reports && d.reports[i].messageId == db.reports[i].messageId &&
       (d.reports[i].status == Waiting ==> d.reports[i] == db.reports[i]))
  }

  /** The rows the transaction holds are not written. */
  predicate Spares(db: Db, d: Db, tx: Tx) {
    (HoldsProfile(tx) && tx.target in db.profiles ==>
       tx.target in d.profiles && d.profiles[tx.target] == db.profiles[tx.target]) &&
    (HoldsReport(tx) && tx.job.report in db.reports ==>
       tx.job.report in d.reports && d.reports[tx.job.report] == db.reports[tx.job.report])
  }

  lemma {:induction false} SparedStaysOk(db: Db, d: Db, tx: Tx)
    requires TxOk(db, tx) && Grows(db, d) && Spares(db, d, tx)
    ensures TxOk(d, tx)
  {
  }

  lemma {:induction false} SparedChangesOk(w: World, d: Db)
    requires ChangesOk(w) && Grows(w.db, d) && forall t :: t in w.changes ==> Spares(w.db, d, w.changes[t])
    ensures ChangesOk(w.(db := d))
  {
    forall t | t in w.changes ensures TxOk(d, w.changes[t]) {
      SparedStaysOk(w.db, d, w.changes[t]);
    }
  }

  /** Tables in which nothing a decision relies on has changed. */
  ghost predicate SameForDecisions(db: Db, d: Db) {
    d.profiles.Keys == db.profiles.Keys && d.applications == db.applications && d.idolProfiles == db.idolProfiles
  }

  lemma {:induction false} DecisionStaysOk(db: Db, d: Db, tx: A.Tx)
    requires A.TxOk(db, tx) && SameForDecisions(db, d)
    ensures A.TxOk(d, tx)
  {
    assert forall u :: u in db.profiles <==> u in db.profiles.Keys;
  }

  lemma {:induction false} DecisionsStayOk(w: A.World, d: Db, log: seq<Request>)
    requires A.Inv(w) && Valid(d) && SameForDecisions(w.db, d)
    ensures A.Inv(A.World(d, w.txs, log))
  {
    forall t | t in w.txs ensures A.TxOk(d, w.txs[t]) {
      DecisionStaysOk(w.db, d, w.txs[t]);
    }
  }

  lemma {:induction false} OtherLog(w: A.World, log: seq<Request>)
    requires A.Inv(w)
    ensures A.Inv(w.(log := log))
  {
  }

  // ---------------------------------------------------------------- changes

  lemma {:induction false} ChangeIsOk(w: World, t: nat)
    requires ChangesOk(w) && t in w.changes
    ensures TxOk(w.db, w.changes[t])
  {
  }

  lemma {:induction false} DecisionPairOk(w: World, d: nat, o: nat)
    requires A.Inv(Decisions(w)) && d in w.decisions && o in w.decisions && d != o
    ensures A.PairOk(w.decisions[d], w.decisions[o])
  {
  }

  lemma {:induction false} DecisionIsOk(w: World, d: nat)
    requires A.Inv(Decisions(w)) && d in w.decisions
    ensures A.TxOk(w.db, w.decisions[d])
  {
  }

  lemma {:induction false} PutChangesOk(w: World, t: nat, tx: Tx)
    requires ChangesOk(w) && TxOk(w.db, tx)
    requires forall o :: o in w.changes && o != t ==> PairOk(tx, w.changes[o]) && PairOk(w.changes[o], tx)
    ensures ChangesOk(Put(w, t, tx))
  {
  }

  lemma {:induction false} PutChange(w: World, t: nat, tx: Tx)
    requires RowsOk(w) && TxOk(w.db, tx)
    requires forall o :: o in w.changes && o != t ==> PairOk(tx, w.changes[o]) && PairOk(w.changes[o], tx)
    requires forall d :: d in w.decisions ==> CrossOk(w.decisions[d], tx)
    ensures RowsOk(Put(w, t, tx))
  {
    PutChangesOk(w, t, tx);
    assert Decisions(Put(w, t, tx)) == Decisions(w);
  }

  /** The transaction holds no row it did not hold. */
  predicate NoNewLock(tx: Tx, next: Tx) {
    (HoldsProfile(next) ==> HoldsProfile(tx) && next.target == tx.target) &&
    (HoldsReport(next) ==> HoldsReport(tx) && next.job == tx.job)
  }

  lemma {:induction false} PutNoWrite(w: World, t: nat, tx: Tx)
    requires RowsOk(w) && TxOk(w.db, tx)
    requires (HoldsProfile(tx) || HoldsReport(tx)) ==> t in w.changes && NoNewLock(w.changes[t], tx)
    ensures RowsOk(Put(w, t, tx))
  {
    forall o | o in w.changes && o != t ensures PairOk(tx, w.changes[o]) && PairOk(w.changes[o], tx) {
      if HoldsProfile(tx) || HoldsReport(tx) {
        assert PairOk(w.changes[t], w.changes[o]);
      }
    }
    forall d | d in w.decisions ensures CrossOk(w.decisions[d], tx) {
      if HoldsProfile(tx) {
        assert CrossOk(w.decisions[d], w.changes[t]);
      }
    }
    PutChange(w, t, tx);
  }

  lemma {:induction false} WrittenOk(db: Db, tx: Tx)
    requires TxOk(db, tx) && tx.phase == Checked && ChangesStatus(tx.job)
    ensures tx.target in db.profiles && !HoldsReport(tx)
    ensures TxOk(db, tx.(phase := Wrote, newProfile := Some(NewProfile(db.profiles[tx.target], tx))))
  {
  }

  lemma {:induction false} WriteProfileKeepsRows(w: World, t: nat)
    requires RowsOk(w) && CanDo(w, WriteProfile(t))
    ensures RowsOk(Do(w, WriteProfile(t)))
  {
    ChangeIsOk(w, t);
    WrittenOk(w.db, w.changes[t]);
    PutChange(w, t, Next(w, WriteProfile(t)));
  }

  lemma {:induction false} FiledOk(db: Db, tx: Tx)
    requires TxOk(db, tx) && MayWriteReport(tx)
    ensures tx.job.report in db.reports && (HoldsProfile(tx) <==> ChangesStatus(tx.job))
    ensures TxOk(db, tx.(phase := Filed, newReport := Some(NewReport(db.reports[tx.job.report], tx))))
  {
  }

  lemma {:induction false} FiledPairs(w: World, t: nat, next: Tx, o: nat)
    requires ChangesOk(w) && CanDo(w, WriteReport(t)) && o in w.changes && o != t
    requires HoldsProfile(next) ==> HoldsProfile(w.changes[t])
    requires next.target == w.changes[t].target && next.job == w.changes[t].job
    ensures PairOk(next, w.changes[o]) && PairOk(w.changes[o], next)
  {
  }

  lemma {:induction false} WriteReportKeepsRows(w: World, t: nat)
    requires RowsOk(w) && CanDo(w, WriteReport(t))
    ensures RowsOk(Do(w, WriteReport(t)))
  {
    var next := Next(w, WriteReport(t));
    ChangeIsOk(w, t);
    FiledOk(w.db, w.changes[t]);
    forall o | o in w.changes && o != t ensures PairOk(next, w.changes[o]) && PairOk(w.changes[o], next) {
      FiledPairs(w, t, next, o);
    }
    PutChange(w, t, next);
  }

  lemma {:induction false} ReadReportOk(db: Db, tx: Tx)
    requires TxOk(db, tx) && tx.phase == Called
    ensures tx.job.Resolving? && TxOk(db, AfterReport(db, tx))
    ensures !HoldsProfile(AfterReport(db, tx)) && !HoldsReport(AfterReport(db, tx))
  {
  }

  lemma {:induction false} ReadProfileOk(db: Db, tx: Tx)
    requires TxOk(db, tx) && tx.phase == Asked
    ensures TxOk(db, AfterProfile(db, tx))
    ensures !HoldsProfile(AfterProfile(db, tx)) && !HoldsReport(AfterProfile(db, tx))
  {
  }

  // ---------------------------------------------------------------- commits

  /** Table by table what a commit publishes. */
  lemma {:induction false} PublishedGrows(db: Db, tx: Tx)
    requires TxOk(db, tx) && ReadyToCommit(tx)
    ensures Grows(db, Published(db, tx)) && SameForDecisions(db, Published(db, tx))
  {
    assert tx.newProfile.Some? ==> HoldsProfile(tx);
  }

  lemma {:induction false} PublishedSpares(db: Db, tx: Tx, other: Tx)
    requires TxOk(db, tx) && ReadyToCommit(tx) && PairOk(tx, other)
    ensures Spares(db, Published(db, tx), other)
  {
  }

  lemma {:induction false} NewReportValid(db: Db, tx: Tx)
    requires Valid(db) && TxOk(db, tx) && HoldsReport(tx)
    ensures ReportRowValid(tx.newReport.value)
    ensures ReportKeysValid(db.profiles.Keys, db.messages.Keys, tx.newReport.value)
    ensures forall j :: j in db.reports && SameReport(tx.newReport.value, db.reports[j]) ==> tx.job.report == j
  {
    assert SameReport(tx.newReport.value, db.reports[tx.job.report]);
  }

  lemma {:induction false} NewProfileValid(db: Db, tx: Tx)
    requires TxOk(db, tx) && HoldsProfile(tx)
    ensures ProfileRowValid(tx.newProfile.value)
  {
  }

  lemma {:induction false} PublishedValid(db: Db, tx: Tx)
    requires Valid(db) && TxOk(db, tx) && ReadyToCommit(tx)
    ensures Valid(Published(db, tx))
  {
    var d := if HoldsReport(tx) then db.(reports := db.reports[tx.job.report := tx.newReport.value]) else db;
    if HoldsReport(tx) {
      NewReportValid(db, tx);
      PutReport(db, tx.job.report, tx.newReport.value);
    }
    if HoldsProfile(tx) {
      NewProfileValid(db, tx);
      PutProfile(d, tx.target, tx.newProfile.value);
    }
    PublishedIs(db, tx, d);
  }

  lemma {:induction false} PublishedIs(db: Db, tx: Tx, d: Db)
    requires TxOk(db, tx) && ReadyToCommit(tx)
    requires d == if HoldsReport(tx) then db.(reports := db.reports[tx.job.report := tx.newReport.value]) else db
    ensures Published(db, tx) ==
            if HoldsProfile(tx) then d.(profiles := d.profiles[tx.target := tx.newProfile.value]) else d
  {
  }

  lemma {:induction false} CommitKeepsInv(w: World, t: nat)
    requires Inv(w) && CanDo(w, Commit(t))
    ensures Inv(Do(w, Commit(t)))
  {
    var tx, d := w.changes[t], Published(w.db, w.changes[t]);
    var done := tx.(phase := Done(true));
    ChangeIsOk(w, t);
    PublishedValid(w.db, tx);
    PublishedGrows(w.db, tx);
    DecisionsStayOk(Decisions(w), d, w.log + [RequestOf(tx)]);
    PutNoWrite(w, t, done);
    PublishedAround(Put(w, t, done), w, t);
  }

  lemma {:induction false} PublishedSparesAll(w: World, t: nat, o: nat)
    requires t in w.changes && TxOk(w.db, w.changes[t]) && ReadyToCommit(w.changes[t])
    requires o in w.changes && (o != t ==> PairOk(w.changes[t], w.changes[o]))
    ensures Spares(w.db, Published(w.db, w.changes[t]), w.changes[t := w.changes[t].(phase := Done(true))][o])
  {
    if o != t {
      PublishedSpares(w.db, w.changes[t], w.changes[o]);
    }
  }

  /** Once finished itself, the transaction publishes rows nobody else holds. */
  lemma {:induction false} PublishedAround(v: World, w: World, t: nat)
    requires ChangesOk(w) && CanDo(w, Commit(t)) && TxOk(w.db, w.changes[t])
    requires v == Put(w, t, w.changes[t].(phase := Done(true))) && ChangesOk(v)
    ensures ChangesOk(v.(db := Published(w.db, w.changes[t])))
  {
    PublishedGrows(w.db, w.changes[t]);
    forall o | o in v.changes ensures Spares(v.db, Published(w.db, w.changes[t]), v.changes[o]) {
      PublishedSparesAll(w, t, o);
    }
    SparedChangesOk(v, Published(w.db, w.changes[t]));
  }

  lemma {:induction false} ReadKeepsRows(w: World, s: TxStep)
    requires RowsOk(w) && CanDo(w, s) && (s.ReadReport? || s.ReadProfile?)
    ensures RowsOk(Do(w, s))
  {
    ChangeIsOk(w, s.t);
    if s.ReadReport? {
      ReadReportOk(w.db, w.changes[s.t]);
    } else {
      ReadProfileOk(w.db, w.changes[s.t]);
    }
    PutNoWrite(w, s.t, Next(w, s));
  }

  lemma {:induction false} AbortKeepsRows(w: World, t: nat)
    requires RowsOk(w) && CanDo(w, Abort(t))
    ensures RowsOk(Do(w, Abort(t)))
  {
    ChangeIsOk(w, t);
    PutNoWrite(w, t, Next(w, Abort(t)));
  }

  lemma {:induction false} DoKeepsInv(w: World, s: TxStep)
    requires Inv(w)
    ensures Inv(Do(w, s))
  {
    if CanDo(w, s) {
      assert !s.Commit? ==> Decisions(Do(w, s)) == Decisions(w);
      match s
      case Begin(t, _, _, _, _) => PutNoWrite(w, t, Next(w, s));
      case ReadReport(_) => ReadKeepsRows(w, s);
      case ReadProfile(_) => ReadKeepsRows(w, s);
      case WriteProfile(t) => WriteProfileKeepsRows(w, t);
      case WriteReport(t) => WriteReportKeepsRows(w, t);
      case Commit(t) => CommitKeepsInv(w, t);
      case Abort(t) => AbortKeepsRows(w, t);
    }
  }

  // ---------------------------------------------------------------- decisions among changes

  /** The tables a decision leaves: as they were, or with the rows of one commit. */
  lemma {:induction false} DecisionWrites(w: A.World, s: A.TxStep)
    ensures A.Do(w, s).db == w.db ||
            (A.CanDo(w, s) && s.Commit? && A.CanCommit(w.db, w.txs[s.t]) &&
             A.Do(w, s).db == A.Effect(w.db, w.txs[s.t]))
  {
  }

  /** The commit of a decision writes no report and of profiles only the role of the applicant. */
  lemma {:induction false} EffectWrites(db: Db, tx: A.Tx)
    requires A.CanCommit(db, tx)
    ensures var d, u := A.Effect(db, tx), tx.row.value.userId;
            d.messages == db.messages && d.reports == db.reports &&
            d.profiles ==
            if tx.verdict.ToApprove? then db.profiles[u := db.profiles[u].(role := Idol)] else db.profiles
  {
    if tx.verdict.ToApprove? {
      ApprovalWrites(db, tx);
    }
  }

  lemma {:induction false} ApprovalWrites(db: Db, tx: A.Tx)
    requires A.CanCommit(db, tx) && tx.verdict.ToApprove?
    ensures var d, u := A.Effect(db, tx), tx.row.value.userId;
            d.messages == db.messages && d.reports == db.reports &&
            d.profiles == db.profiles[u := db.profiles[u].(role := Idol)]
  {
  }

  lemma {:induction false} EffectGrows(db: Db, tx: A.Tx)
    requires A.CanCommit(db, tx)
    ensures Grows(db, A.Effect(db, tx))
  {
    EffectWrites(db, tx);
  }

  lemma {:induction false} EffectSpares(db: Db, tx: A.Tx, other: Tx)
    requires A.TxOk(db, tx) && A.ReadyToCommit(tx) && A.CanCommit(db, tx) && CrossOk(tx, other)
    ensures Spares(db, A.Effect(db, tx), other)
  {
    EffectWrites(db, tx);
  }

  lemma {:induction false} EffectKeepsChanges(w: World, tx: A.Tx)
    requires ChangesOk(w) && A.TxOk(w.db, tx) && A.ReadyToCommit(tx) && A.CanCommit(w.db, tx)
    requires forall t :: t in w.changes ==> CrossOk(tx, w.changes[t])
    ensures ChangesOk(w.(db := A.Effect(w.db, tx)))
  {
    EffectGrows(w.db, tx);
    forall t | t in w.changes ensures Spares(w.db, A.Effect(w.db, tx), w.changes[t]) {
      EffectSpares(w.db, tx, w.changes[t]);
    }
    SparedChangesOk(w, A.Effect(w.db, tx));
  }

  lemma {:induction false} DecisionKeepsChanges(w: World, s: A.TxStep)
    requires Inv(w)
    ensures ChangesOk(w.(db := A.Do(Decisions(w), s).db))
  {
    DecisionWrites(Decisions(w), s);
    if A.Do(Decisions(w), s).db != w.db {
      DecisionIsOk(w, s.t);
      EffectKeepsChanges(w, w.decisions[s.t]);
    }
  }

  /** Only SetRole makes a decision hold a profile row. */
  lemma {:induction false} DecisionLocks(w: A.World, s: A.TxStep, o: nat)
    requires o in A.Do(w, s).txs && A.HoldsProfile(A.Do(w, s).txs[o])
    ensures o in w.txs && A.Do(w, s).txs[o].row == w.txs[o].row
    ensures A.HoldsProfile(w.txs[o]) || (s.SetRole? && s.t == o)
  {
  }

  lemma {:induction false} DecisionKeepsCrosses(w: World, s: A.TxStep)
    requires RowsOk(w) && MayDecide(w, s)
    ensures CrossesOk(A.Do(Decisions(w), s).txs, w.changes)
  {
    var txs := A.Do(Decisions(w), s).txs;
    forall o, t | o in txs && t in w.changes ensures CrossOk(txs[o], w.changes[t]) {
      if A.HoldsProfile(txs[o]) {
        DecisionLocks(Decisions(w), s, o);
        assert CrossOk(w.decisions[o], w.changes[t]);
      }
    }
  }

  lemma {:induction false} DecisionKeepsInv(w: World, s: A.TxStep)
    requires Inv(w)
    ensures Inv(AfterDecision(w, s))
  {
    if MayDecide(w, s) {
      A.DoKeepsInv(Decisions(w), s);
      DecisionKeepsChanges(w, s);
      DecisionKeepsCrosses(w, s);
      assert Decisions(AfterDecision(w, s)) == A.Do(Decisions(w), s);
    }
  }

  // ---------------------------------------------------------------- what users do meanwhile

  lemma {:induction false} AuthKeepsRows(db: Db, op: AuthOp, now: int, u: Uuid)
    requires u in db.profiles
    ensures var d := After(db, HandleAuth(db, op, now)); u in d.profiles && d.profiles[u] == db.profiles[u]
  {
  }

  /** No profile row is written. */
  lemma {:induction false} BystanderKeepsProfile(db: Db, r: Request, u: Uuid)
    requires Bystander(r.op) && u in db.profiles
    ensures u in Step(db, r).profiles && Step(db, r).profiles[u] == db.profiles[u]
  {
    match r.op
    case ToReports(op) => ReportFrame(db, op, r.now);
    case ToAuth(op) => AuthKeepsRows(db, op, r.now, u);
    case ToSubscriptions(op) => SubscriptionFrame(db, op, r.now);
    case ToChat(op) => ChatFrame(db, op, r.now);
  }

  lemma {:induction false} BystanderGrows(db: Db, r: Request)
    requires Bystander(r.op)
    ensures Grows(db, Step(db, r)) && OnlyFiled(db, Step(db, r))
  {
    SendersFixed(db, r);
    NothingResolved(db, r);
    forall u | u in db.profiles ensures u in Step(db, r).profiles {
      BystanderKeepsProfile(db, r, u);
    }
  }

  lemma {:induction false} BystanderSpares(db: Db, r: Request, tx: Tx)
    requires Bystander(r.op)
    ensures Spares(db, Step(db, r), tx)
  {
    NothingResolved(db, r);
    if tx.target in db.profiles {
      BystanderKeepsProfile(db, r, tx.target);
    }
  }

  lemma {:induction false} PassKeepsChanges(w: World, r: Request)
    requires ChangesOk(w) && Bystander(r.op)
    ensures ChangesOk(w.(db := Step(w.db, r)))
  {
    BystanderGrows(w.db, r);
    forall t | t in w.changes ensures Spares(w.db, Step(w.db, r), w.changes[t]) {
      BystanderSpares(w.db, r, w.changes[t]);
    }
    SparedChangesOk(w, Step(w.db, r));
  }

  lemma {:induction false} PassKeepsDecisions(w: World, r: Request)
    requires A.Inv(Decisions(w)) && CanPass(w, r)
    ensures A.Inv(A.World(Step(w.db, r), w.decisions, w.log + [r]))
  {
    A.PassKeepsInv(Decisions(w), r);
    OtherLog(A.Pass(Decisions(w), r), w.log + [r]);
  }

  lemma {:induction false} PassKeepsInv(w: World, r: Request)
    requires Inv(w)
    ensures Inv(Pass(w, r))
  {
    if CanPass(w, r) && Handle(w.db, r).Ok? {
      PassKeepsDecisions(w, r);
      PassKeepsChanges(w, r);
    }
  }

  // ---------------------------------------------------------------- every interleaving

  lemma {:induction false} TakeKeepsInv(w: World, s: Move)
    requires Inv(w)
    ensures Inv(Take(w, s))
  {
    match s
    case Decide(d) => DecisionKeepsInv(w, d);
    case Change(c) => DoKeepsInv(w, c);
    case Meanwhile(r) => PassKeepsInv(w, r);
  }

  lemma {:induction false} ExecKeepsInv(w: World, steps: seq<Move>)
    requires Inv(w)
    ensures Inv(Exec(w, steps))
  {
    if steps != [] {
      ExecKeepsInv(w, steps[..|steps| - 1]);
      TakeKeepsInv(Exec(w, steps[..|steps| - 1]), steps[|steps| - 1]);
    }
  }
}
