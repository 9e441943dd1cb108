/**
 Admins racing on idol applications.

 A transaction reads the application, claims it with the conditional UPDATE, for an approval
 also updates the role and inserts the idol profile, and commits or rolls back. Transactions
 interleave step by step under READ COMMITTED: a row written by an unfinished transaction
 makes other writers of it wait, and the conditional UPDATE checks the status again once it
 has the row. Everything else the system does happens between those steps in one go, as long
 as it does not write a row somebody holds.
 */
module ApprovalRace {
  import opened Basics
  import opened Schema
  import opened Services
  import opened Constraints
  import opened Idols

  datatype Verdict = ToApprove | ToReject(reason: string)

  datatype Ending = Committed | Failed(error: Error) | Aborted

  datatype Phase =
    | Started
    | HasRead           // saw the row pending
    | Claimed           // the conditional UPDATE matched; the row is held
    | RoleSet           // approval: the profile row is held too
    | Inserted          // approval: the idol profile is flushed
    | Done(ending: Ending)

  /** row is what the transaction read. */
  datatype Tx = Tx(appId: Uuid, admin: Uuid, now: int, verdict: Verdict, row: Option<Application>, phase: Phase)

  /** Committed tables, all transactions so far, and the serial history the tables amount to. */
  datatype World = World(db: Db, txs: map<nat, Tx>, log: seq<Request>)

  datatype TxStep =
    | Begin(t: nat, appId: Uuid, admin: Uuid, now: int, verdict: Verdict)
    | Read(t: nat)
    | Claim(t: nat)
    | SetRole(t: nat)
    | Insert(t: nat)
    | Commit(t: nat)
    | Abort(t: nat)

  datatype RaceStep = Race(step: TxStep) | Meanwhile(r: Request)

  // ---------------------------------------------------------------- locks

  predicate HoldsApplication(tx: Tx) {
    tx.phase == Claimed || tx.phase == RoleSet || tx.phase == Inserted
  }

  predicate HoldsProfile(tx: Tx) {
    tx.phase == RoleSet || tx.phase == Inserted
  }

  predicate SameUser(a: Tx, b: Tx) {
    a.row.Some? && b.row.Some? && a.row.value.userId == b.row.value.userId
  }

  predicate SameName(a: Tx, b: Tx) {
    a.row.Some? && b.row.Some? && a.row.value.stageName == b.row.value.stageName
  }

  /** The next write of tx has to wait for other to finish. */
  predicate Waits(tx: Tx, other: Tx) {
    match tx.phase
    case HasRead => HoldsApplication(other) && tx.appId == other.appId
    case Claimed => tx.verdict.ToApprove? && HoldsProfile(other) && SameUser(tx, other)
    case RoleSet => other.phase == Inserted && (SameUser(tx, other) || SameName(tx, other))
    case _ => false
  }

  predicate Waiting(w: World, t: nat)
    requires t in w.txs
  {
    exists o :: o in w.txs && o != t && Waits(w.txs[t], w.txs[o])
  }

  /** Users whose profile row a request of another kind writes. */
  predicate WritesProfile(db: Db, op: Op, u: Uuid) {
    match op
    case ToAdmin(a) => (a.SuspendOp? && a.target == u) || (a.UnsuspendOp? && a.target == u)
    case ToReports(r) =>
      r.ResolveReportOp? && r.action == SuspendedSender && r.id in db.reports &&
      db.reports[r.id].messageId in db.messages && db.messages[db.reports[r.id].messageId].senderId == u
    case _ => false
  }

  /** The request writes a row tx holds, or would join it in a unique index. */
  predicate Blocks(db: Db, tx: Tx, op: Op) {
    (HoldsApplication(tx) && op.ToAuth? && op.auth.WithdrawOp? && op.auth.appId == tx.appId) ||
    (HoldsApplication(tx) && op.ToAuth? && op.auth.ReapplyOp? && tx.row.Some? && op.auth.user == tx.row.value.userId) ||
    (HoldsProfile(tx) && tx.row.Some? && WritesProfile(db, op, tx.row.value.userId))
  }

  predicate IsDecision(op: Op) {
    op.ToAdmin? && (op.admin.ApproveOp? || op.admin.RejectOp?)
  }

  // ---------------------------------------------------------------- steps

  predicate CanDo(w: World, s: TxStep) {
    match s
    case Begin(t, _, admin, _, _) => t !in w.txs && admin in w.db.profiles
    case Read(t) => t in w.txs && w.txs[t].phase == Started
    case Claim(t) => t in w.txs && w.txs[t].phase == HasRead && !Waiting(w, t)
    case SetRole(t) => t in w.txs && w.txs[t].phase == Claimed && w.txs[t].verdict.ToApprove? && !Waiting(w, t)
    case Insert(t) => t in w.txs && w.txs[t].phase == RoleSet && !Waiting(w, t)
    case Commit(t) => t in w.txs && ReadyToCommit(w.txs[t])
    case Abort(t) => t in w.txs && !w.txs[t].phase.Done?
  }

  predicate ReadyToCommit(tx: Tx) {
    tx.phase == Inserted || (tx.phase == Claimed && tx.verdict.ToReject?)
  }

  /** A request of another kind that writes no held row. */
  predicate CanPass(w: World, r: Request) {
    !IsDecision(r.op) && forall t :: t in w.txs ==> !Blocks(w.db, w.txs[t], r.op)
  }

  function Ended(tx: Tx, e: Ending): Tx {
    tx.(phase := Done(e))
  }

  /** What the transaction sees on its read. */
  function AfterRead(db: Db, tx: Tx): Tx {
    if tx.appId !in db.applications then Ended(tx, Failed(NotFound))
    else if db.applications[tx.appId].status != Pending then Ended(tx, Failed(Conflict))
    else tx.(row := Some(db.applications[tx.appId]), phase := HasRead)
  }

  /** rowcount is 0 when the row is no longer pending. */
  function AfterClaim(db: Db, tx: Tx): Tx {
    if tx.appId in db.applications && db.applications[tx.appId].status == Pending then tx.(phase := Claimed)
    else Ended(tx, Failed(Conflict))
  }

  /** The flush: an integrity violation rolls back and is reported as a conflict. */
  function AfterInsert(db: Db, tx: Tx): Tx
    requires tx.row.Some?
  {
    if tx.row.value.userId in db.idolProfiles || StageNameTaken(db, tx.row.value.stageName)
    then Ended(tx, Failed(Conflict)) else tx.(phase := Inserted)
  }

  /** The writes that become visible on commit, made from the row that was read. */
  function Effect(db: Db, tx: Tx): Db
    requires tx.row.Some? && tx.appId in db.applications && tx.row.value.userId in db.profiles
  {
    var u := tx.row.value.userId;
    match tx.verdict
    case ToReject(reason) =>
      db.(applications := db.applications[tx.appId :=
            Decided(db.applications[tx.appId], Rejected, tx.admin, tx.now).(rejectionReason := Some(reason))])
    case ToApprove =>
      db.(applications := db.applications[tx.appId := Decided(db.applications[tx.appId], Approved, tx.admin, tx.now)],
          idolProfiles := db.idolProfiles[u := IdolProfile(tx.appId, tx.row.value.stageName, tx.row.value.bio, tx.now)],
          profiles := db.profiles[u := db.profiles[u].(role := Idol)])
  }

  /** The serial request a committed transaction amounts to. */
  function Decision(tx: Tx): Request {
    Request(tx.now, ToAdmin(match tx.verdict
                            case ToApprove => ApproveOp(tx.appId, tx.admin)
                            case ToReject(reason) => RejectOp(tx.appId, tx.admin, reason)))
  }

  ghost predicate CanCommit(db: Db, tx: Tx) {
    tx.row.Some? && tx.appId in db.applications && tx.row.value.userId in db.profiles
  }

  /** A step that is not enabled waits: nothing happens. */
  ghost function Do(w: World, s: TxStep): World {
    if !CanDo(w, s) then w
    else
      match s
      case Begin(t, appId, admin, now, verdict) =>
        w.(txs := w.txs[t := Tx(appId, admin, now, verdict, None, Started)])
      case Read(t) => w.(txs := w.txs[t := AfterRead(w.db, w.txs[t])])
      case Claim(t) => w.(txs := w.txs[t := AfterClaim(w.db, w.txs[t])])
      case SetRole(t) => w.(txs := w.txs[t := w.txs[t].(phase := RoleSet)])
      case Insert(t) =>
        if w.txs[t].row.Some? then w.(txs := w.txs[t := AfterInsert(w.db, w.txs[t])]) else w
      case Commit(t) =>
        if CanCommit(w.db, w.txs[t])
        then World(Effect(w.db, w.txs[t]), w.txs[t := Ended(w.txs[t], Committed)], w.log + [Decision(w.txs[t])])
        else w
      case Abort(t) => w.(txs := w.txs[t := Ended(w.txs[t], Aborted)])
  }

  ghost function Pass(w: World, r: Request): World {
    if CanPass(w, r) then World(Step(w.db, r), w.txs, w.log + [r]) else w
  }

  ghost function Take(w: World, s: RaceStep): World {
    match s
    case Race(step) => Do(w, step)
    case Meanwhile(r) => Pass(w, r)
  }

  /** Any interleaving. */
  ghost function Exec(w: World, steps: seq<RaceStep>): World {
    if steps == [] then w else Take(Exec(w, steps[..|steps| - 1]), steps[|steps| - 1])
  }

  /** An interleaving goes on step by step. */
  lemma {:induction false} ExecAppend(w: World, steps: seq<RaceStep>, s: RaceStep)
    ensures Exec(w, []) == w && Exec(w, steps + [s]) == Take(Exec(w, steps), s)
  {
    assert (steps + [s])[..|steps|] == steps;
  }

  // ---------------------------------------------------------------- invariant

  /** What the application was asked for never changes. */
  predicate SameRequest(a: Application, b: Application) {
    a.userId == b.userId && a.stageName == b.stageName && a.bio == b.bio && a.note == b.note &&
    a.createdAt == b.createdAt
  }

  /** The row says what the committed transaction decided. */
  predicate DecidedBy(a: Application, tx: Tx) {
    a.handledBy == Some(tx.admin) && a.handledAt == Some(tx.now) &&
    match tx.verdict
    case ToApprove => a.status == Approved
    case ToReject(reason) => a.status == Rejected && a.rejectionReason == Some(reason)
  }

  predicate Late(tx: Tx) {
    HoldsApplication(tx) || tx.phase == HasRead || tx.phase == Done(Committed)
  }

  ghost predicate TxOk(db: Db, tx: Tx) {
    tx.admin in db.profiles &&
    (Late(tx) ==> tx.row.Some?) &&
    (tx.row.Some? ==> tx.appId in db.applications && SameRequest(tx.row.value, db.applications[tx.appId])) &&
    (HoldsApplication(tx) ==> db.applications[tx.appId].status == Pending) &&
    (HoldsProfile(tx) ==> tx.verdict.ToApprove?) &&
    (tx.phase == Inserted ==>
       tx.row.value.userId !in db.idolProfiles && !StageNameTaken(db, tx.row.value.stageName)) &&
    (tx.phase == Done(Committed) ==> DecidedBy(db.applications[tx.appId], tx))
  }

  /** Two different transactions never hold the same thing. */
  predicate PairOk(a: Tx, b: Tx) {
    !(HoldsApplication(a) && HoldsApplication(b) && a.appId == b.appId) &&
    !(HoldsProfile(a) && HoldsProfile(b) && SameUser(a, b)) &&
    !(a.phase == Inserted && b.phase == Inserted && (SameUser(a, b) || SameName(a, b))) &&
    !(a.phase == Done(Committed) && b.phase == Done(Committed) && a.appId == b.appId)
  }

  ghost predicate TxsOk(w: World) {
    (forall t :: t in w.txs ==> TxOk(w.db, w.txs[t])) &&
    (forall t, o :: t in w.txs && o in w.txs && t != o ==> PairOk(w.txs[t], w.txs[o]))
  }

  ghost predicate Inv(w: World) {
    Valid(w.db) && TxsOk(w)
  }

  lemma {:induction false} PutTx(w: World, t: nat, tx: Tx)
    requires TxsOk(w) && TxOk(w.db, tx)
    requires forall o :: o in w.txs && o != t ==> PairOk(tx, w.txs[o]) && PairOk(w.txs[o], tx)
    ensures TxsOk(w.(txs := w.txs[t := tx]))
  {
  }

  lemma {:induction false} BeginKeepsTxs(w: World, s: TxStep)
    requires TxsOk(w) && s.Begin? && CanDo(w, s)
    ensures TxsOk(Do(w, s))
  {
    PutTx(w, s.t, Tx(s.appId, s.admin, s.now, s.verdict, None, Started));
  }

  lemma {:induction false} ReadKeepsTxs(w: World, t: nat)
    requires TxsOk(w) && CanDo(w, Read(t))
    ensures TxsOk(Do(w, Read(t)))
  {
    PutTx(w, t, AfterRead(w.db, w.txs[t]));
  }

  lemma {:induction false} ClaimKeepsTxs(w: World, t: nat)
    requires TxsOk(w) && CanDo(w, Claim(t))
    ensures TxsOk(Do(w, Claim(t)))
  {
    PutTx(w, t, AfterClaim(w.db, w.txs[t]));
  }

  lemma {:induction false} SetRoleKeepsTxs(w: World, t: nat)
    requires TxsOk(w) && CanDo(w, SetRole(t))
    ensures TxsOk(Do(w, SetRole(t)))
  {
    PutTx(w, t, w.txs[t].(phase := RoleSet));
  }

  /** Nobody it waits for: the flushed profile clashes with no other. */
  lemma {:induction false} InsertPair(tx: Tx, next: Tx, other: Tx)
    requires tx.phase == RoleSet && PairOk(tx, other) && PairOk(other, tx) && !Waits(tx, other)
    requires next == tx.(phase := Inserted) || next == Ended(tx, Failed(Conflict))
    ensures PairOk(next, other) && PairOk(other, next)
  {
  }

  lemma {:induction false} InsertKeepsTxs(w: World, t: nat)
    requires TxsOk(w) && CanDo(w, Insert(t))
    ensures TxsOk(Do(w, Insert(t)))
  {
    var tx, next := w.txs[t], AfterInsert(w.db, w.txs[t]);
    assert TxOk(w.db, tx);
    forall o | o in w.txs && o != t ensures PairOk(next, w.txs[o]) && PairOk(w.txs[o], next) {
      assert !Waits(tx, w.txs[o]);
      InsertPair(tx, next, w.txs[o]);
    }
    PutTx(w, t, next);
  }

  lemma {:induction false} AbortKeepsTxs(w: World, t: nat)
    requires TxsOk(w) && CanDo(w, Abort(t))
    ensures TxsOk(Do(w, Abort(t)))
  {
    PutTx(w, t, Ended(w.txs[t], Aborted));
  }

  /** What a transaction commits is exactly the serial request, which succeeds. */
  lemma {:induction false} CommitIsSerial(db: Db, tx: Tx)
    requires Valid(db) && TxOk(db, tx) && ReadyToCommit(tx)
    ensures CanCommit(db, tx) && Handle(db, Decision(tx)) == Ok(Effect(db, tx))
    ensures DecidedBy(Effect(db, tx).applications[tx.appId], tx)
  {
    assert ApplicationKeysValid(db.profiles.Keys, db.applications[tx.appId]);
  }

  /** What the commit of tx makes of the tables, table by table. */
  ghost predicate EffectOf(db: Db, d: Db, tx: Tx) {
    tx.row.Some? && tx.appId in db.applications && tx.appId in d.applications && d.profiles.Keys == db.profiles.Keys &&
    d.applications == db.applications[tx.appId := d.applications[tx.appId]] &&
    SameRequest(db.applications[tx.appId], d.applications[tx.appId]) && DecidedBy(d.applications[tx.appId], tx) &&
    d.idolProfiles ==
    if tx.verdict.ToApprove?
    then db.idolProfiles[tx.row.value.userId := IdolProfile(tx.appId, tx.row.value.stageName, tx.row.value.bio, tx.now)]
    else db.idolProfiles
  }

  lemma {:induction false} EffectIs(db: Db, tx: Tx)
    requires CanCommit(db, tx)
    ensures EffectOf(db, Effect(db, tx), tx)
  {
  }

  lemma {:induction false} CommitKeepsOther(db: Db, d: Db, tx: Tx, other: Tx)
    requires EffectOf(db, d, tx) && ReadyToCommit(tx) && TxOk(db, tx) && TxOk(db, other) && PairOk(tx, other)
    ensures TxOk(d, other)
  {
    if other.phase == Inserted {
      OtherNameStaysFree(db, d, tx, other);
    }
  }

  lemma {:induction false} OtherNameStaysFree(db: Db, d: Db, tx: Tx, other: Tx)
    requires EffectOf(db, d, tx) && ReadyToCommit(tx) && TxOk(db, tx) && TxOk(db, other) && PairOk(tx, other)
    requires other.phase == Inserted
    ensures other.row.value.userId !in d.idolProfiles && !StageNameTaken(d, other.row.value.stageName)
  {
  }

  lemma {:induction false} CommitKeepsTxs(w: World, d: Db, t: nat)
    requires TxsOk(w) && t in w.txs && ReadyToCommit(w.txs[t]) && EffectOf(w.db, d, w.txs[t])
    ensures forall o :: o in w.txs && o != t ==> TxOk(d, w.txs[o])
  {
    forall o | o in w.txs && o != t ensures TxOk(d, w.txs[o]) {
      CommitKeepsOther(w.db, d, w.txs[t], w.txs[o]);
    }
  }

  lemma {:induction false} CommitKeepsPairs(w: World, t: nat)
    requires TxsOk(w) && t in w.txs && ReadyToCommit(w.txs[t])
    ensures forall o :: o in w.txs && o != t ==>
              PairOk(Ended(w.txs[t], Committed), w.txs[o]) && PairOk(w.txs[o], Ended(w.txs[t], Committed))
  {
    forall o | o in w.txs && o != t
      ensures PairOk(Ended(w.txs[t], Committed), w.txs[o]) && PairOk(w.txs[o], Ended(w.txs[t], Committed))
    {
      NoEarlierWinner(w.db, w.txs[t], w.txs[o]);
    }
  }

  lemma {:induction false} EndedInv(w: World, d: Db, t: nat, tx: Tx, log: seq<Request>)
    requires Inv(w) && t in w.txs && Valid(d) && TxOk(d, tx)
    requires forall o :: o in w.txs && o != t ==> TxOk(d, w.txs[o])
    requires forall o :: o in w.txs && o != t ==> PairOk(tx, w.txs[o]) && PairOk(w.txs[o], tx)
    ensures Inv(World(d, w.txs[t := tx], log))
  {
  }

  lemma {:induction false} CommitKeepsInv(w: World, t: nat)
    requires Inv(w) && CanDo(w, Commit(t))
    ensures Inv(Do(w, Commit(t)))
    ensures Do(w, Commit(t)).log == w.log + [Decision(w.txs[t])]
    ensures Do(w, Commit(t)).db == Step(w.db, Decision(w.txs[t]))
  {
    var tx := w.txs[t];
    CommitIsSerial(w.db, tx);
    StepKeepsValid(w.db, Decision(tx));
    CommittedWorld(w, t);
  }

  lemma {:induction false} CommittedWorld(w: World, t: nat)
    requires Inv(w) && t in w.txs && ReadyToCommit(w.txs[t]) && CanCommit(w.db, w.txs[t])
    requires Valid(Effect(w.db, w.txs[t]))
    ensures Inv(World(Effect(w.db, w.txs[t]), w.txs[t := Ended(w.txs[t], Committed)], w.log + [Decision(w.txs[t])]))
  {
    var tx := w.txs[t];
    EffectIs(w.db, tx);
    CommitKeepsTxs(w, Effect(w.db, tx), t);
    CommitKeepsSelf(w.db, Effect(w.db, tx), tx);
    CommitKeepsPairs(w, t);
    EndedInv(w, Effect(w.db, tx), t, Ended(tx, Committed), w.log + [Decision(tx)]);
  }

  lemma {:induction false} CommitKeepsSelf(db: Db, d: Db, tx: Tx)
    requires EffectOf(db, d, tx) && ReadyToCommit(tx) && TxOk(db, tx)
    ensures TxOk(d, Ended(tx, Committed))
  {
  }

  /** A pending row has no committed decision. */
  lemma {:induction false} NoEarlierWinner(db: Db, tx: Tx, other: Tx)
    requires TxOk(db, tx) && HoldsApplication(tx) && TxOk(db, other)
    ensures other.phase == Done(Committed) ==> other.appId != tx.appId
  {
  }

  // ---------------------------------------------------------------- what happens meanwhile

  /** Applications keep what was asked, and only a withdrawal of a pending one changes a row. */
  ghost predicate OnlyWithdrawn(apps: map<Uuid, Application>, apps': map<Uuid, Application>, op: Op) {
    forall i :: i in apps ==>
      i in apps' && SameRequest(apps[i], apps'[i]) &&
      (apps'[i] != apps[i] ==>
         apps[i].status == Pending && op.ToAuth? && op.auth.WithdrawOp? && op.auth.appId == i)
  }

  /** Idols, registered users and decided applications as they were. */
  ghost predicate LeavesDecided(db: Db, d: Db, op: Op) {
    d.idolProfiles == db.idolProfiles && (forall u :: u in db.profiles ==> u in d.profiles) &&
    OnlyWithdrawn(db.applications, d.applications, op)
  }

  lemma {:induction false} SameApplications(db: Db, d: Db, op: Op)
    requires d.idolProfiles == db.idolProfiles && d.applications == db.applications
    requires forall u :: u in db.profiles ==> u in d.profiles
    ensures LeavesDecided(db, d, op)
  {
  }

  lemma {:induction false} SuspensionLeaves(db: Db, op: AdminOp, now: int)
    requires op.SuspendOp? || op.UnsuspendOp?
    ensures LeavesDecided(db, After(db, HandleAdmin(db, op, now)), ToAdmin(op))
  {
    SameApplications(db, After(db, HandleAdmin(db, op, now)), ToAdmin(op));
  }

  lemma {:induction false} ReportLeaves(db: Db, op: ReportOp, now: int)
    ensures LeavesDecided(db, After(db, HandleReport(db, op, now)), ToReports(op))
  {
    ReportFrame(db, op, now);
    ReportKeepsUsers(db, op, now);
    SameApplications(db, After(db, HandleReport(db, op, now)), ToReports(op));
  }

  lemma {:induction false} SignupKeepsUsers(db: Db, user: Uuid, req: SignupRequest, appId: Uuid, now: int)
    ensures var d := After(db, Signup(CURRENT_VERSIONS, db, user, req, appId, now));
            d.idolProfiles == db.idolProfiles && forall u :: u in db.profiles ==> u in d.profiles
  {
  }

  lemma {:induction false} SignupKeepsApplications(
      db: Db, user: Uuid, req: SignupRequest, appId: Uuid, now: int, op: Op)
    ensures OnlyWithdrawn(db.applications,
                          After(db, Signup(CURRENT_VERSIONS, db, user, req, appId, now)).applications, op)
  {
  }

  lemma {:induction false} SignupLeaves(db: Db, user: Uuid, req: SignupRequest, appId: Uuid, now: int, op: AuthOp)
    ensures LeavesDecided(db, After(db, Signup(CURRENT_VERSIONS, db, user, req, appId, now)), ToAuth(op))
  {
    SignupKeepsUsers(db, user, req, appId, now);
    SignupKeepsApplications(db, user, req, appId, now, ToAuth(op));
  }

  lemma {:induction false} ReagreeLeaves(db: Db, user: Uuid, a: Agreements, now: int, op: AuthOp)
    ensures LeavesDecided(db, After(db, Reagree(CURRENT_VERSIONS, db, user, a, now)), ToAuth(op))
  {
    SameApplications(db, After(db, Reagree(CURRENT_VERSIONS, db, user, a, now)), ToAuth(op));
  }

  lemma {:induction false} ReapplyLeaves(
      db: Db, user: Uuid, appId: Uuid, stageName: string, bio: Option<string>, note: Option<string>, now: int,
      op: AuthOp)
    ensures LeavesDecided(db, After(db, Reapply(db, user, appId, stageName, bio, note, now)), ToAuth(op))
  {
  }

  lemma {:induction false} WithdrawLeaves(db: Db, user: Uuid, appId: Uuid, now: int)
    ensures LeavesDecided(db, After(db, Withdraw(db, user, appId, now)), ToAuth(WithdrawOp(user, appId)))
  {
  }

  lemma {:induction false} AuthLeaves(db: Db, op: AuthOp, now: int)
    ensures LeavesDecided(db, After(db, HandleAuth(db, op, now)), ToAuth(op))
  {
    match op
    case SignupOp(user, req, appId) => SignupLeaves(db, user, req, appId, now, op);
    case ReagreeOp(user, a) => ReagreeLeaves(db, user, a, now, op);
    case ReapplyOp(user, appId, stageName, bio, note) => ReapplyLeaves(db, user, appId, stageName, bio, note, now, op);
    case WithdrawOp(user, appId) => WithdrawLeaves(db, user, appId, now);
  }

  lemma {:induction false} SubscriptionLeaves(db: Db, op: SubscriptionOp, now: int)
    ensures LeavesDecided(db, After(db, HandleSubscription(db, op, now)), ToSubscriptions(op))
  {
    SubscriptionFrame(db, op, now);
    SameApplications(db, After(db, HandleSubscription(db, op, now)), ToSubscriptions(op));
  }

  lemma {:induction false} ChatLeaves(db: Db, op: ChatOp, now: int)
    ensures LeavesDecided(db, After(db, HandleChat(db, op, now)), ToChat(op))
  {
    ChatFrame(db, op, now);
    SameApplications(db, After(db, HandleChat(db, op, now)), ToChat(op));
  }

  /** Requests of other kinds leave idols, registered users and decided applications alone. */
  lemma {:induction false} MeanwhileFrame(db: Db, r: Request)
    requires !IsDecision(r.op)
    ensures LeavesDecided(db, Step(db, r), r.op)
  {
    match r.op
    case ToAdmin(op) => SuspensionLeaves(db, op, r.now);
    case ToReports(op) => ReportLeaves(db, op, r.now);
    case ToAuth(op) => AuthLeaves(db, op, r.now);
    case ToSubscriptions(op) => SubscriptionLeaves(db, op, r.now);
    case ToChat(op) => ChatLeaves(db, op, r.now);
  }

  lemma {:induction false} ReportKeepsUsers(db: Db, op: ReportOp, now: int)
    ensures forall u :: u in db.profiles ==> u in After(db, HandleReport(db, op, now)).profiles
  {
  }

  lemma {:induction false} PassKeepsTx(db: Db, r: Request, tx: Tx)
    requires TxOk(db, tx) && !IsDecision(r.op) && !Blocks(db, tx, r.op)
    ensures TxOk(Step(db, r), tx)
  {
    MeanwhileFrame(db, r);
  }

  lemma {:induction false} PassKeepsInv(w: World, r: Request)
    requires Inv(w) && CanPass(w, r)
    ensures Inv(Pass(w, r))
  {
    StepKeepsValid(w.db, r);
    forall t | t in w.txs ensures TxOk(Step(w.db, r), w.txs[t]) {
      PassKeepsTx(w.db, r, w.txs[t]);
    }
  }

  // ---------------------------------------------------------------- every interleaving

  lemma {:induction false} DoKeepsInv(w: World, s: TxStep)
    requires Inv(w)
    ensures Inv(Do(w, s))
    ensures (Do(w, s).db == w.db && Do(w, s).log == w.log) ||
            (exists r :: Do(w, s).log == w.log + [r] && Do(w, s).db == Step(w.db, r))
  {
    if CanDo(w, s) {
      match s
      case Begin(_, _, _, _, _) => BeginKeepsTxs(w, s);
      case Read(t) => ReadKeepsTxs(w, t);
      case Claim(t) => ClaimKeepsTxs(w, t);
      case SetRole(t) => SetRoleKeepsTxs(w, t);
      case Insert(t) => InsertKeepsTxs(w, t);
      case Commit(t) => CommitKeepsInv(w, t);
      case Abort(t) => AbortKeepsTxs(w, t);
    }
  }

  lemma {:induction false} TakeKeepsInv(w: World, s: RaceStep)
    requires Inv(w)
    ensures Inv(Take(w, s))
    ensures (Take(w, s).db == w.db && Take(w, s).log == w.log) ||
            (exists r :: Take(w, s).log == w.log + [r] && Take(w, s).db == Step(w.db, r))
  {
    match s
    case Race(step) => DoKeepsInv(w, step);
    case Meanwhile(r) =>
      if CanPass(w, r) {
        PassKeepsInv(w, r);
      }
  }

  /**
   Serializability: whatever the interleaving, the committed tables are those of a serial run
   of the committed requests, in commit order.
   */
  lemma {:induction false} EveryInterleavingIsSerial(db: Db, steps: seq<RaceStep>)
    requires Valid(db)
    ensures var w := Exec(World(db, map[], []), steps);
            Inv(w) && w.db == Run(db, w.log)
  {
    var start := World(db, map[], []);
    if steps != [] {
      var front := steps[..|steps| - 1];
      EveryInterleavingIsSerial(db, front);
      var before, after := Exec(start, front), Exec(start, steps);
      TakeKeepsInv(before, steps[|steps| - 1]);
      if !(after.db == before.db && after.log == before.log) {
        var r :| after.log == before.log + [r] && after.db == Step(before.db, r);
        RunAppend(db, before.log, r);
      }
    }
  }

  /**
   In every reachable world at most one transaction has committed on an application, and the
   row carries that winner's verdict, admin, instant and reason.
   */
  lemma {:induction false} AtMostOneWinner(db: Db, steps: seq<RaceStep>, t: nat, o: nat)
    requires Valid(db)
    requires var w := Exec(World(db, map[], []), steps);
             t in w.txs && o in w.txs && w.txs[t].appId == w.txs[o].appId &&
             w.txs[t].phase == Done(Committed) && w.txs[o].phase == Done(Committed)
    ensures t == o
    ensures var w := Exec(World(db, map[], []), steps);
            w.txs[t].appId in w.db.applications && DecidedBy(w.db.applications[w.txs[t].appId], w.txs[t])
    ensures var w := Exec(World(db, map[], []), steps);
            var a := w.db.applications[w.txs[t].appId];
            a.handledBy == Some(w.txs[t].admin) && a.handledAt == Some(w.txs[t].now) &&
            match w.txs[t].verdict
            case ToApprove => a.status == Approved
            case ToReject(reason) => a.status == Rejected && a.rejectionReason == Some(reason)
  {
    EveryInterleavingIsSerial(db, steps);
  }

  /** Interleaved or not, what holds of idols in serial runs holds. */
  lemma {:induction false} RaceKeepsIdols(db: Db, steps: seq<RaceStep>)
    requires Valid(db) && NoIdols(db)
    ensures var w := Exec(World(db, map[], []), steps);
            Valid(w.db) && IdolsMatch(w.db) && |IdolUsers(w.db)| == |ApprovedIds(w.db)|
  {
    EveryInterleavingIsSerial(db, steps);
    ReachableIdols(db, Exec(World(db, map[], []), steps).log);
  }

  // ---------------------------------------------------------------- once decided

  /** A transaction that, its application being decided, can only end in failure. */
  predicate Lost(tx: Tx) {
    tx.phase == Started || tx.phase == HasRead || tx.phase == Done(Failed(Conflict)) || tx.phase == Done(Aborted)
  }

  /** Whatever was unfinished or absent in w is lost in w2. */
  ghost predicate NobodyElseWins(w: World, w2: World, appId: Uuid) {
    forall t :: t in w2.txs && w2.txs[t].appId == appId ==>
      (t in w.txs && w2.txs[t] == w.txs[t] && w.txs[t].phase.Done?) || Lost(w2.txs[t])
  }

  /** A commit never touches an application decided before. */
  lemma {:induction false} CommitSparesDecided(db: Db, d: Db, tx: Tx, appId: Uuid)
    requires TxOk(db, tx) && ReadyToCommit(tx) && EffectOf(db, d, tx)
    requires appId in db.applications && db.applications[appId].status != Pending
    ensures appId in d.applications && d.applications[appId] == db.applications[appId]
  {
  }

  lemma {:induction false} DecidedDo(w: World, s: TxStep, appId: Uuid)
    requires TxsOk(w) && appId in w.db.applications && w.db.applications[appId].status != Pending
    ensures appId in Do(w, s).db.applications && Do(w, s).db.applications[appId] == w.db.applications[appId]
  {
    if CanDo(w, s) && s.Commit? {
      assert TxOk(w.db, w.txs[s.t]);
      if CanCommit(w.db, w.txs[s.t]) {
        EffectIs(w.db, w.txs[s.t]);
        CommitSparesDecided(w.db, Effect(w.db, w.txs[s.t]), w.txs[s.t], appId);
      }
    }
  }

  lemma {:induction false} DecidedPass(w: World, r: Request, appId: Uuid)
    requires appId in w.db.applications && w.db.applications[appId].status != Pending
    ensures appId in Pass(w, r).db.applications && Pass(w, r).db.applications[appId] == w.db.applications[appId]
  {
    if CanPass(w, r) {
      MeanwhileFrame(w.db, r);
    }
  }

  lemma {:induction false} DecidedStep(w: World, s: RaceStep, appId: Uuid)
    requires Inv(w) && appId in w.db.applications && w.db.applications[appId].status != Pending
    ensures appId in Take(w, s).db.applications && Take(w, s).db.applications[appId] == w.db.applications[appId]
  {
    match s
    case Race(step) => DecidedDo(w, step, appId);
    case Meanwhile(r) => DecidedPass(w, r, appId);
  }

  /** In w, appId was decided as it is in d, and nobody finished since but losers. */
  ghost predicate Settled(w: World, v: World, appId: Uuid)
    requires appId in w.db.applications
  {
    Inv(v) && appId in v.db.applications && v.db.applications[appId] == w.db.applications[appId] &&
    NobodyElseWins(w, v, appId)
  }

  lemma {:induction false} StaysSettled(w: World, mid: World, s: RaceStep, appId: Uuid)
    requires appId in w.db.applications && w.db.applications[appId].status != Pending && Settled(w, mid, appId)
    ensures Settled(w, Take(mid, s), appId)
  {
    TakeKeepsInv(mid, s);
    DecidedStep(mid, s, appId);
    LostStaysLost(w, mid, s, appId);
  }

  lemma {:induction false} SettledAtOnce(w: World, appId: Uuid)
    requires Inv(w) && appId in w.db.applications && w.db.applications[appId].status != Pending
    ensures Settled(w, w, appId)
  {
    assert forall t :: t in w.txs && w.txs[t].appId == appId ==> TxOk(w.db, w.txs[t]);
  }

  lemma {:induction false} SettledMeans(w: World, v: World, appId: Uuid)
    requires appId in w.db.applications && Settled(w, v, appId)
    ensures appId in v.db.applications && v.db.applications[appId] == w.db.applications[appId]
    ensures forall t :: t in v.txs && v.txs[t].appId == appId && v.txs[t].phase == Done(Committed) ==>
              t in w.txs && w.txs[t].phase == Done(Committed)
  {
  }

  lemma {:induction false} SettledForGood(w: World, steps: seq<RaceStep>, appId: Uuid)
    requires Inv(w) && appId in w.db.applications && w.db.applications[appId].status != Pending
    ensures Settled(w, Exec(w, steps), appId)
  {
    if steps == [] {
      SettledAtOnce(w, appId);
    } else {
      SettledForGood(w, steps[..|steps| - 1], appId);
      StaysSettled(w, Exec(w, steps[..|steps| - 1]), steps[|steps| - 1], appId);
    }
  }

  /**
   A decision is final: from then on the row never changes, no other transaction commits on
   the application, and every other attempt, running or yet to come, can only fail with a
   conflict or be aborted.
   */
  lemma {:induction false} DecisionIsFinal(w: World, steps: seq<RaceStep>, appId: Uuid)
    requires Inv(w) && appId in w.db.applications && w.db.applications[appId].status != Pending
    ensures Settled(w, Exec(w, steps), appId)
    ensures var v := Exec(w, steps);
            appId in v.db.applications && v.db.applications[appId] == w.db.applications[appId] &&
            forall t :: t in v.txs && v.txs[t].appId == appId && v.txs[t].phase == Done(Committed) ==>
              t in w.txs && w.txs[t].phase == Done(Committed)
  {
    SettledForGood(w, steps, appId);
    SettledMeans(w, Exec(w, steps), appId);
  }

  lemma {:induction false} OtherTx(w: World, s: TxStep, t: nat)
    requires t in Do(w, s).txs && t != s.t
    ensures t in w.txs && Do(w, s).txs[t] == w.txs[t]
  {
  }

  /** What one step makes of a transaction on a decided application. */
  lemma {:induction false} LostTx(w: World, s: TxStep, t: nat)
    requires TxsOk(w) && t in Do(w, s).txs
    requires var id := Do(w, s).txs[t].appId; id in w.db.applications && w.db.applications[id].status != Pending
    ensures (t in w.txs && Do(w, s).txs[t] == w.txs[t]) || Lost(Do(w, s).txs[t])
  {
    if t != s.t {
      OtherTx(w, s, t);
    } else if t in w.txs {
      assert TxOk(w.db, w.txs[t]);
    }
  }

  lemma {:induction false} LostStaysLost(w: World, mid: World, s: RaceStep, appId: Uuid)
    requires TxsOk(mid) && NobodyElseWins(w, mid, appId)
    requires appId in mid.db.applications && mid.db.applications[appId].status != Pending
    ensures NobodyElseWins(w, Take(mid, s), appId)
  {
    var after := Take(mid, s);
    forall t | t in after.txs && after.txs[t].appId == appId
      ensures (t in w.txs && after.txs[t] == w.txs[t] && w.txs[t].phase.Done?) || Lost(after.txs[t])
    {
      if s.Race? {
        LostTx(mid, s.step, t);
      }
    }
  }

  // ---------------------------------------------------------------- after a rollback, and progress

  /** The transaction o commits tx's decision next. */
  ghost predicate CommitsNext(w: World, o: nat, tx: Tx) {
    CanDo(w, Commit(o)) &&
    var won := Do(w, Commit(o));
    o in won.txs && won.txs[o].phase == Done(Committed) &&
    tx.appId in won.db.applications && DecidedBy(won.db.applications[tx.appId], tx)
  }

  /** o can claim its application and then commit its decision. */
  ghost predicate WinsNext(w: World, o: nat) {
    CanDo(w, Claim(o)) && CommitsNext(Do(w, Claim(o)), o, w.txs[o])
  }

  lemma {:induction false} ReadyCommits(w: World, o: nat, tx: Tx)
    requires o in w.txs && Valid(w.db) && TxOk(w.db, w.txs[o]) && ReadyToCommit(w.txs[o])
    requires tx == w.txs[o].(phase := HasRead)
    ensures CommitsNext(w, o, tx)
  {
    ReadyCanCommit(w.db, w.txs[o]);
  }

  lemma {:induction false} ReadyCanCommit(db: Db, tx: Tx)
    requires Valid(db) && TxOk(db, tx) && ReadyToCommit(tx)
    ensures CanCommit(db, tx) && DecidedBy(Effect(db, tx).applications[tx.appId], tx)
  {
    assert ApplicationKeysValid(db.profiles.Keys, db.applications[tx.appId]);
  }

  lemma {:induction false} ClaimedRejects(w: World, o: nat)
    requires Inv(w) && CanDo(w, Claim(o)) && w.txs[o].verdict.ToReject?
    requires w.txs[o].appId in w.db.applications && w.db.applications[w.txs[o].appId].status == Pending
    ensures WinsNext(w, o)
  {
    var tx := w.txs[o].(phase := Claimed);
    ClaimKeepsTxs(w, o);
    assert Do(w, Claim(o)) == w.(txs := w.txs[o := tx]);
    assert TxOk(w.db, w.txs[o]);
    ReadyCommits(Do(w, Claim(o)), o, w.txs[o]);
  }

  /** A flush that fails frees the application for whoever else has read it. */
  lemma {:induction false} RollbackFrees(w: World, t: nat, o: nat)
    requires TxsOk(w) && CanDo(w, Insert(t)) && t != o && o in w.txs
    requires AfterInsertFails(w, t)
    requires w.txs[o].appId == w.txs[t].appId && w.txs[o].phase == HasRead
    ensures Do(w, Insert(t)) == w.(txs := w.txs[t := Ended(w.txs[t], Failed(Conflict))])
    ensures CanDo(Do(w, Insert(t)), Claim(o))
  {
    var back := Do(w, Insert(t));
    assert TxOk(w.db, w.txs[t]);
    forall x | x in back.txs && x != o ensures !Waits(back.txs[o], back.txs[x]) {
      if x != t {
        assert PairOk(w.txs[t], w.txs[x]);
      }
    }
  }

  predicate AfterInsertFails(w: World, t: nat) {
    t in w.txs && w.txs[t].row.Some? && AfterInsert(w.db, w.txs[t]).phase == Done(Failed(Conflict))
  }

  /**
   An approval that loses its stage name rolls back completely: the tables are untouched, the
   application is pending and free again, and any other reader of it may claim it next; if
   that one rejects, two steps later it has won.
   */
  lemma {:induction false} RollbackLetsAnotherWin(w: World, t: nat, o: nat)
    requires Inv(w) && CanDo(w, Insert(t)) && t != o && o in w.txs
    requires AfterInsertFails(w, t)
    requires w.txs[o].appId == w.txs[t].appId && w.txs[o].phase == HasRead && w.txs[o].verdict.ToReject?
    ensures Do(w, Insert(t)).db == w.db && Do(w, Insert(t)).txs[t].phase == Done(Failed(Conflict))
    ensures w.txs[t].appId in w.db.applications && w.db.applications[w.txs[t].appId].status == Pending
    ensures WinsNext(Do(w, Insert(t)), o)
    ensures var won := Do(Do(Do(w, Insert(t)), Claim(o)), Commit(o));
            w.txs[t].appId in won.db.applications && won.db.applications[w.txs[t].appId].status == Rejected &&
            won.db.applications[w.txs[t].appId].handledBy == Some(w.txs[o].admin) &&
            o in won.txs && won.txs[o].phase == Done(Committed)
  {
    assert TxOk(w.db, w.txs[t]);
    InsertKeepsTxs(w, t);
    RollbackFrees(w, t, o);
    ClaimedRejects(Do(w, Insert(t)), o);
  }

  /** The step an unfinished transaction takes next. */
  function NextStep(tx: Tx, t: nat): TxStep
    requires !tx.phase.Done?
  {
    match tx.phase
    case Started => Read(t)
    case HasRead => Claim(t)
    case Claimed => if tx.verdict.ToApprove? then SetRole(t) else Commit(t)
    case RoleSet => Insert(t)
    case Inserted => Commit(t)
  }

  /**
   No deadlock: the conditional UPDATE, the role UPDATE and the insert are always made in this
   order, so whenever transactions are unfinished one of them can take its next step.
   */
  lemma {:induction false} SomebodyCanMove(w: World, t: nat) returns (o: nat)
    requires Inv(w) && t in w.txs && !w.txs[t].phase.Done?
    ensures o in w.txs && !w.txs[o].phase.Done? && CanDo(w, NextStep(w.txs[o], o))
    decreases Left(w.txs[t])
  {
    o := t;
    if !CanDo(w, NextStep(w.txs[t], t)) {
      var x := Blocker(w, t);
      o := SomebodyCanMove(w, x);
    }
  }

  /** How many steps a transaction has left. */
  function Left(tx: Tx): nat {
    match tx.phase
    case Started => 5
    case HasRead => 4
    case Claimed => 3
    case RoleSet => 2
    case Inserted => 1
    case Done(_) => 0
  }

  /** Whoever waits, waits for somebody unfinished who is further on. */
  lemma {:induction false} Blocker(w: World, t: nat) returns (x: nat)
    requires t in w.txs && !w.txs[t].phase.Done? && !CanDo(w, NextStep(w.txs[t], t))
    ensures x in w.txs && !w.txs[x].phase.Done? && Left(w.txs[x]) < Left(w.txs[t])
  {
    assert Waiting(w, t);
    x :| x in w.txs && x != t && Waits(w.txs[t], w.txs[x]);
  }
}
