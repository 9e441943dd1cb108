/** What every interleaving of admin requests keeps: tables, winners, held rows and progress. */
module AdminRaceFacts {
  import opened Schema
  import opened Services
  import opened Idols
  import opened Suspensions
  import opened AdminRace

  // ---------------------------------------------------------------- tables

  /** A decision moves the tables by a serial request or not at all. */
  lemma {:induction false} DecisionIsRequest(w: World, s: A.TxStep)
    requires Inv(w)
    ensures AfterDecision(w, s).db == w.db || exists r :: AfterDecision(w, s).db == Step(w.db, r)
  {
    A.DoKeepsInv(Decisions(w), s);
  }

  lemma {:induction false} NewProfileKeepsRole(db: Db, tx: Tx)
    requires TxOk(db, tx) && HoldsProfile(tx)
    ensures tx.target in db.profiles && tx.newProfile.value.role == db.profiles[tx.target].role
    ensures RowConsistent(tx.newProfile.value)
  {
  }

  /** The profiles a commit publishes. */
  lemma {:induction false} PublishedProfiles(db: Db, tx: Tx)
    requires TxOk(db, tx) && ReadyToCommit(tx)
    ensures Published(db, tx).profiles ==
            if HoldsProfile(tx) then db.profiles[tx.target := tx.newProfile.value] else db.profiles
  {
  }

  lemma {:induction false} CommitKeepsIdols(db: Db, tx: Tx)
    requires Valid(db) && IdolsMatch(db) && TxOk(db, tx) && ReadyToCommit(tx)
    ensures IdolsMatch(Published(db, tx))
  {
    PublishedProfiles(db, tx);
    if HoldsProfile(tx) {
      NewProfileKeepsRole(db, tx);
      OtherProfileWrite(db, tx.target, tx.newProfile.value);
      IdolsMatchAlone(db.(profiles := db.profiles[tx.target := tx.newProfile.value]), Published(db, tx));
    } else {
      IdolsMatchAlone(db, Published(db, tx));
    }
  }

  lemma {:induction false} CommitKeepsConsistent(db: Db, tx: Tx)
    requires AllConsistent(db) && TxOk(db, tx) && ReadyToCommit(tx)
    ensures AllConsistent(Published(db, tx))
  {
    PublishedProfiles(db, tx);
    if HoldsProfile(tx) {
      NewProfileKeepsRole(db, tx);
    }
  }

  lemma {:induction false} TakeKeepsIdols(w: World, s: Move)
    requires Inv(w) && IdolsMatch(w.db)
    ensures IdolsMatch(Take(w, s).db)
  {
    match s
    case Decide(d) =>
      DecisionIsRequest(w, d);
      if AfterDecision(w, d).db != w.db {
        var r :| AfterDecision(w, d).db == Step(w.db, r);
        StepKeepsIdols(w.db, r);
      }
    case Change(c) =>
      if CanDo(w, c) && c.Commit? {
        ChangeIsOk(w, c.t);
        CommitKeepsIdols(w.db, w.changes[c.t]);
      }
    case Meanwhile(r) => StepKeepsIdols(w.db, r);
  }

  lemma {:induction false} TakeKeepsConsistent(w: World, s: Move)
    requires Inv(w) && AllConsistent(w.db)
    ensures AllConsistent(Take(w, s).db)
  {
    match s
    case Decide(d) =>
      DecisionIsRequest(w, d);
      if AfterDecision(w, d).db != w.db {
        var r :| AfterDecision(w, d).db == Step(w.db, r);
        StepKeepsConsistent(w.db, r);
      }
    case Change(c) =>
      if CanDo(w, c) && c.Commit? {
        ChangeIsOk(w, c.t);
        CommitKeepsConsistent(w.db, w.changes[c.t]);
      }
    case Meanwhile(r) => StepKeepsConsistent(w.db, r);
  }

  /** The constraints hold in every interleaving from tables that satisfy them. */
  lemma {:induction false} RaceKeepsValid(db: Db, steps: seq<Move>)
    requires Valid(db)
    ensures Inv(Exec(Start(db), steps)) && Valid(Exec(Start(db), steps).db)
  {
    ExecKeepsInv(Start(db), steps);
  }

  lemma {:induction false} RaceKeepsChanges(db: Db, steps: seq<Move>)
    requires Valid(db)
    ensures ChangesOk(Exec(Start(db), steps))
  {
    RaceKeepsValid(db, steps);
  }

  /** So do the correspondence of idols with approved applications and the agreement of the suspension columns. */
  lemma {:induction false} RaceKeepsIdols(db: Db, steps: seq<Move>)
    requires Valid(db) && IdolsMatch(db)
    ensures IdolsMatch(Exec(Start(db), steps).db)
  {
    if steps != [] {
      RaceKeepsIdols(db, steps[..|steps| - 1]);
      RaceKeepsValid(db, steps[..|steps| - 1]);
      TakeKeepsIdols(Exec(Start(db), steps[..|steps| - 1]), steps[|steps| - 1]);
    }
  }

  lemma {:induction false} RaceKeepsColumns(db: Db, steps: seq<Move>)
    requires Valid(db) && AllConsistent(db)
    ensures AllConsistent(Exec(Start(db), steps).db)
  {
    if steps != [] {
      RaceKeepsColumns(db, steps[..|steps| - 1]);
      RaceKeepsValid(db, steps[..|steps| - 1]);
      TakeKeepsConsistent(Exec(Start(db), steps[..|steps| - 1]), steps[|steps| - 1]);
    }
  }

  // ---------------------------------------------------------------- transactions

  lemma {:induction false} OtherChange(w: World, s: Move, t: nat)
    requires t in Take(w, s).changes && !(s.Change? && s.change.t == t)
    ensures t in w.changes && Take(w, s).changes[t] == w.changes[t]
  {
  }

  // ---------------------------------------------------------------- winners

  /** Whatever else races, one application has one winner and the row is as the winner wrote it. */
  lemma {:induction false} OneWinner(db: Db, steps: seq<Move>, t: nat, o: nat)
    requires Valid(db)
    requires var w := Exec(Start(db), steps);
             t in w.decisions && o in w.decisions && w.decisions[t].appId == w.decisions[o].appId &&
             w.decisions[t].phase == A.Done(A.Committed) && w.decisions[o].phase == A.Done(A.Committed)
    ensures t == o
    ensures var w := Exec(Start(db), steps);
            w.decisions[t].appId in w.db.applications &&
            A.DecidedBy(w.db.applications[w.decisions[t].appId], w.decisions[t])
  {
    RaceKeepsValid(db, steps);
  }

  lemma {:induction false} ChangeStaysSettled(w: World, mid: World, c: TxStep, appId: Uuid)
    requires appId in w.db.applications && Inv(mid) && A.Settled(Decisions(w), Decisions(mid), appId)
    ensures A.Settled(Decisions(w), Decisions(Do(mid, c)), appId)
  {
    DoKeepsInv(mid, c);
  }

  lemma {:induction false} DecisionStaysSettled(w: World, mid: World, d: A.TxStep, appId: Uuid)
    requires appId in w.db.applications && w.db.applications[appId].status != Pending
    requires A.Settled(Decisions(w), Decisions(mid), appId)
    ensures A.Settled(Decisions(w), Decisions(AfterDecision(mid, d)), appId)
  {
    A.StaysSettled(Decisions(w), Decisions(mid), A.Race(d), appId);
    if MayDecide(mid, d) {
      assert Decisions(AfterDecision(mid, d)) == A.Take(Decisions(mid), A.Race(d));
    }
  }

  lemma {:induction false} PassStaysSettled(w: World, mid: World, r: Request, appId: Uuid)
    requires appId in w.db.applications && w.db.applications[appId].status != Pending
    requires A.Settled(Decisions(w), Decisions(mid), appId)
    ensures A.Settled(Decisions(w), Decisions(Pass(mid, r)), appId)
  {
    if CanPass(mid, r) && Handle(mid.db, r).Ok? {
      A.StaysSettled(Decisions(w), Decisions(mid), A.Meanwhile(r), appId);
      assert Decisions(Pass(mid, r)) == A.Take(Decisions(mid), A.Meanwhile(r));
    }
  }

  lemma {:induction false} MoveStaysSettled(w: World, mid: World, s: Move, appId: Uuid)
    requires appId in w.db.applications && w.db.applications[appId].status != Pending
    requires Inv(mid) && A.Settled(Decisions(w), Decisions(mid), appId)
    ensures A.Settled(Decisions(w), Decisions(Take(mid, s)), appId)
  {
    match s
    case Decide(d) => DecisionStaysSettled(w, mid, d, appId);
    case Change(c) => ChangeStaysSettled(w, mid, c, appId);
    case Meanwhile(r) => PassStaysSettled(w, mid, r, appId);
  }

  /** A decided application never changes again, and every other attempt on it is lost. */
  lemma {:induction false} DecidedStaysDecided(w: World, steps: seq<Move>, appId: Uuid)
    requires Inv(w) && appId in w.db.applications && w.db.applications[appId].status != Pending
    ensures A.Settled(Decisions(w), Decisions(Exec(w, steps)), appId)
  {
    if steps == [] {
      A.SettledAtOnce(Decisions(w), appId);
    } else {
      DecidedStaysDecided(w, steps[..|steps| - 1], appId);
      ExecKeepsInv(w, steps[..|steps| - 1]);
      MoveStaysSettled(w, Exec(w, steps[..|steps| - 1]), steps[|steps| - 1], appId);
    }
  }

  // ---------------------------------------------------------------- held rows

  lemma {:induction false} ApprovalSparesRow(db: Db, tx: A.Tx, other: A.Tx, u: Uuid)
    requires A.TxOk(db, tx) && A.ReadyToCommit(tx) && A.CanCommit(db, tx) && A.PairOk(tx, other)
    requires DecisionHolds(other, u) && u in db.profiles
    ensures u in A.Effect(db, tx).profiles && A.Effect(db, tx).profiles[u] == db.profiles[u]
  {
    EffectWrites(db, tx);
  }

  lemma {:induction false} DecisionSparesRow(w: World, d: A.TxStep, o: nat, u: Uuid)
    requires Inv(w) && o in w.decisions && DecisionHolds(w.decisions[o], u) && u in w.db.profiles
    requires d != A.Commit(o)
    ensures u in AfterDecision(w, d).db.profiles && AfterDecision(w, d).db.profiles[u] == w.db.profiles[u]
  {
    if A.CanDo(Decisions(w), d) && d.Commit? {
      DecisionIsOk(w, d.t);
      DecisionPairOk(w, d.t, o);
    }
    CommitSparesRow(w, d, o, u);
  }

  lemma {:induction false} CommitSparesRow(w: World, d: A.TxStep, o: nat, u: Uuid)
    requires o in w.decisions && DecisionHolds(w.decisions[o], u) && u in w.db.profiles
    requires A.CanDo(Decisions(w), d) && d.Commit? ==>
               A.TxOk(w.db, w.decisions[d.t]) && A.PairOk(w.decisions[d.t], w.decisions[o])
    ensures u in AfterDecision(w, d).db.profiles && AfterDecision(w, d).db.profiles[u] == w.db.profiles[u]
  {
    DecisionWrites(Decisions(w), d);
    if AfterDecision(w, d).db != w.db {
      ApprovalSparesRow(w.db, w.decisions[d.t], w.decisions[o], u);
    }
  }

  lemma {:induction false} ChangeSparesRow(db: Db, tx: Tx, holder: A.Tx, u: Uuid)
    requires TxOk(db, tx) && ReadyToCommit(tx) && CrossOk(holder, tx) && DecisionHolds(holder, u) && u in db.profiles
    ensures u in Published(db, tx).profiles && Published(db, tx).profiles[u] == db.profiles[u]
  {
    PublishedProfiles(db, tx);
  }

  lemma {:induction false} StepSparesRow(w: World, c: TxStep, o: nat, u: Uuid)
    requires Inv(w) && o in w.decisions && DecisionHolds(w.decisions[o], u) && u in w.db.profiles
    ensures u in Do(w, c).db.profiles && Do(w, c).db.profiles[u] == w.db.profiles[u]
  {
    if CanDo(w, c) && c.Commit? {
      ChangeIsOk(w, c.t);
      ChangeSparesRow(w.db, w.changes[c.t], w.decisions[o], u);
    }
  }

  lemma {:induction false} PassSparesRow(w: World, r: Request, u: Uuid)
    requires u in w.db.profiles
    ensures u in Pass(w, r).db.profiles && Pass(w, r).db.profiles[u] == w.db.profiles[u]
  {
    if CanPass(w, r) {
      BystanderKeepsProfile(w.db, r, u);
    }
  }

  /**
   The profile row an approval holds is written by nobody else, so the role it publishes
   goes on the very row it updated.
   */
  lemma {:induction false} HeldRowStays(w: World, s: Move, o: nat, u: Uuid)
    requires Inv(w) && o in w.decisions && DecisionHolds(w.decisions[o], u) && u in w.db.profiles
    requires s != Decide(A.Commit(o))
    ensures u in Take(w, s).db.profiles && Take(w, s).db.profiles[u] == w.db.profiles[u]
  {
    match s
    case Decide(d) => DecisionSparesRow(w, d, o, u);
    case Change(c) => StepSparesRow(w, c, o, u);
    case Meanwhile(r) => PassSparesRow(w, r, u);
  }

  // ---------------------------------------------------------------- progress

  datatype Id = DecisionNo(d: nat) | ChangeNo(c: nat)

  predicate Unfinished(w: World, id: Id) {
    match id
    case DecisionNo(d) => d in w.decisions && !w.decisions[d].phase.Done?
    case ChangeNo(c) => c in w.changes && !w.changes[c].phase.Done?
  }

  /** The step an unfinished change takes next. */
  function NextStep(tx: Tx, t: nat): TxStep {
    match tx.phase
    case Called => ReadReport(t)
    case Asked => ReadProfile(t)
    case Checked => if ChangesStatus(tx.job) then WriteProfile(t) else WriteReport(t)
    case Wrote => if tx.job.Resolving? then WriteReport(t) else Commit(t)
    case _ => Commit(t)
  }

  predicate CanMove(w: World, id: Id)
    requires Unfinished(w, id)
  {
    match id
    case DecisionNo(d) =>
      var s := A.NextStep(w.decisions[d], d);
      A.CanDo(Decisions(w), s) && MayDecide(w, s)
    case ChangeNo(c) => CanDo(w, NextStep(w.changes[c], c))
  }

  /** How many steps are left. */
  function Left(w: World, id: Id): nat
    requires Unfinished(w, id)
  {
    match id
    case DecisionNo(d) => A.Left(w.decisions[d])
    case ChangeNo(c) =>
      match w.changes[c].phase
      case Called => 5
      case Asked => 4
      case Checked => 3
      case Wrote => 2
      case _ => 1
  }

  ghost predicate PhasesOk(w: World) {
    forall c :: c in w.changes ==> PhaseOk(w.changes[c])
  }

  lemma {:induction false} AllPhasesOk(w: World)
    requires ChangesOk(w)
    ensures PhasesOk(w)
  {
    forall c | c in w.changes ensures PhaseOk(w.changes[c]) {
      ChangeIsOk(w, c);
    }
  }

  lemma {:induction false} Holder(w: World, u: Uuid) returns (x: Id)
    requires PhasesOk(w) && (HeldByChange(w, u) || HeldByDecision(w, u))
    ensures Unfinished(w, x) && Left(w, x) <= 2
  {
    if HeldByChange(w, u) {
      var c :| c in w.changes && HoldsProfile(w.changes[c]) && w.changes[c].target == u;
      x := ChangeNo(c);
    } else {
      var d :| d in w.decisions && DecisionHolds(w.decisions[d], u);
      x := DecisionNo(d);
    }
  }

  lemma {:induction false} ReportHolder(w: World, id: Uuid) returns (x: Id)
    requires PhasesOk(w) && ReportHeld(w, id)
    ensures Unfinished(w, x) && Left(w, x) <= 1
  {
    var c :| c in w.changes && HoldsReport(w.changes[c]) && w.changes[c].job.report == id;
    x := ChangeNo(c);
  }

  lemma {:induction false} DecisionBlocker(w: World, d: nat) returns (x: Id)
    requires PhasesOk(w) && Unfinished(w, DecisionNo(d)) && !CanMove(w, DecisionNo(d))
    ensures Unfinished(w, x) && Left(w, x) < Left(w, DecisionNo(d))
  {
    if A.CanDo(Decisions(w), A.NextStep(w.decisions[d], d)) {
      x := Holder(w, w.decisions[d].row.value.userId);
    } else {
      var o := A.Blocker(Decisions(w), d);
      x := DecisionNo(o);
    }
  }

  lemma {:induction false} ChangeBlocker(w: World, c: nat) returns (x: Id)
    requires PhasesOk(w) && c in w.changes && TxOk(w.db, w.changes[c])
    requires Unfinished(w, ChangeNo(c)) && !CanMove(w, ChangeNo(c))
    ensures Unfinished(w, x) && Left(w, x) < Left(w, ChangeNo(c))
  {
    var tx := w.changes[c];
    if tx.phase == Checked && ChangesStatus(tx.job) {
      x := Holder(w, tx.target);
    } else {
      x := ReportHolder(w, tx.job.report);
    }
  }

  /** Whoever waits, waits for somebody unfinished who is further on. */
  lemma {:induction false} Blocker(w: World, id: Id) returns (x: Id)
    requires Inv(w) && Unfinished(w, id) && !CanMove(w, id)
    ensures Unfinished(w, x) && Left(w, x) < Left(w, id)
  {
    AllPhasesOk(w);
    match id
    case DecisionNo(d) => x := DecisionBlocker(w, d);
    case ChangeNo(c) =>
      ChangeIsOk(w, c);
      x := ChangeBlocker(w, c);
  }

  /**
   No deadlock between the two kinds either: application, profile, idol profile and report
   rows are always taken in this order, so somebody unfinished can take the next step.
   */
  lemma {:induction false} SomebodyCanMove(w: World, id: Id) returns (x: Id)
    requires Inv(w) && Unfinished(w, id)
    ensures Unfinished(w, x) && CanMove(w, x)
    decreases Left(w, id)
  {
    x := id;
    if !CanMove(w, id) {
      x := Blocker(w, id);
      x := SomebodyCanMove(w, x);
    }
  }

  // ---------------------------------------------------------------- aborts and bystanders

  /** An aborted change leaves no trace but its end, and lets go of its rows. */
  lemma {:induction false} AbortLetsGo(w: World, t: nat)
    requires t in w.changes && !w.changes[t].phase.Done?
    ensures var v := Do(w, Abort(t));
            v.db == w.db && v.log == w.log && v.decisions == w.decisions && v.changes.Keys == w.changes.Keys &&
            v.changes[t].phase == Done(false) && !HoldsProfile(v.changes[t]) && !HoldsReport(v.changes[t]) &&
            forall o :: o in w.changes && o != t ==> v.changes[o] == w.changes[o]
  {
  }

  lemma {:induction false} DecisionAbortLetsGo(w: A.World, t: nat)
    requires t in w.txs && !w.txs[t].phase.Done?
    ensures var v := A.Do(w, A.Abort(t));
            v.db == w.db && v.log == w.log && v.txs.Keys == w.txs.Keys && v.txs[t].phase == A.Done(A.Aborted) &&
            !A.HoldsApplication(v.txs[t]) && !A.HoldsProfile(v.txs[t]) &&
            forall o :: o in w.txs && o != t ==> v.txs[o] == w.txs[o]
  {
  }

  /** Whatever users do passes between the steps while no decision is under way; what admins do never does so. */
  lemma {:induction false} UsersPass(w: World, r: Request)
    requires w.decisions == map[]
    ensures CanPass(w, r) <==>
            match r.op
            case ToAdmin(_) => false
            case ToReports(ResolveReportOp(_, _, _, _)) => false
            case _ => true
  {
  }
}
