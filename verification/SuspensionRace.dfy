/**
 Suspensions and unsuspensions overtaking one another in a race of admin requests.

 The status check is not repeated by the update, so a change can commit after another one of
 the same user committed since its read. What that does to the accounting of serial runs is
 told here by the order of reads and commits alone.
 */
module SuspensionRace {
  import opened Basics
  import opened Schema
  import opened Services
  import opened Suspensions
  import opened AdminRace
  import opened AdminRaceFacts

  ghost function Reached(db: Db, steps: seq<Move>): World {
    Exec(Start(db), steps)
  }

  predicate Suspends(job: Job) {
    !job.Unsuspending?
  }

  /** The move commits a change of the status of u. */
  predicate SetsStatus(w: World, s: Move, u: Uuid) {
    Commits(w, s) && ChangesStatus(w.changes[s.change.t].job) && w.changes[s.change.t].target == u
  }

  predicate SetsStatusTo(w: World, s: Move, u: Uuid, suspends: bool) {
    SetsStatus(w, s, u) && Suspends(w.changes[s.change.t].job) == suspends
  }

  /** Somebody else commits a change of the user t is about. */
  predicate Overtakes(w: World, s: Move, t: nat) {
    t in w.changes && SetsStatus(w, s, w.changes[t].target) && s.change.t != t
  }

  predicate Reads(w: World, s: Move, t: nat) {
    s == Change(ReadProfile(t)) && CanDo(w, s.change)
  }

  /** The direction of the last change of its user that others committed since t read the profile. */
  ghost function LastChange(db: Db, steps: seq<Move>, t: nat): Option<bool> {
    if steps == [] then None
    else
      var front := steps[..|steps| - 1];
      NextLast(Reached(db, front), steps[|steps| - 1], t, LastChange(db, front, t))
  }

  function NextLast(w: World, s: Move, t: nat, last: Option<bool>): Option<bool> {
    if Reads(w, s, t) then None
    else if Overtakes(w, s, t) then Some(Suspends(w.changes[s.change.t].job))
    else last
  }

  // ---------------------------------------------------------------- who moves the status

  function Flag(suspended: bool): int {
    if suspended then 1 else 0
  }

  lemma {:induction false} PublishedCounts(db: Db, tx: Tx, u: Uuid)
    requires TxOk(db, tx) && ReadyToCommit(tx)
    ensures Suspended01(Published(db, tx), u) ==
            if ChangesStatus(tx.job) && tx.target == u then Flag(Suspends(tx.job)) else Suspended01(db, u)
  {
  }

  lemma {:induction false} EffectCounts(db: Db, tx: A.Tx, u: Uuid)
    requires A.CanCommit(db, tx)
    ensures Suspended01(A.Effect(db, tx), u) == Suspended01(db, u)
  {
    EffectWrites(db, tx);
  }

  lemma {:induction false} DecisionCounts(w: World, d: A.TxStep, u: Uuid)
    ensures Suspended01(AfterDecision(w, d).db, u) == Suspended01(w.db, u)
  {
    DecisionWrites(Decisions(w), d);
    if AfterDecision(w, d).db != w.db {
      EffectCounts(w.db, w.decisions[d.t], u);
    }
  }

  /** Only the commit of a change moves the status, and to its own side. */
  lemma {:induction false} StatusMoves(w: World, s: Move, u: Uuid)
    requires ChangesOk(w)
    ensures Suspended01(Take(w, s).db, u) ==
            if SetsStatus(w, s, u) then Flag(Suspends(w.changes[s.change.t].job)) else Suspended01(w.db, u)
  {
    if Commits(w, s) {
      ChangeIsOk(w, s.change.t);
      PublishedCounts(w.db, w.changes[s.change.t], u);
      CommitTakes(w, s);
    } else {
      QuietCounts(w, s, u);
    }
  }

  lemma {:induction false} QuietCounts(w: World, s: Move, u: Uuid)
    requires !Commits(w, s)
    ensures Suspended01(Take(w, s).db, u) == Suspended01(w.db, u)
  {
    match s
    case Decide(d) => DecisionCounts(w, d, u);
    case Change(c) =>
    case Meanwhile(r) => StepCounts(w.db, r, u);
  }

  // ---------------------------------------------------------------- what a transaction still knows

  predicate ChangingStatus(w: World, t: nat) {
    t in w.changes && ChangesStatus(w.changes[t].job) && Underway(w.changes[t])
  }

  /** The status as the last change since the read left it, or as read. */
  function StatusSince(tx: Tx, last: Option<bool>): int {
    match last
    case None => Flag(tx.job.Unsuspending?)
    case Some(suspends) => Flag(suspends)
  }

  lemma {:induction false} ReadTells(w: World, s: Move, t: nat)
    requires Reads(w, s, t) && ChangingStatus(Take(w, s), t)
    ensures Suspended01(Take(w, s).db, Take(w, s).changes[t].target) ==
            Flag(Take(w, s).changes[t].job.Unsuspending?)
  {
  }

  lemma {:induction false} OwnChange(w: World, c: TxStep)
    requires ChangesOk(w) && ChangingStatus(Do(w, c), c.t) && !Reads(w, Change(c), c.t)
    ensures ChangingStatus(w, c.t) && w.changes[c.t].target == Do(w, c).changes[c.t].target
    ensures w.changes[c.t].job == Do(w, c).changes[c.t].job && !(c.Commit? && CanDo(w, c))
  {
    if c.t in w.changes {
      assert TxOk(w.db, w.changes[c.t]);
    }
  }

  /** A transaction past its read was so before, unless it reads now. */
  lemma {:induction false} WasChanging(w: World, s: Move, t: nat)
    requires ChangesOk(w) && ChangingStatus(Take(w, s), t) && !Reads(w, s, t)
    ensures ChangingStatus(w, t) && w.changes[t].target == Take(w, s).changes[t].target
    ensures w.changes[t].job == Take(w, s).changes[t].job && !(s == Change(Commit(t)) && CanDo(w, s.change))
  {
    if s.Change? && s.change.t == t {
      OwnChange(w, s.change);
    } else {
      OtherChange(w, s, t);
    }
  }

  /** The status is what the last change left, if the transaction is past its read. */
  ghost predicate Tracked(w: World, t: nat, last: Option<bool>) {
    ChangingStatus(w, t) ==> Suspended01(w.db, w.changes[t].target) == StatusSince(w.changes[t], last)
  }

  lemma {:induction false} OthersTracked(w: World, s: Move, t: nat, last: Option<bool>)
    requires ChangesOk(w) && Tracked(w, t, last) && !Reads(w, s, t) && ChangingStatus(Take(w, s), t)
    ensures Tracked(Take(w, s), t, NextLast(w, s, t, last))
  {
    WasChanging(w, s, t);
    StatusMoves(w, s, w.changes[t].target);
  }

  lemma {:induction false} StaysTracked(w: World, s: Move, t: nat, last: Option<bool>)
    requires ChangesOk(w) && Tracked(w, t, last)
    ensures Tracked(Take(w, s), t, NextLast(w, s, t, last))
  {
    if ChangingStatus(Take(w, s), t) {
      if Reads(w, s, t) {
        ReadTells(w, s, t);
      } else {
        OthersTracked(w, s, t, last);
      }
    }
  }

  lemma {:induction false} TracksStatus(db: Db, steps: seq<Move>, t: nat)
    requires Valid(db)
    ensures Tracked(Reached(db, steps), t, LastChange(db, steps, t))
  {
    if steps != [] {
      var front := steps[..|steps| - 1];
      TracksStatus(db, front, t);
      RaceKeepsChanges(db, front);
      StaysTracked(Reached(db, front), steps[|steps| - 1], t, LastChange(db, front, t));
    }
  }

  /** A commit finds the status it sets exactly when the last change of the user since its read set it. */
  lemma {:induction false} RepeatsIffOvertaken(db: Db, steps: seq<Move>, t: nat)
    requires Valid(db) && CanDo(Reached(db, steps), Commit(t))
    requires ChangesStatus(Reached(db, steps).changes[t].job)
    ensures var w := Reached(db, steps);
            var suspends := Suspends(w.changes[t].job);
            Suspended01(w.db, w.changes[t].target) == Flag(suspends) <==> LastChange(db, steps, t) == Some(suspends)
  {
    TracksStatus(db, steps, t);
  }

  // ---------------------------------------------------------------- the balance

  /** How many suspensions, or unsuspensions, of u are committed. */
  ghost function Changes(db: Db, steps: seq<Move>, u: Uuid, suspends: bool): nat {
    if steps == [] then 0
    else
      var front, s := steps[..|steps| - 1], steps[|steps| - 1];
      Changes(db, front, u, suspends) + if SetsStatusTo(Reached(db, front), s, u, suspends) then 1 else 0
  }

  /** How many of them were overtaken: the last change of u by another, since their read, had done the same. */
  ghost function OvertakenChanges(db: Db, steps: seq<Move>, u: Uuid, suspends: bool): nat {
    if steps == [] then 0
    else
      var front, s := steps[..|steps| - 1], steps[|steps| - 1];
      OvertakenChanges(db, front, u, suspends) +
      if SetsStatusTo(Reached(db, front), s, u, suspends) && LastChange(db, front, s.change.t) == Some(suspends)
      then 1 else 0
  }

  /** The changes that were not overtaken account for the flag. */
  ghost predicate Balanced(db: Db, steps: seq<Move>, u: Uuid) {
    Suspended01(db, u) + Changes(db, steps, u, true) - Changes(db, steps, u, false) ==
    Suspended01(Reached(db, steps).db, u) +
    OvertakenChanges(db, steps, u, true) - OvertakenChanges(db, steps, u, false)
  }

  lemma {:induction false} RaceBalances(db: Db, steps: seq<Move>, u: Uuid)
    requires Valid(db)
    ensures Balanced(db, steps, u)
  {
    if steps != [] {
      var front, s := steps[..|steps| - 1], steps[|steps| - 1];
      RaceBalances(db, front, u);
      RaceKeepsChanges(db, front);
      StatusMoves(Reached(db, front), s, u);
      if SetsStatus(Reached(db, front), s, u) {
        RepeatsIffOvertaken(db, front, s.change.t);
      }
    }
  }

  /**
   The balance of serial runs (suspensions minus unsuspensions are the change of the flag)
   survives a race exactly when as many suspensions as unsuspensions were overtaken.
   */
  lemma {:induction false} SerialBalanceIffOvertakenEven(db: Db, steps: seq<Move>, u: Uuid)
    requires Valid(db)
    ensures Suspended01(db, u) + Changes(db, steps, u, true) - Changes(db, steps, u, false) ==
            Suspended01(Reached(db, steps).db, u) <==>
            OvertakenChanges(db, steps, u, true) == OvertakenChanges(db, steps, u, false)
  {
    RaceBalances(db, steps, u);
  }

  // ---------------------------------------------------------------- reads that lock

  /** The profile is read only while nobody else is past the check of the same user. */
  ghost predicate LocksOnRead(w: World, s: Move) {
    s.Change? && s.change.ReadProfile? && s.change.t in w.changes ==>
      forall o :: ChangingStatus(w, o) && o != s.change.t ==> w.changes[o].target != w.changes[s.change.t].target
  }

  ghost predicate LockedRun(db: Db, steps: seq<Move>) {
    steps == [] ||
    (LockedRun(db, steps[..|steps| - 1]) && LocksOnRead(Reached(db, steps[..|steps| - 1]), steps[|steps| - 1]))
  }

  ghost predicate Alone(w: World) {
    forall t, o :: ChangingStatus(w, t) && ChangingStatus(w, o) && t != o ==> w.changes[t].target != w.changes[o].target
  }

  lemma {:induction false} TwoChanging(w: World, s: Move, t: nat, o: nat)
    requires ChangesOk(w) && Alone(w) && LocksOnRead(w, s) && t != o
    requires ChangingStatus(Take(w, s), t) && ChangingStatus(Take(w, s), o)
    ensures Take(w, s).changes[t].target != Take(w, s).changes[o].target
  {
    if !Reads(w, s, t) {
      WasChanging(w, s, t);
    }
    if !Reads(w, s, o) {
      WasChanging(w, s, o);
    }
  }

  lemma {:induction false} LockedAlone(db: Db, steps: seq<Move>)
    requires Valid(db) && LockedRun(db, steps)
    ensures Alone(Reached(db, steps))
  {
    if steps != [] {
      var front, s := steps[..|steps| - 1], steps[|steps| - 1];
      var w := Reached(db, front);
      LockedAlone(db, front);
      RaceKeepsChanges(db, front);
      forall t, o | ChangingStatus(Take(w, s), t) && ChangingStatus(Take(w, s), o) && t != o
        ensures Take(w, s).changes[t].target != Take(w, s).changes[o].target
      {
        TwoChanging(w, s, t, o);
      }
    }
  }

  lemma {:induction false} AloneNotOvertaken(w: World, s: Move, t: nat)
    requires ChangesOk(w) && Alone(w) && ChangingStatus(w, t)
    ensures !Overtakes(w, s, t)
  {
    if Overtakes(w, s, t) {
      assert TxOk(w.db, w.changes[s.change.t]);
      assert ChangingStatus(w, s.change.t);
    }
  }

  lemma {:induction false} LockedNotOvertaken(db: Db, steps: seq<Move>, t: nat)
    requires Valid(db) && LockedRun(db, steps) && ChangingStatus(Reached(db, steps), t)
    ensures LastChange(db, steps, t) == None
  {
    if steps != [] {
      var front, s := steps[..|steps| - 1], steps[|steps| - 1];
      var w := Reached(db, front);
      RaceKeepsChanges(db, front);
      if !Reads(w, s, t) {
        WasChanging(w, s, t);
        LockedNotOvertaken(db, front, t);
        LockedAlone(db, front);
        AloneNotOvertaken(w, s, t);
      }
    }
  }

  lemma {:induction false} CommitterChanges(w: World, s: Move, u: Uuid)
    requires ChangesOk(w) && SetsStatus(w, s, u)
    ensures ChangingStatus(w, s.change.t)
  {
  }

  lemma {:induction false} LockedNoneOvertaken(db: Db, steps: seq<Move>, u: Uuid, suspends: bool)
    requires Valid(db) && LockedRun(db, steps)
    ensures OvertakenChanges(db, steps, u, suspends) == 0
  {
    if steps != [] {
      var front, s := steps[..|steps| - 1], steps[|steps| - 1];
      LockedNoneOvertaken(db, front, u, suspends);
      RaceKeepsChanges(db, front);
      if SetsStatus(Reached(db, front), s, u) {
        CommitterChanges(Reached(db, front), s, u);
        LockedNotOvertaken(db, front, s.change.t);
      }
    }
  }

  /** Were the profile locked by its read, no change would be overtaken and the serial balance would hold. */
  lemma {:induction false} LockedReadsBalance(db: Db, steps: seq<Move>, u: Uuid)
    requires Valid(db) && LockedRun(db, steps)
    ensures Suspended01(db, u) + Changes(db, steps, u, true) - Changes(db, steps, u, false) ==
            Suspended01(Reached(db, steps).db, u)
  {
    LockedNoneOvertaken(db, steps, u, true);
    LockedNoneOvertaken(db, steps, u, false);
    RaceBalances(db, steps, u);
  }

  // ---------------------------------------------------------------- two suspensions of one user

  datatype Call = Call(admin: Uuid, reason: string, now: int)

  function Calling(user: Uuid, c: Call, t: nat): Move {
    Change(Begin(t, Suspending(c.reason), user, c.admin, c.now))
  }

  function CallTx(user: Uuid, c: Call, phase: Phase): Tx {
    NewTx(Suspending(c.reason), user, c.admin, c.now).(phase := phase)
  }

  /** Both admins have read the profile. */
  function BothRead(user: Uuid, a: Call, b: Call): seq<Move> {
    [Calling(user, a, 0)] + [Calling(user, b, 1)] + [Change(ReadProfile(0))] + [Change(ReadProfile(1))]
  }

  function TwoSuspensions(user: Uuid, a: Call, b: Call): seq<Move> {
    BothRead(user, a, b) + [Change(WriteProfile(0))] + [Change(Commit(0))] + [Change(WriteProfile(1))] +
    [Change(Commit(1))]
  }

  predicate MaySuspend(db: Db, user: Uuid, a: Call, b: Call) {
    user in db.profiles && a.admin in db.profiles && b.admin in db.profiles && user != a.admin && user != b.admin &&
    db.profiles[user].status != Suspended
  }

  lemma {:induction false} Append(db: Db, steps: seq<Move>, c: TxStep, w: World)
    requires Reached(db, steps) == w
    ensures Reached(db, steps + [Change(c)]) == Do(w, c)
    ensures forall u, b :: Changes(db, steps + [Change(c)], u, b) ==
                           Changes(db, steps, u, b) + if SetsStatusTo(w, Change(c), u, b) then 1 else 0
  {
    assert (steps + [Change(c)])[..|steps|] == steps;
  }

  function TwoCalls(db: Db, user: Uuid, a: Call, b: Call, phase: Phase): World {
    World(db, map[], map[0 := CallTx(user, a, phase), 1 := CallTx(user, b, phase)], [])
  }

  lemma {:induction false} BothAsk(db: Db, user: Uuid, a: Call, b: Call)
    requires MaySuspend(db, user, a, b)
    ensures Do(Do(Start(db), Calling(user, a, 0).change), Calling(user, b, 1).change) == TwoCalls(db, user, a, b, Asked)
  {
    assert map[0 := CallTx(user, a, Asked)][1 := CallTx(user, b, Asked)] == TwoCalls(db, user, a, b, Asked).changes;
  }

  lemma {:induction false} ReadAndPass(w: World, t: nat)
    requires t in w.changes && w.changes[t].phase == Asked && Admitted(w.db, w.changes[t])
    ensures Do(w, ReadProfile(t)) == Put(w, t, w.changes[t].(phase := Checked))
  {
  }

  lemma {:induction false} BothAdmitted(db: Db, user: Uuid, a: Call, b: Call)
    requires MaySuspend(db, user, a, b)
    ensures Do(Do(TwoCalls(db, user, a, b, Asked), ReadProfile(0)), ReadProfile(1)) ==
            TwoCalls(db, user, a, b, Checked)
  {
    var w := TwoCalls(db, user, a, b, Asked);
    var v := Put(w, 0, CallTx(user, a, Checked));
    ReadAndPass(w, 0);
    ReadAndPass(v, 1);
    assert v.changes[1 := CallTx(user, b, Checked)] == TwoCalls(db, user, a, b, Checked).changes;
  }

  lemma {:induction false} BothPassTheCheck(db: Db, user: Uuid, a: Call, b: Call)
    requires MaySuspend(db, user, a, b)
    ensures Reached(db, BothRead(user, a, b)) == TwoCalls(db, user, a, b, Checked)
    ensures forall d :: Changes(db, BothRead(user, a, b), user, d) == 0
  {
    var begun := [Calling(user, a, 0)] + [Calling(user, b, 1)];
    assert [] + [Calling(user, a, 0)] == [Calling(user, a, 0)];
    Append(db, [], Calling(user, a, 0).change, Start(db));
    Append(db, [Calling(user, a, 0)], Calling(user, b, 1).change, Do(Start(db), Calling(user, a, 0).change));
    BothAsk(db, user, a, b);
    Append(db, begun, ReadProfile(0), TwoCalls(db, user, a, b, Asked));
    Append(db, begun + [Change(ReadProfile(0))], ReadProfile(1), Do(TwoCalls(db, user, a, b, Asked), ReadProfile(0)));
    BothAdmitted(db, user, a, b);
  }

  /** The profile once tx has suspended it. */
  function SuspendedBy(db: Db, tx: Tx): Db
    requires tx.target in db.profiles
  {
    db.(profiles := db.profiles[tx.target := NewProfile(db.profiles[tx.target], tx)])
  }

  function WrittenAndDone(w: World, t: nat): World
    requires t in w.changes && w.changes[t].target in w.db.profiles
  {
    var tx := w.changes[t];
    var done := tx.(phase := Done(true), newProfile := Some(NewProfile(w.db.profiles[tx.target], tx)));
    World(SuspendedBy(w.db, tx), w.decisions, w.changes[t := done], w.log + [RequestOf(tx)])
  }

  lemma {:induction false} WriteAndCommit(w: World, t: nat)
    requires t in w.changes && w.changes[t].phase == Checked && w.changes[t].job.Suspending?
    requires w.changes[t].newReport == None && w.changes[t].target in w.db.profiles
    requires !HeldByChange(w, w.changes[t].target) && w.decisions == map[]
    ensures CanDo(w, WriteProfile(t)) && CanDo(Do(w, WriteProfile(t)), Commit(t))
    ensures Do(Do(w, WriteProfile(t)), Commit(t)) == WrittenAndDone(w, t)
    ensures SetsStatusTo(Do(w, WriteProfile(t)), Change(Commit(t)), w.changes[t].target, true)
  {
    var tx := w.changes[t];
    var wrote := tx.(phase := Wrote, newProfile := Some(NewProfile(w.db.profiles[tx.target], tx)));
    assert w.changes[t := wrote][t := wrote.(phase := Done(true))] == w.changes[t := wrote.(phase := Done(true))];
  }

  lemma {:induction false} AppendCommit(db: Db, steps: seq<Move>, w: World, t: nat)
    requires Reached(db, steps) == w && t in w.changes && w.changes[t].phase == Checked && w.changes[t].job.Suspending?
    requires w.changes[t].newReport == None && w.changes[t].target in w.db.profiles
    requires !HeldByChange(w, w.changes[t].target) && w.decisions == map[]
    ensures var more, u := steps + [Change(WriteProfile(t))] + [Change(Commit(t))], w.changes[t].target;
            Reached(db, more) == WrittenAndDone(w, t) &&
            Changes(db, more, u, true) == Changes(db, steps, u, true) + 1 &&
            Changes(db, more, u, false) == Changes(db, steps, u, false)
  {
    WriteAndCommit(w, t);
    Append(db, steps, WriteProfile(t), w);
    Append(db, steps + [Change(WriteProfile(t))], Commit(t), Do(w, WriteProfile(t)));
  }

  lemma {:induction false} FewOvertaken(db: Db, steps: seq<Move>, u: Uuid, suspends: bool)
    ensures OvertakenChanges(db, steps, u, suspends) <= Changes(db, steps, u, suspends)
  {
    if steps != [] {
      FewOvertaken(db, steps[..|steps| - 1], u, suspends);
    }
  }

  lemma {:induction false} BothCommit(db: Db, user: Uuid, a: Call, b: Call)
    requires MaySuspend(db, user, a, b)
    ensures var steps := TwoSuspensions(user, a, b);
            Reached(db, steps) == WrittenAndDone(WrittenAndDone(TwoCalls(db, user, a, b, Checked), 0), 1) &&
            Changes(db, steps, user, true) == 2 && Changes(db, steps, user, false) == 0
  {
    var read, w := BothRead(user, a, b), TwoCalls(db, user, a, b, Checked);
    BothPassTheCheck(db, user, a, b);
    AppendCommit(db, read, w, 0);
    AppendCommit(db, read + [Change(WriteProfile(0))] + [Change(Commit(0))], WrittenAndDone(w, 0), 1);
  }

  function BothLogged(user: Uuid, a: Call, b: Call): seq<Request> {
    [Request(a.now, ToAdmin(SuspendOp(user, a.admin, a.reason))),
     Request(b.now, ToAdmin(SuspendOp(user, b.admin, b.reason)))]
  }

  lemma {:induction false} BothWritten(db: Db, user: Uuid, a: Call, b: Call)
    requires MaySuspend(db, user, a, b)
    ensures var w := WrittenAndDone(WrittenAndDone(TwoCalls(db, user, a, b, Checked), 0), 1);
            w.log == BothLogged(user, a, b) &&
            w.db == SuspendedBy(SuspendedBy(db, CallTx(user, a, Checked)), CallTx(user, b, Checked))
  {
  }

  /**
   Any user who is not suspended and any two admins show it: both suspensions commit, the
   second is overtaken and leaves its own reason and instant.
   */
  lemma {:induction false} BothSuspensionsCommit(db: Db, user: Uuid, a: Call, b: Call)
    requires Valid(db) && MaySuspend(db, user, a, b)
    ensures var steps := TwoSuspensions(user, a, b);
            var w := Reached(db, steps);
            w.log == BothLogged(user, a, b) &&
            OvertakenChanges(db, steps, user, true) == 1 && OvertakenChanges(db, steps, user, false) == 0 &&
            w.db == db.(profiles := db.profiles[user := db.profiles[user].(
                      status := Suspended, suspendedAt := Some(b.now), suspendReason := Some(b.reason))])
  {
    BothCommit(db, user, a, b);
    BothWritten(db, user, a, b);
    TwiceWritten(db, CallTx(user, a, Checked), CallTx(user, b, Checked));
    OneOvertaken(db, TwoSuspensions(user, a, b), user);
  }

  lemma {:induction false} OneOvertaken(db: Db, steps: seq<Move>, u: Uuid)
    requires Valid(db) && Suspended01(db, u) == 0 && Suspended01(Reached(db, steps).db, u) == 1
    requires Changes(db, steps, u, true) == 2 && Changes(db, steps, u, false) == 0
    ensures OvertakenChanges(db, steps, u, true) == 1 && OvertakenChanges(db, steps, u, false) == 0
  {
    FewOvertaken(db, steps, u, false);
    RaceBalances(db, steps, u);
  }

  lemma {:induction false} TwiceWritten(db: Db, a: Tx, b: Tx)
    requires a.target == b.target && a.target in db.profiles && a.job.Suspending? && b.job.Suspending?
    ensures SuspendedBy(SuspendedBy(db, a), b) == SuspendedBy(db, b)
  {
    var p := db.profiles[a.target];
    assert NewProfile(NewProfile(p, a), b) == NewProfile(p, b);
    assert db.profiles[a.target := NewProfile(p, a)][b.target := NewProfile(p, b)] ==
           db.profiles[b.target := NewProfile(p, b)];
  }
}
