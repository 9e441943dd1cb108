/** Terms history: the latest agreed version per type, staleness and re-agreement (auth service). */
module Terms {
  import opened Basics
  import opened Schema
  import opened Services

  /** A row of the history query: (type, version, agreed_at). */
  datatype Row = Row(terms: AgreementType, version: string, agreedAt: int)

  function RowOf(db: Db, k: AgreementKey): Row
    requires k in db.agreements
  {
    Row(k.terms, k.version, db.agreements[k])
  }

  /**
   rows is an answer to the history query for a user: each agreement of the user once, and
   among those of one type the newest first. Equal instants may come in either order.
   */
  ghost predicate IsHistory(db: Db, user: Uuid, rows: seq<Row>) {
    (forall i :: 0 <= i < |rows| ==>
       AgreementKey(user, rows[i].terms, rows[i].version) in db.agreements &&
       rows[i] == RowOf(db, AgreementKey(user, rows[i].terms, rows[i].version))) &&
    (forall k :: k in db.agreements && k.userId == user ==> RowOf(db, k) in rows) &&
    (forall i, j :: 0 <= i < j < |rows| ==> rows[i] != rows[j]) &&
    (forall i, j :: 0 <= i < j < |rows| && rows[i].terms == rows[j].terms ==> rows[i].agreedAt >= rows[j].agreedAt)
  }

  /** The version of the first row of a type. */
  function FirstVersion(rows: seq<Row>, t: AgreementType): Option<string> {
    if rows == [] then None
    else if rows[0].terms == t then Some(rows[0].version)
    else FirstVersion(rows[1..], t)
  }

  function VersionOf(cur: Versions, t: AgreementType): string {
    match t case Tos => cur.tos case Privacy => cur.privacy case Marketing => cur.marketing
  }

  predicate IsStale(cur: Versions, rows: seq<Row>, t: AgreementType) {
    var latest := FirstVersion(rows, t);
    if t == Marketing then latest.Some? && latest.value != cur.marketing else latest != Some(VersionOf(cur, t))
  }

  function StaleTypes(cur: Versions, rows: seq<Row>): seq<AgreementType> {
    (if IsStale(cur, rows, Tos) then [Tos] else []) + (if IsStale(cur, rows, Privacy) then [Privacy] else []) +
    if IsStale(cur, rows, Marketing) then [Marketing] else []
  }

  /** k is the first row of the type, the one that counts. */
  ghost predicate FirstOf(rows: seq<Row>, t: AgreementType, k: nat) {
    k < |rows| && rows[k].terms == t && forall i :: 0 <= i < k ==> rows[i].terms != t
  }

  /** The first row of the type is there and says the version. */
  ghost predicate LatestSays(rows: seq<Row>, t: AgreementType, version: string) {
    exists k: nat :: FirstOf(rows, t, k) && rows[k].version == version
  }

  ghost predicate AgreedOnce(rows: seq<Row>, t: AgreementType) {
    exists i :: 0 <= i < |rows| && rows[i].terms == t
  }

  function Rank(t: AgreementType): nat {
    match t case Tos => 0 case Privacy => 1 case Marketing => 2
  }

  /**
   A required type is stale unless its first row says the version in force, marketing only when
   its first row says another; each is reported once, terms of service first, marketing last.
   */
  ghost predicate ReportsStale(cur: Versions, rows: seq<Row>, stale: seq<AgreementType>) {
    (Tos in stale <==> !LatestSays(rows, Tos, cur.tos)) &&
    (Privacy in stale <==> !LatestSays(rows, Privacy, cur.privacy)) &&
    (Marketing in stale <==> AgreedOnce(rows, Marketing) && !LatestSays(rows, Marketing, cur.marketing)) &&
    forall i, j :: 0 <= i < j < |stale| ==> Rank(stale[i]) < Rank(stale[j])
  }

  /** The version of the first row of each type. */
  method LatestByType(rows: seq<Row>) returns (latestByType: map<AgreementType, string>)
    ensures forall t :: t in latestByType <==> FirstVersion(rows, t).Some?
    ensures forall t :: t in latestByType ==> Some(latestByType[t]) == FirstVersion(rows, t)
  {
    latestByType := map[];
    for i := 0 to |rows|
      invariant forall t :: t in latestByType <==> FirstVersion(rows[..i], t).Some?
      invariant forall t :: t in latestByType ==> Some(latestByType[t]) == FirstVersion(rows[..i], t)
    {
      FirstVersionAppend(rows[..i], rows[i]);
      assert rows[..i + 1] == rows[..i] + [rows[i]];
      if rows[i].terms !in latestByType {
        latestByType := latestByType[rows[i].terms := rows[i].version];
      }
    }
    assert rows[..|rows|] == rows;
  }

  /** _get_stale_agreement_types, on the rows its query returned. */
  method GetStaleAgreementTypes(cur: Versions, rows: seq<Row>) returns (stale: seq<AgreementType>)
    ensures ReportsStale(cur, rows, stale)
    ensures stale == StaleTypes(cur, rows)
  {
    var latestByType := LatestByType(rows);
    stale := StaleIn(cur, latestByType, rows);
    StaleTypesReport(cur, rows);
  }

  /** The comparisons with the versions in force. */
  method StaleIn(cur: Versions, latestByType: map<AgreementType, string>, ghost rows: seq<Row>)
    returns (stale: seq<AgreementType>)
    requires forall t :: t in latestByType <==> FirstVersion(rows, t).Some?
    requires forall t :: t in latestByType ==> Some(latestByType[t]) == FirstVersion(rows, t)
    ensures stale == StaleTypes(cur, rows)
  {
    stale := [];
    if !(Tos in latestByType && latestByType[Tos] == cur.tos) {
      stale := stale + [Tos];
    }
    if !(Privacy in latestByType && latestByType[Privacy] == cur.privacy) {
      stale := stale + [Privacy];
    }
    if Marketing in latestByType && latestByType[Marketing] != cur.marketing {
      stale := stale + [Marketing];
    }
  }

  lemma {:induction false} FirstIs(rows: seq<Row>, t: AgreementType, version: string)
    ensures LatestSays(rows, t, version) <==> FirstVersion(rows, t) == Some(version)
    ensures AgreedOnce(rows, t) <==> FirstVersion(rows, t).Some?
  {
    var f := FirstRow(rows, t);
    if FirstVersion(rows, t).Some? {
      assert FirstOf(rows, t, f);
      forall k: nat | FirstOf(rows, t, k) ensures k == f {
      }
    } else {
      assert forall k: nat :: !FirstOf(rows, t, k);
    }
  }

  lemma {:induction false} StaleTypesReport(cur: Versions, rows: seq<Row>)
    ensures ReportsStale(cur, rows, StaleTypes(cur, rows))
  {
    FirstIs(rows, Tos, cur.tos);
    FirstIs(rows, Privacy, cur.privacy);
    FirstIs(rows, Marketing, cur.marketing);
    StaleMembers(cur, rows);
  }

  lemma {:induction false} StaleMembers(cur: Versions, rows: seq<Row>)
    ensures var stale := StaleTypes(cur, rows);
            (Tos in stale <==> IsStale(cur, rows, Tos)) && (Privacy in stale <==> IsStale(cur, rows, Privacy)) &&
            (Marketing in stale <==> IsStale(cur, rows, Marketing)) &&
            forall i, j :: 0 <= i < j < |stale| ==> Rank(stale[i]) < Rank(stale[j])
  {
  }

  lemma {:induction false} FirstVersionAppend(rows: seq<Row>, row: Row)
    ensures forall t :: FirstVersion(rows + [row], t) ==
              if FirstVersion(rows, t).Some? then FirstVersion(rows, t)
              else if row.terms == t then Some(row.version) else None
  {
    if rows != [] {
      FirstVersionAppend(rows[1..], row);
      assert (rows + [row])[1..] == rows[1..] + [row];
    }
  }

  // ---------------------------------------------------------------- what the first row means

  lemma {:induction false} FirstRow(rows: seq<Row>, t: AgreementType) returns (k: nat)
    ensures FirstVersion(rows, t).Some? ==>
              k < |rows| && rows[k].terms == t && rows[k].version == FirstVersion(rows, t).value &&
              forall i :: 0 <= i < k ==> rows[i].terms != t
    ensures FirstVersion(rows, t).None? ==> forall i :: 0 <= i < |rows| ==> rows[i].terms != t
  {
    k := 0;
    if rows != [] && rows[0].terms != t {
      var k' := FirstRow(rows[1..], t);
      k := k' + 1;
      assert forall i :: 0 <= i < |rows| - 1 ==> rows[1..][i] == rows[i + 1];
    }
  }

  /** A key of the user with the latest agreed_at of its type. */
  ghost predicate IsLatest(db: Db, k: AgreementKey) {
    k in db.agreements &&
    forall j :: j in db.agreements && j.userId == k.userId && j.terms == k.terms ==>
      db.agreements[j] <= db.agreements[k]
  }

  /**
   For any history the loop finds, per type, a version agreed to at the latest instant of
   that type, and nothing exactly when the user never agreed to that type.
   */
  lemma {:induction false} FirstVersionIsLatest(db: Db, user: Uuid, rows: seq<Row>, t: AgreementType)
    requires IsHistory(db, user, rows)
    ensures FirstVersion(rows, t).Some? ==> IsLatest(db, AgreementKey(user, t, FirstVersion(rows, t).value))
    ensures FirstVersion(rows, t).None? <==> forall k :: k in db.agreements && k.userId == user ==> k.terms != t
  {
    var f := FirstRow(rows, t);
    if FirstVersion(rows, t).Some? {
      var best := AgreementKey(user, t, rows[f].version);
      assert best.terms == t && best in db.agreements;
      forall j | j in db.agreements && j.userId == user && j.terms == t
        ensures db.agreements[j] <= db.agreements[best]
      {
        var i :| 0 <= i < |rows| && rows[i] == RowOf(db, j);
        assert i >= f;
      }
    } else {
      forall k | k in db.agreements && k.userId == user ensures k.terms != t {
        var i :| 0 <= i < |rows| && rows[i] == RowOf(db, k);
      }
    }
  }

  // ---------------------------------------------------------------- after a request

  lemma {:induction false} OnlyVersion(db: Db, user: Uuid, rows: seq<Row>, t: AgreementType, v: string)
    requires IsHistory(db, user, rows) && AgreementKey(user, t, v) in db.agreements
    requires forall k :: k in db.agreements && k.userId == user && k.terms == t && k.version != v ==>
                           db.agreements[k] < db.agreements[AgreementKey(user, t, v)]
    ensures FirstVersion(rows, t) == Some(v)
  {
    FirstVersionIsLatest(db, user, rows, t);
    var mine := AgreementKey(user, t, v);
    assert mine.terms == t && mine.userId == user;
    var found := AgreementKey(user, t, FirstVersion(rows, t).value);
    assert IsLatest(db, found) && found.version == FirstVersion(rows, t).value;
    assert db.agreements[mine] <= db.agreements[found];
  }

  /** Right after a committed signup nothing has to be agreed to again. */
  lemma {:induction false} FreshSignupNotStale(
      cur: Versions, db: Db, user: Uuid, req: SignupRequest, appId: Uuid, now: int, rows: seq<Row>)
    requires Valid(db) && Signup(cur, db, user, req, appId, now).Ok?
    requires IsHistory(Signup(cur, db, user, req, appId, now).db, user, rows)
    ensures StaleTypes(cur, rows) == []
  {
    var d := Signup(cur, db, user, req, appId, now).db;
    FirstAgreements(cur, db, user, req, appId, now);
    OnlyVersion(d, user, rows, Tos, cur.tos);
    OnlyVersion(d, user, rows, Privacy, cur.privacy);
    FirstVersionIsLatest(d, user, rows, Marketing);
  }

  /** A new user's agreements are the rows of the signup, all in force. */
  lemma {:induction false} FirstAgreements(cur: Versions, db: Db, user: Uuid, req: SignupRequest, appId: Uuid, now: int)
    requires Valid(db) && Signup(cur, db, user, req, appId, now).Ok?
    ensures var d := Signup(cur, db, user, req, appId, now).db;
            AgreementKey(user, Tos, cur.tos) in d.agreements &&
            AgreementKey(user, Privacy, cur.privacy) in d.agreements &&
            forall k :: k in d.agreements && k.userId == user ==> k.version == VersionOf(cur, k.terms)
  {
    var rows := NewRows(user, req.agreements);
    assert forall k :: k in db.agreements ==> k.userId in db.profiles;
    assert AgreementKey(user, Tos, cur.tos) in rows && AgreementKey(user, Privacy, cur.privacy) in rows;
  }

  /**
   A re-agreement commits exactly when it is valid and none of its rows was agreed to before;
   else nothing changes.
   */
  lemma {:induction false} ReagreeCommitsIffNew(cur: Versions, db: Db, user: Uuid, a: Agreements, now: int)
    requires user in db.profiles
    ensures var o := Reagree(cur, db, user, a, now);
            (o.Ok? <==> ValidAgreements(cur, a) && forall k :: k in NewRows(user, a) ==> k !in db.agreements) &&
            (o.Err? ==> After(db, o) == db) &&
            (o.Ok? ==>
               forall k :: k in db.agreements ==> k in o.db.agreements && o.db.agreements[k] == db.agreements[k]) &&
            (o.Ok? ==> o.db.agreements.Keys == db.agreements.Keys + NewRows(user, a))
  {
  }

  /** The types a re-agreement renews. */
  predicate Renews(a: Agreements, t: AgreementType) {
    t != Marketing || (a.marketing.Some? && a.marketing.value.agreed)
  }

  lemma {:induction false} RenewedKey(cur: Versions, db: Db, user: Uuid, a: Agreements, now: int, t: AgreementType)
    requires Reagree(cur, db, user, a, now).Ok? && Renews(a, t)
    ensures var key, d := AgreementKey(user, t, VersionOf(cur, t)), Reagree(cur, db, user, a, now).db;
            key !in db.agreements && key in d.agreements && d.agreements[key] == now &&
            (forall k :: k in d.agreements && k.userId == user && k.terms == t && k != key ==>
               k in db.agreements && d.agreements[k] == db.agreements[k]) &&
            (forall k :: k in db.agreements ==> k in d.agreements && d.agreements[k] == db.agreements[k])
  {
    assert AgreementKey(user, t, VersionOf(cur, t)) in NewRows(user, a);
    assert forall k :: k in NewRows(user, a) && k.terms == t ==> k == AgreementKey(user, t, VersionOf(cur, t));
  }

  /**
   A committed re-agreement leaves a renewed type not stale, however the database orders
   equal instants, exactly when the user agreed to no other version of it at this very instant.
   */
  lemma {:induction false} ReagreeClearsExactly(
      cur: Versions, db: Db, user: Uuid, a: Agreements, now: int, t: AgreementType)
    requires Reagree(cur, db, user, a, now).Ok? && Renews(a, t)
    requires forall k :: k in db.agreements && k.userId == user ==> db.agreements[k] <= now
    ensures var d := Reagree(cur, db, user, a, now).db;
            (forall rows :: IsHistory(d, user, rows) ==> !IsStale(cur, rows, t)) <==>
            (forall k :: k in db.agreements && k.userId == user && k.terms == t ==> db.agreements[k] < now)
  {
    var d := Reagree(cur, db, user, a, now).db;
    RenewedKey(cur, db, user, a, now, t);
    if forall k :: k in db.agreements && k.userId == user && k.terms == t ==> db.agreements[k] < now {
      forall rows | IsHistory(d, user, rows) ensures !IsStale(cur, rows, t) {
        OnlyVersion(d, user, rows, t, VersionOf(cur, t));
      }
    } else {
      var k :| k in db.agreements && k.userId == user && k.terms == t && db.agreements[k] >= now;
      assert k != AgreementKey(user, t, VersionOf(cur, t));
      var rows := HistoryWithFirst(d, user, k);
      assert FirstVersion(rows, t) == Some(k.version);
      assert IsStale(cur, rows, t);
    }
  }

  /** A concrete user who agrees to new versions at the very instant of the old ones may stay stale. */
  lemma {:induction false} SameInstantStaysStale()
    ensures var cur := Versions("v2", "v2", "v1");
            var db := Db(map[1 := Profile(Fan, Active, "a", None, None, None)], map[], map[], map[], map[], map[],
                         map[AgreementKey(1, Tos, "v1") := 0, AgreementKey(1, Privacy, "v1") := 0]);
            var o := Reagree(cur, db, 1, Agreements(Consent("v2", true), Consent("v2", true), None), 0);
            o.Ok? && exists rows :: IsHistory(o.db, 1, rows) && IsStale(cur, rows, Tos)
  {
    var cur, a := Versions("v2", "v2", "v1"), Agreements(Consent("v2", true), Consent("v2", true), None);
    var db := Db(map[1 := Profile(Fan, Active, "a", None, None, None)], map[], map[], map[], map[], map[],
                 map[AgreementKey(1, Tos, "v1") := 0, AgreementKey(1, Privacy, "v1") := 0]);
    assert "v1"[1] != "v2"[1];
    var first := AgreementKey(1, Tos, "v1");
    assert first in db.agreements && first.userId == 1 && first.terms == Tos && db.agreements[first] == 0;
    ReagreeCommitsIffNew(cur, db, 1, a, 0);
    ReagreeClearsExactly(cur, db, 1, a, 0, Tos);
  }

  /** Some answer to the history query puts a given newest row first. */
  lemma {:induction false} HistoryWithFirst(db: Db, user: Uuid, first: AgreementKey) returns (rows: seq<Row>)
    requires first.userId == user && IsLatest(db, first)
    ensures IsHistory(db, user, rows) && rows != [] && rows[0] == RowOf(db, first)
  {
    var keys := set k | k in db.agreements && k.userId == user;
    rows := Ordered(db, user, keys, first);
  }

  /** The rows of a set of keys, newest first, beginning with a given one. */
  lemma {:induction false} Ordered(
      db: Db, user: Uuid, keys: set<AgreementKey>, first: AgreementKey)
    returns (rows: seq<Row>)
    requires first in keys && IsLatest(db, first)
    requires forall k :: k in keys ==> k in db.agreements && k.userId == user
    ensures rows != [] && rows[0] == RowOf(db, first)
    ensures forall i :: 0 <= i < |rows| ==>
              AgreementKey(user, rows[i].terms, rows[i].version) in keys &&
              rows[i] == RowOf(db, AgreementKey(user, rows[i].terms, rows[i].version))
    ensures forall k :: k in keys ==> RowOf(db, k) in rows
    ensures forall i, j :: 0 <= i < j < |rows| ==> rows[i] != rows[j]
    ensures forall i, j :: 0 <= i < j < |rows| && rows[i].terms == rows[j].terms ==>
              rows[i].agreedAt >= rows[j].agreedAt
    decreases |keys|
  {
    var others := keys - {first};
    if others == {} {
      rows := [RowOf(db, first)];
    } else {
      var oldest := Oldest(db, others);
      var newer := Ordered(db, user, keys - {oldest}, first);
      rows := newer + [RowOf(db, oldest)];
      AppendOldest(db, user, keys, first, oldest, newer);
    }
  }

  lemma {:induction false} Oldest(db: Db, keys: set<AgreementKey>) returns (oldest: AgreementKey)
    requires keys != {} && forall k :: k in keys ==> k in db.agreements
    ensures oldest in keys && forall k :: k in keys ==> db.agreements[oldest] <= db.agreements[k]
    decreases |keys|
  {
    oldest :| oldest in keys;
    if keys != {oldest} {
      var rest := Oldest(db, keys - {oldest});
      if db.agreements[rest] < db.agreements[oldest] {
        oldest := rest;
      }
    }
  }

  lemma {:induction false} AppendOldest(
      db: Db, user: Uuid, keys: set<AgreementKey>, first: AgreementKey, oldest: AgreementKey, newer: seq<Row>)
    requires first in keys && oldest in keys && first != oldest && IsLatest(db, first)
    requires forall k :: k in keys ==> k in db.agreements && k.userId == user
    requires forall k :: k in keys && k != first ==> db.agreements[oldest] <= db.agreements[k]
    requires forall i :: 0 <= i < |newer| ==>
               AgreementKey(user, newer[i].terms, newer[i].version) in keys - {oldest} &&
               newer[i] == RowOf(db, AgreementKey(user, newer[i].terms, newer[i].version))
    ensures forall i :: 0 <= i < |newer| ==>
              newer[i] != RowOf(db, oldest) &&
              (newer[i].terms == oldest.terms ==> newer[i].agreedAt >= db.agreements[oldest])
  {
    forall i | 0 <= i < |newer|
      ensures newer[i] != RowOf(db, oldest)
      ensures newer[i].terms == oldest.terms ==> newer[i].agreedAt >= db.agreements[oldest]
    {
      var k := AgreementKey(user, newer[i].terms, newer[i].version);
      assert k != oldest && newer[i] == RowOf(db, k);
    }
  }

  /**
   Whether a stale user can re-agree at all: some well-formed request commits exactly when
   neither required version in force is in the user's history. A user for whom only one of
   the two was renewed stays stale for ever, since the unchanged one cannot be inserted again.
   */
  lemma {:induction false} CanReagreeIffBothNew(cur: Versions, db: Db, user: Uuid, now: int)
    requires user in db.profiles
    ensures (exists a :: Reagree(cur, db, user, a, now).Ok?) <==>
            AgreementKey(user, Tos, cur.tos) !in db.agreements &&
            AgreementKey(user, Privacy, cur.privacy) !in db.agreements
  {
    var tos, privacy := AgreementKey(user, Tos, cur.tos), AgreementKey(user, Privacy, cur.privacy);
    forall a | Reagree(cur, db, user, a, now).Ok? ensures tos !in db.agreements && privacy !in db.agreements {
      assert tos in NewRows(user, a) && privacy in NewRows(user, a);
    }
    if tos !in db.agreements && privacy !in db.agreements {
      var a := Agreements(Consent(cur.tos, true), Consent(cur.privacy, true), None);
      assert NewRows(user, a) == {tos, privacy};
      assert Reagree(cur, db, user, a, now).Ok?;
    }
  }

  /** A concrete user who agreed to both versions v1 and must accept a new TOS: no request commits. */
  lemma {:induction false} RenewedTosBlocks(now: int, a: Agreements)
    ensures var cur := Versions("v2", "v1", "v1");
            var me := Profile(Fan, Active, "a", None, None, None);
            var db := Db(map[1 := me], map[], map[], map[], map[], map[],
                         map[AgreementKey(1, Tos, "v1") := 0, AgreementKey(1, Privacy, "v1") := 0]);
            IsStale(cur, [Row(Tos, "v1", 0), Row(Privacy, "v1", 0)], Tos) &&
            IsHistory(db, 1, [Row(Tos, "v1", 0), Row(Privacy, "v1", 0)]) &&
            Reagree(cur, db, 1, a, now).Err?
  {
    var cur := Versions("v2", "v1", "v1");
    var db := Db(map[1 := Profile(Fan, Active, "a", None, None, None)], map[], map[], map[], map[], map[],
                 map[AgreementKey(1, Tos, "v1") := 0, AgreementKey(1, Privacy, "v1") := 0]);
    assert "v1"[1] != "v2"[1];
    var rows := [Row(Tos, "v1", 0), Row(Privacy, "v1", 0)];
    assert rows[0] == RowOf(db, AgreementKey(1, Tos, "v1")) && rows[1] == RowOf(db, AgreementKey(1, Privacy, "v1"));
    CanReagreeIffBothNew(cur, db, 1, now);
  }
}
