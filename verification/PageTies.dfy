/**
 Pages that are answered by separate queries. The queries order by one instant without a
 tie-breaker, so each page may see rows of equal instants in another order.
 */
module PageTies {
  import opened Basics
  import opened Schema
  import opened Paging

  ghost predicate Ordered<T>(s: seq<T>, key: T -> int) {
    forall i, j :: 0 <= i < j < |s| ==> key(s[i]) <= key(s[j])
  }

  /** s is the answer r with rows of equal key in some other order. */
  ghost predicate Reordered<T>(s: seq<T>, r: seq<T>, key: T -> int) {
    multiset(s) == multiset(r) && Ordered(s, key)
  }

  /** Two rows of equal key on different sides of the end of a page. */
  ghost predicate TieAtPageEnd<T>(r: seq<T>, key: T -> int, size: nat) {
    exists m: nat :: 0 < m * size < |r| && key(r[m * size - 1]) == key(r[m * size])
  }

  /** Reading to the end when page p comes from the answer orders(p), all of n rows. */
  function ReadAcross<T>(orders: nat -> seq<T>, page: nat, size: nat, n: nat): seq<T>
    requires page >= 1 && size >= 1 && forall p :: |orders(p)| == n
    decreases n - (page - 1) * size
  {
    var p := Page(orders(page), page, size);
    PageSlice(orders(page), page, size, (page - 1) * size);
    p.items + if p.hasMore then ReadAcross(orders, page + 1, size, n) else []
  }

  // ---------------------------------------------------------------- no tie: every order cuts alike

  function Below<T>(key: T -> int, k: int): T -> bool {
    (x: T) => key(x) < k
  }

  /** In an ordered answer the rows below a key come first. */
  lemma {:induction false} BelowIsPrefix<T>(s: seq<T>, key: T -> int, k: int)
    requires Ordered(s, key)
    ensures |Filter(s, Below(key, k))| <= |s| && Filter(s, Below(key, k)) == s[..|Filter(s, Below(key, k))|]
  {
    if s == [] {
    } else if key(s[|s| - 1]) < k {
      FilterAll(s, Below(key, k));
    } else {
      BelowIsPrefix(s[..|s| - 1], key, k);
    }
  }

  lemma {:induction false} BelowCut<T>(r: seq<T>, key: T -> int, b: nat)
    requires Ordered(r, key) && 0 < b < |r| && key(r[b - 1]) < key(r[b])
    ensures Filter(r, Below(key, key(r[b]))) == r[..b]
  {
    var k := key(r[b]);
    var front, rest := r[..b], r[b..];
    forall i | 0 <= i < |front| ensures Below(key, k)(front[i]) {
      assert front[i] == r[i] && (i < b - 1 ==> key(r[i]) <= key(r[b - 1]));
    }
    forall i | 0 <= i < |rest| ensures !Below(key, k)(rest[i]) {
      assert rest[i] == r[b + i] && (i > 0 ==> key(r[b]) <= key(r[b + i]));
    }
    CutFilter(front, rest, Below(key, k));
    assert r == front + rest;
  }

  lemma {:induction false} CutFilter<T>(front: seq<T>, rest: seq<T>, p: T -> bool)
    requires forall i :: 0 <= i < |front| ==> p(front[i])
    requires forall i :: 0 <= i < |rest| ==> !p(rest[i])
    ensures Filter(front + rest, p) == front
  {
    FilterConcat(front, rest, p);
    FilterAll(front, p);
    FilterNone(rest, p);
  }

  /** Where the key steps up, every order of the answer has the same rows before the step. */
  lemma {:induction false} SamePrefix<T>(s: seq<T>, r: seq<T>, key: T -> int, b: nat)
    requires Ordered(r, key) && Reordered(s, r, key) && 0 < b < |r| && key(r[b - 1]) < key(r[b])
    ensures b <= |s| && multiset(s[..b]) == multiset(r[..b])
  {
    var k := key(r[b]);
    BelowCut(r, key, b);
    FilterPermuted(s, r, Below(key, k));
    BelowIsPrefix(s, key, k);
    PermutedMembers(Filter(s, Below(key, k)), r[..b]);
  }

  /** The rows before an end of a page, or before the end of the answer. */
  lemma {:induction false} SameBefore<T>(s: seq<T>, r: seq<T>, key: T -> int, size: nat, m: nat, b: nat)
    requires Ordered(r, key) && Reordered(s, r, key) && !TieAtPageEnd(r, key, size)
    requires b == m * size || b == |r|
    requires b <= |r|
    ensures |s| == |r| && multiset(s[..b]) == multiset(r[..b])
  {
    PermutedMembers(s, r);
    if b == |r| {
      assert s[..b] == s && r[..b] == r;
    } else if b > 0 {
      assert 0 < m * size < |r|;
      assert key(r[m * size - 1]) <= key(r[m * size]);
      SamePrefix(s, r, key, b);
    }
  }

  lemma {:induction false} SliceBetween<T>(s: seq<T>, r: seq<T>, a: nat, b: nat)
    requires a <= b <= |s| && |s| == |r|
    requires multiset(s[..a]) == multiset(r[..a]) && multiset(s[..b]) == multiset(r[..b])
    ensures multiset(s[a..b]) == multiset(r[a..b])
  {
    assert s[..b] == s[..a] + s[a..b] && r[..b] == r[..a] + r[a..b];
    assert multiset(s[a..b]) == multiset(s[..b]) - multiset(s[..a]);
    assert multiset(r[a..b]) == multiset(r[..b]) - multiset(r[..a]);
  }

  ghost predicate Reorderings<T>(orders: nat -> seq<T>, r: seq<T>, key: T -> int) {
    forall p :: Reordered(orders(p), r, key)
  }

  /** One page has the rows of that page of r, in some order. */
  lemma {:induction false} SamePage<T>(s: seq<T>, r: seq<T>, key: T -> int, page: nat, size: nat, offset: nat)
    requires page >= 1 && size >= 1 && offset == (page - 1) * size && offset <= |r|
    requires Ordered(r, key) && Reordered(s, r, key) && !TieAtPageEnd(r, key, size)
    ensures |s| == |r| && multiset(Page(s, page, size).items) == multiset(r[offset..Min(offset + size, |r|)])
  {
    assert page * size == offset + size;
    SameBefore(s, r, key, size, page - 1, offset);
    SameBefore(s, r, key, size, page, Min(offset + size, |r|));
    PageSlice(s, page, size, offset);
    SliceBetween(s, r, offset, Min(offset + size, |r|));
  }

  lemma {:induction false} ReadUnfolds<T>(
      orders: nat -> seq<T>, page: nat, size: nat, n: nat, offset: nat, rows: seq<T>)
    requires page >= 1 && size >= 1 && offset == (page - 1) * size <= n && forall p :: |orders(p)| == n
    requires rows == orders(page)
    ensures Page(rows, page, size).items == rows[offset..Min(offset + size, n)]
    ensures ReadAcross(orders, page, size, n) == rows[offset..Min(offset + size, n)] +
            if offset + size < n then ReadAcross(orders, page + 1, size, n) else []
  {
    PageSlice(rows, page, size, offset);
  }

  lemma {:induction false} JoinPages<T>(read: seq<T>, items: seq<T>, rest: seq<T>, r: seq<T>, a: nat, b: nat)
    requires a <= b <= |r| && read == items + rest
    requires multiset(items) == multiset(r[a..b]) && multiset(rest) == multiset(r[b..])
    ensures multiset(read) == multiset(r[a..])
  {
    assert r[a..] == r[a..b] + r[b..];
  }

  lemma {:induction false} NoTieReads<T>(
      orders: nat -> seq<T>, r: seq<T>, key: T -> int, page: nat, size: nat, offset: nat)
    requires page >= 1 && size >= 1 && offset == (page - 1) * size && offset <= |r|
    requires Ordered(r, key) && Reorderings(orders, r, key) && !TieAtPageEnd(r, key, size)
    requires forall p :: |orders(p)| == |r|
    ensures multiset(ReadAcross(orders, page, size, |r|)) == multiset(r[offset..])
    decreases |r| - offset
  {
    var items, end := Page(orders(page), page, size).items, Min(offset + size, |r|);
    assert Reordered(orders(page), r, key);
    SamePage(orders(page), r, key, page, size, offset);
    ReadUnfolds(orders, page, size, |r|, offset, orders(page));
    if offset + size < |r| {
      NextOffset(page, size, offset);
      NoTieReads(orders, r, key, page + 1, size, end);
      JoinPages(ReadAcross(orders, page, size, |r|), items, ReadAcross(orders, page + 1, size, |r|), r, offset, end);
    } else {
      assert r[end..] == [];
      JoinPages(ReadAcross(orders, page, size, |r|), items, [], r, offset, end);
    }
  }

  lemma {:induction false} NextOffset(page: nat, size: nat, offset: nat)
    requires page >= 1 && offset == (page - 1) * size
    ensures offset + size == page * size
  {
  }

  // ---------------------------------------------------------------- a tie: some orders lose a row

  /** r with the two rows around b changed over. */
  function Swapped<T>(r: seq<T>, b: nat): seq<T>
    requires 0 < b < |r|
  {
    r[b - 1 := r[b]][b := r[b - 1]]
  }

  lemma {:induction false} SwappedReorders<T>(r: seq<T>, key: T -> int, b: nat)
    requires Ordered(r, key) && 0 < b < |r| && key(r[b - 1]) == key(r[b])
    ensures Reordered(Swapped(r, b), r, key)
  {
  }

  /** The first m pages from r, the later ones from s. */
  function Switching<T>(r: seq<T>, s: seq<T>, m: nat): nat -> seq<T> {
    (p: nat) => if p <= m then r else s
  }

  /** A page and the rest of one answer. */
  lemma {:induction false} PageAndRest<T>(s: seq<T>, offset: nat, size: nat, rest: seq<T>)
    requires offset <= |s| && rest == if offset + size < |s| then s[offset + size..] else []
    ensures s[offset..Min(offset + size, |s|)] + rest == s[offset..]
  {
    assert s[offset..] == s[offset..|s|];
  }

  lemma {:induction false} AfterSwitch<T>(orders: nat -> seq<T>, s: seq<T>, page: nat, size: nat, offset: nat)
    requires page >= 1 && size >= 1 && offset == (page - 1) * size <= |s|
    requires (forall p: nat :: p >= page ==> orders(p) == s) && forall p :: |orders(p)| == |s|
    ensures ReadAcross(orders, page, size, |s|) == s[offset..]
    decreases |s| - offset
  {
    NextOffset(page, size, offset);
    ReadUnfolds(orders, page, size, |s|, offset, s);
    if offset + size < |s| {
      AfterSwitch(orders, s, page + 1, size, offset + size);
      PageAndRest(s, offset, size, ReadAcross(orders, page + 1, size, |s|));
    } else {
      PageAndRest(s, offset, size, []);
    }
  }

  lemma {:induction false} PageBeforeSwitch(page: nat, m: nat, size: nat, offset: nat, b: nat)
    requires 1 <= page <= m && size >= 1 && offset == (page - 1) * size && b == m * size
    ensures offset + size == page * size <= b && (page == m ==> offset + size == b)
    ensures page < m ==> offset + size == (page + 1 - 1) * size
  {
    NextOffset(page, size, offset);
    EarlierPage(page, m, size);
  }

  lemma {:induction false} ReadBeforeSwitch<T>(
      orders: nat -> seq<T>, r: seq<T>, m: nat, b: nat, page: nat, size: nat, offset: nat)
    requires 1 <= page <= m && size >= 1 && offset == (page - 1) * size && b == m * size && b < |r|
    requires orders(page) == r && forall p :: |orders(p)| == |r|
    ensures offset + size <= b
    ensures ReadAcross(orders, page, size, |r|) == r[offset..offset + size] + ReadAcross(orders, page + 1, size, |r|)
  {
    PageBeforeSwitch(page, m, size, offset, b);
    ReadUnfolds(orders, page, size, |r|, offset, r);
  }

  lemma {:induction false} BeforeSwitch<T>(
      orders: nat -> seq<T>, r: seq<T>, tail: seq<T>, m: nat, b: nat, page: nat, size: nat, offset: nat)
    requires 1 <= page <= m && size >= 1 && offset == (page - 1) * size && b == m * size && b < |r|
    requires (forall p: nat :: p <= m ==> orders(p) == r) && forall p :: |orders(p)| == |r|
    requires ReadAcross(orders, m + 1, size, |r|) == tail
    ensures offset <= b && ReadAcross(orders, page, size, |r|) == r[offset..b] + tail
    decreases m - page
  {
    ReadBeforeSwitch(orders, r, m, b, page, size, offset);
    if page < m {
      SwitchLater(page, m, size, offset, b);
      BeforeSwitch(orders, r, tail, m, b, page + 1, size, offset + size);
      JoinSlices(r, offset, offset + size, b, tail);
    } else {
      LastBeforeSwitch(page, m, size, offset, b);
    }
  }

  lemma {:induction false} SwitchLater(page: nat, m: nat, size: nat, offset: nat, b: nat)
    requires 1 <= page < m && size >= 1 && offset == (page - 1) * size && b == m * size
    ensures offset + size == (page + 1 - 1) * size && offset + size <= b
  {
    PageBeforeSwitch(page, m, size, offset, b);
  }

  lemma {:induction false} LastBeforeSwitch(page: nat, m: nat, size: nat, offset: nat, b: nat)
    requires 1 <= page == m && size >= 1 && offset == (page - 1) * size && b == m * size
    ensures offset + size == b
  {
    PageBeforeSwitch(page, m, size, offset, b);
  }

  lemma {:induction false} JoinSlices<T>(r: seq<T>, a: nat, c: nat, b: nat, rest: seq<T>)
    requires a <= c <= b <= |r|
    ensures r[a..c] + (r[c..b] + rest) == r[a..b] + rest
  {
  }

  lemma {:induction false} EarlierPage(page: nat, m: nat, size: nat)
    requires page <= m
    ensures page * size <= m * size
  {
    var d := m - page;
    assert m == page + d && d * size >= 0;
    assert (page + d) * size == page * size + d * size;
  }

  /** Read so, the row before the end of the page is shown twice. */
  lemma {:induction false} TieRepeats<T>(r: seq<T>, b: nat)
    requires NoDuplicates(r) && 0 < b < |r|
    ensures multiset(r[..b] + Swapped(r, b)[b..]) != multiset(r)
  {
    var shown, x := r[..b] + Swapped(r, b)[b..], r[b - 1];
    assert shown[b - 1] == x && shown[b] == x;
    assert multiset(shown)[x] >= 2 by {
      assert shown == shown[..b] + shown[b..] && x in shown[..b] && x in shown[b..];
    }
    OnceInDistinct(r, x);
  }

  lemma {:induction false} OnceInDistinct<T>(s: seq<T>, x: T)
    requires NoDuplicates(s)
    ensures multiset(s)[x] <= 1
  {
    if s != [] {
      var front, last := s[..|s| - 1], s[|s| - 1];
      assert s == front + [last];
      DistinctAppend(front, last);
      OnceInDistinct(front, x);
    }
  }

  // ---------------------------------------------------------------- exactly when

  /** Every choice of orders, page by page, still shows each row of r exactly once. */
  ghost predicate AlwaysCovers<T(!new)>(r: seq<T>, key: T -> int, size: nat)
    requires size >= 1
  {
    forall orders: nat -> seq<T> ::
      Reorderings(orders, r, key) && (forall p :: |orders(p)| == |r|) ==>
        multiset(ReadAcross(orders, 1, size, |r|)) == multiset(r)
  }

  lemma {:induction false} TieLoses<T(!new)>(r: seq<T>, key: T -> int, size: nat, m: nat)
    requires size >= 1 && NoDuplicates(r) && Ordered(r, key)
    requires 0 < m * size < |r| && key(r[m * size - 1]) == key(r[m * size])
    ensures !AlwaysCovers(r, key, size)
  {
    var b := m * size;
    var s, orders := Swapped(r, b), Switching(r, Swapped(r, b), m);
    SwappedReorders(r, key, b);
    assert Reordered(r, r, key);
    assert Reorderings(orders, r, key);
    assert m >= 1 && r[0..b] == r[..b];
    AfterSwitch(orders, s, m + 1, size, b);
    BeforeSwitch(orders, r, s[b..], m, b, 1, size, 0);
    TieRepeats(r, b);
  }

  /**
   Pages answered in different tie orders still cover the list, each row once, exactly when no
   two rows around the end of a page tie.
   */
  lemma {:induction false} PagesCoverIffNoTie<T(!new)>(r: seq<T>, key: T -> int, size: nat)
    requires size >= 1 && NoDuplicates(r) && Ordered(r, key)
    ensures AlwaysCovers(r, key, size) <==> !TieAtPageEnd(r, key, size)
  {
    if TieAtPageEnd(r, key, size) {
      var m: nat :| 0 < m * size < |r| && key(r[m * size - 1]) == key(r[m * size]);
      TieLoses(r, key, size, m);
    } else {
      forall orders: nat -> seq<T> | Reorderings(orders, r, key) && forall p :: |orders(p)| == |r|
        ensures multiset(ReadAcross(orders, 1, size, |r|)) == multiset(r)
      {
        NoTieReads(orders, r, key, 1, size, 0);
        assert r[0..] == r;
      }
    }
  }

  // ---------------------------------------------------------------- idols and reports

  /** Each element of the set, once. */
  ghost predicate EachOnce<T(!new)>(s: seq<T>, all: set<T>) {
    NoDuplicates(s) && forall x :: x in s <==> x in all
  }

  lemma {:induction false} EachOncePermuted<T(!new)>(s: seq<T>, r: seq<T>, all: set<T>)
    requires EachOnce(r, all)
    ensures EachOnce(s, all) <==> multiset(s) == multiset(r)
  {
    if multiset(s) == multiset(r) {
      PermutedMembers(s, r);
      PermutedDistinct(r, s);
    } else if EachOnce(s, all) {
      forall x ensures multiset(s)[x] == multiset(r)[x] {
        OnceInDistinct(s, x);
        OnceInDistinct(r, x);
        assert x in multiset(s) <==> x in s;
        assert x in multiset(r) <==> x in r;
      }
    }
  }

  /** Newest activation first: the instant, negated. */
  function ActivationKey(db: Db): Uuid -> int {
    (u: Uuid) => if u in db.idolProfiles then -db.idolProfiles[u].activatedAt else 0
  }

  function CreationKey(db: Db): Uuid -> int {
    (r: Uuid) => if r in db.reports then db.reports[r].createdAt else 0
  }

  lemma {:induction false} IdolListIs(db: Db, matches: string -> bool, rows: seq<Uuid>)
    ensures IsIdolList(db, matches, rows) <==> EachOnce(rows, Matching(db, matches)) && Ordered(rows, ActivationKey(db))
  {
    if EachOnce(rows, Matching(db, matches)) {
      forall i | 0 <= i < |rows| ensures rows[i] in db.idolProfiles {
        assert rows[i] in Matching(db, matches);
      }
    }
  }

  lemma {:induction false} ReportQueueIs(db: Db, rows: seq<Uuid>)
    ensures IsReportQueue(db, rows) <==> EachOnce(rows, WaitingReports(db)) && Ordered(rows, CreationKey(db))
  {
    if EachOnce(rows, WaitingReports(db)) {
      forall i | 0 <= i < |rows| ensures rows[i] in db.reports {
        assert rows[i] in WaitingReports(db);
      }
    }
  }

  /**
   Paging through the idols, each page a query of its own, shows every matching idol once
   whatever the orders of ties exactly when no activation instants tie around the end of a page.
   */
  lemma {:induction false} IdolPagesIffNoTie(db: Db, matches: string -> bool, rows: seq<Uuid>, size: nat)
    requires size >= 1 && IsIdolList(db, matches, rows)
    ensures AlwaysCovers(rows, ActivationKey(db), size) <==> !TieAtPageEnd(rows, ActivationKey(db), size)
    ensures forall s :: IsIdolList(db, matches, s) <==> Reordered(s, rows, ActivationKey(db))
  {
    IdolListIs(db, matches, rows);
    PagesCoverIffNoTie(rows, ActivationKey(db), size);
    forall s ensures IsIdolList(db, matches, s) <==> Reordered(s, rows, ActivationKey(db)) {
      IdolListIs(db, matches, s);
      EachOncePermuted(s, rows, Matching(db, matches));
    }
  }

  /** The same for the queue of reports and their instants of creation. */
  lemma {:induction false} ReportPagesIffNoTie(db: Db, rows: seq<Uuid>, size: nat)
    requires size >= 1 && IsReportQueue(db, rows)
    ensures AlwaysCovers(rows, CreationKey(db), size) <==> !TieAtPageEnd(rows, CreationKey(db), size)
    ensures forall s :: IsReportQueue(db, s) <==> Reordered(s, rows, CreationKey(db))
  {
    ReportQueueIs(db, rows);
    PagesCoverIffNoTie(rows, CreationKey(db), size);
    forall s ensures IsReportQueue(db, s) <==> Reordered(s, rows, CreationKey(db)) {
      ReportQueueIs(db, s);
      EachOncePermuted(s, rows, WaitingReports(db));
    }
  }
}
