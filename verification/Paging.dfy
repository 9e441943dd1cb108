/** Paged lists: active idols (idol_discovery service) and pending reports (report service). */
module Paging {
  import opened Basics
  import opened Schema

  datatype PageOf<T> = PageOf(items: seq<T>, page: nat, pageSize: nat, hasMore: bool)

  function Min(a: nat, b: nat): nat {
    if a < b then a else b
  }

  /** OFFSET and LIMIT on the rows of a query. */
  function Fetch<T>(rows: seq<T>, offset: nat, limit: nat): seq<T> {
    rows[Min(offset, |rows|)..Min(offset + limit, |rows|)]
  }

  /** One more row than the page is fetched, to know whether there is a next page. */
  function Page<T>(rows: seq<T>, page: nat, pageSize: nat): PageOf<T>
    requires page >= 1 && pageSize >= 1
  {
    var fetched := Fetch(rows, (page - 1) * pageSize, pageSize + 1);
    PageOf(if |fetched| > pageSize then fetched[..pageSize] else fetched, page, pageSize, |fetched| > pageSize)
  }

  // ---------------------------------------------------------------- the queries

  /** The active idols whose stage name matches. */
  function Matching(db: Db, matches: string -> bool): set<Uuid> {
    set u | u in db.idolProfiles && IsActiveIdol(db, u) && matches(db.idolProfiles[u].stageName)
  }

  /** The reports still waiting. */
  function WaitingReports(db: Db): set<Uuid> {
    set r | r in db.reports && db.reports[r].status == Waiting
  }

  /** rows is an answer of the list query: matching active idols, each once, newest activation first. */
  ghost predicate IsIdolList(db: Db, matches: string -> bool, rows: seq<Uuid>) {
    NoDuplicates(rows) && (forall u :: u in rows <==> u in Matching(db, matches)) &&
    (forall i :: 0 <= i < |rows| ==> rows[i] in db.idolProfiles) &&
    (forall i, j :: 0 <= i < j < |rows| ==>
       db.idolProfiles[rows[i]].activatedAt >= db.idolProfiles[rows[j]].activatedAt)
  }

  /** rows is an answer of the queue query: reports waiting, each once, oldest first. */
  ghost predicate IsReportQueue(db: Db, rows: seq<Uuid>) {
    NoDuplicates(rows) && (forall r :: r in rows <==> r in WaitingReports(db)) &&
    (forall i :: 0 <= i < |rows| ==> rows[i] in db.reports) &&
    (forall i, j :: 0 <= i < j < |rows| ==> db.reports[rows[i]].createdAt <= db.reports[rows[j]].createdAt)
  }

  // ---------------------------------------------------------------- reading every page

  lemma {:induction false} PageSlice<T>(rows: seq<T>, page: nat, pageSize: nat, offset: nat)
    requires page >= 1 && pageSize >= 1 && offset == (page - 1) * pageSize
    ensures Page(rows, page, pageSize).items == rows[Min(offset, |rows|)..Min(offset + pageSize, |rows|)]
    ensures Page(rows, page, pageSize).hasMore <==> offset + pageSize < |rows|
  {
  }

  /** The items of this page and of every later one, until a page says there is no more. */
  function ReadFrom<T>(rows: seq<T>, page: nat, pageSize: nat): seq<T>
    requires page >= 1 && pageSize >= 1
    decreases |rows| - (page - 1) * pageSize
  {
    var p := Page(rows, page, pageSize);
    PageSlice(rows, page, pageSize, (page - 1) * pageSize);
    p.items + if p.hasMore then ReadFrom(rows, page + 1, pageSize) else []
  }

  /** How many pages that reads. */
  function PagesFrom<T>(rows: seq<T>, page: nat, pageSize: nat): nat
    requires page >= 1 && pageSize >= 1
    decreases |rows| - (page - 1) * pageSize
  {
    PageSlice(rows, page, pageSize, (page - 1) * pageSize);
    1 + if Page(rows, page, pageSize).hasMore then PagesFrom(rows, page + 1, pageSize) else 0
  }

  lemma {:induction false} ReadFromIs<T>(rows: seq<T>, page: nat, pageSize: nat, offset: nat)
    requires page >= 1 && pageSize >= 1 && offset == (page - 1) * pageSize && offset <= |rows|
    ensures ReadFrom(rows, page, pageSize) == rows[offset..]
    decreases |rows| - offset
  {
    PageSlice(rows, page, pageSize, offset);
    if offset + pageSize < |rows| {
      ReadFromIs(rows, page + 1, pageSize, offset + pageSize);
      assert rows[offset..] == rows[offset..offset + pageSize] + rows[offset + pageSize..];
    } else {
      assert rows[offset..] == rows[offset..|rows|];
    }
  }

  /** n things in groups of size: the number of groups, at least one. */
  function Groups(n: nat, size: nat): nat
    requires size >= 1
  {
    if n <= size then 1 else 1 + Groups(n - size, size)
  }

  /** Groups is max(1, ceil(n / size)): the least number of pages that hold n items. */
  lemma {:induction false} GroupsIsCeiling(n: nat, size: nat)
    requires size >= 1
    ensures n <= Groups(n, size) * size
    ensures Groups(n, size) == 1 || (Groups(n, size) - 1) * size < n
  {
    if n > size {
      GroupsIsCeiling(n - size, size);
      var g := Groups(n - size, size);
      assert (g + 1) * size == g * size + size;
      assert g * size == (g - 1) * size + size;
    }
  }

  lemma {:induction false} PagesFromIs<T>(rows: seq<T>, page: nat, pageSize: nat, offset: nat)
    requires page >= 1 && pageSize >= 1 && offset == (page - 1) * pageSize && offset <= |rows|
    ensures PagesFrom(rows, page, pageSize) == Groups(|rows| - offset, pageSize)
    decreases |rows| - offset
  {
    PageSlice(rows, page, pageSize, offset);
    if offset + pageSize < |rows| {
      PagesFromIs(rows, page + 1, pageSize, offset + pageSize);
    }
  }

  /**
   Reading pages 1, 2, ... of a fixed list ends after max(1, ceil(N / pageSize)) pages and
   yields exactly the list.
   */
  lemma {:induction false} PagesCoverList<T>(rows: seq<T>, pageSize: nat)
    requires pageSize >= 1
    ensures ReadFrom(rows, 1, pageSize) == rows
    ensures PagesFrom(rows, 1, pageSize) == Groups(|rows|, pageSize)
  {
    ReadFromIs(rows, 1, pageSize, 0);
    PagesFromIs(rows, 1, pageSize, 0);
    assert rows[0..] == rows;
  }

  /** Paging through the idols shows every matching active idol once, newest activation first. */
  lemma {:induction false} IdolPagesComplete(db: Db, matches: string -> bool, rows: seq<Uuid>, pageSize: nat)
    requires pageSize >= 1 && IsIdolList(db, matches, rows)
    ensures IsIdolList(db, matches, ReadFrom(rows, 1, pageSize))
    ensures |ReadFrom(rows, 1, pageSize)| == |Matching(db, matches)|
  {
    PagesCoverList(rows, pageSize);
    DistinctSize(rows, Matching(db, matches));
  }

  /** Paging through the queue shows every waiting report once, oldest first. */
  lemma {:induction false} ReportPagesComplete(db: Db, rows: seq<Uuid>, pageSize: nat)
    requires pageSize >= 1 && IsReportQueue(db, rows)
    ensures IsReportQueue(db, ReadFrom(rows, 1, pageSize))
    ensures |ReadFrom(rows, 1, pageSize)| == |WaitingReports(db)|
  {
    PagesCoverList(rows, pageSize);
    DistinctSize(rows, WaitingReports(db));
  }
}
