/** The stable sort of the platform: the one ordered arrangement that keeps ties in their old order. */
module StableSorting {
  import opened Basics

  function Insert<T>(s: seq<T>, x: T, le: (T, T) -> bool): (r: seq<T>)
    ensures |r| == |s| + 1
  {
    if s == [] then [x]
    else if le(s[|s| - 1], x) then s + [x]
    else Insert(s[..|s| - 1], x, le) + [s[|s| - 1]]
  }

  function StableSort<T>(s: seq<T>, le: (T, T) -> bool): (r: seq<T>)
    ensures |r| == |s|
  {
    if s == [] then [] else Insert(StableSort(s[..|s| - 1], le), s[|s| - 1], le)
  }

  ghost predicate Sorted<T>(s: seq<T>, le: (T, T) -> bool) {
    forall i, j :: 0 <= i < j < |s| ==> le(s[i], s[j])
  }

  ghost predicate TotalPreorder<T(!new)>(le: (T, T) -> bool) {
    (forall x, y :: le(x, y) || le(y, x)) && (forall x, y, z :: le(x, y) && le(y, z) ==> le(x, z))
  }

  lemma {:induction false} InsertPermutes<T>(s: seq<T>, x: T, le: (T, T) -> bool)
    ensures multiset(Insert(s, x, le)) == multiset(s) + multiset{x}
  {
    if s != [] && !le(s[|s| - 1], x) {
      InsertPermutes(s[..|s| - 1], x, le);
      assert s == s[..|s| - 1] + [s[|s| - 1]];
    }
  }

  lemma {:induction false} SortPermutes<T>(s: seq<T>, le: (T, T) -> bool)
    ensures multiset(StableSort(s, le)) == multiset(s)
  {
    if s != [] {
      SortPermutes(s[..|s| - 1], le);
      InsertPermutes(StableSort(s[..|s| - 1], le), s[|s| - 1], le);
      assert s == s[..|s| - 1] + [s[|s| - 1]];
    }
  }

  lemma {:induction false} SortMembers<T>(s: seq<T>, le: (T, T) -> bool)
    ensures forall x :: x in StableSort(s, le) <==> x in s
  {
    SortPermutes(s, le);
    forall x ensures x in StableSort(s, le) <==> x in s {
      assert x in StableSort(s, le) <==> x in multiset(StableSort(s, le));
      assert x in s <==> x in multiset(s);
    }
  }

  lemma {:induction false} InsertSorts<T(!new)>(s: seq<T>, x: T, le: (T, T) -> bool)
    requires TotalPreorder(le) && Sorted(s, le)
    ensures Sorted(Insert(s, x, le), le)
    ensures forall y :: y in Insert(s, x, le) ==> y == x || y in s
  {
    if s != [] {
      var front, last := s[..|s| - 1], s[|s| - 1];
      assert s == front + [last];
      if le(last, x) {
        assert forall i :: 0 <= i < |s| ==> le(s[i], x);
      } else {
        InsertSorts(front, x, le);
        assert forall y :: y in front ==> le(y, last);
      }
    }
  }

  lemma {:induction false} SortSorts<T(!new)>(s: seq<T>, le: (T, T) -> bool)
    requires TotalPreorder(le)
    ensures Sorted(StableSort(s, le), le)
  {
    if s != [] {
      SortSorts(s[..|s| - 1], le);
      InsertSorts(StableSort(s[..|s| - 1], le), s[|s| - 1], le);
    }
  }

  /** Elements that tie with x keep their order: sorting commutes with selecting them. */
  lemma {:induction false} InsertKeepsTies<T(!new)>(s: seq<T>, x: T, le: (T, T) -> bool, tie: T -> bool)
    requires TotalPreorder(le) && Sorted(s, le)
    requires forall a, b :: tie(a) && tie(b) ==> le(a, b)
    ensures Filter(Insert(s, x, le), tie) == Filter(s, tie) + if tie(x) then [x] else []
  {
    if s == [] {
      assert Insert(s, x, le)[..0] == [];
    } else {
      var front, last := s[..|s| - 1], s[|s| - 1];
      if le(last, x) {
        assert (s + [x])[..|s|] == s;
      } else {
        InsertKeepsTies(front, x, le, tie);
        var r := Insert(front, x, le);
        assert (r + [last])[..|r|] == r;
      }
    }
  }

  lemma {:induction false} SortKeepsTies<T(!new)>(s: seq<T>, le: (T, T) -> bool, tie: T -> bool)
    requires TotalPreorder(le)
    requires forall a, b :: tie(a) && tie(b) ==> le(a, b)
    ensures Filter(StableSort(s, le), tie) == Filter(s, tie)
  {
    if s != [] {
      SortKeepsTies(s[..|s| - 1], le, tie);
      SortSorts(s[..|s| - 1], le);
      InsertKeepsTies(StableSort(s[..|s| - 1], le), s[|s| - 1], le, tie);
    }
  }

  /** Element k is not after any other, and after every later one: the last of the greatest. */
  ghost predicate IsLatest<T>(s: seq<T>, k: nat, le: (T, T) -> bool) {
    k < |s| && (forall j :: 0 <= j < k ==> le(s[j], s[k])) && (forall j :: k < j < |s| ==> !le(s[k], s[j]))
  }

  lemma {:induction false} InsertEnds<T>(s: seq<T>, x: T, le: (T, T) -> bool)
    ensures var r := Insert(s, x, le);
            r[|r| - 1] == if s == [] || le(s[|s| - 1], x) then x else s[|s| - 1]
  {
  }

  lemma {:induction false} LatestSnoc<T(!new)>(s: seq<T>, k: nat, x: T, le: (T, T) -> bool)
    requires TotalPreorder(le) && IsLatest(s, k, le)
    ensures IsLatest(s + [x], if le(s[k], x) then |s| else k, le)
  {
    if le(s[k], x) {
      forall j | 0 <= j < |s| ensures le(s[j], x) {
        if j > k {
          assert !le(s[k], s[j]);
        }
      }
    }
  }

  /** A stable sort ends with the last of the greatest elements. */
  lemma {:induction false} SortEnds<T(!new)>(s: seq<T>, le: (T, T) -> bool) returns (k: nat)
    requires TotalPreorder(le) && s != []
    ensures IsLatest(s, k, le) && StableSort(s, le)[|s| - 1] == s[k]
  {
    var front, x := s[..|s| - 1], s[|s| - 1];
    InsertEnds(StableSort(front, le), x, le);
    assert s == front + [x];
    if front == [] {
      k := 0;
    } else {
      var f := SortEnds(front, le);
      LatestSnoc(front, f, x, le);
      k := if le(front[f], x) then |front| else f;
    }
  }
}
