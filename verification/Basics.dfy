/** Small shared vocabulary: options, outcomes, and facts about sequences read as multisets. */
module Basics {

  datatype Option<+T> = None | Some(value: T)

  /** The elements of s that satisfy p, in order. */
  function Filter<T>(s: seq<T>, p: T -> bool): seq<T> {
    if s == [] then []
    else Filter(s[..|s| - 1], p) + if p(s[|s| - 1]) then [s[|s| - 1]] else []
  }

  /** f applied to every element, in order. */
  function Map<T, U>(s: seq<T>, f: T -> U): (r: seq<U>)
    ensures |r| == |s|
  {
    seq(|s|, i requires 0 <= i < |s| => f(s[i]))
  }

  /** Sum of f over s. */
  function Sum<T>(s: seq<T>, f: T -> int): int {
    if s == [] then 0 else Sum(s[..|s| - 1], f) + f(s[|s| - 1])
  }

  ghost predicate NoDuplicates<T>(s: seq<T>) {
    forall i, j :: 0 <= i < j < |s| ==> s[i] != s[j]
  }

  lemma {:induction false} FilterMembers<T>(s: seq<T>, p: T -> bool)
    ensures forall x :: x in Filter(s, p) <==> x in s && p(x)
    ensures |Filter(s, p)| <= |s|
  {
    if s == [] {
    } else {
      FilterMembers(s[..|s| - 1], p);
      assert s == s[..|s| - 1] + [s[|s| - 1]];
    }
  }

  lemma {:induction false} FilterConcat<T>(s: seq<T>, t: seq<T>, p: T -> bool)
    ensures Filter(s + t, p) == Filter(s, p) + Filter(t, p)
  {
    if t == [] {
      assert s + t == s;
    } else {
      FilterConcat(s, t[..|t| - 1], p);
      assert (s + t)[..|s + t| - 1] == s + t[..|t| - 1];
    }
  }

  lemma {:induction false} FilterAgree<T>(s: seq<T>, p: T -> bool, q: T -> bool)
    requires forall x :: x in s ==> p(x) == q(x)
    ensures Filter(s, p) == Filter(s, q)
  {
    if s != [] {
      FilterAgree(s[..|s| - 1], p, q);
    }
  }

  /** Where the last element of s sits in a permutation t of s. */
  lemma {:induction false} RemoveOne<T>(s: seq<T>, t: seq<T>) returns (u: seq<T>, v: seq<T>)
    requires s != [] && multiset(s) == multiset(t)
    ensures t == u + [s[|s| - 1]] + v
    ensures multiset(s[..|s| - 1]) == multiset(u + v)
  {
    var x, s' := s[|s| - 1], s[..|s| - 1];
    assert s == s' + [x];
    assert x in multiset(t);
    var k :| 0 <= k < |t| && t[k] == x;
    u, v := t[..k], t[k + 1..];
    assert t == u + [x] + v;
    assert multiset(s') == multiset(s) - multiset{x};
    assert multiset(u + v) == multiset(t) - multiset{x};
  }

  lemma {:induction false} FilterInsert<T>(u: seq<T>, x: T, v: seq<T>, p: T -> bool)
    ensures Filter(u + [x] + v, p) == Filter(u, p) + (if p(x) then [x] else []) + Filter(v, p)
  {
    FilterConcat(u + [x], v, p);
    assert (u + [x])[..|u|] == u;
  }

  lemma {:induction false} FilterAround<T>(s: seq<T>, x: T, u: seq<T>, v: seq<T>, p: T -> bool)
    requires multiset(Filter(s, p)) == multiset(Filter(u + v, p))
    ensures multiset(Filter(s + [x], p)) == multiset(Filter(u + [x] + v, p))
  {
    FilterConcat(u, v, p);
    FilterInsert(u, x, v, p);
    FilterInsert(s, x, [], p);
    assert s + [x] + [] == s + [x];
    MultisetInsert(Filter(s, p), Filter(u, p), if p(x) then [x] else [], Filter(v, p));
  }

  lemma {:induction false} MultisetInsert<T>(a: seq<T>, b: seq<T>, x: seq<T>, c: seq<T>)
    requires multiset(a) == multiset(b + c)
    ensures multiset(a + x) == multiset(b + x + c)
  {
  }

  /** Filtering a permutation gives a permutation. */
  lemma {:induction false} FilterPermuted<T>(s: seq<T>, t: seq<T>, p: T -> bool)
    requires multiset(s) == multiset(t)
    ensures multiset(Filter(s, p)) == multiset(Filter(t, p))
    decreases |s|
  {
    if s == [] {
      assert |multiset(t)| == 0;
    } else {
      var u, v := RemoveOne(s, t);
      FilterPermutedStep(s[..|s| - 1], s[|s| - 1], u, v, p);
      assert s == s[..|s| - 1] + [s[|s| - 1]];
    }
  }

  lemma {:induction false} FilterPermutedStep<T>(s: seq<T>, x: T, u: seq<T>, v: seq<T>, p: T -> bool)
    requires multiset(s) == multiset(u + v)
    ensures multiset(Filter(s + [x], p)) == multiset(Filter(u + [x] + v, p))
    decreases |s| + 1, 0
  {
    FilterPermuted(s, u + v, p);
    FilterAround(s, x, u, v, p);
  }

  /** Splitting a condition in two disjoint parts splits what it selects. */
  lemma {:induction false} FilterSplit<T>(s: seq<T>, whole: T -> bool, p: T -> bool, q: T -> bool)
    requires forall x :: x in s ==> (whole(x) <==> p(x) || q(x)) && !(p(x) && q(x))
    ensures multiset(Filter(s, whole)) == multiset(Filter(s, p)) + multiset(Filter(s, q))
    ensures |Filter(s, whole)| == |Filter(s, p)| + |Filter(s, q)|
  {
    if s != [] {
      var front, x := s[..|s| - 1], s[|s| - 1];
      assert x in s && forall y :: y in front ==> y in s;
      FilterSplit(front, whole, p, q);
      SplitStep(Filter(front, whole), Filter(front, p), Filter(front, q), x, p(x), q(x));
    }
  }

  lemma {:induction false} SplitStep<T>(w: seq<T>, a: seq<T>, b: seq<T>, x: T, inA: bool, inB: bool)
    requires multiset(w) == multiset(a) + multiset(b) && |w| == |a| + |b| && !(inA && inB)
    ensures var w', a', b' := w + (if inA || inB then [x] else []),
                              a + (if inA then [x] else []), b + (if inB then [x] else []);
            multiset(w') == multiset(a') + multiset(b') && |w'| == |a'| + |b'|
  {
  }

  lemma {:induction false} MapConcat<T, U>(s: seq<T>, t: seq<T>, f: T -> U)
    ensures Map(s + t, f) == Map(s, f) + Map(t, f)
  {
  }

  /** Mapping a permutation gives a permutation. */
  lemma {:induction false} MapPermuted<T, U>(s: seq<T>, t: seq<T>, f: T -> U)
    requires multiset(s) == multiset(t)
    ensures multiset(Map(s, f)) == multiset(Map(t, f))
  {
    if s == [] {
      assert |multiset(t)| == 0;
    } else {
      var u, v := RemoveOne(s, t);
      var x, s' := s[|s| - 1], s[..|s| - 1];
      assert s == s' + [x];
      MapPermuted(s', u + v, f);
      MapConcat(s', [x], f);
      MapConcat(u, v, f);
      MapConcat(u, [x], f);
      MapConcat(u + [x], v, f);
    }
  }

  lemma {:induction false} SumConcat<T>(s: seq<T>, t: seq<T>, f: T -> int)
    ensures Sum(s + t, f) == Sum(s, f) + Sum(t, f)
  {
    if t == [] {
      assert s + t == s;
    } else {
      SumConcat(s, t[..|t| - 1], f);
      assert (s + t)[..|s + t| - 1] == s + t[..|t| - 1];
    }
  }

  /** A sequence without repetitions has as many elements as the set of them. */
  lemma {:induction false} DistinctSize<T>(s: seq<T>, elements: set<T>)
    requires NoDuplicates(s)
    requires forall x :: x in elements <==> x in s
    ensures |s| == |elements|
  {
    if s == [] {
      assert elements == {};
    } else {
      var x := s[|s| - 1];
      assert s == s[..|s| - 1] + [x];
      DistinctSize(s[..|s| - 1], elements - {x});
    }
  }

  lemma {:induction false} FilterKeepsDistinct<T>(s: seq<T>, p: T -> bool)
    requires NoDuplicates(s)
    ensures NoDuplicates(Filter(s, p))
  {
    if s != [] {
      var s' := s[..|s| - 1];
      FilterKeepsDistinct(s', p);
      FilterMembers(s', p);
      assert forall i :: 0 <= i < |s'| ==> s'[i] == s[i];
      assert s[|s| - 1] !in s';
    }
  }

  lemma {:induction false} SubsetSize<T>(a: set<T>, b: set<T>)
    requires a <= b
    ensures |a| <= |b|
    ensures |a| == |b| ==> a == b
  {
    assert b == a + (b - a);
    assert |b| == |a| + |b - a|;
  }

  /** Growing a finite set of indices by one. */
  lemma {:induction false} SetGrows<T>(a: set<T>, b: set<T>, x: T)
    requires x !in a && b == a + {x}
    ensures |b| == |a| + 1
  {
  }

  /** An injective map has at most as many keys as there are values to take. */
  lemma {:induction false} InjectiveSize<T, U>(keys: set<T>, m: map<T, U>, values: set<U>)
    requires forall x :: x in keys ==> x in m && m[x] in values
    requires forall x, y :: x in keys && y in keys && m[x] == m[y] ==> x == y
    ensures |keys| <= |values|
  {
    if keys != {} {
      var x :| x in keys;
      InjectiveSize(keys - {x}, m, values - {m[x]});
    }
  }

  lemma {:induction false} SumInsert<T>(u: seq<T>, x: T, v: seq<T>, f: T -> int)
    ensures Sum(u + [x] + v, f) == Sum(u, f) + f(x) + Sum(v, f)
  {
    SumConcat(u + [x], v, f);
    assert (u + [x])[..|u|] == u;
  }

  /** A sum does not depend on the order. */
  lemma {:induction false} SumPermuted<T>(s: seq<T>, t: seq<T>, f: T -> int)
    requires multiset(s) == multiset(t)
    ensures Sum(s, f) == Sum(t, f)
  {
    if s == [] {
      assert |multiset(t)| == 0;
    } else {
      var u, v := RemoveOne(s, t);
      SumPermuted(s[..|s| - 1], u + v, f);
      SumConcat(u, v, f);
      SumInsert(u, s[|s| - 1], v, f);
    }
  }

  lemma {:induction false} SumAgree<T>(s: seq<T>, f: T -> int, g: T -> int)
    requires forall x :: x in s ==> f(x) == g(x)
    ensures Sum(s, f) == Sum(s, g)
  {
    if s != [] {
      assert s[|s| - 1] in s && forall x :: x in s[..|s| - 1] ==> x in s;
      SumAgree(s[..|s| - 1], f, g);
    }
  }

  /** Changing one summand of a sequence without repetitions. */
  lemma {:induction false} SumBump<T>(s: seq<T>, f: T -> int, g: T -> int, x: T, d: int)
    requires NoDuplicates(s)
    requires forall y :: y in s ==> g(y) == f(y) + if y == x then d else 0
    ensures Sum(s, g) == Sum(s, f) + if x in s then d else 0
  {
    if s != [] {
      var front, last := s[..|s| - 1], s[|s| - 1];
      assert s == front + [last];
      assert last in s && forall y :: y in front ==> y in s;
      assert last !in front;
      SumBump(front, f, g, x, d);
    }
  }

  lemma {:induction false} SumOfMap<T, U>(s: seq<T>, h: T -> U, f: U -> int, g: T -> int)
    requires forall x :: x in s ==> f(h(x)) == g(x)
    ensures Sum(Map(s, h), f) == Sum(s, g)
  {
    if s != [] {
      assert s[|s| - 1] in s && forall x :: x in s[..|s| - 1] ==> x in s;
      SumOfMap(s[..|s| - 1], h, f, g);
      assert Map(s, h)[..|s| - 1] == Map(s[..|s| - 1], h);
    }
  }

  lemma {:induction false} CountMappedStep<T, U>(front: seq<T>, x: T, h: T -> U, p: U -> bool)
    ensures |Filter(Map(front + [x], h), p)| == |Filter(Map(front, h), p)| + if p(h(x)) then 1 else 0
  {
    MapSnoc(front, x, h);
    FilterSnoc(Map(front, h), h(x), p);
  }

  /** Selecting from a mapped sequence without repetitions counts a set. */
  lemma {:induction false} CountMapped<T, U>(s: seq<T>, h: T -> U, p: U -> bool, chosen: set<T>)
    requires NoDuplicates(s)
    requires forall x :: x in chosen <==> x in s && p(h(x))
    ensures |Filter(Map(s, h), p)| == |chosen|
  {
    if s == [] {
      assert chosen == {};
    } else {
      var front, last := s[..|s| - 1], s[|s| - 1];
      assert s == front + [last];
      DistinctAppend(front, last);
      CountMapped(front, h, p, chosen - {last});
      CountMappedStep(front, last, h, p);
    }
  }

  lemma {:induction false} PermutedMembers<T>(s: seq<T>, t: seq<T>)
    requires multiset(s) == multiset(t)
    ensures |s| == |t|
    ensures forall x :: x in s <==> x in t
  {
    assert |s| == |multiset(s)| == |multiset(t)| == |t|;
    forall x ensures x in s <==> x in t {
      assert x in s <==> x in multiset(s);
      assert x in t <==> x in multiset(t);
    }
  }

  lemma {:induction false} FilterSnoc<T>(s: seq<T>, x: T, p: T -> bool)
    ensures Filter(s + [x], p) == Filter(s, p) + if p(x) then [x] else []
  {
    assert (s + [x])[..|s|] == s;
  }

  lemma {:induction false} MapSnoc<T, U>(s: seq<T>, x: T, f: T -> U)
    ensures Map(s + [x], f) == Map(s, f) + [f(x)]
  {
  }

  lemma {:induction false} PermutedDistinct<T>(s: seq<T>, t: seq<T>)
    requires multiset(s) == multiset(t) && NoDuplicates(s)
    ensures NoDuplicates(t)
  {
    if s != [] {
      var u, v := RemoveOne(s, t);
      var x, front := s[|s| - 1], s[..|s| - 1];
      assert s == front + [x];
      PermutedDistinct(front, u + v);
      PermutedMembers(front, u + v);
      assert x !in front;
      InsertDistinct(u, x, v);
    } else {
      assert |multiset(t)| == 0;
    }
  }

  lemma {:induction false} InsertDistinct<T>(u: seq<T>, x: T, v: seq<T>)
    requires NoDuplicates(u + v) && x !in u + v
    ensures NoDuplicates(u + [x] + v)
  {
    var w, t := u + v, u + [x] + v;
    forall i, j | 0 <= i < j < |t| ensures t[i] != t[j] {
      assert i < |u| ==> t[i] == w[i];
      assert i > |u| ==> t[i] == w[i - 1];
      assert j < |u| ==> t[j] == w[j];
      assert j > |u| ==> t[j] == w[j - 1];
    }
  }

  lemma {:induction false} FilterAll<T>(s: seq<T>, p: T -> bool)
    requires forall i :: 0 <= i < |s| ==> p(s[i])
    ensures Filter(s, p) == s
  {
    if s != [] {
      var front, x := s[..|s| - 1], s[|s| - 1];
      FilterAll(front, p);
      FilterSnoc(front, x, p);
      assert s == front + [x];
    }
  }

  lemma {:induction false} FilterNone<T>(s: seq<T>, p: T -> bool)
    requires forall i :: 0 <= i < |s| ==> !p(s[i])
    ensures Filter(s, p) == []
  {
    if s != [] {
      FilterNone(s[..|s| - 1], p);
    }
  }

  lemma {:induction false} FilterImplies<T>(s: seq<T>, p: T -> bool, q: T -> bool)
    requires forall x :: x in s && p(x) ==> q(x)
    ensures |Filter(s, p)| <= |Filter(s, q)| <= |s|
  {
    if s != [] {
      assert s[|s| - 1] in s && forall x :: x in s[..|s| - 1] ==> x in s;
      FilterImplies(s[..|s| - 1], p, q);
    }
  }

  /** The different elements, in order of first appearance. */
  function Dedup<T(==)>(s: seq<T>): seq<T> {
    if s == [] then []
    else
      var d, x := Dedup(s[..|s| - 1]), s[|s| - 1];
      if x in d then d else d + [x]
  }

  lemma {:induction false} DedupAppend<T>(s: seq<T>, x: T)
    ensures Dedup(s + [x]) == if x in Dedup(s) then Dedup(s) else Dedup(s) + [x]
  {
    assert (s + [x])[..|s|] == s;
  }

  lemma {:induction false} DedupMembers<T>(s: seq<T>)
    ensures NoDuplicates(Dedup(s))
    ensures forall x :: x in Dedup(s) <==> x in s
  {
    if s != [] {
      DedupMembers(s[..|s| - 1]);
      assert s == s[..|s| - 1] + [s[|s| - 1]];
    }
  }

  lemma {:induction false} DistinctAppend<T>(s: seq<T>, x: T)
    ensures NoDuplicates(s + [x]) <==> NoDuplicates(s) && x !in s
  {
    var t := s + [x];
    assert t[|s|] == x && forall i :: 0 <= i < |s| ==> t[i] == s[i];
    if NoDuplicates(t) {
      assert forall i :: 0 <= i < |s| ==> t[i] != t[|s|];
    }
  }

  /** Nothing is dropped exactly when nothing repeats. */
  lemma {:induction false} DedupSize<T>(s: seq<T>)
    ensures |Dedup(s)| <= |s|
    ensures |Dedup(s)| == |s| <==> NoDuplicates(s)
    ensures NoDuplicates(s) ==> Dedup(s) == s
  {
    if s != [] {
      var front, x := s[..|s| - 1], s[|s| - 1];
      DedupSize(front);
      DedupMembers(front);
      DistinctAppend(front, x);
      assert s == front + [x];
    }
  }

  /** Filtering keeps every copy of what satisfies p and none of anything else. */
  lemma {:induction false} FilterCounts<T>(s: seq<T>, p: T -> bool, x: T)
    ensures multiset(Filter(s, p))[x] == if p(x) then multiset(s)[x] else 0
  {
    if s != [] {
      FilterCounts(s[..|s| - 1], p, x);
      assert s == s[..|s| - 1] + [s[|s| - 1]];
    }
  }

  /** idx are positions of part in whole, from left to right. */
  ghost predicate Positions<T>(idx: seq<nat>, part: seq<T>, whole: seq<T>) {
    |idx| == |part| && (forall i :: 0 <= i < |idx| ==> idx[i] < |whole| && part[i] == whole[idx[i]]) &&
    (forall i, j :: 0 <= i < j < |idx| ==> idx[i] < idx[j])
  }

  /** The elements of part stand in whole in the same order. */
  ghost predicate InOrder<T(!new)>(part: seq<T>, whole: seq<T>) {
    exists idx :: Positions(idx, part, whole)
  }

  lemma {:induction false} MorePositions<T>(idx: seq<nat>, part: seq<T>, whole: seq<T>, x: T, taken: bool)
    requires Positions(idx, part, whole)
    ensures Positions(if taken then idx + [|whole|] else idx, if taken then part + [x] else part, whole + [x])
  {
  }

  lemma {:induction false} InOrderSnoc<T(!new)>(part: seq<T>, whole: seq<T>, x: T, taken: bool)
    requires InOrder(part, whole)
    ensures InOrder(part + if taken then [x] else [], whole + [x])
  {
    var idx :| Positions(idx, part, whole);
    MorePositions(idx, part, whole, x, taken);
    assert part + [] == part;
  }

  lemma {:induction false} NothingInOrder<T(!new)>()
    ensures InOrder<T>([], [])
  {
    assert Positions<T>([], [], []);
  }

  lemma {:induction false} FilterInOrder<T(!new)>(s: seq<T>, p: T -> bool)
    ensures InOrder(Filter(s, p), s)
  {
    if s == [] {
      NothingInOrder<T>();
    } else {
      var front, x := s[..|s| - 1], s[|s| - 1];
      FilterInOrder(front, p);
      InOrderSnoc(Filter(front, p), front, x, p(x));
      FilterSnoc(front, x, p);
      assert s == front + [x];
    }
  }
}
