/** Python's `sorted` with a key: a stable sort, and what identifies its result. */
module Sorting {

  ghost predicate TotalOrder<T(!new)>(le: (T, T) -> bool) {
    && (forall x, y :: le(x, y) || le(y, x))
    && (forall x, y, z :: le(x, y) && le(y, z) ==> le(x, z))
  }

  predicate Ordered<T>(s: seq<T>, le: (T, T) -> bool) {
    forall i, j :: 0 <= i < j < |s| ==> le(s[i], s[j])
  }

  function Insert<T>(x: T, s: seq<T>, le: (T, T) -> bool): seq<T> {
    if s == [] || le(x, s[0]) then [x] + s else [s[0]] + Insert(x, s[1..], le)
  }

  function Sort<T>(s: seq<T>, le: (T, T) -> bool): seq<T> {
    if s == [] then [] else Insert(s[0], Sort(s[1..], le), le)
  }

  lemma TailOrdered<T>(s: seq<T>, le: (T, T) -> bool)
    requires s != [] && Ordered(s, le)
    ensures Ordered(s[1..], le) && multiset(s) == multiset{s[0]} + multiset(s[1..])
    ensures forall x <- s[1..] :: le(s[0], x)
  {
    assert s == [s[0]] + s[1..];
  }

  lemma HeadFirst<T>(x: T, s: seq<T>, le: (T, T) -> bool)
    requires Ordered(s, le) && forall y <- s :: le(x, y)
    ensures Ordered([x] + s, le) && multiset([x] + s) == multiset{x} + multiset(s)
  {
  }

  lemma {:induction false} InsertKeeps<T(!new)>(x: T, s: seq<T>, le: (T, T) -> bool)
    requires TotalOrder(le) && Ordered(s, le)
    ensures multiset(Insert(x, s, le)) == multiset{x} + multiset(s)
    ensures Ordered(Insert(x, s, le), le)
  {
    if s != [] && !le(x, s[0]) {
      TailOrdered(s, le);
      InsertKeeps(x, s[1..], le);
      var t := Insert(x, s[1..], le);
      forall y <- t ensures le(s[0], y) {
        assert y in multiset(t);
      }
      HeadFirst(s[0], t, le);
    } else if s != [] {
      TailOrdered(s, le);
      forall y <- s ensures le(x, y) {
        assert y == s[0] || y in s[1..];
      }
      HeadFirst(x, s, le);
    }
  }

  lemma {:induction false} SortSorts<T(!new)>(s: seq<T>, le: (T, T) -> bool)
    requires TotalOrder(le)
    ensures multiset(Sort(s, le)) == multiset(s)
    ensures Ordered(Sort(s, le), le)
    ensures |Sort(s, le)| == |s|
  {
    if s != [] {
      assert s == [s[0]] + s[1..];
      SortSorts(s[1..], le);
      InsertKeeps(s[0], Sort(s[1..], le), le);
    }
    assert |multiset(Sort(s, le))| == |multiset(s)|;
  }

  /** The elements that tie with x, in order. */
  function TiesWith<T>(s: seq<T>, x: T, le: (T, T) -> bool): seq<T> {
    if s == [] then [] else (if le(s[0], x) && le(x, s[0]) then [s[0]] else []) + TiesWith(s[1..], x, le)
  }

  lemma TiesCons<T>(y: T, s: seq<T>, x: T, le: (T, T) -> bool)
    ensures TiesWith([y] + s, x, le) == (if le(y, x) && le(x, y) then [y] else []) + TiesWith(s, x, le)
  {
    assert ([y] + s)[1..] == s;
  }

  lemma {:induction false} InsertTies<T(!new)>(y: T, s: seq<T>, x: T, le: (T, T) -> bool)
    requires TotalOrder(le)
    ensures TiesWith(Insert(y, s, le), x, le) == TiesWith([y] + s, x, le)
  {
    TiesCons(y, s, x, le);
    if s != [] && !le(y, s[0]) {
      var rest := Insert(y, s[1..], le);
      InsertTies(y, s[1..], x, le);
      TiesCons(y, s[1..], x, le);
      TiesCons(s[0], rest, x, le);
      assert s == [s[0]] + s[1..];
    }
  }

  /** Sorting is stable: elements that tie keep their order. */
  lemma {:induction false} SortStable<T(!new)>(s: seq<T>, x: T, le: (T, T) -> bool)
    requires TotalOrder(le)
    ensures TiesWith(Sort(s, le), x, le) == TiesWith(s, x, le)
  {
    if s != [] {
      SortStable(s[1..], x, le);
      InsertTies(s[0], Sort(s[1..], le), x, le);
      TiesCons(s[0], Sort(s[1..], le), x, le);
      TiesCons(s[0], s[1..], x, le);
      assert s == [s[0]] + s[1..];
    }
  }

  ghost predicate NoTies<T(!new)>(s: seq<T>, le: (T, T) -> bool) {
    forall x, y :: x in s && y in s && le(x, y) && le(y, x) ==> x == y
  }

  /** Two orderings of the same elements agree when no two different elements tie. */
  lemma {:induction false} OrderedUnique<T(!new)>(a: seq<T>, b: seq<T>, le: (T, T) -> bool)
    requires multiset(a) == multiset(b) && Ordered(a, le) && Ordered(b, le) && NoTies(a, le)
    ensures a == b
  {
    if a == [] {
      assert |multiset(b)| == 0;
    } else {
      HeadsAgree(a, b, le);
      TailsAgree(a, b, le);
      OrderedUnique(a[1..], b[1..], le);
      assert a == [a[0]] + a[1..] && b == [b[0]] + b[1..];
    }
  }

  lemma TailsAgree<T(!new)>(a: seq<T>, b: seq<T>, le: (T, T) -> bool)
    requires multiset(a) == multiset(b) && Ordered(a, le) && Ordered(b, le) && NoTies(a, le)
    requires a != [] && b != [] && a[0] == b[0]
    ensures Ordered(a[1..], le) && Ordered(b[1..], le) && multiset(a[1..]) == multiset(b[1..]) && NoTies(a[1..], le)
  {
    TailOrdered(a, le);
    TailOrdered(b, le);
    assert multiset(a[1..]) == multiset(a) - multiset{a[0]};
    assert multiset(b[1..]) == multiset(b) - multiset{b[0]};
  }

  lemma HeadsAgree<T(!new)>(a: seq<T>, b: seq<T>, le: (T, T) -> bool)
    requires a != [] && multiset(a) == multiset(b) && Ordered(a, le) && Ordered(b, le) && NoTies(a, le)
    ensures b != [] && a[0] == b[0]
  {
    assert a[0] in multiset(a);
    assert b != [] && b[0] in multiset(b);
    var i :| 0 <= i < |b| && b[i] == a[0];
    var j :| 0 <= j < |a| && a[j] == b[0];
    if i > 0 && j > 0 {
      assert le(b[0], a[0]) && le(a[0], b[0]);
    }
  }

  /** Sorting forgets the input order when no two different elements tie. */
  lemma SortCanonical<T(!new)>(a: seq<T>, b: seq<T>, le: (T, T) -> bool)
    requires TotalOrder(le) && multiset(a) == multiset(b) && NoTies(a, le)
    ensures Sort(a, le) == Sort(b, le)
  {
    SortSorts(a, le);
    SortSorts(b, le);
    forall x | x in Sort(a, le) ensures x in a {
      assert x in multiset(a);
    }
    OrderedUnique(Sort(a, le), Sort(b, le), le);
  }

  /** Cutting an ordered sequence keeps elements that come before, or tie with, every one cut off. */
  lemma CutOrdered<T(!new)>(s: seq<T>, n: nat, le: (T, T) -> bool)
    requires n <= |s| && Ordered(s, le)
    ensures Ordered(s[..n], le)
    ensures forall a <- s[..n], b <- s[n..] :: le(a, b)
    ensures multiset(s[..n]) + multiset(s[n..]) == multiset(s)
  {
    forall a <- s[..n], b <- s[n..] ensures le(a, b) {
      var i :| 0 <= i < n && s[i] == a;
      var j :| n <= j < |s| && s[j] == b;
    }
    assert s == s[..n] + s[n..];
  }

  predicate NoDup<T(==)>(s: seq<T>) {
    forall i, j :: 0 <= i < j < |s| ==> s[i] != s[j]
  }

  /** A permutation of a duplicate-free list is duplicate-free and has the same elements. */
  lemma SamePairs<T>(a: seq<T>, b: seq<T>)
    requires multiset(a) == multiset(b) && NoDup(a)
    ensures NoDup(b) && forall x :: x in a <==> x in b
  {
    forall x ensures x in a <==> x in b {
      assert x in multiset(a) <==> x in multiset(b);
    }
    forall i, j | 0 <= i < j < |b| ensures b[i] != b[j] {
      if b[i] == b[j] {
        CountAtLeast(b, i, j);
        CountAtMost(a, b[i]);
      }
    }
  }

  lemma CountAtLeast<T>(s: seq<T>, i: nat, j: nat)
    requires i < j < |s| && s[i] == s[j]
    ensures multiset(s)[s[i]] >= 2
  {
    assert s == s[..j] + [s[j]] + s[j + 1..];
    assert s[i] in s[..j];
  }

  lemma {:induction false} CountAtMost<T>(s: seq<T>, x: T)
    requires NoDup(s)
    ensures multiset(s)[x] == if x in s then 1 else 0
  {
    if s != [] {
      assert s == [s[0]] + s[1..];
      CountAtMost(s[1..], x);
    }
  }

  /** Duplicate-free lists of the same elements are permutations of each other. */
  lemma SameElements<T>(a: seq<T>, b: seq<T>)
    requires NoDup(a) && NoDup(b) && forall x :: x in a <==> x in b
    ensures multiset(a) == multiset(b)
  {
    forall x ensures multiset(a)[x] == multiset(b)[x] {
      CountAtMost(a, x);
      CountAtMost(b, x);
    }
  }
}
