/** Python's `sorted`: a stable sort by a total preorder, and why its result is unique when no two elements tie. */
module Sorting {

  ghost predicate TotalPreorder<T(!new)>(before: (T, T) -> bool) {
    && (forall x, y :: before(x, y) || before(y, x))
    && (forall x, y, z :: before(x, y) && before(y, z) ==> before(x, z))
  }

  ghost predicate Ordered<T>(before: (T, T) -> bool, s: seq<T>) {
    forall i, j :: 0 <= i < j < |s| ==> before(s[i], s[j])
  }

  function Insert<T>(before: (T, T) -> bool, x: T, s: seq<T>): seq<T> {
    if s == [] || before(x, s[0]) then [x] + s else [s[0]] + Insert(before, x, s[1..])
  }

  /** Elements that tie keep their order: an element is inserted in front of those that came after it. */
  function Sort<T>(before: (T, T) -> bool, s: seq<T>): seq<T> {
    if s == [] then [] else Insert(before, s[0], Sort(before, s[1..]))
  }

  lemma {:induction false} InsertElements<T>(before: (T, T) -> bool, x: T, s: seq<T>)
    ensures multiset(Insert(before, x, s)) == multiset(s) + multiset{x}
    ensures |Insert(before, x, s)| == |s| + 1
  {
    if s != [] && !before(x, s[0]) {
      InsertElements(before, x, s[1..]);
      assert s == [s[0]] + s[1..];
    }
  }

  lemma PrependOrdered<T>(before: (T, T) -> bool, x: T, s: seq<T>)
    requires Ordered(before, s) && forall y :: y in multiset(s) ==> before(x, y)
    ensures Ordered(before, [x] + s)
  {
    var r := [x] + s;
    forall i, j | 0 <= i < j < |r| ensures before(r[i], r[j]) {
      assert r[j] == s[j - 1] && s[j - 1] in multiset(s);
      if i > 0 { assert r[i] == s[i - 1]; }
    }
  }

  lemma {:induction false} InsertOrdered<T(!new)>(before: (T, T) -> bool, x: T, s: seq<T>)
    requires TotalPreorder(before) && Ordered(before, s)
    ensures Ordered(before, Insert(before, x, s))
  {
    if s != [] {
      forall y | y in multiset(s) ensures y == s[0] || before(s[0], y) {
        var i :| 0 <= i < |s| && s[i] == y;
      }
      if before(x, s[0]) {
        forall y | y in multiset(s) ensures before(x, y) {
          assert before(s[0], y) || y == s[0];
        }
        PrependOrdered(before, x, s);
      } else {
        InsertOrdered(before, x, s[1..]);
        InsertElements(before, x, s[1..]);
        assert s == [s[0]] + s[1..];
        PrependOrdered(before, s[0], Insert(before, x, s[1..]));
      }
    }
  }

  lemma {:induction false} SortSorts<T(!new)>(before: (T, T) -> bool, s: seq<T>)
    requires TotalPreorder(before)
    ensures Ordered(before, Sort(before, s)) && multiset(Sort(before, s)) == multiset(s) && |Sort(before, s)| == |s|
  {
    if s != [] {
      SortSorts(before, s[1..]);
      InsertOrdered(before, s[0], Sort(before, s[1..]));
      InsertElements(before, s[0], Sort(before, s[1..]));
      assert s == [s[0]] + s[1..];
    }
  }

  lemma {:induction false} SortedStays<T>(before: (T, T) -> bool, s: seq<T>)
    requires Ordered(before, s)
    ensures Sort(before, s) == s
  {
    if s != [] {
      SortedStays(before, s[1..]);
      assert s == [s[0]] + s[1..];
    }
  }

  /** No two different elements tie. */
  ghost predicate NoTies<T(!new)>(before: (T, T) -> bool, s: multiset<T>) {
    forall x, y :: x in s && y in s && before(x, y) && before(y, x) ==> x == y
  }

  lemma FirstIsLeast<T(!new)>(before: (T, T) -> bool, a: seq<T>, y: T)
    requires TotalPreorder(before) && Ordered(before, a) && y in multiset(a)
    ensures before(a[0], y)
  {
    var i :| 0 <= i < |a| && a[i] == y;
    assert before(y, y);
  }

  lemma SameFirst<T(!new)>(before: (T, T) -> bool, a: seq<T>, b: seq<T>)
    requires TotalPreorder(before) && Ordered(before, a) && Ordered(before, b) && a != [] && b != []
    requires multiset(a) == multiset(b) && NoTies(before, multiset(a))
    ensures a[0] == b[0]
  {
    assert a[0] in multiset(a) && b[0] in multiset(b);
    FirstIsLeast(before, a, b[0]);
    FirstIsLeast(before, b, a[0]);
  }

  lemma SameRest<T(!new)>(before: (T, T) -> bool, a: seq<T>, b: seq<T>)
    requires a != [] && b != [] && a[0] == b[0] && multiset(a) == multiset(b) && NoTies(before, multiset(a))
    ensures multiset(a[1..]) == multiset(b[1..]) && NoTies(before, multiset(a[1..]))
  {
    RestElements(a);
    RestElements(b);
    assert forall x :: x in multiset(a[1..]) ==> x in multiset(a);
  }

  lemma RestElements<T>(s: seq<T>)
    requires s != []
    ensures multiset(s[1..]) == multiset(s) - multiset{s[0]}
  {
    assert s == [s[0]] + s[1..];
  }

  lemma {:induction false} OrderedUnique<T(!new)>(before: (T, T) -> bool, a: seq<T>, b: seq<T>)
    requires TotalPreorder(before) && Ordered(before, a) && Ordered(before, b)
    requires multiset(a) == multiset(b) && NoTies(before, multiset(a))
    ensures a == b
  {
    assert |multiset(a)| == |a| && |multiset(b)| == |b|;
    if a != [] {
      SameFirst(before, a, b);
      SameRest(before, a, b);
      OrderedUnique(before, a[1..], b[1..]);
      assert a == [a[0]] + a[1..] && b == [b[0]] + b[1..];
    }
  }

  /** Sorting forgets the order of its input when nothing ties. */
  lemma SortOfPermutation<T(!new)>(before: (T, T) -> bool, a: seq<T>, b: seq<T>)
    requires TotalPreorder(before) && multiset(a) == multiset(b) && NoTies(before, multiset(a))
    ensures Sort(before, a) == Sort(before, b)
  {
    SortSorts(before, a);
    SortSorts(before, b);
    OrderedUnique(before, Sort(before, a), Sort(before, b));
  }

  // ---- Stability ----

  predicate Tied<T>(before: (T, T) -> bool, x: T, y: T) { before(x, y) && before(y, x) }

  /** The elements that tie with x, in their order. */
  function Ties<T>(before: (T, T) -> bool, s: seq<T>, x: T): seq<T> {
    if s == [] then [] else (if Tied(before, s[0], x) then [s[0]] else []) + Ties(before, s[1..], x)
  }

  lemma NotBothTied<T(!new)>(before: (T, T) -> bool, y: T, z: T, x: T)
    requires TotalPreorder(before) && !before(y, z)
    ensures !Tied(before, y, x) || !Tied(before, z, x)
  {
  }

  lemma TiesOfPrepend<T>(before: (T, T) -> bool, y: T, s: seq<T>, x: T)
    ensures Ties(before, [y] + s, x) == (if Tied(before, y, x) then [y] else []) + Ties(before, s, x)
  {
    assert ([y] + s)[1..] == s;
  }

  lemma {:induction false} InsertStable<T(!new)>(before: (T, T) -> bool, y: T, s: seq<T>, x: T)
    requires TotalPreorder(before)
    ensures Ties(before, Insert(before, y, s), x) == (if Tied(before, y, x) then [y] else []) + Ties(before, s, x)
  {
    if s == [] || before(y, s[0]) {
      TiesOfPrepend(before, y, s, x);
    } else {
      InsertStable(before, y, s[1..], x);
      TiesOfPrepend(before, s[0], Insert(before, y, s[1..]), x);
      NotBothTied(before, y, s[0], x);
    }
  }

  /** Elements that tie keep their order. */
  lemma {:induction false} SortStable<T(!new)>(before: (T, T) -> bool, s: seq<T>, x: T)
    requires TotalPreorder(before)
    ensures Ties(before, Sort(before, s), x) == Ties(before, s, x)
  {
    if s != [] {
      SortStable(before, s[1..], x);
      InsertStable(before, s[0], Sort(before, s[1..]), x);
    }
  }
}
