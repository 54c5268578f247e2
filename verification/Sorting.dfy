/** Sorting by a key, as sort.Slice does it: the result is some sorted permutation, and only one exists
    when no two elements share a key. */
module Sorting {

  /** Byte-wise order of strings. */
  predicate Before(a: string, b: string) {
    if b == [] then false
    else if a == [] then true
    else a[0] < b[0] || (a[0] == b[0] && Before(a[1..], b[1..]))
  }

  lemma {:induction false} BeforeTotal(a: string, b: string)
    ensures a == b || Before(a, b) || Before(b, a)
    ensures !(Before(a, b) && Before(b, a)) && !Before(a, a)
  {
    if a != [] && b != [] {
      BeforeTotal(a[1..], b[1..]);
      assert a == [a[0]] + a[1..] && b == [b[0]] + b[1..];
    }
    if a != [] {
      BeforeTotal(a[1..], a[1..]);
    }
  }

  lemma {:induction false} BeforeTransitive(a: string, b: string, c: string)
    requires Before(a, b) && Before(b, c)
    ensures Before(a, c)
  {
    if a != [] && a[0] == b[0] && b[0] == c[0] {
      BeforeTransitive(a[1..], b[1..], c[1..]);
    }
  }

  ghost predicate Sorted<T>(xs: seq<T>, less: (T, T) -> bool) {
    forall i, j :: 0 <= i < j < |xs| ==> !less(xs[j], xs[i])
  }

  /** A strict order in which no two of these elements tie. */
  ghost predicate NoTies<T>(all: set<T>, less: (T, T) -> bool) {
    && (forall a, b {:trigger less(a, b)} :: a in all && b in all && !less(a, b) ==> a == b || less(b, a))
    && (forall a, b {:trigger less(a, b)} :: a in all && b in all && less(a, b) ==> !less(b, a))
    && (forall a, b, c {:trigger less(a, b), less(b, c)} ::
          a in all && b in all && c in all && less(a, b) && less(b, c) ==> less(a, c))
  }

  ghost predicate AllIn<T>(xs: seq<T>, all: set<T>) {
    forall i :: 0 <= i < |xs| ==> xs[i] in all
  }

  function Put<T>(x: T, xs: seq<T>, less: (T, T) -> bool): seq<T> {
    if xs == [] then [x] else if less(xs[0], x) then [xs[0]] + Put(x, xs[1..], less) else [x] + xs
  }

  function Sort<T>(xs: seq<T>, less: (T, T) -> bool): seq<T> {
    if xs == [] then [] else Put(xs[0], Sort(xs[1..], less), less)
  }

  lemma {:induction false} PutContents<T>(x: T, xs: seq<T>, less: (T, T) -> bool)
    ensures multiset(Put(x, xs, less)) == multiset{x} + multiset(xs)
  {
    if xs != [] {
      assert xs == [xs[0]] + xs[1..];
      if less(xs[0], x) {
        PutContents(x, xs[1..], less);
      }
    }
  }

  lemma {:induction false} SortContents<T>(xs: seq<T>, less: (T, T) -> bool)
    ensures multiset(Sort(xs, less)) == multiset(xs)
  {
    if xs != [] {
      assert xs == [xs[0]] + xs[1..];
      SortContents(xs[1..], less);
      PutContents(xs[0], Sort(xs[1..], less), less);
    }
  }

  lemma SameContents<T>(xs: seq<T>, ys: seq<T>)
    requires multiset(xs) == multiset(ys)
    ensures forall x :: x in xs <==> x in ys
    ensures |xs| == |ys|
  {
    forall x ensures x in xs <==> x in ys {
      assert x in xs <==> x in multiset(xs);
      assert x in ys <==> x in multiset(ys);
    }
    assert |multiset(xs)| == |xs| && |multiset(ys)| == |ys|;
  }

  lemma SortMembers<T>(xs: seq<T>, less: (T, T) -> bool)
    ensures forall x :: x in Sort(xs, less) <==> x in xs
    ensures |Sort(xs, less)| == |xs|
  {
    SortContents(xs, less);
    SameContents(Sort(xs, less), xs);
  }

  lemma {:induction false} PutAllIn<T>(x: T, xs: seq<T>, less: (T, T) -> bool, all: set<T>)
    requires x in all && AllIn(xs, all)
    ensures AllIn(Put(x, xs, less), all)
  {
    if xs != [] && less(xs[0], x) {
      PutAllIn(x, xs[1..], less, all);
    }
  }

  lemma {:induction false} SortAllIn<T>(xs: seq<T>, less: (T, T) -> bool, all: set<T>)
    requires AllIn(xs, all)
    ensures AllIn(Sort(xs, less), all)
  {
    if xs != [] {
      SortAllIn(xs[1..], less, all);
      PutAllIn(xs[0], Sort(xs[1..], less), less, all);
    }
  }

  ghost predicate After<T>(lo: T, xs: seq<T>, less: (T, T) -> bool) {
    forall j :: 0 <= j < |xs| ==> !less(xs[j], lo)
  }

  lemma ConsSorted<T>(x: T, xs: seq<T>, less: (T, T) -> bool)
    requires Sorted(xs, less) && After(x, xs, less)
    ensures Sorted([x] + xs, less)
  {}

  lemma {:induction false} PutAfter<T>(lo: T, x: T, xs: seq<T>, less: (T, T) -> bool)
    requires !less(x, lo) && After(lo, xs, less)
    ensures After(lo, Put(x, xs, less), less)
  {
    if xs != [] && less(xs[0], x) {
      PutAfter(lo, x, xs[1..], less);
    }
  }

  lemma {:induction false} PutSorted<T>(x: T, xs: seq<T>, less: (T, T) -> bool, all: set<T>)
    requires NoTies(all, less) && x in all && AllIn(xs, all) && Sorted(xs, less)
    ensures Sorted(Put(x, xs, less), less)
  {
    if xs != [] {
      if less(xs[0], x) {
        PutSorted(x, xs[1..], less, all);
        PutAfter(xs[0], x, xs[1..], less);
        ConsSorted(xs[0], Put(x, xs[1..], less), less);
      } else {
        forall j | 0 <= j < |xs| ensures !less(xs[j], x) {
          assert j > 0 ==> !less(xs[j], xs[0]);
        }
        ConsSorted(x, xs, less);
      }
    }
  }

  lemma {:induction false} SortSorted<T>(xs: seq<T>, less: (T, T) -> bool, all: set<T>)
    requires NoTies(all, less) && AllIn(xs, all)
    ensures Sorted(Sort(xs, less), less)
  {
    if xs != [] {
      SortSorted(xs[1..], less, all);
      SortAllIn(xs[1..], less, all);
      PutSorted(xs[0], Sort(xs[1..], less), less, all);
    }
  }

  lemma SameHead<T>(xs: seq<T>, ys: seq<T>, less: (T, T) -> bool, all: set<T>)
    requires NoTies(all, less) && AllIn(xs, all) && xs != [] && ys != [] && xs[0] in ys && ys[0] in xs
    requires Sorted(xs, less) && Sorted(ys, less)
    ensures xs[0] == ys[0]
  {
    var i :| 0 <= i < |ys| && ys[i] == xs[0];
    var j :| 0 <= j < |xs| && xs[j] == ys[0];
    assert i > 0 ==> !less(ys[i], ys[0]);
    assert j > 0 ==> !less(xs[j], xs[0]);
  }

  lemma DropCommon<T>(x: T, p: seq<T>, q: seq<T>)
    requires multiset([x] + p) == multiset([x] + q)
    ensures multiset(p) == multiset(q)
  {
    forall y ensures multiset(p)[y] == multiset(q)[y] {
      assert multiset([x] + p)[y] == multiset{x}[y] + multiset(p)[y];
      assert multiset([x] + q)[y] == multiset{x}[y] + multiset(q)[y];
    }
  }

  /** Without ties a collection has one sorted arrangement: the two have the same first element, and
      without it they are again two sorted arrangements of one collection. */
  lemma {:induction false} OneArrangement<T>(p: seq<T>, q: seq<T>, less: (T, T) -> bool, all: set<T>)
    requires NoTies(all, less) && AllIn(p, all) && Sorted(p, less) && Sorted(q, less) && multiset(p) == multiset(q)
    ensures p == q
    decreases |p|
  {
    SameContents(p, q);
    if |p| > 0 {
      SameHead(p, q, less, all);
      var x, p', q' := p[0], p[1..], q[1..];
      assert [x] + p' == p && [x] + q' == q;
      DropCommon(x, p', q');
      OneArrangement(p', q', less, all);
    }
  }

  /** Sorting forgets the order of its input. */
  lemma SortCanonical<T>(xs: seq<T>, ys: seq<T>, less: (T, T) -> bool, all: set<T>)
    requires multiset(xs) == multiset(ys) && NoTies(all, less) && AllIn(xs, all)
    ensures Sort(xs, less) == Sort(ys, less)
  {
    SameContents(xs, ys);
    forall i | 0 <= i < |ys| ensures ys[i] in all {
      assert ys[i] in xs;
    }
    SortContents(xs, less);
    SortContents(ys, less);
    SortSorted(xs, less, all);
    SortSorted(ys, less, all);
    SortAllIn(xs, less, all);
    OneArrangement(Sort(xs, less), Sort(ys, less), less, all);
  }

  // ---- Collections described element by element ----

  function Each<T, S>(xs: seq<T>, f: T -> S): (ys: seq<S>)
    ensures |ys| == |xs| && forall i :: 0 <= i < |xs| ==> ys[i] == f(xs[i])
  {
    if xs == [] then [] else [f(xs[0])] + Each(xs[1..], f)
  }

  function Without<T>(xs: seq<T>, j: nat): seq<T>
    requires j < |xs|
  {
    xs[..j] + xs[j + 1..]
  }

  lemma {:induction false} EachWithout<T, S>(xs: seq<T>, f: T -> S, j: nat)
    requires j < |xs|
    ensures multiset(Each(xs, f)) == multiset{f(xs[j])} + multiset(Each(Without(xs, j), f))
    decreases j
  {
    var rest := Without(xs, j);
    if j == 0 {
      assert rest == xs[1..];
    } else {
      EachWithout(xs[1..], f, j - 1);
      assert rest[0] == xs[0] && rest[1..] == Without(xs[1..], j - 1);
      assert multiset(Each(rest, f)) == multiset{f(xs[0])} + multiset(Each(rest[1..], f));
      assert multiset(Each(xs, f)) == multiset{f(xs[0])} + multiset(Each(xs[1..], f));
    }
  }

  /** One description decides the other, on these elements. */
  ghost predicate Decides<T(!new), S(!new), C(!new)>(xs: seq<T>, ys: seq<T>, f: T -> S, g: T -> C) {
    forall a, b {:trigger g(a), g(b)} :: a in xs && b in ys && f(a) == f(b) ==> g(a) == g(b)
  }

  lemma DecidesLess<T(!new), S(!new), C(!new)>(xs: seq<T>, ys: seq<T>, f: T -> S, g: T -> C, j: nat)
    requires Decides(xs, ys, f, g) && xs != [] && j < |ys|
    ensures Decides(xs[1..], Without(ys, j), f, g)
  {
    assert forall b :: b in Without(ys, j) ==> b in ys;
  }

  lemma FindEach<T, S>(ys: seq<T>, f: T -> S, s: S) returns (j: nat)
    requires s in multiset(Each(ys, f))
    ensures j < |ys| && f(ys[j]) == s
  {
    assert s in Each(ys, f);
    j :| 0 <= j < |ys| && Each(ys, f)[j] == s;
  }

  lemma CancelOne<S>(s: S, m: multiset<S>, n: multiset<S>)
    ensures multiset{s} + m == multiset{s} + n <==> m == n
  {
    if multiset{s} + m == multiset{s} + n {
      assert m == (multiset{s} + m) - multiset{s};
      assert n == (multiset{s} + n) - multiset{s};
    }
  }

  lemma EachPaired<T, S>(xs: seq<T>, ys: seq<T>, f: T -> S, j: nat)
    requires xs != [] && j < |ys| && f(xs[0]) == f(ys[j])
    ensures multiset(Each(xs, f)) == multiset(Each(ys, f)) <==>
            multiset(Each(xs[1..], f)) == multiset(Each(Without(ys, j), f))
  {
    EachWithout(xs, f, 0);
    assert Without(xs, 0) == xs[1..];
    EachWithout(ys, f, j);
    CancelOne(f(xs[0]), multiset(Each(xs[1..], f)), multiset(Each(Without(ys, j), f)));
  }

  lemma EachEmpty<T, S>(xs: seq<T>, ys: seq<T>, f: T -> S)
    requires multiset(Each(xs, f)) == multiset(Each(ys, f))
    ensures |xs| == |ys| && (xs != [] ==> f(xs[0]) in multiset(Each(ys, f)))
  {
    SameContents(Each(xs, f), Each(ys, f));
    if xs != [] {
      assert Each(xs, f)[0] in Each(xs, f);
    }
  }

  /** Two lists with the same collection of one description have the same collection of the other. */
  lemma {:induction false} EachAgrees<T(!new), S(!new), C(!new)>(xs: seq<T>, ys: seq<T>, f: T -> S, g: T -> C)
    requires multiset(Each(xs, f)) == multiset(Each(ys, f)) && Decides(xs, ys, f, g)
    ensures multiset(Each(xs, g)) == multiset(Each(ys, g))
    decreases |xs|
  {
    EachEmpty(xs, ys, f);
    if xs == [] {
      assert xs == ys;
    } else {
      var j := FindEach(ys, f, f(xs[0]));
      EachPaired(xs, ys, f, j);
      DecidesLess(xs, ys, f, g, j);
      EachAgrees(xs[1..], Without(ys, j), f, g);
      DecidesHere(xs, ys, f, g, j);
      EachPaired(xs, ys, g, j);
    }
  }

  lemma DecidesHere<T(!new), S(!new), C(!new)>(xs: seq<T>, ys: seq<T>, f: T -> S, g: T -> C, j: nat)
    requires Decides(xs, ys, f, g) && xs != [] && j < |ys| && f(xs[0]) == f(ys[j])
    ensures g(xs[0]) == g(ys[j])
  {
    assert xs[0] in xs && ys[j] in ys;
  }
}
