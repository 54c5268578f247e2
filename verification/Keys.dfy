/** Id-ordered listing of table keys: what `ORDER BY id` and `id > ? ORDER BY id LIMIT ?` return. */
module Keys {

  predicate Ascending(xs: seq<nat>) {
    forall i, j :: 0 <= i < j < |xs| ==> xs[i] < xs[j]
  }

  predicate IsLeast(m: nat, s: set<nat>) {
    m in s && forall x :: x in s ==> m <= x
  }

  lemma LeastOfMore(m: nat, rest: set<nat>, y: nat, s: set<nat>)
    requires IsLeast(m, rest) && s == rest + {y}
    ensures IsLeast(if y < m then y else m, s)
  {}

  lemma {:induction false} HasLeast(s: set<nat>)
    requires s != {}
    ensures exists m :: IsLeast(m, s)
  {
    var y :| y in s;
    var rest := s - {y};
    if rest == {} {
      assert s == {y};
      assert IsLeast(y, s);
    } else {
      HasLeast(rest);
      var m :| IsLeast(m, rest);
      LeastOfMore(m, rest, y, s);
    }
  }

  function Least(s: set<nat>): (m: nat)
    requires s != {}
    ensures m in s && forall x :: x in s ==> m <= x
  {
    HasLeast(s);
    var m :| m in s && IsLeast(m, s);
    m
  }

  /** All keys, ascending. */
  function Listing(s: set<nat>): (xs: seq<nat>)
    ensures Ascending(xs)
    ensures forall x :: x in xs <==> x in s
    ensures |xs| == |s|
  {
    if s == {} then []
    else
      var m := Least(s);
      [m] + Listing(s - {m})
  }

  lemma {:induction false} ListingUnique(xs: seq<nat>, ys: seq<nat>)
    requires Ascending(xs) && Ascending(ys)
    requires forall x :: x in xs <==> x in ys
    ensures xs == ys
  {
    assert xs != [] ==> xs[0] in xs;
    assert ys != [] ==> ys[0] in ys;
    if xs != [] && ys != [] {
      assert xs[0] == ys[0];
      var xt, yt := xs[1..], ys[1..];
      forall x ensures x in xt <==> x in yt {
        assert x in xt ==> x in xs && x != xs[0];
        assert x in yt ==> x in ys && x != ys[0];
        assert x in xs ==> x == xs[0] || x in xt;
        assert x in ys ==> x == ys[0] || x in yt;
      }
      ListingUnique(xt, yt);
      assert xs == [xs[0]] + xt && ys == [ys[0]] + yt;
    }
  }

  lemma PageTail(all: seq<nat>, limit: nat, x: nat)
    requires Ascending(all) && limit <= |all| && x in all && x !in all[..limit]
    ensures limit > 0 ==> x > all[limit - 1]
  {
    var k :| 0 <= k < |all| && all[k] == x;
  }

  predicate Distinct(xs: seq<nat>) {
    forall m, n :: 0 <= m < n < |xs| ==> xs[m] != xs[n]
  }

  function After(s: set<nat>, after: int): set<nat> {
    set x | x in s && x > after
  }

  /** One page: at most `limit` keys strictly after the cursor. The cursor -1 stands for the empty one. */
  function Page(s: set<nat>, after: int, limit: nat): seq<nat> {
    var all := Listing(After(s, after));
    if |all| <= limit then all else all[..limit]
  }

  lemma PageIs(s: set<nat>, after: int, limit: nat)
    ensures Ascending(Page(s, after, limit)) && |Page(s, after, limit)| <= limit
    ensures forall x :: x in Page(s, after, limit) ==> x in s && x > after
    ensures forall x :: x in s && x > after && x !in Page(s, after, limit) ==>
              |Page(s, after, limit)| == limit && (limit > 0 ==> x > Page(s, after, limit)[limit - 1])
  {
    var all := Listing(After(s, after));
    if |all| > limit {
      assert forall x :: x in all[..limit] ==> x in all;
      forall x | x in all && x !in all[..limit] ensures limit > 0 ==> x > all[limit - 1] {
        PageTail(all, limit, x);
      }
    }
    forall x | x in s && x > after && x !in Page(s, after, limit)
      ensures |Page(s, after, limit)| == limit && (limit > 0 ==> x > Page(s, after, limit)[limit - 1])
    {
      assert x in all;
    }
  }
}
