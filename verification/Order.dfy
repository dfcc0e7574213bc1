/** Total orders of rows, as the `order by ... limit` clauses of the queries use them.

    A row is ranked by up to four integer columns compared lexicographically. Every query of the
    service that cuts a batch orders by a list of columns that ends in a row identity, so distinct
    rows have distinct ranks. */
module Order {

  datatype Rank = Rank(a: int, b: int, c: int, d: int)

  predicate Less(x: Rank, y: Rank) {
    || x.a < y.a
    || (x.a == y.a && x.b < y.b)
    || (x.a == y.a && x.b == y.b && x.c < y.c)
    || (x.a == y.a && x.b == y.b && x.c == y.c && x.d < y.d)
  }

  /** The members of `s` that the order puts before `x`. */
  function Before(s: set<Rank>, x: Rank): set<Rank> {
    set y | y in s && Less(y, x)
  }

  /** `order by rank limit k`: the members that fewer than `k` others precede. */
  function First(s: set<Rank>, k: nat): (batch: set<Rank>)
    ensures batch <= s
  {
    set x | x in s && |Before(s, x)| < k
  }

  predicate IsLeast(s: set<Rank>, x: Rank) {
    x in s && forall y :: y in s && y != x ==> Less(x, y)
  }

  lemma {:induction false} LeastExists(s: set<Rank>)
    requires s != {}
    ensures exists x :: IsLeast(s, x)
    decreases |s|
  {
    var p :| p in s;
    if s == {p} {
      assert IsLeast(s, p);
    } else {
      var rest := s - {p};
      LeastExists(rest);
      var q :| IsLeast(rest, q);
      if Less(p, q) {
        forall y | y in s && y != p
          ensures Less(p, y)
        {
          assert y in rest;
        }
        assert IsLeast(s, p);
      } else {
        assert IsLeast(s, q);
      }
    }
  }

  function Least(s: set<Rank>): (x: Rank)
    requires s != {}
    ensures IsLeast(s, x)
  {
    LeastExists(s);
    var x :| IsLeast(s, x);
    x
  }

  /** The whole set in order. */
  function Ascending(s: set<Rank>): (r: seq<Rank>)
    ensures |r| == |s|
    decreases |s|
  {
    if s == {} then [] else
      var x := Least(s);
      [x] + Ascending(s - {x})
  }

  predicate Sorted(r: seq<Rank>) {
    forall i, j :: 0 <= i < j < |r| ==> Less(r[i], r[j])
  }

  lemma {:induction false} AscendingSorts(s: set<Rank>)
    ensures Sorted(Ascending(s))
    ensures forall x :: x in Ascending(s) <==> x in s
    decreases |s|
  {
    if s != {} {
      var m := Least(s);
      AscendingSorts(s - {m});
      SortedCons(m, Ascending(s - {m}));
      assert Ascending(s) == [m] + Ascending(s - {m});
    }
  }

  lemma {:induction false} SortedCons(m: Rank, r: seq<Rank>)
    requires Sorted(r) && forall x :: x in r ==> Less(m, x)
    ensures Sorted([m] + r)
    ensures forall x :: x in [m] + r <==> x == m || x in r
  {
    forall i, j | 0 <= i < j < |r| + 1
      ensures Less(([m] + r)[i], ([m] + r)[j])
    {
      assert r[j - 1] in r;
    }
  }

  /** The identities in order. */
  function Listing(ids: set<int>): (r: seq<int>)
    ensures forall x :: x in r <==> x in ids
  {
    var ranks := set x | x in ids :: Rank(x, 0, 0, 0);
    AscendingSorts(ranks);
    var order := Ascending(ranks);
    var listed := seq(|order|, i requires 0 <= i < |order| => order[i].a);
    assert forall x :: x in ids ==> Rank(x, 0, 0, 0) in order;
    assert forall i :: 0 <= i < |order| ==> order[i] in ranks && listed[i] == order[i].a;
    listed
  }

  /** The listing ascends. */
  lemma {:induction false} ListingAscends(ids: set<int>)
    ensures forall i, j :: 0 <= i < j < |Listing(ids)| ==> Listing(ids)[i] < Listing(ids)[j]
  {
    var ranks := set x | x in ids :: Rank(x, 0, 0, 0);
    AscendingSorts(ranks);
    var order := Ascending(ranks);
    assert |Listing(ids)| == |order| && forall i :: 0 <= i < |order| ==> Listing(ids)[i] == order[i].a;
    forall i, j | 0 <= i < j < |order|
      ensures order[i].a < order[j].a
    {
      assert order[i] in ranks && order[j] in ranks && Less(order[i], order[j]);
    }
  }

  /** The position of a member is the number of members before it, so `row_number()` counts them. */
  lemma {:induction false} PositionCounts(s: set<Rank>, i: nat)
    requires i < |s|
    ensures Ascending(s)[i] in s
    ensures |Before(s, Ascending(s)[i])| == i
    decreases |s|
  {
    var m := Least(s);
    if i == 0 {
      assert Before(s, m) == {};
    } else {
      var rest := s - {m};
      PositionCounts(rest, i - 1);
      var x := Ascending(rest)[i - 1];
      assert Ascending(s)[i] == x;
      assert Before(s, x) == {m} + Before(rest, x);
    }
  }

  lemma {:induction false} FirstPeelsLeast(s: set<Rank>, k: nat)
    requires s != {} && k > 0
    ensures First(s, k) == {Least(s)} + First(s - {Least(s)}, k - 1)
  {
    var m := Least(s);
    var rest := s - {m};
    assert Before(s, m) == {};
    forall x | x in rest
      ensures x in First(s, k) <==> x in First(rest, k - 1)
    {
      assert Before(s, x) == {m} + Before(rest, x);
    }
  }

  lemma {:induction false} Restored(s: set<Rank>, m: Rank)
    requires m in s
    ensures s == {m} + (s - {m})
  {
  }

  lemma {:induction false} OutsideFirst(rest: set<Rank>, k: nat, m: Rank)
    requires m !in rest
    ensures m !in First(rest, k)
  {
  }

  lemma {:induction false} OneMore(all: set<Rank>, batch: set<Rank>, m: Rank, rest: set<Rank>, taken: set<Rank>, k: nat)
    requires all == {m} + rest && batch == {m} + taken && m !in rest && m !in taken && k > 0
    requires |rest| >= k - 1 ==> |taken| == k - 1
    requires |rest| <= k - 1 ==> taken == rest
    ensures |all| >= k ==> |batch| == k
    ensures |all| <= k ==> batch == all
  {
    assert |all| == 1 + |rest| && |batch| == 1 + |taken|;
  }

  /** A batch of limit `k` holds `k` rows, or all of them when there are fewer. */
  lemma {:induction false} FirstSize(s: set<Rank>, k: nat)
    ensures |s| >= k ==> |First(s, k)| == k
    ensures |s| <= k ==> First(s, k) == s
    decreases |s|
  {
    if k == 0 {
      FirstZero(s);
    } else if s == {} {
      assert First(s, k) == {};
    } else {
      var m, rest := Least(s), s - {Least(s)};
      FirstPeelsLeast(s, k);
      FirstSize(rest, k - 1);
      Restored(s, m);
      OutsideFirst(rest, k - 1, m);
      OneMore(s, First(s, k), m, rest, First(rest, k - 1), k);
    }
  }

  /** Taking `j` rows and then `k` of what is left takes the first `j + k`. */
  lemma {:induction false} FirstDrains(s: set<Rank>, j: nat, k: nat)
    ensures First(s, j + k) == First(s, j) + First(s - First(s, j), k)
    decreases |s|
  {
    if j == 0 {
      FirstZero(s);
    } else if s != {} {
      var rest := s - {Least(s)};
      FirstDrains(rest, j - 1, k);
      FirstDrainsStep(s, j, k);
    }
  }

  lemma {:induction false} FirstZero(s: set<Rank>)
    ensures First(s, 0) == {} && s - First(s, 0) == s
  {
  }

  lemma {:induction false} FirstDrainsStep(s: set<Rank>, j: nat, k: nat)
    requires s != {} && j > 0
    requires var rest := s - {Least(s)};
      First(rest, j - 1 + k) == First(rest, j - 1) + First(rest - First(rest, j - 1), k)
    ensures First(s, j + k) == First(s, j) + First(s - First(s, j), k)
  {
    Remainder(s, j);
    FirstPeelsLeast(s, j);
    FirstPeelsLeast(s, j + k);
  }

  lemma {:induction false} Remainder(s: set<Rank>, j: nat)
    requires s != {} && j > 0
    ensures s - First(s, j) == s - {Least(s)} - First(s - {Least(s)}, j - 1)
  {
    FirstPeelsLeast(s, j);
  }

  /** Nothing outside a batch precedes a row inside it. */
  lemma {:induction false} FirstIsDownwardClosed(s: set<Rank>, k: nat, x: Rank, y: Rank)
    requires x in First(s, k) && y in s && y !in First(s, k)
    ensures Less(x, y)
  {
    if !Less(x, y) {
      assert Before(s, y) <= Before(s, x);
      SubsetSize(Before(s, y), Before(s, x));
    }
  }

  lemma {:induction false} SubsetSize<T>(a: set<T>, b: set<T>)
    requires a <= b
    ensures |a| <= |b|
    decreases |a|
  {
    if a != {} {
      var x :| x in a;
      SubsetSize(a - {x}, b - {x});
    }
  }
}
