/** The communication processes sit on a heap-numbered binary tree: the children of rank
    r are 2r+1 and 2r+2. This module is the geometry the routing and the tree protocols are
    measured against: distance, the neighbour on the way, and why they are what their
    names say. */
module Tree {

  function Parent(x: nat): (p: nat)
    requires x > 0
  {
    (x - 1) / 2
  }

  predicate Adjacent(a: nat, b: nat)
  {
    (a > 0 && Parent(a) == b) || (b > 0 && Parent(b) == a)
  }

  /** The larger of two different ranks is never an ancestor of the other, so it steps up. */
  function Dist(a: nat, b: nat): nat
    decreases a + b
  {
    if a == b then 0
    else if a > b then 1 + Dist(Parent(a), b)
    else 1 + Dist(a, Parent(b))
  }

  /** The neighbour of a that leads to b. */
  function Toward(a: nat, b: nat): nat
    requires a != b
    decreases b
  {
    if a > b then Parent(a)
    else if Parent(b) == a then b
    else Toward(a, Parent(b))
  }

  /** A walk: consecutive ranks are neighbours. */
  predicate Walk(p: seq<nat>)
  {
    |p| > 0 && forall i | 0 < i < |p| :: Adjacent(p[i - 1], p[i])
  }

  lemma {:induction false} TowardAdjacent(a: nat, b: nat)
    requires a != b
    ensures Adjacent(a, Toward(a, b))
    ensures Toward(a, b) <= a || Toward(a, b) <= b
    decreases b
  {
    if a < b && Parent(b) != a {
      TowardAdjacent(a, Parent(b));
    }
  }

  lemma {:induction false} DistSymmetric(a: nat, b: nat)
    ensures Dist(a, b) == Dist(b, a)
    decreases a + b
  {
    if a > b {
      DistSymmetric(Parent(a), b);
    } else if a < b {
      DistSymmetric(a, Parent(b));
    }
  }

  lemma {:induction false} DistBound(a: nat, b: nat)
    ensures Dist(a, b) <= a + b
    decreases a + b
  {
    if a > b {
      DistBound(Parent(a), b);
    } else if a < b {
      DistBound(a, Parent(b));
    }
  }

  /** One hop changes the distance by exactly one, and Toward is the only neighbour for
      which it shrinks. */
  lemma {:induction false} HopChangesDist(a: nat, b: nat, c: nat)
    requires a != b && Adjacent(a, c)
    ensures c == Toward(a, b) ==> Dist(a, b) == Dist(c, b) + 1
    ensures c != Toward(a, b) ==> Dist(c, b) == Dist(a, b) + 1
    decreases a + b
  {
    if a > b {
      if c > a {
        assert Dist(c, b) == 1 + Dist(a, b);
      }
    } else if Parent(b) == a {
      if c != b {
        if c > b {
          assert Dist(c, b) == 1 + Dist(a, b);
        } else {
          assert Dist(c, b) == 1 + Dist(c, a);
          AdjacentDist(c, a);
        }
      }
    } else {
      var p := Parent(b);
      HopChangesDist(a, p, c);
      if c == b {
        assert false;
      } else if c > b {
        assert Dist(c, b) == 1 + Dist(a, b);
        TowardBelow(a, b);
      }
    }
  }

  lemma {:induction false} AdjacentDist(a: nat, b: nat)
    requires Adjacent(a, b)
    ensures Dist(a, b) == 1
    ensures Toward(a, b) == b
  {
    assert Dist(a, a) == 0 && Dist(b, b) == 0;
  }

  lemma {:induction false} TowardBelow(a: nat, b: nat)
    requires a < b
    ensures Toward(a, b) <= b
    decreases b
  {
    if Parent(b) != a {
      if a < Parent(b) { TowardBelow(a, Parent(b)); }
    }
  }

  /** The two ends of an edge lie the same way from every other rank. */
  lemma {:induction false} SameSide(c: nat, n: nat, x: nat)
    requires Adjacent(c, n) && x != c && x != n
    ensures Toward(x, c) == Toward(x, n)
  {
    if c > 0 && Parent(c) == n {
      SameSideDown(n, c, x);
    } else {
      SameSideDown(c, n, x);
    }
  }

  lemma {:induction false} SameSideDown(p: nat, d: nat, x: nat)
    requires d > 0 && Parent(d) == p && x != p && x != d
    ensures Toward(x, p) == Toward(x, d)
  {
    if x < d {
      assert Toward(x, d) == Toward(x, p);
    } else {
      assert x > d > p;
    }
  }

  /** Dist is the graph distance: no walk is shorter ... */
  lemma {:induction false} WalkIsNoShorter(p: seq<nat>)
    requires Walk(p)
    ensures Dist(p[0], p[|p| - 1]) <= |p| - 1
    decreases |p|
  {
    if |p| > 1 {
      var q := p[1..];
      assert forall i | 0 < i < |q| :: q[i] == p[i + 1] && q[i - 1] == p[i];
      WalkIsNoShorter(q);
      assert Adjacent(p[0], p[1]);
      if p[0] != p[|p| - 1] {
        HopChangesDist(p[0], p[|p| - 1], p[1]);
      }
    }
  }

  /** The route that follows Toward. */
  function Route(a: nat, b: nat): (p: seq<nat>)
    decreases Dist(a, b)
  {
    if a == b then [a]
    else
      TowardAdjacent(a, b); HopChangesDist(a, b, Toward(a, b));
      [a] + Route(Toward(a, b), b)
  }

  /** ... and following Toward gives a walk of exactly that length, within the ranks below
      any bound that contains both ends. */
  lemma {:induction false} RouteIsShortest(a: nat, b: nat, n: nat)
    requires a < n && b < n
    ensures Walk(Route(a, b)) && |Route(a, b)| == Dist(a, b) + 1
    ensures Route(a, b)[0] == a && Route(a, b)[Dist(a, b)] == b
    ensures forall x | x in Route(a, b) :: x < n
    decreases Dist(a, b)
  {
    if a != b {
      TowardAdjacent(a, b);
      HopChangesDist(a, b, Toward(a, b));
      RouteIsShortest(Toward(a, b), b, n);
    }
  }

  // ---- who is attached where ----

  /** The start-up assignment: the variables of each CLP, and the CLP of each ALP; ALP
      number i has rank n + i. */
  datatype Layout = Layout(n: nat, vars: map<nat, seq<nat>>, alps: seq<nat>) {
    function Size(): nat { n + |alps| }

    function ClpOf(a: nat): nat
      requires n <= a < Size()
    {
      alps[a - n]
    }
  }

  ghost predicate ValidLayout(l: Layout)
  {
    && 0 < l.n <= 0x7FFF_FFFF
    && (forall h | h in l.vars :: h < l.n)
    && (forall i | 0 <= i < |l.alps| :: l.alps[i] < l.n)
  }

  /** The first hop from CLP r towards rank d. */
  function FirstHop(l: Layout, r: nat, d: nat): nat
    requires d != r && d < l.Size()
  {
    if d < l.n then Toward(r, d)
    else if l.ClpOf(d) == r then d
    else Toward(r, l.ClpOf(d))
  }

  /** Who talks to whom: CLPs along the tree, an ALP with its CLP. */
  predicate Linked(l: Layout, i: nat, j: nat)
  {
    if i < l.n && j < l.n then Adjacent(i, j)
    else if i < l.n then j < l.Size() && l.ClpOf(j) == i
    else i < l.Size() && l.ClpOf(i) == j
  }

  lemma LinkedIsOther(l: Layout, i: nat, j: nat)
    requires ValidLayout(l) && Linked(l, i, j)
    ensures i != j
  {
  }
}
