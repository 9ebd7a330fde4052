/** The next-hop table of one communication process, filled by a recursive walk over the
    tree (src/routing/ForwardingTable.cpp). */
module Forwarding {
  import opened Tree

  datatype RoutingInfo = RoutingInfo(source: nat, destination: nat, hops: nat, next: nat)

  /** The entry a correct table of rank r has for rank x. */
  function Entry(r: nat, x: nat): RoutingInfo
  {
    RoutingInfo(r, x, Dist(r, x), if x == r then r else Toward(r, x))
  }

  /** The entry of x is right, and the table also holds the step from x back to r. */
  ghost predicate SoundAt(t: map<nat, RoutingInfo>, r: nat, n: nat, x: nat)
    requires x in t
  {
    x < n && t[x] == Entry(r, x) && (x != r ==> Toward(x, r) in t)
  }

  ghost predicate Sound(t: map<nat, RoutingInfo>, r: nat, n: nat)
  {
    r in t && forall x {:trigger SoundAt(t, r, n, x)} | x in t :: SoundAt(t, r, n, x)
  }

  /** c needs no further visit: it is outside the tree or has its entry. */
  predicate Covered(t: map<nat, RoutingInfo>, n: nat, c: nat)
  {
    c >= n || c in t
  }

  function Ranks(n: nat): (s: set<nat>)
    ensures forall x: nat :: x in s <==> x < n
  {
    if n == 0 then {} else Ranks(n - 1) + {n - 1}
  }

  ghost predicate Closed(t: map<nat, RoutingInfo>, n: nat, x: nat)
  {
    Covered(t, n, 2 * x + 1) && Covered(t, n, 2 * x + 2) && (x != 0 ==> Parent(x) in t)
  }

  ghost predicate AllClosed(t: map<nat, RoutingInfo>, n: nat, done: set<nat>)
  {
    forall x {:trigger Closed(t, n, x)} | x in t && x !in done :: Closed(t, n, x)
  }

  lemma {:induction false} ClosedGrows(t: map<nat, RoutingInfo>, t': map<nat, RoutingInfo>, n: nat, done: set<nat>)
    requires AllClosed(t, n, done) && t.Keys <= t'.Keys && AllClosed(t', n, t.Keys)
    ensures AllClosed(t', n, done)
  {
    forall x | x in t' && x !in done
      ensures Closed(t', n, x)
    {
      if x in t { assert Closed(t, n, x); }
    }
  }

  lemma {:induction false} SoundAdd(t: map<nat, RoutingInfo>, r: nat, n: nat, x: nat)
    requires Sound(t, r, n) && x < n && x != r && Toward(x, r) in t
    ensures Sound(t[x := Entry(r, x)], r, n)
  {
    var t' := t[x := Entry(r, x)];
    forall y | y in t'
      ensures SoundAt(t', r, n, y)
    {
      if y != x { assert SoundAt(t, r, n, y); }
    }
  }

  class ForwardingTable {
    const clpRank: nat
    const numberOfClps: nat
    var table: map<nat, RoutingInfo>

    constructor (rank: nat, n: nat)
      requires rank < n
      ensures clpRank == rank && numberOfClps == n
      ensures table.Keys == Ranks(n)
      ensures forall x | x in table :: table[x] == Entry(rank, x)
    {
      clpRank, numberOfClps := rank, n;
      table := map[rank := RoutingInfo(rank, rank, 0, rank)];
      new;
      ghost var t0 := table;
      assert Sound(table, rank, n);
      AdjacentDist(rank, 2 * rank + 1);
      AdjacentDist(2 * rank + 1, rank);
      WalkTree(2 * rank + 1, 1, 2 * rank + 1);
      ghost var t1 := table;
      AdjacentDist(rank, 2 * rank + 2);
      AdjacentDist(2 * rank + 2, rank);
      WalkTree(2 * rank + 2, 1, 2 * rank + 2);
      ClosedGrows(t1, table, n, {rank});
      if rank != 0 {
        ghost var t2 := table;
        AdjacentDist(rank, Parent(rank));
        AdjacentDist(Parent(rank), rank);
        WalkTree((rank - 1) / 2, 1, (rank - 1) / 2);
        ClosedGrows(t2, table, n, {rank});
      }
      forall x: nat | x < n
        ensures x in table
      {
        ClosedReaches(table, rank, n, x);
      }
      forall x | x in table
        ensures x < n && table[x] == Entry(rank, x)
      {
        assert SoundAt(table, rank, n, x);
      }
    }

    /** Enters a rank and everything reachable from it through ranks not yet entered. */
    method WalkTree(rank: nat, hops: nat, next: nat)
      requires clpRank < numberOfClps && Sound(table, clpRank, numberOfClps)
      requires rank < numberOfClps && rank !in table ==>
                 && hops == Dist(clpRank, rank)
                 && Adjacent(clpRank, next) && next == Toward(clpRank, rank)
                 && Toward(rank, clpRank) in table
      modifies this`table
      ensures Sound(table, clpRank, numberOfClps)
      ensures old(table).Keys <= table.Keys
      ensures Covered(table, numberOfClps, rank)
      ensures AllClosed(table, numberOfClps, old(table).Keys)
      decreases Ranks(numberOfClps) - table.Keys
    {
      if rank > numberOfClps - 1 { return; }
      if rank in table { return; }
      assert rank in Ranks(numberOfClps) - table.Keys;
      if rank == clpRank { assert false; }
      SoundAdd(table, clpRank, numberOfClps, rank);
      table := table[rank := RoutingInfo(clpRank, rank, hops, next)];
      ghost var done := old(table).Keys + {rank};
      StepFacts(clpRank, rank, 2 * rank + 1);
      WalkTree(2 * rank + 1, hops + 1, next);
      ghost var t1 := table;
      StepFacts(clpRank, rank, 2 * rank + 2);
      WalkTree(2 * rank + 2, hops + 1, next);
      ClosedGrows(t1, table, numberOfClps, done);
      if next != 2 * clpRank + 1 && next != 2 * clpRank + 2 && rank != 0 {
        ghost var t2 := table;
        StepFacts(clpRank, rank, Parent(rank));
        WalkTree((rank - 1) / 2, hops + 1, next);
        ClosedGrows(t2, table, numberOfClps, done);
      } else if rank != 0 {
        BelowStepsUp(clpRank, rank);
      }
      assert Closed(table, numberOfClps, rank);
    }

    /** The source's GetRoutingInfo exits the process when there is no entry. */
    method GetRoutingInfo(rank: nat) returns (info: RoutingInfo)
      requires rank in table
      ensures info == table[rank]
    {
      info := table[rank];
    }
  }

  /** What one more hop from p to c does to the entry, unless c is the way back. */
  lemma {:induction false} StepFacts(r: nat, p: nat, c: nat)
    requires r != p && Adjacent(p, c)
    ensures c != Toward(p, r) ==>
              && c != r && Dist(r, c) == Dist(r, p) + 1
              && Toward(r, c) == Toward(r, p) && Toward(c, r) == p
  {
    if c != Toward(p, r) {
      HopChangesDist(p, r, c);
      DistSymmetric(p, r);
      DistSymmetric(c, r);
      assert Dist(p, r) != Dist(c, r) + 1;
      HopChangesDist(c, r, p);
    }
  }

  /** Below r the way back is up. */
  lemma {:induction false} BelowStepsUp(r: nat, x: nat)
    requires r != x && (Toward(r, x) == 2 * r + 1 || Toward(r, x) == 2 * r + 2)
    ensures x != 0 && Toward(x, r) == Parent(x)
  {
    if x < r {
      assert false;
    }
  }

  /** A closed table holds every rank: follow the route from r. */
  lemma {:induction false} ClosedReaches(t: map<nat, RoutingInfo>, r: nat, n: nat, x: nat)
    requires r < n && x < n && r in t
    requires AllClosed(t, n, {})
    ensures x in t
    decreases Dist(x, r)
  {
    if x != r {
      var p := Toward(x, r);
      TowardAdjacent(x, r);
      HopChangesDist(x, r, p);
      ClosedReaches(t, r, n, p);
      assert Closed(t, n, p);
    }
  }
}
