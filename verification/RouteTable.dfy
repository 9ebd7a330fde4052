/** Routing by rank and by variable (src/routing/RouteTable.cpp, Router.cpp). */
module RouteTable {
  import opened Base
  import opened Tree
  import opened Forwarding

  // What the maps and the next-hop choice add up to: every message arrives, and takes exactly
  // the tree distance.

  /** Half of the 32-bit difference rank - 1, which wraps for the root. */
  function UpRank(rank: nat): nat
  {
    if rank == 0 then 0x7FFF_FFFF else (rank - 1) / 2
  }

  /** The port of CLP r that leads to CLP x. */
  function DirTo(r: nat, x: nat): Direction
  {
    if x == r then Here else Port(r, Toward(r, x))
  }

  /** The port behind which neighbour next sits. */
  function Port(r: nat, next: nat): Direction
  {
    if r != 0 && next == (r - 1) / 2 then Up
    else if next == 2 * r + 1 then Left
    else Right
  }

  /** What the constructor needs to know of the forwarding table: which ranks are one hop
      away, and that every other entry points at one of those. */
  ghost predicate OneHopTable(t: map<nat, RoutingInfo>, r: nat, n: nat)
  {
    && (forall x :: x in t <==> 0 <= x < n)
    && forall x {:trigger t[x]} | x in t && x != r ::
         && (t[x].hops <= 1 <==> Adjacent(r, x))
         && Adjacent(r, t[x].next) && t[x].next < n
         && (Adjacent(r, x) ==> t[x].next == x)
  }

  lemma {:induction false} EntriesGiveOneHopTable(t: map<nat, RoutingInfo>, r: nat, n: nat)
    requires r < n && (forall x :: x in t <==> 0 <= x < n)
    requires forall x | x in t :: t[x] == Entry(r, x)
    ensures OneHopTable(t, r, n)
    ensures forall x | 0 <= x < n && x != r :: t[x].next == Toward(r, x)
  {
    forall x | x in t && x != r
      ensures t[x].next == Toward(r, x)
      ensures t[x].hops <= 1 <==> Adjacent(r, x)
      ensures Adjacent(r, t[x].next) && t[x].next < n
      ensures Adjacent(r, x) ==> t[x].next == x
    {
      NeighbourIffOneHop(r, x);
      PortOfFirstHop(r, x, n);
      if Adjacent(r, x) {
        AdjacentDist(r, x);
      }
    }
  }

  /** The first CLP below bound that lists variable v: the insertion that wins. */
  function HostBelow(vars: map<nat, seq<nat>>, bound: nat, v: nat): Option<nat>
  {
    if bound == 0 then None
    else
      var h := HostBelow(vars, bound - 1, v);
      if h.Some? then h
      else if bound - 1 in vars && v in vars[bound - 1] then Some(bound - 1)
      else None
  }

  /** Number of ALPs below bound attached to CLP r. */
  function Attached(l: Layout, r: nat, bound: nat): nat
    requires bound <= l.Size()
  {
    if bound <= l.n then 0
    else Attached(l, r, bound - 1) + if l.ClpOf(bound - 1) == r then 1 else 0
  }

  /** The next unused port of r once its neighbours below k have theirs. */
  function PortAfter(r: nat, k: nat): Direction
  {
    if r != 0 && k <= Parent(r) then Up
    else if k <= 2 * r + 1 then Left
    else if k <= 2 * r + 2 then Right
    else DirectionSize
  }

  /** The ALPs of r fit on its free ports; the source asserts this while counting ports. */
  ghost predicate PortsSuffice(l: Layout, r: nat)
    requires ValidLayout(l)
  {
    PortAfter(r, l.n).Ordinal() + Attached(l, r, l.Size()) <= 4
  }

  datatype Maps = Maps(rankToDir: map<nat, Direction>, dirToRank: map<Direction, nat>)

  /** The port behind which ALP x sits, seen from CLP r: that of its CLP, or one of r's own
      that no CLP uses. */
  ghost predicate AlpPort(d: Direction, l: Layout, r: nat, x: nat)
    requires l.n <= x < l.Size()
  {
    if l.ClpOf(x) != r then d == DirTo(r, l.ClpOf(x))
    else PortAfter(r, l.n).Ordinal() <= d.Ordinal() && d != Here && d != DirectionSize
  }

  /** The maps know every rank, r itself is Here, and going through a port reaches exactly
      the neighbour on the way. */
  ghost predicate Routes(m: Maps, l: Layout, r: nat)
    requires ValidLayout(l) && r < l.n
  {
    && (forall x | 0 <= x < l.Size() :: x in m.rankToDir && (m.rankToDir[x] == Here <==> x == r))
    && (forall x | 0 <= x < l.n :: m.rankToDir[x] == DirTo(r, x))
    && (forall x {:trigger m.rankToDir[x]} | l.n <= x < l.Size() :: AlpPort(m.rankToDir[x], l, r, x))
    && (forall x | 0 <= x < l.Size() && x != r ::
         m.rankToDir[x] in m.dirToRank && m.dirToRank[m.rankToDir[x]] == FirstHop(l, r, x))
  }

  /** Exactly the listed variables are known, and each starts with the direction of its
      host's rank. */
  ghost predicate VariablesRouted(varToDir: map<nat, Direction>, l: Layout, r: nat)
  {
    && (forall v :: v in varToDir <==> HostBelow(l.vars, l.n, v).Some?)
    && forall v | v in varToDir ::
         && HostBelow(l.vars, l.n, v).value < l.n
         && varToDir[v] == DirTo(r, HostBelow(l.vars, l.n, v).value)
  }

  ghost predicate HostPorts(varToDir: map<nat, Direction>, l: Layout, r: nat, t: map<nat, RoutingInfo>, k: nat)
  {
    && (forall v :: v in varToDir <==> HostBelow(l.vars, k, v).Some?)
    && forall v | v in varToDir ::
         && HostBelow(l.vars, k, v).value in t
         && varToDir[v] == TablePort(t, r, HostBelow(l.vars, k, v).value)
  }

  lemma {:induction false} AddHost(before: map<nat, Direction>, after: map<nat, Direction>, l: Layout,
                                   r: nat, t: map<nat, RoutingInfo>, host: nat)
    requires HostPorts(before, l, r, t, host) && host in l.vars && host in t
    requires forall v :: v in after <==> v in before || v in l.vars[host]
    requires forall v | v in after :: after[v] == if v in before then before[v] else TablePort(t, r, host)
    ensures HostPorts(after, l, r, t, host + 1)
  {
    forall v | v in after
      ensures HostBelow(l.vars, host + 1, v) == if v in before then HostBelow(l.vars, host, v) else Some(host)
    {
    }
  }

  /** ... each at the neighbour on the way. */
  ghost predicate RightTable(t: map<nat, RoutingInfo>, r: nat, n: nat)
  {
    OneHopTable(t, r, n) && forall x {:trigger t[x]} | 0 <= x < n && x != r :: t[x].next == Toward(r, x)
  }

  method MakeTable(rank: nat, n: nat) returns (forwarding: ForwardingTable)
    requires rank < n
    ensures fresh(forwarding) && RightTable(forwarding.table, rank, n)
  {
    forwarding := new ForwardingTable(rank, n);
    EntriesGiveOneHopTable(forwarding.table, rank, n);
  }

  class RouteTable {
    var rankToDir: map<nat, Direction>
    var dirToRank: map<Direction, nat>
    var varToDir: map<nat, Direction>

    constructor (rank: nat, l: Layout)
      requires ValidLayout(l) && rank < l.n && PortsSuffice(l, rank)
      ensures Routes(Maps(rankToDir, dirToRank), l, rank)
      ensures VariablesRouted(varToDir, l, rank)
    {
      rankToDir, dirToRank, varToDir := map[], map[], map[];
      new;
      var forwarding := MakeTable(rank, l.n);
      RouteVariables(rank, l, forwarding);
      FillRanks(rank, l, forwarding);
    }

    method RouteVariables(rank: nat, l: Layout, forwarding: ForwardingTable)
      requires ValidLayout(l) && rank < l.n && varToDir == map[]
      requires RightTable(forwarding.table, rank, l.n)
      modifies this`varToDir
      ensures VariablesRouted(varToDir, l, rank)
    {
      FillVariables(rank, l, forwarding);
    }

    method FillRanks(rank: nat, l: Layout, forwarding: ForwardingTable)
      requires ValidLayout(l) && rank < l.n && PortsSuffice(l, rank)
      requires rankToDir == map[] && dirToRank == map[]
      requires RightTable(forwarding.table, rank, l.n)
      modifies this`rankToDir, this`dirToRank
      ensures Routes(Maps(rankToDir, dirToRank), l, rank)
    {
      var direction := FillNeighbours(rank, l.n, forwarding);
      FillClps(rank, l.n, forwarding);
      ghost var clps := rankToDir;
      FillAlps(rank, l, direction);
      FilledRoutes(Maps(rankToDir, dirToRank), clps, l, rank, forwarding.table);
    }

    /** Each variable gets the port towards the first CLP that lists it. */
    method FillVariables(rank: nat, l: Layout, forwarding: ForwardingTable)
      requires ValidLayout(l) && rank < l.n && varToDir == map[]
      requires OneHopTable(forwarding.table, rank, l.n)
      modifies this`varToDir
      ensures HostPorts(varToDir, l, rank, forwarding.table, l.n)
    {
      for host := 0 to l.n
        invariant HostPorts(varToDir, l, rank, forwarding.table, host)
      {
        if host in l.vars {
          ghost var before := varToDir;
          FillFrom(rank, l.vars[host], host, l, forwarding);
          AddHost(before, varToDir, l, rank, forwarding.table, host);
        }
      }
    }

    /** The variables of one host; insert leaves an entry that is already there alone. */
    method FillFrom(rank: nat, list: seq<nat>, host: nat, l: Layout, forwarding: ForwardingTable)
      requires host < l.n <= 0x7FFF_FFFF && OneHopTable(forwarding.table, rank, l.n)
      modifies this`varToDir
      ensures forall v :: v in varToDir <==> v in old(varToDir) || v in list
      ensures forall v | v in varToDir :: varToDir[v] ==
                if v in old(varToDir) then old(varToDir)[v] else TablePort(forwarding.table, rank, host)
    {
      for i := 0 to |list|
        invariant forall v :: v in varToDir <==> v in old(varToDir) || v in list[..i]
        invariant forall v | v in varToDir :: varToDir[v] ==
                    if v in old(varToDir) then old(varToDir)[v] else TablePort(forwarding.table, rank, host)
      {
        var direction := Here;
        if host != rank {
          var info := forwarding.GetRoutingInfo(host);
          if info.next == UpRank(rank) {
            direction := Up;
          } else if info.next == 2 * rank + 1 {
            direction := Left;
          } else if info.next == 2 * rank + 2 {
            direction := Right;
          } else {
            assert false;
          }
        }
        if list[i] !in varToDir {
          varToDir := varToDir[list[i] := direction];
        }
      }
    }

    /** The neighbours, met in rank order, take the ports Up, Left, Right in turn. */
    method FillNeighbours(rank: nat, n: nat, forwarding: ForwardingTable) returns (direction: Direction)
      requires rank < n && rankToDir == map[] && dirToRank == map[]
      requires OneHopTable(forwarding.table, rank, n)
      modifies this`rankToDir, this`dirToRank
      ensures direction == PortAfter(rank, n)
      ensures Neighbours(Maps(rankToDir, dirToRank), rank, n)
    {
      rankToDir := rankToDir[rank := Here];
      direction := if rank == 0 then Left else Up;
      for x := 0 to n
        invariant direction == PortAfter(rank, x)
        invariant Neighbours(Maps(rankToDir, dirToRank), rank, x)
      {
        PortAfterStep(rank, x);
        if x != rank {
          var info := forwarding.GetRoutingInfo(x);
          if info.hops <= 1 {
            AddNeighbour(Maps(rankToDir, dirToRank), rank, x);
            rankToDir := rankToDir[x := direction];
            dirToRank := dirToRank[direction := x];
            direction := NextDirection(direction);
          }
        }
      }
    }

    /** Every other CLP shares the port of the neighbour on the way to it. */
    method FillClps(rank: nat, n: nat, forwarding: ForwardingTable)
      requires rank < n && Neighbours(Maps(rankToDir, dirToRank), rank, n)
      requires OneHopTable(forwarding.table, rank, n)
      modifies this`rankToDir
      ensures ClpsFilled(rankToDir, forwarding.table, rank, n, n)
    {
      NeighboursFirst(Maps(rankToDir, dirToRank), forwarding.table, rank, n);
      for x := 0 to n
        invariant ClpsFilled(rankToDir, forwarding.table, rank, n, x)
      {
        if x !in rankToDir {
          var info := forwarding.GetRoutingInfo(x);
          if info.hops > 1 {
            var newDirection := rankToDir[info.next];
            AddClp(rankToDir, forwarding.table, rank, n, x, newDirection);
            rankToDir := rankToDir[x := newDirection];
          }
        }
      }
    }

    /** Attached ALPs take the remaining ports; the others go the way of their CLP. */
    method FillAlps(rank: nat, l: Layout, firstFree: Direction)
      requires ValidLayout(l) && PortsSuffice(l, rank) && firstFree == PortAfter(rank, l.n)
      requires forall x :: x in rankToDir <==> 0 <= x < l.n
      requires NeighbourPorts(dirToRank, rank, l.n)
      modifies this`rankToDir, this`dirToRank
      ensures AlpsFilled(rankToDir, old(rankToDir), l, rank, l.Size())
      ensures OwnAlps(Maps(rankToDir, dirToRank), l, rank, l.Size())
      ensures NeighbourPorts(dirToRank, rank, l.n)
    {
      var direction := firstFree;
      for a := l.n to l.Size()
        invariant direction.Ordinal() == PortAfter(rank, l.n).Ordinal() + Attached(l, rank, a)
        invariant AlpsFilled(rankToDir, old(rankToDir), l, rank, a)
        invariant OwnAlps(Maps(rankToDir, dirToRank), l, rank, a)
        invariant NeighbourPorts(dirToRank, rank, l.n)
      {
        AttachedMonotone(l, rank, a + 1, l.Size());
        if l.ClpOf(a) == rank {
          AddOwnAlp(Maps(rankToDir, dirToRank), l, rank, a, direction);
          rankToDir := rankToDir[a := direction];
          dirToRank := dirToRank[direction := a];
          direction := NextDirection(direction);
        } else {
          var newDirection := rankToDir[l.ClpOf(a)];
          AddOtherAlp(Maps(rankToDir, dirToRank), old(rankToDir), l, rank, a);
          rankToDir := rankToDir[a := newDirection];
        }
      }
    }

    /** Migration overwrites one entry. */
    method SetSsvIdHost(v: nat, d: Direction)
      modifies this`varToDir
      ensures varToDir == old(varToDir)[v := d]
    {
      varToDir := varToDir[v := d];
    }

    /** The source reports a missing variable as DIRECTION_SIZE. */
    method GetDirectionFromSsvId(v: nat) returns (d: Direction)
      ensures d == if v in varToDir then varToDir[v] else DirectionSize
    {
      if v in varToDir { d := varToDir[v]; } else { d := DirectionSize; }
    }
  }

  /** The router's choice for a message addressed by rank or by variable. */
  datatype Choice = Deliver | Forward(to: nat) | NoRoute

  method RouteByRank(t: RouteTable, l: Layout, r: nat, d: nat) returns (c: Choice)
    requires ValidLayout(l) && r < l.n && d < l.Size()
    requires Routes(Maps(t.rankToDir, t.dirToRank), l, r)
    ensures c == if d == r then Deliver else Forward(FirstHop(l, r, d))
  {
    var direction := t.rankToDir[d];
    if direction == Here { return Deliver; }
    c := Forward(t.dirToRank[direction]);
  }

  /** By variable: the source exits the process when the variable is unknown. */
  method RouteByVariable(t: RouteTable, l: Layout, r: nat, v: nat) returns (c: Choice)
    requires ValidLayout(l) && r < l.n
    requires Routes(Maps(t.rankToDir, t.dirToRank), l, r)
    requires v in t.varToDir ==> exists h | 0 <= h < l.n :: t.varToDir[v] == DirTo(r, h)
    ensures v !in t.varToDir ==> c == NoRoute
    ensures v in t.varToDir && t.varToDir[v] == Here ==> c == Deliver
    ensures v in t.varToDir && t.varToDir[v] != Here ==>
              c.Forward? && forall h | 0 <= h < l.n && t.varToDir[v] == DirTo(r, h) :: c.to == Toward(r, h)
  {
    var direction := t.GetDirectionFromSsvId(v);
    if direction == DirectionSize { return NoRoute; }
    if direction == Here { return Deliver; }
    forall h | 0 <= h < l.n && direction == DirTo(r, h)
      ensures direction in t.dirToRank && t.dirToRank[direction] == Toward(r, h)
    {
      assert t.rankToDir[h] == direction;
    }
    c := Forward(t.dirToRank[direction]);
  }

  // ---- lemmas ----

  /** Every neighbour of r below k is reached through its port. */
  ghost predicate NeighbourPorts(dirToRank: map<Direction, nat>, r: nat, k: nat)
  {
    forall y | 0 <= y < k && Adjacent(r, y) :: Port(r, y) in dirToRank && dirToRank[Port(r, y)] == y
  }

  /** Exactly the neighbours of r below k are in the maps, each behind its own port. */
  ghost predicate Neighbours(m: Maps, r: nat, k: nat)
  {
    && (forall y :: y in m.rankToDir <==> y == r || (0 <= y < k && Adjacent(r, y)))
    && (forall y | y in m.rankToDir :: m.rankToDir[y] == if y == r then Here else Port(r, y))
    && NeighbourPorts(m.dirToRank, r, k)
  }

  lemma PortAfterStep(r: nat, k: nat)
    ensures Adjacent(r, k) ==>
              && PortAfter(r, k) == Port(r, k) != DirectionSize
              && PortAfter(r, k + 1) == NextDirection(PortAfter(r, k))
    ensures !Adjacent(r, k) ==> PortAfter(r, k + 1) == PortAfter(r, k)
  {
  }

  lemma PortsInOrder(r: nat, y: nat, k: nat)
    requires Adjacent(r, y) && y < k
    ensures Here.Ordinal() < Port(r, y).Ordinal() < PortAfter(r, k).Ordinal()
  {
  }

  lemma {:induction false} AddNeighbour(m: Maps, r: nat, x: nat)
    requires Neighbours(m, r, x) && x != r && Adjacent(r, x)
    ensures Neighbours(Maps(m.rankToDir[x := Port(r, x)], m.dirToRank[Port(r, x) := x]), r, x + 1)
  {
    forall y | 0 <= y < x && Adjacent(r, y)
      ensures Port(r, y) != Port(r, x)
    {
      PortsInOrder(r, y, x);
      PortAfterStep(r, x);
    }
  }

  function TablePort(t: map<nat, RoutingInfo>, r: nat, x: nat): Direction
    requires x in t
  {
    if x == r then Here else Port(r, t[x].next)
  }

  /** The CLPs below k and the neighbours have their port. */
  ghost predicate ClpsFilled(rankToDir: map<nat, Direction>, t: map<nat, RoutingInfo>, r: nat, n: nat, k: nat)
    requires OneHopTable(t, r, n)
  {
    && (forall y {:trigger rankToDir[y]} | y in rankToDir :: y < n && rankToDir[y] == TablePort(t, r, y))
    && (forall y | 0 <= y < n && (y < k || y == r || Adjacent(r, y)) :: y in rankToDir)
  }

  lemma {:induction false} NeighboursFirst(m: Maps, t: map<nat, RoutingInfo>, r: nat, n: nat)
    requires r < n && OneHopTable(t, r, n) && Neighbours(m, r, n)
    ensures ClpsFilled(m.rankToDir, t, r, n, 0)
  {
    forall y | y in m.rankToDir
      ensures y < n && m.rankToDir[y] == TablePort(t, r, y)
    {
      assert y == r || t[y].next == y;
    }
  }

  lemma {:induction false} AddClp(m: map<nat, Direction>, t: map<nat, RoutingInfo>, r: nat, n: nat, x: nat, d: Direction)
    requires OneHopTable(t, r, n) && x < n && x !in m && ClpsFilled(m, t, r, n, x)
    requires t[x].next in m && d == m[t[x].next]
    ensures ClpsFilled(m[x := d], t, r, n, x + 1)
  {
    assert d == TablePort(t, r, t[x].next);
    assert t[t[x].next].next == t[x].next;
  }

  /** The CLPs keep their port, and the ALPs below k that are not r's go the way of their
      CLP. */
  ghost predicate AlpsFilled(rankToDir: map<nat, Direction>, clps: map<nat, Direction>, l: Layout, r: nat, k: nat)
    requires ValidLayout(l) && l.n <= k <= l.Size()
    requires forall x :: x in clps <==> 0 <= x < l.n
  {
    && (forall x :: x in rankToDir <==> 0 <= x < k)
    && (forall x {:trigger rankToDir[x]} | 0 <= x < l.n :: rankToDir[x] == clps[x])
    && (forall x {:trigger rankToDir[x]} | l.n <= x < k && l.ClpOf(x) != r :: rankToDir[x] == clps[l.ClpOf(x)])
  }

  /** The ALPs of r below k are behind the ports from the first free one on. */
  ghost predicate OwnAlps(m: Maps, l: Layout, r: nat, k: nat)
    requires l.n <= k <= l.Size()
  {
    forall x {:trigger m.rankToDir[x]} | l.n <= x < k && l.ClpOf(x) == r ::
      && x in m.rankToDir
      && PortAfter(r, l.n).Ordinal() <= m.rankToDir[x].Ordinal()
      && m.rankToDir[x].Ordinal() < PortAfter(r, l.n).Ordinal() + Attached(l, r, k)
      && m.rankToDir[x] in m.dirToRank && m.dirToRank[m.rankToDir[x]] == x
  }

  lemma {:induction false} AddOwnAlp(m: Maps, l: Layout, r: nat, a: nat, d: Direction)
    requires l.n <= a < l.Size() && l.ClpOf(a) == r
    requires OwnAlps(m, l, r, a) && NeighbourPorts(m.dirToRank, r, l.n)
    requires d.Ordinal() == PortAfter(r, l.n).Ordinal() + Attached(l, r, a)
    ensures OwnAlps(Maps(m.rankToDir[a := d], m.dirToRank[d := a]), l, r, a + 1)
    ensures NeighbourPorts(m.dirToRank[d := a], r, l.n)
  {
    forall y | 0 <= y < l.n && Adjacent(r, y)
      ensures Port(r, y) != d
    {
      PortsInOrder(r, y, l.n);
    }
    var m' := Maps(m.rankToDir[a := d], m.dirToRank[d := a]);
    forall x | l.n <= x < a && l.ClpOf(x) == r
      ensures m'.rankToDir[x] == m.rankToDir[x] != d
    {
    }
  }

  lemma {:induction false} AddOtherAlp(m: Maps, clps: map<nat, Direction>, l: Layout, r: nat, a: nat)
    requires ValidLayout(l) && l.n <= a < l.Size() && l.ClpOf(a) != r
    requires forall x :: x in clps <==> 0 <= x < l.n
    requires AlpsFilled(m.rankToDir, clps, l, r, a) && OwnAlps(m, l, r, a)
    ensures l.ClpOf(a) in m.rankToDir
    ensures AlpsFilled(m.rankToDir[a := m.rankToDir[l.ClpOf(a)]], clps, l, r, a + 1)
    ensures OwnAlps(Maps(m.rankToDir[a := m.rankToDir[l.ClpOf(a)]], m.dirToRank), l, r, a + 1)
  {
    assert m.rankToDir[l.ClpOf(a)] == clps[l.ClpOf(a)];
  }

  lemma {:induction false} FilledRoutes(m: Maps, clps: map<nat, Direction>, l: Layout, r: nat, t: map<nat, RoutingInfo>)
    requires ValidLayout(l) && r < l.n && OneHopTable(t, r, l.n)
    requires ClpsFilled(clps, t, r, l.n, l.n)
    requires AlpsFilled(m.rankToDir, clps, l, r, l.Size()) && OwnAlps(m, l, r, l.Size())
    requires NeighbourPorts(m.dirToRank, r, l.n)
    requires PortsSuffice(l, r) && forall x | 0 <= x < l.n && x != r :: t[x].next == Toward(r, x)
    ensures Routes(m, l, r)
  {
    forall x: nat | x < l.Size() && x != r
      ensures x >= l.n ==> AlpPort(m.rankToDir[x], l, r, x)
      ensures m.rankToDir[x] != Here && m.rankToDir[x] in m.dirToRank
      ensures m.dirToRank[m.rankToDir[x]] == FirstHop(l, r, x)
    {
      if x >= l.n && l.ClpOf(x) == r {
        OwnPort(m, l, r, x);
      } else {
        SharedPort(m, clps, l, r, t, x);
      }
    }
  }

  /** An ALP of r has a port to itself. */
  lemma {:induction false} OwnPort(m: Maps, l: Layout, r: nat, x: nat)
    requires ValidLayout(l) && r < l.n && OwnAlps(m, l, r, l.Size()) && PortsSuffice(l, r)
    requires l.n <= x < l.Size() && l.ClpOf(x) == r
    ensures x in m.rankToDir && AlpPort(m.rankToDir[x], l, r, x)
    ensures m.rankToDir[x] != Here && m.rankToDir[x] in m.dirToRank
    ensures m.dirToRank[m.rankToDir[x]] == FirstHop(l, r, x)
  {
    assert m.rankToDir[x].Ordinal() >= 1;
  }

  /** A rank that is not behind a port of its own shares its CLP's. */
  lemma {:induction false} SharedPort(m: Maps, clps: map<nat, Direction>, l: Layout, r: nat, t: map<nat, RoutingInfo>, x: nat)
    requires ValidLayout(l) && r < l.n && OneHopTable(t, r, l.n) && ClpsFilled(clps, t, r, l.n, l.n)
    requires AlpsFilled(m.rankToDir, clps, l, r, l.Size()) && NeighbourPorts(m.dirToRank, r, l.n)
    requires forall x | 0 <= x < l.n && x != r :: t[x].next == Toward(r, x)
    requires x < l.Size() && x != r && (x >= l.n ==> l.ClpOf(x) != r)
    ensures x >= l.n ==> AlpPort(m.rankToDir[x], l, r, x)
    ensures m.rankToDir[x] != Here && m.rankToDir[x] in m.dirToRank
    ensures m.dirToRank[m.rankToDir[x]] == FirstHop(l, r, x)
  {
    var c := if x < l.n then x else l.ClpOf(x);
    assert m.rankToDir[x] == clps[c] == TablePort(t, r, c);
    assert Adjacent(r, t[c].next);
  }

  lemma {:induction false} NeighbourIffOneHop(r: nat, x: nat)
    requires r != x
    ensures Dist(r, x) <= 1 <==> Adjacent(r, x)
  {
    TowardAdjacent(r, x);
    HopChangesDist(r, x, Toward(r, x));
    if Adjacent(r, x) {
      AdjacentDist(r, x);
    }
  }

  lemma {:induction false} AttachedMonotone(l: Layout, r: nat, a: nat, b: nat)
    requires a <= b <= l.Size()
    ensures Attached(l, r, a) <= Attached(l, r, b)
    decreases b
  {
    if a < b {
      AttachedMonotone(l, r, a, b - 1);
    }
  }

  lemma {:induction false} PortOfFirstHop(r: nat, x: nat, n: nat)
    requires r != x && r < n && x < n
    ensures Adjacent(r, Toward(r, x)) && Toward(r, x) < n
  {
    TowardAdjacent(r, x);
  }

  /** The hops a message addressed to rank d makes from CLP c, through the tables. */
  function Trip(tables: seq<Maps>, l: Layout, c: nat, d: nat, fuel: nat): seq<nat>
    decreases fuel
  {
    if fuel == 0 || c >= |tables| || d !in tables[c].rankToDir then []
    else if tables[c].rankToDir[d] == Here then []
    else if tables[c].rankToDir[d] !in tables[c].dirToRank then []
    else
      var next := tables[c].dirToRank[tables[c].rankToDir[d]];
      [next] + Trip(tables, l, next, d, fuel - 1)
  }

  /** Tree distance from CLP c to rank d, counting the last hop to an ALP. */
  function Distance(l: Layout, c: nat, d: nat): nat
    requires d < l.Size()
  {
    if d < l.n then Dist(c, d) else Dist(c, l.ClpOf(d)) + 1
  }

  /** One hop of a trip goes to the first hop, which is one closer. */
  lemma {:induction false} TripStep(tables: seq<Maps>, l: Layout, c: nat, d: nat, fuel: nat)
    requires ValidLayout(l) && |tables| == l.n && c < l.n && d < l.Size() && c != d
    requires Routes(tables[c], l, c) && fuel > 0
    ensures Trip(tables, l, c, d, fuel) == [FirstHop(l, c, d)] + Trip(tables, l, FirstHop(l, c, d), d, fuel - 1)
    ensures if FirstHop(l, c, d) < l.n then Distance(l, FirstHop(l, c, d), d) + 1 == Distance(l, c, d)
            else FirstHop(l, c, d) == d && Distance(l, c, d) == 1
  {
    if d < l.n || l.ClpOf(d) != c {
      var target := if d < l.n then d else l.ClpOf(d);
      PortOfFirstHop(c, target, l.n);
      HopChangesDist(c, target, FirstHop(l, c, d));
    } else {
      assert Dist(c, c) == 0;
    }
  }

  /** Routing by rank always arrives, after exactly the tree distance, from every CLP to
      every CLP and every ALP; more steps than that are never taken. */
  lemma {:induction false} RoutingArrives(tables: seq<Maps>, l: Layout, c: nat, d: nat, fuel: nat)
    requires ValidLayout(l) && |tables| == l.n && c < l.n && d < l.Size()
    requires forall r | 0 <= r < l.n :: Routes(tables[r], l, r)
    requires fuel >= Distance(l, c, d)
    ensures |Trip(tables, l, c, d, fuel)| == Distance(l, c, d)
    ensures c != d ==> Trip(tables, l, c, d, fuel)[Distance(l, c, d) - 1] == d
    decreases fuel
  {
    if c == d {
      assert Routes(tables[c], l, c);
    } else {
      var next := FirstHop(l, c, d);
      TripStep(tables, l, c, d, fuel);
      if next < l.n {
        RoutingArrives(tables, l, next, d, fuel - 1);
      }
    }
  }
}
