/** Which variables a CLP gives away, and why that pays off. */
module AccessCost {
  import opened Base
  import opened Tree
  import opened RouteTable
  import opened Migration

  // src/lp/AccessCostCalculator.cpp.

  type Counters = map<nat, map<Direction, nat>>

  /** A count that is not there is 0. */
  function CountOf(m: Counters, d: Direction, v: nat): nat
  {
    if v in m && d in m[v] then m[v][d] else 0
  }

  function Total(m: Counters, v: nat): nat
  {
    CountOf(m, Up, v) + CountOf(m, Left, v) + CountOf(m, Right, v)
  }

  /** Accesses times hops, port by port. */
  function Cost(access: Counters, hops: Counters, v: nat): nat
  {
    CountOf(access, Up, v) * CountOf(hops, Up, v)
    + CountOf(access, Left, v) * CountOf(hops, Left, v)
    + CountOf(access, Right, v) * CountOf(hops, Right, v)
  }

  /** What the decision depends on. */
  datatype Tally = Tally(access: Counters, hops: Counters, isParentClp: bool, portThreshold: nat)

  predicate IsPort(d: Direction)
  {
    d == Up || d == Left || d == Right
  }

  /** A variable worth moving goes where more than two thirds of its accesses come from;
      the bottom CLPs, which have ALPs below them, only give upwards. */
  predicate Chosen(t: Tally, v: nat, d: Direction)
  {
    && IsPort(d) && Cost(t.access, t.hops, v) > t.portThreshold
    && CountOf(t.access, d, v) > 2 * (Total(t.access, v) - CountOf(t.access, d, v))
    && (!t.isParentClp || d == Up)
  }

  function Selected(t: Tally, vs: seq<nat>, d: Direction): (r: seq<nat>)
    ensures forall v :: v in r <==> v in vs && Chosen(t, v, d)
  {
    if vs == [] then []
    else Selected(t, vs[..|vs| - 1], d) + if Chosen(t, vs[|vs| - 1], d) then [vs[|vs| - 1]] else []
  }

  /** Exactly the directions that are chosen for something, each with its variables. */
  ghost predicate IsMigrationMap(r: map<Direction, seq<nat>>, t: Tally, vs: seq<nat>)
  {
    && (forall d :: d in r <==> Selected(t, vs, d) != [])
    && (forall d | d in r :: r[d] == Selected(t, vs, d))
  }

  function CeilLog2(m: nat): (k: nat)
    ensures m <= Pow2(k) && (k > 0 ==> Pow2(k - 1) < m)
  {
    if m <= 1 then 0 else CeilLog2((m + 1) / 2) + 1
  }

  function FloorLog2(m: nat): (k: nat)
    requires m > 0
    ensures Pow2(k) <= m < Pow2(k + 1)
  {
    if m == 1 then 0 else FloorLog2(m / 2) + 1
  }

  function Pow2(k: nat): (p: nat)
    ensures p > 0
  {
    if k == 0 then 1 else 2 * Pow2(k - 1)
  }

  /** How often port d occurs. */
  function Times(past: seq<Direction>, d: Direction): nat
  {
    if past == [] then 0 else Times(past[..|past| - 1], d) + if past[|past| - 1] == d then 1 else 0
  }

  /** The access counters of v are the ports its accesses came through. */
  ghost predicate Tracked(access: Counters, hops: Counters, past: map<nat, seq<Direction>>, v: nat)
  {
    && v in access && v in hops && v in past
    && forall d | IsPort(d) :: CountOf(access, d, v) == Times(past[v], d)
  }

  /** Every variable is listed once and has its counters. */
  ghost predicate AllTracked(list: seq<nat>, access: Counters, hops: Counters, past: map<nat, seq<Direction>>)
  {
    && (forall i, j | 0 <= i < j < |list| :: list[i] != list[j])
    && (forall v :: v in past <==> v in list)
    && (forall v {:trigger Tracked(access, hops, past, v)} | v in list :: Tracked(access, hops, past, v))
  }

  function Raised(m: Counters, v: nat, d: Direction, k: nat): Counters
    requires v in m
  {
    var raised: nat := CountOf(m, d, v) + k;
    var ofV: map<Direction, nat> := m[v];
    var ofV': map<Direction, nat> := ofV[d := raised];
    m[v := ofV']
  }

  lemma RaisedCounts(m: Counters, v: nat, d: Direction, k: nat)
    requires v in m
    ensures forall w, e :: CountOf(Raised(m, v, d, k), e, w) == CountOf(m, e, w) + if w == v && e == d then k else 0
  {
  }

  lemma {:induction false} OneMoreAccess(list: seq<nat>, access: Counters, hops: Counters, past: map<nat, seq<Direction>>,
                                         v: nat, d: Direction, k: nat)
    requires AllTracked(list, access, hops, past) && v in list && Tracked(access, hops, past, v)
    ensures AllTracked(list, Raised(access, v, d, 1), Raised(hops, v, d, k), Recorded(past, v, d))
  {
    assert (past[v] + [d])[..|past[v]|] == past[v];
    forall w | w in list
      ensures Tracked(Raised(access, v, d, 1), Raised(hops, v, d, k), Recorded(past, v, d), w)
    {
      assert Tracked(access, hops, past, w);
    }
  }

  lemma {:induction false} OneLess(list: seq<nat>, access: Counters, hops: Counters, past: map<nat, seq<Direction>>, v: nat, i: nat)
    requires AllTracked(list, access, hops, past) && i < |list| && list[i] == v
    ensures AllTracked(list[..i] + list[i + 1..], access - {v}, hops - {v}, past - {v})
  {
    var rest := list[..i] + list[i + 1..];
    assert forall w :: w in rest <==> w in list && w != v;
    forall w | w in rest
      ensures Tracked(access - {v}, hops - {v}, past - {v}, w)
    {
      assert Tracked(access, hops, past, w);
    }
  }

  function Recorded(past: map<nat, seq<Direction>>, v: nat, d: Direction): map<nat, seq<Direction>>
  {
    if v in past then past[v := past[v] + [d]] else past
  }

  /** vs without its only v. */
  ghost predicate Unlisted(vs: seq<nat>, v: nat, rest: seq<nat>)
  {
    exists i | 0 <= i < |vs| :: vs[i] == v && rest == vs[..i] + vs[i + 1..]
  }

  lemma {:induction false} UnlistedIs(vs: seq<nat>, v: nat, rest: seq<nat>)
    requires forall i, j | 0 <= i < j < |vs| :: vs[i] != vs[j]
    requires if v in vs then Unlisted(vs, v, rest) else rest == vs
    ensures forall w :: w in rest <==> w in vs && w != v
  {
    if v in vs {
      var i :| 0 <= i < |vs| && vs[i] == v && rest == vs[..i] + vs[i + 1..];
      assert vs == vs[..i] + [v] + vs[i + 1..];
    }
  }

  class AccessCostCalculator {
    ghost const rank: nat
    ghost const numberOfClps: nat
    const isParentClp: bool
    const portThreshold: nat
    var ssvList: seq<nat>
    var accessMap: Counters
    var hopMap: Counters
    var clpLoad: nat
    var lpThreshold: nat
    /** The ports the accesses to a variable came through since it came here. */
    ghost var past: map<nat, seq<Direction>>

    ghost predicate Valid()
      reads this
    {
      && rank < numberOfClps && isParentClp == (CeilLog2(numberOfClps + 1) == CeilLog2(rank + 2))
      && portThreshold == FloorLog2(numberOfClps) && lpThreshold == |ssvList| * portThreshold
      && AllTracked(ssvList, accessMap, hopMap, past)
    }

    ghost function View(): Tally
      reads this
    {
      Tally(accessMap, hopMap, isParentClp, portThreshold)
    }

    /** log2 in floating point, where the numbers of processes are exact. */
    constructor (rank: nat, numberOfClps: nat)
      requires rank < numberOfClps
      ensures Valid() && ssvList == [] && View() == Tally(map[], map[],
                CeilLog2(numberOfClps + 1) == CeilLog2(rank + 2), FloorLog2(numberOfClps))
      ensures this.rank == rank && this.numberOfClps == numberOfClps
    {
      this.rank, this.numberOfClps := rank, numberOfClps;
      isParentClp := CeilLog2(numberOfClps + 1) == CeilLog2(rank + 2);
      portThreshold := FloorLog2(numberOfClps);
      ssvList, accessMap, hopMap, clpLoad, lpThreshold, past := [], map[], map[], 0, 0, map[];
    }

    method InitialiseCounters(v: nat)
      requires Valid()
      modifies this
      ensures Valid() && ssvList == (if v in old(ssvList) then old(ssvList) else old(ssvList) + [v])
      ensures v in past && past == old(past)[v := []] && clpLoad == old(clpLoad)
      ensures accessMap == old(accessMap)[v := map[Up := 0, Left := 0, Right := 0]]
      ensures hopMap == old(hopMap)[v := map[Up := 0, Left := 0, Right := 0]]
    {
      if v !in ssvList {
        ssvList := ssvList + [v];
        lpThreshold := |ssvList| * portThreshold;
      }
      accessMap := accessMap[v := map[Up := 0, Left := 0, Right := 0]];
      hopMap := hopMap[v := map[Up := 0, Left := 0, Right := 0]];
      past := past[v := []];
      forall w | w in ssvList
        ensures Tracked(accessMap, hopMap, past, w)
      {
        assert w != v ==> old(Tracked(accessMap, hopMap, past, w));
      }
    }

    /** One access through port d over the given hops (SharedState::UpdateAccessCount). For a
        variable that is not listed the source logs, but counts the load. */
    method RecordAccess(v: nat, d: Direction, hops: nat)
      requires Valid()
      modifies this
      ensures Valid() && ssvList == old(ssvList) && clpLoad == old(clpLoad) + hops
      ensures past == Recorded(old(past), v, d)
      ensures v !in ssvList ==> accessMap == old(accessMap) && hopMap == old(hopMap)
      ensures v in ssvList ==>
                && (forall w, e :: CountOf(hopMap, e, w) == CountOf(old(hopMap), e, w) + if w == v && e == d then hops else 0)
                && (forall w, e :: CountOf(accessMap, e, w) == CountOf(old(accessMap), e, w) + if w == v && e == d then 1 else 0)
    {
      if v in ssvList {
        assert Tracked(accessMap, hopMap, past, v);
        RaisedCounts(accessMap, v, d, 1);
        RaisedCounts(hopMap, v, d, hops);
        RecordListed(v, d, hops);
      } else {
        var oldAccess, oldHops := 0, 0;
        clpLoad := clpLoad + (hops + oldHops - oldHops) * (oldAccess + 1 - oldAccess);
      }
    }

    method RecordListed(v: nat, d: Direction, hops: nat)
      requires Valid() && v in ssvList
      modifies this
      ensures Valid() && ssvList == old(ssvList) && clpLoad == old(clpLoad) + hops
      ensures past == Recorded(old(past), v, d)
      ensures v in old(accessMap) && accessMap == Raised(old(accessMap), v, d, 1)
      ensures v in old(hopMap) && hopMap == Raised(old(hopMap), v, d, hops)
    {
      assert Tracked(accessMap, hopMap, past, v);
      OneMoreAccess(ssvList, accessMap, hopMap, past, v, d, hops);
      var oldAccess := CountOf(accessMap, d, v);
      var oldHops := CountOf(hopMap, d, v);
      var newAccess: nat, newHops: nat := oldAccess + 1, oldHops + hops;
      var accessOfV: map<Direction, nat>, hopsOfV: map<Direction, nat> := accessMap[v], hopMap[v];
      accessOfV, hopsOfV := accessOfV[d := newAccess], hopsOfV[d := newHops];
      accessMap, hopMap := accessMap[v := accessOfV], hopMap[v := hopsOfV];
      clpLoad := clpLoad + (newHops - oldHops) * (newAccess - oldAccess);
      past := Recorded(past, v, d);
    }

    /** The three removals SharedState::Delete makes; each leaves what is not listed alone. */
    method Remove(v: nat)
      requires Valid()
      modifies this
      ensures Valid() && clpLoad == old(clpLoad)
      ensures v !in old(ssvList) ==>
                ssvList == old(ssvList) && accessMap == old(accessMap) && hopMap == old(hopMap) && past == old(past)
      ensures v in old(ssvList) ==>
                && Unlisted(old(ssvList), v, ssvList)
                && accessMap == old(accessMap) - {v} && hopMap == old(hopMap) - {v} && past == old(past) - {v}
    {
      if v in ssvList {
        RemoveListed(v);
      } else {
        lpThreshold := |ssvList| * portThreshold;
      }
    }

    method RemoveListed(v: nat)
      requires Valid() && v in ssvList
      modifies this
      ensures Valid() && clpLoad == old(clpLoad) && Unlisted(old(ssvList), v, ssvList)
      ensures accessMap == old(accessMap) - {v} && hopMap == old(hopMap) - {v} && past == old(past) - {v}
    {
      accessMap, hopMap, past := accessMap - {v}, hopMap - {v}, past - {v};
      var i := 0;
      while ssvList[i] != v
        invariant 0 <= i < |ssvList| && ssvList == old(ssvList) && v !in ssvList[..i] && clpLoad == old(clpLoad)
        invariant accessMap == old(accessMap) - {v} && hopMap == old(hopMap) - {v} && past == old(past) - {v}
        decreases |ssvList| - i
      {
        i := i + 1;
      }
      OneLess(ssvList, old(accessMap), old(hopMap), old(past), v, i);
      ssvList := ssvList[..i] + ssvList[i + 1..];
      lpThreshold := |ssvList| * portThreshold;
    }

    /** Whether there is load enough to move anything; it is counted anew from here. */
    method CheckClpLoad() returns (enough: bool)
      modifies this`clpLoad
      ensures enough <==> old(clpLoad) > lpThreshold
      ensures clpLoad == 0
    {
      enough := clpLoad > lpThreshold;
      clpLoad := 0;
    }

    method GetMigrationMap() returns (r: map<Direction, seq<nat>>)
      modifies this`clpLoad
      ensures IsMigrationMap(r, View(), ssvList) && clpLoad == 0
    {
      r := map[];
      var i: nat := 0;
      while i < |ssvList|
        modifies {}
        invariant i <= |ssvList| && IsMigrationMap(r, View(), ssvList[..i])
      {
        assert ssvList[..i + 1][..i] == ssvList[..i];
        r := Place(ssvList[i], r, ssvList[..i]);
        assert ssvList[..i + 1] == ssvList[..i] + [ssvList[i]];
        i := i + 1;
      }
      assert ssvList[..i] == ssvList;
      clpLoad := 0;
    }

    /** One variable: add up over the ports, then try each port. */
    method Place(v: nat, placed: map<Direction, seq<nat>>, ghost before: seq<nat>) returns (r: map<Direction, seq<nat>>)
      requires IsMigrationMap(placed, View(), before)
      ensures IsMigrationMap(r, View(), before + [v])
    {
      r := placed;
      var hopCost, accessCost, portAccessCost := 0, 0, 0;
      var direction := Up;
      while direction != DirectionSize
        invariant direction != Here
        invariant accessCost == SumBelow(accessMap, direction, v)
        invariant portAccessCost == CostBelow(accessMap, hopMap, direction, v)
        decreases 4 - direction.Ordinal()
      {
        hopCost := hopCost + CountOf(hopMap, direction, v);
        accessCost := accessCost + CountOf(accessMap, direction, v);
        portAccessCost := portAccessCost + CountOf(accessMap, direction, v) * CountOf(hopMap, direction, v);
        direction := NextDirection(direction);
      }
      if portAccessCost > portThreshold {
        r := TryPorts(v, accessCost, placed, before);
      }
      AllTried(r, View(), before, v);
    }

    method TryPorts(v: nat, accessCost: nat, placed: map<Direction, seq<nat>>, ghost before: seq<nat>)
      returns (r: map<Direction, seq<nat>>)
      requires accessCost == Total(accessMap, v) && Cost(accessMap, hopMap, v) > portThreshold
      requires PlacedBelow(placed, View(), before, v, Up)
      ensures PlacedBelow(r, View(), before, v, DirectionSize)
    {
      r := placed;
      var direction := Up;
      while direction != DirectionSize
        invariant direction != Here && PlacedBelow(r, View(), before, v, direction)
        decreases 4 - direction.Ordinal()
      {
        var count := CountOf(accessMap, direction, v);
        if count > 2 * (accessCost - count) && (!isParentClp || direction == Up) {
          r := r[direction := (if direction in r then r[direction] else []) + [v]];
        }
        direction := NextDirection(direction);
      }
    }
  }

  lemma {:induction false} AllTried(r: map<Direction, seq<nat>>, t: Tally, before: seq<nat>, v: nat)
    requires PlacedBelow(r, t, before, v, DirectionSize)
             || (PlacedBelow(r, t, before, v, Up) && forall d :: !Chosen(t, v, d))
    ensures IsMigrationMap(r, t, before + [v])
  {
    var all := before + [v];
    assert all[..|before|] == before;
    forall d: Direction
      ensures Selected(t, all, d) == Selected(t, before, d) + if Chosen(t, v, d) then [v] else []
      ensures Chosen(t, v, d) ==> d.Ordinal() < DirectionSize.Ordinal()
    {
    }
  }

  function SumBelow(m: Counters, d: Direction, v: nat): nat
  {
    match d
    case Here => 0
    case Up => 0
    case Left => CountOf(m, Up, v)
    case Right => CountOf(m, Up, v) + CountOf(m, Left, v)
    case DirectionSize => Total(m, v)
  }

  function CostBelow(access: Counters, hops: Counters, d: Direction, v: nat): nat
  {
    match d
    case Here => 0
    case Up => 0
    case Left => CountOf(access, Up, v) * CountOf(hops, Up, v)
    case Right => CountOf(access, Up, v) * CountOf(hops, Up, v) + CountOf(access, Left, v) * CountOf(hops, Left, v)
    case DirectionSize => Cost(access, hops, v)
  }

  /** v has been tried for the ports before bound. */
  ghost predicate PlacedBelow(r: map<Direction, seq<nat>>, t: Tally, before: seq<nat>, v: nat, bound: Direction)
  {
    forall d {:trigger Selected(t, before, d)} ::
      var list := Selected(t, before, d) + if Chosen(t, v, d) && d.Ordinal() < bound.Ordinal() then [v] else [];
      (d in r <==> list != []) && (d in r ==> r[d] == list)
  }

  // ---- what the decision is worth ----

  /** No variable is sent two ways ... */
  lemma ChosenOnce(t: Tally, v: nat, d: Direction, e: Direction)
    requires Chosen(t, v, d) && Chosen(t, v, e)
    ensures d == e
  {
  }

  lemma {:induction false} SelectedOnce(t: Tally, vs: seq<nat>, d: Direction)
    requires forall i, j | 0 <= i < j < |vs| :: vs[i] != vs[j]
    ensures forall i, j | 0 <= i < j < |Selected(t, vs, d)| :: Selected(t, vs, d)[i] != Selected(t, vs, d)[j]
  {
    if vs != [] {
      var front := vs[..|vs| - 1];
      SelectedOnce(t, front, d);
      assert vs[|vs| - 1] !in front;
    }
  }

  /** ... or twice the same way: over all directions it is listed at most once. */
  lemma {:induction false} ListedOnce(r: map<Direction, seq<nat>>, t: Tally, vs: seq<nat>, d: Direction, e: Direction, i: nat, j: nat)
    requires IsMigrationMap(r, t, vs) && forall i, j | 0 <= i < j < |vs| :: vs[i] != vs[j]
    requires d in r && e in r && i < |r[d]| && j < |r[e]| && r[d][i] == r[e][j]
    ensures d == e && i == j
  {
    assert r[d][i] in Selected(t, vs, d) && r[e][j] in Selected(t, vs, e);
    ChosenOnce(t, r[d][i], d, e);
    SelectedOnce(t, vs, d);
  }

  lemma {:induction false} Pow2Monotone(a: nat, b: nat)
    requires a < b
    ensures 2 * Pow2(a) <= Pow2(b)
    decreases b
  {
    if a + 1 < b { Pow2Monotone(a, b - 1); }
  }

  lemma {:induction false} CeilLog2Is(m: nat, k: nat)
    requires Pow2(k) >= m && (k > 0 ==> Pow2(k - 1) < m)
    ensures CeilLog2(m) == k
  {
    var c := CeilLog2(m);
    if c < k {
      if c < k - 1 { Pow2Monotone(c, k - 1); }
    } else if c > k {
      if k < c - 1 { Pow2Monotone(k, c - 1); }
    }
  }

  /** In a full tree the two logarithms agree exactly on the bottom level. */
  lemma {:induction false} BottomLevel(rank: nat, n: nat, k: nat)
    requires k > 0 && n == Pow2(k) - 1 && rank < n
    ensures CeilLog2(n + 1) == CeilLog2(rank + 2) <==> rank >= n / 2
  {
    CeilLog2Is(n + 1, k);
    if CeilLog2(rank + 2) == k {
      assert Pow2(k - 1) < rank + 2;
    } else if rank >= n / 2 {
      CeilLog2Is(rank + 2, k);
    }
  }

  /** A full tree's inner CLPs have both children below n. */
  lemma InnerHasChildren(rank: nat, n: nat, k: nat)
    requires k > 0 && n == Pow2(k) - 1 && rank < n / 2
    ensures 2 * rank + 2 < n
  {
  }

  // ---- what the counters stand for ----

  /** The ports through which accesses by these ALPs come in. */
  ghost predicate ComeThrough(past: seq<Direction>, alps: seq<nat>, m: Maps, l: Layout)
  {
    && |past| == |alps|
    && forall i | 0 <= i < |alps| :: l.n <= alps[i] < l.Size() && alps[i] in m.rankToDir && past[i] == m.rankToDir[alps[i]]
  }

  /** A full tree with ALPs below bottom CLPs only. */
  ghost predicate FullLayout(l: Layout, k: nat)
  {
    ValidLayout(l) && k > 0 && l.n == Pow2(k) - 1 && forall i | 0 <= i < |l.alps| :: l.alps[i] >= l.n / 2
  }

  /** The calculator of a CLP of such a tree, whose table is the one its constructor fills. */
  ghost predicate Serves(c: AccessCostCalculator, m: Maps, l: Layout, k: nat)
    reads c
  {
    c.Valid() && FullLayout(l, k) && l.n == c.numberOfClps && Routes(m, l, c.rank)
  }

  /** The accesses to a listed variable since it came here were those of alps, each recorded
      under the port its ALP sits behind. */
  ghost predicate AccessedBy(c: AccessCostCalculator, m: Maps, l: Layout, v: nat, alps: seq<nat>)
    reads c
  {
    v in c.ssvList && v in c.past && ComeThrough(c.past[v], alps, m, l)
  }

  lemma {:induction false} NothingThrough(past: seq<Direction>, d: Direction)
    requires forall i | 0 <= i < |past| :: past[i] != d
    ensures Times(past, d) == 0
  {
    if past != [] { NothingThrough(past[..|past| - 1], d); }
  }

  lemma {:induction false} PortsAddUp(past: seq<Direction>)
    requires forall i | 0 <= i < |past| :: IsPort(past[i])
    ensures Times(past, Up) + Times(past, Left) + Times(past, Right) == |past|
  {
    if past != [] { PortsAddUp(past[..|past| - 1]); }
  }

  /** Every access comes through a port, and at the root never from above. */
  lemma {:induction false} AccessPort(m: Maps, l: Layout, h: nat, x: nat)
    requires ValidLayout(l) && h < l.n && Routes(m, l, h) && l.n <= x < l.Size()
    ensures IsPort(m.rankToDir[x]) && (h == 0 ==> m.rankToDir[x] != Up)
  {
    assert AlpPort(m.rankToDir[x], l, h, x);
    if l.ClpOf(x) != h { PortOfFirstHop(h, l.ClpOf(x), l.n); }
  }

  /** What GetMigrationMap chooses can be moved that way: bottom CLPs only give upwards, and
      the root never does. */
  lemma {:induction false} ListedCanMove(c: AccessCostCalculator, m: Maps, l: Layout, k: nat, alps: seq<nat>, v: nat, d: Direction)
    requires Serves(c, m, l, k) && AccessedBy(c, m, l, v, alps) && Chosen(c.View(), v, d)
    ensures LeadsToClp(c.rank, d, l.n)
  {
    assert Tracked(c.accessMap, c.hopMap, c.past, v);
    BottomLevel(c.rank, l.n, k);
    if c.rank < l.n / 2 { InnerHasChildren(c.rank, l.n, k); }
    if c.rank == 0 && d == Up {
      forall i | 0 <= i < |c.past[v]|
        ensures c.past[v][i] != Up
      {
        AccessPort(m, l, 0, alps[i]);
      }
      NothingThrough(c.past[v], Up);
    }
  }

  // ---- moving pays off ----

  /** Hops from the ALPs that made the accesses to host h. */
  function Hops(l: Layout, alps: seq<nat>, h: nat): nat
    requires forall i | 0 <= i < |alps| :: alps[i] < l.Size()
  {
    if alps == [] then 0
    else Hops(l, alps[..|alps| - 1], h) + Distance(l, h, alps[|alps| - 1])
  }

  /** An access through port d gets one hop nearer, any other one hop further. */
  lemma {:induction false} OneAccess(m: Maps, l: Layout, k: nat, h: nat, d: Direction, x: nat)
    requires FullLayout(l, k) && h < l.n && Routes(m, l, h) && l.n <= x < l.Size() && LeadsToClp(h, d, l.n)
    requires h >= l.n / 2 ==> d == Up
    ensures Distance(l, NeighbourBy(h, d), x) == Distance(l, h, x) + if m.rankToDir[x] == d then -1 else 1
  {
    var b, c := NeighbourBy(h, d), l.ClpOf(x);
    assert AlpPort(m.rankToDir[x], l, h, x);
    if c == h {
      AdjacentDist(b, h);
      assert Dist(h, h) == 0;
    } else {
      TowardAdjacent(h, c);
      HopChangesDist(h, c, b);
    }
  }

  lemma {:induction false} OneHopFurther(m: Maps, l: Layout, k: nat, h: nat, d: Direction, past: seq<Direction>, alps: seq<nat>)
    requires FullLayout(l, k) && h < l.n && Routes(m, l, h) && LeadsToClp(h, d, l.n) && (h >= l.n / 2 ==> d == Up)
    requires ComeThrough(past, alps, m, l)
    ensures Hops(l, alps, NeighbourBy(h, d)) == Hops(l, alps, h) + |alps| - 2 * Times(past, d)
  {
    if alps != [] {
      var x := alps[|alps| - 1];
      OneHopFurther(m, l, k, h, d, past[..|alps| - 1], alps[..|alps| - 1]);
      OneAccess(m, l, k, h, d, x);
    }
  }

  /** Moving a listed variable one hop the listed way strictly lowers the hops its past
      accesses would take. */
  lemma {:induction false} MovePaysOff(c: AccessCostCalculator, m: Maps, l: Layout, k: nat, alps: seq<nat>, v: nat, d: Direction)
    requires Serves(c, m, l, k) && AccessedBy(c, m, l, v, alps) && Chosen(c.View(), v, d)
    ensures LeadsToClp(c.rank, d, l.n) && forall i | 0 <= i < |alps| :: alps[i] < l.Size()
    ensures Hops(l, alps, NeighbourBy(c.rank, d)) < Hops(l, alps, c.rank)
  {
    ListedCanMove(c, m, l, k, alps, v, d);
    BottomLevel(c.rank, l.n, k);
    assert Tracked(c.accessMap, c.hopMap, c.past, v);
    forall i | 0 <= i < |alps|
      ensures IsPort(c.past[v][i])
    {
      AccessPort(m, l, c.rank, alps[i]);
    }
    PortsAddUp(c.past[v]);
    OneHopFurther(m, l, k, c.rank, d, c.past[v], alps);
  }

  /** Port by port, the accesses through it times the hops recorded for it. */
  function PortCosts(past: seq<Direction>, hops: Counters, v: nat): nat
  {
    Times(past, Up) * CountOf(hops, Up, v) + Times(past, Left) * CountOf(hops, Left, v)
    + Times(past, Right) * CountOf(hops, Right, v)
  }

  /** Moving v through port d would save more than a third of an access, on average, for each. */
  ghost predicate SavesThird(l: Layout, alps: seq<nat>, h: nat, d: Direction)
    requires LeadsToClp(h, d, l.n) && forall i | 0 <= i < |alps| :: alps[i] < l.Size()
  {
    3 * (Hops(l, alps, h) - Hops(l, alps, NeighbourBy(h, d))) > |alps|
  }

  lemma {:induction false} PastAddsUp(c: AccessCostCalculator, m: Maps, l: Layout, k: nat, alps: seq<nat>, v: nat)
    requires Serves(c, m, l, k) && AccessedBy(c, m, l, v, alps)
    ensures |c.past[v]| == |alps| == Total(c.accessMap, v) && forall i | 0 <= i < |alps| :: alps[i] < l.Size()
    ensures forall d | IsPort(d) :: CountOf(c.accessMap, d, v) == Times(c.past[v], d)
    ensures Cost(c.accessMap, c.hopMap, v) == PortCosts(c.past[v], c.hopMap, v)
  {
    assert Tracked(c.accessMap, c.hopMap, c.past, v);
    forall i | 0 <= i < |alps|
      ensures IsPort(c.past[v][i])
    {
      AccessPort(m, l, c.rank, alps[i]);
    }
    PortsAddUp(c.past[v]);
  }

  /** The threshold of a full tree is the depth of its bottom level. */
  lemma {:induction false} ThresholdIsDepth(n: nat, k: nat)
    requires k > 0 && n == Pow2(k) - 1
    ensures n > 0 && FloorLog2(n) == k - 1
  {
    var f := FloorLog2(n);
    if f < k - 1 { Pow2Monotone(f + 1, k); } else if f > k - 1 { if f > k { Pow2Monotone(k, f); } }
  }

  /** Exactly which variables are given away, and where: those whose accesses cost at least as much
      as the tree has levels and come through a port that leads to a CLP, upwards only from a bottom CLP, such
      that one hop that way saves more than a third of a hop for each access. */
  lemma {:induction false} ListedIff(c: AccessCostCalculator, m: Maps, l: Layout, k: nat, alps: seq<nat>, v: nat, d: Direction,
                                     r: map<Direction, seq<nat>>)
    requires Serves(c, m, l, k) && AccessedBy(c, m, l, v, alps) && IsMigrationMap(r, c.View(), c.ssvList)
    ensures forall i | 0 <= i < |alps| :: alps[i] < l.Size()
    ensures d in r && v in r[d] <==>
              && PortCosts(c.past[v], c.hopMap, v) >= k
              && LeadsToClp(c.rank, d, l.n) && (c.rank >= l.n / 2 ==> d == Up)
              && SavesThird(l, alps, c.rank, d)
  {
    PastAddsUp(c, m, l, k, alps, v);
    BottomLevel(c.rank, l.n, k);
    ThresholdIsDepth(l.n, k);
    assert d in r && v in r[d] <==> Chosen(c.View(), v, d) by {
      assert v in Selected(c.View(), c.ssvList, d) <==> Chosen(c.View(), v, d);
    }
    if Chosen(c.View(), v, d) { ListedCanMove(c, m, l, k, alps, v, d); }
    if LeadsToClp(c.rank, d, l.n) && (c.rank >= l.n / 2 ==> d == Up) {
      OneHopFurther(m, l, k, c.rank, d, c.past[v], alps);
    }
  }

  /** So two thirds of the accesses have to come that way, and a bare majority is not enough. */
  lemma {:induction false} SavesThirdIff(m: Maps, l: Layout, k: nat, h: nat, d: Direction, past: seq<Direction>, alps: seq<nat>)
    requires FullLayout(l, k) && h < l.n && Routes(m, l, h) && LeadsToClp(h, d, l.n) && (h >= l.n / 2 ==> d == Up)
    requires ComeThrough(past, alps, m, l)
    ensures SavesThird(l, alps, h, d) <==> 3 * Times(past, d) > 2 * |past|
  {
    OneHopFurther(m, l, k, h, d, past, alps);
  }
}
