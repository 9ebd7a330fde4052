/** Range queries (src/lp/Clp.cpp); port ranges and hosting do not change meanwhile. */
module RangeQuery {
  import opened Base
  import opened Tree
  import opened RouteTable
  import M = Migration
  import EndFlood
  import opened RangeTracker

  // One query on the whole tree: scattered from the agent's CLP through every port whose range
  // overlaps, gathered by replies (ProcessMessage for a RangeQueryMessage).

  /** The tree, the agent's CLP and rank, and what every CLP's port ranges and RangeRead
      answer to this query. */
  datatype Query = Query(n: nat, c: nat, agent: nat, alpPort: Direction,
                         ranges: seq<PortRanges>, found: seq<Values>)

  /** An inner CLP has both children; the agent's ALP hangs off a bottom CLP; a variable is at
      one CLP. */
  ghost predicate ShapedQuery(q: Query)
  {
    && q.n % 2 == 1 && q.n / 2 <= q.c < q.n <= q.agent && (q.alpPort == Left || q.alpPort == Right)
    && |q.ranges| == |q.found| == q.n
    && (forall x, y, v | 0 <= x < q.n && 0 <= y < q.n && v in q.found[x] && v in q.found[y] :: x == y)
  }

  /** Moreover every port the query may be tried on has a range at the query's time; RangePeriods
      shows that the tables see to that. */
  ghost predicate ValidQuery(q: Query)
  {
    ShapedQuery(q) && forall x {:trigger q.ranges[x]} | 0 <= x < q.n :: Ranged(q, x)
  }

  ghost predicate Ranged(q: Query, x: nat)
    requires x < |q.ranges|
  {
    forall d: Direction | IsPort(d) && (d == Here || Target(q.n, x, d)) :: !q.ranges[x].At(d).NoPeriod?
  }

  predicate Overlaps(q: Query, x: nat, d: Direction)
    requires x < |q.ranges|
  {
    q.ranges[x].At(d).Overlapping?
  }

  /** A message between two CLPs, or between the agent's CLP and its ALP. */
  datatype Msg = Msg(origin: nat, dest: nat, values: Values, hops: nat)

  /** entries are the tracker entries for this query; answers what the ALP has received;
      visited and replied record which CLPs opened an entry and sent their reply. */
  datatype Sys = Sys(entries: map<nat, Entry>, flying: seq<Msg>, answers: seq<Values>,
                     visited: seq<nat>, replied: seq<nat>)

  function Ask(q: Query): Sys
  {
    Sys(map[], [Msg(q.agent, q.c, map[], 0)], [], [], [])
  }

  /** The neighbour towards the agent. */
  function Back(q: Query, x: nat): nat
  {
    if x == q.c then q.agent else Toward(x, q.c)
  }

  function Incoming(q: Query, x: nat): Direction
  {
    if x == q.c then q.alpPort else DirTo(x, q.c)
  }

  /** The CLP behind a port; nothing is behind the root's upper one. */
  function Behind(x: nat, d: Direction): nat
  {
    if x == 0 && d == Up then 0 else M.NeighbourBy(x, d)
  }

  function RankBy(q: Query, x: nat, d: Direction): nat
  {
    if x == q.c && d == q.alpPort then q.agent else Behind(x, d)
  }

  function Forwards(x: nat, ds: seq<Direction>): seq<Msg>
  {
    if ds == [] then [] else [Msg(x, Behind(x, ds[0]), map[], 0)] + Forwards(x, ds[1..])
  }

  predicate Sized(q: Query)
  {
    |q.ranges| == |q.found| == q.n
  }

  /** Any message in flight is delivered and handled. */
  function Deliver(q: Query, s: Sys, k: nat): Sys
    requires Sized(q) && k < |s.flying|
  {
    var m := s.flying[k];
    if m.dest >= q.n then s.(flying := Rest(s, k), answers := s.answers + [m.values])
    else if m.dest !in s.entries then Meet(q, s, k)
    else Gather(q, s, k)
  }

  function Rest(s: Sys, k: nat): seq<Msg>
    requires k < |s.flying|
  {
    s.flying[..k] + s.flying[k + 1..]
  }

  /** The state between forwarding and settling. */
  function Spread(s: Sys, k: nat, x: nat, ds: seq<Direction>): Sys
    requires k < |s.flying|
  {
    Sys.Sys(s.entries, Rest(s, k) + Forwards(x, ds), s.answers, s.visited + [x], s.replied)
  }

  function Meet(q: Query, s: Sys, k: nat): Sys
    requires Sized(q) && k < |s.flying| && s.flying[k].dest < q.n
  {
    var m, x := s.flying[k], s.flying[k].dest;
    Settle(q, Spread(s, k, x, OpenedForwards(q.n, x, Incoming(q, x), q.ranges[x])), x,
           Opened(q.n, x, Incoming(q, x), m.hops + 1, m.values, q.ranges[x], q.found[x]))
  }

  function Gather(q: Query, s: Sys, k: nat): Sys
    requires k < |s.flying| && s.flying[k].dest in s.entries
  {
    var m, x := s.flying[k], s.flying[k].dest;
    Settle(q, s.(flying := Rest(s, k)), x, Replied(s.entries[x], Port(x, m.origin), m.values, m.hops + 1))
  }

  /** Keeps the entry while a port is outstanding, else replies through its origin port. */
  function Settle(q: Query, s: Sys, x: nat, e: Entry): Sys
  {
    if Outstanding(e) != [] then s.(entries := s.entries[x := e])
    else s.(entries := s.entries - {x}, replied := s.replied + [x],
            flying := s.flying + [Msg(x, RankBy(q, x, e.origin), e.values, e.hops)])
  }

  // ---- which CLPs a query reaches ----

  /** Walking from z towards the agent one meets y, through overlapping ports only. */
  predicate OpenPath(q: Query, z: nat, y: nat)
    requires q.n == |q.ranges| && z < q.n && q.c < q.n
    decreases Dist(z, q.c)
  {
    if z == y then true
    else if z == q.c then false
    else
      var p := Toward(z, q.c);
      TowardAdjacent(z, q.c);
      HopChangesDist(z, q.c, p);
      Overlaps(q, p, Port(p, z)) && OpenPath(q, p, y)
  }

  /** z is reached from y on, and its own variables overlap: v is one of them. */
  ghost predicate Contributes(q: Query, z: nat, y: nat, v: nat)
    requires ValidQuery(q)
  {
    z < q.n && OpenPath(q, z, y) && Overlaps(q, z, Here) && v in q.found[z]
  }

  /** values is the union of what is found at y and behind it. */
  ghost predicate IsUnion(q: Query, values: Values, y: nat)
    requires ValidQuery(q)
  {
    IsPart(q, values, y, [])
  }

  /** The same without what lies behind the outstanding ports. */
  ghost predicate IsPart(q: Query, values: Values, y: nat, outstanding: seq<Direction>)
    requires ValidQuery(q)
  {
    && (forall v | v in values :: exists z: nat {:trigger Contributes(q, z, y, v)} ::
          Contributes(q, z, y, v) && DirTo(y, z) !in outstanding && values[v] == q.found[z][v])
    && (forall v: nat, z: nat {:trigger Contributes(q, z, y, v)} | Contributes(q, z, y, v) && DirTo(y, z) !in outstanding ::
          v in values)
  }

  /** y is one hop further from the agent than x. */
  predicate Outward(q: Query, x: nat, y: nat)
  {
    y != q.c && Toward(y, q.c) == x
  }

  /** Everything reached behind y lies, seen from x, behind x's port to y. */
  lemma {:induction false} PathBehind(q: Query, z: nat, y: nat)
    requires ValidQuery(q) && z < q.n && y < q.n && y != q.c && OpenPath(q, z, y)
    ensures var x := Toward(y, q.c);
            && x < q.n && z != x && Toward(x, z) == y && Dist(z, q.c) >= Dist(y, q.c)
            && (Overlaps(q, x, Port(x, y)) ==> OpenPath(q, z, x))
    decreases Dist(z, q.c)
  {
    var x := Toward(y, q.c);
    TowardAdjacent(y, q.c);
    HopChangesDist(y, q.c, x);
    if z == y {
      AdjacentDist(x, y);
    } else {
      var p := Toward(z, q.c);
      TowardAdjacent(z, q.c);
      HopChangesDist(z, q.c, p);
      PathBehind(q, p, y);
      SameSide(z, p, x);
    }
  }

  /** And conversely: what is reached from x on, other than x, is reached behind the
      neighbour it lies behind. */
  lemma {:induction false} PathThrough(q: Query, z: nat, x: nat)
    requires ValidQuery(q) && z < q.n && x < q.n && z != x && OpenPath(q, z, x)
    ensures var y := Toward(x, z);
            y < q.n && Outward(q, x, y) && OpenPath(q, z, y) && Overlaps(q, x, Port(x, y))
    decreases Dist(z, q.c)
  {
    var p := Toward(z, q.c);
    TowardAdjacent(z, q.c);
    HopChangesDist(z, q.c, p);
    if p == x {
      AdjacentDist(x, z);
    } else {
      PathThrough(q, p, x);
      var y := Toward(x, p);
      PathBehind(q, p, y);
      assert Dist(z, q.c) == Dist(p, q.c) + 1;
      TowardAdjacent(y, q.c);
      HopChangesDist(y, q.c, x);
      SameSide(z, p, x);
    }
  }

  // ---- ports and entries ----

  /** The ports a query may go on through lead outwards, and all outward neighbours are
      behind such a port. */
  lemma {:induction false} PortOut(q: Query, x: nat, d: Direction)
    requires ValidQuery(q) && x < q.n && IsPort(d) && Target(q.n, x, d) && d != Incoming(q, x)
    ensures Behind(x, d) < q.n && Outward(q, x, Behind(x, d)) && Port(x, Behind(x, d)) == d
  {
    var y := Behind(x, d);
    assert Adjacent(x, y);
    if x != q.c {
      TowardAdjacent(x, q.c);
    }
    EndFlood.OutwardIff(x, q.c, y);
  }

  lemma {:induction false} OutPort(q: Query, x: nat, y: nat)
    requires ValidQuery(q) && x < q.n && y < q.n && Outward(q, x, y)
    ensures IsPort(Port(x, y)) && Target(q.n, x, Port(x, y)) && Port(x, y) != Incoming(q, x)
    ensures DirTo(x, y) == Port(x, y) && Behind(x, Port(x, y)) == y && Adjacent(x, y)
  {
    TowardAdjacent(y, q.c);
    AdjacentDist(x, y);
    EndFlood.OutwardIff(x, q.c, y);
    if x != q.c {
      TowardAdjacent(x, q.c);
    }
  }

  ghost predicate NoTwice(ds: seq<Direction>)
  {
    forall i, j | 0 <= i < j < |ds| :: ds[i] != ds[j]
  }

  lemma {:induction false} UnscannedOnce(e: Entry, ds: seq<Direction>)
    requires NoTwice(ds)
    ensures NoTwice(Unscanned(e, ds))
  {
    if ds != [] {
      var front := ds[..|ds| - 1];
      UnscannedOnce(e, front);
      assert ds[|ds| - 1] !in front;
    }
  }

  function Tried(n: nat, rank: nat, d: Direction, range: PortRange): ScanStatus
  {
    if d != Here && !Target(n, rank, d) then Scanned
    else
      match range
      case NoPeriod => NotScanned
      case Disjoint => Scanned
      case Overlapping => if d == Here then Scanned else NotScanned
  }

  lemma TryPortDoes(e: Entry, n: nat, rank: nat, t: Direction, range: PortRange, found: Values, d: Direction)
    requires StatusOf(e, t).NotScanned?
    ensures var r := TryPort(e, n, rank, t, range, found);
            && StatusOf(r, d) == (if d == t then Tried(n, rank, d, range) else StatusOf(e, d))
            && r.origin == e.origin
            && r.values == if t == Here && range.Overlapping? then InsertAll(e.values, found) else e.values
  {
  }

  lemma {:induction false} TryPortsDoes(e: Entry, n: nat, rank: nat, ds: seq<Direction>,
                                        ranges: PortRanges, found: Values, d: Direction)
    requires NoTwice(ds) && (forall t | t in ds :: StatusOf(e, t).NotScanned?)
    ensures var r := TryPorts(e, n, rank, ds, ranges, found);
            && StatusOf(r, d) == (if d in ds then Tried(n, rank, d, ranges.At(d)) else StatusOf(e, d))
            && r.origin == e.origin
            && r.values == if Here in ds && ranges.At(Here).Overlapping? then InsertAll(e.values, found) else e.values
  {
    if ds != [] {
      var front, last := ds[..|ds| - 1], ds[|ds| - 1];
      assert last !in front && last in ds && ds == front + [last];
      TryPortsDoes(e, n, rank, front, ranges, found, d);
      TryPortsDoes(e, n, rank, front, ranges, found, last);
      TryPortDoes(TryPorts(e, n, rank, front, ranges, found), n, rank, last, ranges.At(last), found, d);
    }
  }

  lemma {:induction false} ForwardedOnce(n: nat, rank: nat, ds: seq<Direction>, ranges: PortRanges)
    requires NoTwice(ds)
    ensures NoTwice(Forwarded(n, rank, ds, ranges))
  {
    if ds != [] {
      var front := ds[..|ds| - 1];
      ForwardedOnce(n, rank, front, ranges);
      assert ds[|ds| - 1] !in front;
    }
  }

  /** A fresh entry has outstanding exactly the ports the query was forwarded through, and
      collected what is here. */
  lemma {:induction false} OpenedIs(n: nat, x: nat, inc: Direction, hops: nat, ranges: PortRanges, found: Values)
    returns (e: Entry, ds: seq<Direction>)
    requires IsPort(inc) && inc != Here
    requires forall d: Direction | IsPort(d) && (d == Here || Target(n, x, d)) :: !ranges.At(d).NoPeriod?
    ensures e == Opened(n, x, inc, hops, map[], ranges, found) && ds == OpenedForwards(n, x, inc, ranges)
    ensures e.origin == inc && NoTwice(ds)
    ensures forall d :: d in ds <==> IsPort(d) && d != inc && Target(n, x, d) && ranges.At(d).Overlapping?
    ensures forall d :: d in Outstanding(e) <==> d in ds
    ensures e.values == if ranges.At(Here).Overlapping? then found else map[]
  {
    var e0 := NewEntry(inc, hops, map[]);
    SamePorts(inc, hops, map[]);
    var all := Outstanding(e0);
    e, ds := TryPorts(e0, n, x, all, ranges, found), Forwarded(n, x, all, ranges);
    PortsOnce();
    UnscannedOnce(e0, PORTS);
    ForwardedOnce(n, x, all, ranges);
    FreshPorts(inc, hops);
    TriedPorts(e0, n, x, all, ranges, found);
    TryPortsDoes(e0, n, x, all, ranges, found, Here);
    InsertIntoNone(found);
  }

  lemma PortsOnce()
    ensures NoTwice(PORTS)
  {
  }

  lemma InsertIntoNone(found: Values)
    ensures InsertAll(map[], found) == found
  {
  }

  lemma {:induction false} TriedPorts(e: Entry, n: nat, x: nat, ds: seq<Direction>, ranges: PortRanges, found: Values)
    requires NoTwice(ds) && forall d | d in ds :: IsPort(d) && StatusOf(e, d).NotScanned?
    requires forall d | d in ds && (d == Here || Target(n, x, d)) :: !ranges.At(d).NoPeriod?
    requires forall d | d !in ds :: !StatusOf(e, d).NotScanned?
    ensures forall d :: d in Outstanding(TryPorts(e, n, x, ds, ranges, found)) <==> d in Forwarded(n, x, ds, ranges)
  {
    forall d: Direction
      ensures StatusOf(TryPorts(e, n, x, ds, ranges, found), d)
              == if d in ds then Tried(n, x, d, ranges.At(d)) else StatusOf(e, d)
    {
      TryPortsDoes(e, n, x, ds, ranges, found, d);
    }
  }

  /** Why the tables must keep a period for every time queried (see RangePeriods): a port
      without one would be left outstanding although the query is not forwarded through it. */
  lemma {:induction false} UnrangedPortIsStuck(n: nat, x: nat, inc: Direction, hops: nat, ranges: PortRanges,
                                               found: Values, d: Direction)
    requires IsPort(d) && IsPort(inc) && d != inc && (d == Here || Target(n, x, d)) && ranges.At(d).NoPeriod?
    ensures d in Outstanding(Opened(n, x, inc, hops, map[], ranges, found))
    ensures d !in OpenedForwards(n, x, inc, ranges)
  {
    var e0 := NewEntry(inc, hops, map[]);
    PortsOnce();
    UnscannedOnce(e0, PORTS);
    FreshPorts(inc, hops);
    TryPortsDoes(e0, n, x, Outstanding(e0), ranges, found, d);
    PortsAre();
  }

  lemma FreshPorts(inc: Direction, hops: nat)
    requires IsPort(inc)
    ensures forall d :: d in Outstanding(NewEntry(inc, hops, map[])) <==> IsPort(d) && d != inc
    ensures forall d :: StatusOf(NewEntry(inc, hops, map[]), d) ==
                        if IsPort(d) && d != inc then NotScanned else AvoidScan
  {
  }

  lemma {:induction false} RepliedIs(e: Entry, port: Direction, values: Values, hops: nat)
    ensures var r := Replied(e, port, values, hops);
            && r.origin == e.origin && r.values == InsertAll(e.values, values)
            && forall d :: d in Outstanding(r) <==> d in Outstanding(e) && d != port
  {
  }

  // ---- what every step keeps ----

  /** Which edge a message travels: the one between y and its neighbour towards the agent. */
  predicate OnEdge(q: Query, m: Msg, y: nat)
  {
    IsAsk(q, m, y) || IsReply(q, m, y)
  }

  predicate IsAsk(q: Query, m: Msg, y: nat)
  {
    m.dest == y && m.origin == Back(q, y)
  }

  predicate IsReply(q: Query, m: Msg, y: nat)
  {
    m.origin == y && m.dest == Back(q, y)
  }

  function One(b: bool): nat
  {
    if b then 1 else 0
  }

  function OnEdges(q: Query, ms: seq<Msg>, y: nat): nat
  {
    if ms == [] then 0 else One(OnEdge(q, ms[0], y)) + OnEdges(q, ms[1..], y)
  }

  function Asks(q: Query, ms: seq<Msg>, y: nat): nat
  {
    if ms == [] then 0 else One(IsAsk(q, ms[0], y)) + Asks(q, ms[1..], y)
  }

  lemma {:induction false} EdgesAppend(q: Query, a: seq<Msg>, b: seq<Msg>, y: nat)
    ensures OnEdges(q, a + b, y) == OnEdges(q, a, y) + OnEdges(q, b, y)
    ensures Asks(q, a + b, y) == Asks(q, a, y) + Asks(q, b, y)
  {
    if a == [] {
      assert a + b == b;
    } else {
      assert (a + b)[1..] == a[1..] + b;
      EdgesAppend(q, a[1..], b, y);
    }
  }

  lemma {:induction false} EdgesWithout(q: Query, ms: seq<Msg>, k: nat, y: nat)
    requires k < |ms|
    ensures OnEdges(q, ms, y) == OnEdges(q, ms[..k] + ms[k + 1..], y) + One(OnEdge(q, ms[k], y))
    ensures Asks(q, ms, y) == Asks(q, ms[..k] + ms[k + 1..], y) + One(IsAsk(q, ms[k], y))
  {
    assert ms == ms[..k] + ([ms[k]] + ms[k + 1..]);
    EdgesAppend(q, ms[..k], [ms[k]] + ms[k + 1..], y);
    EdgesAppend(q, [ms[k]], ms[k + 1..], y);
    EdgesAppend(q, ms[..k], ms[k + 1..], y);
  }

  /** A message belongs to one edge only. */
  lemma {:induction false} OneEdge(q: Query, m: Msg, y: nat, z: nat)
    requires ValidQuery(q) && y < q.n && z < q.n && OnEdge(q, m, y)
    ensures OnEdge(q, m, z) <==> z == y
    ensures IsAsk(q, m, y) ==> !IsReply(q, m, y) && !IsReply(q, m, z)
  {
    BackFurther(q, y);
    BackFurther(q, z);
  }

  lemma {:induction false} BackFurther(q: Query, y: nat)
    requires ValidQuery(q) && y < q.n
    ensures Back(q, y) != y
    ensures y != q.c ==> Back(q, y) < q.n && Dist(y, q.c) == Dist(Back(q, y), q.c) + 1
  {
    if y != q.c {
      TowardAdjacent(y, q.c);
      HopChangesDist(y, q.c, Toward(y, q.c));
    }
  }

  /** The outstanding port towards y is exactly one of: the query on its way to y, an entry at
      y, or y's reply on its way back. */
  ghost predicate Pending(q: Query, s: Sys, y: nat)
  {
    OnEdges(q, s.flying, y) + One(y in s.entries) + (if y == q.c then |s.answers| else 0)
    == if y == q.c then 1
       else
         var x := Toward(y, q.c);
         One(x in s.entries && Port(x, y) in Outstanding(s.entries[x]))
  }

  /** Every CLP is asked once for every visit of the neighbour it would be asked by. */
  ghost predicate Visited(q: Query, s: Sys, y: nat)
    requires ValidQuery(q) && y < q.n
  {
    && EndFlood.TimesIn(s.visited, y) + Asks(q, s.flying, y)
       == (if y == q.c then 1
           else
             var x := Back(q, y);
             BackFurther(q, y);
             if Overlaps(q, x, Port(x, y)) then EndFlood.TimesIn(s.visited, x) else 0)
    && EndFlood.TimesIn(s.visited, y) == One(y in s.entries) + EndFlood.TimesIn(s.replied, y)
  }

  ghost predicate EntryOk(q: Query, e: Entry, x: nat)
    requires ValidQuery(q)
  {
    && x < q.n && e.origin == Incoming(q, x) && Outstanding(e) != []
    && (forall d | d in Outstanding(e) :: Target(q.n, x, d) && d != Incoming(q, x) && Overlaps(q, x, d))
    && IsPart(q, e.values, x, Outstanding(e))
  }

  ghost predicate MsgOk(q: Query, m: Msg)
    requires ValidQuery(q)
  {
    || (m.dest < q.n && IsAsk(q, m, m.dest) && m.values == map[])
    || (m.origin < q.n && IsReply(q, m, m.origin) && IsUnion(q, m.values, m.origin))
  }

  ghost predicate Counted(q: Query, s: Sys)
    requires ValidQuery(q)
  {
    && (forall y: nat {:trigger Pending(q, s, y)} | y < q.n :: Pending(q, s, y))
    && (forall y: nat {:trigger Visited(q, s, y)} | y < q.n :: Visited(q, s, y))
  }

  ghost predicate AllOk(q: Query, s: Sys)
    requires ValidQuery(q)
  {
    && (forall x | x in s.entries :: EntryOk(q, s.entries[x], x))
    && (forall m | m in s.flying :: MsgOk(q, m))
    && (forall u | u in s.answers :: IsUnion(q, u, q.c))
  }

  ghost predicate Kept(q: Query, s: Sys)
    requires ValidQuery(q)
  {
    Counted(q, s) && AllOk(q, s)
  }

  lemma {:induction false} EdgeMember(q: Query, ms: seq<Msg>, m: Msg, y: nat)
    requires m in ms && OnEdge(q, m, y)
    ensures OnEdges(q, ms, y) > 0
  {
    if m != ms[0] { EdgeMember(q, ms[1..], m, y); }
  }

  /** A CLP without an entry is met by the query, one with an entry by a reply for which a
      port is outstanding. */
  lemma {:induction false} WhatArrives(q: Query, s: Sys, m: Msg)
    requires ValidQuery(q) && Kept(q, s) && m in s.flying
    ensures m.dest >= q.n ==> m.origin == q.c && IsReply(q, m, q.c)
    ensures m.dest < q.n && m.dest !in s.entries ==> IsAsk(q, m, m.dest) && m.values == map[]
    ensures m.dest < q.n && m.dest in s.entries ==>
              && m.origin < q.n && m.origin != q.c && IsReply(q, m, m.origin)
              && Port(m.dest, m.origin) in Outstanding(s.entries[m.dest])
  {
    assert MsgOk(q, m);
    if m.dest < q.n && IsAsk(q, m, m.dest) {
      EdgeMember(q, s.flying, m, m.dest);
      assert Pending(q, s, m.dest);
    } else {
      EdgeMember(q, s.flying, m, m.origin);
      assert Pending(q, s, m.origin);
      BackFurther(q, m.origin);
    }
  }

  // ---- the steps ----

  ghost predicate GoodPorts(q: Query, x: nat, ds: seq<Direction>)
  {
    NoTwice(ds) && forall d | d in ds :: IsPort(d) && Target(q.n, x, d) && d != Incoming(q, x)
  }

  /** Forwarding puts one query on the edge to every neighbour behind a listed port. */
  lemma {:induction false} ForwardsCount(q: Query, x: nat, ds: seq<Direction>, y: nat)
    requires ValidQuery(q) && x < q.n && y < q.n && GoodPorts(q, x, ds)
    ensures OnEdges(q, Forwards(x, ds), y) == One(Outward(q, x, y) && Port(x, y) in ds)
    ensures Asks(q, Forwards(x, ds), y) == One(Outward(q, x, y) && Port(x, y) in ds)
    ensures forall m | m in Forwards(x, ds) :: MsgOk(q, m)
  {
    if ds != [] {
      var d, more := ds[0], ds[1..];
      assert d in ds && d !in more && forall e | e in more :: e in ds;
      assert ds == [d] + more;
      ForwardsCount(q, x, more, y);
      PortOut(q, x, d);
      var z := Behind(x, d);
      var m := Msg(x, z, map[], 0);
      assert IsAsk(q, m, z);
      OneEdge(q, m, z, y);
      EdgesAppend(q, [m], Forwards(x, more), y);
      if Outward(q, x, y) { OutPort(q, x, y); }
    }
  }

  /** A reply goes to the neighbour towards the agent. */
  lemma {:induction false} ReplyRank(q: Query, x: nat)
    requires ValidQuery(q) && x < q.n
    ensures RankBy(q, x, Incoming(q, x)) == Back(q, x)
  {
    if x != q.c {
      TowardAdjacent(x, q.c);
      BackFurther(q, x);
    }
  }

  /** How settling changes the flights and the entries. */
  lemma {:induction false} SettleCounts(q: Query, s: Sys, x: nat, e: Entry, y: nat)
    requires ValidQuery(q) && x < q.n && y < q.n && e.origin == Incoming(q, x)
    ensures var s', done := Settle(q, s, x, e), Outstanding(e) == [];
            && OnEdges(q, s'.flying, y) == OnEdges(q, s.flying, y) + One(done && y == x)
            && Asks(q, s'.flying, y) == Asks(q, s.flying, y)
            && EndFlood.TimesIn(s'.replied, y) == EndFlood.TimesIn(s.replied, y) + One(done && y == x)
            && (y in s'.entries <==> if y == x then !done else y in s.entries)
            && (y != x && y in s.entries ==> s'.entries[y] == s.entries[y])
            && (y == x && !done ==> s'.entries[y] == e)
            && s'.answers == s.answers && s'.visited == s.visited
  {
    ReplyRank(q, x);
    var m := Msg(x, Back(q, x), e.values, e.hops);
    assert IsReply(q, m, x);
    OneEdge(q, m, x, y);
    EdgesAppend(q, s.flying, [m], y);
    EndFlood.TimesInAppend(s.replied, x, y);
    BackFurther(q, x);
    BackFurther(q, y);
  }

  /** The query reaches x for the first time. */
  ghost predicate Meets(q: Query, s: Sys, k: nat)
    requires ValidQuery(q)
  {
    Kept(q, s) && k < |s.flying| && s.flying[k].dest < q.n && s.flying[k].dest !in s.entries
  }

  /** What CLP x makes of a query it meets. */
  ghost predicate Opens(q: Query, x: nat, e: Entry, ds: seq<Direction>)
    requires x < |q.ranges| && x < |q.found|
  {
    && GoodPorts(q, x, ds) && e.origin == Incoming(q, x)
    && (forall d :: d in ds <==> IsPort(d) && d != Incoming(q, x) && Target(q.n, x, d) && Overlaps(q, x, d))
    && (forall d :: d in Outstanding(e) <==> d in ds)
    && (Outstanding(e) == [] <==> ds == [])
    && e.values == if Overlaps(q, x, Here) then q.found[x] else map[]
  }

  lemma {:induction false} OpensAt(q: Query, x: nat, hops: nat) returns (e: Entry, ds: seq<Direction>)
    requires ValidQuery(q) && x < q.n
    ensures Ranged(q, x)
    ensures e == Opened(q.n, x, Incoming(q, x), hops, map[], q.ranges[x], q.found[x])
    ensures ds == OpenedForwards(q.n, x, Incoming(q, x), q.ranges[x])
    ensures Opens(q, x, e, ds)
  {
    assert Ranged(q, x);
    e, ds := OpenedIs(q.n, x, Incoming(q, x), hops, q.ranges[x], q.found[x]);
    SameMembersEmpty(Outstanding(e), ds);
  }

  lemma {:induction false} SameMembersEmpty(a: seq<Direction>, b: seq<Direction>)
    requires forall d :: d in a <==> d in b
    ensures a == [] <==> b == []
  {
    if a != [] { assert a[0] in a; }
    if b != [] { assert b[0] in b; }
  }

  lemma {:induction false} MeetPending(q: Query, s: Sys, k: nat, e: Entry, ds: seq<Direction>, y: nat)
    requires ValidQuery(q) && k < |s.flying| && s.flying[k].dest < q.n && s.flying[k].dest !in s.entries && y < q.n
    requires IsAsk(q, s.flying[k], s.flying[k].dest) && Opens(q, s.flying[k].dest, e, ds)
    requires Pending(q, s, y) && Visited(q, s, y)
    ensures var x := s.flying[k].dest;
            var s' := Settle(q, Spread(s, k, x, ds), x, e);
            Pending(q, s', y) && Visited(q, s', y)
  {
    var m, x := s.flying[k], s.flying[k].dest;
    var rest := Rest(s, k);
    EdgesWithout(q, s.flying, k, y);
    EdgesAppend(q, rest, Forwards(x, ds), y);
    ForwardsCount(q, x, ds, y);
    OneEdge(q, m, x, y);
    SettleCounts(q, Spread(s, k, x, ds), x, e, y);
    EndFlood.TimesInAppend(s.visited, x, y);
    if y != q.c {
      var p := Toward(y, q.c);
      BackFurther(q, y);
      SettleCounts(q, Spread(s, k, x, ds), x, e, p);
      EndFlood.TimesInAppend(s.visited, x, p);
      if p == x { OutPort(q, x, y); }
    }
  }

  /** What a CLP has found itself is the union of what is not behind its open ports. */
  lemma {:induction false} OwnPart(q: Query, x: nat, e: Entry, ds: seq<Direction>)
    requires ValidQuery(q) && x < q.n && Opens(q, x, e, ds)
    ensures IsPart(q, e.values, x, Outstanding(e))
  {
    forall v | v in e.values
      ensures Contributes(q, x, x, v) && DirTo(x, x) !in Outstanding(e) && e.values[v] == q.found[x][v]
    {
    }
    forall v: nat, z: nat | Contributes(q, z, x, v) && DirTo(x, z) !in Outstanding(e)
      ensures v in e.values
    {
      if z != x {
        PathThrough(q, z, x);
        OutPort(q, x, Toward(x, z));
      }
    }
  }

  lemma {:induction false} MeetFacts(q: Query, s: Sys, k: nat) returns (e: Entry, ds: seq<Direction>)
    requires ValidQuery(q) && Meets(q, s, k)
    ensures var x := s.flying[k].dest;
            && IsAsk(q, s.flying[k], x) && Opens(q, x, e, ds)
            && Deliver(q, s, k) == Settle(q, Spread(s, k, x, ds), x, e)
  {
    var m := s.flying[k];
    assert m in s.flying;
    WhatArrives(q, s, m);
    e, ds := OpensAt(q, m.dest, m.hops + 1);
    DeliverOpens(q, s, k, e, ds);
  }

  lemma {:induction false} DeliverOpens(q: Query, s: Sys, k: nat, e: Entry, ds: seq<Direction>)
    requires Sized(q) && k < |s.flying| && s.flying[k].dest < q.n && s.flying[k].dest !in s.entries
    requires var m, x := s.flying[k], s.flying[k].dest;
             && m.values == map[]
             && e == Opened(q.n, x, Incoming(q, x), m.hops + 1, map[], q.ranges[x], q.found[x])
             && ds == OpenedForwards(q.n, x, Incoming(q, x), q.ranges[x])
    ensures Deliver(q, s, k) == Settle(q, Spread(s, k, s.flying[k].dest, ds), s.flying[k].dest, e)
  {
    assert Deliver(q, s, k) == Meet(q, s, k);
  }

  lemma {:induction false} MeetCounted(q: Query, s: Sys, k: nat, e: Entry, ds: seq<Direction>)
    requires ValidQuery(q) && k < |s.flying| && s.flying[k].dest < q.n && s.flying[k].dest !in s.entries
    requires IsAsk(q, s.flying[k], s.flying[k].dest) && Opens(q, s.flying[k].dest, e, ds) && Counted(q, s)
    ensures Counted(q, Settle(q, Spread(s, k, s.flying[k].dest, ds), s.flying[k].dest, e))
  {
    var x := s.flying[k].dest;
    forall y: nat | y < q.n
      ensures Pending(q, Settle(q, Spread(s, k, x, ds), x, e), y) && Visited(q, Settle(q, Spread(s, k, x, ds), x, e), y)
    {
      assert Pending(q, s, y) && Visited(q, s, y);
      MeetPending(q, s, k, e, ds, y);
    }
  }

  lemma {:induction false} MeetOk(q: Query, s: Sys, k: nat, e: Entry, ds: seq<Direction>)
    requires ValidQuery(q) && k < |s.flying| && s.flying[k].dest < q.n && s.flying[k].dest !in s.entries
    requires Opens(q, s.flying[k].dest, e, ds) && AllOk(q, s)
    ensures AllOk(q, Settle(q, Spread(s, k, s.flying[k].dest, ds), s.flying[k].dest, e))
  {
    var x := s.flying[k].dest;
    OwnPart(q, x, e, ds);
    ForwardsCount(q, x, ds, x);
    SettledOk(q, Spread(s, k, x, ds), x, e);
  }

  lemma {:induction false} MeetKeeps(q: Query, s: Sys, k: nat)
    requires ValidQuery(q) && Meets(q, s, k)
    ensures Kept(q, Deliver(q, s, k))
  {
    var e, ds := MeetFacts(q, s, k);
    MeetCounted(q, s, k, e, ds);
    MeetOk(q, s, k, e, ds);
  }

  /** Settling keeps entries and messages as they should be. */
  lemma {:induction false} SettledOk(q: Query, s: Sys, x: nat, e: Entry)
    requires ValidQuery(q) && x < q.n && e.origin == Incoming(q, x) && IsPart(q, e.values, x, Outstanding(e))
    requires forall d | d in Outstanding(e) :: Target(q.n, x, d) && d != Incoming(q, x) && Overlaps(q, x, d)
    requires forall y | y in s.entries && y != x :: EntryOk(q, s.entries[y], y)
    requires forall m | m in s.flying :: MsgOk(q, m)
    ensures var s' := Settle(q, s, x, e);
            && (forall y | y in s'.entries :: EntryOk(q, s'.entries[y], y))
            && (forall m | m in s'.flying :: MsgOk(q, m))
            && s'.answers == s.answers
  {
    ReplyRank(q, x);
    if Outstanding(e) == [] {
      var m := Msg(x, Back(q, x), e.values, e.hops);
      assert MsgOk(q, m);
    }
  }

  /** A reply reaches x. */
  ghost predicate Gathers(q: Query, s: Sys, k: nat)
    requires ValidQuery(q)
  {
    Kept(q, s) && k < |s.flying| && s.flying[k].dest < q.n && s.flying[k].dest in s.entries
  }

  lemma {:induction false} GatherPending(q: Query, s: Sys, k: nat, e: Entry, y: nat)
    requires ValidQuery(q) && k < |s.flying| && s.flying[k].dest < q.n && s.flying[k].dest in s.entries && y < q.n
    requires var m, x := s.flying[k], s.flying[k].dest;
             && m.origin < q.n && Outward(q, x, m.origin)
             && Port(x, m.origin) in Outstanding(s.entries[x])
             && e.origin == Incoming(q, x)
             && forall d :: d in Outstanding(e) <==> d in Outstanding(s.entries[x]) && d != Port(x, m.origin)
    requires Pending(q, s, y) && Visited(q, s, y)
    ensures var s' := Settle(q, s.(flying := Rest(s, k)), s.flying[k].dest, e);
            Pending(q, s', y) && Visited(q, s', y)
  {
    var m, x := s.flying[k], s.flying[k].dest;
    var rest := Rest(s, k);
    EdgesWithout(q, s.flying, k, y);
    OneEdge(q, m, m.origin, y);
    SettleCounts(q, s.(flying := rest), x, e, y);
    if y != q.c {
      var p := Toward(y, q.c);
      BackFurther(q, y);
      SettleCounts(q, s.(flying := rest), x, e, p);
      if p == x {
        OutPort(q, x, y);
        OutPort(q, x, m.origin);
      }
    }
  }

  /** With a reply's union added, less is outstanding. */
  lemma {:induction false} BiggerPart(q: Query, x: nat, y: nat, e: Entry, values: Values, hops: nat)
    requires ValidQuery(q) && x < q.n && y < q.n && Outward(q, x, y) && EntryOk(q, e, x)
    requires Port(x, y) in Outstanding(e) && IsUnion(q, values, y)
    ensures var r := Replied(e, Port(x, y), values, hops); IsPart(q, r.values, x, Outstanding(r))
  {
    var r := Replied(e, Port(x, y), values, hops);
    RepliedIs(e, Port(x, y), values, hops);
    OutPort(q, x, y);
    forall v | v in r.values
      ensures exists z: nat :: Contributes(q, z, x, v) && DirTo(x, z) !in Outstanding(r) && r.values[v] == q.found[z][v]
    {
      if v in e.values {
        var z: nat :| Contributes(q, z, x, v) && DirTo(x, z) !in Outstanding(e) && e.values[v] == q.found[z][v];
        assert Contributes(q, z, x, v);
      } else {
        var z: nat :| Contributes(q, z, y, v) && values[v] == q.found[z][v];
        PathBehind(q, z, y);
        assert Contributes(q, z, x, v) && DirTo(x, z) == Port(x, y);
      }
    }
    forall v: nat, z: nat | Contributes(q, z, x, v) && DirTo(x, z) !in Outstanding(r)
      ensures v in r.values
    {
      if DirTo(x, z) == Port(x, y) {
        PathThrough(q, z, x);
        OutPort(q, x, Toward(x, z));
        assert Toward(x, z) == y && Contributes(q, z, y, v);
      } else {
        assert v in e.values;
      }
    }
  }

  /** The reply that arrives, and the entry it leads to. */
  lemma {:induction false} GatherFacts(q: Query, s: Sys, k: nat) returns (e: Entry)
    requires ValidQuery(q) && Gathers(q, s, k)
    ensures var m, x := s.flying[k], s.flying[k].dest;
            && m.origin < q.n && Outward(q, x, m.origin) && Port(x, m.origin) in Outstanding(s.entries[x])
            && EntryOk(q, s.entries[x], x) && IsUnion(q, m.values, m.origin)
            && e == Replied(s.entries[x], Port(x, m.origin), m.values, m.hops + 1)
            && Deliver(q, s, k) == Settle(q, s.(flying := Rest(s, k)), x, e)
  {
    var m, x := s.flying[k], s.flying[k].dest;
    assert m in s.flying;
    ReplyFacts(q, s, m);
    e := Replied(s.entries[x], Port(x, m.origin), m.values, m.hops + 1);
    GatherIs(q, s, k);
  }

  lemma GatherIs(q: Query, s: Sys, k: nat)
    requires Sized(q) && k < |s.flying| && s.flying[k].dest < q.n && s.flying[k].dest in s.entries
    ensures var m, x := s.flying[k], s.flying[k].dest;
            Deliver(q, s, k) == Settle(q, s.(flying := Rest(s, k)), x, Replied(s.entries[x], Port(x, m.origin), m.values, m.hops + 1))
  {
  }

  lemma {:induction false} ReplyFacts(q: Query, s: Sys, m: Msg)
    requires ValidQuery(q) && Kept(q, s) && m in s.flying && m.dest < q.n && m.dest in s.entries
    ensures m.origin < q.n && Outward(q, m.dest, m.origin) && Port(m.dest, m.origin) in Outstanding(s.entries[m.dest])
    ensures EntryOk(q, s.entries[m.dest], m.dest) && IsUnion(q, m.values, m.origin)
  {
    WhatArrives(q, s, m);
    assert MsgOk(q, m);
    BackFurther(q, m.origin);
  }

  lemma {:induction false} GatherCounted(q: Query, s: Sys, k: nat, e: Entry, s': Sys)
    requires ValidQuery(q) && k < |s.flying| && s.flying[k].dest < q.n && s.flying[k].dest in s.entries
    requires var m, x := s.flying[k], s.flying[k].dest;
             && m.origin < q.n && Outward(q, x, m.origin) && Port(x, m.origin) in Outstanding(s.entries[x])
             && s.entries[x].origin == Incoming(q, x)
             && e == Replied(s.entries[x], Port(x, m.origin), m.values, m.hops + 1)
             && s' == Settle(q, s.(flying := Rest(s, k)), x, e)
    requires Counted(q, s)
    ensures Counted(q, s')
  {
    var m, x := s.flying[k], s.flying[k].dest;
    RepliedIs(s.entries[x], Port(x, m.origin), m.values, m.hops + 1);
    forall y: nat | y < q.n
      ensures Pending(q, s', y) && Visited(q, s', y)
    {
      assert Pending(q, s, y) && Visited(q, s, y);
      GatherPending(q, s, k, e, y);
    }
  }

  lemma {:induction false} GatherOk(q: Query, s: Sys, x: nat, y: nat, e: Entry, values: Values, hops: nat, s': Sys)
    requires ValidQuery(q) && x < q.n && y < q.n && Outward(q, x, y) && EntryOk(q, e, x)
    requires Port(x, y) in Outstanding(e) && IsUnion(q, values, y) && AllOk(q, s)
    requires s' == Settle(q, s, x, Replied(e, Port(x, y), values, hops))
    ensures AllOk(q, s')
  {
    RepliedIs(e, Port(x, y), values, hops);
    BiggerPart(q, x, y, e, values, hops);
    SettledOk(q, s, x, Replied(e, Port(x, y), values, hops));
  }

  lemma {:induction false} GatherKeeps(q: Query, s: Sys, k: nat)
    requires ValidQuery(q) && Gathers(q, s, k)
    ensures Kept(q, Deliver(q, s, k))
  {
    var m, x := s.flying[k], s.flying[k].dest;
    var e := GatherFacts(q, s, k);
    var s' := Deliver(q, s, k);
    GatherCounted(q, s, k, e, s');
    var rest := s.(flying := Rest(s, k));
    assert AllOk(q, rest);
    GatherOk(q, rest, x, m.origin, s.entries[x], m.values, m.hops + 1, s');
  }

  lemma {:induction false} AnswerKeeps(q: Query, s: Sys, k: nat)
    requires ValidQuery(q) && Kept(q, s) && k < |s.flying| && s.flying[k].dest >= q.n
    ensures Kept(q, Deliver(q, s, k))
  {
    var m, s' := s.flying[k], Deliver(q, s, k);
    assert m in s.flying;
    WhatArrives(q, s, m);
    assert MsgOk(q, m);
    forall y: nat | y < q.n
      ensures Pending(q, s', y) && Visited(q, s', y)
    {
      assert Pending(q, s, y) && Visited(q, s, y);
      EdgesWithout(q, s.flying, k, y);
      OneEdge(q, m, q.c, y);
      BackFurther(q, y);
    }
  }

  lemma {:induction false} StepKeeps(q: Query, s: Sys, k: nat)
    requires ValidQuery(q) && Kept(q, s) && k < |s.flying|
    ensures Kept(q, Deliver(q, s, k))
  {
    if s.flying[k].dest >= q.n {
      AnswerKeeps(q, s, k);
    } else if s.flying[k].dest in s.entries {
      GatherKeeps(q, s, k);
    } else {
      MeetKeeps(q, s, k);
    }
  }

  // ---- how many deliveries there can be ----

  function AllAsks(q: Query, ms: seq<Msg>): nat
  {
    if ms == [] then 0 else One(ms[0].dest < q.n && IsAsk(q, ms[0], ms[0].dest)) + AllAsks(q, ms[1..])
  }

  lemma {:induction false} AllAsksAppend(q: Query, a: seq<Msg>, b: seq<Msg>)
    ensures AllAsks(q, a + b) == AllAsks(q, a) + AllAsks(q, b)
    ensures AllAsks(q, a) <= |a|
  {
    if a == [] {
      assert a + b == b;
    } else {
      assert (a + b)[1..] == a[1..] + b;
      AllAsksAppend(q, a[1..], b);
    }
  }

  lemma {:induction false} AllAsksWithout(q: Query, ms: seq<Msg>, k: nat)
    requires k < |ms|
    ensures AllAsks(q, ms) == AllAsks(q, ms[..k] + ms[k + 1..]) + One(ms[k].dest < q.n && IsAsk(q, ms[k], ms[k].dest))
  {
    assert ms == ms[..k] + ([ms[k]] + ms[k + 1..]);
    AllAsksAppend(q, ms[..k], [ms[k]] + ms[k + 1..]);
    AllAsksAppend(q, [ms[k]], ms[k + 1..]);
    AllAsksAppend(q, ms[..k], ms[k + 1..]);
    assert [ms[k]][1..] == [];
  }

  lemma {:induction false} AllAsksForwards(q: Query, x: nat, ds: seq<Direction>)
    requires ValidQuery(q) && x < q.n && GoodPorts(q, x, ds)
    ensures AllAsks(q, Forwards(x, ds)) == |Forwards(x, ds)| == |ds|
  {
    if ds != [] {
      assert ds[0] in ds && forall d | d in ds[1..] :: d in ds;
      PortOut(q, x, ds[0]);
      AllAsksForwards(q, x, ds[1..]);
    }
  }

  lemma {:induction false} SettleAsks(q: Query, s: Sys, x: nat, e: Entry)
    requires ValidQuery(q) && x < q.n && e.origin == Incoming(q, x)
    ensures var s' := Settle(q, s, x, e);
            && AllAsks(q, s'.flying) == AllAsks(q, s.flying)
            && |s'.flying| + |s.replied| == |s.flying| + |s'.replied| && s'.visited == s.visited
  {
    ReplyRank(q, x);
    BackFurther(q, x);
    var m := Msg(x, Back(q, x), e.values, e.hops);
    if m.dest < q.n { BackFurther(q, m.dest); }
    AllAsksAppend(q, s.flying, [m]);
    assert [m][1..] == [];
  }

  /** Deliveries so far, against what has been sent. */
  ghost predicate Paced(q: Query, s: Sys, deliveries: nat)
  {
    && deliveries + |s.flying| == |s.visited| + AllAsks(q, s.flying) + |s.replied|
    && (forall x | x in s.visited || x in s.replied :: x < q.n)
  }

  lemma {:induction false} MeetPaced(q: Query, s: Sys, k: nat, deliveries: nat)
    requires ValidQuery(q) && Meets(q, s, k) && Paced(q, s, deliveries)
    ensures Paced(q, Deliver(q, s, k), deliveries + 1)
  {
    var e, ds := MeetFacts(q, s, k);
    SpreadPaced(q, s, k, e, ds, deliveries);
  }

  lemma {:induction false} SpreadPaced(q: Query, s: Sys, k: nat, e: Entry, ds: seq<Direction>, deliveries: nat)
    requires ValidQuery(q) && k < |s.flying| && s.flying[k].dest < q.n
    requires IsAsk(q, s.flying[k], s.flying[k].dest) && GoodPorts(q, s.flying[k].dest, ds)
    requires e.origin == Incoming(q, s.flying[k].dest) && Paced(q, s, deliveries)
    ensures Paced(q, Settle(q, Spread(s, k, s.flying[k].dest, ds), s.flying[k].dest, e), deliveries + 1)
  {
    var x := s.flying[k].dest;
    AllAsksWithout(q, s.flying, k);
    AllAsksForwards(q, x, ds);
    AllAsksAppend(q, Rest(s, k), Forwards(x, ds));
    SettleAsks(q, Spread(s, k, x, ds), x, e);
  }

  lemma {:induction false} GatherPaced(q: Query, s: Sys, k: nat, deliveries: nat)
    requires ValidQuery(q) && Gathers(q, s, k) && Paced(q, s, deliveries)
    ensures Paced(q, Deliver(q, s, k), deliveries + 1)
  {
    var m, x := s.flying[k], s.flying[k].dest;
    assert m in s.flying;
    WhatArrives(q, s, m);
    AllAsksWithout(q, s.flying, k);
    NoAskElse(q, m);
    var e := GatherFacts(q, s, k);
    RepliedIs(s.entries[x], Port(x, m.origin), m.values, m.hops + 1);
    SettleAsks(q, s.(flying := Rest(s, k)), x, e);
  }

  lemma {:induction false} StepPaced(q: Query, s: Sys, k: nat, deliveries: nat)
    requires ValidQuery(q) && Kept(q, s) && k < |s.flying| && Paced(q, s, deliveries)
    ensures Paced(q, Deliver(q, s, k), deliveries + 1)
  {
    var m := s.flying[k];
    if m.dest >= q.n {
      assert m in s.flying;
      WhatArrives(q, s, m);
      AllAsksWithout(q, s.flying, k);
      NoAskElse(q, m);
    } else if m.dest in s.entries {
      GatherPaced(q, s, k, deliveries);
    } else {
      MeetPaced(q, s, k, deliveries);
    }
  }

  lemma {:induction false} NoAskElse(q: Query, m: Msg)
    requires ValidQuery(q) && m.origin < q.n && IsReply(q, m, m.origin)
    ensures m.dest < q.n ==> !IsAsk(q, m, m.dest)
  {
    BackFurther(q, m.origin);
    if m.dest < q.n { BackFurther(q, m.dest); }
  }

  // ---- whole queries ----

  lemma {:induction false} AskKept(q: Query)
    requires ValidQuery(q)
    ensures Kept(q, Ask(q)) && Paced(q, Ask(q), 0)
  {
    var s, m := Ask(q), Msg(q.agent, q.c, map[], 0);
    assert IsAsk(q, m, q.c) && s.flying[1..] == [];
    forall y: nat | y < q.n
      ensures Pending(q, s, y) && Visited(q, s, y)
    {
      OneEdge(q, m, q.c, y);
      BackFurther(q, y);
    }
  }

  predicate CanDeliver(q: Query, s: Sys, ks: seq<nat>)
    requires Sized(q)
    decreases |ks|
  {
    ks == [] || (ks[0] < |s.flying| && CanDeliver(q, Deliver(q, s, ks[0]), ks[1..]))
  }

  function DeliverAll(q: Query, s: Sys, ks: seq<nat>): Sys
    requires Sized(q) && CanDeliver(q, s, ks)
    decreases |ks|
  {
    if ks == [] then s else DeliverAll(q, Deliver(q, s, ks[0]), ks[1..])
  }

  lemma {:induction false} RunKept(q: Query, s: Sys, ks: seq<nat>, deliveries: nat)
    requires ValidQuery(q) && Kept(q, s) && Paced(q, s, deliveries) && CanDeliver(q, s, ks)
    ensures Kept(q, DeliverAll(q, s, ks)) && Paced(q, DeliverAll(q, s, ks), deliveries + |ks|)
    decreases |ks|
  {
    if ks != [] {
      StepKeeps(q, s, ks[0]);
      StepPaced(q, s, ks[0], deliveries);
      RunKept(q, Deliver(q, s, ks[0]), ks[1..], deliveries + 1);
    }
  }

  /** No CLP is visited, or replies, twice; and only reached ones are visited. */
  lemma {:induction false} VisitedOnce(q: Query, s: Sys, y: nat)
    requires ValidQuery(q) && Kept(q, s) && y < q.n
    ensures EndFlood.TimesIn(s.visited, y) <= One(OpenPath(q, y, q.c))
    ensures EndFlood.TimesIn(s.replied, y) <= EndFlood.TimesIn(s.visited, y)
    decreases Dist(y, q.c)
  {
    assert Visited(q, s, y);
    if y != q.c {
      BackFurther(q, y);
      VisitedOnce(q, s, Back(q, y));
    }
  }

  /** As long as a CLP waits, something is on its way to or from what it waits for. */
  lemma {:induction false} WaitsForSomething(q: Query, s: Sys, x: nat)
    requires ValidQuery(q) && Kept(q, s) && x in s.entries
    ensures s.flying != []
    decreases 2 * q.n - Dist(x, q.c)
  {
    var e := s.entries[x];
    assert EntryOk(q, e, x);
    var d := Outstanding(e)[0];
    assert d in Outstanding(e);
    PortOut(q, x, d);
    var y := Behind(x, d);
    BackFurther(q, y);
    DistBound(y, q.c);
    assert Pending(q, s, y);
    if y in s.entries { WaitsForSomething(q, s, y); }
  }

  /** Once the agent has its answer, nothing is left anywhere. */
  lemma {:induction false} NothingLeft(q: Query, s: Sys, y: nat)
    requires ValidQuery(q) && Kept(q, s) && y < q.n && s.answers != []
    ensures y !in s.entries && OnEdges(q, s.flying, y) == 0 && |s.answers| == 1
    ensures EndFlood.TimesIn(s.replied, y) == EndFlood.TimesIn(s.visited, y) == One(OpenPath(q, y, q.c))
    decreases Dist(y, q.c)
  {
    assert Pending(q, s, y) && Visited(q, s, y);
    if y != q.c {
      BackFurther(q, y);
      NothingLeft(q, s, Back(q, y));
      NoEdgeNoAsk(q, s.flying, y);
    } else {
      NoEdgeNoAsk(q, s.flying, y);
    }
  }

  lemma {:induction false} NoEdgeNoAsk(q: Query, ms: seq<Msg>, y: nat)
    ensures Asks(q, ms, y) <= OnEdges(q, ms, y)
  {
    if ms != [] { NoEdgeNoAsk(q, ms[1..], y); }
  }

  /** Scatter and gather. On a tree of any depth and in any order of delivery: no CLP is
      visited or replies twice, and there are at most 2n deliveries; while the agent has
      no answer some message is in flight; and when it has its answer there is only that one,
      it is exactly the union of what RangeRead finds at the CLPs reached through overlapping
      ports, each of these has replied once, and no entry and no message is left. */
  lemma {:induction false} QueryIsAnswered(q: Query, ks: seq<nat>)
    requires ValidQuery(q) && CanDeliver(q, Ask(q), ks)
    ensures var s := DeliverAll(q, Ask(q), ks);
            && (forall y: nat | y < q.n ::
                  EndFlood.TimesIn(s.visited, y) <= 1 && EndFlood.TimesIn(s.replied, y) <= 1)
            && |ks| <= 2 * q.n
            && (s.answers == [] ==> s.flying != [])
            && (s.answers != [] ==>
                  && |s.answers| == 1 && IsUnion(q, s.answers[0], q.c)
                  && s.entries == map[] && s.flying == []
                  && forall y: nat | y < q.n :: EndFlood.TimesIn(s.replied, y) == One(OpenPath(q, y, q.c)))
  {
    AskKept(q);
    RunKept(q, Ask(q), ks, 0);
    var s := DeliverAll(q, Ask(q), ks);
    forall y: nat | y < q.n
      ensures EndFlood.TimesIn(s.visited, y) <= 1 && EndFlood.TimesIn(s.replied, y) <= 1
    {
      VisitedOnce(q, s, y);
    }
    FewDeliveries(q, s, |ks|);
    if s.answers == [] {
      assert Pending(q, s, q.c);
      if q.c in s.entries { WaitsForSomething(q, s, q.c); }
    } else {
      AnsweredIsDone(q, s);
    }
  }

  lemma {:induction false} FewDeliveries(q: Query, s: Sys, deliveries: nat)
    requires ValidQuery(q) && Paced(q, s, deliveries)
    requires forall y: nat | y < q.n :: EndFlood.TimesIn(s.visited, y) <= 1 && EndFlood.TimesIn(s.replied, y) <= 1
    ensures deliveries <= 2 * q.n
  {
    EndFlood.BelowAll(s.visited, q.n);
    EndFlood.OnceEach(s.visited, q.n);
    EndFlood.BelowAll(s.replied, q.n);
    EndFlood.OnceEach(s.replied, q.n);
    AllAsksAppend(q, s.flying, []);
  }

  lemma {:induction false} AnsweredIsDone(q: Query, s: Sys)
    requires ValidQuery(q) && Kept(q, s) && s.answers != []
    ensures |s.answers| == 1 && IsUnion(q, s.answers[0], q.c) && s.entries == map[] && s.flying == []
    ensures forall y: nat | y < q.n :: EndFlood.TimesIn(s.replied, y) == One(OpenPath(q, y, q.c))
  {
    forall x | x in s.entries
      ensures x < q.n
    {
      assert EntryOk(q, s.entries[x], x);
    }
    if s.flying != [] {
      var m := s.flying[0];
      assert m in s.flying && MsgOk(q, m);
      EdgeMember(q, s.flying, m, if m.dest < q.n && IsAsk(q, m, m.dest) then m.dest else m.origin);
    }
    assert s.answers[0] in s.answers;
    NothingLeft(q, s, q.c);
    forall y: nat | y < q.n
      ensures y !in s.entries && OnEdges(q, s.flying, y) == 0
      ensures EndFlood.TimesIn(s.replied, y) == One(OpenPath(q, y, q.c))
    {
      NothingLeft(q, s, y);
    }
  }
}
