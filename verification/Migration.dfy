/** Variables that move (src/lp/Clp.cpp): where they are, and that nobody notices. */
module Migration {
  import opened Base
  import opened Tree
  import opened Periods
  import opened PeriodLaws
  import opened LiveWrites
  import opened History
  import opened RouteTable
  import opened SharedState

  // MigrateStateVariables and ProcessMessage for a StateMigrationMessage: where a variable is,
  // whether every pointer still leads to it, and what the moves do to its history.

  /** What one CLP holds, and the port it believes leads to each variable. */
  datatype Clp = Clp(store: map<nat, seq<Period>>, dirs: map<nat, Direction>)

  datatype Flight = Flight(from: nat, to: nat, payload: map<nat, seq<Period>>)

  datatype Sys = Sys(clps: seq<Clp>, flying: seq<Flight>)

  /** The source moves variables direction by direction, one message for each. */
  datatype Action =
    | Access(c: nat, v: nat, op: Op)
    | Depart(c: nat, d: Direction, vs: seq<nat>)
    | Arrive(k: nat)

  /** The neighbour behind a port. */
  function NeighbourBy(c: nat, d: Direction): nat
    requires c > 0 || d != Up
  {
    match d
    case Up => Parent(c)
    case Left => 2 * c + 1
    case _ => 2 * c + 2
  }

  predicate LeadsToClp(c: nat, d: Direction, n: nat)
  {
    d != Here && d != DirectionSize && (d == Up ==> c > 0) && NeighbourBy(c, d) < n
  }

  predicate Enabled(s: Sys, a: Action)
  {
    match a
    case Access(c, v, op) => c < |s.clps| && v in s.clps[c].store && History.Enabled(s.clps[c].store[v], op)
    case Depart(c, d, vs) =>
      c < |s.clps| && LeadsToClp(c, d, |s.clps|) && forall v | v in vs :: v in s.clps[c].store
    case Arrive(k) => k < |s.flying| && s.flying[k].to < |s.clps|
  }

  /** Copied, emptied and deleted here, and the pointer set after them. */
  function Emigrated(c: Clp, d: Direction, vs: seq<nat>): Clp
  {
    Clp(Without(c.store, vs), Pointed(c.dirs, d, vs))
  }

  function Without(store: map<nat, seq<Period>>, vs: seq<nat>): map<nat, seq<Period>>
  {
    map v | v in store && v !in vs :: store[v]
  }

  function Pointed(dirs: map<nat, Direction>, d: Direction, vs: seq<nat>): map<nat, Direction>
  {
    map v | v in dirs.Keys + (set w | w in vs) :: if v in vs then d else dirs[v]
  }

  function Payload(c: Clp, vs: seq<nat>): map<nat, seq<Period>>
    requires forall v | v in vs :: v in c.store
  {
    map v | v in vs :: c.store[v]
  }

  /** Replayed here, and the pointer set to here. */
  function Immigrated(c: Clp, payload: map<nat, seq<Period>>): Clp
  {
    Clp(Replayed(c.store, payload), PointedHere(c.dirs, payload))
  }

  function Replayed(store: map<nat, seq<Period>>, payload: map<nat, seq<Period>>): map<nat, seq<Period>>
  {
    map v | v in store.Keys + payload.Keys :: if v in payload then Replay([], payload[v]) else store[v]
  }

  function PointedHere(dirs: map<nat, Direction>, payload: map<nat, seq<Period>>): map<nat, Direction>
  {
    map v | v in dirs.Keys + payload.Keys :: if v in payload then Here else dirs[v]
  }

  function Apply(s: Sys, a: Action): Sys
    requires Enabled(s, a)
  {
    match a
    case Access(c, v, op) =>
      var clp := s.clps[c];
      s.(clps := s.clps[c := clp.(store := clp.store[v := Step(clp.store[v], op)])])
    case Depart(c, d, vs) =>
      Sys(s.clps[c := Emigrated(s.clps[c], d, vs)],
          s.flying + [Flight(c, NeighbourBy(c, d), Payload(s.clps[c], vs))])
    case Arrive(k) =>
      var f := s.flying[k];
      Sys(s.clps[f.to := Immigrated(s.clps[f.to], f.payload)], s.flying[..k] + s.flying[k + 1..])
  }

  // ---- where a variable is ----

  datatype Spot = At(h: nat) | Crossing(from: nat, to: nat)

  /** Exactly the flight from a to b carries v, once. */
  ghost predicate CarriedOnce(flying: seq<Flight>, v: nat, k: nat)
    requires k < |flying|
  {
    v in flying[k].payload && forall j | 0 <= j < |flying| && j != k :: v !in flying[j].payload
  }

  ghost predicate NotCarried(flying: seq<Flight>, v: nat)
  {
    forall j | 0 <= j < |flying| :: v !in flying[j].payload
  }

  /** CLP c's view of v when v is at spot: it holds v exactly when v is there, and its
      pointer is the port on the way to the host, or to the far end of the edge v is crossing;
      only that end itself still points back. */
  ghost predicate Sees(clp: Clp, c: nat, v: nat, spot: Spot)
  {
    && v in clp.dirs
    && match spot
       case At(h) => (v in clp.store <==> c == h) && clp.dirs[v] == DirTo(c, h)
       case Crossing(a, b) => v !in clp.store && clp.dirs[v] == DirTo(c, if c == b then a else b)
  }

  ghost predicate Located(s: Sys, v: nat, spot: Spot)
  {
    && (forall c {:trigger s.clps[c]} | 0 <= c < |s.clps| :: Sees(s.clps[c], c, v, spot))
    && match spot
       case At(h) => h < |s.clps| && NotCarried(s.flying, v)
       case Crossing(a, b) =>
         && a < |s.clps| && b < |s.clps| && Adjacent(a, b)
         && exists k :: 0 <= k < |s.flying| && CarriedOnce(s.flying, v, k)
                        && s.flying[k].from == a && s.flying[k].to == b
  }

  function NextSpot(s: Sys, a: Action, v: nat, spot: Spot): Spot
    requires Enabled(s, a)
  {
    match a
    case Access(_, _, _) => spot
    case Depart(c, d, vs) => if v in vs then Crossing(c, NeighbourBy(c, d)) else spot
    case Arrive(k) => if v in s.flying[k].payload then At(s.flying[k].to) else spot
  }

  lemma {:induction false} DepartLocated(s: Sys, c: nat, d: Direction, vs: seq<nat>, v: nat, spot: Spot)
    requires Enabled(s, Depart(c, d, vs)) && Located(s, v, spot) && v in vs
    ensures Located(Apply(s, Depart(c, d, vs)), v, Crossing(c, NeighbourBy(c, d)))
    ensures spot == At(c)
  {
    var s', b := Apply(s, Depart(c, d, vs)), NeighbourBy(c, d);
    assert Sees(s.clps[c], c, v, spot);
    forall x | 0 <= x < |s.clps|
      ensures Sees(s'.clps[x], x, v, Crossing(c, b))
    {
      assert Sees(s.clps[x], x, v, spot);
      if x != c && x != b { SameSide(c, b, x); }
    }
    assert CarriedOnce(s'.flying, v, |s.flying|);
  }

  lemma {:induction false} ArriveLocated(s: Sys, k: nat, v: nat, spot: Spot)
    requires Enabled(s, Arrive(k)) && Located(s, v, spot) && v in s.flying[k].payload
    ensures Located(Apply(s, Arrive(k)), v, At(s.flying[k].to))
    ensures spot == Crossing(s.flying[k].from, s.flying[k].to)
    ensures v !in s.clps[s.flying[k].to].store
  {
    var s', b := Apply(s, Arrive(k)), s.flying[k].to;
    assert spot.Crossing?;
    forall x | 0 <= x < |s.clps|
      ensures Sees(s'.clps[x], x, v, At(b))
    {
      assert Sees(s.clps[x], x, v, spot);
    }
  }

  lemma {:induction false} StepLocated(s: Sys, a: Action, v: nat, spot: Spot)
    requires Enabled(s, a) && Located(s, v, spot)
    ensures Located(Apply(s, a), v, NextSpot(s, a, v, spot))
  {
    var s' := Apply(s, a);
    match a
    case Access(c, w, op) =>
      assert forall x | 0 <= x < |s.clps| :: Sees(s.clps[x], x, v, spot) ==> Sees(s'.clps[x], x, v, spot);
    case Depart(c, d, vs) =>
      if v in vs {
        DepartLocated(s, c, d, vs, v, spot);
      } else {
        OtherDeparts(s, c, d, vs, v, spot);
      }
    case Arrive(k) =>
      if v in s.flying[k].payload {
        ArriveLocated(s, k, v, spot);
      } else {
        OtherArrives(s, k, v, spot);
      }
  }

  lemma {:induction false} OtherDeparts(s: Sys, c: nat, d: Direction, vs: seq<nat>, v: nat, spot: Spot)
    requires Enabled(s, Depart(c, d, vs)) && Located(s, v, spot) && v !in vs
    ensures Located(Apply(s, Depart(c, d, vs)), v, spot)
  {
    var s' := Apply(s, Depart(c, d, vs));
    assert forall x | 0 <= x < |s.clps| :: Sees(s.clps[x], x, v, spot) ==> Sees(s'.clps[x], x, v, spot);
    if spot.Crossing? {
      var k :| 0 <= k < |s.flying| && CarriedOnce(s.flying, v, k) && s.flying[k].from == spot.from && s.flying[k].to == spot.to;
      assert CarriedOnce(s'.flying, v, k);
    }
  }

  lemma {:induction false} OtherArrives(s: Sys, k: nat, v: nat, spot: Spot)
    requires Enabled(s, Arrive(k)) && Located(s, v, spot) && v !in s.flying[k].payload
    ensures Located(Apply(s, Arrive(k)), v, spot)
  {
    var s' := Apply(s, Arrive(k));
    assert forall x | 0 <= x < |s.clps| :: Sees(s.clps[x], x, v, spot) ==> Sees(s'.clps[x], x, v, spot);
    if spot.Crossing? {
      var j :| 0 <= j < |s.flying| && CarriedOnce(s.flying, v, j) && s.flying[j].from == spot.from && s.flying[j].to == spot.to;
      assert CarriedOnce(s'.flying, v, if j < k then j else j - 1);
    }
  }

  // ---- runs ----

  predicate Possible(s: Sys, run: seq<Action>)
    decreases |run|
  {
    run == [] || (Enabled(s, run[0]) && Possible(Apply(s, run[0]), run[1..]))
  }

  function Run(s: Sys, run: seq<Action>): Sys
    requires Possible(s, run)
    decreases |run|
  {
    if run == [] then s else Run(Apply(s, run[0]), run[1..])
  }

  /** In every reachable state a variable is in exactly one place, every pointer leads there,
      and none but the host's own is Here. */
  lemma {:induction false} AlwaysLocated(s: Sys, run: seq<Action>, v: nat, spot: Spot) returns (now: Spot)
    requires Possible(s, run) && Located(s, v, spot)
    ensures Located(Run(s, run), v, now)
    ensures forall c | 0 <= c < |Run(s, run).clps| ::
              v in Run(s, run).clps[c].dirs && (Run(s, run).clps[c].dirs[v] == Here <==> v in Run(s, run).clps[c].store)
    decreases |run|
  {
    if run == [] {
      now := spot;
      forall c | 0 <= c < |s.clps|
        ensures v in s.clps[c].dirs && (s.clps[c].dirs[v] == Here <==> v in s.clps[c].store)
      {
        assert Sees(s.clps[c], c, v, spot);
        if spot.Crossing? { PortIsNotHere(spot.from, spot.to); }
      }
    } else {
      StepLocated(s, run[0], v, spot);
      now := AlwaysLocated(Apply(s, run[0]), run[1..], v, NextSpot(s, run[0], v, spot));
    }
  }

  lemma PortIsNotHere(a: nat, b: nat)
    requires Adjacent(a, b)
    ensures a != b && DirTo(a, b) != Here && DirTo(b, a) != Here
  {
  }

  /** Following the pointers of v from CLP c. */
  function Follow(s: Sys, v: nat, c: nat, fuel: nat): seq<nat>
    decreases fuel
  {
    if fuel == 0 || c >= |s.clps| || v !in s.clps[c].dirs || !LeadsToClp(c, s.clps[c].dirs[v], |s.clps|) then []
    else
      var next := NeighbourBy(c, s.clps[c].dirs[v]);
      [next] + Follow(s, v, next, fuel - 1)
  }

  /** A message for a variable at rest finds it from anywhere, in exactly the distance. */
  lemma {:induction false} VariableIsFound(s: Sys, v: nat, h: nat, c: nat, fuel: nat)
    requires Located(s, v, At(h)) && c < |s.clps| && fuel >= Dist(c, h)
    ensures |Follow(s, v, c, fuel)| == Dist(c, h)
    ensures c != h ==> Follow(s, v, c, fuel)[Dist(c, h) - 1] == h
    decreases fuel
  {
    assert Sees(s.clps[c], c, v, At(h));
    if c != h {
      var next := Toward(c, h);
      TowardAdjacent(c, h);
      PortOfFirstHop(c, h, |s.clps|);
      HopChangesDist(c, h, next);
      VariableIsFound(s, v, h, next, fuel - 1);
    }
  }

  /** The pointers to a crossing variable lead to the end it left; only that end points on. */
  lemma {:induction false} CrossingPointer(s: Sys, v: nat, a: nat, b: nat, c: nat)
    requires Located(s, v, Crossing(a, b)) && c < |s.clps|
    ensures var next := if c == a then b else Toward(c, a);
            && v in s.clps[c].dirs && LeadsToClp(c, s.clps[c].dirs[v], |s.clps|)
            && NeighbourBy(c, s.clps[c].dirs[v]) == next
  {
    assert Sees(s.clps[c], c, v, Crossing(a, b));
    if c == a {
      PortOfFirstHop(a, b, |s.clps|);
    } else {
      if c != b { SameSide(a, b, c); }
      PortOfFirstHop(c, a, |s.clps|);
    }
  }

  lemma {:induction false} CrossingIsFollowed(s: Sys, v: nat, a: nat, b: nat, c: nat)
    requires Located(s, v, Crossing(a, b)) && c < |s.clps|
    ensures var path := [c] + Follow(s, v, c, Dist(c, a) + 1);
            |path| == Dist(c, a) + 2 && path[Dist(c, a)] == a && path[Dist(c, a) + 1] == b
    decreases Dist(c, a)
  {
    CrossingPointer(s, v, a, b, c);
    if c == a {
      assert Follow(s, v, b, 0) == [];
    } else {
      var next := Toward(c, a);
      PortOfFirstHop(c, a, |s.clps|);
      HopChangesDist(c, a, next);
      CrossingIsFollowed(s, v, a, b, next);
      assert Follow(s, v, c, Dist(c, a) + 1) == [next] + Follow(s, v, next, Dist(next, a) + 1);
    }
  }

  /** A message for a variable that is crossing from a to b is led to a from anywhere, and from
      there over the edge the variable is crossing, behind it: channels being in order, b
      holds the variable when the message comes. */
  lemma {:induction false} CrossingIsFound(s: Sys, v: nat, a: nat, b: nat, k: nat, c: nat)
    requires Located(s, v, Crossing(a, b)) && c < |s.clps| && k < |s.flying| && v in s.flying[k].payload
    ensures var path := [c] + Follow(s, v, c, Dist(c, a) + 1);
            |path| == Dist(c, a) + 2 && path[Dist(c, a)] == a && path[Dist(c, a) + 1] == b
    ensures s.flying[k].from == a && s.flying[k].to == b && v in Apply(s, Arrive(k)).clps[b].store
  {
    CrossingIsFollowed(s, v, a, b, c);
    ArriveLocated(s, k, v, Crossing(a, b));
    assert Sees(Apply(s, Arrive(k)).clps[b], b, v, At(b));
  }

  /** At start-up every CLP's table is the one its constructor fills, and each variable is
      listed by one CLP. */
  lemma {:induction false} StartsLocated(s: Sys, l: Layout, v: nat, h: nat)
    requires ValidLayout(l) && |s.clps| == l.n && s.flying == [] && h < l.n
    requires forall c | 0 <= c < l.n :: VariablesRouted(s.clps[c].dirs, l, c)
    requires forall c | 0 <= c < l.n :: v in s.clps[c].store <==> c in l.vars && v in l.vars[c]
    requires h in l.vars && v in l.vars[h] && forall c | c in l.vars && v in l.vars[c] :: c == h
    ensures Located(s, v, At(h))
  {
    OnlyHost(l.vars, l.n, v, h);
    forall c | 0 <= c < l.n
      ensures Sees(s.clps[c], c, v, At(h))
    {
      assert VariablesRouted(s.clps[c].dirs, l, c);
    }
  }

  lemma {:induction false} OnlyHost(vars: map<nat, seq<nat>>, bound: nat, v: nat, h: nat)
    requires h in vars && v in vars[h] && forall c | c in vars && v in vars[c] :: c == h
    ensures HostBelow(vars, bound, v) == if h < bound then Some(h) else None
  {
    if bound > 0 {
      OnlyHost(vars, bound - 1, v, h);
    }
  }

  // ---- what moving does to the history ----

  ghost predicate HasContents(s: Sys, v: nat, ps: seq<Period>)
  {
    && (forall c {:trigger s.clps[c]} | 0 <= c < |s.clps| && v in s.clps[c].store :: s.clps[c].store[v] == ps)
    && (forall k {:trigger s.flying[k]} | 0 <= k < |s.flying| && v in s.flying[k].payload ::
          s.flying[k].payload[v] == ps)
  }

  function NextContents(s: Sys, a: Action, v: nat, ps: seq<Period>): seq<Period>
    requires Enabled(s, a)
    requires a.Access? && a.v == v ==> History.Enabled(ps, a.op)
  {
    match a
    case Access(_, w, op) => if w == v then Step(ps, op) else ps
    case Depart(_, _, _) => ps
    case Arrive(k) => if v in s.flying[k].payload then Replay([], ps) else ps
  }

  function OpsFor(run: seq<Action>, v: nat): seq<Op>
  {
    if run == [] then []
    else (if run[0].Access? && run[0].v == v then [run[0].op] else []) + OpsFor(run[1..], v)
  }

  lemma {:induction false} StepContents(s: Sys, a: Action, v: nat, spot: Spot, ps: seq<Period>)
    requires Enabled(s, a) && Located(s, v, spot) && HasContents(s, v, ps)
    ensures a.Access? && a.v == v ==> History.Enabled(ps, a.op)
    ensures HasContents(Apply(s, a), v, NextContents(s, a, v, ps))
  {
    var s' := Apply(s, a);
    match a
    case Access(c, w, op) =>
      assert Sees(s.clps[c], c, v, spot);
      forall x | 0 <= x < |s.clps| && x != c
        ensures w == v ==> v !in s.clps[x].store
      {
        assert Sees(s.clps[x], x, v, spot);
      }
    case Depart(c, d, vs) =>
    case Arrive(k) =>
      if v in s.flying[k].payload { ArriveContents(s, k, v, spot, ps); }
  }

  lemma {:induction false} ArriveContents(s: Sys, k: nat, v: nat, spot: Spot, ps: seq<Period>)
    requires Enabled(s, Arrive(k)) && Located(s, v, spot) && HasContents(s, v, ps) && v in s.flying[k].payload
    ensures HasContents(Apply(s, Arrive(k)), v, Replay([], ps))
  {
    var s' := Apply(s, Arrive(k));
    ArriveLocated(s, k, v, spot);
    forall x | 0 <= x < |s'.clps| && v in s'.clps[x].store
      ensures s'.clps[x].store[v] == Replay([], ps)
    {
      assert Sees(s'.clps[x], x, v, At(s.flying[k].to));
      assert s.flying[k].payload[v] == ps;
    }
  }

  lemma {:induction false} SameFind(ps: seq<Period>, qs: seq<Period>, t: nat)
    requires SameList(ps, qs)
    ensures Find(ps, t) == Find(qs, t) && FindStart(ps, t) == FindStart(qs, t)
  {
    FindIs(qs, t, Find(ps, t));
  }

  /** Lists that agree on everything but recorded reads still do after the same operation. */
  lemma {:induction false} SameStep(ps: seq<Period>, qs: seq<Period>, op: Op)
    requires SameList(ps, qs) && History.Enabled(ps, op)
    ensures History.Enabled(qs, op) && SameList(Step(ps, op), Step(qs, op))
  {
    SameFind(ps, qs, op.t);
    match op
    case OpRead(agent, t) =>
    case OpUndoRead(agent, t) =>
    case OpWrite(agent, value, t) => SameWrite(ps, qs, agent, value, t);
    case OpUndoWrite(agent, t) => SameUndo(ps, qs, agent, t);
    case OpCollect(t) => SameCollect(ps, qs, t);
  }

  lemma {:induction false} SameWrite(ps: seq<Period>, qs: seq<Period>, agent: LpId, value: Value, t: nat)
    requires SameList(ps, qs)
    ensures SameList(Write(ps, agent, value, t), Write(qs, agent, value, t))
  {
    SameFind(ps, qs, t);
    if ps == [] {
      assert qs == [];
    } else if !WriteAccepted(ps, agent, t) {
      assert !WriteAccepted(qs, agent, t);
    } else {
      WriteSplices(ps, agent, value, t);
      WriteSplices(qs, agent, value, t);
    }
  }

  lemma {:induction false} SameUndo(ps: seq<Period>, qs: seq<Period>, agent: LpId, t: nat)
    requires SameList(ps, qs)
    ensures SameList(Undo(ps, agent, t), Undo(qs, agent, t))
  {
    SameFind(ps, qs, t);
    if Undoes(ps, agent, t) {
      UndoRemoves(ps, agent, t);
      UndoRemoves(qs, agent, t);
    }
  }

  lemma {:induction false} SameCollect(ps: seq<Period>, qs: seq<Period>, t: nat)
    requires SameList(ps, qs)
    ensures SameList(Collect(ps, t), Collect(qs, t))
  {
    SameFind(ps, qs, t);
    if Find(ps, t) >= 0 {
      SameFind(MoveBase(ps, t), MoveBase(qs, t), t);
    }
  }

  /** Moving is invisible to a variable's history. However it moves between accesses, its
      list stays the one the same accesses would have left had it never moved, up to recorded
      reads; so every value is the same. */
  lemma {:induction false} MovesAreInvisible(s: Sys, run: seq<Action>, v: nat, spot: Spot, ps: seq<Period>, still: seq<Period>)
    returns (now: seq<Period>)
    requires Possible(s, run) && Located(s, v, spot) && HasContents(s, v, ps)
    requires WellKept(ps) && WellKept(still) && SameList(ps, still)
    ensures HasContents(Run(s, run), v, now) && WellKept(now)
    ensures Legal(still, OpsFor(run, v)) && SameList(now, History.Run(still, OpsFor(run, v)))
    ensures forall u :: ValueAt(now, u) == ValueAt(History.Run(still, OpsFor(run, v)), u)
    decreases |run|
  {
    if run == [] {
      now := ps;
      forall u
        ensures ValueAt(ps, u) == ValueAt(still, u)
      {
        SameFind(ps, still, u);
      }
    } else {
      var a := run[0];
      StepContents(s, a, v, spot, ps);
      StepLocated(s, a, v, spot);
      var next, still' := NextStill(s, a, v, ps, still);
      now := MovesAreInvisible(Apply(s, a), run[1..], v, NextSpot(s, a, v, spot), next, still');
      if a.Access? && a.v == v {
        assert OpsFor(run, v)[0] == a.op && OpsFor(run, v)[1..] == OpsFor(run[1..], v);
      } else {
        assert OpsFor(run, v) == OpsFor(run[1..], v);
      }
    }
  }

  lemma {:induction false} NextStill(s: Sys, a: Action, v: nat, ps: seq<Period>, still: seq<Period>)
    returns (next: seq<Period>, still': seq<Period>)
    requires Enabled(s, a) && WellKept(ps) && WellKept(still) && SameList(ps, still)
    requires a.Access? && a.v == v ==> History.Enabled(ps, a.op)
    ensures next == NextContents(s, a, v, ps) && WellKept(next) && WellKept(still') && SameList(next, still')
    ensures if a.Access? && a.v == v then History.Enabled(still, a.op) && still' == Step(still, a.op) else still' == still
  {
    next, still' := NextContents(s, a, v, ps), still;
    if a.Access? && a.v == v {
      SameStep(ps, still, a.op);
      StepKeeps(ps, a.op);
      StepKeeps(still, a.op);
      still' := Step(still, a.op);
    } else if a.Arrive? && v in s.flying[a.k].payload {
      ReplayPreserves(ps, map[]);
    }
  }
}
