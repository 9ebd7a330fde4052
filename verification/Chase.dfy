/** A message that chases a variable while it moves on. */
module Chase {
  import opened Tree
  import opened RouteTable
  import opened Migration

  // Router::Route looks a message's variable up anew at every CLP (src/routing/Router.cpp).

  /** At a CLP, or between two; behind when it is in the channel the variable crosses, behind it. */
  datatype Where = Held(c: nat) | Going(from: nat, to: nat, behind: bool)

  /** spot is where variable v is; hops and moves count what the message and v have done. */
  datatype Hunt = Hunt(s: Sys, v: nat, spot: Spot, place: Where, hops: nat, moves: nat)

  datatype Event = Act(a: Action) | SetOut | ComeIn

  /** The CLP that the pointer of CLP c leads to. */
  function NextClp(c: nat, spot: Spot): nat
    requires spot != At(c)
  {
    match spot
    case At(h) => Toward(c, h)
    case Crossing(a, b) => if c == a then b else Toward(c, a)
  }

  lemma {:induction false} PointerLeadsOn(s: Sys, v: nat, spot: Spot, c: nat)
    requires Located(s, v, spot) && c < |s.clps| && spot != At(c)
    ensures v in s.clps[c].dirs && LeadsToClp(c, s.clps[c].dirs[v], |s.clps|)
    ensures NeighbourBy(c, s.clps[c].dirs[v]) == NextClp(c, spot)
  {
    match spot
    case At(h) =>
      assert Sees(s.clps[c], c, v, spot);
      PortOfFirstHop(c, h, |s.clps|);
    case Crossing(a, b) => CrossingPointer(s, v, a, b, c);
  }

  ghost predicate Valid(h: Hunt)
  {
    && Located(h.s, h.v, h.spot)
    && match h.place
       case Held(c) => c < |h.s.clps|
       case Going(a, b, behind) => b < |h.s.clps| && (behind ==> h.spot == Crossing(a, b))
  }

  predicate Found(h: Hunt)
  {
    h.place.Held? && h.spot == At(h.place.c)
  }

  /** A message goes where the pointer leads; channels are in order, so one behind the variable
      comes in after it. */
  predicate CanHappen(h: Hunt, e: Event)
  {
    match e
    case Act(a) => Enabled(h.s, a)
    case SetOut => h.place.Held? && h.place.c < |h.s.clps| && !Found(h)
    case ComeIn => h.place.Going? && !h.place.behind
  }

  function Happens(h: Hunt, e: Event): Hunt
    requires CanHappen(h, e)
  {
    match e
    case Act(a) =>
      var spot := NextSpot(h.s, a, h.v, h.spot);
      h.(s := Apply(h.s, a), spot := spot,
         place := if h.place.Going? && spot.At? then h.place.(behind := false) else h.place,
         moves := if a.Depart? && h.v in a.vs then h.moves + 1 else h.moves)
    case SetOut =>
      var c := h.place.c;
      var to := NextClp(c, h.spot);
      h.(place := Going(c, to, h.spot == Crossing(c, to)), hops := h.hops + 1)
    case ComeIn => h.(place := Held(h.place.to))
  }

  /** How many hops are left if the variable stays from now on. */
  function Left(place: Where, spot: Spot): nat
  {
    match place
    case Held(c) => Far(c, spot)
    case Going(_, to, behind) => if behind then 0 else Far(to, spot)
  }

  function Far(c: nat, spot: Spot): nat
  {
    match spot
    case At(h) => Dist(c, h)
    case Crossing(a, b) => Dist(c, a) + 1
  }

  /** A hop brings the message one nearer. */
  lemma {:induction false} SetOutIsNearer(h: Hunt)
    requires Valid(h) && CanHappen(h, SetOut)
    ensures Valid(Happens(h, SetOut))
    ensures Left(Happens(h, SetOut).place, h.spot) + 1 == Left(h.place, h.spot)
  {
    var c, to := h.place.c, NextClp(h.place.c, h.spot);
    PointerLeadsOn(h.s, h.v, h.spot, c);
    match h.spot
    case At(x) =>
      TowardAdjacent(c, x);
      HopChangesDist(c, x, to);
    case Crossing(a, b) =>
      if c == a {
        assert Dist(a, a) == 0;
      } else {
        TowardAdjacent(c, a);
        HopChangesDist(c, a, to);
      }
  }

  /** A departure puts the variable at most one further, an arrival not at all. */
  lemma {:induction false} ActIsNoFurther(h: Hunt, a: Action)
    requires Valid(h) && CanHappen(h, Act(a))
    ensures Valid(Happens(h, Act(a)))
    ensures var h' := Happens(h, Act(a)); Left(h'.place, h'.spot) + h.moves <= Left(h.place, h.spot) + h'.moves
  {
    StepLocated(h.s, a, h.v, h.spot);
    match a
    case Depart(c, d, vs) =>
      if h.v in vs { DepartLocated(h.s, c, d, vs, h.v, h.spot); }
    case Arrive(k) =>
      if h.v in h.s.flying[k].payload {
        ArriveLocated(h.s, k, h.v, h.spot);
        CloserEnd(h.place, h.spot.from, h.spot.to);
      }
    case Access(_, _, _) =>
  }

  lemma {:induction false} CloserEnd(place: Where, a: nat, b: nat)
    requires Adjacent(a, b) && (place.Going? && place.behind ==> place.to == b)
    ensures Left(if place.Going? then place.(behind := false) else place, At(b)) <= Left(place, Crossing(a, b))
  {
    var c := if place.Held? then place.c else place.to;
    if c != a {
      DistSymmetric(c, a);
      DistSymmetric(c, b);
      HopChangesDist(a, c, b);
      assert Dist(b, b) == 0;
    } else {
      AdjacentDist(a, b);
    }
  }

  ghost predicate CanRun(h: Hunt, es: seq<Event>)
    decreases |es|
  {
    es == [] || (CanHappen(h, es[0]) && CanRun(Happens(h, es[0]), es[1..]))
  }

  function AfterAll(h: Hunt, es: seq<Event>): Hunt
    requires CanRun(h, es)
    decreases |es|
  {
    if es == [] then h else AfterAll(Happens(h, es[0]), es[1..])
  }

  /** In every run the hops a message has made, and those it would still have to make if the
      variable stayed, are at most its distance at the start and one more for every move of the
      variable since. It is found when none is left, and until then it can go on, unless it has
      to let the variable arrive first. */
  lemma {:induction false} ChaseIsBounded(h: Hunt, es: seq<Event>)
    requires Valid(h) && CanRun(h, es)
    ensures var r := AfterAll(h, es);
            && Valid(r) && r.hops + Left(r.place, r.spot) + h.moves <= h.hops + Left(h.place, h.spot) + r.moves
            && (r.place.Held? ==> (Found(r) <==> Left(r.place, r.spot) == 0))
            && (Found(r) || CanHappen(r, SetOut) || CanHappen(r, ComeIn) || r.spot == Crossing(r.place.from, r.place.to))
    decreases |es|
  {
    if es != [] {
      match es[0] {
        case Act(a) => ActIsNoFurther(h, a);
        case SetOut => SetOutIsNearer(h);
        case ComeIn =>
      }
      ChaseIsBounded(Happens(h, es[0]), es[1..]);
    } else if h.place.Held? && h.spot.At? && h.place.c != h.spot.h {
      assert Dist(h.place.c, h.spot.h) > 0;
    }
  }
}
