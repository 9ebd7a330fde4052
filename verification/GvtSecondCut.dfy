/** The second cut of a GVT round does not wait for the messages that the first one counted. */
module GvtSecondCut {
  import opened Base
  import opened Mattern
  import opened Tree
  import opened GvtRound
  import opened GvtSafety
  import opened GvtAgents
  import opened GvtExact
  import opened GvtRuns

  // ---- any run of agents and CLPs ----

  ghost predicate AnyStep(w: World, r: World)
  {
    ValidWorld(w) && exists mv :: CanMove(w, mv) && After(w, mv) == r
  }

  ghost predicate Joins(path: seq<World>, w: World, r: World)
  {
    Path((a, b) => AnyStep(a, b), path) && path[0] == w && path[|path| - 1] == r
  }

  ghost predicate Gets(w: World, r: World)
  {
    exists path :: Joins(path, w, r)
  }

  lemma {:induction false} GetsOn(w: World, v: World, r: World)
    requires Gets(w, v) && Gets(v, r)
    ensures Gets(w, r)
  {
    var p :| Joins(p, w, v);
    var q :| Joins(q, v, r);
    PathsJoin((a, b) => AnyStep(a, b), p, q);
    assert Joins(p + q[1..], w, r);
  }

  lemma {:induction false} GetsByMove(w: World, mv: Move)
    requires ValidWorld(w) && CanMove(w, mv)
    ensures ValidWorld(After(w, mv)) && Gets(w, After(w, mv))
  {
    MoveValid(w, mv);
    assert AnyStep(w, After(w, mv));
    assert Joins([w, After(w, mv)], w, After(w, mv));
  }

  lemma {:induction false} ReachesGets(w: World, r: World)
    requires Reaches(w, r)
    ensures Gets(w, r)
  {
    var path :| Links(path, w, r);
    forall i | 0 < i < |path|
      ensures AnyStep(path[i - 1], path[i])
    {
      assert OneStep(path[i - 1], path[i]);
      var mv :| Makes(path[i - 1], mv, path[i]);
    }
    assert Joins(path, w, r);
  }

  // ---- the second tour ----

  predicate Unvisited(at: nat, j: nat)
  {
    j == 0 || (at != 0 && at <= j)
  }

  /** The token goes round the second time, and nobody will have to wait. */
  ghost predicate Passing(w: World, m: Msg)
  {
    var s := w.sys;
    && Hushed(w, w) && s.token.Some? && s.token.value.token.cut.Second? && Later(s, m.ts) && m in s.transit
    && forall j {:trigger s.nodes[j]} | 0 <= j < |s.nodes| && Unvisited(s.token.value.at, j) ::
         s.nodes[j].state.colour.Red? && s.token.value.token.counts[j] + s.nodes[j].state.Known(j) <= 0
  }

  lemma {:induction false} PassingIsReady(w: World, m: Msg)
    requires Passing(w, m)
    ensures Enabled(w.sys, HandleToken([])) && CanMove(w, Visit([]))
  {
    var at := w.sys.token.value.at;
    assert ValidNode(w.sys.net, w.sys.nodes[at], at) && w.sys.nodes[at].queue == [];
  }

  lemma {:induction false} PassesOn(w: World, w': World, m: Msg)
    requires Passing(w, m) && w.sys.token.value.at != 0 && Enabled(w.sys, HandleToken([]))
    requires ValidWorld(w') && w'.sys == ApplyToken(w.sys, []) && w'.agents == w.agents && w'.ahead == InTheWay(w'.sys)
    ensures Passing(w', m)
    ensures Tour(w'.sys.token.value, |w.sys.nodes|) == Tour(w.sys.token.value, |w.sys.nodes|) + 1
  {
    var s, s', at := w.sys, w'.sys, w.sys.token.value.at;
    assert ValidNode(s.net, s.nodes[at], at) && s.nodes[at] in s.nodes && s.nodes[at].state.colour.Red?;
    assert s'.nodes == s.nodes[at := s.nodes[at].(state := s.nodes[at].state.(colour := White))];
    NobodyInTheWay(s'.transit, Before(s', s'.token.value.at), s'.token.value.at);
  }

  lemma {:induction false} PassesHome(w: World, w': World, m: Msg)
    requires Passing(w, m) && w.sys.token.value.at == 0 && Enabled(w.sys, HandleToken([]))
    requires ValidWorld(w') && w'.sys == ApplyToken(w.sys, [])
    ensures w'.sys.token.None? && m in w'.sys.transit && Announced(w'.sys) > m.ts
  {
    var s := w.sys;
    assert ValidNode(s.net, s.nodes[0], 0) && s.nodes[0] in s.nodes && s.nodes[0].state.colour.Red?;
  }

  lemma {:induction false} SecondTour(w: World, m: Msg) returns (r: World)
    requires Passing(w, m)
    ensures Gets(w, r) && ValidWorld(r) && r.sys.token.None? && m in r.sys.transit && Announced(r.sys) > m.ts
    decreases |w.sys.nodes| - Tour(w.sys.token.value, |w.sys.nodes|), w.sys.token.value.at
  {
    PassingIsReady(w, m);
    GetsByMove(w, Visit([]));
    var v := After(w, Visit([]));
    if w.sys.token.value.at == 0 {
      PassesHome(w, v, m);
      r := v;
    } else {
      PassesOn(w, v, m);
      r := SecondTour(v, m);
      GetsOn(w, v, r);
    }
  }

  // ---- the first tour counts the message, the second one does not wait for it ----

  /** All counters there, one white message is in transit, and the process it goes to has received
      white messages before. */
  ghost predicate Received(s: Sys, m: Msg)
  {
    Invariant(s) && s.transit == [m] && m.colour.White? && m.dest < |s.nodes| && Own(s, m.dest) < 0
  }

  /** Whoever sent it has counted it. */
  lemma {:induction false} SenderKnows(s: Sys, m: Msg)
    requires Received(s, m)
    ensures exists k :: 0 <= k < |s.nodes| && Linked(s.net, k, m.dest) && Knows(s, k, m.dest)
  {
    OnlyOne(s.transit, m);
    assert Sum(s.nodes, m.dest, true) == Whites(s.transit, m.dest);
    if forall k | 0 <= k < |s.nodes| && Linked(s.net, k, m.dest) :: !Knows(s, k, m.dest) {
      forall i | 0 <= i < |s.nodes| && i != m.dest
        ensures s.nodes[i].state.Count(m.dest) == 0
      {
        if Linked(s.net, i, m.dest) { assert !Knows(s, i, m.dest); } else if Knows(s, i, m.dest) { }
      }
      SumOfOne(s.nodes, m.dest, m.dest);
    }
  }

  /** When the token is home it counts the message and nothing else. */
  lemma {:induction false} CountedAtHome(s: Sys, m: Msg)
    requires Received(s, m) && FirstRound(s) && s.token.value.at == 0 && TokenReady(s)
    requires s.book.late == Zeros(|s.nodes|)
    ensures forall j | 0 <= j < |s.nodes| :: Final(s)[j] <= if j == m.dest then 1 else 0
    ensures Remaining(s.nodes[0].state, Final(s))
  {
    OnlyOne(s.transit, m);
    forall j | 0 <= j < |s.nodes|
      ensures Final(s)[j] + FinalMissing(s)[j] == if j == m.dest then 1 else 0
    {
      CountsAreExact(s, j);
    }
    SenderKnows(s, m);
    assert Told(s, m.dest) && !Unsent(s, m.dest);
    assert ValidNode(s.net, s.nodes[0], 0) && Knows(s, 0, m.dest);
    assert Final(s)[m.dest] == 1;
  }

  lemma {:induction false} HomeGoesOn(w: World, w': World, m: Msg)
    requires Hushed(w, w) && Received(w.sys, m) && FirstRound(w.sys) && w.sys.token.value.at == 0
    requires Later(w.sys, m.ts) && m.ts < LONG_MAX && w.sys.book.late == Zeros(|w.sys.nodes|)
    requires Enabled(w.sys, HandleToken([])) && ValidWorld(w') && w'.sys == ApplyToken(w.sys, [])
    requires w'.agents == w.agents && w'.ahead == InTheWay(w'.sys)
    ensures Passing(w', m)
  {
    var s, s' := w.sys, w'.sys;
    CountedAtHome(s, m);
    assert ValidNode(s.net, s.nodes[0], 0) && s.nodes[0] in s.nodes;
    assert s'.nodes == s.nodes[0 := Reddened(s.nodes[0])] && s'.token.value.token.counts == Final(s);
    NobodyInTheWay(s'.transit, Before(s', s'.token.value.at), s'.token.value.at);
    forall j | 0 <= j < |s.nodes|
      ensures s'.nodes[j].state.colour.Red? && s'.token.value.token.counts[j] + s'.nodes[j].state.Known(j) <= 0
    {
      assert ValidNode(s.net, s.nodes[j], j);
    }
  }

  lemma {:induction false} ToHome(w: World, m: Msg) returns (u: World)
    requires ValidWorld(w) && Received(w.sys, m) && CanBegin(w.sys) && RingClear(w.sys) && Queued(w.sys, 0, [])
    requires m.ts < LONG_MAX && forall n | n in w.sys.nodes :: n.lvt > m.ts
    ensures Gets(w, u) && Hushed(u, u) && Received(u.sys, m) && FirstRound(u.sys) && u.sys.token.value.at == 0
    ensures Later(u.sys, m.ts) && u.sys.book.late == Zeros(|u.sys.nodes|)
  {
    assert OpenFrom(w.sys.transit, LONG_MAX);
    var v := DoStart(w, m.ts);
    u := ComeHome(v, m.ts);
    OnwardOn(w, v, u);
    ReachKeeps(w, u);
    ReachesGets(w, u);
  }

  lemma {:induction false} FromHome(w: World, m: Msg) returns (r: World)
    requires Hushed(w, w) && Received(w.sys, m) && FirstRound(w.sys) && w.sys.token.value.at == 0
    requires Later(w.sys, m.ts) && m.ts < LONG_MAX && w.sys.book.late == Zeros(|w.sys.nodes|)
    ensures Gets(w, r) && ValidWorld(r) && Passing(r, m)
  {
    assert w.sys.nodes[0].queue == [] && ValidNode(w.sys.net, w.sys.nodes[0], 0);
    GetsByMove(w, Visit([]));
    r := After(w, Visit([]));
    HomeGoesOn(w, r, m);
  }

  lemma {:induction false} BothTours(w: World, m: Msg) returns (r: World)
    requires ValidWorld(w) && Received(w.sys, m) && CanBegin(w.sys) && RingClear(w.sys) && Queued(w.sys, 0, [])
    requires m.ts < LONG_MAX && forall n | n in w.sys.nodes :: n.lvt > m.ts
    ensures Gets(w, r) && ValidWorld(r) && r.sys.token.None? && m in r.sys.transit && Announced(r.sys) > m.ts
  {
    var u := ToHome(w, m);
    var v := FromHome(u, m);
    r := SecondTour(v, m);
    GetsOn(w, u, v);
    GetsOn(w, v, r);
  }

  lemma {:induction false} StillBeginning(w: World, w': World, m: Msg)
    requires ValidWorld(w) && ValidWorld(w') && SameButTime(w.sys, w'.sys) && CanBegin(w.sys) && Queued(w.sys, 0, [])
    requires w.sys.transit == [m] && m.dest < |w.sys.nodes| && Own(w.sys, m.dest) < 0 && m.colour.White?
    requires Invariant(w'.sys)
    ensures CanBegin(w'.sys) && Queued(w'.sys, 0, []) && Received(w'.sys, m)
  {
    forall n | n in w'.sys.nodes
      ensures n.state.colour.White?
    {
      var i :| 0 <= i < |w'.sys.nodes| && w'.sys.nodes[i] == n;
      assert w.sys.nodes[i] in w.sys.nodes;
    }
  }

  /** Everybody moves on beyond m, and the round has still to begin. */
  lemma {:induction false} MoveOn(w: World, m: Msg) returns (w': World)
    requires ValidWorld(w) && Invariant(w.sys) && Paused(w) && CanBegin(w.sys) && Queued(w.sys, 0, [])
    requires Received(w.sys, m) && m.ts < LONG_MAX
    ensures Gets(w, w') && ValidWorld(w') && Received(w'.sys, m) && CanBegin(w'.sys) && w'.sys.net == w.sys.net
    ensures |w'.sys.nodes| == |w.sys.nodes| && Queued(w'.sys, 0, []) && forall n | n in w'.sys.nodes :: n.lvt > m.ts
  {
    w' := Hurry(w, m.ts, 0);
    BeyondIsLater(w', m.ts);
    ReachKeeps(w, w');
    StillBeginning(w, w', m);
    ReachesGets(w, w');
  }

  /** Up to where the round begins: y's agent has read, x's has written, everybody has moved on. */
  lemma {:induction false} ReadWriteMoveOn(w: World, c: Cast, a: nat, b: nat) returns (w': World, m: Msg)
    requires Resting(w) && AtRest(w.sys) && Siblings(w, c, a, b)
    ensures Gets(w, w') && ValidWorld(w') && Received(w'.sys, m) && CanBegin(w'.sys) && RingClear(w'.sys)
    ensures Queued(w'.sys, 0, []) && m.ts < LONG_MAX && forall n | n in w'.sys.nodes :: n.lvt > m.ts
  {
    var v := ReadAndOverwrite(w, c, a, b);
    m := v.sys.transit[0];
    AtEase(w, v, c);
    RestIsInvariant(w.sys);
    ReachKeeps(w, v);
    ReachesGets(w, v);
    w' := MoveOn(v, m);
    GetsOn(w, v, w');
  }

  /** What the wait of the second cut is worth: with all counters, process j waits if and only if
      more white messages are outstanding for it than it has ever received. */
  lemma {:induction false} SecondCutWaitsIff(s: Sys, j: nat)
    requires Valid(s) && TokenReady(s) && Phase(s) && Accounted(s) && FirstRound(s) && s.token.value.at == 0
    requires j < |s.nodes| && FinalMissing(s)[j] == 0 && Knows(s, j, j)
    ensures Final(s)[j] + s.nodes[j].state.Known(j) > 0 <==> Whites(s.transit, j) + s.book.late[j] > -Own(s, j)
  {
    CountsAreExact(s, j);
  }

  /** The message of the two agents above is counted by the first cut, so there is a second one.
      Its wait adds the counter of y, which the first cut has already folded in, once more, and
      y does not wait. So from any system at rest with all counters the second cut may announce
      too late a time. */
  lemma {:induction false} SecondCutOverlooksMessage(w: World, c: Cast, a: nat, b: nat) returns (r: World)
    requires Resting(w) && AtRest(w.sys) && Siblings(w, c, a, b)
    ensures Gets(w, r) && ValidWorld(r) && r.sys.token.None?
    ensures exists m :: m in r.sys.transit && m.ts < Announced(r.sys)
  {
    var v, m := ReadWriteMoveOn(w, c, a, b);
    r := BothTours(v, m);
    GetsOn(w, v, r);
  }
}
