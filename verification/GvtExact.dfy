/** When a GVT round of agents and CLPs is safe, and when it is not. */
module GvtExact {
  import opened Base
  import opened Mattern
  import opened GvtRound
  import opened GvtSafety
  import opened GvtAgents

  // ---- runs of agents and CLPs ----

  ghost predicate Runs(w: World, run: seq<Move>)
    requires ValidWorld(w)
    decreases |run|
  {
    run == [] || (CanMove(w, run[0]) && (MoveValid(w, run[0]); Runs(After(w, run[0]), run[1..])))
  }

  ghost function Ends(w: World, run: seq<Move>): World
    requires ValidWorld(w) && Runs(w, run)
    decreases |run|
  {
    if run == [] then w
    else
      MoveValid(w, run[0]);
      Ends(After(w, run[0]), run[1..])
  }

  ghost predicate MoveSettles(w: World, mv: Move)
    requires ValidWorld(w) && CanMove(w, mv)
  {
    MoveIsAStep(w, mv);
    Settled(w.sys, Step(w, mv))
  }

  ghost predicate MoveAnnounces(w: World, mv: Move)
    requires ValidWorld(w) && CanMove(w, mv)
  {
    MoveIsAStep(w, mv);
    Announces(w.sys, Step(w, mv))
  }

  /** A new round may begin: nothing of the last one is left but, perhaps, messages. */
  ghost predicate CanBegin(s: Sys)
  {
    && Valid(s) && s.token.None? && s.values == [] && Begins(s.nodes[0].state)
    && forall n | n in s.nodes :: n.state.colour.White?
  }

  /** The run ends with its first announcement, which the first cut makes. */
  ghost predicate OneRound(w: World, run: seq<Move>)
    requires ValidWorld(w) && Runs(w, run)
    decreases |run|
  {
    run != [] && MoveSettles(w, run[0]) &&
    if MoveAnnounces(w, run[0]) then |run| == 1
    else (MoveValid(w, run[0]); OneRound(After(w, run[0]), run[1..]))
  }

  ghost predicate EndsSafe(w: World, run: seq<Move>)
    requires ValidWorld(w) && Runs(w, run)
  {
    var s := Ends(w, run).sys;
    |s.nodes| > 0 && Safe(s, Announced(s))
  }

  /** Whatever agents and CLPs do until the next announcement, what it announces is safe. */
  ghost predicate NextRoundIsSafe(w: World)
    requires ValidWorld(w)
  {
    forall run | Runs(w, run) && OneRound(w, run) :: EndsSafe(w, run)
  }

  lemma {:induction false} AtFirst(w: World, mv: Move)
    requires ValidWorld(w) && CanMove(w, mv) && MoveSettles(w, mv) && !MoveAnnounces(w, mv)
    requires ValidWorld(After(w, mv)) && !NextRoundIsSafe(After(w, mv))
    ensures !NextRoundIsSafe(w)
  {
    var rest :| Runs(After(w, mv), rest) && OneRound(After(w, mv), rest) && !EndsSafe(After(w, mv), rest);
    var run := [mv] + rest;
    assert run[0] == mv && run[1..] == rest;
    assert Runs(w, run) && OneRound(w, run) && !EndsSafe(w, run);
  }

  lemma {:induction false} AtLast(w: World, mv: Move)
    requires ValidWorld(w) && CanMove(w, mv) && MoveSettles(w, mv) && MoveAnnounces(w, mv)
    requires ValidWorld(After(w, mv)) && !Safe(After(w, mv).sys, Announced(After(w, mv).sys))
    ensures !NextRoundIsSafe(w)
  {
    var run := [mv];
    assert run[0] == mv && run[1..] == [];
    assert Runs(After(w, mv), []) && Ends(After(w, mv), []) == After(w, mv);
    assert Runs(w, run) && Ends(w, run) == After(w, mv);
    assert OneRound(w, run) && !EndsSafe(w, run);
  }

  // ---- reachable by rounds that meet the hypotheses ----

  /** A move of a run whose rounds begin with their old red messages followed by white ones and
      are settled by the first cut. */
  ghost predicate OneStep(w: World, r: World)
  {
    ValidWorld(w) && exists mv :: Makes(w, mv, r)
  }

  ghost predicate Makes(w: World, mv: Move, r: World)
    requires ValidWorld(w)
  {
    CanMove(w, mv) && FirstCutMove(w, mv) && After(w, mv) == r
  }

  ghost predicate FirstCutMove(w: World, mv: Move)
    requires ValidWorld(w) && CanMove(w, mv)
  {
    MoveIsAStep(w, mv);
    FirstCutOnly(w.sys, Step(w, mv))
  }

  /** Successive elements of the path are related. */
  ghost predicate Path<T(!new)>(related: (T, T) -> bool, path: seq<T>)
  {
    path != [] && forall i {:trigger path[i]} | 0 < i < |path| :: related(path[i - 1], path[i])
  }

  lemma {:induction false} PathsJoin<T(!new)>(related: (T, T) -> bool, p: seq<T>, q: seq<T>)
    requires Path(related, p) && Path(related, q) && p[|p| - 1] == q[0]
    ensures Path(related, p + q[1..]) && (p + q[1..])[0] == p[0] && (p + q[1..])[|p + q[1..]| - 1] == q[|q| - 1]
  {
    var path := p + q[1..];
    forall i | 0 < i < |path|
      ensures related(path[i - 1], path[i])
    {
      if i >= |p| { assert path[i] == q[i - |p| + 1]; }
    }
  }

  ghost predicate Links(path: seq<World>, w: World, r: World)
  {
    Path((a, b) => OneStep(a, b), path) && path[0] == w && path[|path| - 1] == r
  }

  ghost predicate Reaches(w: World, r: World)
  {
    exists path :: Links(path, w, r)
  }

  /** One reaches the other, and an unsafe round after it is one before it. */
  ghost predicate Onward(w: World, r: World)
  {
    && ValidWorld(w) && ValidWorld(r) && Reaches(w, r)
    && (!NextRoundIsSafe(r) ==> !NextRoundIsSafe(w))
  }

  lemma {:induction false} ReachesOn(w: World, v: World, r: World)
    requires Reaches(w, v) && Reaches(v, r)
    ensures Reaches(w, r)
  {
    var p :| Links(p, w, v);
    var q :| Links(q, v, r);
    PathsJoin((a, b) => OneStep(a, b), p, q);
    assert Links(p + q[1..], w, r);
  }

  lemma {:induction false} OnwardOn(w: World, v: World, r: World)
    requires Onward(w, v) && Onward(v, r)
    ensures Onward(w, r)
  {
    ReachesOn(w, v, r);
  }

  lemma {:induction false} OneMove(w: World, mv: Move)
    requires ValidWorld(w) && CanMove(w, mv) && FirstCutMove(w, mv)
    ensures ValidWorld(After(w, mv)) && Reaches(w, After(w, mv))
    ensures !MoveAnnounces(w, mv) ==> Onward(w, After(w, mv))
  {
    MoveValid(w, mv);
    var path := [w, After(w, mv)];
    assert Makes(w, mv, After(w, mv));
    assert Links(path, w, After(w, mv));
    if !MoveAnnounces(w, mv) && !NextRoundIsSafe(After(w, mv)) { AtFirst(w, mv); }
  }

  lemma {:induction false} Stays(w: World)
    requires ValidWorld(w)
    ensures Onward(w, w)
  {
    assert Links([w], w, w);
  }

  lemma {:induction false} StepKeeps(w: World, r: World)
    requires OneStep(w, r)
    ensures ValidWorld(r) && (Invariant(w.sys) ==> Invariant(r.sys)) && (Conserved(w.sys) ==> Conserved(r.sys))
  {
    var mv :| Makes(w, mv, r);
    MoveIsAStep(w, mv);
    MoveValid(w, mv);
    if Invariant(w.sys) { StepKeepsInvariant(w.sys, Step(w, mv)); }
    if Conserved(w.sys) { StepConserves(w.sys, Step(w, mv)); }
  }

  lemma {:induction false} PathKeeps(path: seq<World>, w: World, r: World)
    requires Links(path, w, r) && ValidWorld(w)
    ensures ValidWorld(r) && (Invariant(w.sys) ==> Invariant(r.sys)) && (Conserved(w.sys) ==> Conserved(r.sys))
    decreases |path|
  {
    if |path| > 1 {
      var front := path[..|path| - 1];
      assert Links(front, w, front[|front| - 1]);
      PathKeeps(front, w, front[|front| - 1]);
      assert OneStep(path[|path| - 2], path[|path| - 1]);
      StepKeeps(path[|path| - 2], r);
    }
  }

  lemma {:induction false} ReachKeeps(w: World, r: World)
    requires Reaches(w, r) && ValidWorld(w)
    ensures ValidWorld(r) && (Invariant(w.sys) ==> Invariant(r.sys)) && (Conserved(w.sys) ==> Conserved(r.sys))
  {
    var path :| Links(path, w, r);
    PathKeeps(path, w, r);
  }

  // ---- sufficient ----

  /** Until the round begins nothing turns red, and no red message is sent. */
  ghost predicate Fresh(s: Sys)
    requires Valid(s)
  {
    s.token.None? ==> s.values == [] && OldRedFollowed(s) && forall n | n in s.nodes :: n.state.colour.White?
  }

  lemma {:induction false} StaysFresh(s: Sys, a: Action)
    requires Invariant(s) && Fresh(s) && Enabled(s, a) && Settled(s, a) && !Announces(s, a)
    ensures Valid(Apply(s, a)) && Fresh(Apply(s, a)) && FirstCutOnly(s, a)
  {
    StepValid(s, a);
    match a
    case Receive(k, lvt, queue) =>
      assert s.nodes[s.transit[k].dest] in s.nodes;
      if s.token.None? { ReceiveOpens(s.transit, k, LONG_MAX); }
    case Send(i) =>
      var n := s.nodes[i];
      assert n in s.nodes;
      if s.token.None? { SendOpens(s.transit, Msg(i, n.queue[0].dest, n.queue[0].ts, White, n.queue[0].what), LONG_MAX); }
    case Progress(i, lvt, outs) => assert s.nodes[i] in s.nodes;
    case _ =>
  }

  lemma {:induction false} FreshIsSafe(w: World, run: seq<Move>)
    requires ValidWorld(w) && Invariant(w.sys) && Fresh(w.sys) && Runs(w, run) && OneRound(w, run)
    ensures EndsSafe(w, run)
    decreases |run|
  {
    var mv := run[0];
    MoveIsAStep(w, mv);
    MoveValid(w, mv);
    var a := Step(w, mv);
    if Announces(w.sys, a) {
      StepKeepsInvariant(w.sys, a);
      assert run[1..] == [];
    } else {
      StaysFresh(w.sys, a);
      StepKeepsInvariant(w.sys, a);
      FreshIsSafe(After(w, mv), run[1..]);
    }
  }

  /** A round is safe if it begins when every old red message has a white one behind it in its
      channel: whatever is counted as outstanding is then received after them. */
  lemma {:induction false} FollowedIsSafe(w: World)
    requires ValidWorld(w) && Invariant(w.sys) && CanBegin(w.sys) && OldRedFollowed(w.sys)
    ensures NextRoundIsSafe(w)
  {
    forall run | Runs(w, run) && OneRound(w, run)
      ensures EndsSafe(w, run)
    {
      FreshIsSafe(w, run);
    }
  }

  // ---- necessary ----

  /** What the processes from 1 up to k answer for rank j: what the token will have counted when
      it has visited them. */
  function Tally(nodes: seq<Node>, k: nat, j: nat): int
    requires k <= |nodes|
  {
    if k <= 1 then 0 else Tally(nodes, k - 1, j) + nodes[k - 1].state.Known(j)
  }

  lemma {:induction false} SameTally(nodes: seq<Node>, nodes': seq<Node>, k: nat, j: nat)
    requires k <= |nodes| == |nodes'|
    requires forall i | 0 <= i < k :: nodes'[i].state.counters == nodes[i].state.counters
    ensures Tally(nodes', k, j) == Tally(nodes, k, j)
  {
    if k > 1 { SameTally(nodes, nodes', k - 1, j); }
  }

  /** The counts the starter would decide on if the token went round now are not positive. */
  ghost predicate NothingCounted(s: Sys)
    requires Valid(s)
  {
    forall j | j in s.nodes[0].state.counters :: s.nodes[0].state.counters[j] + Tally(s.nodes, |s.nodes|, j) <= 0
  }

  /** Nobody waits for an answer and nothing is queued. */
  ghost predicate Paused(w: World)
  {
    && (forall n | n in w.sys.nodes :: n.queue == [])
    && forall i, a | 0 <= i < |w.agents| && a in w.agents[i] :: !w.agents[i][a].waits
  }

  /** No message is in the token's way. */
  ghost predicate RingClear(s: Sys)
  {
    forall m | m in s.transit :: m.dest < |s.nodes| && m.from != Before(s, m.dest)
  }

  /** A round is about to overlook m. */
  ghost predicate Blind(w: World, m: Msg)
  {
    && ValidWorld(w) && CanBegin(w.sys) && Paused(w) && RingClear(w.sys) && NothingCounted(w.sys)
    && m in w.sys.transit && m.ts < LONG_MAX
  }

  /** Local times aside, nothing has happened. */
  ghost predicate SameButTime(s: Sys, s': Sys)
  {
    && s'.net == s.net && |s'.nodes| == |s.nodes| && s'.transit == s.transit
    && s'.token == s.token && s'.values == s.values && s'.book == s.book
    && forall i {:trigger s'.nodes[i]} | 0 <= i < |s.nodes| :: s'.nodes[i] == s.nodes[i].(lvt := s'.nodes[i].lvt)
  }

  ghost predicate Beyond(agents: map<nat, Agent>, t: nat)
  {
    forall a | a in agents :: agents[a].lvt > t
  }

  function Slow(agents: map<nat, Agent>, t: nat): set<nat>
  {
    set a | a in agents && agents[a].lvt <= t
  }

  /** An agent that does not wait lets time pass beyond t. */
  lemma {:induction false} Wrap(w: World, t: nat, i: nat, a: nat) returns (w': World)
    requires ValidWorld(w) && Paused(w) && i < |w.agents| && a in Slow(w.agents[i], t)
    ensures Onward(w, w') && Paused(w') && SameButTime(w.sys, w'.sys)
    ensures w'.agents == w.agents[i := With(w.agents[i], a, Agent(t + 1, false))]
  {
    var lvt := CanWrap(w, i, a, t + 1);
    var mv := TimeWrap(i, a, t + 1, lvt);
    assert w.sys.nodes[i] in w.sys.nodes;
    OneMove(w, mv);
    w' := After(w, mv);
    assert w'.sys.nodes == w.sys.nodes[i := w.sys.nodes[i].(lvt := lvt, queue := w.sys.nodes[i].queue + [])];
  }

  /** All agents do so, process by process. */
  lemma {:induction false} Hurry(w: World, t: nat, i: nat) returns (w': World)
    requires ValidWorld(w) && Paused(w) && i <= |w.agents| && forall k | 0 <= k < i :: Beyond(w.agents[k], t)
    ensures Onward(w, w') && Paused(w') && SameButTime(w.sys, w'.sys)
    ensures |w'.agents| == |w.agents| && forall k | 0 <= k < |w.agents| :: Beyond(w'.agents[k], t)
    decreases |w.agents| - i, if i < |w.agents| then |Slow(w.agents[i], t)| else 0
  {
    if i == |w.agents| {
      w' := w;
      Stays(w);
    } else if Slow(w.agents[i], t) == {} {
      assert forall a | a in w.agents[i] && w.agents[i][a].lvt <= t :: a in Slow(w.agents[i], t);
      w' := Hurry(w, t, i + 1);
    } else {
      var a :| a in Slow(w.agents[i], t);
      var v := Wrap(w, t, i, a);
      assert Slow(v.agents[i], t) == Slow(w.agents[i], t) - {a};
      w' := Hurry(v, t, i);
      OnwardOn(w, v, w');
    }
  }

  lemma {:induction false} BeyondIsLater(w: World, t: nat)
    requires ValidWorld(w) && t < LONG_MAX && forall k | 0 <= k < |w.agents| :: Beyond(w.agents[k], t)
    ensures forall n | n in w.sys.nodes :: n.lvt > t
  {
    forall n | n in w.sys.nodes
      ensures n.lvt > t
    {
      var i :| 0 <= i < |w.sys.nodes| && w.sys.nodes[i] == n;
      assert Slowest(w.agents[i], w.sys.nodes[i].lvt);
    }
  }

  lemma {:induction false} StillBlind(w: World, w': World, m: Msg)
    requires Blind(w, m) && ValidWorld(w') && Paused(w') && SameButTime(w.sys, w'.sys)
    ensures Blind(w', m)
  {
    var s, s' := w.sys, w'.sys;
    forall n | n in s'.nodes
      ensures n.state.colour.White?
    {
      var i :| 0 <= i < |s'.nodes| && s'.nodes[i] == n;
      assert s.nodes[i] in s.nodes;
    }
    forall j | j in s'.nodes[0].state.counters
      ensures s'.nodes[0].state.counters[j] + Tally(s'.nodes, |s'.nodes|, j) <= 0
    {
      SameTally(s.nodes, s'.nodes, |s.nodes|, j);
    }
  }

  lemma {:induction false} NobodyInTheWay(transit: seq<Msg>, from: nat, dest: nat)
    requires forall m | m in transit :: !(m.from == from && m.dest == dest)
    ensures InChannel(transit, from, dest) == 0
  {
    if transit != [] {
      assert transit[0] in transit && forall m | m in transit[1..] :: m in transit;
      NobodyInTheWay(transit[1..], from, dest);
    }
  }

  /** The token on its way while it overlooks m. */
  ghost predicate Touring(w: World, m: Msg)
  {
    var s := w.sys;
    && ValidWorld(w) && FirstRound(s) && w.ahead == 0 && RingClear(s) && NothingCounted(s)
    && m in s.transit && m.ts < LONG_MAX
    && (forall n | n in s.nodes :: n.lvt > m.ts && n.queue == [])
    && s.token.value.token.minTime > m.ts && s.token.value.token.redTime == LONG_MAX
    && forall j | 0 <= j < |s.nodes| :: s.token.value.token.counts[j] == Tally(s.nodes, Tour(s.token.value, |s.nodes|), j)
  }

  lemma {:induction false} VisitTallies(nodes: seq<Node>, nodes': seq<Node>, at: nat)
    requires 0 < at < |nodes| == |nodes'|
    requires forall i | 0 <= i < |nodes| :: nodes'[i].state.counters == nodes[i].state.counters
    ensures forall j: nat :: Tally(nodes', |nodes|, j) == Tally(nodes, |nodes|, j)
    ensures forall j: nat :: Tally(nodes', at + 1, j) == Tally(nodes, at, j) + nodes[at].state.Known(j)
  {
    forall j: nat
      ensures Tally(nodes', |nodes|, j) == Tally(nodes, |nodes|, j)
      ensures Tally(nodes', at + 1, j) == Tally(nodes, at, j) + nodes[at].state.Known(j)
    {
      SameTally(nodes, nodes', |nodes|, j);
      SameTally(nodes, nodes', at, j);
    }
  }

  lemma {:induction false} TourGoesOn(w: World, w': World, m: Msg)
    requires Touring(w, m) && w.sys.token.value.at != 0 && Enabled(w.sys, HandleToken([]))
    requires ValidWorld(w') && w'.sys == ApplyToken(w.sys, []) && w'.ahead == InTheWay(w'.sys)
    ensures Touring(w', m)
    ensures Tour(w'.sys.token.value, |w.sys.nodes|) == Tour(w.sys.token.value, |w.sys.nodes|) + 1
  {
    var s, s', at := w.sys, w'.sys, w.sys.token.value.at;
    assert ValidNode(s.net, s.nodes[at], at) && s.nodes[at] in s.nodes;
    assert s'.nodes == s.nodes[at := s'.nodes[at]] && s'.nodes[at].state.counters == s.nodes[at].state.counters;
    VisitTallies(s.nodes, s'.nodes, at);
    NobodyInTheWay(s'.transit, Before(s', s'.token.value.at), s'.token.value.at);
  }

  /** The token comes home without having counted it. */
  lemma {:induction false} TokenTour(w: World, m: Msg)
    requires Touring(w, m)
    ensures !NextRoundIsSafe(w)
    decreases |w.sys.nodes| - Tour(w.sys.token.value, |w.sys.nodes|), if w.sys.token.value.at == 0 then 0 else 1
  {
    var mv := Visit([]);
    var s, at := w.sys, w.sys.token.value.at;
    assert ValidNode(s.net, s.nodes[at], at) && s.nodes[at] in s.nodes;
    MoveValid(w, mv);
    if at == 0 {
      assert !Remaining(s.nodes[0].state, Folded(s.nodes[0].state, s.token.value.token, s.nodes[0].lvt).counts);
      AtLast(w, mv);
    } else {
      TourGoesOn(w, After(w, mv), m);
      TokenTour(After(w, mv), m);
      AtFirst(w, mv);
    }
  }

  /** So does the round that begins now. */
  lemma {:induction false} BlindRound(w: World, m: Msg)
    requires Blind(w, m) && forall n | n in w.sys.nodes :: n.lvt > m.ts
    ensures !NextRoundIsSafe(w)
  {
    var s := w.sys;
    MoveValid(w, Start);
    var s' := After(w, Start).sys;
    forall n | n in s'.nodes
      ensures n.lvt > m.ts && n.queue == []
    {
      var i :| 0 <= i < |s'.nodes| && s'.nodes[i] == n;
      assert s.nodes[i] in s.nodes;
    }
    assert s'.nodes == s.nodes[0 := s'.nodes[0]] && ValidNode(s.net, s.nodes[0], 0);
    forall j | j in s'.nodes[0].state.counters
      ensures s'.nodes[0].state.counters[j] + Tally(s'.nodes, |s'.nodes|, j) <= 0
    {
      SameTally(s.nodes, s'.nodes, |s.nodes|, j);
    }
    NobodyInTheWay(s'.transit, Before(s', s'.token.value.at), s'.token.value.at);
    TokenTour(After(w, Start), m);
    AtFirst(w, Start);
  }

  /** When nobody waits, nothing is queued and no message is in the token's way, a round is not
      safe if its counts say that nothing is outstanding although a message of a proper time is
      in transit. */
  lemma {:induction false} UncountedIsUnsafe(w: World, m: Msg)
    requires Blind(w, m)
    ensures !NextRoundIsSafe(w)
  {
    var w' := Hurry(w, m.ts, 0);
    StillBlind(w, w', m);
    BeyondIsLater(w', m.ts);
    BlindRound(w', m);
  }

  /** Absent counters only lower what is counted; one of them lowers it for sure. */
  lemma {:induction false} TallyBelowSum(nodes: seq<Node>, k: nat, j: nat, p: nat)
    requires 0 < k <= |nodes|
    ensures nodes[0].state.Count(j) + Tally(nodes, k, j)
            + (if 0 < p < k && j !in nodes[p].state.counters then 1 else 0) <= Sum(nodes[..k], j, true)
  {
    assert nodes[..k][..k - 1] == nodes[..k - 1];
    if k > 1 {
      TallyBelowSum(nodes, k - 1, j, p);
    }
  }

  lemma {:induction false} NoWhites(transit: seq<Msg>, j: nat)
    requires forall m | m in transit :: m.colour.Red?
    ensures Whites(transit, j) == 0
  {
    if transit != [] {
      assert transit[|transit| - 1] in transit && forall m | m in transit[..|transit| - 1] :: m in transit;
      NoWhites(transit[..|transit| - 1], j);
    }
  }

  /** So between two rounds, when no white message is about, nobody waits, nothing is queued and
      no message is in the token's way, the next round is safe if and only if no message of a
      proper time is left over. The code does not see to that: processes turn white again
      without waiting for their red messages. */
  lemma {:induction false} NextRoundIsSafeIff(w: World)
    requires ValidWorld(w) && Invariant(w.sys) && CanBegin(w.sys) && Paused(w) && RingClear(w.sys)
    requires forall m | m in w.sys.transit :: m.colour.Red?
    ensures NextRoundIsSafe(w) <==> forall m | m in w.sys.transit :: m.ts >= LONG_MAX
  {
    var s := w.sys;
    if forall m | m in s.transit :: m.ts >= LONG_MAX {
      FollowedIsSafe(w);
    } else {
      var m :| m in s.transit && m.ts < LONG_MAX;
      forall j | j in s.nodes[0].state.counters
        ensures s.nodes[0].state.counters[j] + Tally(s.nodes, |s.nodes|, j) <= 0
      {
        TallyBelowSum(s.nodes, |s.nodes|, j, 0);
        assert s.nodes[..|s.nodes|] == s.nodes && Sum(s.nodes, j, true) == Whites(s.transit, j);
        NoWhites(s.transit, j);
      }
      UncountedIsUnsafe(w, m);
    }
  }

  // ---- on the counts themselves ----

  /** When the token is back, no white message crossed the cut if and only if no count,
      corrected by the processes without a counter, is positive. The source looks at the
      uncorrected counts. */
  lemma {:induction false} NoCrossingIff(s: Sys)
    requires Valid(s) && TokenReady(s) && Phase(s) && Accounted(s)
    requires FirstRound(s) && s.token.value.at == 0
    ensures (forall j | 0 <= j < |s.nodes| :: Whites(s.transit, j) == 0 && s.book.late[j] == 0)
            <==> forall j | 0 <= j < |s.nodes| :: Final(s)[j] + FinalMissing(s)[j] <= 0
  {
    forall j | 0 <= j < |s.nodes|
      ensures Final(s)[j] + FinalMissing(s)[j] == Whites(s.transit, j) + s.book.late[j]
    {
      CountsAreExact(s, j);
    }
  }
}
