/** Global virtual time over whole runs whose rounds are settled by the first cut. */
module GvtSafety {
  import opened Base
  import opened Mattern
  import opened GvtRound
  import opened Tree

  predicate Knows(s: Sys, i: nat, j: nat)
    requires i < |s.nodes|
  {
    j in s.nodes[i].state.counters
  }

  /** Nobody linked with j has a counter for it: nobody has sent it a white message. */
  ghost predicate Unsent(s: Sys, j: nat)
  {
    forall k {:trigger Linked(s.net, k, j)} | 0 <= k < |s.nodes| && Linked(s.net, k, j) :: !Knows(s, k, j)
  }

  /** The counters that must be there: for every rank with several links everybody has one, for
      a rank with one link everybody but that link, which gets it by sending. */
  ghost predicate CountersSuffice(s: Sys)
  {
    forall i, j, k {:trigger Knows(s, i, j), Linked(s.net, k, j)} |
      0 <= i < |s.nodes| && 0 <= j < |s.nodes| && 0 <= k < |s.nodes| && Linked(s.net, k, j) && i != k :: Knows(s, i, j)
  }

  /** A counter for a rank one is not linked with has never moved. */
  ghost predicate LinksCount(s: Sys)
  {
    forall i, j {:trigger Knows(s, i, j)} | 0 <= i < |s.nodes| && i != j && !Linked(s.net, i, j) && Knows(s, i, j) ::
      s.nodes[i].state.counters[j] == 0
  }

  /** Every red message from an earlier round has a white one behind it in its channel. */
  ghost predicate OldRedFollowed(s: Sys)
  {
    OpenFrom(s.transit, LONG_MAX)
  }

  /** The first cut settles the round. */
  ghost predicate Settled(s: Sys, a: Action)
    requires Valid(s) && Enabled(s, a)
  {
    a.HandleToken? && s.token.value.at == 0 ==> Cuts(s).1.Announce?
  }

  /** The hypotheses on a round: when it begins every old red message is followed by a white
      one, and the first cut settles it. */
  ghost predicate FirstCutOnly(s: Sys, a: Action)
    requires Valid(s) && Enabled(s, a)
  {
    (a.Begin? && Begins(s.nodes[0].state) ==> OldRedFollowed(s)) && Settled(s, a)
  }

  /** The GVT last announced. */
  function Announced(s: Sys): nat
    requires |s.nodes| > 0
  {
    s.nodes[0].gvt
  }

  /** No visited process missed a counter for j, or no white message for j can be about:
      nobody has sent one, and all its links have been cut. */
  ghost predicate Told(s: Sys, j: nat)
    requires j < |s.nodes| == |s.book.missing|
  {
    s.book.missing[j] == 0
    || (Unsent(s, j)
        && forall k {:trigger Linked(s.net, k, j)} | 0 <= k < |s.nodes| && Linked(s.net, k, j) :: s.nodes[k].state.colour.Red?)
  }

  /** What came late to j has been counted there. */
  ghost predicate LateCounted(s: Sys, j: nat)
    requires j < |s.nodes| == |s.book.late|
  {
    s.book.late[j] + s.nodes[j].state.Count(j) <= 0
  }

  ghost predicate RoundKept(s: Sys)
    requires Valid(s)
  {
    s.token.Some? ==>
      && s.token.value.token.cut.First?
      && (forall j: nat {:trigger Told(s, j)} | j < |s.nodes| :: Told(s, j))
      && (forall j: nat {:trigger LateCounted(s, j)} | j < |s.nodes| :: LateCounted(s, j))
      && s.book.staleTime == LONG_MAX
      && s.token.value.token.minTime >= Announced(s)
  }

  /** Everything a run keeps. */
  ghost predicate Invariant(s: Sys)
  {
    && Valid(s) && Conserved(s) && Phase(s) && Accounted(s) && Floored(s) && RoundKept(s)
    && CountersSuffice(s) && LinksCount(s)
    && Announced(s) <= LONG_MAX && Safe(s, Announced(s)) && NobodyAhead(s)
  }

  /** No process believes in a later GVT than was announced, or will be told of one. */
  ghost predicate NobodyAhead(s: Sys)
    requires |s.nodes| > 0
  {
    && (forall n | n in s.nodes :: n.gvt <= Announced(s))
    && (forall v | v in s.values :: v.gvt == Announced(s))
  }

  /** Which steps announce a value. */
  ghost predicate Announces(s: Sys, a: Action)
    requires Valid(s) && Enabled(s, a)
  {
    a.HandleToken? && Cuts(s).1.Announce?
  }

  /** A counter, once there, stays. */
  lemma {:induction false} StepKnows(s: Sys, a: Action, i: nat, j: nat)
    requires Valid(s) && Enabled(s, a) && i < |s.nodes| && |Apply(s, a).nodes| == |s.nodes| && Knows(s, i, j)
    ensures Knows(Apply(s, a), i, j)
  {
  }

  lemma {:induction false} StepSuffices(s: Sys, a: Action)
    requires Valid(s) && Enabled(s, a) && CountersSuffice(s)
    ensures CountersSuffice(Apply(s, a))
  {
    StepValid(s, a);
    var s' := Apply(s, a);
    forall i: nat, j: nat, k: nat | i < |s.nodes| && j < |s.nodes| && k < |s.nodes| && Linked(s.net, k, j) && i != k
      ensures Knows(s', i, j)
    {
      assert Knows(s, i, j);
      StepKnows(s, a, i, j);
    }
  }

  lemma {:induction false} StepLinksCount(s: Sys, a: Action)
    requires Valid(s) && Enabled(s, a) && LinksCount(s)
    ensures LinksCount(Apply(s, a))
  {
    StepValid(s, a);
    var s' := Apply(s, a);
    forall i: nat, j: nat | i < |s.nodes| && i != j && !Linked(s.net, i, j) && Knows(s', i, j)
      ensures s'.nodes[i].state.counters[j] == 0
    {
      assert ValidNode(s.net, s.nodes[i], i);
      if a.Send? { assert s.nodes[a.i].queue[0] in s.nodes[a.i].queue; }
      assert Knows(s, i, j);
    }
  }

  // ---- one step of a round ----

  /** A red process gets no counter for another rank. */
  lemma {:induction false} RedLearnsNothing(s: Sys, a: Action, i: nat, j: nat)
    requires Valid(s) && Enabled(s, a) && i < |s.nodes| && |Apply(s, a).nodes| == |s.nodes| && i != j
    requires s.nodes[i].state.colour.Red? && !Knows(s, i, j)
    ensures !Knows(Apply(s, a), i, j)
  {
    assert ValidNode(s.net, s.nodes[i], i);
  }

  /** In the middle of a first cut no process loses its colour. */
  lemma {:induction false} RedStays(s: Sys, a: Action, i: nat)
    requires Valid(s) && Enabled(s, a) && Phase(s) && FirstRound(s) && !Announces(s, a) && i < |s.nodes|
    requires s.nodes[i].state.colour.Red?
    ensures |Apply(s, a).nodes| == |s.nodes| && Apply(s, a).nodes[i].state.colour.Red?
  {
    StepValid(s, a);
  }

  lemma {:induction false} ToldStays(s: Sys, a: Action, j: nat)
    requires Valid(s) && Enabled(s, a) && Phase(s) && FirstRound(s) && !Announces(s, a) && !a.HandleToken?
    requires j < |s.nodes| && Told(s, j)
    ensures Valid(Apply(s, a)) && Told(Apply(s, a), j)
  {
    StepValid(s, a);
    var s' := Apply(s, a);
    if s.book.missing[j] != 0 {
      forall k: nat | k < |s.nodes| && Linked(s.net, k, j)
        ensures !Knows(s', k, j) && s'.nodes[k].state.colour.Red?
      {
        assert s.nodes[k].state.colour.Red? && !Knows(s, k, j);
        LinkedIsOther(s.net, k, j);
        RedLearnsNothing(s, a, k, j);
        RedStays(s, a, k);
      }
    }
  }

  /** The cut of a process other than the starter. */
  lemma {:induction false} CutTold(s: Sys, outs: seq<Out>, j: nat)
    requires Valid(s) && Enabled(s, HandleToken(outs)) && Phase(s) && FirstRound(s) && CountersSuffice(s)
    requires s.token.value.at != 0 && j < |s.nodes| && Told(s, j)
    ensures Valid(ApplyToken(s, outs)) && Told(ApplyToken(s, outs), j)
  {
    TokenValid(s, outs);
    var s', at := ApplyToken(s, outs), s.token.value.at;
    assert ValidNode(s.net, s.nodes[at], at);
    assert forall i {:trigger Knows(s', i, j)} | 0 <= i < |s.nodes| :: Knows(s', i, j) == Knows(s, i, j);
    if !Knows(s, at, j) {
      assert forall k | 0 <= k < |s.nodes| && Linked(s.net, k, j) :: k == at;
      assert Unsent(s', j);
    }
  }

  lemma {:induction false} StepLateCounted(s: Sys, a: Action, j: nat)
    requires Valid(s) && Enabled(s, a) && j < |s.nodes| && (a.Begin? || LateCounted(s, j))
    requires a.Begin? ==> Begins(s.nodes[0].state)
    ensures Valid(Apply(s, a)) && LateCounted(Apply(s, a), j)
  {
    StepValid(s, a);
    assert ValidNode(s.net, s.nodes[j], j);
    if a.Send? {
      assert s.nodes[a.i].queue[0] in s.nodes[a.i].queue;
      assert ValidNode(s.net, s.nodes[a.i], a.i);
    }
  }

  lemma {:induction false} BeginKeepsRound(s: Sys)
    requires Invariant(s) && Enabled(s, Begin) && Begins(s.nodes[0].state) && OldRedFollowed(s)
    ensures Valid(ApplyBegin(s)) && RoundKept(ApplyBegin(s))
  {
    StepValid(s, Begin);
    LeastRedIs(s.transit, LONG_MAX);
    forall j: nat | j < |s.nodes|
      ensures Told(ApplyBegin(s), j) && LateCounted(ApplyBegin(s), j)
    {
      StepLateCounted(s, Begin, j);
    }
  }

  lemma {:induction false} RoundGoesOn(s: Sys, a: Action)
    requires Invariant(s) && Enabled(s, a) && FirstRound(s) && Settled(s, a) && !Announces(s, a) && !a.Begin?
    ensures Valid(Apply(s, a)) && RoundKept(Apply(s, a))
  {
    StepValid(s, a);
    forall j: nat | j < |s.nodes|
      ensures Told(Apply(s, a), j) && LateCounted(Apply(s, a), j)
    {
      assert Told(s, j) && LateCounted(s, j);
      StepLateCounted(s, a, j);
      if a.HandleToken? { CutTold(s, a.outs, j); } else { ToldStays(s, a, j); }
    }
    if a.HandleToken? {
      var at := s.token.value.at;
      assert ValidNode(s.net, s.nodes[at], at);
      assert s.nodes[at] in s.nodes && NodeFrom(s.nodes[at], Announced(s));
    }
  }

  lemma {:induction false} StepQuiet(s: Sys, a: Action)
    requires Invariant(s) && Enabled(s, a) && FirstCutOnly(s, a) && !Announces(s, a)
    ensures Valid(Apply(s, a)) && RoundKept(Apply(s, a))
  {
    StepValid(s, a);
    if a.Begin? && Begins(s.nodes[0].state) {
      BeginKeepsRound(s);
    } else if s.token.Some? && !a.Begin? {
      RoundGoesOn(s, a);
    }
  }

  lemma {:induction false} StepAheadOfNobody(s: Sys, a: Action)
    requires Invariant(s) && Enabled(s, a) && !Announces(s, a)
    ensures Valid(Apply(s, a)) && Announced(Apply(s, a)) == Announced(s) && NobodyAhead(Apply(s, a))
    ensures NotBehind(s, a, Announced(s))
  {
    StepValid(s, a);
    match a
    case Receive(k, lvt, queue) => assert s.nodes[s.transit[k].dest] in s.nodes;
    case Send(i) => assert s.nodes[i] in s.nodes;
    case Progress(i, lvt, outs) => assert s.nodes[i] in s.nodes;
    case TakeValue(k, outs) => assert s.values[k] in s.values;
    case Begin => assert s.nodes[0] in s.nodes;
    case HandleToken(outs) =>
      var at := s.token.value.at;
      assert ValidNode(s.net, s.nodes[at], at) && s.nodes[at] in s.nodes;
  }

  lemma {:induction false} SumOfOne(nodes: seq<Node>, k: nat, j: nat)
    requires forall i | 0 <= i < |nodes| && i != k :: nodes[i].state.Count(j) == 0
    ensures Sum(nodes, j, true) == if k < |nodes| then nodes[k].state.Count(j) else 0
  {
    if nodes != [] {
      SumOfOne(nodes[..|nodes| - 1], k, j);
    }
  }

  /** When nobody has sent j a white message, none is in transit and none came late. */
  lemma {:induction false} UnsentIsNowhere(s: Sys, j: nat)
    requires Valid(s) && Conserved(s) && LinksCount(s) && j < |s.nodes| && Unsent(s, j) && LateCounted(s, j)
    ensures Whites(s.transit, j) == 0 && s.book.late[j] == 0
  {
    forall i | 0 <= i < |s.nodes| && i != j
      ensures s.nodes[i].state.Count(j) == 0
    {
      if Linked(s.net, i, j) { assert !Knows(s, i, j); } else if Knows(s, i, j) { }
    }
    SumOfOne(s.nodes, j, j);
    assert ValidNode(s.net, s.nodes[j], j);
  }

  /** When the first cut announces, no white message has crossed it. */
  lemma {:induction false} NothingCrossed(s: Sys, j: nat)
    requires Invariant(s) && TokenReady(s) && s.token.value.at == 0 && Cuts(s).1.Announce? && j < |s.nodes|
    ensures Whites(s.transit, j) == 0 && s.book.late[j] == 0
  {
    assert Told(s, j) && LateCounted(s, j);
    CountsAreExact(s, j);
    assert ValidNode(s.net, s.nodes[0], 0);
    if Knows(s, 0, j) && s.book.missing[j] == 0 {
      assert Final(s)[j] <= 0;
    } else {
      assert Unsent(s, j) by {
        if s.book.missing[j] == 0 {
          assert forall k | 0 <= k < |s.nodes| && Linked(s.net, k, j) :: k == 0;
        }
      }
      UnsentIsNowhere(s, j);
    }
  }

  lemma {:induction false} StepAnnounces(s: Sys, outs: seq<Out>)
    requires Invariant(s) && Enabled(s, HandleToken(outs)) && Announces(s, HandleToken(outs))
    ensures Valid(ApplyToken(s, outs)) && RoundKept(ApplyToken(s, outs)) && NobodyAhead(ApplyToken(s, outs))
    ensures Announced(s) <= Announced(ApplyToken(s, outs)) <= LONG_MAX
    ensures Safe(ApplyToken(s, outs), Announced(ApplyToken(s, outs)))
  {
    TokenValid(s, outs);
    var at, n := s.token.value.at, s.nodes[s.token.value.at];
    assert ValidNode(s.net, n, at);
    assert at == 0 && n in s.nodes && NodeFrom(n, Announced(s));
    forall j: nat | j < |s.nodes|
      ensures Whites(s.transit, j) == 0 && s.book.late[j] == 0
    {
      NothingCrossed(s, j);
    }
    SafeWithoutCrossing(s, outs);
  }

  lemma {:induction false} StepKeepsInvariant(s: Sys, a: Action)
    requires Invariant(s) && Enabled(s, a) && FirstCutOnly(s, a)
    ensures Invariant(Apply(s, a)) && Announced(Apply(s, a)) >= Announced(s)
  {
    StepValid(s, a);
    StepConserves(s, a);
    StepPhase(s, a);
    StepAccounts(s, a);
    StepFloored(s, a);
    StepSuffices(s, a);
    StepLinksCount(s, a);
    if Announces(s, a) {
      StepAnnounces(s, a.outs);
    } else {
      StepQuiet(s, a);
      StepAheadOfNobody(s, a);
      StepSafe(s, a, Announced(s));
    }
  }

  ghost predicate FirstCutRun(s: Sys, run: seq<Action>)
    requires Valid(s) && Possible(s, run)
    decreases |run|
  {
    run == [] ||
    (FirstCutOnly(s, run[0]) && (StepValid(s, run[0]); FirstCutRun(Apply(s, run[0]), run[1..])))
  }

  /** A system at rest before its first round: no message anywhere, everybody white, nothing
      counted, nobody ahead of local time. */
  ghost predicate Quiescent(s: Sys)
  {
    && Valid(s) && s.transit == [] && s.token.None? && s.values == []
    && (forall n | n in s.nodes ::
          && n.state.colour.White? && n.gvt == 0 && n.queue == []
          && forall j | j in n.state.counters :: n.state.counters[j] == 0)
  }

  ghost predicate AtRest(s: Sys)
  {
    Quiescent(s) && CountersSuffice(s)
  }

  lemma {:induction false} SumAtRest(nodes: seq<Node>, j: nat, all: bool)
    requires forall n | n in nodes :: n.state.Count(j) == 0
    ensures Sum(nodes, j, all) == 0
  {
    if nodes != [] {
      assert nodes[|nodes| - 1] in nodes && forall n | n in nodes[..|nodes| - 1] :: n in nodes;
      SumAtRest(nodes[..|nodes| - 1], j, all);
    }
  }

  lemma {:induction false} QuiescentConserves(s: Sys)
    requires Quiescent(s)
    ensures Conserved(s)
  {
    forall j: nat
      ensures Sum(s.nodes, j, true) == Whites(s.transit, j)
    {
      SumAtRest(s.nodes, j, true);
    }
  }

  lemma {:induction false} RestIsInvariant(s: Sys)
    requires AtRest(s)
    ensures Invariant(s)
  {
    QuiescentConserves(s);
  }

  lemma {:induction false} RunKeepsInvariant(s: Sys, run: seq<Action>)
    requires Invariant(s) && Possible(s, run) && FirstCutRun(s, run)
    ensures Invariant(Run(s, run)) && Announced(Run(s, run)) >= Announced(s)
    decreases |run|
  {
    if run != [] {
      StepKeepsInvariant(s, run[0]);
      RunKeepsInvariant(Apply(s, run[0]), run[1..]);
    }
  }

  lemma {:induction false} RunSplits(s: Sys, run: seq<Action>, more: seq<Action>)
    requires Valid(s) && Possible(s, run + more)
    ensures Possible(s, run) && Possible(Run(s, run), more)
    ensures Run(s, run + more) == Run(Run(s, run), more)
    ensures FirstCutRun(s, run + more) ==> FirstCutRun(s, run) && FirstCutRun(Run(s, run), more)
    decreases |run|
  {
    if run == [] {
      assert run + more == more;
    } else {
      assert (run + more)[1..] == run[1..] + more && (run + more)[0] == run[0];
      StepValid(s, run[0]);
      RunSplits(Apply(s, run[0]), run[1..], more);
    }
  }

  /** GVT safety over whole runs. At every point of a run whose rounds are settled by the
      first cut, the GVT any process believes in is no later than anything that is or ever
      will be in the system, and announced values never decrease. */
  lemma {:induction false} GvtIsSafe(s: Sys, run: seq<Action>, more: seq<Action>)
    requires AtRest(s) && Possible(s, run + more) && FirstCutRun(s, run + more)
    ensures Possible(s, run)
    ensures Announced(Run(s, run)) <= Announced(Run(s, run + more))
    ensures forall n | n in Run(s, run).nodes ::
              n.gvt <= Announced(Run(s, run)) && Safe(Run(s, run), n.gvt) && Safe(Run(s, run + more), n.gvt)
  {
    RestIsInvariant(s);
    RunSplits(s, run, more);
    RunKeepsInvariant(s, run);
    RunKeepsInvariant(Run(s, run), more);
  }
}
