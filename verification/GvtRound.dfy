/** All processes, the messages in transit and the token, in any interleaving. */
module GvtRound {
  import opened Base
  import opened Mattern
  import opened Tree

  /** What a simulation message is: an agent asks for a read, a write or a range, is answered,
      takes that back, or is told to roll back. */
  datatype What = Asks(agent: LpId) | Answers(agent: LpId) | Anti(agent: LpId) | Rollback(agent: LpId)

  /** A simulation message waiting in a send queue. */
  datatype Out = Out(dest: nat, ts: nat, what: What)

  /** A simulation message between its send hook and its receive hook. */
  datatype Msg = Msg(from: nat, dest: nat, ts: nat, colour: Colour, what: What)

  datatype Node = Node(state: Calc, lvt: nat, gvt: nat, queue: seq<Out>)

  /** What the proofs count and the processes do not know: for each rank, the white messages
      it received after its cut and the processes that had no counter for it when they were
      cut; the least time of those late messages and of the red ones in front of them; the
      least time of a red message that was in transit when the round began without a white one
      behind it. */
  datatype Book = Book(late: seq<nat>, missing: seq<nat>, lateTime: nat, staleTime: nat)

  datatype TokenAt = TokenAt(at: nat, token: Token)

  datatype Sys = Sys(net: Layout, nodes: seq<Node>, transit: seq<Msg>, token: Option<TokenAt>,
                     values: seq<ValueMsg>, book: Book)

  datatype Action =
    | Send(i: nat)
    | Receive(k: nat, lvt: nat, queue: seq<Out>)
    | Progress(i: nat, lvt: nat, outs: seq<Out>)
    | Begin
    | HandleToken(outs: seq<Out>)
    | TakeValue(k: nat, outs: seq<Out>)

  ghost predicate Valid(s: Sys)
  {
    && ValidLayout(s.net) && |s.nodes| == s.net.Size()
    && |s.book.late| == |s.book.missing| == |s.nodes|
    && (forall i {:trigger s.nodes[i]} | 0 <= i < |s.nodes| :: ValidNode(s.net, s.nodes[i], i))
    && (forall m | m in s.transit :: m.dest < |s.nodes| && Linked(s.net, m.from, m.dest))
    && (forall v | v in s.values :: v.dest < |s.nodes|)
    && (s.token.Some? ==> s.token.value.at < |s.nodes| && |s.token.value.token.counts| == |s.nodes|)
  }

  ghost predicate ValidNode(l: Layout, n: Node, i: nat)
  {
    n.state.Valid() && n.state.rank == i && n.state.size == l.Size() && ValidQueue(l, n.queue, i)
  }

  /** A process sends to those it is linked with. */
  predicate ValidQueue(l: Layout, queue: seq<Out>, i: nat)
  {
    forall q | q in queue :: q.dest < l.Size() && Linked(l, i, q.dest)
  }

  // ---- channels ----

  predicate SameChannel(m: Msg, w: Msg)
  {
    m.from == w.from && m.dest == w.dest
  }

  /** Channels are in order: the next message of its channel to be received. */
  predicate IsFirst(transit: seq<Msg>, k: nat)
    requires k < |transit|
  {
    forall i | 0 <= i < k :: !SameChannel(transit[i], transit[k])
  }

  /** A white message is behind it in its channel. */
  predicate Followed(transit: seq<Msg>, k: nat)
    requires k < |transit|
  {
    exists i | k < i < |transit| :: SameChannel(transit[k], transit[i]) && transit[i].colour.White?
  }

  /** Causality and the hypotheses on one step. A process reacts to a message, by new
      messages or by a rollback of its own time, no earlier than the message's time; it
      issues messages on its own no earlier than its local time, which only advances then.
      A process that takes a new GVT over may give variables away and ask their readers to roll
      back, never to before that GVT. A round begins with everybody white and no GVT message
      about, and the token is handled when the simulation messages queued before it are gone;
      the second cut's token when no white message is outstanding. Messages are received in the
      order of their channel. */
  predicate Enabled(s: Sys, a: Action)
    requires Valid(s)
  {
    match a
    case Send(i) => i < |s.nodes| && s.nodes[i].queue != []
    case Receive(k, lvt, queue) =>
      k < |s.transit| && IsFirst(s.transit, k) &&
      var m := s.transit[k];
      var n := s.nodes[m.dest];
      && lvt >= Min(n.lvt, m.ts)
      && ValidQueue(s.net, queue, m.dest)
      && (forall q | q in queue :: q in n.queue || q.ts >= m.ts)
    case Progress(i, lvt, outs) =>
      i < |s.nodes| && lvt >= s.nodes[i].lvt
      && ValidQueue(s.net, outs, i) && forall q | q in outs :: q.ts >= s.nodes[i].lvt
    case Begin =>
      Begins(s.nodes[0].state) ==>
        s.token.None? && s.values == [] && forall n | n in s.nodes :: n.state.colour.White?
    case HandleToken(outs) =>
      && TokenReady(s) && ValidQueue(s.net, outs, s.token.value.at)
      && (Cuts(s).1.PassOn? ==> outs == [])
      && (Cuts(s).1.Announce? ==> forall q | q in outs :: q.ts >= Cuts(s).1.gvt)
    case TakeValue(k, outs) =>
      k < |s.values| && ValidQueue(s.net, outs, s.values[k].dest)
      && (s.values[k].dest == 0 ==> outs == [])
      && forall q | q in outs :: q.ts >= s.values[k].gvt
  }

  predicate TokenReady(s: Sys)
    requires Valid(s)
  {
    s.token.Some? &&
    var n := s.nodes[s.token.value.at];
    && n.queue == []
    && (s.token.value.token.cut.Second? ==> s.token.value.token.counts[n.state.rank] + n.state.Known(n.state.rank) <= 0)
  }

  /** What handling the token makes of the calculator, and what it leads to. */
  function Cuts(s: Sys): (Calc, Outcome)
    requires Valid(s) && s.token.Some?
  {
    var t := s.token.value;
    var n := s.nodes[t.at];
    if t.token.cut.First? then FirstCut(n.state, t.token, n.lvt) else SecondCut(n.state, t.token, n.lvt)
  }

  function Apply(s: Sys, a: Action): Sys
    requires Valid(s) && Enabled(s, a)
  {
    match a
    case Send(i) => ApplySend(s, i)
    case Receive(k, lvt, queue) => ApplyReceive(s, k, lvt, queue)
    case Progress(i, lvt, outs) =>
      s.(nodes := s.nodes[i := s.nodes[i].(lvt := lvt, queue := s.nodes[i].queue + outs)])
    case Begin => ApplyBegin(s)
    case HandleToken(outs) => ApplyToken(s, outs)
    case TakeValue(k, outs) => ApplyValue(s, k, outs)
  }

  function ApplySend(s: Sys, i: nat): Sys
    requires Valid(s) && Enabled(s, Send(i))
  {
    var n := s.nodes[i];
    var q := n.queue[0];
    s.(nodes := s.nodes[i := n.(state := SendHook(n.state, q.dest, q.ts), queue := n.queue[1..])],
       transit := s.transit + [Msg(i, q.dest, q.ts, n.state.colour, q.what)])
  }

  function ApplyReceive(s: Sys, k: nat, lvt: nat, queue: seq<Out>): Sys
    requires Valid(s) && Enabled(s, Receive(k, lvt, queue))
  {
    var m := s.transit[k];
    var n := s.nodes[m.dest];
    var isLate := n.state.colour.Red? && (m.colour.White? || Followed(s.transit, k));
    var late := s.book.late[m.dest] + if m.colour.White? then 1 else 0;
    s.(nodes := s.nodes[m.dest := n.(state := ReceiveHook(n.state, m.colour), lvt := lvt, queue := queue)],
       transit := s.transit[..k] + s.transit[k + 1..],
       book := if isLate then
                 s.book.(late := s.book.late[m.dest := late], lateTime := Min(m.ts, s.book.lateTime))
               else s.book)
  }

  /** The least time of the red messages without a white one behind. */
  function LeastRed(transit: seq<Msg>): (t: nat)
    ensures t <= LONG_MAX
  {
    if transit == [] then LONG_MAX
    else if transit[0].colour.Red? && !Followed(transit, 0) then Min(transit[0].ts, LeastRed(transit[1..]))
    else LeastRed(transit[1..])
  }

  lemma {:induction false} LeastRedIs(transit: seq<Msg>, t: nat)
    ensures OpenFrom(transit, LeastRed(transit))
    ensures OpenFrom(transit, t) && t <= LONG_MAX ==> t <= LeastRed(transit)
  {
    if transit != [] {
      var rest := transit[1..];
      LeastRedIs(rest, t);
      forall k: nat | k < |rest|
        ensures Followed(rest, k) == Followed(transit, k + 1) && rest[k] == transit[k + 1]
      {
        FollowedInRest(transit, k);
      }
      forall k: nat | k < |transit| && transit[k].colour.Red? && !Followed(transit, k)
        ensures transit[k].ts >= LeastRed(transit)
      {
        if k > 0 { assert rest[k - 1] == transit[k]; }
      }
    }
  }

  lemma {:induction false} FollowedInRest(transit: seq<Msg>, k: nat)
    requires k + 1 < |transit|
    ensures Followed(transit[1..], k) == Followed(transit, k + 1)
  {
    var rest := transit[1..];
    if Followed(rest, k) {
      var i :| k < i < |rest| && SameChannel(rest[k], rest[i]) && rest[i].colour.White?;
      assert transit[i + 1] == rest[i];
    }
    if Followed(transit, k + 1) {
      var i :| k + 1 < i < |transit| && SameChannel(transit[k + 1], transit[i]) && transit[i].colour.White?;
      assert rest[i - 1] == transit[i];
    }
  }

  /** What is received first in its channel follows nothing. */
  lemma {:induction false} StillFollowed(transit: seq<Msg>, k: nat, i: nat)
    requires k < |transit| && IsFirst(transit, k) && i < |transit| && i != k && Followed(transit, i)
    ensures var rest := transit[..k] + transit[k + 1..]; Followed(rest, if i < k then i else i - 1)
  {
    var rest := transit[..k] + transit[k + 1..];
    var j :| i < j < |transit| && SameChannel(transit[i], transit[j]) && transit[j].colour.White?;
    assert rest[if i < k then i else i - 1] == transit[i];
    assert rest[if j < k then j else j - 1] == transit[j];
  }

  lemma {:induction false} ReceiveOpens(transit: seq<Msg>, k: nat, t: nat)
    requires k < |transit| && IsFirst(transit, k) && OpenFrom(transit, t)
    ensures OpenFrom(transit[..k] + transit[k + 1..], t)
  {
    var rest := transit[..k] + transit[k + 1..];
    forall j: nat | j < |rest| && rest[j].colour.Red? && !Followed(rest, j)
      ensures rest[j].ts >= t
    {
      var i := if j < k then j else j + 1;
      assert rest[j] == transit[i];
      if Followed(transit, i) { StillFollowed(transit, k, i); }
    }
  }

  lemma {:induction false} SendOpens(transit: seq<Msg>, m: Msg, t: nat)
    requires OpenFrom(transit, t) && (m.colour.Red? ==> m.ts >= t)
    ensures OpenFrom(transit + [m], t)
  {
    var all := transit + [m];
    forall k: nat | k < |transit| && Followed(transit, k)
      ensures Followed(all, k)
    {
      var i :| k < i < |transit| && SameChannel(transit[k], transit[i]) && transit[i].colour.White?;
      assert all[i] == transit[i] && all[k] == transit[k];
    }
    forall k: nat | k < |all| && all[k].colour.Red? && !Followed(all, k)
      ensures all[k].ts >= t
    {
      if k < |transit| { assert all[k] == transit[k]; }
    }
  }

  function Zeros(n: nat): seq<nat>
  {
    seq(n, j => 0)
  }

  function ApplyBegin(s: Sys): Sys
    requires Valid(s) && Enabled(s, Begin)
  {
    var n := s.nodes[0];
    if !Begins(n.state) then s
    else
      s.(nodes := s.nodes[0 := n.(state := Request(n.state))],
         token := Some(TokenAt(n.state.Next(), NewToken(|s.nodes|))),
         book := Book(Zeros(|s.nodes|), Zeros(|s.nodes|), LONG_MAX, LeastRed(s.transit)))
  }

  function NowMissing(missing: seq<nat>, c: Calc): seq<nat>
  {
    seq(|missing|, j requires 0 <= j < |missing| => missing[j] + if j in c.counters then 0 else 1)
  }

  function ApplyToken(s: Sys, outs: seq<Out>): Sys
    requires Valid(s) && Enabled(s, HandleToken(outs))
  {
    var at := s.token.value.at;
    var n := s.nodes[at];
    var (state, outcome) := Cuts(s);
    var book := s.book.(missing := NowMissing(s.book.missing, n.state));
    match outcome
    case PassOn(token) =>
      s.(nodes := s.nodes[at := n.(state := state)], token := Some(TokenAt(state.Next(), token)), book := book)
    case Announce(gvt) =>
      s.(nodes := s.nodes[at := n.(state := state, gvt := gvt, queue := n.queue + outs)], token := None,
         values := s.values + ValuesTo(|s.nodes|, at, gvt), book := book)
  }

  function ApplyValue(s: Sys, k: nat, outs: seq<Out>): Sys
    requires Valid(s) && Enabled(s, TakeValue(k, outs))
  {
    var v := s.values[k];
    var n := s.nodes[v.dest];
    s.(nodes := if v.dest == 0 then s.nodes
                else s.nodes[v.dest := n.(state := n.state.(colour := White), gvt := v.gvt, queue := n.queue + outs)],
       values := s.values[..k] + s.values[k + 1..])
  }

  lemma {:induction false} StepValid(s: Sys, a: Action)
    requires Valid(s) && Enabled(s, a)
    ensures Valid(Apply(s, a)) && |Apply(s, a).nodes| == |s.nodes|
  {
    match a
    case HandleToken(outs) => TokenValid(s, outs);
    case Receive(k, lvt, queue) =>
      var s', d := Apply(s, a), s.transit[k].dest;
      assert ValidNode(s.net, s.nodes[d], d);
      assert ValidNode(s.net, s'.nodes[d], d);
    case Send(i) =>
      assert ValidNode(s.net, s.nodes[i], i);
      assert ValidNode(s.net, Apply(s, a).nodes[i], i);
    case _ =>
  }

  lemma {:induction false} TokenValid(s: Sys, outs: seq<Out>)
    requires Valid(s) && Enabled(s, HandleToken(outs))
    ensures Valid(ApplyToken(s, outs)) && |ApplyToken(s, outs).nodes| == |s.nodes|
  {
    var at := s.token.value.at;
    assert ValidNode(s.net, s.nodes[at], at);
    assert ValidNode(s.net, ApplyToken(s, outs).nodes[at], at);
  }

  // ---- runs ----

  predicate Possible(s: Sys, run: seq<Action>)
    requires Valid(s)
    decreases |run|
  {
    run == [] || (Enabled(s, run[0]) && (StepValid(s, run[0]); Possible(Apply(s, run[0]), run[1..])))
  }

  function Run(s: Sys, run: seq<Action>): (r: Sys)
    requires Valid(s) && Possible(s, run)
    ensures Valid(r) && |r.nodes| == |s.nodes|
    decreases |run|
  {
    if run == [] then s
    else
      StepValid(s, run[0]);
      Run(Apply(s, run[0]), run[1..])
  }

  // ---- counting white messages ----

  /** The sum of the counters for rank j, an absent one as 0: of every process, or of those
      the cut has not reached. */
  function Sum(nodes: seq<Node>, j: nat, all: bool): int
  {
    if nodes == [] then 0
    else Share(nodes[|nodes| - 1], j, all) + Sum(nodes[..|nodes| - 1], j, all)
  }

  function Share(n: Node, j: nat, all: bool): int
  {
    if all || n.state.colour.White? then n.state.Count(j) else 0
  }

  /** White messages in transit to j. */
  function Whites(transit: seq<Msg>, j: nat): nat
  {
    if transit == [] then 0
    else IsWhiteTo(transit[|transit| - 1], j) + Whites(transit[..|transit| - 1], j)
  }

  function IsWhiteTo(m: Msg, j: nat): nat
  {
    if m.colour.White? && m.dest == j then 1 else 0
  }

  lemma {:induction false} SumUpdate(nodes: seq<Node>, i: nat, n: Node, j: nat, all: bool)
    requires i < |nodes|
    ensures Sum(nodes[i := n], j, all) == Sum(nodes, j, all) - Share(nodes[i], j, all) + Share(n, j, all)
  {
    var last := |nodes| - 1;
    if i == last {
      assert nodes[i := n][..last] == nodes[..last];
    } else {
      assert nodes[i := n][..last] == nodes[..last][i := n];
      SumUpdate(nodes[..last], i, n, j, all);
    }
  }

  lemma {:induction false} SumAllWhite(nodes: seq<Node>, j: nat)
    requires forall n | n in nodes :: n.state.colour.White?
    ensures Sum(nodes, j, false) == Sum(nodes, j, true)
  {
    if nodes != [] {
      var last := |nodes| - 1;
      assert nodes[last] in nodes && forall n | n in nodes[..last] :: n in nodes;
      SumAllWhite(nodes[..last], j);
    }
  }

  lemma {:induction false} SumAllRed(nodes: seq<Node>, j: nat)
    requires forall n | n in nodes :: n.state.colour.Red?
    ensures Sum(nodes, j, false) == 0
  {
    if nodes != [] {
      var last := |nodes| - 1;
      assert nodes[last] in nodes && forall n | n in nodes[..last] :: n in nodes;
      SumAllRed(nodes[..last], j);
    }
  }

  lemma {:induction false} WhitesReceived(transit: seq<Msg>, k: nat, j: nat)
    requires k < |transit|
    ensures Whites(transit, j) == Whites(transit[..k] + transit[k + 1..], j) + IsWhiteTo(transit[k], j)
  {
    var last := |transit| - 1;
    if k == last {
      assert transit[..k] + transit[k + 1..] == transit[..last];
    } else {
      var rest := transit[..k] + transit[k + 1..];
      assert rest[..|rest| - 1] == transit[..last][..k] + transit[..last][k + 1..];
      assert rest[|rest| - 1] == transit[last];
      WhitesReceived(transit[..last], k, j);
    }
  }

  lemma {:induction false} WhiteInTransit(transit: seq<Msg>, m: Msg)
    requires m in transit && m.colour.White?
    ensures Whites(transit, m.dest) > 0
  {
    var last := |transit| - 1;
    if transit[last] != m {
      assert m in transit[..last];
      WhiteInTransit(transit[..last], m);
    }
  }

  // ---- conservation of the transient counters ----

  ghost predicate Conserved(s: Sys)
  {
    forall j: nat {:trigger Sum(s.nodes, j, true)} :: Sum(s.nodes, j, true) == Whites(s.transit, j)
  }

  lemma {:induction false} SendCounts(s: Sys, i: nat, j: nat, all: bool)
    requires Valid(s) && Enabled(s, Send(i))
    ensures var s' := ApplySend(s, i);
            && (all || s.nodes[i].state.colour.White? ==>
                 Sum(s'.nodes, j, all) - Whites(s'.transit, j) == Sum(s.nodes, j, all) - Whites(s.transit, j))
            && (s.nodes[i].state.colour.Red? ==>
                 Sum(s'.nodes, j, all) == Sum(s.nodes, j, all) && Whites(s'.transit, j) == Whites(s.transit, j))
  {
    var n := s.nodes[i];
    var q := n.queue[0];
    SumUpdate(s.nodes, i, n.(state := SendHook(n.state, q.dest, q.ts), queue := n.queue[1..]), j, all);
  }

  lemma {:induction false} ReceiveCounts(s: Sys, k: nat, lvt: nat, queue: seq<Out>, j: nat, all: bool)
    requires Valid(s) && Enabled(s, Receive(k, lvt, queue))
    ensures var s', m := ApplyReceive(s, k, lvt, queue), s.transit[k];
            && Whites(s'.transit, j) == Whites(s.transit, j) - IsWhiteTo(m, j)
            && (all || s.nodes[m.dest].state.colour.White? ==>
                  Sum(s'.nodes, j, all) == Sum(s.nodes, j, all) - IsWhiteTo(m, j))
            && (!all && s.nodes[m.dest].state.colour.Red? ==> Sum(s'.nodes, j, all) == Sum(s.nodes, j, all))
  {
    var m := s.transit[k];
    var n := s.nodes[m.dest];
    assert n.state.rank == m.dest;
    SumUpdate(s.nodes, m.dest, n.(state := ReceiveHook(n.state, m.colour), lvt := lvt, queue := queue), j, all);
    WhitesReceived(s.transit, k, j);
  }

  /** No other step touches a counter. */
  lemma {:induction false} OthersCount(s: Sys, a: Action, j: nat)
    requires Valid(s) && Enabled(s, a) && !a.Send? && !a.Receive?
    ensures Sum(Apply(s, a).nodes, j, true) == Sum(s.nodes, j, true) && Apply(s, a).transit == s.transit
  {
    var s' := Apply(s, a);
    var i: nat := if a.Progress? then a.i
      else if a.HandleToken? then s.token.value.at
      else if a.TakeValue? then s.values[a.k].dest
      else 0;
    assert s'.nodes == s.nodes[i := s'.nodes[i]];
    SumUpdate(s.nodes, i, s'.nodes[i], j, true);
  }

  lemma {:induction false} StepConserves(s: Sys, a: Action)
    requires Valid(s) && Enabled(s, a) && Conserved(s)
    ensures Conserved(Apply(s, a))
  {
    var s' := Apply(s, a);
    forall j: nat
      ensures Sum(s'.nodes, j, true) == Whites(s'.transit, j)
    {
      assert Sum(s.nodes, j, true) == Whites(s.transit, j);
      match a
      case Send(i) => SendCounts(s, i, j, true);
      case Receive(k, lvt, queue) => ReceiveCounts(s, k, lvt, queue, j, true);
      case _ => OthersCount(s, a, j);
    }
  }

  /** Transient-counter conservation. In every reachable state and for every rank j, the sum
      of all counters for j is the number of white messages in transit to j; and nobody's
      counter for itself is positive, so the assertion in the send hook holds. */
  lemma {:induction false} CountersAreConserved(s: Sys, run: seq<Action>)
    requires Valid(s) && Conserved(s) && Possible(s, run)
    ensures Conserved(Run(s, run))
    ensures var r := Run(s, run);
            forall i | 0 <= i < |r.nodes| :: r.nodes[i].state.Count(i) <= 0 && r.nodes[i].state.Known(i) <= 0
    decreases |run|
  {
    if run == [] {
      forall i | 0 <= i < |s.nodes|
        ensures s.nodes[i].state.Count(i) <= 0
      {
        assert ValidNode(s.net, s.nodes[i], i);
      }
    } else {
      StepValid(s, run[0]);
      StepConserves(s, run[0]);
      CountersAreConserved(Apply(s, run[0]), run[1..]);
    }
  }

  // ---- one round ----

  /** The token's position in its tour: it visits 1, 2, ... and the starter last. */
  function Tour(t: TokenAt, size: nat): nat
  {
    if t.at == 0 then size else t.at
  }

  ghost predicate FirstRound(s: Sys)
  {
    s.token.Some? && s.token.value.token.cut.First?
  }

  /** While a token is about there is no other round. In the first cut exactly the processes
      it has visited are red. */
  ghost predicate Phase(s: Sys)
    requires Valid(s)
  {
    && (s.token.Some? ==> s.values == [] && !s.nodes[0].state.accepting)
    && (FirstRound(s) ==>
          forall i {:trigger s.nodes[i]} | 0 <= i < |s.nodes| ::
            s.nodes[i].state.colour.Red? <==> 1 <= i < Tour(s.token.value, |s.nodes|))
  }

  /** The token's count for j, corrected by the processes that had no counter, and the
      counters not folded in yet, make the white messages still on their way to j plus those
      that came too late. */
  ghost predicate Balanced(s: Sys, j: nat)
    requires Valid(s) && FirstRound(s) && j < |s.nodes|
  {
    s.token.value.token.counts[j] + s.book.missing[j] + Sum(s.nodes, j, false)
    == Whites(s.transit, j) + s.book.late[j]
  }

  ghost predicate Accounted(s: Sys)
    requires Valid(s)
  {
    FirstRound(s) ==> forall j: nat {:trigger Balanced(s, j)} | j < |s.nodes| :: Balanced(s, j)
  }

  lemma {:induction false} StepPhase(s: Sys, a: Action)
    requires Valid(s) && Enabled(s, a) && Phase(s)
    ensures Valid(Apply(s, a)) && Phase(Apply(s, a))
  {
    StepValid(s, a);
    match a
    case HandleToken(outs) => TokenPhase(s, outs);
    case Receive(k, lvt, queue) => SamePhase(s, ApplyReceive(s, k, lvt, queue));
    case Send(i) => SamePhase(s, ApplySend(s, i));
    case Progress(i, lvt, outs) => SamePhase(s, Apply(s, a));
    case _ =>
  }

  lemma SamePhase(s: Sys, s': Sys)
    requires Valid(s) && Valid(s') && Phase(s) && |s'.nodes| == |s.nodes|
    requires s'.token == s.token && s'.values == s.values
    requires forall i {:trigger s'.nodes[i]} | 0 <= i < |s.nodes| ::
               && s'.nodes[i].state.colour == s.nodes[i].state.colour
               && s'.nodes[i].state.accepting == s.nodes[i].state.accepting
    ensures Phase(s')
  {
  }

  lemma {:induction false} TokenPhase(s: Sys, outs: seq<Out>)
    requires Valid(s) && Enabled(s, HandleToken(outs)) && Phase(s)
    ensures Valid(ApplyToken(s, outs)) && Phase(ApplyToken(s, outs))
  {
    TokenValid(s, outs);
    var s' := ApplyToken(s, outs);
    var at := s.token.value.at;
    assert ValidNode(s.net, s.nodes[at], at);
    if FirstRound(s') {
      assert Tour(s'.token.value, |s.nodes|) == at + 1;
    }
  }

  lemma {:induction false} BeginBalances(s: Sys, j: nat)
    requires Valid(s) && Enabled(s, Begin) && Begins(s.nodes[0].state) && Conserved(s) && j < |s.nodes|
    ensures Valid(ApplyBegin(s)) && FirstRound(ApplyBegin(s)) && Balanced(ApplyBegin(s), j)
  {
    StepValid(s, Begin);
    OthersCount(s, Begin, j);
    assert Sum(s.nodes, j, true) == Whites(s.transit, j);
    SumAllWhite(ApplyBegin(s).nodes, j);
  }

  function Reddened(n: Node): Node
  {
    n.(state := n.state.(colour := Red, redTime := LONG_MAX))
  }

  lemma {:induction false} CutBalances(s: Sys, j: nat)
    requires Valid(s) && TokenReady(s) && Phase(s) && FirstRound(s) && j < |s.nodes| && Balanced(s, j)
    ensures var at, n := s.token.value.at, s.nodes[s.token.value.at];
            && Folded(n.state, s.token.value.token, n.lvt).counts[j] + NowMissing(s.book.missing, n.state)[j]
               + Sum(s.nodes[at := Reddened(n)], j, false)
               == Whites(s.transit, j) + s.book.late[j]
  {
    var at := s.token.value.at;
    SumUpdate(s.nodes, at, Reddened(s.nodes[at]), j, false);
  }

  lemma {:induction false} ReceiveBalances(s: Sys, k: nat, lvt: nat, queue: seq<Out>, j: nat)
    requires Valid(s) && Enabled(s, Receive(k, lvt, queue))
    requires FirstRound(s) && j < |s.nodes| && Balanced(s, j)
    ensures Valid(ApplyReceive(s, k, lvt, queue)) && Balanced(ApplyReceive(s, k, lvt, queue), j)
  {
    StepValid(s, Receive(k, lvt, queue));
    ReceiveCounts(s, k, lvt, queue, j, false);
  }

  lemma {:induction false} StepBalances(s: Sys, a: Action, j: nat)
    requires Valid(s) && Enabled(s, a) && Phase(s) && !a.Begin? && !a.TakeValue?
    requires FirstRound(s) && j < |s.nodes| && Balanced(s, j)
    requires Valid(Apply(s, a)) && FirstRound(Apply(s, a))
    ensures Balanced(Apply(s, a), j)
  {
    match a
    case Send(i) => SendCounts(s, i, j, false);
    case Receive(k, lvt, queue) => ReceiveBalances(s, k, lvt, queue, j);
    case Progress(i, lvt, outs) =>
      SumUpdate(s.nodes, i, s.nodes[i].(lvt := lvt, queue := s.nodes[i].queue + outs), j, false);
    case HandleToken(_) => CutBalances(s, j);
  }

  /** The accounting of the first cut is kept by every step. */
  lemma {:induction false} StepAccounts(s: Sys, a: Action)
    requires Valid(s) && Enabled(s, a) && Conserved(s) && Phase(s) && Accounted(s)
    ensures Valid(Apply(s, a)) && Accounted(Apply(s, a))
  {
    StepValid(s, a);
    var s' := Apply(s, a);
    if FirstRound(s') {
      forall j: nat | j < |s.nodes|
        ensures Balanced(s', j)
      {
        if a.Begin? && Begins(s.nodes[0].state) {
          BeginBalances(s, j);
        } else if a.Begin? {
          assert s' == s && Balanced(s, j);
        } else {
          assert Balanced(s, j);
          StepBalances(s, a, j);
        }
      }
    }
  }

  // ---- the floor under everything behind the cut ----

  /** The token's minimum, unless a red message older than the round or a late white one
      undercuts it. */
  function Floor(s: Sys): nat
    requires s.token.Some?
  {
    Min(s.token.value.token.minTime, Min(s.book.staleTime, s.book.lateTime))
  }

  predicate NodeFrom(n: Node, t: nat)
  {
    n.lvt >= t && forall q | q in n.queue :: q.ts >= t
  }

  ghost predicate RedFrom(s: Sys, t: nat)
  {
    && (forall n | n in s.nodes && n.state.colour.Red? :: NodeFrom(n, t))
    && OpenFrom(s.transit, t)
  }

  /** No red message without a white one behind is earlier than t. */
  ghost predicate OpenFrom(transit: seq<Msg>, t: nat)
  {
    forall k {:trigger transit[k]} | 0 <= k < |transit| && transit[k].colour.Red? && !Followed(transit, k) :: transit[k].ts >= t
  }

  /** A white message has come to j after its cut, or will. */
  ghost predicate Crossed(s: Sys, j: nat)
    requires j < |s.nodes| == |s.book.late|
  {
    s.book.late[j] > 0 || (s.nodes[j].state.colour.Red? && Whites(s.transit, j) > 0)
  }

  ghost predicate Floored(s: Sys)
    requires Valid(s)
  {
    FirstRound(s) ==>
      && RedFrom(s, Floor(s))
      && s.token.value.token.minTime <= LONG_MAX && s.token.value.token.redTime == LONG_MAX
      && (s.book.lateTime < LONG_MAX ==> exists j: nat :: j < |s.nodes| && Crossed(s, j))
  }

  /** What has crossed the cut stays known to have. */
  lemma {:induction false} ReceiveCrosses(s: Sys, k: nat, lvt: nat, queue: seq<Out>, j: nat)
    requires Valid(s) && Enabled(s, Receive(k, lvt, queue)) && j < |s.nodes|
    requires Crossed(s, j)
             || (j == s.transit[k].dest && s.nodes[j].state.colour.Red?
                 && (s.transit[k].colour.White? || Followed(s.transit, k)))
    ensures Valid(ApplyReceive(s, k, lvt, queue)) && Crossed(ApplyReceive(s, k, lvt, queue), j)
  {
    StepValid(s, Receive(k, lvt, queue));
    WhitesReceived(s.transit, k, j);
    if s.transit[k].colour.Red? && j == s.transit[k].dest && Followed(s.transit, k) {
      var i :| k < i < |s.transit| && SameChannel(s.transit[k], s.transit[i]) && s.transit[i].colour.White?;
      WhiteInTransit(s.transit, s.transit[i]);
    }
  }

  lemma {:induction false} ReceiveFloored(s: Sys, k: nat, lvt: nat, queue: seq<Out>)
    requires Valid(s) && Enabled(s, Receive(k, lvt, queue)) && FirstRound(s) && Floored(s)
    ensures Valid(ApplyReceive(s, k, lvt, queue)) && Floored(ApplyReceive(s, k, lvt, queue))
  {
    StepValid(s, Receive(k, lvt, queue));
    var s', m := ApplyReceive(s, k, lvt, queue), s.transit[k];
    assert m in s.transit && s.nodes[m.dest] in s.nodes;
    assert Floor(s') <= Floor(s);
    ReceiveOpens(s.transit, k, Floor(s));
    if s'.book.lateTime < LONG_MAX {
      if s.book.lateTime < LONG_MAX {
        var j: nat :| j < |s.nodes| && Crossed(s, j);
        ReceiveCrosses(s, k, lvt, queue, j);
      } else {
        ReceiveCrosses(s, k, lvt, queue, m.dest);
      }
    }
  }

  lemma {:induction false} SendFloored(s: Sys, i: nat)
    requires Valid(s) && Enabled(s, Send(i)) && FirstRound(s) && Floored(s)
    ensures Valid(ApplySend(s, i)) && Floored(ApplySend(s, i))
  {
    StepValid(s, Send(i));
    var n, s' := s.nodes[i], ApplySend(s, i);
    assert n in s.nodes && n.queue[0] in n.queue;
    SendOpens(s.transit, Msg(i, n.queue[0].dest, n.queue[0].ts, n.state.colour, n.queue[0].what), Floor(s));
    if s.book.lateTime < LONG_MAX {
      var j: nat :| j < |s.nodes| && Crossed(s, j);
      assert Whites(s'.transit, j) >= Whites(s.transit, j);
      assert Crossed(s', j);
    }
  }

  lemma {:induction false} OthersFloored(s: Sys, s': Sys)
    requires Valid(s) && Valid(s') && FirstRound(s) && FirstRound(s') && Floored(s) && |s'.nodes| == |s.nodes|
    requires s'.transit == s.transit && s'.book.late == s.book.late && s'.book.lateTime == s.book.lateTime
    requires s'.book.staleTime == s.book.staleTime && s'.token.value.token.minTime <= s.token.value.token.minTime
    requires s'.token.value.token.redTime == LONG_MAX
    requires forall n | n in s'.nodes && n.state.colour.Red? :: NodeFrom(n, Floor(s'))
    requires forall i {:trigger s'.nodes[i]} | 0 <= i < |s.nodes| && s.nodes[i].state.colour.Red? :: s'.nodes[i].state.colour.Red?
    ensures Floored(s')
  {
    if s.book.lateTime < LONG_MAX {
      var j: nat :| j < |s.nodes| && Crossed(s, j);
      assert Crossed(s', j);
    }
  }

  lemma {:induction false} StepFloored(s: Sys, a: Action)
    requires Valid(s) && Enabled(s, a) && Phase(s) && Floored(s)
    ensures Valid(Apply(s, a)) && Floored(Apply(s, a))
  {
    StepValid(s, a);
    var s' := Apply(s, a);
    if FirstRound(s') {
      match a
      case Send(i) => SendFloored(s, i);
      case Receive(k, lvt, queue) => ReceiveFloored(s, k, lvt, queue);
      case Progress(i, lvt, outs) =>
        assert s.nodes[i] in s.nodes;
        OthersFloored(s, s');
      case Begin => LeastRedIs(s.transit, 0);
      case HandleToken(outs) => TokenFloored(s, outs);
      case TakeValue(k, outs) =>
    }
  }

  lemma {:induction false} TokenFloored(s: Sys, outs: seq<Out>)
    requires Valid(s) && Enabled(s, HandleToken(outs)) && Phase(s) && Floored(s)
    requires Valid(ApplyToken(s, outs)) && FirstRound(ApplyToken(s, outs))
    ensures Floored(ApplyToken(s, outs))
  {
    var s', at := ApplyToken(s, outs), s.token.value.at;
    assert ValidNode(s.net, s.nodes[at], at);
    forall n | n in s'.nodes && n.state.colour.Red?
      ensures NodeFrom(n, Floor(s'))
    {
      var i :| 0 <= i < |s'.nodes| && s'.nodes[i] == n;
      if i != at { assert s.nodes[i] in s.nodes; }
    }
    OthersFloored(s, s');
  }

  // ---- safety of the announced value ----

  /** Nothing in the system is earlier than t: no local time, no queued message, no message
      in transit. */
  ghost predicate Safe(s: Sys, t: nat)
  {
    && (forall n | n in s.nodes :: NodeFrom(n, t))
    && (forall m | m in s.transit :: m.ts >= t)
  }

  /** The GVT a step announces or takes over, if any, is no earlier than t. */
  ghost predicate NotBehind(s: Sys, a: Action, t: nat)
    requires Valid(s) && Enabled(s, a)
  {
    && (a.HandleToken? && Cuts(s).1.Announce? ==> Cuts(s).1.gvt >= t)
    && (a.TakeValue? ==> s.values[a.k].gvt >= t)
  }

  /** Nothing ever undercuts a safe time again, unless a GVT behind it is still to be taken. */
  lemma {:induction false} StepSafe(s: Sys, a: Action, t: nat)
    requires Valid(s) && Enabled(s, a) && Safe(s, t) && NotBehind(s, a, t)
    ensures Safe(Apply(s, a), t)
  {
    match a
    case Send(i) => assert s.nodes[i] in s.nodes && s.nodes[i].queue[0] in s.nodes[i].queue;
    case Receive(k, lvt, queue) => assert s.transit[k] in s.transit && s.nodes[s.transit[k].dest] in s.nodes;
    case Progress(i, lvt, outs) => assert s.nodes[i] in s.nodes;
    case HandleToken(outs) => assert s.nodes[s.token.value.at] in s.nodes;
    case TakeValue(k, outs) => assert s.nodes[s.values[k].dest] in s.nodes;
    case Begin => assert s.nodes[0] in s.nodes;
  }

  /** The counts the starter decides on. */
  function Final(s: Sys): seq<int>
    requires Valid(s) && FirstRound(s)
  {
    var n := s.nodes[s.token.value.at];
    Folded(n.state, s.token.value.token, n.lvt).counts
  }

  function FinalMissing(s: Sys): seq<nat>
    requires Valid(s) && FirstRound(s)
  {
    NowMissing(s.book.missing, s.nodes[s.token.value.at].state)
  }

  /** What the counts mean when the token is back: corrected by the processes without a
      counter they are exactly the white messages still on their way plus those that came
      too late. */
  lemma {:induction false} CountsAreExact(s: Sys, j: nat)
    requires Valid(s) && TokenReady(s) && Phase(s) && Accounted(s)
    requires FirstRound(s) && s.token.value.at == 0 && j < |s.nodes|
    ensures Final(s)[j] + FinalMissing(s)[j] == Whites(s.transit, j) + s.book.late[j]
  {
    assert Balanced(s, j);
    CutBalances(s, j);
    var red := s.nodes[0 := Reddened(s.nodes[0])];
    forall n | n in red
      ensures n.state.colour.Red?
    {
      var i :| 0 <= i < |red| && red[i] == n;
      assert i > 0 ==> red[i] == s.nodes[i];
    }
    SumAllRed(red, j);
  }

  /** GVT safety on the first-cut path. When the token comes back to the starter and no
      corrected count is positive, no white message crossed the cut: none is in transit and
      none came late. Then the announced value is no later than any local time, any queued
      message and any message in transit, unless a red message that was already in transit when
      the round began, with no white one behind it in its channel, is earlier still. */
  lemma {:induction false} FirstCutIsSafe(s: Sys, outs: seq<Out>)
    requires Valid(s) && Enabled(s, HandleToken(outs)) && Phase(s) && Accounted(s) && Floored(s)
    requires FirstRound(s) && s.token.value.at == 0 && Cuts(s).1.Announce?
    requires forall j | 0 <= j < |s.nodes| :: Final(s)[j] + FinalMissing(s)[j] <= 0
    ensures forall j | 0 <= j < |s.nodes| :: Whites(s.transit, j) == 0 && s.book.late[j] == 0
    ensures Safe(ApplyToken(s, outs), Min(Cuts(s).1.gvt, s.book.staleTime))
  {
    forall j | 0 <= j < |s.nodes|
      ensures Whites(s.transit, j) == 0 && s.book.late[j] == 0
    {
      CountsAreExact(s, j);
    }
    SafeWithoutCrossing(s, outs);
  }

  lemma {:induction false} SafeWithoutCrossing(s: Sys, outs: seq<Out>)
    requires Valid(s) && Enabled(s, HandleToken(outs)) && Phase(s) && Floored(s)
    requires FirstRound(s) && s.token.value.at == 0 && Cuts(s).1.Announce?
    requires forall j | 0 <= j < |s.nodes| :: Whites(s.transit, j) == 0 && s.book.late[j] == 0
    ensures Safe(ApplyToken(s, outs), Min(Cuts(s).1.gvt, s.book.staleTime))
  {
    var s' := ApplyToken(s, outs);
    var t := Min(Cuts(s).1.gvt, s.book.staleTime);
    assert t <= Floor(s);
    forall n | n in s'.nodes
      ensures NodeFrom(n, t)
    {
      var i :| 0 <= i < |s'.nodes| && s'.nodes[i] == n;
      if i > 0 { assert s.nodes[i] in s.nodes && s.nodes[i].state.colour.Red? && s.nodes[i] == n; }
    }
    forall m | m in s.transit
      ensures m.ts >= t
    {
      var k :| 0 <= k < |s.transit| && s.transit[k] == m;
      if m.colour.White? { WhiteInTransit(s.transit, m); }
      if Followed(s.transit, k) {
        var i :| k < i < |s.transit| && SameChannel(m, s.transit[i]) && s.transit[i].colour.White?;
        WhiteInTransit(s.transit, s.transit[i]);
      }
    }
  }
}
