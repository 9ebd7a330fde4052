/** Runs of agents and CLPs, step by step, into states from where the next GVT round is not safe. */
module GvtRuns {
  import opened Base
  import opened Mattern
  import opened Tree
  import opened GvtRound
  import opened GvtSafety
  import opened GvtAgents
  import opened GvtExact

  // ---- single moves, as what they make of the world ----

  function Issued(w: World, i: nat, a: nat, t: nat): World
    requires ValidWorld(w) && AgentOf(w, i, a) && i >= w.sys.net.n
  {
    var n := w.sys.nodes[i];
    World(w.sys.(nodes := w.sys.nodes[i := n.(queue := n.queue + [Asking(w, i, a, t)])]),
          w.agents[i := With(w.agents[i], a, Agent(w.agents[i][a].lvt, true))], w.ahead)
  }

  lemma {:induction false} DoIssue(w: World, i: nat, a: nat, t: nat)
    requires ValidWorld(w) && AgentOf(w, i, a) && i >= w.sys.net.n
    requires !w.agents[i][a].waits && t >= w.agents[i][a].lvt
    ensures Onward(w, Issued(w, i, a, t))
  {
    OneMove(w, Issue(i, a, t));
  }

  function Transmitted(w: World, i: nat): World
    requires ValidWorld(w) && Enabled(w.sys, Send(i))
  {
    World(ApplySend(w.sys, i), w.agents, w.ahead)
  }

  lemma {:induction false} DoTransmit(w: World, i: nat)
    requires ValidWorld(w) && Enabled(w.sys, Send(i))
    ensures Onward(w, Transmitted(w, i))
  {
    OneMove(w, Transmit(i));
  }

  /** Message k is next in its channel, which is not the one the token is in. */
  ghost predicate Free(w: World, k: nat)
    requires ValidWorld(w)
  {
    k < |w.sys.transit| && IsFirst(w.sys.transit, k) && !WithToken(w.sys, w.sys.transit[k])
  }

  function Serving(w: World, k: nat, outs: seq<Out>): Action
    requires ValidWorld(w) && k < |w.sys.transit|
  {
    assert w.sys.transit[k] in w.sys.transit;
    var n := w.sys.nodes[w.sys.transit[k].dest];
    Receive(k, n.lvt, n.queue + outs)
  }

  function Served(w: World, k: nat, outs: seq<Out>): World
    requires ValidWorld(w) && Free(w, k) && Enabled(w.sys, Serving(w, k, outs))
  {
    World(Apply(w.sys, Serving(w, k, outs)), w.agents, w.ahead)
  }

  lemma {:induction false} DoServe(w: World, k: nat, outs: seq<Out>)
    requires ValidWorld(w) && Free(w, k) && w.sys.transit[k].dest < w.sys.net.n && w.sys.transit[k].what.Asks?
    requires ValidQueue(w.sys.net, outs, w.sys.transit[k].dest)
    requires forall q | q in outs :: Because(w.sys.net, w.sys.transit[k], q)
    ensures Enabled(w.sys, Serving(w, k, outs)) && Onward(w, Served(w, k, outs))
  {
    assert w.sys.transit[k] in w.sys.transit;
    OneMove(w, Serve(k, outs));
  }

  /** The answer the agent waits for comes. */
  ghost predicate Awaited(w: World, k: nat)
    requires ValidWorld(w)
  {
    && Free(w, k) && w.sys.transit[k].what.Answers? && w.sys.transit[k].what.agent.rank == w.sys.transit[k].dest
    && AgentOf(w, w.sys.transit[k].dest, w.sys.transit[k].what.agent.id)
    && w.agents[w.sys.transit[k].dest][w.sys.transit[k].what.agent.id].waits
  }

  lemma StayingPut(w: World, k: nat)
    requires ValidWorld(w) && Free(w, k)
    ensures Enabled(w.sys, Same(w.sys, k))
  {
    assert w.sys.transit[k] in w.sys.transit;
  }

  function Freed(w: World, k: nat): World
    requires ValidWorld(w) && Awaited(w, k)
  {
    var m := w.sys.transit[k];
    var was := w.agents[m.dest][m.what.agent.id];
    StayingPut(w, k);
    World(Apply(w.sys, Same(w.sys, k)),
          w.agents[m.dest := With(w.agents[m.dest], m.what.agent.id, was.(waits := false))], w.ahead)
  }

  lemma {:induction false} DoAnswer(w: World, k: nat)
    requires ValidWorld(w) && Awaited(w, k)
    ensures Onward(w, Freed(w, k))
  {
    OneMove(w, Answered(k));
  }

  // ---- an agent's request and its answer ----

  /** The runs are about ALP x, its CLP p, and ALP y, which is also p's. */
  datatype Cast = Cast(x: nat, p: nat, y: nat)

  /** Nothing but the counters of x and p, their red times and their queues has changed; counters
      have only come to x and p for each other and themselves, and to p for y, and no counter
      for oneself has risen. */
  ghost predicate Alike(s: Sys, s': Sys, c: Cast)
  {
    && s'.net == s.net && |s'.nodes| == |s.nodes| && s'.token == s.token && s'.values == s.values && s'.book == s.book
    && (forall i {:trigger s'.nodes[i]} | 0 <= i < |s.nodes| ::
          && s'.nodes[i].lvt == s.nodes[i].lvt && s'.nodes[i].gvt == s.nodes[i].gvt
          && s'.nodes[i].state.colour == s.nodes[i].state.colour
          && s'.nodes[i].state.accepting == s.nodes[i].state.accepting
          && Own(s', i) <= Own(s, i))
    && forall i, j {:trigger Knows(s', i, j)} | 0 <= i < |s.nodes| && Knows(s', i, j) ::
         Knows(s, i, j) || (i == c.x && (j == c.p || j == c.x)) || (i == c.p && (j == c.x || j == c.p || j == c.y))
  }

  function Own(s: Sys, i: nat): int
    requires i < |s.nodes|
  {
    s.nodes[i].state.Count(i)
  }

  /** Everybody's queue is empty except those given. */
  ghost predicate Queued(s: Sys, i: nat, queue: seq<Out>)
  {
    forall k {:trigger s.nodes[k]} | 0 <= k < |s.nodes| :: s.nodes[k].queue == if k == i then queue else []
  }

  /** x and p are linked, have the same colour, and the token is not about between them. */
  ghost predicate Talking(w: World, c: Cast)
  {
    && ValidWorld(w) && w.sys.net.n <= c.x < |w.sys.nodes| && w.sys.net.ClpOf(c.x) == c.p
    && w.sys.net.n <= c.y < |w.sys.nodes| && w.sys.net.ClpOf(c.y) == c.p
    && w.sys.nodes[c.x].state.colour == w.sys.nodes[c.p].state.colour
    && (w.sys.token.Some? ==> w.sys.token.value.at == 0 && c.p != 0)
  }

  /** The only message of its channel, of the colour of who receives it. */
  lemma {:induction false} ReceivedInTime(s: Sys, lvt: nat, queue: seq<Out>)
    requires Valid(s) && s.transit != [] && Enabled(s, Receive(0, lvt, queue))
    requires s.transit[0].colour == s.nodes[s.transit[0].dest].state.colour
    requires forall i | 0 < i < |s.transit| :: !SameChannel(s.transit[0], s.transit[i])
    ensures var m := s.transit[0];
            var n := s.nodes[m.dest];
            ApplyReceive(s, 0, lvt, queue) ==
            s.(nodes := s.nodes[m.dest := n.(state := ReceiveHook(n.state, m.colour), lvt := lvt, queue := queue)],
               transit := s.transit[1..])
  {
    assert s.transit[..0] + s.transit[1..] == s.transit[1..];
  }

  lemma {:induction false} OneNodeAlike(s: Sys, s': Sys, c: Cast, i: nat, state: Calc)
    requires Valid(s) && i < |s.nodes| && (i == c.x || i == c.p)
    requires |s'.nodes| == |s.nodes| && s'.nodes == s.nodes[i := s.nodes[i].(state := state, queue := s'.nodes[i].queue)]
    requires s' == s.(nodes := s'.nodes, transit := s'.transit)
    requires state.colour == s.nodes[i].state.colour && state.accepting == s.nodes[i].state.accepting
    requires state.Count(i) <= s.nodes[i].state.Count(i)
    requires forall j | j in state.counters && j !in s.nodes[i].state.counters ::
               j == c.x || j == c.p || (i == c.p && j == c.y)
    ensures Alike(s, s', c)
  {
    forall k: nat, j: nat | k < |s.nodes| && Knows(s', k, j)
      ensures Knows(s, k, j) || (k == c.x && (j == c.p || j == c.x)) || (k == c.p && (j == c.x || j == c.p || j == c.y))
    {
      if k != i { assert s'.nodes[k] == s.nodes[k]; }
    }
  }

  lemma {:induction false} AlikeOn(s: Sys, u: Sys, v: Sys, c: Cast)
    requires Alike(s, u, c) && Alike(u, v, c)
    ensures Alike(s, v, c)
  {
    forall i: nat, j: nat | i < |s.nodes| && Knows(v, i, j)
      ensures Knows(s, i, j) || (i == c.x && (j == c.p || j == c.x)) || (i == c.p && (j == c.x || j == c.p || j == c.y))
    {
      if Knows(u, i, j) { }
    }
  }

  ghost predicate Goes(w: World, w': World, c: Cast)
  {
    Onward(w, w') && Talking(w', c) && Alike(w.sys, w'.sys, c) && w'.ahead == w.ahead
  }

  lemma {:induction false} GoesOn(w: World, v: World, r: World, c: Cast)
    requires Goes(w, v, c) && Goes(v, r, c)
    ensures Goes(w, r, c)
  {
    OnwardOn(w, v, r);
    AlikeOn(w.sys, v.sys, r.sys, c);
  }

  function Question(w: World, c: Cast, a: nat, t: nat): Msg
    requires Talking(w, c)
  {
    Msg(c.x, c.p, t, w.sys.nodes[c.x].state.colour, Asks(LpId(a, c.x)))
  }

  lemma {:induction false} TalkOn(w: World, w': World, c: Cast)
    requires Talking(w, c) && ValidWorld(w') && Alike(w.sys, w'.sys, c)
    ensures Talking(w', c)
  {
  }

  lemma {:induction false} IssuedIs(w: World, c: Cast, a: nat, t: nat)
    requires Talking(w, c) && Queued(w.sys, c.x, []) && AgentOf(w, c.x, a)
    ensures Alike(w.sys, Issued(w, c.x, a, t).sys, c) && Queued(Issued(w, c.x, a, t).sys, c.x, [Asking(w, c.x, a, t)])
  {
    var n := w.sys.nodes[c.x];
    assert n.queue == [] && [] + [Asking(w, c.x, a, t)] == [Asking(w, c.x, a, t)];
    OneNodeAlike(w.sys, Issued(w, c.x, a, t).sys, c, c.x, n.state);
  }

  /** The first of a queue goes out. */
  lemma {:induction false} TransmittedIs(s: Sys, c: Cast, i: nat, q: Out, rest: seq<Out>)
    requires Valid(s) && i < |s.nodes| && (i == c.x || i == c.p) && Queued(s, i, [q] + rest)
    requires q.dest != i && (q.dest == c.x || q.dest == c.p || (i == c.p && q.dest == c.y))
    ensures Enabled(s, Send(i)) && Alike(s, ApplySend(s, i), c) && Queued(ApplySend(s, i), i, rest)
    ensures ApplySend(s, i).transit == s.transit + [Msg(i, q.dest, q.ts, s.nodes[i].state.colour, q.what)]
  {
    var n := s.nodes[i];
    assert n.queue == [q] + rest && n.queue[0] == q && n.queue[1..] == rest;
    OneNodeAlike(s, ApplySend(s, i), c, i, SendHook(n.state, q.dest, q.ts));
  }

  lemma {:induction false} Ask(w: World, c: Cast, a: nat, t: nat) returns (w': World)
    requires Talking(w, c) && Queued(w.sys, c.x, []) && w.sys.transit == [] && AgentOf(w, c.x, a)
    requires !w.agents[c.x][a].waits && t >= w.agents[c.x][a].lvt
    ensures Goes(w, w', c)
    ensures Queued(w'.sys, c.x, []) && w'.sys.transit == [Question(w, c, a, t)]
    ensures w'.agents == w.agents[c.x := With(w.agents[c.x], a, Agent(w.agents[c.x][a].lvt, true))]
  {
    DoIssue(w, c.x, a, t);
    IssuedIs(w, c, a, t);
    var v := Issued(w, c.x, a, t);
    TalkOn(w, v, c);
    assert [Asking(w, c.x, a, t)] + [] == [Asking(w, c.x, a, t)];
    TransmittedIs(v.sys, c, c.x, Asking(w, c.x, a, t), []);
    DoTransmit(v, c.x);
    w' := Transmitted(v, c.x);
    TalkOn(v, w', c);
    GoesOn(w, v, w', c);
  }

  /** What p tells y, or nothing. */
  ghost predicate Telling(c: Cast, a: nat, t: nat, told: seq<Out>)
  {
    told == [] || (|told| == 1 && told[0].dest == c.y && told[0].ts >= t && told[0].what.Rollback?
                   && told[0].what.agent.rank == c.y && told[0].what.agent != LpId(a, c.x))
  }

  function Sent(from: nat, colour: Colour, told: seq<Out>): seq<Msg>
  {
    if told == [] then [] else [Msg(from, told[0].dest, told[0].ts, colour, told[0].what)]
  }

  function Reply(c: Cast, a: nat, t: nat): Out
  {
    Out(c.x, t, Answers(LpId(a, c.x)))
  }

  lemma {:induction false} CanReply(w: World, c: Cast, a: nat, t: nat, told: seq<Out>)
    requires Talking(w, c) && Telling(c, a, t, told)
    ensures ValidQueue(w.sys.net, [Reply(c, a, t)] + told, c.p)
    ensures forall q | q in [Reply(c, a, t)] + told :: Because(w.sys.net, Question(w, c, a, t), q)
  {
  }

  lemma {:induction false} ServedIs(w: World, c: Cast, a: nat, t: nat, outs: seq<Out>)
    requires Talking(w, c) && Queued(w.sys, c.p, []) && w.sys.transit == [Question(w, c, a, t)] && Free(w, 0)
    requires w.sys.nodes[c.p].queue + outs == outs && Enabled(w.sys, Serving(w, 0, outs))
    ensures var s' := Served(w, 0, outs).sys; s'.transit == [] && Queued(s', c.p, outs) && Alike(w.sys, s', c)
  {
    var n := w.sys.nodes[c.p];
    ReceivedInTime(w.sys, n.lvt, n.queue + outs);
    OneNodeAlike(w.sys, Served(w, 0, outs).sys, c, c.p, ReceiveHook(n.state, w.sys.transit[0].colour));
  }

  lemma {:induction false} Serving1(w: World, c: Cast, a: nat, t: nat, told: seq<Out>) returns (w': World)
    requires Talking(w, c) && Queued(w.sys, c.p, []) && w.sys.transit == [Question(w, c, a, t)] && Telling(c, a, t, told)
    ensures Goes(w, w', c) && w'.agents == w.agents
    ensures Queued(w'.sys, c.p, [Reply(c, a, t)] + told) && w'.sys.transit == []
  {
    var outs := [Reply(c, a, t)] + told;
    assert w.sys.nodes[c.p].queue == [] && [] + outs == outs;
    CanReply(w, c, a, t, told);
    DoServe(w, 0, outs);
    w' := Served(w, 0, outs);
    ServedIs(w, c, a, t, outs);
    TalkOn(w, w', c);
  }

  /** p sends the first of its queue. */
  lemma {:induction false} Relay(w: World, c: Cast, q: Out, rest: seq<Out>) returns (w': World)
    requires Talking(w, c) && Queued(w.sys, c.p, [q] + rest) && (q.dest == c.x || q.dest == c.y)
    ensures Goes(w, w', c) && w'.agents == w.agents && Queued(w'.sys, c.p, rest)
    ensures w'.sys.transit == w.sys.transit + [Msg(c.p, q.dest, q.ts, w.sys.nodes[c.p].state.colour, q.what)]
  {
    TransmittedIs(w.sys, c, c.p, q, rest);
    DoTransmit(w, c.p);
    w' := Transmitted(w, c.p);
    TalkOn(w, w', c);
  }

  lemma {:induction false} FreedIs(w: World, c: Cast, rest: seq<Msg>)
    requires Talking(w, c) && Queued(w.sys, c.x, []) && Awaited(w, 0) && w.sys.transit[1..] == rest
    requires w.sys.transit[0].dest == c.x && w.sys.transit[0].colour == w.sys.nodes[c.p].state.colour
    requires forall m | m in rest :: m.dest != c.x
    ensures var s' := Freed(w, 0).sys; s'.transit == rest && Queued(s', c.x, []) && Alike(w.sys, s', c)
    ensures w.sys.nodes[c.p].state.colour.White? ==> Own(Freed(w, 0).sys, c.x) < Own(w.sys, c.x)
  {
    var n := w.sys.nodes[c.x];
    assert forall i | 0 < i < |w.sys.transit| :: w.sys.transit[i] == rest[i - 1];
    StayingPut(w, 0);
    ReceivedInTime(w.sys, n.lvt, n.queue);
    OneNodeAlike(w.sys, Freed(w, 0).sys, c, c.x, ReceiveHook(n.state, w.sys.transit[0].colour));
  }

  /** The answer comes in front of whatever else p has sent. */
  lemma {:induction false} Free1(w: World, c: Cast, a: nat, t: nat, rest: seq<Msg>) returns (w': World)
    requires Talking(w, c) && Queued(w.sys, c.x, [])
    requires w.sys.transit == [Msg(c.p, c.x, t, w.sys.nodes[c.p].state.colour, Answers(LpId(a, c.x)))] + rest
    requires forall m | m in rest :: m.dest != c.x
    requires AgentOf(w, c.x, a) && w.agents[c.x][a].waits
    ensures Goes(w, w', c)
    ensures Queued(w'.sys, c.x, []) && w'.sys.transit == rest
    ensures w'.agents == w.agents[c.x := With(w.agents[c.x], a, w.agents[c.x][a].(waits := false))]
    ensures w.sys.nodes[c.p].state.colour.White? ==> Own(w'.sys, c.x) < Own(w.sys, c.x)
  {
    DoAnswer(w, 0);
    w' := Freed(w, 0);
    FreedIs(w, c, rest);
    TalkOn(w, w', c);
  }

  lemma {:induction false} Finish(w: World, c: Cast, a: nat, t: nat, rest: seq<Msg>, before: seq<map<nat, Agent>>)
    returns (w': World)
    requires Talking(w, c) && Queued(w.sys, c.x, [])
    requires w.sys.transit == [Msg(c.p, c.x, t, w.sys.nodes[c.p].state.colour, Answers(LpId(a, c.x)))] + rest
    requires forall m | m in rest :: m.dest != c.x
    requires |before| == |w.agents| && a in before[c.x] && !before[c.x][a].waits
    requires w.agents == before[c.x := With(before[c.x], a, Agent(before[c.x][a].lvt, true))]
    ensures Goes(w, w', c) && w'.agents == before && Queued(w'.sys, c.x, []) && w'.sys.transit == rest
    ensures w.sys.nodes[c.p].state.colour.White? ==> Own(w'.sys, c.x) < Own(w.sys, c.x)
  {
    w' := Free1(w, c, a, t, rest);
    assert w'.agents[c.x] == before[c.x];
  }

  lemma {:induction false} AskAndServe(w: World, c: Cast, a: nat, t: nat, told: seq<Out>) returns (w': World)
    requires Talking(w, c) && c.x != c.y && Queued(w.sys, c.x, []) && w.sys.transit == [] && AgentOf(w, c.x, a)
    requires !w.agents[c.x][a].waits && t >= w.agents[c.x][a].lvt && Telling(c, a, t, told)
    ensures Goes(w, w', c) && Queued(w'.sys, c.p, [Reply(c, a, t)] + told) && w'.sys.transit == []
    ensures w'.agents == w.agents[c.x := With(w.agents[c.x], a, Agent(w.agents[c.x][a].lvt, true))]
  {
    var w1 := Ask(w, c, a, t);
    w' := Serving1(w1, c, a, t, told);
    GoesOn(w, w1, w', c);
  }

  lemma {:induction false} RelayAll(w: World, c: Cast, q: Out, told: seq<Out>) returns (w': World)
    requires Talking(w, c) && Queued(w.sys, c.p, [q] + told) && q.dest == c.x && w.sys.transit == []
    requires told == [] || (|told| == 1 && told[0].dest == c.y)
    ensures Goes(w, w', c) && w'.agents == w.agents && Queued(w'.sys, c.p, [])
    ensures var colour := w.sys.nodes[c.p].state.colour;
            w'.sys.transit == [Msg(c.p, q.dest, q.ts, colour, q.what)] + Sent(c.p, colour, told)
  {
    w' := Relay(w, c, q, told);
    if told != [] {
      assert told == [told[0]] + [];
      var w1 := w';
      w' := Relay(w1, c, told[0], []);
      GoesOn(w, w1, w', c);
    }
  }

  /** An agent of x asks p and is answered, and p, perhaps, tells an agent of y to roll back. */
  lemma {:induction false} Exchange(w: World, c: Cast, a: nat, t: nat, told: seq<Out>) returns (w': World)
    requires Talking(w, c) && c.x != c.y && Queued(w.sys, c.x, []) && w.sys.transit == [] && AgentOf(w, c.x, a)
    requires !w.agents[c.x][a].waits && t >= w.agents[c.x][a].lvt && Telling(c, a, t, told)
    ensures Goes(w, w', c) && w'.agents == w.agents
    ensures Queued(w'.sys, c.x, []) && w'.sys.transit == Sent(c.p, w.sys.nodes[c.p].state.colour, told)
    ensures w.sys.nodes[c.p].state.colour.White? ==> Own(w'.sys, c.x) < Own(w.sys, c.x)
  {
    var w2 := AskAndServe(w, c, a, t, told);
    var w4 := RelayAll(w2, c, Reply(c, a, t), told);
    GoesOn(w, w2, w4, c);
    w' := Finish(w4, c, a, t, Sent(c.p, w.sys.nodes[c.p].state.colour, told), w.agents);
    GoesOn(w, w4, w', c);
  }

  // ---- a counter that is not there ----

  /** Before the first round: nothing has been counted, nobody waits. */
  ghost predicate Resting(w: World)
  {
    ValidWorld(w) && Quiescent(w.sys) && Begins(w.sys.nodes[0].state) && Paused(w)
  }

  /** Two ALPs of one CLP, each with an agent that has time left; y is not next to the CLP on
      the ring. */
  ghost predicate Siblings(w: World, c: Cast, a: nat, b: nat)
    requires ValidWorld(w)
  {
    && w.sys.net.n <= c.x < |w.sys.nodes| && w.sys.net.n <= c.y < |w.sys.nodes| && c.x != c.y
    && w.sys.net.ClpOf(c.x) == w.sys.net.ClpOf(c.y) == c.p && c.y != c.p + 1
    && AgentOf(w, c.x, a) && w.agents[c.x][a].lvt < LONG_MAX
    && AgentOf(w, c.y, b) && w.agents[c.y][b].lvt < LONG_MAX
  }

  function TheLater(w: World, c: Cast, a: nat, b: nat): nat
    requires ValidWorld(w) && Siblings(w, c, a, b)
  {
    var t, u := w.agents[c.x][a].lvt, w.agents[c.y][b].lvt;
    if t < u then u else t
  }

  function ToldToGoBack(c: Cast, b: nat, u: nat): Out
  {
    Out(c.y, u, Rollback(LpId(b, c.y)))
  }

  lemma {:induction false} RestIsCalm(w: World, c: Cast, a: nat, b: nat)
    requires Resting(w) && Siblings(w, c, a, b)
    ensures Queued(w.sys, c.y, []) && CanBegin(w.sys) && Talking(w, c) && Talking(w, Cast(c.y, c.p, c.x))
    ensures !w.agents[c.x][a].waits && !w.agents[c.y][b].waits
  {
    forall i | 0 <= i < |w.sys.nodes|
      ensures w.sys.nodes[i].queue == [] && w.sys.nodes[i].state.colour.White?
    {
      assert w.sys.nodes[i] in w.sys.nodes;
    }
  }

  lemma {:induction false} ExchangeKeepsBeginning(w: World, w': World, c: Cast)
    requires ValidWorld(w) && ValidWorld(w') && CanBegin(w.sys) && Alike(w.sys, w'.sys, c) && Queued(w'.sys, c.x, [])
    ensures CanBegin(w'.sys) && Queued(w'.sys, 0, [])
  {
    assert ValidNode(w.sys.net, w.sys.nodes[0], 0) && ValidNode(w'.sys.net, w'.sys.nodes[0], 0);
    forall n | n in w'.sys.nodes
      ensures n.state.colour.White?
    {
      var i :| 0 <= i < |w'.sys.nodes| && w'.sys.nodes[i] == n;
      assert w.sys.nodes[i] in w.sys.nodes;
    }
  }

  /** Nobody but p and y has got a counter for y. */
  ghost predicate NewlyKnown(s: Sys, s': Sys, c: Cast)
  {
    |s'.nodes| == |s.nodes| &&
    forall i {:trigger Knows(s', i, c.y)} | 0 <= i < |s.nodes| && Knows(s', i, c.y) :: Knows(s, i, c.y) || i == c.p || i == c.y
  }

  lemma {:induction false} KnownAfterBoth(s: Sys, u: Sys, v: Sys, c: Cast)
    requires Alike(s, u, Cast(c.y, c.p, c.x)) && Alike(u, v, c) && c.x != c.y && c.p != c.y
    ensures NewlyKnown(s, v, c)
  {
    forall i: nat | i < |s.nodes| && Knows(v, i, c.y)
      ensures Knows(s, i, c.y) || i == c.p || i == c.y
    {
      if Knows(u, i, c.y) { }
    }
  }

  /** y's agent reads, and then x's agent writes what it has read, no later: p answers both and
      tells y's agent to roll back. */
  lemma {:induction false} ReadAndOverwrite(w: World, c: Cast, a: nat, b: nat) returns (w': World)
    requires Resting(w) && Siblings(w, c, a, b)
    ensures Onward(w, w') && w'.agents == w.agents && Queued(w'.sys, c.x, []) && CanBegin(w'.sys)
    ensures w'.sys.transit == [Msg(c.p, c.y, TheLater(w, c, a, b), White, Rollback(LpId(b, c.y)))] && w'.sys.net == w.sys.net
    ensures NewlyKnown(w.sys, w'.sys, c) && Own(w'.sys, c.y) < 0
  {
    var u, back := TheLater(w, c, a, b), Cast(c.y, c.p, c.x);
    RestIsCalm(w, c, a, b);
    assert ValidNode(w.sys.net, w.sys.nodes[c.y], c.y);
    var v := Exchange(w, back, b, u, []);
    ExchangeKeepsBeginning(w, v, back);
    assert v.sys.nodes[c.p] in v.sys.nodes;
    w' := Exchange(v, c, a, w.agents[c.x][a].lvt, [ToldToGoBack(c, b, u)]);
    ExchangeKeepsBeginning(v, w', c);
    OnwardOn(w, v, w');
    KnownAfterBoth(w.sys, v.sys, w'.sys, c);
  }

  lemma {:induction false} OnlyOne(transit: seq<Msg>, m: Msg)
    requires transit == [m]
    ensures forall j: nat :: Whites(transit, j) == IsWhiteTo(m, j)
  {
    assert transit[..0] == [];
  }

  /** One white message is in transit, and a process other than the starter lacks a counter for
      where it goes. */
  lemma {:induction false} HiddenIsNotCounted(s: Sys, m: Msg, k: nat)
    requires Valid(s) && Conserved(s) && s.transit == [m] && k < |s.nodes| && !Knows(s, k, m.dest)
    ensures NothingCounted(s)
  {
    OnlyOne(s.transit, m);
    forall j | j in s.nodes[0].state.counters
      ensures s.nodes[0].state.counters[j] + Tally(s.nodes, |s.nodes|, j) <= 0
    {
      assert ValidNode(s.net, s.nodes[0], 0);
      TallyBelowSum(s.nodes, |s.nodes|, j, k);
      assert s.nodes[..|s.nodes|] == s.nodes && Sum(s.nodes, j, true) == Whites(s.transit, j);
    }
  }

  lemma {:induction false} AtEase(w: World, w': World, c: Cast)
    requires ValidWorld(w) && Paused(w) && ValidWorld(w') && w'.agents == w.agents && Queued(w'.sys, c.x, [])
    ensures Paused(w')
  {
    forall n | n in w'.sys.nodes
      ensures n.queue == []
    {
      var i :| 0 <= i < |w'.sys.nodes| && w'.sys.nodes[i] == n;
    }
  }

  /** A counter that has to be there. From any system at rest, with two ALPs of one CLP: if any
      process other than that CLP and y itself has no counter for y, the first round is not
      safe. The code starts with no counter at all. */
  lemma {:induction false} AbsentCounterHidesMessage(w: World, c: Cast, a: nat, b: nat, k: nat)
    requires Resting(w) && Siblings(w, c, a, b)
    requires k < |w.sys.nodes| && k != c.p && k != c.y && !Knows(w.sys, k, c.y)
    ensures !NextRoundIsSafe(w)
  {
    var w' := ReadAndOverwrite(w, c, a, b);
    var m := w'.sys.transit[0];
    QuiescentConserves(w.sys);
    ReachKeeps(w, w');
    HiddenIsNotCounted(w'.sys, m, k);
    AtEase(w, w', c);
    UncountedIsUnsafe(w', m);
  }

  // ---- a red message from an earlier round ----

  /** What a token's tour leaves as it is: the network, the agents, the counters, the messages in
      transit, none of them in its way, and the counts of late messages. */
  ghost predicate Hushed(w: World, w': World)
  {
    && ValidWorld(w) && ValidWorld(w') && w'.sys.net == w.sys.net && w'.agents == w.agents
    && w'.sys.transit == w.sys.transit && RingClear(w'.sys) && Queued(w'.sys, 0, [])
    && w'.sys.book.late == w.sys.book.late && w'.ahead == 0
    && SameCounters(w.sys, w'.sys)
  }

  ghost predicate SameCounters(s: Sys, s': Sys)
  {
    |s'.nodes| == |s.nodes| &&
    forall i {:trigger s'.nodes[i]} | 0 <= i < |s.nodes| :: s'.nodes[i].state.counters == s.nodes[i].state.counters
  }

  /** Every time the token has collected or may yet collect is later than t. */
  ghost predicate Later(s: Sys, t: nat)
  {
    && s.token.Some? && s.token.value.token.minTime > t && s.token.value.token.redTime > t
    && forall n | n in s.nodes :: n.lvt > t && (n.state.colour.Red? ==> n.state.redTime > t)
  }

  lemma {:induction false} VisitIs(w: World, w': World, t: nat)
    requires Hushed(w, w) && FirstRound(w.sys) && w.sys.token.value.at != 0 && Enabled(w.sys, HandleToken([]))
    requires ValidWorld(w') && w'.sys == ApplyToken(w.sys, []) && w'.agents == w.agents && w'.ahead == InTheWay(w'.sys)
    ensures Hushed(w, w') && FirstRound(w'.sys)
    ensures Tour(w'.sys.token.value, |w.sys.nodes|) == Tour(w.sys.token.value, |w.sys.nodes|) + 1
    ensures Later(w.sys, t) && t < LONG_MAX ==> Later(w'.sys, t)
  {
    var s, s', at := w.sys, w'.sys, w.sys.token.value.at;
    assert ValidNode(s.net, s.nodes[at], at) && s.nodes[at] in s.nodes;
    assert s'.nodes == s.nodes[at := Reddened(s.nodes[at])];
    NobodyInTheWay(s'.transit, Before(s', s'.token.value.at), s'.token.value.at);
  }

  /** The token goes on from a process that is not the starter. */
  lemma {:induction false} DoVisit(w: World, t: nat) returns (w': World)
    requires Hushed(w, w) && FirstRound(w.sys) && w.sys.token.value.at != 0
    ensures Onward(w, w') && Hushed(w, w') && FirstRound(w'.sys)
    ensures Tour(w'.sys.token.value, |w.sys.nodes|) == Tour(w.sys.token.value, |w.sys.nodes|) + 1
    ensures Later(w.sys, t) && t < LONG_MAX ==> Later(w'.sys, t)
  {
    var s, at, mv := w.sys, w.sys.token.value.at, Visit([]);
    assert ValidNode(s.net, s.nodes[at], at) && s.nodes[at].queue == [];
    OneMove(w, mv);
    w' := After(w, mv);
    VisitIs(w, w', t);
  }

  lemma {:induction false} ComeHome(w: World, t: nat) returns (w': World)
    requires Hushed(w, w) && FirstRound(w.sys)
    ensures Onward(w, w') && Hushed(w, w') && FirstRound(w'.sys) && w'.sys.token.value.at == 0
    ensures Later(w.sys, t) && t < LONG_MAX ==> Later(w'.sys, t)
    decreases |w.sys.nodes| - Tour(w.sys.token.value, |w.sys.nodes|)
  {
    if w.sys.token.value.at == 0 {
      w' := w;
      Stays(w);
    } else {
      var v := DoVisit(w, t);
      w' := ComeHome(v, t);
      OnwardOn(w, v, w');
    }
  }

  lemma {:induction false} DoStart(w: World, t: nat) returns (w': World)
    requires ValidWorld(w) && CanBegin(w.sys) && OldRedFollowed(w.sys) && RingClear(w.sys) && Queued(w.sys, 0, [])
    ensures Onward(w, w') && Hushed(w', w') && FirstRound(w'.sys) && w'.sys.book.late == Zeros(|w.sys.nodes|)
    ensures w'.agents == w.agents && w'.sys.net == w.sys.net && w'.sys.transit == w.sys.transit
    ensures SameCounters(w.sys, w'.sys)
    ensures (forall n | n in w.sys.nodes :: n.lvt > t) && t < LONG_MAX ==> Later(w'.sys, t)
  {
    OneMove(w, Start);
    w' := After(w, Start);
    assert w.sys.nodes[0] in w.sys.nodes;
    assert w'.sys.nodes == w.sys.nodes[0 := w'.sys.nodes[0]] && w'.sys.nodes[0].queue == [];
    NobodyInTheWay(w'.sys.transit, Before(w'.sys, w'.sys.token.value.at), w'.sys.token.value.at);
  }

  /** After an announcement: who is still red is to be told the value. */
  ghost predicate Winding(w: World, transit: seq<Msg>)
  {
    && ValidWorld(w) && w.sys.token.None? && Queued(w.sys, 0, []) && w.sys.transit == transit
    && Begins(w.sys.nodes[0].state) && w.sys.nodes[0].state.colour.White?
    && forall i {:trigger w.sys.nodes[i]} | 0 <= i < |w.sys.nodes| && w.sys.nodes[i].state.colour.Red? ::
         exists k :: 0 <= k < |w.sys.values| && w.sys.values[k].dest == i
  }

  lemma {:induction false} TakeWinds(w: World, w': World, transit: seq<Msg>)
    requires Winding(w, transit) && w.sys.values != [] && Enabled(w.sys, TakeValue(0, []))
    requires ValidWorld(w') && w'.sys == ApplyValue(w.sys, 0, [])
    ensures Winding(w', transit) && |w'.sys.values| == |w.sys.values| - 1
  {
    var s, d := w.sys, w.sys.values[0].dest;
    assert s.values[0] in s.values && ValidNode(s.net, s.nodes[d], d) && ValidNode(s.net, s.nodes[0], 0);
    assert w'.sys.values == s.values[1..] && s.nodes[d].queue + [] == s.nodes[d].queue;
    forall i | 0 <= i < |s.nodes| && w'.sys.nodes[i].state.colour.Red?
      ensures exists k :: 0 <= k < |w'.sys.values| && w'.sys.values[k].dest == i
    {
      var k :| 0 <= k < |s.values| && s.values[k].dest == i;
      assert k > 0;
      assert w'.sys.values[k - 1] == s.values[k];
    }
  }

  lemma {:induction false} DoTake(w: World, transit: seq<Msg>) returns (w': World)
    requires Winding(w, transit) && w.sys.values != []
    ensures Reaches(w, w') && Winding(w', transit) && w'.agents == w.agents && w'.sys.net == w.sys.net
    ensures |w'.sys.values| == |w.sys.values| - 1
  {
    assert w.sys.values[0] in w.sys.values;
    OneMove(w, Take(0, []));
    w' := After(w, Take(0, []));
    TakeWinds(w, w', transit);
  }

  lemma {:induction false} TakeAll(w: World, transit: seq<Msg>) returns (w': World)
    requires Winding(w, transit)
    ensures Reaches(w, w') && Winding(w', transit) && w'.sys.values == [] && w'.agents == w.agents && w'.sys.net == w.sys.net
    decreases |w.sys.values|
  {
    if w.sys.values == [] {
      w' := w;
      Stays(w);
    } else {
      var v := DoTake(w, transit);
      w' := TakeAll(v, transit);
      ReachesOn(w, v, w');
    }
  }

  lemma {:induction false} AnnounceWinds(w: World, w': World)
    requires ValidWorld(w) && ValidWorld(w') && Invariant(w.sys) && FirstRound(w.sys) && w.sys.token.value.at == 0
    requires Enabled(w.sys, HandleToken([])) && Cuts(w.sys).1.Announce? && w'.sys == ApplyToken(w.sys, [])
    requires Queued(w.sys, 0, [])
    ensures Winding(w', w.sys.transit)
  {
    var s, s' := w.sys, w'.sys;
    assert ValidNode(s.net, s.nodes[0], 0) && s.nodes[0].queue + [] == [];
    forall i | 0 <= i < |s.nodes| && s'.nodes[i].state.colour.Red?
      ensures exists k :: 0 <= k < |s'.values| && s'.values[k].dest == i
    {
      assert i != 0;
      assert ValueMsg(i, Cuts(s).1.gvt) in s'.values;
    }
  }

  /** The starter finds nothing outstanding and announces. */
  lemma {:induction false} DoAnnounce(w: World) returns (w': World)
    requires ValidWorld(w) && Invariant(w.sys) && FirstRound(w.sys) && w.sys.token.value.at == 0 && w.ahead == 0
    requires Queued(w.sys, 0, []) && w.sys.book.late == Zeros(|w.sys.nodes|) && forall m | m in w.sys.transit :: m.colour.Red?
    ensures Reaches(w, w') && Winding(w', w.sys.transit) && w'.agents == w.agents && w'.sys.net == w.sys.net
  {
    var s, mv := w.sys, Visit([]);
    assert ValidNode(s.net, s.nodes[0], 0) && s.nodes[0].queue == [];
    forall j | 0 <= j < |s.nodes|
      ensures Final(s)[j] <= 0
    {
      CountsAreExact(s, j);
      NoWhites(s.transit, j);
    }
    assert !Remaining(s.nodes[0].state, Final(s));
    assert Cuts(s).1.Announce?;
    OneMove(w, mv);
    w' := After(w, mv);
    MoveValid(w, mv);
    AnnounceWinds(w, w');
  }

  /** Up to the second announcement of the run below. */
  lemma {:induction false} ReadAndVisitAll(w: World, c: Cast, a: nat, b: nat) returns (w': World)
    requires Resting(w) && AtRest(w.sys) && Siblings(w, c, a, b) && c.p > 0
    ensures Reaches(w, w') && Hushed(w', w') && FirstRound(w'.sys) && w'.sys.token.value.at == 0 && Invariant(w'.sys)
    ensures w'.sys.transit == []
    ensures w'.agents == w.agents && w'.sys.net == w.sys.net && w'.sys.book.late == Zeros(|w.sys.nodes|)
  {
    var back := Cast(c.y, c.p, c.x);
    RestIsCalm(w, c, a, b);
    RestIsInvariant(w.sys);
    var w1 := Exchange(w, back, b, TheLater(w, c, a, b), []);
    ExchangeKeepsBeginning(w, w1, back);
    var w2 := DoStart(w1, 0);
    w' := ComeHome(w2, 0);
    OnwardOn(w, w1, w2);
    OnwardOn(w, w2, w');
    ReachKeeps(w, w');
  }

  lemma {:induction false} AnnounceAndTake(w: World) returns (r: World)
    requires ValidWorld(w) && Invariant(w.sys) && FirstRound(w.sys) && w.sys.token.value.at == 0 && w.ahead == 0
    requires Queued(w.sys, 0, []) && w.sys.book.late == Zeros(|w.sys.nodes|) && forall m | m in w.sys.transit :: m.colour.Red?
    ensures Reaches(w, r) && Winding(r, w.sys.transit) && r.sys.values == [] && r.agents == w.agents && r.sys.net == w.sys.net
  {
    var v := DoAnnounce(w);
    r := TakeAll(v, w.sys.transit);
    ReachesOn(w, v, r);
  }

  /** When the token is home all others are red. */
  lemma {:induction false} VisitedTalk(w: World, w': World, c: Cast)
    requires ValidWorld(w) && ValidWorld(w') && w'.agents == w.agents && w'.sys.net == w.sys.net && Paused(w)
    requires Invariant(w'.sys) && FirstRound(w'.sys) && w'.sys.token.value.at == 0 && c.p > 0
    requires exists a, b :: Siblings(w, c, a, b)
    ensures Talking(w', c) && w'.sys.nodes[c.p].state.colour.Red?
  {
  }

  lemma {:induction false} OldRedIsLeft(w: World, r: World, c: Cast, a: nat, b: nat)
    requires Resting(w) && AtRest(w.sys) && Siblings(w, c, a, b) && c.p > 0
    requires Reaches(w, r) && r.agents == w.agents && r.sys.net == w.sys.net && r.sys.values == []
    requires Winding(r, [Msg(c.p, c.y, TheLater(w, c, a, b), Red, Rollback(LpId(b, c.y)))])
    ensures CanBegin(r.sys) && Paused(r) && !NextRoundIsSafe(r)
  {
    RestIsInvariant(w.sys);
    ReachKeeps(w, r);
    forall n | n in r.sys.nodes
      ensures n.queue == [] && n.state.colour.White?
    {
      var i :| 0 <= i < |r.sys.nodes| && r.sys.nodes[i] == n;
    }
    assert r.sys.transit[0] in r.sys.transit;
    NextRoundIsSafeIff(r);
  }

  /** A run from rest, its only round settled by the first cut, into a state where the next round
      can announce too late a time. y's agent reads; the token visits everybody; x's agent, its
      process already cut, writes what has been read, and the CLP, already cut too, answers
      and tells y's agent to roll back: that message is red, and is still in transit when
      everybody is white again. */
  lemma {:induction false} OldRedMessageIsMissed(w: World, c: Cast, a: nat, b: nat) returns (r: World)
    requires Resting(w) && AtRest(w.sys) && Siblings(w, c, a, b) && c.p > 0
    ensures ValidWorld(r) && !NextRoundIsSafe(r)
    ensures Reaches(w, r) && CanBegin(r.sys) && Paused(r)
    ensures r.sys.transit == [Msg(c.p, c.y, TheLater(w, c, a, b), Red, Rollback(LpId(b, c.y)))]
  {
    var w3 := ReadAndVisitAll(w, c, a, b);
    VisitedTalk(w, w3, c);
    var w4 := Exchange(w3, c, a, w.agents[c.x][a].lvt, [ToldToGoBack(c, b, TheLater(w, c, a, b))]);
    ReachKeeps(w3, w4);
    r := AnnounceAndTake(w4);
    ReachesOn(w, w3, w4);
    ReachesOn(w, w4, r);
    OldRedIsLeft(w, r, c, a, b);
  }

  // ---- two ALPs below one of three CLPs ----

  function Newborn(i: nat, counters: map<nat, int>, lvt: nat): Node
  {
    Node(Calc(i, 5, White, ULONG_MAX, counters, true), lvt, 0, [])
  }

  /** Ranks 0 to 2 are CLPs; ranks 3 and 4 are ALPs of CLP 1, with one agent each. */
  function Five(counters: map<nat, int>): World
  {
    var nodes := [Newborn(0, counters, ULONG_MAX), Newborn(1, counters, ULONG_MAX), Newborn(2, counters, ULONG_MAX),
                  Newborn(3, counters, 0), Newborn(4, counters, 0)];
    World(Sys(Layout(3, map[], [1, 1]), nodes, [], None, [], Book(Zeros(5), Zeros(5), LONG_MAX, LONG_MAX)),
          [map[], map[], map[], map[0 := Agent(0, false)], map[1 := Agent(0, false)]], 0)
  }

  const ALL_RANKS: map<nat, int> := map[0 := 0, 1 := 0, 2 := 0, 3 := 0, 4 := 0]

  lemma {:induction false} FiveNodes(counters: map<nat, int>)
    requires forall j | j in counters :: j < 5 && counters[j] == 0
    ensures Quiescent(Five(counters).sys) && Begins(Five(counters).sys.nodes[0].state)
    ensures forall n | n in Five(counters).sys.nodes :: n.queue == []
  {
    var s := Five(counters).sys;
    forall i | 0 <= i < 5
      ensures ValidNode(s.net, s.nodes[i], i)
    {
    }
  }

  lemma {:induction false} FiveAgents(counters: map<nat, int>, i: nat)
    requires i < 5
    ensures var w := Five(counters);
            && Slowest(w.agents[i], w.sys.nodes[i].lvt) && (i < 3 ==> w.agents[i] == map[])
            && forall a | a in w.agents[i] :: !w.agents[i][a].waits
  {
    if i >= 3 {
      assert (i - 3) in Five(counters).agents[i];
    }
  }

  lemma {:induction false} FiveRest(counters: map<nat, int>)
    requires forall j | j in counters :: j < 5 && counters[j] == 0
    ensures Resting(Five(counters)) && Siblings(Five(counters), Cast(3, 1, 4), 0, 1)
  {
    FiveNodes(counters);
    forall i | 0 <= i < 5
      ensures var w := Five(counters);
              && Slowest(w.agents[i], w.sys.nodes[i].lvt) && (i < 3 ==> w.agents[i] == map[])
              && forall a | a in w.agents[i] :: !w.agents[i][a].waits
    {
      FiveAgents(counters, i);
    }
  }

  /** As the code starts, with no counters: the first round is not safe. */
  lemma {:induction false} StartIsUnsafe()
    ensures Resting(Five(map[])) && !NextRoundIsSafe(Five(map[]))
  {
    FiveRest(map[]);
    AbsentCounterHidesMessage(Five(map[]), Cast(3, 1, 4), 0, 1, 0);
  }

  lemma {:induction false} EverybodyHas(s: Sys, counters: map<nat, int>)
    requires forall i | 0 <= i < |s.nodes| :: s.nodes[i].state.counters == counters && i in counters
    ensures CountersSuffice(s)
  {
  }

  lemma {:induction false} FiveAtRest(counters: map<nat, int>)
    requires forall j | j in counters :: j < 5 && counters[j] == 0
    requires forall j | 0 <= j < 5 :: j in counters
    ensures AtRest(Five(counters).sys)
  {
    FiveNodes(counters);
    EverybodyHas(Five(counters).sys, counters);
  }

  /** The counters that suffice do suffice for the first round. */
  lemma {:induction false} FirstIsSafe(w: World)
    requires Resting(w) && CountersSuffice(w.sys)
    ensures NextRoundIsSafe(w)
  {
    RestIsInvariant(w.sys);
    FollowedIsSafe(w);
  }

  /** With all counters the first round is safe, and may lead to where the next one is not. */
  lemma {:induction false} SecondRoundIsUnsafe() returns (r: World)
    ensures ValidWorld(Five(ALL_RANKS)) && Resting(Five(ALL_RANKS)) && NextRoundIsSafe(Five(ALL_RANKS))
    ensures ValidWorld(r) && Reaches(Five(ALL_RANKS), r) && CanBegin(r.sys) && !NextRoundIsSafe(r)
  {
    FiveRest(ALL_RANKS);
    FiveAtRest(ALL_RANKS);
    FirstIsSafe(Five(ALL_RANKS));
    r := OldRedMessageIsMissed(Five(ALL_RANKS), Cast(3, 1, 4), 0, 1);
  }
}
