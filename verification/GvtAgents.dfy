/** The GVT round as the code runs it: agents that wait, CLPs that only react. */
module GvtAgents {
  import opened Base
  import opened Mattern
  import opened Tree
  import opened GvtRound

  // The moves of agents (src/interface/Agent.cpp), of the processes that run them
  // (src/lp/Alp.cpp) and of CLPs (src/lp/Clp.cpp), as far as GVT can see them.

  datatype Agent = Agent(lvt: nat, waits: bool)

  /** agents has the agents of each process; a CLP has none. ahead is how many simulation
      messages are in front of the token in its channel. */
  datatype World = World(sys: Sys, agents: seq<map<nat, Agent>>, ahead: nat)

  function With(agents: map<nat, Agent>, a: nat, now: Agent): map<nat, Agent>
  {
    agents[a := now]
  }

  /** The local time of a process is that of its slowest agent; without any it is ULONG_MAX. */
  ghost predicate Slowest(agents: map<nat, Agent>, lvt: nat)
  {
    if agents == map[] then lvt == ULONG_MAX
    else (forall a | a in agents :: lvt <= agents[a].lvt) && exists a :: a in agents && agents[a].lvt == lvt
  }

  ghost predicate ValidWorld(w: World)
  {
    && Valid(w.sys) && |w.agents| == |w.sys.nodes|
    && forall i {:trigger w.agents[i]} | 0 <= i < |w.agents| ::
         Slowest(w.agents[i], w.sys.nodes[i].lvt) && (i < w.sys.net.n ==> w.agents[i] == map[])
  }

  /** Requests and what takes them back go from CLP to CLP; answers and rollbacks go straight to
      the agent's process. */
  predicate OnItsWay(l: Layout, i: nat, q: Out)
  {
    match q.what
    case Asks(_) => q.dest < l.n
    case Anti(_) => q.dest < l.n
    case Answers(a) => i < l.n <= a.rank < l.Size() && q.dest == FirstHop(l, i, a.rank)
    case Rollback(a) => i < l.n <= a.rank < l.Size() && q.dest == FirstHop(l, i, a.rank)
  }

  /** What a CLP may send because of a message: a request goes on or is answered, and may roll
      other agents back; so may what takes one back; the rest is passed on. */
  predicate Because(l: Layout, m: Msg, q: Out)
  {
    && OnItsWay(l, m.dest, q) && q.ts >= m.ts
    && match m.what
       case Asks(a) =>
         || (q.ts == m.ts && (q.what == Asks(a) || q.what == Answers(a)))
         || (q.what.Rollback? && q.what.agent != a)
       case Anti(a) => (q.ts == m.ts && q.what == Anti(a)) || q.what.Rollback?
       case _ => q.ts == m.ts && q.what == m.what
  }

  datatype Move =
    | Transmit(i: nat)
    | TimeWrap(i: nat, a: nat, t: nat, lvt: nat)
    | Issue(i: nat, a: nat, t: nat)
    | Serve(k: nat, outs: seq<Out>)
    | Answered(k: nat)
    | Ignore(k: nat)
    | GoBack(k: nat, lvt: nat, queue: seq<Out>)
    | Start
    | Visit(outs: seq<Out>)
    | Take(k: nat, outs: seq<Out>)

  ghost predicate AgentOf(w: World, i: nat, a: nat)
    requires ValidWorld(w)
  {
    i < |w.agents| && a in w.agents[i]
  }

  function InChannel(transit: seq<Msg>, from: nat, dest: nat): nat
  {
    if transit == [] then 0
    else InChannel(transit[1..], from, dest) + if transit[0].from == from && transit[0].dest == dest then 1 else 0
  }

  /** The process before i on the ring. */
  function Before(s: Sys, i: nat): nat
    requires |s.nodes| > 0
  {
    if i == 0 then |s.nodes| - 1 else i - 1
  }

  /** The token is on its way in the channel of m. */
  predicate WithToken(s: Sys, m: Msg)
    requires |s.nodes| > 0
  {
    s.token.Some? && m.dest == s.token.value.at && m.from == Before(s, m.dest)
  }

  /** Message k is the next thing in its channel. */
  ghost predicate Arrives(w: World, k: nat)
    requires ValidWorld(w)
  {
    && k < |w.sys.transit| && IsFirst(w.sys.transit, k)
    && (WithToken(w.sys, w.sys.transit[k]) ==> w.ahead > 0)
  }

  /** Rollbacks asked for by giving variables away. */
  predicate Migrates(l: Layout, i: nat, outs: seq<Out>)
  {
    forall q | q in outs :: i < l.n && q.what.Rollback? && OnItsWay(l, i, q)
  }

  /** An agent that waits for an answer does nothing else; one that does not may let time pass, be
      it past the request it has been answered, or ask at a time not before its own. A rollback takes a covered request off the queue, or
      queues its anti-message. A response nobody waits for and a rollback that is known or not
      far enough change nothing. */
  ghost predicate CanMove(w: World, mv: Move)
    requires ValidWorld(w)
  {
    var s := w.sys;
    match mv
    case Transmit(i) => Enabled(s, Send(i))
    case TimeWrap(i, a, t, lvt) =>
      && AgentOf(w, i, a) && !w.agents[i][a].waits && t >= w.agents[i][a].lvt
      && Slowest(With(w.agents[i], a, Agent(t, false)), lvt)
    case Issue(i, a, t) => AgentOf(w, i, a) && !w.agents[i][a].waits && t >= w.agents[i][a].lvt
    case Serve(k, outs) =>
      && Arrives(w, k) && s.transit[k].dest < s.net.n && ValidQueue(s.net, outs, s.transit[k].dest)
      && (forall q | q in outs :: Because(s.net, s.transit[k], q))
      && (s.transit[k].what.Answers? || s.transit[k].what.Rollback? ==> |outs| == 1)
    case Answered(k) =>
      && Arrives(w, k) && s.transit[k].what.Answers? && s.transit[k].what.agent.rank == s.transit[k].dest
      && AgentOf(w, s.transit[k].dest, s.transit[k].what.agent.id)
      && w.agents[s.transit[k].dest][s.transit[k].what.agent.id].waits
    case Ignore(k) => Arrives(w, k) && s.transit[k].dest >= s.net.n
    case GoBack(k, lvt, queue) =>
      && Arrives(w, k) && s.transit[k].what.Rollback? && s.transit[k].what.agent.rank == s.transit[k].dest
      && TakesBack(w, s.transit[k], lvt, queue)
    case Start => Enabled(s, Begin)
    case Visit(outs) => w.ahead == 0 && Enabled(s, HandleToken(outs)) && Migrates(s.net, s.token.value.at, outs)
    case Take(k, outs) => Enabled(s, TakeValue(k, outs)) && Migrates(s.net, s.values[k].dest, outs)
  }

  ghost predicate TakesBack(w: World, m: Msg, lvt: nat, queue: seq<Out>)
    requires ValidWorld(w) && m in w.sys.transit
  {
    var i, a := m.dest, m.what.agent.id;
    && AgentOf(w, i, a) && m.ts < w.agents[i][a].lvt && Slowest(With(w.agents[i], a, Agent(m.ts, false)), lvt)
    && (forall q | q in queue ::
          || q in w.sys.nodes[i].queue
          || (q.what == Anti(m.what.agent) && q.ts >= m.ts && Linked(w.sys.net, i, q.dest) && q.dest < w.sys.net.n))
    && (forall q | q in w.sys.nodes[i].queue && q !in queue :: q.what == Asks(m.what.agent) && q.ts >= m.ts)
  }

  /** Where a process puts its requests. */
  function Asking(w: World, i: nat, a: nat, t: nat): Out
    requires w.sys.net.n <= i < w.sys.net.Size()
  {
    Out(w.sys.net.ClpOf(i), t, Asks(LpId(a, i)))
  }

  /** The step of the round that a move is. */
  function Step(w: World, mv: Move): Action
    requires ValidWorld(w) && CanMove(w, mv)
  {
    var s := w.sys;
    match mv
    case Transmit(i) => Send(i)
    case TimeWrap(i, a, t, lvt) => Progress(i, lvt, [])
    case Issue(i, a, t) => Progress(i, s.nodes[i].lvt, [Asking(w, i, a, t)])
    case Serve(k, outs) =>
      var n := s.nodes[s.transit[k].dest];
      Receive(k, n.lvt, n.queue + outs)
    case Answered(k) => Same(s, k)
    case Ignore(k) => Same(s, k)
    case GoBack(k, lvt, queue) => Receive(k, lvt, queue)
    case Start => Begin
    case Visit(outs) => HandleToken(outs)
    case Take(k, outs) => TakeValue(k, outs)
  }

  function Same(s: Sys, k: nat): Action
    requires Valid(s) && k < |s.transit|
  {
    assert s.transit[k] in s.transit;
    var n := s.nodes[s.transit[k].dest];
    Receive(k, n.lvt, n.queue)
  }

  function AgentsAfter(w: World, mv: Move): seq<map<nat, Agent>>
    requires ValidWorld(w) && CanMove(w, mv)
  {
    match mv
    case TimeWrap(i, a, t, _) => w.agents[i := With(w.agents[i], a, Agent(t, false))]
    case Issue(i, a, t) => w.agents[i := With(w.agents[i], a, Agent(w.agents[i][a].lvt, true))]
    case Answered(k) =>
      var m := w.sys.transit[k];
      var was := w.agents[m.dest][m.what.agent.id];
      w.agents[m.dest := With(w.agents[m.dest], m.what.agent.id, was.(waits := false))]
    case GoBack(k, _, _) =>
      var m := w.sys.transit[k];
      assert m in w.sys.transit;
      w.agents[m.dest := With(w.agents[m.dest], m.what.agent.id, Agent(m.ts, false))]
    case _ => w.agents
  }

  function AheadAfter(w: World, mv: Move, s': Sys): nat
    requires ValidWorld(w) && CanMove(w, mv) && |s'.nodes| > 0
  {
    match mv
    case Start => if Begins(w.sys.nodes[0].state) then InTheWay(s') else w.ahead
    case Visit(_) => InTheWay(s')
    case Serve(k, _) => LessOne(w, k)
    case Answered(k) => LessOne(w, k)
    case Ignore(k) => LessOne(w, k)
    case GoBack(k, _, _) => LessOne(w, k)
    case _ => w.ahead
  }

  function InTheWay(s: Sys): nat
    requires |s.nodes| > 0
  {
    if s.token.None? then 0 else InChannel(s.transit, Before(s, s.token.value.at), s.token.value.at)
  }

  function LessOne(w: World, k: nat): nat
    requires ValidWorld(w) && Arrives(w, k)
  {
    if WithToken(w.sys, w.sys.transit[k]) then w.ahead - 1 else w.ahead
  }

  /** Every move is a step of the round: what GvtRound and GvtSafety prove of all runs holds of
      the runs of agents. */
  lemma {:induction false} MoveIsAStep(w: World, mv: Move)
    requires ValidWorld(w) && CanMove(w, mv)
    ensures Enabled(w.sys, Step(w, mv))
  {
    var s := w.sys;
    match mv
    case TimeWrap(i, a, t, lvt) => assert w.agents[i] != map[];
    case Issue(i, a, t) => assert w.agents[i] != map[];
    case Serve(k, outs) => assert s.transit[k] in s.transit;
    case Answered(k) => assert s.transit[k] in s.transit;
    case Ignore(k) => assert s.transit[k] in s.transit;
    case GoBack(k, lvt, queue) => assert s.transit[k] in s.transit && w.agents[s.transit[k].dest] != map[];
    case _ =>
  }

  function After(w: World, mv: Move): World
    requires ValidWorld(w) && CanMove(w, mv)
  {
    MoveIsAStep(w, mv);
    StepValid(w.sys, Step(w, mv));
    var s' := Apply(w.sys, Step(w, mv));
    World(s', AgentsAfter(w, mv), AheadAfter(w, mv, s'))
  }

  lemma {:induction false} SameSlowest(agents: map<nat, Agent>, a: nat, now: Agent, lvt: nat)
    requires Slowest(agents, lvt) && a in agents && now.lvt == agents[a].lvt
    ensures Slowest(With(agents, a, now), lvt)
  {
    var b :| b in agents && agents[b].lvt == lvt;
    assert With(agents, a, now)[b].lvt == lvt;
  }

  /** A move that receives or lets time pass sets one local time, the others none. */
  lemma {:induction false} MoveSetsTime(w: World, mv: Move, i: nat)
    requires ValidWorld(w) && CanMove(w, mv) && i < |w.agents|
    ensures Valid(After(w, mv).sys) && |After(w, mv).agents| == |w.agents|
    ensures var s' := After(w, mv).sys;
            match mv
            case TimeWrap(x, _, _, lvt) => s'.nodes[i].lvt == if i == x then lvt else w.sys.nodes[i].lvt
            case GoBack(k, lvt, _) => s'.nodes[i].lvt == if i == w.sys.transit[k].dest then lvt else w.sys.nodes[i].lvt
            case _ => s'.nodes[i].lvt == w.sys.nodes[i].lvt
  {
    MoveIsAStep(w, mv);
    StepValid(w.sys, Step(w, mv));
  }

  lemma {:induction false} MoveValid(w: World, mv: Move)
    requires ValidWorld(w) && CanMove(w, mv)
    ensures ValidWorld(After(w, mv)) && |After(w, mv).agents| == |w.agents| && After(w, mv).sys.net == w.sys.net
  {
    MoveIsAStep(w, mv);
    StepValid(w.sys, Step(w, mv));
    var w' := After(w, mv);
    forall i | 0 <= i < |w.agents|
      ensures Slowest(w'.agents[i], w'.sys.nodes[i].lvt) && (i < w.sys.net.n ==> w'.agents[i] == map[])
    {
      MoveSetsTime(w, mv, i);
      assert Slowest(w.agents[i], w.sys.nodes[i].lvt);
      match mv
      case Issue(x, a, t) =>
        if i == x { SameSlowest(w.agents[i], a, Agent(w.agents[i][a].lvt, true), w.sys.nodes[i].lvt); }
      case Answered(k) =>
        var m := w.sys.transit[k];
        if i == m.dest {
          SameSlowest(w.agents[i], m.what.agent.id, w.agents[i][m.what.agent.id].(waits := false), w.sys.nodes[i].lvt);
        }
      case _ =>
    }
  }

  // ---- moves that can be made ----

  lemma {:induction false} SomeSlowest(agents: map<nat, Agent>) returns (lvt: nat)
    ensures Slowest(agents, lvt)
    decreases |agents|
  {
    if agents == map[] {
      lvt := ULONG_MAX;
    } else {
      var a :| a in agents;
      var rest := agents - {a};
      assert rest.Keys == agents.Keys - {a} && forall b | b in rest :: rest[b] == agents[b];
      lvt := SomeSlowest(rest);
      if rest == map[] || agents[a].lvt < lvt {
        lvt := agents[a].lvt;
        assert a in agents && agents[a].lvt == lvt;
      } else {
        var b :| b in rest && rest[b].lvt == lvt;
        assert b in agents && agents[b].lvt == lvt;
      }
    }
  }

  lemma {:induction false} CanWrap(w: World, i: nat, a: nat, t: nat) returns (lvt: nat)
    requires ValidWorld(w) && AgentOf(w, i, a) && !w.agents[i][a].waits && t >= w.agents[i][a].lvt
    ensures CanMove(w, TimeWrap(i, a, t, lvt))
    ensures After(w, TimeWrap(i, a, t, lvt)).agents == w.agents[i := With(w.agents[i], a, Agent(t, false))]
  {
    lvt := SomeSlowest(With(w.agents[i], a, Agent(t, false)));
  }
}
