/** What the second cut of a GVT round is worth when it does wait. */
module GvtWait {
  import opened Base
  import opened Mattern
  import opened GvtRound

  // The second cut is there for the white messages that crossed the first one. Here its wait is
  // taken at its word; GvtSecondCut shows what the source waits for instead.

  /** Cut for the second time, when the token is on its second tour, else for the first. */
  predicate Done(t: TokenAt, size: nat, i: nat)
  {
    1 <= i < Tour(t, size)
  }

  predicate SecondRound(s: Sys)
  {
    s.token.Some? && s.token.value.token.cut.Second?
  }

  /** A red message in transit is from before the round, and not earlier than r, or it has lowered
      its sender's red time. */
  ghost predicate RedTimed(s: Sys, r: nat)
  {
    forall m | m in s.transit && m.colour.Red? ::
      m.ts >= r
      || (s.token.Some? && m.from < |s.nodes| && m.ts >= s.nodes[m.from].state.redTime
          && (SecondRound(s) || Done(s.token.value, |s.nodes|, m.from)))
  }

  /** On its second tour the token turns the processes white again, one by one, and what was counted
      for them is settled. */
  ghost predicate Whitening(s: Sys)
  {
    SecondRound(s) ==>
      && s.values == []
      && forall i {:trigger s.nodes[i]} | 0 <= i < |s.nodes| ::
           && (s.nodes[i].state.colour.White? <==> Done(s.token.value, |s.nodes|, i))
           && (Done(s.token.value, |s.nodes|, i) ==>
                 && s.token.value.token.redTime <= s.nodes[i].state.redTime
                 && i < |s.token.value.token.counts| && s.token.value.token.counts[i] == 0)
  }

  /** x is at most what the token has collected and what it has still to collect. */
  ghost predicate Bound(s: Sys, r: nat, x: nat)
    requires SecondRound(s)
  {
    && x <= r && x <= s.token.value.token.minTime && x <= s.token.value.token.redTime
    && forall i {:trigger s.nodes[i]} | 0 <= i < |s.nodes| && !Done(s.token.value, |s.nodes|, i) :: x <= s.nodes[i].state.redTime
  }

  /** Then nothing behind the cut is earlier than x. */
  ghost predicate Behind(s: Sys, r: nat, x: nat)
  {
    SecondRound(s) && Bound(s, r, x) ==>
      && (forall i {:trigger s.nodes[i]} | 0 <= i < |s.nodes| && Done(s.token.value, |s.nodes|, i) :: NodeFrom(s.nodes[i], x))
      && forall m | m in s.transit && m.colour.White? && Done(s.token.value, |s.nodes|, m.dest) :: m.ts >= x
  }

  ghost predicate Waited(s: Sys, r: nat, x: nat)
    requires Valid(s)
  {
    Phase(s) && RedTimed(s, r) && Whitening(s) && Behind(s, r, x)
  }

  /** The step announces nothing, and a process cut for the second time has no white message on its
      way to it. */
  ghost predicate Waits(s: Sys, a: Action)
    requires Valid(s) && Enabled(s, a)
  {
    a.HandleToken? ==> Cuts(s).1.PassOn? && (SecondRound(s) ==> NoneWhiteTo(s.transit, s.token.value.at))
  }

  ghost predicate NoneWhiteTo(transit: seq<Msg>, j: nat)
  {
    forall m | m in transit && m.dest == j :: m.colour.Red?
  }

  // ---- one step ----

  lemma {:induction false} ReceiveWaited(s: Sys, k: nat, lvt: nat, queue: seq<Out>, r: nat, x: nat)
    requires Valid(s) && Enabled(s, Receive(k, lvt, queue)) && Waited(s, r, x)
    ensures RedTimed(ApplyReceive(s, k, lvt, queue), r) && Whitening(ApplyReceive(s, k, lvt, queue))
    ensures Behind(ApplyReceive(s, k, lvt, queue), r, x)
  {
    var s', m := ApplyReceive(s, k, lvt, queue), s.transit[k];
    assert m in s.transit;
    if SecondRound(s) && Bound(s', r, x) {
      assert Bound(s, r, x) by { BoundBefore(s, s', r, x); }
      assert m.ts >= x || !Done(s.token.value, |s.nodes|, m.dest);
    }
  }

  lemma {:induction false} BoundBefore(s: Sys, s': Sys, r: nat, x: nat)
    requires SecondRound(s) && SecondRound(s') && |s'.nodes| == |s.nodes| && s'.token == s.token && Bound(s', r, x)
    requires forall i {:trigger s'.nodes[i]} | 0 <= i < |s.nodes| :: s'.nodes[i].state.redTime <= s.nodes[i].state.redTime
    ensures Bound(s, r, x)
  {
    forall i | 0 <= i < |s.nodes| && !Done(s.token.value, |s.nodes|, i)
      ensures x <= s.nodes[i].state.redTime
    {
      assert x <= s'.nodes[i].state.redTime;
    }
  }

  lemma {:induction false} SendWaited(s: Sys, i: nat, r: nat, x: nat)
    requires Valid(s) && Enabled(s, Send(i)) && Waited(s, r, x)
    requires s.nodes[i].state.colour.Red? ==> s.token.Some?
    ensures RedTimed(ApplySend(s, i), r) && Whitening(ApplySend(s, i)) && Behind(ApplySend(s, i), r, x)
  {
    var s', n := ApplySend(s, i), s.nodes[i];
    assert n in s.nodes && n.queue[0] in n.queue;
    if SecondRound(s) && Bound(s', r, x) {
      assert Bound(s, r, x) by { BoundBefore(s, s', r, x); }
    }
  }

  lemma {:induction false} FirstVisitWaited(s: Sys, outs: seq<Out>, r: nat, x: nat)
    requires Valid(s) && Enabled(s, HandleToken(outs)) && FirstRound(s) && Waited(s, r, x) && Cuts(s).1.PassOn?
    ensures RedTimed(ApplyToken(s, outs), r) && Whitening(ApplyToken(s, outs)) && Behind(ApplyToken(s, outs), r, x)
  {
    var s', at := ApplyToken(s, outs), s.token.value.at;
    assert ValidNode(s.net, s.nodes[at], at);
    assert s'.nodes == s.nodes[at := Reddened(s.nodes[at])];
  }

  lemma {:induction false} SecondVisitWaited(s: Sys, outs: seq<Out>, r: nat, x: nat)
    requires Valid(s) && Enabled(s, HandleToken(outs)) && SecondRound(s) && Waited(s, r, x) && Waits(s, HandleToken(outs))
    ensures RedTimed(ApplyToken(s, outs), r) && Whitening(ApplyToken(s, outs)) && Behind(ApplyToken(s, outs), r, x)
  {
    var s', at := ApplyToken(s, outs), s.token.value.at;
    assert ValidNode(s.net, s.nodes[at], at) && s.nodes[at].queue == [];
    assert s'.nodes == s.nodes[at := s'.nodes[at]] && s'.nodes[at].state.redTime == s.nodes[at].state.redTime;
    if Bound(s', r, x) {
      forall i | 0 <= i < |s.nodes| && !Done(s.token.value, |s.nodes|, i)
        ensures x <= s.nodes[i].state.redTime
      {
        assert i != at ==> s'.nodes[i] == s.nodes[i];
      }
      assert Bound(s, r, x);
    }
  }

  lemma {:induction false} StepWaited(s: Sys, a: Action, r: nat, x: nat)
    requires Valid(s) && Enabled(s, a) && Waited(s, r, x) && Waits(s, a) && s.token.Some?
    ensures Valid(Apply(s, a)) && Apply(s, a).token.Some? && Waited(Apply(s, a), r, x)
  {
    StepValid(s, a);
    StepPhase(s, a);
    var s' := Apply(s, a);
    match a
    case Receive(k, lvt, queue) => ReceiveWaited(s, k, lvt, queue, r, x);
    case Send(i) => SendWaited(s, i, r, x);
    case Progress(i, lvt, outs) =>
      if SecondRound(s) && Bound(s', r, x) {
        assert Bound(s, r, x) by { BoundBefore(s, s', r, x); }
      }
    case HandleToken(outs) =>
      if FirstRound(s) { FirstVisitWaited(s, outs, r, x); } else { SecondVisitWaited(s, outs, r, x); }
    case _ =>
  }

  // ---- the whole round ----

  ghost predicate WaitingRun(s: Sys, run: seq<Action>)
    requires Valid(s) && Possible(s, run)
    decreases |run|
  {
    run == [] || (Waits(s, run[0]) && (StepValid(s, run[0]); WaitingRun(Apply(s, run[0]), run[1..])))
  }

  lemma {:induction false} RunWaited(s: Sys, run: seq<Action>, r: nat, x: nat)
    requires Valid(s) && Possible(s, run) && WaitingRun(s, run) && Waited(s, r, x) && s.token.Some?
    ensures Waited(Run(s, run), r, x) && Run(s, run).token.Some?
    decreases |run|
  {
    if run != [] {
      StepWaited(s, run[0], r, x);
      RunWaited(Apply(s, run[0]), run[1..], r, x);
    }
  }

  /** The starter announces: everything is behind the cut now. */
  lemma {:induction false} AnnouncedIsSafe(s: Sys, outs: seq<Out>, r: nat)
    requires Valid(s) && Enabled(s, HandleToken(outs)) && SecondRound(s) && Cuts(s).1.Announce?
    requires Waited(s, r, Min(r, Cuts(s).1.gvt)) && NoneWhiteTo(s.transit, s.token.value.at)
    ensures Safe(ApplyToken(s, outs), Min(r, Cuts(s).1.gvt))
    ensures Valid(ApplyToken(s, outs)) && Begins(ApplyToken(s, outs).nodes[0].state)
    ensures forall n | n in ApplyToken(s, outs).nodes :: n.state.colour.White?
  {
    StepValid(s, HandleToken(outs));
    var s', at, x := ApplyToken(s, outs), s.token.value.at, Min(r, Cuts(s).1.gvt);
    assert ValidNode(s.net, s.nodes[at], at) && at == 0 && s.nodes[at].queue == [];
    assert Bound(s, r, x);
    forall n | n in s'.nodes
      ensures NodeFrom(n, x) && n.state.colour.White?
    {
      var i :| 0 <= i < |s'.nodes| && s'.nodes[i] == n;
      assert i != 0 ==> s'.nodes[i] == s.nodes[i] && Done(s.token.value, |s.nodes|, i);
    }
    forall m | m in s.transit
      ensures m.ts >= x
    {
      if m.colour.White? { assert m.dest != 0 && Done(s.token.value, |s.nodes|, m.dest); }
    }
  }

  /** The second cut, over whole rounds. From the start of a round, whatever happens: if no process
      is cut for the second time while a white message is on its way to it, the time the second cut
      announces is no later than anything in the system, up to red messages from before the round;
      and everybody is white again and the starter accepts requests. */
  lemma {:induction false} SecondCutIsSafe(s: Sys, run: seq<Action>, outs: seq<Out>, r: nat)
    requires Valid(s) && Phase(s) && FirstRound(s) && Possible(s, run) && WaitingRun(s, run)
    requires Tour(s.token.value, |s.nodes|) == 1 && forall m | m in s.transit && m.colour.Red? :: m.ts >= r
    requires var e := Run(s, run);
             && Enabled(e, HandleToken(outs)) && SecondRound(e) && Cuts(e).1.Announce?
             && NoneWhiteTo(e.transit, e.token.value.at)
    ensures var e := Run(s, run);
            && Safe(ApplyToken(e, outs), Min(r, Cuts(e).1.gvt)) && Valid(ApplyToken(e, outs))
            && Begins(ApplyToken(e, outs).nodes[0].state)
            && forall n | n in ApplyToken(e, outs).nodes :: n.state.colour.White?
  {
    var e := Run(s, run);
    RunWaited(s, run, r, Min(r, Cuts(e).1.gvt));
    AnnouncedIsSafe(e, outs, r);
  }
}
