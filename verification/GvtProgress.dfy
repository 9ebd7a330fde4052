/** GVT catches up: what a round announces is no earlier than need be. */
module GvtProgress {
  import opened Base
  import opened Mattern
  import opened GvtRound

  // Safety alone would be met by a GVT that stays 0. Here nothing is asked of counters, of the
  // order of messages, or of which cut settles a round.

  /** The process has been cut in this round, so its red time has been reset. */
  predicate Visited(t: TokenAt, size: nat, i: nat)
  {
    t.token.cut.Second? || 1 <= i < Tour(t, size)
  }

  /** All the system's times, those that the round has collected or will collect included, are at
      least t. */
  ghost predicate Ahead(s: Sys, t: nat)
  {
    && Safe(s, t) && (forall v | v in s.values :: v.gvt >= t)
    && (s.token.Some? ==>
          && s.token.value.token.minTime >= t && s.token.value.token.redTime >= t
          && forall i {:trigger s.nodes[i]} | 0 <= i < |s.nodes| && Visited(s.token.value, |s.nodes|, i) ::
               s.nodes[i].state.redTime >= t)
  }

  lemma {:induction false} TokenAhead(s: Sys, outs: seq<Out>, t: nat)
    requires Valid(s) && Enabled(s, HandleToken(outs)) && Ahead(s, t) && t <= LONG_MAX
    ensures Cuts(s).1.Announce? ==> Cuts(s).1.gvt >= t
    ensures Ahead(ApplyToken(s, outs), t)
  {
    var at, s' := s.token.value.at, ApplyToken(s, outs);
    assert ValidNode(s.net, s.nodes[at], at) && s.nodes[at] in s.nodes;
    StepSafe(s, HandleToken(outs), t);
    if s'.token.Some? {
      forall i | 0 <= i < |s.nodes| && Visited(s'.token.value, |s.nodes|, i)
        ensures s'.nodes[i].state.redTime >= t
      {
        assert i != at ==> s'.nodes[i] == s.nodes[i];
      }
    }
  }

  lemma {:induction false} StepAhead(s: Sys, a: Action, t: nat)
    requires Valid(s) && Enabled(s, a) && Ahead(s, t) && t <= LONG_MAX
    ensures a.HandleToken? && Cuts(s).1.Announce? ==> Cuts(s).1.gvt >= t
    ensures Ahead(Apply(s, a), t)
  {
    match a
    case HandleToken(outs) => TokenAhead(s, outs, t);
    case TakeValue(k, outs) =>
      assert s.values[k] in s.values;
      StepSafe(s, a, t);
    case Send(i) =>
      assert s.nodes[i] in s.nodes && s.nodes[i].queue[0] in s.nodes[i].queue;
      StepSafe(s, a, t);
    case _ => StepSafe(s, a, t);
  }

  /** Whatever the run announces is at least t. */
  ghost predicate AnnouncesFrom(s: Sys, run: seq<Action>, t: nat)
    requires Valid(s) && Possible(s, run)
    decreases |run|
  {
    run == [] ||
    (&& (run[0].HandleToken? && Cuts(s).1.Announce? ==> Cuts(s).1.gvt >= t)
     && (StepValid(s, run[0]); AnnouncesFrom(Apply(s, run[0]), run[1..], t)))
  }

  lemma {:induction false} RunStaysAhead(s: Sys, run: seq<Action>, t: nat)
    requires Valid(s) && Possible(s, run) && Ahead(s, t) && t <= LONG_MAX
    ensures AnnouncesFrom(s, run, t) && Ahead(Run(s, run), t)
    decreases |run|
  {
    if run != [] {
      StepValid(s, run[0]);
      StepAhead(s, run[0], t);
      RunStaysAhead(Apply(s, run[0]), run[1..], t);
    }
  }

  /** If no local time, no queued message and no message in transit is earlier than t when no token
      and no value message is about, then every GVT announced from then on, by either cut, is at
      least t, and so is every GVT a process takes over. */
  lemma {:induction false} GvtCatchesUp(s: Sys, run: seq<Action>, t: nat)
    requires Valid(s) && Possible(s, run) && s.token.None? && s.values == [] && Safe(s, t) && t <= LONG_MAX
    ensures AnnouncesFrom(s, run, t)
    ensures Safe(Run(s, run), t) && forall v | v in Run(s, run).values :: v.gvt >= t
  {
    RunStaysAhead(s, run, t);
  }
}
