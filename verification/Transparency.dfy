/** Rollback is transparent end to end. */
module Transparency {
  import opened Base
  import opened Alp
  import opened Ledger
  import opened Periods
  import opened LiveWrites
  import opened History
  import opened Canonical

  // A variable that receives the output of any number of ALPs, each in its order, ends up as if
  // only the writes nobody took back had been made.

  /** A message with the ALP it comes from. */
  datatype Arrival = Arrival(alp: nat, m: Message)

  /** What has arrived from one ALP. */
  function Received(ms: seq<Arrival>, alp: nat): seq<Message>
  {
    if ms == [] then []
    else
      var last := ms[|ms| - 1];
      Received(ms[..|ms| - 1], alp) + if last.alp == alp then [last.m] else []
  }

  /** A FIFO-respecting merge: from every ALP a prefix of its output has arrived. */
  ghost predicate IsMerge(ms: seq<Arrival>, outputs: map<nat, seq<Message>>)
  {
    forall x | x in ms :: x.alp in outputs && Received(ms, x.alp) <= outputs[x.alp]
  }

  /** What the ledger promises of every ALP's output. */
  ghost predicate Promised(output: seq<Message>)
  {
    InOrder(output) && forall x: nat :: AtMostOnce(output, x)
  }

  ghost predicate AtMostOnce(output: seq<Message>, x: nat)
  {
    Requests(output, x) <= 1 && AntisFor(output, x) <= 1
  }

  /** Every ALP keeps that promise, whatever it does. */
  lemma {:induction false} OutputIsPromised(lvt: map<nat, nat>, run: seq<Act>)
    requires Possible(Fresh(lvt), run)
    ensures Promised(Ledger.Run(Fresh(lvt), run).alp.output)
  {
    forall x: nat
      ensures AtMostOnce(Ledger.Run(Fresh(lvt), run).alp.output, x)
    {
      LedgerHolds(lvt, run, x);
    }
    LedgerHolds(lvt, run, 0);
  }

  /** The operations of the arrivals on variable v. */
  function OpsOn(ms: seq<Arrival>, v: nat): seq<Op>
  {
    if ms == [] then [] else OpsOn(ms[..|ms| - 1], v) + OpOf(ms[|ms| - 1].m, v)
  }

  function OpOf(m: Message, v: nat): seq<Op>
  {
    match m
    case ReadRequest(_, agent, ts, ssv) => if ssv == v then [OpRead(agent, ts)] else []
    case AntiRead(_, agent, ts, ssv, _) => if ssv == v then [OpUndoRead(agent, ts)] else []
    case WriteRequest(_, agent, ts, ssv, value) => if ssv == v then [OpWrite(agent, value, ts)] else []
    case AntiWrite(_, agent, ts, ssv, _) => if ssv == v then [OpUndoWrite(agent, ts)] else []
    case _ => []
  }

  ghost predicate Answered(ms: seq<Arrival>, y: Arrival)
  {
    exists x | x in ms :: x.alp == y.alp && TakesBack(x.m, y.m)
  }

  /** A write on v that no arrived anti-message takes back. */
  ghost predicate Survives(ms: seq<Arrival>, v: nat, y: Arrival)
  {
    y in ms && y.m.WriteRequest? && y.m.ssv == v && !Answered(ms, y)
  }

  ghost function Survivors(all: seq<Arrival>, ms: seq<Arrival>, v: nat): seq<Arrival>
  {
    if ms == [] then []
    else
      var last := ms[|ms| - 1];
      Survivors(all, ms[..|ms| - 1], v) + if Survives(all, v, last) then [last] else []
  }

  // ---- what a merge inherits from the outputs ----

  /** Each arrival against those before it: requests are new, anti-messages are new and
      follow their request. */
  ghost predicate Follows(before: seq<Arrival>, x: Arrival)
  {
    && (IsRequest(x.m) ==>
          forall y | y in before && y.alp == x.alp :: y.m.id != x.m.id)
    && (!IsRequest(x.m) ==>
          && (forall y | y in before && y.alp == x.alp && !IsRequest(y.m) :: y.m.id != x.m.id)
          && exists y | y in before :: y.alp == x.alp && TakesBack(x.m, y.m))
  }

  ghost predicate Orderly(ms: seq<Arrival>)
  {
    ms == [] || (Orderly(ms[..|ms| - 1]) && Follows(ms[..|ms| - 1], ms[|ms| - 1]))
  }

  lemma {:induction false} ReceivedMember(ms: seq<Arrival>, alp: nat, m: Message)
    ensures m in Received(ms, alp) <==> Arrival(alp, m) in ms
  {
    if ms != [] {
      ReceivedMember(ms[..|ms| - 1], alp, m);
      assert ms == ms[..|ms| - 1] + [ms[|ms| - 1]];
    }
  }

  lemma {:induction false} CountPrefix(a: seq<Message>, b: seq<Message>, x: nat)
    requires a <= b
    ensures Requests(a, x) <= Requests(b, x) && AntisFor(a, x) <= AntisFor(b, x)
  {
    assert b == a + b[|a|..];
    CountAppend(a, b[|a|..], x);
  }

  lemma {:induction false} LastFollows(ms: seq<Arrival>, output: seq<Message>)
    requires ms != [] && Promised(output) && Received(ms, ms[|ms| - 1].alp) <= output
    ensures Follows(ms[..|ms| - 1], ms[|ms| - 1])
  {
    var before, x := ms[..|ms| - 1], ms[|ms| - 1];
    var seen := Received(before, x.alp);
    assert Received(ms, x.alp) == seen + [x.m];
    CountPrefix(seen + [x.m], output, x.m.id);
    CountAppend(seen, [x.m], x.m.id);
    CountOne(x.m, x.m.id);
    assert AtMostOnce(output, x.m.id);
    CountMember(seen, x.m.id);
    AntiMember(seen, x.m.id);
    assert output[|seen|] == x.m && SentBefore(output, |seen|);
    if !IsRequest(x.m) {
      var i :| 0 <= i < |seen| && TakesBack(x.m, output[i]);
      assert seen[i] == output[i] && seen[i] in seen;
      ReceivedMember(before, x.alp, seen[i]);
      assert TakesBack(x.m, Arrival(x.alp, seen[i]).m);
    }
    forall y | y in before && y.alp == x.alp
      ensures IsRequest(x.m) ==> y.m.id != x.m.id
      ensures !IsRequest(x.m) && !IsRequest(y.m) ==> y.m.id != x.m.id
    {
      ReceivedMember(before, x.alp, y.m);
      if IsRequest(x.m) && !IsRequest(y.m) && y.m.id == x.m.id {
        AntiHasRequest(seen, output, y.m);
      }
    }
  }

  /** Whatever has been taken back has been requested before. */
  lemma {:induction false} AntiHasRequest(seen: seq<Message>, output: seq<Message>, a: Message)
    requires seen <= output && InOrder(output) && a in seen && !IsRequest(a)
    ensures Requests(seen, a.id) > 0
  {
    var j :| 0 <= j < |seen| && seen[j] == a;
    assert SentBefore(output, j) && output[j] == a;
    var i :| 0 <= i < j && TakesBack(a, output[i]);
    assert seen[i] == output[i] && seen[i] in seen && seen[i].id == a.id;
    CountMember(seen, a.id);
  }

  lemma {:induction false} MergeIsOrderly(ms: seq<Arrival>, outputs: map<nat, seq<Message>>)
    requires IsMerge(ms, outputs) && forall a | a in outputs :: Promised(outputs[a])
    ensures Orderly(ms)
  {
    if ms != [] {
      var before, x := ms[..|ms| - 1], ms[|ms| - 1];
      assert x in ms;
      LastFollows(ms, outputs[x.alp]);
      forall y | y in before
        ensures y.alp in outputs && Received(before, y.alp) <= outputs[y.alp]
      {
        assert y in ms;
        assert Received(before, y.alp) <= Received(ms, y.alp);
      }
      MergeIsOrderly(before, outputs);
    }
  }

  // ---- the live writes of the arrivals ----

  lemma {:induction false} LiveRunAppend(m: map<nat, Live>, ops: seq<Op>, more: seq<Op>)
    ensures LiveRun(m, ops + more) == LiveRun(LiveRun(m, ops), more)
    decreases |ops|
  {
    if ops == [] {
      assert ops + more == more;
    } else {
      assert (ops + more)[1..] == ops[1..] + more;
      LiveRunAppend(LiveStep(m, ops[0]), ops[1..], more);
    }
  }

  lemma {:induction false} CleanAppend(m: map<nat, Live>, base: nat, ops: seq<Op>, more: seq<Op>)
    ensures Clean(m, base, ops + more) <==> Clean(m, base, ops) && Clean(LiveRun(m, ops), base, more)
    decreases |ops|
  {
    if ops == [] {
      assert ops + more == more;
    } else {
      assert (ops + more)[1..] == ops[1..] + more;
      CleanAppend(LiveStep(m, ops[0]), base, ops[1..], more);
    }
  }

  ghost predicate IsLiveWrite(m: map<nat, Live>, y: Arrival)
  {
    y.m.WriteRequest? && y.m.ts in m && m[y.m.ts] == Live(y.m.agent, y.m.value)
  }

  /** m is m0 with the surviving writes added, each at a time of its own. */
  ghost predicate LiveIs(m: map<nat, Live>, m0: map<nat, Live>, ms: seq<Arrival>, v: nat)
  {
    && (forall t | t in m0 :: t in m && m[t] == m0[t])
    && (forall y | Survives(ms, v, y) :: IsLiveWrite(m, y) && y.m.ts !in m0)
    && (forall t | t in m && t !in m0 :: SurvivesAt(ms, v, t))
    && (forall y, z | Survives(ms, v, y) && Survives(ms, v, z) && y.m.ts == z.m.ts :: y == z)
  }

  ghost predicate SurvivesAt(ms: seq<Arrival>, v: nat, t: nat)
  {
    exists y :: Survives(ms, v, y) && y.m.ts == t
  }

  /** How one more arrival changes what survives. */
  lemma {:induction false} SurvivorsChange(ms: seq<Arrival>, v: nat, y: Arrival)
    requires ms != [] && Orderly(ms)
    ensures var before, x := ms[..|ms| - 1], ms[|ms| - 1];
            Survives(ms, v, y) <==>
              (Survives(before, v, y) && !(x.alp == y.alp && TakesBack(x.m, y.m)))
              || (y == x && x.m.WriteRequest? && x.m.ssv == v)
  {
    var before, x := ms[..|ms| - 1], ms[|ms| - 1];
    assert ms == before + [x];
    if y == x && IsRequest(x.m) {
      assert !Answered(ms, x);
    }
    if Answered(before, y) {
      var a :| a in before && a.alp == y.alp && TakesBack(a.m, y.m);
      assert a in ms;
    }
  }

  lemma {:induction false} WriteArrives(m: map<nat, Live>, m0: map<nat, Live>, ms: seq<Arrival>, v: nat)
    requires ms != [] && Orderly(ms) && LiveIs(m, m0, ms[..|ms| - 1], v)
    requires var x := ms[|ms| - 1].m; x.WriteRequest? && x.ssv == v && x.ts !in m
    ensures var x := ms[|ms| - 1].m; LiveIs(m[x.ts := Live(x.agent, x.value)], m0, ms, v)
  {
    var before, x := ms[..|ms| - 1], ms[|ms| - 1];
    var m' := m[x.m.ts := Live(x.m.agent, x.m.value)];
    forall y
      ensures Survives(ms, v, y) <==> Survives(before, v, y) || y == x
    {
      SurvivorsChange(ms, v, y);
    }
    forall t | t in m' && t !in m0
      ensures SurvivesAt(ms, v, t)
    {
      if t == x.m.ts {
        assert Survives(ms, v, x);
      } else {
        assert SurvivesAt(before, v, t);
      }
    }
  }

  lemma {:induction false} AntiArrives(m: map<nat, Live>, m0: map<nat, Live>, ms: seq<Arrival>, v: nat)
    requires ms != [] && Orderly(ms) && LiveIs(m, m0, ms[..|ms| - 1], v)
    requires var x := ms[|ms| - 1].m; x.AntiWrite? && x.ssv == v
    ensures var x := ms[|ms| - 1].m; Takes(m, x.agent, x.ts) && LiveIs(m - {x.ts}, m0, ms, v)
  {
    var before, x := ms[..|ms| - 1], ms[|ms| - 1];
    var r :| r in before && r.alp == x.alp && TakesBack(x.m, r.m);
    assert Survives(before, v, r);
    assert IsLiveWrite(m, r);
    forall y
      ensures Survives(ms, v, y) <==> Survives(before, v, y) && y != r
    {
      SurvivorsChange(ms, v, y);
      if Survives(before, v, y) && x.alp == y.alp && TakesBack(x.m, y.m) {
        assert y.m.ts == r.m.ts;
      }
    }
    forall t | t in m - {x.m.ts} && t !in m0
      ensures SurvivesAt(ms, v, t)
    {
      assert SurvivesAt(before, v, t);
    }
  }

  lemma {:induction false} OtherArrives(m: map<nat, Live>, m0: map<nat, Live>, ms: seq<Arrival>, v: nat)
    requires ms != [] && Orderly(ms) && LiveIs(m, m0, ms[..|ms| - 1], v)
    requires var x := ms[|ms| - 1].m; !((x.WriteRequest? || x.AntiWrite?) && x.ssv == v)
    ensures LiveIs(m, m0, ms, v)
  {
    forall y
      ensures Survives(ms, v, y) <==> Survives(ms[..|ms| - 1], v, y)
    {
      SurvivorsChange(ms, v, y);
    }
    forall t | SurvivesAt(ms[..|ms| - 1], v, t)
      ensures SurvivesAt(ms, v, t)
    {
    }
  }

  lemma {:induction false} ArrivalsAreLive(m0: map<nat, Live>, base: nat, ms: seq<Arrival>, v: nat)
    requires Orderly(ms) && Clean(m0, base, OpsOn(ms, v))
    ensures LiveIs(LiveRun(m0, OpsOn(ms, v)), m0, ms, v)
  {
    if ms != [] {
      var before, x := ms[..|ms| - 1], ms[|ms| - 1];
      var ops, op := OpsOn(before, v), OpOf(x.m, v);
      CleanAppend(m0, base, ops, op);
      LiveRunAppend(m0, ops, op);
      ArrivalsAreLive(m0, base, before, v);
      var m := LiveRun(m0, ops);
      assert op != [] ==> op[1..] == [];
      if x.m.WriteRequest? && x.m.ssv == v {
        WriteArrives(m, m0, ms, v);
      } else if x.m.AntiWrite? && x.m.ssv == v {
        AntiArrives(m, m0, ms, v);
      } else {
        OtherArrives(m, m0, ms, v);
      }
    }
  }

  // ---- the surviving writes alone ----

  lemma {:induction false} SurvivorsMember(all: seq<Arrival>, ms: seq<Arrival>, v: nat, y: Arrival)
    ensures y in Survivors(all, ms, v) <==> y in ms && Survives(all, v, y)
  {
    if ms != [] {
      SurvivorsMember(all, ms[..|ms| - 1], v, y);
      assert ms == ms[..|ms| - 1] + [ms[|ms| - 1]];
    }
  }

  /** Writes that are all on v, behind the base, each at a time of its own that m0 lacks. */
  ghost predicate Apart(m0: map<nat, Live>, base: nat, ws: seq<Arrival>, v: nat)
  {
    ws == [] ||
    var before, x := ws[..|ws| - 1], ws[|ws| - 1];
    && Apart(m0, base, before, v)
    && x.m.WriteRequest? && x.m.ssv == v && base < x.m.ts < LONG_MAX && x.m.ts !in m0
    && forall y | y in before :: y.m.ts != x.m.ts
  }

  lemma {:induction false} ApartWrites(m0: map<nat, Live>, base: nat, ws: seq<Arrival>, v: nat)
    requires Apart(m0, base, ws, v)
    ensures Clean(m0, base, OpsOn(ws, v))
    ensures var m := LiveRun(m0, OpsOn(ws, v));
            && (forall t | t in m0 :: t in m && m[t] == m0[t])
            && (forall y | y in ws :: IsLiveWrite(m, y))
            && (forall t | t in m && t !in m0 :: exists y | y in ws :: y.m.ts == t)
  {
    if ws != [] {
      var before, x := ws[..|ws| - 1], ws[|ws| - 1];
      var ops, op := OpsOn(before, v), OpOf(x.m, v);
      ApartWrites(m0, base, before, v);
      CleanAppend(m0, base, ops, op);
      LiveRunAppend(m0, ops, op);
      assert op[1..] == [];
      assert ws == before + [x];
      var m, m' := LiveRun(m0, ops), LiveRun(m0, ops + op);
      assert m' == m[x.m.ts := Live(x.m.agent, x.m.value)];
    }
  }

  lemma {:induction false} WritesBehindBase(m0: map<nat, Live>, base: nat, ms: seq<Arrival>, v: nat, y: Arrival)
    requires Clean(m0, base, OpsOn(ms, v)) && y in ms && y.m.WriteRequest? && y.m.ssv == v
    ensures base < y.m.ts < LONG_MAX
  {
    var before, x := ms[..|ms| - 1], ms[|ms| - 1];
    CleanAppend(m0, base, OpsOn(before, v), OpOf(x.m, v));
    if y != x {
      assert ms == before + [x];
      WritesBehindBase(m0, base, before, v, y);
    }
  }

  lemma {:induction false} OrderlyPrefix(ms: seq<Arrival>, k: nat)
    requires Orderly(ms) && k <= |ms|
    ensures Orderly(ms[..k])
  {
    if k < |ms| {
      assert ms[..|ms| - 1][..k] == ms[..k];
      OrderlyPrefix(ms[..|ms| - 1], k);
    } else {
      assert ms[..k] == ms;
    }
  }

  lemma {:induction false} SurvivorsApart(m: map<nat, Live>, m0: map<nat, Live>, base: nat, all: seq<Arrival>, k: nat, v: nat)
    requires Orderly(all) && k <= |all| && LiveIs(m, m0, all, v) && Clean(m0, base, OpsOn(all, v))
    ensures Apart(m0, base, Survivors(all, all[..k], v), v)
  {
    if k > 0 {
      var x := all[k - 1];
      assert all[..k][..k - 1] == all[..k - 1];
      SurvivorsApart(m, m0, base, all, k - 1, v);
      var ws := Survivors(all, all[..k - 1], v);
      if !Survives(all, v, x) {
        assert ws + [] == ws;
      } else {
        WritesBehindBase(m0, base, all, v, x);
        OrderlyPrefix(all, k);
        assert Follows(all[..k - 1], x);
        forall y | y in ws
          ensures y.m.ts != x.m.ts
        {
          SurvivorsMember(all, all[..k - 1], v, y);
        }
        assert (ws + [x])[..|ws|] == ws;
      }
    }
  }

  /** Rollback is transparent end to end. Let a variable receive any merge of the outputs of
      ALPs whose ledgers hold, never with two live writes at one time. Then its list, and so
      the value readable at every time, is the one that results from only making the writes
      that no anti-message takes back. */
  lemma {:induction false} RollbackIsTransparent(ps: seq<Period>, m0: map<nat, Live>, outputs: map<nat, seq<Message>>,
                                                 ms: seq<Arrival>, v: nat)
    requires Good(ps, m0) && IsMerge(ms, outputs) && forall a | a in outputs :: Promised(outputs[a])
    requires Clean(m0, ps[0].start, OpsOn(ms, v))
    ensures var ops, survivors := OpsOn(ms, v), OpsOn(Survivors(ms, ms, v), v);
            && Legal(ps, ops) && Legal(ps, survivors)
            && SameList(History.Run(ps, ops), History.Run(ps, survivors))
            && forall u :: ValueAt(History.Run(ps, ops), u) == ValueAt(History.Run(ps, survivors), u)
  {
    var base, ws := ps[0].start, Survivors(ms, ms, v);
    MergeIsOrderly(ms, outputs);
    ArrivalsAreLive(m0, base, ms, v);
    assert ms[..|ms|] == ms;
    SurvivorsApart(LiveRun(m0, OpsOn(ms, v)), m0, base, ms, |ms|, v);
    ApartWrites(m0, base, ws, v);
    SameLive(LiveRun(m0, OpsOn(ms, v)), LiveRun(m0, OpsOn(ws, v)), m0, ms, v);
    RunsAgree(ps, m0, OpsOn(ms, v), OpsOn(ws, v));
  }

  lemma {:induction false} SameLive(m: map<nat, Live>, m': map<nat, Live>, m0: map<nat, Live>, ms: seq<Arrival>, v: nat)
    requires LiveIs(m, m0, ms, v)
    requires forall t | t in m0 :: t in m' && m'[t] == m0[t]
    requires forall y | y in Survivors(ms, ms, v) :: IsLiveWrite(m', y)
    requires forall t | t in m' && t !in m0 :: exists y | y in Survivors(ms, ms, v) :: y.m.ts == t
    ensures m == m'
  {
    forall y
      ensures y in Survivors(ms, ms, v) <==> Survives(ms, v, y)
    {
      SurvivorsMember(ms, ms, v, y);
    }
    forall t | t in m && t !in m0
      ensures t in m' && m'[t] == m[t]
    {
      assert SurvivesAt(ms, v, t);
      var y :| Survives(ms, v, y) && y.m.ts == t;
      assert y in Survivors(ms, ms, v) && IsLiveWrite(m', y) && IsLiveWrite(m, y);
    }
    forall t | t in m' && t !in m0
      ensures t in m
    {
      var y :| y in Survivors(ms, ms, v) && y.m.ts == t;
      assert Survives(ms, v, y) && IsLiveWrite(m, y);
    }
  }
}
