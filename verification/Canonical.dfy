/** Runs of one variable seen through its live writes. */
module Canonical {
  import opened Base
  import opened Periods
  import opened PeriodLaws
  import opened LiveWrites
  import opened History

  // Out-of-order writes commute, undoing restores.

  /** What one operation does to the live writes. */
  function LiveStep(m: map<nat, Live>, op: Op): map<nat, Live>
  {
    match op
    case OpWrite(agent, value, t) => m[t := Live(agent, value)]
    case OpUndoWrite(agent, t) => if Takes(m, agent, t) then m - {t} else m
    case _ => m
  }

  function LiveRun(m: map<nat, Live>, ops: seq<Op>): map<nat, Live>
    decreases |ops|
  {
    if ops == [] then m else LiveRun(LiveStep(m, ops[0]), ops[1..])
  }

  /** No write at a time that is live at that moment, nothing collected, and writes and
      undos later than the base. */
  predicate Clean(m: map<nat, Live>, base: nat, ops: seq<Op>)
    decreases |ops|
  {
    ops == [] ||
    (&& !ops[0].OpCollect? && ops[0].t < LONG_MAX
     && (ops[0].OpWrite? ==> ops[0].t > base && ops[0].t !in m)
     && (ops[0].OpUndoWrite? ==> ops[0].t > base)
     && (ops[0].OpRead? || ops[0].OpUndoRead? ==> ops[0].t >= base)
     && Clean(LiveStep(m, ops[0]), base, ops[1..]))
  }

  ghost predicate Good(ps: seq<Period>, m: map<nat, Live>)
  {
    WellKept(ps) && Holds(ps, m) && ps != []
  }

  lemma {:induction false} CleanStep(ps: seq<Period>, m: map<nat, Live>, op: Op)
    requires Good(ps, m) && Clean(m, ps[0].start, [op])
    ensures Enabled(ps, op)
    ensures Good(Step(ps, op), LiveStep(m, op)) && Step(ps, op)[0].start == ps[0].start
  {
    FindFromBase(ps, op.t);
    StepKeeps(ps, op);
    match op
    case OpRead(agent, t) => SameSkeletonHolds(ps, m, Read(ps, agent, t));
    case OpUndoRead(agent, t) => SameSkeletonHolds(ps, m, UndoRead(ps, agent, t));
    case OpWrite(agent, value, t) => CleanWrite(ps, m, agent, value, t);
    case OpUndoWrite(agent, t) => CleanUndo(ps, m, agent, t);
  }

  lemma {:induction false} CleanWrite(ps: seq<Period>, m: map<nat, Live>, agent: LpId, value: Value, t: nat)
    requires Good(ps, m) && t > ps[0].start && t !in m
    ensures Holds(Write(ps, agent, value, t), m[t := Live(agent, value)])
    ensures Write(ps, agent, value, t) != [] && Write(ps, agent, value, t)[0].start == ps[0].start
  {
    WriteHolds(ps, m, agent, value, t);
    WriteSplices(ps, agent, value, t);
    FindFromBase(ps, t);
  }

  lemma {:induction false} CleanUndo(ps: seq<Period>, m: map<nat, Live>, agent: LpId, t: nat)
    requires Good(ps, m) && t > ps[0].start
    ensures Holds(Undo(ps, agent, t), if Takes(m, agent, t) then m - {t} else m)
    ensures Undo(ps, agent, t) != [] && Undo(ps, agent, t)[0].start == ps[0].start
  {
    UndoHolds(ps, m, agent, t);
    if Undoes(ps, agent, t) {
      UndoRemoves(ps, agent, t);
      assert FindStart(ps, t) > 0;
    }
  }

  lemma FindFromBase(ps: seq<Period>, t: nat)
    requires ps != []
    ensures ps[0].start <= t ==> Find(ps, t) >= 0
  {
  }

  /** The list always is exactly the live writes: after any clean run it holds the writes
      that were made and not undone, sorted and chained. */
  lemma {:induction false} RunIsLive(ps: seq<Period>, m: map<nat, Live>, ops: seq<Op>)
    requires Good(ps, m) && Clean(m, ps[0].start, ops)
    ensures Legal(ps, ops)
    ensures Good(Run(ps, ops), LiveRun(m, ops)) && Run(ps, ops)[0].start == ps[0].start
    decreases |ops|
  {
    if ops != [] {
      CleanStep(ps, m, ops[0]);
      RunIsLive(Step(ps, ops[0]), LiveStep(m, ops[0]), ops[1..]);
    }
  }

  /** Any two clean runs that leave the same writes live end in the same list and answer
      every time alike, whatever order the operations came in. */
  lemma {:induction false} RunsAgree(ps: seq<Period>, m: map<nat, Live>, ops: seq<Op>, ops': seq<Op>)
    requires Good(ps, m) && Clean(m, ps[0].start, ops) && Clean(m, ps[0].start, ops')
    requires LiveRun(m, ops) == LiveRun(m, ops')
    ensures Legal(ps, ops) && Legal(ps, ops')
    ensures SameList(Run(ps, ops), Run(ps, ops'))
    ensures forall u :: ValueAt(Run(ps, ops), u) == ValueAt(Run(ps, ops'), u)
  {
    RunIsLive(ps, m, ops);
    RunIsLive(ps, m, ops');
    SameMapSameList(Run(ps, ops), Run(ps, ops'), LiveRun(m, ops));
    forall u
      ensures ValueAt(Run(ps, ops), u) == ValueAt(Run(ps, ops'), u)
    {
      SameMapSameValue(Run(ps, ops), Run(ps, ops'), LiveRun(m, ops), u);
    }
  }

  /** Writes at different times commute, whichever arrives first. */
  lemma {:induction false} WritesCommute(ps: seq<Period>, m: map<nat, Live>, a: Op, b: Op)
    requires Good(ps, m) && a.OpWrite? && b.OpWrite? && a.t != b.t
    requires Clean(m, ps[0].start, [a]) && Clean(m, ps[0].start, [b])
    ensures Legal(ps, [a, b]) && Legal(ps, [b, a])
    ensures SameList(Run(ps, [a, b]), Run(ps, [b, a]))
  {
    var ma, mb := LiveStep(m, a), LiveStep(m, b);
    assert [a, b][1..] == [b] && [b, a][1..] == [a] && [a][1..] == [] && [b][1..] == [];
    assert LiveStep(ma, b) == LiveStep(mb, a);
    assert LiveRun(m, [a, b]) == LiveRun(ma, [b]) == LiveStep(ma, b);
    assert LiveRun(m, [b, a]) == LiveRun(mb, [a]) == LiveStep(mb, a);
    RunsAgree(ps, m, [a, b], [b, a]);
  }

  // ---- a write followed by its own undoing ----

  /** It restores every time exactly when no write was there before at that time, or that
      write had the same value. */
  lemma {:induction false} WriteThenUndo(ps: seq<Period>, agent: LpId, value: Value, t: nat)
    requires WellKept(ps) && t < LONG_MAX && WriteAccepted(ps, agent, t)
    ensures (forall u :: ValueAt(Undo(Write(ps, agent, value, t), agent, t), u) == ValueAt(ps, u))
            <==> (!HasStart(ps, t) || ValueAt(ps, t) == Some(value))
  {
    var ws := Write(ps, agent, value, t);
    if ps == [] {
      assert Undo(ws, agent, t) == [];
    } else if !HasStart(ps, t) {
      forall u
        ensures ValueAt(Undo(ws, agent, t), u) == ValueAt(ps, u)
      {
        UndoFreshWrite(ps, agent, value, t, u);
      }
    } else {
      UndoKeepsLaterTwin(ps, agent, value, t, t);
      forall u
        ensures ValueAt(Undo(ws, agent, t), u) == ValueAt(ws, u)
      {
        UndoKeepsLaterTwin(ps, agent, value, t, u);
      }
      WriteValue(ps, agent, value, t, t);
      if ValueAt(ps, t) == Some(value) {
        forall u
          ensures ValueAt(ws, u) == ValueAt(ps, u)
        {
          WriteValue(ps, agent, value, t, u);
          if Reaches(ps, t, u) { FindIs(ps, u, Find(ps, t)); }
        }
      }
    }
  }

  /** So a second write of the same agent at the same time is not taken back when the first one
      has that time: the first one goes, and 2 stays where 1 was. */
  lemma {:induction false} SecondWriteStays()
    ensures var a := LpId(3, 3);
            var ps := Write([], a, IntValue(1), 5);
            && WellKept(ps) && WriteAccepted(ps, a, 5) && ValueAt(ps, 5) == Some(IntValue(1))
            && ValueAt(Undo(Write(ps, a, IntValue(2), 5), a, 5), 5) == Some(IntValue(2))
  {
    var a := LpId(3, 3);
    var ps := Write([], a, IntValue(1), 5);
    var ws := Write(ps, a, IntValue(2), 5);
    assert ws == [Period(5, 5, IntValue(1), a, []), Period(5, ULONG_MAX, IntValue(2), a, [])];
    assert Undo(ws, a, 5) == [ws[1]];
  }

  /** And one behind another agent's write at that time is not taken back at all: the first write
      found is not its own, so nothing goes. */
  lemma {:induction false} OtherWriteStays()
    ensures var a, b := LpId(2, 2), LpId(3, 3);
            var ps := Write([], a, IntValue(1), 5);
            var ws := Write(ps, b, IntValue(2), 5);
            && WellKept(ps) && WriteAccepted(ps, b, 5) && Undo(ws, b, 5) == ws
            && ValueAt(ps, 5) == Some(IntValue(1)) && ValueAt(Undo(ws, b, 5), 5) == Some(IntValue(2))
  {
    var a, b := LpId(2, 2), LpId(3, 3);
    var ws := Write(Write([], a, IntValue(1), 5), b, IntValue(2), 5);
    assert ws == [Period(5, 5, IntValue(1), a, []), Period(5, ULONG_MAX, IntValue(2), b, [])];
  }

  /** Who goes when an agent takes back its write at a time at which another write has come
      first: that other one if it is the agent's own, as != sees it, and otherwise none. */
  lemma {:induction false} UndoTakesFirst(ps: seq<Period>, agent: LpId, value: Value, t: nat)
    requires WriteAccepted(ps, agent, t) && HasStart(ps, t)
    ensures FindStart(ps, t) < |ps| && FindStart(Write(ps, agent, value, t), t) == FindStart(ps, t)
    ensures Undoes(Write(ps, agent, value, t), agent, t) <==> !IdNotEqual(ps[FindStart(ps, t)].agent, agent)
  {
    var i, ws := Find(ps, t), Write(ps, agent, value, t);
    WriteSplices(ps, agent, value, t);
    var k :| 0 <= k < |ps| && ps[k].start == t;
    FirstStays(ps, ws, i, k, t);
  }

  lemma {:induction false} FirstStays(ps: seq<Period>, ws: seq<Period>, i: nat, k: nat, t: nat)
    requires k <= i < |ps| && i < |ws| && ps[k].start == t
    requires forall j | 0 <= j <= i :: ws[j].start == ps[j].start && ws[j].agent == ps[j].agent
    ensures FindStart(ws, t) == FindStart(ps, t) <= k
  {
    assert ws[k].start == t;
  }

  /** The undo of a write at a new time meets that write. */
  lemma {:induction false} UndoMeetsWrite(ps: seq<Period>, agent: LpId, value: Value, t: nat)
    requires ps != [] && WriteAccepted(ps, agent, t) && !HasStart(ps, t)
    ensures FindStart(Write(ps, agent, value, t), t) == Find(ps, t) + 1
  {
    var i, ws := Find(ps, t), Write(ps, agent, value, t);
    WriteSplices(ps, agent, value, t);
    forall j | 0 <= j <= i
      ensures ws[j].start != t
    {
      assert ps[j].start != t;
    }
  }

  lemma {:induction false} UndoFreshWrite(ps: seq<Period>, agent: LpId, value: Value, t: nat, u: nat)
    requires WellKept(ps) && ps != [] && WriteAccepted(ps, agent, t) && !HasStart(ps, t) && t < LONG_MAX
    ensures ValueAt(Undo(Write(ps, agent, value, t), agent, t), u) == ValueAt(ps, u)
  {
    var i, ws := Find(ps, t), Write(ps, agent, value, t);
    WriteSplices(ps, agent, value, t);
    UndoMeetsWrite(ps, agent, value, t);
    WriteKeeps(ps, agent, value, t);
    UndoValue(ws, agent, t, u);
    WriteValue(ps, agent, value, t, u);
    if Find(ws, u) == i + 1 {
      BeforeTheNew(ps, i, ws, value, t, u);
    } else if Reaches(ps, t, u) {
      SplicedFind(ps, i, ws, value, t, u);
    }
  }

  lemma {:induction false} BeforeTheNew(ps: seq<Period>, i: nat, ws: seq<Period>, value: Value, t: nat, u: nat)
    requires Spliced(ps, i, ws, value, t) && Find(ws, u) == i + 1
    ensures Find(ps, u) == i && ws[i].value == ps[i].value
  {
    assert forall j | i < j < |ps| :: ps[j] == ws[j + 1];
    FindIs(ps, u, i);
  }

  lemma {:induction false} SplicedFind(ps: seq<Period>, i: nat, qs: seq<Period>, value: Value, t: nat, u: nat)
    requires Spliced(ps, i, qs, value, t) && Reaches(ps, t, u)
    ensures Find(qs, u) == i + 1
  {
    forall j | i + 1 < j < |qs|
      ensures qs[j].start > u
    {
      assert qs[j] == ps[j - 1];
    }
    FindIs(qs, u, i + 1);
  }

  /** With an older write at t, the undo meets that one first: the new value stays. */
  lemma {:induction false} UndoKeepsLaterTwin(ps: seq<Period>, agent: LpId, value: Value, t: nat, u: nat)
    requires WellKept(ps) && ps != [] && WriteAccepted(ps, agent, t) && HasStart(ps, t) && t < LONG_MAX
    ensures ValueAt(Undo(Write(ps, agent, value, t), agent, t), u) == ValueAt(Write(ps, agent, value, t), u)
  {
    var i, ws := Find(ps, t), Write(ps, agent, value, t);
    WriteSplices(ps, agent, value, t);
    WriteKeeps(ps, agent, value, t);
    var k :| 0 <= k < |ps| && ps[k].start == t;
    assert k <= i;
    assert ws[k].start == t;
    var s := FindStart(ws, t);
    assert s <= k;
    assert ws[i + 1].start == t && s < i + 1;
    UndoValue(ws, agent, t, u);
  }
}
