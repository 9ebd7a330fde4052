/** Garbage collection at global virtual time: no agent can tell whether it happened. */
module Collection {
  import opened Base
  import opened Periods
  import opened PeriodLaws
  import opened LiveWrites
  import opened History
  import opened Canonical

  /** A run in which collections never go back, write rollbacks are later than the last
      collection, writes and reads are not earlier, and no write meets a live one; a write at the
      very time of the collection is not by a lesser agent than the write covering that time. */
  predicate Timely(m: map<nat, Live>, gvt: nat, ops: seq<Op>)
    decreases |ops|
  {
    ops == [] ||
    (&& ops[0].t < LONG_MAX && ops[0].t >= gvt
     && (ops[0].OpWrite? ==> ops[0].t !in m && (ops[0].t == gvt ==> MayTie(m, gvt, ops[0].agent)))
     && (ops[0].OpUndoWrite? ==> ops[0].t > gvt)
     && Timely(LiveStep(m, ops[0]), if ops[0].OpCollect? then ops[0].t else gvt, ops[1..]))
  }

  predicate MayTie(m: map<nat, Live>, t: nat, agent: LpId)
  {
    forall s | s in m && s <= t && (forall r | r in m && r <= t :: r <= s) :: !IdGreater(m[s].agent, agent)
  }

  function LastGvt(gvt: nat, ops: seq<Op>): nat
    decreases |ops|
  {
    if ops == [] then gvt else LastGvt(if ops[0].OpCollect? then ops[0].t else gvt, ops[1..])
  }

  /** The same run had nothing ever been collected. */
  function Uncollected(ops: seq<Op>): seq<Op>
    decreases |ops|
  {
    if ops == [] then []
    else (if ops[0].OpCollect? then [] else [ops[0]]) + Uncollected(ops[1..])
  }

  /** m and k agree on the writes later than t, and on the one that covers t. */
  ghost predicate AgreeFrom(m: map<nat, Live>, k: map<nat, Live>, t: nat)
  {
    && (forall s | s > t :: (s in m <==> s in k) && (s in m ==> m[s] == k[s]))
    && forall s, r | IsLatest(m, t, s) && IsLatest(k, t, r) :: m[s] == k[r]
  }

  /** pad + ps and qs cannot be told apart from t on: nothing finds the periods of pad any more. */
  ghost predicate Alike(pad: seq<Period>, ps: seq<Period>, m: map<nat, Live>, qs: seq<Period>, k: map<nat, Live>, t: nat)
  {
    && Good(ps, m) && Good(qs, k) && ps[0].start <= t && qs[0].start <= t && AgreeFrom(m, k, t) && Dead(pad, ps)
  }

  // ---- dead periods ----

  ghost predicate Dead(pad: seq<Period>, ps: seq<Period>)
  {
    ps != [] && forall j | 0 <= j < |pad| :: pad[j].start <= ps[0].start
  }

  lemma {:induction false} DeadFind(pad: seq<Period>, ps: seq<Period>, u: nat)
    requires Dead(pad, ps) && WellKept(ps) && ps[0].start <= u
    ensures Find(ps, u) >= 0 && Find(pad + ps, u) == |pad| + Find(ps, u)
    ensures ValueAt(pad + ps, u) == ValueAt(ps, u)
  {
    FindFromBase(ps, u);
    FindIs(pad + ps, u, |pad| + Find(ps, u));
  }

  /** Operations pass the dead periods by. */
  lemma {:induction false} DeadStep(pad: seq<Period>, ps: seq<Period>, op: Op)
    requires Dead(pad, ps) && WellKept(ps) && ps[0].start <= op.t < LONG_MAX && !op.OpCollect?
    requires op.OpUndoWrite? ==> ps[0].start < op.t
    ensures Enabled(ps, op) && Enabled(pad + ps, op) && Step(pad + ps, op) == pad + Step(ps, op)
  {
    DeadFind(pad, ps, op.t);
    var i, n := Find(ps, op.t), |pad|;
    assert (pad + ps)[n + i] == ps[i];
    match op
    case OpRead(agent, t) =>
    case OpUndoRead(agent, t) =>
    case OpWrite(agent, value, t) => DeadWrite(pad, ps, agent, value, t);
    case OpUndoWrite(agent, t) => DeadUndo(pad, ps, agent, t);
  }

  lemma Slices<T>(p: seq<T>, q: seq<T>, i: nat)
    requires i <= |q|
    ensures (p + q)[..|p| + i] == p + q[..i] && (p + q)[|p| + i..] == q[i..]
    ensures i < |q| ==> (p + q)[|p| + i] == q[i]
  {
  }

  lemma Regroup<T>(p: seq<T>, a: seq<T>, x: T, b: seq<T>)
    ensures p + (a + [x] + b) == (p + a) + [x] + b
    ensures b == [] ==> p + (a + [x]) == (p + a) + [x]
  {
  }

  lemma {:induction false} DeadWrite(pad: seq<Period>, ps: seq<Period>, agent: LpId, value: Value, t: nat)
    requires Dead(pad, ps) && Find(ps, t) >= 0 && Find(pad + ps, t) == |pad| + Find(ps, t)
    ensures Write(pad + ps, agent, value, t) == pad + Write(ps, agent, value, t)
  {
    var i := Find(ps, t);
    Slices(pad, ps, i);
    Slices(pad, ps, i + 1);
  }

  lemma {:induction false} StartAfterPad(pad: seq<Period>, ps: seq<Period>, t: nat)
    ensures FindStart(pad + ps, t) == if FindStart(pad, t) < |pad| then FindStart(pad, t) else |pad| + FindStart(ps, t)
  {
    if pad == [] {
      assert pad + ps == ps;
    } else {
      assert (pad + ps)[1..] == pad[1..] + ps;
      StartAfterPad(pad[1..], ps, t);
    }
  }

  /** What is left when the write that starts period i is taken back. */
  function TakenOut(ps: seq<Period>, i: nat): seq<Period>
    requires i < |ps|
  {
    if |ps| == 1 then []
    else if i == |ps| - 1 then ps[..i - 1] + [ps[i - 1].(end := LONG_MAX)]
    else if i == 0 then ps[1..]
    else ps[..i - 1] + [ps[i - 1].(end := ps[i].end)] + ps[i + 1..]
  }

  lemma UndoTakesOut(ps: seq<Period>, agent: LpId, t: nat)
    requires Undoes(ps, agent, t)
    ensures Undo(ps, agent, t) == TakenOut(ps, FindStart(ps, t))
  {
  }

  lemma {:induction false} DeadTakenOut(pad: seq<Period>, ps: seq<Period>, i: nat)
    requires 0 < i < |ps|
    ensures TakenOut(pad + ps, |pad| + i) == pad + TakenOut(ps, i)
  {
    Slices(pad, ps, i);
    Slices(pad, ps, i - 1);
    Slices(pad, ps, i + 1);
    if i == |ps| - 1 {
      Regroup(pad, ps[..i - 1], ps[i - 1].(end := LONG_MAX), []);
    } else {
      Regroup(pad, ps[..i - 1], ps[i - 1].(end := ps[i].end), ps[i + 1..]);
    }
  }

  lemma {:induction false} DeadUndo(pad: seq<Period>, ps: seq<Period>, agent: LpId, t: nat)
    requires Dead(pad, ps) && ps[0].start < t
    ensures Undo(pad + ps, agent, t) == pad + Undo(ps, agent, t)
  {
    var i := FindStart(ps, t);
    StartAfterPad(pad, ps, t);
    if i < |ps| { Slices(pad, ps, i); }
    if Undoes(ps, agent, t) {
      UndoTakesOut(ps, agent, t);
      UndoTakesOut(pad + ps, agent, t);
      DeadTakenOut(pad, ps, i);
    }
  }

  /** A collection may remove dead periods, but makes none. */
  lemma {:induction false} DeadCollect(pad: seq<Period>, ps: seq<Period>, gvt: nat) returns (pad': seq<Period>)
    requires Dead(pad, ps) && WellKept(ps) && Distinct(ps) && ps[0].start <= gvt < LONG_MAX
    ensures Collect(pad + ps, gvt) == pad' + Collect(ps, gvt) && Dead(pad', Collect(ps, gvt))
  {
    DeadFind(pad, ps, gvt);
    DeadMove(pad, ps, gvt);
    var i, moved := Find(ps, gvt), MoveBase(ps, gvt);
    pad' := DeadDrop(pad, moved, i, gvt);
    assert Collect(ps, gvt) == moved[i..] && moved[i..][0].start == gvt;
  }

  lemma {:induction false} DeadMove(pad: seq<Period>, ps: seq<Period>, gvt: nat)
    requires Dead(pad, ps) && Distinct(ps) && ps[0].start <= gvt
    requires Find(ps, gvt) >= 0 && Find(pad + ps, gvt) == |pad| + Find(ps, gvt)
    ensures var i, moved := Find(ps, gvt), MoveBase(ps, gvt);
            && MoveBase(pad + ps, gvt) == pad + moved && moved[i].start == gvt && Dead(pad, moved)
            && forall j | 0 <= j < i :: moved[j].start < gvt
  {
    var i := Find(ps, gvt);
    assert (pad + ps)[|pad| + i] == ps[i];
    assert forall j | 0 <= j < i :: ps[j].start < ps[i].start;
  }

  lemma {:induction false} DeadDrop(pad: seq<Period>, ps: seq<Period>, i: nat, gvt: nat) returns (pad': seq<Period>)
    requires i < |ps| && ps[i].start == gvt && (forall j | 0 <= j < i :: ps[j].start < gvt) && Dead(pad, ps)
    ensures FindStart(ps, gvt) == i && forall j | 0 <= j < |pad'| :: pad'[j].start <= gvt
    ensures (pad + ps)[FindStart(pad + ps, gvt)..] == pad' + ps[i..]
  {
    StartAfterPad(pad, ps, gvt);
    var j := FindStart(pad, gvt);
    pad' := pad[j..];
    if j < |pad| {
      assert (pad + ps)[j..] == pad' + ps && ps[i..] == ps;
    } else {
      Slices(pad, ps, i);
    }
  }

  // ---- what keeps them alike ----

  lemma {:induction false} LatestExists(ps: seq<Period>, m: map<nat, Live>, u: nat) returns (s: nat)
    requires Good(ps, m) && ps[0].start <= u
    ensures IsLatest(m, u, s) && ValueAt(ps, u) == Some(m[s].value)
    ensures Find(ps, u) >= 0 && s == ps[Find(ps, u)].start && m[s] == Live(ps[Find(ps, u)].agent, ps[Find(ps, u)].value)
  {
    FindFromBase(ps, u);
    ReadsLatest(ps, m, u);
    s := ps[Find(ps, u)].start;
  }

  /** Agreement from t on is agreement from later on. */
  lemma {:induction false} AgreeLater(m: map<nat, Live>, k: map<nat, Live>, t: nat, u: nat)
    requires AgreeFrom(m, k, t) && t <= u
    requires exists s, r :: IsLatest(m, t, s) && IsLatest(k, t, r)
    ensures AgreeFrom(m, k, u)
  {
    var s0, r0 :| IsLatest(m, t, s0) && IsLatest(k, t, r0);
    forall s: nat, r: nat | IsLatest(m, u, s) && IsLatest(k, u, r)
      ensures m[s] == k[r]
    {
      if s > t {
        assert s in k;
      } else if r <= t {
        assert IsLatest(m, t, s) && IsLatest(k, t, r);
      }
    }
  }

  lemma {:induction false} AlikeValues(pad: seq<Period>, ps: seq<Period>, m: map<nat, Live>, qs: seq<Period>,
                                       k: map<nat, Live>, t: nat, u: nat)
    requires Alike(pad, ps, m, qs, k, t) && u >= t
    ensures ValueAt(pad + ps, u) == ValueAt(qs, u) != None
  {
    DeadFind(pad, ps, u);
    var s0 := LatestExists(ps, m, t);
    var r0 := LatestExists(qs, k, t);
    AgreeLater(m, k, t, u);
    var s := LatestExists(ps, m, u);
    var r := LatestExists(qs, k, u);
  }

  /** An operation later than t keeps two lists alike, with the collection only on one. */
  lemma {:induction false} AlikeStep(pad: seq<Period>, ps: seq<Period>, m: map<nat, Live>, qs: seq<Period>,
                                     k: map<nat, Live>, t: nat, op: Op)
    requires Alike(pad, ps, m, qs, k, t) && Timely(k, t, [op]) && !op.OpCollect? && !(op.OpWrite? && op.t == t)
    ensures Enabled(pad + ps, op) && Enabled(ps, op) && Enabled(qs, op) && Step(pad + ps, op) == pad + Step(ps, op)
    ensures Alike(pad, Step(ps, op), LiveStep(m, op), Step(qs, op), LiveStep(k, op), t)
  {
    assert Clean(m, ps[0].start, [op]) && Clean(k, qs[0].start, [op]);
    CleanStep(ps, m, op);
    CleanStep(qs, k, op);
    DeadStep(pad, ps, op);
    AgreeStep(m, k, t, op);
  }

  lemma {:induction false} AgreeStep(m: map<nat, Live>, k: map<nat, Live>, t: nat, op: Op)
    requires AgreeFrom(m, k, t) && (op.OpWrite? || op.OpUndoWrite? ==> op.t > t)
    ensures AgreeFrom(LiveStep(m, op), LiveStep(k, op), t)
  {
    forall s: nat, r: nat | IsLatest(LiveStep(m, op), t, s) && IsLatest(LiveStep(k, op), t, r)
      ensures LiveStep(m, op)[s] == LiveStep(k, op)[r]
    {
      LatestStays(m, op, t, s);
      LatestStays(k, op, t, r);
    }
  }

  lemma {:induction false} LatestStays(m: map<nat, Live>, op: Op, t: nat, s: nat)
    requires (op.OpWrite? || op.OpUndoWrite? ==> op.t > t) && IsLatest(LiveStep(m, op), t, s)
    ensures IsLatest(m, t, s) && LiveStep(m, op)[s] == m[s]
  {
    forall j | j in m && j <= t
      ensures j in LiveStep(m, op)
    {
    }
  }

  /** A write at the very time of the last collection: it is accepted on both, and what it covers
      on the collected one is dead. */
  lemma {:induction false} AlikeTie(pad: seq<Period>, ps: seq<Period>, m: map<nat, Live>, qs: seq<Period>,
                                    k: map<nat, Live>, t: nat, op: Op)
    returns (pad': seq<Period>, ps': seq<Period>, m': map<nat, Live>)
    requires Alike(pad, ps, m, qs, k, t) && Timely(k, t, [op]) && op.OpWrite? && op.t == t
    ensures Enabled(pad + ps, op) && Enabled(qs, op) && Step(pad + ps, op) == pad' + ps'
    ensures Alike(pad', ps', m', Step(qs, op), LiveStep(k, op), t)
  {
    DeadStep(pad, ps, op);
    TieIsAccepted(ps, m, qs, k, t, op);
    var ws, i := Write(ps, op.agent, op.value, t), Find(ps, t);
    m' := TieTail(ps, m, op.agent, op.value, t);
    pad', ps' := TieSplits(pad, ps[0].start, ws, i + 1, t);
    TieAgrees(m, m', k, t, op);
  }

  lemma {:induction false} TieSplits(pad: seq<Period>, base: nat, ws: seq<Period>, i: nat, t: nat)
    returns (pad': seq<Period>, ps': seq<Period>)
    requires i < |ws| && ws[i].start == t && base <= t && forall p | p in pad :: p.start <= base
    requires forall j | 0 <= j < i :: ws[j].start <= t
    ensures ps' == ws[i..] && pad' + ps' == pad + ws && Dead(pad', ps')
  {
    pad', ps' := pad + ws[..i], ws[i..];
  }

  lemma {:induction false} TieIsAccepted(ps: seq<Period>, m: map<nat, Live>, qs: seq<Period>, k: map<nat, Live>, t: nat, op: Op)
    requires Good(ps, m) && Good(qs, k) && ps[0].start <= t && qs[0].start <= t && AgreeFrom(m, k, t)
    requires Timely(k, t, [op]) && op.OpWrite? && op.t == t
    ensures Find(ps, t) >= 0 && WriteAccepted(ps, op.agent, t)
    ensures Enabled(qs, op) && Good(Step(qs, op), LiveStep(k, op)) && Step(qs, op)[0].start == qs[0].start
  {
    var s := LatestExists(ps, m, t);
    var r := LatestExists(qs, k, t);
    assert qs[0].start in k && Clean(k, qs[0].start, [op]);
    CleanStep(qs, k, op);
    assert !IdGreater(k[r].agent, op.agent);
  }

  lemma {:induction false} TieAgrees(m: map<nat, Live>, m': map<nat, Live>, k: map<nat, Live>, t: nat, op: Op)
    requires AgreeFrom(m, k, t) && op.OpWrite? && op.t == t
    requires t in m' && m'[t] == Live(op.agent, op.value)
    requires forall u | u > t :: (u in m' <==> u in m) && (u in m ==> m'[u] == m[u])
    ensures AgreeFrom(m', LiveStep(k, op), t)
  {
    forall x: nat, y: nat | IsLatest(m', t, x) && IsLatest(LiveStep(k, op), t, y)
      ensures m'[x] == LiveStep(k, op)[y]
    {
      assert x == t && y == t;
    }
  }

  /** From the new period on the list is well kept, and holds it and the later writes. */
  lemma {:induction false} TieTail(ps: seq<Period>, m: map<nat, Live>, agent: LpId, value: Value, t: nat)
    returns (m': map<nat, Live>)
    requires Good(ps, m) && Find(ps, t) >= 0 && WriteAccepted(ps, agent, t) && t < LONG_MAX
    ensures var ws, i := Write(ps, agent, value, t), Find(ps, t);
            && i + 1 < |ws| && Good(ws[i + 1..], m') && ws[i + 1].start == t
            && forall j | 0 <= j <= i :: ws[j].start <= t
    ensures t in m' && m'[t] == Live(agent, value)
    ensures forall u | u > t :: (u in m' <==> u in m) && (u in m ==> m'[u] == m[u])
  {
    var ws, i := Write(ps, agent, value, t), Find(ps, t);
    WriteKeeps(ps, agent, value, t);
    SuffixKeeps(ws, i + 1);
    var tail := ws[i + 1..];
    assert forall j | 0 < j < |tail| :: tail[j] == ps[i + j];
    m' := HoldsSome(tail);
    assert tail[0].start in m';
    TailHolds(ps, m, i, tail, m', t);
  }

  lemma {:induction false} TailHolds(ps: seq<Period>, m: map<nat, Live>, i: nat, tail: seq<Period>, m': map<nat, Live>, t: nat)
    requires Holds(ps, m) && Holds(tail, m') && i < |ps| && |tail| == |ps| - i && tail[0].start == t
    requires forall j | 0 < j < |tail| :: tail[j] == ps[i + j]
    requires ps[i].start <= t && forall j | i < j < |ps| :: ps[j].start > t
    ensures forall u | u > t :: (u in m' <==> u in m) && (u in m ==> m'[u] == m[u])
  {
    forall u | u > t
      ensures (u in m' <==> u in m) && (u in m ==> m'[u] == m[u])
    {
      if u in m {
        assert HasStart(ps, u);
        var j :| 0 <= j < |ps| && ps[j].start == u;
        assert j > i;
        assert tail[j - i] == ps[j];
      }
      if u in m' {
        assert HasStart(tail, u);
        var j :| 0 <= j < |tail| && tail[j].start == u;
        assert tail[j] == ps[i + j];
      }
    }
  }

  /** Collecting one of two alike lists keeps them alike from then on. */
  lemma {:induction false} AlikeCollect(pad: seq<Period>, ps: seq<Period>, m: map<nat, Live>, qs: seq<Period>,
                                        k: map<nat, Live>, t: nat, gvt: nat)
    returns (pad': seq<Period>, m': map<nat, Live>)
    requires Alike(pad, ps, m, qs, k, t) && t <= gvt < LONG_MAX
    ensures Collect(pad + ps, gvt) == pad' + Collect(ps, gvt)
    ensures Alike(pad', Collect(ps, gvt), m', qs, k, gvt)
  {
    CollectKeeps(ps, gvt);
    var s0 := LatestExists(ps, m, t);
    var r0 := LatestExists(qs, k, t);
    AgreeLater(m, k, t, gvt);
    var s := LatestExists(ps, m, gvt);
    var r := LatestExists(qs, k, gvt);
    pad' := DeadCollect(pad, ps, gvt);
    m' := HoldsSome(Collect(ps, gvt));
    CollectAgrees(ps, m, m', gvt);
    forall x, y | IsLatest(m', gvt, x) && IsLatest(k, gvt, y)
      ensures m'[x] == k[y]
    {
      assert x == gvt && y == r && IsLatest(m, gvt, s);
    }
  }

  lemma {:induction false} CollectAgrees(ps: seq<Period>, m: map<nat, Live>, m': map<nat, Live>, gvt: nat)
    requires Good(ps, m) && Find(ps, gvt) >= 0 && gvt < LONG_MAX && Holds(Collect(ps, gvt), m')
    ensures forall s | s > gvt :: (s in m <==> s in m') && (s in m ==> m[s] == m'[s])
    ensures gvt in m' && m'[gvt] == Live(ps[Find(ps, gvt)].agent, ps[Find(ps, gvt)].value)
  {
    var i, qs := Find(ps, gvt), Collect(ps, gvt);
    var c := CollectTail(ps, gvt);
    assert qs[i - c].start == gvt;
    forall s | s > gvt
      ensures (s in m <==> s in m') && (s in m ==> m[s] == m'[s])
    {
      if s in m {
        assert HasStart(ps, s);
        var j :| 0 <= j < |ps| && ps[j].start == s;
        assert j > i;
        assert qs[j - c] == ps[j];
      }
      if s in m' {
        assert HasStart(qs, s);
        var j :| 0 <= j < |qs| && qs[j].start == s;
        assert qs[j] == ps[j + c];
      }
    }
  }

  /** The run from ps can be made, and so can the uncollected one from qs; they answer
      every read alike, and would answer alike every later one. */
  ghost predicate Unnoticed(ps: seq<Period>, qs: seq<Period>, gvt: nat, ops: seq<Op>)
  {
    && Legal(ps, ops) && Legal(qs, Uncollected(ops))
    && Answers(ps, ops) == Answers(qs, Uncollected(ops))
    && forall u | u >= LastGvt(gvt, ops) ::
         ValueAt(Run(ps, ops), u) == ValueAt(Run(qs, Uncollected(ops)), u) != None
  }

  lemma {:induction false} UnnoticedCollect(ps: seq<Period>, qs: seq<Period>, gvt: nat, ops: seq<Op>)
    requires ops != [] && ops[0].OpCollect? && Enabled(ps, ops[0])
    requires Unnoticed(Step(ps, ops[0]), qs, ops[0].t, ops[1..])
    ensures Unnoticed(ps, qs, gvt, ops)
  {
    assert [] + Uncollected(ops[1..]) == Uncollected(ops[1..]);
  }

  lemma {:induction false} UnnoticedStep(ps: seq<Period>, qs: seq<Period>, gvt: nat, ops: seq<Op>)
    requires ops != [] && !ops[0].OpCollect? && Enabled(ps, ops[0]) && Enabled(qs, ops[0])
    requires ValueAt(ps, ops[0].t) == ValueAt(qs, ops[0].t)
    requires Unnoticed(Step(ps, ops[0]), Step(qs, ops[0]), gvt, ops[1..])
    ensures Unnoticed(ps, qs, gvt, ops)
  {
    var rest := Uncollected(ops[1..]);
    assert Uncollected(ops) == [ops[0]] + rest;
    assert ([ops[0]] + rest)[1..] == rest;
  }

  /** Collection is invisible: along every timely run no read fails, every read is answered
      as if nothing had ever been collected, and so would be every later one. */
  lemma {:induction false} CollectionInvisible(pad: seq<Period>, ps: seq<Period>, m: map<nat, Live>, qs: seq<Period>,
                                               k: map<nat, Live>, gvt: nat, ops: seq<Op>)
    requires Alike(pad, ps, m, qs, k, gvt) && Timely(k, gvt, ops)
    ensures Unnoticed(pad + ps, qs, gvt, ops)
    decreases |ops|
  {
    if ops == [] {
      forall u | u >= gvt
        ensures ValueAt(pad + ps, u) == ValueAt(qs, u) != None
      {
        AlikeValues(pad, ps, m, qs, k, gvt, u);
      }
    } else if ops[0].OpCollect? {
      var pad', m' := AlikeCollect(pad, ps, m, qs, k, gvt, ops[0].t);
      CollectionInvisible(pad', Collect(ps, ops[0].t), m', qs, k, ops[0].t, ops[1..]);
      UnnoticedCollect(pad + ps, qs, gvt, ops);
    } else {
      assert [ops[0]][1..] == [] && Timely(k, gvt, [ops[0]]);
      AlikeValues(pad, ps, m, qs, k, gvt, ops[0].t);
      if ops[0].OpWrite? && ops[0].t == gvt {
        var pad', ps', m' := AlikeTie(pad, ps, m, qs, k, gvt, ops[0]);
        CollectionInvisible(pad', ps', m', Step(qs, ops[0]), LiveStep(k, ops[0]), gvt, ops[1..]);
      } else {
        AlikeStep(pad, ps, m, qs, k, gvt, ops[0]);
        CollectionInvisible(pad, Step(ps, ops[0]), LiveStep(m, ops[0]), Step(qs, ops[0]), LiveStep(k, ops[0]), gvt, ops[1..]);
      }
      UnnoticedStep(pad + ps, qs, gvt, ops);
    }
  }

  /** The same from a variable's initial state, the single write it is created with. */
  lemma {:induction false} CollectedVariable(value: Value, start: nat, ops: seq<Op>)
    requires start < LONG_MAX && Timely(map[start := Live(LpId(0, 0), value)], start, ops)
    ensures var ps := [Period(start, ULONG_MAX, value, LpId(0, 0), [])];
            && Legal(ps, ops) && Legal(ps, Uncollected(ops))
            && Answers(ps, ops) == Answers(ps, Uncollected(ops))
            && Run(ps, ops) != []
            && forall u | u >= LastGvt(start, ops) ::
                 ValueAt(Run(ps, ops), u) == ValueAt(Run(ps, Uncollected(ops)), u) != None
  {
    var ps := [Period(start, ULONG_MAX, value, LpId(0, 0), [])];
    var m := map[start := Live(LpId(0, 0), value)];
    assert Link(ps, 0);
    assert ps[0].start == start && HasStart(ps, start);
    CollectionInvisible([], ps, m, ps, m, start, ops);
    assert [] + ps == ps;
    assert ValueAt(Run(ps, ops), LastGvt(start, ops)) != None;
  }

  /** Why a write at the collection time must not be by a lesser agent: the moved base takes part
      in the tie-break there, so a write that would have been accepted is refused exactly when
      the base's agent is greater. */
  lemma {:induction false} CollectThenWrite(ps: seq<Period>, gvt: nat, agent: LpId, t: nat)
    requires WellKept(ps) && Find(ps, gvt) >= 0 && gvt <= t < LONG_MAX
    ensures WriteAccepted(Collect(ps, gvt), agent, t) <==>
            WriteAccepted(ps, agent, t) && !(t == gvt && IdGreater(ps[Find(ps, gvt)].agent, agent))
  {
    var c := CollectTail(ps, gvt);
    TailAccepts(ps, gvt, c, Collect(ps, gvt), agent, t);
  }

  /** So at the collection time too, a write leaves the values it would have left without the
      collection, unless it is so refused and would have changed the value. */
  lemma {:induction false} CollectThenWriteValue(ps: seq<Period>, gvt: nat, agent: LpId, value: Value, t: nat)
    requires WellKept(ps) && Find(ps, gvt) >= 0 && gvt <= t < LONG_MAX
    ensures (forall u | u >= gvt ::
               ValueAt(Write(Collect(ps, gvt), agent, value, t), u) == ValueAt(Write(ps, agent, value, t), u))
            <==> (WriteAccepted(ps, agent, t) && t == gvt && IdGreater(ps[Find(ps, gvt)].agent, agent)
                  ==> ValueAt(ps, t) == Some(value))
  {
    var qs := Collect(ps, gvt);
    CollectThenWrite(ps, gvt, agent, t);
    CollectKeeps(ps, gvt);
    forall u | u >= gvt
      ensures ValueAt(qs, u) == ValueAt(ps, u)
      ensures ValueAt(Write(qs, agent, value, t), u) ==
              if WriteAccepted(qs, agent, t) && Reaches(ps, t, u) then Some(value) else ValueAt(ps, u)
      ensures ValueAt(Write(ps, agent, value, t), u) ==
              if WriteAccepted(ps, agent, t) && Reaches(ps, t, u) then Some(value) else ValueAt(ps, u)
      ensures Reaches(ps, t, u) ==> ValueAt(ps, u) == ValueAt(ps, t)
    {
      CollectReaches(ps, gvt, t, u);
      WriteValue(qs, agent, value, t, u);
      WriteValue(ps, agent, value, t, u);
      if Reaches(ps, t, u) { FindIs(ps, u, Find(ps, t)); }
    }
    assert Reaches(ps, t, t);
  }

  lemma {:induction false} CollectReaches(ps: seq<Period>, gvt: nat, t: nat, u: nat)
    requires WellKept(ps) && Find(ps, gvt) >= 0 && gvt <= t < LONG_MAX
    ensures Reaches(Collect(ps, gvt), t, u) <==> Reaches(ps, t, u)
  {
    var qs, i := Collect(ps, gvt), Find(ps, gvt);
    var c := CollectTail(ps, gvt);
    forall j | 0 <= j < |qs| && qs[j].start > t
      ensures j + c < |ps| && ps[j + c].start == qs[j].start
    {
      assert j > i - c;
    }
    forall j | 0 <= j < |ps| && ps[j].start > t
      ensures c <= j && qs[j - c].start == ps[j].start
    {
      assert j > i;
    }
  }

  /** Such a list: agent 3's base is moved from 0 to 5, and agent 2's write at 5 now loses. */
  lemma {:induction false} CollectedBaseRefuses()
    ensures var ps := Write([], LpId(3, 3), IntValue(1), 0);
            WellKept(ps) && WriteAccepted(ps, LpId(2, 2), 5) && !WriteAccepted(Collect(ps, 5), LpId(2, 2), 5)
  {
    var ps := Write([], LpId(3, 3), IntValue(1), 0);
    assert Find(ps, 5) == 0;
    CollectThenWrite(ps, 5, LpId(2, 2), 5);
  }

  lemma {:induction false} TailAccepts(ps: seq<Period>, gvt: nat, c: nat, qs: seq<Period>, agent: LpId, t: nat)
    requires Find(ps, gvt) >= 0 && IsTail(ps, gvt, c, qs) && t >= gvt
    ensures WriteAccepted(qs, agent, t) <==>
            WriteAccepted(ps, agent, t) && !(t == gvt && IdGreater(ps[Find(ps, gvt)].agent, agent))
  {
    TailFind(ps, gvt, c, qs, t);
  }
}
