/** The canonical reading of a period list: the writes that are live, by time. */
module LiveWrites {
  import opened Base
  import opened Periods
  import opened PeriodLaws

  // Out-of-order writes and their undoing are, on this reading, plain map updates.

  datatype Live = Live(agent: LpId, value: Value)

  predicate HasStart(ps: seq<Period>, t: nat)
  {
    exists i | 0 <= i < |ps| :: ps[i].start == t
  }

  /** ps holds exactly the writes of m, one period each. */
  ghost predicate Holds(ps: seq<Period>, m: map<nat, Live>)
  {
    && Distinct(ps)
    && (forall i | 0 <= i < |ps| :: ps[i].start in m && m[ps[i].start] == Live(ps[i].agent, ps[i].value))
    && (forall t {:trigger HasStart(ps, t)} | t in m :: HasStart(ps, t))
  }

  /** k is the latest live write at or before u. */
  ghost predicate IsLatest(m: map<nat, Live>, u: nat, k: nat)
  {
    k in m && k <= u && forall j | j in m && j <= u :: j <= k
  }

  /** Every list without two equal starts holds one map of writes. */
  lemma {:induction false} HoldsSome(ps: seq<Period>) returns (m: map<nat, Live>)
    requires Distinct(ps)
    ensures Holds(ps, m)
  {
    if ps == [] { return map[]; }
    var n := |ps| - 1;
    var m0 := HoldsSome(ps[..n]);
    m := m0[ps[n].start := Live(ps[n].agent, ps[n].value)];
    forall i | 0 <= i < n
      ensures ps[i].start in m && m[ps[i].start] == Live(ps[i].agent, ps[i].value)
    {
      assert ps[..n][i] == ps[i];
    }
    forall t | t in m
      ensures HasStart(ps, t)
    {
      if t in m0 {
        assert HasStart(ps[..n], t);
        var i :| 0 <= i < n && ps[..n][i].start == t;
        assert ps[i].start == t;
      }
    }
  }

  lemma {:induction false} EmptyHolds(ps: seq<Period>, m: map<nat, Live>)
    requires Holds(ps, m)
    ensures ps == [] <==> m == map[]
  {
    if ps == [] {
      assert forall t | t in m :: HasStart(ps, t);
    } else {
      assert ps[0].start in m;
    }
  }

  lemma {:induction false} NewTime(ps: seq<Period>, m: map<nat, Live>, t: nat)
    requires Holds(ps, m)
    ensures t !in m <==> forall i | 0 <= i < |ps| :: ps[i].start != t
  {
    if t in m { assert HasStart(ps, t); }
  }

  /** A write at a new time, behind the base, adds one entry. */
  lemma {:induction false} WriteHolds(ps: seq<Period>, m: map<nat, Live>, agent: LpId, value: Value, t: nat)
    requires Holds(ps, m) && t !in m
    requires ps == [] || ps[0].start <= t
    ensures WriteAccepted(ps, agent, t)
    ensures Holds(Write(ps, agent, value, t), m[t := Live(agent, value)])
  {
    NewTime(ps, m, t);
    if ps == [] {
      EmptyHolds(ps, m);
      assert Write(ps, agent, value, t)[0].start == t;
    } else {
      assert Find(ps, t) >= 0;
      WriteSplices(ps, agent, value, t);
      SplicedHolds(ps, m, Find(ps, t), Write(ps, agent, value, t), value, t);
    }
  }

  lemma {:induction false} SplicedHolds(ps: seq<Period>, m: map<nat, Live>, i: nat, qs: seq<Period>, value: Value, t: nat)
    requires Holds(ps, m) && Spliced(ps, i, qs, value, t) && t !in m
    ensures Holds(qs, m[t := Live(qs[i + 1].agent, value)])
  {
    assert ps[i].start in m;
    SplicedDistinct(ps, i, qs, value, t);
    var m' := m[t := Live(qs[i + 1].agent, value)];
    forall j | 0 <= j < |qs|
      ensures qs[j].start in m' && m'[qs[j].start] == Live(qs[j].agent, qs[j].value)
    {
      if j <= i {
        assert ps[j].start in m;
      } else if j > i + 1 {
        assert ps[j - 1].start in m;
      }
    }
    forall s | s in m || s == t
      ensures HasStart(qs, s)
    {
      if s == t {
        assert qs[i + 1].start == t;
      } else {
        assert HasStart(ps, s);
        var j :| 0 <= j < |ps| && ps[j].start == s;
        assert qs[if j <= i then j else j + 1].start == s;
      }
    }
  }

  lemma SplicedDistinct(ps: seq<Period>, i: nat, qs: seq<Period>, value: Value, t: nat)
    requires Distinct(ps) && Spliced(ps, i, qs, value, t) && ps[i].start != t
    ensures Distinct(qs)
  {
  }

  /** Whether an undo by agent at t takes effect. */
  predicate Takes(m: map<nat, Live>, agent: LpId, t: nat)
  {
    t in m && !IdNotEqual(m[t].agent, agent)
  }

  /** Undoing removes the entry, if it is the agent's own. */
  lemma {:induction false} UndoHolds(ps: seq<Period>, m: map<nat, Live>, agent: LpId, t: nat)
    requires Holds(ps, m)
    ensures Undoes(ps, agent, t) <==> Takes(m, agent, t)
    ensures Holds(Undo(ps, agent, t), if Takes(m, agent, t) then m - {t} else m)
  {
    NewTime(ps, m, t);
    if t in m {
      assert HasStart(ps, t);
      assert ps[FindStart(ps, t)].start == t;
    }
    if Undoes(ps, agent, t) {
      UndoRemoves(ps, agent, t);
      RemovedHolds(ps, m, FindStart(ps, t), Undo(ps, agent, t));
    }
  }

  lemma {:induction false} RemovedHolds(ps: seq<Period>, m: map<nat, Live>, i: nat, qs: seq<Period>)
    requires Holds(ps, m) && Removed(ps, i, qs)
    ensures Holds(qs, m - {ps[i].start})
  {
    forall j | 0 <= j < |qs|
      ensures qs[j].start == ps[if j < i then j else j + 1].start
    {
    }
    forall s | s in m && s != ps[i].start
      ensures HasStart(qs, s)
    {
      assert HasStart(ps, s);
      var j :| 0 <= j < |ps| && ps[j].start == s;
      assert qs[if j < i then j else j - 1].start == s;
    }
  }

  /** Recording or forgetting reads does not change what a list holds. */
  lemma {:induction false} SameSkeletonHolds(ps: seq<Period>, m: map<nat, Live>, qs: seq<Period>)
    requires Holds(ps, m) && |qs| == |ps|
    requires forall i | 0 <= i < |ps| :: qs[i] == ps[i].(readMap := qs[i].readMap)
    ensures Holds(qs, m)
  {
    forall t | t in m
      ensures HasStart(qs, t)
    {
      assert HasStart(ps, t);
      var j :| 0 <= j < |ps| && ps[j].start == t;
      assert qs[j].start == t;
    }
  }

  /** The value readable at u is that of the latest live write at or before u. */
  lemma {:induction false} ReadsLatest(ps: seq<Period>, m: map<nat, Live>, u: nat)
    requires Holds(ps, m)
    ensures ValueAt(ps, u).None? <==> forall k | k in m :: k > u
    ensures forall k | IsLatest(m, u, k) :: ValueAt(ps, u) == Some(m[k].value)
    ensures ValueAt(ps, u).Some? ==> IsLatest(m, u, ps[Find(ps, u)].start)
  {
    var i := Find(ps, u);
    forall k | k in m
      ensures k <= u ==> i >= 0 && k <= ps[i].start
    {
      assert HasStart(ps, k);
      var j :| 0 <= j < |ps| && ps[j].start == k;
    }
    if i >= 0 {
      assert ps[i].start in m;
    }
  }

  /** Equal live writes, equal values at every time. */
  lemma {:induction false} SameMapSameValue(ps: seq<Period>, qs: seq<Period>, m: map<nat, Live>, u: nat)
    requires Holds(ps, m) && Holds(qs, m)
    ensures ValueAt(ps, u) == ValueAt(qs, u)
  {
    ReadsLatest(ps, m, u);
    ReadsLatest(qs, m, u);
  }

  /** Two lists that differ at most in recorded reads and in how "no end" is written. */
  ghost predicate SameList(ps: seq<Period>, qs: seq<Period>)
  {
    |ps| == |qs| && forall i | 0 <= i < |ps| ::
      && ps[i].start == qs[i].start && ps[i].agent == qs[i].agent && ps[i].value == qs[i].value
      && (ps[i].end == qs[i].end || (i == |ps| - 1 && Infinite(ps[i].end) && Infinite(qs[i].end)))
  }

  /** The live writes determine the list: it is these writes sorted by time, chained. */
  lemma {:induction false} SameMapSameList(ps: seq<Period>, qs: seq<Period>, m: map<nat, Live>)
    requires WellKept(ps) && WellKept(qs) && Holds(ps, m) && Holds(qs, m)
    ensures SameList(ps, qs)
  {
    SameMapSameStarts(ps, qs, m);
    forall i | 0 <= i < |ps|
      ensures ps[i].end == qs[i].end || (i == |ps| - 1 && Infinite(ps[i].end) && Infinite(qs[i].end))
    {
      assert Link(ps, i) && Link(qs, i);
    }
  }

  lemma {:induction false} SameMapSameStarts(ps: seq<Period>, qs: seq<Period>, m: map<nat, Live>)
    requires Holds(ps, m) && Holds(qs, m)
    ensures |ps| == |qs| && forall i | 0 <= i < |ps| :: ps[i].start == qs[i].start
    decreases |ps|
  {
    EmptyHolds(ps, m);
    EmptyHolds(qs, m);
    if ps != [] && qs != [] {
      var s, t := ps[|ps| - 1].start, qs[|qs| - 1].start;
      LastIsGreatest(ps, m, t);
      LastIsGreatest(qs, m, s);
      DropLastHolds(ps, m);
      DropLastHolds(qs, m);
      SameMapSameStarts(ps[..|ps| - 1], qs[..|qs| - 1], m - {s});
    }
  }

  lemma {:induction false} LastIsGreatest(ps: seq<Period>, m: map<nat, Live>, t: nat)
    requires Holds(ps, m) && ps != [] && t in m
    ensures t <= ps[|ps| - 1].start
  {
    assert HasStart(ps, t);
    var j :| 0 <= j < |ps| && ps[j].start == t;
  }

  lemma {:induction false} DropLastHolds(ps: seq<Period>, m: map<nat, Live>)
    requires Holds(ps, m) && ps != []
    ensures Holds(ps[..|ps| - 1], m - {ps[|ps| - 1].start})
  {
    var n := |ps| - 1;
    var qs := ps[..n];
    assert forall j | 0 <= j < n :: qs[j] == ps[j];
    forall t | t in m && t != ps[n].start
      ensures HasStart(qs, t)
    {
      assert HasStart(ps, t);
      var j :| 0 <= j < |ps| && ps[j].start == t;
      assert qs[j].start == t;
    }
  }
}
