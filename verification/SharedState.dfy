/** The variables of one CLP (src/state/SharedState.cpp) and the three steps by which one
    leaves it and arrives at another: copy, empty, replay. */
module SharedState {
  import opened Base
  import opened Periods
  import opened PeriodLaws
  import opened LiveWrites
  import opened History
  import opened StateVariable

  // ---- emptying and replaying, as functions ----

  /** Undo every write of list, front to back. */
  function UndoAll(ps: seq<Period>, list: seq<Period>): seq<Period>
    decreases |list|
  {
    if list == [] then ps else UndoAll(Undo(ps, list[0].agent, list[0].start), list[1..])
  }

  function UndoAllRollbacks(ps: seq<Period>, list: seq<Period>, m: Rollbacks): Rollbacks
    decreases |list|
  {
    if list == [] then m
    else UndoAllRollbacks(Undo(ps, list[0].agent, list[0].start), list[1..],
                          UndoRollbacks(ps, list[0].agent, list[0].start, m))
  }

  /** Make every write of list again, front to back. */
  function Replay(ps: seq<Period>, list: seq<Period>): seq<Period>
    decreases |list|
  {
    if list == [] then ps else Replay(Write(ps, list[0].agent, list[0].value, list[0].start), list[1..])
  }

  function ReplayRollbacks(ps: seq<Period>, list: seq<Period>, m: Rollbacks): Rollbacks
    decreases |list|
  {
    if list == [] then m
    else ReplayRollbacks(Write(ps, list[0].agent, list[0].value, list[0].start), list[1..],
                         WriteRollbacks(ps, list[0].agent, list[0].start, m))
  }

  /** What is left of list to be written again, from i on, leads to this end. */
  ghost predicate ToReplay(ps: seq<Period>, m: Rollbacks, list: seq<Period>, i: nat, end: seq<Period>, all: Rollbacks)
    requires i <= |list|
  {
    Replay(ps, list[i..]) == end && ReplayRollbacks(ps, list[i..], m) == all
  }

  ghost predicate ToUndo(ps: seq<Period>, m: Rollbacks, list: seq<Period>, i: nat, end: seq<Period>, all: Rollbacks)
    requires i <= |list|
  {
    UndoAll(ps, list[i..]) == end && UndoAllRollbacks(ps, list[i..], m) == all
  }

  /** Every variable of before but those of rest has been collected. */
  ghost predicate CollectedBut(before: map<nat, seq<Period>>, now: map<nat, seq<Period>>, rest: set<nat>, t: nat)
  {
    && now.Keys == before.Keys
    && forall id | id in now :: now[id] == if id in rest then before[id] else Collect(before[id], t)
  }

  lemma NextCollected(before: map<nat, seq<Period>>, now: map<nat, seq<Period>>, rest: set<nat>, t: nat, id: nat)
    requires CollectedBut(before, now, rest, t) && id in rest && id in now
    ensures CollectedBut(before, now[id := Collect(now[id], t)], rest - {id}, t)
  {
  }

  // ---- the class ----

  class SharedState {
    var vars: map<nat, StateVariable>
    /** The contents of every variable held here. */
    ghost var store: map<nat, seq<Period>>
    ghost var variables: set<StateVariable>
    ghost var periods: set<WritePeriod>

    /** Different variables share no objects. */
    ghost predicate Valid()
      reads this, variables, periods
    {
      && store.Keys == vars.Keys
      && (forall id | id in vars :: Holds(id))
      && (forall v, w | v in variables && w in variables && v != w :: v.owned !! w.owned)
      && (forall v | v in variables :: v.owned <= periods)
    }

    ghost predicate Holds(id: nat)
      requires id in vars && id in store
      reads this, variables, periods
    {
      && vars[id] in variables && vars[id].owned <= periods && vars[id].id == id
      && vars[id].Valid() && vars[id].contents == store[id]
    }

    constructor ()
      ensures vars == map[] && store == map[] && Valid()
    {
      vars, store, variables, periods := map[], map[], {}, {};
    }

    /** Rebuilds a variable from a copy; the source exits if it is already here. */
    method Insert(id: nat, copy: seq<Period>, rollbackList: RollbackList)
      requires Valid() && id !in vars
      modifies this, rollbackList
      ensures Valid() && fresh(variables - old(variables)) && fresh(periods - old(periods))
      ensures store == old(store)[id := Replay([], copy)]
      ensures rollbackList.list == ReplayRollbacks([], copy, old(rollbackList.list))
    {
      var variable := Rebuild(id, copy, rollbackList);
      Adopt(id, variable);
    }

    method Adopt(id: nat, variable: StateVariable)
      requires Valid() && id !in vars
      requires variable.id == id && variable.Valid() && variable !in variables && variable.owned !! periods
      modifies this
      ensures Valid() && store == old(store)[id := variable.contents]
      ensures variables == old(variables) + {variable} && periods == old(periods) + variable.owned
    {
      vars, store := vars[id := variable], store[id := variable.contents];
      variables, periods := variables + {variable}, periods + variable.owned;
      forall k | k in vars && k != id
        ensures Holds(k)
      {
        assert old(Holds(k));
      }
    }

    method Rebuild(id: nat, copy: seq<Period>, rollbackList: RollbackList) returns (variable: StateVariable)
      modifies rollbackList
      ensures variable.id == id && fresh(variable) && variable.Valid() && fresh(variable.owned)
      ensures variable.contents == Replay([], copy)
      ensures rollbackList.list == ReplayRollbacks([], copy, old(rollbackList.list))
    {
      variable := new StateVariable(id);
      ghost var end, all := Replay([], copy), ReplayRollbacks([], copy, rollbackList.list);
      assert copy[0..] == copy;
      var i: nat := 0;
      while i < |copy|
        invariant i <= |copy| && fresh(variable) && variable.Valid()
        invariant fresh(variable.owned)
        invariant ToReplay(variable.contents, rollbackList.list, copy, i, end, all)
      {
        var status := variable.WriteWithRollback(copy[i].agent, copy[i].value, copy[i].start, rollbackList);
        i := i + 1;
      }
    }

    /** Changing one variable and its own periods leaves the others as they were. */
    twostate lemma {:induction false} OthersKept(id: nat)
      requires old(Valid()) && id in vars && vars == old(vars) && variables == old(variables)
      requires old(periods) <= periods && store.Keys == old(store).Keys
      requires forall k | k in vars && k != id :: store[k] == old(store)[k]
      requires forall v | v in variables && v != vars[id] :: unchanged(v)
      requires forall p | p in old(periods) && p !in old(vars[id].owned) :: unchanged(p)
      requires forall p | p in vars[id].owned :: p in old(vars[id].owned) || fresh(p)
      requires Holds(id)
      ensures Valid()
    {
      forall other | other in vars && other != id
        ensures Holds(other)
      {
        assert old(Holds(other)) && old(Holds(id));
        assert vars[other] != vars[id];
      }
    }

    /** The source exits if the variable is not here. */
    method GetCopy(id: nat) returns (copy: seq<Period>)
      requires Valid() && id in vars
      ensures copy == store[id]
    {
      assert Holds(id);
      copy := vars[id].Copy();
    }

    /** Takes back every write of a variable, whoever made it. */
    method RemoveWritePeriodList(id: nat, rollbackList: RollbackList)
      requires Valid() && id in vars
      modifies this`store, vars[id], vars[id].owned, rollbackList
      ensures Valid() && store == old(store)[id := UndoAll(old(store)[id], old(store)[id])]
      ensures rollbackList.list == UndoAllRollbacks(old(store)[id], old(store)[id], old(rollbackList.list))
    {
      assert Holds(id);
      Empty(vars[id], rollbackList);
      store := store[id := vars[id].contents];
      OthersKept(id);
    }

    method Empty(variable: StateVariable, rollbackList: RollbackList)
      requires variable.Valid()
      modifies variable, variable.owned, rollbackList
      ensures variable.Valid() && variable.owned == old(variable.owned)
      ensures variable.contents == UndoAll(old(variable.contents), old(variable.contents))
      ensures rollbackList.list ==
                UndoAllRollbacks(old(variable.contents), old(variable.contents), old(rollbackList.list))
    {
      var copy := variable.Copy();
      ghost var end, all := UndoAll(copy, copy), UndoAllRollbacks(copy, copy, rollbackList.list);
      assert copy[0..] == copy;
      var i: nat := 0;
      while i < |copy|
        invariant i <= |copy| && variable.Valid()
        invariant variable.owned == old(variable.owned)
        invariant ToUndo(variable.contents, rollbackList.list, copy, i, end, all)
      {
        variable.PerformWriteRollback(copy[i].agent, copy[i].start, rollbackList);
        i := i + 1;
      }
    }

    /** The source exits if the variable is not here, or no period covers the time. */
    method Read(id: nat, agent: LpId, t: nat) returns (v: Option<Value>)
      requires Valid() && id in vars
      modifies this`store, vars[id], vars[id].owned
      ensures Valid() && v == ValueAt(old(store)[id], t)
      ensures store == old(store)[id := if v.None? then old(store)[id] else Periods.Read(old(store)[id], agent, t)]
    {
      assert Holds(id);
      v := vars[id].Read(agent, t);
      store := store[id := vars[id].contents];
      OthersKept(id);
    }

    method RollbackRead(id: nat, agent: LpId, t: nat)
      requires Valid() && id in vars && Find(store[id], t) >= 0
      modifies this`store, vars[id], vars[id].owned
      ensures Valid() && store == old(store)[id := UndoRead(old(store)[id], agent, t)]
    {
      assert Holds(id);
      vars[id].PerformReadRollback(agent, t);
      store := store[id := vars[id].contents];
      OthersKept(id);
    }

    method WriteWithRollback(id: nat, agent: LpId, value: Value, t: nat, rollbackList: RollbackList)
      returns (status: WriteStatus)
      requires Valid() && id in vars
      modifies this`store, this`periods, vars[id], vars[id].owned, rollbackList
      ensures Valid() && fresh(periods - old(periods))
      ensures status.WriteSuccess? <==> WriteAccepted(old(store)[id], agent, t)
      ensures store == old(store)[id := Write(old(store)[id], agent, value, t)]
      ensures rollbackList.list == WriteRollbacks(old(store)[id], agent, t, old(rollbackList.list))
    {
      assert Holds(id);
      status := vars[id].WriteWithRollback(agent, value, t, rollbackList);
      store, periods := store[id := vars[id].contents], periods + vars[id].owned;
      OthersKept(id);
    }

    method RollbackWrite(id: nat, agent: LpId, t: nat, rollbackList: RollbackList)
      requires Valid() && id in vars
      modifies this`store, vars[id], vars[id].owned, rollbackList
      ensures Valid() && store == old(store)[id := Undo(old(store)[id], agent, t)]
      ensures rollbackList.list == UndoRollbacks(old(store)[id], agent, t, old(rollbackList.list))
    {
      assert Holds(id);
      vars[id].PerformWriteRollback(agent, t, rollbackList);
      store := store[id := vars[id].contents];
      OthersKept(id);
    }

    /** A new GVT: every variable drops what lies before it. */
    method RemoveWritePeriods(t: nat)
      requires Valid()
      modifies this`store, variables, periods
      ensures Valid() && CollectedBut(old(store), store, {}, t)
    {
      ghost var before := store;
      var rest := vars.Keys;
      while rest != {}
        invariant Valid() && rest <= vars.Keys && CollectedBut(before, store, rest, t)
        decreases rest
      {
        var id :| id in rest;
        assert Holds(id);
        NextCollected(before, store, rest, t, id);
        CollectOne(id, t);
        rest := rest - {id};
      }
    }

    method CollectOne(id: nat, t: nat)
      requires Valid() && id in vars
      modifies this`store, vars[id], vars[id].owned
      ensures Valid() && store == old(store)[id := Collect(old(store)[id], t)]
    {
      assert Holds(id);
      vars[id].RemoveWritePeriods(t);
      store := store[id := vars[id].contents];
      OthersKept(id);
    }

    /** The source exits if the variable is not here. */
    method Delete(id: nat)
      requires Valid() && id in vars
      modifies this`vars, this`store
      ensures Valid() && vars == old(vars) - {id} && store == old(store) - {id}
    {
      vars, store := vars - {id}, store - {id};
      forall k | k in vars
        ensures Holds(k)
      {
        assert old(Holds(k));
      }
    }
  }

  // ---- what migration does to a variable's history ----

  /** The period a replayed write ends up in: the same write, read by nobody, ending where
      the next one starts. */
  function Rebuilt(ps: seq<Period>, i: nat): Period
    requires i < |ps|
  {
    Period(ps[i].start, if i + 1 < |ps| then ps[i + 1].start else ULONG_MAX, ps[i].value, ps[i].agent, [])
  }

  function RebuiltList(ps: seq<Period>): (qs: seq<Period>)
    ensures |qs| == |ps| && forall i | 0 <= i < |ps| :: qs[i] == Rebuilt(ps, i)
  {
    seq(|ps|, i requires 0 <= i < |ps| => Rebuilt(ps, i))
  }

  /** Writing the next period of a well-kept list to the rebuilt ones before it appends it. */
  lemma {:induction false} ReplayAppends(ps: seq<Period>, k: nat, m: Rollbacks)
    requires WellKept(ps) && k < |ps|
    ensures WriteAccepted(RebuiltList(ps[..k]), ps[k].agent, ps[k].start)
    ensures Write(RebuiltList(ps[..k]), ps[k].agent, ps[k].value, ps[k].start) == RebuiltList(ps[..k + 1])
    ensures WriteRollbacks(RebuiltList(ps[..k]), ps[k].agent, ps[k].start, m) == m
  {
    var cur, next := RebuiltList(ps[..k]), RebuiltList(ps[..k + 1]);
    if k > 0 {
      assert Link(ps, k - 1);
      assert cur[k - 1].start == ps[k - 1].start && cur[k - 1].agent == ps[k - 1].agent;
      FindIs(cur, ps[k].start, k - 1);
      WriteSplices(cur, ps[k].agent, ps[k].value, ps[k].start);
    }
    var written := Write(cur, ps[k].agent, ps[k].value, ps[k].start);
    forall j | 0 <= j <= k
      ensures written[j] == next[j]
    {
      if j < k - 1 {
        assert written[j] == cur[j];
      }
    }
  }

  lemma {:induction false} ReplayRebuilds(ps: seq<Period>, k: nat, m: Rollbacks)
    requires WellKept(ps) && k <= |ps|
    ensures ToReplay(RebuiltList(ps[..k]), m, ps, k, RebuiltList(ps), m)
    decreases |ps| - k
  {
    if k == |ps| {
      assert ps[..k] == ps && ps[k..] == [];
    } else {
      ReplayAppends(ps, k, m);
      ReplayRebuilds(ps, k + 1, m);
      ReplayGoesOn(RebuiltList(ps[..k]), m, ps, k, RebuiltList(ps[..k + 1]), RebuiltList(ps));
    }
  }

  lemma {:induction false} ReplayGoesOn(cur: seq<Period>, m: Rollbacks, ps: seq<Period>, k: nat, next: seq<Period>, end: seq<Period>)
    requires k < |ps| && Write(cur, ps[k].agent, ps[k].value, ps[k].start) == next
    requires WriteRollbacks(cur, ps[k].agent, ps[k].start, m) == m && ToReplay(next, m, ps, k + 1, end, m)
    ensures ToReplay(cur, m, ps, k, end, m)
  {
    assert ps[k..][0] == ps[k] && ps[k..][1..] == ps[k + 1..];
  }

  /** Migration preserves history: replaying a copy gives the same writes, and so the same
      value at every time, asks nobody to roll back, and forgets all recorded reads. */
  lemma {:induction false} ReplayPreserves(ps: seq<Period>, m: Rollbacks)
    requires WellKept(ps)
    ensures WellKept(Replay([], ps)) && SameList(ps, Replay([], ps))
    ensures forall u :: ValueAt(Replay([], ps), u) == ValueAt(ps, u)
    ensures forall i | 0 <= i < |ps| :: Replay([], ps)[i].readMap == []
    ensures ReplayRollbacks([], ps, m) == m
  {
    var qs := RebuiltList(ps);
    assert RebuiltList(ps[..0]) == [] && ps[0..] == ps;
    ReplayRebuilds(ps, 0, m);
    forall i | 0 <= i < |ps|
      ensures Link(qs, i)
      ensures ps[i].end == qs[i].end || (i == |ps| - 1 && Infinite(ps[i].end) && Infinite(qs[i].end))
    {
      assert Link(ps, i);
    }
    forall u
      ensures ValueAt(qs, u) == ValueAt(ps, u)
    {
      FindIs(qs, u, Find(ps, u));
    }
  }

  /** Emptying takes the writes off the front one by one. */
  lemma {:induction false} UndoAllEmpties(ps: seq<Period>, m: Rollbacks)
    ensures UndoAll(ps, ps) == []
    ensures UndoAllRollbacks(ps, ps, m) == ReportAll(m, ps)
    decreases |ps|
  {
    if ps != [] {
      UndoAllEmpties(ps[1..], AddAllAt(m, ps[0].readMap, ps[0].start));
    }
  }

  /** Every read of every period, at the start of its period. */
  function ReportAll(m: Rollbacks, ps: seq<Period>): Rollbacks
    decreases |ps|
  {
    if ps == [] then m else ReportAll(AddAllAt(m, ps[0].readMap, ps[0].start), ps[1..])
  }

  predicate ReadBy(ps: seq<Period>, a: LpId, i: nat)
    requires i < |ps|
  {
    exists r | r in ps[i].readMap :: r.agent == a
  }

  predicate ReadBySome(ps: seq<Period>, a: LpId)
  {
    exists i | 0 <= i < |ps| :: ReadBy(ps, a, i)
  }

  lemma {:induction false} ReportAllMeans(m: Rollbacks, ps: seq<Period>)
    requires forall a, i | a in m && 0 <= i < |ps| :: m[a] <= ps[i].start
    requires Sorted(ps)
    ensures forall a :: a in ReportAll(m, ps) <==> a in m || ReadBySome(ps, a)
    ensures forall a | a in m :: ReportAll(m, ps)[a] == m[a]
    ensures forall a, i | 0 <= i < |ps| && ReadBy(ps, a, i) ::
              a in ReportAll(m, ps) && ReportAll(m, ps)[a] <= ps[i].start
    ensures forall a | a in ReportAll(m, ps) && a !in m ::
              exists i | 0 <= i < |ps| :: ReadBy(ps, a, i) && ReportAll(m, ps)[a] == ps[i].start
    decreases |ps|
  {
    if ps != [] {
      var m' := AddAllAt(m, ps[0].readMap, ps[0].start);
      AddAllAtReports(m, ps[0].readMap, ps[0].start);
      var tail := ps[1..];
      assert forall i | 0 <= i < |tail| :: tail[i] == ps[i + 1];
      ReportAllMeans(m', tail);
      forall a, i | 0 <= i < |ps| && ReadBy(ps, a, i)
        ensures a in ReportAll(m, ps) && ReportAll(m, ps)[a] <= ps[i].start
      {
        if i > 0 { assert ReadBy(tail, a, i - 1); }
      }
      forall a | a in ReportAll(m, ps) && a !in m
        ensures exists i | 0 <= i < |ps| :: ReadBy(ps, a, i) && ReportAll(m, ps)[a] == ps[i].start
      {
        if a in m' {
          assert ReadBy(ps, a, 0);
        } else {
          var i :| 0 <= i < |tail| && ReadBy(tail, a, i) && ReportAll(m', tail)[a] == tail[i].start;
          assert ReadBy(ps, a, i + 1);
        }
      }
    }
  }

  /** Emptying a variable before it leaves reports every dropped read: exactly the reading
      agents are listed, each at the start of the first period it read. */
  lemma {:induction false} EmptyingReports(ps: seq<Period>, m: Rollbacks)
    requires WellKept(ps) && m == UndoAllRollbacks(ps, ps, map[])
    ensures UndoAll(ps, ps) == []
    ensures forall a :: a in m <==> ReadBySome(ps, a)
    ensures forall i, r | 0 <= i < |ps| && r in ps[i].readMap :: r.agent in m && m[r.agent] <= r.time
  {
    UndoAllEmpties(ps, map[]);
    ReportCovers(ps, m);
  }

  lemma {:induction false} ReportCovers(ps: seq<Period>, m: Rollbacks)
    requires WellKept(ps) && m == ReportAll(map[], ps)
    ensures forall a :: a in m <==> ReadBySome(ps, a)
    ensures forall i, r | 0 <= i < |ps| && r in ps[i].readMap :: r.agent in m && m[r.agent] <= r.time
  {
    ReportAllMeans(map[], ps);
    forall i, r | 0 <= i < |ps| && r in ps[i].readMap
      ensures r.agent in m && m[r.agent] <= r.time
    {
      assert ReadBy(ps, r.agent, i) && Link(ps, i);
    }
  }

  /** Where the earliest time of a listed agent comes from. */
  lemma {:induction false} FirstReader(ps: seq<Period>, m: Rollbacks, a: LpId) returns (f: nat)
    requires WellKept(ps) && m == UndoAllRollbacks(ps, ps, map[]) && a in m
    ensures f < |ps| && ReadBy(ps, a, f) && m[a] == ps[f].start
    ensures forall i {:trigger ReadBy(ps, a, i)} | 0 <= i < |ps| && ReadBy(ps, a, i) :: ps[f].start <= ps[i].start
  {
    UndoAllEmpties(ps, map[]);
    ReportAllMeans(map[], ps);
    f :| 0 <= f < |ps| && ReadBy(ps, a, f) && m[a] == ps[f].start;
  }

  /** Every recorded read by a is at or after t. */
  ghost predicate AllReadsFrom(ps: seq<Period>, a: LpId, t: nat)
  {
    forall i {:trigger ReadBy(ps, a, i)} | 0 <= i < |ps| && ReadBy(ps, a, i) ::
      forall r | r in ps[i].readMap && r.agent == a :: r.time >= t
  }

  /** A read by a at the very start of period i, before whose start it read nothing. */
  ghost predicate ReadAtFirstStart(ps: seq<Period>, a: LpId, i: nat)
    requires i < |ps|
  {
    && ReadRecord(a, ps[i].start) in ps[i].readMap
    && forall j {:trigger ReadBy(ps, a, j)} | 0 <= j < |ps| && ReadBy(ps, a, j) :: ps[j].start >= ps[i].start
  }

  /** But the message sent after a migration names one tick later than the list does, and
      an ALP rolls back reads at or after the time named: all dropped reads of an agent are
      rolled back if and only if none was made at the very start of the first period that
      agent read. */
  lemma {:induction false} MigrationRollbackCoversIff(ps: seq<Period>, m: Rollbacks, a: LpId)
    requires WellKept(ps) && m == UndoAllRollbacks(ps, ps, map[]) && a in m
    ensures AllReadsFrom(ps, a, m[a] + 1) <==> forall i | 0 <= i < |ps| :: !ReadAtFirstStart(ps, a, i)
  {
    var f := FirstReader(ps, m, a);
    CoversIff(ps, a, f);
  }

  /** Such a list: agent 3 read at 5, where agent 2's write starts; it is told to go back to 6. */
  lemma {:induction false} MigrationRollbackMisses()
    ensures var reader := LpId(3, 3);
            var ps := Read(Write([], LpId(2, 2), IntValue(1), 5), reader, 5);
            var m := UndoAllRollbacks(ps, ps, map[]);
            WellKept(ps) && reader in m && m[reader] + 1 == 6 && !AllReadsFrom(ps, reader, m[reader] + 1)
  {
    var reader, r := LpId(3, 3), ReadRecord(LpId(3, 3), 5);
    var empty := [Period(5, ULONG_MAX, IntValue(1), LpId(2, 2), [])];
    assert InsertRead([], r) == [r];
    var ps := Read(empty, reader, 5);
    assert ps == [Period(5, ULONG_MAX, IntValue(1), LpId(2, 2), [r])];
    assert ps[1..] == [] && Link(ps, 0);
    assert AddAllAt(map[], [r], 5) == AddAllAt(AddLp(map[], reader, 5), [], 5);
    assert UndoAllRollbacks(ps, ps, map[]) == map[reader := 5];
    assert r in ps[0].readMap && ReadBy(ps, reader, 0);
  }

  lemma {:induction false} CoversIff(ps: seq<Period>, a: LpId, f: nat)
    requires WellKept(ps) && f < |ps| && ReadBy(ps, a, f)
    requires forall i {:trigger ReadBy(ps, a, i)} | 0 <= i < |ps| && ReadBy(ps, a, i) :: ps[f].start <= ps[i].start
    ensures AllReadsFrom(ps, a, ps[f].start + 1) <==> forall i | 0 <= i < |ps| :: !ReadAtFirstStart(ps, a, i)
  {
    forall i, r | 0 <= i < |ps| && r in ps[i].readMap && r.agent == a && r.time <= ps[f].start
      ensures ReadAtFirstStart(ps, a, i)
    {
      assert ReadBy(ps, a, i) && Link(ps, i);
      assert r == ReadRecord(a, ps[i].start);
    }
    forall i | 0 <= i < |ps| && ReadAtFirstStart(ps, a, i)
      ensures ReadBy(ps, a, i) && ps[i].start <= ps[f].start
    {
      assert ReadRecord(a, ps[i].start).agent == a;
    }
  }
}
