/** The two migration handlers of a CLP (src/lp/Clp.cpp), editing its shared state and its
    route table in place. */
module MigrationHandler {
  import opened Base
  import opened Periods
  import opened StateVariable
  import opened SharedState
  import RouteTable
  import Migration

  function MigrationTag(v: nat, now: nat): Tag
  {
    Tag(v, ULONG_MAX, ROLLBACK_BY_SM, now)
  }

  class Clp {
    const sharedState: SharedState
    const routeTable: RouteTable.RouteTable

    constructor (sharedState: SharedState, routeTable: RouteTable.RouteTable)
      ensures this.sharedState == sharedState && this.routeTable == routeTable
    {
      this.sharedState, this.routeTable := sharedState, routeTable;
    }

    ghost predicate Valid()
      reads this, sharedState, sharedState.variables, sharedState.periods
    {
      sharedState.Valid()
    }

    ghost function View(): Migration.Clp
      reads this, sharedState, routeTable
    {
      Migration.Clp(sharedState.store, routeTable.varToDir)
    }

    /** One round of the inner loop: copy, repoint, empty, delete, and the rollbacks that
        asks for. */
    method MoveOut(v: nat, d: Direction, now: nat) returns (copy: seq<Period>, sent: seq<RollbackMessage>)
      requires Valid() && v in sharedState.vars
      modifies sharedState`vars, sharedState`store, sharedState.variables, sharedState.periods, routeTable`varToDir
      ensures Valid()
      ensures copy == old(sharedState.store)[v]
      ensures View() == Migration.Clp(old(sharedState.store) - {v}, old(routeTable.varToDir)[v := d])
      ensures Tells(sent, UndoAllRollbacks(copy, copy, map[]), 1, MigrationTag(v, now))
    {
      copy := sharedState.GetCopy(v);
      routeTable.SetSsvIdHost(v, d);
      sent := Evict(v, now);
    }

    method Evict(v: nat, now: nat) returns (sent: seq<RollbackMessage>)
      requires Valid() && v in sharedState.vars
      modifies sharedState`vars, sharedState`store, sharedState.variables, sharedState.periods
      ensures Valid() && sharedState.store == old(sharedState.store) - {v}
      ensures Tells(sent, UndoAllRollbacks(old(sharedState.store)[v], old(sharedState.store)[v], map[]), 1, MigrationTag(v, now))
    {
      var rollbackList := new RollbackList();
      Erase(v, rollbackList);
      sent := rollbackList.SendRollbacks(1, MigrationTag(v, now));
    }

    method Erase(v: nat, rollbackList: RollbackList)
      requires Valid() && v in sharedState.vars
      modifies sharedState`vars, sharedState`store, sharedState.variables, sharedState.periods, rollbackList
      ensures Valid() && sharedState.store == old(sharedState.store) - {v}
      ensures rollbackList.list ==
                UndoAllRollbacks(old(sharedState.store)[v], old(sharedState.store)[v], old(rollbackList.list))
    {
      assert sharedState.Holds(v);
      sharedState.RemoveWritePeriodList(v, rollbackList);
      UpdatedThenErased(old(sharedState.store), v, sharedState.store[v]);
      sharedState.Delete(v);
    }

    /** MigrateStateVariables, for one direction: the listed variables leave in one message,
        and each one's readers are told to roll back. clock is what the tags read off it. */
    method MigrateTo(d: Direction, vs: seq<nat>, clock: nat -> nat)
      returns (payload: map<nat, seq<Period>>, sent: map<nat, seq<RollbackMessage>>)
      requires Valid() && (forall v | v in vs :: v in View().store)
      requires forall i, j | 0 <= i < j < |vs| :: vs[i] != vs[j]
      modifies sharedState`vars, sharedState`store, sharedState.variables, sharedState.periods, routeTable`varToDir
      ensures Valid() && View() == Migration.Emigrated(old(View()), d, vs)
      ensures payload == Migration.Payload(old(View()), vs)
      ensures Told(old(View()), vs, sent, clock)
    {
      payload, sent := map[], map[];
      ghost var before := View();
      NobodyLeft(before, d, vs);
      var i: nat := 0;
      while i < |vs|
        invariant i <= |vs| && Valid() && Leaving(before, View(), d, vs, i, payload)
        invariant Told(before, vs[..i], sent, clock)
      {
        payload, sent := MoveNext(d, vs, i, clock, payload, sent, before);
        i := i + 1;
      }
      assert vs[..i] == vs;
    }

    method MoveNext(d: Direction, vs: seq<nat>, i: nat, clock: nat -> nat, left: map<nat, seq<Period>>,
                    told: map<nat, seq<RollbackMessage>>, ghost before: Migration.Clp)
      returns (payload: map<nat, seq<Period>>, sent: map<nat, seq<RollbackMessage>>)
      requires Valid() && i < |vs| && (forall v | v in vs :: v in before.store)
      requires forall i, j | 0 <= i < j < |vs| :: vs[i] != vs[j]
      requires Leaving(before, View(), d, vs, i, left) && Told(before, vs[..i], told, clock)
      modifies sharedState`vars, sharedState`store, sharedState.variables, sharedState.periods, routeTable`varToDir
      ensures Valid() && Leaving(before, View(), d, vs, i + 1, payload) && Told(before, vs[..i + 1], sent, clock)
    {
      NextLeaves(before, View(), d, vs, i, left);
      var copy, some := MoveOut(vs[i], d, clock(vs[i]));
      TellNext(before, vs, i, told, clock, some);
      payload, sent := left[vs[i] := copy], told[vs[i] := some];
    }

    /** ProcessMessage for a StateMigrationMessage: every variable of the message is rebuilt
        here. The source exits if one of them is already here. */
    method ProcessStateMigration(payload: map<nat, seq<Period>>, clock: nat -> nat)
      returns (sent: map<nat, seq<RollbackMessage>>)
      requires Valid() && forall v | v in payload :: v !in View().store
      modifies sharedState, routeTable`varToDir
      ensures Valid() && View() == Migration.Immigrated(old(View()), payload)
      ensures ToldThere(payload, sent, clock)
    {
      sent := map[];
      ghost var before, there: map<nat, seq<Period>> := View(), map[];
      var rest := payload;
      while rest != map[]
        invariant Valid() && View() == Migration.Immigrated(before, there)
        invariant Parts(payload, there, rest)
        invariant ToldThere(there, sent, clock)
        decreases rest.Keys
      {
        var v :| v in rest;
        var some := MoveIn(v, payload[v], clock(v), before, there);
        sent, there := sent[v := some], there[v := payload[v]];
        rest := rest - {v};
      }
      PartsDone(payload, there);
    }

    method MoveIn(v: nat, copy: seq<Period>, now: nat, ghost before: Migration.Clp, ghost there: map<nat, seq<Period>>)
      returns (sent: seq<RollbackMessage>)
      requires Valid() && v !in before.store && v !in there && View() == Migration.Immigrated(before, there)
      modifies sharedState, routeTable`varToDir
      ensures Valid() && View() == Migration.Immigrated(before, there[v := copy])
      ensures Tells(sent, ReplayRollbacks([], copy, map[]), 0, MigrationTag(v, now))
    {
      NextArrives(before, there, v, copy);
      routeTable.SetSsvIdHost(v, Here);
      sent := Rebuild(v, copy, now);
    }

    method Rebuild(v: nat, copy: seq<Period>, now: nat) returns (sent: seq<RollbackMessage>)
      requires Valid() && v !in sharedState.store
      modifies sharedState
      ensures Valid() && sharedState.store == old(sharedState.store)[v := Replay([], copy)]
      ensures Tells(sent, ReplayRollbacks([], copy, map[]), 0, MigrationTag(v, now))
    {
      var rollbackList := new RollbackList();
      sharedState.Insert(v, copy, rollbackList);
      sent := rollbackList.SendRollbacks(0, MigrationTag(v, now));
    }
  }

  ghost predicate Parts(payload: map<nat, seq<Period>>, there: map<nat, seq<Period>>, rest: map<nat, seq<Period>>)
  {
    && (forall v :: v in payload <==> v in there || v in rest)
    && (forall v | v in there :: v !in rest && there[v] == payload[v])
  }

  lemma PartsDone(payload: map<nat, seq<Period>>, there: map<nat, seq<Period>>)
    requires Parts(payload, there, map[])
    ensures there == payload
  {
  }

  /** Rebuilding asks for rollbacks in its own right. */
  ghost predicate ToldThere(there: map<nat, seq<Period>>, sent: map<nat, seq<RollbackMessage>>, clock: nat -> nat)
  {
    forall v | v in there :: v in sent && Tells(sent[v], ReplayRollbacks([], there[v], map[]), 0, MigrationTag(v, clock(v)))
  }

  lemma {:induction false} NextArrives(before: Migration.Clp, there: map<nat, seq<Period>>, v: nat, ps: seq<Period>)
    ensures var now := Migration.Immigrated(before, there);
            && (v !in before.store && v !in there ==> v !in now.store)
            && Migration.Clp(now.store[v := Replay([], ps)], now.dirs[v := Here]) == Migration.Immigrated(before, there[v := ps])
  {
    OneMoreHere(before.dirs, there, v, ps);
  }

  lemma OneMoreHere(dirs: map<nat, Direction>, there: map<nat, seq<Period>>, v: nat, ps: seq<Period>)
    ensures Migration.PointedHere(dirs, there)[v := Here] == Migration.PointedHere(dirs, there[v := ps])
  {
  }

  /** Of every variable of vs the readers are told, each one tick after the start of the
      first period it read. */
  ghost predicate Told(before: Migration.Clp, vs: seq<nat>, sent: map<nat, seq<RollbackMessage>>, clock: nat -> nat)
    requires forall v | v in vs :: v in before.store
  {
    forall v | v in vs ::
      v in sent && Tells(sent[v], UndoAllRollbacks(before.store[v], before.store[v], map[]), 1, MigrationTag(v, clock(v)))
  }

  lemma {:induction false} TellNext(before: Migration.Clp, vs: seq<nat>, i: nat, sent: map<nat, seq<RollbackMessage>>,
                                    clock: nat -> nat, some: seq<RollbackMessage>)
    requires i < |vs| && (forall v | v in vs :: v in before.store) && Told(before, vs[..i], sent, clock)
    requires forall i, j | 0 <= i < j < |vs| :: vs[i] != vs[j]
    requires Tells(some, UndoAllRollbacks(before.store[vs[i]], before.store[vs[i]], map[]), 1, MigrationTag(vs[i], clock(vs[i])))
    ensures Told(before, vs[..i + 1], sent[vs[i] := some], clock)
  {
    assert vs[..i + 1] == vs[..i] + [vs[i]];
  }

  /** The first i variables of vs have left. */
  ghost predicate Leaving(before: Migration.Clp, now: Migration.Clp, d: Direction, vs: seq<nat>, i: nat,
                          payload: map<nat, seq<Period>>)
    requires i <= |vs| && forall v | v in vs :: v in before.store
  {
    now == Migration.Emigrated(before, d, vs[..i]) && payload == Migration.Payload(before, vs[..i])
  }

  lemma NobodyLeft(before: Migration.Clp, d: Direction, vs: seq<nat>)
    requires forall v | v in vs :: v in before.store
    ensures Leaving(before, before, d, vs, 0, map[])
  {
  }

  lemma {:induction false} NextLeaves(before: Migration.Clp, now: Migration.Clp, d: Direction, vs: seq<nat>, i: nat,
                   payload: map<nat, seq<Period>>)
    requires i < |vs| && (forall v | v in vs :: v in before.store) && Leaving(before, now, d, vs, i, payload)
    requires forall i, j | 0 <= i < j < |vs| :: vs[i] != vs[j]
    ensures vs[i] in now.store && now.store[vs[i]] == before.store[vs[i]]
    ensures Leaving(before, Migration.Clp(now.store - {vs[i]}, now.dirs[vs[i] := d]), d, vs, i + 1,
                    payload[vs[i] := before.store[vs[i]]])
  {
    StoreNext(before.store, vs, i);
    DirsNext(before.dirs, d, vs, i);
    assert vs[..i + 1] == vs[..i] + [vs[i]];
  }

  lemma UpdatedThenErased(m: map<nat, seq<Period>>, k: nat, ps: seq<Period>)
    ensures m[k := ps] - {k} == m - {k}
  {
  }

  lemma {:induction false} StoreNext(store: map<nat, seq<Period>>, vs: seq<nat>, i: nat)
    requires i < |vs|
    ensures Migration.Without(store, vs[..i]) - {vs[i]} == Migration.Without(store, vs[..i + 1])
  {
    assert vs[..i + 1] == vs[..i] + [vs[i]];
  }

  lemma {:induction false} DirsNext(dirs: map<nat, Direction>, d: Direction, vs: seq<nat>, i: nat)
    requires i < |vs|
    ensures Migration.Pointed(dirs, d, vs[..i])[vs[i] := d] == Migration.Pointed(dirs, d, vs[..i + 1])
  {
    assert vs[..i + 1] == vs[..i] + [vs[i]];
  }

  // ---- who is told, and what ----

  /** Agent a's message about a variable with these periods: one tick after the start of the first
      period it has read. */
  ghost predicate IsTold(message: RollbackMessage, v: nat, ps: seq<Period>, now: nat)
  {
    && message.tag == Tag(v, ULONG_MAX, ROLLBACK_BY_SM, now)
    && exists f :: 0 <= f < |ps| && ReadBy(ps, message.agent, f) && message.time == ps[f].start + 1
                   && forall i | 0 <= i < f :: !ReadBy(ps, message.agent, i)
  }

  lemma {:induction false} EarliestRead(ps: seq<Period>, a: LpId, f: nat) returns (g: nat)
    requires WellKept(ps) && f < |ps| && ReadBy(ps, a, f)
    requires forall i {:trigger ReadBy(ps, a, i)} | 0 <= i < |ps| && ReadBy(ps, a, i) :: ps[f].start <= ps[i].start
    ensures g <= f && ReadBy(ps, a, g) && ps[g].start == ps[f].start
    ensures forall i | 0 <= i < g :: !ReadBy(ps, a, i)
    decreases f
  {
    if i :| 0 <= i < f && ReadBy(ps, a, i) {
      g := EarliestRead(ps, a, i);
    } else {
      g := f;
    }
  }

  /** When variables leave, exactly the agents with recorded reads are told, once for each variable
      they have read. */
  lemma {:induction false} ReadersAreTold(before: Migration.Clp, vs: seq<nat>, sent: map<nat, seq<RollbackMessage>>,
                                          clock: nat -> nat, v: nat)
    requires (forall v | v in vs :: v in before.store) && Told(before, vs, sent, clock)
    requires v in vs && WellKept(before.store[v])
    ensures v in sent && forall k | 0 <= k < |sent[v]| :: IsTold(sent[v][k], v, before.store[v], clock(v))
    ensures forall a :: ReadBySome(before.store[v], a) <==> exists k | 0 <= k < |sent[v]| :: sent[v][k].agent == a
    ensures forall j, k | 0 <= j < k < |sent[v]| :: sent[v][j].agent != sent[v][k].agent
  {
    var ps := before.store[v];
    var m := UndoAllRollbacks(ps, ps, map[]);
    EmptyingReports(ps, m);
    forall k | 0 <= k < |sent[v]|
      ensures IsTold(sent[v][k], v, ps, clock(v))
    {
      var f := FirstReader(ps, m, sent[v][k].agent);
      var g := EarliestRead(ps, sent[v][k].agent, f);
    }
  }

  lemma {:induction false} TellsNobodyIff(sent: seq<RollbackMessage>, list: Rollbacks, delay: nat, tag: Tag)
    requires Tells(sent, list, delay, tag)
    ensures sent == [] <==> list == map[]
  {
    if sent == [] {
      assert forall a :: a !in list;
    } else {
      assert sent[0].agent in list;
    }
  }

  /** Where they arrive nobody is told anything. */
  lemma {:induction false} ArrivalIsSilent(there: map<nat, seq<Period>>, sent: map<nat, seq<RollbackMessage>>,
                                           clock: nat -> nat, v: nat)
    requires ToldThere(there, sent, clock) && v in there && WellKept(there[v])
    ensures v in sent && sent[v] == []
  {
    ReplayPreserves(there[v], map[]);
    TellsNobodyIff(sent[v], map[], 0, MigrationTag(v, clock(v)));
  }
}
