/** What a new GVT does at a CLP (src/lp/Clp.cpp, SetGvt). */
module GvtHandler {
  import opened Base
  import opened Periods
  import opened PeriodLaws
  import opened StateVariable
  import opened SharedState
  import opened AccessCost
  import opened AccessHandler
  import opened MigrationHandler
  import Migration

  // Collection, and then, when there has been load enough, variables are given away
  // (MigrateStateVariables).

  /** The variables chosen for port d leave. */
  function Moved(c: Migration.Clp, m: map<Direction, seq<nat>>, d: Direction): Migration.Clp
  {
    if d in m then Migration.Emigrated(c, d, m[d]) else c
  }

  /** Port by port, in the order of the ports. */
  function AllMoved(c: Migration.Clp, m: map<Direction, seq<nat>>): Migration.Clp
  {
    Moved(Moved(Moved(c, m, Up), m, Left), m, Right)
  }

  /** Every variable is listed once over all ports, and is here. */
  ghost predicate Movable(c: Migration.Clp, m: map<Direction, seq<nat>>)
  {
    && (forall d | d in m :: IsPort(d))
    && (forall d, i {:trigger m[d][i]} | d in m && 0 <= i < |m[d]| :: m[d][i] in c.store)
    && (forall d, e, i, j {:trigger m[d][i], m[e][j]} | d in m && e in m && 0 <= i < |m[d]| && 0 <= j < |m[e]| && m[d][i] == m[e][j] ::
          d == e && i == j)
  }

  /** The variables listed for port d, if any, are still here, unchanged since before. */
  ghost predicate StillHere(before: Migration.Clp, now: Migration.Clp, m: map<Direction, seq<nat>>, d: Direction)
  {
    d in m ==> forall v | v in m[d] :: v in now.store && v in before.store && now.store[v] == before.store[v]
  }

  lemma {:induction false} OthersStay(before: Migration.Clp, now: Migration.Clp, m: map<Direction, seq<nat>>,
                                      d: Direction, e: Direction)
    requires Movable(before, m) && StillHere(before, now, m, e) && d != e
    ensures StillHere(before, Moved(now, m, d), m, e)
  {
    if d in m && e in m {
      forall v | v in m[e]
        ensures v !in m[d]
      {
        var j :| 0 <= j < |m[e]| && m[e][j] == v;
      }
    }
  }

  /** One message carries exactly the variables listed for port d, as they were, and everybody
      who loses a read of one is told. */
  ghost predicate Gone(before: Migration.Clp, m: map<Direction, seq<nat>>, d: Direction, payload: map<nat, seq<Period>>,
                       sent: map<nat, seq<RollbackMessage>>, clock: nat -> nat)
  {
    d in m ==>
      && (forall v | v in m[d] :: v in before.store)
      && payload == Migration.Payload(before, m[d]) && MigrationHandler.Told(before, m[d], sent, clock)
  }

  lemma {:induction false} SameGone(before: Migration.Clp, now: Migration.Clp, m: map<Direction, seq<nat>>, d: Direction,
                                    payload: map<nat, seq<Period>>, sent: map<nat, seq<RollbackMessage>>, clock: nat -> nat)
    requires d in m && StillHere(before, now, m, d) && Gone(now, m, d, payload, sent, clock)
    ensures Gone(before, m, d, payload, sent, clock)
  {
  }

  // ---- rollbacks after a migration ----

  lemma {:induction false} CollectedStartsLate(ps: seq<Period>, gvt: nat, i: nat)
    requires WellKept(ps) && gvt < LONG_MAX && i < |Collect(ps, gvt)|
    ensures Collect(ps, gvt)[i].start >= gvt
  {
    CollectKeeps(ps, gvt);
  }

  /** A variable given away right after its collection at GVT asks for rollbacks later than GVT
      only: that is what the steps that take a GVT over may send. */
  lemma {:induction false} MigrationRollbacksAreLate(ps: seq<Period>, gvt: nat, sent: seq<RollbackMessage>, tag: Tag)
    requires WellKept(ps) && gvt < LONG_MAX
    requires var c := Collect(ps, gvt); Tells(sent, UndoAllRollbacks(c, c, map[]), 1, tag)
    ensures forall k | 0 <= k < |sent| :: sent[k].time > gvt
  {
    var c := Collect(ps, gvt);
    CollectKeeps(ps, gvt);
    var m := UndoAllRollbacks(c, c, map[]);
    forall k | 0 <= k < |sent|
      ensures sent[k].time > gvt
    {
      var f := FirstReader(c, m, sent[k].agent);
      CollectedStartsLate(ps, gvt, f);
    }
  }

  function AllCollected(store: map<nat, seq<Period>>, t: nat): map<nat, seq<Period>>
  {
    map v | v in store :: Collect(store[v], t)
  }

  lemma AllAreCollected(before: map<nat, seq<Period>>, now: map<nat, seq<Period>>, t: nat)
    requires CollectedBut(before, now, {}, t)
    ensures now == AllCollected(before, t)
  {
  }

  lemma {:induction false} ToldAreLate(store: map<nat, seq<Period>>, c: Migration.Clp, m: map<Direction, seq<nat>>, gvt: nat,
                                       d: Direction, payload: map<nat, seq<Period>>,
                                       sent: map<nat, seq<RollbackMessage>>, clock: nat -> nat)
    requires (forall v | v in store :: WellKept(store[v])) && gvt < LONG_MAX
    requires c.store == AllCollected(store, gvt) && d in m && Gone(c, m, d, payload, sent, clock)
    ensures forall v | v in m[d] :: v in sent && forall k | 0 <= k < |sent[v]| :: sent[v][k].time > gvt
  {
    forall v | v in m[d]
      ensures v in sent && forall k | 0 <= k < |sent[v]| :: sent[v][k].time > gvt
    {
      MigrationRollbacksAreLate(store[v], gvt, sent[v], MigrationTag(v, clock(v)));
    }
  }

  /** What the calculator answers can be given away. */
  lemma {:induction false} AnsweredIsMovable(c: Migration.Clp, m: map<Direction, seq<nat>>, t: Tally, vs: seq<nat>)
    requires IsMigrationMap(m, t, vs) && (forall i, j | 0 <= i < j < |vs| :: vs[i] != vs[j])
    requires forall v | v in vs :: v in c.store
    ensures Movable(c, m)
  {
    forall d, i | d in m && 0 <= i < |m[d]|
      ensures m[d][i] in c.store && IsPort(d)
    {
      assert m[d][i] in Selected(t, vs, d);
    }
    forall d | d in m
      ensures IsPort(d)
    {
      assert m[d][0] in Selected(t, vs, d);
    }
    forall d, e, i: nat, j: nat | d in m && e in m && i < |m[d]| && j < |m[e]| && m[d][i] == m[e][j]
      ensures d == e && i == j
    {
      ListedOnce(m, t, vs, d, e, i, j);
    }
  }

  function Members(vs: seq<nat>): set<nat>
  {
    set v | v in vs
  }

  function ListedFor(m: map<Direction, seq<nat>>, d: Direction): seq<nat>
  {
    if d in m then m[d] else []
  }

  lemma {:induction false} WhatStays(c: Migration.Clp, m: map<Direction, seq<nat>>)
    ensures AllMoved(c, m).store.Keys ==
            c.store.Keys - Members(ListedFor(m, Up)) - Members(ListedFor(m, Left)) - Members(ListedFor(m, Right))
  {
    MovedKeys(c, m, Up);
    MovedKeys(Moved(c, m, Up), m, Left);
    MovedKeys(Moved(Moved(c, m, Up), m, Left), m, Right);
  }

  lemma {:induction false} MovedKeys(c: Migration.Clp, m: map<Direction, seq<nat>>, d: Direction)
    ensures Moved(c, m, d).store.Keys == c.store.Keys - Members(ListedFor(m, d))
  {
  }

  // ---- the handler ----

  class GvtHandler {
    const access: AccessHandler
    const clp: MigrationHandler.Clp
    var endMessageProcessed: bool

    constructor (access: AccessHandler, clp: MigrationHandler.Clp)
      ensures this.access == access && this.clp == clp && !endMessageProcessed
    {
      this.access, this.clp, endMessageProcessed := access, clp, false;
    }

    /** The variables listed for one port leave in one message. */
    method MigrateBy(d: Direction, m: map<Direction, seq<nat>>, clock: nat -> nat, ghost before: Migration.Clp)
      returns (payload: map<nat, seq<Period>>, sent: map<nat, seq<RollbackMessage>>)
      requires clp.Valid() && Movable(before, m) && StillHere(before, clp.View(), m, d)
      modifies clp.sharedState`vars, clp.sharedState`store, clp.sharedState.variables, clp.sharedState.periods
      modifies clp.routeTable`varToDir
      ensures clp.Valid() && clp.View() == Moved(old(clp.View()), m, d)
      ensures Gone(before, m, d, payload, sent, clock)
    {
      payload, sent := map[], map[];
      if d in m {
        payload, sent := clp.MigrateTo(d, m[d], clock);
        SameGone(before, old(clp.View()), m, d, payload, sent, clock);
      }
    }

    method MigrateStateVariables(m: map<Direction, seq<nat>>, clock: nat -> nat)
      returns (payloads: map<Direction, map<nat, seq<Period>>>, sent: map<Direction, map<nat, seq<RollbackMessage>>>)
      requires clp.Valid() && Movable(clp.View(), m)
      modifies clp.sharedState`vars, clp.sharedState`store, clp.sharedState.variables, clp.sharedState.periods
      modifies clp.routeTable`varToDir
      ensures clp.Valid() && clp.View() == AllMoved(old(clp.View()), m)
      ensures forall d | d in m :: d in payloads && d in sent && Gone(old(clp.View()), m, d, payloads[d], sent[d], clock)
    {
      ghost var before := clp.View();
      var up, left, right, upSent, leftSent, rightSent;
      up, upSent := MigrateBy(Up, m, clock, before);
      OthersStay(before, before, m, Up, Left);
      OthersStay(before, before, m, Up, Right);
      left, leftSent := MigrateBy(Left, m, clock, before);
      OthersStay(before, Moved(before, m, Up), m, Left, Right);
      right, rightSent := MigrateBy(Right, m, clock, before);
      payloads := map[Up := up, Left := left, Right := right];
      sent := map[Up := upSent, Left := leftSent, Right := rightSent];
    }

    /** SharedState::Delete takes a variable's counters away with it. */
    method ForgetCounters(vs: seq<nat>)
      requires access.calculator.Valid()
      modifies access.calculator
      ensures access.calculator.Valid()
      ensures Listed() == old(Listed()) - Members(vs)
    {
      for i := 0 to |vs|
        invariant access.calculator.Valid()
        invariant Listed() == old(Listed()) - Members(vs[..i])
      {
        assert Members(vs[..i + 1]) == Members(vs[..i]) + {vs[i]};
        ForgetCounter(vs[i]);
      }
      assert vs[..|vs|] == vs;
    }

    ghost function Listed(): set<nat>
      reads this, access, access.calculator
    {
      Members(access.calculator.ssvList)
    }

    method ForgetCounter(v: nat)
      requires access.calculator.Valid()
      modifies access.calculator
      ensures access.calculator.Valid() && Listed() == old(Listed()) - {v}
    {
      ghost var list := access.calculator.ssvList;
      access.calculator.Remove(v);
      UnlistedIs(list, v, access.calculator.ssvList);
    }

    /** The decision: none while the end is being processed or without load enough. */
    method Decide() returns (m: map<Direction, seq<nat>>)
      requires access.calculator.Valid()
      modifies this`endMessageProcessed, access.calculator`clpLoad
      ensures access.calculator.Valid() && !endMessageProcessed
      ensures var c := access.calculator;
              if old(endMessageProcessed) || old(c.clpLoad) <= c.lpThreshold then m == map[]
              else IsMigrationMap(m, c.View(), c.ssvList)
    {
      m := map[];
      if endMessageProcessed {
        endMessageProcessed := false;
      } else {
        var enough := access.calculator.CheckClpLoad();
        if enough {
          m := access.calculator.GetMigrationMap();
        }
      }
    }

    ghost predicate Valid()
      reads this, access, clp, clp.sharedState, clp.sharedState.variables, clp.sharedState.periods, access.calculator
    {
      && access.sharedState == clp.sharedState && access.calculator.Valid() && clp.Valid()
      && forall v | v in access.calculator.ssvList :: v in clp.sharedState.store
    }

    /** Collect, decide, give away; and the counters of what leaves are forgotten. */
    method SetGvt(newGvt: nat, clock: nat -> nat)
      returns (m: map<Direction, seq<nat>>, payloads: map<Direction, map<nat, seq<Period>>>,
               sent: map<Direction, map<nat, seq<RollbackMessage>>>)
      requires Valid()
      modifies this`endMessageProcessed, access`gvt, access.calculator
      modifies clp.sharedState`vars, clp.sharedState`store, clp.sharedState.variables, clp.sharedState.periods
      modifies clp.routeTable`varToDir
      ensures Valid() && access.gvt == newGvt && !endMessageProcessed
      ensures var c := Migration.Clp(AllCollected(old(clp.sharedState.store), newGvt), old(clp.routeTable.varToDir));
              && clp.View() == AllMoved(c, m)
              && forall d | d in m :: d in payloads && d in sent && Gone(c, m, d, payloads[d], sent[d], clock)
      ensures var c := access.calculator;
              if old(endMessageProcessed || c.clpLoad <= c.lpThreshold) then m == map[]
              else IsMigrationMap(m, old(c.View()), old(c.ssvList))
    {
      m, payloads, sent := TakeGvt(newGvt, clock);
      WhatStays(Migration.Clp(AllCollected(old(clp.sharedState.store), newGvt), old(clp.routeTable.varToDir)), m);
      ForgetAll(m);
      assert forall v | v in access.calculator.ssvList :: v in Listed();
    }

    method ForgetAll(m: map<Direction, seq<nat>>)
      requires access.calculator.Valid() && clp.Valid()
      modifies access.calculator
      ensures access.calculator.Valid() && clp.Valid()
      ensures Listed() ==
              old(Listed()) - Members(ListedFor(m, Up)) - Members(ListedFor(m, Left)) - Members(ListedFor(m, Right))
    {
      ForgetCounters(ListedFor(m, Up));
      ForgetCounters(ListedFor(m, Left));
      ForgetCounters(ListedFor(m, Right));
    }

    /** SetGvt up to the counters of the variables that leave. */
    method TakeGvt(newGvt: nat, clock: nat -> nat)
      returns (m: map<Direction, seq<nat>>, payloads: map<Direction, map<nat, seq<Period>>>,
               sent: map<Direction, map<nat, seq<RollbackMessage>>>)
      requires Valid()
      modifies this`endMessageProcessed, access`gvt, access.calculator`clpLoad
      modifies clp.sharedState`vars, clp.sharedState`store, clp.sharedState.variables, clp.sharedState.periods
      modifies clp.routeTable`varToDir
      ensures clp.Valid() && access.gvt == newGvt && !endMessageProcessed
      ensures var c := Migration.Clp(AllCollected(old(clp.sharedState.store), newGvt), old(clp.routeTable.varToDir));
              && clp.View() == AllMoved(c, m)
              && forall d | d in m :: d in payloads && d in sent && Gone(c, m, d, payloads[d], sent[d], clock)
      ensures var c := access.calculator;
              && c.Valid() && c.ssvList == old(c.ssvList)
              && if old(endMessageProcessed || c.clpLoad <= c.lpThreshold) then m == map[]
                 else IsMigrationMap(m, old(c.View()), old(c.ssvList))
    {
      access.CollectAt(newGvt);
      AllAreCollected(old(clp.sharedState.store), clp.sharedState.store, newGvt);
      m := Decide();
      if m != map[] { AnsweredIsMovable(clp.View(), m, access.calculator.View(), access.calculator.ssvList); }
      payloads, sent := MigrateStateVariables(m, clock);
    }
  }
}
