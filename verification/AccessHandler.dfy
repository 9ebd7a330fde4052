/** How a CLP serves reads, writes and their anti-messages, and a new GVT (src/lp/Clp.cpp). */
module AccessHandler {
  import opened Base
  import opened Periods
  import opened LiveWrites
  import opened History
  import opened Canonical
  import opened PeriodLaws
  import opened StateVariable
  import opened SharedState
  import opened AccessCost
  import RouteTable

  datatype Request =
    | ReadRequest(agent: LpId, ts: nat)
    | WriteRequest(agent: LpId, ts: nat, value: Value)
    | AntiRead(agent: LpId, ts: nat)
    | AntiWrite(agent: LpId, ts: nat)

  /** What a message does to its variable: a read from before GVT is served at GVT, an
      anti-message from before GVT is dropped. */
  function OpFor(r: Request, gvt: nat): Option<Op>
  {
    match r
    case ReadRequest(agent, ts) => Some(OpRead(agent, if ts < gvt then gvt else ts))
    case WriteRequest(agent, ts, value) => Some(OpWrite(agent, value, ts))
    case AntiRead(agent, ts) => if gvt > ts then None else Some(OpUndoRead(agent, ts))
    case AntiWrite(agent, ts) => if gvt > ts then None else Some(OpUndoWrite(agent, ts))
  }

  /** What goes back to the agent; to is the agent as the message's origin names it. */
  datatype Response =
    | ReadResponse(to: LpId, identifier: nat, ts: nat, value: Value)
    | WriteResponse(to: LpId, identifier: nat, ts: nat, status: WriteStatus)

  class AccessHandler {
    const sharedState: SharedState
    const calculator: AccessCostCalculator
    const routeTable: RouteTable.RouteTable
    var gvt: nat

    constructor (sharedState: SharedState, calculator: AccessCostCalculator, routeTable: RouteTable.RouteTable)
      ensures this.sharedState == sharedState && this.calculator == calculator && this.routeTable == routeTable
      ensures gvt == 0
    {
      this.sharedState, this.calculator, this.routeTable, gvt := sharedState, calculator, routeTable, 0;
    }

    /** The last thing each of the handlers below does: the access is counted under the port
        its agent sits behind; the source exits when it does not know the agent's rank. */
    method CountAccess(id: nat, agent: LpId, hops: nat)
      requires calculator.Valid() && agent.rank in routeTable.rankToDir
      modifies calculator
      ensures calculator.Valid() && calculator.clpLoad == old(calculator.clpLoad) + hops
      ensures calculator.past == Recorded(old(calculator.past), id, routeTable.rankToDir[agent.rank])
    {
      calculator.RecordAccess(id, routeTable.rankToDir[agent.rank], hops);
    }

    /** The value goes back to the agent; None where the source exits for want of a period. */
    method ProcessRead(id: nat, agent: LpId, ts: nat, identifier: nat) returns (response: Option<Response>)
      requires sharedState.Valid() && id in sharedState.store
      modifies sharedState`store, sharedState.variables, sharedState.periods
      ensures sharedState.Valid()
      ensures var before, op := old(sharedState.store)[id], OpFor(ReadRequest(agent, ts), gvt).value;
              op.t == (if ts < gvt then gvt else ts) &&
              match ValueAt(before, op.t)
              case None => response == None && sharedState.store == old(sharedState.store)
              case Some(v) =>
                && response == Some(ReadResponse(agent, identifier, ts, v))
                && sharedState.store == old(sharedState.store)[id := Periods.Read(before, agent, op.t)]
    {
      assert sharedState.Holds(id);
      var t := if ts < gvt then gvt else ts;
      var v := sharedState.Read(id, agent, t);
      if v.None? { return None; }
      response := Some(ReadResponse(agent, identifier, ts, v.value));
    }

    /** now is the clock, for the tag of the rollbacks. */
    method ProcessWrite(id: nat, agent: LpId, ts: nat, value: Value, identifier: nat, now: nat)
      returns (response: Response, sent: seq<RollbackMessage>)
      requires sharedState.Valid() && id in sharedState.store
      modifies sharedState`store, sharedState`periods, sharedState.variables, sharedState.periods
      ensures sharedState.Valid()
      ensures response == WriteResponse(agent, identifier, ts,
                            if WriteAccepted(old(sharedState.store)[id], agent, ts) then WriteSuccess else WriteFailure)
      ensures sharedState.store == old(sharedState.store)[id := Write(old(sharedState.store)[id], agent, value, ts)]
      ensures Tells(sent, WriteRollbacks(old(sharedState.store)[id], agent, ts, map[]), 0, Tag(id, ts, ROLLBACK_BY_WRITE, now))
    {
      assert sharedState.Holds(id);
      var rollbackList := new RollbackList();
      var status := sharedState.WriteWithRollback(id, agent, value, ts, rollbackList);
      response := WriteResponse(agent, identifier, ts, status);
      sent := rollbackList.SendRollbacks(0, Tag(id, ts, ROLLBACK_BY_WRITE, now));
    }

    /** The source dereferences the end of the list when no period covers the time. */
    method ProcessAntiRead(id: nat, agent: LpId, ts: nat)
      requires sharedState.Valid() && id in sharedState.store
      requires gvt <= ts ==> Find(sharedState.store[id], ts) >= 0
      modifies sharedState`store, sharedState.variables, sharedState.periods
      ensures sharedState.Valid()
      ensures var before := old(sharedState.store);
              && sharedState.store == (if ts < gvt then before else before[id := UndoRead(before[id], agent, ts)])
              && (OpFor(AntiRead(agent, ts), gvt).None? <==> ts < gvt)
    {
      if gvt > ts { return; }
      assert sharedState.Holds(id);
      sharedState.RollbackRead(id, agent, ts);
    }

    /** The rollbacks go on with the tag of the anti-message. */
    method ProcessAntiWrite(id: nat, agent: LpId, ts: nat, tag: Tag) returns (sent: seq<RollbackMessage>)
      requires sharedState.Valid() && id in sharedState.store
      modifies sharedState`store, sharedState.variables, sharedState.periods
      ensures sharedState.Valid()
      ensures var before := old(sharedState.store);
              if ts < gvt then OpFor(AntiWrite(agent, ts), gvt).None? && sharedState.store == before && sent == []
              else sharedState.store == before[id := Undo(before[id], agent, ts)]
                   && Tells(sent, UndoRollbacks(before[id], agent, ts, map[]), 0, tag)
    {
      if gvt > ts { return []; }
      sent := TakeBack(id, agent, ts, tag);
    }

    method TakeBack(id: nat, agent: LpId, ts: nat, tag: Tag) returns (sent: seq<RollbackMessage>)
      requires sharedState.Valid() && id in sharedState.store
      modifies sharedState`store, sharedState.variables, sharedState.periods
      ensures sharedState.Valid()
      ensures sharedState.store == old(sharedState.store)[id := Undo(old(sharedState.store)[id], agent, ts)]
      ensures Tells(sent, UndoRollbacks(old(sharedState.store)[id], agent, ts, map[]), 0, tag)
    {
      assert sharedState.Holds(id);
      var rollbackList := new RollbackList();
      sharedState.RollbackWrite(id, agent, ts, rollbackList);
      sent := rollbackList.SendRollbacks(0, tag);
    }

    /** A new GVT, first part: everything before it is dropped. */
    method CollectAt(newGvt: nat)
      requires sharedState.Valid()
      modifies this`gvt, sharedState`store, sharedState.variables, sharedState.periods
      ensures sharedState.Valid() && gvt == newGvt
      ensures CollectedBut(old(sharedState.store), sharedState.store, {}, newGvt)
    {
      gvt := newGvt;
      sharedState.RemoveWritePeriods(newGvt);
    }
  }

  /** A CLP never reacts before its cause: every rollback it asks for because of a message is
      no earlier than that message. This is the causality the GVT round relies on. */
  lemma {:induction false} ReactionsAreCausal(ps: seq<Period>, r: Request, gvt: nat, sent: seq<RollbackMessage>, tag: Tag)
    requires WellKept(ps) && OpFor(r, gvt).Some? && Enabled(ps, OpFor(r, gvt).value)
    requires Tells(sent, Reported(ps, OpFor(r, gvt).value), 0, tag)
    ensures forall k | 0 <= k < |sent| :: sent[k].time >= r.ts
  {
    var op := OpFor(r, gvt).value;
    if op.OpWrite? || op.OpUndoWrite? {
      ForgottenIsReported(ps, op);
    }
  }

  /** With GVT safe, neither guard ever fires and every read finds a period: on a variable
      collected at GVT, a message no earlier than it does exactly what it says. */
  lemma {:induction false} GuardsNeverFire(ps: seq<Period>, r: Request, gvt: nat)
    requires WellKept(ps) && Find(ps, gvt) >= 0 && gvt <= r.ts < LONG_MAX
    ensures var op := OpFor(r, gvt);
            op.Some? && op.value.t == r.ts && Enabled(Collect(ps, gvt), op.value)
  {
    CollectKeeps(ps, gvt);
    FindFromBase(Collect(ps, gvt), r.ts);
  }
}
