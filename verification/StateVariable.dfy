/** The shared variable as the source has it: objects whose fields and lists are edited in
    place, proved against the functions of Periods. */
module StateVariable {
  import opened Base
  import opened Periods
  import PeriodLaws

  datatype WriteStatus = WriteSuccess | WriteFailure

  datatype RollbackMessage = RollbackMessage(agent: LpId, time: nat, tag: Tag)

  /** One message for every listed agent and no other, at its time plus delay, all with the tag. */
  ghost predicate Tells(sent: seq<RollbackMessage>, list: Rollbacks, delay: nat, tag: Tag)
  {
    && (forall a :: a in list <==> exists k | 0 <= k < |sent| :: sent[k].agent == a)
    && (forall k | 0 <= k < |sent| :: sent[k].agent in list && sent[k].time == list[sent[k].agent] + delay && sent[k].tag == tag)
    && (forall j, k | 0 <= j < k < |sent| :: sent[j].agent != sent[k].agent)
  }

  /** The agents to be rolled back (src/lp/RollbackList.cpp). */
  class RollbackList {
    var list: Rollbacks

    constructor ()
      ensures list == map[]
    {
      list := map[];
    }

    method AddLp(lp: LpId, t: nat)
      modifies this
      ensures list == Periods.AddLp(old(list), lp, t)
    {
      if lp in list {
        if t < list[lp] { list := list[lp := t]; }
      } else {
        list := list[lp := t];
      }
    }

    /** One message per listed agent, at its time plus delay, and the list is empty again.
        delay is 0, or 1 when the rollbacks follow a migration. */
    method SendRollbacks(delay: nat, tag: Tag) returns (sent: seq<RollbackMessage>)
      modifies this
      ensures list == map[] && Tells(sent, old(list), delay, tag)
    {
      sent := [];
      var rest := list;
      while rest != map[]
        invariant forall a :: a in list <==> a in rest || exists k | 0 <= k < |sent| :: sent[k].agent == a
        invariant forall a | a in rest :: a in list && rest[a] == list[a]
        invariant forall k | 0 <= k < |sent| ::
                    && sent[k].agent in list && sent[k].agent !in rest
                    && sent[k].time == list[sent[k].agent] + delay && sent[k].tag == tag
        invariant forall j, k | 0 <= j < k < |sent| :: sent[j].agent != sent[k].agent
        decreases rest.Keys
      {
        var a :| a in rest;
        ghost var before := sent;
        sent := sent + [RollbackMessage(a, rest[a] + delay, tag)];
        assert sent[|before|].agent == a;
        assert forall k | 0 <= k < |before| :: sent[k] == before[k];
        rest := rest - {a};
      }
      list := map[];
    }
  }

  /** One write and the reads of its value (src/state/WritePeriod.cpp). */
  class WritePeriod {
    var startTime: nat
    var endTime: nat
    var value: Value
    var agent: LpId
    var agentReadMap: seq<ReadRecord>

    ghost function View(): Period
      reads this
    {
      Period(startTime, endTime, value, agent, agentReadMap)
    }

    constructor (value: Value, startTime: nat, agent: LpId)
      ensures View() == Period(startTime, ULONG_MAX, value, agent, [])
    {
      this.startTime, this.endTime := startTime, ULONG_MAX;
      this.value, this.agent, this.agentReadMap := value, agent, [];
    }

    method SetStartTime(t: nat)
      modifies this
      ensures View() == old(View()).(start := t)
    {
      startTime := t;
    }

    method SetEndTime(t: nat)
      modifies this
      ensures View() == old(View()).(end := t)
    {
      endTime := t;
    }

    method Read(reader: LpId, t: nat) returns (v: Value)
      modifies this
      ensures v == old(value)
      ensures View() == old(View()).(readMap := InsertRead(old(agentReadMap), ReadRecord(reader, t)))
    {
      var k := InsertAt(agentReadMap, reader);
      agentReadMap := agentReadMap[..k] + [ReadRecord(reader, t)] + agentReadMap[k..];
      v := value;
    }

    /** The loop all removals share: erase what fails the test while walking the map. */
    method RemoveReads(test: Test)
      modifies this`agentReadMap
      ensures View() == old(View()).(readMap := Keep(old(agentReadMap), test))
    {
      ghost var all := agentReadMap;
      var i: nat := 0;
      while i < |agentReadMap|
        invariant i <= |agentReadMap|
        invariant Walked(all, agentReadMap, i, test)
        decreases |agentReadMap| - i
      {
        WalkStep(all, agentReadMap, i, test);
        if Passes(test, agentReadMap[i]) {
          i := i + 1;
        } else {
          agentReadMap := agentReadMap[..i] + agentReadMap[i + 1..];
        }
      }
      assert agentReadMap == agentReadMap[..i];
    }

    method RemoveReadsBefore(t: nat)
      modifies this
      ensures View() == old(View()).(readMap := Keep(old(agentReadMap), From(t)))
      ensures forall r :: r in agentReadMap <==> r in old(agentReadMap) && r.time >= t
    {
      RemoveReads(From(t));
    }

    method RemoveReadsByAgent(reader: LpId, t: nat)
      modifies this
      ensures View() == old(View()).(readMap := Keep(old(agentReadMap), NotThisRead(reader, t)))
      ensures forall r :: r in agentReadMap <==> r in old(agentReadMap) && (r.agent != reader || r.time != t)
    {
      RemoveReads(NotThisRead(reader, t));
    }

    /** Reads at or after t are erased, and their agents reported at the read's own time. */
    method RemoveReadsAfterInclusive(t: nat, rollbackList: RollbackList)
      modifies this`agentReadMap, rollbackList
      ensures View() == old(View()).(readMap := Keep(old(agentReadMap), Before(t)))
      ensures rollbackList.list == AddAll(old(rollbackList.list), Keep(old(agentReadMap), From(t)))
      ensures forall r :: r in agentReadMap <==> r in old(agentReadMap) && r.time < t
    {
      ghost var all := agentReadMap;
      ghost var target := AddAll(rollbackList.list, Keep(all, From(t)));
      var i: nat := 0;
      while i < |agentReadMap|
        invariant i <= |agentReadMap|
        invariant Walked(all, agentReadMap, i, Before(t))
        invariant Owed(rollbackList.list, agentReadMap, i, t, target)
        decreases |agentReadMap| - i
      {
        i := VisitRead(i, t, rollbackList, all, target);
      }
      assert agentReadMap == agentReadMap[..i];
    }

    /** The body of the loop: report and erase the read at i, or pass it. */
    method VisitRead(i: nat, t: nat, rollbackList: RollbackList, ghost all: seq<ReadRecord>, ghost target: Rollbacks)
      returns (next: nat)
      requires i < |agentReadMap| && Walked(all, agentReadMap, i, Before(t))
      requires Owed(rollbackList.list, agentReadMap, i, t, target)
      modifies this`agentReadMap, rollbackList
      ensures next <= |agentReadMap| && |agentReadMap| - next < old(|agentReadMap|) - i
      ensures Walked(all, agentReadMap, next, Before(t))
      ensures Owed(rollbackList.list, agentReadMap, next, t, target)
    {
      WalkStep(all, agentReadMap, i, Before(t));
      if agentReadMap[i].time >= t {
        rollbackList.AddLp(agentReadMap[i].agent, agentReadMap[i].time);
        agentReadMap := agentReadMap[..i] + agentReadMap[i + 1..];
        next := i;
      } else {
        next := i + 1;
      }
    }

    /** All reads are erased, and their agents reported at t. */
    method RemoveAllReads(t: nat, rollbackList: RollbackList)
      modifies this`agentReadMap, rollbackList
      ensures View() == old(View()).(readMap := [])
      ensures rollbackList.list == AddAllAt(old(rollbackList.list), old(agentReadMap), t)
    {
      while 0 < |agentReadMap|
        invariant AddAllAt(rollbackList.list, agentReadMap, t)
                  == AddAllAt(old(rollbackList.list), old(agentReadMap), t)
        decreases |agentReadMap|
      {
        rollbackList.AddLp(agentReadMap[0].agent, t);
        agentReadMap := agentReadMap[1..];
      }
    }
  }

  /** What is left before i is what the test keeps of the part already walked. */
  ghost predicate Walked(all: seq<ReadRecord>, left: seq<ReadRecord>, i: nat, test: Test)
    requires i <= |left|
  {
    left[..i] + Keep(left[i..], test) == Keep(all, test)
  }

  /** Reporting what is left from i on leads to target. */
  ghost predicate Owed(m: Rollbacks, left: seq<ReadRecord>, i: nat, t: nat, target: Rollbacks)
    requires i <= |left|
  {
    AddAll(m, Keep(left[i..], From(t))) == target
  }

  lemma {:induction false} WalkStep(all: seq<ReadRecord>, left: seq<ReadRecord>, i: nat, test: Test)
    requires i < |left| && Walked(all, left, i, test)
    ensures Passes(test, left[i]) ==> Walked(all, left, i + 1, test)
    ensures !Passes(test, left[i]) ==> Walked(all, left[..i] + left[i + 1..], i, test)
  {
    if Passes(test, left[i]) {
      assert left[..i + 1] == left[..i] + [left[i]];
    } else {
      assert (left[..i] + left[i + 1..])[..i] == left[..i];
    }
  }

  class StateVariable {
    const id: nat
    var writePeriodList: seq<WritePeriod>
    ghost var contents: seq<Period>
    ghost var owned: set<WritePeriod>

    /** The list elements are different objects and hold exactly the periods of contents. */
    ghost predicate Valid()
      reads this, owned
    {
      && |contents| == |writePeriodList|
      && (forall i | 0 <= i < |contents| :: writePeriodList[i] in owned)
      && (forall i | 0 <= i < |contents| :: contents[i] == writePeriodList[i].View())
      && (forall i, j | 0 <= i < j < |contents| :: writePeriodList[i] != writePeriodList[j])
    }

    constructor (id: nat)
      ensures this.id == id && writePeriodList == [] && contents == [] && owned == {} && Valid()
    {
      this.id, writePeriodList, contents, owned := id, [], [], {};
    }

    method AddWritePeriod(value: Value, t: nat, agent: LpId)
      requires Valid()
      modifies this
      ensures Valid() && fresh(owned - old(owned))
      ensures contents == old(contents) + [Period(t, ULONG_MAX, value, agent, [])]
    {
      var p := new WritePeriod(value, t, agent);
      writePeriodList := writePeriodList + [p];
      contents, owned := contents + [p.View()], owned + {p};
    }

    /** A deep copy, as the values the copy holds. */
    method Copy() returns (copy: seq<Period>)
      requires Valid()
      ensures copy == contents
    {
      copy := [];
      for i := 0 to |writePeriodList|
        invariant copy == contents[..i]
      {
        var p := writePeriodList[i];
        copy := copy + [Period(p.startTime, p.endTime, p.value, p.agent, p.agentReadMap)];
      }
    }

    /** The walk from the end that most operations begin with. */
    method ReverseFind(t: nat) returns (i: int)
      requires Valid()
      ensures i == Find(contents, t)
    {
      i := |writePeriodList| - 1;
      while i >= 0
        invariant -1 <= i < |contents|
        invariant forall j | i < j < |contents| :: contents[j].start > t
      {
        if writePeriodList[i].startTime <= t { break; }
        i := i - 1;
      }
      FindIs(contents, t, i);
    }

    /** The source exits the process when no period covers the time. */
    method Read(reader: LpId, t: nat) returns (v: Option<Value>)
      requires Valid()
      modifies this, owned
      ensures Valid() && writePeriodList == old(writePeriodList) && owned == old(owned)
      ensures v == ValueAt(old(contents), t)
      ensures contents == if v.None? then old(contents) else Periods.Read(old(contents), reader, t)
    {
      var i := ReverseFind(t);
      if i < 0 { return None; }
      contents := Periods.Read(contents, reader, t);
      var value := writePeriodList[i].Read(reader, t);
      v := Some(value);
    }

    method ReadWithoutRecord(t: nat) returns (end: nat, v: Option<Value>)
      requires Valid()
      ensures v == ValueAt(contents, t)
      ensures end == if v.None? then ULONG_MAX else contents[Find(contents, t)].end
    {
      var i := ReverseFind(t);
      if i < 0 { return ULONG_MAX, None; }
      return writePeriodList[i].endTime, Some(writePeriodList[i].value);
    }

    method WriteWithRollback(writer: LpId, value: Value, t: nat, rollbackList: RollbackList)
      returns (status: WriteStatus)
      requires Valid()
      modifies this, owned, rollbackList
      ensures Valid() && fresh(owned - old(owned))
      ensures status.WriteSuccess? <==> WriteAccepted(old(contents), writer, t)
      ensures contents == Write(old(contents), writer, value, t)
      ensures rollbackList.list == WriteRollbacks(old(contents), writer, t, old(rollbackList.list))
    {
      var newPeriod := new WritePeriod(value, t, writer);
      if |writePeriodList| == 0 {
        writePeriodList := [newPeriod];
        contents, owned := [newPeriod.View()], owned + {newPeriod};
        return WriteSuccess;
      }
      status := WriteBehind(newPeriod, rollbackList);
    }

    method WriteBehind(newPeriod: WritePeriod, rollbackList: RollbackList) returns (status: WriteStatus)
      requires Valid() && contents != [] && newPeriod !in owned
      requires newPeriod.endTime == ULONG_MAX && newPeriod.agentReadMap == []
      modifies this, owned, newPeriod, rollbackList
      ensures Valid() && owned <= old(owned) + {newPeriod}
      ensures var n := old(newPeriod.View());
              && (status.WriteSuccess? <==> WriteAccepted(old(contents), n.agent, n.start))
              && contents == Write(old(contents), n.agent, n.value, n.start)
              && rollbackList.list == WriteRollbacks(old(contents), n.agent, n.start, old(rollbackList.list))
    {
      var i := ReverseFind(newPeriod.startTime);
      if i < 0 {
        return WriteFailure;
      }
      if writePeriodList[i].startTime == newPeriod.startTime
         && IdGreater(writePeriodList[i].agent, newPeriod.agent) {
        return WriteFailure;
      }
      WriteInto(i, newPeriod, rollbackList);
      status := WriteSuccess;
    }

    method WriteInto(i: nat, newPeriod: WritePeriod, rollbackList: RollbackList)
      requires Valid() && contents != [] && newPeriod !in owned
      requires newPeriod.endTime == ULONG_MAX && newPeriod.agentReadMap == []
      requires i == Find(contents, newPeriod.startTime)
      requires WriteAccepted(contents, newPeriod.agent, newPeriod.startTime)
      modifies this, owned, newPeriod, rollbackList
      ensures Valid() && owned == old(owned) + {newPeriod}
      ensures var n := old(newPeriod.View());
              && contents == Write(old(contents), n.agent, n.value, n.start)
              && rollbackList.list == WriteRollbacks(old(contents), n.agent, n.start, old(rollbackList.list))
    {
      ghost var after := Write(contents, newPeriod.agent, newPeriod.value, newPeriod.startTime);
      PeriodLaws.WriteSplices(contents, newPeriod.agent, newPeriod.value, newPeriod.startTime);
      SplitPeriod(i, newPeriod, rollbackList, after);
    }

    /** Period i ends where the new one starts, and the new one where period i did. */
    method SplitPeriod(i: nat, newPeriod: WritePeriod, rollbackList: RollbackList, ghost after: seq<Period>)
      requires Valid() && newPeriod !in owned
      requires newPeriod.endTime == ULONG_MAX && newPeriod.agentReadMap == []
      requires PeriodLaws.Spliced(contents, i, after, newPeriod.value, newPeriod.startTime)
      requires after[i + 1].agent == newPeriod.agent
      modifies this, owned, newPeriod, rollbackList
      ensures Valid() && contents == after && owned == old(owned) + {newPeriod}
      ensures rollbackList.list ==
                AddAll(old(rollbackList.list), Keep(old(contents)[i].readMap, From(old(newPeriod.startTime))))
    {
      CutShort(i, newPeriod.startTime, rollbackList);
      if i < |writePeriodList| - 1 {
        newPeriod.SetEndTime(writePeriodList[i + 1].startTime);
      }
      InsertBehind(i, newPeriod, after);
    }

    method CutShort(i: nat, t: nat, rollbackList: RollbackList)
      requires Valid() && i < |contents|
      modifies this`contents, owned, rollbackList
      ensures Valid() && forall p | p in owned && p != writePeriodList[i] :: unchanged(p)
      ensures contents ==
                old(contents)[i := old(contents)[i].(end := t, readMap := Keep(old(contents)[i].readMap, Before(t)))]
      ensures rollbackList.list == AddAll(old(rollbackList.list), Keep(old(contents)[i].readMap, From(t)))
    {
      writePeriodList[i].SetEndTime(t);
      writePeriodList[i].RemoveReadsAfterInclusive(t, rollbackList);
      contents := contents[i := writePeriodList[i].View()];
    }

    /** Behind period i, which is the end of the list when period i is the last. */
    method InsertBehind(i: nat, newPeriod: WritePeriod, ghost after: seq<Period>)
      requires Valid() && i < |contents| && newPeriod !in owned
      requires |after| == |contents| + 1 && after[i + 1] == newPeriod.View()
      requires forall k {:trigger after[k]} | 0 <= k <= i :: after[k] == contents[k]
      requires forall k {:trigger after[k]} | i + 1 < k < |after| :: after[k] == contents[k - 1]
      modifies this
      ensures Valid() && contents == after && owned == old(owned) + {newPeriod}
    {
      ghost var list := writePeriodList;
      writePeriodList := writePeriodList[..i + 1] + [newPeriod] + writePeriodList[i + 1..];
      contents, owned := after, owned + {newPeriod};
      forall k | 0 <= k < |after|
        ensures after[k] == writePeriodList[k].View()
      {
        if k <= i {
          assert writePeriodList[k] == list[k];
        } else if k > i + 1 {
          assert writePeriodList[k] == list[k - 1];
        }
      }
    }

    /** The source dereferences the end of the list when no period covers the time. */
    method PerformReadRollback(reader: LpId, t: nat)
      requires Valid() && Find(contents, t) >= 0
      modifies this, owned
      ensures Valid() && writePeriodList == old(writePeriodList) && owned == old(owned)
      ensures contents == UndoRead(old(contents), reader, t)
    {
      var i := ReverseFind(t);
      contents := UndoRead(contents, reader, t);
      writePeriodList[i].RemoveReadsByAgent(reader, t);
    }

    method ForwardFind(t: nat) returns (i: nat)
      requires Valid()
      ensures i == FindStart(contents, t)
    {
      i := 0;
      while i < |writePeriodList|
        invariant i <= |contents| && forall j | 0 <= j < i :: contents[j].start != t
      {
        if writePeriodList[i].startTime == t { break; }
        i := i + 1;
      }
    }

    method PerformWriteRollback(writer: LpId, t: nat, rollbackList: RollbackList)
      requires Valid()
      modifies this, owned, rollbackList
      ensures Valid() && owned == old(owned)
      ensures contents == Undo(old(contents), writer, t)
      ensures rollbackList.list == UndoRollbacks(old(contents), writer, t, old(rollbackList.list))
    {
      var i := ForwardFind(t);
      if i == |writePeriodList| { return; }
      if IdNotEqual(writePeriodList[i].agent, writer) { return; }
      PeriodLaws.UndoRemoves(contents, writer, t);
      ghost var after := Undo(contents, writer, t);
      writePeriodList[i].RemoveAllReads(t, rollbackList);
      contents := contents[i := writePeriodList[i].View()];
      ErasePeriod(i, after);
    }

    /** Erases period i; its predecessor takes over its end, or never ends. */
    method ErasePeriod(i: nat, ghost after: seq<Period>)
      requires Valid() && PeriodLaws.Removed(contents, i, after)
      modifies this, owned
      ensures Valid() && contents == after && owned == old(owned)
    {
      contents := after;
      if |writePeriodList| == 1 {
        writePeriodList := [];
        return;
      }
      if i == |writePeriodList| - 1 {
        writePeriodList[i - 1].SetEndTime(LONG_MAX);
        writePeriodList := writePeriodList[..i];
        return;
      }
      if i == 0 {
        writePeriodList := writePeriodList[1..];
        return;
      }
      var erasedEndTime := writePeriodList[i].endTime;
      writePeriodList[i - 1].SetEndTime(erasedEndTime);
      writePeriodList := writePeriodList[..i] + writePeriodList[i + 1..];
    }

    method RemoveWritePeriods(t: nat)
      requires Valid()
      modifies this, owned
      ensures Valid() && owned == old(owned)
      ensures contents == Collect(old(contents), t)
    {
      var i := ReverseFind(t);
      if i < 0 { return; }
      var found := writePeriodList[i];
      contents := MoveBase(contents, t);
      found.SetStartTime(t);
      found.RemoveReadsBefore(t);
      EraseBefore(found, i);
    }

    /** Erases from the front until a period starts when the found one does. */
    method EraseBefore(found: WritePeriod, ghost i: nat)
      requires Valid() && i < |writePeriodList| && writePeriodList[i] == found
      modifies this
      ensures Valid() && owned == old(owned)
      ensures contents == old(contents)[FindStart(old(contents), found.startTime)..]
    {
      ghost var moved := contents;
      ghost var k := 0;
      while writePeriodList[0].startTime != found.startTime
        invariant 0 <= k <= i && contents == moved[k..] && Valid()
        invariant writePeriodList == old(writePeriodList)[k..] && owned == old(owned)
        invariant forall j | 0 <= j < k :: moved[j].start != found.startTime
        decreases i - k
      {
        assert k < i;
        writePeriodList := writePeriodList[1..];
        contents := contents[1..];
        k := k + 1;
        if |writePeriodList| == 0 { break; }
      }
    }
  }
}
