/** Which reads a variable has recorded: exactly those, over any run. */
module Records {
  import opened Base
  import opened Periods
  import opened PeriodLaws
  import opened LiveWrites
  import opened History

  // What is recorded decides who is told to roll back; a read that is lost is never taken back.

  lemma {:induction false} KeptTags(rs: seq<ReadRecord>, value: Value, test: Test, s: Seen)
    ensures Tagged(Keep(rs, test), value)[s] == if Passes(test, ReadRecord(s.agent, s.time)) then Tagged(rs, value)[s] else 0
  {
    if rs != [] {
      KeptTags(rs[1..], value, test, s);
      TagSplit([rs[0]], Keep(rs[1..], test), value);
    }
  }

  lemma {:induction false} NowhereRecorded(ps: seq<Period>, s: Seen)
    requires forall i | 0 <= i < |ps| :: ReadRecord(s.agent, s.time) !in ps[i].readMap
    ensures Outstanding(ps)[s] == 0
  {
    if ps != [] {
      NowhereRecorded(ps[1..], s);
      TagMembers(ps[0].readMap, ps[0].value, s);
    }
  }

  lemma {:induction false} RecordedOnlyAt(ps: seq<Period>, i: nat, s: Seen)
    requires i < |ps| && forall j | 0 <= j < |ps| && j != i :: ReadRecord(s.agent, s.time) !in ps[j].readMap
    ensures Outstanding(ps)[s] == Tagged(ps[i].readMap, ps[i].value)[s]
  {
    OutstandingAt(ps, i);
    NowhereRecorded(ps[..i], s);
    NowhereRecorded(ps[i + 1..], s);
  }

  /** In a well-kept list a read can only be recorded in the period that covers its time. */
  lemma {:induction false} RecordedWhereCovered(ps: seq<Period>, s: Seen)
    requires WellKept(ps)
    ensures Find(ps, s.time) < 0 ==> Outstanding(ps)[s] == 0
    ensures Find(ps, s.time) >= 0 ==> Outstanding(ps)[s] == At(ps, Find(ps, s.time), s)
  {
    var i := Find(ps, s.time);
    forall j | 0 <= j < |ps| && j != i
      ensures ReadRecord(s.agent, s.time) !in ps[j].readMap
    {
      if ReadRecord(s.agent, s.time) in ps[j].readMap { RecordedIsCovered(ps, j, ReadRecord(s.agent, s.time)); }
    }
    if i < 0 { NowhereRecorded(ps, s); } else { RecordedOnlyAt(ps, i, s); }
  }

  /** How often s is recorded in period i. */
  function At(ps: seq<Period>, i: nat, s: Seen): nat
    requires i < |ps|
  {
    Tagged(ps[i].readMap, ps[i].value)[s]
  }

  /** ... and only with the value read there. */
  lemma {:induction false} RecordedValue(ps: seq<Period>, s: Seen)
    requires WellKept(ps) && s in Outstanding(ps)
    ensures ValueAt(ps, s.time) == Some(s.value)
  {
    RecordedWhereCovered(ps, s);
    var i := Find(ps, s.time);
    TagMembers(ps[i].readMap, ps[i].value, s);
  }

  // ---- what each operation loses ----

  /** Taking a read back loses that agent's reads at that time and nothing else. */
  lemma {:induction false} UndoReadLoses(ps: seq<Period>, agent: LpId, t: nat)
    requires WellKept(ps) && Find(ps, t) >= 0
    ensures Outstanding(UndoRead(ps, agent, t)) == Outstanding(ps)[Seen(agent, t, ValueAt(ps, t).value) := 0]
  {
    var i, qs := Find(ps, t), UndoRead(ps, agent, t);
    var rest := OutstandingReplace(ps, i, qs[i]);
    var gone := Seen(agent, t, ValueAt(ps, t).value);
    forall s: Seen
      ensures Outstanding(qs)[s] == if s == gone then 0 else Outstanding(ps)[s]
    {
      KeptTags(ps[i].readMap, ps[i].value, NotThisRead(agent, t), s);
      TagMembers(ps[i].readMap, ps[i].value, s);
      if s == gone { RecordedWhereCovered(ps, s); }
    }
  }

  lemma {:induction false} CollectKeepsRead(ps: seq<Period>, t: nat, s: Seen)
    requires WellKept(ps) && Find(ps, t) >= 0 && t < LONG_MAX && s.time >= t
    ensures var i, j := Find(ps, s.time), Find(Collect(ps, t), s.time);
            i >= 0 && j >= 0 && At(Collect(ps, t), j, s) == At(ps, i, s)
  {
    var c := CollectTail(ps, t);
    TailFind(ps, t, c, Collect(ps, t), s.time);
    var i, moved := Find(ps, s.time), MoveBase(ps, t);
    assert Collect(ps, t) == moved[|moved| - |Collect(ps, t)|..];
    if i == Find(ps, t) { KeptTags(ps[i].readMap, ps[i].value, From(t), s); }
  }

  lemma {:induction false} CollectLosesOne(ps: seq<Period>, t: nat, s: Seen)
    requires WellKept(ps) && WellKept(Collect(ps, t)) && Find(ps, t) >= 0 && t < LONG_MAX
    requires Collect(ps, t) != [] && Collect(ps, t)[0].start == t
    ensures Outstanding(Collect(ps, t))[s] == if s.time >= t then Outstanding(ps)[s] else 0
  {
    RecordedWhereCovered(Collect(ps, t), s);
    if s.time < t {
      FindIs(Collect(ps, t), s.time, -1);
    } else {
      RecordedWhereCovered(ps, s);
      CollectKeepsRead(ps, t, s);
    }
  }

  /** Collection loses the reads before its time and nothing else. */
  lemma {:induction false} CollectLoses(ps: seq<Period>, t: nat)
    requires WellKept(ps) && t < LONG_MAX
    ensures forall s :: Outstanding(Collect(ps, t))[s] == if s.time >= t then Outstanding(ps)[s] else 0
  {
    CollectKeeps(ps, t);
    forall s: Seen
      ensures Outstanding(Collect(ps, t))[s] == if s.time >= t then Outstanding(ps)[s] else 0
    {
      if Find(ps, t) >= 0 {
        CollectLosesOne(ps, t, s);
      } else if s.time < t {
        FindIs(ps, s.time, -1);
        RecordedWhereCovered(ps, s);
      }
    }
  }

  /** A write loses the reads that would now see it and nothing else. */
  lemma {:induction false} WriteLoses(ps: seq<Period>, agent: LpId, value: Value, t: nat)
    requires WellKept(ps) && t < LONG_MAX
    ensures forall s :: Outstanding(Write(ps, agent, value, t))[s] ==
              if WriteAccepted(ps, agent, t) && Reaches(ps, t, s.time) then 0 else Outstanding(ps)[s]
  {
    if ps == [] {
      assert Write(ps, agent, value, t)[1..] == [];
    } else if WriteAccepted(ps, agent, t) {
      var i := Find(ps, t);
      WriteForgets(ps, agent, value, t);
      forall s: Seen
        ensures Outstanding(Write(ps, agent, value, t))[s] == if Reaches(ps, t, s.time) then 0 else Outstanding(ps)[s]
      {
        KeptTags(ps[i].readMap, ps[i].value, From(t), s);
        RecordedWhereCovered(ps, s);
        if Reaches(ps, t, s.time) { FindIs(ps, s.time, i); }
        if Find(ps, s.time) != i { OnlyItsReads(ps, i, s); }
      }
    }
  }

  lemma {:induction false} OnlyItsReads(ps: seq<Period>, i: nat, s: Seen)
    requires WellKept(ps) && i < |ps| && Find(ps, s.time) != i
    ensures Tagged(ps[i].readMap, ps[i].value)[s] == 0
  {
    TagMembers(ps[i].readMap, ps[i].value, s);
    if ReadRecord(s.agent, s.time) in ps[i].readMap { RecordedIsCovered(ps, i, ReadRecord(s.agent, s.time)); }
  }

  /** Taking a write back loses the reads that saw it and nothing else. */
  lemma {:induction false} UndoLoses(ps: seq<Period>, agent: LpId, t: nat)
    requires WellKept(ps)
    ensures forall s :: Outstanding(Undo(ps, agent, t))[s] ==
              if Undoes(ps, agent, t) && Find(ps, s.time) == FindStart(ps, t) then 0 else Outstanding(ps)[s]
  {
    if Undoes(ps, agent, t) {
      var i := FindStart(ps, t);
      UndoForgets(ps, agent, t);
      forall s: Seen
        ensures Outstanding(Undo(ps, agent, t))[s] == if Find(ps, s.time) == i then 0 else Outstanding(ps)[s]
      {
        RecordedWhereCovered(ps, s);
        if Find(ps, s.time) != i { OnlyItsReads(ps, i, s); }
      }
    }
  }

  // ---- whole runs ----

  /** How often s is recorded after an operation, given that it was n times before. */
  function Recorded(ps: seq<Period>, op: Op, s: Seen, n: nat): nat
  {
    match op
    case OpRead(agent, t) => if s.agent == agent && s.time == t && ValueAt(ps, t) == Some(s.value) then n + 1 else n
    case OpUndoRead(agent, t) => if s.agent == agent && s.time == t then 0 else n
    case OpWrite(agent, _, t) => if WriteAccepted(ps, agent, t) && Reaches(ps, t, s.time) then 0 else n
    case OpUndoWrite(agent, t) => if Undoes(ps, agent, t) && Find(ps, s.time) == FindStart(ps, t) then 0 else n
    case OpCollect(t) => if s.time >= t then n else 0
  }

  lemma {:induction false} UndoReadRecords(ps: seq<Period>, agent: LpId, t: nat, s: Seen)
    requires WellKept(ps) && Find(ps, t) >= 0
    ensures Outstanding(UndoRead(ps, agent, t))[s] == if s.agent == agent && s.time == t then 0 else Outstanding(ps)[s]
  {
    UndoReadLoses(ps, agent, t);
    if s.agent == agent && s.time == t && s in Outstanding(ps) { RecordedValue(ps, s); }
  }

  lemma {:induction false} ReadRecordsOne(ps: seq<Period>, agent: LpId, t: nat, s: Seen)
    requires Find(ps, t) >= 0
    ensures Outstanding(Read(ps, agent, t))[s] == Outstanding(ps)[s]
            + if s.agent == agent && s.time == t && ValueAt(ps, t) == Some(s.value) then 1 else 0
  {
    ReadRecords(ps, agent, t);
  }

  lemma {:induction false} StepRecordsExactly(ps: seq<Period>, op: Op, s: Seen)
    requires WellKept(ps) && Enabled(ps, op)
    ensures Outstanding(Step(ps, op))[s] == Recorded(ps, op, s, Outstanding(ps)[s])
  {
    match op
    case OpRead(agent, t) => ReadRecordsOne(ps, agent, t, s);
    case OpUndoRead(agent, t) => UndoReadRecords(ps, agent, t, s);
    case OpWrite(agent, value, t) => WriteLoses(ps, agent, value, t);
    case OpUndoWrite(agent, t) => UndoLoses(ps, agent, t);
    case OpCollect(t) => CollectLoses(ps, t);
  }

  function RecordedAfter(ps: seq<Period>, ops: seq<Op>, s: Seen, n: nat): nat
    requires Legal(ps, ops)
    decreases |ops|
  {
    if ops == [] then n else RecordedAfter(Step(ps, ops[0]), ops[1..], s, Recorded(ps, ops[0], s, n))
  }

  /** Over any run, exactly the reads are recorded, and as often, that were answered with that value
      and not taken back, overwritten, left without their write or collected since. */
  lemma {:induction false} RunRecordsExactly(ps: seq<Period>, ops: seq<Op>, s: Seen)
    requires WellKept(ps) && Legal(ps, ops)
    ensures Outstanding(Run(ps, ops))[s] == RecordedAfter(ps, ops, s, Outstanding(ps)[s])
    decreases |ops|
  {
    if ops != [] {
      StepKeeps(ps, ops[0]);
      StepRecordsExactly(ps, ops[0], s);
      RunRecordsExactly(Step(ps, ops[0]), ops[1..], s);
    }
  }

  /** The operation ends a recorded read: its agent takes it back, it is collected, or its agent is
      told to go back to its time or before. */
  predicate Ends(ps: seq<Period>, op: Op, s: Seen)
  {
    || (op.OpUndoRead? && op.agent == s.agent && op.t == s.time)
    || (op.OpCollect? && s.time < op.t)
    || (s.agent in Reported(ps, op) && Reported(ps, op)[s.agent] <= s.time)
  }

  predicate Lasts(ps: seq<Period>, ops: seq<Op>, s: Seen)
    requires Legal(ps, ops)
    decreases |ops|
  {
    ops == [] || (!Ends(ps, ops[0], s) && Lasts(Step(ps, ops[0]), ops[1..], s))
  }

  lemma {:induction false} LostIsReported(ps: seq<Period>, op: Op, s: Seen)
    requires WellKept(ps) && Enabled(ps, op) && (op.OpWrite? || op.OpUndoWrite?)
    requires Outstanding(Step(ps, op))[s] < Outstanding(ps)[s]
    ensures Ends(ps, op, s)
  {
    ForgottenIsReported(ps, op);
    assert s in Forgotten(ps, op);
  }

  lemma {:induction false} StepLoses(ps: seq<Period>, op: Op, s: Seen)
    requires WellKept(ps) && Enabled(ps, op) && !Ends(ps, op, s)
    ensures Outstanding(Step(ps, op))[s] >= Outstanding(ps)[s]
    ensures op.OpRead? && s == Seen(op.agent, op.t, ValueAt(ps, op.t).value) ==>
              Outstanding(Step(ps, op))[s] == Outstanding(ps)[s] + 1
  {
    StepRecordsExactly(ps, op, s);
    if (op.OpWrite? || op.OpUndoWrite?) && Outstanding(Step(ps, op))[s] < Outstanding(ps)[s] {
      LostIsReported(ps, op, s);
    }
  }

  /** No read is lost in silence: an answered read is still recorded unless its agent has taken it
      back, it has been collected, or its agent has been told to roll back far enough. */
  lemma {:induction false} ReadsLast(ps: seq<Period>, ops: seq<Op>, s: Seen)
    requires WellKept(ps) && Legal(ps, ops) && Lasts(ps, ops, s)
    ensures Outstanding(Run(ps, ops))[s] == Outstanding(ps)[s] + Answers(ps, ops)[s]
    decreases |ops|
  {
    if ops != [] {
      StepKeeps(ps, ops[0]);
      StepLoses(ps, ops[0], s);
      StepRecords(ps, ops[0]);
      ReadsLast(Step(ps, ops[0]), ops[1..], s);
    }
  }
}
