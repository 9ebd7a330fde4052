/** Whole runs of one shared variable, in any sequence of its operations. */
module History {
  import opened Base
  import opened Periods
  import opened PeriodLaws
  import opened LiveWrites

  datatype Op =
    | OpRead(agent: LpId, t: nat)
    | OpWrite(agent: LpId, value: Value, t: nat)
    | OpUndoRead(agent: LpId, t: nat)
    | OpUndoWrite(agent: LpId, t: nat)
    | OpCollect(t: nat)

  /** Times are proper times, and reads and their undoing find a period: the source exits
      or fails there otherwise. */
  predicate Enabled(ps: seq<Period>, op: Op)
  {
    op.t < LONG_MAX && (op.OpRead? || op.OpUndoRead? ==> Find(ps, op.t) >= 0)
  }

  function Step(ps: seq<Period>, op: Op): seq<Period>
    requires Enabled(ps, op)
  {
    match op
    case OpRead(agent, t) => Read(ps, agent, t)
    case OpWrite(agent, value, t) => Write(ps, agent, value, t)
    case OpUndoRead(agent, t) => UndoRead(ps, agent, t)
    case OpUndoWrite(agent, t) => Undo(ps, agent, t)
    case OpCollect(t) => Collect(ps, t)
  }

  /** The rollbacks one operation asks for, on a fresh list. */
  function Reported(ps: seq<Period>, op: Op): Rollbacks
  {
    match op
    case OpWrite(agent, value, t) => WriteRollbacks(ps, agent, t, map[])
    case OpUndoWrite(agent, t) => UndoRollbacks(ps, agent, t, map[])
    case _ => map[]
  }

  predicate Legal(ps: seq<Period>, ops: seq<Op>)
    decreases |ops|
  {
    ops == [] || (Enabled(ps, ops[0]) && Legal(Step(ps, ops[0]), ops[1..]))
  }

  function Run(ps: seq<Period>, ops: seq<Op>): seq<Period>
    requires Legal(ps, ops)
    decreases |ops|
  {
    if ops == [] then ps else Run(Step(ps, ops[0]), ops[1..])
  }

  lemma {:induction false} StepKeeps(ps: seq<Period>, op: Op)
    requires WellKept(ps) && Enabled(ps, op)
    ensures WellKept(Step(ps, op))
  {
    match op
    case OpRead(agent, t) => ReadKeeps(ps, agent, t);
    case OpWrite(agent, value, t) => WriteKeeps(ps, agent, value, t);
    case OpUndoRead(agent, t) => UndoReadKeeps(ps, agent, t);
    case OpUndoWrite(agent, t) => UndoKeeps(ps, agent, t);
    case OpCollect(t) => CollectKeeps(ps, t);
  }

  // ---- no stale read survives ----

  /** A read together with the value it returned. */
  datatype Seen = Seen(agent: LpId, time: nat, value: Value)

  function Tagged(rs: seq<ReadRecord>, value: Value): multiset<Seen>
  {
    if rs == [] then multiset{}
    else multiset{Seen(rs[0].agent, rs[0].time, value)} + Tagged(rs[1..], value)
  }

  /** Everything still recorded, each read with the value of the period it is recorded in. */
  function Outstanding(ps: seq<Period>): multiset<Seen>
  {
    if ps == [] then multiset{}
    else Tagged(ps[0].readMap, ps[0].value) + Outstanding(ps[1..])
  }

  /** What the reads of a run answered. */
  function Answers(ps: seq<Period>, ops: seq<Op>): multiset<Seen>
    requires Legal(ps, ops)
    decreases |ops|
  {
    if ops == [] then multiset{}
    else
      (if ops[0].OpRead? then multiset{Seen(ops[0].agent, ops[0].t, ValueAt(ps, ops[0].t).value)}
       else multiset{})
      + Answers(Step(ps, ops[0]), ops[1..])
  }

  lemma {:induction false} TagSplit(a: seq<ReadRecord>, b: seq<ReadRecord>, value: Value)
    ensures Tagged(a + b, value) == Tagged(a, value) + Tagged(b, value)
  {
    if a == [] {
      assert a + b == b;
    } else {
      assert (a + b)[1..] == a[1..] + b;
      TagSplit(a[1..], b, value);
    }
  }

  lemma {:induction false} TagPartition(rs: seq<ReadRecord>, value: Value, t: nat)
    ensures Tagged(rs, value) == Tagged(Keep(rs, Before(t)), value) + Tagged(Keep(rs, From(t)), value)
  {
    if rs != [] {
      TagPartition(rs[1..], value, t);
      TagSplit([rs[0]], Keep(rs[1..], Before(t)), value);
      TagSplit([rs[0]], Keep(rs[1..], From(t)), value);
    }
  }

  lemma {:induction false} TagShrinks(rs: seq<ReadRecord>, value: Value, test: Test)
    ensures Tagged(Keep(rs, test), value) <= Tagged(rs, value)
  {
    if rs != [] {
      TagShrinks(rs[1..], value, test);
      TagSplit([rs[0]], Keep(rs[1..], test), value);
    }
  }

  lemma {:induction false} TagMembers(rs: seq<ReadRecord>, value: Value, s: Seen)
    ensures s in Tagged(rs, value) <==> s.value == value && ReadRecord(s.agent, s.time) in rs
  {
    if rs != [] {
      TagMembers(rs[1..], value, s);
      assert rs == [rs[0]] + rs[1..];
    }
  }

  lemma {:induction false} OutstandingSplit(a: seq<Period>, b: seq<Period>)
    ensures Outstanding(a + b) == Outstanding(a) + Outstanding(b)
  {
    if a == [] {
      assert a + b == b;
    } else {
      assert (a + b)[1..] == a[1..] + b;
      OutstandingSplit(a[1..], b);
    }
  }

  /** Outstanding, seen from period i. */
  lemma {:induction false} OutstandingAt(ps: seq<Period>, i: nat)
    requires i < |ps|
    ensures Outstanding(ps) ==
            Outstanding(ps[..i]) + Tagged(ps[i].readMap, ps[i].value) + Outstanding(ps[i + 1..])
  {
    assert ps == ps[..i] + ps[i..];
    OutstandingSplit(ps[..i], ps[i..]);
    assert ps[i..][1..] == ps[i + 1..];
  }

  /** Changing one period changes only its own contribution. */
  lemma {:induction false} OutstandingReplace(ps: seq<Period>, i: nat, p: Period) returns (rest: multiset<Seen>)
    requires i < |ps|
    ensures Outstanding(ps) == rest + Tagged(ps[i].readMap, ps[i].value)
    ensures Outstanding(ps[i := p]) == rest + Tagged(p.readMap, p.value)
  {
    var qs := ps[i := p];
    OutstandingAt(ps, i);
    OutstandingAt(qs, i);
    assert qs[..i] == ps[..i] && qs[i + 1..] == ps[i + 1..];
    rest := Outstanding(ps[..i]) + Outstanding(ps[i + 1..]);
  }

  lemma {:induction false} OutstandingDrop(ps: seq<Period>, i: nat)
    requires i < |ps|
    ensures Outstanding(ps) == Outstanding(ps[..i] + ps[i + 1..]) + Tagged(ps[i].readMap, ps[i].value)
  {
    OutstandingAt(ps, i);
    OutstandingSplit(ps[..i], ps[i + 1..]);
  }

  lemma {:induction false} OutstandingSuffix(ps: seq<Period>, k: nat)
    requires k <= |ps|
    ensures Outstanding(ps[k..]) <= Outstanding(ps)
  {
    assert ps == ps[..k] + ps[k..];
    OutstandingSplit(ps[..k], ps[k..]);
  }

  lemma {:induction false} TagInsert(rs: seq<ReadRecord>, r: ReadRecord, value: Value)
    ensures Tagged(InsertRead(rs, r), value) == Tagged(rs, value) + multiset{Seen(r.agent, r.time, value)}
  {
    var k := InsertAt(rs, r.agent);
    var a, b := rs[..k], rs[k..];
    assert rs == a + b;
    TagSplit(a, b, value);
    TagSplit(a + [r], b, value);
    TagSplit(a, [r], value);
  }

  /** A read adds exactly its own record, tagged with the value it returned. */
  lemma {:induction false} ReadRecords(ps: seq<Period>, agent: LpId, t: nat)
    requires Find(ps, t) >= 0
    ensures Outstanding(Read(ps, agent, t)) ==
            Outstanding(ps) + multiset{Seen(agent, t, ValueAt(ps, t).value)}
  {
    var i := Find(ps, t);
    var p := ps[i].(readMap := InsertRead(ps[i].readMap, ReadRecord(agent, t)));
    var rest := OutstandingReplace(ps, i, p);
    TagInsert(ps[i].readMap, ReadRecord(agent, t), ps[i].value);
  }

  /** An accepted write forgets exactly the reads at or after its time of the period it
      splits. */
  lemma {:induction false} WriteForgets(ps: seq<Period>, agent: LpId, value: Value, t: nat)
    requires ps != [] && WriteAccepted(ps, agent, t)
    ensures var p := ps[Find(ps, t)];
            Outstanding(ps) == Outstanding(Write(ps, agent, value, t)) + Tagged(Keep(p.readMap, From(t)), p.value)
  {
    var i, qs := Find(ps, t), Write(ps, agent, value, t);
    var before, new_ := qs[i], qs[i + 1];
    assert qs == ps[..i] + ([before, new_] + ps[i + 1..]);
    OutstandingAt(ps, i);
    OutstandingSplit(ps[..i], [before, new_] + ps[i + 1..]);
    OutstandingSplit([before, new_], ps[i + 1..]);
    assert [before, new_][1..] == [new_] && [new_][1..] == [];
    TagPartition(ps[i].readMap, ps[i].value, t);
  }

  /** Undoing a write forgets exactly the reads of that write. */
  lemma {:induction false} UndoForgets(ps: seq<Period>, agent: LpId, t: nat)
    requires Undoes(ps, agent, t)
    ensures var p := ps[FindStart(ps, t)];
            Outstanding(ps) == Outstanding(Undo(ps, agent, t)) + Tagged(p.readMap, p.value)
  {
    var i := FindStart(ps, t);
    UndoRemoves(ps, agent, t);
    RemovedForgets(ps, i, Undo(ps, agent, t));
  }

  lemma AfterRemoval(ps: seq<Period>, i: nat, qs: seq<Period>, moved: seq<Period>)
    requires Removed(ps, i, qs) && i > 0 && moved == ps[i - 1 := qs[i - 1]]
    ensures qs == moved[..i] + moved[i + 1..]
  {
  }

  lemma {:induction false} RemovedForgets(ps: seq<Period>, i: nat, qs: seq<Period>)
    requires Removed(ps, i, qs)
    ensures Outstanding(ps) == Outstanding(qs) + Tagged(ps[i].readMap, ps[i].value)
  {
    if i == 0 {
      assert qs == ps[..i] + ps[i + 1..];
      OutstandingDrop(ps, i);
    } else {
      var moved := ps[i - 1 := qs[i - 1]];
      var rest := OutstandingReplace(ps, i - 1, qs[i - 1]);
      AfterRemoval(ps, i, qs, moved);
      OutstandingDrop(moved, i);
    }
  }

  lemma {:induction false} CollectForgets(ps: seq<Period>, t: nat)
    ensures Outstanding(Collect(ps, t)) <= Outstanding(ps)
  {
    var i := Find(ps, t);
    if i >= 0 {
      var moved := MoveBase(ps, t);
      var rest := OutstandingReplace(ps, i, moved[i]);
      TagShrinks(ps[i].readMap, ps[i].value, From(t));
      OutstandingSuffix(moved, FindStart(moved, t));
    }
  }

  lemma {:induction false} UndoReadForgets(ps: seq<Period>, agent: LpId, t: nat)
    requires Find(ps, t) >= 0
    ensures Outstanding(UndoRead(ps, agent, t)) <= Outstanding(ps)
  {
    var i := Find(ps, t);
    var rest := OutstandingReplace(ps, i, UndoRead(ps, agent, t)[i]);
    TagShrinks(ps[i].readMap, ps[i].value, NotThisRead(agent, t));
  }

  lemma {:induction false} StepRecords(ps: seq<Period>, op: Op)
    requires Enabled(ps, op)
    ensures Outstanding(Step(ps, op)) <=
            Outstanding(ps) + if op.OpRead? then multiset{Seen(op.agent, op.t, ValueAt(ps, op.t).value)} else multiset{}
  {
    match op
    case OpRead(agent, t) => ReadRecords(ps, agent, t);
    case OpWrite(agent, value, t) =>
      if WriteAccepted(ps, agent, t) && ps != [] {
        WriteForgets(ps, agent, value, t);
      } else if ps == [] {
        assert Write(ps, agent, value, t)[1..] == [];
      }
    case OpUndoRead(agent, t) => UndoReadForgets(ps, agent, t);
    case OpUndoWrite(agent, t) => if Undoes(ps, agent, t) { UndoForgets(ps, agent, t); }
    case OpCollect(t) => CollectForgets(ps, t);
  }

  lemma {:induction false} RunRecords(ps: seq<Period>, ops: seq<Op>)
    requires WellKept(ps) && Legal(ps, ops)
    ensures WellKept(Run(ps, ops))
    ensures Outstanding(Run(ps, ops)) <= Outstanding(ps) + Answers(ps, ops)
    decreases |ops|
  {
    if ops != [] {
      StepKeeps(ps, ops[0]);
      StepRecords(ps, ops[0]);
      RunRecords(Step(ps, ops[0]), ops[1..]);
    }
  }

  /** A recorded read sits in the period that covers its time. */
  lemma {:induction false} RecordedIsCovered(ps: seq<Period>, i: nat, r: ReadRecord)
    requires WellKept(ps) && i < |ps| && r in ps[i].readMap
    ensures Find(ps, r.time) == i
  {
    assert Link(ps, i);
    FindIs(ps, r.time, i);
  }

  lemma {:induction false} OutstandingMember(ps: seq<Period>, i: nat, r: ReadRecord)
    requires i < |ps| && r in ps[i].readMap
    ensures Seen(r.agent, r.time, ps[i].value) in Outstanding(ps)
  {
    OutstandingAt(ps, i);
    TagMembers(ps[i].readMap, ps[i].value, Seen(r.agent, r.time, ps[i].value));
  }

  /** No stale read survives. After any run from a list without recorded reads, every read
      still recorded is in the period covering its time, and some read of that agent at that
      time really was answered with the value now readable there. */
  lemma {:induction false} NoStaleRead(ps: seq<Period>, ops: seq<Op>, i: nat, r: ReadRecord)
    requires WellKept(ps) && Outstanding(ps) == multiset{} && Legal(ps, ops)
    requires i < |Run(ps, ops)| && r in Run(ps, ops)[i].readMap
    ensures var qs := Run(ps, ops);
            && Find(qs, r.time) == i
            && ValueAt(qs, r.time) == Some(qs[i].value)
            && Seen(r.agent, r.time, qs[i].value) in Answers(ps, ops)
  {
    RunRecords(ps, ops);
    RecordedIsCovered(Run(ps, ops), i, r);
    OutstandingMember(Run(ps, ops), i, r);
  }

  // ---- every invalidated read is reported ----

  lemma {:induction false} AddAllReports(m: Rollbacks, rs: seq<ReadRecord>)
    ensures forall a :: a in AddAll(m, rs) <==> a in m || exists r | r in rs :: r.agent == a
    ensures forall r | r in rs :: AddAll(m, rs)[r.agent] <= r.time
    ensures forall a | a in m :: AddAll(m, rs)[a] <= m[a]
    ensures forall a | a in AddAll(m, rs) ::
              (a in m && AddAll(m, rs)[a] == m[a]) || ReadRecord(a, AddAll(m, rs)[a]) in rs
    decreases |rs|
  {
    if rs != [] {
      var m' := AddLp(m, rs[0].agent, rs[0].time);
      assert rs[0] == ReadRecord(rs[0].agent, rs[0].time);
      assert rs == [rs[0]] + rs[1..];
      AddAllReports(m', rs[1..]);
    }
  }

  lemma {:induction false} AddAllAtReports(m: Rollbacks, rs: seq<ReadRecord>, t: nat)
    ensures forall a :: a in AddAllAt(m, rs, t) <==> a in m || exists r | r in rs :: r.agent == a
    ensures forall r | r in rs :: AddAllAt(m, rs, t)[r.agent] <= t
    ensures forall a | a in m :: AddAllAt(m, rs, t)[a] <= m[a]
    ensures forall a | a in AddAllAt(m, rs, t) :: (a in m && AddAllAt(m, rs, t)[a] == m[a]) || AddAllAt(m, rs, t)[a] == t
    decreases |rs|
  {
    if rs != [] {
      var m' := AddLp(m, rs[0].agent, t);
      assert rs == [rs[0]] + rs[1..];
      AddAllAtReports(m', rs[1..], t);
    }
  }

  /** The reads a write or a write rollback forgets. */
  function Forgotten(ps: seq<Period>, op: Op): multiset<Seen>
    requires Enabled(ps, op)
  {
    Outstanding(ps) - Outstanding(Step(ps, op))
  }

  /** The forgotten reads, as records of one period with one value. */
  lemma {:induction false} ForgottenReads(ps: seq<Period>, op: Op) returns (rs: seq<ReadRecord>, value: Value)
    requires WellKept(ps) && Enabled(ps, op) && (op.OpWrite? || op.OpUndoWrite?)
    ensures Forgotten(ps, op) == Tagged(rs, value)
    ensures op.OpWrite? ==> Reported(ps, op) == AddAll(map[], rs)
    ensures op.OpUndoWrite? ==> Reported(ps, op) == AddAllAt(map[], rs, op.t)
    ensures forall r | r in rs :: r.time >= op.t
  {
    rs, value := [], IntValue(0);
    if op.OpWrite? {
      if ps == [] {
        assert Step(ps, op)[1..] == [];
      } else if WriteAccepted(ps, op.agent, op.t) {
        rs, value := WriteForgottenReads(ps, op.agent, op.value, op.t);
      }
    } else if Undoes(ps, op.agent, op.t) {
      rs, value := UndoForgottenReads(ps, op.agent, op.t);
    }
  }

  lemma {:induction false} UndoForgottenReads(ps: seq<Period>, agent: LpId, t: nat) returns (rs: seq<ReadRecord>, value: Value)
    requires WellKept(ps) && Undoes(ps, agent, t)
    ensures Outstanding(ps) - Outstanding(Undo(ps, agent, t)) == Tagged(rs, value)
    ensures UndoRollbacks(ps, agent, t, map[]) == AddAllAt(map[], rs, t)
    ensures forall r | r in rs :: r.time >= t
  {
    var i := FindStart(ps, t);
    rs, value := ps[i].readMap, ps[i].value;
    UndoForgets(ps, agent, t);
    assert Link(ps, i);
  }

  lemma {:induction false} WriteForgottenReads(ps: seq<Period>, agent: LpId, v: Value, t: nat)
    returns (rs: seq<ReadRecord>, value: Value)
    requires ps != [] && WriteAccepted(ps, agent, t)
    ensures Outstanding(ps) - Outstanding(Write(ps, agent, v, t)) == Tagged(rs, value)
    ensures WriteRollbacks(ps, agent, t, map[]) == AddAll(map[], rs)
    ensures forall r | r in rs :: r.time >= t
  {
    var p := ps[Find(ps, t)];
    rs, value := Keep(p.readMap, From(t)), p.value;
    WriteForgets(ps, agent, v, t);
  }

  /** Exactly the agents of the forgotten reads are in m, each at a time no later than every
      forgotten read of its, and never earlier than t. */
  ghost predicate IsReport(forgotten: multiset<Seen>, m: Rollbacks, t: nat)
  {
    && (forall s | s in forgotten :: s.agent in m && m[s.agent] <= s.time)
    && (forall a | a in m :: exists s | s in forgotten :: s.agent == a)
    && (forall a | a in m :: m[a] >= t)
  }

  /** The time a reported agent is told is that of one of its forgotten reads. */
  ghost predicate ReportsReads(forgotten: multiset<Seen>, m: Rollbacks)
  {
    forall a | a in m :: ReportsRead(forgotten, a, m[a])
  }

  ghost predicate ReportsRead(forgotten: multiset<Seen>, a: LpId, t: nat)
  {
    exists s | s in forgotten :: s.agent == a && s.time == t
  }

  lemma {:induction false} ReadsReported(rs: seq<ReadRecord>, value: Value, m: Rollbacks, t: nat)
    requires forall a :: a in m <==> exists r | r in rs :: r.agent == a
    requires forall r | r in rs :: m[r.agent] <= r.time
    requires forall a | a in m :: m[a] >= t
    ensures IsReport(Tagged(rs, value), m, t)
  {
    forall s | s in Tagged(rs, value)
      ensures s.agent in m && m[s.agent] <= s.time
    {
      TagMembers(rs, value, s);
    }
    forall a | a in m
      ensures exists s | s in Tagged(rs, value) :: s.agent == a
    {
      var r :| r in rs && r.agent == a;
      TagMembers(rs, value, Seen(a, r.time, value));
      assert Seen(a, r.time, value) in Tagged(rs, value);
    }
  }

  /** Every read a write or a write rollback invalidates is reported, and nothing else: by a write
      at the time of the agent's first such read, by a write rollback at its own time. */
  lemma {:induction false} ForgottenIsReported(ps: seq<Period>, op: Op)
    requires WellKept(ps) && Enabled(ps, op) && (op.OpWrite? || op.OpUndoWrite?)
    ensures IsReport(Forgotten(ps, op), Reported(ps, op), op.t)
    ensures op.OpWrite? ==> ReportsReads(Forgotten(ps, op), Reported(ps, op))
    ensures op.OpUndoWrite? ==> forall a | a in Reported(ps, op) :: Reported(ps, op)[a] == op.t
  {
    var rs, value := ForgottenReads(ps, op);
    AddAllReports(map[], rs);
    AddAllAtReports(map[], rs, op.t);
    ReadsReported(rs, value, Reported(ps, op), op.t);
    if op.OpWrite? {
      forall a | a in Reported(ps, op)
        ensures ReportsRead(Forgotten(ps, op), a, Reported(ps, op)[a])
      {
        var s := Seen(a, Reported(ps, op)[a], value);
        TagMembers(rs, value, s);
        assert s in Forgotten(ps, op);
      }
    }
  }
}
