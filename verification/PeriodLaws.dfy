/** What every operation preserves, and what it does to the value at each time. */
module PeriodLaws {
  import opened Base
  import opened Periods

  /** No period starts after t and up to u, so a write at t is what u sees. */
  predicate Reaches(ps: seq<Period>, t: nat, u: nat)
  {
    t <= u && forall j | 0 <= j < |ps| :: !(t < ps[j].start <= u)
  }

  /** Changing only recorded reads, all of which stay inside their period, is harmless. */
  lemma {:induction false} SameSkeletonKeeps(ps: seq<Period>, qs: seq<Period>)
    requires WellKept(ps) && |qs| == |ps|
    requires forall i | 0 <= i < |ps| :: qs[i] == ps[i].(readMap := qs[i].readMap)
    requires forall i, r | 0 <= i < |ps| && r in qs[i].readMap ::
               r in ps[i].readMap || (ps[i].start <= r.time < ps[i].end && r.time < LONG_MAX)
    ensures WellKept(qs)
    ensures forall u :: ValueAt(qs, u) == ValueAt(ps, u)
    ensures Distinct(ps) ==> Distinct(qs)
  {
    forall i | 0 <= i < |qs|
      ensures Link(qs, i)
    {
      assert Link(ps, i);
    }
    forall u
      ensures ValueAt(qs, u) == ValueAt(ps, u)
    {
      FindIs(qs, u, Find(ps, u));
    }
  }

  // ---- reads ----

  lemma {:induction false} ReadKeeps(ps: seq<Period>, agent: LpId, t: nat)
    requires WellKept(ps) && Find(ps, t) >= 0 && t < LONG_MAX
    ensures WellKept(Read(ps, agent, t))
    ensures forall u :: ValueAt(Read(ps, agent, t), u) == ValueAt(ps, u)
    ensures Distinct(ps) ==> Distinct(Read(ps, agent, t))
  {
    Covers(ps, t);
    SameSkeletonKeeps(ps, Read(ps, agent, t));
  }

  /** In a well-kept list the found period has not ended yet. */
  lemma {:induction false} Covers(ps: seq<Period>, t: nat)
    requires WellKept(ps) && Find(ps, t) >= 0 && t < LONG_MAX
    ensures ps[Find(ps, t)].start <= t < ps[Find(ps, t)].end
  {
    assert Link(ps, Find(ps, t));
  }

  lemma {:induction false} UndoReadKeeps(ps: seq<Period>, agent: LpId, t: nat)
    requires WellKept(ps) && Find(ps, t) >= 0
    ensures WellKept(UndoRead(ps, agent, t))
    ensures forall u :: ValueAt(UndoRead(ps, agent, t), u) == ValueAt(ps, u)
    ensures Distinct(ps) ==> Distinct(UndoRead(ps, agent, t))
  {
    SameSkeletonKeeps(ps, UndoRead(ps, agent, t));
  }

  // ---- writes ----

  /** qs is ps with a period starting at t put behind period i, which now ends there. */
  ghost predicate Spliced(ps: seq<Period>, i: nat, qs: seq<Period>, value: Value, t: nat)
  {
    && i < |ps| && |qs| == |ps| + 1 && ps[i].start <= t
    && (forall j | i < j < |ps| :: ps[j].start > t)
    && (forall j {:trigger qs[j]} | 0 <= j < i :: qs[j] == ps[j])
    && qs[i] == ps[i].(end := t, readMap := Keep(ps[i].readMap, Before(t)))
    && qs[i + 1] == Period(t, if i + 1 < |ps| then ps[i + 1].start else ULONG_MAX, value, qs[i + 1].agent, [])
    && (forall j {:trigger qs[j]} | i + 1 < j < |qs| :: qs[j] == ps[j - 1])
  }

  lemma WriteSplices(ps: seq<Period>, agent: LpId, value: Value, t: nat)
    requires ps != [] && WriteAccepted(ps, agent, t)
    ensures Spliced(ps, Find(ps, t), Write(ps, agent, value, t), value, t)
    ensures Write(ps, agent, value, t)[Find(ps, t) + 1].agent == agent
  {
  }

  lemma {:induction false} SplicedKeeps(ps: seq<Period>, i: nat, qs: seq<Period>, value: Value, t: nat)
    requires WellKept(ps) && Spliced(ps, i, qs, value, t) && t < LONG_MAX
    requires ps[i].start == t ==> !IdGreater(ps[i].agent, qs[i + 1].agent)
    ensures WellKept(qs)
    ensures Distinct(ps) && ps[i].start != t ==> Distinct(qs)
  {
    forall k | 0 <= k < |qs|
      ensures Link(qs, k)
    {
      assert Link(ps, i);
      if k < i {
        assert Link(ps, k);
      } else if k > i + 1 {
        assert Link(ps, k - 1);
      }
    }
  }

  lemma {:induction false} WriteKeeps(ps: seq<Period>, agent: LpId, value: Value, t: nat)
    requires WellKept(ps) && t < LONG_MAX
    ensures WellKept(Write(ps, agent, value, t))
    ensures Distinct(ps) && (forall j | 0 <= j < |ps| :: ps[j].start != t) ==>
              Distinct(Write(ps, agent, value, t))
  {
    if WriteAccepted(ps, agent, t) && ps != [] {
      WriteSplices(ps, agent, value, t);
      SplicedKeeps(ps, Find(ps, t), Write(ps, agent, value, t), value, t);
    }
  }

  lemma {:induction false} SplicedValue(ps: seq<Period>, i: nat, qs: seq<Period>, value: Value, t: nat, u: nat)
    requires Sorted(ps) && Spliced(ps, i, qs, value, t)
    ensures ValueAt(qs, u) == if Reaches(ps, t, u) then Some(value) else ValueAt(ps, u)
  {
    var k := Find(ps, u);
    if k > i {
      FindIs(qs, u, k + 1);
    } else if u >= t {
      FindIs(qs, u, i + 1);
    } else {
      FindIs(qs, u, k);
    }
  }

  /** An accepted write is what every later time up to the next write reads; all other
      times read what they did. A refused write changes nothing. */
  lemma {:induction false} WriteValue(ps: seq<Period>, agent: LpId, value: Value, t: nat, u: nat)
    requires Sorted(ps)
    ensures WriteAccepted(ps, agent, t) ==>
              ValueAt(Write(ps, agent, value, t), u) ==
              if Reaches(ps, t, u) then Some(value) else ValueAt(ps, u)
    ensures !WriteAccepted(ps, agent, t) ==> Write(ps, agent, value, t) == ps
  {
    if WriteAccepted(ps, agent, t) && ps != [] {
      WriteSplices(ps, agent, value, t);
      SplicedValue(ps, Find(ps, t), Write(ps, agent, value, t), value, t, u);
    }
  }

  /** When a write is refused: it is earlier than everything known, or another agent with a
      greater id has already written at that very time. */
  lemma {:induction false} WriteRefusedIff(ps: seq<Period>, agent: LpId, t: nat)
    requires Sorted(ps)
    ensures !WriteAccepted(ps, agent, t) <==>
              ps != [] && (t < ps[0].start ||
                exists i | 0 <= i < |ps| :: ps[i].start == t && IdGreater(ps[i].agent, agent) &&
                  forall j | i < j < |ps| :: ps[j].start > t)
  {
    if ps != [] && !WriteAccepted(ps, agent, t) && Find(ps, t) >= 0 {
      assert ps[Find(ps, t)].start == t;
    }
    forall i | 0 <= i < |ps| && ps[i].start == t && forall j | i < j < |ps| :: ps[j].start > t
      ensures Find(ps, t) == i
    {
      FindIs(ps, t, i);
    }
    if ps != [] && t < ps[0].start {
      FindIs(ps, t, -1);
    }
  }

  // ---- taking a write back ----

  /** qs is ps without period i, whose predecessor takes over its end. */
  ghost predicate Removed(ps: seq<Period>, i: nat, qs: seq<Period>)
  {
    && i < |ps| && |qs| == |ps| - 1
    && (forall j {:trigger qs[j]} | 0 <= j < i - 1 :: qs[j] == ps[j])
    && (i > 0 ==> qs[i - 1] == ps[i - 1].(end := if i + 1 < |ps| then ps[i].end else LONG_MAX))
    && (forall j {:trigger qs[j]} | i <= j < |qs| :: qs[j] == ps[j + 1])
  }

  lemma UndoRemoves(ps: seq<Period>, agent: LpId, t: nat)
    requires Undoes(ps, agent, t)
    ensures Removed(ps, FindStart(ps, t), Undo(ps, agent, t))
  {
  }

  lemma {:induction false} RemovedKeeps(ps: seq<Period>, i: nat, qs: seq<Period>)
    requires WellKept(ps) && Removed(ps, i, qs)
    requires forall j | 0 <= j < i :: ps[j].start != ps[i].start
    ensures WellKept(qs)
    ensures Distinct(ps) ==> Distinct(qs)
  {
    forall k | 0 <= k < |qs|
      ensures Link(qs, k)
    {
      assert Link(ps, k);
      assert Link(ps, k + 1);
    }
  }

  lemma {:induction false} UndoKeeps(ps: seq<Period>, agent: LpId, t: nat)
    requires WellKept(ps)
    ensures WellKept(Undo(ps, agent, t))
    ensures Distinct(ps) ==> Distinct(Undo(ps, agent, t))
  {
    if Undoes(ps, agent, t) {
      UndoRemoves(ps, agent, t);
      RemovedKeeps(ps, FindStart(ps, t), Undo(ps, agent, t));
    }
  }

  lemma {:induction false} RemovedFind(ps: seq<Period>, i: nat, qs: seq<Period>, u: nat)
    requires Sorted(ps) && Removed(ps, i, qs)
    ensures Find(qs, u) == if Find(ps, u) >= i then Find(ps, u) - 1 else Find(ps, u)
  {
    var k := Find(ps, u);
    if k >= i {
      if k > 0 { assert qs[k - 1].start <= u; }
      FindIs(qs, u, k - 1);
    } else {
      FindIs(qs, u, k);
    }
  }

  /** Exactly the times that saw the write fall back to the one before it. */
  lemma {:induction false} UndoValue(ps: seq<Period>, agent: LpId, t: nat, u: nat)
    requires Sorted(ps)
    ensures Undoes(ps, agent, t) ==>
              ValueAt(Undo(ps, agent, t), u) ==
              if Find(ps, u) != FindStart(ps, t) then ValueAt(ps, u)
              else if FindStart(ps, t) == 0 then None
              else Some(ps[FindStart(ps, t) - 1].value)
  {
    if Undoes(ps, agent, t) {
      UndoRemoves(ps, agent, t);
      RemovedFind(ps, FindStart(ps, t), Undo(ps, agent, t), u);
    }
  }

  // ---- garbage collection ----

  lemma {:induction false} MoveBaseKeeps(ps: seq<Period>, t: nat)
    requires WellKept(ps) && Find(ps, t) >= 0 && t < LONG_MAX
    ensures WellKeptFrom(MoveBase(ps, t), FindStart(MoveBase(ps, t), t))
    ensures FindStart(MoveBase(ps, t), t) <= Find(ps, t)
    ensures Distinct(ps) ==> forall j, k | FindStart(MoveBase(ps, t), t) <= j < k < |ps| ::
              MoveBase(ps, t)[j].start < MoveBase(ps, t)[k].start
  {
    var i, qs := Find(ps, t), MoveBase(ps, t);
    var k := FindStart(qs, t);
    assert qs[i].start == t;
    Covers(ps, t);
    forall j | k <= j < |qs|
      ensures Link(qs, j)
    {
      assert Link(ps, j);
      if j < i { assert ps[k].start <= ps[j].start <= ps[i].start <= t; }
    }
    forall j, l | k <= j < l < |qs|
      ensures qs[j].start <= qs[l].start
      ensures Distinct(ps) ==> qs[j].start < qs[l].start
    {
      if j < i { assert ps[k].start <= ps[j].start <= ps[i].start <= t; }
    }
  }

  /** The part of the list from k on is well kept. */
  ghost predicate WellKeptFrom(ps: seq<Period>, k: nat)
  {
    && (forall i, j | k <= i < j < |ps| :: ps[i].start <= ps[j].start)
    && forall i {:trigger Link(ps, i)} | k <= i < |ps| :: Link(ps, i)
  }

  lemma {:induction false} SuffixKeeps(ps: seq<Period>, k: nat)
    requires k <= |ps| && WellKeptFrom(ps, k)
    ensures WellKept(ps[k..])
  {
    var qs := ps[k..];
    forall j | 0 <= j < |qs|
      ensures Link(qs, j)
    {
      assert Link(ps, j + k);
    }
  }

  /** Collection leaves every time from t on as it was, and the list then starts at t. */
  lemma {:induction false} CollectKeeps(ps: seq<Period>, t: nat)
    requires WellKept(ps) && t < LONG_MAX
    ensures WellKept(Collect(ps, t))
    ensures Distinct(ps) ==> Distinct(Collect(ps, t))
    ensures forall u | u >= t :: ValueAt(Collect(ps, t), u) == ValueAt(ps, u)
    ensures Find(ps, t) >= 0 ==> Collect(ps, t) != [] && Collect(ps, t)[0].start == t
    ensures Find(ps, t) < 0 ==> Collect(ps, t) == ps
  {
    if Find(ps, t) >= 0 {
      MoveBaseKeeps(ps, t);
      SuffixKeeps(MoveBase(ps, t), FindStart(MoveBase(ps, t), t));
      forall u | u >= t
        ensures ValueAt(Collect(ps, t), u) == ValueAt(ps, u)
      {
        CollectValue(ps, t, u);
      }
    }
  }

  /** Collect(ps, t) is ps without its first c periods, the found one moved up to t. */
  ghost predicate IsTail(ps: seq<Period>, t: nat, c: nat, qs: seq<Period>)
  {
    var i := Find(ps, t);
    && c <= i && |qs| == |ps| - c
    && (forall j {:trigger qs[j]} | 0 <= j < i - c :: qs[j].start <= t)
    && qs[i - c].start == t && qs[i - c].value == ps[i].value && qs[i - c].agent == ps[i].agent
    && (forall j {:trigger qs[j]} | i - c < j < |qs| :: qs[j] == ps[j + c])
  }

  lemma {:induction false} SuffixIsTail(ps: seq<Period>, t: nat, c: nat, moved: seq<Period>, qs: seq<Period>)
    requires Find(ps, t) >= 0 && c <= Find(ps, t) && |moved| == |ps| && qs == moved[c..]
    requires forall j | c <= j < Find(ps, t) :: moved[j].start <= t
    requires moved[Find(ps, t)] == ps[Find(ps, t)].(start := t, readMap := moved[Find(ps, t)].readMap)
    requires forall j {:trigger moved[j]} | Find(ps, t) < j < |ps| :: moved[j] == ps[j]
    ensures IsTail(ps, t, c, qs)
  {
    assert forall j {:trigger qs[j]} | 0 <= j < |qs| :: qs[j] == moved[j + c];
  }

  lemma {:induction false} CollectTail(ps: seq<Period>, t: nat) returns (c: nat)
    requires WellKept(ps) && Find(ps, t) >= 0 && t < LONG_MAX
    ensures IsTail(ps, t, c, Collect(ps, t))
  {
    var moved := MoveBase(ps, t);
    c := FindStart(moved, t);
    MoveBaseKeeps(ps, t);
    SuffixIsTail(ps, t, c, moved, moved[c..]);
  }

  /** From t on, the walk through the collected list finds the same period. */
  lemma {:induction false} TailFind(ps: seq<Period>, t: nat, c: nat, qs: seq<Period>, u: nat)
    requires Find(ps, t) >= 0 && IsTail(ps, t, c, qs) && u >= t
    ensures Find(ps, t) <= Find(ps, u) && Find(qs, u) == Find(ps, u) - c
  {
    FindIs(qs, u, Find(ps, u) - c);
  }

  lemma {:induction false} TailValue(ps: seq<Period>, t: nat, c: nat, qs: seq<Period>, u: nat)
    requires Find(ps, t) >= 0 && IsTail(ps, t, c, qs) && u >= t
    ensures ValueAt(qs, u) == ValueAt(ps, u)
  {
    TailFind(ps, t, c, qs, u);
  }

  lemma {:induction false} CollectValue(ps: seq<Period>, t: nat, u: nat)
    requires WellKept(ps) && Find(ps, t) >= 0 && t < LONG_MAX && u >= t
    ensures ValueAt(Collect(ps, t), u) == ValueAt(ps, u)
  {
    var c := CollectTail(ps, t);
    TailValue(ps, t, c, Collect(ps, t), u);
  }
}
