/** One shared variable as the list of its write periods (src/state/StateVariable.cpp,
    src/state/WritePeriod.cpp): what every operation does to that list, as functions. The
    classes in StateVariable.dfy are proved against these; the theorems are about them. */
module Periods {
  import opened Base

  datatype ReadRecord = ReadRecord(agent: LpId, time: nat)

  datatype Period = Period(start: nat, end: nat, value: Value, agent: LpId, readMap: seq<ReadRecord>)

  /** Which agents have to roll back, and to when. */
  type Rollbacks = map<LpId, nat>

  // ---- the recorded reads of one period ----

  /** The three tests the removal loops keep reads by. */
  datatype Test = Before(t: nat) | From(t: nat) | NotThisRead(agent: LpId, t: nat)

  predicate Passes(test: Test, r: ReadRecord)
  {
    match test
    case Before(t) => r.time < t
    case From(t) => r.time >= t
    case NotThisRead(agent, t) => !(r.agent == agent && r.time == t)
  }

  function Keep(rs: seq<ReadRecord>, test: Test): (kept: seq<ReadRecord>)
    ensures forall r :: r in kept <==> r in rs && Passes(test, r)
    ensures |kept| <= |rs|
  {
    if rs == [] then []
    else if Passes(test, rs[0]) then [rs[0]] + Keep(rs[1..], test)
    else Keep(rs[1..], test)
  }

  /** A multimap inserts behind every key that is not greater. */
  function InsertAt(rs: seq<ReadRecord>, agent: LpId): (k: nat)
    ensures k <= |rs|
    ensures forall i | 0 <= i < k :: !IdLess(agent, rs[i].agent)
    ensures k < |rs| ==> IdLess(agent, rs[k].agent)
  {
    if rs == [] || IdLess(agent, rs[0].agent) then 0
    else 1 + InsertAt(rs[1..], agent)
  }

  function InsertRead(rs: seq<ReadRecord>, r: ReadRecord): seq<ReadRecord>
  {
    var k := InsertAt(rs, r.agent);
    rs[..k] + [r] + rs[k..]
  }

  /** An agent is listed once, with its earliest time. */
  function AddLp(m: Rollbacks, agent: LpId, t: nat): Rollbacks
  {
    if agent in m && m[agent] <= t then m else m[agent := t]
  }

  /** Each read's agent, at the time of the read. */
  function AddAll(m: Rollbacks, rs: seq<ReadRecord>): Rollbacks
    decreases |rs|
  {
    if rs == [] then m else AddAll(AddLp(m, rs[0].agent, rs[0].time), rs[1..])
  }

  /** Each read's agent, all at time t. */
  function AddAllAt(m: Rollbacks, rs: seq<ReadRecord>, t: nat): Rollbacks
    decreases |rs|
  {
    if rs == [] then m else AddAllAt(AddLp(m, rs[0].agent, t), rs[1..], t)
  }

  // ---- the operations on the list ----

  /** The reverse walk: the last period that starts at or before t, -1 if there is none. */
  function Find(ps: seq<Period>, t: nat): (i: int)
    ensures -1 <= i < |ps|
    ensures i >= 0 ==> ps[i].start <= t
    ensures forall j | i < j < |ps| :: ps[j].start > t
  {
    if ps == [] then -1
    else if ps[|ps| - 1].start <= t then |ps| - 1
    else Find(ps[..|ps| - 1], t)
  }

  /** The forward walk: the first period that starts at t, |ps| if there is none. */
  function FindStart(ps: seq<Period>, t: nat): (i: nat)
    ensures i <= |ps|
    ensures i < |ps| ==> ps[i].start == t
    ensures forall j | 0 <= j < i :: ps[j].start != t
  {
    if ps == [] || ps[0].start == t then 0 else 1 + FindStart(ps[1..], t)
  }

  function ValueAt(ps: seq<Period>, t: nat): Option<Value>
  {
    var i := Find(ps, t);
    if i < 0 then None else Some(ps[i].value)
  }

  function Read(ps: seq<Period>, agent: LpId, t: nat): seq<Period>
    requires Find(ps, t) >= 0
  {
    var i := Find(ps, t);
    ps[i := ps[i].(readMap := InsertRead(ps[i].readMap, ReadRecord(agent, t)))]
  }

  /** A write earlier than every period, or losing the tie at an equal start, fails. */
  predicate WriteAccepted(ps: seq<Period>, agent: LpId, t: nat)
  {
    ps == [] ||
    var i := Find(ps, t);
    i >= 0 && !(ps[i].start == t && IdGreater(ps[i].agent, agent))
  }

  function Write(ps: seq<Period>, agent: LpId, value: Value, t: nat): seq<Period>
  {
    if !WriteAccepted(ps, agent, t) then ps
    else if ps == [] then [Period(t, ULONG_MAX, value, agent, [])]
    else
      var i := Find(ps, t);
      var before := ps[i].(end := t, readMap := Keep(ps[i].readMap, Before(t)));
      var end := if i + 1 < |ps| then ps[i + 1].start else ULONG_MAX;
      ps[..i] + [before, Period(t, end, value, agent, [])] + ps[i + 1..]
  }

  function WriteRollbacks(ps: seq<Period>, agent: LpId, t: nat, m: Rollbacks): Rollbacks
  {
    if ps == [] || !WriteAccepted(ps, agent, t) then m
    else AddAll(m, Keep(ps[Find(ps, t)].readMap, From(t)))
  }

  /** Only the owner, as the source's != sees it, takes a write back. */
  predicate Undoes(ps: seq<Period>, agent: LpId, t: nat)
  {
    var i := FindStart(ps, t);
    i < |ps| && !IdNotEqual(ps[i].agent, agent)
  }

  function Undo(ps: seq<Period>, agent: LpId, t: nat): seq<Period>
  {
    if !Undoes(ps, agent, t) then ps
    else
      var i := FindStart(ps, t);
      if |ps| == 1 then []
      else if i == |ps| - 1 then ps[..i - 1] + [ps[i - 1].(end := LONG_MAX)]
      else if i == 0 then ps[1..]
      else ps[..i - 1] + [ps[i - 1].(end := ps[i].end)] + ps[i + 1..]
  }

  function UndoRollbacks(ps: seq<Period>, agent: LpId, t: nat, m: Rollbacks): Rollbacks
  {
    if !Undoes(ps, agent, t) then m else AddAllAt(m, ps[FindStart(ps, t)].readMap, t)
  }

  function UndoRead(ps: seq<Period>, agent: LpId, t: nat): seq<Period>
    requires Find(ps, t) >= 0
  {
    var i := Find(ps, t);
    ps[i := ps[i].(readMap := Keep(ps[i].readMap, NotThisRead(agent, t)))]
  }

  /** Garbage collection moves the period covering t up to t ... */
  function MoveBase(ps: seq<Period>, t: nat): seq<Period>
    requires Find(ps, t) >= 0
  {
    var i := Find(ps, t);
    ps[i := ps[i].(start := t, readMap := Keep(ps[i].readMap, From(t)))]
  }

  /** ... and erases from the front until a period starts there. */
  function Collect(ps: seq<Period>, t: nat): seq<Period>
  {
    if Find(ps, t) < 0 then ps
    else
      var moved := MoveBase(ps, t);
      moved[FindStart(moved, t)..]
  }

  // ---- what a well-kept list looks like ----

  predicate Infinite(end: nat)
  {
    end == LONG_MAX || end == ULONG_MAX
  }

  ghost predicate Sorted(ps: seq<Period>)
  {
    forall i, j | 0 <= i < j < |ps| :: ps[i].start <= ps[j].start
  }

  /** No two periods start at the same time. */
  ghost predicate Distinct(ps: seq<Period>)
  {
    forall i, j | 0 <= i < j < |ps| :: ps[i].start < ps[j].start
  }

  /** Period i ends where the next one starts, or never; equal starts are in the order the
      tie-breaker lets them in; every recorded read lies inside the period. */
  ghost predicate Link(ps: seq<Period>, i: nat)
    requires i < |ps|
  {
    && ps[i].start < LONG_MAX
    && (if i + 1 < |ps| then
          && ps[i].end == ps[i + 1].start
          && (ps[i].start == ps[i + 1].start ==> !IdGreater(ps[i].agent, ps[i + 1].agent))
        else Infinite(ps[i].end))
    && forall r | r in ps[i].readMap :: ps[i].start <= r.time < ps[i].end && r.time < LONG_MAX
  }

  ghost predicate WellKept(ps: seq<Period>)
  {
    Sorted(ps) && forall i {:trigger Link(ps, i)} | 0 <= i < |ps| :: Link(ps, i)
  }

  /** In a sorted list the walk stops at i exactly when t lies from its start up to the
      next start. */
  lemma FindIs(ps: seq<Period>, t: nat, i: int)
    requires -1 <= i < |ps|
    requires i >= 0 ==> ps[i].start <= t
    requires forall j | i < j < |ps| :: ps[j].start > t
    ensures Find(ps, t) == i
  {
  }
}
