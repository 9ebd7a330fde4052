/** The range periods of one port (src/rangequery/RangeRoutingTable.cpp). */
module RangePeriods {
  import opened Base
  import opened RangeTracker
  import opened RangeQuery

  // Why a range query finds one on every port it may be tried on. Which range a period holds is
  // data here.

  datatype Range = Range(minX: int, minY: int, maxX: int, maxY: int)

  datatype RangePeriod = RangePeriod(time: nat, range: Option<Range>)

  ghost predicate Covered(ps: seq<RangePeriod>, t: nat)
  {
    exists i :: 0 <= i < |ps| && ps[i].time <= t
  }

  /** The walk from the end: the last period at or before t, -1 if there is none. */
  function FindPeriod(ps: seq<RangePeriod>, t: nat): (i: int)
    ensures -1 <= i < |ps|
    ensures i >= 0 ==> ps[i].time <= t
    ensures forall j | i < j < |ps| :: ps[j].time > t
  {
    if ps == [] then -1
    else if ps[|ps| - 1].time <= t then |ps| - 1
    else FindPeriod(ps[..|ps| - 1], t)
  }

  /** The walk from the front: the first period later than t, |ps| if there is none. */
  function FirstAfter(ps: seq<RangePeriod>, t: nat): (i: nat)
    ensures i <= |ps|
    ensures i < |ps| ==> ps[i].time > t
    ensures forall j | 0 <= j < i :: ps[j].time <= t
  {
    if ps == [] || ps[0].time > t then 0 else 1 + FirstAfter(ps[1..], t)
  }

  /** ... and the first one at exactly t. */
  function FirstAt(ps: seq<RangePeriod>, t: nat): (i: nat)
    ensures i <= |ps|
    ensures i < |ps| ==> ps[i].time == t
    ensures forall j | 0 <= j < i :: ps[j].time != t
  {
    if ps == [] || ps[0].time == t then 0 else 1 + FirstAt(ps[1..], t)
  }

  function Inserted(ps: seq<RangePeriod>, t: nat, p: RangePeriod): seq<RangePeriod>
  {
    ps[..FirstAfter(ps, t)] + [p] + ps[FirstAfter(ps, t)..]
  }

  function Deleted(ps: seq<RangePeriod>, t: nat): seq<RangePeriod>
  {
    var i := FirstAt(ps, t);
    if i == |ps| then ps else ps[..i] + ps[i + 1..]
  }

  function Cleared(ps: seq<RangePeriod>, t: nat): seq<RangePeriod>
  {
    var i := FindPeriod(ps, t);
    if i < 0 then ps
    else
      var moved := ps[i := ps[i].(time := t)];
      moved[FirstAt(moved, t)..]
  }

  /** A range that differs gets a period of its own, unless there is one at that time; where a
      range appears or disappears, the period found is overwritten. */
  function Updated(ps: seq<RangePeriod>, t: nat, range: Option<Range>): seq<RangePeriod>
  {
    var i := FindPeriod(ps, t);
    if i < 0 then Inserted(ps, t, RangePeriod(t, range))
    else if range.Some? && ps[i].range.Some? then
      if range == ps[i].range then ps
      else if ps[i].time != t then Inserted(ps, t, RangePeriod(t, range))
      else ps[i := ps[i].(range := range)]
    else ps[i := ps[i].(range := range)]
  }

  /** The later periods before end, from the second one after t on, are computed anew. */
  function Recalculated(ps: seq<RangePeriod>, from: nat, end: nat, anew: nat -> Option<Range>): (qs: seq<RangePeriod>)
    ensures |qs| == |ps| && forall i | 0 <= i < |ps| :: qs[i].time == ps[i].time
    decreases |ps| - from
  {
    if from >= |ps| || ps[from].time >= end then ps
    else Recalculated(ps[from := ps[from].(range := anew(ps[from].time))], from + 1, end, anew)
  }

  function RecalculatedAfter(qs: seq<RangePeriod>, t: nat, end: nat, anew: nat -> Option<Range>): (rs: seq<RangePeriod>)
    ensures |rs| == |qs| && forall i | 0 <= i < |qs| :: rs[i].time == qs[i].time
  {
    if |qs| > 1 && qs[|qs| - 1].time != t && FirstAfter(qs, t) < |qs| then
      Recalculated(qs, FirstAfter(qs, t) + 1, end, anew)
    else qs
  }

  function UpdatedOn(ps: seq<RangePeriod>, t: nat, range: Option<Range>, end: nat, anew: nat -> Option<Range>): seq<RangePeriod>
  {
    if FindPeriod(ps, t) < 0 then Updated(ps, t, range)
    else RecalculatedAfter(Updated(ps, t, range), t, end, anew)
  }

  class RangeRoutingTable {
    var rangePeriodList: seq<RangePeriod>

    constructor ()
      ensures rangePeriodList == []
    {
      rangePeriodList := [];
    }

    method HasRangePeriod(t: nat) returns (has: bool)
      ensures has <==> Covered(rangePeriodList, t)
    {
      var i := |rangePeriodList|;
      while i > 0
        invariant 0 <= i <= |rangePeriodList| && forall j | i <= j < |rangePeriodList| :: rangePeriodList[j].time > t
      {
        if rangePeriodList[i - 1].time <= t { return true; }
        i := i - 1;
      }
      return false;
    }

    method ReverseFind(t: nat) returns (i: int)
      ensures i == FindPeriod(rangePeriodList, t)
    {
      i := |rangePeriodList| - 1;
      while i >= 0 && rangePeriodList[i].time > t
        invariant -1 <= i < |rangePeriodList| && forall j | i < j < |rangePeriodList| :: rangePeriodList[j].time > t
      {
        i := i - 1;
      }
    }

    method GetRangeCopy(t: nat) returns (range: Option<Range>)
      ensures var i := FindPeriod(rangePeriodList, t); range == if i < 0 then None else rangePeriodList[i].range
    {
      var i := ReverseFind(t);
      range := if i < 0 then None else rangePeriodList[i].range;
    }

    method FindAfter(t: nat) returns (i: nat)
      ensures i == FirstAfter(rangePeriodList, t)
    {
      i := 0;
      while i < |rangePeriodList| && rangePeriodList[i].time <= t
        invariant i <= |rangePeriodList|
        invariant forall j | 0 <= j < i :: rangePeriodList[j].time <= t
      {
        i := i + 1;
      }
    }

    method InsertRangePeriod(t: nat, p: RangePeriod)
      modifies this
      ensures rangePeriodList == Inserted(old(rangePeriodList), t, p)
    {
      var i := FindAfter(t);
      rangePeriodList := rangePeriodList[..i] + [p] + rangePeriodList[i..];
    }

    method DeleteRangePeriod(t: nat)
      modifies this
      ensures rangePeriodList == Deleted(old(rangePeriodList), t)
      ensures var before := old(rangePeriodList);
              if forall p | p in before :: p.time != t then rangePeriodList == before
              else exists i :: 0 <= i < |before| && before[i].time == t && (forall j | 0 <= j < i :: before[j].time != t)
                               && rangePeriodList == before[..i] + before[i + 1..]
    {
      var i: nat := 0;
      while i < |rangePeriodList| && rangePeriodList[i].time != t
        invariant i <= |rangePeriodList| && rangePeriodList == old(rangePeriodList)
        invariant forall j | 0 <= j < i :: rangePeriodList[j].time != t
      {
        i := i + 1;
      }
      if i < |rangePeriodList| {
        rangePeriodList := rangePeriodList[..i] + rangePeriodList[i + 1..];
      }
    }

    /** A new GVT: the period covering it starts there, and what is before it goes. */
    method ClearRangePeriods(t: nat)
      modifies this
      ensures rangePeriodList == Cleared(old(rangePeriodList), t)
    {
      var i := ReverseFind(t);
      if i < 0 { return; }
      if rangePeriodList[i].time != t {
        rangePeriodList := rangePeriodList[i := rangePeriodList[i].(time := t)];
      }
      ghost var moved := rangePeriodList;
      assert moved == old(rangePeriodList)[i := old(rangePeriodList)[i].(time := t)];
      ghost var gone: nat := 0;
      while |rangePeriodList| > 0 && rangePeriodList[0].time != t
        invariant gone <= |moved| && rangePeriodList == moved[gone..]
        invariant forall j | 0 <= j < gone :: moved[j].time != t
        decreases |rangePeriodList|
      {
        rangePeriodList := rangePeriodList[1..];
        gone := gone + 1;
      }
    }

    method ProcessRangeUpdate(t: nat, range: Option<Range>)
      modifies this
      ensures rangePeriodList == Updated(old(rangePeriodList), t, range)
    {
      var i := ReverseFind(t);
      if i < 0 {
        InsertRangePeriod(t, RangePeriod(t, range));
        return;
      }
      var oldRange := rangePeriodList[i].range;
      if range.Some? && oldRange.Some? {
        if range != oldRange {
          if rangePeriodList[i].time != t {
            InsertRangePeriod(t, RangePeriod(t, range));
          } else {
            rangePeriodList := rangePeriodList[i := rangePeriodList[i].(range := range)];
          }
        }
      } else {
        rangePeriodList := rangePeriodList[i := rangePeriodList[i].(range := range)];
      }
    }

    /** anew is what the shared state recalculates for a time. */
    method Update(t: nat, range: Option<Range>, end: nat, anew: nat -> Option<Range>)
      modifies this
      ensures rangePeriodList == UpdatedOn(old(rangePeriodList), t, range, end, anew)
    {
      var found := ReverseFind(t);
      ProcessRangeUpdate(t, range);
      if found >= 0 && |rangePeriodList| > 1 && rangePeriodList[|rangePeriodList| - 1].time != t {
        var i := FindAfter(t);
        if i < |rangePeriodList| {
          RecalculateFrom(i + 1, end, anew);
        }
      }
    }

    method RecalculateFrom(from: nat, end: nat, anew: nat -> Option<Range>)
      requires from <= |rangePeriodList|
      modifies this
      ensures rangePeriodList == Recalculated(old(rangePeriodList), from, end, anew)
    {
      var i := from;
      while i < |rangePeriodList| && rangePeriodList[i].time < end
        invariant i <= |rangePeriodList| == |old(rangePeriodList)|
        invariant Recalculated(rangePeriodList, i, end, anew) == Recalculated(old(rangePeriodList), from, end, anew)
      {
        rangePeriodList := rangePeriodList[i := rangePeriodList[i].(range := anew(rangePeriodList[i].time))];
        i := i + 1;
      }
    }
  }

  // ---- every run of one table ----

  datatype TableOp =
    | RangeUpdate(t: nat, range: Option<Range>)
    | VariableUpdate(t: nat, range: Option<Range>, end: nat, anew: nat -> Option<Range>)
    | NewGvt(t: nat)

  function Step(ps: seq<RangePeriod>, op: TableOp): seq<RangePeriod>
  {
    match op
    case RangeUpdate(t, range) => Updated(ps, t, range)
    case VariableUpdate(t, range, end, anew) => UpdatedOn(ps, t, range, end, anew)
    case NewGvt(t) => Cleared(ps, t)
  }

  function Run(ps: seq<RangePeriod>, ops: seq<TableOp>): seq<RangePeriod>
  {
    if ops == [] then ps else Step(Run(ps, ops[..|ops| - 1]), ops[|ops| - 1])
  }

  /** What InitialisePortRanges leaves: a period at the start, which for the CLP's own range may
      have been deleted and inserted again. */
  function Initial(start: nat, range: Option<Range>, corrected: Option<Option<Range>>): seq<RangePeriod>
  {
    var ps := Inserted([], start, RangePeriod(start, range));
    if corrected.None? then ps else Inserted(Deleted(ps, start), start, RangePeriod(start, corrected.value))
  }

  function LatestGvt(start: nat, ops: seq<TableOp>): nat
  {
    if ops == [] then start
    else
      var g := LatestGvt(start, ops[..|ops| - 1]);
      if ops[|ops| - 1].NewGvt? && ops[|ops| - 1].t > g then ops[|ops| - 1].t else g
  }

  lemma {:induction false} InsertCovers(ps: seq<RangePeriod>, t: nat, p: RangePeriod, g: nat)
    requires Covered(ps, g)
    ensures Covered(Inserted(ps, t, p), g)
  {
    var i :| 0 <= i < |ps| && ps[i].time <= g;
    var j := if i < FirstAfter(ps, t) then i else i + 1;
    assert Inserted(ps, t, p)[j] == ps[i];
  }

  lemma {:induction false} UpdateCovers(ps: seq<RangePeriod>, t: nat, range: Option<Range>, g: nat)
    requires Covered(ps, g)
    ensures Covered(Updated(ps, t, range), g)
  {
    InsertCovers(ps, t, RangePeriod(t, range), g);
    var k :| 0 <= k < |ps| && ps[k].time <= g;
    var i := FindPeriod(ps, t);
    if i >= 0 {
      assert ps[i := ps[i].(range := range)][k].time == ps[k].time;
    }
  }

  lemma {:induction false} StepCovers(ps: seq<RangePeriod>, op: TableOp, g: nat)
    requires Covered(ps, g)
    ensures Covered(Step(ps, op), if op.NewGvt? && op.t > g then op.t else g)
  {
    match op
    case RangeUpdate(t, range) => UpdateCovers(ps, t, range, g);
    case VariableUpdate(t, range, end, anew) =>
      UpdateCovers(ps, t, range, g);
      var qs := Updated(ps, t, range);
      var k :| 0 <= k < |qs| && qs[k].time <= g;
      assert Step(ps, op)[k].time == qs[k].time;
    case NewGvt(t) =>
      var i := FindPeriod(ps, t);
      if i >= 0 {
        var moved := ps[i := ps[i].(time := t)];
        assert moved[i].time == t;
        assert FirstAt(moved, t) <= i;
        assert Cleared(ps, t)[0].time == t;
      } else {
        var k :| 0 <= k < |ps| && ps[k].time <= g;
        assert Cleared(ps, t)[k].time <= g;
      }
  }

  /** A table always has a period for every time from the start and the latest GVT on. */
  lemma {:induction false} AlwaysCovered(start: nat, range: Option<Range>, corrected: Option<Option<Range>>,
                                         ops: seq<TableOp>, t: nat)
    requires t >= LatestGvt(start, ops)
    ensures Covered(Run(Initial(start, range, corrected), ops), t)
    decreases |ops|
  {
    if ops == [] {
      assert Initial(start, range, corrected)[0].time == start;
    } else {
      var before, g := ops[..|ops| - 1], LatestGvt(start, ops[..|ops| - 1]);
      var ps := Run(Initial(start, range, corrected), before);
      AlwaysCovered(start, range, corrected, before, g);
      StepCovers(ps, ops[|ops| - 1], g);
      var now := Step(ps, ops[|ops| - 1]);
      var k :| 0 <= k < |now| && now[k].time <= LatestGvt(start, ops);
      assert now[k].time <= t;
    }
  }

  // ---- what a table answers ----

  ghost predicate InOrder(ps: seq<RangePeriod>)
  {
    forall i, j | 0 <= i < j < |ps| :: ps[i].time <= ps[j].time
  }

  function RangeAt(ps: seq<RangePeriod>, u: nat): Option<Range>
  {
    var i := FindPeriod(ps, u);
    if i < 0 then None else ps[i].range
  }

  lemma PeriodIs(ps: seq<RangePeriod>, u: nat, i: int)
    requires -1 <= i < |ps| && (i >= 0 ==> ps[i].time <= u) && forall j | i < j < |ps| :: ps[j].time > u
    ensures FindPeriod(ps, u) == i
  {
  }

  /** The update at t is what is in force at u: no period starts in between. */
  predicate InForce(ps: seq<RangePeriod>, t: nat, u: nat)
  {
    t <= u && forall j | 0 <= j < |ps| :: !(t < ps[j].time <= u)
  }

  /** qs is ps with p put in at k, behind everything not later than it. */
  ghost predicate PutIn(ps: seq<RangePeriod>, k: nat, p: RangePeriod, qs: seq<RangePeriod>)
  {
    && k <= |ps| && |qs| == |ps| + 1 && qs[k] == p
    && (forall j {:trigger qs[j]} | 0 <= j < k :: qs[j] == ps[j] && ps[j].time <= p.time)
    && (forall j {:trigger qs[j]} | k < j < |qs| :: qs[j] == ps[j - 1] && ps[j - 1].time > p.time)
  }

  lemma InsertedPutsIn(ps: seq<RangePeriod>, p: RangePeriod)
    requires InOrder(ps)
    ensures PutIn(ps, FirstAfter(ps, p.time), p, Inserted(ps, p.time, p))
  {
  }

  lemma PutInKeepsOrder(ps: seq<RangePeriod>, k: nat, p: RangePeriod, qs: seq<RangePeriod>)
    requires InOrder(ps) && PutIn(ps, k, p, qs)
    ensures InOrder(qs)
  {
  }

  lemma {:induction false} PutInAnswers(ps: seq<RangePeriod>, k: nat, p: RangePeriod, qs: seq<RangePeriod>, u: nat)
    requires PutIn(ps, k, p, qs)
    ensures RangeAt(qs, u) == if InForce(ps, p.time, u) then p.range else RangeAt(ps, u)
  {
    var f := FindPeriod(ps, u);
    forall j: nat | k <= j < |ps|
      ensures ps[j].time > p.time && qs[j + 1] == ps[j]
    {
      assert qs[j + 1] == ps[j];
    }
    if f >= k {
      PeriodIs(qs, u, f + 1);
    } else if p.time <= u {
      PeriodIs(qs, u, k);
      assert forall j | 0 <= j < k :: qs[j] == ps[j];
    } else {
      assert f >= 0 ==> qs[f] == ps[f];
      PeriodIs(qs, u, f);
    }
  }

  lemma {:induction false} InsertedAnswers(ps: seq<RangePeriod>, t: nat, range: Option<Range>, u: nat)
    requires InOrder(ps)
    ensures var qs := Inserted(ps, t, RangePeriod(t, range));
            InOrder(qs) && RangeAt(qs, u) == if InForce(ps, t, u) then range else RangeAt(ps, u)
  {
    var p := RangePeriod(t, range);
    InsertedPutsIn(ps, p);
    PutInKeepsOrder(ps, FirstAfter(ps, t), p, Inserted(ps, t, p));
    PutInAnswers(ps, FirstAfter(ps, t), p, Inserted(ps, t, p), u);
  }

  lemma {:induction false} OverwrittenAnswers(ps: seq<RangePeriod>, i: nat, range: Option<Range>, u: nat)
    requires InOrder(ps) && i < |ps|
    ensures var qs := ps[i := ps[i].(range := range)];
            InOrder(qs) && RangeAt(qs, u) == if FindPeriod(ps, u) == i then range else RangeAt(ps, u)
  {
    PeriodIs(ps[i := ps[i].(range := range)], u, FindPeriod(ps, u));
  }

  lemma {:induction false} InForceIff(ps: seq<RangePeriod>, t: nat, u: nat)
    requires InOrder(ps) && FindPeriod(ps, t) >= 0
    ensures InForce(ps, t, u) <==> t <= u && FindPeriod(ps, u) == FindPeriod(ps, t)
    ensures t > u && ps[FindPeriod(ps, t)].time == t ==> FindPeriod(ps, u) != FindPeriod(ps, t)
  {
    if InForce(ps, t, u) { PeriodIs(ps, u, FindPeriod(ps, t)); }
  }

  lemma {:induction false} DifferingAnswers(ps: seq<RangePeriod>, t: nat, range: Option<Range>, u: nat)
    requires InOrder(ps) && FindPeriod(ps, t) >= 0 && range.Some? && ps[FindPeriod(ps, t)].range.Some?
    ensures InOrder(Updated(ps, t, range))
    ensures RangeAt(Updated(ps, t, range), u) == if InForce(ps, t, u) then range else RangeAt(ps, u)
  {
    var i := FindPeriod(ps, t);
    InForceIff(ps, t, u);
    if range != ps[i].range {
      if ps[i].time != t { InsertedAnswers(ps, t, range, u); } else { OverwrittenAnswers(ps, i, range, u); }
    }
  }

  /** An update at t answers from t on, up to the next period, with the new range, and everywhere
      else as before; unless a range appears or disappears: then the period found is overwritten,
      and the answers from its start on change, also those before t. */
  lemma {:induction false} UpdateAnswers(ps: seq<RangePeriod>, t: nat, range: Option<Range>, u: nat)
    requires InOrder(ps)
    ensures InOrder(Updated(ps, t, range))
    ensures FindPeriod(ps, t) < 0 || (range.Some? && RangeAt(ps, t).Some?) ==>
              RangeAt(Updated(ps, t, range), u) == if InForce(ps, t, u) then range else RangeAt(ps, u)
    ensures FindPeriod(ps, t) >= 0 && !(range.Some? && RangeAt(ps, t).Some?) ==>
              RangeAt(Updated(ps, t, range), u) == if FindPeriod(ps, u) == FindPeriod(ps, t) then range else RangeAt(ps, u)
  {
    var i := FindPeriod(ps, t);
    if i < 0 {
      InsertedAnswers(ps, t, range, u);
    } else if range.Some? && ps[i].range.Some? {
      DifferingAnswers(ps, t, range, u);
    } else {
      OverwrittenAnswers(ps, i, range, u);
    }
  }

  /** So an update is seen by no earlier time if and only if no range appears or disappears that
      was in force before t already, with a period earlier than t. */
  lemma {:induction false} UpdateIsTimelyIff(ps: seq<RangePeriod>, t: nat, range: Option<Range>)
    requires InOrder(ps)
    ensures (forall u: nat | u < t :: RangeAt(Updated(ps, t, range), u) == RangeAt(ps, u))
            <==> FindPeriod(ps, t) < 0 || ps[FindPeriod(ps, t)].time == t || range.Some? == RangeAt(ps, t).Some?
  {
    var i := FindPeriod(ps, t);
    forall u: nat | u < t && (i < 0 || ps[i].time == t || range.Some? == RangeAt(ps, t).Some?)
      ensures RangeAt(Updated(ps, t, range), u) == RangeAt(ps, u)
    {
      UpdateAnswers(ps, t, range, u);
    }
    if i >= 0 && ps[i].time < t && range.Some? != RangeAt(ps, t).Some? {
      UpdateAnswers(ps, t, range, t - 1);
      PeriodIs(ps, t - 1, i);
    }
  }

  lemma {:induction false} RecalculatedAt(ps: seq<RangePeriod>, from: nat, end: nat, anew: nat -> Option<Range>, j: nat)
    requires InOrder(ps) && j < |ps|
    ensures Recalculated(ps, from, end, anew)[j].range ==
            if from <= j && ps[j].time < end then anew(ps[j].time) else ps[j].range
    decreases |ps| - from
  {
    if from < |ps| && ps[from].time < end {
      RecalculatedAt(ps[from := ps[from].(range := anew(ps[from].time))], from + 1, end, anew, j);
    }
  }

  lemma LaterThanFirst(qs: seq<RangePeriod>, t: nat, j: nat)
    requires InOrder(qs) && j < |qs|
    ensures FirstAfter(qs, t) < j <==> exists i | 0 <= i < j :: qs[i].time > t
  {
  }

  lemma {:induction false} RecalculatesLater(qs: seq<RangePeriod>, t: nat, end: nat, anew: nat -> Option<Range>, j: nat)
    requires InOrder(qs) && Covered(qs, t) && j < |qs|
    ensures RecalculatedAfter(qs, t, end, anew)[j].range ==
            if qs[j].time < end && FirstAfter(qs, t) < j then anew(qs[j].time) else qs[j].range
  {
    var k := FirstAfter(qs, t);
    var i :| 0 <= i < |qs| && qs[i].time <= t;
    if k < |qs| {
      assert qs[|qs| - 1].time >= qs[k].time > t && i < k;
      RecalculatedAt(qs, k + 1, end, anew, j);
    }
  }

  lemma {:induction false} UpdateKeepsOrder(ps: seq<RangePeriod>, t: nat, range: Option<Range>)
    requires InOrder(ps) && FindPeriod(ps, t) >= 0
    ensures InOrder(Updated(ps, t, range)) && Covered(Updated(ps, t, range), t)
  {
    UpdateAnswers(ps, t, range, t);
    UpdateCovers(ps, t, range, t);
  }

  /** When a variable has changed, the later periods before the end of its value are computed anew,
      all but the first of them, which stays as it was. */
  lemma {:induction false} FirstLaterStays(ps: seq<RangePeriod>, t: nat, range: Option<Range>, end: nat,
                                           anew: nat -> Option<Range>, j: nat)
    requires InOrder(ps) && FindPeriod(ps, t) >= 0 && j < |Updated(ps, t, range)|
    ensures var qs, rs := Updated(ps, t, range), UpdatedOn(ps, t, range, end, anew);
            && |rs| == |qs| && rs[j].time == qs[j].time
            && rs[j].range == if qs[j].time < end && exists i | 0 <= i < j :: qs[i].time > t
                              then anew(qs[j].time) else qs[j].range
  {
    var qs := Updated(ps, t, range);
    UpdateKeepsOrder(ps, t, range);
    RecalculatesLater(qs, t, end, anew, j);
    LaterThanFirst(qs, t, j);
  }

  lemma {:induction false} DroppedAnswers(ps: seq<RangePeriod>, k: nat, u: nat)
    requires InOrder(ps) && k <= FindPeriod(ps, u)
    ensures InOrder(ps[k..]) && RangeAt(ps[k..], u) == RangeAt(ps, u)
  {
    assert forall j | 0 <= j < |ps| - k :: ps[k..][j] == ps[j + k];
    PeriodIs(ps[k..], u, FindPeriod(ps, u) - k);
  }

  lemma {:induction false} MovedAnswers(ps: seq<RangePeriod>, t: nat, u: nat)
    requires InOrder(ps) && u >= t && FindPeriod(ps, t) >= 0
    ensures var i := FindPeriod(ps, t);
            var moved := ps[i := ps[i].(time := t)];
            && InOrder(moved) && RangeAt(moved, u) == RangeAt(ps, u)
            && FirstAt(moved, t) <= i <= FindPeriod(moved, u)
  {
    var i := FindPeriod(ps, t);
    var moved := ps[i := ps[i].(time := t)];
    assert moved[i].time == t && i <= FindPeriod(ps, u);
    PeriodIs(moved, u, FindPeriod(ps, u));
  }

  /** A new GVT changes no answer from it on, and the table then starts there. */
  lemma {:induction false} ClearAnswers(ps: seq<RangePeriod>, t: nat, u: nat)
    requires InOrder(ps) && u >= t
    ensures InOrder(Cleared(ps, t)) && RangeAt(Cleared(ps, t), u) == RangeAt(ps, u)
    ensures FindPeriod(ps, t) >= 0 ==> Cleared(ps, t) != [] && Cleared(ps, t)[0].time == t
  {
    var i := FindPeriod(ps, t);
    if i >= 0 {
      var moved := ps[i := ps[i].(time := t)];
      assert moved[i].time == t;
      MovedAnswers(ps, t, u);
      DroppedAnswers(moved, FirstAt(moved, t), u);
    }
  }

  // ---- the query on such tables ----

  /** What a port's table answers to a query at time t; meets tells which ranges overlap. */
  function PortRangeAt(ps: seq<RangePeriod>, t: nat, meets: Range -> bool): PortRange
  {
    var i := FindPeriod(ps, t);
    if i < 0 then NoPeriod
    else if ps[i].range.Some? && meets(ps[i].range.value) then Overlapping
    else Disjoint
  }

  datatype TableRun = TableRun(range: Option<Range>, corrected: Option<Option<Range>>, ops: seq<TableOp>)

  /** The query's port ranges are what the tables answer that have been kept since the start,
      its time not being earlier than the start or any GVT they have been told. */
  ghost predicate Answers(q: Query, start: nat, t: nat, meets: Range -> bool, tables: seq<map<Direction, TableRun>>)
  {
    && |q.ranges| == q.n == |tables|
    && forall x, d: Direction {:trigger q.ranges[x].At(d)} | 0 <= x < q.n && IsPort(d) ::
         && d in tables[x] && LatestGvt(start, tables[x][d].ops) <= t
         && q.ranges[x].At(d) ==
              PortRangeAt(Run(Initial(start, tables[x][d].range, tables[x][d].corrected), tables[x][d].ops), t, meets)
  }

  /** So no port is ever without a period, and a query over such tables is a valid one: it is
      answered. */
  lemma {:induction false} TablesMakeValid(q: Query, start: nat, t: nat, meets: Range -> bool, tables: seq<map<Direction, TableRun>>)
    requires ShapedQuery(q) && Answers(q, start, t, meets, tables)
    ensures ValidQuery(q)
  {
    forall x | 0 <= x < q.n
      ensures Ranged(q, x)
    {
      forall d: Direction | IsPort(d)
        ensures !q.ranges[x].At(d).NoPeriod?
      {
        assert q.ranges[x].At(d).NoPeriod? || d in tables[x];
        var r := tables[x][d];
        AlwaysCovered(start, r.range, r.corrected, r.ops, t);
      }
    }
  }
}
