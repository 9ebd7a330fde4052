/** What one CLP remembers of the range queries it is serving (src/rangequery/RangeTracker.cpp,
    src/lp/RQPortScanStatus.cpp), and how it serves them (src/lp/Clp.cpp, ProcessMessage for a
    RangeQueryMessage). */
module RangeTracker {
  import opened Base

  datatype ScanStatus = NotScanned | Scanned | AvoidScan

  type Values = map<nat, Value>

  /** One query at one CLP. */
  datatype Entry = Entry(origin: Direction, status: map<Direction, ScanStatus>, hops: nat, values: Values)

  /** What a port's range says about a query: nothing at its time, no overlap, or overlap. */
  datatype PortRange = NoPeriod | Disjoint | Overlapping

  /** The vector of range routing tables, as far as one query asks it. */
  datatype PortRanges = PortRanges(here: PortRange, up: PortRange, left: PortRange, right: PortRange)
  {
    function At(d: Direction): PortRange
    {
      match d
      case Here => here
      case Up => up
      case Left => left
      case Right => right
      case DirectionSize => NoPeriod
    }
  }

  /** Insertion leaves a value that is already there alone. */
  function InsertAll(values: Values, more: Values): Values
  {
    more + values
  }

  function StatusOf(e: Entry, d: Direction): ScanStatus
  {
    if d in e.status then e.status[d] else AvoidScan
  }

  function Unscanned(e: Entry, ds: seq<Direction>): (r: seq<Direction>)
    ensures forall d :: d in r <==> d in ds && StatusOf(e, d).NotScanned?
  {
    if ds == [] then []
    else Unscanned(e, ds[..|ds| - 1]) + if StatusOf(e, ds[|ds| - 1]).NotScanned? then [ds[|ds| - 1]] else []
  }

  const PORTS: seq<Direction> := [Here, Up, Left, Right]

  predicate IsPort(d: Direction)
  {
    d != DirectionSize
  }

  lemma {:induction false} PortsAre()
    ensures forall d: Direction :: d in PORTS <==> IsPort(d)
  {
    forall d: Direction
      ensures d in PORTS <==> IsPort(d)
    {
      assert PORTS[0] == Here && PORTS[1] == Up && PORTS[2] == Left && PORTS[3] == Right;
    }
  }

  function Outstanding(e: Entry): seq<Direction>
  {
    Unscanned(e, PORTS)
  }

  function NewEntry(origin: Direction, hops: nat, values: Values): Entry
  {
    Entry(origin, map d: Direction | IsPort(d) :: if d == origin then AvoidScan else NotScanned, hops, values)
  }

  function WithScanned(e: Entry, d: Direction): Entry
  {
    e.(status := e.status[d := Scanned])
  }

  /** A port that leads to another CLP, given that the query did not come through it. */
  predicate Target(n: nat, rank: nat, d: Direction)
  {
    d != Here && !(rank >= n / 2 && (d == Left || d == Right)) && !(rank == 0 && d == Up)
  }

  /** What trying one unscanned port does to the entry. */
  function TryPort(e: Entry, n: nat, rank: nat, d: Direction, range: PortRange, found: Values): Entry
  {
    if d != Here && !Target(n, rank, d) then WithScanned(e, d)
    else
      match range
      case NoPeriod => e
      case Disjoint => WithScanned(e, d)
      case Overlapping => if d == Here then WithScanned(e.(values := InsertAll(e.values, found)), Here) else e
  }

  function TryPorts(e: Entry, n: nat, rank: nat, ds: seq<Direction>, ranges: PortRanges, found: Values): Entry
  {
    if ds == [] then e
    else
      var last := ds[|ds| - 1];
      TryPort(TryPorts(e, n, rank, ds[..|ds| - 1], ranges, found), n, rank, last, ranges.At(last), found)
  }

  /** The ports the query is forwarded through. */
  function Forwarded(n: nat, rank: nat, ds: seq<Direction>, ranges: PortRanges): (r: seq<Direction>)
    ensures forall d :: d in r <==> d in ds && Target(n, rank, d) && ranges.At(d).Overlapping?
  {
    if ds == [] then []
    else
      var last := ds[|ds| - 1];
      Forwarded(n, rank, ds[..|ds| - 1], ranges)
      + if Target(n, rank, last) && ranges.At(last).Overlapping? then [last] else []
  }

  class RQPortScanStatus {
    var originPort: Direction
    var portScanStatusMap: map<Direction, ScanStatus>
    var numberOfHops: nat
    var ssvValueMap: Values

    ghost function View(): Entry
      reads this
    {
      Entry(originPort, portScanStatusMap, numberOfHops, ssvValueMap)
    }

    constructor (originPort: Direction, numberOfHops: nat, ssvValueMap: Values)
      ensures View() == NewEntry(originPort, numberOfHops, ssvValueMap)
    {
      this.originPort, this.numberOfHops, this.ssvValueMap := originPort, numberOfHops, ssvValueMap;
      portScanStatusMap := map[];
      new;
      for i := 0 to |PORTS|
        invariant this.originPort == originPort && this.numberOfHops == numberOfHops && this.ssvValueMap == ssvValueMap
        invariant portScanStatusMap == map d: Direction | d in PORTS[..i] :: if d == originPort then AvoidScan else NotScanned
      {
        portScanStatusMap := portScanStatusMap[PORTS[i] := if PORTS[i] == originPort then AvoidScan else NotScanned];
      }
      PortsAre();
      assert PORTS[..|PORTS|] == PORTS;
    }

    method SetScanStatus(d: Direction, status: ScanStatus)
      modifies this
      ensures View() == old(View()).(status := old(View()).status[d := status])
    {
      portScanStatusMap := portScanStatusMap[d := status];
    }

    method GetScanStatus(d: Direction) returns (status: ScanStatus)
      ensures status == StatusOf(View(), d)
    {
      if d in portScanStatusMap { return portScanStatusMap[d]; }
      return AvoidScan;
    }

    method AddToSsvValueMap(more: Values)
      modifies this
      ensures View() == old(View()).(values := InsertAll(old(View()).values, more))
      ensures ssvValueMap.Keys == old(ssvValueMap.Keys) + more.Keys
      ensures forall v | v in ssvValueMap :: ssvValueMap[v] == if v in old(ssvValueMap) then old(ssvValueMap)[v] else more[v]
    {
      var rest := more;
      while rest != map[]
        invariant View() == old(View()).(values := ssvValueMap)
        invariant forall v | v in rest :: v in more && rest[v] == more[v]
        invariant InsertAll(ssvValueMap, rest) == InsertAll(old(ssvValueMap), more)
        decreases rest.Keys
      {
        var v :| v in rest;
        if v !in ssvValueMap {
          ssvValueMap := ssvValueMap[v := rest[v]];
        }
        rest := rest - {v};
      }
    }

    method IncreaseNumberOfHops(hops: nat)
      modifies this
      ensures View() == old(View()).(hops := old(View()).hops + hops)
    {
      numberOfHops := numberOfHops + hops;
    }
  }

  class RangeTracker {
    var rangeQueryPortStatus: map<nat, RQPortScanStatus>
    ghost var entries: map<nat, Entry>
    ghost var owned: set<RQPortScanStatus>

    ghost predicate Valid()
      reads this, owned
    {
      && entries.Keys == rangeQueryPortStatus.Keys
      && (forall id | id in entries :: rangeQueryPortStatus[id] in owned && rangeQueryPortStatus[id].View() == entries[id])
      && (forall a, b | a in entries && b in entries && a != b :: rangeQueryPortStatus[a] != rangeQueryPortStatus[b])
    }

    constructor ()
      ensures Valid() && entries == map[] && owned == {}
    {
      rangeQueryPortStatus, entries, owned := map[], map[], {};
    }

    method HasEntry(id: nat) returns (has: bool)
      requires Valid()
      ensures has <==> id in entries
    {
      has := id in rangeQueryPortStatus;
    }

    /** Leaves an entry that is already there alone. */
    method CreateEntry(id: nat, values: Values, port: Direction, hops: nat)
      requires Valid()
      modifies this
      ensures Valid() && fresh(owned - old(owned))
      ensures entries == if id in old(entries) then old(entries) else old(entries)[id := NewEntry(port, hops, values)]
    {
      var status := new RQPortScanStatus(port, hops, values);
      if id !in rangeQueryPortStatus {
        rangeQueryPortStatus := rangeQueryPortStatus[id := status];
        entries, owned := entries[id := status.View()], owned + {status};
      }
    }

    method DeleteEntry(id: nat) returns (port: Direction)
      requires Valid()
      modifies this
      ensures Valid() && owned == old(owned) && entries == old(entries) - {id}
      ensures port == if id in old(entries) then old(entries)[id].origin else Here
    {
      port := Here;
      if id in rangeQueryPortStatus {
        port := rangeQueryPortStatus[id].originPort;
        rangeQueryPortStatus := rangeQueryPortStatus - {id};
      }
      entries := entries - {id};
    }

    method IncreaseNumberOfHops(id: nat, hops: nat)
      requires Valid()
      modifies this`entries, owned
      ensures Valid()
      ensures entries == if id in old(entries) then old(entries)[id := old(entries)[id].(hops := old(entries)[id].hops + hops)]
                         else old(entries)
    {
      if id in rangeQueryPortStatus {
        rangeQueryPortStatus[id].IncreaseNumberOfHops(hops);
        entries := entries[id := rangeQueryPortStatus[id].View()];
      }
    }

    method GetNumberOfHops(id: nat) returns (hops: nat)
      requires Valid()
      ensures hops == if id in entries then entries[id].hops else 0
    {
      if id in rangeQueryPortStatus { return rangeQueryPortStatus[id].numberOfHops; }
      return 0;
    }

    method GetOutstandingPorts(id: nat) returns (ports: seq<Direction>)
      requires Valid()
      ensures ports == if id in entries then Outstanding(entries[id]) else []
    {
      ports := [];
      if id in rangeQueryPortStatus {
        for i := 0 to |PORTS|
          invariant ports == Unscanned(entries[id], PORTS[..i])
        {
          assert PORTS[..i + 1][..i] == PORTS[..i];
          var status := rangeQueryPortStatus[id].GetScanStatus(PORTS[i]);
          if status == NotScanned { ports := ports + [PORTS[i]]; }
        }
        assert PORTS[..|PORTS|] == PORTS;
      }
    }

    method SetPortToScanned(id: nat, port: Direction)
      requires Valid()
      modifies this`entries, owned
      ensures Valid()
      ensures entries == if id in old(entries) then old(entries)[id := WithScanned(old(entries)[id], port)] else old(entries)
    {
      if id in rangeQueryPortStatus {
        rangeQueryPortStatus[id].SetScanStatus(port, Scanned);
        entries := entries[id := rangeQueryPortStatus[id].View()];
      }
    }

    method AddToSsvValueMap(id: nat, more: Values)
      requires Valid()
      modifies this`entries, owned
      ensures Valid()
      ensures entries == if id in old(entries) then
                           old(entries)[id := old(entries)[id].(values := InsertAll(old(entries)[id].values, more))]
                         else old(entries)
    {
      if id in rangeQueryPortStatus {
        rangeQueryPortStatus[id].AddToSsvValueMap(more);
        entries := entries[id := rangeQueryPortStatus[id].View()];
      }
    }

    method GetCollectedSsvValueMap(id: nat) returns (values: Values)
      requires Valid()
      ensures values == if id in entries then entries[id].values else map[]
    {
      if id in rangeQueryPortStatus { return rangeQueryPortStatus[id].ssvValueMap; }
      return map[];
    }
  }

  /** A reply that came through a port. */
  function Replied(e: Entry, port: Direction, values: Values, hops: nat): Entry
  {
    var scanned := WithScanned(e, port);
    scanned.(hops := e.hops + hops, values := InsertAll(e.values, values))
  }

  /** A query met for the first time: what is remembered of it, and where it goes on to. */
  function Opened(n: nat, rank: nat, incoming: Direction, hops: nat, values: Values,
                  ranges: PortRanges, found: Values): Entry
  {
    var e := NewEntry(incoming, hops, values);
    TryPorts(e, n, rank, Outstanding(e), ranges, found)
  }

  function OpenedForwards(n: nat, rank: nat, incoming: Direction, ranges: PortRanges): seq<Direction>
  {
    Forwarded(n, rank, Outstanding(NewEntry(incoming, 0, map[])), ranges)
  }

  datatype Response = Response(port: Direction, values: Values, hops: nat)

  class RangeQueryHandler {
    const rank: nat
    const numberOfClps: nat
    const rangeTracker: RangeTracker

    constructor (rank: nat, numberOfClps: nat, rangeTracker: RangeTracker)
      ensures this.rank == rank && this.numberOfClps == numberOfClps && this.rangeTracker == rangeTracker
    {
      this.rank, this.numberOfClps, this.rangeTracker := rank, numberOfClps, rangeTracker;
    }

    /** incoming is the port towards the asking agent, from the port the message came
        through; ranges and found are what the port ranges and RangeRead answer here. */
    method ProcessMessage(id: nat, values: Values, hops: nat, incoming: Direction, from: Direction,
                          ranges: PortRanges, found: Values)
      returns (forwards: seq<Direction>, response: Option<Response>)
      requires rangeTracker.Valid()
      modifies rangeTracker, rangeTracker.owned
      ensures rangeTracker.Valid()
      ensures var before := old(rangeTracker.entries);
              var e := if id in before then Replied(before[id], from, values, hops)
                       else Opened(numberOfClps, rank, incoming, hops, values, ranges, found);
              && forwards == (if id in before then [] else OpenedForwards(numberOfClps, rank, incoming, ranges))
              && (if Outstanding(e) == [] then
                    rangeTracker.entries == before - {id} && response == Some(Response(e.origin, e.values, e.hops))
                  else rangeTracker.entries == before[id := e] && response == None)
    {
      ghost var before, e := rangeTracker.entries, if id in rangeTracker.entries
        then Replied(rangeTracker.entries[id], from, values, hops)
        else Opened(numberOfClps, rank, incoming, hops, values, ranges, found);
      UpdateThenDelete(before, id, e);
      var has := rangeTracker.HasEntry(id);
      if !has {
        forwards := FirstMeeting(id, values, hops, incoming, ranges, found);
      } else {
        forwards := [];
        TakeReply(id, from, values, hops);
      }
      assert rangeTracker.entries == before[id := e];
      response := RespondIfDone(id);
    }

    method TakeReply(id: nat, from: Direction, values: Values, hops: nat)
      requires rangeTracker.Valid() && id in rangeTracker.entries
      modifies rangeTracker`entries, rangeTracker.owned
      ensures rangeTracker.Valid()
      ensures rangeTracker.entries ==
                old(rangeTracker.entries)[id := Replied(old(rangeTracker.entries)[id], from, values, hops)]
    {
      ghost var before := rangeTracker.entries;
      ghost var e := before[id];
      ghost var counted := e.(hops := e.hops + hops);
      MarkedIsReplied(e, from, values, hops);
      UpdateTwice(before, id, counted, Replied(e, from, values, hops));
      rangeTracker.IncreaseNumberOfHops(id, hops);
      assert rangeTracker.entries == before[id := counted];
      MarkScanned(id, from, values);
    }

    method MarkScanned(id: nat, port: Direction, collected: Values)
      requires rangeTracker.Valid() && id in rangeTracker.entries
      modifies rangeTracker`entries, rangeTracker.owned
      ensures rangeTracker.Valid()
      ensures rangeTracker.entries == old(rangeTracker.entries)[id := Marked(old(rangeTracker.entries)[id], port, collected)]
    {
      ghost var before := rangeTracker.entries;
      ghost var e := before[id];
      UpdateTwice(before, id, WithScanned(e, port), Marked(e, port, collected));
      rangeTracker.SetPortToScanned(id, port);
      rangeTracker.AddToSsvValueMap(id, collected);
    }

    method RespondIfDone(id: nat) returns (response: Option<Response>)
      requires rangeTracker.Valid() && id in rangeTracker.entries
      modifies rangeTracker
      ensures rangeTracker.Valid()
      ensures var before, e := old(rangeTracker.entries), old(rangeTracker.entries)[id];
              if Outstanding(e) == [] then
                rangeTracker.entries == before - {id} && response == Some(Response(e.origin, e.values, e.hops))
              else rangeTracker.entries == before && response == None
    {
      response := None;
      var outstanding := rangeTracker.GetOutstandingPorts(id);
      if |outstanding| == 0 {
        var hops := rangeTracker.GetNumberOfHops(id);
        var values := rangeTracker.GetCollectedSsvValueMap(id);
        var port := rangeTracker.DeleteEntry(id);
        response := Some(Response(port, values, hops));
      }
    }

    method FirstMeeting(id: nat, values: Values, hops: nat, incoming: Direction, ranges: PortRanges, found: Values)
      returns (forwards: seq<Direction>)
      requires rangeTracker.Valid() && id !in rangeTracker.entries
      modifies rangeTracker, rangeTracker.owned
      ensures rangeTracker.Valid() && forwards == OpenedForwards(numberOfClps, rank, incoming, ranges)
      ensures rangeTracker.entries ==
                old(rangeTracker.entries)[id := Opened(numberOfClps, rank, incoming, hops, values, ranges, found)]
    {
      rangeTracker.CreateEntry(id, values, incoming, hops);
      ghost var before, e := old(rangeTracker.entries), NewEntry(incoming, hops, values);
      var ports := rangeTracker.GetOutstandingPorts(id);
      SamePorts(incoming, hops, values);
      UpdateTwice(before, id, e, TryPorts(e, numberOfClps, rank, ports, ranges, found));
      forwards := TryAll(id, ports, ranges, found);
    }

    method TryAll(id: nat, ports: seq<Direction>, ranges: PortRanges, found: Values) returns (forwards: seq<Direction>)
      requires rangeTracker.Valid() && id in rangeTracker.entries
      modifies rangeTracker`entries, rangeTracker.owned
      ensures rangeTracker.Valid() && forwards == Forwarded(numberOfClps, rank, ports, ranges)
      ensures rangeTracker.entries ==
                old(rangeTracker.entries)[id := TryPorts(old(rangeTracker.entries)[id], numberOfClps, rank, ports, ranges, found)]
    {
      ghost var before, e := rangeTracker.entries, rangeTracker.entries[id];
      ghost var current := e;
      assert before == before[id := current];
      forwards := [];
      var i: nat := 0;
      while i < |ports|
        invariant i <= |ports| && rangeTracker.Valid()
        invariant Progress(e, numberOfClps, rank, ports, i, ranges, found, current, forwards)
        invariant rangeTracker.entries == before[id := current]
      {
        NextPort(e, numberOfClps, rank, ports, i, ranges, found, current, forwards);
        if Target(numberOfClps, rank, ports[i]) && ranges.At(ports[i]) == Overlapping {
          forwards := forwards + [ports[i]];
        }
        ghost var next := TryPort(current, numberOfClps, rank, ports[i], ranges.At(ports[i]), found);
        UpdateTwice(before, id, current, next);
        Try(id, ports[i], ranges.At(ports[i]), found);
        current := next;
        i := i + 1;
      }
      assert ports[..i] == ports;
    }

    /** One port, unless the query is forwarded through it. */
    method Try(id: nat, port: Direction, range: PortRange, found: Values)
      requires rangeTracker.Valid() && id in rangeTracker.entries
      modifies rangeTracker`entries, rangeTracker.owned
      ensures rangeTracker.Valid()
      ensures rangeTracker.entries ==
                old(rangeTracker.entries)[id := TryPort(old(rangeTracker.entries)[id], numberOfClps, rank, port, range, found)]
    {
      var collected: Values := map[];
      var blocked := true;
      if port == Here || Target(numberOfClps, rank, port) {
        if range == NoPeriod {
          blocked := false;
        } else if range == Overlapping {
          if port == Here { collected := found; } else { blocked := false; }
        }
      }
      TryPortIs(rangeTracker.entries[id], numberOfClps, rank, port, range, found);
      if blocked {
        MarkScanned(id, port, collected);
      } else {
        assert rangeTracker.entries == rangeTracker.entries[id := rangeTracker.entries[id]];
      }
    }
  }

  lemma MarkedIsReplied(e: Entry, from: Direction, values: Values, hops: nat)
    ensures Marked(e.(hops := e.hops + hops), from, values) == Replied(e, from, values, hops)
  {
  }

  lemma UpdateTwice(m: map<nat, Entry>, id: nat, e: Entry, f: Entry)
    ensures m[id := e][id := f] == m[id := f]
  {
  }

  lemma UpdateThenDelete(m: map<nat, Entry>, id: nat, e: Entry)
    ensures m[id := e] - {id} == m - {id}
  {
  }

  function Marked(e: Entry, port: Direction, collected: Values): Entry
  {
    WithScanned(e, port).(values := InsertAll(e.values, collected))
  }

  lemma {:induction false} TryPortIs(e: Entry, n: nat, rank: nat, port: Direction, range: PortRange, found: Values)
    ensures var stays := (port == Here || Target(n, rank, port)) && (range.NoPeriod? || (range.Overlapping? && port != Here));
            TryPort(e, n, rank, port, range, found) ==
              if stays then e else Marked(e, port, if port == Here && range.Overlapping? then found else map[])
  {
    assert InsertAll(e.values, map[]) == e.values;
  }

  /** The first i ports have been tried. */
  ghost predicate Progress(e: Entry, n: nat, rank: nat, ports: seq<Direction>, i: nat, ranges: PortRanges,
                           found: Values, current: Entry, forwards: seq<Direction>)
    requires i <= |ports|
  {
    && current == TryPorts(e, n, rank, ports[..i], ranges, found)
    && forwards == Forwarded(n, rank, ports[..i], ranges)
  }

  lemma {:induction false} NextPort(e: Entry, n: nat, rank: nat, ports: seq<Direction>, i: nat, ranges: PortRanges,
                 found: Values, current: Entry, forwards: seq<Direction>)
    requires i < |ports|
    requires Progress(e, n, rank, ports, i, ranges, found, current, forwards)
    ensures Progress(e, n, rank, ports, i + 1, ranges, found,
                     TryPort(current, n, rank, ports[i], ranges.At(ports[i]), found),
                     if Target(n, rank, ports[i]) && ranges.At(ports[i]).Overlapping? then forwards + [ports[i]] else forwards)
  {
    assert ports[..i + 1][..i] == ports[..i];
    assert forwards + [] == forwards;
  }

  lemma {:induction false} SamePorts(incoming: Direction, hops: nat, values: Values)
    ensures Outstanding(NewEntry(incoming, hops, values)) == Outstanding(NewEntry(incoming, 0, map[]))
  {
    SameUnscanned(NewEntry(incoming, hops, values), NewEntry(incoming, 0, map[]), PORTS);
  }

  lemma {:induction false} SameUnscanned(e: Entry, f: Entry, ds: seq<Direction>)
    requires e.status == f.status
    ensures Unscanned(e, ds) == Unscanned(f, ds)
  {
    if ds != [] { SameUnscanned(e, f, ds[..|ds| - 1]); }
  }
}
