/** The text of a migrating variable and of a migration's payload. */
module VariableWire {
  import opened Base
  import opened Periods
  import opened Wire

  // Periods with their read maps and values: the Serialise and Deserialise members of
  // StateVariable, WritePeriod, Value and Pair.

  // ---- the read map ----

  function PutRead(r: ReadRecord, after: string): string
  {
    PutLpId(r.agent, [DELIM_LIST_LEFT] + PutNat(r.time, after))
  }

  function ReadRead(s: string): Option<Parsed<ReadRecord>>
  {
    var agent := ReadLpId(s);
    if agent.None? then None
    else
      var time := ReadNat(IgnoreTo(agent.value.rest, DELIM_LIST_LEFT));
      if time.None? then None
      else Some(Parsed(ReadRecord(agent.value.value, time.value.value), time.value.rest))
  }

  function PutReads(rs: seq<ReadRecord>, after: string): string
  {
    PutContainer(PutRead, rs, after)
  }

  /** A multimap puts what is inserted behind every key that is not greater. */
  function ReadReads(s: string): Option<Parsed<seq<ReadRecord>>>
  {
    ReadContainer(ReadRead, InsertRead, [], s)
  }

  /** The order a multimap iterates in. */
  predicate InMapOrder(rs: seq<ReadRecord>)
  {
    forall i, j | 0 <= i < j < |rs| :: !IdLess(rs[j].agent, rs[i].agent)
  }

  lemma {:induction false} ReadTrip(r: ReadRecord)
    ensures EntryReadsBack(PutRead, ReadRead, r)
  {
    forall tail: string
      ensures ReadRead(PutRead(r, [DELIM_LIST_RIGHT] + tail)) == Some(Parsed(r, [DELIM_LIST_RIGHT] + tail))
    {
      var time := PutNat(r.time, [DELIM_LIST_RIGHT] + tail);
      LpIdTrip(r.agent, [DELIM_LIST_LEFT] + time);
      Ignored(DELIM_LIST_LEFT, time);
      NatTrip(r.time, [DELIM_LIST_RIGHT] + tail);
    }
  }

  lemma {:induction false} InsertsLast(rs: seq<ReadRecord>, r: ReadRecord)
    requires forall i | 0 <= i < |rs| :: !IdLess(r.agent, rs[i].agent)
    ensures InsertRead(rs, r) == rs + [r]
  {
    assert InsertAt(rs, r.agent) == |rs|;
  }

  lemma {:induction false} InsertedInOrder(before: seq<ReadRecord>, rs: seq<ReadRecord>)
    requires InMapOrder(before + rs)
    ensures InsertEach(InsertRead, before, rs) == before + rs
    decreases |rs|
  {
    if rs == [] {
      assert before + rs == before;
    } else {
      var all := before + rs;
      assert all[|before|] == rs[0] && forall i | 0 <= i < |before| :: all[i] == before[i];
      InsertsLast(before, rs[0]);
      assert before + [rs[0]] + rs[1..] == before + rs;
      InsertedInOrder(before + [rs[0]], rs[1..]);
    }
  }

  lemma {:induction false} ReadsTrip(rs: seq<ReadRecord>, after: string)
    requires InMapOrder(rs) && EndsNumber(after)
    ensures ReadReads(PutReads(rs, after)) == Some(Parsed(rs, after))
  {
    forall r | r in rs
      ensures EntryReadsBack(PutRead, ReadRead, r)
    {
      ReadTrip(r);
    }
    ContainerTrip(PutRead, ReadRead, InsertRead, [], rs, after);
    assert [] + rs == rs;
    InsertedInOrder([], rs);
  }

  /** The read maps the variable builds are in map order when agents form a chain. */
  lemma {:induction false} InsertKeepsMapOrder(rs: seq<ReadRecord>, r: ReadRecord, agents: set<LpId>)
    requires InMapOrder(rs) && Chain(agents) && r.agent in agents && forall x | x in rs :: x.agent in agents
    ensures InMapOrder(InsertRead(rs, r))
  {
    var k := InsertAt(rs, r.agent);
    forall i | k <= i < |rs|
      ensures !IdLess(rs[i].agent, r.agent)
    {
      assert rs[i] in rs && rs[k] in rs;
    }
  }

  // ---- values ----

  /** Integers, points and longs; the other two types do not survive the trip in general. */
  predicate Travels(v: Value)
  {
    v.IntValue? || v.PointValue? || v.LongValue?
  }

  function TypeCode(v: Value): (code: nat)
    ensures code < 10
  {
    match v
    case IntValue(_) => 0
    case DoubleValue(_) => 1
    case PointValue(_, _) => 2
    case StringValue(_) => 3
    case LongValue(_) => 4
  }

  /** How doubles and strings are printed is not part of this model. */
  function PutData(v: Value, after: string): string
  {
    match v
    case IntValue(i) => PutInt(i, after)
    case LongValue(i) => PutInt(i, after)
    case PointValue(x, y) => [DELIM_LEFT] + PutInt(x, [DELIM_VAR_SEPARATOR] + PutInt(y, [DELIM_RIGHT] + after))
    case _ => after
  }

  function PutValue(v: Value, after: string): string
  {
    [DELIM_LEFT] + PutNat(TypeCode(v), [DELIM_VAR_SEPARATOR] + PutData(v, [DELIM_RIGHT] + after))
  }

  /** find_first_of and find_first_not_of; |s| for not found. */
  function FindOf(s: string, c: char, from: nat): (i: nat)
    ensures i <= |s|
    decreases |s| - from
  {
    if from >= |s| then |s| else if s[from] == c then from else FindOf(s, c, from + 1)
  }

  function FindNotOf(s: string, c: char, from: nat): (i: nat)
    ensures i <= |s|
    decreases |s| - from
  {
    if from >= |s| then |s| else if s[from] != c then from else FindNotOf(s, c, from + 1)
  }

  /** Not found plus one wraps to zero. */
  function GetValueString(s: string): string
  {
    var first := FindNotOf(s, DELIM_LEFT, 0);
    var colon := if first < |s| then FindOf(s, DELIM_VAR_SEPARATOR, first + 1) else |s|;
    var start := if colon < |s| then colon + 1 else 0;
    var end := FindOf(s, DELIM_RIGHT, start);
    if start <= end then s[start..end] else ""
  }

  /** The source throws when there is nothing but opening delimiters. */
  function GetTypeId(s: string): Option<int>
  {
    var start := FindNotOf(s, DELIM_LEFT, 0);
    if start == |s| then None
    else
      var end := FindOf(s, DELIM_VAR_SEPARATOR, start + 1);
      if start > end then None
      else
        var code := ReadInt(s[start..end]);
        if code.None? then None else Some(code.value.value)
  }

  /** CreateObject by type, then SetValue. */
  function MakeValue(code: int, data: string): Option<Value>
  {
    if code == 0 || code == 4 then
      var i := ReadInt(data);
      if i.None? then None else Some(if code == 0 then IntValue(i.value.value) else LongValue(i.value.value))
    else if code == 2 then
      var x := ReadInt(IgnoreTo(data, DELIM_LEFT));
      if x.None? then None
      else
        var y := ReadInt(IgnoreTo(x.value.rest, DELIM_VAR_SEPARATOR));
        if y.None? then None else Some(PointValue(x.value.value, y.value.value))
    else None
  }

  function ReadValueLine(line: string): Option<Value>
  {
    var code := GetTypeId(line);
    if code.None? then None else MakeValue(code.value, GetValueString(line))
  }

  lemma {:induction false} FindOfBefore(s: string, c: char, from: nat)
    requires from <= |s|
    ensures FindOf(s, c, from) == from + |Wire.Before(s[from..], c)|
    ensures s[from..FindOf(s, c, from)] == Wire.Before(s[from..], c)
    decreases |s| - from
  {
    if from < |s| && s[from] != c {
      FindOfBefore(s, c, from + 1);
      assert s[from..][1..] == s[from + 1..];
      assert s[from..FindOf(s, c, from)] == [s[from]] + s[from + 1..FindOf(s, c, from + 1)];
    }
  }

  /** Of a line that starts with a one-digit type code. */
  lemma {:induction false} LineParts(code: nat, data: string)
    requires code < 10
    ensures var line := PutNat(code, [DELIM_VAR_SEPARATOR] + data);
            && GetTypeId(line) == Some(code) && GetValueString(line) == Wire.Before(data, DELIM_RIGHT)
  {
    var line := PutNat(code, [DELIM_VAR_SEPARATOR] + data);
    assert line == [Digit(code)] + ([DELIM_VAR_SEPARATOR] + data);
    assert line[0] == Digit(code) && line[1] == DELIM_VAR_SEPARATOR && line[2..] == data;
    assert FindNotOf(line, DELIM_LEFT, 0) == 0 && FindOf(line, DELIM_VAR_SEPARATOR, 1) == 1;
    assert line[0..1] == [Digit(code)] == PutInt(code, "");
    IntTrip(code, "");
    FindOfBefore(line, DELIM_RIGHT, 2);
  }

  lemma {:induction false} DataTrip(v: Value, after: string)
    requires Travels(v)
    ensures MakeValue(TypeCode(v), Wire.Before(PutData(v, [DELIM_RIGHT] + after), DELIM_RIGHT)) == Some(v)
  {
    match v
    case IntValue(i) =>
      BeforeInt(i, [DELIM_RIGHT] + after, DELIM_RIGHT);
      IntTrip(i, "");
    case LongValue(i) =>
      BeforeInt(i, [DELIM_RIGHT] + after, DELIM_RIGHT);
      IntTrip(i, "");
    case PointValue(x, y) =>
      PointTrip(x, y, [DELIM_RIGHT] + after);
  }

  /** A point loses its closing delimiter to the search for the value's, and does not mind. */
  lemma {:induction false} PointTrip(x: int, y: int, after: string)
    ensures MakeValue(2, Wire.Before(PutData(PointValue(x, y), after), DELIM_RIGHT)) == Some(PointValue(x, y))
  {
    var tail := PutInt(y, [DELIM_RIGHT] + after);
    BeforeChar(DELIM_LEFT, PutInt(x, [DELIM_VAR_SEPARATOR] + tail), DELIM_RIGHT);
    BeforeInt(x, [DELIM_VAR_SEPARATOR] + tail, DELIM_RIGHT);
    BeforeChar(DELIM_VAR_SEPARATOR, tail, DELIM_RIGHT);
    BeforeInt(y, [DELIM_RIGHT] + after, DELIM_RIGHT);
    BeforeChar(DELIM_RIGHT, after, DELIM_RIGHT);
    var data := Wire.Before(PutData(PointValue(x, y), after), DELIM_RIGHT);
    assert data == [DELIM_LEFT] + PutInt(x, [DELIM_VAR_SEPARATOR] + PutInt(y, ""));
    Ignored(DELIM_LEFT, PutInt(x, [DELIM_VAR_SEPARATOR] + PutInt(y, "")));
    IntTrip(x, [DELIM_VAR_SEPARATOR] + PutInt(y, ""));
    Ignored(DELIM_VAR_SEPARATOR, PutInt(y, ""));
    IntTrip(y, "");
  }

  // ---- write periods ----

  function PutPeriod(p: Period, after: string): string
  {
    [DELIM_LEFT] + PutNat(p.start, [DELIM_VAR_SEPARATOR] + PutNat(p.end, [DELIM_VAR_SEPARATOR]
    + PutLpId(p.agent, [DELIM_VAR_SEPARATOR] + PutReads(p.readMap, [DELIM_VAR_SEPARATOR]
    + PutValue(p.value, [DELIM_RIGHT] + after)))))
  }

  /** The value's line runs up to the end of the list entry, which is put back; without one
      the last character is. */
  function ReadLine(s: string): Option<Parsed<Value>>
  {
    var line := Wire.Before(s, DELIM_LIST_RIGHT);
    var value := ReadValueLine(line);
    if value.None? then None
    else if Found(s, DELIM_LIST_RIGHT) then
      Some(Parsed(value.value, [DELIM_LIST_RIGHT] + IgnoreTo(s, DELIM_LIST_RIGHT)))
    else if line == "" then None
    else Some(Parsed(value.value, line[|line| - 1..]))
  }

  function ReadPeriod(s: string): Option<Parsed<Period>>
  {
    var start := ReadNat(IgnoreTo(s, DELIM_LEFT));
    if start.None? then None
    else
      var end := ReadNat(IgnoreTo(start.value.rest, DELIM_VAR_SEPARATOR));
      if end.None? then None
      else
        var agent := ReadLpId(IgnoreTo(end.value.rest, DELIM_VAR_SEPARATOR));
        if agent.None? then None
        else
          var readMap := ReadReads(IgnoreTo(agent.value.rest, DELIM_VAR_SEPARATOR));
          if readMap.None? then None
          else
            var value := ReadLine(IgnoreTo(IgnoreTo(readMap.value.rest, DELIM_VAR_SEPARATOR), DELIM_LEFT));
            if value.None? then None
            else
              Some(Parsed(Period(start.value.value, end.value.value, value.value.value, agent.value.value,
                                 readMap.value.value), value.value.rest))
  }

  /** What a period must be like to travel. */
  predicate CanTravel(p: Period)
  {
    Travels(p.value) && InMapOrder(p.readMap)
  }

  lemma {:induction false} DataHasNoListEnd(v: Value, after: string)
    requires Travels(v)
    ensures Wire.Before(PutData(v, after), DELIM_LIST_RIGHT) == PutData(v, Wire.Before(after, DELIM_LIST_RIGHT))
    ensures IgnoreTo(PutData(v, after), DELIM_LIST_RIGHT) == IgnoreTo(after, DELIM_LIST_RIGHT)
    ensures Found(PutData(v, after), DELIM_LIST_RIGHT) <==> Found(after, DELIM_LIST_RIGHT)
  {
    match v
    case IntValue(i) => BeforeInt(i, after, DELIM_LIST_RIGHT);
    case LongValue(i) => BeforeInt(i, after, DELIM_LIST_RIGHT);
    case PointValue(x, y) =>
      var tail := PutInt(y, [DELIM_RIGHT] + after);
      BeforeChar(DELIM_LEFT, PutInt(x, [DELIM_VAR_SEPARATOR] + tail), DELIM_LIST_RIGHT);
      BeforeInt(x, [DELIM_VAR_SEPARATOR] + tail, DELIM_LIST_RIGHT);
      BeforeChar(DELIM_VAR_SEPARATOR, tail, DELIM_LIST_RIGHT);
      BeforeInt(y, [DELIM_RIGHT] + after, DELIM_LIST_RIGHT);
      BeforeChar(DELIM_RIGHT, after, DELIM_LIST_RIGHT);
  }

  /** The value of a period inside a list, from behind its opening delimiter on. */
  lemma {:induction false} LineTrip(v: Value, after: string)
    requires Travels(v)
    ensures ReadLine(PutNat(TypeCode(v), [DELIM_VAR_SEPARATOR]
              + PutData(v, [DELIM_RIGHT] + ([DELIM_RIGHT] + ([DELIM_LIST_RIGHT] + after)))))
            == Some(Parsed(v, [DELIM_LIST_RIGHT] + after))
  {
    var end := [DELIM_RIGHT] + ([DELIM_RIGHT] + ([DELIM_LIST_RIGHT] + after));
    var c := DELIM_LIST_RIGHT;
    BeforeNat(TypeCode(v), [DELIM_VAR_SEPARATOR] + PutData(v, end), c);
    BeforeChar(DELIM_VAR_SEPARATOR, PutData(v, end), c);
    DataHasNoListEnd(v, end);
    BeforeChar(DELIM_RIGHT, [DELIM_RIGHT] + ([c] + after), c);
    BeforeChar(DELIM_RIGHT, [c] + after, c);
    BeforeChar(c, after, c);
    Ignored(c, after);
    var closing := [DELIM_RIGHT] + [DELIM_RIGHT];
    assert Wire.Before(end, c) == [DELIM_RIGHT] + ([DELIM_RIGHT] + "");
    assert [DELIM_RIGHT] + "" == [DELIM_RIGHT];
    LineParts(TypeCode(v), PutData(v, closing));
    DataTrip(v, [DELIM_RIGHT]);
  }

  lemma {:induction false} PeriodTrip(p: Period, after: string)
    requires CanTravel(p)
    ensures ReadPeriod(PutPeriod(p, [DELIM_LIST_RIGHT] + after)) == Some(Parsed(p, [DELIM_LIST_RIGHT] + after))
  {
    var sep := [DELIM_VAR_SEPARATOR];
    var value := PutValue(p.value, [DELIM_RIGHT] + ([DELIM_LIST_RIGHT] + after));
    var readMap := PutReads(p.readMap, sep + value);
    var agent := PutLpId(p.agent, sep + readMap);
    var end := PutNat(p.end, sep + agent);
    var start := PutNat(p.start, sep + end);
    Ignored(DELIM_LEFT, start);
    NatTrip(p.start, sep + end);
    Ignored(DELIM_VAR_SEPARATOR, end);
    NatTrip(p.end, sep + agent);
    Ignored(DELIM_VAR_SEPARATOR, agent);
    LpIdTrip(p.agent, sep + readMap);
    Ignored(DELIM_VAR_SEPARATOR, readMap);
    ReadsTrip(p.readMap, sep + value);
    Ignored(DELIM_VAR_SEPARATOR, value);
    Ignored(DELIM_LEFT, PutNat(TypeCode(p.value), sep
      + PutData(p.value, [DELIM_RIGHT] + ([DELIM_RIGHT] + ([DELIM_LIST_RIGHT] + after)))));
    LineTrip(p.value, after);
  }

  // ---- lists of periods, variables, and the payload of a migration ----

  function PutPeriods(ps: seq<Period>, after: string): string
  {
    PutContainer(PutPeriod, ps, after)
  }

  function Append(ps: seq<Period>, p: Period): seq<Period>
  {
    ps + [p]
  }

  function ReadPeriods(s: string): Option<Parsed<seq<Period>>>
  {
    ReadContainer(ReadPeriod, Append, [], s)
  }

  lemma {:induction false} Appended(before: seq<Period>, ps: seq<Period>)
    ensures InsertEach(Append, before, ps) == before + ps
    decreases |ps|
  {
    if ps == [] {
      assert before + ps == before;
    } else {
      assert before + [ps[0]] + ps[1..] == before + ps;
      Appended(before + [ps[0]], ps[1..]);
    }
  }

  lemma {:induction false} PeriodsTrip(ps: seq<Period>, after: string)
    requires EndsNumber(after) && forall p | p in ps :: CanTravel(p)
    ensures ReadPeriods(PutPeriods(ps, after)) == Some(Parsed(ps, after))
  {
    forall p | p in ps
      ensures EntryReadsBack(PutPeriod, ReadPeriod, p)
    {
      forall tail: string
        ensures ReadPeriod(PutPeriod(p, [DELIM_LIST_RIGHT] + tail)) == Some(Parsed(p, [DELIM_LIST_RIGHT] + tail))
      {
        PeriodTrip(p, tail);
      }
    }
    ContainerTrip(PutPeriod, ReadPeriod, Append, [], ps, after);
    assert [] + ps == ps;
    Appended([], ps);
  }

  datatype Variable = Variable(id: nat, periods: seq<Period>)

  predicate VariableTravels(v: Variable)
  {
    forall p | p in v.periods :: CanTravel(p)
  }

  function PutVariable(v: Variable, after: string): string
  {
    [DELIM_LEFT] + PutSsvId(v.id, [DELIM_VAR_SEPARATOR] + PutPeriods(v.periods, [DELIM_RIGHT] + after))
  }

  function ReadVariable(s: string): Option<Parsed<Variable>>
  {
    var id := ReadSsvId(IgnoreTo(s, DELIM_LEFT));
    if id.None? then None
    else
      var periods := ReadPeriods(IgnoreTo(id.value.rest, DELIM_VAR_SEPARATOR));
      if periods.None? then None
      else Some(Parsed(Variable(id.value.value, periods.value.value), IgnoreTo(periods.value.rest, DELIM_RIGHT)))
  }

  /** The wire round trip of a variable: reading its printed form, whatever follows, gives the
      same variable and leaves exactly what follows. */
  lemma {:induction false} VariableTrip(v: Variable, after: string)
    requires VariableTravels(v)
    ensures ReadVariable(PutVariable(v, after)) == Some(Parsed(v, after))
  {
    var periods := PutPeriods(v.periods, [DELIM_RIGHT] + after);
    Ignored(DELIM_LEFT, PutSsvId(v.id, [DELIM_VAR_SEPARATOR] + periods));
    SsvIdTrip(v.id, [DELIM_VAR_SEPARATOR] + periods);
    Ignored(DELIM_VAR_SEPARATOR, periods);
    PeriodsTrip(v.periods, [DELIM_RIGHT] + after);
    Ignored(DELIM_RIGHT, after);
  }

  /** One entry of a migration message's map. */
  datatype Keyed = Keyed(key: nat, variable: Variable)

  function PutKeyed(e: Keyed, after: string): string
  {
    PutSsvId(e.key, [DELIM_LIST_LEFT] + PutVariable(e.variable, after))
  }

  function ReadKeyed(s: string): Option<Parsed<Keyed>>
  {
    var key := ReadSsvId(s);
    if key.None? then None
    else
      var v := ReadVariable(IgnoreTo(key.value.rest, DELIM_LIST_LEFT));
      if v.None? then None else Some(Parsed(Keyed(key.value.value, v.value.value), v.value.rest))
  }

  /** A map leaves an entry that is already there alone. */
  function InsertKeyed(m: map<nat, Variable>, e: Keyed): map<nat, Variable>
  {
    if e.key in m then m else m[e.key := e.variable]
  }

  function PutPayload(es: seq<Keyed>, after: string): string
  {
    PutContainer(PutKeyed, es, after)
  }

  function ReadPayload(s: string): Option<Parsed<map<nat, Variable>>>
  {
    ReadContainer(ReadKeyed, InsertKeyed, map[], s)
  }

  /** m is exactly the entries es. */
  ghost predicate IsMapOf(m: map<nat, Variable>, es: seq<Keyed>)
  {
    && (forall e | e in es :: e.key in m && m[e.key] == e.variable)
    && (forall k | k in m :: Keyed(k, m[k]) in es)
  }

  lemma {:induction false} KeyedTrip(e: Keyed)
    requires VariableTravels(e.variable)
    ensures EntryReadsBack(PutKeyed, ReadKeyed, e)
  {
    forall tail: string
      ensures ReadKeyed(PutKeyed(e, [DELIM_LIST_RIGHT] + tail)) == Some(Parsed(e, [DELIM_LIST_RIGHT] + tail))
    {
      var body := PutVariable(e.variable, [DELIM_LIST_RIGHT] + tail);
      SsvIdTrip(e.key, [DELIM_LIST_LEFT] + body);
      Ignored(DELIM_LIST_LEFT, body);
      VariableTrip(e.variable, [DELIM_LIST_RIGHT] + tail);
    }
  }

  lemma {:induction false} InsertedKeys(m: map<nat, Variable>, before: seq<Keyed>, es: seq<Keyed>)
    requires IsMapOf(m, before)
    requires forall i, j | 0 <= i < j < |before + es| :: (before + es)[i].key != (before + es)[j].key
    ensures IsMapOf(InsertEach(InsertKeyed, m, es), before + es)
    decreases |es|
  {
    if es == [] {
      assert before + es == before;
    } else {
      forall e | e in before
        ensures e.key != es[0].key
      {
        var i :| 0 <= i < |before| && before[i] == e;
        assert (before + es)[i] == e && (before + es)[|before|] == es[0];
      }
      assert before + [es[0]] + es[1..] == before + es;
      InsertedKeys(m[es[0].key := es[0].variable], before + [es[0]], es[1..]);
    }
  }

  /** The round trip of a whole migration message's payload. */
  lemma {:induction false} PayloadTrip(es: seq<Keyed>, after: string) returns (m: map<nat, Variable>)
    requires EndsNumber(after) && (forall e | e in es :: VariableTravels(e.variable))
    requires forall i, j | 0 <= i < j < |es| :: es[i].key != es[j].key
    ensures IsMapOf(m, es) && ReadPayload(PutPayload(es, after)) == Some(Parsed(m, after))
  {
    forall e | e in es
      ensures EntryReadsBack(PutKeyed, ReadKeyed, e)
    {
      KeyedTrip(e);
    }
    m := InsertEach(InsertKeyed, map[], es);
    ContainerTrip(PutKeyed, ReadKeyed, InsertKeyed, map[], es, after);
    assert [] + es == es;
    InsertedKeys(map[], [], es);
  }
}
