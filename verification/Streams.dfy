/** The serialisable containers writing to and reading from a stream, and which variables
    survive the trip. */
module Streams {
  import opened Base
  import opened Periods
  import opened PeriodLaws
  import opened History
  import opened VariableWire
  import opened Wire

  // include/types/SerialisableList.h, SerialisableMap.h and SerialisableMultiMap.h.

  class OutStream {
    var text: string

    constructor ()
      ensures text == ""
    {
      text := "";
    }

    method Put(c: char)
      modifies this
      ensures text == old(text) + [c]
    {
      text := text + [c];
    }

    method PutString(s: string)
      modifies this
      ensures text == old(text) + s
    {
      text := text + s;
    }
  }

  /** A stream that has failed stays failed. */
  class InStream {
    var text: string
    var failed: bool

    constructor (text: string)
      ensures this.text == text && !failed
    {
      this.text, failed := text, false;
    }

    method Ignore(c: char)
      modifies this`text
      ensures text == if failed then old(text) else IgnoreTo(old(text), c)
    {
      if failed { return; }
      while |text| > 0
        invariant IgnoreTo(text, c) == IgnoreTo(old(text), c)
        decreases |text|
      {
        var found := text[0] == c;
        text := text[1..];
        if found { return; }
      }
    }

    /** Extraction of an unsigned number. */
    method ExtractNat() returns (n: Option<nat>)
      requires !failed
      modifies this
      ensures n.None? <==> failed
      ensures n.None? <==> ReadNat(old(text)).None?
      ensures n.Some? ==> ReadNat(old(text)) == Some(Parsed(n.value, text))
    {
      var r := ReadNat(text);
      if r.None? {
        failed := true;
        return None;
      }
      text := r.value.rest;
      return Some(r.value.value);
    }

    /** Extraction of one value by its own parser. */
    method Extract<T>(read: string -> Option<Parsed<T>>) returns (x: Option<T>)
      modifies this
      ensures old(failed) ==> failed && x == None && text == old(text)
      ensures !old(failed) && read(old(text)).None? ==> failed && x == None
      ensures !old(failed) && read(old(text)).Some? ==>
                !failed && text == read(old(text)).value.rest && x == Some(read(old(text)).value.value)
    {
      if failed { return None; }
      var r := read(text);
      if r.None? {
        failed := true;
        return None;
      }
      text := r.value.rest;
      return Some(r.value.value);
    }
  }

  /** Printing x before some text is printing x and then the text. */
  ghost predicate Prepends<T>(put: (T, string) -> string, x: T)
  {
    forall after: string :: put(x, after) == put(x, "") + after
  }

  /** Container::Serialise. */
  method SerialiseContainer<T>(out: OutStream, put: (T, string) -> string, xs: seq<T>)
    requires forall x | x in xs :: Prepends(put, x)
    modifies out
    ensures out.text == old(out.text) + PutContainer(put, xs, "")
  {
    out.PutString(PutNat(|xs|, ""));
    ghost var end := old(out.text) + PutContainer(put, xs, "");
    SizeFirst(put, xs);
    assert xs[0..] == xs;
    var i: nat := 0;
    while i < |xs|
      invariant i <= |xs| && out.text + PutEntries(put, xs[i..], "") == end
    {
      NextEntry(put, xs, i, out.text);
      out.Put(DELIM_LIST_LEFT);
      out.PutString(put(xs[i], ""));
      out.Put(DELIM_LIST_RIGHT);
      i := i + 1;
    }
  }

  lemma {:induction false} SizeFirst<T>(put: (T, string) -> string, xs: seq<T>)
    ensures PutNat(|xs|, "") + PutEntries(put, xs, "") == PutContainer(put, xs, "")
  {
    NatPrepends(|xs|, PutEntries(put, xs, ""));
  }

  lemma {:induction false} NatPrepends(n: nat, after: string)
    ensures PutNat(n, after) == PutNat(n, "") + after
    decreases n
  {
    if n >= 10 {
      var d := [Digit(n % 10)];
      NatPrepends(n / 10, d + after);
      NatPrepends(n / 10, d + "");
      assert d + "" == d;
    }
  }

  lemma {:induction false} NextEntry<T>(put: (T, string) -> string, xs: seq<T>, i: nat, text: string)
    requires i < |xs| && Prepends(put, xs[i])
    ensures text + [DELIM_LIST_LEFT] + put(xs[i], "") + [DELIM_LIST_RIGHT] + PutEntries(put, xs[i + 1..], "")
            == text + PutEntries(put, xs[i..], "")
  {
    assert xs[i..][1..] == xs[i + 1..];
    var tail := PutEntries(put, xs[i + 1..], "");
    assert put(xs[i], [DELIM_LIST_RIGHT] + tail) == put(xs[i], "") + ([DELIM_LIST_RIGHT] + tail);
  }

  /** Container::Deserialise: clear, read the size, then read and insert that many entries. */
  method DeserialiseContainer<T, C>(from: InStream, read: string -> Option<Parsed<T>>, insert: (C, T) -> C, empty: C)
    returns (c: C)
    requires !from.failed
    modifies from
    ensures var r := ReadContainer(read, insert, empty, old(from.text));
            && (from.failed <==> r.None?)
            && (r.Some? ==> c == r.value.value && from.text == r.value.rest)
  {
    c := empty;
    var size := from.ExtractNat();
    if size.None? { return; }
    ghost var result := ReadEntries(read, insert, size.value, from.text, empty);
    var counter: nat := 0;
    while counter < size.value
      invariant counter <= size.value && !from.failed
      invariant ReadEntries(read, insert, size.value - counter, from.text, c) == result
    {
      from.Ignore(DELIM_LIST_LEFT);
      var entry := from.Extract(read);
      if entry.None? { return; }
      c := insert(c, entry.value);
      from.Ignore(DELIM_LIST_RIGHT);
      counter := counter + 1;
    }
  }

  // ---- everything printed this way prepends ----

  lemma {:induction false} IntPrepends(i: int, after: string)
    ensures PutInt(i, after) == PutInt(i, "") + after
  {
    NatPrepends(if i < 0 then -i else i, after);
  }

  lemma {:induction false} LpIdPrepends(a: LpId, after: string)
    ensures PutLpId(a, after) == PutLpId(a, "") + after
  {
    var sep, end := [DELIM_VAR_SEPARATOR], [DELIM_RIGHT];
    NatPrepends(a.rank, end + after);
    NatPrepends(a.rank, end + "");
    NatPrepends(a.id, sep + PutNat(a.rank, end + after));
    NatPrepends(a.id, sep + PutNat(a.rank, end + ""));
  }

  lemma {:induction false} ReadPrepends(r: ReadRecord)
    ensures Prepends(PutRead, r)
  {
    forall after: string
      ensures PutRead(r, after) == PutRead(r, "") + after
    {
      NatPrepends(r.time, after);
      LpIdPrepends(r.agent, [DELIM_LIST_LEFT] + PutNat(r.time, after));
      LpIdPrepends(r.agent, [DELIM_LIST_LEFT] + PutNat(r.time, ""));
    }
  }

  lemma Associative(a: string, b: string, c: string)
    ensures a + (b + c) == (a + b) + c
  {
  }

  lemma {:induction false} EntriesPrepend<T>(put: (T, string) -> string, xs: seq<T>, after: string)
    requires forall x | x in xs :: Prepends(put, x)
    ensures PutEntries(put, xs, after) == PutEntries(put, xs, "") + after
  {
    if xs != [] {
      assert Prepends(put, xs[0]) && forall x | x in xs[1..] :: x in xs;
      EntriesPrepend(put, xs[1..], after);
    }
  }

  lemma {:induction false} ContainerPrepends<T>(put: (T, string) -> string, xs: seq<T>, after: string)
    requires forall x | x in xs :: Prepends(put, x)
    ensures PutContainer(put, xs, after) == PutContainer(put, xs, "") + after
  {
    EntriesPrepend(put, xs, after);
    NatPrepends(|xs|, PutEntries(put, xs, after));
    NatPrepends(|xs|, PutEntries(put, xs, ""));
  }

  lemma {:induction false} ValuePrepends(v: Value, after: string)
    ensures PutValue(v, after) == PutValue(v, "") + after
  {
    var end := [DELIM_RIGHT];
    DataPrepends(v, end + after);
    DataPrepends(v, end + "");
    NatPrepends(TypeCode(v), [DELIM_VAR_SEPARATOR] + PutData(v, end + after));
    NatPrepends(TypeCode(v), [DELIM_VAR_SEPARATOR] + PutData(v, end + ""));
  }

  lemma {:induction false} IntJoins(i: int, c: char, s: string, after: string)
    ensures PutInt(i, [c] + (s + after)) == PutInt(i, [c] + s) + after
  {
    IntPrepends(i, [c] + (s + after));
    IntPrepends(i, [c] + s);
    Associative([c], s, after);
    Associative(PutInt(i, ""), [c] + s, after);
  }

  lemma {:induction false} PointPrepends(x: int, y: int, after: string)
    ensures PutData(PointValue(x, y), after) == PutData(PointValue(x, y), "") + after
  {
    var tail := PutInt(y, [DELIM_RIGHT] + "");
    assert "" + after == after;
    IntJoins(y, DELIM_RIGHT, "", after);
    IntJoins(x, DELIM_VAR_SEPARATOR, tail, after);
    Associative([DELIM_LEFT], PutInt(x, [DELIM_VAR_SEPARATOR] + tail), after);
  }

  lemma {:induction false} DataPrepends(v: Value, after: string)
    ensures PutData(v, after) == PutData(v, "") + after
  {
    match v
    case IntValue(i) => IntPrepends(i, after);
    case LongValue(i) => IntPrepends(i, after);
    case PointValue(x, y) => PointPrepends(x, y, after);
    case _ =>
  }

  /** So the serialising loop prints lists of periods, read maps and payloads as specified. */
  lemma {:induction false} PeriodPrepends(p: Period)
    ensures Prepends(PutPeriod, p)
  {
    forall after: string
      ensures PutPeriod(p, after) == PutPeriod(p, "") + after
    {
      PeriodPrintsInFront(p, after);
    }
  }

  lemma {:induction false} NatJoins(n: nat, c: char, s: string, after: string)
    ensures PutNat(n, [c] + (s + after)) == PutNat(n, [c] + s) + after
  {
    NatPrepends(n, [c] + (s + after));
    NatPrepends(n, [c] + s);
    Associative([c], s, after);
    Associative(PutNat(n, ""), [c] + s, after);
  }

  lemma {:induction false} LpIdJoins(a: LpId, c: char, s: string, after: string)
    ensures PutLpId(a, [c] + (s + after)) == PutLpId(a, [c] + s) + after
  {
    LpIdPrepends(a, [c] + (s + after));
    LpIdPrepends(a, [c] + s);
    Associative([c], s, after);
    Associative(PutLpId(a, ""), [c] + s, after);
  }

  lemma {:induction false} ReadsJoin(rs: seq<ReadRecord>, c: char, s: string, after: string)
    ensures PutReads(rs, [c] + (s + after)) == PutReads(rs, [c] + s) + after
  {
    forall r | r in rs
      ensures Prepends(PutRead, r)
    {
      ReadPrepends(r);
    }
    ContainerPrepends(PutRead, rs, [c] + (s + after));
    ContainerPrepends(PutRead, rs, [c] + s);
    Associative([c], s, after);
    Associative(PutReads(rs, ""), [c] + s, after);
  }

  lemma {:induction false} ValueJoins(v: Value, after: string)
    ensures PutValue(v, [DELIM_RIGHT] + after) == PutValue(v, [DELIM_RIGHT]) + after
  {
    ValuePrepends(v, [DELIM_RIGHT] + after);
    ValuePrepends(v, [DELIM_RIGHT]);
    Associative(PutValue(v, ""), [DELIM_RIGHT], after);
  }

  /** The last two fields of a period. */
  lemma {:induction false} ValueInFront(rs: seq<ReadRecord>, v: Value, after: string)
    ensures PutReads(rs, [DELIM_VAR_SEPARATOR] + PutValue(v, [DELIM_RIGHT] + after))
            == PutReads(rs, [DELIM_VAR_SEPARATOR] + PutValue(v, [DELIM_RIGHT])) + after
  {
    ValueJoins(v, after);
    ReadsJoin(rs, DELIM_VAR_SEPARATOR, PutValue(v, [DELIM_RIGHT]), after);
  }

  /** The first three, in front of any others. */
  lemma {:induction false} TimesInFront(start: nat, end: nat, a: LpId, s: string, after: string)
    ensures PutNat(start, [DELIM_VAR_SEPARATOR] + PutNat(end, [DELIM_VAR_SEPARATOR]
              + PutLpId(a, [DELIM_VAR_SEPARATOR] + (s + after))))
            == PutNat(start, [DELIM_VAR_SEPARATOR] + PutNat(end, [DELIM_VAR_SEPARATOR]
               + PutLpId(a, [DELIM_VAR_SEPARATOR] + s))) + after
  {
    var agent := PutLpId(a, [DELIM_VAR_SEPARATOR] + s);
    LpIdJoins(a, DELIM_VAR_SEPARATOR, s, after);
    NatJoins(end, DELIM_VAR_SEPARATOR, agent, after);
    NatJoins(start, DELIM_VAR_SEPARATOR, PutNat(end, [DELIM_VAR_SEPARATOR] + agent), after);
  }

  lemma {:induction false} PeriodPrintsInFront(p: Period, after: string)
    ensures PutPeriod(p, after) == PutPeriod(p, "") + after
  {
    var s := PutReads(p.readMap, [DELIM_VAR_SEPARATOR] + PutValue(p.value, [DELIM_RIGHT]));
    assert [DELIM_RIGHT] + "" == [DELIM_RIGHT];
    ValueInFront(p.readMap, p.value, after);
    TimesInFront(p.start, p.end, p.agent, s, after);
    var body := PutNat(p.start, [DELIM_VAR_SEPARATOR] + PutNat(p.end, [DELIM_VAR_SEPARATOR]
      + PutLpId(p.agent, [DELIM_VAR_SEPARATOR] + s)));
    Associative([DELIM_LEFT], body, after);
  }

  // ---- what travels ----

  /** The agents of all recorded reads are among agents, and every period can travel. */
  ghost predicate Travelling(ps: seq<Period>, agents: set<LpId>)
  {
    forall p | p in ps :: CanTravel(p) && forall r | r in p.readMap :: r.agent in agents
  }

  lemma {:induction false} KeepInOrder(rs: seq<ReadRecord>, test: Test)
    requires InMapOrder(rs)
    ensures InMapOrder(Keep(rs, test))
  {
    if rs != [] {
      var tail := rs[1..];
      assert forall i | 0 <= i < |tail| :: tail[i] == rs[i + 1];
      KeepInOrder(tail, test);
      forall r | r in Keep(tail, test)
        ensures !IdLess(r.agent, rs[0].agent)
      {
        var i :| 0 <= i < |tail| && tail[i] == r;
      }
    }
  }

  ghost predicate OpTravels(op: Op, agents: set<LpId>)
  {
    (op.OpRead? ==> op.agent in agents) && (op.OpWrite? ==> Travels(op.value))
  }

  /** Every operation with travelling values by agents of a chain leaves a variable that
      survives the trip. */
  lemma {:induction false} StepTravels(ps: seq<Period>, op: Op, agents: set<LpId>)
    requires Chain(agents) && Travelling(ps, agents) && Enabled(ps, op) && OpTravels(op, agents)
    ensures Travelling(Step(ps, op), agents)
  {
    match op
    case OpRead(agent, t) => ReadTravels(ps, agent, t, agents);
    case OpWrite(agent, value, t) => WriteTravels(ps, agent, value, t, agents);
    case OpUndoRead(agent, t) => KeptTravels(ps, Find(ps, t), NotThisRead(agent, t), agents);
    case OpUndoWrite(agent, t) => UndoTravels(ps, agent, t, agents);
    case OpCollect(t) => if Find(ps, t) >= 0 { KeptTravels(ps, Find(ps, t), Test.From(t), agents); }
  }

  lemma {:induction false} KeptTravels(ps: seq<Period>, i: nat, test: Test, agents: set<LpId>)
    requires i < |ps| && Travelling(ps, agents)
    ensures CanTravel(ps[i].(readMap := Keep(ps[i].readMap, test)))
    ensures forall r | r in Keep(ps[i].readMap, test) :: r.agent in agents
  {
    assert ps[i] in ps;
    KeepInOrder(ps[i].readMap, test);
  }

  lemma {:induction false} WriteTravels(ps: seq<Period>, agent: LpId, value: Value, t: nat, agents: set<LpId>)
    requires Travelling(ps, agents) && Travels(value)
    ensures Travelling(Write(ps, agent, value, t), agents)
  {
    if ps != [] && WriteAccepted(ps, agent, t) {
      KeptTravels(ps, Find(ps, t), Before(t), agents);
    }
  }

  lemma {:induction false} ReadTravels(ps: seq<Period>, agent: LpId, t: nat, agents: set<LpId>)
    requires Chain(agents) && Travelling(ps, agents) && Find(ps, t) >= 0 && agent in agents
    ensures Travelling(Read(ps, agent, t), agents)
  {
    var p := ps[Find(ps, t)];
    assert p in ps;
    InsertKeepsMapOrder(p.readMap, ReadRecord(agent, t), agents);
  }

  lemma {:induction false} UndoTravels(ps: seq<Period>, agent: LpId, t: nat, agents: set<LpId>)
    requires Travelling(ps, agents)
    ensures Travelling(Undo(ps, agent, t), agents)
  {
    if Undoes(ps, agent, t) {
      UndoRemoves(ps, agent, t);
      var i, qs := FindStart(ps, t), Undo(ps, agent, t);
      forall q | q in qs
        ensures exists p | p in ps :: p.value == q.value && p.readMap == q.readMap
      {
        var j :| 0 <= j < |qs| && qs[j] == q;
        var p := ps[if j < i then j else j + 1];
        assert p in ps && p.value == q.value && p.readMap == q.readMap;
      }
    }
  }

  /** So a variable reached by any run of such operations is the same after the trip. */
  lemma {:induction false} ReachableVariableTrip(id: nat, ps: seq<Period>, ops: seq<Op>, agents: set<LpId>, after: string)
    requires Chain(agents) && Travelling(ps, agents) && Legal(ps, ops) && forall op | op in ops :: OpTravels(op, agents)
    ensures var v := Variable(id, Run(ps, ops)); ReadVariable(PutVariable(v, after)) == Some(Parsed(v, after))
    decreases |ops|
  {
    if ops == [] {
      VariableTrip(Variable(id, ps), after);
    } else {
      assert ops[0] in ops && forall op | op in ops[1..] :: op in ops;
      StepTravels(ps, ops[0], agents);
      ReachableVariableTrip(id, Step(ps, ops[0]), ops[1..], agents, after);
    }
  }
}
