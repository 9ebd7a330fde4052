/** The hops a range query reports are the messages it took. */
module RangeHops {
  import opened Base
  import opened RangeTracker
  import opened RangeQuery
  import RouteTable

  /** Hops carried by messages in flight ... */
  function Carried(ms: seq<Msg>): nat
  {
    if ms == [] then 0 else ms[0].hops + Carried(ms[1..])
  }

  /** ... and kept at the CLPs below n. */
  function Waiting(entries: map<nat, Entry>, n: nat): nat
  {
    if n == 0 then 0 else Waiting(entries, n - 1) + if n - 1 in entries then entries[n - 1].hops else 0
  }

  lemma {:induction false} CarriedAppend(a: seq<Msg>, b: seq<Msg>)
    ensures Carried(a + b) == Carried(a) + Carried(b)
  {
    if a == [] {
      assert a + b == b;
    } else {
      assert (a + b)[1..] == a[1..] + b;
      CarriedAppend(a[1..], b);
    }
  }

  lemma {:induction false} CarriedWithout(s: Sys, k: nat)
    requires k < |s.flying|
    ensures Carried(s.flying) == Carried(Rest(s, k)) + s.flying[k].hops
  {
    var ms := s.flying;
    assert ms == ms[..k] + ([ms[k]] + ms[k + 1..]);
    CarriedAppend(ms[..k], [ms[k]] + ms[k + 1..]);
    CarriedAppend(ms[..k], ms[k + 1..]);
    assert ([ms[k]] + ms[k + 1..])[1..] == ms[k + 1..];
  }

  lemma {:induction false} ForwardsCarryNone(x: nat, ds: seq<Direction>)
    ensures Carried(Forwards(x, ds)) == 0
  {
    if ds != [] {
      ForwardsCarryNone(x, ds[1..]);
      assert Forwards(x, ds)[1..] == Forwards(x, ds[1..]);
    }
  }

  function HopsAt(entries: map<nat, Entry>, x: nat): nat
  {
    if x in entries then entries[x].hops else 0
  }

  lemma {:induction false} WaitingChanges(before: map<nat, Entry>, after: map<nat, Entry>, x: nat, n: nat)
    requires forall y | y != x :: HopsAt(after, y) == HopsAt(before, y)
    ensures Waiting(after, n) == Waiting(before, n) + if x < n then HopsAt(after, x) - HopsAt(before, x) else 0
  {
    if n > 0 {
      WaitingChanges(before, after, x, n - 1);
      assert HopsAt(after, n - 1) == if n - 1 in after then after[n - 1].hops else 0;
      assert HopsAt(before, n - 1) == if n - 1 in before then before[n - 1].hops else 0;
    }
  }

  /** Trying ports counts nothing. */
  lemma {:induction false} TriedHops(e: Entry, n: nat, rank: nat, ds: seq<Direction>, ranges: PortRanges, found: Values)
    ensures TryPorts(e, n, rank, ds, ranges, found).hops == e.hops
  {
    if ds != [] { TriedHops(e, n, rank, ds[..|ds| - 1], ranges, found); }
  }

  function All(q: Query, s: Sys): nat
  {
    Carried(s.flying) + Waiting(s.entries, q.n)
  }

  lemma {:induction false} SettleHops(q: Query, s: Sys, x: nat, e: Entry)
    requires x < q.n
    ensures All(q, Settle(q, s, x, e)) == All(q, s) + e.hops - HopsAt(s.entries, x)
  {
    var s', m := Settle(q, s, x, e), Msg(x, RankBy(q, x, e.origin), e.values, e.hops);
    WaitingChanges(s.entries, s'.entries, x, q.n);
    CarriedAppend(s.flying, [m]);
    assert [m][1..] == [];
  }

  /** Every delivery at a CLP counts one hop; none is lost or counted twice. */
  lemma {:induction false} DeliveryCounts(q: Query, s: Sys, k: nat)
    requires Sized(q) && k < |s.flying| && s.flying[k].dest < q.n
    ensures All(q, Deliver(q, s, k)) == All(q, s) + 1
  {
    var m, x := s.flying[k], s.flying[k].dest;
    CarriedWithout(s, k);
    if x in s.entries {
      SettleHops(q, s.(flying := Rest(s, k)), x, Replied(s.entries[x], RouteTable.Port(x, m.origin), m.values, m.hops + 1));
    } else {
      MeetingCounts(q, s, k);
    }
  }

  lemma {:induction false} MeetingCounts(q: Query, s: Sys, k: nat)
    requires Sized(q) && k < |s.flying| && s.flying[k].dest < q.n && s.flying[k].dest !in s.entries
    ensures All(q, Meet(q, s, k)) == All(q, s) + 1
  {
    var m, x := s.flying[k], s.flying[k].dest;
    var ds := OpenedForwards(q.n, x, Incoming(q, x), q.ranges[x]);
    var e := NewEntry(Incoming(q, x), m.hops + 1, m.values);
    CarriedWithout(s, k);
    CarriedAppend(Rest(s, k), Forwards(x, ds));
    ForwardsCarryNone(x, ds);
    TriedHops(e, q.n, x, Outstanding(e), q.ranges[x], q.found[x]);
    SettleHops(q, Spread(s, k, x, ds), x, Opened(q.n, x, Incoming(q, x), m.hops + 1, m.values, q.ranges[x], q.found[x]));
  }

  lemma {:induction false} AnswersStay(q: Query, s: Sys, ks: seq<nat>)
    requires Sized(q) && CanDeliver(q, s, ks)
    ensures |DeliverAll(q, s, ks).answers| >= |s.answers|
    decreases |ks|
  {
    if ks != [] { AnswersStay(q, Deliver(q, s, ks[0]), ks[1..]); }
  }

  lemma {:induction false} RunCounts(q: Query, s: Sys, ks: seq<nat>)
    requires Sized(q) && CanDeliver(q, s, ks) && DeliverAll(q, s, ks).answers == []
    ensures All(q, DeliverAll(q, s, ks)) == All(q, s) + |ks|
    decreases |ks|
  {
    if ks != [] {
      AnswersStay(q, Deliver(q, s, ks[0]), ks[1..]);
      DeliveryCounts(q, s, ks[0]);
      RunCounts(q, Deliver(q, s, ks[0]), ks[1..]);
    }
  }

  /** In any order of delivery: the answer on its way to the agent reports as many hops as messages
      have been delivered for the query. */
  lemma {:induction false} AnswerReportsHops(q: Query, ks: seq<nat>, k: nat)
    requires ValidQuery(q) && CanDeliver(q, Ask(q), ks)
    requires k < |DeliverAll(q, Ask(q), ks).flying| && DeliverAll(q, Ask(q), ks).flying[k].dest >= q.n
    ensures DeliverAll(q, Ask(q), ks).flying[k].hops == |ks|
  {
    AskKept(q);
    RunKept(q, Ask(q), ks, 0);
    var s := DeliverAll(q, Ask(q), ks);
    StepKeeps(q, s, k);
    AnsweredIsDone(q, Deliver(q, s, k));
    RunCounts(q, Ask(q), ks);
    CarriedWithout(s, k);
    NobodyWaits(q.n);
    StartsAtNone(q);
  }

  lemma {:induction false} NobodyWaits(n: nat)
    ensures Waiting(map[], n) == 0
  {
    if n > 0 { NobodyWaits(n - 1); }
  }

  lemma {:induction false} StartsAtNone(q: Query)
    ensures All(q, Ask(q)) == 0
  {
    NobodyWaits(q.n);
    var asked := Msg(q.agent, q.c, map[], 0);
    assert [asked][1..] == [] && Carried([asked]) == asked.hops + Carried([]);
    assert Waiting(Ask(q).entries, q.n) == 0;
  }
}
