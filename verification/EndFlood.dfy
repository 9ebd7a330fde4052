/** The end-message flood (src/lp/Clp.cpp, ProcessMessage for an EndMessage). */
module EndFlood {
  import opened Base
  import opened Tree

  // One message of an ALP is carried to every CLP of the tree, and the root waits for all.

  /** A full tree whose ALPs sit below its bottom CLPs. */
  ghost predicate Full(n: nat)
  {
    n > 0 && n % 2 == 1 && forall r | 0 <= r < n / 2 :: 2 * r + 2 < n
  }

  /** Where CLP r forwards an end message that came from origin, in sending order. A CLP in
      the middle that does not know the origin sends the message back to itself. */
  function Forwards(n: nat, r: nat, origin: nat): seq<nat>
  {
    if r != 0 && r < n / 2 then
      if origin == 2 * r + 1 then [2 * r + 2, Parent(r)]
      else if origin == 2 * r + 2 then [2 * r + 1, Parent(r)]
      else if origin == Parent(r) then [2 * r + 1, 2 * r + 2]
      else [r, Parent(r)]
    else if r != 0 then
      if origin != Parent(r) then [Parent(r)] else []
    else if r < n / 2 then
      if origin == 2 * r + 1 then [2 * r + 2] else [2 * r + 1]
    else []
  }

  /** The root's side: whose messages it has seen, whether it has asked for GVT since the
      last value, and how often it has asked. */
  datatype Root = Root(received: seq<bool>, processed: bool, requests: nat)

  predicate All(received: seq<bool>)
  {
    forall i | 0 <= i < |received| :: received[i]
  }

  function Flag(s: Root, alp: nat): Root
    requires alp < |s.received|
  {
    var received := s.received[alp := true];
    if !All(received) then s.(received := received)
    else Root(received, true, if s.processed then s.requests else s.requests + 1)
  }

  class EndHandler {
    const rank: nat
    const numberOfClps: nat
    var endMessagesReceived: seq<bool>
    var endMessageProcessed: bool
    ghost var requests: nat

    ghost function View(): Root
      reads this
    {
      Root(endMessagesReceived, endMessageProcessed, requests)
    }

    constructor (rank: nat, numberOfClps: nat, numberOfAlps: nat)
      ensures this.rank == rank && this.numberOfClps == numberOfClps
      ensures View() == Root(seq(numberOfAlps, i => false), false, 0)
    {
      this.rank, this.numberOfClps := rank, numberOfClps;
      endMessagesReceived, endMessageProcessed, requests := seq(numberOfAlps, i => false), false, 0;
    }

    method AllEndMessagesReceived() returns (all: bool)
      ensures all <==> All(endMessagesReceived)
    {
      for i := 0 to |endMessagesReceived|
        invariant forall j | 0 <= j < i :: endMessagesReceived[j]
      {
        if !endMessagesReceived[i] { return false; }
      }
      return true;
    }

    /** sender is the rank of the ALP the message comes from. */
    method ProcessMessage(origin: nat, sender: nat) returns (destinations: seq<nat>, requestGvt: bool)
      requires numberOfClps <= sender < numberOfClps + |endMessagesReceived|
      modifies this
      ensures destinations == Forwards(numberOfClps, rank, origin)
      ensures rank == 0 ==> View() == Flag(old(View()), sender - numberOfClps)
      ensures rank == 0 ==> (requestGvt <==> requests == old(requests) + 1)
      ensures rank != 0 ==> View() == old(View()).(processed := true) && !requestGvt
    {
      destinations, requestGvt := [], false;
      if rank != 0 && rank < numberOfClps / 2 {
        var parent, left, right := (rank + 1) / 2 - 1, 2 * rank + 1, 2 * rank + 2;
        endMessageProcessed := true;
        var one, two := rank, parent;
        if origin == left {
          one := right;
        } else if origin == right {
          one := left;
        } else if origin == parent {
          one := left;
          two := right;
        }
        destinations := [one, two];
      } else if rank != 0 {
        var parent := (rank + 1) / 2 - 1;
        endMessageProcessed := true;
        if origin != parent { destinations := [parent]; }
      } else {
        requestGvt := FlagSender(sender - numberOfClps);
        if rank < numberOfClps / 2 {
          destinations := if origin == 2 * rank + 1 then [2 * rank + 2] else [2 * rank + 1];
        }
      }
    }

    method FlagSender(alp: nat) returns (requestGvt: bool)
      requires alp < |endMessagesReceived|
      modifies this
      ensures View() == Flag(old(View()), alp)
      ensures requestGvt <==> requests == old(requests) + 1
    {
      requestGvt := false;
      endMessagesReceived := endMessagesReceived[alp := true];
      var all := AllEndMessagesReceived();
      if all {
        if !endMessageProcessed {
          requestGvt := true;
          requests := requests + 1;
        }
        endMessageProcessed := true;
      }
    }

    /** SetGvt forgets that the end has been processed. */
    method Reset()
      modifies this
      ensures View() == old(View()).(processed := false)
    {
      endMessageProcessed := false;
    }
  }

  // ---- the root ----

  /** What the root sees: end messages, by ALP number, and new values of GVT. */
  datatype Event = End(alp: nat) | NewGvt

  predicate Possible(size: nat, events: seq<Event>)
  {
    forall e | e in events :: e.End? ==> e.alp < size
  }

  function Watch(s: Root, events: seq<Event>): (r: Root)
    requires Possible(|s.received|, events)
    ensures |r.received| == |s.received|
    decreases |events|
  {
    if events == [] then s
    else
      var last := events[|events| - 1];
      var s' := Watch(s, events[..|events| - 1]);
      if last.NewGvt? then s'.(processed := false) else Flag(s', last.alp)
  }

  function NewRoot(size: nat): Root
  {
    Root(seq(size, i => false), false, 0)
  }

  /** The root flags exactly the ALPs whose message it has seen, and has asked for GVT if and
      only if that is all of them. */
  lemma {:induction false} RootWaitsForAll(size: nat, events: seq<Event>)
    requires Possible(size, events)
    ensures var s := Watch(NewRoot(size), events);
            && |s.received| == size
            && (forall i | 0 <= i < size :: s.received[i] <==> End(i) in events)
            && (size > 0 ==> (s.requests > 0 <==> forall i | 0 <= i < size :: End(i) in events))
            && (s.processed ==> forall i | 0 <= i < size :: End(i) in events)
    decreases |events|
  {
    if events != [] {
      var before, last := events[..|events| - 1], events[|events| - 1];
      assert events == before + [last];
      RootWaitsForAll(size, before);
      var s := Watch(NewRoot(size), before);
      assert forall e :: e in events <==> e in before || e == last;
      if last.End? {
        var received := s.received[last.alp := true];
        assert forall i | 0 <= i < size :: received[i] <==> End(i) in events;
        assert All(received) <==> forall i | 0 <= i < size :: received[i];
      } else {
        assert forall i | 0 <= i < size :: End(i) in events <==> End(i) in before;
      }
    } else if size > 0 {
      assert End(0) !in events;
    }
  }

  predicate SeenAll(size: nat, events: seq<Event>)
  {
    forall i | 0 <= i < size :: End(i) in events
  }

  /** An end message at k, when all have been seen, and no new GVT since. */
  predicate AskedAt(size: nat, events: seq<Event>, k: nat)
  {
    && k < |events| && events[k].End? && SeenAll(size, events[..k + 1])
    && forall l | k < l < |events| :: !events[l].NewGvt?
  }

  lemma {:induction false} ProcessedIff(size: nat, events: seq<Event>)
    requires Possible(size, events)
    ensures Watch(NewRoot(size), events).processed <==> exists k :: AskedAt(size, events, k)
    decreases |events|
  {
    if events != [] {
      var before, n := events[..|events| - 1], |events| - 1;
      RootWaitsForAll(size, events);
      RootWaitsForAll(size, before);
      ProcessedIff(size, before);
      forall k: nat | k < n
        ensures AskedAt(size, events, k) <==> AskedAt(size, before, k) && !events[n].NewGvt?
      {
        assert events[..k + 1] == before[..k + 1];
        assert forall l | k < l < n :: events[l] == before[l];
      }
      assert events[..n + 1] == events;
      assert before + [events[n]] == events;
      if events[n].End? {
        AllSeen(size, before, events[n]);
        if SeenAll(size, events) { assert AskedAt(size, events, n); }
      }
    }
  }

  lemma {:induction false} AllSeen(size: nat, before: seq<Event>, e: Event)
    requires e.End? && Possible(size, before + [e])
    ensures var s := Watch(NewRoot(size), before);
            e.alp < |s.received| && (All(s.received[e.alp := true]) <==> SeenAll(size, before + [e]))
  {
    RootWaitsForAll(size, before);
    var s := Watch(NewRoot(size), before);
    var received := s.received[e.alp := true];
    forall i | 0 <= i < size
      ensures received[i] <==> End(i) in before + [e]
    {
      assert End(i) in before + [e] <==> End(i) in before || i == e.alp;
    }
  }

  /** The root asks for GVT at an end message if and only if it has then seen all ALPs' and has not
      asked since the last value. */
  lemma {:induction false} RootAsksIff(size: nat, before: seq<Event>, e: Event)
    requires Possible(size, before + [e])
    ensures Watch(NewRoot(size), before + [e]).requests == Watch(NewRoot(size), before).requests
            + if e.End? && SeenAll(size, before + [e]) && !(exists k :: AskedAt(size, before, k)) then 1 else 0
  {
    var events := before + [e];
    assert events[..|events| - 1] == before && events[|events| - 1] == e;
    ProcessedIff(size, before);
    if e.End? { AllSeen(size, before, e); }
  }

  // ---- one flood ----

  datatype Msg = Msg(origin: nat, dest: nat)

  /** One ALP's message on its way: it entered at CLP entry; handled lists who processed it,
      in order; forwards counts the copies sent. */
  datatype Flood = Flood(n: nat, entry: nat, inFlight: seq<Msg>, handled: seq<nat>, forwards: nat)

  /** From the ALP, whose rank is no CLP's, to its CLP at the bottom. */
  function Start(n: nat, entry: nat, alp: nat): Flood
  {
    Flood(n, entry, [Msg(alp, entry)], [], 0)
  }

  function Copies(origin: nat, dests: seq<nat>): seq<Msg>
  {
    if dests == [] then [] else [Msg(origin, dests[0])] + Copies(origin, dests[1..])
  }

  /** Any message in flight is delivered and handled. */
  function Deliver(s: Flood, k: nat): Flood
    requires k < |s.inFlight|
  {
    var m := s.inFlight[k];
    var dests := Forwards(s.n, m.dest, m.origin);
    s.(inFlight := s.inFlight[..k] + s.inFlight[k + 1..] + Copies(m.dest, dests),
       handled := s.handled + [m.dest], forwards := s.forwards + |dests|)
  }

  function Towards(ms: seq<Msg>, x: nat): nat
  {
    if ms == [] then 0 else Towards(ms[1..], x) + if ms[0].dest == x then 1 else 0
  }

  function TimesIn(xs: seq<nat>, x: nat): nat
  {
    if xs == [] then 0 else TimesIn(xs[1..], x) + if xs[0] == x then 1 else 0
  }

  /** x has been sent the message, by its neighbour on the way to the entry, as often as that
      neighbour handled it; each copy is in flight or handled. */
  ghost predicate Fed(s: Flood, x: nat)
  {
    Towards(s.inFlight, x) + TimesIn(s.handled, x)
    == if x == s.entry then 1 else TimesIn(s.handled, Toward(x, s.entry))
  }

  ghost predicate Sound(s: Flood)
  {
    && Full(s.n) && s.n / 2 <= s.entry < s.n
    && (forall m | m in s.inFlight :: ValidMsg(s, m))
    && (forall x | x in s.handled :: x < s.n)
    && (forall x: nat {:trigger Fed(s, x)} | x < s.n :: Fed(s, x))
    && |s.handled| + |s.inFlight| == 1 + s.forwards
  }

  /** Messages come from where the entry lies. */
  ghost predicate ValidMsg(s: Flood, m: Msg)
  {
    m.dest < s.n && if m.dest == s.entry then m.origin >= s.n else m.origin == Toward(m.dest, s.entry)
  }

  lemma {:induction false} TowardsAppend(a: seq<Msg>, b: seq<Msg>, x: nat)
    ensures Towards(a + b, x) == Towards(a, x) + Towards(b, x)
  {
    if a == [] {
      assert a + b == b;
    } else {
      assert (a + b)[1..] == a[1..] + b;
      TowardsAppend(a[1..], b, x);
    }
  }

  lemma {:induction false} TowardsWithout(ms: seq<Msg>, k: nat, x: nat)
    requires k < |ms|
    ensures Towards(ms, x) == Towards(ms[..k] + ms[k + 1..], x) + if ms[k].dest == x then 1 else 0
  {
    assert ms == ms[..k] + ([ms[k]] + ms[k + 1..]);
    TowardsAppend(ms[..k], [ms[k]] + ms[k + 1..], x);
    TowardsAppend(ms[..k], ms[k + 1..], x);
    assert ([ms[k]] + ms[k + 1..])[1..] == ms[k + 1..];
  }

  lemma {:induction false} TowardsCopies(origin: nat, dests: seq<nat>, x: nat)
    ensures Towards(Copies(origin, dests), x) == TimesIn(dests, x) && |Copies(origin, dests)| == |dests|
    ensures forall m :: m in Copies(origin, dests) <==> m.origin == origin && m.dest in dests
  {
    if dests != [] {
      TowardsCopies(origin, dests[1..], x);
      var rest := Copies(origin, dests[1..]);
      assert ([Msg(origin, dests[0])] + rest)[1..] == rest;
      assert dests == [dests[0]] + dests[1..];
    }
  }

  lemma {:induction false} TimesInAppend(xs: seq<nat>, y: nat, x: nat)
    ensures TimesIn(xs + [y], x) == TimesIn(xs, x) + if y == x then 1 else 0
  {
    if xs == [] {
      assert xs + [y] == [y] && [y][1..] == [];
    } else {
      assert (xs + [y])[1..] == xs[1..] + [y];
      TimesInAppend(xs[1..], y, x);
    }
  }

  /** A CLP forwards the message once to every CLP for which it lies on the way to the entry,
      and to nobody else. */
  lemma {:induction false} ForwardsOutwards(s: Flood, m: Msg, x: nat)
    requires Full(s.n) && s.n / 2 <= s.entry < s.n && ValidMsg(s, m) && x < s.n
    ensures TimesIn(Forwards(s.n, m.dest, m.origin), x) ==
            if x != s.entry && Toward(x, s.entry) == m.dest then 1 else 0
    ensures forall y | y in Forwards(s.n, m.dest, m.origin) :: y < s.n && y != s.entry && Toward(y, s.entry) == m.dest
  {
    var r, c := m.dest, s.entry;
    var dests := Forwards(s.n, r, m.origin);
    if r != c { TowardAdjacent(r, c); }
    ForwardsAre(s.n, r, m.origin, c, x);
    forall y | y in dests
      ensures y < s.n && y != c && Toward(y, c) == r
    {
      ForwardsAre(s.n, r, m.origin, c, y);
      OutwardIff(r, c, y);
      InDests(dests, y);
    }
    if Adjacent(r, x) {
      OutwardIff(r, c, x);
    } else if x != c {
      TowardAdjacent(x, c);
    }
  }

  lemma {:induction false} InDests(xs: seq<nat>, y: nat)
    ensures y in xs <==> TimesIn(xs, y) > 0
  {
    if xs != [] {
      InDests(xs[1..], y);
      assert xs == [xs[0]] + xs[1..];
    }
  }

  /** The destinations are the neighbours but the origin. */
  lemma {:induction false} ForwardsAre(n: nat, r: nat, origin: nat, c: nat, x: nat)
    requires Full(n) && n / 2 <= c < n && r < n
    requires if r == c then origin >= n else origin == Toward(r, c) && Adjacent(r, origin)
    ensures TimesIn(Forwards(n, r, origin), x) == if x < n && Adjacent(r, x) && x != origin then 1 else 0
  {
    var dests := Forwards(n, r, origin);
    if |dests| == 2 {
      assert dests[1..] == [dests[1]] && [dests[1]][1..] == [];
    } else if |dests| == 1 {
      assert dests[1..] == [];
    }
    if r != c { TowardBound(r, c); }
  }

  lemma {:induction false} TowardBound(r: nat, c: nat)
    requires r != c
    ensures Toward(r, c) <= r || Toward(r, c) <= c
  {
    TowardAdjacent(r, c);
  }

  /** Across an edge, one end lies on the other's way to c. */
  lemma {:induction false} OutwardIff(r: nat, c: nat, y: nat)
    requires Adjacent(r, y)
    ensures (y != c && Toward(y, c) == r) <==> (r == c || y != Toward(r, c))
  {
    assert Dist(c, c) == 0;
    if r == c {
      AdjacentDist(y, c);
    } else {
      HopChangesDist(r, c, y);
      if y != c { HopChangesDist(y, c, r); } else { AdjacentDist(r, c); }
    }
  }

  lemma {:induction false} DeliverFeeds(s: Flood, k: nat, x: nat)
    requires Sound(s) && k < |s.inFlight| && x < s.n
    ensures Fed(Deliver(s, k), x)
  {
    var m := s.inFlight[k];
    var dests := Forwards(s.n, m.dest, m.origin);
    var rest := s.inFlight[..k] + s.inFlight[k + 1..];
    assert m in s.inFlight && Fed(s, x);
    TowardsWithout(s.inFlight, k, x);
    TowardsAppend(rest, Copies(m.dest, dests), x);
    TowardsCopies(m.dest, dests, x);
    ForwardsOutwards(s, m, x);
    TimesInAppend(s.handled, m.dest, x);
    if x != s.entry { TimesInAppend(s.handled, m.dest, Toward(x, s.entry)); }
  }

  lemma {:induction false} DeliverSound(s: Flood, k: nat)
    requires Sound(s) && k < |s.inFlight|
    ensures Sound(Deliver(s, k))
  {
    var m, s' := s.inFlight[k], Deliver(s, k);
    var dests := Forwards(s.n, m.dest, m.origin);
    assert m in s.inFlight;
    forall x: nat | x < s.n
      ensures Fed(s', x)
    {
      DeliverFeeds(s, k, x);
    }
    ForwardsOutwards(s, m, 0);
    TowardsCopies(m.dest, dests, 0);
    forall m' | m' in s'.inFlight
      ensures ValidMsg(s', m')
    {
      if m' !in Copies(m.dest, dests) { assert m' in s.inFlight && ValidMsg(s, m'); }
    }
  }

  lemma {:induction false} StartSound(n: nat, entry: nat, alp: nat)
    requires Full(n) && n / 2 <= entry < n && alp >= n
    ensures Sound(Start(n, entry, alp))
  {
    var s := Start(n, entry, alp);
    forall x: nat | x < n
      ensures Fed(s, x)
    {
      assert s.inFlight[1..] == [];
    }
  }

  // ---- whole floods ----

  function Below(xs: seq<nat>, n: nat): nat
  {
    if xs == [] then 0 else Below(xs[1..], n) + if xs[0] < n then 1 else 0
  }

  lemma {:induction false} BelowNext(xs: seq<nat>, n: nat)
    ensures Below(xs, n + 1) == Below(xs, n) + TimesIn(xs, n)
  {
    if xs != [] { BelowNext(xs[1..], n); }
  }

  lemma {:induction false} BelowAll(xs: seq<nat>, n: nat)
    requires forall x | x in xs :: x < n
    ensures Below(xs, n) == |xs| && Below(xs, 0) == 0
  {
    if xs != [] {
      assert xs[0] in xs && forall x | x in xs[1..] :: x in xs;
      BelowAll(xs[1..], n);
    }
  }

  lemma {:induction false} OnceEach(xs: seq<nat>, n: nat)
    requires forall x: nat | x < n :: TimesIn(xs, x) <= 1
    ensures Below(xs, n) <= Below(xs, 0) + n
    ensures (forall x: nat | x < n :: TimesIn(xs, x) == 1) ==> Below(xs, n) == Below(xs, 0) + n
  {
    if n > 0 {
      OnceEach(xs, n - 1);
      BelowNext(xs, n - 1);
    }
  }

  /** No CLP handles the message twice; and once none is in flight, each has handled it. */
  lemma {:induction false} HandledOnce(s: Flood, x: nat)
    requires Sound(s) && x < s.n
    ensures TimesIn(s.handled, x) <= 1
    ensures s.inFlight == [] ==> TimesIn(s.handled, x) == 1
    decreases Dist(x, s.entry)
  {
    assert Fed(s, x);
    if x != s.entry {
      TowardAdjacent(x, s.entry);
      HopChangesDist(x, s.entry, Toward(x, s.entry));
      HandledOnce(s, Toward(x, s.entry));
    }
  }

  predicate CanDeliver(s: Flood, ks: seq<nat>)
    decreases |ks|
  {
    ks == [] || (ks[0] < |s.inFlight| && CanDeliver(Deliver(s, ks[0]), ks[1..]))
  }

  function DeliverAll(s: Flood, ks: seq<nat>): Flood
    requires CanDeliver(s, ks)
    decreases |ks|
  {
    if ks == [] then s else DeliverAll(Deliver(s, ks[0]), ks[1..])
  }

  lemma {:induction false} RunSound(s: Flood, ks: seq<nat>)
    requires Sound(s) && CanDeliver(s, ks)
    ensures Sound(DeliverAll(s, ks)) && |DeliverAll(s, ks).handled| == |s.handled| + |ks|
    ensures DeliverAll(s, ks).n == s.n
    decreases |ks|
  {
    if ks != [] {
      DeliverSound(s, ks[0]);
      RunSound(Deliver(s, ks[0]), ks[1..]);
    }
  }

  /** The flood. An end message entering at any bottom CLP of a full tree of any depth, its
      copies delivered in any order, is handled by no CLP twice, so that no run is longer than
      the number of CLPs; and when no copy is left every CLP has handled it exactly once and
      n - 1 copies have been sent. */
  lemma {:induction false} FloodCovers(n: nat, entry: nat, alp: nat, ks: seq<nat>)
    requires Full(n) && n / 2 <= entry < n && alp >= n && CanDeliver(Start(n, entry, alp), ks)
    ensures var s := DeliverAll(Start(n, entry, alp), ks);
            && |ks| <= n
            && (forall x: nat | x < n :: TimesIn(s.handled, x) <= 1)
            && (s.inFlight == [] <==> |ks| == n)
            && (s.inFlight == [] ==> s.forwards == n - 1 && forall x: nat | x < n :: TimesIn(s.handled, x) == 1)
  {
    StartSound(n, entry, alp);
    RunSound(Start(n, entry, alp), ks);
    var s := DeliverAll(Start(n, entry, alp), ks);
    forall x: nat | x < n
      ensures TimesIn(s.handled, x) <= 1
      ensures s.inFlight == [] ==> TimesIn(s.handled, x) == 1
    {
      HandledOnce(s, x);
    }
    BelowAll(s.handled, n);
    OnceEach(s.handled, n);
    if |ks| == n && s.inFlight != [] {
      var k := 0;
      DeliverSound(s, k);
      TooMany(Deliver(s, k));
    }
  }

  lemma {:induction false} TooMany(s: Flood)
    requires Sound(s)
    ensures |s.handled| <= s.n
  {
    forall x: nat | x < s.n
      ensures TimesIn(s.handled, x) <= 1
    {
      HandledOnce(s, x);
    }
    BelowAll(s.handled, s.n);
    OnceEach(s.handled, s.n);
  }
}
