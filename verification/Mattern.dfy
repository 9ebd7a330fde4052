/** Global virtual time at one process: the calculator (src/lp/GvtCalculator.cpp) and the
    two hooks every simulation message passes (src/lp/Lp.cpp), as functions of the
    calculator's fields and as the object that updates them. */
module Mattern {
  import opened Base

  datatype Colour = White | Red

  datatype Cut = First | Second

  /** The control message that goes round the ring; counts has one entry per rank. */
  datatype Token = Token(cut: Cut, minTime: nat, redTime: nat, counts: seq<int>)

  datatype ValueMsg = ValueMsg(dest: nat, gvt: nat)

  /** The fields of a calculator. The starter is rank 0. */
  datatype Calc = Calc(rank: nat, size: nat, colour: Colour, redTime: nat,
                       counters: map<nat, int>, accepting: bool)
  {
    ghost predicate Valid()
    {
      && rank < size
      && (forall j | j in counters :: j < size)
      && (rank in counters ==> counters[rank] <= 0)
    }

    /** What GetWhiteTransientMessageCounter answers: -1 for a rank it never heard of. */
    function Known(j: nat): int
    {
      if j in counters then counters[j] else -1
    }

    /** What operator[] answers: 0 for a rank it never heard of. */
    function Count(j: nat): int
    {
      if j in counters then counters[j] else 0
    }

    /** The next rank on the ring. */
    function Next(): nat
    {
      if rank + 1 == size then 0 else rank + 1
    }
  }

  /** What handling the token leads to. */
  datatype Outcome = PassOn(token: Token) | Announce(gvt: nat)

  function Min(a: nat, b: nat): nat
  {
    if a < b then a else b
  }

  function SendHook(c: Calc, dest: nat, ts: nat): Calc
  {
    if c.colour.White? then c.(counters := c.counters[dest := c.Count(dest) + 1])
    else c.(redTime := Min(c.redTime, ts))
  }

  function ReceiveHook(c: Calc, colour: Colour): Calc
  {
    if colour.White? then c.(counters := c.counters[c.rank := c.Count(c.rank) - 1]) else c
  }

  function NewToken(size: nat): Token
  {
    Token(First, LONG_MAX, LONG_MAX, seq(size, j => 0))
  }

  /** Only the starter, and only while it accepts requests, begins a round. */
  predicate Begins(c: Calc)
  {
    c.rank == 0 && c.accepting
  }

  function Request(c: Calc): Calc
  {
    if Begins(c) then c.(accepting := false, colour := White) else c
  }

  /** The token with this process's minimum and counters folded in. */
  function Folded(c: Calc, t: Token, lvt: nat): Token
  {
    t.(minTime := Min(lvt, t.minTime),
       counts := seq(|t.counts|, j requires 0 <= j < |t.counts| => t.counts[j] + c.Known(j)))
  }

  /** The starter only looks at the ranks it has a counter for. */
  predicate Remaining(c: Calc, counts: seq<int>)
  {
    exists j | j in c.counters :: j < |counts| && counts[j] > 0
  }

  function Gvt(t: Token): nat
  {
    if t.minTime < t.redTime then t.minTime else t.redTime
  }

  function FirstCut(c: Calc, t: Token, lvt: nat): (Calc, Outcome)
  {
    var folded := Folded(c, t, lvt);
    var red := c.(colour := Red, redTime := LONG_MAX);
    if c.rank != 0 then (red, PassOn(folded))
    else if Remaining(c, folded.counts) then (red, PassOn(folded.(cut := Second)))
    else (red.(colour := White, accepting := true), Announce(Gvt(folded)))
  }

  /** What the second cut does once its wait is over. */
  function SecondCut(c: Calc, t: Token, lvt: nat): (Calc, Outcome)
    requires c.rank < |t.counts|
  {
    var folded := t.(minTime := Min(lvt, t.minTime), redTime := Min(c.redTime, t.redTime),
                     counts := t.counts[c.rank := 0]);
    var white := c.(colour := White);
    if c.rank == 0 then (white.(accepting := true), Announce(Gvt(folded))) else (white, PassOn(folded))
  }

  /** The value messages of one announcement: one for every rank but the sender's. */
  function ValuesTo(n: nat, rank: nat, gvt: nat): (r: seq<ValueMsg>)
    ensures forall v | v in r :: v.gvt == gvt && v.dest < n && v.dest != rank
    ensures forall d | 0 <= d < n && d != rank :: ValueMsg(d, gvt) in r
  {
    if n == 0 then []
    else ValuesTo(n - 1, rank, gvt) + if n - 1 == rank then [] else [ValueMsg(n - 1, gvt)]
  }

  lemma SmallRemainder(a: nat, n: nat)
    requires a < n
    ensures a % n == a
  {
  }

  class GvtCalculator {
    const rank: nat
    const size: nat
    const nextLpInRing: nat
    const isGvtStarter: bool
    var colour: Colour
    var redTime: nat
    var whiteTransientMessageCounter: map<nat, int>
    var isAcceptingRequests: bool

    ghost function View(): Calc
      reads this
    {
      Calc(rank, size, colour, redTime, whiteTransientMessageCounter, isAcceptingRequests)
    }

    ghost predicate Valid()
      reads this
    {
      View().Valid() && nextLpInRing == View().Next() && isGvtStarter == (rank == 0)
    }

    constructor (rank: nat, size: nat)
      requires rank < size
      ensures Valid() && View() == Calc(rank, size, White, ULONG_MAX, map[], true)
    {
      this.rank, this.size := rank, size;
      nextLpInRing, isGvtStarter := (rank + 1) % size, rank == 0;
      if rank + 1 < size { SmallRemainder(rank + 1, size); }
      colour, redTime, whiteTransientMessageCounter, isAcceptingRequests := White, ULONG_MAX, map[], true;
    }

    method GetWhiteTransientMessageCounter(j: nat) returns (count: int)
      ensures count == View().Known(j)
    {
      if j in whiteTransientMessageCounter { return whiteTransientMessageCounter[j]; }
      return -1;
    }

    method IncrementWhiteTransientMessageCounter(j: nat)
      modifies this
      ensures View() == old(View()).(counters := old(View()).counters[j := old(View()).Count(j) + 1])
    {
      if j !in whiteTransientMessageCounter {
        whiteTransientMessageCounter := whiteTransientMessageCounter[j := 0];
      }
      whiteTransientMessageCounter := whiteTransientMessageCounter[j := whiteTransientMessageCounter[j] + 1];
      assert whiteTransientMessageCounter == old(View()).counters[j := old(View()).Count(j) + 1];
    }

    method DecrementWhiteTransientMessageCounter(j: nat)
      modifies this
      ensures View() == old(View()).(counters := old(View()).counters[j := old(View()).Count(j) - 1])
    {
      if j !in whiteTransientMessageCounter {
        whiteTransientMessageCounter := whiteTransientMessageCounter[j := 0];
      }
      whiteTransientMessageCounter := whiteTransientMessageCounter[j := whiteTransientMessageCounter[j] - 1];
      assert whiteTransientMessageCounter == old(View()).counters[j := old(View()).Count(j) - 1];
    }

    /** Lp::PreProcessSendMessage; the source's two assertions hold here, the second one as
        a consequence of Valid(). Returns the colour the message is given. */
    method PreProcessSendMessage(dest: nat, timestamp: nat) returns (given: Colour)
      requires Valid() && dest < size && dest != rank
      modifies this
      ensures Valid() && given == old(colour) && View() == SendHook(old(View()), dest, timestamp)
    {
      given := colour;
      if colour == White {
        var own := GetWhiteTransientMessageCounter(rank);
        assert own <= 0;
        IncrementWhiteTransientMessageCounter(dest);
      } else {
        redTime := if timestamp < redTime then timestamp else redTime;
      }
    }

    /** Lp::PreProcessReceiveMessage. */
    method PreProcessReceiveMessage(messageColour: Colour)
      requires Valid()
      modifies this
      ensures Valid() && View() == ReceiveHook(old(View()), messageColour)
    {
      if messageColour == White {
        DecrementWhiteTransientMessageCounter(rank);
      }
    }

    /** A request for a new round. The token, if any, goes to the next process in the ring. */
    method ProcessRequest() returns (sent: Option<Token>)
      requires Valid()
      modifies this
      ensures Valid() && View() == Request(old(View()))
      ensures sent == if Begins(old(View())) then Some(NewToken(size)) else None
    {
      if !isGvtStarter || !isAcceptingRequests { return None; }
      isAcceptingRequests := false;
      colour := White;
      var counts: seq<int> := [];
      for nextLp := 0 to size
        invariant counts == NewToken(nextLp).counts
      {
        counts := counts + [0];
      }
      sent := Some(Token(First, LONG_MAX, LONG_MAX, counts));
    }

    /** A new value. The process takes it over as its GVT unless it announced it itself. */
    method ProcessValue() returns (taken: bool)
      requires Valid()
      modifies this
      ensures Valid() && taken == (rank != 0)
      ensures View() == if taken then old(View()).(colour := White) else old(View())
    {
      if isGvtStarter { return false; }
      colour := White;
      return true;
    }

    method ProcessFirstCut(token: Token, lvt: nat) returns (outcome: Outcome)
      requires Valid() && |token.counts| == size
      modifies this
      ensures Valid() && (View(), outcome) == FirstCut(old(View()), token, lvt)
    {
      var minTime, counts := token.minTime, token.counts;
      if lvt < minTime { minTime := lvt; }
      var lp: nat := 0;
      while lp < size
        modifies {}
        invariant lp <= size && |counts| == size
        invariant forall j | 0 <= j < lp :: counts[j] == token.counts[j] + View().Known(j)
        invariant forall j | lp <= j < size :: counts[j] == token.counts[j]
      {
        var localCount := GetWhiteTransientMessageCounter(lp);
        counts := counts[lp := counts[lp] + localCount];
        lp := lp + 1;
      }
      assert counts == Folded(View(), token, lvt).counts;
      colour, redTime := Red, LONG_MAX;
      if !isGvtStarter {
        return PassOn(token.(minTime := minTime, counts := counts));
      }
      var remaining := HasWhiteTransientsRemaining(counts);
      if remaining {
        return PassOn(token.(cut := Second, minTime := minTime, counts := counts));
      }
      colour, isAcceptingRequests := White, true;
      return Announce(Gvt(token.(minTime := minTime, counts := counts)));
    }

    method HasWhiteTransientsRemaining(counts: seq<int>) returns (remaining: bool)
      requires Valid() && |counts| == size
      ensures remaining == Remaining(View(), counts)
    {
      remaining := false;
      var rest := whiteTransientMessageCounter;
      while rest != map[]
        invariant rest.Keys <= whiteTransientMessageCounter.Keys
        invariant remaining <==> exists j | j in whiteTransientMessageCounter && j !in rest :: counts[j] > 0
        decreases rest.Keys
      {
        var j :| j in rest;
        if counts[j] > 0 { remaining := true; }
        rest := rest - {j};
      }
    }

    /** Begins where the source's wait for outstanding white messages ends. */
    method ProcessSecondCut(token: Token, lvt: nat) returns (outcome: Outcome)
      requires Valid() && |token.counts| == size
      requires token.counts[rank] + View().Known(rank) <= 0
      modifies this
      ensures Valid() && (View(), outcome) == SecondCut(old(View()), token, lvt)
    {
      var sent := token;
      if lvt < sent.minTime { sent := sent.(minTime := lvt); }
      if redTime < sent.redTime { sent := sent.(redTime := redTime); }
      sent := sent.(counts := sent.counts[rank := 0]);
      colour := White;
      if !isGvtStarter { return PassOn(sent); }
      isAcceptingRequests := true;
      return Announce(Gvt(sent));
    }

    /** One value message for every other process. */
    method SendValues(gvt: nat) returns (sent: seq<ValueMsg>)
      ensures sent == ValuesTo(size, rank, gvt)
    {
      sent := [];
      for lp := 0 to size
        invariant sent == ValuesTo(lp, rank, gvt)
      {
        if lp != rank { sent := sent + [ValueMsg(lp, gvt)]; }
      }
    }
  }
}
