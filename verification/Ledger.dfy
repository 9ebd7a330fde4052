/** The anti-message ledger of one ALP over any run. */
module Ledger {
  import opened Base
  import opened Alp

  // What becomes of every request under issuing, sending, rollbacks, write failures and collections.

  /** Where requests ended up that are neither queued nor on the send list. */
  datatype Books = Books(issued: set<nat>, removed: set<nat>, failed: set<nat>, collected: set<nat>)

  datatype Desk = Desk(alp: State, books: Books)

  datatype Act =
    | Issue(m: Message)
    | SendOut
    | RollBack(agent: LpId, t: nat, tag: Tag)
    | Fail(id: nat)
    | TakeGvt(gvt: nat)
    | Move(who: nat, lvt: nat)

  /** Identifiers are new, variable ids are not zero, and no rollback goes behind GVT. */
  predicate Enabled(d: Desk, a: Act)
  {
    match a
    case Issue(m) => IsRequest(m) && m.id !in d.books.issued && Undoable(m)
    case RollBack(agent, t, tag) => agent.id in d.alp.lvt && d.alp.gvt <= t
    case Move(agent, lvt) => agent in d.alp.lvt
    case _ => true
  }

  predicate Undoable(m: Message)
  {
    m.ReadRequest? ==> m.ssv != 0
  }

  function Ids(ms: seq<Message>): set<nat>
  {
    set m | m in ms :: m.id
  }

  function Older(ms: seq<Message>, t: nat): (r: seq<Message>)
    ensures forall m :: m in r <==> m in ms && m.ts < t
  {
    if ms == [] then []
    else if ms[0].ts < t then [ms[0]] + Older(ms[1..], t)
    else Older(ms[1..], t)
  }

  function Apply(d: Desk, a: Act): Desk
    requires d.alp.Valid() && Enabled(d, a)
  {
    var s, b := d.alp, d.books;
    match a
    case Issue(m) => Desk(Enqueue(s, m), b.(issued := b.issued + {m.id}))
    case SendOut => Desk(Send(s), b)
    case RollBack(agent, t, tag) =>
      Desk(Rollback(s, agent, t, tag),
           if Effective(s, agent, t, tag) then b.(removed := b.removed + Ids(Covered(s.queue, agent, t))) else b)
    case Fail(id) =>
      Desk(WriteFailed(s, id), if id in Ids(s.sendList) then b.(failed := b.failed + {id}) else b)
    case TakeGvt(gvt) => Desk(SetGvt(s, gvt), b.(collected := b.collected + Ids(Older(s.sendList, gvt))))
    case Move(agent, lvt) => Desk(Advance(s, agent, lvt), b)
  }

  lemma ApplyValid(d: Desk, a: Act)
    requires d.alp.Valid() && Enabled(d, a)
    ensures Apply(d, a).alp.Valid()
  {
  }

  // ---- counting ----

  function Requests(ms: seq<Message>, x: nat): nat
  {
    if ms == [] then 0 else One(IsRequest(ms[0]) && ms[0].id == x) + Requests(ms[1..], x)
  }

  function AntisFor(ms: seq<Message>, x: nat): nat
  {
    if ms == [] then 0 else One(!IsRequest(ms[0]) && ms[0].id == x) + AntisFor(ms[1..], x)
  }

  function One(b: bool): nat
  {
    if b then 1 else 0
  }

  lemma {:induction false} CountAppend(a: seq<Message>, b: seq<Message>, x: nat)
    ensures Requests(a + b, x) == Requests(a, x) + Requests(b, x)
    ensures AntisFor(a + b, x) == AntisFor(a, x) + AntisFor(b, x)
  {
    if a == [] {
      assert a + b == b;
    } else {
      assert (a + b)[1..] == a[1..] + b;
      CountAppend(a[1..], b, x);
    }
  }

  lemma {:induction false} CountOne(m: Message, x: nat)
    ensures Requests([m], x) == One(IsRequest(m) && m.id == x)
    ensures AntisFor([m], x) == One(!IsRequest(m) && m.id == x)
  {
    assert [m][1..] == [];
  }

  lemma {:induction false} CountCovered(ms: seq<Message>, agent: LpId, t: nat, x: nat)
    ensures Requests(Covered(ms, agent, t), x) + Requests(Uncovered(ms, agent, t), x) == Requests(ms, x)
    ensures AntisFor(Uncovered(ms, agent, t), x) == AntisFor(ms, x)
  {
    if ms != [] {
      CountCovered(ms[1..], agent, t, x);
      CountOne(ms[0], x);
      CountAppend([ms[0]], Covered(ms[1..], agent, t), x);
      CountAppend([ms[0]], Uncovered(ms[1..], agent, t), x);
    }
  }

  lemma {:induction false} CountOlder(ms: seq<Message>, t: nat, x: nat)
    ensures Requests(Older(ms, t), x) + Requests(Recent(ms, t), x) == Requests(ms, x)
  {
    if ms != [] {
      CountOlder(ms[1..], t, x);
      CountOne(ms[0], x);
      CountAppend([ms[0]], Older(ms[1..], t), x);
      CountAppend([ms[0]], Recent(ms[1..], t), x);
    }
  }

  lemma {:induction false} CountAntis(ms: seq<Message>, tag: Tag, x: nat)
    requires forall m | m in ms :: IsRequest(m) && Undoable(m)
    ensures AntisFor(Antis(ms, tag), x) == Requests(ms, x) && Requests(Antis(ms, tag), x) == 0
  {
    if ms != [] {
      CountAntis(ms[1..], tag, x);
      CountOne(AntiOf(ms[0], tag), x);
      CountAppend([AntiOf(ms[0], tag)], Antis(ms[1..], tag), x);
    }
  }

  lemma {:induction false} CountMember(ms: seq<Message>, x: nat)
    ensures Requests(ms, x) > 0 <==> exists m | m in ms :: IsRequest(m) && m.id == x
  {
    if ms != [] {
      CountMember(ms[1..], x);
      assert ms == [ms[0]] + ms[1..];
    }
  }

  lemma {:induction false} AntiMember(ms: seq<Message>, x: nat)
    ensures AntisFor(ms, x) > 0 <==> exists m | m in ms :: !IsRequest(m) && m.id == x
  {
    if ms != [] {
      AntiMember(ms[1..], x);
      assert ms == [ms[0]] + ms[1..];
    }
  }

  lemma {:induction false} IdsCount(ms: seq<Message>, x: nat)
    requires forall m | m in ms :: IsRequest(m)
    ensures x in Ids(ms) <==> Requests(ms, x) > 0
  {
    CountMember(ms, x);
  }

  lemma {:induction false} CountWithout(ms: seq<Message>, id: nat, x: nat)
    requires forall m | m in ms :: IsRequest(m)
    ensures Requests(ms, x) == Requests(Without(ms, id), x) + One(x == id && id in Ids(ms))
  {
    var i := FindId(ms, id);
    if i == |ms| {
      assert id !in Ids(ms);
    } else {
      assert ms[i] in ms && id in Ids(ms);
      assert ms == ms[..i] + ([ms[i]] + ms[i + 1..]);
      CountAppend(ms[..i], [ms[i]] + ms[i + 1..], x);
      CountAppend([ms[i]], ms[i + 1..], x);
      CountOne(ms[i], x);
      CountAppend(ms[..i], ms[i + 1..], x);
    }
  }

  // ---- the ledger ----

  /** Every request x ever issued is in exactly one place: queued, removed unsent, or sent;
      and if sent in exactly one of these: on the send list, failed, collected, or taken back
      by one anti-message, queued or sent. Nothing else is anywhere. */
  ghost predicate Balanced(d: Desk, x: nat)
  {
    var s, b := d.alp, d.books;
    && Requests(s.queue, x) + One(x in b.removed) + Requests(s.output, x) == One(x in b.issued)
    && Requests(s.output, x) == Requests(s.sendList, x) + One(x in b.failed) + One(x in b.collected)
                                + AntisFor(s.queue, x) + AntisFor(s.output, x)
  }

  ghost predicate TakesBack(a: Message, m: Message)
  {
    IsRequest(m) && !IsRequest(a) && a == AntiOf(m, a.tag)
  }

  /** An anti-message that was sent was sent after the request it takes back. */
  ghost predicate SentBefore(output: seq<Message>, j: nat)
    requires j < |output|
  {
    !IsRequest(output[j]) ==> exists i | 0 <= i < j :: TakesBack(output[j], output[i])
  }

  ghost predicate InOrder(output: seq<Message>)
  {
    forall j {:trigger SentBefore(output, j)} | 0 <= j < |output| :: SentBefore(output, j)
  }

  ghost predicate AnyTakenBack(output: seq<Message>, a: Message)
  {
    exists m | m in output :: TakesBack(a, m)
  }

  /** A queued anti-message takes back a request already sent; listed requests were sent. */
  ghost predicate Backed(s: State)
  {
    && (forall a | a in s.queue && !IsRequest(a) :: AnyTakenBack(s.output, a))
    && (forall m | m in s.sendList :: IsRequest(m) && Undoable(m) && m in s.output)
    && (forall m | m in s.queue && IsRequest(m) :: Undoable(m))
  }

  ghost predicate Kept(d: Desk)
  {
    && d.alp.Valid() && InOrder(d.alp.output) && Backed(d.alp)
    && forall x: nat :: Balanced(d, x)
  }

  lemma {:induction false} IssueKeeps(d: Desk, m: Message)
    requires Kept(d) && Enabled(d, Issue(m))
    ensures Kept(Apply(d, Issue(m)))
  {
    var d' := Apply(d, Issue(m));
    forall x: nat
      ensures Balanced(d', x)
    {
      assert Balanced(d, x);
      CountAppend(d.alp.queue, [m], x);
      CountOne(m, x);
    }
  }

  lemma {:induction false} SendBalances(d: Desk, x: nat)
    requires d.alp.queue != [] && Balanced(d, x)
    ensures Balanced(d.(alp := Send(d.alp)), x)
  {
    var s := d.alp;
    var m := s.queue[0];
    CountAppend(s.output, [m], x);
    CountAppend(s.sendList, [m], x);
    CountOne(m, x);
  }

  lemma {:induction false} SendKeeps(d: Desk)
    requires Kept(d)
    ensures Kept(Apply(d, SendOut))
  {
    var s, d' := d.alp, Apply(d, SendOut);
    if s.queue != [] {
      forall x: nat
        ensures Balanced(d', x)
      {
        assert Balanced(d, x);
        SendBalances(d, x);
      }
      SendInOrder(s);
    }
  }

  lemma {:induction false} SendInOrder(s: State)
    requires InOrder(s.output) && Backed(s) && s.queue != []
    ensures InOrder(Send(s).output) && Backed(Send(s))
  {
    var m, output := s.queue[0], Send(s).output;
    assert m in s.queue;
    forall j | 0 <= j < |output|
      ensures SentBefore(output, j)
    {
      if j < |s.output| {
        assert output[j] == s.output[j] && SentBefore(s.output, j);
        if !IsRequest(output[j]) {
          var i :| 0 <= i < j && TakesBack(s.output[j], s.output[i]);
          assert TakesBack(output[j], output[i]);
        }
      } else if !IsRequest(m) {
        assert AnyTakenBack(s.output, m);
        var i :| 0 <= i < |s.output| && TakesBack(m, s.output[i]);
        assert TakesBack(output[j], output[i]);
      }
    }
    forall a | a in s.queue[1..] && !IsRequest(a)
      ensures AnyTakenBack(output, a)
    {
      assert AnyTakenBack(s.output, a);
    }
  }

  lemma {:induction false} RollbackBalances(d: Desk, agent: LpId, t: nat, tag: Tag, x: nat)
    requires Kept(d) && Enabled(d, RollBack(agent, t, tag)) && Effective(d.alp, agent, t, tag)
    ensures Balanced(Apply(d, RollBack(agent, t, tag)), x)
  {
    var s := d.alp;
    var taken := Covered(s.sendList, agent, t);
    assert Balanced(d, x);
    WholeListTaken(s, agent, t, tag);
    CountCovered(s.queue, agent, t, x);
    CountCovered(s.sendList, agent, t, x);
    CountAntis(taken, tag, x);
    CountAppend(Uncovered(s.queue, agent, t), Antis(taken, tag), x);
    IdsCount(Covered(s.queue, agent, t), x);
  }

  /** With GVT at or before the rollback nothing is left out. */
  lemma {:induction false} WholeListTaken(s: State, agent: LpId, t: nat, tag: Tag)
    requires s.Valid() && agent.id in s.lvt && s.gvt <= t && Effective(s, agent, t, tag)
    ensures var taken := Covered(s.sendList, agent, t);
            && BeforeGvt(taken, s.gvt) == |taken|
            && Rollback(s, agent, t, tag).queue == Uncovered(s.queue, agent, t) + Antis(taken, tag)
            && Rollback(s, agent, t, tag).lvt == s.lvt[agent.id := t]
  {
    var taken := Covered(s.sendList, agent, t);
    assert forall i | 0 <= i < |taken| :: taken[i] in taken && taken[i].ts >= t;
    assert taken[..|taken|] == taken;
  }

  lemma {:induction false} AntisMembers(ms: seq<Message>, tag: Tag, a: Message)
    requires forall m | m in ms :: IsRequest(m)
    requires a in Antis(ms, tag)
    ensures !IsRequest(a) && exists m | m in ms :: TakesBack(a, m)
  {
    if a in Antis(ms[1..], tag) {
      AntisMembers(ms[1..], tag, a);
    } else {
      assert ms[0] in ms && TakesBack(a, ms[0]);
    }
  }

  lemma {:induction false} RollbackKeeps(d: Desk, agent: LpId, t: nat, tag: Tag)
    requires Kept(d) && Enabled(d, RollBack(agent, t, tag))
    ensures Kept(Apply(d, RollBack(agent, t, tag)))
  {
    var s, d' := d.alp, Apply(d, RollBack(agent, t, tag));
    if Effective(s, agent, t, tag) {
      forall x: nat
        ensures Balanced(d', x)
      {
        RollbackBalances(d, agent, t, tag, x);
      }
      RollbackBacked(s, agent, t, tag);
    } else {
      assert forall x: nat :: Balanced(d, x) ==> Balanced(d', x);
    }
  }

  lemma {:induction false} RollbackBacked(s: State, agent: LpId, t: nat, tag: Tag)
    requires s.Valid() && agent.id in s.lvt && s.gvt <= t && Effective(s, agent, t, tag) && Backed(s)
    ensures Backed(Rollback(s, agent, t, tag))
  {
    WholeListTaken(s, agent, t, tag);
    var s', taken := Rollback(s, agent, t, tag), Covered(s.sendList, agent, t);
    forall a | a in s'.queue
      ensures !IsRequest(a) ==> AnyTakenBack(s.output, a)
      ensures IsRequest(a) ==> Undoable(a)
    {
      if a in Antis(taken, tag) {
        AntisMembers(taken, tag, a);
      } else {
        assert a in s.queue;
      }
    }
  }

  lemma {:induction false} FailKeeps(d: Desk, id: nat)
    requires Kept(d)
    ensures Kept(Apply(d, Fail(id)))
  {
    var d' := Apply(d, Fail(id));
    forall x: nat
      ensures Balanced(d', x)
    {
      assert Balanced(d, x);
      CountWithout(d.alp.sendList, id, x);
      IdsCount(d.alp.sendList, x);
    }
  }

  lemma {:induction false} GvtKeeps(d: Desk, gvt: nat)
    requires Kept(d)
    ensures Kept(Apply(d, TakeGvt(gvt)))
  {
    var d' := Apply(d, TakeGvt(gvt));
    forall x: nat
      ensures Balanced(d', x)
    {
      assert Balanced(d, x);
      CountOlder(d.alp.sendList, gvt, x);
      IdsCount(Older(d.alp.sendList, gvt), x);
    }
  }

  lemma {:induction false} StepKeeps(d: Desk, a: Act)
    requires Kept(d) && Enabled(d, a)
    ensures Kept(Apply(d, a))
  {
    match a
    case Issue(m) => IssueKeeps(d, m);
    case SendOut => SendKeeps(d);
    case RollBack(agent, t, tag) => RollbackKeeps(d, agent, t, tag);
    case Fail(id) => FailKeeps(d, id);
    case TakeGvt(gvt) => GvtKeeps(d, gvt);
    case Move(agent, lvt) =>
      assert forall x: nat :: Balanced(d, x) ==> Balanced(Apply(d, a), x);
  }

  predicate Possible(d: Desk, run: seq<Act>)
    requires d.alp.Valid()
    decreases |run|
  {
    run == [] || (Enabled(d, run[0]) && (ApplyValid(d, run[0]); Possible(Apply(d, run[0]), run[1..])))
  }

  function Run(d: Desk, run: seq<Act>): Desk
    requires d.alp.Valid() && Possible(d, run)
    decreases |run|
  {
    if run == [] then d
    else
      ApplyValid(d, run[0]);
      Run(Apply(d, run[0]), run[1..])
  }

  function Fresh(lvt: map<nat, nat>): Desk
  {
    Desk(State(lvt, 0, [], [], [], []), Books({}, {}, {}, {}))
  }

  lemma {:induction false} RunKeeps(d: Desk, run: seq<Act>)
    requires Kept(d) && Possible(d, run)
    ensures Kept(Run(d, run))
    decreases |run|
  {
    if run != [] {
      StepKeeps(d, run[0]);
      RunKeeps(Apply(d, run[0]), run[1..]);
    }
  }

  /** The ledger over whole runs: whatever an ALP does, every request it ever issued is
      accounted for exactly once, is sent at most once and taken back at most once, and every
      anti-message it has sent followed its request. */
  lemma {:induction false} LedgerHolds(lvt: map<nat, nat>, run: seq<Act>, x: nat)
    requires Possible(Fresh(lvt), run)
    ensures var d := Run(Fresh(lvt), run);
            && Balanced(d, x) && InOrder(d.alp.output)
            && Requests(d.alp.output, x) <= 1 && AntisFor(d.alp.output, x) <= 1
  {
    assert Kept(Fresh(lvt));
    RunKeeps(Fresh(lvt), run);
    assert Balanced(Run(Fresh(lvt), run), x);
  }

  lemma {:induction false} OneOfEach(ms: seq<Message>, m: Message, r: Message)
    requires m in ms && r in ms && IsRequest(m) && IsRequest(r) && m.id == r.id && Requests(ms, m.id) <= 1
    ensures m == r
  {
    if m in ms[1..] && r in ms[1..] {
      OneOfEach(ms[1..], m, r);
    } else if m != r {
      CountMember(ms[1..], m.id);
    }
  }

  /** What one effective rollback does to what it covers: nothing of it stays queued or
      listed. A request still queued is removed unsent and never taken back; one that was
      sent is taken back by exactly one anti-message, unless its write had failed or it was
      collected. */
  lemma {:induction false} RollbackSettles(d: Desk, agent: LpId, t: nat, tag: Tag, m: Message)
    requires Kept(d) && Enabled(d, RollBack(agent, t, tag)) && Effective(d.alp, agent, t, tag)
    requires IsRequest(m) && Covers(m, agent, t)
    ensures var d' := Apply(d, RollBack(agent, t, tag));
            && m !in d'.alp.queue && m !in d'.alp.sendList
            && (m in d.alp.queue ==> m.id in d'.books.removed && AntisFor(d'.alp.queue + d'.alp.output, m.id) == 0)
            && (m in d.alp.output && m.id !in d.books.failed && m.id !in d.books.collected ==>
                  AntisFor(d'.alp.queue + d'.alp.output, m.id) == 1)
  {
    var d' := Apply(d, RollBack(agent, t, tag));
    RollbackSplits(d.alp, agent, t, tag);
    RollbackBalances(d, agent, t, tag, m.id);
    assert Balanced(d, m.id);
    CountAppend(d'.alp.queue, d'.alp.output, m.id);
    if m in d.alp.queue {
      CountMember(d.alp.queue, m.id);
    }
    if m in d.alp.output {
      CountMember(d.alp.output, m.id);
      if Requests(d'.alp.sendList, m.id) > 0 {
        CountMember(d'.alp.sendList, m.id);
        var r :| r in d'.alp.sendList && IsRequest(r) && r.id == m.id;
        OneOfEach(d.alp.output, m, r);
      }
    }
  }

  /** And to the rest: what it does not cover stays where it was, in order; what was sent
      stays sent; the anti-messages of what it takes back come last, in order. */
  lemma {:induction false} RollbackSplits(s: State, agent: LpId, t: nat, tag: Tag)
    requires s.Valid() && agent.id in s.lvt && s.gvt <= t && Effective(s, agent, t, tag)
    ensures var s', kept := Rollback(s, agent, t, tag), |Uncovered(s.queue, agent, t)|;
            && kept <= |s'.queue|
            && s'.queue[..kept] == Uncovered(s.queue, agent, t)
            && s'.queue[kept..] == Antis(Covered(s.sendList, agent, t), tag)
            && s'.sendList == Uncovered(s.sendList, agent, t) && s'.output == s.output
            && forall m | m in s'.queue && IsRequest(m) :: m in s.queue && !Covers(m, agent, t)
  {
    WholeListTaken(s, agent, t, tag);
    var taken := Covered(s.sendList, agent, t);
    forall m | m in Rollback(s, agent, t, tag).queue && IsRequest(m)
      ensures m in s.queue && !Covers(m, agent, t)
    {
      if m in Antis(taken, tag) { AntisMembers(taken, tag, m); }
    }
  }

  // ---- what a rollback takes back, request by request ----

  /** The request is made at or after the rollback's time, or, a write, strictly after it: a write
      at the time itself belongs to the step before. */
  predicate Undone(m: Message, agent: LpId, t: nat)
  {
    IsRequest(m) && m.agent == agent && (m.ts > t || (m.ts == t && !m.WriteRequest?))
  }

  /** The anti-message of a request, with the rollback's tag, is queued. */
  predicate Queued(queue: seq<Message>, m: Message, tag: Tag)
  {
    match m
    case ReadRequest(id, agent, ts, ssv) => AntiRead(id, agent, ts, ssv, tag) in queue
    case WriteRequest(id, agent, ts, ssv, _) => AntiWrite(id, agent, ts, ssv, tag) in queue
    case RangeRequest(id, agent, ts, range) => AntiRange(id, agent, ts, range, tag) in queue
    case _ => false
  }

  lemma {:induction false} AntisQueued(ms: seq<Message>, tag: Tag, m: Message)
    requires (forall r | r in ms :: IsRequest(r)) && m in ms && Undoable(m)
    ensures Queued(Antis(ms, tag), m, tag)
  {
    if m in ms[1..] { AntisQueued(ms[1..], tag, m); }
  }

  lemma {:induction false} AntisOf(ms: seq<Message>, tag: Tag, a: Message)
    requires (forall r | r in ms :: IsRequest(r)) && a in Antis(ms, tag)
    ensures !IsRequest(a) && exists m | m in ms :: Undoable(m) && Queued([a], m, tag)
  {
    if a in Antis(ms[1..], tag) {
      AntisOf(ms[1..], tag, a);
    } else {
      assert ms[0] in ms && Queued([a], ms[0], tag);
    }
  }

  /** A rollback whose tag is new and that goes back behind the agent's time, but not behind GVT:
      of queue and send list exactly the requests it undoes are gone, those that had been sent have
      their anti-message queued, and no other has; the agent is back at t, the tag is known, and
      nothing else has changed. */
  lemma {:induction false} RollbackTakesBack(s: State, agent: LpId, t: nat, tag: Tag)
    requires s.Valid() && agent.id in s.lvt && tag !in s.tags && s.gvt <= t < s.lvt[agent.id]
    ensures var s' := Rollback(s, agent, t, tag);
            && s' == s.(lvt := s.lvt[agent.id := t], tags := s.tags + [tag], queue := s'.queue, sendList := s'.sendList)
            && (forall m :: m in s'.sendList <==> m in s.sendList && !Undone(m, agent, t))
            && (forall m | IsRequest(m) :: m in s'.queue <==> m in s.queue && !Undone(m, agent, t))
            && (forall m | m in s.sendList && Undone(m, agent, t) && Undoable(m) :: Queued(s'.queue, m, tag))
            && (forall a | !IsRequest(a) && a in s.queue :: a in s'.queue)
            && forall a | !IsRequest(a) && a in s'.queue && a !in s.queue ::
                 exists m | m in s.sendList :: Undone(m, agent, t) && Undoable(m) && Queued([a], m, tag)
  {
    WholeListTaken(s, agent, t, tag);
    var s', taken := Rollback(s, agent, t, tag), Covered(s.sendList, agent, t);
    forall m | m in s.sendList && Undone(m, agent, t) && Undoable(m)
      ensures Queued(s'.queue, m, tag)
    {
      AntisQueued(taken, tag, m);
    }
    forall a | a in Antis(taken, tag)
      ensures !IsRequest(a) && exists m | m in s.sendList :: Undone(m, agent, t) && Undoable(m) && Queued([a], m, tag)
    {
      AntisOf(taken, tag, a);
    }
  }

  /** Any other rollback changes nothing but, when its tag is new, the tags; so none counts twice. */
  lemma {:induction false} RollbackCountsOnce(s: State, agent: LpId, t: nat, tag: Tag)
    requires s.Valid() && agent.id in s.lvt
    ensures tag in s.tags ==> Rollback(s, agent, t, tag) == s
    ensures tag !in s.tags && t >= s.lvt[agent.id] ==> Rollback(s, agent, t, tag) == s.(tags := s.tags + [tag])
    ensures var r := Rollback(s, agent, t, tag);
            && r.Valid() && tag in r.tags && agent.id in r.lvt && Rollback(r, agent, t, tag) == r
  {
  }

  /** One that goes behind GVT gives up at the first sent request from before GVT: the agent is
      left at GVT. */
  lemma {:induction false} RollbackBehindGvt(s: State, agent: LpId, t: nat, tag: Tag)
    requires s.Valid() && agent.id in s.lvt && tag !in s.tags && t < s.lvt[agent.id]
    requires exists m | m in s.sendList :: Undone(m, agent, t) && m.ts < s.gvt
    ensures Rollback(s, agent, t, tag).lvt == s.lvt[agent.id := s.gvt]
    ensures forall m :: m in Rollback(s, agent, t, tag).sendList <==> m in s.sendList && !Undone(m, agent, t)
  {
    var m :| m in s.sendList && Undone(m, agent, t) && m.ts < s.gvt;
    var taken := Covered(s.sendList, agent, t);
    assert m in taken;
    var i :| 0 <= i < |taken| && taken[i] == m;
  }

  // ---- GVT and tags over whole runs ----

  /** The last GVT of a run, if any. */
  function LastGvt(gvt: nat, run: seq<Act>): nat
  {
    if run == [] then gvt
    else if run[|run| - 1].TakeGvt? then run[|run| - 1].gvt
    else LastGvt(gvt, run[..|run| - 1])
  }

  /** A rollback with the tag has come, and no later GVT than the tag's time since. */
  predicate Heard(known: bool, run: seq<Act>, tag: Tag)
  {
    if run == [] then known
    else
      var last, before := run[|run| - 1], Heard(known, run[..|run| - 1], tag);
      match last
      case RollBack(_, _, other) => before || other == tag
      case TakeGvt(gvt) => before && gvt <= tag.time
      case _ => before
  }

  lemma {:induction false} RunSplits(d: Desk, run: seq<Act>, a: Act)
    requires d.alp.Valid() && Possible(d, run + [a])
    ensures Possible(d, run) && Run(d, run).alp.Valid() && Enabled(Run(d, run), a)
    ensures Run(d, run + [a]) == Apply(Run(d, run), a)
    decreases |run|
  {
    var all := run + [a];
    ApplyValid(d, all[0]);
    if run == [] {
      assert all[1..] == [];
      assert Run(Apply(d, a), []) == Apply(d, a);
    } else {
      assert all[0] == run[0] && all[1..] == run[1..] + [a];
      RunSplits(Apply(d, run[0]), run[1..], a);
    }
  }

  /** In every run an ALP believes in the GVT it was told last, and knows exactly the tags of the
      rollbacks it has had that are not older than what it was told since. */
  lemma {:induction false} GvtAndTags(d: Desk, run: seq<Act>, tag: Tag)
    requires d.alp.Valid() && Possible(d, run)
    ensures Run(d, run).alp.gvt == LastGvt(d.alp.gvt, run)
    ensures tag in Run(d, run).alp.tags <==> Heard(tag in d.alp.tags, run, tag)
    decreases |run|
  {
    if run != [] {
      var before, a := run[..|run| - 1], run[|run| - 1];
      assert run == before + [a];
      RunSplits(d, before, a);
      GvtAndTags(d, before, tag);
    }
  }
}
