/** The agent side: the messages an ALP has queued, sent and may have to take back
    (src/lp/Alp.cpp, src/interface/HasSendList.cpp, src/lp/MessageQueue.cpp), as functions
    of its fields and as the objects that update them. */
module Alp {
  import opened Base

  datatype Range = Range(low: Value, high: Value)

  /** What passes the simulation send queue. The identifier of an anti-message is that of the
      message it takes back; on the wire only the one for a range query carries it. */
  datatype Message =
    | ReadRequest(id: nat, agent: LpId, ts: nat, ssv: nat)
    | WriteRequest(id: nat, agent: LpId, ts: nat, ssv: nat, value: Value)
    | RangeRequest(id: nat, agent: LpId, ts: nat, range: Range)
    | AntiRead(id: nat, agent: LpId, ts: nat, ssv: nat, tag: Tag)
    | AntiWrite(id: nat, agent: LpId, ts: nat, ssv: nat, tag: Tag)
    | AntiRange(id: nat, agent: LpId, ts: nat, range: Range, tag: Tag)

  predicate IsRequest(m: Message)
  {
    m.ReadRequest? || m.WriteRequest? || m.RangeRequest?
  }

  /** Which requests a rollback to t undoes: a write made at t belongs to the step before. */
  predicate Covers(m: Message, agent: LpId, t: nat)
  {
    match m
    case ReadRequest(_, a, ts, _) => a == agent && ts >= t
    case WriteRequest(_, a, ts, _, _) => a == agent && ts > t
    case RangeRequest(_, a, ts, _) => a == agent && ts >= t
    case _ => false
  }

  function Covered(ms: seq<Message>, agent: LpId, t: nat): (r: seq<Message>)
    ensures forall m :: m in r <==> m in ms && Covers(m, agent, t)
  {
    if ms == [] then []
    else if Covers(ms[0], agent, t) then [ms[0]] + Covered(ms[1..], agent, t)
    else Covered(ms[1..], agent, t)
  }

  function Uncovered(ms: seq<Message>, agent: LpId, t: nat): (r: seq<Message>)
    ensures forall m :: m in r <==> m in ms && !Covers(m, agent, t)
    ensures |r| <= |ms|
  {
    if ms == [] then []
    else if Covers(ms[0], agent, t) then Uncovered(ms[1..], agent, t)
    else [ms[0]] + Uncovered(ms[1..], agent, t)
  }

  function AntiOf(m: Message, tag: Tag): Message
    requires IsRequest(m)
  {
    match m
    case ReadRequest(id, a, ts, ssv) => AntiRead(id, a, ts, ssv, tag)
    case WriteRequest(id, a, ts, ssv, _) => AntiWrite(id, a, ts, ssv, tag)
    case RangeRequest(id, a, ts, range) => AntiRange(id, a, ts, range, tag)
  }

  /** Reads of variable 0 are not taken back. */
  function Antis(ms: seq<Message>, tag: Tag): seq<Message>
    requires forall m | m in ms :: IsRequest(m)
  {
    if ms == [] then []
    else (if ms[0].ReadRequest? && ms[0].ssv == 0 then [] else [AntiOf(ms[0], tag)]) + Antis(ms[1..], tag)
  }

  /** The taking back stops at the first message earlier than GVT. */
  function BeforeGvt(ms: seq<Message>, gvt: nat): (k: nat)
    ensures k <= |ms|
    ensures forall i | 0 <= i < k :: ms[i].ts >= gvt
    ensures k < |ms| ==> ms[k].ts < gvt
  {
    if ms == [] || ms[0].ts < gvt then 0 else 1 + BeforeGvt(ms[1..], gvt)
  }

  function Recent(ms: seq<Message>, t: nat): (r: seq<Message>)
    ensures forall m :: m in r <==> m in ms && m.ts >= t
    ensures |r| <= |ms|
  {
    if ms == [] then []
    else if ms[0].ts < t then Recent(ms[1..], t)
    else [ms[0]] + Recent(ms[1..], t)
  }

  function RecentTags(tags: seq<Tag>, t: nat): (r: seq<Tag>)
    ensures forall tag :: tag in r <==> tag in tags && tag.time >= t
    ensures |r| <= |tags|
  {
    if tags == [] then []
    else if tags[0].time < t then RecentTags(tags[1..], t)
    else [tags[0]] + RecentTags(tags[1..], t)
  }

  /** The first message with the identifier, |ms| if there is none. */
  function FindId(ms: seq<Message>, id: nat): (i: nat)
    ensures i <= |ms|
    ensures i < |ms| ==> ms[i].id == id
    ensures forall j | 0 <= j < i :: ms[j].id != id
  {
    if ms == [] || ms[0].id == id then 0 else 1 + FindId(ms[1..], id)
  }

  function Without(ms: seq<Message>, id: nat): seq<Message>
  {
    var i := FindId(ms, id);
    if i == |ms| then ms else ms[..i] + ms[i + 1..]
  }

  /** The fields of an ALP, with everything it has sent so far. */
  datatype State = State(lvt: map<nat, nat>, gvt: nat, tags: seq<Tag>,
                         queue: seq<Message>, sendList: seq<Message>, output: seq<Message>)
  {
    ghost predicate Valid()
    {
      forall m | m in sendList :: IsRequest(m)
    }
  }

  function Enqueue(s: State, m: Message): State
  {
    s.(queue := s.queue + [m])
  }

  function Send(s: State): State
  {
    if s.queue == [] then s
    else
      var m := s.queue[0];
      s.(queue := s.queue[1..], output := s.output + [m],
         sendList := if IsRequest(m) then s.sendList + [m] else s.sendList)
  }

  /** A rollback counts when its tag is new and it goes back behind the agent's time. */
  predicate Effective(s: State, agent: LpId, t: nat, tag: Tag)
    requires agent.id in s.lvt
  {
    tag !in s.tags && t < s.lvt[agent.id]
  }

  /** The agent back at t, without the requests that undoes. */
  function Stripped(s: State, agent: LpId, t: nat): State
  {
    s.(lvt := s.lvt[agent.id := t], queue := Uncovered(s.queue, agent, t),
       sendList := Uncovered(s.sendList, agent, t))
  }

  /** An anti-message for every request taken back. The source gives up, back at GVT, when it
      meets one earlier than GVT. */
  function TakeBack(s: State, id: nat, taken: seq<Message>, tag: Tag): State
    requires forall m | m in taken :: IsRequest(m)
  {
    var k := BeforeGvt(taken, s.gvt);
    s.(lvt := if k < |taken| then s.lvt[id := s.gvt] else s.lvt, queue := s.queue + Antis(taken[..k], tag))
  }

  function Rollback(s: State, agent: LpId, t: nat, tag: Tag): State
    requires s.Valid() && agent.id in s.lvt
  {
    if tag in s.tags then s
    else
      var tagged := s.(tags := s.tags + [tag]);
      if t >= s.lvt[agent.id] then tagged
      else TakeBack(Stripped(tagged, agent, t), agent.id, Covered(s.sendList, agent, t), tag)
  }

  function WriteFailed(s: State, id: nat): State
  {
    s.(sendList := Without(s.sendList, id))
  }

  function SetGvt(s: State, gvt: nat): (r: State)
    ensures r.gvt == gvt && r.lvt == s.lvt && r.queue == s.queue && r.output == s.output
    ensures forall m :: m in r.sendList <==> m in s.sendList && m.ts >= gvt
    ensures forall tag :: tag in r.tags <==> tag in s.tags && tag.time >= gvt
  {
    s.(gvt := gvt, sendList := Recent(s.sendList, gvt), tags := RecentTags(s.tags, gvt))
  }

  /** Local time only moves forward here. */
  function Advance(s: State, id: nat, lvt: nat): (r: State)
    requires id in s.lvt
    ensures r == s.(lvt := r.lvt) && r.lvt.Keys == s.lvt.Keys
    ensures r.lvt[id] >= s.lvt[id] && r.lvt[id] >= lvt && (r.lvt[id] == s.lvt[id] || r.lvt[id] == lvt)
    ensures forall other | other in s.lvt && other != id :: r.lvt[other] == s.lvt[other]
  {
    if s.lvt[id] <= lvt then s.(lvt := s.lvt[id := lvt]) else s
  }

  class MessageQueue {
    var messages: seq<Message>

    constructor ()
      ensures messages == []
    {
      messages := [];
    }

    method IsEmpty() returns (empty: bool)
      ensures empty <==> messages == []
    {
      empty := |messages| == 0;
    }

    method QueueMessage(m: Message)
      modifies this
      ensures messages == old(messages) + [m]
    {
      messages := messages + [m];
    }

    method DequeueMessage() returns (m: Message)
      requires messages != []
      modifies this
      ensures [m] + messages == old(messages)
    {
      m := messages[0];
      messages := messages[1..];
    }

    /** Erases what the rollback undoes while walking the queue. */
    method RemoveMessages(agent: LpId, t: nat)
      modifies this
      ensures messages == Uncovered(old(messages), agent, t)
      ensures forall m :: m in messages <==>
                m in old(messages) && !(IsRequest(m) && m.agent == agent && if m.WriteRequest? then m.ts > t else m.ts >= t)
    {
      var i: nat := 0;
      while i < |messages|
        invariant i <= |messages|
        invariant messages[..i] + Uncovered(messages[i..], agent, t) == Uncovered(old(messages), agent, t)
        decreases |messages| - i
      {
        UncoveredUnfolds(messages, i, agent, t);
        if Covers(messages[i], agent, t) {
          messages := messages[..i] + messages[i + 1..];
        } else {
          i := i + 1;
        }
      }
      assert messages[..i] == messages;
    }
  }

  lemma {:induction false} UncoveredUnfolds(ms: seq<Message>, i: nat, agent: LpId, t: nat)
    requires i < |ms|
    ensures (ms[..i] + ms[i + 1..])[..i] == ms[..i] && (ms[..i] + ms[i + 1..])[i..] == ms[i + 1..]
    ensures Covers(ms[i], agent, t) ==> Uncovered(ms[i..], agent, t) == Uncovered(ms[i + 1..], agent, t)
    ensures !Covers(ms[i], agent, t) ==>
              ms[..i] + Uncovered(ms[i..], agent, t) == ms[..i + 1] + Uncovered(ms[i + 1..], agent, t)
  {
    assert ms[i..][1..] == ms[i + 1..];
    assert ms[..i + 1] == ms[..i] + [ms[i]];
  }

  class Alp {
    var agentLvt: map<nat, nat>
    var gvt: nat
    var rollbackTagList: seq<Tag>
    const sendMessageQueue: MessageQueue
    var sendList: seq<Message>
    ghost var output: seq<Message>

    ghost function View(): State
      reads this, sendMessageQueue
    {
      State(agentLvt, gvt, rollbackTagList, sendMessageQueue.messages, sendList, output)
    }

    constructor ()
      ensures View() == State(map[], 0, [], [], [], []) && fresh(sendMessageQueue)
    {
      agentLvt, gvt, rollbackTagList, sendList, output := map[], 0, [], [], [];
      sendMessageQueue := new MessageQueue();
    }

    /** Hands the next simulation message to the network. Nothing may be left of it after a
        rollback. */
    method SendNext() returns (sent: Option<Message>)
      modifies this, sendMessageQueue
      ensures View() == Send(old(View()))
      ensures old(View()).queue != [] ==>
                var s, m := old(View()), old(View()).queue[0];
                && sendMessageQueue.messages == s.queue[1..] && output == s.output + [m]
                && sendList == if IsRequest(m) then s.sendList + [m] else s.sendList
      ensures sent == if old(View()).queue == [] then None else Some(old(View()).queue[0])
    {
      var empty := sendMessageQueue.IsEmpty();
      if empty { return None; }
      var m := sendMessageQueue.DequeueMessage();
      assert old(sendMessageQueue.messages)[1..] == sendMessageQueue.messages;
      match m {
        case ReadRequest(_, _, _, _) => sendList := sendList + [m];
        case WriteRequest(_, _, _, _, _) => sendList := sendList + [m];
        case RangeRequest(_, _, _, _) => sendList := sendList + [m];
        case _ =>
      }
      output := output + [m];
      sent := Some(m);
    }

    /** Remembers the tag unless it is known. */
    method CheckRollbackTagList(tag: Tag) returns (known: bool)
      modifies this`rollbackTagList
      ensures known == (tag in old(rollbackTagList))
      ensures rollbackTagList == if known then old(rollbackTagList) else old(rollbackTagList) + [tag]
    {
      known := tag in rollbackTagList;
      if !known { rollbackTagList := rollbackTagList + [tag]; }
    }

    /** Moves what the rollback undoes from the send list to the result, in order. */
    method RollbackSendList(agent: LpId, t: nat) returns (taken: seq<Message>)
      modifies this`sendList
      ensures sendList == Uncovered(old(sendList), agent, t)
      ensures taken == Covered(old(sendList), agent, t)
      ensures forall m :: m in taken <==>
                m in old(sendList) && IsRequest(m) && m.agent == agent && if m.WriteRequest? then m.ts > t else m.ts >= t
      ensures forall m :: m in sendList <==> m in old(sendList) && m !in taken
    {
      taken := [];
      var i: nat := 0;
      while i < |sendList|
        invariant i <= |sendList|
        invariant sendList[..i] + Uncovered(sendList[i..], agent, t) == Uncovered(old(sendList), agent, t)
        invariant taken + Covered(sendList[i..], agent, t) == Covered(old(sendList), agent, t)
        decreases |sendList| - i
      {
        UncoveredUnfolds(sendList, i, agent, t);
        assert sendList[i..][1..] == sendList[i + 1..];
        if Covers(sendList[i], agent, t) {
          taken := taken + [sendList[i]];
          sendList := sendList[..i] + sendList[i + 1..];
        } else {
          i := i + 1;
        }
      }
      assert sendList[..i] == sendList;
    }

    /** The source asserts that the agent is one of this ALP's. */
    method ProcessRollback(agent: LpId, t: nat, tag: Tag) returns (done: bool)
      requires View().Valid() && agent.id in agentLvt
      modifies this, sendMessageQueue
      ensures View() == Rollback(old(View()), agent, t, tag)
      ensures done <==> Effective(old(View()), agent, t, tag)
                        && BeforeGvt(Covered(old(sendList), agent, t), gvt) == |Covered(old(sendList), agent, t)|
    {
      var known := CheckRollbackTagList(tag);
      if known { return false; }
      if t >= agentLvt[agent.id] { return false; }
      ghost var tagged := View();
      agentLvt := agentLvt[agent.id := t];
      sendMessageQueue.RemoveMessages(agent, t);
      var taken := RollbackSendList(agent, t);
      assert View() == Stripped(tagged, agent, t);
      done := SendAntiMessages(agent.id, taken, tag);
    }

    method SendAntiMessages(id: nat, taken: seq<Message>, tag: Tag) returns (done: bool)
      requires forall m | m in taken :: IsRequest(m)
      modifies this`agentLvt, sendMessageQueue
      ensures View() == TakeBack(old(View()), id, taken, tag)
      ensures done <==> BeforeGvt(taken, gvt) == |taken|
    {
      var i: nat := 0;
      ghost var k := BeforeGvt(taken, gvt);
      while i < |taken|
        invariant i <= k && agentLvt == old(agentLvt)
        invariant sendMessageQueue.messages == old(sendMessageQueue.messages) + Antis(taken[..i], tag)
      {
        if gvt > taken[i].ts {
          agentLvt := agentLvt[id := gvt];
          return false;
        }
        AntisExtend(taken, i, tag);
        SendAntiMessage(taken[i], tag);
        i := i + 1;
      }
      return true;
    }

    method SendAntiMessage(m: Message, tag: Tag)
      requires IsRequest(m)
      modifies sendMessageQueue
      ensures sendMessageQueue.messages == old(sendMessageQueue.messages) + Antis([m], tag)
    {
      match m {
        case ReadRequest(of, a, ts, ssv) =>
          if ssv != 0 { sendMessageQueue.QueueMessage(AntiRead(of, a, ts, ssv, tag)); }
        case WriteRequest(of, a, ts, ssv, _) =>
          sendMessageQueue.QueueMessage(AntiWrite(of, a, ts, ssv, tag));
        case RangeRequest(of, a, ts, range) =>
          sendMessageQueue.QueueMessage(AntiRange(of, a, ts, range, tag));
        case _ =>
      }
    }

    /** A write response: a failed write left no period behind, so it is forgotten. */
    method ProcessWriteResponse(id: nat, success: bool)
      modifies this`sendList
      ensures View() == if success then old(View()) else WriteFailed(old(View()), id)
    {
      if !success {
        var removed := RemoveFromSendList(id);
      }
    }

    method RemoveFromSendList(id: nat) returns (removed: bool)
      modifies this`sendList
      ensures View() == WriteFailed(old(View()), id)
      ensures removed <==> exists m | m in old(sendList) :: m.id == id
    {
      for i := 0 to |sendList|
        invariant sendList == old(sendList) && forall j | 0 <= j < i :: sendList[j].id != id
      {
        if sendList[i].id == id {
          assert sendList[i] in sendList;
          sendList := sendList[..i] + sendList[i + 1..];
          return true;
        }
      }
      return false;
    }

    method ClearSendList(t: nat)
      modifies this`sendList
      ensures sendList == Recent(old(sendList), t)
    {
      var i: nat := 0;
      while i < |sendList|
        invariant i <= |sendList|
        invariant sendList[..i] + Recent(sendList[i..], t) == Recent(old(sendList), t)
        decreases |sendList| - i
      {
        RecentUnfolds(sendList, i, t);
        if sendList[i].ts < t {
          sendList := sendList[..i] + sendList[i + 1..];
        } else {
          i := i + 1;
        }
      }
      assert sendList[..i] == sendList;
    }

    method ClearRollbackTagList(t: nat)
      modifies this`rollbackTagList
      ensures rollbackTagList == RecentTags(old(rollbackTagList), t)
    {
      var i: nat := 0;
      while i < |rollbackTagList|
        invariant i <= |rollbackTagList|
        invariant rollbackTagList[..i] + RecentTags(rollbackTagList[i..], t) == RecentTags(old(rollbackTagList), t)
        decreases |rollbackTagList| - i
      {
        RecentTagsUnfold(rollbackTagList, i, t);
        if rollbackTagList[i].time < t {
          rollbackTagList := rollbackTagList[..i] + rollbackTagList[i + 1..];
        } else {
          i := i + 1;
        }
      }
      assert rollbackTagList[..i] == rollbackTagList;
    }

    method TakeGvt(newGvt: nat)
      modifies this
      ensures gvt == newGvt && View() == SetGvt(old(View()), newGvt)
      ensures forall m :: m in sendList <==> m in old(sendList) && m.ts >= newGvt
      ensures forall tag :: tag in rollbackTagList <==> tag in old(rollbackTagList) && tag.time >= newGvt
    {
      gvt := newGvt;
      ClearSendList(newGvt);
      ClearRollbackTagList(newGvt);
    }

    method SetAgentLvt(id: nat, lvt: nat)
      requires id in agentLvt
      modifies this`agentLvt
      ensures View() == Advance(old(View()), id, lvt)
      ensures id in agentLvt && agentLvt[id] >= lvt && (agentLvt[id] == lvt || agentLvt == old(agentLvt))
    {
      if agentLvt[id] <= lvt { agentLvt := agentLvt[id := lvt]; }
    }

    /** The least local time of its agents; the source asserts that there is one. */
    method GetLvt() returns (least: nat)
      requires exists id | id in agentLvt :: agentLvt[id] < ULONG_MAX
      ensures exists id | id in agentLvt :: agentLvt[id] == least
      ensures forall id | id in agentLvt :: least <= agentLvt[id]
    {
      least := ULONG_MAX;
      var rest := agentLvt;
      while rest != map[]
        invariant forall id | id in rest :: id in agentLvt && rest[id] == agentLvt[id]
        invariant least == ULONG_MAX || exists id | id in agentLvt :: agentLvt[id] == least
        invariant forall id | id in agentLvt && id !in rest :: least <= agentLvt[id]
        decreases rest.Keys
      {
        var id :| id in rest;
        if rest[id] < least { least := rest[id]; }
        rest := rest - {id};
      }
    }
  }

  lemma {:induction false} AntisExtend(ms: seq<Message>, i: nat, tag: Tag)
    requires i < |ms| && forall m | m in ms :: IsRequest(m)
    ensures Antis(ms[..i + 1], tag) == Antis(ms[..i], tag) + Antis([ms[i]], tag)
  {
    if i == 0 {
      assert ms[..1] == [ms[0]];
    } else {
      assert ms[..i + 1][1..] == ms[1..][..i] && ms[..i][1..] == ms[1..][..i - 1];
      AntisExtend(ms[1..], i - 1, tag);
    }
  }

  lemma {:induction false} RecentUnfolds(ms: seq<Message>, i: nat, t: nat)
    requires i < |ms|
    ensures (ms[..i] + ms[i + 1..])[..i] == ms[..i] && (ms[..i] + ms[i + 1..])[i..] == ms[i + 1..]
    ensures ms[i].ts < t ==> Recent(ms[i..], t) == Recent(ms[i + 1..], t)
    ensures ms[i].ts >= t ==> ms[..i] + Recent(ms[i..], t) == ms[..i + 1] + Recent(ms[i + 1..], t)
  {
    assert ms[i..][1..] == ms[i + 1..];
    assert ms[..i + 1] == ms[..i] + [ms[i]];
  }

  lemma {:induction false} RecentTagsUnfold(tags: seq<Tag>, i: nat, t: nat)
    requires i < |tags|
    ensures (tags[..i] + tags[i + 1..])[..i] == tags[..i] && (tags[..i] + tags[i + 1..])[i..] == tags[i + 1..]
    ensures tags[i].time < t ==> RecentTags(tags[i..], t) == RecentTags(tags[i + 1..], t)
    ensures tags[i].time >= t ==> tags[..i] + RecentTags(tags[i..], t) == tags[..i + 1] + RecentTags(tags[i + 1..], t)
  {
    assert tags[i..][1..] == tags[i + 1..];
    assert tags[..i + 1] == tags[..i] + [tags[i]];
  }
}
