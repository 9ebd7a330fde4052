/** From the CLP that reports a stale read to the ALP that takes it back. */
module Recall {
  import opened Base
  import opened Periods
  import opened History
  import opened StateVariable
  import opened Alp
  import Ledger

  // Between them lie the rollback messages of RollbackList::SendRollbacks and Alp::ProcessRollback.

  /** The message that tells the agent of a stale read: it goes back to that read or before it,
      but not before the operation. */
  lemma {:induction false} ReaderIsTold(ps: seq<Period>, op: Op, s: Seen, sent: seq<RollbackMessage>, tag: Base.Tag)
    returns (k: nat)
    requires WellKept(ps) && History.Enabled(ps, op) && (op.OpWrite? || op.OpUndoWrite?)
    requires Tells(sent, Reported(ps, op), 0, tag) && s in Forgotten(ps, op)
    ensures k < |sent| && sent[k].agent == s.agent && op.t <= sent[k].time <= s.time && sent[k].tag == tag
    ensures forall j | 0 <= j < |sent| && sent[j].agent == s.agent :: j == k
  {
    ForgottenIsReported(ps, op);
    k :| 0 <= k < |sent| && sent[k].agent == s.agent;
  }

  /** A stale read is taken back: whatever read a write or a write rollback makes stale, its agent,
      which has gone on since, gets one message, and when its ALP has handled it the read request
      is neither queued nor listed any more, the anti-message of one that was sent is queued, and
      the agent is back at or before the read. */
  lemma {:induction false} StaleReadIsTakenBack(ps: seq<Period>, op: Op, s: Seen, sent: seq<RollbackMessage>, tag: Base.Tag,
                                                alp: State, id: nat, ssv: nat)
    returns (k: nat)
    requires WellKept(ps) && History.Enabled(ps, op) && (op.OpWrite? || op.OpUndoWrite?)
    requires Tells(sent, Reported(ps, op), 0, tag) && s in Forgotten(ps, op)
    requires alp.Valid() && s.agent.id in alp.lvt && alp.lvt[s.agent.id] > s.time && tag !in alp.tags && alp.gvt <= op.t
    ensures k < |sent| && sent[k].agent == s.agent
    ensures var after := Rollback(alp, s.agent, sent[k].time, tag);
            var request := ReadRequest(id, s.agent, s.time, ssv);
            && request !in after.queue && request !in after.sendList
            && (request in alp.sendList && ssv != 0 ==> AntiRead(id, s.agent, s.time, ssv, tag) in after.queue)
            && s.agent.id in after.lvt && after.lvt[s.agent.id] <= s.time
  {
    k := ReaderIsTold(ps, op, s, sent, tag);
    Ledger.RollbackTakesBack(alp, s.agent, sent[k].time, tag);
  }

  /** But no more than that: a request of the agent's from before everything the operation made
      stale stays where it was. */
  lemma {:induction false} EarlierRequestsStay(ps: seq<Period>, op: Op, sent: seq<RollbackMessage>, tag: Base.Tag,
                                               alp: State, k: nat, m: Message)
    requires WellKept(ps) && History.Enabled(ps, op) && op.OpWrite?
    requires Tells(sent, Reported(ps, op), 0, tag) && k < |sent| && IsRequest(m)
    requires alp.Valid() && sent[k].agent.id in alp.lvt && tag !in alp.tags && alp.gvt <= op.t
    requires sent[k].time < alp.lvt[sent[k].agent.id]
    requires forall s | s in Forgotten(ps, op) && s.agent == sent[k].agent :: m.ts < s.time
    ensures var after := Rollback(alp, sent[k].agent, sent[k].time, tag);
            (m in after.queue <==> m in alp.queue) && (m in after.sendList <==> m in alp.sendList)
  {
    ForgottenIsReported(ps, op);
    assert ReportsRead(Forgotten(ps, op), sent[k].agent, sent[k].time);
    Ledger.RollbackTakesBack(alp, sent[k].agent, sent[k].time, tag);
  }
}
