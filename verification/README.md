# PDES-MAS, verified

PDES-MAS is an optimistic (Time Warp) distributed simulator. Communication processes (CLPs)
hold shared variables on a heap-numbered binary tree, agent processes (ALPs) hang off its
bottom CLPs, and a ring token computes global virtual time (GVT). This project models its
protocols in Dafny and proves what they are for.

`dafny verify dfyconfig.toml` checks everything.

## How it is organised

Code that updates fields is a class whose methods follow the source's branches and loops; each
method's contract gives its new state as a function of the old one, and the lemmas prove what
those functions mean. Protocols are state machines: a state, the steps that are possible, and
theorems over every run.

| part | files | main results |
|---|---|---|
| shared variables | `Periods`, `StateVariable`, `PeriodLaws`, `LiveWrites`, `History`, `Records`, `Canonical`, `Collection` | the period list edited in place is the latest live write at or before each time; no stale read survives, and no other is lost; collection is invisible |
| the CLP's side of them | `SharedState`, `AccessHandler`, `GvtHandler` | replaying a copy preserves history; reactions are never earlier than their cause, nor than the GVT that made a variable move |
| the agent's side of rollback | `Alp`, `Ledger`, `Recall`, `Transparency` | every request is accounted for once; every stale read is taken back; rollback is transparent end to end |
| GVT | `Mattern`, `GvtRound`, `GvtSafety`, `GvtProgress`, `GvtWait`, `GvtAgents`, `GvtExact`, `GvtRuns`, `GvtSecondCut` | counter conservation; GVT safety of rounds settled by the first cut, over whole runs; GVT is no earlier than need be; when a round of agents and CLPs is safe, and runs into states where it is not |
| routing and moving variables | `Tree`, `Forwarding`, `RouteTable`, `Migration`, `Chase`, `MigrationHandler`, `AccessCost` | routing arrives in exactly the tree distance; a variable is always in one place and always found, even on the move; a variable moves exactly when that saves enough |
| protocols on the tree | `EndFlood`, `RangeTracker`, `RangeQuery`, `RangeHops`, `RangePeriods` | flooding reaches everyone exactly once; a range query is answered with exactly the union; its port ranges are always there |
| the wire format and identifiers | `Wire`, `VariableWire`, `Streams`, `Base`, `Identifiers` | round trip of a migrating variable; identifiers never collide |

## What the code needs

These hypotheses appear in the theorems because the code needs them.

- Agents form a chain: ids rise with ranks. `Base.ChainIffOrdered` shows that the operators of
  `LpId` are an order exactly then. Only the results that compare agents use it.
- Times are below LONG_MAX; both ULONG_MAX and LONG_MAX as an end of a period mean "never".
- Results that undo writes need unique start times; reads, writes and collections do not.
- Migration, range queries and the flood take a full tree with ALPs below bottom CLPs only, the
  shape in which "rank >= N / 2" means "bottom". The forwarding walk takes any N.
- A GVT round begins with all processes white and no GVT message about; the simulation queue
  of a process is empty when it handles the token. A process that takes a new GVT over may
  send rollbacks for the variables it gives away; `GvtHandler.ToldAreLate` shows these to be
  later than that GVT.
- For whole runs GVT safety takes more: every old red message has a white one behind it in its
  channel when a round begins, rounds end at the first cut, and at the start everybody has a
  counter for every rank that anybody else can send to. The next section says what these are for.
- A send or receive is one atomic step, and channels are FIFO per pair. Messages go along the
  links of the tree: between neighbouring CLPs, and between an ALP and its CLP. In `GvtAgents`
  the token, too, stays behind the messages sent before it; value messages may overtake, which
  only allows more runs.

## Where the code does not meet its promise

Each of these is a theorem: the concrete failure, or the exact condition under which it holds.

- A process turns white again without waiting for its red messages, and a red message left over
  from an earlier round is in no counter and in nobody's red time. The next round is safe if
  each has a white one behind it in its channel (`GvtExact.FollowedIsSafe`). Between rounds,
  with no white message about, nobody waiting, nothing queued and the token's way clear, it is
  safe if and only if none is left over (`NextRoundIsSafeIff`), and from rest the code gets to
  where one is: a rollback, for which nobody waits (`GvtRuns.OldRedMessageIsMissed`,
  `SecondRoundIsUnsafe`).
- An absent white-message counter is read as -1, so a token can return with a count of 0 while a
  white message is in transit. With a counter for every rank that anybody else can send to the
  first round is safe (`GvtRuns.FirstIsSafe`); if a process other than the two at the ends of the
  link has none for an ALP with a sibling, it is not (`AbsentCounterHidesMessage`), and the source
  starts with no counters (`StartIsUnsafe`). On the counts themselves the exact condition is
  `GvtExact.NoCrossingIff`.
- The second cut waits for a process's own counter to make up for what the first cut counted, but
  that counter was folded in by the first cut already: it waits if and only if more is outstanding
  than the process ever received (`GvtSecondCut.SecondCutWaitsIff`), and may announce a time later
  than a message it should have waited for (`SecondCutOverlooksMessage`). A second cut that waits
  for all white messages on their way is safe (`GvtWait.SecondCutIsSafe`).
- Rollbacks sent after a migration name one tick later than the list does, and miss a read made
  at the very start of the first period its agent read (`SharedState.MigrationRollbackCoversIff`; `MigrationRollbackMisses`).
- Undoing a write at a time where another write already started leaves it there: the first write
  found goes if it is the same agent's (`Canonical.SecondWriteStays`), and nothing goes if it is
  another's (`OtherWriteStays`; `UndoTakesFirst`, `WriteThenUndo`).
- After a collection the moved base takes part in the tie-break at its new start
  (`Collection.CollectThenWrite`, `CollectThenWriteValue`; `CollectedBaseRefuses`).
- A range update that makes a range appear or disappear overwrites the period it finds, so that
  earlier times see it too (`RangePeriods.UpdateIsTimelyIff`); and when a variable changes, the first
  later period is not computed anew (`FirstLaterStays`).

## Model

| member | source | states |
|---|---|---|
| StateVariable.StateVariable.constructor | image/cluster/project/src/state/StateVariable.cpp:11-13 | A new variable has the given id and no periods. |
| StateVariable.StateVariable.AddWritePeriod | image/cluster/project/src/state/StateVariable.cpp:34-36 | Appends a period that starts at the time, never ends and has no reads. |
| StateVariable.StateVariable.Copy | image/cluster/project/src/state/StateVariable.cpp:15-20 | A copy holds the same periods with the same recorded reads. |
| StateVariable.StateVariable.Read | image/cluster/project/src/state/StateVariable.cpp:82-105 | Answers with the value at the time and records the read in the period that covers it, in map order; nothing else changes, and nothing at all when no period covers the time. |
| StateVariable.StateVariable.ReadWithoutRecord | image/cluster/project/src/state/StateVariable.cpp:107-119 | The value at the time and the end of its period, without a trace; ULONG_MAX and no value when nothing covers the time. |
| StateVariable.StateVariable.WriteWithRollback | image/cluster/project/src/state/StateVariable.cpp:121-190 | The list, the status and the rollback list become exactly what the specification of a write says; PeriodLaws and History prove what that means. |
| StateVariable.StateVariable.PerformReadRollback | image/cluster/project/src/state/StateVariable.cpp:192-199 | Drops that agent's reads at that time from the covering period and nothing else. |
| StateVariable.StateVariable.PerformWriteRollback | image/cluster/project/src/state/StateVariable.cpp:201-297 | The list and the rollback list become those of taking the write back, in every branch: first, last, inner period, or not the owner. |
| StateVariable.StateVariable.RemoveWritePeriods | image/cluster/project/src/state/StateVariable.cpp:38-80 | The list becomes the collected one: the period covering the time starts at it, and the ones before are gone. |
| StateVariable.WritePeriod.constructor | image/cluster/project/src/state/WritePeriod.cpp:13-19 | A fresh period has no reads and ends at ULONG_MAX. |
| StateVariable.WritePeriod.Read | image/cluster/project/src/state/WritePeriod.cpp:76-79 | Returns the value and inserts the read behind every key that is not greater. |
| StateVariable.WritePeriod.RemoveReadsBefore | image/cluster/project/src/state/WritePeriod.cpp:81-87 | Keeps exactly the reads at or after the time, in order. |
| StateVariable.WritePeriod.RemoveReadsAfterInclusive | image/cluster/project/src/state/WritePeriod.cpp:89-97 | Keeps exactly the earlier reads, and lists the agents of the others, each at its earliest erased read. |
| StateVariable.WritePeriod.RemoveReadsByAgent | image/cluster/project/src/state/WritePeriod.cpp:99-106 | Erases exactly the reads of that agent at that time. |
| StateVariable.WritePeriod.RemoveAllReads | image/cluster/project/src/state/WritePeriod.cpp:108-114 | Erases all reads and lists their agents at the given time. |
| StateVariable.RollbackList.AddLp | image/cluster/project/src/lp/RollbackList.cpp:24-31 | An agent is listed once, with the earliest of the times it was listed for. |
| StateVariable.RollbackList.SendRollbacks | image/cluster/project/src/lp/RollbackList.cpp:41-83 | One message for every listed agent and for nobody else, at its time, or one tick later after a migration, all with the given rollback tag; the list is empty afterwards. |
| PeriodLaws.ReadKeeps | image/cluster/project/src/state/StateVariable.cpp:82-105 | A read keeps the list well kept (chained ends, ordered starts, reads inside their period) and changes no value at any time. |
| PeriodLaws.WriteKeeps | image/cluster/project/src/state/StateVariable.cpp:121-190 | A write keeps the list well kept, and keeps starts unique when its time is new. |
| PeriodLaws.WriteValue | image/cluster/project/src/state/StateVariable.cpp:121-190 | An accepted write is what every time from it up to the next write reads, all other times read what they did; a refused one changes nothing. |
| PeriodLaws.WriteRefusedIff | image/cluster/project/src/state/StateVariable.cpp:133-166 | A write is refused if and only if it is earlier than a non-empty list or the latest write at that very time is by a greater agent. |
| PeriodLaws.UndoKeeps | image/cluster/project/src/state/StateVariable.cpp:201-297 | Taking a write back keeps the list well kept. |
| PeriodLaws.UndoValue | image/cluster/project/src/state/StateVariable.cpp:201-297 | Exactly the times that saw the write fall back to the one before it. |
| PeriodLaws.CollectKeeps | image/cluster/project/src/state/StateVariable.cpp:38-80 | Collection leaves every time from its own on as it was, and the list then starts exactly there. |
| LiveWrites.ReadsLatest | image/cluster/project/src/state/StateVariable.cpp:82-119 | The value at a time is that of the latest live write at or before it; there is none if and only if every live write is later. |
| LiveWrites.WriteHolds | image/cluster/project/src/state/StateVariable.cpp:121-190 | A write at a new time behind the base is accepted and adds exactly one live write. |
| LiveWrites.UndoHolds | image/cluster/project/src/state/StateVariable.cpp:201-297 | Undoing removes exactly the live write at that time, if and only if it is the agent's own. |
| LiveWrites.SameMapSameList | image/cluster/project/src/state/StateVariable.cpp:121-297 | The live writes determine the list: two well-kept lists with the same live writes differ at most in recorded reads and in how "no end" is written. |
| History.StepKeeps | image/cluster/project/src/state/StateVariable.cpp:38-297 | Every operation keeps the list well kept. |
| History.RunRecords | image/cluster/project/src/state/StateVariable.cpp:38-297 | Over any run, what is recorded was recorded at the start or is the answer of a read of the run, as multisets. |
| History.NoStaleRead | image/cluster/project/src/state/StateVariable.cpp:82-105 | No stale read survives: after any run every recorded read lies in the period covering its time, and that period's value is one that agent was really answered for that time. |
| History.ForgottenIsReported | image/cluster/project/src/state/WritePeriod.cpp:89-114 | The rollback list after a write or a write rollback names exactly the agents of the reads it invalidated: after a write each at the time of its first such read, after a write rollback each at the time of the write. |
| Records.WriteLoses | image/cluster/project/src/state/StateVariable.cpp:121-190 | A write erases exactly the recorded reads that would now see it: those at or after its time with no other write in between. |
| Records.UndoLoses | image/cluster/project/src/state/StateVariable.cpp:201-297 | Taking a write back erases exactly the recorded reads that saw it. |
| Records.UndoReadLoses | image/cluster/project/src/state/StateVariable.cpp:192-199 | Taking a read back erases the reads of that agent at that time, and every other recorded read stays, as often as it was recorded. |
| Records.CollectLoses | image/cluster/project/src/state/StateVariable.cpp:38-80 | Collection erases exactly the reads before its time; those at it or after it stay, as often as they were recorded. |
| Records.RunRecordsExactly | image/cluster/project/src/state/StateVariable.cpp:38-297 | Over any run each read is recorded exactly as often as it was answered with that value and not taken back, overwritten, left without its write or collected since. |
| Records.ReadsLast | image/cluster/project/src/state/StateVariable.cpp:38-297 | The converse of RunRecords: every answered read is still recorded unless its agent took it back at that time, it was collected, or its agent was told to roll back to it or before it. |
| Canonical.RunIsLive | image/cluster/project/src/state/StateVariable.cpp:121-297 | After any run of writes and undos at distinct times behind the base, the list is exactly the live writes, sorted and chained. |
| Canonical.RunsAgree | image/cluster/project/src/state/StateVariable.cpp:121-297 | Runs that leave the same writes live leave the same list and the same value at every time, in whatever order the operations came. |
| Canonical.WritesCommute | image/cluster/project/src/state/StateVariable.cpp:121-190 | Two writes at different times may arrive in either order. |
| Canonical.WriteThenUndo | image/cluster/project/src/state/StateVariable.cpp:201-208 | A write followed by its rollback restores the value at every time if and only if no write started at that time before or it had the same value: the forward search finds the older twin. |
| Canonical.SecondWriteStays | image/cluster/project/src/state/StateVariable.cpp:201-208 | Such a list: of two writes of one agent at one time the first goes although the second was taken back. |
| Canonical.OtherWriteStays | image/cluster/project/src/state/StateVariable.cpp:201-208 | And one where nothing goes: agent 3 takes its write at 5 back, but agent 2 has written at 5 before, is found first and is not the owner; the value of 3 is read for good. |
| Canonical.UndoTakesFirst | image/cluster/project/src/state/StateVariable.cpp:201-208 | Which write goes, for every list: an agent that takes back its write at a time where others started before meets the first of those, and it goes if and only if that one is by the same agent. |
| Collection.CollectionInvisible | image/cluster/project/src/state/StateVariable.cpp:38-80 | Along every run with non-decreasing collections, later undos, and writes that are later or at the very time of the last collection by an agent not lesser than the covering write's, no read fails, and every read is answered as in the same run without any collection. |
| Collection.CollectedVariable | image/cluster/project/src/state/StateVariable.cpp:38-105 | The same from the single write a variable is created with: the list is never empty, and every time at or after the last collection has the uncollected value. |
| Collection.CollectThenWrite | image/cluster/project/src/state/StateVariable.cpp:133-166 | After a collection a write at or after its time is accepted if and only if it was before, unless it is at that very time and the base's agent is greater. |
| Collection.CollectThenWriteValue | image/cluster/project/src/state/StateVariable.cpp:133-166 | A write at or after the collection time, the time itself included, leaves every value it would have left without the collection if and only if it is not refused for the moved base, or would have changed nothing. |
| Collection.CollectedBaseRefuses | image/cluster/project/src/state/StateVariable.cpp:133-166 | Such a list: a write at the collection time that would have been accepted loses to the moved base. |
| SharedState.SharedState.Insert | image/cluster/project/src/state/SharedState.cpp:48-99 | The variable becomes what replaying the copy's writes on nothing makes; all others are untouched. |
| SharedState.SharedState.Delete | image/cluster/project/src/state/SharedState.cpp:101-112 | Exactly that variable is gone. |
| SharedState.SharedState.GetCopy | image/cluster/project/src/state/SharedState.cpp:114-120 | The copy has the variable's periods. |
| SharedState.SharedState.Read | image/cluster/project/src/state/SharedState.cpp:122-130 | A read of one variable changes that variable alone, as StateVariable says. |
| SharedState.SharedState.WriteWithRollback | image/cluster/project/src/state/SharedState.cpp:132-170 | A write changes that variable alone; status and rollback list are those of the variable. |
| SharedState.SharedState.RollbackWrite | image/cluster/project/src/state/SharedState.cpp:229-267 | A write rollback changes that variable alone. |
| SharedState.SharedState.RollbackRead | image/cluster/project/src/state/SharedState.cpp:269-275 | A read rollback changes that variable alone. |
| SharedState.SharedState.RemoveWritePeriods | image/cluster/project/src/state/SharedState.cpp:277-283 | Every variable is collected, each exactly once. |
| SharedState.SharedState.RemoveWritePeriodList | image/cluster/project/src/state/SharedState.cpp:285-330 | The variable is left as undoing every write it had, front to back, by the write's own agent, leaves it. |
| SharedState.ReplayPreserves | image/cluster/project/src/state/SharedState.cpp:48-99 | Migration preserves history: replaying a copy gives the same starts, agents, values and chained ends, hence the same value at every time, asks nobody to roll back and holds no reads. |
| SharedState.UndoAllEmpties | image/cluster/project/src/state/SharedState.cpp:285-330 | Emptying leaves no period. |
| SharedState.EmptyingReports | image/cluster/project/src/state/SharedState.cpp:285-330 | Emptying lists exactly the agents with recorded reads, each no later than every read it loses. |
| SharedState.MigrationRollbackCoversIff | image/cluster/project/src/lp/RollbackList.cpp:63-83 | The message after a migration, one tick later than listed, covers all reads an agent loses if and only if none was made at the very start of the first period that agent read. |
| SharedState.MigrationRollbackMisses | image/cluster/project/src/lp/RollbackList.cpp:63-83 | Such a list: a read at 5, where its period starts, is lost, and its agent is told to go back to 6. |
| AccessHandler.AccessHandler.ProcessRead | image/cluster/project/src/lp/Clp.cpp:366-401 | The response carries the value at the message's time, or at GVT for an older message, with the message's own time, identifier and agent, and the read is recorded; no response and no change where nothing covers the time. |
| AccessHandler.AccessHandler.ProcessAntiRead | image/cluster/project/src/lp/Clp.cpp:403-438 | An anti-read before GVT is dropped; any other is one read rollback. |
| AccessHandler.AccessHandler.ProcessWrite | image/cluster/project/src/lp/Clp.cpp:440-480 | One write; the response reports whether it was accepted, and the invalidated readers are told with a tag of the variable, the time and the cause. |
| AccessHandler.AccessHandler.ProcessAntiWrite | image/cluster/project/src/lp/Clp.cpp:482-514 | An anti-write before GVT is dropped without a message; any other is one write rollback whose readers are told with the anti-message's own tag. |
| AccessHandler.AccessHandler.CountAccess | image/cluster/project/src/lp/Clp.cpp:393-400 | The access is recorded, with its hops, under the port on the way to the agent. |
| AccessHandler.AccessHandler.CollectAt | image/cluster/project/src/lp/Clp.cpp:89-94 | Every variable is collected at the new GVT. |
| AccessHandler.ReactionsAreCausal | image/cluster/project/src/lp/Clp.cpp:440-514 | Every rollback a CLP asks for because of a message is no earlier than that message: the causality the GVT round needs. |
| AccessHandler.GuardsNeverFire | image/cluster/project/src/lp/Clp.cpp:370-378 | With a safe GVT no guard fires: on a collected variable a message not earlier than GVT acts at its own time and finds a period. |
| GvtHandler.GvtHandler.SetGvt | image/cluster/project/src/lp/Clp.cpp:89-119 | A new GVT: everything is collected; unless the end is being processed or there was too little load, the variables the calculator chooses leave port by port, each in one message, as collected and once, with their readers told, and their counters are forgotten; the end flag is reset. |
| GvtHandler.GvtHandler.TakeGvt | image/cluster/project/src/lp/Clp.cpp:89-119 | The same up to the counters. |
| GvtHandler.GvtHandler.Decide | image/cluster/project/src/lp/Clp.cpp:101-117 | Nothing moves while the end is being processed or when the load is not above the threshold; otherwise exactly the migration map. |
| GvtHandler.GvtHandler.MigrateStateVariables | image/cluster/project/src/lp/Clp.cpp:643-699 | All listed variables leave, port by port, as they were before the first left. |
| GvtHandler.GvtHandler.ForgetCounter | image/cluster/project/src/state/SharedState.cpp:101-112 | A variable that is deleted is off the calculator's list. |
| GvtHandler.AnsweredIsMovable | image/cluster/project/src/lp/AccessCostCalculator.cpp:111-144 | The calculator's answer can be carried out: every variable is here, and listed once. |
| GvtHandler.MigrationRollbacksAreLate | image/cluster/project/src/lp/Clp.cpp:643-699 | Rollbacks asked for by giving away a variable just collected at GVT are all later than GVT: what the GVT round has to allow for when a process takes a value over. |
| GvtHandler.ToldAreLate | image/cluster/project/src/lp/Clp.cpp:89-119 | So are all rollbacks of one SetGvt, for every variable and port. |
| Alp.MessageQueue.QueueMessage | image/cluster/project/src/lp/MessageQueue.cpp:24-28 | Appends one message. |
| Alp.MessageQueue.DequeueMessage | image/cluster/project/src/lp/MessageQueue.cpp:30-36 | Takes the oldest message off. |
| Alp.MessageQueue.IsEmpty | image/cluster/project/src/lp/MessageQueue.cpp:17-22 | Whether nothing is queued. |
| Alp.MessageQueue.RemoveMessages | image/cluster/project/src/lp/MessageQueue.cpp:38-85 | Erases exactly the agent's queued reads and range queries at or after the time and its writes after it; everything else keeps its order. |
| Alp.Alp.SendNext | image/cluster/project/src/lp/Alp.cpp:109-151 | The oldest queued message goes out, and a request is remembered in the send list. |
| Alp.Alp.ProcessRollback | image/cluster/project/src/lp/Alp.cpp:310-468 | Nothing for a known tag; only the tag for a time not before the agent's; else local time, queue and send list go back and an anti-message is queued for each sent request, up to the first one from before GVT. |
| Alp.Alp.CheckRollbackTagList | image/cluster/project/src/interface/HasRollbackTagList.cpp:13-20 | Whether the tag is known; it is from now on. |
| Alp.Alp.RollbackSendList | image/cluster/project/src/interface/HasSendList.cpp:15-66 | Takes exactly the agent's sent reads and range queries at or after the time and its writes after it off the list, in order, and leaves the others. |
| Alp.Alp.ProcessWriteResponse | image/cluster/project/src/lp/Alp.cpp:264-275 | A failed write is forgotten; a successful one changes nothing. |
| Alp.Alp.RemoveFromSendList | image/cluster/project/src/interface/HasSendList.cpp:98-107 | Removes the first message with the identifier, if there is one, and says so. |
| Alp.Alp.ClearSendList | image/cluster/project/src/interface/HasSendList.cpp:68-78 | Keeps exactly the messages at or after the time, in order. |
| Alp.Alp.ClearRollbackTagList | image/cluster/project/src/interface/HasRollbackTagList.cpp:22-29 | Keeps exactly the tags at or after the time, in order. |
| Alp.Alp.TakeGvt | image/cluster/project/src/lp/Alp.cpp:496-501 | GVT is the new one, and of send list and tags exactly what is not earlier than it stays. |
| Alp.Alp.SetAgentLvt | image/cluster/project/src/lp/Alp.cpp:521-533 | The agent's local time is the given one if that is not earlier, else as it was; nobody else's changes. |
| Alp.Alp.GetLvt | image/cluster/project/src/lp/Alp.cpp:485-494 | The least local time of all agents. |
| Ledger.LedgerHolds | image/cluster/project/src/lp/Alp.cpp:109-468 | Over every run: each request is in exactly one place (queued, removed unsent, listed, failed, collected, or taken back once), is sent at most once, gets at most one anti-message, and that comes later in the output. |
| Ledger.StepKeeps | image/cluster/project/src/lp/Alp.cpp:109-501 | The full ledger invariant is kept by issuing, sending, rollbacks, write failures and GVT. |
| Ledger.RollbackSettles | image/cluster/project/src/lp/Alp.cpp:390-468 | What a rollback covers is neither queued nor listed any more: an unsent request is removed and never taken back, a sent one has exactly one anti-message. |
| Ledger.RollbackSplits | image/cluster/project/src/lp/Alp.cpp:390-468 | What it does not cover, of this and of other agents, stays where it was and in order; the anti-messages come last. |
| Ledger.RollbackTakesBack | image/cluster/project/src/lp/Alp.cpp:310-468 | Request by request: after a rollback that goes back behind the agent's time but not behind GVT, a request is queued, or listed, if and only if it was and is another agent's, or before the time, or a write at it; each other listed request has its anti-message queued with the tag, and there is no further one; the agent is back at the time and nothing else has changed. |
| Ledger.RollbackCountsOnce | image/cluster/project/src/lp/Alp.cpp:310-330 | Any other rollback changes nothing but the known tags, and no rollback has an effect twice. |
| Ledger.RollbackBehindGvt | image/cluster/project/src/lp/Alp.cpp:399-406 | When a sent request from before GVT would have to be taken back, the agent is left at GVT, and still nothing that is undone stays listed. |
| Ledger.GvtAndTags | image/cluster/project/src/lp/Alp.cpp:496-501 | In every run an ALP's GVT is the one it was told last, and it knows exactly the tags of the rollbacks it has had that are not older than a GVT told since. |
| Recall.StaleReadIsTakenBack | image/cluster/project/src/lp/Alp.cpp:310-468 | From end to end: every recorded read that a write or its rollback makes stale is named in one rollback message, and when the ALP has handled it the request is neither queued nor listed, its anti-message is queued if it had been sent, and the agent is back at the read or before it. |
| Recall.EarlierRequestsStay | image/cluster/project/src/lp/Alp.cpp:310-468 | And no more than that: requests of the agent from before all the reads that a write made stale stay where they were. |
| Transparency.OutputIsPromised | image/cluster/project/src/lp/Alp.cpp:109-151 | Whatever an ALP does, its output sends each request at most once and each anti-message at most once and later. |
| Transparency.MergeIsOrderly | image/cluster/project/src/lp/Alp.cpp:109-151 | So in any FIFO merge of such outputs every arrival is new and every anti-message follows its request. |
| Transparency.ArrivalsAreLive | image/cluster/project/src/state/StateVariable.cpp:121-297 | The live writes after any arrivals are exactly the arrived writes without an arrived anti-message. |
| Transparency.RollbackIsTransparent | image/cluster/project/src/lp/Alp.cpp:390-468 | Rollback is transparent end to end: after any merge the variable has the list, and at every time the value, that the un-annihilated writes alone would have given it. |
| Mattern.GvtCalculator.PreProcessSendMessage | image/cluster/project/src/lp/Lp.cpp:28-38 | The message gets the process's colour; a white one is counted, a red one lowers the red time. Both assertions of the source hold. |
| Mattern.GvtCalculator.PreProcessReceiveMessage | image/cluster/project/src/lp/Lp.cpp:40-45 | A white message lowers the process's own counter. |
| Mattern.GvtCalculator.ProcessRequest | image/cluster/project/src/lp/GvtCalculator.cpp:21-44 | Only the starter, and only when it accepts requests, sends a fresh token and turns white. |
| Mattern.GvtCalculator.ProcessValue | image/cluster/project/src/lp/GvtCalculator.cpp:46-60 | Everybody but the starter takes the value over and turns white. |
| Mattern.GvtCalculator.GetWhiteTransientMessageCounter | image/cluster/project/src/lp/GvtCalculator.cpp:85-91 | The counter, or -1 for a rank it has none for. |
| Mattern.GvtCalculator.IncrementWhiteTransientMessageCounter | image/cluster/project/src/lp/GvtCalculator.cpp:97-99 | One more, from 0 if absent. |
| Mattern.GvtCalculator.DecrementWhiteTransientMessageCounter | image/cluster/project/src/lp/GvtCalculator.cpp:93-95 | One less, from 0 if absent. |
| Mattern.GvtCalculator.ProcessFirstCut | image/cluster/project/src/lp/GvtCalculator.cpp:101-165 | The process turns red and folds its counters and local time into the token; the starter announces, or starts the second cut when a count it looks at is positive. |
| Mattern.GvtCalculator.HasWhiteTransientsRemaining | image/cluster/project/src/lp/GvtCalculator.cpp:139-143 | Whether a count is positive for a rank the starter has a counter for. |
| Mattern.GvtCalculator.ProcessSecondCut | image/cluster/project/src/lp/GvtCalculator.cpp:192-211 | The second cut from where its wait ends. |
| Mattern.GvtCalculator.SendValues | image/cluster/project/src/lp/GvtCalculator.cpp:221-229 | One value message for every other process, all with the announced time. |
| GvtRound.CountersAreConserved | image/cluster/project/src/lp/Lp.cpp:28-45 | In every reachable state, with channels in order between linked processes and migrations at a new GVT included, the counters for a rank sum to the white messages in transit to it, and nobody's counter for itself is positive. |
| GvtRound.StepAccounts | image/cluster/project/src/lp/GvtCalculator.cpp:101-165 | In a first cut, the token's count, the counters not yet folded in and the missing ones account for all white messages in transit or late, kept by every step. |
| GvtRound.StepFloored | image/cluster/project/src/lp/GvtCalculator.cpp:101-165 | The token's times bound the local times it has seen and the red messages sent since, kept by every step. |
| GvtRound.CountsAreExact | image/cluster/project/src/lp/GvtCalculator.cpp:135-143 | When the token is back each corrected count is exactly the white messages still in transit plus those that came late. |
| GvtRound.FirstCutIsSafe | image/cluster/project/src/lp/GvtCalculator.cpp:145-165 | If then no corrected count is positive, no white message crossed the cut, and the announced time is at most every local time, queued message and message in transit, up to red messages of an earlier round that no white one follows in their channel. |
| GvtRound.StepSafe | image/cluster/project/src/lp/Lp.cpp:28-45 | Nothing ever undercuts a safe time again, the rollbacks of migrations at a GVT not earlier than it included. |
| GvtProgress.GvtCatchesUp | image/cluster/project/src/lp/GvtCalculator.cpp:101-211 | The other direction of safety, for either cut and any counters: if nothing in the system is earlier than a time when no token and no value message is about, every GVT announced or taken over from then on is at least that time. |
| GvtWait.SecondCutIsSafe | image/cluster/project/src/lp/GvtCalculator.cpp:167-211 | A second cut that really waits is safe: if no process is cut for the second time with a white message on its way to it, the announced time is at most every local time, queued message and message in transit, up to red messages from before the round. |
| GvtSafety.GvtIsSafe | image/cluster/project/src/lp/GvtCalculator.cpp:213-246 | GVT safety over whole runs: if the counters suffice at rest, and every round begins with its old red messages each followed by a white one in its channel and ends at the first cut, every process's GVT is safe at every later point, and announced values never decrease. |
| GvtAgents.MoveIsAStep | image/cluster/project/src/interface/Agent.cpp:46-124 | The code's own runs are runs of the round: whatever agents that wait for their answers, their processes and CLPs that only react to messages can do is a step that GvtRound allows. |
| GvtAgents.MoveValid | image/cluster/project/src/lp/Alp.cpp:309-494 | Every such move keeps what ties agents to processes: a process's local time is its slowest agent's, ULONG_MAX without one, and no CLP has agents. |
| GvtExact.FollowedIsSafe | image/cluster/project/src/lp/GvtCalculator.cpp:46-60 | A sufficient condition a round can be looked at for: if, when it begins, every red message of an earlier round has a white one behind it in its channel, then whatever agents and CLPs do, a round settled by the first cut announces a safe time. |
| GvtExact.UncountedIsUnsafe | image/cluster/project/src/lp/GvtCalculator.cpp:101-165 | When nobody waits, nothing is queued and no message is in the token's way, a round whose counts say that nothing is outstanding although a message of a proper time is in transit is not safe: the agents let time pass, and the token comes home with a later time. |
| GvtExact.NextRoundIsSafeIff | image/cluster/project/src/lp/GvtCalculator.cpp:46-60 | So between two rounds, with no white message about, nobody waiting, nothing queued and the token's way clear, the next round is safe if and only if no message of a time below LONG_MAX is left over. |
| GvtExact.NoCrossingIff | image/cluster/project/src/lp/GvtCalculator.cpp:139-143 | When the token is back, no white message crossed the cut if and only if no count is positive once corrected by the processes without a counter; the source looks at uncorrected counts. |
| GvtRuns.FirstIsSafe | image/cluster/project/src/lp/GvtCalculator.cpp:85-91 | From any system at rest in which everybody has a counter for every rank that anybody else can send to, the first round is safe. |
| GvtRuns.AbsentCounterHidesMessage | image/cluster/project/src/lp/GvtCalculator.cpp:85-91 | From any system at rest with two ALPs of one CLP: if any process other than the two at the ends of the link lacks a counter for one of the ALPs, the first round is not safe. One agent reads, the other overwrites what was read, the rollback stays in transit uncounted, and both agents move on. |
| GvtRuns.StartIsUnsafe | image/cluster/project/src/lp/GvtCalculator.cpp:85-91 | An instance: three CLPs and two ALPs that start with no counters, as the source does. |
| GvtRuns.OldRedMessageIsMissed | image/cluster/project/src/lp/GvtCalculator.cpp:46-60 | From any system at rest with the counters there and two ALPs of a CLP other than the starter: a run whose only round is settled by the first cut, in which every agent waits for its answers, after which everybody is white, a red rollback is still in transit, and the next round is not safe. |
| GvtRuns.SecondRoundIsUnsafe | image/cluster/project/src/lp/GvtCalculator.cpp:46-60 | An instance: five processes with all counters, whose first round is safe and may lead to where the next one is not. |
| GvtSecondCut.SecondCutWaitsIff | image/cluster/project/src/lp/GvtCalculator.cpp:184-191 | With the counters there a process waits in the second cut if and only if more white messages are outstanding for it than it has ever received, not if any is outstanding. |
| GvtSecondCut.SecondCutOverlooksMessage | image/cluster/project/src/lp/GvtCalculator.cpp:184-211 | From any system at rest with the counters there and two ALPs of one CLP, a run whose second cut announces a time later than a message in transit. |
| Tree.WalkIsNoShorter | image/cluster/project/src/routing/ForwardingTable.cpp:31-41 | The distance used throughout is the graph distance of the tree: no walk is shorter ... |
| Tree.RouteIsShortest | image/cluster/project/src/routing/ForwardingTable.cpp:31-41 | ... and following next hops is a walk of exactly that length within the ranks below n. |
| Tree.HopChangesDist | image/cluster/project/src/routing/ForwardingTable.cpp:31-41 | Exactly one neighbour is closer to a destination, by one; every other is one further. |
| Forwarding.ForwardingTable.constructor | image/cluster/project/src/routing/ForwardingTable.cpp:13-18 | For every n and rank the table has exactly the ranks below n, each with its tree distance and the neighbour on the way. |
| Forwarding.ForwardingTable.WalkTree | image/cluster/project/src/routing/ForwardingTable.cpp:31-41 | The walk ends, keeps every entry right, covers its rank and closes the table under neighbours. |
| Forwarding.ForwardingTable.GetRoutingInfo | image/cluster/project/src/routing/ForwardingTable.cpp:24-29 | The entry of a rank that is there. |
| RouteTable.RouteTable.constructor | image/cluster/project/src/routing/RouteTable.cpp:19-85 | All three maps are right: every rank has a direction, the port behind it is the neighbour on the way, and a variable starts with the direction of the first CLP that lists it. |
| RouteTable.RouteTable.FillFrom | image/cluster/project/src/routing/RouteTable.cpp:27-44 | The variables of one host get the port on the way to it unless they are already known. |
| RouteTable.RouteTable.FillNeighbours | image/cluster/project/src/routing/RouteTable.cpp:47-61 | The neighbours in rank order take Up, Left and Right, whichever exist, and both maps agree. |
| RouteTable.RouteTable.FillClps | image/cluster/project/src/routing/RouteTable.cpp:63-72 | Every other CLP shares the port of its next hop. |
| RouteTable.RouteTable.FillAlps | image/cluster/project/src/routing/RouteTable.cpp:74-84 | Attached ALPs get ports of their own; the others go the way of their CLP. |
| RouteTable.RouteTable.GetDirectionFromSsvId | image/cluster/project/src/routing/RouteTable.cpp:87-92 | The variable's direction, or DIRECTION_SIZE. |
| RouteTable.RouteTable.SetSsvIdHost | image/cluster/project/src/routing/RouteTable.cpp:108-110 | One pointer is overwritten. |
| RouteTable.RouteByRank | image/cluster/project/src/routing/Router.cpp:19-24 | Delivers here, or forwards to the neighbour on the unique path. |
| RouteTable.RouteByVariable | image/cluster/project/src/routing/Router.cpp:37-46 | No route for an unknown variable, delivery for one that is here, else the neighbour on the way to whatever host the pointer leads to. |
| RouteTable.RoutingArrives | image/cluster/project/src/routing/Router.cpp:19-96 | From every CLP to every CLP and ALP, following the tables arrives after exactly the tree distance. |
| MigrationHandler.Clp.MigrateTo | image/cluster/project/src/lp/Clp.cpp:643-699 | The listed variables leave: their periods are the payload, their pointers lead out, they are gone here, and each one's readers are told. |
| MigrationHandler.Clp.MoveOut | image/cluster/project/src/lp/Clp.cpp:667-682 | One variable: copied, pointed away, emptied and deleted, with the rollbacks one tick after the listed times. |
| MigrationHandler.Clp.ProcessStateMigration | image/cluster/project/src/lp/Clp.cpp:613-641 | Every variable of the message is rebuilt here and points here. |
| MigrationHandler.ReadersAreTold | image/cluster/project/src/lp/Clp.cpp:643-699 | When variables leave, exactly the agents with recorded reads are told, once for each variable they read, one tick after the start of the first period they read, with the tag of a migration of that variable. |
| MigrationHandler.ArrivalIsSilent | image/cluster/project/src/lp/Clp.cpp:613-641 | Where a well-kept variable arrives nobody is told anything. |
| Migration.StepLocated | image/cluster/project/src/lp/Clp.cpp:613-699 | One step moves a variable's place exactly as it should and keeps every CLP's pointer right, although it rewrites only the two ends'. |
| Migration.AlwaysLocated | image/cluster/project/src/lp/Clp.cpp:613-699 | In every reachable state a variable is in exactly one map or one message in flight, and a CLP's pointer is HERE if and only if it holds the variable. |
| Migration.VariableIsFound | image/cluster/project/src/routing/Router.cpp:37-96 | From anywhere the pointers lead to a resting variable in exactly the distance. |
| Migration.CrossingIsFound | image/cluster/project/src/routing/Router.cpp:37-96 | To a variable crossing an edge they lead from anywhere to the end it left, in the distance, and on over that edge behind it; when it has arrived the other end holds it. |
| Chase.ChaseIsBounded | image/cluster/project/src/routing/Router.cpp:37-96 | A message for a variable that goes on moving while it is on its way, in every run: the hops it has made and would still have to make are at most the distance at the start plus one for every move of the variable since; it has found the variable exactly when none is left, and until then it can go on or is right behind it in its channel. |
| Chase.SetOutIsNearer | image/cluster/project/src/routing/Router.cpp:37-46 | A hop along the pointer brings it exactly one nearer, the variable resting or crossing. |
| Chase.ActIsNoFurther | image/cluster/project/src/lp/Clp.cpp:613-699 | A departure puts the variable at most one further away, an arrival not at all. |
| Migration.StartsLocated | image/cluster/project/src/routing/RouteTable.cpp:19-45 | The constructed tables establish the invariant. |
| Migration.MovesAreInvisible | image/cluster/project/src/lp/Clp.cpp:613-699 | However a variable moves between accesses, its list and every value are those of never having moved, up to recorded reads. |
| AccessCost.AccessCostCalculator.constructor | image/cluster/project/src/lp/AccessCostCalculator.cpp:6-11 | No variables; the bottom level and the port threshold by exact logarithms. |
| AccessCost.AccessCostCalculator.InitialiseCounters | image/cluster/project/src/lp/AccessCostCalculator.cpp:19-30 | Lists the variable once and clears its counters. |
| AccessCost.AccessCostCalculator.RecordAccess | image/cluster/project/src/lp/AccessCostCalculator.cpp:32-73 | One more access and its hops through that port and no other; for a variable that is not listed nothing but the load, which grows by the hops either way. |
| AccessCost.AccessCostCalculator.Remove | image/cluster/project/src/lp/AccessCostCalculator.cpp:49-96 | Forgets one variable's counters and takes it off the list; nothing for a variable that is not listed. |
| AccessCost.AccessCostCalculator.CheckClpLoad | image/cluster/project/src/lp/AccessCostCalculator.cpp:102-109 | Whether the load exceeded the threshold; it restarts from 0. |
| AccessCost.AccessCostCalculator.GetMigrationMap | image/cluster/project/src/lp/AccessCostCalculator.cpp:111-144 | Exactly the ports that are chosen for something, each with its chosen variables in list order. |
| AccessCost.ChosenOnce | image/cluster/project/src/lp/AccessCostCalculator.cpp:126-127 | No variable is chosen for two ports. |
| AccessCost.ListedOnce | image/cluster/project/src/lp/AccessCostCalculator.cpp:111-144 | Over all directions a variable is listed at most once. |
| AccessCost.BottomLevel | image/cluster/project/src/lp/AccessCostCalculator.cpp:7 | On a full tree the comparison of logarithms is true exactly for the bottom CLPs. |
| AccessCost.ListedCanMove | image/cluster/project/src/lp/AccessCostCalculator.cpp:124-137 | What is listed can be moved, on every well-kept calculator whose accesses were recorded under the route table's ports: bottom CLPs only emit Up, and the root never does. |
| AccessCost.MovePaysOff | image/cluster/project/src/lp/AccessCostCalculator.cpp:124-137 | Moving a listed variable that way strictly lowers the hops the accesses it was recorded with would take, those of the CLP's own ALPs included. |
| AccessCost.ListedIff | image/cluster/project/src/lp/AccessCostCalculator.cpp:111-144 | Exactly which variables leave and where: v is listed for port d if and only if its accesses times the recorded hops, port by port, add up to at least the depth of the tree, d leads to a CLP, upwards if this is a bottom CLP, and one hop that way saves more than a third of a hop for each access. |
| AccessCost.SavesThirdIff | image/cluster/project/src/lp/AccessCostCalculator.cpp:126-127 | That is, if and only if more than two thirds of the accesses came through that port. |
| EndFlood.EndHandler.ProcessMessage | image/cluster/project/src/lp/Clp.cpp:516-580 | Where the message is forwarded, which flag the root sets and when it asks for GVT. |
| EndFlood.EndHandler.AllEndMessagesReceived | image/cluster/project/src/lp/Lp.cpp:88-93 | Whether every flag is set. |
| EndFlood.EndHandler.Reset | image/cluster/project/src/lp/Clp.cpp:100-103 | A new GVT forgets that the end has been processed. |
| EndFlood.RootWaitsForAll | image/cluster/project/src/lp/Clp.cpp:516-580 | The root's flags are exactly the senders it has seen, and it has asked for GVT if and only if that is every ALP. |
| EndFlood.RootAsksIff | image/cluster/project/src/lp/Clp.cpp:556-568 | The root asks for GVT at an end message if and only if it has then seen every ALP's and has not asked since the last value. |
| EndFlood.ForwardsOutwards | image/cluster/project/src/lp/Clp.cpp:516-580 | Each CLP forwards once to every CLP for which it lies on the way to the entry, and to nobody else. |
| EndFlood.FloodCovers | image/cluster/project/src/lp/Clp.cpp:516-580 | On a full tree of any depth, from any bottom CLP, in any delivery order: nobody handles the message twice, every run ends, and then everyone has handled it once with n - 1 forwards. |
| RangeTracker.RQPortScanStatus.constructor | image/cluster/project/src/lp/RQPortScanStatus.cpp:6-12 | A new entry avoids its origin port and has scanned nothing. |
| RangeTracker.RQPortScanStatus.SetScanStatus | image/cluster/project/src/lp/RQPortScanStatus.cpp:19-21 | One port's status changes. |
| RangeTracker.RQPortScanStatus.GetScanStatus | image/cluster/project/src/lp/RQPortScanStatus.cpp:23-27 | The port's status, AvoidScan where there is none. |
| RangeTracker.RQPortScanStatus.AddToSsvValueMap | image/cluster/project/src/lp/RQPortScanStatus.cpp:29-35 | Adds the values of variables not collected yet. |
| RangeTracker.RQPortScanStatus.IncreaseNumberOfHops | image/cluster/project/src/lp/RQPortScanStatus.cpp:53-55 | Adds hops. |
| RangeTracker.RangeTracker.HasEntry | image/cluster/project/src/rangequery/RangeTracker.cpp:15-20 | Whether the query has an entry. |
| RangeTracker.RangeTracker.CreateEntry | image/cluster/project/src/rangequery/RangeTracker.cpp:22-25 | A new entry, unless there is one. |
| RangeTracker.RangeTracker.DeleteEntry | image/cluster/project/src/rangequery/RangeTracker.cpp:27-35 | The entry is gone; its origin port, or HERE if there was none. |
| RangeTracker.RangeTracker.IncreaseNumberOfHops | image/cluster/project/src/rangequery/RangeTracker.cpp:37-42 | Adds hops to the entry, if any. |
| RangeTracker.RangeTracker.GetNumberOfHops | image/cluster/project/src/rangequery/RangeTracker.cpp:44-50 | The entry's hops, or 0. |
| RangeTracker.RangeTracker.GetOutstandingPorts | image/cluster/project/src/rangequery/RangeTracker.cpp:52-62 | Exactly the ports not scanned yet, in port order. |
| RangeTracker.RangeTracker.SetPortToScanned | image/cluster/project/src/rangequery/RangeTracker.cpp:64-69 | Marks one port of the entry, if any. |
| RangeTracker.RangeTracker.AddToSsvValueMap | image/cluster/project/src/rangequery/RangeTracker.cpp:71-76 | Adds values to the entry, if any. |
| RangeTracker.RangeTracker.GetCollectedSsvValueMap | image/cluster/project/src/rangequery/RangeTracker.cpp:78-86 | The entry's values, or none. |
| RangeTracker.RangeQueryHandler.ProcessMessage | image/cluster/project/src/lp/Clp.cpp:705-854 | A reply closes its port and adds its values; a new query opens an entry and goes on through overlapping ports; either way, when no port is left the entry goes and one response leaves through its origin. |
| RangeQuery.StepKeeps | image/cluster/project/src/lp/Clp.cpp:705-854 | Every delivery keeps: an outstanding port is exactly one of query in flight, neighbour's entry, or reply in flight; and entries hold exactly what is not behind their open ports. |
| RangeQuery.WhatArrives | image/cluster/project/src/lp/Clp.cpp:705-854 | A CLP without an entry is met by the query, one with an entry by a reply to an open port. |
| RangeQuery.VisitedOnce | image/cluster/project/src/lp/Clp.cpp:705-854 | Only reached CLPs are visited, once, and none replies more often than it was visited. |
| RangeQuery.QueryIsAnswered | image/cluster/project/src/lp/Clp.cpp:705-854 | In any delivery order: at most 2n deliveries, never stuck without an answer; the answer is one, exactly the union of what is found at the reached CLPs; each of them replied once and nothing is left anywhere. |
| RangeQuery.UnrangedPortIsStuck | image/cluster/project/src/lp/Clp.cpp:757-762 | Why the tables must cover every time queried: a port without a period would stay outstanding although nothing is forwarded through it. |
| RangeHops.AnswerReportsHops | image/cluster/project/src/lp/Clp.cpp:705-854 | In any delivery order the answer on its way to the agent reports as many hops as messages have been delivered for the query. |
| RangePeriods.RangeRoutingTable.HasRangePeriod | image/cluster/project/src/rangequery/RangeRoutingTable.cpp:20-27 | Whether some period starts at or before the time. |
| RangePeriods.RangeRoutingTable.GetRangeCopy | image/cluster/project/src/rangequery/RangeRoutingTable.cpp:29-38 | The range of the last such period in the list, none without one. |
| RangePeriods.RangeRoutingTable.InsertRangePeriod | image/cluster/project/src/rangequery/RangeRoutingTable.cpp:71-78 | The period goes in front of the first later one. |
| RangePeriods.RangeRoutingTable.DeleteRangePeriod | image/cluster/project/src/rangequery/RangeRoutingTable.cpp:80-87 | The first period at exactly the time goes. |
| RangePeriods.RangeRoutingTable.ClearRangePeriods | image/cluster/project/src/rangequery/RangeRoutingTable.cpp:89-106 | The period covering a new GVT starts there, and the list from its first period at GVT on is kept. |
| RangePeriods.RangeRoutingTable.ProcessRangeUpdate | image/cluster/project/src/rangequery/RangeRoutingTable.cpp:108-138 | A differing range gets a period of its own or replaces the one at that time; a range that appears or disappears overwrites the period found. |
| RangePeriods.RangeRoutingTable.Update | image/cluster/project/src/rangequery/RangeRoutingTable.cpp:140-205 | The same for a changed variable, with the later periods before the end time computed anew. |
| RangePeriods.AlwaysCovered | image/cluster/project/src/lp/Clp.cpp:1027-1056 | From the constructed table and over every sequence of updates and new GVTs there is a period for every time from the start and the latest GVT on. |
| RangePeriods.UpdateAnswers | image/cluster/project/src/rangequery/RangeRoutingTable.cpp:108-138 | What a table answers after an update, at every time: the new range from the update on up to the next period and the old answers elsewhere; where a range appears or disappears, the new one wherever the period found was in force. |
| RangePeriods.UpdateIsTimelyIff | image/cluster/project/src/rangequery/RangeRoutingTable.cpp:108-138 | So an update changes no answer before its time if and only if there was no period, or one that starts at that very time, or a range neither appears nor disappears. |
| RangePeriods.ClearAnswers | image/cluster/project/src/rangequery/RangeRoutingTable.cpp:89-106 | A new GVT changes no answer from it on, and the table then starts at it. |
| RangePeriods.FirstLaterStays | image/cluster/project/src/rangequery/RangeRoutingTable.cpp:173-204 | When a variable has changed, exactly the later periods before the end of its value are computed anew, except the first of them, which the loop steps over. |
| RangePeriods.TablesMakeValid | image/cluster/project/src/lp/Clp.cpp:757-762 | So a query whose time is not before the start or GVT finds a period on every port it is tried on, whatever happened to the tables before, and QueryIsAnswered applies to it. |
| Wire.NatTrip | image/cluster/project/src/state/StateVariable.cpp:299-311 | A printed number is read back whenever no digit follows. |
| Wire.LpIdTrip | image/cluster/project/src/lp/LpId.cpp:60-70 | An agent id is read back, whatever follows. |
| Wire.SsvIdTrip | image/cluster/project/src/state/SsvId.cpp:32-42 | A variable id is read back, whatever follows. |
| Wire.ContainerTrip | image/cluster/project/include/types/SerialisableList.h:35-57 | A printed container is read back into what inserting its entries one by one makes, if each entry is read back before the end-of-entry delimiter. |
| VariableWire.ReadsTrip | image/cluster/project/include/types/SerialisableMultiMap.h:33-58 | A read map in map order is read back, leaving what follows. |
| VariableWire.InsertKeepsMapOrder | image/cluster/project/src/state/WritePeriod.cpp:76-79 | With agents of a chain, recording reads keeps map order. |
| VariableWire.LineParts | image/cluster/project/src/state/ObjectMgr.cpp:10-23 | Type and data are cut out of a value's line as printed. |
| VariableWire.DataTrip | image/cluster/project/include/state/Value.h:117-127 | Integer, long and point values are made again from their data. |
| VariableWire.PeriodTrip | image/cluster/project/src/state/WritePeriod.cpp:116-142 | A period inside a list, with its nested read map and the value's line that runs to the put-back delimiter, is read back. |
| VariableWire.PeriodsTrip | image/cluster/project/include/types/SerialisableList.h:35-57 | So is the list of periods. |
| VariableWire.VariableTrip | image/cluster/project/src/state/StateVariable.cpp:299-311 | Parsing a printed variable followed by any text gives the same variable and leaves exactly that text. |
| VariableWire.PayloadTrip | image/cluster/project/include/types/SerialisableMap.h:38-64 | The payload of a migration message is read back as the same map. |
| Streams.SerialiseContainer | image/cluster/project/include/types/SerialisableList.h:35-43 | The printing loop writes exactly the specified text. |
| Streams.DeserialiseContainer | image/cluster/project/include/types/SerialisableList.h:45-57 | The parsing loop gives exactly the specified container and rest, and fails exactly when the specification does. |
| Streams.PeriodPrepends | image/cluster/project/src/state/WritePeriod.cpp:116-123 | Printing a period in front of a text prints the period and then that text, which is what the printing loop relies on. |
| Streams.StepTravels | image/cluster/project/src/state/StateVariable.cpp:82-297 | Every operation by agents of a chain with integer, long or point values keeps the variable fit for the trip. |
| Streams.ReachableVariableTrip | image/cluster/project/src/state/StateVariable.cpp:299-311 | So every variable reached by such operations survives the trip. |
| Base.ChainIffOrdered | image/cluster/project/src/lp/LpId.cpp:32-54 | The componentwise operators order the agents totally, with != the negation of ==, if and only if ids rise with ranks. |
| Identifiers.IdentifierHandler.constructor | image/cluster/project/src/interface/IdentifierHandler.cpp:12-15 | An ALP's identifiers start at its number. |
| Identifiers.IdentifierHandler.GetNextId | image/cluster/project/src/interface/IdentifierHandler.cpp:17-26 | The next identifier of the sequence the three lemmas are about. |
| Identifiers.ClosedForm | image/cluster/project/src/interface/IdentifierHandler.cpp:17-26 | Identifier k is the initial one plus k modulo the period steps, and never overflows. |
| Identifiers.AlpsNeverCollide | image/cluster/project/src/interface/IdentifierHandler.cpp:17-26 | Identifiers of an ALP stay congruent to its number modulo the number of ALPs, so ALPs never collide. |
| Identifiers.RepeatsExactlyAfterPeriod | image/cluster/project/src/interface/IdentifierHandler.cpp:17-26 | Two identifiers of one ALP are equal if and only if their positions agree modulo the period. |

## Left out

- Mattern.GvtCalculator.ProcessSecondCut: begins where the source's wait for outstanding white messages ends; `GvtRound` makes the wait a condition of the step. `GvtWait` proves the second cut safe if the wait does what it is for, and `GvtSecondCut.SecondCutOverlooksMessage` that the source's does not.
- GvtSafety.GvtIsSafe: only runs whose rounds are settled by the first cut, one round at a time, with the counters there and every old red message followed by a white one when a round begins. These conditions suffice; that they are necessary is not claimed. Overlapping rounds can reorder values and tokens. Rollbacks that a range update causes at another CLP are in no step.
- GvtExact.NextRoundIsSafeIff: both directions only between two rounds with no white message about, nobody waiting, nothing queued and no message in the token's way. Otherwise only `FollowedIsSafe`: whether an old red message can still be overlooked then depends on what CLPs pass on behind it and on whose answer an agent waits for.
- GvtRuns.AbsentCounterHidesMessage: a sufficient condition for an unsafe first round, for counters of ALPs with siblings whose rank does not follow their CLP's on the ring; what holds when only counters of CLPs are absent is open.
- GvtAgents.MoveIsAStep: range queries and migrations' own messages, agents that restart or are cancelled, and the error branch that puts an agent at GVT are no moves. A CLP's reaction to a message is any that `Because` allows, not the one its variables determine.
- Mattern.GvtCalculator.SendValues: the barrier and the yielding at the end time are MPI scheduling and are not modelled; the announced value is returned, and setting it is `GvtHandler.GvtHandler.SetGvt` or `Alp.Alp.TakeGvt`.
- Mattern.GvtCalculator.ProcessValue: tells whether to set GVT, which is those methods' part; the barrier at the end time is not modelled.
- SharedState.SharedState.Read: this and the other operations on a variable require that it is here, and `Insert` that it is not; the source exits the process otherwise.
- AccessHandler.AccessHandler.ProcessAntiRead: requires a period at the message's time; the source dereferences the end of the list without one.
- AccessHandler.AccessHandler.ProcessRead: answers None where the source exits the process because no period covers the time. The access count every handler ends with is `CountAccess`, a step of its own; it requires that the agent's rank is known, where the source exits.
- Ledger.LedgerHolds: rollbacks are not behind GVT and variable ids are not zero; the source gives up in the first case and sends no anti-message for a read of variable 0 in the second. `Alp.Alp.ProcessRollback` models both.
- Alp.MessageQueue.RemoveMessages: the queue's mutex is not modelled; each call is one step.
- Alp.Alp.ProcessRollback: stopping and restarting the agent's thread and the waiting for responses are not modelled.
- Alp.Alp.SendNext: the control queue, which goes first, and the identifier the agent waits for are not modelled.
- Transparency.RollbackIsTransparent: one hosted variable that does not move, and never two live writes at one time. Identifiers of read and write anti-messages are kept to name what they take back; on the wire they have none.
- Migration.AlwaysLocated: messages for variables are not part of this state; `Chase.ChaseIsBounded` follows one message in it, whose channel is in order with the variable's.
- GvtHandler.GvtHandler.SetGvt: counters are forgotten after all variables have left, where the source forgets each as it leaves; range updates that a move causes are left out.
- Collection.CollectionInvisible: undos strictly later than the last collection, and a write at its very time only by an agent not lesser than the covering write's; an undo there would find the moved base. `CollectThenWriteValue` is exact there for one write.
- RangeQuery.QueryIsAnswered: port ranges, hosting and what RangeRead finds are given and do not change during the query. Which range a period holds is data in `RangePeriods`.
- RangeTracker.RangeQueryHandler.ProcessMessage: block status and the range routing table's bookkeeping are left out.
- AccessCost.AccessCostCalculator.constructor: the floating-point logarithms are exact integer ones.
- AccessCost.AccessCostCalculator.RecordAccess: load and counters do not wrap.
- VariableWire.VariableTrip: integer, long and point values; strings and doubles do not survive whitespace, delimiters and decimal precision in general, and width checks of the extraction are not modelled.
- StateVariable.StateVariable.Copy: a copy is a value; cloning and deleting of values and messages is memory management.
- Range updates between CLPs, the range query bookkeeping of the routing tables, and the range blocks inside `SharedState`.
- Range-query anti-messages that a CLP forwards; they do not pass the send hook of the GVT counters.
- `Initialisor` and file parsing: start-up assignments are inputs.
- MPI, threads, semaphores, logging and statistics.
- The JNI interface, `HasIDLVTMap`, `HasResponseMessage`, `PrivateVariableStorage` and the plain message accessors.
