# libadb in Dafny

A model of the parts of `libadb` that are hard to get right, with proofs of what
they promise. libadb is a Rust client for the Android Debug Bridge: many tasks
share one byte stream, on which channels with their own flow control are
multiplexed.

## How it is laid out

| files | what they model |
|---|---|
| `SendQueue`, `Slot`, `ChannelTable` | the ticket queue of a channel's writers, a channel's slot, the table that routes packets: values with their operations, and the objects that update them in place |
| `SplitMachine` | a split connection as a transition system: every call is a program counter with the guards it holds, one step is one lock hold, one flag access or one outcome of a transport write |
| `SplitInvariants`, `SplitBasic`, `SplitCredit`, `SplitSpent`, `SplitLine`, `SplitWake`, `SplitDebt`, `SplitOpen` | what each step keeps |
| `SplitRuns`, `SplitGoAhead`, `SplitFailedOpen`, `SplitRegret` | what holds in every state of every run; runs that show where a promise ends |
| `SplitListen` | the calls that wait for a request, for the end of the connection or for a CLSE to be called off |
| `Accept`, `AcceptProof` | channels the device opens, and withdraws again |
| `ReceiveFlow`, `Isolation` | the receive side of one channel against the device that writes to it; channels do not mix |
| `Connection` | the unsplit connection, one caller at a time |
| `Wire` | packets on the byte stream |
| `LogFormat`, `LogStream`, `Logcat` | log entries, the whole-stream parse, the in-place reader |
| `Spake2`, `Spake2Exchange` | scalar bytes, double-and-add, the exchange |
| `Quoting` | shell arguments and NUL-separated destinations |
| `KeyRecord` | the CRC-guarded key record |

Where the source updates an object in place, the model has a class whose methods
are proved against functions on values: a table of slot objects, each with its
queue, a sender, a log reader, an unsplit connection. The transition systems run
on the same functions.

In the split connection any call may be dropped at any await, and its guards
then act in further steps. The device is the environment: it sends any packet
whatever, takes a write, breaks it, or is found gone. A signal counts its
notifications and a listener remembers the count it registered at, so it sleeps
exactly while the count has not moved. Calls name channels that were handed out.
Fields called history record what happened; they decide no step.

Integers are unbounded, with 32-bit and `usize` limits written out where they
matter; the host is taken to be 64-bit. Runs are bounded by 2^32 - 1 channel
allocations, after which local ids start over.

## Where the code does not do what one would expect

- A request the device withdrew can come back: its CLSE closes the slot an
  `accept` has reserved, and if that `accept` is then dropped, or fails to send,
  before its READY is out, the request returns to the queue and the next
  `accept` answers it. `AcceptProof.AbandonedAcceptRevives` is such a run, and
  `AcceptProof.GoneUnlessRevived` says that withdrawn requests stay gone in
  exactly the runs where this does not happen.
- A CLSE that names no local id never closes a channel with remote id 0, so a
  channel accepted under that id stays open when the device closes it:
  `AcceptProof.ZeroStaysOpen` is such a run, and `GoneUnlessRevived` covers it.
- A channel that fails between its READY and its caller's next look is closed by
  a CLSE and handed to the caller all the same: `SplitFailedOpen.HandedAndClosed`
  is such a run, and `SplitRuns.NoLeakedOpen` with `SplitOpen.GivenAtLook` says
  that this happens exactly then. That CLSE goes to the sender of the faulty
  packet, which need not be the channel's remote id.
- A send that fails after the device has the packet refunds its credit. With
  delayed ack the books say by how much (`takenBack`). Without, the channel then
  has two go-aheads, unless a free one was there: the OKAY had come and no other
  writer had reserved it again. `SplitRegret.TwoGoAheads` is such a run,
  `SplitRuns.SecondGoAhead` says exactly which steps do it, and
  `SplitGoAhead.OneThroughout` that a channel has one go-ahead in every state of
  exactly the runs without them. Whenever a refund does this the device was found
  gone or the stream is out of step: `SplitRuns.SentStaysPaid` says that otherwise
  nothing is taken back.
- An empty WRTE ends a waiting read with no bytes on the fast path of the unsplit
  connection, and leaves it waiting on the slow one (`ReceiveFlow.FastPathSame`).
- A payload of zeros has the checksum 0, which the decoder takes for none
  (`Wire.ChecksumCatches`).

## Model

| member | source | states |
|---|---|---|
| SendQueues.EnqueueAppends | libadb/src/base/send_queue.rs:16-20 | enqueue appends to the list of waiting writers, with a place no waiting writer holds |
| SendQueues.TurnIsFirst | libadb/src/base/send_queue.rs:22-28 | the turn is the first writer waiting, and the queue is empty exactly when nobody waits, whatever places were left early |
| SendQueues.AdvanceDropsFirst | libadb/src/base/send_queue.rs:43-48 | moving the head past departed places drops the first waiting writer and no other |
| SendQueues.ServeDropsFirst | libadb/src/base/send_queue.rs:34-37 | serve drops the first writer and counts one more send |
| SendQueues.LeaveRemoves | libadb/src/base/send_queue.rs:50-66 | leave removes exactly the writer that gives up, wherever it waits; the head is its place exactly when it was the first |
| SendQueues.LeaveKeepsHead | libadb/src/base/send_queue.rs:50-66 | a writer that leaves from behind the head never moves it |
| SendQueues.SendingCounts | libadb/src/base/send_queue.rs:16-66 | serve counts one more send; enqueue and leave count none |
| SendQueues.LeftBehind | libadb/src/base/send_queue.rs:50-66 | leaving a place the head has passed changes nothing if and only if it is not the last place of an empty queue, where the tail falls behind the head; that is also exactly when the queue stays in shape |
| SendQueues.SendQueue.EnqueuePlace | libadb/src/base/send_queue.rs:16-20 | the line of waiting writers grows by the place handed out |
| SendQueues.SendQueue.Turn | libadb/src/base/send_queue.rs:22-24 | the place returned is the first of the line when there is one |
| SendQueues.SendQueue.NobodyWaits | libadb/src/base/send_queue.rs:26-28 | true exactly when the line is empty |
| SendQueues.SendQueue.AdvanceHead | libadb/src/base/send_queue.rs:43-48 | the loop over departed places leaves the line without its first writer |
| SendQueues.SendQueue.ServeFirst | libadb/src/base/send_queue.rs:34-37 | the line loses its first writer, one more send is under way |
| SendQueues.SendQueue.FinishSend | libadb/src/base/send_queue.rs:39-41 | one send fewer, the line as it was |
| SendQueues.SendQueue.LeavePlace | libadb/src/base/send_queue.rs:50-66 | the line loses the one writer that left, and true exactly when it was the first; a passed place changes nothing, but for the last of an empty queue, which is exactly when the queue gets out of shape |
| SendQueues.SendQueue.IsSending | libadb/src/base/send_queue.rs:30-32 | true exactly while a send is counted |
| Slots.ReadyCredit | libadb/src/base/slot.rs:11-19 | a READY carries credit exactly when its payload has at least four bytes, and then a 32-bit number |
| Slots.ReadyCreditInverts | libadb/src/base/slot.rs:11-19 | the credit read is the little-endian number the device wrote, whatever follows it |
| Slots.WriteIsAccounted | libadb/src/base/slot.rs:144-154 | a WRTE is accepted exactly when it fits the cap, and then buffered whole; without delayed ack it is acknowledged at once exactly when the channel then holds less than the watermark, otherwise its bytes join the unacknowledged ones |
| Slots.ReadAcknowledges | libadb/src/base/slot.rs:175-218 | a read gets as many bytes as it wants and there are; with delayed ack and balanced books it returns the credit of exactly those, without it acknowledges everything exactly when it leaves less than the watermark |
| Slots.SettledComeFirst | libadb/src/base/slot.rs:192-218 | a read of bytes already settled takes no more than those, and acknowledges nothing again |
| Slots.TryReserve | libadb/src/base/slot.rs:262-266 | reserves exactly when there is budget, some of what is wanted and never more, and never overdraws a delayed-ack budget |
| Slots.ReserveIsMost | libadb/src/base/slot.rs:237-266 | the most that is both wanted and there; the delayed-ack budget falls by that much, the classic token is gone |
| Slots.RefundUndoesReserve | libadb/src/base/slot.rs:262-273 | a refund restores the slot as it was before the reservation |
| Slots.ChannelSlot.TakeOpenReady | libadb/src/base/slot.rs:123-134 | in place what AcceptOpenReady says; a READY without credit changes nothing |
| Slots.ChannelSlot.TakeReady | libadb/src/base/slot.rs:136-142 | in place what ApplyReady says; a READY without credit changes nothing |
| Slots.ChannelSlot.TakeWrite | libadb/src/base/slot.rs:144-154 | in place what ApplyWrite says; an overflow changes nothing |
| Slots.ChannelSlot.DeliverTaken | libadb/src/base/slot.rs:156-166 | in place what Deliver says |
| Slots.ChannelSlot.Settle | libadb/src/base/slot.rs:192-199 | in place what SettleTake says |
| Slots.ChannelSlot.TakeInto | libadb/src/base/slot.rs:201-218 | the caller's buffer gets exactly the bytes taken, and its rest is untouched |
| Slots.ChannelSlot.Reserve | libadb/src/base/slot.rs:262-266 | in place what TryReserve says |
| Slots.ChannelSlot.ServeWriter | libadb/src/split/writer.rs:404-411 | a queued writer is served exactly when it is its turn and there is credit; then the credit is reserved and the queue loses its first writer |
| Slots.ChannelSlot.FailWith | libadb/src/base/slot.rs:275-279 | in place what Fail says |
| Slots.ChannelSlot.GiveBack | libadb/src/base/slot.rs:268-273 | in place what Refund says |
| ChannelTables.AllocateIsFresh | libadb/src/base/channel_table.rs:66-75 | none exactly when all slots are taken; otherwise the first empty one, under an id no live channel carries, and nothing but the counter moves |
| ChannelTables.Get | libadb/src/base/channel_table.rs:100-112 | a handle reaches only the slot it names, while that slot carries its id |
| ChannelTables.CloseRemoteClosesOne | libadb/src/base/channel_table.rs:125-136 | exactly one slot is closed, the first that carries a non-zero remote id, with its unread bytes kept; every other slot stays as it was |
| ChannelTables.OnSlotReceives | libadb/src/base/channel_table.rs:164-205 | a slot's unread bytes grow by a WRTE that fits and change by no other packet; only a READY moves its credit |
| ChannelTables.ChannelTable.AllocateId | libadb/src/base/channel_table.rs:66-75 | the scan over the slot objects finds what Allocate says |
| ChannelTables.ChannelTable.PutOpening | libadb/src/base/channel_table.rs:77-80 | a new slot object, still opening, in the empty place; every other object stays |
| ChannelTables.ChannelTable.PutAccepted | libadb/src/base/channel_table.rs:82-88 | a new slot object, open, in the empty place; every other object stays |
| ChannelTables.ChannelTable.Lookup | libadb/src/base/channel_table.rs:100-112 | the slot object a handle names, while it carries its id |
| ChannelTables.ChannelTable.FreeSlot | libadb/src/base/channel_table.rs:120-123 | the handle's slot object leaves the table, and no other |
| ChannelTables.ChannelTable.CloseByRemote | libadb/src/base/channel_table.rs:125-136 | the scan over the slot objects closes the one CloseRemote says, in place |
| ChannelTables.ChannelTable.Route | libadb/src/base/channel_table.rs:138-205 | the scan over the slot objects does what Dispatch says, in place, with its outcome |
| ChannelTables.ChannelTable.FailChannel | libadb/src/split/shared.rs:173-180 | the slot object a handle names breaks off in place, and no other; false exactly when the handle reaches none |
| ChannelTables.ChannelTable.AsksForCredit | libadb/src/split/writer.rs:303-313 | reads off the slot object what WaitsForCredit says |
| ChannelTables.ChannelTable.RouteTo | libadb/src/base/channel_table.rs:164-205 | the slot object a packet names takes it by its own methods, with the outcome OnSlot says |
| SplitBasic.DispatchTouchesOne | libadb/src/base/channel_table.rs:138-205 | a dispatched packet changes at most the slot its outcome names, and never the id counter |
| SplitBasic.StepKeepsBasic | libadb/src/split/shared.rs:100-176 | every step of every call keeps slots, handles, guards and the one write half in shape |
| SplitCredit.ReadyBalances | libadb/src/base/slot.rs:123-142 | the credit of a READY goes into the slot's books, an opening one and a later one alike |
| SplitCredit.StepKeepsCredit | libadb/src/split/shared.rs:543-583 | every step of every call keeps each channel's credit books balanced, whichever channels the device is honest on |
| SplitLine.StepKeepsLine | libadb/src/split/writer.rs:345-411 | every step keeps each channel's queue the list of its waiting writers, in arrival order |
| SplitLine.GrantServes | libadb/src/split/writer.rs:391-411 | credit is granted only by try_reserve, to the writer whose turn it is |
| SplitLine.CreditGoesInOrder | libadb/src/split/writer.rs:345-411 | a writer granted credit came before every other writer waiting on the channel |
| SplitWake.OtherStaysSettled | libadb/src/split/shared.rs:565-610 | no step gives a sleeping call something to do without a wake of its signal on the way |
| SplitWake.StepKeepsWake | libadb/src/split/shared.rs:360-395 | every step keeps every sleeper's reason to sleep, or a wake for it on the way |
| SplitDebt.StepKeepsDebt | libadb/src/split/shared.rs:436-478 | every step keeps debts sent and queued together the debts recorded, in order |
| SplitDebt.SentInOrder | libadb/src/split/shared.rs:436-478 | the debts on the wire are the oldest recorded ones, each once, and the rest is queued |
| SplitDebt.DebtsComeFirst | libadb/src/split/shared.rs:436-478 | a packet of ours comes after every debt recorded before its sender last found none |
| SplitOpen.StepKeepsOpen | libadb/src/split/shared.rs:528-541 | every step keeps every READY with one party, every unclaimed slot with an owner, and each CLSE owed once with the right ids |
| SplitOpen.GivenAtLook | libadb/src/split/writer.rs:133-152 | a READY is noted as handed over only when its opener looks and returns the channel, together with whether the slot has failed by then |
| SplitOpen.LookGives | libadb/src/split/writer.rs:133-152 | and always then |
| SplitRuns.EveryRunKeeps | libadb/src/base/connection.rs:165-176 | all invariants hold in every state any run reaches from a connection just split, whatever channels it was split with, in step or not |
| SplitRuns.CreditConserved | libadb/src/split/writer.rs:246-283 | with delayed ack, credit granted and credit taken back is budget, reservations and WRTEs the device has, never negative; without, on each channel that never got a second go-ahead, exactly one token is free, reserved or with the device |
| SplitRuns.SecondGoAhead | libadb/src/split/shared.rs:564-583 | while a channel has its one token a step leaves it one or gives it exactly one more; it gives one if and only if it takes an OKAY that arrives with none due and the token taken, or refunds a WRTE the device has while no token is free |
| SplitGoAhead.OneThroughout | libadb/src/split/shared.rs:564-583 | without delayed ack, a channel has exactly one token in every state of a run if and only if no step of the run is one of those two |
| SplitRuns.SentStaysPaid | libadb/src/split/writer.rs:246-283 | in every run in which no call finds the device gone and the stream is in step, nothing the device has is taken back: with delayed ack, credit granted is budget, reservations and WRTEs the device has; without, there is exactly one token on each channel the device never OKAYed a WRTE it had not got |
| SplitSpent.StepKeepsPaid | libadb/src/split/shared.rs:564-583 | spent credit is only with a send that has not returned or one that went well, until the device is found gone or the stream is out of step |
| SplitRegret.TwoGoAheads | libadb/src/split/shared.rs:564-583 | with the policy of a valid configuration, a run with an honest device that ends with two go-aheads: a send failed after the device had the WRTE |
| SplitRuns.NoLostWakeUp | libadb/src/split/writer.rs:345-411 | when all writers on a channel sleep with no wake pending, the channel is open, the connection live and there is no credit |
| SplitRuns.ServedInOrder | libadb/src/split/writer.rs:345-411 | in every run credit goes to writers in arrival order |
| SplitRuns.WaitsForCreditMeans | libadb/src/split/writer.rs:303-313 | true exactly when a writer waits, no credit is there, the channel is not closed and none is sending |
| SplitRuns.OthersSleepWell | libadb/src/split/reader.rs:132-156 | with no wake on the way: a sleeping opener's channel is still opening, a sleeping channel reader's has no data and is not closed, a waiting receiver owes nothing and is in step |
| SplitRuns.PendingWakeComes | libadb/src/split/shared.rs:360-366 | a call with a wake on the way can always take its next step, which notifies the signal or comes closer to it |
| SplitRuns.WakeArrives | libadb/src/split/shared.rs:360-366 | from any state of a run, finitely many steps of that call alone notify the signal exactly once |
| SplitRuns.DebtsPaidOnceInOrder | libadb/src/split/shared.rs:118-131 | until the debts are dropped because the device is gone, they go out in order, once, before any WRTE or OPEN whose sender found none left |
| SplitRuns.NoLeakedOpen | libadb/src/split/shared.rs:133-186 | once no open is under way, every READY that answered one has exactly one CLSE unless it was handed over unfailed, and then none: it is both handed over and closed exactly when its channel had failed by then; a CLSE carries the READY's ids, or for a fault the faulty packet's sender; every slot was handed over |
| SplitRuns.AbandonedOpenCloses | libadb/src/split/shared.rs:528-541 | an open given up frees its slot and owes one CLSE, with both ids of its READY, exactly when that waits there |
| SplitRuns.RefusedOpenOwesNothing | libadb/src/split/writer.rs:128-156 | an open the device refused frees its slot in two steps and records no debt |
| SplitFailedOpen.HandedAndClosed | libadb/src/split/reader.rs:398-413 | with the policy of a valid configuration, a run from a fresh connection that ends with a READY both handed over and closed: a second READY, without its credit, made the channel fail between the first and its caller's look |
| SplitListen.NextKeeps | libadb/src/split/shared.rs:346-395 | every step of accept, once, queueing, spoiling and stopping keeps every sleeper's reason to sleep, or a wake for it on the way |
| SplitListen.NoLostWakeUp | libadb/src/split/accept.rs:179-194 | a listener that sleeps with no wake on the way has no request to take on a live connection; a call raced against the end or the calling off of a CLSE sleeps only until that comes about |
| SplitListen.PendingWakeComes | libadb/src/split/shared.rs:360-366 | the call about to notify can always go on, and each step notifies or comes closer |
| AcceptMachine.Without | libadb/src/base/incoming.rs:33-35 | withdraw removes every request with the id and no other |
| AcceptMachine.WithoutJoins | libadb/src/base/incoming.rs:33-35 | those that stay keep their order |
| AcceptProof.ClosesKeep | libadb/src/base/channel_table.rs:157-162 | the first half of handling a CLSE keeps the invariants of requests, handles and slots |
| AcceptProof.WithdrawsKeep | libadb/src/split/shared.rs:323-344 | so does the second half, whatever happened in between |
| AcceptProof.AcceptReserves | libadb/src/split/accept.rs:62-80 | reserving a slot for a request that was not withdrawn keeps the invariants |
| AcceptProof.UnstagesKeep | libadb/src/split/accept.rs:137-155 | dropping a request keeps the invariants |
| AcceptProof.StepKeeps | libadb/src/split/accept.rs:62-155 | every step keeps the invariants: ids stay apart, and a withdrawn request is nowhere to be accepted unless it was put back |
| AcceptProof.WithdrawnIsGone | libadb/src/split/accept.rs:62-97 | whatever channels and requests the connection was split with, once a CLSE is handled no open slot carries its id, no queue holds the request and nobody can accept it, in every run without the steps below |
| AcceptProof.ComesBackExactly | libadb/src/split/accept.rs:137-155 | dropping a handle leaves a withdrawn request that was not put back before in the queue exactly when its reserved slot was closed by the CLSE and it is still undecided |
| AcceptProof.GoneUnlessRevived | libadb/src/split/accept.rs:62-155 | withdrawn requests are gone in every state of a run if and only if no accept whose slot the CLSE closed is dropped with its request still undecided, and no CLSE for id 0 is handled while a slot accepted for it is open |
| AcceptProof.AbandonedAcceptRevives | libadb/src/split/accept.rs:137-155 | a run that ends with an open channel under the withdrawn id |
| AcceptProof.ZeroStaysOpen | libadb/src/base/channel_table.rs:125-136 | a run in which a channel accepted under id 0 stays open after the device has closed it |
| AcceptProof.ZeroKeeps | libadb/src/split/shared.rs:323-335 | a withdrawn request with id 0 leaves the queue and whoever holds it is told, in every state |
| ReceiveFlow.StepKeeps | libadb/src/base/slot.rs:144-230 | every write, receipt, settling, read and OKAY keeps the receive books of both modes, and no receipt overflows |
| ReceiveFlow.DelayedNeverOverflows | libadb/src/base/slot.rs:144-230 | received is returned and unacked, returned is delivered and settled, held is unacked; a device that keeps to its credit never overflows a cap of credit and a packet less one |
| ReceiveFlow.CapIsTight | libadb/src/base/connection/config.rs:132-140 | for every window, some run overflows every cap smaller than the credit and a packet less one |
| ReceiveFlow.OverflowsExactly | libadb/src/base/connection/config.rs:132-140 | some run overflows a channel if and only if its cap is less than the credit and a packet less one |
| ReceiveFlow.ClassicHoldsBack | libadb/src/base/slot.rs:144-199 | OKAYs are never more than WRTEs nor two behind, none is missing below the watermark, and never more is held than the watermark and a packet less one |
| ReceiveFlow.EveryConfigFits | libadb/src/base/connection/config.rs:236-269 | for every valid configuration, advertised credit and watermark never let a device that keeps to them overflow a channel |
| ReceiveFlow.FastPathSame | libadb/src/base/connection.rs:519-541 | a WRTE handed over straight from its packet leaves the slot and the OKAYs on the wire that dispatch, settle and take leave, and gives the same bytes, except that an empty one ends a read that would have gone on waiting |
| Isolation.PacketTouchesOne | libadb/src/base/channel_table.rs:138-205 | of any two slots a packet leaves one alone |
| Isolation.ChannelsDoNotMix | libadb/src/base/channel_table.rs:66-123 | live ids are distinct and non-zero, stale handles reach nothing, delivered and buffered bytes are the accepted payloads |
| Connections.Connection.ActOn | libadb/src/base/connection.rs:573-609 | the table takes the packet, requests join and leave the queue, and the one answer the outcome calls for goes out or its send failed; a gone device is no failure |
| Connections.Connection.WaitAck | libadb/src/base/connection.rs:611-648 | success means credit on a channel that is not closed; either way every READY is credited and no WRTE goes out |
| Connections.Connection.WriteChannel | libadb/src/base/connection.rs:341-377 | the WRTEs of a call carry a prefix of its data in order to the channel's own ids, all of it on success; credit in and out balances to the byte with delayed ack, and without it no WRTE goes out that no OKAY allowed |
| Connections.Connection.SendChunk | libadb/src/base/connection.rs:356-373 | one WRTE with the channel's ids within the limit and the credit, all of it charged; on failure nothing is written |
| Connections.Connection.TakeBuffer | libadb/src/base/connection.rs:546-558 | what is handed over and what stays are the bytes that were buffered, even if the OKAY fails; the OKAY that settling calls for, and no other packet, goes out or its send failed |
| Connections.Connection.DeliverNow | libadb/src/base/connection.rs:523-529 | the fast path leaves the buffer alone; the OKAY of what was delivered, and no other packet, goes out or its send failed |
| Connections.Connection.ReadChannel | libadb/src/base/connection.rs:491-544 | the bytes returned are the next of the channel's stream, and a failed read has taken none; with delayed ack the OKAYs of a call never return credit for bytes that did not come, and while every send gets out a successful read leaves each byte's credit returned or still owed; without it no more OKAYs go out than WRTEs came or waited |
| Wire.PayloadChecksum | libadb/src/base/protocol/checksum.rs:3-9 | a wrapping 32-bit sum is the byte total modulo 2^32 |
| Wire.ChecksumCatches | libadb/src/base/protocol/packet.rs:74-119 | a payload that arrives as another of the same length is refused if and only if its byte total differs and the header's checksum is not 0 |
| Wire.DecodeInvertsEncode | libadb/src/base/protocol/packet.rs:74-119 | a packet on the stream decodes to itself, whatever follows |
| Wire.CutDecodesToNothing | libadb/src/base/protocol/packet.rs:74-119 | a packet cut anywhere decodes to nothing |
| Wire.WriteAll | libadb/src/base/wire.rs:133-143 | all bytes are out exactly when it reports success |
| Wire.SendKeepsFraming | libadb/src/base/wire.rs:98-154 | a send leaves whole packets and at most one cut one with the flag up, and with the flag up writes nothing |
| Wire.DeviceReadsWholePackets | libadb/src/base/wire.rs:274-298 | as long as the device is not gone, over any list of sends on any transport it decodes exactly the packets that got out whole, in order, and a cut one only ever comes last with the flag up |
| Wire.Sender.WriteBytes | libadb/src/base/wire.rs:133-143 | the loop over partial writes gets out the prefix WriteAll says |
| Wire.Sender.WriteWhole | libadb/src/base/wire.rs:288-298 | header, payload and flush get out the prefix WriteFrame says |
| Wire.Sender.SendPacket | libadb/src/base/wire.rs:145-154 | in place what Send says: the flag goes up unless the packet got out or the device is gone |
| LogFormat.ParseStable | libadb/src/logcat/format.rs:343-360 | an entry or an error decided on a prefix stays decided whatever follows |
| LogFormat.SplitInverts | libadb/src/logcat/format.rs:374-393 | a payload splits into the priority, tag and message it was made of |
| LogFormat.ParseInvertsEncode | libadb/src/logcat/format.rs:343-409 | every entry logd can write (32-bit fields, a tag without NUL, within 5 KiB) parses back, however much follows |
| LogStream.DeframePiece | libadb/src/logcat.rs:203-224 | a frame taken apart piece by piece gives what it gives at once |
| LogStream.TurnTells | libadb/src/logcat.rs:184-251 | no turn of the loop changes what the whole stream's parse has still to tell, read errors included |
| LogStream.ReadTells | libadb/src/logcat.rs:184-261 | an entry returned is the next of the whole-stream parse, a failure its verdict after the last, a dropped call loses nothing |
| LogStream.FailureRepeats | libadb/src/logcat.rs:184-200 | every later call repeats the verdict |
| LogStream.CallsTell | libadb/src/logcat.rs:163-251 | over any number of calls, each with its own reads and dropped or failing as often as one likes: the entries returned are the whole stream's first ones, the first failure comes after all of them with its verdict, and every later call repeats it |
| LogStream.CallsHaveRoom | libadb/src/logcat.rs:138-161 | over any number of calls no buffer four bytes longer than the longest entry, or 5 KiB and four bytes, is ever full |
| LogStream.FreshTells | libadb/src/logcat.rs:118-136 | a new reader has the story of the whole stream to tell, whatever the cuts |
| LogStream.ReadHasRoom | libadb/src/logcat.rs:138-161 | a buffer four bytes longer than the longest entry, or 5 KiB and four bytes, is never full |
| LogStream.OneLessIsTooSmall | libadb/src/logcat.rs:151-161 | for every entry a buffer one byte smaller fills up on some cut of some stream |
| Logcats.Logcat.constructor | libadb/src/logcat.rs:118-136 | a fresh reader of the stream |
| Logcats.Logcat.Shift | libadb/src/logcat.rs:269-273 | an overlapping move toward the front copies the stretch and leaves the rest |
| Logcats.Logcat.Compact | libadb/src/logcat.rs:138-149 | both parts of the buffer move to its front unchanged |
| Logcats.Logcat.FillBuffer | libadb/src/logcat.rs:151-161 | full exactly when nothing can be moved, otherwise one read behind what is there; the channel's end and other read errors are told apart |
| Logcats.Logcat.AbsorbStdout | libadb/src/logcat.rs:208-219 | the bytes join the entry being assembled wherever they lie |
| Logcats.Logcat.AbsorbStderr | libadb/src/logcat.rs:219-223 | the first kilobyte of stderr is kept |
| Logcats.Logcat.TakeEntry | libadb/src/logcat.rs:253-261 | an entry leaves the front of the assembled bytes, and nothing else changes |
| Logcats.Logcat.TakeHeader | libadb/src/logcat.rs:226-244 | a frame header leaves the buffer, a wrong one stays |
| Logcats.Logcat.ReadEntry | libadb/src/logcat.rs:184-251 | in place exactly what Read says, and the loop ends between reads |
| Logcats.Dump | libadb/src/logcat.rs:329-347 | all entries of the whole stream exactly when its verdict is a clean end, otherwise its verdict without the entries; never a full buffer with 5 KiB and four bytes |
| Spake2.AddAssign | libadb/src/pairing/spake2.rs:66-73 | the sum modulo 256 to the length |
| Spake2.DoubleAssign | libadb/src/pairing/spake2.rs:75-78 | the double modulo 256 to the length |
| Spake2.LeftShift3 | libadb/src/pairing/spake2.rs:80-87 | eight times the number modulo 256 to the length |
| Spake2.PrivateKey | libadb/src/pairing/spake2.rs:152-155 | exactly eight times the random number modulo the order: the shift loses no bit |
| Spake2.OrderFits | libadb/src/pairing/spake2.rs:24-27 | the order is odd and eight times it fits 32 bytes |
| Spake2.PasswordScalar | libadb/src/pairing/spake2.rs:222-237 | congruent to the hash modulo the order, divisible by eight, below eight times the order |
| Spake2Exchange.DoubleAndAdd | libadb/src/pairing/spake2.rs:93-96 | one bit doubles the multiple and adds the point when set |
| Spake2Exchange.MulRaw | libadb/src/pairing/spake2.rs:89-100 | the exact integer multiple in any abelian group |
| Spake2Exchange.Recovers | libadb/src/pairing/spake2.rs:195-204 | unmasking an honest message gives the peer's multiple of the base |
| Spake2Exchange.HonestSidesAgree | libadb/src/pairing/spake2.rs:145-220 | two honest sides with one password and swapped names hash the same transcript, in any abelian group where the order kills the base |
| Quoting.ReadQuoted | libadb/src/base/destination.rs:61-74 | a written argument is read back as one word, whatever its bytes |
| Quoting.ArgumentsRoundTrip | libadb/src/base/destination.rs:34-39 | a shell splits a command with arguments into its own words and exactly the arguments |
| Quoting.DestinationRoundTrip | libadb/src/base/destination.rs:23-40 | the same of a whole destination, however many prefixes spell the service and the command |
| Quoting.ArgumentsInvoked | libadb/src/base/destination.rs:34-39 | the words behind a command are its arguments if and only if there is a command word, or the first of them does not spell an assignment |
| Quoting.WriteBytes | libadb/src/base/destination.rs:42-51 | writes behind what is there exactly when it fits |
| Quoting.WriteQuoted | libadb/src/base/destination.rs:61-74 | writes the quoted argument exactly when it fits |
| Quoting.WriteDestination | libadb/src/base/destination.rs:23-40 | a NUL is refused first, too long exactly when the text with its NUL does not fit, otherwise the buffer holds it |
| Quoting.BuildNulDestination | libadb/src/base/destination.rs:76-95 | refused exactly on a NUL or an empty argument, otherwise the NUL-separated text |
| Quoting.NulRoundTrip | libadb/src/base/destination.rs:76-95 | the pieces between the NULs are exactly the arguments |
| KeyRecord.Crc32 | libadb/src/keys/record.rs:54-64 | the nested loop computes the CRC by definition |
| KeyRecord.ShiftLinear | libadb/src/keys/record.rs:58-61 | the bit step is linear over exclusive or |
| KeyRecord.ShiftsInjective | libadb/src/keys/record.rs:58-61 | any number of bit steps is injective |
| KeyRecord.BurstDetected | libadb/src/keys/record.rs:54-64 | bytes that differ within any 32 bits in a row, aligned or not, have different checksums |
| KeyRecord.BitWindowKeepsApart | libadb/src/keys/record.rs:54-64 | 32 bits in a row that span five bytes leave different states |
| KeyRecord.DecodeInvertsEncode | libadb/src/keys/record.rs:19-42 | a key shorter than 4 GiB decodes from its record, whatever follows |
| KeyRecord.CorruptionDetected | libadb/src/keys/record.rs:34-42 | a payload changed within any 32 bits in a row never decodes |

## Left out

- SplitRuns.CreditConserved: the classic clause leaves out channels that got a second go-ahead, because it is false of them; `SplitRuns.SecondGoAhead` and `SplitGoAhead.OneThroughout` say exactly when they come by it, `SplitRuns.SentStaysPaid` when only the device can cause it.
- SplitRuns.PendingWakeComes: it and `WakeArrives` say that the waking call can always go on and that its own steps get there, not that a scheduler runs it.
- AcceptProof.GoneUnlessRevived: assumes that the device does not reuse an id that something on the connection still carries.
- Connections.Connection.ReadChannel: the exact account of OKAYs is for delayed ack and fewer than 2^32 unacknowledged bytes, as the credit on the wire has 32 bits.
- Logcats.Dump: opening and closing the channel around the loop is not modelled.
- ReceiveFlow.FastPathSame: leaves out WRTEs longer than the reader's buffer, which do not take the fast path, and takes the watermark to be positive, as every configuration makes it.
- Slots.WriteIsAccounted: leaves out unacknowledged counts past the largest `usize`, which no cap lets through.
- Quoting.SplitWords: reads blanks, quotes, backslashes and the characters the shell treats specially; double quotes and expansions count as no plain words, and `Quoting.Assigns` goes by the letters of a word, quoted or not.
- `Reader::open_channel` and `Reader::read_channel` on a split connection: they receive and act in one call what the machine does with an opener or a channel reader beside the receiver.
- Incoming requests in the split machine: an acceptor there only reserves, answers and frees; queue, staging and withdrawal are `Accept`, waiting for a request is `SplitListen`.
- The `stream_over` flag in the split machine: there a close waiting for the write half may be dropped at any time; when it is called off is `SplitListen`, and what it returns is not modelled.
- A debt whose send fails after the device has the packet: the machine counts a debt as paid when its send returns.
- Transports whose reads cannot be cancelled: there a recorded debt waits for the next packet, and the last clause of `SplitRuns.OthersSleepWell` is about the others.
- The fairness of the asynchronous lock of the write half: a waiting call may take it whenever it is free.
- Wakers, executors and memory ordering: steps are atomic and signals are counters.
- Local ids after 2^32 - 1 allocations.
- The unsplit connection holds its table as a value; opening, accepting and closing on it are not modelled.
- Receiving and buffering of incoming bytes (`Staged`, `recv_pkt_or`), apart from decoding one packet.
- SHA-512, point compression and the curve: an abelian group, a base point of the given order, and decompression undoing compression; wiping secrets is not modelled.
- Names of log buffers and priorities, display texts, banners, handshake, TLS, sync records, key files, the C interface: input and output, foreign libraries or plain tables.
