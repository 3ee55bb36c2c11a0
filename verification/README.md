# rr_channel in Dafny

rr_channel makes multi-threaded message passing repeatable. In record mode every thread logs what it does and, for each
message that it gets, from which thread it came. In replay mode every thread follows its own log: a receiver that reads
a message of another sender than the logged one buffers it and reads on. When reality and log disagree the run
desynchronises, and either panics or goes on with the real channels, buffered messages first.

This project models that protocol and proves what it promises. It is about five layers:

- **Receiving in replay** (`ReplayEngine.dfy`, `Channels.dfy`): a receiver's wire and buffer stand for one pending queue
  per sender. Receiving is dequeuing from the queue of the logged sender, whatever else is read meanwhile.
- **The whole system** (`Protocol.dfy`, `ReplayOrder.dfy`, `Confluence.dfy`, `Recording.dfy`, `Following.dfy`,
  `Replaying.dfy`, `Refinement.dfy`, `Promises.dfy`, `SplitSelects.dfy`, `FairReplay.dfy`, `Values.dfy`, `OutOfTurn.dfy`,
  `StepRules.dfy`, `Receivers.dfy`, `Spawning.dfy`): any program whose threads are functions of the results they have seen, any number of threads and channels, receivers that move between threads with
  messages and with new threads. `Recording` is the machine that records on FIFO wires, `Replaying` the one that replays
  with wires, buffers and messages in hand, one stretch of a receive loop at a time. Both are related to a third,
  `Protocol`, that works on pending queues and in which steps of different threads commute. A crossbeam select is two
  operations in all three, which a program may separate: record writes its entry in the second, replay takes it in the
  first. `SplitSelects` says which programs that hurts. The last five modules say in plain terms what a run does: which
  payloads are received, when a step is possible, which threads there are and where every receiver is.
- **Selecting** (`CrossbeamSelect.dfy`, `IpcBatches.dfy`, `IpcReceiverSets.dfy`): the two-phase crossbeam select and the
  batched ipc select, with closed receivers and the move into the real set.
- **Identities and logs** (`Identities.dfy`, `RecordLog.dfy`, `EventLog.dfy`).
- **Waking up and routing** (`Desync.dfy`, `Router.dfy`): state machines over the steps of any number of threads.

Objects that the program updates in place are classes here (`Receiver`, `Sender`, `Selector` for `Select`, `IpcReceiverSet`,
`EventRecorder`, `GlobalRecorder`, `GlobalReplayer`, `DetIdSpawner`, `RouterThread`); interleavings are runs of a step
function.

## Premises

- Payloads are uninterpreted bytes; a thread decides what to do next from its argument and the results it has seen.
- A receiver has one user at a time. Receivers cannot be cloned; the system model gives each of them one place (`home`)
  and moves it, so this is built in, not assumed.
- Sends succeed, and a send and its log entry are one step. Send results are not logged (`src/rr.rs:206-212`).
- An ipc receiver that is added to a set has nothing buffered: `to_opaque` drops its buffer
  (`src/ipc_channel/mod.rs:137-144`, `IpcReceiverSets.ToOpaqueKeepsAll`).
- The results of `Promises` and `FairReplay` are about record runs in which a thread that has made a select completes it
  before it does anything else (`Recording.Orderly`: nothing logged in between, and no second select). The first half is
  necessary as well as sufficient (`SplitSelects.DesyncsIffInterrupted`). A select may be left uncompleted at the end of
  a run.
- While a recording select is open, the message that it has chosen stays at the head of its channel for the second phase.
  `RecordGivesWhatWasSent` asks that a thread completes its selects oldest first and receives nothing else while one is
  open (`Values.InTurn`); record runs whose selects are completed at once are such (`OrderlyRunsAreInTurn`), and others
  need not receive in order (`OutOfTurn.ReceivedOutOfOrder`). Replay needs no such premise.
- Time is not modelled. `patience` is how many reads succeed before one times out. For one receiver it is a parameter, and
  what happens when it runs out is part of the statement. The whole-system machine takes a read that runs out of patience
  as one to be tried again, and no channel hangs up on a waiting receiver in it: `ReplayDeterminism`, `ReplayNeverDesyncs`
  and what builds on them assume that no read of the replay times out or is disconnected while it waits for its message.
- Which errors the real channels report when recording is up to the scheduler; a channel may report them at any time.
- The real selector and the real receiver set number their receivers 0, 1, 2, ... and report a closing once, after all
  messages of the channel.

## What the code does and its documentation does not say

- `IpcReceiverSet::select` drops the entries that `rr_select` returns "to avoid losing them"
  (`src/ipc_channel/mod.rs:599` and `629-630`). They are the only messages that a desynchronised select loses
  (`IpcReceiverSets.IpcReceiverSet.Select`: `p.entries` when `p` has an error).
- The dummy channels of `move_receivers_to_set` are made with the logging `channel()`, which in replay takes a log entry
  and panics if it is not the creation of that channel. The model does the same; `MoveReceiversToSet` states exactly when
  the move succeeds. A set whose thread slept at the end of its log can move exactly if none of its receivers has closed
  (`IpcReceiverSets.WokenSetMovesIfAllOpen`).
- A program that logs anything between the two phases of a crossbeam select desynchronises the replay of its own log:
  `rr_select` finds the entry of that operation where it looks for the select (`SplitSelects.DesyncsIffInterrupted`,
  and `SplitSelects.SendsBetweenDesyncs` for a program of five operations).
- A thread that receives from a channel while it has a select open, which has chosen a message of that channel, is given
  the messages out of order, without any error (`OutOfTurn.ReceivedOutOfOrder`).
- A message that comes where the log has a closing can overtake buffered messages of its sender
  (`IpcBatches.OvertakingHappens`). `IpcBatches.BatchAccounted` says exactly when; `RunReplays` says that it cannot happen
  with a log that comes from a record run.
- `poll_entry` calls the failure of a channel that hangs up unreachable. It is reached exactly if the channel has hung up,
  nothing is pending from the sender, and the read does not time out before all that is on the wire has been read
  (`Channels.Receiver.PollEntry`, `Channels.HangUpDuringPoll`).
- A thread at the end of its log sleeps only in a send, a receive or a select. Creating a channel, spawning a thread and
  adding to a select panic there, and a thread without any log panics at its first operation (`Promises.EndOfLog`).
- A record run that goes on after its log has been flushed loses a message at each receive
  (`Channels.Receiver.Receive`).
- A thread that finds DESYNC already set does not wait for the flag that sleeping threads look at, which need not be set
  yet (`Desync.EarlyMarkerOvertakesFlag`). All the same every sleeper returns.
- Dropping a `RouterProxy` without a shutdown makes its router thread panic (`Router.DroppedProxyCrashes`); adding a route
  after a shutdown panics the caller and poisons the mutex (`Router.NoRouteAfterShutdown`).

## Model

| member | source | states |
|---|---|---|
| Promises.ReplayDeterminism | src/test.rs:130-147 | for any program, any recorded interleaving whose selects are completed at once and any replay interleaving and message timing: in every reachable replay state each thread exists in the record run and its results so far are a prefix of the recorded ones |
| Promises.ReplayNeverDesyncs | src/rr.rs:92-105 | replay of such a log never meets an event, variant, channel or index mismatch; a thread proceeds exactly while it is short of its recorded history, with the receivers it needs in its hands; at the end of its log it is the recorded thread, or that thread at the select that it never completed |
| Promises.ReplayCanFinish | src/rr.rs:253-307 | from every reachable replay state there is a continuation to the recorded end |
| Promises.NoDeadlock | src/rr.rs:128-155 | while any log has entries left, some thread completes its next operation in turns of its own, without waiting for any other thread |
| Promises.OperationsLeft | src/recordlog.rs:311-325 | operations completed and operations left add up to the number of recorded steps without the selects never completed, and none are left exactly when all logs have been read: a termination measure for replay |
| Promises.FinishedReplayIsTheRecord | src/test.rs:130-147 | a replay that has read all logs has the recorded threads, but for selects never completed, receivers in the recorded places, and on each channel the recorded unread messages of each sender |
| Values.RecordGivesWhatWasSent | src/rr.rs:119-127 | over every record run that receives in turn: every operation learns what its entry says, a receive, completed select or batch one payload for each message that the entry tells of; the payloads received from a sender on a channel are the first that it sent there, in order, and the rest is on the channel |
| Values.ReplayGivesWhatWasSent | src/rr.rs:146-155 | the same for replay, of any logs and in every state that it reaches: one payload per message, and from each sender on each channel the first of those sent, in order |
| Values.HistoriesAreDeeds | src/test.rs:134-146 | in both modes the results that a thread has seen, and computes with, are those of its operations, in order |
| Values.OrderlyRunsAreInTurn | src/crossbeam_select.rs:445-463 | record runs whose selects are completed at once receive in turn |
| OutOfTurn.ReceivedOutOfOrder | src/crossbeam_select.rs:445-463 | a record run that does not: two messages are sent and received in the opposite order |
| StepRules.StepsExactlyWhen | src/rr.rs:128-155 | a thread can do what its log says exactly if the entry tells of its next operation, it holds the receivers that the operation names, and every queue has as many messages as the operation waits for |
| StepRules.CheckedExactly | src/rr.rs:92-105 | the replay check accepts the entries of an operation, spelled out for each, and no others |
| StepRules.ErrorNamesTheCause | src/recordlog.rs:92-111 | a mismatch names the event, or else the variant, or else the channel: what is wrong, and what would have done |
| StepRules.RecordsWhoSent | src/rr.rs:119-127 | a recording receive can log a message exactly of the thread whose message is at the front of the channel |
| StepRules.RecordsWhatIsReady | src/crossbeam_select.rs:225-234 | a recording select can choose a receiver exactly if a message is there, of the sender that it logs |
| StepRules.DummiesAreChannels | src/ipc_channel/mod.rs:1020-1021 | the log entry that a dummy needs is that of the thread's next channel |
| Spawning.ThreadsAreSpawned | src/detthread.rs:80-85 | in record and in every state of replay: the k-th spawn of a thread has started the thread with its path and k, with the argument given, no other threads exist but the first, and channels are numbered as created |
| Receivers.NoReceiverIsLost | src/rr.rs:128-155 | over every record run: the receivers that exist are those created, and each is held by a thread or in a message that is still on its channel |
| Receivers.NoReceiverIsLostInReplay | src/rr.rs:253-307 | the same for replay of any logs, the message being on the channel, buffered or in hand |
| Receivers.RecordTravels | src/rr.rs:119-127 | where each receiver goes in a recording step: out with the message it is sent in, to the child it is given to, to the thread that takes its message, or nowhere |
| Receivers.ReceiversTravel | src/rr.rs:146-155 | the same for a step that follows a log |
| Promises.IdsNeverRepeat | src/detthread.rs:203-257 | over a whole record run no two channels and no two threads get the same id, no channel the fake one and no thread the root's |
| Promises.Course | src/rr.rs:128-155 | every reachable replay state stands for pending queues reached by completed operations, from which the rest of the logs leads to the recorded end in exactly as many operations as are missing |
| SplitSelects.DesyncsIffInterrupted | src/crossbeam_select.rs:225-240 | for record runs whose threads have one select open at a time: some replay of the log meets a mismatch if and only if some thread logged an operation between a select and its completion |
| SplitSelects.InterruptedSelectDesyncs | src/crossbeam_select.rs:445-463 | the first select so interrupted is reached by a replay, which finds there the entry of the operation logged in between |
| SplitSelects.SendsBetweenDesyncs | src/crossbeam_select.rs:302-312 | a program and its record run whose replay ends with an event mismatch: it sends between select and recv |
| FairReplay.FairReplayEnds | src/rr.rs:253-307 | every fair replay ends: after at most as many rounds as there were record steps all logs have been read and the threads are the recorded ones, whatever other turns are taken in between |
| FairReplay.PatientThreadCompletes | src/rr.rs:273-306 | an operation that can be completed stays so whatever the other threads do, and is completed after one patient turn for each message it lacks and one to conclude |
| FairReplay.RoundCompletes | src/rr.rs:128-155 | each round makes the number of operations left strictly smaller, while there are any |
| FairReplay.TurnsArePossible | src/rr.rs:128-155 | a thread can take a turn exactly while its log has an entry for it |
| Confluence.Join | src/lib.rs:170-178 | when one schedule of commuting threads gets stuck, every other schedule can be completed to the same end in exactly the steps it lacks |
| ReplayOrder.Diamond | src/rr.rs:128-155 | log-driven steps of two threads, with sends, receives, batches, spawns and moving receivers, enable each other and commute |
| ReplayOrder.NextCommutes | src/rr.rs:214-240 | the same for the next log entries of two threads |
| Protocol.StepKeepsInv | src/detthread.rs:203-257 | every step keeps the thread tree, the numbering of receivers, and that queued messages were sent by earlier steps |
| Following.RecordSimulates | src/rr.rs:121-126 | a recording step on FIFO wires, by a thread without another open select, is the log-driven step of the entry that it writes or will write |
| Recording.WrittenEntriesFit | src/rr.rs:92-105 | what an operation writes passes the replay check of that same operation |
| Recording.LogsAreWhatWasWritten | src/lib.rs:180-203 | however writes interleave, each thread's log is its writes in program order, a select being written when it is completed |
| Following.RecordedRunReplays | src/rr.rs:128-155 | if selects are completed at once, the recorded schedule without the selects never completed is a complete replay of the recorded logs and ends in the recorded state |
| Following.SelectFindsOtherEntry | src/crossbeam_select.rs:235-255 | if not, a replay gets to the first select that is interrupted and has the interrupting operation next in its log |
| Refinement.ConcludeRefines | src/rr.rs:273-306 | completing an operation with wires, buffers and messages in hand is one step on pending queues |
| Refinement.ReplayRefines | src/rr.rs:253-307 | every run of the concrete replay machine, however reads are interleaved, is a run on pending queues |
| Replaying.DrawSomething | src/rr.rs:301-306 | taking the expected message into the hand, and buffering others on the way, leaves the state that wires, buffers and hand stand for |
| Replaying.DrawNothing | src/rr.rs:277-295 | so does a stretch of the receive loop that finds nothing |
| Replaying.PollKeeps | src/crossbeam_channel.rs:379-408 | so does the polling of a select, whether it finds its message or not |
| ReplayEngine.RecvExpectedRefines | src/rr.rs:253-307 | receiving from `s` removes just the head of the pending queue of `s`, or, on failure, nothing from any queue; it succeeds exactly if something is buffered from `s` or within reach; it reports a hang-up only with nothing pending |
| ReplayEngine.PatientRecv | src/rr.rs:273-306 | with enough patience it succeeds exactly if something is pending |
| ReplayEngine.ArrivalOrderConfluence | src/rr.rs:253-307 | receivers whose pending queues agree give the same values for the same senders and end with agreeing queues, whatever the arrival order and the split between buffer and wire |
| ReplayEngine.ScanRefines | src/rr.rs:273-306 | what the loop does, for any number of iterations before it fails |
| ReplayEngine.HangUpExactly | src/rr.rs:273-295 | a receive reports a hang-up exactly if the channel has hung up, nothing is pending from the sender, and patience reaches past all that is on the wire |
| Channels.Receiver.RecvExpectedMessage | src/rr.rs:253-307 | the loop over buffer and wire computes the specified receive and ends on every finite wire |
| Channels.Receiver.RecordReplayRecv | src/rr.rs:111-158 | result, log entry, buffer and wire of a receive in all three modes; in replay the refusal of an event of any other operation, the mismatches, and the two errors of a failed wait in terms of hang-up, pending messages and patience |
| Channels.Receiver.Receive | src/crossbeam_channel.rs:286-308 | every way through a receive, desynchronised or not, delivers at most one message and keeps the account of what was sent, delivered, buffered and on the wire; what it logs, and what the user gets for an entry that fits and for one that does not |
| Channels.Receiver.HandleDesync | src/desync.rs:87-116 | panics or takes a buffered message if there is any, else the next of the real channel; always the head of its sender's pending queue |
| Channels.Receiver.GetBufferedValue | src/crossbeam_channel.rs:351-359 | gives a message exactly if some queue is non-empty, and that the first of its sender |
| Channels.Receiver.BufferedValue | src/crossbeam_select.rs:28-36 | true exactly if some queue is non-empty |
| Channels.Receiver.PollEntry | src/crossbeam_channel.rs:379-408 | polling changes no pending queue, finds a message exactly if one is buffered or within reach, leaves a found one buffered, and panics exactly if the channel has hung up, nothing is pending from the sender and patience reaches past the wire |
| Channels.HangUpDuringPoll | src/crossbeam_channel.rs:399-406 | a channel on which the same poll times out or panics, with one read less or more |
| Channels.AccountIsFifo | src/desync.rs:93-105 | over any mix of operations what was delivered from a sender is a prefix of what it sent, and the rest is pending: nothing lost, duplicated or reordered |
| Channels.DeliveryAccounted | src/rr.rs:267-271 | delivering the head of one pending queue keeps the account of every sender |
| ReplayEngine.PollRefines | src/crossbeam_channel.rs:391-402 | receiving a message and putting it back changes no pending queue |
| Channels.Sender.RecordReplaySend | src/rr.rs:190-244 | in replay the message goes out exactly if the next log entry is this send; what is logged, and every error case with its error |
| CrossbeamSelect.Selector.Recv | src/crossbeam_select.rs:89-128 | the next index is given out, logged, and in replay held against the log |
| CrossbeamSelect.Selector.RrSelect | src/crossbeam_select.rs:219-310 | all results of the first phase; no pending queue of any receiver changes |
| CrossbeamSelect.Selector.SelectOp | src/crossbeam_select.rs:130-160 | after a desynchronisation a receiver with buffered messages is chosen if there is one, the real selector only if there is none; exactly when it panics in both modes |
| CrossbeamSelect.ReplaySelected | src/crossbeam_select.rs:467-495 | the second phase in replay, with the two mismatches that cannot be recovered from |
| CrossbeamSelect.SelectedRecv | src/crossbeam_select.rs:425-499 | when the second phase panics, that it is at most one dequeue, and the entry it logs: the sender it got, with variant and channel of the receiver |
| CrossbeamSelect.RecordedSelectReplays | src/crossbeam_select.rs:445-480 | the round trip: what the second phase writes on a receiver makes both phases of a replaying select on a receiver of the same metadata give a message of that sender, or the recorded disconnection, without a panic |
| CrossbeamSelect.SelectThenRecv | src/crossbeam_select.rs:258-293 | poll and receive together are one dequeue from the logged sender, whatever arrives between them |
| CrossbeamSelect.DesyncedSelectThenRecv | src/crossbeam_select.rs:144-155 | after a desynchronisation the two phases do not panic, deliver buffered messages first and at most one message, whatever arrives between them |
| IpcBatches.BatchReplays | src/ipc_channel/mod.rs:642-738 | replay of a recorded batch gives the same entries in the same order for every re-interleaving of the messages, and no error |
| IpcBatches.RunReplays | src/ipc_channel/mod.rs:631-742 | the same over whole runs of additions and selects, indices included |
| IpcBatches.ClosedMeansEmpty | src/ipc_channel/mod.rs:768-795 | where the record run reports a closing, replay has nothing buffered and nothing on the wire |
| IpcBatches.BatchAccounted | src/ipc_channel/mod.rs:716-726 | entries given or handed back, buffers and wires hold every message, in order per index and sender, if and only if the batch has no closing at which, after the events before it, a message is on the wire whose sender has other messages buffered |
| IpcBatches.OvertakingHappens | src/ipc_channel/mod.rs:774-779 | a batch of two events and three messages in which one overtakes another |
| IpcBatches.BatchAnswers | src/ipc_channel/mod.rs:712-730 | a replayed batch answers its events one by one with their own entries, to its end or up to an event that fails, and then has at most one entry more |
| IpcBatches.EventAnswers | src/ipc_channel/mod.rs:746-798 | what one event comes to, on wire, buffer, hang-up and patience: its message or closing, another message, an unexpected closing, or a timeout |
| IpcBatches.RealSelectReports | src/ipc_channel/mod.rs:887-904 | the real set reports of each receiver its messages in order and then once its closing, one thing each time it looks, and leaves the rest |
| IpcBatches.RealSelectAccounted | src/ipc_channel/mod.rs:887-904 | with nothing buffered the real set reports in order: what was in account before is so afterwards, and nothing else |
| IpcBatches.RealClosings | src/ipc_channel/mod.rs:887-904 | the real set reports a closing just when it marks the receiver |
| IpcBatches.ReplayClosings | src/ipc_channel/mod.rs:774-779 | so does replay, for logs that close open receivers only |
| IpcBatches.RecordedClosesOpen | src/ipc_channel/mod.rs:653-674 | the log of a recorded batch closes open receivers only, each once, for every set that has no other receivers closed, whatever is on its wires |
| IpcBatches.RunClosesOnce | src/ipc_channel/mod.rs:653-674 | over a whole record run of additions and selects the log closes each receiver at most once |
| IpcBatches.ReplayedClosesOnce | src/ipc_channel/mod.rs:712-730 | a batch of such a log replayed without error, on any wires, leaves receivers for which the rest of the log is such a log again |
| IpcReceiverSets.RecordedLogClosesOnce | src/ipc_channel/mod.rs:653-674 | the log of a thread that recorded a run of one set is such a log |
| IpcReceiverSets.ReplayRun | src/ipc_channel/mod.rs:595-624 | with that log, whatever the program does with its set, whatever arrives and wherever it desynchronises, the user sees each index close at most once |
| IpcReceiverSets.IpcReceiverSet.DoReplayRecvForEntry | src/ipc_channel/mod.rs:824-883 | the loop computes the specified receive; a closed channel is remembered |
| IpcReceiverSets.IpcReceiverSet.ReplaySelectEvent | src/ipc_channel/mod.rs:746-798 | one event of a batch: its answer on wire, buffer, hang-up and patience, every error and the entry that comes with it |
| IpcReceiverSets.IpcReceiverSet.ReplayBatch | src/ipc_channel/mod.rs:712-730 | without an error every event is answered by its own entry, in order; else those before the failing one, and at most one entry more; keeps closings, and the account exactly unless the batch overtakes |
| IpcReceiverSets.IpcReceiverSet.RrSelect | src/ipc_channel/mod.rs:631-742 | result, log entry and state of a select in all modes and error cases; in replay, how each logged event is answered |
| IpcReceiverSets.IpcReceiverSet.Select | src/ipc_channel/mod.rs:595-624 | after a desynchronisation: buffered messages first, then the real set; what is lost is exactly what the interrupted replay had; the account is kept exactly unless the next batch of the log overtakes; closings stay at most one per index with the log of a record run; exactly when it panics |
| IpcReceiverSets.IpcReceiverSet.Add | src/ipc_channel/mod.rs:580-593 | the k-th receiver gets index k in record, in replay and after a desynchronisation, and the earlier ones keep theirs; exactly when it panics |
| IpcReceiverSets.IpcReceiverSet.RrAdd | src/ipc_channel/mod.rs:907-965 | the addition is logged, or must be the next entry of the log |
| IpcReceiverSets.IpcReceiverSet.MoveReceiversToSet | src/ipc_channel/mod.rs:1004-1046 | every receiver keeps its index and its messages, closed ones become silent dummies; succeeds exactly if the dummies' creations are in the log |
| IpcReceiverSets.IpcReceiverSet.DoSelect | src/ipc_channel/mod.rs:887-904 | the real set never reports anything of a dummy, and keeps account and closings |
| IpcReceiverSets.IpcReceiverSet.Drain | src/ipc_channel/mod.rs:969-999 | empties the buffers into entries, first-in, first-out per index and sender |
| IpcReceiverSets.BufferedEntries | src/ipc_channel/mod.rs:974-983 | the entries are exactly the buffered messages, and there are none exactly if nothing is buffered |
| IpcReceiverSets.WokenSetMovesIfAllOpen | src/ipc_channel/mod.rs:1020-1021 | a set at the end of its log can be moved exactly if no receiver has closed |
| IpcReceiverSets.ToOpaqueKeepsAll | src/ipc_channel/mod.rs:137-144 | a receiver moved into a set loses no message exactly if nothing has been buffered in it |
| RecordLog.ReceiveEventsRoundTrip | src/crossbeam_channel.rs:198-262 | what a receive logs passes its own check and replays as the result recorded |
| RecordLog.AcceptsExactly | src/crossbeam_channel.rs:198-262 | a replayed receive accepts an event if and only if the same receive on the same kind of channel can have logged it |
| RecordLog.NoOtherReceive | src/rr.rs:98-102 | no event is accepted by receives of two kinds, but for the messages of ipc receivers, and none of other operations by any |
| EventLog.EventRecorder.GetLogEntry | src/lib.rs:206-212 | entries come out once each, in order |
| EventLog.EventRecorder.WriteEventToRecord | src/lib.rs:180-203 | the entry is appended unless the log has been flushed |
| EventLog.GlobalRecorder.AddReceiver | src/recordlog.rs:383-398 | refuses a thread id that is there already |
| EventLog.EntryNeverPresent | src/recordlog.rs:383-398 | which does not happen: at every point of every record run the write to come is the first of its thread exactly if the recorder has nothing under its id |
| EventLog.OneThreadPerId | src/detthread.rs:203-257 | two steps of a record run have the same thread id exactly if they are steps of the same spawned thread |
| EventLog.GlobalRecorder.Write | src/recordlog.rs:232-240 | a thread registers with its first write, which panics exactly if its id is there already, and its entry goes to the end of the log of its id and no other |
| EventLog.GlobalRecorder.GetAllEntries | src/recordlog.rs:400-412 | returns every thread's writes; the branch for an id that comes up twice is not taken |
| EventLog.GlobalReplayer.TakeEntry | src/recordlog.rs:311-325 | a log is handed out once; without one the thread panics |
| EventLog.ReadBack | src/lib.rs:170-212 | a replaying thread that takes its log and asks for entries gets what the thread with its id wrote in the record run, once each and in order, and then the missing-entry error; nobody gets the log a second time |
| EventLog.LogsByThread | src/recordlog.rs:383-412 | whatever the interleaving, each log of the recorder is that thread's writes in program order |
| EventLog.RecorderHoldsTheLogs | src/recordlog.rs:400-412 | what the recorder holds after a record run is what replay starts from |
| Identities.FromSlice | src/detthread.rs:139-151 | builds the id of any path up to depth 10, whose slice is the path again |
| Identities.StoredIdsAgreeWithPaths | src/detthread.rs:94-98 | ids are equal as array and size exactly if the paths are equal |
| Identities.DetThreadId.ExtendPath | src/detthread.rs:117-124 | appends one position, or panics at depth 10 |
| Identities.DetIdSpawner.NewChildDetId | src/detthread.rs:80-85 | the child's id is the parent's path and the child's position, whatever the schedule |
| Identities.ChannelIdsDistinctUntilWrap | src/rr.rs:44-52 | two creations get one id exactly if they are of one thread and a multiple of 2^32 apart; the fake id is given out exactly if the root's counter has wrapped |
| Desync.NoLostWakeup | src/desync.rs:40-67 | in every interleaving, under the flag a thread is in the wait set only while another holds the lock and is about to notify; a thread that notifies has set the flag |
| Desync.EverySleeperCanReturn | src/desync.rs:51-59 | once DESYNC is set, however markers race, the threads inside can go on until every sleeper has returned |
| Desync.SleepersReturn | src/desync.rs:51-67 | under the flag every run of the threads inside, spurious wakeups included, is bounded and ends only with everybody out |
| Desync.FlagFollows | src/desync.rs:40-46 | DESYNC is followed by the flag |
| Desync.SleepUntilMarked | src/desync.rs:34-67 | over every run the flags stay once set, no sleeper returns before the flag is set, no marker before DESYNC is, and while nobody marks neither is set and every sleeper sleeps |
| Desync.EarlyMarkerOvertakesFlag | src/desync.rs:40-46 | a run in which a second marker returns before the flag is set |
| Router.WakeupsMatchRequests | src/ipc_channel/router.rs:197-222 | the k-th wakeup handled goes with the k-th request, that of the same call; a request that is not there is about to be sent |
| Router.QueuesDifferByOne | src/ipc_channel/router.rs:55-81 | the two queues differ by at most one and agree call by call while the mutex is free and the router is between batches |
| Router.RoutesInCallOrder | src/ipc_channel/router.rs:97-116 | routes are installed in call order, each message goes to the handler of its own receiver, and the handlers are those of the routes added and not closed |
| Router.EveryMessageIsHandedOn | src/ipc_channel/router.rs:226-233 | over every run, while the router goes on, what has been delivered and what is left of its batch are together the messages selected so far, id and payload, in order; after its end the deliveries are the first of them |
| Router.AckComesLast | src/ipc_channel/router.rs:213-222 | the acknowledgement comes after every earlier request has been served |
| Router.NoCrashWhileProxyLives | src/ipc_channel/router.rs:223-243 | no panic of the router thread is reachable while the proxy is alive |
| Router.DroppedProxyCrashes | src/ipc_channel/router.rs:234-241 | dropping the proxy without a shutdown leads to one |
| Router.CallsDoNotHang | src/ipc_channel/router.rs:55-81 | while a caller has the mutex, it or the router can take a step |
| Router.MutexComesFree | src/ipc_channel/router.rs:55-116 | from every reachable state in which a caller has the mutex, that caller and the router alone have a run at whose end the call has returned or panicked and the mutex is free |
| Router.NoRouteAfterShutdown | src/ipc_channel/router.rs:97-116 | adding a route after a shutdown panics and poisons the mutex |
| Router.PoisonedForGood | src/ipc_channel/router.rs:55-81 | a poisoned mutex is never held again, and every later call panics |
| Router.ShutdownReturnsLast | src/ipc_channel/router.rs:55-81 | a shutdown returns only if another one was requested before, or with the acknowledgement there, the router thread ended and no request left |
| Router.RouterThread.HandleBatch | src/ipc_channel/router.rs:197-243 | the loop over the results of a select appends one delivery, with id and payload, for each message up to where it stops, and says where and why it stops |
| Router.LoopIsSteps | src/ipc_channel/router.rs:197-243 | that batch is a run of router steps of the interleaved machine |

## Left out

- Following.RecordSimulates: sends always succeed and are logged in the same step; a send error, or a log taken between a send and its entry, is not modelled.
- SplitSelects.DesyncsIffInterrupted: asks that no thread makes a select while another of its own is open. The machines allow it, but then the select can find the entry of the other one, which may or may not be a mismatch, and the premise `Orderly` of the other results leaves it out.
- StepRules.RecordsWhoSent: like `RecordsWhatIsReady` about a thread without an open select; with one open, messages that it has chosen are passed by (`Recording.ReservedOn`).
- Promises.ReplayDeterminism: says nothing about a run after a desynchronisation; that is the matter of the `Channels`, `CrossbeamSelect` and `IpcReceiverSets` modules, receiver by receiver.
- Promises.IdsNeverRepeat: the whole-system machine counts channels without the 32-bit wrap; `ChannelIdsDistinctUntilWrap` says exactly when the wrap matters.
- IpcBatches.RunReplays: asks for patience beyond all messages to come; a replay that times out is covered by `BatchAccounted`.
- IpcReceiverSets.ReplayRun: one set to a thread. Batches do not name their set in the log, so that a program that desynchronises can give the batch of one set to another set of the same thread; nothing is said about that.
- Identities.DetThreadId.ExtendPath: on values; the program clones an id before it writes to it, so that no sharing is lost.
- In the whole-system machine an ipc batch takes no message for a closed channel and channels may be reported closed at any time; closing is treated in `IpcBatches` and `IpcReceiverSets`.
- Router.WakeupsMatchRequests: about recorded and plain runs, where both queues are first-in, first-out; in replay the log decides what the router receives, and `ReplayDeterminism` says that it is the same.
- Threads spawned outside the library and initialised by `init_foreign_thread` (`src/detthread.rs:35-51`): their ids are handed over by the program.
- The callers' side of the router is a state machine on values, since its point is the interleaving; the callbacks are uninterpreted and do not call the router.
- `src/mpsc.rs`: a second instance of the crossbeam receiver and sender.
- `Select::ready`, `after` and `never` channels, durations and bounded channels that block: the protocol promises nothing for them beyond the modelled cases.
- `src/crossbeam_select_macro.rs`: rewriting of tokens at compile time.
- Messages that are taken off a channel and then fail to decode, io errors of the real receiver set and of `add_opaque`, `IpcSender::connect`.
- Log files and their formats, environment variables, tracing, `type_name` strings, which replay never compares.
- Error conversions between the recorded variants and the channels' own error types.
