# Verification of the offdesk relay protocols

offdesk lets browsers and phones work in terminals and agent sessions that run on
other machines, through a hub. This project models the protocol logic of that
relay in Dafny 4.11 and proves what the design promises of it, over every run and
every input. `dafny verify dfyconfig.toml` checks the whole project.

Each part has the same layout: a module of state functions that says what one
step does, modules that prove properties of all runs, and, where the program
keeps mutable state, a class whose methods are proved to do exactly what the
state functions say and to keep an invariant their callers can use.

- **Encrypted multiplexer** (`Outbound`, `OutboundRuns`, `OutboundSends`,
  `OutboundBeats`, `OutboundClose`, `OutboundFairness`, `Reassembly`,
  `ReceiverGuards`, `OutboundWriter`). Senders take permits from a byte budget; one
  writer cuts messages into fragments and decides record by record which message goes
  on. Proved: the budget balances, the active message is never overwritten, per-key
  order, exactly when a close loses messages and heartbeats change places, a
  starvation bound against any arrivals, that the receiver delivers what the senders
  handed in, byte for byte, and what a receiver does with any records at all.
- **Control leases** (`Leases`, `LeaseRuns`, `LeaseStash`, `LeaseMessages`,
  `LeasePublishing`, `LeaseNews`, `LeaseTable`). Reference-counted devices, grace
  timers, stashed leases, whom a terminal hears, and the event log the browsers fold.
- **Browser events** (`EventLog`, `EventReplay`, `EventSnapshots`, `EventBus`).
  Sequence numbers, the history ring, snapshot and replay, with publishing split into
  the steps other threads can get between.
- **Terminals across reconnects** (`Terminals`, `TerminalRuns`, `TerminalCards`,
  `TerminalNotices`, `TerminalOverlaps`, `TerminalStore`). The record of a terminal
  after every step, exactly which steps lose its group or title, and whether the
  notices tell the browsers the truth.
- **Byte pipeline** (`Frames`, `Utf8`, `Coalesce`, `Pipeline`, `PipelineStreams`,
  `PipelineFull`, `PipelineEnds`, `PipelineLoops`, `Router`). Batches, compression
  markers, the frame codec, routing, thin-or-reset for slow browsers, merged chunks.
- **Composer messages** (`ComposerPaste`, `Composer`, `ComposerRuns`, `ComposerSends`,
  `ComposerOrder`, `ComposerReceipts`, `ComposerStore`). At-most-once delivery, what a
  receipt tells, the order of a writer, and the paste a terminal reads.
- **Agent sessions** (`Acp`, `AcpRuns`, `AcpOrder`, `AcpArrival`, `AcpModels`,
  `AcpQuestions`, `AcpWords`, `AcpObeys`, `AcpLetters`, `AcpCourse`, `AcpValid`,
  `AcpSession`). Handshake, watchdogs, command queue, create-time model, questions,
  and exactly what the hub and the agent are told.
- **Two algorithms** (`OscTitles`, `CodexOwners`). The title scanner and the search
  for the Codex process a terminal owns.

## Where the code does less than one might expect

For each of these the exact condition under which the stronger property holds is
proved for all runs; where that condition does not show at a glance that it can
fail, a lemma reaches the failing case by a concrete run.

- If the last sender goes away while the writer is parked and a message but no
  heartbeat has come, what is in the data channel is lost (run:
  `CloseMayLoseAMessage`; exactly then: `LostExactly`, `AllSentExactly`). Never if
  `is_idle` held (`IdleNotUnnoticed`).
- Two heartbeats may change places (`HeartbeatsMayReorder`): exactly if a pass finds
  the one that woke the writer still waiting and another in the channel
  (`PassTakesTheOldestExactly`, `HeartbeatsInOrderExactly`).
- An uncompressed browser that is too slow loses whole frames, a compressed one its
  attach: exactly when a frame meets a full channel (`ArrivesExactly`,
  `ListensExactly`).
- A stashed lease comes back although another device claimed and gave back the
  machine in between (`RestoreForgetsAClaimInBetween`; `RestoreExactly`).
- Some changes of leases are published after the lock is dropped, so browsers may
  end up naming another controller than the hub (`SwappedClaimsAreReached`): they
  agree exactly if the change published last says what the change made last says
  (`AgreesExactly`), and always if no two changes of a machine overlap
  (`RaceFreeRunsAgree`).
- Two publishers may append to the history in the wrong order, after which the ring
  can drop an event without a gap being noticed (`PublishersMayOvertake`;
  `MissesNothingExactlyWhenInOrder`).
- A subscription after 0 never reports a gap and misses exactly what the ring let go
  (`FromZero`). After a restart a browser is told to resync exactly once something
  has been published (`RestartGap`). Sequence numbers go up over a restart exactly if
  the old process gave none past the base of the new one, which is 0 if nothing was
  ever flushed (`RestartIsMonotone`).
- What a replaced connection sent may be handled late. A late report can take back a
  group or a title (`LateReportTakesBack`) or, with no connection left, drop the whole
  stash (`LateReportDropsStash`); a terminal created late can make the next disconnect
  overwrite the stash (`LateCreateReplacesStash`). A terminal keeps both exactly if
  no step is one of those that lose them (`StepLosesExactly`, `CardKeptExactly`; for a
  report `ReportKeepsCardExactly`), and live records and stash stay apart exactly if no
  terminal is created under a connection that has not reported (`RunValidExactly`).
- A connection that is replaced is put aside without a notice, so browsers go on taking
  its terminals for reachable; exactly when the notices mislead: `NextAgreesExactly`,
  `NoticesAgreeExactly`.
- Dropping a machine does not forget which of its attaches were previews
  (`DroppedPreviewsLinger`; `StepRefinesExactly`).
- A command sent while the create-time model is being set overtakes the queued ones
  (`LaterCommandsOvertake`, reached by `OvertakingIsReached`): order is kept exactly
  if none comes to a ready session while others wait (`OrderStaysExactly`,
  `ArrivalOrderExactly`).
- An answer to another set_model lets the queue run too early
  (`OutOfOrderAnswerIsTooEarly`; `AnyModelAnswerFlushes`).
- A second permission request replaces a parked one, which is then never answered
  (`QuestionsMayBeForgotten`; `AnsweredAtMostOnce`).
- A receipt that says unknown may belong to a delivered message
  (`UnknownMayBeDelivered`). What was written is told exactly by the stage its request
  reached (`ReachedExactly`); nothing ever is if the hub stopped before dispatching it
  or the request came to nothing (`StoppedBeforeDispatchIsSpent`,
  `SpentIsNeverWritten`).

## Model

| member | source | states |
|---|---|---|
| `Outbound.Overtaker` | crates/secure/src/outbound.rs:117-124 | the overtaker is the first message of the window that is small, whose key is neither that of the active bulk message nor of any message before it; none is found only if there is none |
| `Outbound.ChoosesInOrder` | crates/secure/src/outbound.rs:116-136 | exactly when each choice is made: a heartbeat first; else, while fewer than 8 in a row have, the first message of at most 16 KiB whose key is neither the bulk message's nor that of one before it; else the bulk; else the front; nothing exactly if all are empty |
| `Outbound.FragmentBudget` | crates/secure/src/lib.rs:147-180 | every encoded record shortens its message by exactly one fragment, and the message is finished exactly when no fragment is left |
| `Outbound.TakenIsReady` | crates/secure/src/outbound.rs:125-149 | the chosen message is the active bulk message or one nothing has been sent of, and can be encoded |
| `Outbound.OvertakerFinishes` | crates/secure/src/outbound.rs:117-154 | heartbeats and overtaking messages finish in one record, so an unfinished message is stored in `bulk` only when `bulk` is empty |
| `Outbound.IterateShape` | crates/secure/src/outbound.rs:106-154 | one pass of the loop keeps the whole shape of the queue: bounds of both channels and the window, at most one partly sent message, streak at most 8 |
| `Outbound.IterateValid` | crates/secure/src/outbound.rs:106-154 | one pass of the loop keeps the byte budget in balance: free permits plus the sizes of all unreleased messages are 64 MiB |
| `Outbound.WakeValid` | crates/secure/src/outbound.rs:137-143 | waking by a heartbeat, by data or by close keeps shape and balance |
| `Outbound.AcquireValid` | crates/secure/src/outbound.rs:42-63 | a send that gets its permit keeps shape and balance |
| `Outbound.DeliverValid` | crates/secure/src/outbound.rs:55-63 | moving a permitted message into the data channel keeps shape and balance |
| `Outbound.TrySendValid` | crates/secure/src/outbound.rs:65-90 | try_send of a data message keeps shape and balance |
| `Outbound.TrySendControlValid` | crates/secure/src/outbound.rs:65-90 | try_send of a heartbeat keeps shape and balance and takes nothing from the budget |
| `OutboundRuns.PassAdvances` | crates/secure/src/outbound.rs:106-154 | what one pass does to the line of bulk, window and data channel: a heartbeat leaves it alone, an overtaker leaves from behind messages of other keys only, otherwise the head advances by one fragment |
| `OutboundRuns.RunOrdered` | crates/secure/src/outbound.rs:103-154 | in every run and for every key, what was finished, what is in line and what was lost at close are together exactly what was accepted, in that order |
| `OutboundRuns.ReturnedMeansSent` | crates/secure/src/outbound.rs:137-144 | when the writer has returned, for each key what was finished and what was left in the data channel make up what was accepted |
| `OutboundSends.QueuedIsWhatWasSent` | crates/secure/src/outbound.rs:42-90 | what the senders handed in, read from their calls, is exactly what waits for a slot and what got one, byte for byte and under its key, each once; and of every such message and heartbeat it is as often held, sent in full or lost |
| `OutboundSends.ReceiverGetsWhatWasSent` | crates/secure/src/outbound.rs:42-154 | end to end from a new queue: everything the receiver delivers was handed in, byte for byte and not twice, and for each key it delivers the first of the messages that got a slot, in that order; all of them when the writer has returned without loss |
| `OutboundClose.LostExactly` | crates/secure/src/outbound.rs:137-144 | closing with no send under way loses exactly the contents of the data channel if the writer is parked with a message and no heartbeat in its channels, and nothing otherwise |
| `OutboundClose.AllSentExactly` | crates/secure/src/outbound.rs:137-144 | from a new queue: once the writer has returned every accepted message was sent in full exactly if it was not so at the close, and always if the queue was idle then |
| `OutboundRuns.CloseMayLoseAMessage` | crates/secure/src/outbound.rs:139-142 | a concrete run in which an accepted message is lost at close: the heartbeat branch of the biased select returns first |
| `OutboundRuns.HeartbeatsMayReorder` | crates/secure/src/outbound.rs:116-141 | a concrete run in which two heartbeats leave in the wrong order |
| `OutboundBeats.PassTakesTheOldestExactly` | crates/secure/src/outbound.rs:106-154 | a pass with heartbeats to send sends the oldest exactly if not one that woke the writer waits while another is in the channel (or both are equal) |
| `OutboundBeats.BeatsInOrderExactly` | crates/secure/src/outbound.rs:103-154 | over any run, some heartbeat leaves in the place of another exactly if some pass finds them so; otherwise those sent, then those waiting, are those that came |
| `OutboundBeats.HeartbeatsInOrderExactly` | crates/secure/src/outbound.rs:103-154 | the same for every run of a new queue |
| `OutboundFairness.AdvanceLowers` | crates/secure/src/outbound.rs:125-154 | every data record either finishes the message or lowers its potential 9 W + 8 - streak by at least one; a heartbeat does not raise it |
| `OutboundFairness.NoStarvation` | crates/secure/src/outbound.rs:106-154 | against any arrivals, a message in line behind W fragments of work, its own included, is fully sent within 9 W data records |
| `OutboundFairness.BulkMovesWithinNine` | crates/secure/src/outbound.rs:125-136 | any nine data records contain a fragment of the bulk message that was active before them |
| `OutboundFairness.IdleMeansNothingOutstanding` | crates/secure/src/outbound.rs:40 | in every reachable state `is_idle` holds exactly when no data message is being sent, queued, waiting or partly sent |
| `Reassembly.ReceiverGetsWhatWasFinished` | crates/secure/src/lib.rs:191-255 | in every run the receiving channel never fails, never assembles more than one message and delivers exactly the finished messages, byte for byte and in order |
| `ReceiverGuards.FailsExactly` | crates/secure/src/lib.rs:191-255 | for any record: the channel fails exactly if the record is not sound or not the one expected, and stays failed with everything forgotten |
| `ReceiverGuards.AlwaysBounded` | crates/secure/src/lib.rs:191-255 | whatever records come, at most 8 messages are assembled, exactly their sizes are reserved, at most 64 MiB, and no more is held |
| `ReceiverGuards.DeliversWhatCame` | crates/secure/src/lib.rs:191-255 | whatever records come, until it fails every message delivered is the data of the records of one id, whole and in order, and no id gives two |
| `OutboundWriter.Multiplexer.constructor` | crates/secure/src/outbound.rs:24-38 | a new queue has the whole budget free and satisfies the invariant |
| `OutboundWriter.Multiplexer.Acquire` | crates/secure/src/outbound.rs:42-54 | takes the permit exactly when the message is encodable and fits, queues it as it is, keeps the invariant and else changes nothing |
| `OutboundWriter.Multiplexer.TrySend` | crates/secure/src/outbound.rs:65-90 | exactly when a message or a heartbeat is taken, and then it is queued as it is; an error leaves the queue unchanged; a heartbeat over one fragment is refused as invalid |
| `OutboundWriter.Multiplexer.PullBatch` | crates/secure/src/outbound.rs:109-115 | moves messages from the data channel to the window until the window is full or the channel empty |
| `OutboundWriter.Multiplexer.PickNext` | crates/secure/src/outbound.rs:117-136 | the mutable form takes the message and leaves the queue that `Choose` and `Take` say |
| `OutboundWriter.Multiplexer.FindOvertaker` | crates/secure/src/outbound.rs:117-124 | the search loop finds `Overtaker` |
| `OutboundWriter.Multiplexer.Pass` | crates/secure/src/outbound.rs:106-154 | one pass of the loop is `Iterate` |
| `OutboundWriter.Multiplexer.Wake` | crates/secure/src/outbound.rs:137-143 | the parked writer wakes as `Wake` says |
| `Leases.Restorable` | crates/hub/src/machine_manager.rs:1627-1636 | a restore takes back exactly the stashed machines nobody holds |
| `Leases.GrantedAt` | crates/hub/src/machine_manager.rs:1627-1636 | restoring a list of machines gives exactly those to the device and leaves every other lease |
| `Leases.FoldGrants` | crates/hub/src/machine_manager.rs:1627-1648 | the events of a restore fold to the restored leases |
| `Leases.FoldReleases` | crates/hub/src/machine_manager.rs:1683-1692 | the events of an expiry fold to the leases without the device |
| `Leases.StoreValid` | crates/hub/src/machine_manager.rs:1615-1802 | an operation whose events fold to its new leases keeps the invariant for every user |
| `Leases.RegisterValid` | crates/hub/src/machine_manager.rs:1615-1648 | registering a device keeps the invariant: no device connected and stashed, no empty entry, no empty or repeated stash, log folds to leases |
| `Leases.UnregisterValid` | crates/hub/src/machine_manager.rs:1650-1702 | unregistering a device keeps the invariant |
| `Leases.RequestValid` | crates/hub/src/machine_manager.rs:1717-1732 | claiming a machine keeps the invariant |
| `Leases.ReleaseValid` | crates/hub/src/machine_manager.rs:1734-1769 | releasing a machine keeps the invariant |
| `Leases.RemoveValid` | crates/hub/src/machine_manager.rs:313-364 | forgetting a machine keeps the invariant |
| `LeaseRuns.RunKeeps` | crates/hub/src/machine_manager.rs:1615-1802 | in every run the reference count of a device is its open sockets plus its pending timers, and every user's events fold to exactly that user's leases |
| `LeaseRuns.TimerReleasesOnlyTheLast` | crates/hub/src/machine_manager.rs:1650-1702 | a timer takes leases only when no socket and no other timer keeps the device; then it takes exactly the device's leases and stashes them where no stash was; any other timer is silent |
| `LeaseRuns.ReconnectWithinGrace` | crates/hub/src/machine_manager.rs:1615-1715 | a device that is back before its timer fires keeps its leases and nobody is told anything |
| `LeaseRuns.RestoreExactly` | crates/hub/src/machine_manager.rs:1627-1636 | after opening a socket a device holds a machine exactly if it held it before or has it stashed while nobody holds it now |
| `LeaseRuns.RestoreForgetsAClaimInBetween` | crates/hub/src/machine_manager.rs:1630 | a concrete run: the stash brings a lease back although another device claimed and released the machine in between |
| `LeaseRuns.ReleaseIsNotUndone` | crates/hub/src/machine_manager.rs:1734-1769 | after an explicit release no disconnects, timers, reconnects, removals or claims of others give the device the machine back until it asks itself |
| `LeaseStash.NextExactly` | crates/hub/src/machine_manager.rs:1615-1802 | after any step, for every user, machine and device: exactly who holds the machine and whether the device would get it back; a release or a removal takes one machine out of a stash and leaves the others |
| `LeaseStash.StashKeptExactly` | crates/hub/src/machine_manager.rs:1615-1802 | over every run a machine stays in a stash exactly until its device comes back, expires again without it but with something else, gives it up, or the machine is removed |
| `LeaseNews.NewsExactly` | crates/hub/src/machine_manager.rs:1615-1802 | exactly what each operation tells each user of each machine, once |
| `LeasePublishing.RunKeeps` | crates/hub/src/machine_manager.rs:1637-1648 | with claims, restores and removals published later, each by its own thread: published and unpublished changes are in every run those made, each once |
| `LeasePublishing.AgreesExactly` | crates/hub/src/machine_manager.rs:1637-1732 | in every run, once nothing is left to publish, the folded log agrees with the leases about a machine exactly if the change of it published last says what the change made last says |
| `LeasePublishing.RaceFreeRunsAgree` | crates/hub/src/machine_manager.rs:1637-1732 | they agree in every run in which no change of the machine is made while another one of it is unpublished |
| `LeasePublishing.SwappedClaimsAreReached` | crates/hub/src/machine_manager.rs:1717-1732 | a run of the separate steps: two claims, the second published first; the browsers name the first device, the hub obeys the second |
| `LeaseMessages.HeardExactly` | crates/hub/src/ws.rs:101-140 | exactly which messages get through: all of a development socket, a named device's terminal answers and typing, and its other messages if it is in control; afterwards whoever was heard, other than by an answer, is in control |
| `LeaseMessages.ControlEndsExactly` | crates/hub/src/ws.rs:101-140 | a device that holds a machine does so in every state of a run exactly until another one claims it, it gives it up, its last registration expires or the machine is removed; a return within the grace period, whose old timer fires later, does not end it |
| `LeaseMessages.LastOneMeans` | crates/hub/src/machine_manager.rs:1650-1660 | a timer expires the last registration exactly if no socket of the device is open and no other timer runs |
| `LeaseMessages.ControlIsExclusive` | crates/hub/src/ws.rs:101-140 | until then no other device of the user steers the machine |
| `LeaseTable.ControlModes.RegisterDevice` | crates/hub/src/machine_manager.rs:1615-1648 | the mutable form is `RegisterDevice` and keeps the invariant |
| `LeaseTable.ControlModes.RestoreLeases` | crates/hub/src/machine_manager.rs:1627-1636 | the restore loop grants what is restorable, in stash order |
| `LeaseTable.ControlModes.UnregisterDevice` | crates/hub/src/machine_manager.rs:1650-1702 | one count less, or the leases stashed and told of in some order of all those held; the new state is `UnregisterDevice` and keeps the invariant |
| `LeaseTable.ControlModes.Held` | crates/hub/src/machine_manager.rs:1665-1675 | lists the machines the device holds, each once |
| `LeaseTable.ControlModes.RequestControl` | crates/hub/src/machine_manager.rs:1717-1732 | the mutable form is `RequestControl` and keeps the invariant |
| `LeaseTable.ControlModes.ReleaseControl` | crates/hub/src/machine_manager.rs:1734-1769 | the mutable form is `ReleaseControl` and keeps the invariant |
| `LeaseTable.ControlModes.RemoveMachine` | crates/hub/src/machine_manager.rs:348-364 | the mutable form is `RemoveMachine` and keeps the invariant |
| `EventLog.RunValid` | crates/hub/src/machine_manager.rs:1970-1985 | in every interleaving numbers are unique and at most the counter, the ring holds at most 1024 events, and each event is appended and broadcast at most once |
| `EventLog.RunExtends` | crates/hub/src/machine_manager.rs:1970-1985 | the past does not change: the logs grow, and a number once taken belongs to an event already known |
| `EventReplay.ReplayInOrder` | crates/hub/src/machine_manager.rs:2022-2044 | a replay is the visible part of the history past the given number: nothing left out, each entry once, in the order of the history |
| `EventReplay.ResyncExactly` | crates/hub/src/machine_manager.rs:2022-2044 | a resync is asked for exactly if a number between the given one and the oldest kept is missing; then nothing is replayed, else all that is wanted |
| `EventReplay.OrderlyReplaysAscend` | crates/hub/src/machine_manager.rs:2022-2044 | where publishers append in the order of their numbers, in every run the numbers of every replay go up |
| `EventReplay.ReplayRebuilds` | crates/hub/src/machine_manager.rs:2022-2044 | there, a browser that knows the leases as of a number and folds the replay into them has the fold of the whole log |
| `EventLog.NothingMissed` | crates/hub/src/machine_manager.rs:2022-2044 | with the hub taking any steps between subscribing, reading the history and now, every visible published event past a non-zero number is delivered or a resync is asked for, provided the ring lost nothing out of order |
| `EventLog.OutOfOrderEvictionIsMissed` | crates/hub/src/machine_manager.rs:2104-2114 | if the ring let go of an event newer than its oldest, a subscriber from that oldest is told of no gap and never gets it |
| `EventLog.MissesNothingExactlyWhenInOrder` | crates/hub/src/machine_manager.rs:2022-2044 | every subscriber of a user sees all it asked for exactly when the ring lost nothing visible to it out of order |
| `EventLog.FromZero` | crates/hub/src/machine_manager.rs:2105-2107 | with any steps between subscribing, reading and now: a subscription after 0 never asks for a resync and misses exactly the earlier events the ring has let go |
| `EventLog.OrderlyRunsLoseInOrder` | crates/hub/src/machine_manager.rs:1970-1985 | if publishers append in the order of their numbers, the condition always holds |
| `EventSnapshots.SnapshotReflects` | crates/hub/src/machine_manager.rs:1815-1817 | a snapshot shows every change whose event has a number up to the one the snapshot carries |
| `EventSnapshots.SnapshotPlusReplay` | crates/hub/src/machine_manager.rs:1815-1817 | loading a snapshot and subscribing after its number, with any steps in between, misses nothing |
| `EventSnapshots.PublishersMayOvertake` | crates/hub/src/machine_manager.rs:1970-1985 | a concrete run of two overtaking publishers and 1023 later events after which an event is missed without a resync |
| `EventSnapshots.RestartIsMonotone` | crates/hub/src/machine_manager.rs:91-101 | in all runs of the new process its numbers are above those of the old one exactly if the old one gave none past the flushed number plus 200 (past 0 if none was flushed) or none at all; otherwise a number is given twice or goes back |
| `EventSnapshots.RestartGap` | crates/hub/src/machine_manager.rs:2104-2114 | whoever saw a number below that base is told to resync exactly once the new one has published anything, in every run and for every user |
| `EventBus.Bus.constructor` | crates/hub/src/machine_manager.rs:91-135 | numbers continue from the flushed one plus 200, or from 0 |
| `EventBus.Bus.SendEvent` | crates/hub/src/machine_manager.rs:1970-1985 | number, append, trim to 1024, broadcast: the uninterrupted run of the four steps |
| `EventBus.Bus.Subscribe` | crates/hub/src/machine_manager.rs:2022-2044 | exactly when a resync is asked for, and otherwise the wanted part of the history, in order: the answer of `EventLog.Subscribe` |
| `EventBus.Visible` | crates/hub/src/machine_manager.rs:2030-2038 | the filter loop gives what is wanted of the history, each once and in its order |
| `EventBus.SendSteps` | crates/hub/src/machine_manager.rs:1970-1985 | publishing without interruption numbers, appends and trims as one step |
| `Terminals.InsertKeeps` | crates/hub/src/machine_manager.rs:1271-1291 | collecting records by id keeps every record under its own id and every other record as it was |
| `TerminalRuns.RunValidExactly` | crates/hub/src/machine_manager.rs:168-298 | in every overlap of registers, disconnects, reports and other messages, late or not, a machine's live records and its stash are never both non-empty, and an unreported connection has none, exactly as long as no terminal is created under an unreported connection |
| `TerminalOverlaps.StaleDisconnectIsIgnored` | crates/hub/src/machine_manager.rs:233-246 | once a connection has been replaced its disconnect changes nothing, after any further steps |
| `TerminalOverlaps.LateReportTakesBack` | crates/hub/src/machine_manager.rs:1282-1291 | a reached run: a group survives two reconnects, and a late report of the connection that was replaced takes it back |
| `TerminalOverlaps.LateReportDropsStash` | crates/hub/src/machine_manager.rs:1265-1276 | a reached run: a group is kept in the stash, and a late report that finds no connection drops it |
| `TerminalOverlaps.LateCreateReplacesStash` | crates/hub/src/machine_manager.rs:1042-1070 | a reached run: a terminal created late under an unreported connection makes the disconnect of that one overwrite the stash |
| `TerminalNotices.NextRecord` | crates/hub/src/machine_manager.rs:168-305 | the whole record of any terminal after any step: an adopted one is the reported one but for group and title, one put aside is the same but unreachable, and no step changes more |
| `TerminalNotices.NextAgreesExactly` | crates/hub/src/machine_manager.rs:168-305 | if the notices so far, folded, give the hub's record of a terminal, they still do after a step exactly unless it puts a reachable or stashed record aside unnoticed, drops one, reports a stashed one otherwise than as the same made reachable, or ends one that is also stashed |
| `TerminalNotices.NoticesAgreeExactly` | crates/hub/src/machine_manager.rs:168-305 | over every run they do exactly if no step of it misleads |
| `TerminalCards.StepLosesExactly` | crates/hub/src/machine_manager.rs:168-298 | exactly which step loses a known terminal's group or title: a register or disconnect that overwrites the stash holding it, a report that drops or outweighs it, an assignment, title or creation that differs, its end with no equal record in the stash, the removal of its machine |
| `TerminalCards.CardKeptExactly` | crates/hub/src/machine_manager.rs:168-298 | over every run, messages handled late included, a terminal keeps group and title throughout exactly if it meets no such step |
| `TerminalCards.ReconnectsKeepGroupAndTitle` | crates/hub/src/machine_manager.rs:1254-1345 | over any run in which nothing comes late and nobody reassigns, retitles, ends or forgets a terminal, its workspace group and title survive |
| `TerminalRuns.ReportTellsOfEachOnce` | crates/hub/src/machine_manager.rs:1328-1376 | each id stashed or reported gets exactly one of reachable, created, destroyed, according to where it is; no other id gets any |
| `TerminalRuns.ReportLeavesTheReported` | crates/hub/src/machine_manager.rs:1265-1291 | a report on a live connection leaves the stash empty and the reported ids live beside those that were; on time these are none, so exactly the reported ones |
| `TerminalCards.ReportKeepsCardExactly` | crates/hub/src/machine_manager.rs:1265-1291 | with live records and stash apart: a report at any time, with or without a connection, leaves a known terminal its group and title exactly if there is a connection and the terminal is reported and stashed, reported with the same ones, or unreported and live |
| `TerminalStore.Store.RegisterMachine` | crates/hub/src/machine_manager.rs:168-217 | a new connection without records; those of a connection it replaces are stashed as unreachable, in some order: the new state is `Register` |
| `TerminalStore.Store.UnregisterMachine` | crates/hub/src/machine_manager.rs:233-305 | nothing for another connection id; else the records are stashed and told of as unreachable: the new state is `Unregister` |
| `TerminalStore.Store.HandleReport` | crates/hub/src/machine_manager.rs:1254-1378 | stash taken, reported records adopted, arrivals and departures told: the new state is `Report` |
| `TerminalStore.Store.Reconcile` | crates/hub/src/machine_manager.rs:1271-1376 | what the two loops leave behind: the live records, and one notice for each arrival and departure in the order they are told |
| `TerminalStore.Store.AdoptReported` | crates/hub/src/machine_manager.rs:1282-1345 | the loop over reported terminals inserts the adopted records and tells of each |
| `TerminalStore.Store.TellDeparted` | crates/hub/src/machine_manager.rs:1347-1376 | the loop over the stash tells of exactly those not reported |
| `TerminalStore.ById` | crates/hub/src/machine_manager.rs:1271-1274 | collecting the stash by id gives `Insert` into nothing: the last record of each id |
| `Frames.AttachFramesRoundTrip` | crates/protocol/src/lib.rs:601-641 | a frame decodes to an id and data exactly if it is the encoding of that id and data and the id is valid UTF-8 below 65536 bytes |
| `Frames.PreviewFramesRoundTrip` | crates/protocol/src/lib.rs:643-683 | the same for preview frames |
| `Frames.FramesAreNotConfused` | crates/protocol/src/lib.rs:598-683 | no bytes decode both as an attach frame and as a preview frame |
| `Frames.FramesAreLaidOut` | crates/protocol/src/lib.rs:598-656 | byte by byte: one byte of kind, 1 or 2, two of the length of the id, high byte first, the id, the data |
| `Frames.RefusedExactly` | crates/protocol/src/lib.rs:615-641 | which frames are refused, and for which reason, exactly |
| `Utf8.Utf8Exactly` | crates/protocol/src/lib.rs:635-639 | an id is taken for UTF-8 exactly if it encodes a sequence of Unicode scalar values (RFC 3629, section 3) |
| `Coalesce.CoalescedKeeps` | crates/machine/src/hub_conn.rs:64-95 | coalescing changes nothing about what is said, byte by byte and in order, markers and text included, and leaves no two neighbouring frames of one attach |
| `Coalesce.MergedIsCanonical` | crates/machine/src/hub_conn.rs:60-95 | those two facts fix the result: merged messages without empty frames that mean the same are the same |
| `Coalesce.CoalesceBatch` | crates/machine/src/hub_conn.rs:64-95 | the loop over a growing vector computes it |
| `Coalesce.BatchMeaningAppend` | crates/machine/src/hub_conn.rs:420-434 | where a batch ends does not change what is said |
| `Pipeline.RunHub` | crates/hub/src/ws.rs:823-872 | in every run what the hub queued for a compressed attach is a prefix of the frames it saw, for an uncompressed one a subsequence of whole frames, all of them while none was thinned; chunk merging shows the browser exactly the queued bytes |
| `PipelineStreams.SendAllMachine` | crates/machine/src/hub_conn.rs:420-462 | sending a batch keeps the compressed stream in step: frames are the stream of the payloads, payloads plus what is to come are the bytes of the pty, and no byte is compressed outside its markers |
| `PipelineStreams.CompressedReadsAPrefix` | crates/hub/src/ws.rs:823-872 | in every run the bytes shown to the browser of a compressed attach inflate to a prefix of the pty's bytes, and to all of them once nothing is under way and it was never reset |
| `PipelineStreams.UncompressedReadsWholeFrames` | crates/hub/src/ws.rs:823-872 | an uncompressed attach is shown whole frames in order; a prefix of the pty's bytes while none was thinned, all of them once nothing is under way |
| `PipelineFull.ArrivesExactly` | crates/hub/src/ws.rs:823-872 | what becomes of a frame: queued exactly if its attach is routed, the browser there and fewer than 256 chunks wait; otherwise a reset or a drop exactly if it is full, by compression, and nothing if nobody listens |
| `PipelineFull.ListensExactly` | crates/hub/src/ws.rs:823-872 | in every run nothing was dropped and the attach is still served exactly if no frame of it met a full channel, its route was not taken away and the browser did not stop |
| `PipelineFull.UndisturbedReadsAll` | crates/hub/src/ws.rs:823-872 | so a browser that keeps up is shown a prefix of the pty's bytes, and all of them once nothing is under way |
| `PipelineFull.UndisturbedInflatesAll` | crates/hub/src/ws.rs:823-872 | the same for a compressed attach, through its inflater |
| `PipelineEnds.DeadAttachLeavesNothing` | crates/machine/src/hub_conn.rs:420-462 | in every run, once the pty is gone and all was sent, no compressor of the attach is left |
| `PipelineLoops.SendWiresServe` | crates/machine/src/hub_conn.rs:420-462 | with any number of attaches in the loop, each one's compressor and frames are those of its own pipe |
| `PipelineLoops.DispatchRoutes` | crates/hub/src/ws.rs:823-872 | one binary frame moves an attach's pipe as its own frames do, and not at all if it is another's |
| `PipelineLoops.SendLoop.SendBatch` | crates/machine/src/hub_conn.rs:420-462 | the loop over a coalesced batch sends what `SendWires` says |
| `PipelineLoops.DispatchHandles` | crates/hub/src/ws.rs:823-872 | for all attaches at once: a frame waits behind the others exactly if routed, there and fewer than 256 wait; 256 reset a compressed attach and drop the frame of another; else nothing changes |
| `PipelineLoops.Dispatcher.HandleBinary` | crates/hub/src/ws.rs:823-872 | just that, and every attach's shown and waiting bytes stay chunks that came for it, whole and in order, without a hole for a compressed one until its browser is gone |
| `PipelineLoops.Dispatcher.NextMessage` | crates/hub/src/ws.rs:274-302 | what the browser is sent next continues what it was shown, and the invariant of all attaches is kept |
| `PipelineLoops.Merge` | crates/hub/src/ws.rs:274-302 | the merging loop gives the concatenation of the first chunks, all of them or 32 |
| `Router.StepRefinesExactly` | crates/hub/src/attach_router.rs:61-153 | a step keeps the four collections in agreement with what was registered exactly if the id it registers left no trace in `previews` or `compressed` |
| `Router.FreshIdsRefine` | crates/hub/src/attach_router.rs:61-153 | if no id is registered twice they always agree |
| `Router.DroppedPreviewsLinger` | crates/hub/src/attach_router.rs:139-153 | a preview dropped with its machine is still a preview when its id is used again, so the view is not among the main attaches; after an unregister it is |
| `Router.StepTrusted` | crates/hub/src/attach_router.rs:61-153 | every step keeps track of exactly which ids the collections are wrong about |
| `Router.AttachRouter.RegisterWithCompression` | crates/hub/src/attach_router.rs:61-77 | the id is routed as asked, and the collections are wrong about it exactly if it was marked as a preview, or as compressed and is not now; nothing changes for other ids |
| `Router.AttachRouter.RegisterPreviewOf` | crates/hub/src/attach_router.rs:80-95 | the id is routed as a preview, and the collections are wrong about it exactly if it was marked as compressed; nothing changes for other ids |
| `Router.AttachRouter.UnregisterAttach` | crates/hub/src/attach_router.rs:129-135 | the id is no longer routed, and whatever way it is registered next the collections are right about it |
| `Router.AttachRouter.DropAll` | crates/hub/src/attach_router.rs:139-153 | exactly the routes of the machine go, the rest stay, and the marks of previews stay behind |
| `Router.AttachRouter.IsCompressed` | crates/hub/src/attach_router.rs:110-114 | the right answer for every id that is not in doubt |
| `Router.AttachRouter.MainAttachesOf` | crates/hub/src/attach_router.rs:100-108 | all full views of the terminal and no other, of the ids that are not in doubt |
| `ComposerPaste.Validate` | crates/protocol/src/composer.rs:25-55 | a message is accepted exactly if every check holds, and the refusal names exactly the first that fails |
| `ComposerPaste.TwoPassesNormalize` | crates/machine/src/hub_conn.rs:933 | replacing CRLF and then CR gives every line end as one LF |
| `ComposerPaste.NormalizedTame` | crates/protocol/src/composer.rs:36-43 | an accepted text, normalised, has neither ESC nor CR |
| `ComposerPaste.NormalizedKeeps` | crates/machine/src/hub_conn.rs:933 | a text without CR is not changed |
| `ComposerPaste.LineEndsBecomeLf` | crates/machine/src/hub_conn.rs:933 | each CRLF, CR or LF becomes one LF wherever it stands |
| `ComposerPaste.OthersStay` | crates/machine/src/hub_conn.rs:933 | and every other character stays in its place |
| `ComposerPaste.PathTextIsOneWord` | crates/machine/src/hub_conn.rs:986-993 | for every path the shell reads its text as that path, in one word (POSIX.1-2017, Shell Command Language, section 2.2.2) |
| `ComposerPaste.SafeNameIsHarmless` | crates/machine/src/hub_conn.rs:979-984 | a saved name is never empty, at most 180 characters, without control characters and separators |
| `ComposerPaste.FitNamesAreKept` | crates/machine/src/hub_conn.rs:979-984 | only the last part of a name counts, and one that is fit, of at most 180 characters, with no dot first and no space at its ends is kept |
| `ComposerPaste.NamelessFiles` | crates/machine/src/hub_conn.rs:946-953 | a file without a name is called after its place and its type |
| `ComposerPaste.FilesDoNotCollide` | crates/machine/src/hub_conn.rs:957-962 | every file lies directly in the message's directory and no two attachments share a path |
| `ComposerPaste.PrepareComposer` | crates/machine/src/hub_conn.rs:918-977 | preparation succeeds exactly if the message is valid, its files decode within 20 MB and can be saved; the paste is text and one line for each file between the markers |
| `ComposerPaste.DecodeAll` | crates/machine/src/hub_conn.rs:921-932 | accepts exactly if all files decode and total at most 20 MB |
| `ComposerPaste.PreparedPasteReadsBack` | crates/machine/src/hub_conn.rs:918-977 | whatever is written after it, a terminal application reads the paste of a valid message as exactly the text and the file lines |
| `ComposerPaste.BodyIsTextAndPaths` | crates/machine/src/hub_conn.rs:933-977 | the body is the normalised text and then the path of every file, in their order, each on a line of its own |
| `ComposerRuns.RunValid` | crates/hub/src/composer.rs:18-114 | the invariant of hub and machine holds in every run of sends, retries, answers, timeouts, crashes and writes |
| `ComposerRuns.AtMostOnceDelivery` | crates/hub/src/machine_manager.rs:903-937 | in every run an id is dispatched at most once and with the content it was first used for, each message is written at most once, on its own attach only and with nothing between paste and submit key, a stored delivered means it was so written, a stored failed that no byte of it was ever written |
| `ComposerReceipts.OnePlaceOnly` | crates/hub/src/machine_manager.rs:903-937 | over all attaches together, whatever is written of a request is one paste and, right after it, its submit key |
| `ComposerRuns.ReceiptsAreFinal` | crates/hub/src/composer.rs:108-113 | a stored receipt other than unknown never changes, and an id stays bound to its content |
| `ComposerRuns.KnownIdsAreNotResent` | crates/hub/src/composer.rs:45-57 | a send of a known id changes nothing; a new one starts a task exactly if the message is valid and the database took it |
| `ComposerSends.ReceiptsSayWhatWasHeard` | crates/hub/src/composer.rs:18-114 | in every run the known ids are those of the accepted sends; every receipt is what its submission had learnt when it was stored, unknown before; every message dispatched has the content and attach of the first accepted send of its id, by somebody in control |
| `ComposerSends.DispatchedExactly` | crates/hub/src/machine_manager.rs:903-937 | a message is dispatched exactly if the sender is in control, the feature supported and the machine connected |
| `ComposerOrder.WriterServesInOrder` | crates/machine/src/attach.rs:255-285 | in every run, typed text and messages together, an attach's pty has been given what was handed to its writer, in that order and each once, and the rest waits; a dead writer stopped at one command |
| `ComposerReceipts.ReachedExactly` | crates/hub/src/composer.rs:59-113 | in every run, something of a message was written exactly if its request got past the writer's first byte |
| `ComposerReceipts.SpentIsNeverWritten` | crates/hub/src/composer.rs:59-113 | once no submission can dispatch a known message and its requests were refused or failed at the first byte, no byte of it is written in any later run |
| `ComposerReceipts.StoppedBeforeDispatchIsSpent` | crates/hub/src/composer.rs:31-43 | a hub that stops before dispatching a known message makes it so |
| `ComposerReceipts.QueueIsReached` | crates/hub/src/composer.rs:59-113 | the state from which the next two go on is reached from the start |
| `ComposerReceipts.UnknownMayBeDelivered` | crates/hub/src/composer.rs:31-43 | a concrete run in which a message was written and its receipt stays unknown because the hub stopped |
| `ComposerReceipts.DeliveredIsReached` | crates/hub/src/composer.rs:59-113 | and a run in which all goes well ends with the message written once and its receipt delivered |
| `ComposerStore.Receipts.ReserveId` | crates/hub/src/composer.rs:18-57 | an id is fresh once and then bound to its first content; any other content is refused, the same is answered with the stored receipt, and neither changes the table |
| `ComposerStore.Receipts.Update` | crates/hub/src/composer.rs:108-113 | no id is bound to another content by a change of receipts, and a known one has the new receipt |
| `ComposerStore.Receipts.SubmitMessage` | crates/hub/src/composer.rs:59-114 | the machine is asked exactly if the message is valid, the id new, control held and the feature supported; known ids change nothing; the receipt is stored unless the database fails |
| `ComposerStore.AttachWriter.Push` | crates/machine/src/attach.rs:255-258 | a command goes behind those that wait; what was written and what waits stays what was given, in order |
| `ComposerStore.AttachWriter.PerformNext` | crates/machine/src/attach.rs:258-285 | the oldest command is carried out, and what was written and what waits stays what was given, in order; acknowledged exactly a paste whose two writes succeeded; any failure ends the loop |
| `AcpRuns.FlushRan` | crates/machine/src/acp.rs:574-578 | a flush executes the queue in order, each command once, empties it and starts no handshake request |
| `AcpRuns.NextHandshaking` | crates/machine/src/acp.rs:447-468 | every message keeps the handshake invariant |
| `AcpRuns.HandshakeProtocol` | crates/machine/src/acp.rs:847-1009 | in every run at most one handshake request is pending, none once ready; a ready session keeps its id and never fails; a failed one never gets ready and queues nothing |
| `AcpRuns.WatchdogFailsExactly` | crates/machine/src/acp.rs:988-1009 | a watchdog fails the session exactly if its request is unanswered, otherwise it changes nothing |
| `AcpRuns.EventsAreNumbered` | crates/machine/src/acp.rs:1011-1042 | in every run of a new session the events are numbered 1, 2, 3 and so on; the exit is told once if it has ended and never before, and is the last thing told |
| `AcpOrder.NextMoves` | crates/machine/src/acp.rs:525-578 | every message does exactly one of seven things with commands: nothing, run the new one, run the queue, drop the queue, kill, turn the new one away, queue it |
| `AcpOrder.RunAccounted` | crates/machine/src/acp.rs:525-578 | in every run received commands are the executed, killed, dropped and queued ones, each once, and queued ones keep their order |
| `AcpOrder.CommandsRunInTurn` | crates/machine/src/acp.rs:525-578 | main result: each command is executed, discarded or waiting, once; at most 16 wait; queued ones run in order; nothing runs before the session exists; with no model requested everything runs in the order it came |
| `AcpArrival.OrderStaysExactly` | crates/machine/src/acp.rs:525-578 | from any state in which commands ran and wait in order of arrival, a message keeps that so exactly if it is not a command for a ready session while others wait |
| `AcpArrival.ArrivalOrderExactly` | crates/machine/src/acp.rs:525-578 | a whole session, with or without a requested model, keeps order of arrival throughout exactly if no such command comes |
| `AcpModels.QueuedCommandsWaitForTheModel` | crates/machine/src/acp.rs:654-671 | if the agent answers in order, no queued command has run while the create-time set_model is unanswered |
| `AcpModels.AnyModelAnswerFlushes` | crates/machine/src/acp.rs:906-923 | while commands wait for the model, an answer lets them run exactly if it is to any set_model request; they run too early exactly if it is not the awaited one |
| `AcpModels.LaterCommandsOvertake` | crates/machine/src/acp.rs:531-533 | a concrete run in which a command sent while set_model is under way runs before the queued one |
| `AcpModels.OvertakingIsReached` | crates/machine/src/acp.rs:654-671 | the state of that run is reached from a fresh session |
| `AcpModels.OutOfOrderAnswerIsTooEarly` | crates/machine/src/acp.rs:906-923 | from that state, an answer to a model chosen later lets the queued prompt run while the awaited model is unanswered |
| `AcpQuestions.AnsweredAtMostOnce` | crates/machine/src/acp.rs:673-715 | in every run a permission request is answered exactly once, unless it is parked or was replaced by a later one, and then not at all; an automatic run parks and forgets none |
| `AcpQuestions.QuestionsMayBeForgotten` | crates/machine/src/acp.rs:773-845 | a concrete run in which a second request replaces the first, which is not answered |
| `AcpValid.NextSessionValid` | crates/machine/src/acp.rs:447-468 | every message keeps the whole invariant of a session: handshake, numbering, accounting of commands and of questions; it has ended exactly after the end of input |
| `AcpValid.ValidMeans` | crates/machine/src/acp.rs:447-468 | so at any time at most 16 commands wait, exactly one handshake request is open until the session is ready or failed and none after, a failed one has nothing queued, an ended one told its exit once, and all commands are accounted for |
| `AcpSession.SessionActor.constructor` | crates/machine/src/acp.rs:275-297 | a new session is valid and has sent initialize and nothing else |
| `AcpRuns.IssueHandshaking` | crates/machine/src/acp.rs:492-514 | a handshake request sent when none is open, with its number and watchdog, makes it the one that is |
| `AcpSession.SessionActor.HandleCommand` | crates/machine/src/acp.rs:525-550 | the session stays valid, its queue within 16, and says exactly the words of the command; a kill empties the queue, a command of a ready session runs now and next in order, any other waits if there is room and the session has not failed |
| `AcpQuestions.KillQuestions` | crates/machine/src/acp.rs:580-592 | a kill answers the parked question, once, and every question is still accounted for |
| `AcpRuns.PerformRan` | crates/machine/src/acp.rs:552-633 | whatever a command does, it only adds requests that are not the handshake's and leaves session, queue and marks alone |
| `AcpWords.PerformSays` | crates/machine/src/acp.rs:552-633 | exactly what each command tells the hub and the agent, and the question that is parked afterwards |
| `AcpSession.SessionActor.HandleLine` | crates/machine/src/acp.rs:717-755 | whatever the agent says: the session stays valid and says exactly the words of the line, a ready one keeps its id, a failed one is not revived and queues nothing, one handshake request is open exactly until ready or failed, and what ran is not undone |
| `AcpRuns.EmitOutput` | crates/machine/src/acp.rs:1032-1042 | after one more event the events told are still numbered without a gap |
| `AcpSession.SessionActor.FlushQueuedCommands` | crates/machine/src/acp.rs:574-578 | the popping loop is `Flush` |
| `AcpQuestions.PerformQuestions` | crates/machine/src/acp.rs:552-715 | a command answers at most the parked question and once, so every question is still accounted for |
| `AcpModels.ReadyWaiting` | crates/machine/src/acp.rs:654-671 | when the session gets ready, either no model is awaited or none of the queued commands has run |
| `AcpWords.NextSaysExactly` | crates/machine/src/acp.rs:447-1042 | for every state and message, exactly what the hub and the agent are told because of it, and in which order |
| `AcpObeys.AgentHearsWhatRan` | crates/machine/src/acp.rs:552-671 | in every run of a new session the prompts, model choices and cancels written are those of the commands that ran, in that order, with text or model; the model requested at creation comes first if the agent offers any; and the hub was told of exactly the prompts that ran |
| `AcpLetters.LettersAreInOrder` | crates/machine/src/acp.rs:492-845 | in every run requests carry the ids 1, 2, 3 and so on, what is pending was written under its id, and every reply gives the option an automatic run allows for that request, or that a command chose, or none after a kill |
| `AcpCourse.NextFollows` | crates/machine/src/acp.rs:847-1030 | exactly which messages make the session ready and under which id, fix whether it has models, hold updates back, fail it or end it |
| `AcpCourse.UpdatesHeldBackExactly` | crates/machine/src/acp.rs:757-771 | in every run that has not failed, updates are held back exactly while session/load is unanswered |
| `AcpQuestions.PermissionQuestions` | crates/machine/src/acp.rs:773-845 | a permission request is answered, parked, or parked over another one that is then noted as forgotten: all stay accounted for |
| `AcpRuns.ResponseHandshaking` | crates/machine/src/acp.rs:847-858 | any response, to an open request or not, keeps the handshake invariant |
| `AcpRuns.HandshakeResult` | crates/machine/src/acp.rs:859-924 | the answer to a handshake request opens the next one or makes the session ready, never both |
| `AcpRuns.HandshakeError` | crates/machine/src/acp.rs:927-957 | a refused handshake request is followed by one new session request or fails the session |
| `AcpSession.SessionActor.OnHandshakeTimeout` | crates/machine/src/acp.rs:988-993 | a watchdog fails the session exactly if its request is unanswered; otherwise queue, output and requests stay; nothing runs and the session stays valid |
| `AcpSession.SessionActor.OnEof` | crates/machine/src/acp.rs:1011-1030 | the exit is the last thing told, nothing waits any more, nothing more has run, and the session is valid |
| `AcpSession.SessionActor.HandleAll` | crates/machine/src/acp.rs:449-467 | the loop over messages is `Run` and keeps the session valid |
| `OscTitles.CutIsUnique` | crates/machine/src/osc_title.rs:149-161 | the sanitised title is the one prefix of whole characters that fits 128 bytes and could not be longer |
| `OscTitles.SanitizeTitle` | crates/machine/src/osc_title.rs:149-161 | the filtering and cutting loop computes it |
| `OscTitles.ChunksDoNotMatter` | crates/machine/src/osc_title.rs:31-33 | scanning two chunks gives the state and the titles of scanning them together |
| `OscTitles.AlwaysBounded` | crates/machine/src/osc_title.rs:92-123 | in every reachable state the buffer holds at most 128 bytes and the counters are below 4096 |
| `OscTitles.InTitleExactly` | crates/machine/src/osc_title.rs:46-133 | the scanner is inside a title, n bytes in, exactly if the input ends in an introducer and n bytes of body, whatever came before; it then holds exactly the body's kept bytes |
| `OscTitles.KeptIsVisible` | crates/machine/src/osc_title.rs:92-123 | and these are the first 128 of the body's bytes that are no control bytes and do not follow an escape |
| `OscTitles.ControlsDropped` | crates/machine/src/osc_title.rs:149-161 | of a title's text exactly the control characters are dropped, all others stay in their places |
| `OscTitles.CompletesExactly` | crates/machine/src/osc_title.rs:86-107 | a byte completes a title exactly if it terminates such a body |
| `OscTitles.IntroducerAlwaysHeard` | crates/machine/src/osc_title.rs:38-85 | an introducer is recognised in every state and completes no title |
| `OscTitles.TitleSequenceHeard` | crates/machine/src/osc_title.rs:31-137 | after any input a title sequence adds its title and nothing else if its body is short enough for its terminator, and nothing otherwise; the scanner is then idle |
| `OscTitles.PrintableTitleHeard` | crates/machine/src/osc_title.rs:31-161 | for printable ASCII of length 1 to 4095 (4094 before ESC \\) the title is its first 128 characters; shorter or longer bodies give none |
| `OscTitles.OscTitleScanner.PushTitle` | crates/machine/src/osc_title.rs:142-147 | adds the sanitised title unless it is empty |
| `OscTitles.OscTitleScanner.Push` | crates/machine/src/osc_title.rs:31-137 | the loop over a chunk computes the state and titles of the state functions |
| `CodexOwners.ReachedExactly` | crates/machine/src/codex_title.rs:72-92 | a process is reached exactly if it is the root or a child of a reached process that is no codex |
| `CodexOwners.OwnedCodexes` | crates/machine/src/codex_title.rs:66-92 | on every table, cyclic or not, the worklist ends with exactly the codex processes reached from the root through no other codex, each once |
| `CodexOwners.RolloutIdentityExactly` | crates/machine/src/codex_title.rs:108-118 | a rollout file under home/sessions/x/y/z names its home and thread |
| `CodexOwners.TitleOf` | crates/machine/src/codex_title.rs:93-104 | a pane gets a title exactly if it owns one codex and that codex has one rollout open, whose title can be read |
| `CodexOwners.ResolveWith` | crates/machine/src/codex_title.rs:59-106 | the new table holds exactly the panes that have such a title |

## Left out

- Message ids running out (2^64), and a failing cipher or sink, which end the writer with an error.
- The record header's bytes: its fields are a datatype, and Noise encryption an ordered stream of records.
- Permits granted in parts to a waiting sender: acquiring is one step.
- `OutboundFairness.NoStarvation`: heartbeats are not counted, since they overtake everything by design.
- Event receivers that lag by more than 256 and reconnect; the snapshot's own cells: a change is a number.
- `EventBus.Bus.SendEvent`: one publisher without interruption; overlapping publishers are in `EventLog`.
- Ports, sizes, attention and resource data of terminals, visibility by user, and pruning of automatic tabs.
- `TerminalCards.ReconnectsKeepGroupAndTitle`: for runs in which no message of a replaced connection is handled late; the others are in `CardKeptExactly`.
- `TerminalStore.Store.HandleReport`: taking the stash and reconciling it are one step.
- `LeaseRuns.RunKeeps`: each operation is one step; publishing after the lock is in `LeasePublishing`.
- `LeaseMessages.ControlIsExclusive`: checking who is in control and passing the message on are one step.
- deflate itself: a compressor is a function of what it has seen, and the inflater's contract is `Inflates`; for other attaches `Pipeline` keeps the payload where `PipelineLoops` has the compressed frame.
- `PipelineStreams.CompressedReadsAPrefix`: one life of one attach id; ids are fresh, and routes do not survive a new connection of the machine.
- Socket writes that fail half way; the browser's receipts and its resync request after thinning.
- Resize and refresh commands to an attach; input is text that goes through the same writer.
- SHA-256: a digest is taken as the message itself. JSON: messages are datatypes.
- The receipt's text, and submissions refused because too many are under way.
- `ComposerPaste.PrepareComposer`: base64, directories and files are parameters; which characters beyond ASCII are letters is one too.
- UTF-8 decoding in titles beyond ASCII is a parameter; the debounce and the source of titles.
- `CodexOwners.ResolveWith`: reading open files and the state database are parameters; the order of rollouts is not modelled, only whether there is exactly one.
- The models and modes an agent advertises, beyond whether there are any; the text of errors; how an automatic run picks the option it allows; a `session/new` result without `sessionId`.
- `AcpModels.QueuedCommandsWaitForTheModel`: for agents that answer in order; what an answer out of order does is in `AnyModelAnswerFlushes`.
- Spawning, tmux, SQLite, JWT, OAuth, the command line, the web interface and service installation.
