# Verified model of the connection machinery

This project models the connection machinery of `atomic_websocket` in its default
build (`native-db` and `bebop`) and proves what it keeps over every run. To verify:
`dafny verify dfyconfig.toml`.

| module | what it models |
|---|---|
| `Wire` | the two-byte category frame and the Bebop records: little-endian integers, u32-prefixed byte arrays and UTF-8 strings |
| `Outboxes` | one outgoing channel, its blocked senders, the handler's opening Ping, and the writer loop that ends at the first Disconnect or undersized frame |
| `ServerSenders`, `ConnectProtocol` | the client's single-flight guard: any number of triggers, dials, sessions, drop-resets, scans, sends and evictions, interleaved |
| `HandlerQueues` | the bounded channel with a bounded spillover behind it, in front of the application |
| `Counters`, `Registries`, `ClientSenders` | the server's map of peers and its metrics, changed in place |
| `Broadcasts`, `BroadcastRuns`, `GaugeRuns`, `SweepRuns` | a broadcast in any completion order, and with its sends split and others in between; the `connections_active` gauge under interleaving; the timeout sweep over time |
| `PingLoops`, `Backoffs` | the health checker, the exponential backoff and the client's send loop |
| `Addresses`, `ConnectionStores` | ports and URLs as strings; the stored `(address, port)` record over any history |
| `ServerReaders`, `Sessions` | the server's reader task as a function of its message stream; accepted sessions against the connection cap |
| `ScanManagers` | overlapping subnet scan rounds under a semaphore and a stop flag |

Async code is split at its lock releases and `.await`s. Concurrent parts are
state machines: `Next(state, step)` is `None` when the step is not enabled, and
`Run` folds it over any list of steps, so a statement about `Run` is about every
interleaving. Tasks are an unbounded map from an id to a program counter; a tokio
`mpsc` is a bounded sequence with an open flag and, where senders may block, the
senders that own a slot and those that wait for one; a `DashMap` is a map; time
is an integer number of seconds. Dials, handshakes and socket writes succeed or
fail freely. Where the source changes fields in place the model is a class or a loop,
and its methods are proved against the same functions that the state machines
step by.

The steps allow more than the code does: a connection attempt may be spawned at
any moment by anyone, a scan's dial task for any allowed address at any moment while the scan runs, a store of
an address may happen long after it was decided. What is proved of all these
runs holds of the code's runs.

Assumptions, each of which the source relies on:

- Application code does not write `is_try_connect`, `is_scanning` or `sx`, and
  does not call `add` itself.
- `spillover_buffer_size` stays what it was at construction.
- A scan is not cancelled while it runs.
- The clock never goes back.
- A tokio `mpsc` gives free slots to blocked senders in the order they asked.
- For the timing bounds (`PingLoops`, `SweepRuns`) a loop body takes no time, and
  a tick that is due comes before time moves on.

Where comments and code differ the model follows the code. The comment on
`check_client_send_time` speaks of 30 seconds; the code uses
`client_timeout_seconds`. The comment on `send` of the client registry still
mentions a retry; the code makes one attempt with a timeout.

## Model

| member | source | states |
|---|---|---|
| ConnectProtocol.OneAttemptAtATime | src/helpers/get_internal_websocket.rs:54-86 | In every reachable state `is_try_connect` is true exactly when some task holds the guard or still owes its drop-reset, never two tasks do, and the same holds of `is_scanning` and the scan between its claim and release |
| ConnectProtocol.StepKeepsSingleFlight | src/helpers/get_internal_websocket.rs:142-177 | Every step of every task (claim, dial, failure, session, drop, cancellation, reset, eviction, scan) keeps guards held plus resets pending at 1 when the flag is set and 0 when not |
| ConnectProtocol.StepKeepsSingleScan | src/helpers/internal_client.rs:214-238 | Every step keeps the number of scans between claim and release at 1 when `is_scanning` is set and 0 when not |
| ConnectProtocol.ClaimNeedsFreeGuard | src/helpers/internal_client.rs:240-270 | A task comes to hold the guard only by its own claim, and then nothing held or owed it; a scan's stream has no other way into a session |
| ConnectProtocol.LateResetIsHarmless | src/helpers/get_internal_websocket.rs:77-86 | A reset spawned by a dropped guard finds the flag still its own however late it runs: no attempt holds the guard before or after it |
| ConnectProtocol.AttemptMoves | src/helpers/get_internal_websocket.rs:132-179 | How the task of an attempt or a scan may move at any step, exactly: what a lost claim, a won one, a dial's success or failure by route, an eviction, an exit and a cancellation each lead to |
| ConnectProtocol.WritesExactly | src/helpers/server_sender.rs:260-272 | Which steps write which part of the shared record and with what: only `add` installs a sender and its URL, only an eviction takes them, only a claim sets a flag and only the matching release clears it |
| ConnectProtocol.InternalDialFailure | src/helpers/get_internal_websocket.rs:166-175 | In every run without a cancellation, an internal attempt whose dial failed is evicted for on its way to its reset, and by then the sender and the address are gone |
| ConnectProtocol.FailedInternalDialEvicts | src/helpers/get_internal_websocket.rs:166-175 | The induction behind it, whatever other tasks do meanwhile: until the reset nothing brings a sender or an address back |
| ConnectProtocol.ExternalDialFailure | src/helpers/get_outer_websocket.rs:167-187 | A failed external dial changes nothing in the shared record, and sender and address stay until the reset unless someone else evicts |
| ConnectProtocol.SuccessfulAttempt | src/helpers/get_internal_websocket.rs:142-165 | From any state with the guard free, an attempt that claims, connects and adds ends up owning the guard, the sender and its URL |
| ConnectProtocol.RunningLoopOwnsSender | src/helpers/get_internal_websocket.rs:213-328 | While a writer loop runs, the stored `sx` is its own channel, or gone with a Disconnect for that channel pending, blocked, queued or being written |
| ConnectProtocol.AddDisplacesOnlyEndedLoops | src/helpers/server_sender.rs:260-264 | When `add` is reached no writer loop is running, so the channel it displaces belongs to an ended one |
| ConnectProtocol.EvictionIsFinal | src/helpers/server_sender.rs:267-272 | `remove_ip` during a session always takes `sx` and has a Disconnect on its way; in every continuation in which that loop still runs, `sx` is still empty and that Disconnect still on its way |
| ConnectProtocol.EvictedStaysEvicted | src/helpers/server_sender.rs:244-272 | From any state past a session's `add` with `sx` gone, no run of any tasks gives that session's running loop a sender again |
| ConnectProtocol.NoticedLoopEnds | src/helpers/server_sender.rs:244-252 | From any reachable state, once an evicted session's notice is sent, its loop exits within 2 * (channel slots + senders blocked before it) + 5 of its own steps, whatever all other tasks do |
| ConnectProtocol.DueLoopEnds | src/helpers/get_internal_websocket.rs:286-307 | The same, within 2 * (channel slots + blocked senders) + 3, from any reachable state in which the Disconnect is already blocked, queued or being written |
| ConnectProtocol.EndingLoopEnds | src/helpers/get_internal_websocket.rs:286-307 | The induction behind both, over every run of all tasks |
| ConnectProtocol.GuardOwnerMoves | src/helpers/get_internal_websocket.rs:132-328 | In every reachable state, whoever holds or owes the guard has a step of its own to take, or a sender with a slot in its channel has, unless it waits to send its opening Ping into a channel whose every slot holds a frame |
| ConnectProtocol.ChokedSessionHoldsGuard | src/helpers/get_internal_websocket.rs:215-221 | In that case no run of any tasks, evictions included, ever moves it, short of its task being dropped: the loop never starts, nothing is taken or written, and the guard stays held |
| ConnectProtocol.ChokedIsReachable | src/helpers/get_internal_websocket.rs:213-221 | A concrete run into that case: one slot, and one frame sent by another task between `add` and the Ping |
| ConnectProtocol.OpensOnlyByPing | src/helpers/get_internal_websocket.rs:216-225 | With pings on and the sender still stored, a session gets past its opening only by asking for its own Ping's slot and then by that Ping being queued |
| ConnectProtocol.NoticePersists | src/helpers/server_sender.rs:244-252 | No step loses a Disconnect meant for a running loop: it stays a waiting task, a blocked `send`, in the queue, or in the loop's hand |
| ConnectProtocol.DisplacedIsNotified | src/helpers/server_sender.rs:244-272 | Whatever step changes a stored `sx` leaves a Disconnect notice for the channel that was there |
| ConnectProtocol.LoopKeepsSender | src/helpers/get_internal_websocket.rs:286-327 | Inductive step for the owner of `sx`, over all tasks' steps |
| ConnectProtocol.FlagFollowsTask | src/helpers/get_internal_websocket.rs:54-86 | In every step the flag changes exactly as the acting task's debt to reset it does |
| ConnectProtocol.DebtsAfter | src/helpers/get_internal_websocket.rs:77-86 | The number of tasks that hold the guard or owe a reset changes by the acting task's share only |
| ConnectProtocol.OneOwner | src/helpers/get_internal_websocket.rs:54-70 | Two tasks that each hold the guard or owe a reset are the same task |
| ConnectProtocol.StepKeepsAddresses | src/helpers/server_sender.rs:260-272 | A stored sender always comes with a non-empty address and an existing channel, so `remove_ip`'s test of the address never leaves a sender behind |
| ConnectProtocol.StepKeepsInv | src/helpers/get_internal_websocket.rs:132-328 | The whole invariant is kept by every step |
| ConnectProtocol.RunKeepsInv | src/helpers/get_internal_websocket.rs:132-328 | The whole invariant is kept by every run |
| ConnectProtocol.ClientWiresStop | src/helpers/get_internal_websocket.rs:286-322 | In every reachable state, each client connection's wire is what the writer loop alone makes of the frames it took from its channel, which are the first ones the channel accepted: a prefix with nothing after the first Disconnect or undersized frame, short only for a failed write, an ended stream or a dropped task |
| ConnectProtocol.EndedLoopStaysEnded | src/helpers/get_internal_websocket.rs:286-328 | A writer loop that has ended never runs again, whatever runs after it |
| ServerSenders.ServerSender.constructor | src/helpers/server_sender.rs:184-208 | Starts with no sender, no message time and both flags clear |
| ServerSenders.ServerSender.TryAcquire | src/helpers/get_internal_websocket.rs:58-70 | Wins exactly when the flag was clear, leaves it set, and touches nothing else |
| ServerSenders.ServerSender.TryBeginScan | src/helpers/internal_client.rs:214-220 | Wins exactly when no scan was running, and leaves `is_scanning` set |
| ServerSenders.ServerSender.SxDrop | src/helpers/server_sender.rs:244-252 | There is no sender afterwards, and a notice for the one there was, if any, with the address it was stored under |
| ServerSenders.ServerSender.AddChannel | src/helpers/server_sender.rs:260-264 | Installs the new sender and address, with a notice for a displaced sender that names the old address |
| ServerSenders.ServerSender.ClearIp | src/helpers/server_sender.rs:267-272 | For a non-empty address the sender and the address are both gone afterwards, with a notice for that sender under that address; for an empty one nothing changes |
| Outboxes.WriterLoop | src/helpers/internal_server.rs:590-606 | The writer loop, proved against an independent relation: the wire is a prefix of what arrived, no stopping frame before its last, and shorter than what arrived only for a stopping frame, which is said in bytes, or a failed write |
| Outboxes.LoopOutputUnique | src/helpers/internal_server.rs:590-606 | That relation leaves a writer loop no choice of output |
| Outboxes.StopsExactlyWhen | src/helpers/internal_server.rs:593-605 | In bytes: a frame ends the loop exactly when it has fewer than two bytes or starts with the code 10003, low byte first |
| Outboxes.StepKeepsValid | src/helpers/get_internal_websocket.rs:286-322 | With any number of producers, blocked or not, queue and slots stay within the capacity, nobody waits while there is room, what was taken and what is queued together are what was accepted, in order, and only the wire's last frame can be a stopping one |
| Outboxes.RunKeepsValid | src/helpers/get_internal_websocket.rs:286-322 | The same over every interleaving of producers and writer |
| Outboxes.InterleavedLoopOutput | src/helpers/get_internal_websocket.rs:286-322 | The interleaved loop puts on the wire what the loop alone would have for the frames it took and the same failed write, stops short of them only for a recorded cause, and when idle with an empty queue has written everything accepted |
| Outboxes.DoomedLoopEnds | src/helpers/get_internal_websocket.rs:292-307 | Once a stopping frame is being sent, even by a sender blocked behind any number of others, the loop ends within a number of its own steps fixed at that moment, however many frames producers add |
| Outboxes.StepKeepsDoom | src/helpers/get_internal_websocket.rs:292-307 | No producer delays a stopping frame on its way, and every writer step brings it nearer, unless its sender has a slot and only lacks a turn |
| Outboxes.StepsLeftBound | src/helpers/get_internal_websocket.rs:286-322 | That number is at most 2 * (channel slots + blocked senders) + 1, and up to 2 more while the handler's own Ping is not through |
| Outboxes.AwaitedSenderCanRun | src/helpers/internal_server.rs:585-586 | A sender whose slot is there can always put its frame, and one turn of it settles the matter |
| Outboxes.OpensExactlyWhen | src/helpers/get_internal_websocket.rs:215-221 | As long as no other sender gives up, the client's handler gets past its own Ping, and its loop can start, if and only if a slot is free at the moment it asks |
| Outboxes.StalledStays | src/helpers/get_internal_websocket.rs:215-221 | With no slot free it waits through every run in which nobody gives up, since only its own loop would free one |
| Outboxes.ChokedStays | src/helpers/get_internal_websocket.rs:215-221 | With every slot holding a frame, not even senders that give up help it |
| Outboxes.UnchokedMoves | src/helpers/get_internal_websocket.rs:286-322 | Past the Ping's start and in no such state, the handler or a sender with a slot always has a step to take |
| Outboxes.StepKeepsDue | src/helpers/server_sender.rs:244-252 | A Disconnect blocked, queued or in hand is never lost while the loop runs |
| Outboxes.DisconnectStops | src/helpers/common.rs:228-234 | Every Disconnect frame, for any peer name, ends the loop that writes it |
| Outboxes.HealthTrafficDoesNotStop | src/helpers/common.rs:242-244 | No Ping and no Pong ever ends the loop that writes it |
| HandlerQueues.HandlerQueue.SendHandleMessage | src/helpers/client_sender.rs:222-261 | The drain-then-send-or-spill code computes exactly one `Offer`, with the consumer active between any two `try_send`s |
| HandlerQueues.HandlerQueue.DrainSpillover | src/helpers/server_sender.rs:309-317 | The drain loop computes `Drain`, the consumer active in every gap |
| HandlerQueues.HandlerQueue.TrySend | src/helpers/client_sender.rs:230-235 | Closed, full or appended, and the channel changes only when appended |
| HandlerQueues.HandlerQueue.Buffer | src/helpers/client_sender.rs:253-260 | Appends to the spillover below its cap and counts a drop at it |
| HandlerQueues.DrainKeepsOrder | src/helpers/server_sender.rs:309-317 | Draining never reorders, and stops short only at a channel full or closed at that instant |
| HandlerQueues.OfferAccounts | src/helpers/client_sender.rs:222-261 | In every interleaving a call accepts its message at the end of the order, or counts a drop with the spillover full and the channel full or closed at one instant, or loses it to a closed channel |
| HandlerQueues.LostExactlyWhen | src/helpers/server_sender.rs:319-332 | In every interleaving a call loses its message if and only if it ends with the channel closed and nothing spilled, and then it accepts and drops nothing |
| HandlerQueues.ClosedChannelLoses | src/helpers/client_sender.rs:239-260 | Behind a closed channel, whatever the consumer does: with nothing spilled the message is lost and the spillover stays empty; otherwise it is spilled up to the cap and then dropped |
| HandlerQueues.OfferRefines | src/helpers/server_sender.rs:305-342 | While the channel stays open a call is one offer to a plain FIFO of capacity C+S after the consumer's takes |
| HandlerQueues.AtomicOfferAccepts | src/helpers/server_sender.rs:319-341 | With whole calls atomic a message is accepted exactly when channel and spillover together are below C+S |
| HandlerQueues.TakeRefines | src/helpers/client_sender.rs:222-261 | A receive from the channel is a take from the front of the FIFO |
| HandlerQueues.ApplyConserves | src/helpers/client_sender.rs:222-261 | Each operation extends the accepted messages by exactly the message it kept, if any |
| HandlerQueues.RunConserves | src/helpers/client_sender.rs:222-261 | The accounting over every run of producers, consumer, closing and status drops |
| HandlerQueues.RunLosesExactly | src/helpers/server_sender.rs:319-332 | Over every run the losses are exactly the calls that ended so |
| HandlerQueues.EveryMessageAccountedFor | src/helpers/server_sender.rs:286-342 | From empty: delivered ++ channel ++ spillover is the kept messages in lock order; received = kept + counted drops (less the status drops sharing the counter) + losses; both bounds hold |
| HandlerQueues.RunRefinesFifo | src/helpers/client_sender.rs:222-261 | Every run with the channel open to its end is a run of one plain FIFO of capacity C+S: same contents, deliveries and drops |
| Counters.DecBy | src/helpers/metrics.rs:75-85 | k saturating decrements lower the gauge by k, or to zero |
| Counters.Metrics.constructor | src/helpers/metrics.rs:32-34 | All counters start at zero |
| Counters.Metrics.DecConnectionsActive | src/helpers/metrics.rs:75-85 | Lowers the gauge by one and stops at zero |
| ClientSenders.ClientSenders.constructor | src/helpers/client_sender.rs:94-105 | No peers, nothing sent, all counters zero |
| ClientSenders.ClientSenders.Add | src/helpers/client_sender.rs:121-182 | Stores the new channel and time, offers the replaced channel one Disconnect, counts a connection, and raises the gauge only for a new peer |
| ClientSenders.ClientSenders.RemovePeer | src/helpers/client_sender.rs:296-301 | Removes the peer and lowers the gauge, only if it was there |
| ClientSenders.ClientSenders.RefreshTime | src/helpers/client_sender.rs:312-316 | Changes that peer's time and nothing else |
| ClientSenders.ClientSenders.Send | src/helpers/client_sender.rs:516-523 | True exactly when the peer was there and its channel took the message; false leaves the peer unregistered; the whole registry is as `CompleteSend` says |
| ClientSenders.ClientSenders.SendToSnapshot | src/helpers/client_sender.rs:549-567 | For any snapshot and any completion order, each snapshot peer still registered gets one copy and a new time or is removed and is counted once; one that is gone changes nothing, and all else is untouched |
| ClientSenders.ClientSenders.SweepEntry | src/helpers/client_sender.rs:278-284 | Keeps the entry exactly when its time plus the timeout is not past |
| ClientSenders.ClientSenders.CheckClientSendTime | src/helpers/client_sender.rs:271-285 | Whatever order the map is visited in, exactly the entries with time + timeout at or after now remain and the gauge falls by the number removed, stopping at zero |
| ClientSenders.ClientSenders.Peers | src/helpers/client_sender.rs:417-422 | Every registered peer, once |
| ClientSenders.ClientSenders.PeersIn | src/helpers/client_sender.rs:434-440 | Exactly the registered peers of the given set, each once |
| ClientSenders.ClientSenders.PeersExcept | src/helpers/client_sender.rs:425-431 | Exactly the registered peers outside the given set, each once, so that with the former it partitions the peers |
| ClientSenders.SweepOneMore | src/helpers/client_sender.rs:278-284 | One decision of the sweep extends what is already decided, gauge included |
| Broadcasts.CompleteDelivers | src/helpers/client_sender.rs:549-556 | Sends completing one after another, in any order, come to the order-free description of a broadcast over the part of the snapshot found at lookup: registry, every channel's contents and all counters |
| Broadcasts.DeliveredUnique | src/helpers/client_sender.rs:549-556 | That description fixes the whole resulting state |
| Broadcasts.OrderDoesNotMatter | src/helpers/client_sender.rs:538-567 | Any two completion orders of `join_all` reach the same registry, channels and counters |
| Broadcasts.EveryPeerIsCounted | src/helpers/client_sender.rs:356-375 | `messages_sent` + `send_errors` rises by the number of snapshot peers found at lookup |
| BroadcastRuns.EachFoundPeerIsCounted | src/helpers/client_sender.rs:356-375 | With each send split into lookup, end and settlement, and any registry operations of other tasks in between: once all are done, the counters rose by the peers registered at their own lookup and by what others sent |
| BroadcastRuns.StepKeepsCount | src/helpers/client_sender.rs:516-523 | Only the end of a send counts, and once for a peer |
| BroadcastRuns.RunKeepsCount | src/helpers/client_sender.rs:516-523 | The count law over every such run |
| BroadcastRuns.OtherEntriesUntouched | src/helpers/client_sender.rs:516-523 | A broadcast's own step concerns the entry of its own peer alone |
| BroadcastRuns.FailedSendRemovesWhoeverIsThere | src/helpers/client_sender.rs:516-523 | A send that fails or finds nobody removes by peer id, so whatever other task registers under it in between goes too, and no other peer does |
| BroadcastRuns.InterleavedBroadcast | src/helpers/client_sender.rs:549-556 | However the lookups, ends and settlements of one broadcast interleave, they reach exactly the registry, channels and counters of whole sends one after another |
| BroadcastRuns.RunKeepsDelivery | src/helpers/client_sender.rs:549-556 | In every state on the way, clients are as far as the settled sends and channels and counts as far as the ended ones |
| GaugeRuns.UninterruptedCalls | src/helpers/client_sender.rs:144-181 | With nothing in between, the split `add` and `remove` are the whole ones |
| GaugeRuns.SweepStepIsSweep | src/helpers/client_sender.rs:271-285 | One step of the sweep removes its entry if and only if the whole sweep would |
| GaugeRuns.RunKeepsLaw | src/helpers/client_sender.rs:144-181 | In every interleaving: gauge + counts to come + inserts that saw "replacing" but found nothing = clients + decrements to come + inserts that saw "new" but overwrote + decrements at zero |
| GaugeRuns.StepKeepsLaw | src/helpers/client_sender.rs:271-301 | Each step of `add`, `remove`, sweep and refresh keeps that law |
| GaugeRuns.GaugeIsRightExactlyWhen | src/helpers/client_sender.rs:144-181 | With no call part-way, the gauge equals `len()` if and only if the accidents cancel out |
| GaugeRuns.UndisturbedGaugeIsExact | src/helpers/client_sender.rs:144-181 | If no operation on a peer falls inside an `add` of that peer, the gauge is `len()` whenever no call is part-way, and never off by more than the pending calls |
| GaugeRuns.SparingRunOnlySaturates | src/helpers/client_sender.rs:144-165 | If operations only keep out of the time from an `add`'s lookup to its insert, no insert is mistaken about its peer, and at rest the gauge is `len()` plus the decrements that met a zero |
| GaugeRuns.NeverSaturates | src/helpers/metrics.rs:75-85 | In such a run no decrement ever meets a zero gauge |
| GaugeRuns.StepKeepsCalm | src/helpers/client_sender.rs:144-181 | Such a run's steps cause none of the three accidents |
| GaugeRuns.RunKeepsCalm | src/helpers/client_sender.rs:144-181 | The same over whole runs |
| GaugeRuns.OverlappingAddsMiscount | src/helpers/client_sender.rs:144-181 | A concrete run of two overlapping `add`s of one peer that ends with gauge 2 and one client |
| GaugeRuns.RemovalBeforeCountMiscounts | src/helpers/client_sender.rs:144-181 | A concrete run in which a removal between insert and count leaves gauge 1 and no client, so that term is needed and the undisturbed window must last until the count |
| SweepRuns.StalePeersAreGone | src/helpers/internal_server.rs:268-292 | A peer last refreshed at t is registered at no time after t + T + I, and the sweep due at that instant removes it |
| SweepRuns.SweepRemovesExactlyTheStale | src/helpers/client_sender.rs:271-285 | Over every run, a sweep removes a peer if and only if it was neither registered nor sent to within T, and leaves the gauge at the number of peers left |
| SweepRuns.RunKeepsInv | src/helpers/internal_server.rs:273-289 | The next sweep is never later than any registered peer's refresh + T + I, and the gauge is the number of peers |
| PingLoops.PingLoop.constructor | src/helpers/internal_client.rs:427-430 | The retry period is at least 1 and the interval starts at it |
| PingLoops.PingLoop.Tick | src/helpers/internal_client.rs:440-489 | One turn: the verdict by seconds of silence, the interval doubled up to 8 periods, kept or reset, eviction of a stored sender and address unless the address is kept, reconnection exactly on a dead verdict, ping exactly in the ping window with pings on |
| PingLoops.IntervalIsBackoff | src/helpers/internal_client.rs:427-430 | In every run the interval is the retry period times min(2^k, 8), where k counts the dead ticks since the last alive one |
| PingLoops.DeadVerdictInTime | src/helpers/internal_client.rs:440-487 | Silence since t is declared dead at t + 12r at the latest, at t + 5r if some tick since saw the connection alive |
| PingLoops.DeadVerdictNotEarly | src/helpers/internal_client.rs:509-575 | A dead verdict needs a first message and more than 4r of silence, and after an alive tick exactly two ticks in the ping window |
| PingLoops.RunKeepsInv | src/helpers/internal_client.rs:427-489 | The relation between silence, interval and ping ticks that the bounds follow from, over every run |
| PingLoops.UnhealthyIsNotValid | src/helpers/server_sender.rs:567-578 | At a dead or ping verdict `is_valid_server_ip` is false for the same timestamp, for every `retry_seconds` |
| PingLoops.ValidExactlyWhen | src/helpers/server_sender.rs:567-578 | An address is valid if and only if it is there and silence is under 2r; after a first message that is while a tick would find it alive, save at exactly 2r |
| Backoffs.DelayClosedForm | src/helpers/retry.rs:58-66 | After the first, the n-th sleep is min(initial * 2^n, max) |
| Backoffs.TotalDelayBelowCap | src/helpers/retry.rs:58-66 | Below the cap n sleeps add up to initial * (2^n - 1) |
| Backoffs.ExponentialBackoff.constructor | src/helpers/retry.rs:37-46 | Starts before its first sleep, with the cap in milliseconds |
| Backoffs.ExponentialBackoff.Wait | src/helpers/retry.rs:58-66 | Sleeps the next delay of the sequence, at most `max_count` times in all |
| Backoffs.ExponentialBackoff.Reset | src/helpers/retry.rs:70-73 | Back to before the first sleep |
| Backoffs.ClientSend | src/helpers/server_sender.rs:504-558 | Ends with the first attempt that is taken, or after a number of refused ones that is stated exactly: as many as `retry_seconds`, between 2 and 6; the sleep in between and the one counter it moves are stated exactly |
| Backoffs.RetryLimit | src/helpers/server_sender.rs:504-511 | Between 1 and 5 retries for every `retry_seconds` |
| Backoffs.AttemptsAllowed | src/helpers/server_sender.rs:504-511 | One attempt more than retries is `retry_seconds`, kept between 2 and 6 |
| Backoffs.RetriesFitRetryPeriod | src/helpers/server_sender.rs:504-558 | The total sleep is under max(retry_seconds, 1) seconds for every `retry_seconds` |
| Addresses.LastColon | src/helpers/server_sender.rs:45-51 | The position of the last colon, or -1 when there is none |
| Addresses.PortOfUrl | src/helpers/server_sender.rs:45-51 | For any host and digit port, "ws://host:port" with any trailing slashes parses to the port |
| Addresses.PortBehindScheme | src/helpers/server_sender.rs:45-51 | Putting any scheme in front changes no address's port |
| Addresses.ToWsUrlIdempotent | src/helpers/server_sender.rs:65-77 | The result has a scheme, and normalizing it again with any port changes nothing |
| Addresses.ToWsUrlKeepsAddress | src/helpers/server_sender.rs:65-77 | An address with a scheme is left alone; any other gets "ws://" in front and at most a colon and the given digit port behind, the latter only when it carries no port |
| Addresses.HasSchemeExactlyWhen | src/helpers/server_sender.rs:66-66 | A scheme is present if and only if "://" occurs somewhere |
| Addresses.PortOfWsUrl | src/helpers/server_sender.rs:65-77 | A scheme-less address keeps the port it carries and otherwise gets the stored one if that is a port |
| Addresses.UrlKeepsPortExactlyWhen | src/helpers/server_sender.rs:65-77 | The URL dialed for a stored address carries the stored port if and only if the address carries it, or carries none and has no scheme |
| Addresses.OuterUrlKeepsPort | src/helpers/get_outer_websocket.rs:35-47 | The external URL keeps the configured port under either default scheme, and defaulting twice changes nothing |
| Addresses.OuterUrlScheme | src/helpers/get_outer_websocket.rs:35-47 | An explicit ws or wss scheme is kept; otherwise the build's default one is put in front and nothing else changes |
| ConnectionStores.ConnectionStore.SetServerConnectInfo | src/helpers/connection_store.rs:135-162 | The record becomes the given pair |
| ConnectionStores.ConnectionStore.ClearServerIp | src/helpers/connection_store.rs:164-178 | Forgets the address, keeps a digit port, heals any other, and creates no record |
| ConnectionStores.ConnectionStore.PersistConnected | src/helpers/server_sender.rs:414-440 | Stores the address with the port it carries |
| ConnectionStores.ConnectionStore.GetInternalConnect | src/helpers/internal_client.rs:641-792 | Every branch: what is done next, and the port reserved when none was stored |
| ConnectionStores.ActsExactlyWhen | src/helpers/internal_client.rs:649-787 | For each of scan, dial, both reports and nothing, the exact condition on record, input and situation: a scan only with discovery on, no address, no scan running and a local IP; a supplied port wins over the stored one |
| ConnectionStores.ReservesExactlyWhen | src/helpers/internal_client.rs:661-667 | A port is reserved if and only if one is supplied, nothing is stored, no attempt runs and the connection is not valid |
| ConnectionStores.DecideKeepsPort | src/helpers/internal_client.rs:661-792 | From a good record any dial's URL and any scan's port are the stored port |
| ConnectionStores.StepKeepsPort | src/helpers/internal_client.rs:641-792 | Each connect, failure, scan result, read, delayed write and resend keeps every address and port in play at p |
| ConnectionStores.PortSurvivesHistory | src/helpers/server_sender.rs:414-440 | Over any history of connects, failed dials, disconnects, scans and delayed writes the stored port stays p |
| ConnectionStores.ReconnectKeepsPortExactlyWhen | src/helpers/internal_client.rs:773-787 | After a direct reconnect the record is the dialed URL and the port it carries, which is the stored port if and only if the address carried it or was a bare host |
| ConnectionStores.SchemeWithoutPortLosesPort | src/helpers/internal_client.rs:773-787 | A concrete record that loses its port: ("ws://10.0.0.5", "9000") becomes ("ws://10.0.0.5", "") |
| ConnectionStores.ScanUrlPort | src/helpers/scan_manager.rs:85-88 | Every address a scan makes carries the port it was given |
| ConnectionStores.WritesHealThePort | src/helpers/connection_store.rs:164-178 | From any record and with anything else on its way, the write of one clear or of one `add` leaves a port that is empty or all digits |
| ServerReaders.ReadLoop | src/helpers/internal_server.rs:524-587 | The whole reader task does exactly `SessionEvents` of its stream, in order |
| ServerReaders.GetIdFromFirstMessage | src/helpers/internal_server.rs:743-796 | Which client the first message names, and whether it is answered, forwarded or proxied under another category |
| ServerReaders.IdentifyExactly | src/helpers/internal_server.rs:743-796 | A client is named if and only if the first frame is a decodable Ping under the Ping or the proxied category; it is then registered first and once, and answered or forwarded under the right category with its payload intact |
| ServerReaders.AskChain | src/helpers/internal_server.rs:530-537 | Connected exactly when every middleware accepts; asked up to the first refusal |
| ServerReaders.PassThroughChain | src/helpers/internal_server.rs:564-571 | Forwarded exactly when every middleware continues; asked up to the first stop |
| ServerReaders.ServeMessages | src/helpers/internal_server.rs:539-577 | What the messages after the first cause, cut at the first Disconnect |
| ServerReaders.TellChain | src/helpers/internal_server.rs:579-582 | Every middleware is told once, in order |
| ServerReaders.Cut | src/helpers/internal_server.rs:559-562 | The first Disconnect at or after a position, or the end |
| ServerReaders.SessionDeliversWanted | src/helpers/internal_server.rs:527-586 | For every stream, setting and chain, what reaches application and client is the first message's share followed, in order, by exactly the answerable Pings as pongs and the well-formed messages every middleware continues |
| ServerReaders.BodyDelivers | src/helpers/internal_server.rs:539-577 | The same for the messages after the first |
| ServerReaders.AnsweredExactlyWhen | src/helpers/internal_server.rs:551-576 | A message after the first is answered if and only if pings are on and it is a decodable Ping, and forwarded unchanged if and only if it is not answered, has a category, and every middleware continues |
| ServerReaders.PingsOffForwardsPings | src/helpers/internal_server.rs:551-576 | With pings off no session ever sends a pong, and every later message before a Disconnect that the chain continues, Pings included, is forwarded |
| ServerReaders.SessionCloses | src/helpers/internal_server.rs:579-586 | Each middleware hears of the disconnect once if all accepted and never otherwise; a Disconnect is queued once, last, in every session |
| Sessions.Slots.constructor | src/helpers/internal_server.rs:302-308 | All permits free, nothing refused |
| Sessions.Slots.TryAcquire | src/helpers/internal_server.rs:326-345 | A permit is taken, or with none free the arrival is refused and nothing else happens |
| Sessions.CapIsExact | src/helpers/internal_server.rs:326-350 | In every state of every run live accepted sessions + free permits = cap, and an arrival is refused if and only if the cap is reached |
| Sessions.ServerWiresStop | src/helpers/internal_server.rs:590-606 | In every run, each server connection's wire is what the writer loop alone makes of the frames it took, which are the first ones its channel accepted: a prefix with nothing after the first stopping frame |
| Sessions.ClosingNeverStuck | src/helpers/internal_server.rs:585-611 | A session whose reader has exited can always start the final `send`, and until its handler returns its reader, its writer or a sender with a slot has a step to take, even with a full channel |
| Sessions.ClosedSessionEnds | src/helpers/internal_server.rs:585-611 | Once the reader's final `send` has begun, blocked or not, the session ends within a number of its own writer steps fixed at that moment, whatever all other tasks do, and gives its permit back |
| Sessions.ReaderExitEndsSession | src/helpers/internal_server.rs:585-611 | From the start of that `send` on, with any number of senders blocked before it, the session ends within 2 * (channel slots + blocked senders) + 3 of its own writer steps |
| Sessions.StepKeepsInv | src/helpers/internal_server.rs:510-611 | Each step keeps the permit count, every wire's order and the reader's promise to end its session |
| ScanManagers.ConnectionStates.End | src/helpers/traits/connection_state.rs:48-61 | The entry, if there, gets status and stream and is no longer connecting; no other entry changes |
| ScanManagers.ConnectionStates.GetConnectedIp | src/helpers/traits/connection_state.rs:63-86 | Some connected entry gives up its stream, if and only if there is one |
| ScanManagers.DialsStayWithinPermits | src/helpers/scan_manager.rs:154-198 | In every run of overlapping rounds the dials in flight stay within the permits, and so do the dials in flight when the flag is set together with all begun later |
| ScanManagers.StreamHandedOutOnce | src/helpers/scan_manager.rs:207-246 | At most one stream is handed out; it was dialed to the end and the map no longer has it |
| ScanManagers.FoundMeansStopped | src/helpers/scan_manager.rs:189-246 | In every run a found server, a handed-out stream or the end of the scan means that the stop flag is set |
| ScanManagers.DialedIsNotRespawned | src/helpers/scan_manager.rs:110-129 | From the moment an address is dialed no round spawns another task for it until a task for it reports |
| ScanManagers.StepKeepsMarks | src/helpers/traits/connection_state.rs:37-61 | An address is marked as connecting only while some task dials it |
| ScanManagers.RefusedAddressIsRetried | src/helpers/scan_manager.rs:154-168 | In every run, once no task dials an address a later round may try it again, unless a server was found or the scan stopped |
| ScanManagers.StepKeepsPermits | src/helpers/scan_manager.rs:176-196 | Permits held plus permits free never change |
| ScanManagers.StepKeepsLate | src/helpers/scan_manager.rs:176-196 | Dials in flight at the flag and after it are among the permit holders of that moment |
| ScanManagers.StepKeepsStreams | src/helpers/traits/connection_state.rs:48-80 | Every stream is in one place: one map entry or handed out |
| ScanManagers.NoLateClearance | src/helpers/scan_manager.rs:181-184 | Once the flag is set no task is spawned, goes to wait for a permit, or is cleared to dial |
| Wire.FrameExact | src/helpers/common.rs:195-213 | Unframing gives a category and payload if and only if the frame is their framing, for every u16 and every payload |
| Wire.DecodeEncodeUInt | src/generated/schema.rs:30-64 | Little-endian integers of any width survive encoding |
| Wire.EncodeDecodeUInt | src/generated/schema.rs:30-64 | Every byte string is the encoding of the integer it decodes to |
| Wire.LittleEndian | src/generated/schema.rs:30-64 | Byte i weighs 256^i: the low byte comes first |
| Wire.DecodedFieldIsEncoded | src/generated/schema.rs:162-188 | A decoded field consumed exactly its own encoding |
| Wire.EncodedFieldIsDecoded | src/generated/schema.rs:162-188 | An encoded field decodes to itself whatever follows |
| Wire.DecodeRecordExact | src/generated/schema.rs:504-539 | For every record layout: decoding answers (n, fields) if and only if the first n bytes are the encoding of those fields |
| Wire.RecordRoundTrip | src/generated/schema.rs:281-306 | A record decodes from its encoding followed by any suffix, with the exact length consumed |
| Wire.RecordsRoundTrip | src/generated/schema.rs:195-542 | The stored server record, `Pong`, `AppStartup` and `SaveData` each survive encoding from their own fields, before any suffix |
| Wire.TruncatedRecordAsks | src/generated/schema.rs:43-63 | Every proper prefix of a record's encoding is refused with a request for at least one byte and at most those missing |
| Wire.RefusesTextExactlyWhen | src/generated/schema.rs:162-188 | A string field is refused as text if and only if its bytes are all there and not UTF-8 |
| Wire.Utf8ExactlyWhen | src/generated/schema.rs:147-188 | The bytes a string field accepts are exactly the encodings of sequences of Unicode scalar values |
| Wire.EncodingsAreDistinct | src/generated/schema.rs:401-436 | No record's encoding is a prefix of another record's |
| Wire.Deserialize | src/generated/schema.rs:43-63 | The cursor loop, with its size check and error cases, computes the record decoder |
| Wire.MessagePathRoundTrip | src/helpers/server_sender.rs:463-471 | From `make_atomic_message` on one side to the `Data` the application decodes on the other, category and payload survive |
| Wire.PingIsUnderstood | src/helpers/common.rs:178-187 | Every Ping a client builds is read by the server as a Ping of that client |
| Wire.PingPeerExactlyWhen | src/generated/schema.rs:170-188 | A Ping payload names its client if and only if it begins with the encoding of that name and some count |
| Wire.PingOnTheWire | src/helpers/common.rs:178-187 | A Ping, byte for byte: 10000 low byte first, the name's length and bytes, four zeros |
| Wire.DisconnectOnTheWire | src/helpers/common.rs:228-234 | A Disconnect, byte for byte: 10003 low byte first, the name's length and bytes |
| Wire.CategoryExactlyWhen | src/generated/schema.rs:84-121 | The two conversions of a category are mutually inverse, and exactly the ten numbers from 10000 on convert |

## Left out

- Sockets, TLS, WebSocket handshakes, UDP address discovery, redb, `spawn_blocking`, nanoid and logging: foreign calls, replaced by free outcomes and, for the database, by the stored value.
- Builders, error types, `src/lib.rs`, the test programs and the owned copies in the generated schema: they would only add easy members.
- The non-bebop handlers and the in-memory `get_internal_connect`: a weaker variant with empty control messages.
- The records with a bool field (`Expired`, `AppStartupOutput`, `ValidClient`): how the bebop crate reads a bool is not part of this model. `SaveKey` is a plain table.
- Counters and `u64` option values are unbounded integers: no wrap-around, and no overflow of `retry_seconds * 8` or of a timeout.
- Connections that enter through `accept_upgraded` take no permit, so the cap law does not speak of them.
- A panic in a middleware or handler: the source's tasks would unwind, which the client's `Cancel` step covers and the server's session steps do not.
- The contents of the status channel; only its share of `messages_dropped` is modelled.
- Strings are `seq<char>` in addresses and their UTF-8 bytes on the wire; the stored record is the pair, its bytes being covered by the `Wire` round trips.
- Channel capacities in `Registries`: whether a peer's channel takes a message in time is a free outcome. `ConnectProtocol`, `Outboxes` and `Sessions` do model capacity.
- BroadcastRuns.InterleavedBroadcast: speaks of a broadcast alone in the registry; what other tasks do in between is in the count law of `EachFoundPeerIsCounted` and, for the gauge, in `GaugeRuns`.
- `expire_send` sends one at a time to `peers_except`, which is one of the orders `Broadcasts` covers.
- The external client's stored record: it dials its configured URL and never reads the record back.
- How the client's reader schedules pings after a pong: every `send` may happen at any time.
- ScanManagers.DialsStayWithinPermits: rounds are not timed, and an address may get a second task while its first still waits for a permit and is not yet marked; at most one dial per address is not claimed, as the code does not ensure it.
- Sessions.ReaderExitEndsSession: steps are counted, not seconds, and writer steps taken while a sender owns a free slot but has not been run again are not counted (`AwaitedSenderCanRun` says its turn is there to take), because that the runtime runs a woken task and that socket writes return is outside the code.
- ConnectProtocol.NoticedLoopEnds: counts steps in the same way; a session choked on its own Ping takes none, evicted or not, which is exactly what `GuardOwnerMoves` and `ChokedSessionHoldsGuard` say.
- HandlerQueues.OfferAccounts: a message that meets a full spillover behind a closed channel is counted as a drop although the channel may have room; messages in a channel whose receiver is gone stay in `channel`.
- GaugeRuns.GaugeIsRightExactlyWhen: the gauge is not `len()` in general, as `OverlappingAddsMiscount` shows.
- Not claimed because the code does not ensure it: that a failed `send` removes only the connection that failed (removal is by peer id), that a found server is always returned by the scan, that only one reader task of a client is live, that spillover drains without a further message, and that a client with `use_keep_ip` always gets rid of a half-open socket.
