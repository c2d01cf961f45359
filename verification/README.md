# Rithmic adapter: a Dafny model of its stateful core

The adapter connects a trading node to the Rithmic venue through a shared gateway process. Its hard
part is what must stay true while sockets time out, streams drop events, plants reconnect, peers come
and go and several readers share one connection. This project models that core and proves what every
step and every run keeps. Each file is one component:

| file | component |
|---|---|
| `Framing.dfy` | length-prefixed frames and the resumable frame reader |
| `PendingQueue.dfy`, `GatewayClient.dfy` | the client's bounded mixed-stream queue, RPC waits and filtered polls |
| `Plant.dfy`, `Readiness.dfy`, `ReadinessRuns.dfy`, `ReadinessRules.dfy` | the order-plant state machine; poller, barriers, PnL gate and re-arm as interleaved steps; what whole runs keep |
| `RecoveryBridge.dfy` | scheduling, cancelling and retrying restores after a transport break |
| `Lru.dfy`, `FillDedup.dfy` | the two-index LRU and exactly-once fill emission over three paths |
| `IdleExit.dfy`, `HostLifecycle.dfy`, `HostRules.dfy` | idle-exit claim and host shutdown under all interleavings |
| `Interest.dfy`, `Delivery.dfy`, `Fanout.dfy` | subscription interest, delivery queues, fan-out paths |
| `BookAssembly.dfy`, `BookReplay.dfy` | order-book deltas from multi-part messages, and the books they replay to |
| `HistoryWindow.dfy` | window slicing, chunked loads and dedupe |
| `Drain.dfy`, `Inventory.dfy`, `ProductRoots.dfy`, `PnlStream.dfy` | reducers over drain rows, order events and PnL rows |

Objects that the source updates in place are classes whose methods are proved against specification
functions; concurrent protocols are state machines with one step per await point or critical section,
and their theorems quantify over every run.

Where a promise of the source turned out not to hold for every input, the model keeps the code's
behaviour, shows an input, and proves when it does hold:

- The queue bound of `_queue_event`: a queue that holds many gap reports and few data events ends above the bound
  (`BoundCanBePassed`); `BoundHoldsExactlyWhen` gives the exact condition.
- A gap that names an unknown stream is counted as `ticker`, but no poll ever takes it (`UnknownGapIsNeverPolled`);
  `PollsPartition` gives the exact condition.
- The venue can come up again after shutdown disconnected it and released the credential lock, by a legacy
  ticker reset, which checks nothing (`VenueComesBack`), and go down again by a refused one (`RefusedResetDrops`);
  `UpAgainExactlyWhen` says exactly when it is up.
- `ready` can be true after shutdown stored false (`ReadyCanComeBack`); `ReadyComesBackExactlyWhen` says exactly when.
- A `begin_connect` under another barrier whose drain is older than the last loss lets that barrier arm the plant
  (`OverlapBreaksIt`); `UnsafeExactlyWhen` shows that this is the only way.
- A resume that finds no client loop is dropped (`LostScheduleIsDropped`); `BridgeTheorem` says exactly when the
  highest generation is accounted for.
- A fill key is ambiguous when an id contains the separator (`SeparatorCollides`), and the trade id of a fill
  without a venue id when one of its texts contains a colon (`ColonCollides`); `KeySeparates` and
  `CompositeUnambiguous` give the exact conditions.
- An encoded market event whose symbol is one of the internal topic names lands in another queue
  (`InternalNameMisdirects`); `EventEqualsReference` and `FanoutTheorem` give the exact condition.
- Chunked history reorders a late bar listed before an earlier one (`CutReorders`); it equals one load exactly for
  histories in time order with distinct markers (`MergeTheorem`).
- A PnL row in flight over an order gap is dropped while its stream lives on, so an old net stays published as known
  (`GapDropsARow`); `FullNetExactlyWhen`, `MissedExactlyWhen` and `DroppedExactlyWhen` say exactly when.
- A clock that stands still over a PnL stream reset lets a position of the old stream count
  (`StandingClockLingers`); `CountedExactlyWhen` gives the exact condition.

## Model

| member | source | states |
|---|---|---|
| Framing.DecodeAfterEncode | crates/rithmic-gateway/src/framing.rs:28-60 | decoding an encoded frame followed by any bytes gives back the payload and consumes exactly the frame |
| Framing.EncodeAfterDecode | crates/rithmic-gateway/src/framing.rs:43-60 | every frame that decodes is the encoding of its payload, so encode and decode are inverse both ways |
| Framing.EncodeTable | crates/rithmic-gateway/src/framing.rs:28-41 | a payload is refused exactly above 16 MiB; the length goes first in four bytes, the highest first |
| Framing.DecodeTable | crates/rithmic-gateway/src/framing.rs:43-60 | which of the three errors or which frame a buffer holds, told from its bytes |
| Framing.DecodeIsStable | crates/rithmic-gateway/src/framing.rs:43-60 | bytes that arrive later never change a decoded frame or a size error |
| Framing.ReassemblyIsUnique | python/rithmic_gateway/framing.py:12-16 | a byte stream splits into frames in one way only: payloads read off it are a prefix of those sent and the rest is the encoding of the others |
| Framing.Connection.Fill | python/rithmic_gateway/framed_conn.py:88-102 | for any chunk sizes and timeouts, buffer plus unread bytes stay the same, and the end tells whether `n` bytes are there |
| Framing.Connection.ReadFrame | python/rithmic_gateway/framed_conn.py:104-114 | one frame is taken off the head, or nothing is taken on a timeout, and a later call resumes |
| Framing.Connection.ReadRun | python/rithmic_gateway/framed_conn.py:88-114 | over any number of calls under any chunking, the payloads returned are a prefix of those sent, what is left encodes the rest, and reading stops short only when nothing more comes and the buffer holds no whole frame |
| PendingQueue.PollsPartition | python/rithmic_gateway/client.py:53-84 | an event is taken by a poll if and only if a gap names a known stream, and then by the poll of its own stream only |
| PendingQueue.StreamTable | python/rithmic_gateway/client.py:53-84 | which poll takes an event, by wire type; a gap goes to the stream it names |
| PendingQueue.UnknownGapIsNeverPolled | python/rithmic_gateway/client.py:53-84 | a gap on an unknown stream counts as ticker and no poll takes it |
| PendingQueue.DropKeepsWeight | python/rithmic_gateway/client.py:847-867 | dropping the oldest data event and counting it in a gap keeps every stream's weight |
| PendingQueue.ShedKeepsWeight | python/rithmic_gateway/client.py:847-867 | the whole drop loop keeps every stream's weight: no silent loss |
| PendingQueue.ShedKeepsOrder | python/rithmic_gateway/client.py:847-867 | surviving data events are a suffix of the queued ones, in order; nothing is dropped under the bound |
| PendingQueue.LossIsReportedAhead | python/rithmic_gateway/client.py:847-867 | every stream that lost an event has its report ahead of all surviving data |
| PendingQueue.DropProgress | python/rithmic_gateway/client.py:847-867 | a drop shortens the queue unless it adds the one report its stream lacked |
| PendingQueue.BoundHoldsExactlyWhen | python/rithmic_gateway/client.py:847-867 | the queue ends within the bound if and only if it was short or its gaps and the missing reports leave room |
| PendingQueue.AtMostFiveDropped | python/rithmic_gateway/client.py:847-867 | entered at or under the bound, one call drops at most five data events |
| PendingQueue.DropsBounded | python/rithmic_gateway/client.py:847-867 | at most one drop more than the streams that still lack a head report |
| PendingQueue.BoundCanBePassed | python/rithmic_gateway/client.py:847-867 | a queue with one data event behind gaps ends above the bound |
| GatewayClient.StepBalances | python/rithmic_gateway/client.py:793-917 | one RPC, poll or disconnect keeps received = returned + discarded + queued, per stream |
| GatewayClient.RunConserves | python/rithmic_gateway/client.py:793-917 | over every interleaving of RPC waits, polls and disconnects the weight received is returned, discarded by a disconnect or still queued, per stream |
| GatewayClient.PollReturnsFirstMatch | python/rithmic_gateway/client.py:877-917 | a poll hit is the first queued event of its stream |
| GatewayClient.RpcTable | python/rithmic_gateway/client.py:793-845 | how an RPC ends, told from the inbox: its own reply answers it, its own error fails it with that code, any other id is a protocol error; when the socket stays open, what was queued, that the id is used up |
| GatewayClient.UnsentTable | python/rithmic_gateway/client.py:793-803 | a closed client is left alone; a failed write closes the socket and uses up the id |
| GatewayClient.PollTable | python/rithmic_gateway/client.py:890-917 | how the socket half of a poll ends, told from the first read that ends it, and when the socket stays open |
| GatewayClient.PollQueues | python/rithmic_gateway/client.py:890-917 | the events of other streams read on the way are queued in order |
| GatewayClient.PollCallTable | python/rithmic_gateway/client.py:877-890 | a closed client, a queued match with what it moves, and the way on to the socket |
| GatewayClient.DisconnectTable | python/rithmic_gateway/client.py:214-226 | a disconnect makes its call, closes and empties the queue, once |
| GatewayClient.FindData | python/rithmic_gateway/client.py:847-867 | the scan finds the oldest data event, or the end of an all-gap queue |
| GatewayClient.CountLoss | python/rithmic_gateway/client.py:847-867 | the loss is added to its stream's own head report, or to a new one in front |
| GatewayClient.GatewaySession.QueueEvent | python/rithmic_gateway/client.py:847-867 | the in-place loop computes the specified queue for every queue and event |
| GatewayClient.GatewaySession.RpcWait | python/rithmic_gateway/client.py:793-845 | the wait queues every event it passes and ends with the matching reply, an error or a timeout as specified |
| GatewayClient.GatewaySession.TakeQueued | python/rithmic_gateway/client.py:877-890 | the rotation scan returns the first match and moves the skipped events behind the rest |
| GatewayClient.GatewaySession.ReadEvent | python/rithmic_gateway/client.py:890-917 | reads until an own event, queueing the others; errors close the connection as specified |
| GatewayClient.GatewaySession.PollFiltered | python/rithmic_gateway/client.py:877-917 | the poll as a whole equals its specification on client state and result |
| Plant.TraceTheorem | crates/rithmic-exec/src/plant.rs:84-164 | the state after any trace is told from the trace alone: cancels are allowed exactly when it ends with a barrier, a live re-arm and then only resync starts and completions, submits and modifies exactly when moreover the last event is no resync start; latched and connecting likewise |
| Plant.ResyncNeverArms | crates/rithmic-exec/src/plant.rs:106-130 | no number of resync steps clears a latch or revives a down plant |
| Plant.ArmedStep | crates/rithmic-exec/src/plant.rs:84-148 | how each event changes "the trace ends armed" |
| Plant.LatchedStep | crates/rithmic-exec/src/plant.rs:84-148 | how each event changes "the trace ends latched" |
| Plant.Policy.DoBeginConnect | crates/rithmic-exec/src/plant.rs:84-87 | the method makes the specified transition |
| Plant.Policy.DoDisconnect | crates/rithmic-exec/src/plant.rs:89-93 | the method makes the specified transition |
| Plant.Policy.DoLatch | crates/rithmic-exec/src/plant.rs:95-104 | the method makes the specified transition |
| Plant.Policy.DoResyncStart | crates/rithmic-exec/src/plant.rs:106-114 | the method makes the specified transition |
| Plant.Policy.DoResyncComplete | crates/rithmic-exec/src/plant.rs:116-122 | the method makes the specified transition |
| Plant.Policy.DoResyncFailed | crates/rithmic-exec/src/plant.rs:124-130 | the method makes the specified transition |
| Plant.Policy.DoRearm | crates/rithmic-exec/src/plant.rs:134-148 | arms only from a barrier with a live poller, and says whether it armed |
| Readiness.LossIsNoticed | python/rithmic_nt_connect/polling.py:162-205 | a batch with a gap or an unreadable order event never ends as if nothing was lost |
| Readiness.HandleBatch | python/rithmic_nt_connect/polling.py:162-205 | the batch loop counts losses and stops as specified, and moves the plant only as specified |
| Readiness.StepHolds | python/rithmic_nt_connect/execution.py:547-661 | every step of poller, barriers, PnL stream and plant keeps the readiness invariant, unless it calls begin_connect under another barrier with an outdated drain |
| ReadinessRuns.RunHolds | python/rithmic_nt_connect/polling.py:104-205 | the invariant holds at every await point of every run without such a step, overlapping barriers included |
| ReadinessRuns.NoOrderBeforeAFreshDrain | python/rithmic_nt_connect/execution.py:611-661 | in such runs, at every point after a lossy batch, whenever an order command is allowed the plant was armed by a barrier whose drain began after that batch and whose PnL row, when there was a PnL stream, is of its own epoch or later |
| ReadinessRuns.NoPollBeforeAFreshDrain | python/rithmic_nt_connect/polling.py:104-121 | until then the poller that saw the loss does not poll |
| ReadinessRuns.ArmedOnlyByRearm | crates/rithmic-exec/src/plant.rs:134-148 | only a successful re-arm out of a barrier arms the plant |
| ReadinessRuns.LossMonotone | python/rithmic_nt_connect/polling.py:162-205 | every lossy batch moves the recorded time of the last loss, which never goes back |
| Readiness.PnlRowHolds | python/rithmic_nt_connect/execution.py:739-788 | a PnL row keeps the invariant; only one from a poll of the current epoch opens the gate |
| ReadinessRules.GateEvidence | python/rithmic_nt_connect/execution.py:611-641 | over every run the PnL gate is open exactly when, since the last stream reset, restore or gap recovery began, a row came of a poll begun since |
| ReadinessRules.TransientTable | python/rithmic_nt_connect/polling.py:126-139 | the fifth transient error in a row latches the plant and ends the poller, the ones before pause it |
| ReadinessRules.StreakTable | python/rithmic_nt_connect/polling.py:86-139 | the run of errors starts over with a successful resync or a new poller only |
| ReadinessRules.ErrorTable | python/rithmic_nt_connect/polling.py:140-156 | a closed session ends the poller, a lost transport pauses it, a channel error has it resubscribe |
| ReadinessRules.PauseTable | python/rithmic_nt_connect/polling.py:104-121 | the pause after a failed recovery ends in another recovery |
| ReadinessRules.BatchTable | python/rithmic_nt_connect/polling.py:162-205 | a batch that loses something and is not stopped goes into recovery, with a new PnL epoch and the gate closed |
| ReadinessRules.BatchLatches | python/rithmic_nt_connect/polling.py:162-200 | in a batch an anomaly or a raising handler latches the plant, and nothing else does |
| ReadinessRules.FailTable | python/rithmic_nt_connect/polling.py:104-121 | a barrier that fails is gone and arms nothing: gap recovery retries, the others latch |
| ReadinessRules.DrainedTable | python/rithmic_nt_connect/execution.py:642-661 | after the drain a barrier waits at the gate exactly when there is a PnL stream without an observation |
| ReadinessRules.RearmTable | crates/rithmic-exec/src/plant.rs:134-148 | the plant goes live exactly from Connecting with a poller, and the barrier is done; what a refusal leaves |
| ReadinessRules.OpenTable | python/rithmic_nt_connect/execution.py:547-581 | a restore opens a new epoch with the gate closed, a reconnect keeps the one it opened |
| ReadinessRuns.UnsafeExactlyWhen | python/rithmic_nt_connect/execution.py:569-630 | from any state such a run reaches, a step can be followed by orders on a drain older than the last loss, with no further such step, if and only if it calls begin_connect while another barrier past its subscribe has an outdated drain |
| ReadinessRuns.RiskyExposes | python/rithmic_nt_connect/execution.py:569-630 | the continuation that arms the plant with the outdated drain, from any state and phase |
| ReadinessRuns.OverlapBreaksIt | python/rithmic_nt_connect/execution.py:611-630 | a run from the start: a reconnect past its drain meets a gap, and orders are allowed on the older drain |
| RecoveryBridge.StepHolds | python/rithmic_nt_connect/recovery_bridge.py:76-179 | every step of scheduling, running, stopping and detaching keeps the bridge invariant |
| RecoveryBridge.RunHolds | python/rithmic_nt_connect/recovery_bridge.py:76-179 | so does every run, and the last restored generation never goes back between detaches |
| RecoveryBridge.BridgeTheorem | python/rithmic_nt_connect/recovery_bridge.py:107-179 | at most one uncancelled restore runs, generations only grow, and the highest generation asked for since the last break is restored, running, pending or exhausted if and only if it reached the client loop or is old already |
| RecoveryBridge.ExhaustedOnlyByAttempts | python/rithmic_nt_connect/recovery_bridge.py:158-179 | a generation is exhausted only if, since the last break, one task failed on it as often as there are attempts and slept between each two |
| RecoveryBridge.FailureRetries | python/rithmic_nt_connect/recovery_bridge.py:158-179 | a failure with attempts left keeps the task in flight on the same generation |
| RecoveryBridge.ScheduleTable | python/rithmic_nt_connect/recovery_bridge.py:135-143 | an old generation starts nothing, a newer one waits behind a running restore or starts its own |
| RecoveryBridge.BreakTable | python/rithmic_nt_connect/recovery_bridge.py:76-114 | a break or detach cancels what runs and forgets what is queued |
| RecoveryBridge.LostScheduleIsDropped | python/rithmic_nt_connect/recovery_bridge.py:128-133 | a resume that finds no client loop is none of these |
| Lru.RememberedExactlyWhen | crates/rithmic-exec/src/lru.rs:26-71 | an inserted key is still present if and only if fewer than `max_size` distinct other keys were touched since |
| Lru.StepRetains | crates/rithmic-exec/src/lru.rs:26-71 | one operation on other keys adds its touch to the keys newer than `k`, or evicts `k` when those fill the store |
| Lru.RetainedFrom | crates/rithmic-exec/src/lru.rs:26-71 | the same over any run from any held list |
| Lru.ApplyHeld | crates/rithmic-exec/src/lru.rs:26-71 | one entry a key and at most `max_size` entries after every operation |
| Lru.IndexMove | crates/rithmic-exec/src/lru.rs:26-66 | restamping a key keeps both indexes mutually inverse and moves it to the newest end |
| Lru.IndexPop | crates/rithmic-exec/src/lru.rs:54-66 | the smallest tick is the oldest key, and removing it from both indexes removes the head of the list |
| Lru.Store.TouchKey | crates/rithmic-exec/src/lru.rs:26-34 | the two indexes follow the recency list |
| Lru.Store.Has | crates/rithmic-exec/src/lru.rs:36-43 | membership of the recency list; a hit moves the key to the newest end |
| Lru.Store.Get | crates/rithmic-exec/src/lru.rs:45-52 | the value the recency list holds; a hit refreshes |
| Lru.Store.Insert | crates/rithmic-exec/src/lru.rs:54-66 | the recency list with the key newest, cut to the newest `max_size` |
| Lru.Store.Evict | crates/rithmic-exec/src/lru.rs:54-66 | the loop leaves exactly the newest `max_size` entries |
| Lru.Store.Clear | crates/rithmic-exec/src/lru.rs:68-71 | nothing is left |
| FillDedup.KeySeparates | crates/rithmic-exec/src/fills.rs:36-43 | a fill shares its key with no fill of another account, instrument or trade id if and only if the separator is in neither id nor in the trade id before its last character |
| FillDedup.CompositeUnambiguous | crates/rithmic-exec/src/fills.rs:25-33 | a fill without a venue id shares its trade id with no other such fill if and only if there is no colon inside its basket, exchange order id, size or price |
| FillDedup.ColonCollides | crates/rithmic-exec/src/fills.rs:25-33 | with a colon inside, another fill with the same trade id |
| FillDedup.CompositeSeparates | crates/rithmic-exec/src/fills.rs:25-33 | two fills without a colon before the price share a trade id exactly when all five fields agree |
| FillDedup.IntTextInjective | crates/rithmic-exec/src/fills.rs:25-33 | different time stamps print differently |
| FillDedup.SeparatorCollides | crates/rithmic-exec/src/fills.rs:36-43 | with a separator inside an id two different fills share a key |
| FillDedup.StaysKnown | python/rithmic_nt_connect/_orders.py:89-105 | a marked key stays known while fewer than `max_size` other keys are touched |
| FillDedup.KeyTable | python/rithmic_nt_connect/_orders.py:342-385 | the identity of a sighting field by field, the same rule on all three paths |
| FillDedup.EmissionTable | python/rithmic_nt_connect/notification_intake.py:188-335 | what each path needs to emit a new fill, and that only an emission marks the key |
| FillDedup.EmittedAtMostOnce | python/rithmic_nt_connect/notification_intake.py:188-335 | over any mix of the three paths, which compute one identity for a fill, a second emission of it needs at least `max_size` distinct other keys in between |
| FillDedup.ReplayEmittedExactlyWhen | python/rithmic_nt_connect/recon.py:461-511 | a deliverable replay is emitted if and only if that many keys came in between |
| FillDedup.SightingsAreOps | python/rithmic_nt_connect/_orders.py:89-105 | sightings act on the store as a run of has and insert, touching exactly the counted keys |
| FillDedup.Host.HandleTrackedFill | python/rithmic_nt_connect/notification_intake.py:188-248 | emits and marks as the shared specification says |
| FillDedup.Host.HandleUntracked | python/rithmic_nt_connect/notification_intake.py:290-335 | status first; emits and marks as the shared specification says |
| FillDedup.Host.ReconcileRow | python/rithmic_nt_connect/recon.py:461-511 | one drain row emits and marks as the shared specification says |
| FillDedup.Host.GenerateFillReports | python/rithmic_nt_connect/recon.py:461-511 | the loop emits the keys of the specified run, in order |
| IdleExit.StepHolds | crates/rithmic-gateway/src/idle_exit.rs:75-157 | every atomic step of attach, detach and waiter keeps the invariant |
| IdleExit.ExitTheorem | crates/rithmic-gateway/src/idle_exit.rs:75-157 | once claimed, the flag stays and peers is 0 forever, so no attach succeeds; the final check never finds a peer; no wakeup is lost |
| IdleExit.ClaimWaitsOutTheGrace | crates/rithmic-gateway/src/idle_exit.rs:91-157 | the claim comes no earlier than the last arming detach plus the grace, with no peer left |
| IdleExit.PeersTheorem | crates/rithmic-gateway/src/idle_exit.rs:75-104 | peers told from the run: attaches less detaches above their lowest point, the balance itself when no prefix detaches more than it attached; a deadline is set only by the detach that leaves nobody, and the exit is claimed only where nobody is left |
| IdleExit.AttachTable | crates/rithmic-gateway/src/idle_exit.rs:75-88 | an attach goes through exactly when the exit is not claimed, counts the peer and disarms |
| IdleExit.NotifyTable | crates/rithmic-gateway/src/idle_exit.rs:88-103 | a notification reaches a registered waiter and settles one that is owed |
| IdleExit.ClaimTable | crates/rithmic-gateway/src/idle_exit.rs:132-155 | the claim under the lock: with a peer it disarms and starts over, without an expired deadline it starts over, else it returns |
| IdleExit.WaiterTable | crates/rithmic-gateway/src/idle_exit.rs:106-133 | the waiter registers, reads, looks at the clock and blocks, in this order |
| IdleExit.ExpiredExitIsClaimed | crates/rithmic-gateway/src/idle_exit.rs:106-157 | from any reachable state with an expired deadline the waiter claims the exit within eight of its own steps |
| HostLifecycle.StepHolds | crates/rithmic-host/src/host.rs:278-472 | every step of connect, plant requests, ticker resets, sessions' plant calls, attach, detach, pump and shutdown keeps the invariant |
| HostLifecycle.ShutdownTheorem | crates/rithmic-host/src/host.rs:381-472 | over every run the shutdown body and its disconnect happen at most once, the credential lock is released only after it, and after it the pump is gone and no connect or plant request is past its check |
| HostLifecycle.UpAgainExactlyWhen | crates/rithmic-plants/src/session.rs:211-228 | at any point after shutdown's disconnect the plants up are those that ticker resets and sessions' plant calls since then left open: the ticker if and only if the last reset was answered, anything only if some reset was, and without a session's open call the venue is up if and only if the last reset was answered |
| HostLifecycle.ResetRevives | crates/rithmic-host/src/local/subscriptions.rs:736-745 | from any reachable state, after the disconnect too, a reset can bring the venue up unless the gate is held exclusively |
| HostLifecycle.RefusedResetDrops | crates/rithmic-plants/src/session.rs:898-921 | a refused reset takes down a venue of which only the ticker is up |
| HostLifecycle.VenueComesBack | crates/rithmic-host/src/local/subscriptions.rs:736-745 | a run from the start that ends with shutdown done, the lock released and the venue up |
| HostLifecycle.NoOwnedAttachAfterClosing | crates/rithmic-host/src/host.rs:295-346 | after the last detach closed the host no owned attach succeeds |
| HostRules.ClosesExactlyWhen | crates/rithmic-host/src/host.rs:278-346 | attachments are the attaches that went through less the detaches, and the host starts to close exactly with the detach that leaves none while the lock is held, or with a shutdown |
| HostRules.ConnectTable | crates/rithmic-host/src/host.rs:381-431 | when a connect reaches the venue, when it stores ready, and that it gives the gate back |
| HostRules.RequestTable | crates/rithmic-host/src/host.rs:357-368 | a plant request is checked again under the gate and adds plants only to a venue that is up |
| HostRules.UseTable | crates/rithmic-host/src/local.rs:310-334 | a session opens a plant only beside a ticker |
| HostRules.ResetTable | crates/rithmic-host/src/local/subscriptions.rs:736-745 | a reset takes the ticker out and connects another without asking the host |
| HostRules.ShutdownTable | crates/rithmic-host/src/host.rs:433-471 | close, stop the pump, clear ready, disconnect alone at the gate, release the lock, done, in this order |
| HostRules.WaitTable | crates/rithmic-host/src/host.rs:57-80 | who waits for which gate or turn |
| HostLifecycle.ReadyComesBackExactlyWhen | crates/rithmic-host/src/host.rs:381-446 | `ready` can become true after shutdown cleared it if and only if a connect was past its check at that moment |
| HostLifecycle.SettledStays | crates/rithmic-host/src/host.rs:381-472 | with no such connect, `ready` stays false over every run |
| HostLifecycle.ReadyCanComeBack | crates/rithmic-host/src/host.rs:381-446 | a run from the start that reaches such a moment with a connect past its check |
| Interest.Hub.AddInterest | crates/rithmic-host/src/fanout.rs:307-328 | adds one to the flat count of its key only, keeps the nested map tidy, and asks for a venue call exactly on the first |
| Interest.Hub.RemoveInterest | crates/rithmic-host/src/fanout.rs:330-349 | takes one off, removes emptied maps, and asks for a venue call exactly on the last |
| Interest.Hub.Serve | crates/rithmic-host/src/fanout.rs:307-349 | a run's venue calls for a key are those of the flat count |
| Interest.CallsAlternate | crates/rithmic-host/src/fanout.rs:307-349 | for every key the venue calls strictly alternate subscribe and unsubscribe |
| Delivery.BatchEqualsSingles | crates/rithmic-host/src/local/delivery.rs:152-188 | pushing a batch leaves the queue that pushing its events one by one leaves, gap count and gap position included |
| Delivery.TrimConserves | crates/rithmic-host/src/local/delivery.rs:162-188 | overflow turns dropped events into an equal gap count |
| Delivery.PushConserves | crates/rithmic-host/src/local/delivery.rs:162-188 | a push adds exactly its events' weight |
| Delivery.WeightTable | crates/rithmic-host/src/local/delivery.rs:162-188 | an event counts once and a gap as often as it says; a batch is numbered one by one |
| Delivery.TrimTable | crates/rithmic-host/src/local/delivery.rs:162-188 | overflow drops the oldest, and a new gap takes the number of the first event lost |
| Delivery.PopTable | crates/rithmic-host/src/local/delivery.rs:84-117 | a gap is taken before any event and is then gone; other streams are untouched |
| Delivery.ServeConserves | crates/rithmic-host/src/local/delivery.rs:76-188 | over any run of pushes and pops on the four queues, the weight given to a stream was popped, counted as skipped, or is queued |
| Delivery.QueuesEqual | crates/rithmic-host/src/fanout.rs:514-631 | the batch path and the single path leave every attachment's four queues equal, gap counts and record numbers included, and equal to the reference delivery when every event is faithful |
| Delivery.DeliverIsSettle | crates/rithmic-host/src/local/delivery.rs:152-188 | the queues depend only on the events received, not on how they were grouped |
| Delivery.Deliveries.Push | crates/rithmic-host/src/local/delivery.rs:162-188 | records are numbered from the counter the four queues share, and the oldest go past the capacity |
| Delivery.Deliveries.Pop | crates/rithmic-host/src/local/delivery.rs:84-117 | the gap first, then the events in order |
| Fanout.EventDelivers | crates/rithmic-host/src/fanout.rs:227-266 | the sole-holder and shared paths hand each attachment one copy per live holder that wants the kind |
| Fanout.EventEqualsReference | crates/rithmic-host/src/fanout.rs:550-631 | one event reaches every attachment as the reference delivery says if and only if its symbol is plain, or it is not encoded, or no attachment gets it as a shared record |
| Fanout.BatchEqualsSingly | crates/rithmic-host/src/fanout.rs:514-631 | the whole-batch path equals event by event |
| Fanout.FanoutTheorem | crates/rithmic-host/src/fanout.rs:514-631 | with subscriptions fixed, a batch leaves every attachment the reference sequence if and only if every event of it does |
| Fanout.InternalNameMisdirects | crates/rithmic-host/src/fanout.rs:205-218 | an encoded trade named like the PnL topic goes to a wire attachment's PnL queue, where the reference uses the ticker queue |
| Fanout.UnfaithfulShows | crates/rithmic-host/src/fanout.rs:205-266 | an event that is not faithful reaches some attachment in another queue than the reference |
| Fanout.PublishLoop | crates/rithmic-host/src/fanout.rs:227-236 | the loop delivers the specified records and counts the consumers |
| Fanout.RouteTable | crates/rithmic-host/src/fanout.rs:514-548 | topic, interest class and queue of an event by its type |
| Fanout.CopiesAppend | crates/rithmic-host/src/fanout.rs:219-236 | a holder more adds a copy exactly when it is live, of the attachment and of matching interest |
| Fanout.GapReaches | crates/rithmic-host/src/fanout.rs:399-407 | a ticker or history gap reaches every topic whose name does not begin with two underscores |
| Fanout.FindTable | crates/rithmic-host/src/fanout.rs:550-600 | a topic is found by its own symbol and exchange |
| Fanout.EncodedExactlyWhen | crates/rithmic-host/src/fanout.rs:292-301 | when a record is encoded, and which queue it then goes to |
| Fanout.ReceiversTable | crates/rithmic-host/src/fanout.rs:223-266 | a record reaches a topic's receivers once, when there are any |
| BookAssembly.ChangedLevels | python/rithmic_nt_connect/data.py:420-446 | reads exactly when every level has a size of at least 0 and a price; then one update or, for size 0, delete per level with its own fields; else the fault of the first level that does not read |
| BookAssembly.ImageDeltas | python/rithmic_nt_connect/data.py:352-417 | reads exactly when every size is at least 0 and every occupied level has a price; a clear and an add per occupied level with the closing flag on the last, or the first fault |
| BookAssembly.BookAssembler.Feed | python/rithmic_nt_connect/data.py:484-521 | result and pending parts as specified for every kind of message, errors included |
| BookAssembly.BookAssembler.Reset | python/rithmic_nt_connect/data.py:479-482 | half-received updates of all instruments are gone |
| BookReplay.ReplayIsReference | python/rithmic_nt_connect/data.py:466-521 | for every interleaving, replaying the emitted batches follows the reference reading of each instrument's own messages step by step |
| BookReplay.BookTheorem | python/rithmic_nt_connect/data.py:352-521 | the replayed book of an instrument is the one any reference interpretation of its own messages ends with |
| BookReplay.EmptyLevelLeaves | python/rithmic_nt_connect/data.py:428-446 | a solo update with size 0 leaves a book without that price, whatever came before |
| BookReplay.TrailUnique | python/rithmic_nt_connect/data.py:352-521 | the reference interpretation is determined by the messages |
| BookAssembly.BatchesWellFormed | python/rithmic_nt_connect/data.py:449-521 | every emitted batch is non-empty, of one instrument, closed on exactly its last delta, and clears only in front of an image |
| HistoryWindow.CutTiles | python/rithmic_gateway/history_window.py:44-61 | slices start and end with the window, share boundaries, never exceed the step, and all but the last have it exactly |
| HistoryWindow.TilesUnique | python/rithmic_gateway/history_window.py:44-61 | only one list of slices does that |
| HistoryWindow.Covered | python/rithmic_gateway/history_window.py:44-61 | every second of the window is in a slice |
| HistoryWindow.ShareOnlyBoundary | python/rithmic_gateway/history_window.py:44-61 | slices share only the boundary with their neighbour, and lie inside the window |
| HistoryWindow.NativeWindowSlices | crates/rithmic-host/src/history.rs:37-55 | the 32-bit loop gives the unbounded answer on every input, without overflow |
| HistoryWindow.WindowSlices | python/rithmic_gateway/history_window.py:44-61 | the client's loop gives the same slices |
| HistoryWindow.SameCuts | crates/rithmic-host/src/history.rs:21-68 | for every bar type the wire knows, client and gateway cut a window at the same seconds |
| HistoryWindow.SliceTable | python/rithmic_gateway/history_window.py:26-41 | the seconds per slice for every type and period |
| HistoryWindow.BarTypeTable | crates/rithmic-host/src/history.rs:58-68 | the wire's bar types are 1 to 4 and nothing else |
| HistoryWindow.BarKeyTable | python/rithmic_gateway/history_window.py:64-77 | a bar is known by its marker, and by its time stamp only without one |
| HistoryWindow.DedupeBarsByMarker | python/rithmic_gateway/history_window.py:64-77 | the loop keeps the first bar of every key |
| HistoryWindow.LoadTimeBarsRange | python/rithmic_gateway/client.py:501-522 | the chunked load; for ordered histories with distinct keys it is one load of the window |
| HistoryWindow.ChunkedIsWhole | python/rithmic_gateway/client.py:501-522 | slice, load, concatenate and dedupe equals one load, for any window and step |
| HistoryWindow.CutReorders | python/rithmic_gateway/client.py:501-522 | for any history that lists a later bar before an earlier one, a window on which the chunked load differs from one load |
| HistoryWindow.MergeTheorem | python/rithmic_gateway/client.py:501-522 | that holds for all windows if and only if the history is in time order with distinct keys |
| Drain.FreshestPerKey | crates/rithmic-exec/src/drain.rs:73-89 | one index per key, in order of first appearance, each maximal by time and then arrival |
| Drain.FreshestUnique | crates/rithmic-exec/src/drain.rs:73-89 | there is only one such answer |
| Drain.ForwardedExactlyWhen | crates/rithmic-exec/src/drain.rs:113-131 | a row is forwarded at the barrier unless its order is tracked and closed, or tracked and ahead of a dated row |
| Drain.BarrierIsStricter | python/rithmic_nt_connect/recon.py:263-303 | both authority modes and the reason of each, on the order's and the row's fields |
| Drain.LatestDrainRows | python/rithmic_nt_connect/recon.py:244-261 | one row per basket, each the freshest of its basket, in the order in which the baskets first appear |
| Drain.DrainHost.ApplyDrainRows | python/rithmic_nt_connect/recon.py:305-366 | the winners' effects, in the order in which their baskets first appear, as specified |
| Drain.DrainHost.ApplyRows | python/rithmic_nt_connect/recon.py:331-366 | the loop's log, bindings and result are the specified ones |
| Drain.OkExactlyWhen | python/rithmic_nt_connect/recon.py:331-366 | the drain succeeds if and only if every forwarded row publishes |
| Drain.PublishedExactlyWhen | python/rithmic_nt_connect/recon.py:331-366 | exactly the forwarded rows up to the first refused one are published |
| Drain.LogIsOrdered | python/rithmic_nt_connect/recon.py:331-366 | effects follow row order, a bind directly follows its own row's publish, and a refusal is the last effect |
| Drain.BoundExactlyWhen | python/rithmic_nt_connect/recon.py:358-366 | old bindings stay; a new client is bound exactly when a candidate row was reached, to the first one's basket |
| Drain.BoundOnce | python/rithmic_nt_connect/recon.py:358-366 | no client is bound twice, and none that was bound before |
| Drain.DrainHost.ResolveInflight | python/rithmic_nt_connect/execution.py:1819-1869 | an order the live stream bound or closed is left alone; otherwise the newest strict row with its tag is bound, once, or nothing changes |
| Inventory.Inventory.Take | python/rithmic_nt_connect/inventory.py:142-159 | dispatch and state change as specified |
| Inventory.Inventory.TakeOrder | python/rithmic_nt_connect/inventory.py:161-208 | an order row moves only the order part, as specified |
| Inventory.Inventory.TakePosition | python/rithmic_nt_connect/inventory.py:210-229 | a position row moves only the position part, as specified |
| Inventory.OrdersTheorem | python/rithmic_nt_connect/inventory.py:161-208 | over every run a basket's state is told from its own rows: finished, working or absent, each field the last value given |
| Inventory.WorkingExactlyWhen | python/rithmic_nt_connect/inventory.py:161-256 | a basket is working if and only if no row finished it and some row named its contract |
| Inventory.GoneExactlyWhen | crates/rithmic-exec/src/inventory.rs:22-40 | when a row finishes its basket: another terminal status, nothing unfilled, or a fill that covers a positive quantity |
| Inventory.DispatchTable | python/rithmic_nt_connect/inventory.py:142-159 | which rows are read as orders, positions or neither |
| Inventory.ContractTable | python/rithmic_nt_connect/inventory.py:210-216 | a contract is symbol, dot and exchange, CME when there is none |
| Inventory.FinishedStaysGone | python/rithmic_nt_connect/inventory.py:161-176 | a finished basket never returns whatever follows |
| Inventory.PositionsTheorem | python/rithmic_nt_connect/inventory.py:210-229 | a contract is unknown, open with its net, or flat exactly as its last row says |
| Inventory.LiveExactlyWhen | crates/rithmic-exec/src/inventory.rs:60-70 | positions are trusted if and only if, told from the inputs, the stream was watched for the settle time since its first row and every contract's last row was readable |
| Inventory.WatchedIsLatest | python/rithmic_nt_connect/inventory.py:138-157 | on a positive clock the watched-until time is the highest reading since the last mark |
| ProductRoots.RootExactlyWhen | crates/rithmic-exec/src/exposure.rs:19-40 | the root is the text before month letter and one or two digits when the symbol has that form, and the symbol itself when it has not |
| ProductRoots.MatchExactlyWhen | crates/rithmic-exec/src/exposure.rs:50-53 | a symbol matches a root exactly when it is a contract of it or the bare root, never by prefix |
| ProductRoots.TrimTable | crates/rithmic-exec/src/exposure.rs:19-21 | trimming takes off all spaces at both ends and nothing else |
| ProductRoots.CharTable | crates/rithmic-exec/src/exposure.rs:12-37 | digits, capitals, month letters and spaces, spelled out |
| ProductRoots.UpperTable | crates/rithmic-exec/src/exposure.rs:19-21 | small letters become capitals and every other character stays |
| PnlStream.SignedNet | crates/rithmic-exec/src/exposure.rs:64-73 | the signed sum over the root's rows, whatever the order they are taken in |
| PnlStream.NetWithout | crates/rithmic-exec/src/exposure.rs:64-73 | any row can be taken out of the sum first |
| PnlStream.PnlClient.ForgetPnlState | python/rithmic_nt_connect/execution.py:920-927 | the specified reset |
| PnlStream.PnlClient.ResyncSubscription | python/rithmic_nt_connect/execution.py:632-641 | the specified reset; positions stay for reports |
| PnlStream.PnlClient.GapBarrier | python/rithmic_nt_connect/execution.py:620-625 | a new epoch closes the gate and keeps the rows |
| PnlStream.PnlClient.DispatchAccount | python/rithmic_nt_connect/execution.py:739-761 | an account row of an old epoch changes nothing |
| PnlStream.PnlClient.DispatchUnreadable | python/rithmic_nt_connect/execution.py:881-890 | an unreadable row marks its symbol, or every symbol when it names none |
| PnlStream.PnlClient.CachePosition | python/rithmic_nt_connect/execution.py:881-903 | a row is stored and stamped with one clock reading, only when its poll is of the current epoch |
| PnlStream.PnlClient.NoteObserved | python/rithmic_nt_connect/execution.py:913-918 | the gate opens; the start of the stream is set once |
| PnlStream.PnlClient.ExposureNet | python/rithmic_nt_connect/execution.py:929-976 | unknown before the stream is observed or while a row of the root is unreadable, else the net of the rows that count |
| PnlStream.GateExactlyWhen | python/rithmic_nt_connect/execution.py:739-788 | the re-arm gate is open if and only if a good row of a poll begun in the current epoch was handled |
| PnlStream.CountedExactlyWhen | python/rithmic_nt_connect/execution.py:950-961 | the rows that count are those handled on the current stream if and only if no other contract was last stamped with the very reading the stream began with |
| PnlStream.AdvancingNet | python/rithmic_nt_connect/execution.py:881-961 | with a clock that advances across stream resets a published net is the signed sum over exactly the root's rows handled on the current stream |
| PnlStream.NetTheorem | python/rithmic_nt_connect/execution.py:881-961 | over every run a published net is the signed sum over the root's rows handled on the current stream and the lingering ones |
| PnlStream.ContractExactlyWhen | python/rithmic_nt_connect/execution.py:739-961 | contract by contract, the row that counts is the row the stream last delivered exactly when none was missed, and where an older row lingers exactly when the two agree |
| PnlStream.FullNetExactlyWhen | python/rithmic_nt_connect/execution.py:739-961 | a published net is the sum over all rows delivered on the current stream when no row was missed and the clock advances, and otherwise exactly when the changes missed and the rows lingering cancel |
| PnlStream.MissedExactlyWhen | python/rithmic_nt_connect/execution.py:747-761 | what a contract's last delivered row says is missed exactly when that row was dropped, or its seeding failed with no earlier row handled, and no handled row says the same |
| PnlStream.DroppedExactlyWhen | python/rithmic_nt_connect/execution.py:611-626 | a row of the current stream is dropped exactly between an order gap and the next poll |
| PnlStream.UnknownPublishedExactlyWhen | python/rithmic_nt_connect/execution.py:881-976 | a net is published although the stream's last word on the root was unreadable exactly when that word was dropped |
| PnlStream.GapDropsARow | python/rithmic_nt_connect/execution.py:611-626 | a row in flight over a gap is dropped and the old net stays published |
| PnlStream.UnreadableHides | python/rithmic_nt_connect/execution.py:881-890 | an unreadable row without a symbol hides every net, one with a symbol its own root's |
| PnlStream.UnreadableSpares | python/rithmic_nt_connect/execution.py:972-976 | and no other root's |
| PnlStream.RowTable | python/rithmic_nt_connect/_convert.py:299-313 | a row says long, short or flat by its net and adds just that net to its own root |
| PnlStream.StandingClockLingers | python/rithmic_nt_connect/execution.py:950-961 | with a clock that stands still over a reset an old position counts |

## Left out

- Sockets, flock files, protobuf parsing, asyncio and tokio: chunks, timeouts, wakeups and thread choice are free inputs or steps; the handshake of `connect` is not modelled.
- Integer widths other than the i32 window arithmetic: the LRU clock, gap counts and position sums do not overflow here.
- GatewayClient.RpcTable: does not rename the error codes of denied capabilities, which are taken as renamed.
- GatewayClient.RunConserves: does not state order across a poll hit, because the scan moves skipped events behind later ones in the source.
- ReadinessRuns.NoOrderBeforeAFreshDrain: holds for runs without a `begin_connect` under an outdated barrier, because each such step can break it (UnsafeExactlyWhen).
- ReadinessRuns.NoPollBeforeAFreshDrain: speaks of the poller that saw the loss; a poller started by a reconnect is a new one.
- HostLifecycle.ShutdownTheorem: does not state that the venue stays down, because a ticker reset can bring it up (UpAgainExactlyWhen).
- HostLifecycle: a host without a venue, cancelling a shutdown future between its awaits, and the `Drop` path are not modelled; readers of the venue gate are `request_plants`, the ticker reset and the calls that open or close one plant; the others move no plant. Which plants a connect asks for is fixed.
- Delivery.Deliveries.Pop: records are flattened to events, so whole-record takes are runs of pops; closed attachments, flush barriers and wakers are not modelled.
- Fanout: the encoder's bytes are not modelled (a record stands for its event), topics are a fixed sequence instead of a hash map, and subscriptions do not change during a publish.
- FillDedup.CompositeSeparates: assumes basket, exchange order id and size without a colon, because texts that contain one collide (CompositeUnambiguous).
- Book deltas carry no timestamps or sequence numbers, and a price is the converted number or a conversion failure; the book keeps sizes, not order ids.
- Drain: order facts read from the cache are fixed during one drain, rows that do not normalise are dropped before the model, and the closed-set terms of `row_is_trustworthy` are the flag `bindable`.
- Inventory: parsing of raw numbers and sides, the sorted listings, and the polling wrapper are not modelled.
- ProductRoots.MatchExactlyWhen: upper-casing and trimming cover ASCII only, because the model has no Unicode case tables.
- Backoff durations, logging, commission, gates, notification mapping, bar-type aliasing, configuration, intents and pump restore would only add easy members or have no source here.
