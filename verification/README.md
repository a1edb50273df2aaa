# A verified model of the quoter's async channel and depth slots

Two parts of the repository are modelled and proved here.

**The bounded multi-sender channel** (`zc-async-channel`). `ChannelImpl` has the ring buffer, the
waker cells and the 64-bit mask of sender ids as classes that update their fields in place; every
method is proved to do exactly what a function of `ChannelModel` does to a plain queue and a set of
ids. `Protocol` runs those functions as a transition system: a step is one call or one poll, any
task may poll at any time, a pending future may be dropped, handles are dropped in any order, and
the channel may be split again. `ProtocolInvariant` proves one invariant over all steps,
`ProtocolRuns` what it means over whole runs, `ProtocolWakes` exactly when a waker is invoked and
what each call answers, and `ProtocolOrder` in which order the values of one sender arrive, with the
exact exceptions, one of which `Overtaking` exhibits. `Delivery` and `DeliveryTheorem` close the
system with finite senders and a receiver that reads to the end, and prove that every schedule ends
with everything delivered; `DeliveryRuns` shows that this program is part of the protocol.

**Ownership of depth slots** (`exchange`, `depth-driver`). A parsed message becomes handles into a
fixed-capacity pool, which travel through three buffers, a snapshot, a bounded channel and a reader
that has to release them. `DepthPool`, `Ingest`, `ExchangeStreamImpl` and `DepthDriverImpl` have the
pool, `ingest_book`, `poll_next`, the snapshot loops and the driver as classes; `StreamModel`,
`SnapshotModel` and `SyncModel` are the functions they are proved against. On those functions stand
`PollFold` and `PollTheorems` (a poll is a fold over the ready items, the room and the free cells;
backpressure), `SnapshotTheorems`, `ExchangeTwo`, `SyncTheorems` and `InterleavedStartup` (the order
that start-up leaves behind), `SyncOutcomes` (when start-up succeeds), `ExchangeTwoRuns` (exchange 2
in runs of the driver), `Ownership` and `OwnershipTheorems` (who holds which slot, and how large the
pool has to be), and `StartupRuns`, which ties start-up in one go to the interleaved steps.

Assumptions: execution is single-threaded, as the `Cell` and `RefCell` fields force; waking only
marks a task runnable; a handle has at most one future outstanding; handles are dropped, not
forgotten. `ArrayVec::push` on a full buffer panics: the model ends the run there. Which depths the
archiver can store is a predicate of the pool; whether a text is well formed, and what its levels
are, comes with the text; which websocket items are ready, and when, is a parameter. The driver's
methods take the list of slots that the reader holds as a ghost parameter.

## What the code does that its comments do not say

- A handle that calls `try_send` while a send of its own is parked gets ahead of that send if it
  finds room (`SendOvertaken`). A value is out of place if and only if its send was overtaken like
  that and was completed by a poll afterwards, so the values of a sender stay in order if and only if
  no overtaken send is completed (`OutOfPlaceExactly`, `OrderedExactly`); dropping such a send keeps
  the order. A send counts from its first poll: an `async` send that was only created has not begun.
- `exchange/src/stream.rs:212-214` says that websocket depths are set aside while the snapshot is
  loaded. No code fills `websocket_depth_buffer`, and the flag `buffer_websocket_depths` is never
  read (`UpdateBufferOnlyGrows`). Exchange 1 keeps sending its websocket depths meanwhile; exchange 2
  puts them into the buffer that the snapshot is loaded into (`SnapshotFirstExactly`,
  `SnapshotNotFirst`).
- Nothing takes a slot out of `depth_update_buffer`, so a loaded snapshot is never sent
  (`UpdateBufferOnlyGrows`).
- Depths of exchange 2 are stamped with location 1 (`exchange/src/stream.rs:489-495`); the model
  does the same.
- `poll_next` is always ready: the model's poll is a function with a result for every state.
- `Exchange::new` builds a private pool from a pool id, while the driver passes it a shared pool
  (`exchange/src/exchange.rs:40-73`, `depth-driver/src/lib.rs:42-48`). Both sizings are modelled.

## Model

| member | source | states |
|---|---|---|
| ChannelImpl.Register | zc-async-channel/src/channel.rs:92-97 | the cell ends up holding a waker of the polling task, whatever it held |
| ChannelImpl.Wake | zc-async-channel/src/channel.rs:99-103 | the cell is emptied and the waker it held, and no other, is invoked |
| ChannelImpl.Channel.constructor | zc-async-channel/src/channel.rs:23-36 | a new channel of any capacity above 0 and any sender limit in 1..=64 is an empty queue with no handle |
| ChannelImpl.Channel.OccupiedCells | zc-async-channel/src/channel.rs:71-89 | cell `j` is occupied exactly when it is one of the `len` positions from `head` modulo N, and holds the value at that place of the queue |
| ChannelImpl.Channel.Split | zc-async-channel/src/channel.rs:38-48 | second and later splits keep leftover values; sender 0 and a receiver come to life |
| ChannelImpl.Channel.AllocTx | zc-async-channel/src/channel.rs:54-61 | the mask arithmetic takes the least id not in the set of live ids, and fails exactly when all `S` are taken |
| ChannelImpl.Channel.TxAlive | zc-async-channel/src/channel.rs:50-52 | a non-zero mask means a live sender |
| ChannelImpl.Channel.WakeTx | zc-async-channel/src/channel.rs:63-69 | the loop empties every sender cell and invokes exactly the wakers that were there |
| ChannelImpl.Channel.Push | zc-async-channel/src/channel.rs:71-78 | the ring appends to a queue of at most N values and wakes the receiver, or gives the value back when full |
| ChannelImpl.Channel.Pop | zc-async-channel/src/channel.rs:80-89 | the ring yields the oldest value and wakes every sender, or nothing when empty |
| ChannelImpl.Sender.TrySend | zc-async-channel/src/channel.rs:133-138 | refines the queue operation: the value is returned when the receiver is gone or the queue is full |
| ChannelImpl.Sender.TryClone | zc-async-channel/src/channel.rs:140-146 | a clone has the least free id, or there is none |
| ChannelImpl.Sender.Drop | zc-async-channel/src/channel.rs:176-184 | frees its own bit and waker cell only, and wakes the receiver exactly when it was the last |
| ChannelImpl.SendFuture.Poll | zc-async-channel/src/channel.rs:115-131 | the held value is there at each poll up to the first `Ready`, so the unwrap is safe; a pending poll puts it back and registers in its own cell |
| ChannelImpl.Receiver.PollRecv | zc-async-channel/src/channel.rs:158-169 | a value, the end when no sender lives, or registration |
| ChannelImpl.Receiver.TryRecv | zc-async-channel/src/channel.rs:171-173 | refines the queue operation |
| ChannelImpl.Receiver.Drop | zc-async-channel/src/channel.rs:185-190 | closes the channel and wakes every parked sender |
| SenderIds.AllocMask | zc-async-channel/src/channel.rs:54-61 | on 64-bit words, for every limit in 1..=64 including 64: the new mask denotes the old set and its least missing member below the limit |
| SenderIds.FreeMask | zc-async-channel/src/channel.rs:176-184 | clearing a bit removes that id from the set and no other |
| SenderIds.AnyId | zc-async-channel/src/channel.rs:50-52 | the mask is non-zero exactly when the set is not empty |
| SenderIds.LowestFreeBit | zc-async-channel/src/channel.rs:54-61 | trailing zeros of the free bits are the least free id |
| SenderIds.FreeIds | zc-async-channel/src/channel.rs:54-56 | the complement restricted to `all` denotes the free ids below the limit |
| ProtocolInvariant.StepKeeps | zc-async-channel/src/channel.rs:38-190 | every legal call and poll, spurious or not, from any task, with futures dropped at any point and ids reused, keeps: mask bits are the live senders, no lost wakeup on either side, futures own their value, accepted = delivered ++ queue |
| ProtocolRuns.Wakeups | zc-async-channel/src/channel.rs:63-103 | in every reachable state an unwoken parked sender has its waker in its own cell, a full queue and a live receiver; an unwoken parked receiver has its waker registered, an empty queue and a live sender; never both |
| ProtocolWakes.StepWakes | zc-async-channel/src/channel.rs:63-190 | the other direction, for every step: a sender cell's waker is invoked exactly when a value leaves the queue or the receiver goes away, the receiver's exactly when a value enters or the last sender goes away, and no other waker ever; a waker leaves its cell exactly when it is invoked, replaced by a new poll of its future, or dropped with its handle |
| ProtocolWakes.StepOthers | zc-async-channel/src/channel.rs:63-190 | a step reaches another sender's future only by invoking its waker, and notes that on it exactly then |
| ProtocolWakes.StepReceiver | zc-async-channel/src/channel.rs:63-190 | and so it reaches the receiver's future |
| ProtocolWakes.PollSendAnswers | zc-async-channel/src/channel.rs:115-131 | in every reachable state a poll of a send waits exactly when there is a receiver and no room; it is then registered, not woken, and nothing else has changed; otherwise the value is taken, or that same value is given back |
| ProtocolWakes.TrySendAnswers | zc-async-channel/src/channel.rs:133-138 | in every reachable state `try_send` takes the value exactly when there is a receiver and room, and otherwise gives back that same value, changes nothing and invokes no waker |
| ProtocolWakes.PollRecvAnswers | zc-async-channel/src/channel.rs:158-169 | in every reachable state a poll of `recv` gives the oldest value; or the end, exactly when the queue is empty and no sender is left; or waits, registered and not woken |
| ProtocolWakes.OwnValueBack | zc-async-channel/src/channel.rs:115-138 | over every run, each send that failed has handed back its own value and never entered the queue |
| ProtocolWakes.StartsEmpty | zc-async-channel/src/channel.rs:23-36 | a new channel holds no value, no id and no waker |
| ProtocolRuns.Fifo | zc-async-channel/src/channel.rs:71-89 | in every reachable state, also after further splits, the delivered values are those of the first accepted sends in order, the queue is the rest, and the lag is at most the capacity |
| ProtocolRuns.ExactlyOnce | zc-async-channel/src/channel.rs:115-138 | a send that reported success entered the queue once; one that is pending, dropped or gave its value back never did |
| ProtocolRuns.SettledForever | zc-async-channel/src/channel.rs:115-138 | the outcome and value of a settled send, what was accepted and what was delivered never change later |
| ProtocolOrder.StepMarks | zc-async-channel/src/channel.rs:115-138 | a send has its turn at its first poll or when `try_send` is called; each step marks exactly the parked send that a later one gets ahead of (a `try_send` of the same handle found room) and the marked send that a poll completes |
| ProtocolOrder.OutOfPlaceExactly | zc-async-channel/src/channel.rs:115-138 | after any run from a new channel, an accepted value is behind a later one of its sender if and only if its send was parked when a `try_send` of that handle found room and was completed by a poll after that; dropping the overtaken send leaves the order intact |
| ProtocolOrder.OrderedExactly | zc-async-channel/src/channel.rs:115-138 | so the accepted values of every sender are in the order of their turns if and only if no overtaken send is completed later, and the delivered ones if and only if no such value has been delivered |
| ProtocolOrder.NoOvertakingNoLate | zc-async-channel/src/channel.rs:115-138 | a run in which no `try_send` finds room while a send of its handle is parked has no such completion |
| Overtaking.SendOvertaken | zc-async-channel/src/channel.rs:115-138 | a concrete run: a send is polled and parks, the receiver makes room, and `try_send` on the same handle delivers a later value before it |
| ProtocolRuns.CloneIds | zc-async-channel/src/channel.rs:140-146 | in every reachable state the ids are the live senders, all below the limit; `try_clone` gives the least free one and fails exactly when `S` live |
| ProtocolRuns.CloseIsFinal | zc-async-channel/src/channel.rs:158-169 | `recv` reports the end only with no sender left and everything delivered, and then at every later poll until the next split |
| ProtocolRuns.ReceiverGone | zc-async-channel/src/channel.rs:185-190 | after the receiver is dropped and until the next split: the queue never changes, no sender is parked unwoken, every poll of a send returns its own value |
| DeliveryTheorem.TaskStepDescends | zc-async-channel/src/channel.rs:63-89 | every step of a sender or receiver task lowers (unsent values twice, queued values and handles; then runnable tasks) |
| DeliveryTheorem.SomeTaskRuns | zc-async-channel/src/channel.rs:115-169 | deadlock freedom: while a task is unfinished some task is runnable |
| DeliveryTheorem.TotalDelivery | zc-async-channel/src/channel.rs:115-190 | up to `S` senders each send a finite list and drop, the receiver receives to the end, and every waker that a call invokes makes its tasks runnable: every schedule ends within a bound known at the start, and one that cannot go on has finished all tasks and delivered a merge of the lists |
| DeliveryRuns.ScheduleReaches | zc-async-channel/src/channel.rs:38-190 | every state of that program is a reachable state of the protocol, so all of the above holds in it |
| DepthPools.DepthPool.WithCapacity | depth-driver/src/lib.rs:35-38 | a pool with the capacity asked for and nothing live |
| DepthPools.DepthPool.Insert | exchange/src/stream.rs:75-88 | takes a free cell, which then reads back as the depth; `Exhausted` exactly when none is free |
| DepthPools.DepthPool.Release | exchange/src/stream.rs:84-91 | gives back a live slot; a slot that is not live may not be released |
| DepthPools.InsertKeeps | exchange/src/stream.rs:75-88 | a taken slot was not live before, and is the only change to the live set |
| DepthPools.ReleaseKeeps | exchange/src/stream.rs:84-91 | a released slot is the only change to the live set |
| Ingest.TakeDepth | exchange/src/stream.rs:66-83 | the callback: one depth into the pool and the target, or neither; `full` exactly when the target or the pool has no room |
| Ingest.ParseBook | exchange/src/stream.rs:66-83 | the parser stops at the first refused depth, and may fail after some were taken |
| Ingest.ReleaseEach | exchange/src/stream.rs:84-88 | the rollback releases each drained slot once |
| Ingest.IngestBook | exchange/src/stream.rs:56-92 | the transaction in place: exactly the pool, target and result of the model function |
| Ingest.FeedStops | exchange/src/stream.rs:66-83 | where a payload stops, in terms of the room in the buffer, the free cells and the depths alone |
| Ingest.AllOrNothing | exchange/src/stream.rs:53-92 | success exactly when the text is well formed, every level can be archived and all fit; then one fresh slot for each level, in order, whose cell holds that level's side, price and quantity with the location and flag given; every other cell, and on any failure the target and every cell, as before; `Full` exactly when room ran out |
| ExchangeStreamImpl.DepthChannel.TrySend | exchange/src/stream.rs:417-436 | the four outcomes of the bounded channel |
| PollTheorems.SinkAnswers | exchange/src/stream.rs:417-436 | a slot goes to the end of the channel exactly when it is open and has a place left; otherwise nothing changes, and the answer names the reason |
| ExchangeStreamImpl.ExchangeStream.SendOne | exchange/src/stream.rs:416-438 | at most one slot goes out; a refused slot goes back on the buffer, one refused for good goes back to the pool |
| ExchangeStreamImpl.ExchangeStream.PollNext | exchange/src/stream.rs:411-539 | the loop over ready items, on objects updated in place, computes the model's poll |
| PollTheorems.PollRefinesFold | exchange/src/stream.rs:411-539 | for both exchanges, after at most one slot is sent, a poll is exactly a fold over the ready items, the room and the free cells: which texts are taken, in order and each wholly or not at all, at which item it stops, with which state, and what is left to read |
| PollFold.TextSees | exchange/src/stream.rs:445-507 | one text is taken whole, ends the poll if and only if the part of it that fits is storable and more follows, or else is skipped and leaves no trace |
| PollFold.DrainSees | exchange/src/stream.rs:439-539 | the loop over ready items computes that fold: first frames, errors, ends, pings, malformed, unstorable and oversized texts included |
| PollFold.FullFold | exchange/src/stream.rs:465-468 | a poll that ends as full stopped at a text longer than the space that was left |
| PollTheorems.BackpressureDrain | exchange/src/stream.rs:415-438 | over any run of polls without messages, delivered ++ reverse(buffer) is always the reverse of the initial buffer |
| PollTheorems.FullChannelKeeps | exchange/src/stream.rs:421-426 | polls that meet a full channel leave the stream exactly as it was |
| PollTheorems.RoomEmptiesBuffer | exchange/src/stream.rs:416-420 | with room, as many polls as there are slots deliver them all, newest first |
| ExchangeStreamImpl.ExchangeStream.PullDepths | exchange/src/stream.rs:318-331 | a pulled snapshot is a new buffer of slots, or an error that leaves the pool's cells alone |
| SnapshotTheorems.PulledLevels | exchange/src/stream.rs:318-331 | a snapshot is there exactly for a known exchange with a text that parses, can be archived and fits; then one fresh slot for each level, in order, whose cell holds that level with the exchange as location and marked as a snapshot |
| ExchangeStreamImpl.ExchangeStream.RunSnapshot | exchange/src/stream.rs:202-229 | the loops in place compute the model's run |
| ExchangeStreamImpl.ExchangeStream.PushSnapshotDepths | exchange/src/stream.rs:208-218 | push, then poll, until the snapshot is used up or a push finds the buffer full |
| ExchangeStreamImpl.ExchangeStream.PushBufferedWsDepths | exchange/src/stream.rs:231-236 | the loop in place computes the model's move |
| SnapshotTheorems.SnapshotLoads | exchange/src/stream.rs:208-218 | for exchange 1 the loop appends the snapshot in order and nothing else; it panics exactly when it does not fit, with the buffer full |
| SnapshotTheorems.BufferedReversed | exchange/src/stream.rs:231-236 | the websocket buffer ends up behind the update buffer, newest first; it panics exactly when they do not fit together |
| SnapshotTheorems.BufferedPanics | exchange/src/stream.rs:231-236 | where it panics: the update buffer is full of the newest slots and one more has been taken out |
| SnapshotTheorems.FailedPull | exchange/src/stream.rs:219-225 | a failed pull leaves every buffer, the channel and every cell as they were |
| SnapshotTheorems.SnapshotFirst | exchange/src/stream.rs:202-236 | for exchange 1 from an empty update buffer, whatever the interleaved polls saw: first the levels of the snapshot in order, then the buffered slots in reverse; it completes exactly when the snapshot is accepted and both groups fit |
| ExchangeTwo.PollSees | exchange/src/stream.rs:477-536 | a poll of exchange 2 sends nothing and only folds the ready items into the update buffer |
| ExchangeTwo.LoadsWoven | exchange/src/stream.rs:208-218 | for exchange 2 the loop leaves each snapshot depth followed by what its poll accepts, and panics exactly when a push finds no room |
| ExchangeTwo.SnapshotFirstExactly | exchange/src/stream.rs:202-229 | `run_snapshot` of exchange 2 for any connection state, pending and arriving items and room: its exact outcome and contents; the snapshot is in front if and only if the polls before the last push accept nothing |
| ExchangeTwoRuns.ReachedTwo | exchange/src/stream.rs:411-539 | in every reachable state a stream of exchange 2 has an empty outgoing buffer and live slots in its update buffer, which is all the above asks for |
| ExchangeTwoRuns.SnapshotNotFirst | exchange/src/stream.rs:477-507 | a driver is built with one stream of exchange 2 and connects: what its `run_snapshot` then leaves, on a concrete snapshot and three groups of items, is a reachable state whose buffer reads back a websocket depth before the last snapshot depth |
| SyncTheorems.SyncOrders | depth-driver/src/lib.rs:91-103 | after `sync_orderbook` over any number of streams on one pool, each stream of exchange 1 that began empty has its snapshot in order and then its buffered slots in reverse, and every live slot is still held exactly once |
| SyncOutcomes.SyncEnds | depth-driver/src/lib.rs:91-103 | with a sized pool and a reader that holds nothing, the exact outcome of start-up for any mix of exchanges: the first snapshot that cannot be loaded or does not fit decides, else whether what each stream set aside fits; pool cells never run short |
| SyncOutcomes.SyncStops | depth-driver/src/lib.rs:91-94 | a stream that does not load ends start-up: every stream behind it is exactly as it was |
| SyncTheorems.FailureMovesNothing | depth-driver/src/lib.rs:91-103 | if any snapshot fails, no websocket buffer of any stream has been moved |
| InterleavedStartup.LoadsInOrder | exchange/src/stream.rs:202-229 | under every interleaving with other streams, the reader and other producers, what a stream of exchange 1 has loaded and has still to load reads back as what it began with followed by the snapshots it pulled |
| InterleavedStartup.MovesInOrder | exchange/src/stream.rs:231-236 | and then update buffer ++ reverse(websocket buffer) never changes, and what is loaded keeps reading back the same |
| InterleavedStartup.SnapshotFirstInterleaved | depth-driver/src/lib.rs:91-103 | snapshot first for exchange 1 under every interleaving of the two phases with everyone else |
| StartupRuns.SyncIsRun | depth-driver/src/lib.rs:91-103 | a completed `sync_orderbook` is a run of the ownership steps |
| DepthDriverImpl.DepthDriver.New | depth-driver/src/lib.rs:31-52 | one stream for each configured exchange, in order, each of its own exchange and with empty buffers, on one empty pool of 10000 + 4000 n cells and a channel of 10000 places; it fails exactly when one of them cannot be built |
| OwnershipTheorems.BuiltAs | depth-driver/src/lib.rs:31-52 | what the theorems about runs of a driver start from: those streams, that pool with every cell free, that channel, and nothing else |
| DepthDriverImpl.DepthDriver.RunSnapshots | depth-driver/src/lib.rs:91-94 | the first loop: no snapshot of a later stream is run after a failure |
| DepthDriverImpl.DepthDriver.PushAllBufferedWsDepths | depth-driver/src/lib.rs:95-101 | the second loop |
| DepthDriverImpl.DepthDriver.SyncOrderbook | depth-driver/src/lib.rs:91-103 | on objects that share one pool and one channel, exactly the model's two passes |
| Ownership.StepConserves | exchange/src/stream.rs:56-236 | every step of any stream (each outcome of a poll, a pull, a push of a snapshot slot, a move of a buffered slot), of the reader and of other producers keeps the live slots equal, as a multiset, to the slots held in buffers, unread snapshots, channel and reader |
| OwnershipTheorems.Conservation | exchange/src/stream.rs:56-236 | so after any run every live slot is held exactly once and nothing else is held; held slots and free cells make up the capacity |
| OwnershipTheorems.ExhaustionNeedsReader | depth-driver/src/lib.rs:35-38 | an insert that finds no free cell while its target has room means the reader holds a slot of this pool |
| OwnershipTheorems.RunsDryOnlyByReader | depth-driver/src/lib.rs:35-38 | the same after any run, for any number of streams, whatever other producers put in the channel |
| OwnershipTheorems.FullMeansBuffer | exchange/src/stream.rs:465-468 | with a reader that holds nothing, a message is dropped as full only when its own buffer is too small for it |
| OwnershipTheorems.FullPollMeansBuffer | exchange/src/stream.rs:465-468 | after any run of a driver, a poll that ends as full while the reader holds nothing stopped at a text that is too long for what is left of its own buffer |
| OwnershipTheorems.SharedPoolSuffices | depth-driver/src/lib.rs:31-52 | after any run of a driver built with the shared capacity, for any number of exchanges, an insert that finds no free cell while its target has room means the reader holds a slot |
| OwnershipTheorems.PrivatePoolSuffices | exchange/src/exchange.rs:46-58 | the same after any run for an exchange with its own pool, for a channel of any capacity that is not refused, also when others send on it; the pool has exactly that capacity and 4000 cells more, which fits in `u32` |
| OwnershipTheorems.PrivateRefused | exchange/src/exchange.rs:46-54 | the capacity is that of the channel and 4000, refused exactly when that exceeds `u32::MAX` |
| OwnershipTheorems.UpdateBufferOnlyGrows | exchange/src/stream.rs:110-126 | no step takes a slot out of the update buffer, and no step fills an empty websocket buffer |

## Left out

- DepthPools.DepthPool.Insert: a pool of fixed capacity with a free list, made from its call sites; the `depth-pool` crate at this commit is a stub, and the rkyv archive and the layout of `Decimal` are library behaviour.
- Ingest.ParseBook: stands for `parse_binance_book`, which is not part of this model; made from its call site, with JSON syntax reduced to a list of levels and whether the text is well formed.
- ExchangeStreamImpl.DepthChannel.TrySend: the kanal sender as a bounded queue; a hand-off to a waiting receiver of a capacity-0 channel, and the discarding of queued handles when the channel is closed, are not modelled.
- DepthDriverImpl.DepthDriver.SyncOrderbook: the reader and other producers take no step between two streams here; InterleavedStartup covers those interleavings on values.
- DepthDriverImpl.DepthDriver.New: a capacity that overflows `usize` is excluded; no list of exchanges in memory is that long.
- SyncOutcomes.SyncEnds: for a pool that is large enough and a reader that holds nothing of it; with a reader that holds slots a snapshot can also be refused for lack of cells.
- Wakers are compared by the task they wake, so `will_wake` is exact: two wakers of one task are the same.
- `orderbook_snapshot` unwraps an HTTP client that a stream built with snapshots off does not have (`exchange/src/stream.rs:351-355`): that panic is not an outcome of the model; every stream is taken to have its client.
- Cancelling `run_snapshot` midway: the unread part of the snapshot would be dropped unreleased.
- `sequence_depths`, which copies handles without removing them, and `run_with_snapshot`, which races a timer.
- `Clone for Sender`, which panics where `try_clone` returns nothing.
- Websocket connect and reconnect, subscription, HTTP, TLS, timers and logging.
- `orderbook`, the gRPC server, configuration, the binaries and the generators under `testing`.
