# A lock-free SPSC byte ring between two processes, and its channel protocol

Two processes share a mapping. Each direction of the channel is a byte ring: the sender
appends frames `[len:u32][seq:u32][payload]` with a private write cursor and a possibly
stale copy of the peer's read cursor; the receiver peeks, copies and commits. Around the
ring stand a notify/parked sleep protocol, a channel state word moved by compare-exchange
(claim handshake, close, observed death, retirement), a rate-limited liveness probe, and an
asynchronous layer that promises to change nothing before its commit point.

The project models that core twice and ties the two together.

* **As step machines over shared words, for every schedule.** `RingMachine` is one direction:
  a sender, a receiver and the rest of the world, with explicit program counters. Every load
  and store of a shared word is a step, every copied byte is a step, and every party may be
  delayed anywhere. `RingInvariant` and `RingWaits` prove one inductive invariant;
  `RingTheorems` and `RingEndings` read the theorems off it. `ClaimMachine` does the same for
  the state word and the identity words with any number of openers, closers, death observers
  and waiters; `Liveness` is a timed model of the probe; `WindowsPoll` is the Windows
  `WaitChanged` future with its thread-pool callback. `Mapping` puts both directions into the
  one file of bytes the processes share, with one state word and the offsets of `Layout`, and
  proves that each direction then runs exactly as its machine would alone (`Duplex` is the
  intermediate step: two rings and one state word). `RingAttempts` says how a send ends, and
  `RingCoverage` what its result says about the end of the channel. `RingCalls`, `RingBlocking`
  and `ClaimOutcomes` add the other half of safety: each call ends as it should when nothing
  stands in its way, blocks when it must, and fails only for a reason.
* **As objects over real arrays, updated in place.** `RingBuffer`, `SharedChannel`,
  `RingSender` and `RingReceiver` are classes whose methods are the library's own, loops
  included, and `AsyncOps` holds the asynchronous operations. Other parties move at marked
  points (`PeerTakes`, `PeerSends`, `Interfere`), as much as they like.
* **Tied together.** `RingLink` shows that the in-place publish and copy-out are undisturbed
  runs of the byte steps, and the peek and the commit runs of theirs; `ClaimMachine.StateOnlyClimbs` shows that every party moves the
  state word only along the edges `RingMachine` allows at any time; both forms share `Frames`
  (what the bytes mean), `Words` (32-bit wrap-around, little-endian, masks) and `States`.
  `Layout` gives the offsets that `Mapping` needs.

The specification the ring refines is `RingTheorems.FifoStep`: a queue of byte strings whose
frames occupy at most the ring size. The refinement mapping `RingTheorems.Queue` reads the
queue off the shared bytes and cursors alone, by parsing frames from `rc` to `wc`.

## Reading the step machines

| module | steps | source |
|---|---|---|
| RingMachine `TryStep` | readiness check, cached and fresh room tests | `src/ring.rs` 125-188, `src/shared.rs` 81-155 |
| RingMachine `EmitStep` | byte copies, cursor store, bump, parked load, wake | `src/ring.rs` 200-216, 234-251 |
| RingMachine `BlockStep`, `ParkStep` | spin, snapshot, check, park, check, sleep, unpark | `src/wait.rs` 56-124 |
| RingMachine `PeekStep` | cursor load, header bytes, parse, readiness, second peek | `src/ring.rs` 361-387, 433-449, 465-471 |
| RingMachine `TakeStep` | payload bytes, number check, cursor store, bump, wake | `src/ring.rs` 389-421 |
| RingMachine `MoveStep`, `AllStep` | state word moves; `wake_all` line by line | `src/shared.rs` 91-110, 166-209 |
| WaitLine | futex compare-and-sleep, auto-reset event | `src/platform/linux.rs` 21-81, `src/platform/windows.rs` 271-286 |
| ClaimMachine `ActStep` | `try_open`, `finish`, `close`, `check_ready` | `src/channel.rs` 134-215, `src/shared.rs` 81-187 |
| WindowsPoll `Step` | `WaitChanged::poll`, `disarm`, `AsyncWaitState`, callback | `src/tokio/bridge.rs` 214-264, `src/platform/windows.rs` 110-135, 404-416 |

All parties take sequentially consistent steps. History variables (`published`, `consumed`,
`atTerm`, `base`, `winner`, `connected`, …) record the past and never steer a step of the
modelled code. Only the object model's stand-ins for the peer (`PeerTakes`, `PeerSends`,
`PeerMoves`) read them, to generate what a correct peer may do: take whole frames, publish
correctly numbered ones, and publish only once the channel has been Connected, which
`RingEndings.NothingBeforeConnected` proves of the machine.

## Three findings

* `check_ready` has one error on which `try_peek_or_closed` does not peek again: the
  `TimedOut` of the caller that retired an unready channel (`src/ring.rs` 433-449). It cannot
  lose a record, because such a channel never carried one and never will
  (`RingEndings.NothingBeforeConnected`).
* `Ok` from a send does not mean that the channel was still connected when the record was
  published: the readiness check comes first, and a close may overtake it (`src/ring.rs`
  171-187). `RingCoverage.SentAfterClose` is the run. `RingCoverage.SentBeforeCloseIff` says
  exactly when it does hold: the record is out before the channel ends if and only if nobody
  closes it or latches a death between the check and the cursor store. Being out in time is
  what the drain guarantee needs (`RingCoverage.CoveredIsTaken`).
* The length check and the partial-frame check in `try_peek_message`, `SequenceMismatch`, and
  `InvalidHeader` from a working channel are unreachable at any run length
  (`RingTheorems.NoCorruption`, `RingTheorems.PeekIsExact`); they guard only against a peer
  that does not follow the protocol.

## Model

| member | source | states |
|---|---|---|
| RingTheorems.ChannelRefinesFifo | src/ring.rs:170-251 | every schedule from creation is a run of a bounded FIFO of byte strings from the empty queue; records are taken in order, each delivered whole if the call has the room for it and dropped, once, only if it has not; what shared memory decodes to is exactly what was sent and not yet taken |
| RingTheorems.StepRefinesFifo | src/ring.rs:361-421 | each micro-step of any party is one enqueue that fits, one dequeue of the head's own bytes by a call with the room for them, one drop of the head by a call without, or invisible |
| RingTheorems.RunRefinesFifo | src/ring.rs:170-251 | the same over any schedule from any state satisfying the invariant |
| RingTheorems.DecodeIsSuffix | src/ring.rs:465-501 | parsing frames out of the circular bytes from the read to the write cursor yields exactly the unread payloads |
| RingTheorems.QueueIsPending | src/ring.rs:218-221 | the decoded queue occupies exactly `wc - rc` bytes, the quantity `has_space` compares |
| RingTheorems.HistoryStep | src/ring.rs:207-215 | only the two cursor stores change what has been sent or taken, and only byte copies change memory |
| RingTheorems.UnreadBytesStable | src/ring.rs:176-186 | in every reachable state `cached_rc <= rc <= wc <= cached_rc + N`, and no step of anyone changes an unread byte |
| RingTheorems.FrameSlotsFree | src/ring.rs:234-251 | every slot of a half-written frame is disjoint from the unread window, however stale the sender's read cursor |
| RingTheorems.NoCorruption | src/ring.rs:473-482 | for every run length, past 2^32 frames too, both counters are (1 + k) mod 2^32, the numbers agree at every commit, and no receive reports SequenceMismatch, MessageTooLarge from the ring, or InvalidHeader |
| RingTheorems.PeekIsExact | src/ring.rs:361-387 | a peek is empty exactly when the cursors meet, and otherwise parses the head frame truthfully; the oversized and partial-frame branches are dead |
| RingTheorems.CallsAreAtomic | src/ring.rs:125-188 | a send that reports Sent published exactly one frame, its own payload, and any other outcome published none; a receive that returns took exactly one record, the next one, delivered if and only if its buffer has the room, and otherwise none |
| RingCalls.RecordMeansGot | src/ring.rs:319-359 | a record there when a receive begins is what that receive returns, on every run to its end, whoever closes, dies or times out: whole if the call's buffer has the room (always, for `recv` and `try_recv`), discarded only if not |
| RingCalls.NeverDiscards | src/ring.rs:319-325 | over every run with plain receives only, what was taken is exactly a prefix of what was sent, each record delivered whole |
| RingCalls.FindingStep | src/ring.rs:361-421 | such a receive is never set back by others and each of its own steps brings it nearer its end |
| RingCalls.ReceiveFailsForAReason | src/ring.rs:433-463 | a receive times out only if its deadline passed in this call, reports a retirement only over its own compare-exchange in this call, and otherwise only the latched cause |
| RingCalls.SendFailsForAReason | src/ring.rs:125-188 | over every run of a call: too large if and only if the payload can never fit; TimedOut, retirement and cause as for a receive |
| RingCalls.EndIsReported | src/ring.rs:433-449 | a receive begun on a channel that has ended returns a record or reports the cause, on every run to its end; it never finds nothing, waits, or times out |
| RingCalls.SendIsRefused | src/ring.rs:170-173 | a send of a payload that could fit, begun on a channel that has ended, reports the cause on every run to its end |
| RingCalls.NobodyIsStuck | src/wait.rs:77-123 | in every reachable state sender and receiver each have an enabled step of their own |
| RingBlocking.QuietReceiverSleeps | src/wait.rs:77-121 | a receive on an empty, connected, quiet ring looks, snapshots, looks, parks, looks again and falls asleep, parked |
| RingBlocking.QuietSenderSleeps | src/wait.rs:77-121 | so does a blocking send into a ring without the room, after finding neither its cached nor the fresh read cursor of use |
| RingBlocking.QuietTryFindsEmpty | src/ring.rs:349-359 | a non-blocking receive on an empty, quiet, connected ring returns Empty |
| RingBlocking.QuietTryFindsFull | src/ring.rs:176-184 | a non-blocking send without the room returns Full |
| RingTheorems.SleepTestExact | src/wait.rs:77-121 | between a waiter's snapshot and its sleep test at most N/8 + 3 bumps happen, so equal 32-bit notify words mean no bump at all, and the waiter sleeps exactly then (on an event: exactly if it is not set) |
| RingTheorems.NoLostWakeUp | src/wait.rs:77-123 | whenever a receiver sleeps on a record or terminal state, or a sender on room or a terminal state, at most three enabled steps of a party already under way wake it, on futexes and on events |
| RingTheorems.PlanWakesReceiver | src/ring.rs:207-215 | the remaining publisher or `wake_all` steps form a schedule that rouses the sleeping receiver |
| RingTheorems.PlanWakesSender | src/ring.rs:411-418 | the mirror image for a sleeping sender |
| RingEndings.ReceiverWillWake | src/shared.rs:189-209 | a receiver asleep on a true condition keeps a positive debt; every step of its debtors lowers it or wakes it, and only a new publish or state move can add to it |
| RingEndings.SenderWillWake | src/ring.rs:411-418 | the same for a sender asleep while it could send or must fail |
| RingEndings.DrainBeforeTerminal | src/ring.rs:433-449 | a receive that reports ChannelClosed or PeerDisconnected has taken every record published in any state before the state word became terminal, and the cause reported is the one latched |
| RingEndings.NothingBeforeConnected | src/shared.rs:81-110 | a channel never Connected has both cursors at 0; after the one retirement TimedOut, nothing was or ever will be published |
| RingEndings.RunLater | src/shared.rs:166-187 | over every run, history and cursors only grow, the state word only climbs, and the first terminal cause is kept for ever |
| RingAttempts.FullIsExact | src/ring.rs:176-188 | over every run of a non-blocking attempt from its fresh load to its end, whoever moves or closes meanwhile: the result is Sent if the true free space at that load holds the frame, and Full if it does not |
| RingAttempts.RoomMeansSent | src/ring.rs:170-188 | room there anywhere in an attempt's tests or in a look of its wait, or a drained ring, means that every run of the call ends in Sent or in the latched cause of a channel gone terminal |
| RingAttempts.GrantedSends | src/ring.rs:136-166 | after a successful wait, every run of the call to its end ends in Sent, or in the latched terminal cause |
| RingAttempts.GrantedNeverWaits | src/ring.rs:170-216 | and it gets there alone: until it ends one of its own steps is enabled, each lowers the at most frame size plus 12 steps left, and nobody else's step raises them |
| RingCoverage.SentAfterClose | src/ring.rs:171-187 | on every legal ring some run reports Sent of a record published after the channel was closed |
| RingCoverage.SentBeforeCloseIff | src/ring.rs:170-208 | for every run of a call to its Sent, from any point at which the channel is connected, the passing check in particular: its record is out before the terminal move if and only if nobody closes or latches a death between that point and the cursor store |
| RingCoverage.ConnectedIff | src/shared.rs:166-187 | a channel connected at some point is still connected after a run if and only if nobody closed it or latched a death in that run |
| RingCoverage.CoveredIsTaken | src/ring.rs:433-449 | a record out before the terminal move has been taken by the time a receive reports the cause |
| RingCoverage.SentMeansConnected | src/ring.rs:171-187 | what every Sent means: the channel has been Connected, and exactly one frame, this payload, is out |
| RingWaits.StepInv | src/wait.rs:56-124 | every step of sender, receiver, and all others keeps the whole invariant: data, state word, sleepers, and bump counts |
| RingWaits.RunInv | src/wait.rs:56-124 | the invariant holds over every run |
| RingWaits.SnapshotFresh | src/wait.rs:78-121 | while a side waits, frame sizes and the two `wake_all` calls bound how far the notify word can run from the snapshot |
| RingInvariant.InitInv | src/channel.rs:84-102 | the state `create_with_config` leaves satisfies the invariant |
| RingInvariant.ParseHeader | src/ring.rs:465-471 | a header read byte by byte while the sender is active parses to the head frame's length and number |
| RingWaits.OthersKeepReceiver | src/wait.rs:94-115 | any step of anyone else keeps a waiting receiver awake, provided whoever gives it something to wake for raises the alarm on its line in the same step |
| RingWaits.OthersKeepSender | src/wait.rs:94-115 | the mirror image for a waiting sender |
| WaitLine.OthersKeepAlarm | src/wait.rs:94-121 | nobody but the waiter can let an alarm be slept through: it stays raised until the waiter's sleep test, and a sleeper owed a wake is owed it until roused |
| WaitLine.ChangeAlarms | src/ring.rs:207-215 | storing a cursor, or becoming due to run `wake_all`, raises the alarm at once |
| WaitLine.HotStable | src/wait.rs:94-115 | once a condition became true under a parked waiter, no step of any publisher or of `wake_all` lets the waiter fall asleep unnoticed |
| WaitLine.HotSleep | src/platform/linux.rs:21-50 | the compare-and-sleep (or the event) then either refuses to sleep or sleeps with a wake still owed |
| WaitLine.OwedStable | src/ring.rs:212-215 | a debt to a sleeper is discharged only by waking it |
| WaitLine.DebtIsPaid | src/ring.rs:212-215 | each debtor is at most three steps from the wake |
| ClaimMachine.StateOnlyClimbs | src/header.rs:16-34 | with any number of parties the word climbs Init, ServerReady, ClientClaimed, Connected, terminal, one legal edge a step, and never leaves a terminal state |
| ClaimMachine.OneWinner | src/channel.rs:173-188 | at most one opener ever gets past the claim, on any run |
| ClaimOutcomes.LoneOpenerOpens | src/channel.rs:154-214 | from every reachable ServerReady state an opener with a valid header, left alone, opens the channel: Connected, both identity words its own |
| ClaimOutcomes.OpenFailsForAReason | src/channel.rs:154-204 | over all runs, `try_open` says "not yet" only if the word was Init when it began, InvalidHeader only on a bad header, PeerDisconnected only over a latched death, ChannelClosed only if another party claimed or ended the channel |
| ClaimOutcomes.CreatorPublishes | src/channel.rs:84-102 | the creator turns a fresh mapping into ServerReady with both client identity words zero |
| ClaimOutcomes.WhoEnds | src/shared.rs:94-187 | a terminal state is latched only by a finisher, and is then that finisher's own cause, or by a retirement of an unready channel, and is then Closed |
| ClaimOutcomes.LoneFinisherEnds | src/shared.rs:157-187 | an undisturbed finisher ends the channel with its cause unless one is latched, and an undisturbed close says Ok or names the death that came first |
| ClaimOutcomes.CheckEndsForAReason | src/shared.rs:81-110 | over all runs, `check_ready` says "not ready" only for a channel unready when it began and a time-out still running, TimedOut only after the time-out over its own compare-exchange, a cause only if latched |
| ClaimOutcomes.LoneCheckerDecides | src/shared.rs:81-134 | undisturbed, it shows the caller of a connected channel its peer, and retires an unready channel whose time is up |
| ClaimMachine.ConnectedIdentity | src/channel.rs:189-204 | Connected is never observable with a zero or mixed identity: both words are zero while ServerReady and the winner's once Connected, and so is every identity a peer reads |
| ClaimMachine.CloseTellsTheCause | src/shared.rs:157-164 | a close ends in Ok if and only if Closed is latched, in PeerDisconnected if and only if a death came first, and in nothing else |
| ClaimMachine.ResultsTellTheCause | src/shared.rs:157-187 | what a party was told stays true: the cause behind a close's Ok or an observed death is never overwritten; a retirement's TimedOut goes to one caller, of a channel never and never to be connected |
| ClaimMachine.RetriesBounded | src/shared.rs:81-110 | a failed strong compare-exchange in `check_ready` means the state's rank rose; no caller fails more than twice |
| ClaimMachine.StepInv | src/shared.rs:81-187 | every step of every party keeps the claim, identity and result invariant |
| ClaimMachine.RunInv | src/shared.rs:81-187 | over every run: winner, connection and retirement are never revised |
| Liveness.DeathDetectedInTime | src/shared.rs:112-154 | 350 ms after the peer's death every blocked caller has ended with the latched terminal cause, whatever the number of callers sharing the throttle |
| Liveness.ProbesAdvance | src/shared.rs:147-150 | each completed probe moves `next_probe_ms` strictly later, across both halves |
| Liveness.ProbesAreSpaced | src/shared.rs:112-151 | over every run, after one caller's completed probe no caller observes the peer again for a whole probe interval |
| Liveness.NoFalseDeath | src/shared.rs:144-146 | a caller's step moves the state word only to PeerDisconnected and only if the peer is dead |
| Liveness.HealthyStaysUp | src/shared.rs:112-154 | over every run in which nobody closes and the peer lives, the channel stays connected and no call ends |
| Liveness.TimeAlwaysPasses | src/shared.rs:112-154 | the bound is not vacuous: from every reachable state and for every d some schedule lets d milliseconds pass |
| Liveness.ComeToRest | src/wait.rs:85-122 | without time passing, every caller, lock holder and lock waiters included, can be brought to sleep past now or to its end |
| Liveness.StepInv | src/shared.rs:112-154 | every tick, death, close and caller step keeps the timing invariant |
| WindowsPoll.PendingIsWoken | src/platform/windows.rs:110-129 | if poll returned Pending and the 32-bit notify word moved on, `parked` is 1, the stored waker is the polling task's, and a publisher, `wake_all`, the event, a callback or a waker already read is still due to wake it, or already has; while a future waits, equal words mean no bump at all |
| WindowsPoll.PendingWakesSoon | src/platform/windows.rs:404-416 | once the word has moved, at most six enabled steps of publishers, pool and callbacks reach the task, without its help |
| WindowsPoll.StoreWakes | src/tokio/bridge.rs:239-263 | end to end: if the peer stored its cursor after the awaited condition was last looked at and the future is Pending, at most seven enabled steps wake the task, or it has been woken |
| WindowsPoll.JourneyWakes | src/platform/windows.rs:404-416 | those steps, from wherever the furthest signal stands, form a schedule that calls the task's waker |
| WindowsPoll.DisarmedIsUnparked | src/tokio/bridge.rs:220-234 | every completion and every drop leaves `parked` clear |
| WindowsPoll.CompletesOnlyForABump | src/tokio/bridge.rs:239-244 | a wait completes, rather than being dropped, only if a bump came since the count it observed, and the load that decides it tells exactly that from the 32-bit word |
| WindowsPoll.CompletesWhenBumped | src/tokio/bridge.rs:239-244 | once there is a bump the next poll completes by itself and leaves `parked` clear |
| WindowsPoll.QuietPollPends | src/tokio/bridge.rs:246-256 | with no bump since its snapshot an undisturbed poll ends Pending, parked, its waker stored |
| WindowsPoll.SomeRunPends | src/tokio/bridge.rs:246-256 | some run of a fresh wait reaches Pending |
| WindowsPoll.StepInv | src/tokio/bridge.rs:239-263 | every interleaving of swap, store-waker, swap with bumps, unconditional `wake_all` event sets, store-signal and take-waker keeps the invariant |
| WindowsPoll.WordsTellBumps | src/tokio/bridge.rs:241-241 | between snapshot and the end of the wait at most N/8 + 3 bumps happen, so the 32-bit comparison is exact |
| RingLink.PublishIsARun | src/ring.rs:200-208 | undisturbed, the machine's byte steps leave exactly the memory that the three in-place writes leave, then publish |
| RingLink.PublishNotifies | src/ring.rs:212-215 | after the cursor store the publisher bumps the 32-bit word once and goes on to wake exactly if the receiver is parked |
| RingLink.CopyOutIsARun | src/ring.rs:484-501 | undisturbed, the machine's byte reads end with exactly what `read_ring` returns |
| RingLink.PeekIsARun | src/ring.rs:361-387 | undisturbed, the machine's cursor load, eight header reads and parse decide exactly as `try_peek_message` does on those eight bytes |
| RingLink.CommitIsARun | src/ring.rs:408-421 | undisturbed, the machine's commit stores the cursor computed from the peeked frame, advances the expected number, bumps the 32-bit word once, and goes on to wake exactly if the sender is parked |
| Mapping.BothDirectionsAreRings | src/channel.rs:217-279 | over every run of both roles on one mapped file, each reading and writing at its own offsets, with one state word: each direction's window of the file is in a state its ring machine reaches alone, and decodes to what was sent on it and not yet taken |
| Mapping.StepSimulates | src/channel.rs:251-272 | every step on the file, byte copies at the role's `EndsOf` offset included, is exactly a step of the channel of two rings |
| Mapping.EveryStepIsPossible | src/channel.rs:251-272 | a step is possible on the file if and only if it is possible in the channel of two rings |
| Mapping.FileChangesInside | src/header.rs:144-155 | no step changes a byte of the file outside its own direction's data area: no header byte and no byte of the other direction |
| Mapping.ByteWrite | src/ring.rs:234-251 | a byte stored at a wrapped slot of one data area is stored in that window and leaves the other window as it was |
| Duplex.DirectionsCompose | src/shared.rs:166-209 | a step of one ring that moves the shared state word is one legal state move of the other, which stays in a state its own machine reaches |
| Mapping.OtherQueueUntouched | src/ring.rs:234-251 | duplex independence: in every reachable state of the shared file, no step on one direction changes the other direction's window, cursors, parties, history, or the queue decoded from it |
| Layout.LegalSizeRange | src/channel.rs:366-377 | every accepted ring size lies in 64..2^31 and is a multiple of 64 |
| Layout.LegalSizes | src/channel.rs:366-377 | the accepted ring sizes are exactly the powers of two from 2^6 to 2^31 |
| Layout.LayoutSound | src/header.rs:144-155 | for every legal size the five regions are 64-byte aligned and tile the file, each byte in exactly one; headers directly precede their data and ring A comes first |
| Layout.RolesCross | src/channel.rs:217-250 | the server sends on ring A; the server's send ring is the client's receive ring and conversely, header and data, and the two rings share no byte |
| Layout.WriteStaysInside | src/ring.rs:234-251 | a wrapped write of one role changes nothing outside its own data area |
| Frames.FrameRoundTrip | src/ring.rs:200-205 | at every cursor, three wrap-splitting writes and two wrap-splitting reads return length, number and payload of any payload of at most N - 8 bytes |
| Frames.HeadFrame | src/ring.rs:361-387 | decoding at the read cursor of an intact window gives the next payload, its true length and its number |
| Frames.WindowPublish | src/ring.rs:200-209 | writing a frame that fits extends the unread window by that frame and disturbs none of it |
| Frames.CopyInEffect | src/ring.rs:234-251 | a wrapped write puts each byte in its slot and leaves every other slot alone |
| Frames.SeqClosedForm | src/ring.rs:118-118 | repeated wrapping increments from 1 give (1 + k) mod 2^32 for every k |
| Frames.OffsetGap | src/ring.rs:12-12 | k frames span at least 8k bytes, the bound behind the bump count |
| Words.MaskIsSlot | src/ring.rs:234-236 | `cursor & (N - 1)` is the cursor modulo N because N is a power of two |
| Words.SlotsDistinct | src/ring.rs:234-251 | cursors less than N apart never share a slot |
| Words.LeRoundTrip | src/ring.rs:201-202 | little-endian encoding and decoding invert each other |
| Words.ToLeDigit | src/ring.rs:201-202 | byte j of the encoding is the j-th least significant |
| Words.WordsDistinct | src/wait.rs:78-78 | counters less than 2^32 apart are equal as words only if equal |
| RingBuffers.ChunksAreCopyIn | src/ring.rs:234-251 | copy to the end, then the rest from slot 0, is one wrapped write |
| RingBuffers.ChunksAreCopyOut | src/ring.rs:484-501 | the mirror image for reading |
| RingBuffers.RingBuffer.WriteRing | src/ring.rs:234-251 | the in-place masked, split copy equals the wrapped write |
| RingBuffers.RingBuffer.ReadRing | src/ring.rs:484-501 | the in-place split read equals the wrapped read and leaves the rest of the buffer alone |
| RingBuffers.RingBuffer.PutFrame | src/ring.rs:200-205 | three writes lay down exactly one frame |
| RingBuffers.RingBuffer.Publish | src/ring.rs:200-216 | the queue gains exactly this payload, unread frames stay intact, the word is bumped once, and the peer is woken iff parked |
| RingBuffers.RingBuffer.Commit | src/ring.rs:411-418 | given the cursor past the head frame, exactly one frame is released, with one bump, and the peer is woken iff parked |
| RingSenders.RingSender.TrySendOnce | src/ring.rs:170-188 | Sent means one frame in a channel that has been Connected, whatever became of the state word since the check; anything else leaves cursor, number, history and bytes as they were; Full means unready at the call, or too little room at a load made during it; room in the cached view of a connected channel is never Full; a latched cause, or a dead peer due a probe, at the call is always an error |
| RingSenders.RingSender.RefreshIfShort | src/ring.rs:176-184 | room is reported iff the cached, or if that is short the freshly loaded, read cursor gives it; the cached cursor is kept if it gives it |
| RingSenders.RingSender.PublishIfRoom | src/ring.rs:174-187 | in a channel found ready: too large iff it never fits, Full only if a load made during the call shows too little room, else exactly one frame |
| RingSenders.RingSender.PublishMessage | src/ring.rs:200-216 | exactly one frame, the private cursor and number follow, one bump |
| RingSenders.RingSender.RoomCondition | src/ring.rs:143-163 | a granted read cursor is one really loaded, with the room, in a channel that has been Connected; no grant means unready or too little room when it began |
| RingSenders.RingSender.ParkForRoom | src/wait.rs:77-123 | one turn: nothing sent, `parked` clear on every exit, a time-out only past the deadline and never over room, in a connected channel, present when the turn began |
| RingSenders.RingSender.WaitForRoom | src/wait.rs:56-124 | the whole wait: a granted cursor, the latched cause, or a time-out, only after all the spins and sleeps it was given, and never over room, a latched cause or a dead peer due a probe at the call |
| RingSenders.RingSender.Send | src/ring.rs:125-168 | Ok sent exactly one frame and every error none; too large iff it never fits, and then without an attempt; at most two attempts, because a granted wait is followed by Sent or a terminal cause; a time-out only after all the spins and sleeps it was given, and only if unready or short of room at the call |
| RingReceivers.RingReceiver.TryPeekMessage | src/ring.rs:361-387 | never an error; None iff nothing is unread, else the head frame's cursor, length and number |
| RingReceivers.RingReceiver.CopyCurrentMessage | src/ring.rs:389-406 | copies the head payload iff the buffer is large enough, and otherwise changes nothing |
| RingReceivers.RingReceiver.CommitCurrentMessage | src/ring.rs:408-421 | never fails: the cursor computed from the peeked message is where the next frame starts; takes exactly one record, one bump |
| RingReceivers.RingReceiver.TryPeekOrClosed | src/ring.rs:433-449 | takes nothing; an error is the latched cause, with every record published by the time the cause was seen already taken; a record present at the call is always found |
| RingReceivers.RingReceiver.LookAgain | src/ring.rs:438-446 | the second look passes a cause on only if it finds nothing; otherwise the head record is returned in its place |
| RingReceivers.RingReceiver.TryRecv | src/ring.rs:349-359 | returns the next record and takes exactly it, or takes nothing; never misses a record present at the call |
| RingReceivers.RingReceiver.ParkForMessage | src/wait.rs:77-123 | one turn: takes nothing, `parked` clear on every exit, a time-out only past the deadline and never over a record or terminal state present when the turn began |
| RingReceivers.RingReceiver.WaitForMessage | src/ring.rs:451-463 | the whole wait: the head record, a final cause, or a time-out, only after all the spins and sleeps it was given and never over a record, a latched cause or a dead peer due a probe at the call |
| RingReceivers.RingReceiver.TakeMessage | src/tokio/mod.rs:421-426 | delivers the peeked record whole and commits exactly it, the peer sending meanwhile |
| RingReceivers.RingReceiver.TakeInto | src/tokio/mod.rs:428-445 | delivers iff the buffer is large enough, leaving its tail alone, else discards with the whole buffer intact; one record either way |
| RingReceivers.RingReceiver.Recv | src/ring.rs:319-325 | delivers exactly the next record, or takes nothing; a record present at the call is always delivered; a time-out only after all the spins and sleeps it was given |
| RingReceivers.RingReceiver.RecvInto | src/ring.rs:327-347 | delivers into the front of the buffer, its tail unchanged, or discards exactly one oversized record with the buffer and later records intact; a time-out only after all the spins and sleeps it was given |
| SharedChannels.SharedChannel.CheckReady | src/shared.rs:81-155 | true only while Connected, false only while unready and in time; every error names the latched cause, except the one TimedOut of the caller that retired a never-connected channel out of time; a latched cause, or a dead peer due a probe, is always an error; a due probe of a live peer does happen, an early one does not; this process ends the channel only by retiring it or for an observed death, and bumps all four words exactly then |
| SharedChannels.SharedChannel.AwaitConnected | src/shared.rs:82-110 | the retry loop ends because every failed compare-exchange raised the rank; TimedOut iff this very call's compare-exchange retired the channel, out of time and as Closed, and only then are the four lines bumped |
| SharedChannels.SharedChannel.Probe | src/shared.rs:113-152 | a probe out of turn does nothing; one in turn finds the channel ended or the peer dead, or counts a live peer and pushes the next probe out by exactly the interval, up to saturation; a dead peer is latched, and only a dead peer |
| SharedChannels.SharedChannel.Finish | src/shared.rs:166-187 | ends terminal; if its compare-exchange won the cause latched is its own and all four notify words are bumped once, and otherwise nothing is |
| SharedChannels.SharedChannel.Close | src/shared.rs:157-164 | Ok iff the latched cause is Closed, PeerDisconnected iff a death came first; a close that itself ended the channel latched Closed and says Ok |
| SharedChannels.SharedChannel.AskReady | src/shared.rs:81-155 | the readiness answer as a caller may use it after others have moved |
| AsyncOps.SendSpinCount | src/tokio/mod.rs:380-382 | the smaller of the configured count and 32 |
| AsyncOps.SendAsync | src/tokio/mod.rs:289-303 | Ok sent exactly one frame; an error, or a drop at any await, sent nothing and changed no cursor, number or ring byte; too large only if it never fits; a call begun connected and with room does not wait, nor one begun over a latched cause; a dropped call slept once for each await |
| AsyncOps.SpinSend | src/tokio/mod.rs:369-378 | Full only after one attempt more than the spins, each attempt atomic |
| AsyncOps.SpinPeekOrClosed | src/tokio/mod.rs:384-393 | takes nothing, finds any record present at the call, and gives up empty only after one look more than the spins |
| AsyncOps.RecvAsync | src/tokio/mod.rs:305-318 | one record, whole and in order, or nothing taken; an error only with everything published by the time the cause was seen taken; never left waiting over a record or latched cause at the call, and a dropped call slept once for each await |
| AsyncOps.RecvIntoAsync | src/tokio/mod.rs:320-337 | as `recv_into`, a discard leaving the buffer intact; a drop at any await takes nothing and leaves the buffer alone |
| AsyncOps.DrainOne | src/tokio/mod.rs:395-411 | one turn of the batch extends what it took by exactly the next record or not at all |
| AsyncOps.DrainReadyWithSpin | src/tokio/mod.rs:395-411 | appends a consecutive segment of at most `max` records after what `out` held and returns its length; stops short only past everything published at the call; an error only when nothing was appended; begun in a terminal channel it returns records or the cause, never an empty Ok |
| AsyncOps.RecvManyAsync | src/tokio/mod.rs:339-363 | the same through the await loop: zero only for a zero limit; cancellation takes nothing |

## Left out

- Weak memory: every step is sequentially consistent; orderings and fences are not modelled.
- RingSenders.RingSender.Send: the deadline is a number of sleeps (`patience`), so a call without a timeout is covered only for every finite number of sleeps; whether the operating system ever runs the peer is outside.
- RingReceivers.RingReceiver.Recv: as for Send.
- AsyncOps.SendAsync: `awaits` is the number of awaits before the future is dropped, so a future that is never dropped and never completes is not described; the other asynchronous operations likewise.
- SharedChannels.SharedChannel.Finish: its compare-exchange is strong; spurious failure of the weak one is in ClaimMachine, where no retry bound is claimed for it.
- SharedChannels.SharedChannel.WakeAll does only the bumps; the wakes, and other parties between them, are steps of RingMachine.
- SharedChannels.SharedChannel.Probe: the other half of the same process does not move `next_probe_ms` between the two comparisons; callers sharing the throttle are in Liveness.
- RingSenders and RingReceivers see other parties only at the marked points between accesses to shared words; parties running during a copy are covered by RingMachine. Their contracts speak of the state at the call or of loads made during it, not of what another party may do just before the return.
- RingSenders.RingSender.MessageSize and SharedChannels.SharedChannel.WakeAll have contracts that only say what they compute; they serve their callers and claim nothing more.
- RingMachine rejects an oversized payload when the call begins, as `send` does; the try path's order (readiness first) is in `RingSender.TrySendOnce`.
- RingMachine takes the liveness probe inside `check_ready`, and any state move it makes, as a step of the rest of the world, allowed at any time.
- RingMachine runs the bump and wake of `wake_all` line by line in any order, which admits more schedules than the fixed order of the source.
- The caller that retires a channel gets `TimedOut` in the source; the model calls that error `Retired` to tell it from a passed deadline.
- Nothing is claimed about records published after the state became terminal: a sender that already passed its check may still publish.
- Cursors are unbounded (64 bits in the source).
- Mapping keeps the data areas as bytes of the file; cursors, notify words, `parked` and the state word stay fields, so what FileChangesInside says of header bytes is that data never lands there.
- WindowsPoll has one peer storing cursors and at most N/8 unanswered stores, as RingInvariant proves of the ring; a snapshot may be retaken at any time between waits.
- Liveness lets computation take no time, does not saturate `next_probe_ms` (`SharedChannel.Probe` does), and has the clock and the death of the peer as environment steps.
- The Unix bridge thread: a bump between its reload and its next snapshot is absorbed, so only "returns once changed or after the quantum" holds there.
- `try_open` and `create_with_config` are program counters of ClaimMachine, not methods: their content is the race for the claim.
- Unknown values of the state word, identity parsing, process handles, I/O errors, panics and mutex poisoning.
- Listeners, socket handshakes, mapping and unlinking of backing files, `SpinOnly`, wrappers, accessors and Display.
