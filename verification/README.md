# Verified core of open-switch

open-switch is a FreeSWITCH module that attaches media bugs to calls, streams audio to and from
them, and publishes events. This project models the parts of it that carry state and proves what
they promise, over every input and every run:

- **Media bugs.** `MediaBugManager` keeps two indexes of bugs and a table of weakly referenced
  per-channel mutexes. It releases its own mutex around every FreeSWITCH call. `BugRegistry` is
  the class with its critical sections; `BugProtocol` is the whole as a state machine of
  arbitrarily many threads, FreeSWITCH's bug chain and the silence drivers; `BugTheorems` holds the
  theorems over all runs, `BugSections` what a thread achieves in a channel's section, and
  `BugProgress` those about deadlock. `SilenceDrivers` is the class of the driver registry.
- **Idempotency.** The cache with its LRU list, index, TTL and in-flight reservations
  (`Idempotency`), many threads blocking in it over a monotone clock (`IdempotencyRuns`), its LRU
  law (`IdempotencyLru`), who executes (`IdempotencyExecution`), what a reservation holds and keeps
  out (`IdempotencyReservations`), expiry and eviction (`IdempotencyExpiry`) and the request wrapper
  (`IdempotentRequests`).
- **Audio.** The TTS playout buffer (`PlayoutBuffer`, `PlayoutTheorems`, `PlayoutCalls`), the stereo pairer
  (`StereoPairer`, `PairerTheorems`), the sample and wire formats (`Pcm`) and the send ring of the
  stream client with its writer thread (`SendRing`).
- **Events.** The replay ring (`EventRing`) and its producers (`EventBinder`).
- **Bots.** The two-way index of running bots (`ActiveBots`).

Each stateful component has three layers: a function on values for each operation, a class whose
methods and loops are proved to compute that function, and theorems about the function over whole
runs. `Basics` and `Circular` hold what several components share, among it the ring of slots of the
pairer and the stream client.

## Where the source differs from what one would expect

- **Stage order.** A caller that sets SMBF_FIRST itself can break the stage order of a chain.
  `FirstFlagBreaksOrder` gives the run. `OrderExact` gives the exact condition for every run.
- **One executor.** After a cancel every waiter may answer a miss and execute.
  `CancelReleasesEveryWaiter` gives the run. `WaiterExecutesIff` proves for every run exactly when a
  blocked lookup executes. How many other keys were used is not exact, because keys that were
  looked up after they expired make room again (`ManyOthersFit`); `StaysIff` has the exact count.
  `SecondMiss` proves what a reservation does keep out, `ExpiryReleasesEveryWaiter` what it does not.
- **Request keys.** A tenant that contains the separator 0x1f shares keys with other tenants.
  `SafeTenants` proves that this is the exact condition.
- **Eviction.** The header of the cache says that expired entries are evicted first. The code
  evicts by recency only. With the one TTL all callers use, a hit (`HitBreaksPromise`) or a store
  that was overtaken (`LateStoreBreaksPromise`) makes a later store evict a live entry and keep an
  expired one, at every capacity. `WithoutHitsDeadGoFirst` proves that nothing else does, and
  `LiveForDeadIff` gives the exact condition on the list.
- **Live tail.** The header of the event ring promises that a subscriber starting from 0 is always
  served. The code refuses it on a ring that was used and then drained. `LiveTailRefused` proves
  that this is the exact condition, `LiveTailInput` has such a ring.
- **Concurrent producers.** The binder numbers an event before it takes the ring's mutex, so events
  can enter the ring out of order. `OvertakingLosesEvents` shows, at every capacity, a replay that is
  reported complete and is not. `TruthfulIff` gives the exact condition on the ring for every order,
  `SerialReplayComplete` the case of producers that do not overlap.
- **Event counters.** The counters of emitted and dropped events are updated after the push and one
  after the other, so they do not balance at every moment. `CountersLag` has such a moment.
  `DropsCounted` proves what does balance, and exactly when the plain equation holds.
- **Wire frames.** A frame whose samples are not whole sample groups is refused by the receiver.
  `WireRoundTrip` states both cases, `HalfGroupRefused` has such a frame.

## Model

| member | source | states |
|---|---|---|
| `Purposes.StageRank` | src/media/purpose.cc:18-35 | the stages in order: VAD alone first, the three read taps second, the two inject purposes third, the rest last |
| `BugRegistry.VerdictExact` | src/media/bug_manager.cc:427-472 | for every registry and purpose, over the registered bugs alone: exactly when an attach is granted, which refusal each other case gets, and the flags of the bug; a refusal changes nothing |
| `BugRegistry.RegisterKeeps` | src/media/bug_manager.cc:535-543 | registering a fresh id keeps the two indexes consistent and adds exactly that bug |
| `BugRegistry.UnregisterKeeps` | src/media/bug_manager.cc:608-644 | unregistering keeps the indexes consistent, with no empty list left behind, and removes exactly that bug |
| `BugRegistry.DetachUndoesAttach` | src/media/bug_manager.cc:535-644 | detaching right after attaching restores both indexes |
| `BugRegistry.MediaBugManager.constructor` | src/media/bug_manager.cc:338-338 | an empty manager with an empty lock table |
| `BugRegistry.MediaBugManager.ChannelLockFor` | src/media/bug_manager.cc:351-372 | promotes the weak reference if some thread still holds the mutex, otherwise stores a new one |
| `BugRegistry.MediaBugManager.PruneExpiredChannelLock` | src/media/bug_manager.cc:374-385 | removes the table entry only if no thread refers to its mutex |
| `BugRegistry.MediaBugManager.MaxRankForChannel` | src/media/bug_manager.cc:815-832 | the rank is above that of a purpose exactly when the channel has a bug of a later stage |
| `BugRegistry.MediaBugManager.FindPurpose` | src/media/bug_manager.cc:834-849 | true exactly when a registered bug of the channel has the purpose |
| `BugRegistry.MediaBugManager.FindInject` | src/media/bug_manager.cc:851-867 | true exactly when the channel has an inject bug |
| `BugRegistry.MediaBugManager.FindWriteReplace` | src/media/bug_manager.cc:869-884 | true exactly when another bug of the channel has WRITE_REPLACE, although the one being detached is out of the list and still in the map |
| `BugRegistry.MediaBugManager.ValidateAttach` | src/media/bug_manager.cc:427-472 | the checks of Attach in their order, the forced head insertion for VAD, and the id issued |
| `BugRegistry.MediaBugManager.RegisterAttached` | src/media/bug_manager.cc:535-543 | both indexes gain the bug, the channel list at its end |
| `BugRegistry.MediaBugManager.UnregisterLocked` | src/media/bug_manager.cc:597-644 | an unknown id changes nothing; a known one leaves both indexes, and the driver stops exactly when its channel loses the last WRITE_REPLACE bug |
| `BugProtocol.StartDriverFor` | src/media/silence_driver.cc:120-137 | the set of drivers grows by at most this channel and never passes the cap |
| `BugProtocol.LocksStep` | src/media/bug_manager.cc:351-385 | every step of every thread keeps: whoever refers to a channel's mutex refers to the one in the table, and a mutex has one owner |
| `BugProtocol.OneInside` | src/media/bug_manager.cc:400-418 | two threads are never inside one channel's section |
| `BugProtocol.IndexesStep` | src/media/bug_manager.cc:427-543 | every step keeps the indexes consistent, purposes unique and each context freed at most once |
| `BugProtocol.ThreadsStep` | src/media/bug_manager.cc:489-543 | whatever other threads do while `mu_` is free, the checks a thread has made still hold when it registers |
| `BugProtocol.ChainsStep` | src/media/bug_manager.cc:489-661 | every bug in a FreeSWITCH chain is registered or held by the thread adding or removing it |
| `BugProtocol.DriversStep` | src/media/bug_manager.cc:637-660 | every driver has a WRITE_REPLACE bug or a thread about to stop it |
| `BugTheorems.InvRun` | src/media/bug_manager.cc:391-737 | all of the above over every run |
| `BugTheorems.OneMutexPerChannel` | src/media/bug_manager.cc:351-385 | in every run: references to one channel's lock are to one mutex, those of different channels to different ones, and one thread is inside |
| `BugTheorems.IndexesAgree` | src/media/bug_manager.cc:427-543 | in every run: both indexes describe the same bugs, without duplicates or empty lists, ids below the next one, and only recording relays repeat on a channel |
| `BugTheorems.ContextsFreedOnce` | src/media/bug_manager.cc:489-661 | in every run: a callback context is deleted at most once and never while its bug is registered or in a chain |
| `BugTheorems.NoContextLeaked` | src/media/bug_manager.cc:489-661 | in every run: the context of every id ever issued belongs to a registered bug, is deleted, or is with a thread about to register or delete it |
| `BugTheorems.NestedCloseReturns` | src/media/bug_manager.cc:206-227 | the CLOSE callback made from inside the remove call finds no record, so it does not ask for the lock its own thread holds |
| `BugTheorems.DriverNeedsWriteReplace` | src/media/bug_manager.cc:637-660 | in every run: while no thread is inside a channel's section a driver runs there only if it has a WRITE_REPLACE bug; the cap always holds |
| `BugTheorems.EarlierStage` | src/media/bug_manager.cc:444-471 | a bug added at the tail finds only bugs of the same or earlier stages in the chain, although the check was made before `mu_` was released |
| `BugTheorems.AddKeepsOrder` | src/media/bug_manager.cc:444-508 | an insertion keeps a chain in stage order if and only if it is at the tail or no bug of the chain is of an earlier stage |
| `BugTheorems.OrderExact` | src/media/bug_manager.cc:444-661 | for every run: all chains are sorted by stage in all its states if and only if no head insertion went in front of a bug of an earlier stage |
| `BugTheorems.ChainsStayInOrder` | src/media/bug_manager.cc:444-471 | in every run where callers leave SMBF_FIRST alone, every chain stays sorted by stage |
| `BugTheorems.FirstFlagBreaksOrder` | include/osw/raii/media_bug_lease.h:8-10 | a run where a caller sets SMBF_FIRST and the order is lost |
| `BugProgress.NeverStuck` | src/media/bug_manager.cc:400-418 | no deadlock among the locks in any run, as far as FreeSWITCH calls return: a thread with work to do has a step, unless another thread is inside the section of the same channel, and then that one has |
| `BugProgress.SectionEnds` | src/media/bug_manager.cc:391-737 | a thread leaves a channel's section after a number of its own steps fixed by where it stands and the channel's bugs, whatever other threads and FreeSWITCH do |
| `BugSections.RelayChecked` | src/media/bug_manager.cc:427-472 | in every run: the check lets a recording relay through if and only if an inject bug is registered on its channel, and otherwise issues no id |
| `BugSections.RelayRegistered` | src/media/bug_manager.cc:535-543 | in every run: the inject bug is still there when the relay is registered, although `mu_` was free in between |
| `BugSections.ListsInAttachOrder` | src/media/bug_manager.cc:535-543 | in every run: the list of a channel is in attach order |
| `BugSections.DetachCompletes` | src/media/bug_manager.cc:597-696 | in every run: when the thread that looked up a registered bug to detach it is idle again, the bug is not registered, nor in the chain while nobody is inside the section |
| `BugSections.DetachedForGood` | src/media/bug_manager.cc:597-661 | in every run: after the critical section of a detach the bug is never registered again |
| `BugSections.DetachAllClears` | src/media/bug_manager.cc:698-737 | in every run: when DetachAll leaves the section, its channel has no registered bug and no list |
| `BugSections.DriverStopsUnneeded` | src/media/bug_manager.cc:637-660 | in every run: a driver is stopped for want of bugs only when no bug of the channel has WRITE_REPLACE |
| `BugSections.DriverRunsIff` | src/media/bug_manager.cc:535-660 | in every run in which drivers may start: while nobody is inside a section, a driver runs if and only if the channel has a WRITE_REPLACE bug |
| `BugSections.NoLockLeft` | src/media/bug_manager.cc:374-385 | in every run: each entry of the lock table has a thread that will prune it |
| `SilenceDrivers.SilenceDriverRegistry.constructor` | src/media/silence_driver.cc:86-86 | a registry without drivers |
| `SilenceDrivers.SilenceDriverRegistry.AttachOpportunistic` | src/media/silence_driver.cc:92-148 | a driver starts exactly on a known, unbridged channel without broadcast or another source, with the feature on, within the cap and if its broadcast runs; the others stay |
| `SilenceDrivers.SilenceDriverRegistry.StopAndErase` | src/media/silence_driver.cc:181-196 | erases and stops exactly that driver; an unknown channel changes nothing |
| `SilenceDrivers.SilenceDriverRegistry.DrainAll` | src/media/silence_driver.cc:158-174 | empties the map and stops each driver it held once |
| `Idempotency.IdempotencyCache.constructor` | src/control/idempotency_cache.cc:25-30 | an empty cache |
| `Idempotency.IdempotencyCache.Fetch` | src/control/idempotency_cache.cc:46-65 | the index finds a node exactly when the list has the key, and finds its entry |
| `Idempotency.IdempotencyCache.EraseNode` | src/control/idempotency_cache.cc:190-193 | list and index lose exactly this node and stay in bijection |
| `Idempotency.IdempotencyCache.Erase` | src/control/idempotency_cache.cc:47-54 | the node of a key goes, the others keep their order |
| `Idempotency.IdempotencyCache.MoveToFront` | src/control/idempotency_cache.cc:46-65 | the node becomes the most recent, the others keep their order |
| `Idempotency.IdempotencyCache.Replay` | src/control/idempotency_cache.cc:46-65 | a live entry is returned and promoted, a dead one erased |
| `Idempotency.IdempotencyCache.TryReserve` | src/control/idempotency_cache.cc:67-119 | the reservation is taken exactly when there is none or it has expired |
| `Idempotency.IdempotencyCache.ClaimKey` | src/control/idempotency_cache.cc:66-119 | without a live entry: reserves a free key, or gives the deadline to wait for |
| `Idempotency.IdempotencyCache.LookupBegin` | src/control/idempotency_cache.cc:36-79 | LookupOrReserve up to the point where it blocks |
| `Idempotency.IdempotencyCache.LookupResume` | src/control/idempotency_cache.cc:81-114 | LookupOrReserve from the last evaluation of the wait predicate on |
| `Idempotency.IdempotencyCache.TakeOver` | src/control/idempotency_cache.cc:105-114 | a waiter renews a reservation only if it has expired |
| `Idempotency.IdempotencyCache.EvictIfNeeded` | src/control/idempotency_cache.cc:176-188 | the loop leaves the most recent entries, one fewer than the capacity |
| `Idempotency.IdempotencyCache.StoreEntry` | src/control/idempotency_cache.cc:126-153 | the entry becomes the most recent one and the reservation goes; an empty key changes nothing |
| `Idempotency.IdempotencyCache.CancelReservation` | src/control/idempotency_cache.cc:159-170 | the reservation goes, entries stay |
| `Idempotency.LiveForDeadIff` | src/control/idempotency_cache.cc:126-188 | a store evicts a live entry and keeps an expired one if and only if the list without its key is full, the last entry is live and an earlier one has expired |
| `IdempotencyRuns.InvRun` | src/control/idempotency_cache.cc:36-193 | in every run: keys are unique, entries within capacity, and no reservation reaches further than the maximum wait |
| `IdempotencyRuns.ReservedNeverMisses` | src/control/idempotency_cache.cc:67-79 | in every run: a lookup that finds its key reserved does not answer a miss; if it blocks, its deadline is the reservation's, within the longest wait |
| `IdempotencyRuns.ReservationWindow` | src/control/idempotency_cache.cc:67-119 | in every run: a lookup that blocked resumes before the reservation's deadline only if the key was stored or cancelled |
| `IdempotencyRuns.CancelReleasesEveryWaiter` | src/control/idempotency_cache.cc:106-114 | one run, at every capacity, in which three lookups of one key all answer a miss |
| `IdempotencyExecution.WaiterExecutesIff` | src/control/idempotency_cache.cc:81-114 | in every run: a blocked lookup resumes with a miss if and only if no store of its key since then is live when it looks and left in place by the stores after it |
| `IdempotencyExecution.CachedIff` | src/control/idempotency_cache.cc:36-188 | from a state without a key: it is cached and live after a run if and only if its last store is live and had room ever since |
| `IdempotencyReservations.MissReserves` | src/control/idempotency_cache.cc:67-119 | a lookup that misses leaves its key reserved until its reading plus the longest wait |
| `IdempotencyReservations.ReservationsFollow` | src/control/idempotency_cache.cc:67-170 | in every run: the reservations are exactly those that misses made, takeovers renewed and stores and cancels have not ended |
| `IdempotencyReservations.StoreReleasesWaiters` | src/control/idempotency_cache.cc:126-153 | in every run: after a store the key is free and each waiter of it can go on at once, with a hit while the entry is live |
| `IdempotencyReservations.SecondMiss` | src/control/idempotency_cache.cc:67-119 | in every run: a lookup that misses leaves its key reserved for the longest wait from its reading on, and before that another lookup of it misses only after a store or cancel, or if it was waiting already |
| `IdempotencyReservations.ExpiryReleasesEveryWaiter` | src/control/idempotency_cache.cc:104-114 | a run, at every capacity, in which two waiters miss one after the other when a reservation runs out |
| `IdempotencyExecution.ManyOthersFit` | src/control/idempotency_cache.cc:46-58 | a key stays cached however many other keys are used, if they are taken out again |
| `IdempotencyLru.HitIsLatest` | src/control/idempotency_cache.cc:46-65 | in every run: a hit is the entry of the latest store of its key, unexpired at the reading its check used |
| `IdempotencyLru.StaysIff` | src/control/idempotency_cache.cc:126-193 | in every run: an unexpired key that is not stored over stays cached if and only if no store found `capacity` keys, its own included, that were used later and are still cached |
| `IdempotencyLru.StaysCached` | src/control/idempotency_cache.cc:126-193 | a used, unexpired key stays cached while fewer than `capacity` other keys are used, under any interleaving |
| `IdempotencyLru.CapacityOthersEvict` | src/control/idempotency_cache.cc:176-188 | storing `capacity` distinct other keys does evict it, so the bound is exact |
| `IdempotencyExpiry.WithoutHitsDeadGoFirst` | src/control/idempotency_cache.cc:126-188 | in every run without a hit whose entries are stored in the order in which they expire: no store evicts a live entry and keeps an expired one |
| `IdempotencyExpiry.OneTtlInOrder` | src/control/handlers/idempotency_utils.h:64-65 | entries with one TTL counted from their store are stored in that order |
| `IdempotencyExpiry.HitBreaksPromise` | src/control/idempotency_cache.cc:57-64 | with one TTL, at every capacity from 2 on: a run with one hit after which a store evicts a live entry and keeps an expired one |
| `IdempotencyExpiry.LateStoreBreaksPromise` | src/control/handlers/idempotency_utils.h:64-65 | a run without a hit that ends the same way because the reading is taken before the store |
| `IdempotentRequests.MakeKey` | src/control/idempotency_cache.cc:195-209 | the key is empty exactly when the request id is |
| `IdempotentRequests.KeysDiffer` | src/control/idempotency_cache.cc:195-209 | requests that differ in method, tenant or id never share a key if method and tenant hold no separator |
| `IdempotentRequests.SafeTenants` | src/control/idempotency_cache.cc:195-209 | for every method: no request of a tenant shares its key with a request of another well-formed tenant, if and only if its name holds no separator |
| `IdempotentRequests.Handle` | src/control/handlers/idempotency_utils.h:24-67 | a hit that parses is replayed without touching the cache; otherwise the caller gets the action's own outcome, which is stored, or the reservation cancelled if it cannot be serialized |
| `IdempotentRequests.ReplayRunsOnce` | src/control/handlers/idempotency_utils.h:24-67 | a request repeated within the TTL, fewer than `capacity` other keys later, does not execute and its caller gets what the first caller got; from the end of the TTL on it executes and gets its own outcome |
| `IdempotentRequests.UnserializableIsCancelled` | src/control/handlers/idempotency_utils.h:52-63 | an outcome that cannot be serialized is not kept and its key is free again |
| `PlayoutBuffer.FillRepeatLast` | src/media/tts_playout_buffer.cc:52-66 | the frame over and over, cut to length; nothing for an empty frame |
| `PlayoutBuffer.TtsPlayoutBuffer.constructor` | src/media/tts_playout_buffer.cc:108-108 | an empty, unprimed buffer |
| `PlayoutBuffer.TtsPlayoutBuffer.RecomputeDepth` | src/media/tts_playout_buffer.cc:390-403 | the sum of the frames' whole milliseconds, the front one without its played part, saturated at 32 bits |
| `PlayoutBuffer.TtsPlayoutBuffer.TrimToHighWater` | src/media/tts_playout_buffer.cc:143-161 | the drop loop |
| `PlayoutBuffer.TtsPlayoutBuffer.PushFrame` | src/media/tts_playout_buffer.cc:115-177 | Push: appended, trimmed, counted, primed at the pre-roll mark; an empty frame is ignored |
| `PlayoutBuffer.TtsPlayoutBuffer.TakeFront` | src/media/tts_playout_buffer.cc:214-246 | one turn of the copy loop |
| `PlayoutBuffer.TtsPlayoutBuffer.DrainFrames` | src/media/tts_playout_buffer.cc:214-246 | the copy loop takes the next samples across frames and remembers the last frame used |
| `PlayoutBuffer.TtsPlayoutBuffer.PopSamples` | src/media/tts_playout_buffer.cc:179-335 | every branch of Pop, with an end-of-stream signal landing anywhere inside it |
| `PlayoutBuffer.TtsPlayoutBuffer.PopInto` | src/media/tts_playout_buffer.cc:179-335 | a null buffer gives 0; otherwise the samples land at the start of the caller's buffer and the rest of it is untouched |
| `PlayoutBuffer.TtsPlayoutBuffer.SignalEndOfStream` | src/media/tts_playout_buffer.cc:337-340 | sets the flag and nothing else |
| `PlayoutTheorems.HeardInOrder` | src/media/tts_playout_buffer.cc:143-246 | in every session: what is heard is a prefix of each pushed frame, in push order, nothing repeated or reordered |
| `PlayoutTheorems.NothingLost` | src/media/tts_playout_buffer.cc:143-246 | in every session without overruns: what was heard followed by what is queued is everything pushed |
| `PlayoutTheorems.DrainSplits` | src/media/tts_playout_buffer.cc:214-246 | one drain delivers the beginning of what was queued and leaves exactly the rest |
| `PlayoutTheorems.RepeatIsCyclic` | src/media/tts_playout_buffer.cc:52-66 | the padding is the last frame played in a circle |
| `PlayoutTheorems.PopIsAllOrNothing` | src/media/tts_playout_buffer.cc:179-335 | nothing exactly when the queue is empty and Pop reads the end of stream, otherwise the full capacity |
| `PlayoutTheorems.PopEndsCleanly` | src/media/tts_playout_buffer.cc:179-335 | the same without a signal in mid-call: nothing if and only if end of stream and empty queue |
| `PlayoutCalls.PopPlays` | src/media/tts_playout_buffer.cc:210-300 | with frames queued, once primed or ended: Pop puts out the next samples, as many as wanted and there, fills the rest with silence or the last frame in a circle, and leaves exactly the other samples |
| `PlayoutCalls.PopLeaves` | src/media/tts_playout_buffer.cc:210-300 | and keeps the frame that gave the last sample, marks playback started and counts an underrun exactly when samples were missing before the end |
| `PlayoutCalls.PopWaits` | src/media/tts_playout_buffer.cc:179-213 | before pre-roll and end of stream: a full frame of zeros, nothing changed |
| `PlayoutCalls.PopStarves` | src/media/tts_playout_buffer.cc:300-335 | with nothing queued: nothing at the end, zeros before playback started, else filling and one underrun |
| `PlayoutCalls.FlagsExact` | src/media/tts_playout_buffer.cc:115-335 | in every session: started exactly when something was heard, primed exactly when a Push reached the pre-roll mark, underruns exactly the calls that came up short after something was heard and before the end |
| `PlayoutCalls.EndsOnSignal` | src/media/tts_playout_buffer.cc:337-340 | the end of stream stays once signalled and nothing else brings it |
| `PlayoutTheorems.UnderrunsCounted` | src/media/tts_playout_buffer.cc:214-335 | an underrun is counted at most once a call, only after playback started, before end of stream, with the queue run dry |
| `PlayoutTheorems.NothingBeforePreroll` | src/media/tts_playout_buffer.cc:179-213 | over any run before pre-roll and end of stream no queued sample is played and no underrun counted |
| `PlayoutTheorems.HighWater` | src/media/tts_playout_buffer.cc:123-161 | after a Push the depth is within the mark or only the new frame is left; the oldest frames went, each counted, and one fewer would not have done |
| `PlayoutTheorems.DepthIsClose` | src/media/tts_playout_buffer.cc:42-50 | the depth never exceeds the true duration and is short of it by less than a millisecond a frame |
| `PlayoutCalls.DepthGrows` | src/media/tts_playout_buffer.cc:390-403 | the depth saturates: another frame never makes it smaller |
| `PlayoutCalls.DurationWraps` | src/media/tts_playout_buffer.cc:42-50 | the milliseconds of a single frame wrap instead |
| `PlayoutTheorems.DepthCached` | src/media/tts_playout_buffer.cc:390-403 | the cached depth is the depth of the queue in every state of every session |
| `Pcm.ReadEncoded` | src/media/recording_relay.cc:40-46 | reading sample i of the encoded bytes gives sample i |
| `Pcm.AppendAll` | src/media/stereo_pairer.cc:185-202 | the loop encodes left and right alternately, the shorter side padded with zeros |
| `Pcm.DecodeEncoded` | src/media/stereo_pairer.cc:27-31 | decoding the little-endian bytes gives back all samples |
| `Pcm.WireLayout` | src/media/audio_frame.cc:76-85 | for every frame: number, timestamp, channel and uuid are its own, the duration counts whole sample groups, and sample i is two bytes, low byte first |
| `Pcm.WireRoundTrip` | src/media/audio_frame.cc:45-85 | ToProto then FromProto gives the frame back if and only if it has whole sample groups, and is refused otherwise |
| `Pcm.HalfGroupRefused` | src/media/audio_frame.cc:45-85 | a stereo frame of one sample is refused |
| `Pcm.RecordingRelay.FlushPairedFrame` | src/media/recording_relay.cc:237-268 | sends as many decoded stereo samples as the frame claims, with the next number and timestamp, or nothing without client, in mono or for an empty frame |
| `Pcm.StereoRoundTrip` | src/media/recording_relay.cc:250-261 | for all left and right: pairer bytes, relay and wire deliver left[i], right[i] alternately, zeros for the shorter side |
| `Circular.SlotRing.constructor` | src/media/stream_client.cc:62-62 | an empty ring of the given size |
| `Circular.SlotRing.Push` | src/media/stereo_pairer.cc:100-116 | the circular buffer is a FIFO queue that loses its oldest element when full |
| `Circular.SlotRing.Pop` | src/media/stereo_pairer.cc:118-128 | takes the oldest element |
| `StereoPairer.StereoFramePairer.constructor` | src/media/stereo_pairer.cc:35-35 | two separate empty rings, counters at zero |
| `StereoPairer.StereoFramePairer.EnqueueFrame` | src/media/stereo_pairer.cc:100-116 | one side gains the frame, a lost one is counted |
| `StereoPairer.StereoFramePairer.MakePairedFrame` | src/media/stereo_pairer.cc:185-202 | the interleaved frame with the next number |
| `StereoPairer.StereoFramePairer.SilenceFill` | src/media/stereo_pairer.cc:204-212 | one real side, silence on the other, counted as desync and warning |
| `StereoPairer.StereoFramePairer.EmitBoth` | src/media/stereo_pairer.cc:134-160 | two real sides, a warning if their timestamps are apart enough |
| `StereoPairer.StereoFramePairer.TryEmit` | src/media/stereo_pairer.cc:134-183 | pair, give up the earlier front, or fill an expired front, as timestamps and arrival times say |
| `StereoPairer.StereoFramePairer.PushSide` | src/media/stereo_pairer.cc:39-78 | enqueue, then at most one emission |
| `PairerTheorems.Conservation` | src/media/stereo_pairer.cc:100-235 | in every recording: both sides leave in push order; pushes = dropped + pending + 2 * paired - desync; desync <= warned <= paired; output numbers are 0, 1, 2, ... |
| `PairerTheorems.FramesHeard` | src/media/stereo_pairer.cc:100-212 | in every recording, per side: the frames that outputs 0, 1, 2, ... decode to, with the shorter side silent at its end, are an in-order selection of the frames pushed, each once; those missing are the dropped ones, counted, and the queued ones |
| `PairerTheorems.PairsAreClose` | src/media/stereo_pairer.cc:134-160 | in every recording: two real sides differ by no more samples than the timeout has at the sample rate |
| `PairerTheorems.EmissionExact` | src/media/stereo_pairer.cc:134-183 | for every state and clock reading: two fronts within the timeout go out together, of two others the earlier one, a lone front once it has waited a millisecond more than the timeout, and nothing otherwise |
| `PairerTheorems.HandsOutIff` | src/media/stereo_pairer.cc:39-183 | in every recording: an operation hands out nothing if and only if at most one side is queued and its front has not waited that long |
| `PairerTheorems.SilenceWasOverdue` | src/media/stereo_pairer.cc:162-183 | in every recording: a frame filled with silence for want of a partner was the front of its side, had waited that long, and the other side was empty |
| `PairerTheorems.WarningsExact` | src/media/stereo_pairer.cc:134-212 | in every recording: desync counts the frames with a silent side; warnings count those and the pairs whose timestamps differ by the warning threshold |
| `PairerTheorems.DropsWhenFull` | src/media/stereo_pairer.cc:100-116 | in every recording: a push loses the oldest frame of its side exactly when sixteen are queued |
| `PairerTheorems.SilenceIsJustified` | src/media/stereo_pairer.cc:134-183 | if timestamps do not go back, a frame filled with silence for its timestamp has no partner within the threshold among queued or any later frames |
| `EventRing.EventQueue.constructor` | src/events/ring.cc:22-22 | an empty ring, capacity at least 1 |
| `EventRing.EventQueue.PushEntry` | src/events/ring.cc:24-52 | the oldest entry goes when full, the highest number is kept |
| `EventRing.EventQueue.TryPop` | src/events/ring.cc:54-67 | a batch of at most one |
| `EventRing.EventQueue.DrainBatch` | src/events/ring.cc:69-98 | the oldest entries in order, at most `max` |
| `EventRing.EventQueue.SnapshotFromSeq` | src/events/ring.cc:100-162 | every branch, with the 64-bit wrap of `since + 1` |
| `EventRing.WindowRun` | src/events/ring.cc:24-98 | in every run: the ring is the end of what was pushed, the rest was consumed or evicted |
| `EventRing.DeliveredInOrder` | src/events/ring.cc:24-98 | in every run: what was popped is an in-order selection of what was pushed, each once; the others were evicted, counted, or are in the ring, and without evictions nothing is missing |
| `EventRing.ReplayExact` | src/events/ring.cc:100-162 | for any push order: a found replay is complete if and only if no later entry has left the ring |
| `EventRing.TruthfulIff` | src/events/ring.cc:100-162 | for any push order: every replay that is found is complete if and only if the ring is empty or nothing above the lowest number it serves has left it |
| `EventRing.ReplayComplete` | src/events/ring.cc:100-162 | with increasing numbers a found replay holds exactly every entry ever pushed with a larger one |
| `EventRing.RefusedIffGone` | src/events/ring.cc:100-162 | without gaps a replay is refused if and only if the next entry has left the ring |
| `EventRing.ServedIff` | src/events/ring.cc:127-140 | for every ring with entries and every 64-bit number: when it is served, with the wrap of its successor |
| `EventRing.SnapshotRange` | src/events/ring.cc:100-162 | in every run with increasing numbers: the range reported is that of the oldest and newest entry, all entries lie in it, and a refusal or live tail has no entries |
| `EventRing.LiveTailRefused` | src/events/ring.cc:121-126 | starting from 0 is refused if and only if the ring was used and is drained |
| `EventRing.LiveTailInput` | src/events/ring.cc:121-126 | such a ring at every capacity |
| `EventBinder.DropsCounted` | src/events/binder.cc:241-246 | under every interleaving, over all tiers: emitted + producers between push and counter = consumed + in the rings + dropped + evictions not counted yet; without the two in-hand terms if and only if each such producer has an eviction to count |
| `EventBinder.CountersLag` | src/events/binder.cc:241-246 | a run after which the plain equation fails |
| `EventBinder.ConsumedInOrder` | src/events/binder.cc:213-246 | under every interleaving: what a tier's consumer gets is an in-order selection of what was pushed to it, the rest evicted or still there |
| `EventBinder.SerialReplayComplete` | src/events/binder.cc:213-246 | with producers of a tier that do not overlap, a found replay of that tier is complete |
| `EventBinder.OvertakingLosesEvents` | src/events/binder.cc:213-246 | at every capacity: two overlapping producers for which it is not |
| `SendRing.Ring.constructor` | src/media/stream_client.cc:57-63 | an empty ring of at least one slot |
| `SendRing.Ring.Push` | src/media/stream_client.cc:384-393 | the circular buffer is a FIFO queue that drops and counts its oldest message when full |
| `SendRing.Ring.SendAudio` | src/media/stream_client.cc:240-270 | refuses empty or late audio; true exactly when nothing was pushed out; the step Send of the protocol |
| `SendRing.Ring.SendControl` | src/media/stream_client.cc:276-298 | refuses after close, otherwise queues; the step Send of the protocol |
| `SendRing.Ring.Pop` | src/media/stream_client.cc:395-403 | the oldest message, none from an empty ring; the step TakeNext of the protocol |
| `SendRing.Ring.CloseRing` | src/media/stream_client.cc:304-322 | closes and keeps what is pending; the steps BeginClose and half-close of the protocol |
| `SendRing.InvStep` | src/media/stream_client.cc:304-447 | every step of senders, writer and closer keeps the client's invariant |
| `SendRing.SendsAccounted` | src/media/stream_client.cc:395-447 | in every run: written messages are an in-order selection of the accepted ones, accepted = taken + dropped + pending, WritesDone at most once |
| `SendRing.AcceptedExact` | src/media/stream_client.cc:240-322 | in every run: the accepted messages are, in order, exactly those sent before the ring was closed, except empty audio; it is closed once Close or a half-close came, and failed exactly if a write was refused |
| `SendRing.DropsWhenFull` | src/media/stream_client.cc:240-298 | in every run: a send pushes out the oldest message exactly when it is accepted and the ring is full |
| `SendRing.CloseDrains` | src/media/stream_client.cc:304-447 | after a close with a writer and no failed write every accepted message was written or counted dropped, and WritesDone was issued once |
| `SendRing.CloseMakesProgress` | src/media/stream_client.cc:304-436 | as far as stream writes return: a closing client always has a step, each step of the writer brings it nearer to its exit, and senders are refused |
| `SendRing.CloseEnds` | src/media/stream_client.cc:304-436 | once the ring is closed, at most as many steps as the writer's distance to its exit come before the join, however many sends are refused meanwhile |
| `ActiveBots.InsertKeeps` | src/control/active_bots.cc:28-53 | Insert keeps: each bot is listed under a channel as often as the channel is among its targets |
| `ActiveBots.StopKeeps` | src/control/active_bots.cc:89-113 | so does Stop, and no empty list remains |
| `ActiveBots.StopUndoesInsert` | src/control/active_bots.cc:28-113 | stopping the bot just inserted restores both indexes, list order included |
| `ActiveBots.InsertIff` | src/control/active_bots.cc:28-53 | by the live bots alone: exactly when an Insert is a duplicate, exceeds the capacity of a target, or succeeds, and what it then changes |
| `ActiveBots.StopByChannelClears` | src/control/active_bots.cc:115-134 | uninterrupted, it empties the channel, stops exactly its bots, each once, and returns how many distinct ones there were |
| `ActiveBots.DrainIsStopAll` | src/control/active_bots.cc:136-151 | DrainAll is one Stop for each live bot, in any order |
| `ActiveBots.TakesOut` | src/control/active_bots.cc:89-151 | in every run: Stop takes out the bot it names if it is live, DrainAll all of them, into the hands of their thread |
| `ActiveBots.RegistryRun` | src/control/active_bots.cc:28-171 | under every interleaving with one limit: the index mirrors the targets, distinct bots per channel stay within the limit, and each admitted bot is live, in the hands of a thread that stops it, or was torn down once |
| `ActiveBots.ActiveBots.constructor` | include/osw/control/active_bots.h:54-54 | an empty registry |
| `ActiveBots.ActiveBots.ExceedsCapacity` | src/control/active_bots.cc:40-46 | true exactly when some target already lists the limit |
| `ActiveBots.ActiveBots.InsertBot` | src/control/active_bots.cc:28-53 | all or nothing: refused for an empty or known id or a full target, otherwise enrolled under every target |
| `ActiveBots.ActiveBots.TakeOutBot` | src/control/active_bots.cc:91-109 | the section of Stop: withdrawn from every target; an unknown id changes nothing |
| `ActiveBots.ActiveBots.StopBot` | src/control/active_bots.cc:89-113 | the section, then the tear-down of a bot that was found |
| `ActiveBots.ActiveBots.StopBotsOn` | src/control/active_bots.cc:115-134 | stops the bots of a copied list one by one and counts those it stopped |
| `ActiveBots.ActiveBots.Drain` | src/control/active_bots.cc:136-151 | both indexes empty, every bot torn down once |

## Modelling decisions

- FreeSWITCH is one bug chain per channel with steps of its own: it may unlink any bug or destroy
  any channel at any time. It unlinks a bug before the CLOSE callback for it, closes every bug of a
  channel before the destroy hook runs, and adds no bug to a destroyed channel.
- Every critical section, lock operation and FreeSWITCH call is one atomic step. The set of threads
  referring to a mutex decides whether a weak reference can be promoted.
- Clock readings and the results of foreign calls are parameters. Readings in one run never go back.
- An end-of-stream signal takes no lock, so it may land between the readings of the flag in one Pop.
- Nodes of a linked list have handles, and the index maps keys to handles.
- Sample depth and duration wrap and saturate in 32 bits as in the source, and `since + 1` wraps in
  64 bits. Ids, sequence numbers, clocks and counters are unbounded.
- Parsing and serializing of responses is a parameter; that a response survives both is a hypothesis
  of `ReplayRunsOnce`.
- The tear-down of a bot and the stop of a silence driver are counted, not performed.

## Left out

- Allocation failures and exceptions: the model assumes that allocation succeeds.
- BugTheorems.ContextsFreedOnce: does not cover the manager's destructor, which frees records but not contexts, nor a CLOSE callback that reads its context after FreeSWITCH has unlinked the bug while another thread detaches the same bug and frees that context.
- BugProgress.NeverStuck: a call into FreeSWITCH is one step, so a call that does not return is not covered.
- SendRing.CloseMakesProgress: a write on the stream is one step; the join has no timeout, so a write that blocks keeps Close waiting.
- SendRing.CloseEnds: assumes likewise that every write on the stream returns.
- BugTheorems.DriverNeedsWriteReplace: assumes the silence registry is set once and not replaced.
- A CLOSE callback that FreeSWITCH makes for a bug before it is registered depends on fencing inside FreeSWITCH.
- PlayoutBuffer.TtsPlayoutBuffer.PopInto: collects the samples first and writes the caller's buffer once, where the source copies piece by piece under the lock.
- PlayoutTheorems.DepthIsClose: its lower bound needs that no frame lasts 2^32 ms and the sum does not saturate; it implies no bound on memory, because frames under 1 ms count as 0.
- Idempotency.IdempotencyCache.LookupResume: the wait itself is not a loop; the readings of the clock around the last evaluation of its predicate are parameters.
- EventRing.EventQueue.DrainBatch: the wait before the batch is left out.
- ActiveBots.StopByChannelClears: is about one uninterrupted call; calls in between may insert new bots.
- EventBinder: the mirror of the counters in the health record is left out.
- SendRing: reopening a closed client, flow control and the counter of frames sent are left out.
- Pcm.RecordingRelay.FlushPairedFrame: requires four bytes for each sample pair the frame claims; the source reads them without checking.
- Idempotency.IdempotencyCache.EvictIfNeeded: requires a capacity of at least 1, for the same reason as StoreEntry.
- Idempotency.IdempotencyCache.StoreEntry: requires a capacity of at least 1; with 0 the eviction loop of the source runs on an empty list.
- The resampler and the debug audio dumps of the buffers: foreign filters and output.
- gRPC handlers and servers, TLS, metrics, logging, audit events and rate limits: input and output only.
- `BugFanout`, tier classification, call causes, configuration checks and the variable denylist: finite tables and single checks without state.
- `RingSet::WaitUntilAllEmpty`: the wait checks emptiness before it reads the generation, so a drain in between is noticed only at the deadline.
- The broadcaster and its subscriber queues: their sources are not part of this model.
