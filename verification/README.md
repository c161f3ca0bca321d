# Proofs about the Reactor client core

The Reactor client core is a set of small stateful protocols behind a foreign-function interface. This project
models eight of them in Dafny and proves what they promise over every input, every interleaving or every run:

- **The callback gate** (`CallbackGate.dfy`) decides which host callbacks may start, and when `retire` may say that
  the last one has returned for good. Any number of threads, nested callbacks and concurrent retirers act in
  atomic steps; a closing flag is stored without the mutex.
- **Host threads** (`HostThread.dfy`): a bounded queue with two overflow policies and a worker that asks the gate
  before each delivery, composed with the gate.
- **Request correlation** (`DataCorrelation.dfy`): requests, replies, cancellation and disconnection on the data
  channel, one step per lock acquisition.
- **ICE trickling** (`IceTrickle.dfy`) and **the session state machine** (`Session.dfy`): concurrent connect,
  reconnect, disconnect and peer failure over one locked state; the ready gate; who may terminate a session.
- **Telemetry** (`StageTimes.dfy`, `ClientStatsLoop.dfy`, `MessageStages.dfy`, `TrackStats.dfy`,
  `StatsSampler.dfy`): totals tagged with the connection they belong to, batches that are taken, accepted or given
  back, baselines that move only on commit, and bitrates. What is proved is conservation.
- **PCM reblocking** (`AudioInput.dfy`): pushes of any length in, 10 ms blocks out.
- **Clip assembly** (`ClipText.dfy`, `ClipUrls.dfy`, `ClipPlaylist.dfy`, `PlaylistWait.dfy`): reading a playlist
  (`EXT-X-MAP`, section 4.3.2.5 of RFC 8216), resolving its segments, who gets the bearer token, and the wait for a
  playlist that answers 202 (`Retry-After`, section 10.2.3 of RFC 9110).

Each protocol has two forms. One is a value with a `Next` function over its atomic steps; the theorems quantify over
all sequences of steps. The other is a class or a method in the form of the code, proved against the same functions.

Where the code and its comments disagree, the model follows the code:

- A comment in `CallbackGate::enter` says the flag cannot change between its test and the increment. `retire` stores
  the flag before it takes the mutex, so it can. The model splits `enter` there; `AtMostOneEntersAfterStore` says how
  much that lets in, and `CompleteMeansQuiescent` that it does no harm.
- `clip_segment_requests` says every request carries no token it should not. With a playlist URL that has no `://`,
  every request carries it (`NoOriginSendsToken`).

Five properties one might expect turned out false of the code. Each has a lemma that exhibits the failure, and one that
says when the code does meet the property:

- No wake-up of the ICE flush loop is lost: `Session.ReadyWithoutSession` and `ReadyWithoutSessionLosesWake`, against
  `WakesAreNotLost` and `StrandsExactlyWhen`.
- A step leaves nothing behind in the correlator: `StepCanLeak`, against `StepLeavesExactly`.
- The native send time reported is the engine's growth: `NativeCanExceed`, against `NativeConservedExactlyWhen`. The
  engine describes its total as covering every frame, the first included (`crates/reactor-core/src/peer.rs:361-364`);
  readings that keep to that are always reported exactly (`NativeConserved`). Only readings
  that break it, such as one taken after a first frame was counted and before the total was, can exceed.
- A relative segment stays on the playlist's origin, and the token with it: `QueryInAuthorityLeaves` and
  `QueryInSchemeSendsToken`, against `RelativeStaysExactlyWhen` and `TokenOnOriginExactlyWhen`.
- Recovery keeps a connection id once it is there: `StaleReconnectReplaces`, against `ConnectionStaysExactlyWhen`. A
  reconnect that starts while a connect has its session and no connection yet finds none; if it is still registering
  when that connect has failed and another has succeeded, it replaces the new id. From a settled client both the
  session and its connection id are there and stay (`SettledClientKeepsBoth`).

Times are exact reals. `NotFinite` stands for NaN and the infinities where the code tests for them.

## Model

| member | source | states |
|---|---|---|
| Gates.CompleteMeansQuiescent | crates/reactor-ffi/src/callbacks.rs:109-171 | In every interleaving from a new gate, once some `retire` has answered Complete nothing is in flight, then or after any continuation, and no later `enter` succeeds. |
| Gates.StepKeepsValid | crates/reactor-ffi/src/callbacks.rs:109-213 | Every atomic step keeps the gate's invariant: mutex held only by a half-entered thread, no zero entry, exact own counts, gate closed once retired, quiet once Complete, no lost wake-up. |
| Gates.RunKeepsValid | crates/reactor-ffi/src/callbacks.rs:109-213 | The same over whole runs. |
| Gates.AnswersExactly | crates/reactor-ffi/src/callbacks.rs:133-171 | Complete exactly when the inspecting step sees nothing in flight and has not timed out; Incomplete exactly on timeout or when all that runs is the caller's own; the own count is still exact and at most the total. |
| Gates.ReentrantNeverComplete | crates/reactor-ffi/src/callbacks.rs:133-171 | A retire on a thread inside a callback never answers Complete, in any run. |
| Gates.AtMostOneEntersAfterStore | crates/reactor-ffi/src/callbacks.rs:109-134 | After the flag is stored at most one `enter` succeeds in any continuation, the one already holding the mutex. |
| Gates.RetireLoopBounded | crates/reactor-ffi/src/callbacks.rs:141-166 | On a closed gate, spurious wakes and timeouts of that retirer aside, its loop turns at most as often as a measure over outstanding guards and unfired notifications allows. |
| Gates.NobodySleepsForNothing | crates/reactor-ffi/src/callbacks.rs:141-213 | A waiting retirer with no notification on the way implies a callback in flight on another thread. |
| Gates.GatesAreIndependent | crates/reactor-ffi/src/callbacks.rs:75-96 | Counts are kept per gate, so each gate's share of a run of many gates is a run of that gate alone, and the results above hold gate by gate. |
| Gates.AdmitSums | crates/reactor-ffi/src/callbacks.rs:109-118 | Admitting a callback raises the total by one. |
| Gates.ReleaseSums | crates/reactor-ffi/src/callbacks.rs:197-213 | Dropping a guard lowers the total and its own thread's count by one and no other thread's. |
| Gates.CallbackGate.constructor | crates/reactor-ffi/src/callbacks.rs:99-107 | A new gate is open and empty. |
| Gates.CallbackGate.Enter | crates/reactor-ffi/src/callbacks.rs:109-118 | Admits exactly when open, counting the thread; changes nothing otherwise. |
| Gates.CallbackGate.LeaveGuard | crates/reactor-ffi/src/callbacks.rs:197-213 | One callback fewer for the thread, no entry left at zero. |
| Gates.CallbackGate.Total | crates/reactor-ffi/src/callbacks.rs:85-88 | The loop returns the sum of all per-thread counts. |
| Gates.CallbackGate.RetireWithTimeout | crates/reactor-ffi/src/callbacks.rs:133-171 | Closes the gate, with an `enter` past the flag landing before the mutex is taken. It waits exactly as long as somebody else's callback is in flight and no wait has timed out: ahead of every wait gone through the total exceeded the caller's own count, only the last may have timed out, and the answer is then Incomplete; else Complete or Incomplete by the caller's own count. The counts end as those waits leave them, the caller's own unchanged. |
| Gates.CallbackGate.AwaitOthers | crates/reactor-ffi/src/callbacks.rs:138-171 | The same for the loop, from the moment the mutex is first taken. |
| Gates.EntersExactlyWhenOpen | crates/reactor-ffi/src/callbacks.rs:109-118 | In the step model `enter` gets past its load exactly when the gate is open, and then counts one callback more for its thread. |
| Gates.NotifyWakesEverybody | crates/reactor-ffi/src/callbacks.rs:205-212 | A notification leaves no retirer asleep. |
| HostThreads.ItemsConserved | crates/reactor-ffi/src/callbacks.rs:247-397 | Over any run, accepted = delivered + queued + in hand + gate-rejected + evicted + cleared by close, at most one in hand or rejected, and the drop counter is exactly what overflow discarded. |
| HostThreads.DeliveredInSendOrder | crates/reactor-ffi/src/callbacks.rs:247-397 | Deliveries followed by the queue are in send order; the queue is a contiguous suffix of the accepted items within capacity; DropNewest evicts nothing, DropOldest refuses nothing. |
| HostThreads.NoDeliveryAfterComplete | crates/reactor-ffi/src/callbacks.rs:361-397 | With gate, queue and worker composed, no delivery starts after some retire has answered Complete, whatever is queued or sent. |
| HostThreads.CloseLeavesAtMostOne | crates/reactor-ffi/src/callbacks.rs:286-295 | After the queue closes at most the item already popped is delivered, in any continuation. |
| HostThreads.StoppedDeliversNothing | crates/reactor-ffi/src/callbacks.rs:361-413 | A worker that left its loop delivers nothing ever again. |
| HostThreads.WorkerLeaves | crates/reactor-ffi/src/callbacks.rs:361-368 | A worker between items of a closed queue can only leave its loop; one at the gate leaves it exactly when the gate is shut. |
| HostThreads.HostStepKeepsValid | crates/reactor-ffi/src/callbacks.rs:247-397 | Every step of sender, worker, closer or any thread at the gate keeps the tracing, ordering, counting and capacity invariant. |
| HostThreads.HostRunKeepsValid | crates/reactor-ffi/src/callbacks.rs:247-397 | The same over whole runs. |
| HostThreads.SpawnValid | crates/reactor-ffi/src/callbacks.rs:342-377 | A freshly spawned worker on a gate in any valid state meets the invariant. |
| HostThreads.Queue.constructor | crates/reactor-ffi/src/callbacks.rs:342-360 | A new queue is empty and open. |
| HostThreads.Queue.Push | crates/reactor-ffi/src/callbacks.rs:247-271 | An open queue that is unbounded or shorter than its capacity takes the item and drops nothing; a full one counts a drop and keeps its contents (DropNewest) or loses its oldest item (DropOldest); a closed one takes nothing. |
| HostThreads.DropsExactlyWhenFull | crates/reactor-ffi/src/callbacks.rs:253-268 | In every step of every run the drop counter, and with it the items evicted or refused, rises exactly on a send to an open queue that holds `capacity` items; a send to an open queue with room appends. |
| HostThreads.Queue.TryPop | crates/reactor-ffi/src/callbacks.rs:273-284 | The oldest item if there is one; otherwise end of queue exactly when closed. |
| HostThreads.Queue.Close | crates/reactor-ffi/src/callbacks.rs:286-295 | Closed and emptied. |
| DataCorrelation.RequestIdsDistinct | crates/reactor-core/src/data.rs:93-94 | Two request ids are equal exactly when their counter values are. |
| DataCorrelation.IdsNeverReused | crates/reactor-core/src/data.rs:87-111 | In every run, the id drawn next differs from the id of every request before. |
| DataCorrelation.ResolvedOnceAndGenuinely | crates/reactor-core/src/data.rs:125-211 | In every run each receiver resolves at most once; with a reply only if an earlier step handled a message of that content under its id while it was pending, with the rejection only if everything in flight was failed while it was pending. |
| DataCorrelation.NeverResolvesAfterward | crates/reactor-core/src/data.rs:190-211 | A call that was answered, timed out or was dropped never resolves in any continuation. |
| DataCorrelation.NothingLeftBehind | crates/reactor-core/src/reactor.rs:308-317 | When a `data_request` is over, however it ended, neither map holds its id, then and after any continuation. |
| DataCorrelation.CleanUpProgresses | crates/reactor-core/src/reactor.rs:1130-1197 | Each step of a call's clean-up, on the failed-send, timeout, answer and drop paths, brings it one nearer its end, and it is over exactly when none is left. |
| DataCorrelation.AwaitingIsNeverOrphaned | crates/reactor-core/src/reactor.rs:1183-1197 | An awaiting call has its reply or a live sender in every reachable state, so the `Aborted` arm is unreachable. |
| DataCorrelation.EndedListensNoMore | crates/reactor-core/src/reactor.rs:1183-1197 | A call that was answered, timed out or was dropped listens no more, in every reachable state. |
| DataCorrelation.ErrorReachesOne | crates/reactor-core/src/reactor.rs:913-955 | For every error handled under an id, at any point of any run: it reaches at most one of the caller's channel and the event stream, and at most once; and, its event if due being dispatched, one of them exactly when it matched nothing pending or the channel was still empty at the send. |
| DataCorrelation.NotificationErrorsAreTold | crates/reactor-core/src/reactor.rs:934-945 | An error without an id is owed to the event stream until it is dispatched there, once. |
| DataCorrelation.CallerHearsExactlyWhen | crates/reactor-core/src/data.rs:145-180 | A handled message fills the channel of the call it names exactly when that channel is empty at its send, which happens only if it matched. |
| DataCorrelation.StepLeavesExactly | crates/reactor-core/src/reactor.rs:1300-1319 | For every `send_step` that is over, by the step that ended it: nothing is left after a failed send or a timeout; the arrival after an answer exactly when that was not a step's result; after a drop the request exactly while nothing cleared it since it was registered, and the arrival exactly when such an answer lay unread. Nothing is left if and only if it ended clean in that sense. |
| DataCorrelation.PendingWhileUntouched | crates/reactor-core/src/data.rs:87-211 | A request that was not cancelled is pending exactly as long as no reply under its id was handled and nothing was rejected since it was registered. |
| DataCorrelation.StepCanLeak | crates/reactor-core/src/reactor.rs:1300-1319 | Three runs: a step answered by an error leaves its arrival, so does one dropped with that answer unread, and a step dropped while awaiting leaves its request. |
| DataCorrelation.StepKeepsSound | crates/reactor-core/src/data.rs:87-211 | Every step keeps, for every id: one unused sender in one place, an answer to come for who awaits, and which arrivals may exist. |
| DataCorrelation.RunKeepsSound | crates/reactor-core/src/data.rs:87-211 | The same over whole runs. |
| DataCorrelation.DataCorrelator.constructor | crates/reactor-core/src/data.rs:82-84 | A new correlator holds nothing. |
| DataCorrelation.DataCorrelator.Begin | crates/reactor-core/src/data.rs:87-111 | Draws the next id and registers the command under it. |
| DataCorrelation.DataCorrelator.HandleMessage | crates/reactor-core/src/data.rs:117-186 | With a clock, ends in the state the protocol's handler steps end in; without one keeps no arrival. The reply goes to a listening caller, and an arrival is kept only for one. |
| DataCorrelation.DataCorrelator.Cancel | crates/reactor-core/src/data.rs:190-193 | Forgets the id in both maps and nothing else. |
| DataCorrelation.DataCorrelator.TakeArrival | crates/reactor-core/src/data.rs:197-199 | Returns and removes the arrival, if any. |
| DataCorrelation.DataCorrelator.FailAll | crates/reactor-core/src/data.rs:202-211 | Rejects every request in flight exactly once with its command, leaving none. |
| IceTrickle.TrickleIsExact | crates/reactor-core/src/reactor.rs:858-877 | Between resets the drained batches in order and then the buffer are exactly the candidates pushed; the final mark is taken at most once, only after gathering completed, and is on the last batch unless a candidate came late. |
| IceTrickle.WakesAreNotLost | crates/reactor-core/src/reactor.rs:2303-2354 | While a session is held and the connection ready, undrained work has a wake, an intake or a flusher on the way, in every run that takes up no session while ready without one. |
| IceTrickle.ReadyWithoutSessionLosesWake | crates/reactor-core/src/reactor.rs:2316-2327 | From every state that is ready with no session some run spends a candidate's wake for nothing, and a session taken up then leaves it stranded. |
| IceTrickle.StrandsExactlyWhen | crates/reactor-core/src/reactor.rs:2303-2354 | As long as no further transport becomes ready, some run strands work if and only if the state is ready with no session. |
| Session.ReadyWithoutSession | crates/reactor-core/src/reactor.rs:676-689 | A run of the session machine reaches such a state: a connect overtaken by a whole disconnect still marks its connection ready. |
| IceTrickle.StepKeepsValid | crates/reactor-core/src/reactor.rs:2329-2354 | Every locked section keeps the candidates' account and the rules of the final mark. |
| IceTrickle.FlushTakes | crates/reactor-core/src/reactor.rs:2329-2347 | A flush takes nothing unless the connection is ready and there is work; else every candidate, for the connection id held at that moment, final exactly when gathering completed and that was not sent. |
| IceTrickle.CompleteExactlyWhen | crates/reactor-core/src/reactor.rs:868-877 | In every run gathering counts as complete exactly when the engine said so since the last reset. |
| IceTrickle.ConnectionIsLast | crates/reactor-core/src/reactor.rs:684-702 | In every run the connection id batches go to is the one last set or reassigned, which a recoverable clear keeps and another gives up. |
| IceTrickle.IceState.constructor | crates/reactor-core/src/reactor.rs:320-371 | Nothing buffered, not ready. |
| IceTrickle.IceState.OnCandidate | crates/reactor-core/src/reactor.rs:858-867 | Appends the candidate; notifies exactly when ready. |
| IceTrickle.IceState.OnGatheringComplete | crates/reactor-core/src/reactor.rs:868-877 | Marks gathering complete; notifies exactly when ready. |
| IceTrickle.IceState.FlushIce | crates/reactor-core/src/reactor.rs:2329-2347 | The buffer and the batch of one flush, as the protocol's drain has them. |
| IceTrickle.IceState.MarkReady | crates/reactor-core/src/reactor.rs:684-688 | Sets the connection id and readiness together. |
| IceTrickle.IceState.ResetTrickle | crates/reactor-core/src/reactor.rs:573-580 | Forgets candidates and marks, and is no longer ready. |
| Session.ReadyGateSound | crates/reactor-core/src/reactor.rs:663-669 | Over all event orders an installed gate has a flag still missing, each gate fires at most once, and a step fires only the installed one and only with all three flags set. |
| Session.PeerGoneOnlyIfRecorded | crates/reactor-core/src/reactor.rs:703-753 | An attempt reports the peer's disconnection only if a peer-state event recorded one since the attempt's reset. |
| Session.ResetSeesNothing | crates/reactor-core/src/reactor.rs:406-424 | An attempt starts with no recorded cause. |
| Session.TerminatesOnlyItsOwn | crates/reactor-core/src/reactor.rs:755-786 | In every run of any calls, each terminate is for an id this client created, and a ready trickle has its connection id. |
| Session.RecoveryKeepsSession | crates/reactor-core/src/reactor.rs:554-816 | Over every run of reconnects and peer failures, however they interleave and end, with or without a connection id, session and ownership stay and nothing is terminated. |
| Session.RecoveryKeepsConnection | crates/reactor-core/src/reactor.rs:676-688 | Over the same runs without a reassignment, a connection id that is there stays, if no call that found another or none is still registering. |
| Session.ConnectionStaysExactlyWhen | crates/reactor-core/src/reactor.rs:676-688 | That condition is exact: the id stays over all such runs if and only if it holds. |
| Session.StaleReconnectReplaces | crates/reactor-core/src/reactor.rs:676-688 | A run from a new client to a state where it fails with a session and its connection id held: a reconnect that read the connection while an earlier connect had none is still registering, and replaces the id. |
| Session.HeldSessionHasConnection | crates/reactor-core/src/reactor.rs:448-464 | In every reachable state with only recoveries under way, a held session has its connection id. |
| Session.SettledClientKeepsBoth | crates/reactor-core/src/reactor.rs:554-816 | From every reachable state with all calls over and a session held, over every run of reconnects and peer failures without a reassignment, the client keeps session, ownership and connection id and terminates nothing. |
| Session.LateRegistrationReplaces | crates/reactor-core/src/reactor.rs:676-688 | From every state with such a call still registering, its id replaces the one that is there. |
| Session.FailedConnectTerminates | crates/reactor-core/src/reactor.rs:438-464 | A connect that fails with nobody else acting terminates the session it created, once, nothing else, and ends unbound and disconnected. |
| Session.LoneSuccess | crates/reactor-core/src/reactor.rs:448-544 | A connect or reconnect that succeeds with nobody else acting ends ready, on the session it adopted, created or found, on the connection the server reassigned or else it adopted, found or registered, with a gate made for it fired; on the way it is connecting, then waiting. |
| Session.SuccessIsReady | crates/reactor-core/src/reactor.rs:536-596 | In every run the step in which a call succeeds leaves the client ready. |
| Session.ReconnectClosesLive | crates/reactor-core/src/reactor.rs:554-561 | A reconnect of a ready client, with nobody else acting, tears the live connection down before it goes on. |
| Session.LoneDisconnect | crates/reactor-core/src/reactor.rs:755-816 | A disconnect with nobody else acting terminates the session exactly if the client created it, once, and ends unbound and disconnected. |
| Session.LonePeerFailure | crates/reactor-core/src/reactor.rs:889-906 | A reported peer failure with nobody else acting records what the peer said, ends disconnected, and keeps session, ownership and connection id. |
| Session.PeerFailureReportedExactlyWhen | crates/reactor-core/src/reactor.rs:889-893 | In every run a failing peer is reported exactly when the client is not disconnected and no teardown began since the last reset. |
| Session.BlamesExactlyWhen | crates/reactor-core/src/reactor.rs:703-753 | In every run an attempt that looks for the cause reports the peer's disconnection exactly when one was recorded since the last reset. |
| Session.ReasonExactlyWhen | crates/reactor-core/src/reactor.rs:748-753 | In every run a cause is on record exactly when a peer state was recorded since the last reset. |
| Session.ClosingExactlyWhen | crates/reactor-core/src/reactor.rs:755-762 | In every run the closing mark is set exactly when a teardown began since the last reset. |
| Session.FlagExactlyWhen | crates/reactor-core/src/reactor.rs:827-836 | In every run a readiness flag is up exactly when its event came in since the transport was last taken down. |
| Session.TeardownDropsGate | crates/reactor-core/src/reactor.rs:755-760 | No attempt that is waiting for its gate when a teardown begins ever gets through it. |
| Session.DroppedGateNeverFires | crates/reactor-core/src/reactor.rs:1006-1012 | A gate that is neither installed nor fired never fires. |
| Session.StepKeepsGates | crates/reactor-core/src/reactor.rs:1006-1012 | Every step keeps the ready gate armed, and fires nothing or the one gate that was installed or that it installs, with all three flags set. |
| Session.StepKeepsValid | crates/reactor-core/src/reactor.rs:406-911 | Every step of every call keeps gate, ownership and blame invariants. |
| Session.TracksMatch | crates/reactor-core/src/reactor.rs:214-232 | The shrinking search answers true exactly when the two track lists are equal as multisets. |
| Session.SwapRemoveTakesOne | crates/reactor-core/src/reactor.rs:220-230 | `swap_remove` takes out one occurrence and keeps the rest. |
| Session.ReactorState.constructor | crates/reactor-core/src/reactor.rs:320-371 | A new client is disconnected and unbound. |
| Session.ReactorState.GuardConnect | crates/reactor-core/src/reactor.rs:406-424 | Admits exactly when disconnected, resetting cause and closing in the same section. |
| Session.ReactorState.GuardReconnect | crates/reactor-core/src/reactor.rs:562-587 | Goes on exactly with a session held, with the transport's flags down. |
| Session.ReactorState.CheckReadyLocked | crates/reactor-core/src/reactor.rs:1006-1012 | Fires and removes the gate exactly when all three flags are set. |
| Session.ReactorState.InstallGate | crates/reactor-core/src/reactor.rs:663-669 | Installs a gate and fires it at once if everything is already up. |
| Session.ReactorState.OnFlag | crates/reactor-core/src/reactor.rs:827-836 | Raises one flag and checks the gate in the same section. |
| Session.ReactorState.StartTeardown | crates/reactor-core/src/reactor.rs:755-762 | Drops the gate, marks closing, and picks the session to terminate. |
| Session.ReactorState.FinishTeardown | crates/reactor-core/src/reactor.rs:785-810 | Transport down; the binding is kept exactly when recoverable. |
| StageTotals.BatchesAreIsolated | crates/reactor-core/src/stage_times.rs:67-137 | For every interleaving, a batch taken for a connection is the sum of measurements tagged with that connection. |
| StageTotals.TotalsConserved | crates/reactor-core/src/stage_times.rs:67-151 | Within a connection what was added is what the totals hold plus what its batches taken and not given back carry, for counts and times under every key. |
| StageTotals.GiveBackRestoresKnown | crates/reactor-core/src/message_stages.rs:175-187 | Taking and giving back is lossless exactly when every stage in the batch has a known name. |
| StageTotals.BatchIsCountable | crates/reactor-core/src/stage_times.rs:125-151 | For what was taken from the totals, the validity test on giving back changes nothing. |
| StageTotals.StepKeepsValid | crates/reactor-core/src/stage_times.rs:67-151 | Every add, take, give-back and new connection keeps totals and batches equal to the measurements they stand for. |
| StageTotals.GiveAll | crates/reactor-core/src/stage_times.rs:125-137 | The give-back loop ends in the totals with every known reading added. |
| StageTotals.StageTimes.constructor | crates/reactor-core/src/stage_times.rs:60-62 | No totals. |
| StageTotals.StageTimes.BeginConnection | crates/reactor-core/src/stage_times.rs:67-71 | Next generation, totals cleared. |
| StageTotals.StageTimes.Add | crates/reactor-core/src/stage_times.rs:81-84 | Adds to the current connection's totals if measured. |
| StageTotals.StageTimes.AddFrom | crates/reactor-core/src/stage_times.rs:88-95 | Adds only a measurement of the current generation. |
| StageTotals.StageTimes.TakeFrom | crates/reactor-core/src/stage_times.rs:99-121 | Hands out and clears the totals exactly for the current generation. |
| StageTotals.StageTimes.GiveBack | crates/reactor-core/src/stage_times.rs:125-137 | Restores known stages exactly for the current generation. |
| StageTotals.MessageTimes.constructor | crates/reactor-core/src/message_stages.rs:121-123 | No totals. |
| StageTotals.MessageTimes.BeginConnection | crates/reactor-core/src/message_stages.rs:126-130 | Next generation, totals cleared. |
| StageTotals.MessageTimes.AddFrom | crates/reactor-core/src/message_stages.rs:140-153 | Adds only a measurement of the current generation. |
| StageTotals.MessageTimes.TakeFrom | crates/reactor-core/src/message_stages.rs:156-172 | Hands out and clears the totals exactly for the current generation. |
| StageTotals.MessageTimes.GiveBack | crates/reactor-core/src/message_stages.rs:175-187 | Restores known stages exactly for the current generation. |
| ClientStatsLoop.AddSdkStages | crates/reactor-core/src/reactor.rs:2411-2422 | Every reading lands on the first stat of its track or in the unmatched rest, once, in counts and times. |
| ClientStatsLoop.Reporter.constructor | crates/reactor-core/src/reactor.rs:2170-2193 | A new reporter's account is settled, with whatever its connection has already timed in the totals. |
| ClientStatsLoop.TimedBeforehand | crates/reactor-core/src/reactor.rs:2182-2186 | Totals that are exactly the current connection's measurements so far are a balanced account. |
| ClientStatsLoop.Reporter.Run | crates/reactor-core/src/reactor.rs:2193-2265 | Over any turns, with frames and commands timed and connections begun at any point between the loop's steps: what counts as timed is the old logs plus exactly what that noise timed for this connection while it was current; accepted batches are only added to, one for each turn that sends; while the connection is current every frame and command timed is in the totals or in exactly one accepted batch, in counts and times; never in two; the connect time rides at most one batch; and the loop stops early only where a turn ends it. |
| ClientStatsLoop.LaterAdds | crates/reactor-core/src/reactor.rs:2193-2265 | The logs after any noise are the logs before plus the measurements of this connection in it, in order. |
| ClientStatsLoop.Reporter.SettledBalances | crates/reactor-core/src/reactor.rs:2193-2265 | What a settled account says key by key. |
| ClientStatsLoop.Reporter.OneTick | crates/reactor-core/src/reactor.rs:2193-2265 | One turn, on each of its exits: it takes from as many stores as the connections current by then allow, the noise that comes about is that of the steps reached, a batch on the tick's tracks is added exactly when one is sent, and the account is settled with nothing in hand. |
| ClientStatsLoop.Reporter.TakeAndReport | crates/reactor-core/src/reactor.rs:2217-2264 | The same from the takes on. |
| ClientStatsLoop.Reporter.Report | crates/reactor-core/src/reactor.rs:2224-2264 | The empty, accepted and refused batch each settle what was taken; it is empty exactly with no track, metric, connect time or stage and the environment already sent; the connect time is on the batch unless one went out before. |
| ClientStatsLoop.Reporter.Carry | crates/reactor-core/src/reactor.rs:2246-2255 | An accepted batch carries its stages, the unmatched ones go back, and the flags follow. |
| ClientStatsLoop.Reporter.TakeBoth | crates/reactor-core/src/reactor.rs:2217-2223 | Takes all of both stores' readings exactly when both are still at this connection, else leaves nothing in hand: when the second refuses, the first is given back. |
| ClientStatsLoop.Reporter.HappensOnce | crates/reactor-core/src/stage_times.rs:67-95 | What another thread times or begins between the loop's steps enters the logs exactly when it belongs to this connection and that is current. |
| ClientStatsLoop.SendingKeepsAccount | crates/reactor-core/src/reactor.rs:2246-2255 | Moving part of what is in hand into an accepted batch keeps the account. |
| ClientStatsLoop.ReturningKeepsAccount | crates/reactor-core/src/reactor.rs:2240-2263 | Giving back what is in hand keeps the account, whether or not the connection is still current. |
| ClientStatsLoop.TimingKeepsAccount | crates/reactor-core/src/stage_times.rs:88-95 | One more measurement keeps the account. |
| ClientStatsLoop.TakingKeepsAccount | crates/reactor-core/src/stage_times.rs:99-121 | Taking the totals in hand keeps the account. |
| MessageStages.StallConserved | crates/reactor-core/src/message_stages.rs:243-313 | For growing totals and any mix of committed and uncommitted batches, stall reported plus stall held is the total's growth, and reported message counts are the messages sent. |
| MessageStages.NativeConservedExactlyWhen | crates/reactor-core/src/message_stages.rs:243-313 | For growing totals, first plus rest native reported plus held is at least the growth in native send time, and equal to it exactly when in each committed batch the first part fits in what is due. |
| MessageStages.NativeConserved | crates/reactor-core/src/message_stages.rs:243-313 | It is equal for every run of readings whose total over all frames counts each first frame too. |
| MessageStages.NativeCanExceed | crates/reactor-core/src/message_stages.rs:243-313 | A reading whose total lags its own first part reports 2 s where the total grew by 1 s. |
| MessageStages.UncommittedInvisible | crates/reactor-core/src/message_stages.rs:303-313 | Calls without a commit leave the next window and the next baseline unchanged: only `commit` writes what `stages` reads. |
| MessageStages.WindowReports | crates/reactor-core/src/message_stages.rs:243-301 | What one window reports of the holdable stages: the times due when messages finished, nothing otherwise. |
| MessageStages.EveryStageReports | crates/reactor-core/src/message_stages.rs:262-286 | Every stage of sending: in a window where messages finished, the growth of its own total (with what was held, for the rest of the native sends and for stalls) over the messages sent; else nothing. |
| MessageStages.ReassemblyReports | crates/reactor-core/src/message_stages.rs:291-299 | Reassembly: the growth of its total over the messages received, if any. |
| MessageStages.PartsLieWithin | crates/reactor-core/src/message_stages.rs:200-207 | Where the engine's parts lie within their stages, the stages a window marks as parts of a stage add up to no more than that stage. |
| MessageStages.Collect | crates/reactor-core/src/message_stages.rs:276-301 | The loop keeps, in order, exactly the times that are not negative. |
| MessageStages.MessageStageReporter.constructor | crates/reactor-core/src/message_stages.rs:229-231 | No baseline, nothing held. |
| MessageStages.MessageStageReporter.Stages | crates/reactor-core/src/message_stages.rs:243-305 | Returns the window against the committed baseline and only notes where it would move. |
| MessageStages.MessageStageReporter.Commit | crates/reactor-core/src/message_stages.rs:308-313 | Moves baseline and held times to what was noted. |
| TrackStats.StageTelescopes | crates/reactor-core/src/stats.rs:676-870 | Over any mix of batches, sent out or not, with the stream in the report or not, the stage frames in the batches sent out telescope to last minus first committed total, and their time is between zero and the growth. |
| TrackStats.UncommittedInvisible | crates/reactor-core/src/stats.rs:676-847 | Calls without a commit leave the next batch and the next baselines unchanged: only `commit` writes what `track_stats` reads. |
| TrackStats.TickMovesBaseline | crates/reactor-core/src/stats.rs:832-847 | A stage's baseline moves to the report's total exactly when the batch goes out and the report reads the stream. |
| TrackStats.BatchReports | crates/reactor-core/src/stats.rs:676-870 | What a whole batch reports of a stream's stage, summed over its readings, is exactly the windows of the engine's readings of it. |
| TrackStats.BatchNamesTracks | crates/reactor-core/src/stats.rs:676-830 | One reading per stream that stands for a track, received ones first, under the track's name. |
| TrackStats.BatchReportsGrowth | crates/reactor-core/src/stats.rs:851-870 | One batch reports exactly the frames since the baseline, and exactly the time since whenever a frame went through, or nothing where none did or the report lacks the stream. |
| TrackStats.UnmeasuredDropsBaseline | crates/reactor-core/src/stats.rs:851-870 | A time that is not finite reports nothing and, once its batch went out, drops the baseline. |
| TrackStats.BitrateIsRate | crates/reactor-core/src/stats.rs:904-918 | A bitrate is reported exactly with a baseline, time passed and no count gone backwards, and is the bits since over the time since to the nearest bit per second. |
| TrackStats.ReceivedBytesMove | crates/reactor-core/src/stats.rs:832-847 | A batch that went out makes each received stream it stands on the baseline of its next bitrate. |
| TrackStats.SentBytesMove | crates/reactor-core/src/stats.rs:832-847 | The same for sent streams. |
| TrackStats.TimingReports | crates/reactor-core/src/stats.rs:877-900 | A timing frame not reported before gives each of the sender's stages its time and one frame, if measured. |
| TrackStats.TimingReportedOnce | crates/reactor-core/src/stats.rs:877-900 | After the batch that reported it went out, the same timing frame reports nothing. |
| TrackStats.ResolvesExactlyWhen | crates/reactor-core/src/stats.rs:922-940 | A stream resolves to the first track of its direction on its mid, exactly when its codec suits that track. |
| TrackStats.CodecsHaveOneKind | crates/reactor-core/src/stats.rs:578-600 | Every codec the wire carries belongs to tracks of exactly one kind, and no other codec to any. |
| TrackStats.FirstIsPicked | crates/reactor-core/src/stats.rs:686-700 | The first stream to resolve on a mid stands for the track. |
| TrackStats.PickedIsFirst | crates/reactor-core/src/stats.rs:686-700 | And no other stream does. |
| TrackStats.BatchMovesByReadings | crates/reactor-core/src/stats.rs:676-847 | What a whole batch does to one stage's baseline is what the last stream that reads it says. |
| TrackStats.ClientStatsReporter.constructor | crates/reactor-core/src/stats.rs:661-663 | No baselines, nothing pending. |
| TrackStats.ClientStatsReporter.Direction | crates/reactor-core/src/stats.rs:690-828 | The loop over one direction: the first resolvable stream of each `mid`, measured against committed baselines. |
| TrackStats.ClientStatsReporter.TrackStats | crates/reactor-core/src/stats.rs:676-830 | A batch and its pending moves; committed baselines untouched. |
| TrackStats.ClientStatsReporter.Commit | crates/reactor-core/src/stats.rs:832-847 | Moves, drops or keeps each baseline as noted, last note of a key winning. |
| BitrateSampling.BytesAccounted | crates/reactor-core/src/stats.rs:462-500 | On one connection with growing counters, rates times windows add up to eight times the bytes between first and last baseline, in each direction, however fast it is polled and whatever the clock does. |
| BitrateSampling.CountersAccounted | crates/reactor-core/src/stats.rs:453-501 | The same on the engine's own counters: those of the first nominated and succeeded pair of the first sample and of the sample the baseline is from. |
| BitrateSampling.ReadsFirstLive | crates/reactor-core/src/stats.rs:547-551 | A sample reads the counters and priority of the first pair that is nominated and succeeded, and the SSRCs received and then sent. |
| BitrateSampling.RatesNeverCross | crates/reactor-core/src/stats.rs:474-500 | A reported rate is not negative, spans at least 200 ms, and is the rate between two samples with no reset and no change of pair or SSRCs between. |
| BitrateSampling.WithheldOnlyWhen | crates/reactor-core/src/stats.rs:474-500 | A sample with a live pair reports no rate only as the first of its connection or within 200 ms of an earlier one. |
| BitrateSampling.RateTimesWindow | crates/reactor-core/src/stats.rs:527-530 | A rate times its window is eight times the bytes. |
| BitrateSampling.BackwardsIsNoTraffic | crates/reactor-core/src/stats.rs:527-530 | A count that went backwards reads as no traffic. |
| BitrateSampling.StatsSampler.constructor | crates/reactor-core/src/stats.rs:279-281 | No baseline. |
| BitrateSampling.StatsSampler.Reset | crates/reactor-core/src/stats.rs:289-291 | Forgets the baseline. |
| BitrateSampling.StatsSampler.Sample | crates/reactor-core/src/stats.rs:453-501 | Reports and moves the baseline as the sampling rule says, reading the first nominated and succeeded pair. |
| PcmBlocks.DeliveryIsExact | crates/reactor-ffi/src/audio_input.rs:17-55 | For every run of pushes, valid or not and in any formats, what is delivered is each stretch of one format cut into blocks from its start, and what is buffered is the last one's tail: a format change loses only a tail. |
| PcmBlocks.NothingLostInOneFormat | crates/reactor-ffi/src/audio_input.rs:17-55 | Within one format delivered samples and then the pending tail are all accepted samples. |
| PcmBlocks.SplitDoesNotMatter | crates/reactor-ffi/src/audio_input.rs:17-55 | Two ways of splitting one stream into pushes deliver the same blocks and leave the same buffer. |
| PcmBlocks.BlocksAreTenMs | crates/reactor-ffi/src/audio_input.rs:41-55 | Every delivered block is one block of its own format, and the tail is shorter and holds whole frames. |
| PcmBlocks.BlockSamples | crates/reactor-ffi/src/audio_input.rs:41-41 | A block is never empty and holds whole frames. |
| PcmBlocks.BlockIsTenMs | crates/reactor-ffi/src/audio_input.rs:3-8 | At every supported rate a block is exactly a hundredth of a second. |
| PcmBlocks.CutIsExact | crates/reactor-ffi/src/audio_input.rs:51-55 | Cutting into blocks loses nothing, invents nothing and keeps the order. |
| PcmBlocks.CutAppend | crates/reactor-ffi/src/audio_input.rs:42-55 | Samples behind a stream only extend its tail. |
| PcmBlocks.AudioInput.constructor | crates/reactor-ffi/src/audio_input.rs:10-14 | No format, nothing pending. |
| PcmBlocks.AudioInput.Push | crates/reactor-ffi/src/audio_input.rs:17-55 | Top-up, block loop and remainder together cut the tail and the push into blocks; an invalid or empty push changes nothing. |
| ClipUrls.AbsolutePathStays | crates/reactor-core/src/recording.rs:320-331 | An absolute path, `//host` included, resolves to the playlist's scheme and authority followed by the path. |
| ClipUrls.ResolvesToTarget | crates/reactor-core/src/recording.rs:320-342 | By the parts of the playlist's URL: a segment with its own scheme stands as it is, an absolute path goes behind scheme and authority, and any other name replaces file name and query in the playlist's directory (or follows a slash where there is no path). |
| ClipUrls.RelativeStaysExactlyWhen | crates/reactor-core/src/recording.rs:320-342 | A relative name resolves to the playlist's scheme and authority exactly when neither holds a `?` or `#`. |
| ClipUrls.JoinIsIdempotent | crates/reactor-core/src/recording.rs:320-342 | With a playlist URL whose scheme and authority hold no `?` or `#`, resolving a resolved segment changes nothing. |
| ClipUrls.BearerExactly | crates/reactor-core/src/recording.rs:137-157 | With a clean playlist URL every request goes to the origin its segment names, else the playlist's, and carries the token exactly when that is the playlist's. |
| ClipUrls.TokenOnOriginExactlyWhen | crates/reactor-core/src/recording.rs:320-358 | For relative names, the token goes to the playlist's origin and nowhere else exactly when the scheme holds no `?` or `#` or is cut to half a `://`. |
| ClipUrls.NoOriginSendsToken | crates/reactor-core/src/recording.rs:346-358 | With a playlist URL without `://` every segment is fetched as it stands, with the token. |
| ClipUrls.QueryInAuthorityLeaves | crates/reactor-core/src/recording.rs:320-358 | Against `s://h?q` the name `a` resolves to the origin `s://h`, without the token. |
| ClipUrls.QueryInSchemeSendsToken | crates/reactor-core/src/recording.rs:320-358 | Against `a?b://h` the name `c` resolves to a URL with no origin, with the token. |
| ClipUrls.PathOfAbsolute | crates/reactor-core/src/recording.rs:305-312 | The path of an absolute segment is neither its host nor its query. |
| ClipUrls.PathOfRelative | crates/reactor-core/src/recording.rs:305-312 | The path of a relative segment is it without its query. |
| ClipPlaylist.ParsePlaylist | crates/reactor-core/src/recording.rs:253-302 | The loop yields the last init segment and then the fragments in file order, or the error for no segments or for fragments that need an init segment. |
| ClipPlaylist.ClipSegmentRequests | crates/reactor-core/src/recording.rs:135-157 | One request per segment of the parsed playlist, in order; with a clean playlist URL each goes to the origin its segment names, else the playlist's, with the token exactly when that is the playlist's. |
| ClipUrls.ServesTarget | crates/reactor-core/src/recording.rs:135-157 | Each such request goes to what its segment names, path and all. |
| ClipPlaylist.SegmentRequests | crates/reactor-core/src/recording.rs:137-157 | The same for the loop over the segments. |
| ClipPlaylist.SegmentRequest | crates/reactor-core/src/recording.rs:139-155 | The same for one segment. |
| ClipPlaylist.ReadsBack | crates/reactor-core/src/recording.rs:253-302 | Every playlist written as entries with any white space, blank lines and comments is read as it was written. |
| ClipPlaylist.PlaylistOutcome | crates/reactor-core/src/recording.rs:275-302 | A written playlist is an error exactly when it names no fragment, or no init segment and a fragment that needs one; else its last init segment, if any, and then its fragments in file order. |
| ClipPlaylist.SuffixDecides | crates/reactor-core/src/recording.rs:283-297 | Whether a fragment needs an init segment is decided by the end of its path, whatever its host and query. |
| ClipPlaylist.MapReadsBack | crates/reactor-core/src/recording.rs:262-271 | The quoted URI of a map tag is recovered from between its attributes. |
| PlaylistWait.FetchPlaylist | crates/reactor-core/src/recording.rs:160-236 | Sleeps and outcome for any script of answers. With a timeout the sleeps never add up to more than it plus what is left of the prediction (nothing for one that is past or no number), capped at the longest duration; the wait fails for want of budget exactly when they add up to all of it and the next poll is a live 202. |
| PlaylistWait.PollUntil | crates/reactor-core/src/recording.rs:182-236 | Sleeps and outcome of the loop, on the budget it starts with. |
| PlaylistWait.BudgetIsGrace | crates/reactor-core/src/recording.rs:166-181 | The budget is the timeout plus what is left of the prediction, capped. |
| PlaylistWait.LiveServerSpendsAll | crates/reactor-core/src/recording.rs:166-236 | A server that never gets ready is slept on for exactly that long. |
| PlaylistWait.EndsAsAnswered | crates/reactor-core/src/recording.rs:195-213 | The wait ends ready exactly on a 2xx that is not a 202, refused exactly on another status, failed exactly without an answer, and for a dead session exactly on a 202 that finds it dead. |
| PlaylistWait.RetryDelayIs | crates/reactor-core/src/recording.rs:243-250 | The header's seconds between 200 ms and 2 s; the longest wait for one that is absent, negative or no number. |
| PlaylistWait.RetryDelay | crates/reactor-core/src/recording.rs:243-250 | Whatever the header says, or nothing: a wait between 200 ms and 2 s. |
| PlaylistWait.SleepsWithinBudget | crates/reactor-core/src/recording.rs:166-231 | Sleep never adds up to more than the budget; the budget arm fails exactly when it adds up to all of it and the next poll is a live 202. |
| PlaylistWait.SleepsAsAsked | crates/reactor-core/src/recording.rs:214-250 | Every sleep follows a live 202; every sleep but the last is what `Retry-After` asked for, within 200 ms and 2 s, and without a timeout so is the last. |
| PlaylistWait.PollsBounded | crates/reactor-core/src/recording.rs:166-231 | There are at most `ceil(budget / 200 ms)` sleeps, so one poll more, and a longer script is never used up. |
| PlaylistWait.UnboundedWaits | crates/reactor-core/src/recording.rs:215-217 | Without a timeout the wait lasts exactly as long as live 202s do. |
| PlaylistWait.DeadSessionEndsWait | crates/reactor-core/src/recording.rs:205-213 | A poll that finds the session dead is the last, with no sleep after it. |

## Left out

- HTTP, authentication, signaling and coordinator calls: each call is an arbitrary answer, a success or an error.
- libwebrtc, and the mapping of its reports to the core's types in `crates/reactor-ffi/src/peer.rs`: the engine is a source of arbitrary readings and events.
- `crates/reactor-core/src/control.rs`: the correlation protocol again, without arrivals.
- Stepped input buffering and frame decoding (`StepInputs`, `FrameDecoders`): not part of this model.
- Protobuf and JSON encoding: a message is an id and a payload.
- Error codes and texts, retry backoff, device description, event fan-out, the check of the generation mode, and the order stages are sorted into for display.
- Rounding of `f64` and nanosecond granularity of `Duration`: times are exact reals; `TrackStats` rounds a bitrate as the code does.
- Overflow of `Duration::from_secs_f64` on a huge finite `Retry-After`: the value is taken to be representable.
- Wrap-around of the 64-bit request counter and of the generation counters: they are naturals here.
- Lock poisoning, thread scheduling and the fairness of condition variables: a step happens or does not.
- The descriptive scalars of a stats snapshot (jitter, loss, frame rate, round-trip time, candidate types): read off one report, with no state between samples.
- That a guard is dropped on the thread that entered: assumed, as the code relies on it.
- HostThreads.ItemsConserved: for a capacity of at least one; a `DropOldest` queue of capacity zero takes one item and counts a drop that dropped nothing, which `Queue.Push` covers.
- A connect or reconnect future dropped half-way: calls run to their end in `Session`.
- Sending two DELETEs from two concurrent disconnects, and a ready status after the transport went: the code allows both, so nothing is claimed against them.
- A cause recorded after the check that it should be reported: these are two lock acquisitions, so it can land on a later attempt; `Session` models them apart and claims only that some cause was recorded since the reset.
- `run_ice_flush` spawned twice: the loop takes its receiver once; one loop is modelled.
- The nested map of totals per track: flattened to one map keyed by track and stage.
- IceTrickle.WakesAreNotLost: holds on runs that take up no session while ready without one; `StrandsExactlyWhen` gives the exact states from which a wake can be lost.
- HostThreads.Queue.TryPop: one turn of `pop`'s loop; blocking on the condition variable is the answer `WouldBlock`.
- Gates.CallbackGate.RetireWithTimeout: the waits and what other threads do in them are a script; the interleavings inside are in the step model.
- DataCorrelation.DataCorrelator.FailAll: rejects in one call; sending after the lock is released is in the step model.
- TrackStats.ClientStatsReporter.TrackStats: readings carry track, bitrate and stages; their other metrics, copied from the report, are left out.
- TrackStats.ClientStatsReporter.Direction: the same.
- DataCorrelation.ErrorReachesOne: only error events are followed; a reply's broadcast as a message event is not.
- DataCorrelation.DataCorrelator.HandleMessage: a payload that does not decode is dropped before this point.
- ClientStatsLoop.Reporter.constructor: reads the two stores' generations at one instant; a connection begun between the two reads, which the reporter would see as refused by one store, is left out.
- ClipPlaylist.ClipSegmentRequests: starts from the playlist's text; the fetch before it is `PlaylistWait.FetchPlaylist`.
- PcmBlocks.AudioInput.Push: the delivered blocks are returned in order instead of handed to a callback one by one.
