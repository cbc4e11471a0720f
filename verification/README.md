# cubeb, the real-time kernel: a verified model

cubeb is mostly a layer over operating-system audio APIs, but it carries a real-time kernel of its
own: lock-free hand-overs between the audio thread, the user's threads and helper threads, the
queueing front end of the resampler, and a fixed-point channel mixer. This project models that
kernel in Dafny and proves what it is relied on for.

## Modules

| module | source | content |
|---|---|---|
| StreamStates, Wakeup | src/cubeb_aaudio.cpp:517-550, 711-827 | state thread, backup notifier and any number of lock-free producers |
| StreamControl | src/cubeb_aaudio.cpp:474-709, 950-1246, 1303-1384, 1694-1960 | the state word of one stream under user calls and its destroy, state thread, reinitialisation and audio callbacks |
| SlotLifecycle | src/cubeb_aaudio.cpp:1152-1227, 1303-1320, 1596-1685 | claiming, destroying and reinitialising a stream slot |
| PositionEstimates | src/cubeb_aaudio.cpp:185-324 | class `position_estimate` |
| RingIndex, RingBuffers, RingProtocol | src/cubeb_ringbuffer.h:61-178, 231-301, 338-452 | the ring buffer: index arithmetic, the object, and two threads on it |
| TripleBuffers, TripleProtocol | src/cubeb_triple_buffer.h:21-87 | the triple buffer: the object, and two threads on it |
| Logger | src/cubeb_log.cpp:70-138 | queue ownership in the asynchronous logger |
| AutoArrays, Copying | src/cubeb_utils.h:31-121, 123-268 | `auto_array` and the copying helpers |
| QueueSpec, Resamplers, SpeexResamplers, CaptureRun | src/cubeb_resampler.cpp:38-210, 258-363; src/cubeb_resampler_internal.h:73-138, 184-200, 232-405 | pass-through and output-resampling fills |
| ChannelLayouts, MixCoefficients, MixMatrix | src/cubeb_mixer.cpp:27-155, 181-361 | layouts and the mixing matrix |
| FixedPoint, Quantisation, Rematrix, CopyAndTrunc, Mixers, MixerBounds | src/cubeb_mixer.cpp:64-76, 93-106, 363-590 | 17.15 fixed point, applying the matrix, `mix` |

The concurrent parts (Wakeup, StreamControl, SlotLifecycle, RingProtocol, TripleProtocol, Logger)
are state machines whose steps are single atomic accesses, lock operations or element copies of the
threads' programs; theorems about them are about every interleaving of any length. The other parts
are classes and methods with the fields, loops and branches of the source, proved against
specification functions about which the lemmas then speak.

## Assumptions

- Atomic accesses are sequentially consistent; acquire and release orders are taken as that.
- A condition variable may wake a sleeper at any time, and `notify_one` wakes one sleeper if there
  is one, of the implementation's choice.
- AAudio fires callbacks only on an open stream, closing waits for them, and the states it reports
  are arbitrary.
- Speex consumes a prefix of the frames it is given and produces no more than was asked for.
- Mixing coefficients are reals (the single-precision levels by their exact values), and the
  resampling ratio is the exact quotient of the rates.
- Counters and indices do not exceed their C++ types; where 32 or 16 bits decide something (mixing
  sums, samples, layouts, the shared byte of the triple buffer) the width is modelled.

## Where code and expectation part

- Wake-ups: the notifier goes to sleep once before it ever looks at `waiting`
  (src/cubeb_aaudio.cpp:724-726). `Wakeup.StartUpCanLose` is a run that loses a wake-up there;
  `Wakeup.LostWakeUpIff` shows that this race is the only way to lose one.
- Logger: `stop` succeeds with its compare-exchange when the pointer is null
  (src/cubeb_log.cpp:133), that is while a push holds the queue, and then frees nothing.
  `Logger.StopFreesIff` gives the exact condition, `Logger.StopCanLeak` a run that leaves a queue
  behind.
- A later `start` can lead to one more leak exactly if a queue that has not leaked is alive:
  `Logger.StartCanLeakIff`.
- The assertion at src/cubeb_aaudio.cpp:1325-1330 loads the atomic state once a comparison, and both
  a reinitialisation and a user's destroy reach it while callbacks still run:
  `StreamControl.DrainDuringReinit` and `StreamControl.DrainDuringUserDestroy` are runs in which it
  fails, `StreamControl.DestroyAssertionFailsIff` says exactly when.
- A user has to stop a stream before destroying it (include/cubeb/cubeb.h:609-610). A stop on a
  draining stream changes nothing, and a reinitialisation starts such a stream again, so the destroy
  can find it playing: `StreamControl.StopIsUndone`.
- A reinitialisation takes a stream in ERROR to STOPPED without an error callback, so an error not
  reported yet is forgotten: `StreamControl.ReinitRestores`.
- A data callback stores DRAINING without looking (src/cubeb_aaudio.cpp:1036), so it can replace
  ERROR; `StreamControl.ErrorLeavesBy` lists this with the only other ways out of ERROR.
- Starting a stream that has drained reaches `position_estimate::start` while the estimate is still
  timing, against its assertion (src/cubeb_aaudio.cpp:230): `StreamControl.DrainedRestart` is the
  run, `StreamControl.TimingAssertions` shows exactly when it happens.
- The comment at src/cubeb_aaudio.cpp:211 has a transition from Resume to Resume on starting, which
  the assertion in `start` excludes; the model follows the code.
- The position estimate counts paused time as played when no poll happened between the last callback
  and the stop: `PositionEstimates.UnpolledResumeIff`.
- In the pass-through resampler silence shown to the callback stays queued
  (src/cubeb_resampler.cpp:91-93); in the `input_queue` path it is removed
  (src/cubeb_resampler.cpp:346). The flag `padStays` of QueueSpec is this difference.
- The mixer checks channel counts against the layout as given, before an undefined layout is read as
  mono or stereo (src/cubeb_mixer.cpp:93-104), so such a layout never makes a valid context:
  `Mixers.UndefinedIsNeverMixable`.
- Without input channels the size checks of `mix` pass on any output (src/cubeb_mixer.cpp:530-540):
  `Mixers.SizeChecksAreExact`; the model ends such a call in an outcome of its own.
- Clip detection rounds with a carried error, the matrix itself without
  (src/cubeb_mixer.cpp:378-383 against 395), and the carry is added twice. Detection can miss:
  `MixerBounds.FullScaleWrapsToNegative` is a whole run in which full-scale left, right and center
  come out of a mono mix as -32768. `MixerBounds.StoresClampedIff` says for which contexts this
  cannot happen.

## Model

| member | source | states |
|---|---|---|
| StreamStates.WaitingIsUnsettled | src/cubeb_aaudio.cpp:517-541 | waiting_state holds in exactly those states that update_state does not return from at once (what the state thread makes of that: SleepsTimedIff, WorksIff, MotionIsServed) |
| Wakeup.LostOnlyAtFirstPark | src/cubeb_aaudio.cpp:724-726 | from any good state a step leads to "both threads asleep, waiting set, nobody about to notify" if and only if it is the notifier's very first wait racing with an announcement |
| Wakeup.LostWakeUpIff | src/cubeb_aaudio.cpp:711-786 | over every run a wake-up is ever lost if and only if that race ever happens |
| Wakeup.NoLostWakeUp | src/cubeb_aaudio.cpp:711-786 | once the notifier is past its first wait and no wake-up is lost yet, no run with any number of producers loses one |
| Wakeup.StartUpCanLose | src/cubeb_aaudio.cpp:724-726 | a concrete run from the start into a lost wake-up |
| Wakeup.BackupReachesStateThread | src/cubeb_aaudio.cpp:726-736 | with the state thread asleep the notifier's notification reaches it and no other thread |
| Wakeup.AnnouncedIsNeverDropped | src/cubeb_aaudio.cpp:533-550 | in every reachable state an announced change not read yet is flagged by waiting or still ahead of the scan, including the failed try-lock and a set between the flag's load and its clear |
| Wakeup.OnlyReadsClear | src/cubeb_aaudio.cpp:533-560 | an announcement ends only by a read of that stream's state in update_state: the first read if nothing is to do, else the one under the lock |
| Wakeup.AnnouncedIsNotSleptOn | src/cubeb_aaudio.cpp:740-786 | the state thread never sleeps untimed on an announced change without somebody about to wake it |
| Wakeup.MoveBringsNearer | src/cubeb_aaudio.cpp:740-786 | while the state thread is up, each of its moves that does not attend to an announced stream (reads its announced state, finds it locked, goes to sleep, or sees join) uses up rank |
| Wakeup.AnnouncedIsAttendedTo | src/cubeb_aaudio.cpp:740-786 | so in any run it attends to an announced stream within ReadRank, at most 20 * MAX_STREAMS + 20, of its own moves |
| Wakeup.SleepsTimedIff | src/cubeb_aaudio.cpp:747-781 | in every reachable state the thread is asleep, or about to be, without a timeout only if its last scan found no stream DRAINING, STARTING, STOPPING or ERROR, with a timeout only if it found one; a scan leads to the timed sleep exactly if it found one and nothing was announced meanwhile |
| Wakeup.WorksIff | src/cubeb_aaudio.cpp:533-560 | update_state goes to work on a stream exactly if both its reads find it in one of those states and the lock is free |
| Wakeup.ServiceComesNearer | src/cubeb_aaudio.cpp:740-786 | each move of the thread, and each wake-up or timeout, brings a stream found in motion nearer to the next update_state that works on it, finds it settled, or finds it locked |
| Wakeup.MotionIsServed | src/cubeb_aaudio.cpp:740-786 | in any run a stream found in motion is so served, or join seen, within ReadRank of the thread's own moves; until then the thread never sleeps without a timeout |
| Wakeup.SettledFallsAsleep | src/cubeb_aaudio.cpp:747-781 | with no stream in motion and nobody storing or announcing, the thread is asleep without a timeout after one scan, at most 2 * MAX_STREAMS + 5 moves |
| Wakeup.JoinNeverStuck | src/cubeb_aaudio.cpp:815-825 | after the join broadcast, until both threads have left, one of them can move |
| Wakeup.JoinRank | src/cubeb_aaudio.cpp:815-825 | after it every move of the two threads uses up rank, and no other step adds any |
| Wakeup.JoinReachesBoth | src/cubeb_aaudio.cpp:803-827 | in any run after it the two threads make at most Rank more moves, and a run that cannot go on has both of them done |
| StreamControl.CompareExchangeDiscipline | src/cubeb_aaudio.cpp:561-565 | no compare-exchange of start, stop or update_state replaces ERROR, and one that fails has met ERROR or DRAINING |
| StreamControl.AssertionsHold | src/cubeb_aaudio.cpp:1802-1809 | under the mutex the assert(false) branches of start, stop and update_state are never reached, and opening the streams finds the state INIT, in any interleaving |
| StreamControl.DestroyAssertionFailsIff | src/cubeb_aaudio.cpp:1303-1330 | in every run, for the destroys of a reinitialisation and of the user, destroy's assertion fails exactly if the fourth load finds ERROR, SHUTDOWN or a playing stream, the fifth DRAINING, SHUTDOWN or a playing stream, and after SHUTDOWN the sixth ERROR or DRAINING; a reinitialisation never finds the stream playing, and with no load playing or SHUTDOWN it fails exactly if the fourth finds ERROR and the fifth DRAINING |
| StreamControl.OnlyCallbacksStoreMeanwhile | src/cubeb_aaudio.cpp:1325-1330 | between two of those loads only a callback stores, and DRAINING is stored by a data callback alone |
| StreamControl.DrainDuringDestroy | src/cubeb_aaudio.cpp:1325-1330 | every run to the assertion on a stream in ERROR with a data callback in flight, whoever destroys, goes on to a state where the loads were four times ERROR and then DRAINING, and the assertion has failed |
| StreamControl.DrainDuringReinit | src/cubeb_aaudio.cpp:1173-1197 | a whole run in which that happens to a reinitialisation |
| StreamControl.DrainDuringUserDestroy | src/cubeb_aaudio.cpp:1303-1309 | a whole run in which it happens to the destroy of a user who has called stop before |
| StreamControl.ErrorDuringDestroy | src/cubeb_aaudio.cpp:1325-1330 | a run in which it fails on a stream that is shut down: five loads find SHUTDOWN, the sixth the ERROR of an error callback |
| StreamControl.StopIsUndone | src/cubeb_aaudio.cpp:1180-1226 | a run that ends with a finished stop of the user, and one from there, without a start of the user, to a stream that is STARTING |
| StreamControl.DrainingMutesDataCallbacks | src/cubeb_aaudio.cpp:966-972 | while a stream is draining no data callback is past its check, so none stores |
| StreamControl.RestartOutcome | src/cubeb_aaudio.cpp:1213-1225 | the restart at the end of a reinitialisation ends with the stream starting or draining, and goes on to destroy exactly if it is in ERROR, whatever callbacks do |
| StreamControl.StartStarts | src/cubeb_aaudio.cpp:1695-1824 | an undisturbed start takes STOPPED, STOPPING and DRAINING to STARTING, to ERROR if AAudio refuses, and leaves all other states |
| StreamControl.StopStops | src/cubeb_aaudio.cpp:1835-1960 | an undisturbed stop takes STARTING and STARTED to STOPPING, to ERROR if AAudio refuses, and leaves all other states |
| StreamControl.ReinitRestores | src/cubeb_aaudio.cpp:1173-1226 | an undisturbed reinitialisation leaves the stream open, STARTING if it was playing or draining, STOPPED from all other states, ERROR included |
| StreamControl.FailedReinit | src/cubeb_aaudio.cpp:1202-1211 | one that fails to open leaves it closed and in ERROR |
| StreamControl.ErrorLeavesBy | src/cubeb_aaudio.cpp:1033-1038 | ERROR is left only by a callback's store of DRAINING, by the SHUTDOWN that follows the error callback, or inside a reinitialisation |
| StreamControl.AtMostOneCallbackPerEntry | src/cubeb_aaudio.cpp:618-709 | each entry into STARTING, STOPPING or DRAINING is answered by at most one matching state callback, fired only while the entry is unanswered (that there is one: NoneLeavesUnreported, UpdateAnswers) |
| StreamControl.NoneLeavesUnreported | src/cubeb_aaudio.cpp:618-709 | in every reachable state, for each state, the moves of update_state out of it, and one more if it is about to make one, are no more than the callbacks fired for it, and those no more than the entries; error callbacks are as many as stores of SHUTDOWN, and one more right before such a store |
| StreamControl.UpdateChanges | src/cubeb_aaudio.cpp:618-709 | all update_state does to the state is STARTING to STARTED, and STOPPING or DRAINING to STOPPED, each counted and already answered (a DRAINING stored again meanwhile shares the answer), and the store of SHUTDOWN |
| StreamControl.UpdateAnswers | src/cubeb_aaudio.cpp:618-709 | from every reachable state an undisturbed update_state of a stream AAudio has brought where it was going fires the callback once and moves on |
| StreamControl.UpdateShutsDown | src/cubeb_aaudio.cpp:474-513 | and of a stream in ERROR whose AAudio streams are at rest it fires the error callback and stores SHUTDOWN |
| StreamControl.MetErrorShutsDown | src/cubeb_aaudio.cpp:566-574 | an update_state whose compare-exchange meets ERROR shuts the stream down in the same call |
| StreamControl.OnlyEntriesArm | src/cubeb_aaudio.cpp:1780-1824 | an answered state is armed again only by a new entry into it |
| StreamControl.TimingAssertions | src/cubeb_aaudio.cpp:217-237 | stop's assertion on the position estimate always holds; start's fails exactly if a data callback has stored DRAINING since the last successful start and no successful stop or destroy came after that start |
| StreamControl.DrainedRestart | src/cubeb_aaudio.cpp:228-230 | a run in which start's assertion fails after a drain |
| SlotLifecycle.OneReinit | src/cubeb_aaudio.cpp:1160-1171 | at most one reinit thread exists per slot, and it belongs to the current generation; pending_reinit is 1 while it exists |
| SlotLifecycle.PendingIffUnderWay | src/cubeb_aaudio.cpp:1160-1171 | in every reachable state pending_reinit is 1 if a reinit thread exists or a callback that has won is about to create one, else 0 |
| SlotLifecycle.CallbackGetsReinit | src/cubeb_aaudio.cpp:1160-1173 | a callback that asks for a reinitialisation gets a thread exactly if none is under way |
| SlotLifecycle.ReinitReopens | src/cubeb_aaudio.cpp:1166-1226 | an undisturbed reinit thread that finds the slot in use closes the streams, opens them again, and is gone; nothing else changes |
| SlotLifecycle.BodyStaysInGeneration | src/cubeb_aaudio.cpp:1173-1226 | past its slot_state check a reinit thread works under the mutex on an IN_USE slot of the generation that spawned it |
| SlotLifecycle.FreedWhenQuiet | src/cubeb_aaudio.cpp:1303-1320 | FREE is stored only with no reinit thread, none being created, no callback and no open stream |
| SlotLifecycle.ClaimsAreExclusive | src/cubeb_aaudio.cpp:1609-1641 | a slot is claimed by one thread at a time, and only while it is free and belongs to nobody |
| SlotLifecycle.LoneSeekerClaims | src/cubeb_aaudio.cpp:1609-1641 | from every reachable state with the slot free and unlocked a thread that meets no other claims it |
| SlotLifecycle.WholeLife | src/cubeb_aaudio.cpp:1596-1685 | a run from claim to open stream to destroy, after which the slot is as before but for its generation |
| SlotLifecycle.FailedOpeningFrees | src/cubeb_aaudio.cpp:1672-1681 | if opening fails the slot is not handed out but destroyed and free again |
| SlotLifecycle.ReleasingUsesRank | src/cubeb_aaudio.cpp:1309-1319 | once DESTROYING is stored every step of any thread that changes anything uses up rank |
| SlotLifecycle.DestroyReachesFree | src/cubeb_aaudio.cpp:1309-1319 | so in any run a destroy that has not stored FREE yet has seen at most Rank steps other than polls that read 1, and another such step is enabled: it is never stuck |
| PositionEstimates.PositionEstimate.Stop | src/cubeb_aaudio.cpp:216-225 | freezes the recorded time: for every callback time, at every later moment it is what it was at the stop |
| PositionEstimates.PositionEstimate.Start | src/cubeb_aaudio.cpp:227-237 | lets the recorded time run on: at every later moment it is what it was at the start plus the time since |
| PositionEstimates.PositionEstimate.ElapsedTimeSinceCallback | src/cubeb_aaudio.cpp:239-266 | returns exactly the recorded time; a callback not seen before is detected and makes a stream that runs plain playing, any other poll leaves the recorded time alone |
| PositionEstimates.PositionEstimate.Reinit | src/cubeb_aaudio.cpp:268-275 | back to None with the new initial position |
| PositionEstimates.RecordsPlayedTime | src/cubeb_aaudio.cpp:185-213 | over any legal stops, starts and polls the recorded time grows by exactly the time played, and no 64-bit subtraction wraps |
| PositionEstimates.PlayedAndPaused | src/cubeb_aaudio.cpp:185-213 | played and paused intervals together make up the whole time |
| PositionEstimates.ElapsedIsPlayedTime | src/cubeb_aaudio.cpp:214-266 | with one poll before the first stop, the elapsed time is the time actually played since the callback, and the recorded pause the sum of all pauses |
| PositionEstimates.UnpolledResumeIff | src/cubeb_aaudio.cpp:248-257 | without that poll the first poll after a resume is right if and only if nothing was paused |
| RingIndex.AvailableRead | src/cubeb_ringbuffer.h:267-274 | less than the storage, and zero exactly for equal indices |
| RingIndex.AvailableWrite | src/cubeb_ringbuffer.h:280-289 | with what is readable it makes up the capacity |
| RingIndex.FullIsExact | src/cubeb_ringbuffer.h:251-254 | the full test holds if and only if nothing can be written |
| RingIndex.CopySlot | src/cubeb_ringbuffer.h:122-129 | the two-part copy puts element k exactly k places past the start, around the end |
| RingIndex.WindowEnqueue | src/cubeb_ringbuffer.h:135-138 | moving the write index over n slots appends what they hold to the readable sequence |
| RingIndex.WindowDequeue | src/cubeb_ringbuffer.h:174-177 | moving the read index past n elements removes the n oldest |
| RingIndex.SlotsDisjoint | src/cubeb_ringbuffer.h:280-289 | a writable slot is never a readable one |
| RingIndex.WindowFrame | src/cubeb_ringbuffer.h:127-129 | writing a writable slot leaves the readable sequence alone |
| RingIndex.PlaceIsBehind | src/cubeb_ringbuffer.h:122-138 | elements copied in two parts at the write index come, in order, behind the readable ones |
| RingIndex.TakeIsFront | src/cubeb_ringbuffer.h:166-172 | elements copied out in two parts are the oldest, in order |
| RingBuffers.RingBuffer.constructor | src/cubeb_ringbuffer.h:61-75 | an empty ring of the given capacity |
| RingBuffers.RingBuffer.Enqueue | src/cubeb_ringbuffer.h:107-139 | accepts as many elements as there is room for and appends exactly those, or as many blanks |
| RingBuffers.RingBuffer.Dequeue | src/cubeb_ringbuffer.h:151-178 | removes and delivers, or discards, as many of the oldest elements as there are |
| RingBuffers.RingBuffer.PutIn | src/cubeb_ringbuffer.h:122-129 | the two copies of enqueue together place the elements around the end of the storage |
| RingBuffers.RingBuffer.TakeOut | src/cubeb_ringbuffer.h:166-172 | the two copies of dequeue together deliver the elements in order |
| RingBuffers.AudioRingBuffer.constructor | src/cubeb_ringbuffer.h:346-351 | an empty ring whose capacity in frames is exact |
| RingBuffers.AudioRingBuffer.Enqueue | src/cubeb_ringbuffer.h:360-381 | appends whole frames and reports exactly that count; the frames held afterwards are the smaller of the capacity and those held plus those offered |
| RingBuffers.AudioRingBuffer.Dequeue | src/cubeb_ringbuffer.h:395-399 | delivers the smaller of wanted and held frames, whole, and reports exactly that count |
| RingBuffers.WholeMin | src/cubeb_ringbuffer.h:439-447 | for whole-frame sample counts the smaller count converts to the smaller number of frames and back without loss |
| RingProtocol.LinearisesToFifo | src/cubeb_ringbuffer.h:107-178 | in every state of every interleaving the accepted elements are those dequeued followed by those readable, in order, and at most capacity are in flight |
| RingProtocol.CopiesAreDisjoint | src/cubeb_ringbuffer.h:113-133 | a stale opposite index only under-estimates, and the slots the two sides are copying never coincide |
| RingProtocol.EnqueueTakesWhatFits | src/cubeb_ringbuffer.h:107-139 | in every interleaving an enqueue accepts exactly the smaller of what it is offered and what was free when it loaded the read index, and ends after one move more than that |
| RingProtocol.DequeueTakesWhatIsThere | src/cubeb_ringbuffer.h:151-178 | a dequeue removes exactly the oldest elements readable when it loaded the write index, as many as wanted, and ends likewise |
| RingProtocol.FramesStayWhole | src/cubeb_ringbuffer.h:338-452 | from a new ring for whole frames, no interleaving of whole-frame calls splits a frame: free, used, accepted and removed sample counts are multiples of the channel count at every state |
| TripleBuffers.PackingIsExact | src/cubeb_triple_buffer.h:77-82 | index and dirty bit are recovered from the shared byte |
| TripleBuffers.TripleBuffer.constructor | src/cubeb_triple_buffer.h:76-86 | nothing fresh, the initial value current, the three indices a permutation |
| TripleBuffers.TripleBuffer.Invalidate | src/cubeb_triple_buffer.h:45-51 | nothing fresh, the indices a permutation again |
| TripleBuffers.TripleBuffer.Write | src/cubeb_triple_buffer.h:26-30 | the value becomes the fresh one; true exactly if one not taken was overwritten |
| TripleBuffers.TripleBuffer.Publish | src/cubeb_triple_buffer.h:56-62 | the input slot becomes the fresh one, the consumer's slot untouched |
| TripleBuffers.TripleBuffer.Read | src/cubeb_triple_buffer.h:33-37 | the fresh value if there is one, else the current value again |
| TripleBuffers.TripleBuffer.Update | src/cubeb_triple_buffer.h:64-73 | true exactly if a fresh value was taken over |
| TripleProtocol.SlotsNeverShared | src/cubeb_triple_buffer.h:26-73 | in every reachable interleaved state input, output and back index are a permutation of the three slots |
| TripleProtocol.ReadsAreNotTorn | src/cubeb_triple_buffer.h:33-37 | a value read word by word is one whole publication: the newest taken, or the initial value |
| TripleProtocol.TakesTheNewest | src/cubeb_triple_buffer.h:64-73 | each exchange of the consumer takes the publication that is newest at that moment |
| TripleProtocol.TakenAndOverwritten | src/cubeb_triple_buffer.h:54-62 | publication numbers of updating reads strictly increase, and write returns true exactly when the previous publication was never taken |
| TripleProtocol.ReadSeesTheUntaken | src/cubeb_triple_buffer.h:64-73 | a read goes for the exchange exactly if there is a publication not taken yet |
| TripleProtocol.ReadIsUpToDate | src/cubeb_triple_buffer.h:33-37 | in every interleaving a read hands out nothing older than what was newest when it was called, and ends after width + 2 moves |
| TripleProtocol.WritePublishes | src/cubeb_triple_buffer.h:26-30 | a write publishes its value once, and ends after width + 2 moves |
| Logger.OneProducerPerQueue | src/cubeb_log.cpp:70-83 | a held queue is live, out of msg_queue's reach, and held by one pusher only |
| Logger.ConsumerQueueIsLive | src/cubeb_log.cpp:89-93 | the consumer thread only ever dequeues from a live queue, the one start gave it |
| Logger.DeleteIsSafe | src/cubeb_log.cpp:122-136 | a queue is deleted only when no pusher holds it, none can take it, and the consumer thread is joined |
| Logger.ThreadRunsUntilStop | src/cubeb_log.cpp:108-122 | from start to the next stop the consumer thread is not told to end, and it ends only when stop waits for it |
| Logger.ConsumerPointerIsSound | src/cubeb_log.cpp:108-137 | the consumer pointer is null or names a live queue but between stop's delete and its store of null, and is null between the calls with no thread |
| Logger.StopGetsTheThread | src/cubeb_log.cpp:122-125 | once stop waits the thread ends after at most ThreadRank moves and two for each message taken; until then it can move, then stop can |
| Logger.ThreadKeepsPolling | src/cubeb_log.cpp:84-98 | without a stop the thread dequeues from its queue again within four of its own moves |
| Logger.EmptiesBeforeEnd | src/cubeb_log.cpp:89-95 | between any dequeue and the end of the thread one has found nothing left |
| Logger.LonePushGivesBack | src/cubeb_log.cpp:70-83 | a push that meets no other takes msg_queue's queue and leaves everything as it was |
| Logger.StopFinishes | src/cubeb_log.cpp:126-136 | an undisturbed stop, whatever value its loop holds, frees msg_queue's queue and leaves both pointers null |
| Logger.StopFreesIff | src/cubeb_log.cpp:126-135 | in every run the successful compare-exchange of stop gets null, and frees nothing, if and only if every live queue is held by a push under way or leaked before; else it gets a live queue nobody holds |
| Logger.StopDuringPush | src/cubeb_log.cpp:70-138 | a run in which stop succeeds on null while a push is under way |
| Logger.LostIsOutOfReach | src/cubeb_log.cpp:70-138 | a queue whose last pointer was overwritten is still allocated, and neither msg_queue nor a pusher nor a stop about to delete has it |
| Logger.LeaksAreTheOthers | src/cubeb_log.cpp:108-138 | with no push under way, the leaked queues are exactly the live ones other than msg_queue's |
| Logger.CleanStartsNeverLeak | src/cubeb_log.cpp:108-138 | if every start finds no queue alive but leaked ones nothing ever leaks, and at most one queue lives at a time |
| Logger.UncleanStartCanLeak | src/cubeb_log.cpp:108-138 | from every reachable state in which start can be called while a queue that has not leaked lives, a run that begins with that start and has no other leaks one more queue |
| Logger.CleanStartNeverLeaks | src/cubeb_log.cpp:108-138 | from every reachable state in which all live queues have leaked, no run with one start, at its beginning, leaks another |
| Logger.StartCanLeakIff | src/cubeb_log.cpp:108-138 | so in every reachable state some run with that start alone leaks one more queue if and only if a queue that has not leaked is alive |
| Logger.StopCanLeak | src/cubeb_log.cpp:108-138 | a run after which a queue is still allocated that msg_queue, the consumer pointer, start, stop and every pusher do not name |
| Copying.Copy | src/cubeb_utils.h:31-90 | the destination with exactly the copied stretch replaced |
| Copying.Fill | src/cubeb_utils.h:51-121 | the destination with exactly the filled stretch replaced |
| Copying.MoveDown | src/cubeb_utils.h:41-49 | an overlapping move to the front keeps the moved elements and the rest |
| AutoArrays.AutoArray.constructor | src/cubeb_utils.h:125-129 | empty, with the capacity asked for |
| AutoArrays.AutoArray.Reserve | src/cubeb_utils.h:167-179 | contents kept, capacity the larger of old and new |
| AutoArrays.AutoArray.Push | src/cubeb_utils.h:186-195 | appends exactly the given elements |
| AutoArrays.AutoArray.PushSilence | src/cubeb_utils.h:201-210 | appends exactly that much silence |
| AutoArrays.AutoArray.Pop | src/cubeb_utils.h:237-253 | removes and delivers the oldest elements in order, or fails and changes nothing when there are too few |
| AutoArrays.AutoArray.SetLength | src/cubeb_utils.h:255-259 | the contents become the first elements of the storage |
| QueueSpec.LeftOfPadded | src/cubeb_resampler.cpp:316-346 | padding up to the need and then removing the need leaves what was beyond it, and no padding |
| QueueSpec.FillAccounts | src/cubeb_resampler.cpp:70-123 | one fill keeps the account: every captured sample has left once, in capture order, or is queued in that order |
| QueueSpec.DemandShows | src/cubeb_resampler_internal.h:99-107 | with as many frames supplied as the need is short of the queue no silence is shown, with one fewer exactly one frame of it, at the end |
| QueueSpec.CapturedExactlyOnce | src/cubeb_resampler.cpp:303-353 | so does any run of fills |
| QueueSpec.FillPresents | src/cubeb_resampler.cpp:316-324 | what a fill presents is exactly what it adds to the samples shown |
| QueueSpec.DropsOldestBeyondKeep | src/cubeb_resampler_internal.h:119-128 | samples are dropped only as the oldest queued ones and only beyond what is kept |
| Resamplers.PassthroughResampler.constructor | src/cubeb_resampler.cpp:44-53 | an empty queue for the given rate and channels |
| Resamplers.PassthroughResampler.Fill | src/cubeb_resampler.cpp:55-123 | all branches: the callback is shown exactly the first n frames of queue, input and silence; of the rest the newest stay queued, 20 times their count at most rate times channels, and one frame more would be over if any is dropped; consumed equals supplied |
| Resamplers.PassthroughResampler.Stage | src/cubeb_resampler.cpp:76-109 | direct forward, forward plus stash, and append and pad meet one specification |
| Resamplers.PassthroughResampler.AppendAndPad | src/cubeb_resampler.cpp:85-97 | the queue becomes queue, input and padding; what is to be popped excludes the padding |
| Resamplers.PassthroughResampler.DropAudioIfNeeded | src/cubeb_resampler_internal.h:119-128 | exactly the newest frames stay that last at most a twentieth of a second |
| Resamplers.PassthroughResampler.DemandQueryIsExact | src/cubeb_resampler_internal.h:99-107 | with the frames asked for the next duplex fill shows the first n frames of queue and input and no silence; with one fewer it ends in exactly one silent frame (Fill says the same of its result) |
| Resamplers.DropOld | src/cubeb_resampler.cpp:347-352 | the newest frames up to the limit stay, whole |
| Resamplers.KeptIsLastTwentieth | src/cubeb_resampler.cpp:38-42 | keeping the newest min_buffered_audio_frame frames keeps what lasts at most a twentieth of a second, and no less than fits if anything is dropped |
| SpeexResamplers.SpeexOneWay.constructor | src/cubeb_resampler_internal.h:244-250 | nothing pending, nothing written or removed |
| SpeexResamplers.SpeexOneWay.InputNeededForOutput | src/cubeb_resampler_internal.h:355-373 | with what is pending it covers one frame more than the exact ratio takes, and, when it asks for any, less than two more |
| SpeexResamplers.SpeexOneWay.InputBuffer | src/cubeb_resampler_internal.h:380-386 | room for the frames behind what is pending, nothing overwritten |
| SpeexResamplers.SpeexOneWay.Written | src/cubeb_resampler_internal.h:388-394 | the samples written there, and no others, become pending |
| SpeexResamplers.SpeexOneWay.Output | src/cubeb_resampler_internal.h:285-300 | exactly the prefix Speex took is removed; everything written is removed once, in order, or still pending |
| SpeexResamplers.SpeexOneWay.DropAudioIfNeeded | src/cubeb_resampler_internal.h:396-405 | exactly the newest frames stay that last at most a twentieth of a second at the source rate; the others are removed in order and counted as dropped |
| SpeexResamplers.SpeexResampler.constructor | src/cubeb_resampler_internal.h:483-523 | empty queues; the output processor converts from the resampler's rate to the output rate, with the channels asked for |
| SpeexResamplers.SpeexResampler.DemandQueryIsExact | src/cubeb_resampler_internal.h:184-200 | with the frames asked for the next duplex fill shows the first n frames of queue and input and no silence; with one fewer it ends in exactly one silent frame (FillDuplex says the same of its result) |
| SpeexResamplers.SpeexResampler.TakeFromCallback | src/cubeb_resampler.cpp:193-204 | the frames the callback reports are appended once; a short return starts draining, a negative one fails |
| SpeexResamplers.SpeexResampler.FillOutput | src/cubeb_resampler.cpp:172-210 | output-only fill, draining or not: what the callback delivers is consumed once and in order, leftovers untouched |
| SpeexResamplers.SpeexResampler.StageQueue | src/cubeb_resampler.cpp:314-324 | the callback is shown the first n frames of queue, input and silence |
| SpeexResamplers.SpeexResampler.UnstageQueue | src/cubeb_resampler.cpp:345-353 | what was shown is removed, then the oldest beyond a twentieth of a second at the target rate |
| SpeexResamplers.SpeexResampler.PresentDuplex | src/cubeb_resampler.cpp:292-341 | the callback is shown the first n frames of queue, input and silence, and what it reports is appended to the pending output once |
| SpeexResamplers.SpeexResampler.FinishDuplex | src/cubeb_resampler.cpp:343-362 | what was shown leaves the queue and the newest twentieth of a second stays; of the pending output the prefix Speex took leaves, then the oldest beyond its twentieth |
| SpeexResamplers.SpeexResampler.FillDuplexLive | src/cubeb_resampler.cpp:272-363 | both for a whole fill that is not draining: first n frames shown, the newest twentieth of a second kept of queue and pending output, exactly the taken and the dropped output samples removed, in order |
| SpeexResamplers.SpeexResampler.FillDuplex | src/cubeb_resampler.cpp:258-363 | the whole fill, draining included, with consumed equal to supplied and exactly the pending output Speex took removed; the queue bound is part of Valid |
| CaptureRun.PassthroughRun | src/cubeb_resampler.cpp:55-123 | any run of duplex calls is a run of the specification: queue and shown samples agree with it, and every captured sample is accounted for |
| CaptureRun.DuplexFill | src/cubeb_resampler.cpp:258-363 | one successful fill that was not draining is one step of the specification, whatever callback and Speex do |
| CaptureRun.DuplexRun | src/cubeb_resampler.cpp:258-363 | any run of successful fills is a run of the specification, one fill a call, each supplied with what was captured for it: every captured sample is shown or dropped once, in order, or still queued; the queue stays bounded |
| ChannelLayouts.IsBitIsOneChannel | src/cubeb_mixer.cpp:121-129 | clearing the lowest bit of a nonzero layout word leaves nothing if and only if the layout has one channel |
| ChannelLayouts.CleanWordIsCleanLayout | src/cubeb_mixer.cpp:121-129 | clean_layout on the word is treating a lone channel other than front left as mono |
| ChannelLayouts.EvenIsEvenPair | src/cubeb_mixer.cpp:108-117 | under the mask of any two channels `even` says that both are there or neither is |
| ChannelLayouts.AnyIsFrontChannel | src/cubeb_mixer.cpp:131-135 | the mask of the three front channels finds a bit if and only if one of them is there |
| ChannelLayouts.SaneWordIsSaneLayout | src/cubeb_mixer.cpp:131-155 | sane_layout on the word is a front speaker, no lopsided pair, and not all channels |
| ChannelLayouts.CleaningKeepsCount | src/cubeb_mixer.cpp:121-129 | treating a lone channel as mono keeps the channel count |
| ChannelLayouts.RankMonotone | src/cubeb_mixer.cpp:313-336 | ranks follow channel order |
| ChannelLayouts.RankInjective | src/cubeb_mixer.cpp:313-336 | different channels get different places in the compact matrix |
| MixCoefficients.CoefficientsNonNegative | src/cubeb_mixer.cpp:181-311 | for every pair of layouts no weight is negative |
| MixCoefficients.MatrixMirrors | src/cubeb_mixer.cpp:213-217 | for every pair of sane layouts the non-top part is unchanged by swapping left and right |
| MixCoefficients.NoChannelIsLost | src/cubeb_mixer.cpp:211-311 | for every pair of sane layouts every non-top input channel has a positive weight in some output channel on its side or in the middle |
| MixCoefficients.ChannelsAreRouted | src/cubeb_mixer.cpp:211-311 | for every pair of sane layouts a weight is positive exactly where the input channel is heard: in itself if the output has it, else in the first channel of its route that is there, from the middle in that channel's mirror image too |
| MixCoefficients.SidesStayApart | src/cubeb_mixer.cpp:252-296 | for all layouts a left channel has weight zero in every right one, and the other way round |
| MixCoefficients.LevelsAreHalvings | src/cubeb_mixer.cpp:211-311 | for every pair of sane layouts the square of each positive weight is, within a millionth, one halved once for the way from behind to the front, once between middle and sides, once into a surround pair the input has too |
| MixMatrix.NamedMatrix | src/cubeb_mixer.cpp:184-311 | the rules applied in place, one after the other, yield the coefficient of every pair of channels (what it is: ChannelsAreRouted, LevelsAreHalvings) |
| MixMatrix.PackRow | src/cubeb_mixer.cpp:319-333 | one row is packed by channel rank, zeros behind it, its absolute sum returned |
| MixMatrix.PackMatrix | src/cubeb_mixer.cpp:313-336 | the whole compaction, with the largest absolute row sum |
| MixMatrix.AbsSumScales | src/cubeb_mixer.cpp:344-351 | scaling a row scales its absolute sum |
| MixMatrix.Normalise | src/cubeb_mixer.cpp:337-351 | afterwards no absolute row sum is over maxval; if anything was scaled one is exactly maxval |
| MixMatrix.AutoMatrix | src/cubeb_mixer.cpp:181-362 | fails exactly on unsupported layouts; else entry (i, j) is at (rank of i, rank of j), divided by the common scale, zeros elsewhere, row sums bounded; for float samples the scale is one |
| FixedPoint.LrintIsNearestEven | src/cubeb_mixer.cpp:380-395 | no integer is nearer than the rounded one, ties go to the even one |
| FixedPoint.QuantisedMagnitude | src/cubeb_mixer.cpp:391-396 | rounding to 17.15 adds at most 1/2 per entry to an absolute row sum |
| FixedPoint.PartialSumsFit | src/cubeb_mixer.cpp:465-472 | for rows of absolute sum at most one every partial sum, also with 16384 added, fits int32, for all samples |
| FixedPoint.RoundedIsNearest | src/cubeb_mixer.cpp:565-577 | the shift is division by 32768 rounded to nearest, ties up |
| FixedPoint.ClipIsClamp | src/cubeb_mixer.cpp:565-573 | the clip expression on 32 bits is exactly the clamp to [-32768, 32767] |
| FixedPoint.NeverWrapsIff | src/cubeb_mixer.cpp:576-580 | a nonnegative row lands in range for all frames if and only if its quantised sum is at most 32768 |
| FixedPoint.ClampsAlwaysIff | src/cubeb_mixer.cpp:563-581 | what is stored is the clamped sum for all frames if and only if clipping is on or the quantised sum is at most 32768 |
| Quantisation.DetectClipping | src/cubeb_mixer.cpp:371-389 | clipping is set exactly if some row, rounded with the carried error, sums to more than 32768 |
| Quantisation.QuantiseRow | src/cubeb_mixer.cpp:393-400 | the row's nearest fixed-point weights, and the list of exactly its nonzero columns in order |
| Quantisation.QuantiseMatrix | src/cubeb_mixer.cpp:391-401 | that for every row |
| Rematrix.IdxDistinct | src/cubeb_mixer.cpp:446-476 | different samples have different places in an interleaved buffer |
| Rematrix.IdxCovers | src/cubeb_mixer.cpp:446-476 | every place within the frames is that of a sample |
| Rematrix.SparseIsDense | src/cubeb_mixer.cpp:465-471 | the sum over listed columns is the whole row times the frame |
| Rematrix.SparsePartialSum | src/cubeb_mixer.cpp:465-471 | every partial sparse sum is a partial sum of the dense product |
| Rematrix.Silence | src/cubeb_mixer.cpp:449-453 | fills its channel with zeros and nothing else |
| Rematrix.Copy | src/cubeb_mixer.cpp:423-435 | fills its channel from one weighted channel, strided, and nothing else |
| Rematrix.Sum2 | src/cubeb_mixer.cpp:406-421 | fills its channel from two weighted channels, strided, and nothing else |
| Rematrix.Many | src/cubeb_mixer.cpp:465-474 | fills its channel with the dense product and nothing else |
| Rematrix.OutputChannel | src/cubeb_mixer.cpp:446-476 | all four cases fill their channel with the dense product and nothing else |
| Rematrix.Rematrix | src/cubeb_mixer.cpp:437-478 | every output sample is f of the whole quantised row times the whole frame; nothing past the frames changes |
| Rematrix.DenseAt | src/cubeb_mixer.cpp:465-472 | that, read off for one sample |
| CopyAndTrunc.TruncFrameInParts | src/cubeb_mixer.cpp:488-521 | the frame in which every channel has its own input channel, silence if there is none, mono on the first two, is the one the source's copies and fills make |
| CopyAndTrunc.TruncatedAt | src/cubeb_mixer.cpp:488-521 | sample o of output frame i comes from input frame i |
| CopyAndTrunc.CopyOrTruncate | src/cubeb_mixer.cpp:488-521 | the advancing copies and fills yield that output and leave the rest alone |
| Mixers.UndefinedIsNeverMixable | src/cubeb_mixer.cpp:93-106 | an undefined layout never makes a valid context, whatever the channel count |
| Mixers.CheckedLayoutIsFront | src/cubeb_mixer.cpp:93-106 | an undefined layout of one or two channels is read as exactly the front center, or front left and right |
| Mixers.Mixer.constructor | src/cubeb_mixer.cpp:93-106 | valid exactly for matching channel counts and supported layouts |
| Mixers.Mixer.Init | src/cubeb_mixer.cpp:363-404 | tables ready for the normalised matrix; clipping by the carried sums |
| Mixers.SizeChecksAreExact | src/cubeb_mixer.cpp:530-540 | the size checks agree with the room in the buffers if and only if there are input channels or the output is large enough; without input channels they always pass |
| Mixers.SizeChecksCanMiss | src/cubeb_mixer.cpp:530-540 | an input for which they pass and the output is too small |
| Mixers.Mixer.Mix | src/cubeb_mixer.cpp:523-589 | which calls return -1, which leave the output alone, which go past the output's stated size, and the mixed or truncated samples of all others |
| MixerBounds.RowsAreTame | src/cubeb_mixer.cpp:313-350 | for every accepted pair of layouts quantised weights are nonnegative and row sums at most one |
| MixerBounds.SumsNeverOverflow | src/cubeb_mixer.cpp:465-472 | for every context, row, frame and prefix of the list the sum fits int32, with and without the rounding term |
| MixerBounds.StoresClampedIff | src/cubeb_mixer.cpp:563-581 | for every context all stored samples are the clamped sums, for all frames, exactly if clipping is on or no quantised row sum is over 32768 |
| MixerBounds.DetectionMisses | src/cubeb_mixer.cpp:371-395 | for three front channels into mono nothing is detected although the quantised row sums to 32769 |
| MixerBounds.FullScaleWrapsToNegative | src/cubeb_mixer.cpp:523-580 | one whole run of a valid mixer for those layouts that detects no clipping: three samples of 32767 go in, mix returns 0, and -32768 comes out |

## Left out

- The other backends (WASAPI, AudioUnit, PulseAudio, ALSA, OSS, JACK, OpenSL, sndio, Sun, KAI, AudioTrack): they sequence calls into libraries that are not part of this model.
- AAudio, Speex and the C++ runtime themselves: parameters and the contracts listed under Assumptions.
- Weak memory: the acquire and release annotations are not examined.
- The protocol modules model the threads' imperative code on values, as step relations, because a Dafny method has no interleaving; the objects of the ring buffer and the triple buffer are also there as classes for calls that do not overlap.
- Debug thread-id assertions, `reset_thread_ids`, and `invalidate` or `reset_producer_thread` racing with live users.
- `lock_free_queue` inside the logger is one step there; its own steps are those of RingProtocol.
- Drain targets, volume, latency and the clamped position of the AAudio backend: easy beside the state machine.
- Resampling the input side (`fill_internal_input`, `input`, `output_for_input`): its results depend on the resampled input, which is Speex's.
- Float arithmetic: the float sample path of the mixer, the cast of a product to float inside `lrintf`, and the rounding of the resampling ratio.
- The portable bit count (src/cubeb_mixer.cpp:84-89): a layout word counts the channels of its layout.
- `push_front_silence` of auto_array, `array_queue`, `ring_array`, parameter validation and dispatch in src/cubeb.c, string interning, audio dump, JNI, tools and tests: easy siblings or unrelated.
- Mixers.Mixer.Mix: requires input and output buffers to be different and the byte sizes passed to be true. What the memory past the stated output holds after an Overrun is not modelled. Byte counts are unbounded numbers.
- StreamControl: what start, stop and destroy do after a failed assertion is that of a build without assertions. Calls of the user after a destroy are not steps. The data callbacks' own assertion that the stream is not shut down is not stated: it rests on AAudio alone.
- Rematrix.Rematrix: the sums are unbounded integers in the loops; that they are the 32-bit ones is MixerBounds.SumsNeverOverflow.
- MixCoefficients.MatrixMirrors: covers the channels below the top ones, which the source never mixes into others.
