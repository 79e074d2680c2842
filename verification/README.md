# Verified model of ndistreamer's streaming pipeline

ndistreamer reads a media file, stream or device, decodes it with FFmpeg and publishes it as an NDI source in
real time. This project models its pipeline in Dafny and proves what the program relies on:

- **Queues and threads.** Five threads (demux, two decoders, two presenters) are joined by four bounded queues.
  `Queues` holds the queue object, `WakeUps` its sleeping and notification protocol for any number of threads,
  `Decoding` the decode loop both streams share, and `Pipeline` the whole system as a step relation. On top of
  that, `PipelineSafety` (structure), `PipelineLiveness` (no deadlock, termination), `PipelineFlow` (conservation),
  `PipelineOrder` (order), `PipelinePasses` (looping), `PipelineStart` (who waits for whom at the start, and who
  leads), `PipelineTiming` and `PipelineTimecodes` (timecodes), `PipelineFreezes` and `PipelineShedding` (what the
  presenter and the decode stage drop) and `PipelineShutdown` (bounded shutdown) prove properties of every run, in
  every interleaving. `PipelineRaces` says when audio timecodes can go backward.
- **Clock.** `Clock` is the clock object and its two affine maps, `StartBarrier` the start-up barrier for any
  number of streams.
- **Timestamps.** `Rescale` is FFmpeg's rounding. `Input` accounts packets and restarts a looping input;
  `LoopTimeline` follows that through any number of passes. `VideoTimestamps` gives frames their times.
- **Audio.** `AudioProcessor` packs planes, holds one block back and trims overlaps; `AudioTrimming` says what
  that achieves over whole sequences of blocks, `AudioFrames` over any sequence of decoded frames.
- **Video.** `VideoLayout` computes plane layouts and NDI's addressing, `Repacking` copies frames in memory,
  `FrameLifetime` tracks every buffer from the pool to NDI and back.

`Counting` holds sums over threads, `Products` arithmetic, `Options` the optional value. `dafny verify dfyconfig.toml` checks everything.

## How the program is represented

- Objects whose methods update fields are classes with those fields. Each method is proved against a function of
  the old state (`Push`, `Emit`, `Restarted`, ...), and the system-wide modules reason about the same functions.
- A section under a mutex is one step of the system. A thread that would wait is simply not enabled; that this is
  right for the queues, whose `notify_one` comes after unlocking, is what `WakeUps` proves, and `StartBarrier` does
  so for the clock. The stop-aware wait follows section 32.6.4.2 of ISO/IEC 14882:2020: after a stop request
  it returns the predicate's value, so pushes and pops may still succeed.
- From finding a frame due to recording its send a presenter takes up to four steps, between which the other may
  run: the test, `Resync` if the test called for it (with the time the test read), `Timecode`, and the send that
  stores its time. What one test reads (time, deadline, who is master) it reads at one instant. The program reads
  them one after another, so that wherever a test is said to begin something, it is the first of these reads that does.
- The steady clock is an integer number of nanoseconds that only grows; UTC differs from it by a fixed offset.
  FFmpeg's decoder, demuxer and buffer pool, and NDI's send calls, are contracts, written as small classes or as
  unconstrained choices in the step relation. `INT64_MIN`, `INT64_MAX` and `AV_NOPTS_VALUE` marks are `None`.

## What the proofs turned up

- The comment on `TargetFormat` says full-range YUV is converted, because NDI assumes limited range. With the
  automatic format that holds for every source but one: full-range UYVY is its own target and goes out as it is
  (`VideoLayout.FullRangeYuvIsConverted`).
- The comment in `src/av/audio_processor.hpp` says a block's tail is trimmed if the next block starts before it ends.
  A block that starts before its predecessor removes that one whole, and may then overlap the block before it
  (`AudioTrimming.BackwardTimestampsCanOverlap`); `AudioTrimming.OverlapIsTheBackwardJump` says by exactly how much.
- Timecodes are the UTC time of the deadline rounded down, except that C++ division rounds up for deadlines before
  1970 (`Clock.TimecodeIsUtcOfDueTime`).
- Video timed by its nominal frame rate drifts unless a frame period is a whole number of ticks
  (`VideoTimestamps.NominalDurationDrift`).
- Timecodes as a whole are not monotone: a resync decided for a live input that runs far ahead moves them back by
  five seconds or more, and no other does (`PipelineTiming.EarlyResyncMovesTimecodesBack`).
- Even audio's own timecodes can go back, because `WaitUntilDue` and the send are not one critical section. They can
  if and only if sending is paced and the input has both streams; whether it is live and what the other options are
  does not matter (`PipelineRaces.AudioCanGoBack`). For each such configuration there is a complete run: the presenters
  get to run two seconds late, video tests before an audio send and moves the clock after it. With a live input
  there are two more ways: video moves the clock between audio's test and its timecode, or tests before
  `m_audio_last_sent` is stored. All have a video resync pending while audio is sending, and no run without such an
  overlap goes back (`PipelineTiming.AudioTimecodesNeverGoBackward`).
- `Decoder::Receive` returns null after a decoding error as at the end of a drain. A decoder reset at a loop marker
  discards frames if and only if that happened (`PipelinePasses.ResetsLoseFramesOnlyByError`).

## Model

| member | source | states |
|---|---|---|
| Rescale.RoundDiv | src/av/ffmpeg.hpp:99-111 | The rounding of `av_rescale`: within half a unit of the quotient, ties away from zero. |
| Rescale.RoundDivUnique | src/av/ffmpeg.hpp:99-111 | No other integer meets those bounds, so they define the rounding. |
| Rescale.RoundDivMonotone | src/av/ffmpeg.hpp:99-111 | Rounding keeps order. |
| Rescale.RoundDivExact | src/av/ffmpeg.hpp:99-111 | A whole number of units is converted without error. |
| Rescale.ToMicrosNear | src/av/ffmpeg.hpp:102-104 | A timestamp's microseconds are within half a microsecond of its exact time, in any time base. |
| Rescale.FromMicrosNear | src/av/ffmpeg.hpp:109-111 | A time converted to ticks is within half a tick of the exact time. |
| Rescale.ToMicrosMonotone | src/av/ffmpeg.hpp:102-104 | Conversion to microseconds keeps the order of timestamps. |
| Queues.BoundedQueue.constructor | src/util/queue.hpp:28 | A new queue is open and empty; capacity zero counts as one. |
| Queues.BoundedQueue.TryPush | src/util/queue.hpp:37-48 | One turn of Push: the item is appended if and only if the queue is open and has room, stop or not; the thread waits if and only if it is open, full and not stopped; otherwise the item is refused and nothing changes. |
| Queues.BoundedQueue.TryPushFor | src/util/queue.hpp:57-68 | PushFor differs: it refuses if and only if closed or stopped, even with room; otherwise room decides, and then the timeout. |
| Queues.BoundedQueue.TryPop | src/util/queue.hpp:74-86 | One turn of Pop: the oldest item is taken if and only if there is one, also after Close or a stop; the thread waits if and only if the queue is empty, open and not stopped. |
| Queues.BoundedQueue.DoClose | src/util/queue.hpp:91-98 | Close keeps pending items. |
| Queues.BoundedQueue.Size | src/util/queue.hpp:100-103 | Size is the number of pending items. |
| WakeUps.StepInv | src/util/queue.hpp:37-98 | Every step keeps: while open and unstopped, if a consumer sleeps then items are covered by pending notifications and woken consumers, and free slots likewise for producers; shutdown leaves no sleeper without a wake-up on its way; first in, first out, each item once. |
| WakeUps.RunInv | src/util/queue.hpp:37-98 | That invariant in every state of every run, for any number of threads. |
| WakeUps.NobodySleepsOnATrueCondition | src/util/queue.hpp:37-98 | No lost wake-up: once notifications are delivered and woken threads have looked, whoever sleeps waits for a condition that is false; nobody sleeps on a closed or stopped queue; producers and consumers never sleep at once. |
| WakeUps.InternalStepDescends | src/util/queue.hpp:37-98 | Every recheck or notification lowers a rank. |
| WakeUps.QueueSettles | src/util/queue.hpp:37-98 | From every reachable state the protocol can reach one with nothing left to deliver. |
| WakeUps.NoEndlessSignalling | src/util/queue.hpp:37-98 | No schedule of rechecks and notifications alone goes on forever. |
| Clock.PresentationClock.constructor | src/util/clock.cpp:23-24 | A new clock has not started and expects the given streams. |
| Clock.PresentationClock.EnterWaitForStart | src/util/clock.cpp:26-47 | An arrival counts, lowers the earliest timestamp and starts playback if that was the last stream or the timeout has passed; after the start it does not move deadlines. |
| Clock.PresentationClock.ResumeWaitForStart | src/util/clock.cpp:34-46 | A woken waiter gives up only because of a stop, and otherwise returns true exactly when playback has started. |
| Clock.PresentationClock.CheckStart | src/util/clock.cpp:34-40 | Playback starts when all expected streams are ready or the deadline has passed, and at most once. |
| Clock.PresentationClock.StartLocked | src/util/clock.cpp:55-61 | The origin becomes the earliest timestamp, due after the preroll. |
| Clock.PresentationClock.FinishStream | src/util/clock.cpp:49-53 | A finished stream is no longer waited for. |
| Clock.PresentationClock.DoResync | src/util/clock.cpp:73-78 | The given timestamp becomes due at the given time; the origin stays. |
| Clock.RunAnchored | src/util/clock.cpp:26-78 | After any sequence of arrivals, starts, finishes and resyncs the timecode of the origin is the UTC time of its deadline. |
| Clock.TimecodeIsUtcOfDueTime | src/util/clock.cpp:14-19 | In every such state each timestamp's timecode is the UTC time of its deadline in whole 100 ns, with no drift; equality with the truncated value holds if and only if the deadline is not before 1970 or is a whole unit. |
| Clock.MapIsAffine | src/util/clock.cpp:63-71 | Deadlines and timecodes differ by exactly the difference of the timestamps. |
| StartBarrier.StepInv | src/util/clock.cpp:26-61 | Every arrival, wake-up, finish, timeout and stop keeps the count of streams, the earliest timestamp, and that nobody sleeps once playback can start. |
| StartBarrier.RunInv | src/util/clock.cpp:26-61 | The same in every state of every run, for any number of streams. |
| StartBarrier.StartsOnceAtTheEarliestTimestamp | src/util/clock.cpp:26-61 | In any unstopped run playback starts at most once; the origin is the least first timestamp of exactly the streams that had arrived; none of their first deadlines precedes start plus preroll, and the earliest meets it; it starts only when all have arrived or finished, or when the timeout has passed since the first arrival of the run. |
| StartBarrier.ReadySinceFirstArrival | src/util/clock.cpp:29-31 | In every run the time the timeout counts from is the time at which the first stream arrived. |
| StartBarrier.NoWaiterStaysBlocked | src/util/clock.cpp:34-53 | Once every stream has arrived or finished, no waiter is asleep and each returns true on its next turn. |
| StartBarrier.TimeoutReleases | src/util/clock.cpp:34-44 | From every unstopped state of every run in which the timeout has passed, each waiter alone can go on to return true from WaitForStart. |
| StartBarrier.StopReleases | src/util/clock.cpp:42-43 | After a stop no stream is asleep, in every state of every run, and each that waits gets false on its next turn. |
| Decoding.DiscardedRunEndsWithKeyframe | src/streamer.cpp:200-218 | From a discarded packet, the next packet handed to the decoder is a keyframe. |
| Decoding.DecodeLoop.Drain | src/streamer.cpp:192-198 | Drain ends with the decoder out of frames (completely, when it was draining), with a decoding error, or with a stop. |
| Decoding.DecodeLoop.Feed | src/streamer.cpp:220-229 | A packet is offered, and then accepted, given up on after exactly nine refusals, or interrupted by a stop; a decoder that takes input after it had no frame to give is never given up on. |
| Decoding.DecodeLoop.TakeMarker | src/streamer.cpp:202-208 | At a loop marker the decoder is drained and reset; the reset finds frames left only if the last Receive failed. |
| Decoding.DecodeLoop.TakePacket | src/streamer.cpp:210-229 | The skip decision for one packet, for every answer of should_skip. |
| Decoding.DecodeLoop.Decode | src/streamer.cpp:189-235 | For every packet sequence: items are taken in order; discarding is keyframe-safe and never hits markers; no reset finds frames left, and no finished loop leaves any, unless the last Receive failed; packets are given up on after the ninth refusal, never sooner, and not offered again then; a finished loop has decided every packet; it ends early only because of a stop. |
| PipelineSafety.StepKeepsShape | src/streamer.cpp:164-387 | Every step of every thread keeps the pipeline's structure: queue bounds, who may close what, when decoders drain. |
| PipelineSafety.RunShape | src/streamer.cpp:164-387 | That structure in every reachable state. |
| PipelineLiveness.SomeoneMoves | src/streamer.cpp:164-387 | In every well-formed unfinished state some thread can move or some presenter waits for time only; after a stop some thread can always move. |
| PipelineLiveness.TimeHelps | src/streamer.cpp:304-330 | A presenter waiting for time can go on at its wake time at the latest. |
| PipelineLiveness.NeverStuck | src/streamer.cpp:122-387 | Deadlock-freedom: every reachable unfinished state, whatever stopped or failed, has an enabled thread step, or gets one by letting time pass. |
| PipelineLiveness.ThreadStepDescends | src/streamer.cpp:164-387 | Every thread step but a restart of the input, failures included, lowers a lexicographic rank: stop, input left, packets queued, frames in the decoder, frames queued, drain state. |
| PipelineLiveness.FinitelyManyThreadSteps | src/streamer.cpp:122-387 | In every schedule whatsoever the threads take finitely many steps once the input is not restarted any more. |
| PipelineLiveness.EndsOrKeepsRestarting | src/streamer.cpp:164-387 | In every fair schedule, looping or not, either every thread ends or the input is restarted over and over. Fair: time does not pass forever while at every moment some thread could move. |
| PipelineLiveness.EveryThreadEndsOnceStopped | src/streamer.cpp:122-387 | After a stop every thread ends in every fair schedule, also of a looping input. |
| PipelineLiveness.EveryThreadEnds | src/streamer.cpp:122-387 | Termination: on a finite input that does not loop every thread ends in every fair schedule, whatever stops or fails. |
| PipelineFlow.RunFlow | src/streamer.cpp:164-387 | In every unstopped state packets and frames are conserved: each is queued, in some thread's hands, or accounted for by a counter. |
| PipelineFlow.EverythingIsAccountedFor | src/streamer.cpp:189-387 | At the end of an undisturbed run: queues closed and empty; packets popped = fed + skipped + refused; frames the decoder made = handed out + lost at resets + left in it, and some are left if and only if the last drain ended for a decoding error; frames handed out = sent + dropped, both drop counters together (audio: + trimmed away whole); the presenter dealt with exactly what was pushed, in order. |
| PipelineFlow.TailIsDrained | src/streamer.cpp:232-235 | In every unstopped run, once the decode thread is past the end of its input the decoder holds frames if and only if the drain there ended for a decoding error. |
| PipelineFlow.PushesArrive | src/util/queue.hpp:39-47 | Packets and markers pushed into an open queue with room arrive at its end, whether or not a stop was requested, and the demuxer goes on. |
| PipelineFlow.FramePushesArrive | src/util/queue.hpp:39-47 | The same for frames pushed by the decode threads. |
| PipelineOrder.SentInDecodingOrder | src/streamer.cpp:189-387 | In every run, stopped and failing ones included: what a presenter has sent or dropped, holds, has queued, what is about to be pushed and what the processor holds back are, in this order, some of the frames the decoder handed out, in the order it did. |
| PipelineOrder.FramesKeepTheirTimestamps | src/streamer.cpp:189-387 | Every frame sent or dropped by a presenter was handed out by the decoder earlier in the run, with that timestamp and of that pass. |
| PipelineFlow.AudioDeliveredExactlyOnce | src/streamer.cpp:287-387 | The audio blocks sent are exactly those the processor pushed, in order. |
| PipelinePasses.RunPasses | src/streamer.cpp:164-235 | In every unstopped state packets, decoder and frames carry the pass the loop markers put them in. |
| PipelinePasses.PassesNeverMix | src/streamer.cpp:164-235 | All output of one pass precedes all output of the next, and no frame in the decoder is from another pass. |
| PipelinePasses.ResetLosesNothing | src/streamer.cpp:202-208 | In every run, whenever a marker leads to Reset without a decoding error the decoder holds no frame. |
| PipelinePasses.ResetsLoseFramesOnlyByError | src/streamer.cpp:192-208 | In every run the resets so far have discarded frames if and only if a drain before one of them ended for a decoding error with frames left. |
| PipelineTiming.RunTiming | src/streamer.cpp:298-387 | The invariant behind audio timecodes, in every state of a run without overlap so far: the last block's deadline bounds later ones unless audio has been idle for a second, also in the middle of a send. |
| PipelineTiming.AudioTimecodesNeverGoBackward | src/streamer.cpp:298-387 | In every run in which no resync by video is pending, from its test to Resync, while an audio block is being sent, from its test to the store of the time: consecutive blocks with non-decreasing timestamps have non-decreasing timecodes, across resyncs by audio and by video. |
| PipelineTiming.NextBlockCanGoBack | src/streamer.cpp:304-330 | In any state some next block would get a lesser timecode than the last one if and only if the least timestamp audio accepts without a resync does. |
| PipelineTiming.RunSoloTiming | src/streamer.cpp:298-387 | The same invariant for a stream on its own, in every reachable state. |
| PipelineTiming.VideoTimecodesNeverGoBackward | src/streamer.cpp:298-367 | Without audio, in every run: from one video frame sent to the next, with non-decreasing timestamps, timecodes do not decrease. |
| PipelineTiming.DueGrows | src/streamer.cpp:304-330 | Why: whoever moved the clock, the next block's deadline is not before the last one's; needs the idle limit to be at least the late limit. |
| PipelineTiming.ResyncShiftsTimecodes | src/util/clock.cpp:73-78 | Every resync, however stale, shifts all timecodes by the difference between the time given and the old deadline. |
| PipelineTiming.EarlyResyncMovesTimecodesBack | src/streamer.cpp:312-322 | A resync carried out on the clock it was decided on moves timecodes back if and only if the frame was far ahead, which takes a live input, and then by at least five seconds. |
| PipelineTiming.DueTestIsExact | src/streamer.cpp:298-322 | The test of a waiting presenter leads to a resync if and only if the stream is audio, or audio has ended, sent nothing yet, or nothing for a second, and the frame is over a second late or, on a live input, over five seconds early; without one the frame goes out if and only if it is due. |
| PipelineTiming.FileTimecodesOnlyGrow | src/streamer.cpp:304-322 | Over whole runs of a single stream that is not live, no step after the start lowers the timecode of any timestamp. |
| PipelineTimecodes.TimecodesAreUtcOfDeadlines | src/streamer.cpp:358-383 | In every run of every configuration, overlaps and failures included, each frame sent carries the UTC time, in whole 100 ns, of the deadline the clock gave it in the earlier state in which it got its timecode; the time recorded for it is that of its send. |
| PipelineTimecodes.RunAnchoring | src/util/clock.cpp:55-78 | What that rests on: in every state of every run the clock is anchored to UTC, and pending resyncs leave it so. |
| PipelineRaces.AudioCanGoBack | src/streamer.cpp:298-383 | For all options and streams: some run has consecutive audio blocks with non-decreasing timestamps and decreasing timecodes if and only if pacing is on and both streams are present. |
| PipelineRaces.NeverReorders | src/streamer.cpp:298-383 | The negative half: without pacing, without video or without audio, no run does. |
| PipelineRaces.StaleResyncReordersAudio | src/streamer.cpp:304-330 | For every configuration with pacing, a run of the whole pipeline: video decides on a resync before audio has sent, audio resyncs and sends, video moves the clock back, and the next block's timecode is less. |
| PipelineRaces.ResyncBeforeTimecodeReordersAudio | src/streamer.cpp:369-383 | For every live configuration with pacing, a run in which video moves the clock between an audio block's test and its timecode, with the same result. |
| PipelineRaces.UnrecordedSendReordersAudio | src/streamer.cpp:298-302 | For every such configuration, a run in which video tests after an audio block got its timecode and before the time of its send is stored, with the same result. |
| PipelineRaces.ReorderingOverlaps | src/streamer.cpp:298-383 | Every run in which audio goes back has such an overlap. |
| PipelineFreezes.RunFreezes | src/streamer.cpp:342-363 | In every state, presenter drops so far were justified and, unstopped, a dropped frame has a newer one behind it. |
| PipelineFreezes.RunHistory | src/streamer.cpp:342-355 | What the presenter measured and decided goes back to states of the run: the lateness is that of the frame's deadline on the clock at that instant, and the frames queued are those of the decision. |
| PipelineFreezes.DropsAreJustified | src/streamer.cpp:342-355 | Every frame dropped by the presenter was, in an earlier state of the run, later than 40 ms and than twice its duration by the clock of that state, no resync was pending, it was examined under 200 ms after the last send, and a newer frame was queued when it was dropped. |
| PipelineFreezes.DropsAreExact | src/streamer.cpp:342-355 | In every run the presenter drops a frame if and only if those conditions hold: late by over 40 ms and twice its duration when examined, no resync pending, under 200 ms after the last send, and a newer frame queued; otherwise it goes on to wait for the deadline. |
| PipelineFreezes.DecideIsExact | src/streamer.cpp:349-355 | The same for any single decision, with the whole effect on the counters and the record. |
| PipelineFreezes.PacedFramesAreTested | src/streamer.cpp:336-383 | With pacing, every frame sent had been found due by a test before, and every video frame had been examined and spared before that. |
| PipelineFreezes.UnpacedRunsDropNothing | src/streamer.cpp:252-383 | Without pacing no run drops a frame anywhere, waits for a deadline, or moves the clock. |
| PipelineShedding.RunTimes | src/streamer.cpp:248-270 | In every run the thread's own variables tell when the processor was last done with a frame, and since when no frame was on time. |
| PipelineShedding.DecodeDropsAreJustified | src/streamer.cpp:252-267 | In every run the decode stage drops a frame if and only if it is later than the threshold with packets queued, under one second after the processor was last done with a frame. |
| PipelineShedding.DiscardingIsExact | src/streamer.cpp:210-218 | In every run a packet is discarded if and only if it is no keyframe and the packet before it was discarded too, or it is video's and video has been behind for a whole second, no frame since on time. |
| PipelineShedding.RunDiscards | src/streamer.cpp:200-218 | The flag `skipping` is set if and only if the last packet taken was discarded. |
| PipelineShedding.GivesUpAfterNineRefusals | src/streamer.cpp:220-228 | In every run a packet is given up on if and only if the decoder has refused it nine times in a row and the drain after the ninth ends; after fewer the same packet is offered again. |
| PipelineFreezes.LastFrameIsSent | src/streamer.cpp:336-363 | In an undisturbed run the last frame pushed is always sent. |
| PipelineStart.RunWaits | src/streamer.cpp:336-387 | In every unstopped run the clock has counted exactly the streams that arrived, expects exactly those that have not ended without a frame, and audio counts as presenting exactly until its presenter has ended. |
| PipelineStart.WaitsOnlyForTheOtherStream | src/util/clock.cpp:34-53 | In every unstopped run a presenter waiting for the start may go on if and only if playback has started, the other stream does not exist, has arrived or has ended, or the timeout has passed; it goes on with its first frame. |
| PipelineStart.StoppedWaiterLeaves | src/util/clock.cpp:42-43 | After a stop it goes on at once, ends, and leaves the clock alone. |
| PipelineStart.VideoLeads | src/streamer.cpp:298-302 | In every unstopped run video may move the clock if and only if there is no audio, audio's presenter has ended, it has sent nothing, or its last send was a second ago or earlier. |
| PipelineShutdown.StepsRunOut | src/streamer.cpp:164-387 | After a stop each thread step uses up some of a bounded budget, and time steps none of it. |
| PipelineShutdown.ShutdownIsBounded | src/streamer.cpp:164-387 | From a stop on the threads take at most 20 steps per queued packet, 9 per queued frame and 129 more, and never have to wait. |
| PipelineShutdown.AtMostOneMoreItem | src/streamer.cpp:164-187 | After a stop the demuxer adds at most one more item to each packet queue. |
| Input.MediaInput.constructor | src/av/input.cpp:188-217 | A new input has seen nothing, and shifts nothing. |
| Input.MediaInput.Account | src/av/input.cpp:188-217 | A packet extends the pass by its presented extent, and both its timestamps come back later by the timeline offset, rounded to its time base; unset ones stay unset. |
| Input.MediaInput.Read | src/av/input.cpp:225-252 | The packet returned is the first of a selected stream, accounted, and later by the timeline offset; packets passed over belong to no selected stream and leave no trace; null without an error means the end of the input or a stop, and an error means a failed read that is neither. |
| Input.MediaInput.Restart | src/av/input.cpp:254-277 | Restart succeeds if and only if the pass had positive length and seeking worked; then the offset grows by that length and every selected track gets it rounded to its own time base. |
| Input.PresentedExtent | src/av/input.cpp:192-211 | What a packet presents, in terms of its fields: nothing without a timestamp or if discarded; otherwise its duration, or the stream's default without one, less the samples to skip at either end, to the nearest tick; nothing if that leaves nothing. |
| LoopTimeline.ReadPassMeasures | src/av/input.cpp:188-217 | Reading a pass measures its latest presented end and, in the first pass, its earliest presented start. |
| LoopTimeline.OffsetIsSumOfLengths | src/av/input.cpp:254-277 | After any number of restarts the offset in microseconds is the exact sum of the pass lengths. |
| LoopTimeline.TrackOffsetNear | src/av/input.cpp:271-273 | Every track's offset is within half a tick of the exact offset: rounding does not accumulate. |
| LoopTimeline.PassesTile | src/av/input.cpp:188-277 | After any number of passes, of two packets as Read returns them in consecutive passes, the later pass's starts no earlier than the other ends by more than half a tick of each time base plus 2 us, given that it presents nothing from before the first pass's start; and the gap at the seam is no larger. |
| LoopTimeline.RestartNeedsAPresentedPacket | src/av/input.cpp:254-270 | A restart is possible if and only if the pass presented a packet ending after the first pass's start, and it strictly increases the offset. |
| AudioProcessor.Processor.constructor | src/av/audio_processor.cpp:52 | A new processor holds nothing and starts at time zero. |
| AudioProcessor.Processor.DoProcess | src/av/audio_processor.cpp:154-185 | A frame becomes one block at its timestamp, or at the running position without one; a change of format flushes first; unusable frames change nothing. |
| AudioProcessor.Processor.CopyPlanes | src/av/audio_processor.cpp:176-183 | The copy loop packs all planes, one after the other. |
| AudioProcessor.Processor.DoEmit | src/av/audio_processor.cpp:141-152 | The new block is held, the one held before is let go of, trimmed if it overlaps by 1 to 100 ms, and dropped if nothing is left. |
| AudioProcessor.Processor.DoFlush | src/av/audio_processor.cpp:187-194 | Flush lets the held block go whole. |
| AudioProcessor.PackedChannel | src/av/audio_processor.cpp:178-183 | Channel c of a packed block is plane c of the frame. |
| AudioProcessor.BlockIsPrefixOfFrame | src/av/audio_processor.cpp:170-184 | Trimmed or not, every channel of a block is a beginning of the frame's plane. |
| AudioTrimming.EmitAllIsSurvivors | src/av/audio_processor.cpp:141-152 | The one-block delay line refines trimming every block against its successor. |
| AudioTrimming.OutputIsTrimmedInput | src/av/audio_processor.cpp:141-194 | After a flush the output is, in input order, a prefix of every block that keeps a sample. |
| AudioTrimming.SamplesAreConserved | src/av/audio_processor.cpp:141-194 | Samples in = samples out + samples trimmed. |
| AudioTrimming.TrimKeepsTheGap | src/av/audio_processor.cpp:145-149 | When the successor does not start earlier, the clamp never acts: what is kept is the distance between the two starts. |
| AudioTrimming.TrimBound | src/av/audio_processor.cpp:145-149 | A trimmed block ends within half a sample plus half a microsecond of its successor's start; an untrimmed one overlaps it by at most 1 ms or at least 100 ms. |
| AudioTrimming.OutputDoesNotOverlap | src/av/audio_processor.cpp:35-38 | With non-decreasing timestamps a block reaches past the start of any later one by no more than that, discontinuities of 100 ms apart. |
| AudioTrimming.BackwardTimestampsCanOverlap | src/av/audio_processor.cpp:141-152 | Concrete blocks, one starting before its predecessor, whose output overlaps by more than the tolerance. |
| AudioTrimming.OverlapIsTheBackwardJump | src/av/audio_processor.cpp:141-152 | For all timestamps: a surviving trimmed block reaches past a later block by exactly as much as that one starts before its successor, up to rounding. |
| AudioTrimming.TimelessAudioIsUntouched | src/av/audio_processor.cpp:154-185 | Any number of frames without timestamps in one format come out whole, each at the running position. |
| AudioTrimming.BlocksAreAdjacent | src/av/audio_processor.cpp:161-163 | Of those blocks each ends exactly where the next one starts. |
| AudioTrimming.PositionDrift | src/av/audio_processor.cpp:161-163 | After n frames the running position is within n/2 us of the exact sum of durations. |
| AudioFrames.FramesBecomePieces | src/av/audio_processor.cpp:154-185 | After any mix of frames, the processor holds the block of the last one that plays, in its format, stands at its end, and has let go of all before, cut or whole. |
| AudioFrames.FramesPlayOnTime | src/av/audio_processor.cpp:161-163 | After any frames: the block of the next one starts within half a microsecond of its timestamp or, without one, exactly where the block before it ends. |
| AudioFrames.OutputOfFrames | src/av/audio_processor.cpp:141-194 | For any mix of frames, then a flush: out comes the block of every frame that plays, in order, trimmed against the next one of the same format, whole before a change of format and at the end, as far as a sample is left. |
| AudioFrames.FrameSamplesAreConserved | src/av/audio_processor.cpp:141-194 | Over the same: samples of the frames = samples out + samples cut off. |
| AudioFrames.FramesAreTrimmed | src/av/audio_processor.cpp:145-149 | A block overlapping the next of its format by 1 to 100 ms ends at its start, within half a sample and half a microsecond; any other stays whole. |
| VideoLayout.AlignIsLeast | src/av/video_processor.cpp:43-64 | A line size is the least multiple of the alignment that holds the line. |
| VideoLayout.LayoutIsSound | src/av/video_processor.cpp:36-74 | For every supported format and all positive sizes, odd ones too: strides are multiples of 64 bytes and hold whole chroma samples, planes follow one another without gap or overlap and fill the size. |
| VideoLayout.VisibleBytesAreDistinct | src/av/video_processor.cpp:36-74 | No two visible bytes share an address, and all lie inside the buffer. |
| VideoLayout.NoLayoutWithoutFourCC | src/av/video_processor.cpp:69-95 | A format has a layout if and only if it has an NDI code. |
| VideoLayout.HasNdiLayoutIsExact | src/av/video_processor.cpp:116-133 | The zero-copy test passes if and only if NDI, told only the first plane's address and (even, positive) stride, finds every line of every plane. |
| VideoLayout.AllocatedHasNdiLayout | src/av/video_processor.cpp:224-246 | A frame from AllocateContiguous always passes that test. |
| VideoLayout.TargetCanBeSent | src/av/video_processor.cpp:204-222 | The chosen format always has an NDI code and a layout, so neither lookup can fail. |
| VideoLayout.ChoiceIsKept | src/av/video_processor.cpp:204-222 | An explicit choice is the code NDI is told, whatever the source; automatically the source's own code, unless it has none or is full-range YUV. |
| VideoLayout.CodeMatchesBytes | src/av/video_processor.cpp:76-95 | The code sent with a format promises the order of components its bytes have, and no other code does. |
| VideoLayout.FullRangeYuvIsConverted | src/av/video_processor.cpp:216-219 | With the automatic format a full-range YUV source is converted if and only if it is not UYVY. |
| Repacking.CopyRow | src/av/video_processor.cpp:272-273 | Copying a line changes those bytes and no others. |
| Repacking.CopyPlane | src/av/video_processor.cpp:272-273 | All lines of a plane are copied, whichever way the source runs; nothing outside the plane changes. |
| Repacking.CopyFrame | src/av/video_processor.cpp:272-273 | The same for all planes of a frame. |
| Repacking.NdiReadsCopiedFrame | src/av/video_processor.cpp:116-133 | A copy in NDI's layout, read by NDI's addressing, yields every visible byte of the source. |
| Repacking.Convert | src/av/video_processor.cpp:264-275 | For a frame in the target format: sent as it is if and only if it lies as NDI expects, otherwise repacked; either way NDI reads exactly the source's picture, and no memory outside the new buffer changes. |
| VideoTimestamps.VideoProcessor.constructor | src/av/video_processor.cpp:201-202 | A new processor has no position. |
| VideoTimestamps.VideoProcessor.Process | src/av/video_processor.cpp:421-433 | A frame gets its own timestamp, or follows on from the one before; its duration moves the position. |
| VideoTimestamps.VideoProcessor.Emit | src/av/video_processor.cpp:303-310 | Output time and duration, and the fallback position for frames without a timestamp. |
| VideoTimestamps.StampIsTrue | src/av/video_processor.cpp:303-310 | A frame is stamped with its best-effort timestamp, or else its plain one, and lasts its duration, or else the nominal period, each to the nearest microsecond. |
| VideoTimestamps.TimelessFrameFollowsOn | src/av/video_processor.cpp:421-428 | A frame without a timestamp starts exactly where the one before it ends, whatever that one had. |
| VideoTimestamps.TimelessVideoDoesNotDrift | src/av/video_processor.cpp:421-428 | Frames without timestamps are stamped within half a microsecond of the exact sum of the durations before them, however many there are. |
| VideoTimestamps.NominalDurationDrift | src/av/video_processor.cpp:426-428 | Timed by the nominal rate, n frames are off by at most n half ticks, and exact if and only if a frame period is a whole number of ticks. |
| FrameLifetime.Sender.constructor | src/ndi/sender.cpp:15-39 | A new sender has nothing in flight. |
| FrameLifetime.Sender.SendVideo | src/ndi/sender.cpp:46-62 | Afterwards NDI may read the new frame only, the slot holds it, and the previous one is released. |
| FrameLifetime.Sender.FlushVideo | src/ndi/sender.cpp:64-68 | Afterwards NDI may read nothing and the frame is released. |
| FrameLifetime.Sender.Close | src/ndi/sender.cpp:41-44 | The instance is destroyed only when NDI reads nothing. |
| FrameLifetime.StepInv | src/ndi/sender.cpp:41-68 | Every allocation, drop, send, flush and pool replacement keeps: each buffer has one owner or waits in the current pool; live memory is exactly those; NDI may read exactly the frame in flight and, during a call, the one being passed. |
| FrameLifetime.RunInv | src/ndi/sender.cpp:41-68 | The same in every state of every run. |
| FrameLifetime.NdiReadsOnlyTheSendersFrames | src/ndi/sender.cpp:41-68 | In every run, whatever NDI may read belongs to the sender, and the next step neither frees nor reissues it nor gives it to code that writes frames. |
| FrameLifetime.AllocatedBufferIsUnused | src/av/video_processor.cpp:224-236 | A buffer from the pool had no owner, is none NDI may read, and has room for the layout and its padding, even right after the pool was replaced. |
| FrameLifetime.NothingLeaks | src/av/video_processor.cpp:227-236 | With sender, frames and processor gone no buffer is left, whichever pool it came from. |
| FrameLifetime.SendTakesThreeSteps | src/ndi/sender.cpp:46-62 | Begin, return and store together do what SendVideo promises. |
| FrameLifetime.FlushTakesThreeSteps | src/ndi/sender.cpp:64-68 | The three steps of a flush do what FlushVideo promises, and the instance may be destroyed then. |
| FrameLifetime.ReleasedBuffersAreReusedOrFreed | src/av/video_processor.cpp:227-236 | In every run a buffer whose last reference goes can be issued again, without new memory, if its pool is still in use; otherwise it is freed at once. |

## Left out

- Filter graphs, swscale, GPU download and resampling: library calls. Conversion is modelled for frames already in the target format, audio for the passthrough path, and the pipeline hands on one video frame per decoded frame.
- FFmpeg's demuxers and decoders: they deliver and hold whatever the contracts in `Input` and `Decoding` allow. Any Receive may fail; counting the errors (`src/av/decoder.cpp`) appears only as a thread that may fail at any step.
- Audio frames without samples, rate or channels: `AudioProcessor` ignores them as the source does, but in `Pipeline` every received audio frame becomes a block.
- Opening inputs, choosing streams, option parsing, logging, statistics output, loading the NDI runtime, connection counts and metadata: no properties of interest here.
- Integer overflow: timestamps and sizes are mathematical integers. Aspect ratios and frame rates passed on to NDI are not modelled.
- Operating-system timing: how long a thread sleeps is left to the schedule. The two clocks are read at one instant, and UTC is taken to be after 1970 wherever timecodes are compared.
- Threads in `Pipeline` do not spend time asleep on condition variables: `WakeUps` and `StartBarrier` cover that separately.
- PushFor is part of the queue's model, but no thread of the pipeline uses it.
- PipelineTiming.AudioTimecodesNeverGoBackward: excludes runs with an overlap, because the claim is false of some of them; PipelineRaces.AudioCanGoBack says exactly which configurations have such runs.
- LoopTimeline.PassesTile: later passes are taken to present nothing from before the first pass's start, as the source's pass length does.
- Input.MediaInput.Read: waiting between attempts to read is left out.
- Repacking.Convert: the pool's buffer is an address the caller provides; FrameLifetime shows that such a buffer is unused.
