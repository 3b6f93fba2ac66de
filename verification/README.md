# Verification model of the ROS image RTP adapter

The adapter turns ROS images into H264/RTP through supervised child processes. This project
models the parts whose correctness depends on interleaving, on state kept across calls, or on
exact byte positions, and proves what they promise.

## How the model is laid out

**One encoder** (`EncoderProtocol`). Any number of threads start, stop and write to one encoder
object. An event is one state-lock critical section, one acquisition of the lifecycle or write
lock, or one native action (reaping a child, waiting for a writer, joining readers, writing a
frame) that succeeds or fails freely; a timed acquisition may run out whenever another thread is in
the way, and never otherwise. `Apply` gives the
effect of an enabled event, so every interleaving is a sequence of enabled events. `EncoderProofs`
holds the invariant of all interleavings and the safety results, with stops that may overlap.
`EncoderPairing` adds what holds when stops take turns, above all that output units carry their own
stamps. `EncoderOverlap` is a concrete run showing that this needs stops to take turns.
`EncoderInterface` says what a caller of the encoder can see. `EncoderOutcomes` says what every normal
return of a call means, gives every reason for a failure, and shows that calls go on and come to an end.

**The runtime** (`RuntimeProtocol`). Channels, pumps, consumer demand, source control operations,
online configuration, start and shutdown. Every channel owns an encoder that runs the protocol
above, so the runtime's transition locks are what makes stops take turns, and the encoder results
hold in every run of the runtime without that assumption. A submitted frame is what validation makes
of a published message. A step either computes the next value of one channel and one program point,
or works on the global flags alone; the proofs follow that split. `RuntimeChannels` treats one
channel, a thread that steps on it, and any other thread; `RuntimeInvariant` lifts this to all
threads and channels; `RuntimeShutdown` adds the phases of a shutdown. Results about order and data are
in `RuntimeRelease`, `RuntimeQueues`, `RuntimeStamps`, `RuntimeActivity`, `RuntimeConfiguration`,
`RuntimeChildren`, `RuntimePumps` and `ChannelRefinement`. How each operation ends, and that it has then
done what it was asked for, is in `RuntimeOutcomes`, `RuntimeRequests`, `RuntimeConfigure`, `RuntimeStops`
and `RuntimeProgress`. `RuntimeLostPump`, `RuntimeRetry`, `RuntimeStranded` and `RuntimeEarlyStop` are
about the properties that turned out to be false.

**The locks** (`LockOrder`). Transition, channel, lifecycle and write locks are held across events.
The frame condition, state locks and metadata locks are held inside one event; `LockOrder` opens
those sections up, so that agents take the inner locks one at a time with other agents in between,
and shows that no run is lost by that.

**Sequential parts.** `AnnexB` is the incremental framer as a class, proved against a cut of the
whole stream; `AnnexBChunking` says what that cut means and how the size bound depends on chunking.
`FrameQueue` is the doubly bounded queue, `FrameWriter` the pipe write loop, `FreshCapture` the wait
for a fresh frame, `RawFrames` the removal of row padding and the byte budget, `Caps` the expansion
of caps templates, and `Configuration` the check of a settings patch. The byte-stream format is that
of ITU-T H.264, Annex B, section B.1; the delimiter is nal_unit_type 9 of section 7.4.1 with
nal_ref_idc 0, the header byte 0x09.

## What turned out to be false

- Overlapping stops of one encoder break stamp pairing. `EncoderOverlap.OverlappingStopsMispair`
  constructs a run in which the newer stop finishes first, a start launches a child before the older
  stop takes the lifecycle lock, and a writer then leaves its stamp in the queue of the next child.
  `EncoderOverlap.PairingNeedsSerialStops` gives the exact condition on the number of stops in
  progress, and the runtime keeps to it.
- Acceptance by the framer depends on chunking: up to four bytes of an incomplete delimiter count
  against the bound. `AnnexBChunking.OneShotIsNotEnough` is the witness, and
  `EveryChunkingAcceptedIffRobust` gives the exact condition on the stream.
- A deactivation that is retried and returns normally need not end `stopping`. When it finds the channel
  inactive with a stopped encoder it returns at once (runtime.py:414-417), so the flag that a failed
  attempt left behind stays. `RuntimeActivity.SuccessfulSwitch` gives the exact condition, and
  `RuntimeStranded.StrandedUntilShutdown` what follows: no activation succeeds until a shutdown comes to
  take the channel down. `RuntimeRetry.RetryLeavesStopping` is a run from the initial state, in which
  a pump that was woken before an earlier deactivation holds the channel lock while the five-second wait
  for it runs out.
- A started runtime can have an active channel without a pump: the pump thread ends when a write fails and the
  channel cannot be set inactive, and a later deactivation and activation start no other.
  `RuntimeLostPump.ActiveWithoutPump` is a run from the initial state, `RuntimePumps.PumpMissingIffGaveUp`
  gives the exact condition on a run, and `RuntimePumps.NothingHandedWithoutPump` the consequence.
- A stop that finds nothing to stop does not look at the channels, only at the encoders (runtime.py:267-269).
  Before the first start a channel can be active with a stopped encoder, while a deactivation is under way,
  and the stop returns at once. `RuntimeEarlyStop.StopOverlooksChannel` is such a run;
  `RuntimeEarlyStop.SilentIffStartedBefore` shows that an earlier start is what rules it out.
- Replacing caps markers one after the other is a single longest-match pass only because `@fps_fraction`
  comes before `@fps`; `Caps.OrderMatters` gives the two different results for every such pair.

## Model

| member | source | states |
|---|---|---|
| EncoderProofs.StepKeepsInv | ros_image_rtp_adapter/encoder.py:149-312 | every step of every thread keeps lock ownership, the single child, and what each program point has achieved |
| EncoderProofs.AtMostOneChild | ros_image_rtp_adapter/encoder.py:108-115 | in every reachable state at most one child is unreaped, and it is the owned one |
| EncoderProofs.LaunchesAfterQuiescence | ros_image_rtp_adapter/encoder.py:251-312 | a child is created only once every earlier child is reaped and every reader has ended, and it becomes the owner |
| EncoderProofs.NormalStartOwnsChild | ros_image_rtp_adapter/encoder.py:149-166 | a start that returns normally owns a child that is not reaped, unless a stop was requested meanwhile |
| EncoderProofs.NormalStopQuiesces | ros_image_rtp_adapter/encoder.py:177-196 | a stop that returns normally leaves every child reaped, no reader and no owner; the newest one leaves the encoder stopped |
| EncoderOutcomes.NormalRestartRenews | ros_image_rtp_adapter/encoder.py:276-291 | a restart that no stop has overtaken and that returns normally, after a failed write as for a start, owns a new unreaped child with all of its readers, and refuses no start |
| EncoderOutcomes.NormalWriteReturns | ros_image_rtp_adapter/encoder.py:198-220 | a write returns normally only if there is nothing to write to, the live child took the frame, the child was replaced or is being stopped, a stop overtook the restart, or the restart replaced the child |
| EncoderOutcomes.NormalStartReturns | ros_image_rtp_adapter/encoder.py:149-166 | a start returns normally only with its child running or launched, or with a stop in between |
| EncoderOutcomes.FailsForAReason | ros_image_rtp_adapter/encoder.py:149-312 | a step makes a call fail if and only if there is one of the listed reasons: a missing stamp or a stalled output, a lifecycle in transition, an incomplete stop, a failed launch, or a child, writer or reader that does not end in time |
| EncoderOutcomes.FailedLaunchLeaves | ros_image_rtp_adapter/encoder.py:251-274 | a launch that fails before there is a child can be tried again; one that fails afterwards leaves the child to be stopped first |
| EncoderOutcomes.StampIsRecorded | ros_image_rtp_adapter/encoder.py:567-571 | a preview frame that is not refused has its stamp recorded as the newest of the owned child |
| EncoderOutcomes.CallsGoOn | ros_image_rtp_adapter/encoder.py:149-312 | a thread inside a call can take its next step unless it waits for a lock, and the step does not fail unless something named is in its way |
| EncoderOutcomes.CallsAdvance | ros_image_rtp_adapter/encoder.py:149-312 | every step of a call brings it forward, so a call takes at most eleven steps of its own |
| EncoderProofs.FailedTakedownKeepsOwner | ros_image_rtp_adapter/encoder.py:297-347 | a failed reap, wait or join keeps child, readers and refusal of starts, and gives the lifecycle lock back |
| EncoderProofs.NoLaunchWhileStopping | ros_image_rtp_adapter/encoder.py:152-196 | from a stop request until the newest stop returns normally no child is launched, not even by a restart already under way, through any failures |
| EncoderPairing.StepKeepsPaired | ros_image_rtp_adapter/encoder.py:198-220 | with stops taking turns every step keeps writers fenced from other children and units paired with stamps |
| EncoderPairing.DeliveriesCarryTheirStamps | ros_image_rtp_adapter/encoder.py:567-637 | unit j delivered for a child carries stamp j written to that child, and at most 64 stamps wait |
| EncoderPairing.QueueNeverUnderflows | ros_image_rtp_adapter/encoder.py:614-623 | a reader that found its child current always finds a stamp, the next one of that child |
| EncoderPairing.LaunchesWithoutWriters | ros_image_rtp_adapter/encoder.py:297-301 | when a replacement is launched no writer is past admission: one may hold the write lock, but has not yet chosen a child |
| EncoderOverlap.OverlappingStopsMispair | ros_image_rtp_adapter/encoder.py:177-196 | a legal run with two overlapping stops, and never more, after which a unit carries a stamp written to another child; the late write itself fails on the closed pipe |
| EncoderOverlap.PairingNeedsSerialStops | ros_image_rtp_adapter/encoder.py:177-196 | all runs with at most n stops in progress at once pair their units with their own stamps if and only if n is at most one |
| EncoderInterface.InternalStep | ros_image_rtp_adapter/encoder.py:149-312 | internal steps keep both invariants, move no thread in or out, and leave a stopped encoder stopped unless someone is inside start |
| EncoderInterface.StoppedIsQuiet | ros_image_rtp_adapter/encoder.py:134-143 | an encoder without an owner has every child reaped and no reader, alive or recorded |
| FrameWriter.WriteFrame | ros_image_rtp_adapter/encoder.py:206-214 | the child receives the whole frame exactly when the write succeeds, else a prefix; it gives up at the first write that the pipe refuses and never before; the loop ends for every pipe |
| AnnexB.SearchIsLeftmost | ros_image_rtp_adapter/h264.py:4-4 | the delimiter search misses no match of either form |
| AnnexB.MatchIsNextStart | ros_image_rtp_adapter/h264.py:28-34 | what a resumed search finds is the next canonical delimiter start of every stream that continues the buffer |
| AnnexB.NoDelimiter | ros_image_rtp_adapter/h264.py:29-31 | after a miss the search may resume at the four-byte overlap, whatever bytes follow |
| AnnexB.EmittedStays | ros_image_rtp_adapter/h264.py:38-38 | units already emitted are units of every continuation of the stream |
| AnnexB.AccessUnits.Advance | ros_image_rtp_adapter/h264.py:27-42 | one round cuts off a unit of the stream, finds an oversized one, or shows the buffer is the unfinished unit; every search is counted, the refused one included |
| AnnexB.AccessUnits.Feed | ros_image_rtp_adapter/h264.py:24-45 | refuses exactly the streams with an oversized unit, else returns the units completed; either way the bytes scanned in all are at most the stream plus four a feed |
| AnnexB.AccessUnits.Finish | ros_image_rtp_adapter/h264.py:47-52 | completes the whole-stream split and resets the framer |
| AnnexB.Drain | ros_image_rtp_adapter/encoder.py:627-634 | for every chunking: success exactly when no feed is oversized, and then the units are the whole-stream split; before a failure, a prefix of it |
| AnnexBChunking.SplitIsOnlySplit | ros_image_rtp_adapter/h264.py:9-16 | the split is the only way to cut a stream into consecutive stretches with one delimiter each that start at their delimiter |
| AnnexBChunking.SplitConserves | ros_image_rtp_adapter/h264.py:35-52 | units concatenate to the stream exactly when it holds a delimiter or is empty, and each holds exactly one delimiter |
| AnnexBChunking.PrefixesFitIffRobust | ros_image_rtp_adapter/h264.py:36-44 | every prefix is within the bound exactly when the stream is robust |
| AnnexBChunking.EveryChunkingAcceptedIffRobust | ros_image_rtp_adapter/h264.py:36-44 | every chunking is accepted exactly when the stream is robust |
| AnnexBChunking.MarginSuffices | ros_image_rtp_adapter/h264.py:5-6 | acceptance in one feed with four spare bytes in every non-final unit makes every chunking succeed |
| AnnexBChunking.OneShotIsNotEnough | ros_image_rtp_adapter/h264.py:43-44 | a stream accepted in one feed that some chunking refuses |
| AnnexBChunking.OneShotIsEasiest | ros_image_rtp_adapter/h264.py:36-44 | what any chunking accepts, one feed accepts |
| FrameQueue.OfferKeepsLongestFit | ros_image_rtp_adapter/runtime.py:526-532 | one enqueue keeps the queue the longest suffix of the history that fits both bounds |
| FrameQueue.QueueIsLongestFit | ros_image_rtp_adapter/runtime.py:523-532 | after any run of enqueues the queue is the longest suffix that fits depth and bytes |
| FrameQueue.AppendIsOffer | ros_image_rtp_adapter/runtime.py:531-532 | after the eviction loop the bounded deque appends without an implicit drop, and the byte count is exact |
| FrameQueue.EncoderChannel.Enqueue | ros_image_rtp_adapter/runtime.py:523-532 | an active channel's queue becomes the specified one and every evicted frame is counted; otherwise nothing changes |
| FrameQueue.EncoderChannel.MakeRoom | ros_image_rtp_adapter/runtime.py:526-530 | the eviction loop drops exactly the specified frames |
| FrameQueue.EncoderChannel.Take | ros_image_rtp_adapter/runtime.py:546-550 | the pump gets the oldest frame and the byte count stays exact |
| FreshCapture.FrameStore.Enqueue | ros_image_rtp_adapter/runtime.py:517-522 | frames are numbered as they are retained, and none is accepted while closing |
| FreshCapture.FrameStore.Capture | ros_image_rtp_adapter/runtime.py:588-602 | a fresh capture returns the newest frame, accepted after the request, and comes back empty exactly when none arrives before the runtime starts to close or the deadline passes |
| RawFrames.PackingRemovesPadding | ros_image_rtp_adapter/frames.py:105-154 | byte c of row r of an accepted frame is byte r·step + c of the input, and the length is width·height·bytes per pixel, in both branches |
| RawFrames.CompleteImagesAreAccepted | ros_image_rtp_adapter/frames.py:105-141 | an image is accepted, padded or not, if and only if encoding and size are the expected ones and the data holds all rows with all of their pixels |
| RawFrames.JoinRowsUnpads | ros_image_rtp_adapter/frames.py:145-148 | joining row slices keeps exactly the pixel bytes |
| RawFrames.ContiguousUnpads | ros_image_rtp_adapter/frames.py:142-143 | without padding a prefix is the same thing |
| RawFrames.PaddingIsIrrelevant | ros_image_rtp_adapter/frames.py:141-154 | the packed frame does not depend on padding bytes or on bytes after the last row |
| RawFrames.QueuedFramesFitBudget | ros_image_rtp_adapter/runtime.py:450-502 | with validated geometry every frame that reaches a queue is non-empty and within the byte bound |
| RawFrames.SubmittedFits | ros_image_rtp_adapter/runtime.py:434-502 | whatever message is published, with validated settings what reaches a queue is non-empty and within the byte bound |
| Caps.SequentialIsSimultaneous | ros_image_rtp_adapter/encoder.py:872-874 | sequential replacement equals one left-to-right pass that never looks at inserted text, for every template |
| Caps.FirstIsLongest | ros_image_rtp_adapter/encoder.py:866-871 | in the order of the table the first matching marker is the longest |
| Caps.OrderMatters | ros_image_rtp_adapter/encoder.py:866-871 | when one marker extends another, the two orders give different texts |
| Caps.MarkersExpand | ros_image_rtp_adapter/encoder.py:865-875 | in plain text every marker stands for its own text: width, height, frame rate fraction, frame rate |
| Caps.ExpandedCaps | ros_image_rtp_adapter/encoder.py:865-875 | the expansion loop computes the single longest-match pass |
| Configuration.AcceptedPatches | ros_image_rtp_adapter/runtime.py:326-341 | exactly which patches are accepted; no accepted patch changes which fields are mutable, nor the bitrate of a profile with its own |
| Configuration.RefusedPatches | ros_image_rtp_adapter/runtime.py:326-341 | a patch is refused for its first field that may not change online, as one that takes a restart or as unknown; without such a field, for an invalid value |
| Configuration.ContainsOccurrence | ros_image_rtp_adapter/runtime.py:367-374 | a profile leaves the bitrate to the settings if the placeholder occurs anywhere in it |
| Configuration.Applied | ros_image_rtp_adapter/runtime.py:338-339 | a field mentioned once gets its new value |
| Configuration.Untouched | ros_image_rtp_adapter/runtime.py:338-339 | a field that is not mentioned keeps its value |
| RuntimeInvariant.StepKeepsConsistent | ros_image_rtp_adapter/runtime.py:376-432 | every step keeps locks, program points and encoder entry of all threads in agreement, and every encoder sound |
| RuntimeShutdown.StepKeepsInv | ros_image_rtp_adapter/runtime.py:234-321 | every step keeps the phases of start and shutdown in order, through failures and retries |
| RuntimeShutdown.DeactivateBringsDown | ros_image_rtp_adapter/runtime.py:304-311 | the end of a deactivation while closing leaves the channel inactive, its encoder stopped, and no thread about to enter it |
| RuntimeRelease.EndpointReleasedLast | ros_image_rtp_adapter/runtime.py:264-288 | the endpoint is given up only with no source operation admitted, all encoders stopped and all pumps exited; control only after that |
| RuntimeRelease.NoLaunchUntilRestart | ros_image_rtp_adapter/runtime.py:276-288 | from the release of the endpoint until the next start no child is launched on any channel, in every continuation |
| RuntimeStops.StopBegins | ros_image_rtp_adapter/runtime.py:264-273 | a stop comes back at once if and only if there is nothing to stop; else the runtime is closing and the caller owns its lifecycle |
| RuntimeStops.NormalStopLeavesNothing | ros_image_rtp_adapter/runtime.py:264-288 | a stop that returns normally leaves nothing to stop: no control, endpoint, operation or pump, every encoder stopped; if it had anything to do, every channel is down |
| RuntimeStops.StopEndsForAReason | ros_image_rtp_adapter/runtime.py:264-321 | a stop ends with its last step, or fails for one of five reasons and keeps every owner; every other step of it brings it forward |
| RuntimeStops.StartEndsForAReason | ros_image_rtp_adapter/runtime.py:234-262 | a start turns to stopping again if and only if creating the control server, starting a pump or listening failed; else it ends with the runtime up and its endpoint held |
| RuntimeStops.StoppedSourceIsSilent | ros_image_rtp_adapter/runtime.py:264-269 | over every run with a start in it, when there is nothing to stop every channel is inactive and not stopping |
| RuntimeEarlyStop.StopOverlooksChannel | ros_image_rtp_adapter/runtime.py:264-269 | a run without a start in which a stop finds nothing to stop although a channel is active |
| RuntimeEarlyStop.SilentIffStartedBefore | ros_image_rtp_adapter/runtime.py:264-269 | all runs that end with nothing to stop end with silent channels if and only if they are required to contain a start |
| RuntimeProgress.ThreadsGoOn | ros_image_rtp_adapter/runtime.py:234-573 | in every state that meets the invariant each thread at work can take its next step, unless it waits for a lock without a timeout or, as a pump, for a frame |
| RuntimeOutcomes.SwitchFailsForAReason | ros_image_rtp_adapter/runtime.py:376-432 | a switch ends in failure if and only if it would activate a source or channel that is stopping, its encoder's start was undone, or the transition, the stop, or the wait for the pump failed |
| RuntimeOutcomes.StartIsUndone | ros_image_rtp_adapter/runtime.py:419-427 | an activation stops the encoder again if and only if its start failed or left no running child |
| RuntimeOutcomes.NothingToSwitch | ros_image_rtp_adapter/runtime.py:410-417 | a switch returns at once if and only if the channel already is as wanted, with a running child or with a stopped encoder |
| RuntimeOutcomes.SwitchesAdvance | ros_image_rtp_adapter/runtime.py:376-432 | every step of a switch brings it forward or ends it |
| RuntimeOutcomes.ReplacementFailsForAReason | ros_image_rtp_adapter/runtime.py:342-362 | a replacement is given up if and only if the source is stopping, the channel is not at rest, or preflight or stop failed; else it goes on to the new settings |
| RuntimeOutcomes.JobsAdvance | ros_image_rtp_adapter/control_socket.py:214-270 | every step of an admitted operation brings it forward, and the last ends it |
| RuntimeOutcomes.PumpHandsOver | ros_image_rtp_adapter/runtime.py:544-551 | the pump hands over the oldest frame with its own stamp if and only if the channel is active, not stopping and has one |
| RuntimeOutcomes.AcceptedExactly | ros_image_rtp_adapter/runtime.py:504-534 | a submission is accepted if and only if it is valid, the runtime is not closing and it has the stamp it needs; it then is the newest frame of every active channel, and nothing else changes |
| RuntimeRequests.RequestIsApplied | ros_image_rtp_adapter/control_socket.py:240-262 | over every run, from the step that asks for a channel to be active or not, by a consumer, a control operation, a faulty pump or a shutdown: a normal return has applied exactly that, on that channel |
| RuntimeQueues.StepKeepsData | ros_image_rtp_adapter/runtime.py:517-554 | every step keeps queue order, both bounds, the exact byte count and the conservation of offered frames |
| RuntimeQueues.GenuineFits | ros_image_rtp_adapter/runtime.py:434-502 | every submission of a run is bounded by validation, not by the queue |
| RuntimeQueues.QueuesInOrder | ros_image_rtp_adapter/runtime.py:504-554 | over every run fed by published messages: frames handed to an encoder have increasing numbers, pending bytes are exact and capped, a queue holds at most 32 frames or one, offered = out + dropped + pending + cleared + failed + in flight |
| RuntimeQueues.HandedFramesAreFresh | ros_image_rtp_adapter/runtime.py:544-551 | a frame on its way into an encoder was accepted during the current activation and is newer than all before it |
| RuntimeStamps.PumpBringsItsStamp | ros_image_rtp_adapter/runtime.py:112-116 | in every reachable state a pump inside the encoder brings the stamp that the frame handed over last was submitted with |
| RuntimeStamps.UnitsCarryMessageStamps | ros_image_rtp_adapter/encoder.py:611-637 | in every run each delivered unit carries the stamp of the message in which a frame was submitted; the frames were handed to the encoder, and each child's are in the order of their acceptance |
| RuntimeActivity.Turns | ros_image_rtp_adapter/runtime.py:376-432 | only the last step of a switch changes activity, and only a completed deactivation ends stopping |
| RuntimeActivity.SuccessfulSwitch | ros_image_rtp_adapter/runtime.py:408-432 | a switch that returns normally has applied the wanted activity; a deactivation leaves a stopped encoder, and leaves the channel stopping exactly when it took the early return on a channel that a failed attempt had left stopping |
| RuntimeRetry.RetryLeavesStopping | ros_image_rtp_adapter/runtime.py:388-417 | a run from the initial state to such an early return, in which the wait for the channel lock runs out while the pump holds it |
| RuntimeStranded.StepKeepsStranded | ros_image_rtp_adapter/runtime.py:408-417 | a channel that is inactive and stopping with a stopped encoder, and that no thread is taking down, gets out of there if and only if a shutdown takes its transition lock |
| RuntimeStranded.StrandedUntilShutdown | ros_image_rtp_adapter/runtime.py:408-417 | from such an early return until a shutdown comes to take the channel down it stays inactive and stopping, with a stopped encoder, whatever is asked of it |
| RuntimeActivity.DeactivatesWhenQuiet | ros_image_rtp_adapter/runtime.py:381-395 | a channel turns inactive only with its encoder stopped, every child reaped, every reader ended and its pump not writing |
| RuntimeActivity.ActivatesWhenEmpty | ros_image_rtp_adapter/runtime.py:418-429 | a channel turns active only with an empty queue and no write in flight |
| RuntimeActivity.StoppingBlocksActivation | ros_image_rtp_adapter/runtime.py:412-413 | while a channel is stopping no thread is past the check that admits an activation or a replacement |
| RuntimeActivity.FailedDeactivationHolds | ros_image_rtp_adapter/runtime.py:376-395 | from the stop request of a deactivation until one succeeds the channel stays stopping and no child is launched for it, whatever fails |
| RuntimeConfiguration.StepKeepsConfigured | ros_image_rtp_adapter/control_socket.py:214-240 | every step keeps the history of applied patches and the agreement of settings, encoder and description |
| RuntimeConfiguration.ConfigurationIsCompareAndSet | ros_image_rtp_adapter/control_socket.py:226-240 | successful patches consume the revisions 1, 2, 3, ... once each, and the settings, the encoder's arguments and the description are their fold |
| RuntimeConfigure.SucceedsIffConfigurable | ros_image_rtp_adapter/runtime.py:342-362 | when a patch is about to be dispatched, its thread alone can carry it through, replacing settings, encoder and description and consuming the revision, if and only if it is accepted for the current revision and the channel is at rest with free locks; else its thread alone changes nothing |
| RuntimeConfiguration.SettingsChangeOnlyBySwap | ros_image_rtp_adapter/runtime.py:342-362 | settings change only by an accepted patch for the current revision, with the channel inactive and childless; other patches change nothing |
| RuntimeConfiguration.MutableFieldsAreFixed | ros_image_rtp_adapter/runtime.py:367-374 | over every run the set of mutable fields never changes |
| RuntimeChildren.NoOrphans | ros_image_rtp_adapter/runtime.py:342-362 | every unreaped child is the one its channel's current encoder owns; replaced encoders have no live child or reader |
| RuntimeChildren.InertStaysSame | ros_image_rtp_adapter/runtime.py:358-362 | nothing can happen any more in an encoder that has been replaced |
| RuntimeChildren.EveryUnitHasItsStamp | ros_image_rtp_adapter/encoder.py:611-637 | in every run of the runtime, unit j of every child of every encoder carries stamp j written to it |
| RuntimePumps.PumpComesAndGoes | ros_image_rtp_adapter/runtime.py:556-573 | a pump thread ends in two ways only: told to stop by a shutdown, or back from a failed write with its channel not set inactive |
| RuntimePumps.PumpMissingIffGaveUp | ros_image_rtp_adapter/runtime.py:564-573 | in every reachable state of a runtime that is started and not closing, a channel has no pump if and only if, since the pump was last started, the run holds the step at which it comes back from a failed write with its channel not set inactive |
| RuntimePumps.NothingHandedWithoutPump | ros_image_rtp_adapter/runtime.py:544-573 | as long as nothing starts its pump again, no frame of the channel reaches its encoder, through any submissions and activations |
| RuntimeLostPump.ActiveWithoutPump | ros_image_rtp_adapter/runtime.py:564-573 | a run from the initial state to an active channel, not stopping and with a running encoder, that has no pump in a started runtime |
| ChannelRefinement.Receive | ros_image_rtp_adapter/runtime.py:523-532 | the channel object follows the protocol when a frame arrives |
| ChannelRefinement.Follow | ros_image_rtp_adapter/runtime.py:376-432 | for every step of every thread on a channel, the object's own operations (begin stop, set active, take) bring its queue, flags and counts to where the protocol is |
| LockOrder.WaitsUpwards | ros_image_rtp_adapter/encoder.py:198-220 | an agent waits without a timeout only for a lock above every lock it holds, over all seven kinds of lock |
| LockOrder.NoCircularWait | ros_image_rtp_adapter/runtime.py:408-432 | a chain of waits has at most eight agents and never comes back to where it began |
| LockOrder.RunOpens | ros_image_rtp_adapter/runtime.py:342-362 | every run of the runtime is a run with its critical sections opened up |
| LockOrder.NoDeadlock | ros_image_rtp_adapter/runtime.py:544-554 | in no reachable state with open sections does a ring of threads, submitters, readers and observers wait on itself |

## Left out

- EncoderPairing.DeliveriesCarryTheirStamps: takes the codec's word for at most one access unit a frame, in order, and assumes stops that take turns; `RuntimeChildren.EveryUnitHasItsStamp` discharges the second assumption, the first is about a foreign program.
- EncoderProofs.AtMostOneChild: a child that exits is reaped when it exits, as `poll` and `wait` observe it; zombies between exit and `wait` are not distinguished.
- The lifecycle objects `SubprocessEncoder`, `ImageRtpAdapterRuntime` and `SourceControlServer` as classes: their methods are not atomic and run in many threads at once, so they are transition systems on values whose events are their critical sections; aliasing of the encoder object is therefore not expressed, except that a replaced encoder is kept and proved inert.
- Clocks: a timed wait may run out at any moment while what it waits for is missing, so results hold for all deadlines; that a deadline is eventually met is not stated.
- Fairness: that a thread can take its next step is proved, not that it is scheduled.
- The state locks taken by the preflight of a start: it takes each alone, one after the other, before anything else happens, which is a `Look` of its thread in `LockOrder`; `StartRuntime` itself takes no inner lock.
- The admission condition of the control server: its sections take no other lock, so it is not among the ranked locks.
- The lifecycle lock of the runtime while a thread waits for it: a waiting start or stop holds nothing else and stays idle until it takes its turn.
- The frame identity of a message: a message whose frame_id does not match the settings counts as refused.
- The XRPC runtime, host, leases, routes and socket files: the endpoint is a flag that is held or released, and the RPC owner goes with control.
- Request field checks, status, phase and error texts, desired_active, and the capture and keyframe operations beyond their admission.
- Reads by a describe or status request in the middle of a configuration, which may see a host before its port.
- The public `pump` method, which delivers from the caller's thread; only the pump threads are modelled.
- Feeding a framer again after it has refused a chunk; the encoder ends the child instead.
- Whitespace and case folding of encodings and formats, JPEG decoding, and the formatting of numbers, which enters `Caps` as texts that begin with no letter or underscore and hold no at sign.
- Address parsing: a host carries the verdict of the parser. Checks of settings that a patch cannot change are taken as passed.
- FFmpeg and GStreamer argument lists, preflight inspection, settings parsing, ROS wrappers and launch files: configuration without a property across calls.
- Closing pipes after a join is part of the same success or failure as the join.
