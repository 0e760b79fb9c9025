# Verification of the Iris video driver

A Dafny model of the parts of the Qualcomm Iris V4L2 driver that carry its state, and proofs about them.
`dafny verify dfyconfig.toml` checks all of it.  The paths below start at the top of the repository.

| files | what they model |
|---|---|
| `Bytes`, `HfiQueue`, `HfiTraffic` | the ring of variable-size packets shared with the firmware, against an abstract packet queue, and the loop that drains it |
| `IrisState`, `Gen1Protocol`, `Gen1Session` | the states and flags of a decoder session, its flushes, drains, resolution changes and LAST, as steps between lock releases, and the class whose methods are those steps |
| `Gen1Promises`, `Gen1Waking`, `Gen1Planes`, `Gen1Lives`, `Gen1Outcomes` | what those steps promise: over every run, to those who wait, about the two queues, over whole lives of a session, and section by section |
| `OutputOrder`, `CaptureBuffers` | who owns each capture buffer, and which frames a client sees while one of them may be held back |
| `Sums`, `Rates`, `CoreAdmission`, `CorePlacement`, `SharedRecovery` | which sessions are let in, when the core is recovered and what that means to a session, and on which of two cores a session runs |
| `CoreLifecycle` | starting, stopping, recovering and collapsing the SM8150 core, with unwinding, power counts and interrupt mask |
| `Gen2Message`, `Gen2Dispatch` | building, checking and walking Gen2 messages, and the order in which their packets are handled |
| `TimestampRing`, `RateVote`, `FrameLayout` | timestamp metadata, the input-rate vote, frame sizes |

How to read it.  What the code does step by step is a method of a class, or a method with the code's loop, and
its contract equates the new state with a function of the old one; the lemmas are about those functions and
about runs of them.  Firmware, hardware and kernel calls that may fail are parameters that say whether they do.
Each section under a lock is one step.  Numbers are unbounded except where 32 bits show: ring indices, the flush
count, measured rates and frame sizes.

Where the code does not do what one would expect of it, the model follows the code, and a lemma says exactly
when it does: a write that exactly fills the ring, or a read of an oversized packet, empties it
(`HfiTraffic.FirstInFirstOut`); an answer to a
flush that is not owed wraps the count (`Gen1Protocol.CountStaysExact`, `Gen1Promises.LateAnswerWraps`); two who
wait for flushes can be left with one wake-up (`Gen1Waking.EveryWaiterIsWoken`, `Gen1Waking.StrandedStart`); a
recovery drops the request of a session that stays in ERROR (`Gen1Promises.RecoveryLeavesSessionInError`); the state changes of stream-on
and stream-off report success also on their way to ERROR (`Gen1Promises.StreamonNeverReportsFailure`); input
stream-on forgets a held frame (`OutputOrder.ForgettingLosesAFrame`); LAST on a queued buffer overtakes the held
frame (`OutputOrder.FramesAfterLast`); a buffer that cannot be given to the firmware is handed back and stays
listed (`CaptureBuffers.CaptureQueue.Queue`); a frame held while stream-off waits stays in the slot after its
buffer has gone back to the client (`CaptureBuffers.StaleSlotExactly`, `CaptureBuffers.StaleSlotFailsNextFrame`);
frames that grow after admission break its limits (`CoreAdmission.NeverOverAdmitted`); a start in ERROR strands
everything, a failed power-on still counts as powered, two of its stages do not unwind, and the idle worker
collapses a core in DEINIT (`CoreLifecycle.StepKeepsConsistent`, `CoreLifecycle.CollapseInDeinitUnderflows`,
`CoreLifecycle.CollapseInDeinitPowersTwice`); power that comes on under a late handler, or goes off after it failed to
come on, unbalances the interrupt mask (`CoreLifecycle.MaskStaysBalanced`, with the two runs
`CoreLifecycle.LateWatchdogHandlerUnmasks` and `CoreLifecycle.FailedResumeLeavesRunningCoreMasked`); a missed
timestamp lookup reads behind its table after each full round (`TimestampRing.IndexAfter`, where the model gives
nothing); on the legacy platform the order of input timestamps that spread over more than a second changes the
measured rate (`RateVote.OrderMattersExactly`); P010 sizes do not match the line length from most visible widths
(`FrameLayout.P010FromVisibleWidth`).

## Model

| member | source | states |
|---|---|---|
| `HfiQueue.UniqueParse` | kernel-overlay/drivers/media/platform/qcom/iris/iris_hfi_queue.c:87-140 | The bytes in the ring determine the packets: two lists of self-sized packets with the same bytes are the same list. |
| `HfiQueue.StoreExtends` | kernel-overlay/drivers/media/platform/qcom/iris/iris_hfi_queue.c:59-79 | Laying a packet down at the write index, split at the wrap or not, appends exactly it to the unread bytes and leaves those before it alone, provided it is strictly smaller than the room. |
| `HfiQueue.ReadSplits` | kernel-overlay/drivers/media/platform/qcom/iris/iris_hfi_queue.c:117-135 | Moving the read index on by n bytes, round the wrap or not, takes exactly the first n unread bytes. |
| `HfiQueue.IfaceQueue.constructor` | kernel-overlay/drivers/media/platform/qcom/iris/iris_hfi_queue.c:241-265 | A new queue is empty and asks to be told of messages. |
| `HfiQueue.IfaceQueue.Write` | kernel-overlay/drivers/media/platform/qcom/iris/iris_hfi_queue.c:42-85 | A packet is accepted exactly if it is no larger than the room; below that the unread bytes grow by exactly the packet; a packet of exactly that size empties the ring; a refused one changes nothing. |
| `HfiQueue.IfaceQueue.Read` | kernel-overlay/drivers/media/platform/qcom/iris/iris_hfi_queue.c:87-140 | The oldest packet comes out byte for byte and the rest stays; a size above 4096 discards everything unread; a size of zero or an empty ring moves nothing; after all but a size of zero the header of a message queue asks to be told of the next message. |
| `HfiTraffic.Exchange` | kernel-overlay/drivers/media/platform/qcom/iris/iris_hfi_queue.c:42-140 | On any interleaving of writes and reads the ring gives, outcome by outcome, what the abstract packet queue gives, and holds what it holds. |
| `HfiTraffic.FirstInFirstOut` | kernel-overlay/drivers/media/platform/qcom/iris/iris_hfi_queue.c:50-79 | Over any run of well-formed packets, what was there and what was accepted equals what was delivered and what is left, in order, if and only if no write fills the ring to the last byte and no read meets a packet above 4096 bytes. |
| `HfiTraffic.WhereDrainStops` | kernel-overlay/drivers/media/platform/qcom/iris/iris_hfi_gen1_response.c:1129-1138 | The drain loop delivers a prefix of the queued packets: all of them, or those up to the first one that is too big (the rest is dropped), or those up to a fatal one (the rest stays). |
| `HfiTraffic.ResponsePump.ResponseHandler` | kernel-overlay/drivers/media/platform/qcom/iris/iris_hfi_gen1_response.c:1129-1138 | The loop ends and hands over exactly the packets of that prefix, in order, and the ring keeps exactly the others; a core that still runs has an empty queue that asks to be told of the next message. |
| `HfiTraffic.ResponsePump.NextMessage` | kernel-overlay/drivers/media/platform/qcom/iris/iris_hfi_gen1_response.c:1129-1138 | The next message is in the buffer, and a message shorter than a header ends in zeros rather than in what the last one left. |
| `HfiTraffic.ResponsePump.MsgRead` | kernel-overlay/drivers/media/platform/qcom/iris/iris_hfi_queue.c:197-217 | A message is read only while the core runs; it is the oldest one, every failure reads as no data, and the queue then asks to be told of the next one. |
| `Bytes.WrapsAround` | kernel-overlay/drivers/media/platform/qcom/iris/iris_hfi_queue.c:50-58 | Index arithmetic in 32 bits keeps the remainder of 2^32. |
| `Bytes.WordIsLittleEndian` | kernel-overlay/drivers/media/platform/qcom/iris/iris_hfi_queue.c:107-110 | Words are read least significant byte first. |
| `Gen1Protocol.StepKeepsSound` | kernel-overlay/drivers/media/platform/qcom/iris/iris_hfi_gen1_response.c:231-324 | Every section run under the instance lock, whoever runs it, and every recovery of the core keeps the session sound: LAST marks within their change or drain, a change only with its LAST mark, a first sequence change only before capture streams, LAST delivered at most once, an open still in DEINIT, and in ERROR the request for recovery pending or the core cycled since. It keeps the flush count exact if and only if it is not an answer that is not owed. |
| `Gen1Protocol.EveryRunIsSound` | kernel-overlay/drivers/media/platform/qcom/iris/iris_utils.c:58-77 | The same holds at every lock release of every run from open on, with all other threads' sections and the core's recoveries in between wherever an operation waits. |
| `Gen1Protocol.CountStaysExact` | kernel-overlay/drivers/media/platform/qcom/iris/iris_hfi_gen1_response.c:1087-1089 | Over a run the flush count equals the answers owed, and nobody is woken while one is, all the way, if and only if no answer arrives that is not owed. |
| `Gen1Protocol.ArmingKeepsOrder` | kernel-overlay/drivers/media/platform/qcom/iris/iris_state.c:191-239 | Whenever a resolution change can be begun, it is marked LAST as well before the lock is released, except for a first sequence change. |
| `Gen1Protocol.FlushKeepsBalance` | kernel-overlay/drivers/media/platform/qcom/iris/iris_hfi_gen1_response.c:240-251 | All senders of a flush, also the one that does not always re-arm, leave the count equal to the flushes owed and no wake-up standing while one is. |
| `Gen1Protocol.SequenceChangedKeepsSound` | kernel-overlay/drivers/media/platform/qcom/iris/iris_hfi_gen1_response.c:257-324 | A sequence-change event, accepted, rejected or absorbed, keeps the session sound. |
| `Gen1Protocol.FilledKeepsSound` | kernel-overlay/drivers/media/platform/qcom/iris/iris_hfi_gen1_response.c:633-722 | A finished buffer, the end of the stream included, keeps the session sound. |
| `Gen1Protocol.StreamonOutputKeepsSound` | kernel-overlay/drivers/media/platform/qcom/iris/iris_common.c:97-159 | Capture stream-on, and the stream-off that unwinds a failed one, keep the session sound even though the flags were read before a wait. |
| `Gen1Protocol.StopStepKeepsSound` | kernel-overlay/drivers/media/platform/qcom/iris/iris_common.c:485-541 | Every section of stream-off and close keeps the session sound. |
| `Gen1Promises.AtEveryRelease` | kernel-overlay/drivers/media/platform/qcom/iris/iris_utils.c:58-77 | From open on, in every run and at every lock release: LAST at most once, LAST marks only with their change or drain, no change without its LAST mark, no first sequence change while streaming, a session whose open waits still in DEINIT or already in ERROR, and in ERROR a recovery requested or carried out since; flushes counted exactly and nobody woken early as long as every answer was owed. |
| `Gen1Promises.ErrorsAreRemembered` | kernel-overlay/drivers/media/platform/qcom/iris/iris_state.c:48-81 | Over any run ERROR is never left, and the recovery a session asks for when it enters ERROR is still requested at the end unless the core was power-cycled on the way. |
| `Gen1Promises.StepDooms` | kernel-overlay/drivers/media/platform/qcom/iris/iris_state.c:51-69 | Each single section that enters ERROR asks for recovery, none leaves ERROR, and only a power cycle of the core drops a request. |
| `Gen1Promises.RecoveryLeavesSessionInError` | kernel-overlay/drivers/media/platform/qcom/iris/iris_probe.c:209-217 | The run of a system error and the recovery its worker carries out: the session stays in ERROR with nothing requested. |
| `Gen1Promises.StreamonNeverReportsFailure` | kernel-overlay/drivers/media/platform/qcom/iris/iris_state.c:83-119 | The state changes of stream-on and stream-off always report success; they end in ERROR exactly when the session was not in one of the two states the queue can be started from or stopped in. |
| `Gen1Promises.LastAnswerWakes` | kernel-overlay/drivers/media/platform/qcom/iris/iris_hfi_gen1_response.c:1087-1089 | An answer to a flush wakes the waiters exactly if it is the last one owed. |
| `Gen1Promises.LateAnswerWraps` | kernel-overlay/drivers/media/platform/qcom/iris/iris_hfi_gen1_response.c:1087-1089 | An answer that is not owed any more wraps the count to 2^32 - 1 and wakes nobody. |
| `Gen1Promises.LastOnlyWhenDue` | kernel-overlay/drivers/media/platform/qcom/iris/iris_hfi_gen1_response.c:706-722 | LAST is delivered only by an empty frame or a queued capture buffer, only when a change or a drain is pending, only if it was not out yet, and once. |
| `Gen1Promises.PausedExactlyWhileChanging` | kernel-overlay/drivers/media/platform/qcom/iris/iris_common.c:53-95 | After input stream-on outside ERROR the input is paused if and only if a change, a drain or a first sequence change is on. |
| `Gen1Promises.StartEndsWhatWasPending` | kernel-overlay/drivers/media/platform/qcom/iris/iris_vdec.c:745-799 | START after LAST ends the pending change, or else the drain, with its pauses, and touches nothing else. |
| `Gen1Promises.ChangeArmsLast` | kernel-overlay/drivers/media/platform/qcom/iris/iris_hfi_gen1_response.c:231-255 | A resolution change while both queues stream makes LAST due and pauses both sides. |
| `Gen1Promises.RestartUndoesChange` | kernel-overlay/drivers/media/platform/qcom/iris/iris_common.c:97-159 | The run of a resolution change, the answer to its flush, capture stream-off with its flush, and capture stream-on with its wait brings any streaming session that was in no change back to its state and flags, but for the pauses and LAST. |
| `Gen1Promises.OpenSucceedsOrGivesUp` | kernel-overlay/drivers/media/platform/qcom/iris/iris_common.c:253-286 | However an open is interleaved with firmware messages and failures, it ends in INIT with its slot if it was answered outside ERROR, and otherwise in ERROR without the slot and with a recovery requested. |
| `Gen1Promises.CloseForgetsSession` | kernel-overlay/drivers/media/platform/qcom/iris/iris_common.c:303-359 | Whatever comes of a close the session is forgotten; it ends in DEINIT exactly if it was answered outside ERROR and does not unwind a failed stream-on, in ERROR otherwise, and an unanswered one requests recovery. |
| `Gen1Promises.StartUndoesStop` | kernel-overlay/drivers/media/platform/qcom/iris/iris_vdec.c:713-823 | The run of STOP, the empty frame that ends the stream, the answer to its flush, and START brings any streaming session that was in no change or drain back to its state and flags, but for the pauses and LAST. |
| `Gen1Planes.StreamoffStopsOne` | kernel-overlay/drivers/media/platform/qcom/iris/iris_state.c:102-119 | Outside ERROR, stream-off of a queue that streams stops exactly that queue and leaves the other as it was; of a queue that does not stream it ends in ERROR. |
| `Gen1Planes.StreamonStartsOne` | kernel-overlay/drivers/media/platform/qcom/iris/iris_state.c:83-100 | Outside ERROR, stream-on of a queue that does not stream starts exactly that queue and leaves the other as it was; of one that does, or of a closed session, it ends in ERROR. |
| `Gen1Planes.ChangesAllowed` | kernel-overlay/drivers/media/platform/qcom/iris/iris_state.c:11-46 | A session opens into a state without queues, changes one queue at a time, and closes from any open state; no other change of state is allowed. |
| `Gen1Planes.QueuesTellState` | kernel-overlay/drivers/media/platform/qcom/iris/iris_state.c:83-119 | A state that is not closed and not ERROR is determined by which of its queues stream. |
| `Gen1Planes.QueuesMoveAlone` | kernel-overlay/drivers/media/platform/qcom/iris/iris_state.c:48-119 | In every section that does not end in ERROR, a queue starts only with its own stream-on, and stops only with its own stream-off, with the unwinding of its stream-on, or with the end of the session. |
| `Gen1Lives.SeekReturns` | kernel-overlay/drivers/media/platform/qcom/iris/iris_hfi_gen1_command.c:354-370 | The run of a seek (input stream-off, the answer to its flush, input stream-on with the resources loaded) takes any streaming session in no change or drain back to its state and flags, the input no longer paused. |
| `Gen1Lives.OpenedInputStreams` | kernel-overlay/drivers/media/platform/qcom/iris/iris_vdec.c:491-559 | The run of open and input stream-on with its three waits takes a fresh session to a streaming input with its resources loaded. |
| `Gen1Lives.FirstSequenceDecodes` | kernel-overlay/drivers/media/platform/qcom/iris/iris_hfi_gen1_response.c:257-324 | The first sequence pauses the input, and capture stream-on after it leaves both queues streaming and nothing paused. |
| `Gen1Lives.StoppedSessionIsFresh` | kernel-overlay/drivers/media/platform/qcom/iris/iris_hfi_gen1_command.c:341-396 | The run of both stream-offs takes a streaming session back to what it was before its open. |
| `Gen1Lives.LifeLeavesNothing` | kernel-overlay/drivers/media/platform/qcom/iris/iris_common.c:204-360 | The run of a whole life (open, start, decode, stop, close) leaves nothing behind. |
| `Gen1Outcomes.ChangeSubOutcome` | kernel-overlay/drivers/media/platform/qcom/iris/iris_state.c:161-189 | Outside ERROR flags are cleared and set together or not at all; a request is let through exactly if it does not clash with what is cleared and one of its flags may be set in the state. |
| `Gen1Outcomes.ChangeBegins` | kernel-overlay/drivers/media/platform/qcom/iris/iris_state.c:191-205 | A change begins exactly if none is on and the input streams or the session is closed, and pauses the input; it counts as a first sequence change exactly if the session is open and capture does not stream. |
| `Gen1Outcomes.DrainEnds` | kernel-overlay/drivers/media/platform/qcom/iris/iris_state.c:207-220 | A drain is marked LAST exactly if one is on, capture streams (or the session is closed) and it is not marked yet; capture is then paused. |
| `Gen1Outcomes.ChangeEnds` | kernel-overlay/drivers/media/platform/qcom/iris/iris_state.c:222-239 | A change is marked LAST under the same conditions and with a paused input, but never a first sequence change. |
| `Gen1Outcomes.SequenceChangeOutcome` | kernel-overlay/drivers/media/platform/qcom/iris/iris_hfi_gen1_response.c:257-324 | For every event and state: whether a sequence change is absorbed, fails the session, resumes the input in place or begins a change, and what each leaves. |
| `Gen1Outcomes.FlushesCount` | kernel-overlay/drivers/media/platform/qcom/iris/iris_hfi_gen1_response.c:240-251 | A flush message adds one to the count; it takes wake-ups back unless it is one for a change that finds some owed. |
| `Gen1Outcomes.FillDoneOutcome` | kernel-overlay/drivers/media/platform/qcom/iris/iris_hfi_gen1_response.c:633-855 | An empty last buffer of the input marks the drain and flushes; an empty one of the client's carries LAST exactly if it is due and not out; the session fails exactly if the buffer was not dealt with and nothing excuses that. |
| `Gen1Outcomes.FlushDoneOutcome` | kernel-overlay/drivers/media/platform/qcom/iris/iris_hfi_gen1_response.c:1068-1089 | A flush is answered whatever its status; the status fails the session exactly if it is not success and no stream-off makes it harmless. |
| `Gen1Outcomes.ErrorOutcome` | kernel-overlay/drivers/media/platform/qcom/iris/iris_hfi_gen1_response.c:408-416 | A failure or a reported error leaves the session in ERROR with a request; a report asks again even of a session in ERROR, another failure does not. |
| `Gen1Outcomes.CoreOutcome` | kernel-overlay/drivers/media/platform/qcom/iris/iris_common.c:368-408 | A request or a recovery by another thread moves the request and the count of power cycles, and nothing of the session itself. |
| `Gen1Outcomes.StopOutcome` | kernel-overlay/drivers/media/platform/qcom/iris/iris_vdec.c:813-823 | STOP begins a drain exactly if the input streams, the client's queues do, and the message is sent; it changes nothing else. |
| `Gen1Outcomes.StartOutcome` | kernel-overlay/drivers/media/platform/qcom/iris/iris_vdec.c:713-743 | START waits exactly on the legacy platform with flushes owed, and does nothing unless LAST is due. |
| `Gen1Outcomes.StartedOutcome` | kernel-overlay/drivers/media/platform/qcom/iris/iris_vdec.c:745-799 | Past that it fails exactly if LAST is not due any more, stays pending exactly if a paused queue cannot be resumed, and ends the change, or else the drain, otherwise. |
| `Gen1Outcomes.StartFlushedOutcome` | kernel-overlay/drivers/media/platform/qcom/iris/iris_vdec.c:736-799 | A START that waited fails the session exactly on a timeout or if LAST is not due any more, and takes one wake-up otherwise. |
| `Gen1Outcomes.QueueCaptureOutcome` | kernel-overlay/drivers/media/platform/qcom/iris/iris_vb2.c:512-530 | A capture buffer queued outside ERROR carries LAST if and only if it is due and not out. |
| `Gen1Outcomes.OpenBeginOutcome` | kernel-overlay/drivers/media/platform/qcom/iris/iris_common.c:249-265 | Open takes the slot if and only if the session is closed and the request can be sent; otherwise it asks for a recovery. |
| `Gen1Outcomes.InputTailOutcome` | kernel-overlay/drivers/media/platform/qcom/iris/iris_common.c:53-95 | Input stream-on starts the input, paused exactly while a change or a drain is on, with LAST and the stream-off mark reset. |
| `Gen1Outcomes.InputTailFails` | kernel-overlay/drivers/media/platform/qcom/iris/iris_common.c:53-95 | Input stream-on of an input that streams already ends in ERROR. |
| `Gen1Outcomes.InputSetUpOutcome` | kernel-overlay/drivers/media/platform/qcom/iris/iris_hfi_gen1_command.c:305-323 | Once set up, an input whose resources are loaded streams at once, and any other waits for them. |
| `Gen1Outcomes.InputStreamonOutcome` | kernel-overlay/drivers/media/platform/qcom/iris/iris_vdec.c:491-514 | Input stream-on fails, waits for the requirements of a session in INIT, or goes on. |
| `Gen1Outcomes.InputStartedOutcome` | kernel-overlay/drivers/media/platform/qcom/iris/iris_hfi_gen1_command.c:327-331 | An answered start marks the resources as loaded and starts the input; one that is not fails the session. |
| `Gen1Outcomes.OutputStreamonOutcome` | kernel-overlay/drivers/media/platform/qcom/iris/iris_vdec.c:561-595 | Capture stream-on fails, waits for the requirements of a first sequence, waits for the buffers of a paused input, or goes on. |
| `Gen1Outcomes.OutputTailOutcome` | kernel-overlay/drivers/media/platform/qcom/iris/iris_common.c:97-159 | It succeeds exactly if its buffers are ready, an input that is to be resumed is, and its buffers can be queued. |
| `Gen1Outcomes.CaptureOnOutcome` | kernel-overlay/drivers/media/platform/qcom/iris/iris_common.c:97-159 | Then capture streams, unpaused, the change it found is over, or else the drain, and LAST may come again. |
| `Gen1Outcomes.CaptureOnFails` | kernel-overlay/drivers/media/platform/qcom/iris/iris_common.c:97-159 | Capture stream-on of a capture queue that streams already ends in ERROR. |
| `Gen1Outcomes.StreamoffOutcome` | kernel-overlay/drivers/media/platform/qcom/iris/iris_vb2.c:394-418 | Stream-off of capture in INIT does nothing; any other begins. |
| `Gen1Outcomes.BeginStopOutcome` | kernel-overlay/drivers/media/platform/qcom/iris/iris_hfi_gen1_command.c:341-388 | Stream-off flushes while both queues stream, stops while resources are loaded, and ends at once otherwise; a message that cannot be sent fails it. |
| `Gen1Outcomes.StopTailOutcome` | kernel-overlay/drivers/media/platform/qcom/iris/iris_common.c:485-541 | At its end exactly its queue is stopped, and with the other one stopped too the session is closed. |
| `Gen1Outcomes.StreamoffFlushedOutcome` | kernel-overlay/drivers/media/platform/qcom/iris/iris_hfi_gen1_command.c:366-370 | A flush that is not answered fails the stream-off. |
| `Gen1Outcomes.StreamoffStoppedOutcome` | kernel-overlay/drivers/media/platform/qcom/iris/iris_hfi_gen1_command.c:376-388 | A stop that is not answered fails the session and still goes on to the release. |
| `Gen1Outcomes.StreamoffReleasedOutcome` | kernel-overlay/drivers/media/platform/qcom/iris/iris_hfi_gen1_command.c:388-396 | An answered release takes the mark of the resources; one that is not leaves it and fails. |
| `Gen1Outcomes.CloseBeginOutcome` | kernel-overlay/drivers/media/platform/qcom/iris/iris_common.c:303-330 | A close waits exactly if the session is open and the message can be sent. |
| `Gen1Outcomes.CloseEndOutcome` | kernel-overlay/drivers/media/platform/qcom/iris/iris_common.c:303-359 | It succeeds exactly if it was answered and the session did not fail meanwhile; a stream-off fails with it. |
| `Gen1Waking.AnswersWake` | kernel-overlay/drivers/media/platform/qcom/iris/iris_hfi_gen1_response.c:1087-1089 | Once the firmware has answered all it owes, there is a wake-up for every waiter if and only if the waiters were no more than the wake-ups given plus one for an outstanding flush. |
| `Gen1Waking.StepWakes` | kernel-overlay/drivers/media/platform/qcom/iris/iris_hfi_gen1_command.c:354-370 | A section leaves every waiter provided for if and only if it is not one that strands: a START or a stream-off that joins another waiter, a flush that takes a wake-up back from two or cannot be sent, or a close while START waits for an answer. |
| `Gen1Waking.EveryWaiterIsWoken` | kernel-overlay/drivers/media/platform/qcom/iris/iris_utils.c:58-77 | Over a run with owed answers only, everybody who waits for a flush is woken once all are answered, at each point, if and only if no section strands a waiter. |
| `Gen1Waking.StrandedStart` | kernel-overlay/drivers/media/platform/qcom/iris/iris_vdec.c:736-743 | The run that strands START: it waits for the flush of a change, capture stream-off sends a second one, both are answered, stream-off goes on, and START can only time out. |
| `SharedRecovery.ErrorReachesTheCore` | kernel-overlay/drivers/media/platform/qcom/iris/iris_common.c:368-408 | However sections of a session and of the core it shares are interleaved, both see one request and count the same power cycles, and while the session is in ERROR the core has the request or was power-cycled since. |
| `SharedRecovery.EntryAsksTheCore` | kernel-overlay/drivers/media/platform/qcom/iris/iris_state.c:57-69 | A session that enters ERROR makes exactly the core's request step in the same section. |
| `SharedRecovery.LastCloseRecovers` | kernel-overlay/drivers/media/platform/qcom/iris/iris_vidc.c:441-462 | When the file of the last open session is closed, the core is power-cycled and the request dropped while another session stays in ERROR. |
| `Gen1Session.Session.Serve` | kernel-overlay/drivers/media/platform/qcom/iris/iris_utils.c:58-77 | Serving any run of sections and recoveries, whatever their order, takes the fields where the protocol's run goes, and leaves them in order: LAST at most once, changes and drains with their LAST marks, recovery requested or carried out since in ERROR; flush count exact and nobody woken early as long as every answer was owed. |
| `Gen1Session.Session.EventSeqChanged` | kernel-overlay/drivers/media/platform/qcom/iris/iris_hfi_gen1_response.c:231-324 | A step of the protocol that keeps the session valid. A sequence-change event is absorbed by the change that is on, fails the session, resumes the input, or arms a change with its flush and LAST mark. |
| `Gen1Session.Session.FillBufferDone` | kernel-overlay/drivers/media/platform/qcom/iris/iris_hfi_gen1_response.c:591-855 | A step of the protocol that keeps the session valid. A finished buffer flushes at the end of the stream, may carry LAST, and fails the session unless it is settled, late or stopped. |
| `Gen1Session.Session.FlushResponse` | kernel-overlay/drivers/media/platform/qcom/iris/iris_hfi_gen1_response.c:1068-1089 | A step of the protocol that keeps the session valid. A flush answer takes one flush off the count and wakes the waiters with the last one. |
| `Gen1Session.Session.SystemError` | kernel-overlay/drivers/media/platform/qcom/iris/iris_hfi_gen1_response.c:408-416 | A step of the protocol that keeps the session valid. A system error puts the session in ERROR and asks for recovery. |
| `Gen1Session.Session.CoreWasRecovered` | kernel-overlay/drivers/media/platform/qcom/iris/iris_probe.c:209-217 | A step of the protocol that keeps the session valid. A recovery by another thread drops the request and leaves the session as it is. |
| `Gen1Session.Session.QueueCaptureBuffer` | kernel-overlay/drivers/media/platform/qcom/iris/iris_vb2.c:512-530 | A step of the protocol that keeps the session valid. A capture buffer queued outside ERROR carries LAST if that is due and not out. |
| `Gen1Session.Session.StartCommand` | kernel-overlay/drivers/media/platform/qcom/iris/iris_vdec.c:713-799 | A step of the protocol that keeps the session valid. START does nothing, waits for flushes, or ends the pending change or drain. |
| `Gen1Session.Session.StartCommandFlushed` | kernel-overlay/drivers/media/platform/qcom/iris/iris_vdec.c:736-799 | A step of the protocol that keeps the session valid. START after its wait for flushes, which may have timed out. |
| `Gen1Session.Session.StopCommand` | kernel-overlay/drivers/media/platform/qcom/iris/iris_vdec.c:813-823 | A step of the protocol that keeps the session valid. STOP begins a drain. |
| `Gen1Session.Session.OpenSession` | kernel-overlay/drivers/media/platform/qcom/iris/iris_common.c:249-265 | A step of the protocol that keeps the session valid. Open takes the slot, and gives it back with a recovery request if it cannot go on. |
| `Gen1Session.Session.FinishOpen` | kernel-overlay/drivers/media/platform/qcom/iris/iris_common.c:253-286 | A step of the protocol that keeps the session valid. Open after the wait for the firmware. |
| `Gen1Session.Session.StartStreamonInput` | kernel-overlay/drivers/media/platform/qcom/iris/iris_vdec.c:491-514 | A step of the protocol that keeps the session valid. Input stream-on, up to the wait for the buffer requirements. |
| `Gen1Session.Session.InputIsSetUp` | kernel-overlay/drivers/media/platform/qcom/iris/iris_vdec.c:526-559 | A step of the protocol that keeps the session valid. Input stream-on after that wait, up to the wait for the resources. |
| `Gen1Session.Session.InputLoaded` | kernel-overlay/drivers/media/platform/qcom/iris/iris_hfi_gen1_command.c:314-323 | A step of the protocol that keeps the session valid. Input stream-on between the waits for the resources and for the start. |
| `Gen1Session.Session.InputStarted` | kernel-overlay/drivers/media/platform/qcom/iris/iris_hfi_gen1_command.c:327-331 | A step of the protocol that keeps the session valid. Input stream-on after the start: resources marked, pause set exactly if a change or drain is on. |
| `Gen1Session.Session.StartStreamonOutput` | kernel-overlay/drivers/media/platform/qcom/iris/iris_vdec.c:561-573 | A step of the protocol that keeps the session valid. Capture stream-on, up to the wait for the buffer requirements of a first capture. |
| `Gen1Session.Session.OutputIsSetUp` | kernel-overlay/drivers/media/platform/qcom/iris/iris_vdec.c:575-595 | A step of the protocol that keeps the session valid. Capture stream-on after that wait, up to the wait for buffers, with the flags as they are then. |
| `Gen1Session.Session.OutputReady` | kernel-overlay/drivers/media/platform/qcom/iris/iris_common.c:97-159 | A step of the protocol that keeps the session valid. Capture stream-on after that wait: ends the change or drain it found, or unwinds by a stream-off. |
| `Gen1Session.Session.StopStreaming` | kernel-overlay/drivers/media/platform/qcom/iris/iris_vb2.c:394-418 | A step of the protocol that keeps the session valid. Stream-off, up to its first wait; nothing for capture in INIT. |
| `Gen1Session.Session.StreamoffAfterFlush` | kernel-overlay/drivers/media/platform/qcom/iris/iris_hfi_gen1_command.c:366-370 | A step of the protocol that keeps the session valid. Stream-off after the flush, closing the session with the last queue. |
| `Gen1Session.Session.StreamoffAfterStop` | kernel-overlay/drivers/media/platform/qcom/iris/iris_hfi_gen1_command.c:376-388 | A step of the protocol that keeps the session valid. Stream-off between the waits for the stop and for the release, which follows even a stop that timed out. |
| `Gen1Session.Session.StreamoffAfterRelease` | kernel-overlay/drivers/media/platform/qcom/iris/iris_hfi_gen1_command.c:388-396 | A step of the protocol that keeps the session valid. Stream-off after the release; a timeout keeps the resources marked. |
| `Gen1Session.Session.CloseSession` | kernel-overlay/drivers/media/platform/qcom/iris/iris_common.c:303-330 | A step of the protocol that keeps the session valid. A close, up to its wait, or with the session forgotten if the message cannot be sent. |
| `Gen1Session.Session.FinishClose` | kernel-overlay/drivers/media/platform/qcom/iris/iris_common.c:303-359 | A step of the protocol that keeps the session valid. Whatever was answered the session is forgotten, and a failure asks for recovery. |
| `OutputOrder.DeliveredAndHeldAreCollapse` | kernel-overlay/drivers/media/platform/qcom/iris/iris_hfi_gen1_response.c:725-739 | For any completions of a legacy VP9 stream, what was delivered and what is held equal the input without every filled frame that is followed at once by a filled one of the same timestamp; never more than one frame is held. |
| `OutputOrder.CollapseKeepsShown` | kernel-overlay/drivers/media/platform/qcom/iris/iris_hfi_gen1_response.c:727-736 | That collapsed stream is the sub-sequence of the input at the positions that are not hidden. |
| `OutputOrder.ShownIsExact` | kernel-overlay/drivers/media/platform/qcom/iris/iris_hfi_gen1_response.c:731-736 | Those positions are all of the frames that are not hidden, in order and each once. |
| `OutputOrder.OnlyTwinsAreHidden` | kernel-overlay/drivers/media/platform/qcom/iris/iris_hfi_gen1_response.c:727-736 | A stream in which no two neighbours are filled and have one timestamp is shown whole. |
| `OutputOrder.TwinsAreHidden` | kernel-overlay/drivers/media/platform/qcom/iris/iris_hfi_gen1_response.c:727-736 | Of filled frames of one timestamp only the last is shown. |
| `OutputOrder.NoFrameIsLost` | kernel-overlay/drivers/media/platform/qcom/iris/iris_vdec.c:24-95 | Every completion is delivered, held or replaced, each exactly once. |
| `OutputOrder.FramesAfterLast` | kernel-overlay/drivers/media/platform/qcom/iris/iris_vb2.c:512-529 | A capture buffer returned as LAST overtakes the held frame: whatever completes afterwards, that frame follows LAST unless none was held or the next frame replaces it. |
| `OutputOrder.ForgettingLosesAFrame` | kernel-overlay/drivers/media/platform/qcom/iris/iris_vdec.c:500 | Restarting the input leaves the client the collapsed stream if and only if nothing was held, or the next frame replaces it anyway. |
| `OutputOrder.NeverNineInARow` | kernel-overlay/drivers/media/platform/qcom/iris/iris_hfi_gen1_response.c:741-762 | However damaged a stream of another codec is, and however many frames were just dropped, of any nine filled frames in a row one reaches the client. |
| `CaptureBuffers.CaptureQueue.Serve` | kernel-overlay/drivers/media/platform/qcom/iris/iris_hfi_gen1_response.c:665-844 | Over any run of completions without a failure: what was delivered and what is held are, for VP9, the collapsed stream of the frames taken, and for other codecs those frames; a drop is one of at most eight in a row; buffers stay conserved, a valid slot valid, and each listed buffer in one place as long as every buffer could be sent back. |
| `CaptureBuffers.CaptureQueue.FillDone` | kernel-overlay/drivers/media/platform/qcom/iris/iris_hfi_gen1_response.c:665-844 | A completion that matches no queued buffer changes nothing; any other advances what the client sees by exactly its frame, or drops a damaged one; it fails exactly if a replaced buffer cannot be sent back or the slot names a buffer the client has; conserved either way, and only the completed buffer and the one in the slot are touched, a dropped or replaced one emptied and, if it could be sent, with the firmware. |
| `CaptureBuffers.CaptureQueue.HoldOrDeliver` | kernel-overlay/drivers/media/platform/qcom/iris/iris_vdec.c:87-95 | A filled VP9 frame is held, and the slot is vacant whenever this is reached; any other frame is delivered if its buffer is listed. |
| `CaptureBuffers.CaptureQueue.SettlePending` | kernel-overlay/drivers/media/platform/qcom/iris/iris_hfi_gen1_response.c:725-739 | The held frame is replaced if the new one is its twin and delivered otherwise, if its buffer is still listed. |
| `CaptureBuffers.CaptureQueue.BufferDone` | kernel-overlay/drivers/media/platform/qcom/iris/iris_buffer.c:824-888 | Hands back exactly the listed buffer asked for, once, and notes LAST. |
| `CaptureBuffers.CaptureQueue.Queue` | kernel-overlay/drivers/media/platform/qcom/iris/iris_vb2.c:484-547 | Every queued buffer, one that a failed queueing left listed included, comes back at once, as LAST or in error, or goes on the list; it does both exactly when it cannot be given to a streaming firmware, and is counted as such. |
| `CaptureBuffers.CaptureQueue.QueueDeferred` | kernel-overlay/drivers/media/platform/qcom/iris/iris_vb2.c:360-374 | Stream-on gives the firmware what was set aside, in list order, exactly as far as there is room for commands, and touches nothing else; the held frame stays. |
| `CaptureBuffers.CaptureQueue.BeginStreamonInput` | kernel-overlay/drivers/media/platform/qcom/iris/iris_vdec.c:497-502 | The held frame is forgotten: its buffer stays listed but in nobody's hands, exactly if there was one. |
| `CaptureBuffers.CaptureQueue.StreamonInput` | kernel-overlay/drivers/media/platform/qcom/iris/iris_vdec.c:491-559 | With any completions served while it waits, input stream-on ends with the LAST mark reset if it succeeds; without a failure the client gets the frames of those completions and never the held one. |
| `CaptureBuffers.CaptureQueue.ForgetLast` | kernel-overlay/drivers/media/platform/qcom/iris/iris_common.c:92 | LAST may come again, and nothing else changes; the same at iris_common.c line 156 and iris_vdec.c line 799. |
| `CaptureBuffers.CaptureQueue.Run` | kernel-overlay/drivers/media/platform/qcom/iris/iris_vb2.c:484-547 | Over any mix of queueing, completions, deferred sending, resets of LAST and the sections of stream-on and stream-off: every buffer ever queued is back or listed, exactly once but for failed queueings; each listed buffer is in one place unless a section misplaced one since all were last handed back; LAST came at most once more than it was reset. |
| `CaptureBuffers.CaptureQueue.QueueCall` | kernel-overlay/drivers/media/platform/qcom/iris/iris_vb2.c:532-546 | A buffer is both handed back and left listed if and only if it goes to a streaming firmware that cannot take it. |
| `CaptureBuffers.CaptureQueue.Streamoff` | kernel-overlay/drivers/media/platform/qcom/iris/iris_vb2.c:406-426 | With any completions served in its two waits, stream-off hands back whatever is still listed, so that every buffer ever queued has come back exactly once (failed queueings twice), frames finished in the first wait first and filled; it leaves the slot vacant exactly if no completion of the waits stayed held. |
| `CaptureBuffers.CaptureQueue.StopStreaming` | kernel-overlay/drivers/media/platform/qcom/iris/iris_vb2.c:394-426 | Nothing is touched in INIT; otherwise the queue is valid again if and only if the last completion of the waits that found a buffer was not a held frame. |
| `CaptureBuffers.StaleSlotExactly` | kernel-overlay/drivers/media/platform/qcom/iris/iris_vb2.c:407-424 | The condition for that: the slot is stale after both waits exactly if some completion was held and none after it found a buffer. |
| `CaptureBuffers.HeldDuringStop` | kernel-overlay/drivers/media/platform/qcom/iris/iris_hfi_gen1_command.c:366-370 | The run that leaves the slot stale: a frame finished in the wait of stream-off is held, and its buffer goes back to the client. |
| `CaptureBuffers.StaleSlotFailsNextFrame` | kernel-overlay/drivers/media/platform/qcom/iris/iris_hfi_gen1_response.c:735-739 | After it the first frame in another buffer fails, with nothing wrong on the client's or the firmware's side. |
| `CaptureBuffers.CompletedFrame` | kernel-overlay/drivers/media/platform/qcom/iris/iris_hfi_gen1_response.c:790-844 | A completed frame keeps its LAST mark; a damaged one is reported and carries no picture, except filled VP9; any other is what the firmware wrote. |
| `CaptureBuffers.LastComesOnce` | kernel-overlay/drivers/media/platform/qcom/iris/iris_hfi_gen1_response.c:706-722 | Over any run of completions without a failure LAST is on exactly one frame if an empty one came while it was due, and on none if it was out before. |
| `CaptureBuffers.SendDeferred` | kernel-overlay/drivers/media/platform/qcom/iris/iris_buffer.c:749-779 | Exactly the first set-aside buffers, as many as there is room for, go to the firmware; it succeeds exactly if there is room for all of them, and then nothing is left aside. |
| `CaptureBuffers.SplitDeferred` | kernel-overlay/drivers/media/platform/qcom/iris/iris_common.c:161-191 | Exactly the set-aside buffers are handed back, empty and in list order, and the others are kept in order. |
| `CaptureBuffers.WithoutRemovesOne` | kernel-overlay/drivers/media/platform/qcom/iris/iris_buffer.c:792-801 | Taking a buffer off the list takes exactly that one. |
| `CoreAdmission.NeverOverAdmitted` | kernel-overlay/drivers/media/platform/qcom/iris/iris_common.c:204-360 | Over any run of opens, failures, reservations, releases, closes and changes of frame size, session count, macroblocks per frame and per second and the number of 4K-class sessions stay within the limits, and only opened sessions are reserved, if and only if no session's frames grow beyond what is to spare. |
| `CoreAdmission.OpenKeepsAdmitted` | kernel-overlay/drivers/media/platform/qcom/iris/iris_common.c:225-251 | A session is let in exactly if the count and the macroblocks per frame still fit. |
| `CoreAdmission.OpenAnswers` | kernel-overlay/drivers/media/platform/qcom/iris/iris_common.c:225-251 | The answer is success exactly if the session was open already or the limits still hold with it, and busy exactly if the count stands in the way; the session counts as open exactly on success, and nothing else changes but for the deferred recovery. |
| `CoreAdmission.ReserveAnswers` | kernel-overlay/drivers/media/platform/qcom/iris/iris_common.c:410-473 | The answer is success exactly if the load was reserved already or the limits still hold with it; then exactly that session is marked, with its rate, of at least one. |
| `CoreAdmission.CloseTakesAll` | kernel-overlay/drivers/media/platform/qcom/iris/iris_common.c:303-359 | A close takes slot, load, rate and refusal from the session and nothing from the others; a failure asks for a power cycle. |
| `CoreAdmission.LeaveTakesOne` | kernel-overlay/drivers/media/platform/qcom/iris/iris_vidc.c:441-462 | Closing a file takes exactly its session off the list, and power-cycles the core exactly if that was due and nobody is open. |
| `CoreAdmission.LedgerIsKept` | kernel-overlay/drivers/media/platform/qcom/iris/iris_common.c:204-360 | Over any run the sessions that count as open are exactly those let in and not closed since, and the loads that count exactly those reserved and not released since, at the rate asked for. |
| `CoreAdmission.FullCoreIsBusy` | kernel-overlay/drivers/media/platform/qcom/iris/iris_common.c:225-237 | Over any run the next open is told busy if and only if as many sessions as there may be were let in and not closed since. |
| `CoreAdmission.ReserveKeepsAdmitted` | kernel-overlay/drivers/media/platform/qcom/iris/iris_common.c:410-473 | A load is reserved exactly if the macroblocks per second fit and it would not be the fourth 4K-class session. |
| `CoreAdmission.SetUpKeepsAdmitted` | kernel-overlay/drivers/media/platform/qcom/iris/iris_vb2.c:254-280 | Capture can be set up exactly if the session was not refused since it was opened and its load is reserved or fits; a refusal is remembered. |
| `CoreAdmission.IrisCore.SetUpCapture` | kernel-overlay/drivers/media/platform/qcom/iris/iris_vb2.c:254-280 | The set-up with its remembered refusal; keeps the limits. |
| `CoreAdmission.GrowingFramesOverload` | kernel-overlay/drivers/media/platform/qcom/iris/iris_utils.c:26-33 | A session whose frames grow after admission breaks the limit per frame, the limit per second, or that on 4K-class sessions, each exactly when it takes more than there was to spare, or is reserved as the fourth of its class. |
| `CoreAdmission.RequestsAreNotForgotten` | kernel-overlay/drivers/media/platform/qcom/iris/iris_common.c:368-408 | Over any run a recovery request stays pending until the core has been power-cycled. |
| `CoreAdmission.RequestsAreAnswered` | kernel-overlay/drivers/media/platform/qcom/iris/iris_common.c:368-408 | Over any run in which nobody asks for a recovery, one that is still pending was pending before, and the core was not power-cycled. |
| `CoreAdmission.DeferredRecoveryOnlyWhenIdle` | kernel-overlay/drivers/media/platform/qcom/iris/iris_common.c:379-408 | A pending recovery runs if and only if no session is open. |
| `CoreAdmission.CloseLeavesNothingPending` | kernel-overlay/drivers/media/platform/qcom/iris/iris_vidc.c:441-462 | After a file is closed a recovery is still pending only if another session is open. |
| `CoreAdmission.TotalsOpened` | kernel-overlay/drivers/media/platform/qcom/iris/iris_common.c:225-232 | The loop computes the count and the macroblocks of the opened sessions. |
| `CoreAdmission.TotalsReserved` | kernel-overlay/drivers/media/platform/qcom/iris/iris_common.c:427-435 | The loop computes the load of the reserved sessions and how many are 4K-class. |
| `CoreAdmission.IrisCore.OpenSession` | kernel-overlay/drivers/media/platform/qcom/iris/iris_common.c:213-251 | Admission with the deferred recovery before it: success exactly if the session is marked open afterwards; keeps the limits. |
| `CoreAdmission.IrisCore.ReserveLoad` | kernel-overlay/drivers/media/platform/qcom/iris/iris_common.c:418-472 | Reservation; keeps the limits. |
| `CoreAdmission.IrisCore.RunPendingRecovery` | kernel-overlay/drivers/media/platform/qcom/iris/iris_common.c:379-408 | The deferred recovery, found idle by a search of the sessions. |
| `CoreAdmission.IrisCore.CloseSession` | kernel-overlay/drivers/media/platform/qcom/iris/iris_vidc.c:453-462 | Close, unlink and deferred recovery; nothing stays pending on an idle core. |
| `CorePlacement.PlacementIsBalanced` | kernel-overlay/drivers/media/platform/qcom/iris/iris_hfi_gen1_command.c:984-1018 | For any decoders placed in any order with fixed loads, the cores differ by at most the largest session, twice the busier one is at most total plus largest, and it carries at most 3/2 of the busier core of any other split. |
| `CorePlacement.PlacementIsGreedy` | kernel-overlay/drivers/media/platform/qcom/iris/iris_hfi_gen1_command.c:984-1018 | The loads that result are those of the greedy split of the sessions' weights. |
| `CorePlacement.GreedyWithinThreeHalves` | kernel-overlay/drivers/media/platform/qcom/iris/iris_hfi_gen1_command.c:1009-1014 | The greedy split is within 3/2 of every split. |
| `CorePlacement.ThreeHalvesIsTight` | kernel-overlay/drivers/media/platform/qcom/iris/iris_hfi_gen1_command.c:1009-1014 | No better bound holds: weights w, w, 2w reach it. |
| `CorePlacement.WhereSessionsGo` | kernel-overlay/drivers/media/platform/qcom/iris/iris_hfi_gen1_command.c:1009-1018 | A session that is placed stays; another goes to the second core exactly if there are two and the first carries more; only it changes, and it adds its weight to that core if it is an open decoder. |
| `CorePlacement.RateThatCounts` | kernel-overlay/drivers/media/platform/qcom/iris/iris_hfi_gen1_command.c:995-1001 | A session weighs its macroblocks times the greater of its two rates, one at least, where 480 stands for 30. |
| `CorePlacement.OtherLoads` | kernel-overlay/drivers/media/platform/qcom/iris/iris_hfi_gen1_command.c:986-1007 | The loop computes what the other opened decoders load on each core. |
| `CorePlacement.Placer.DecideCore` | kernel-overlay/drivers/media/platform/qcom/iris/iris_hfi_gen1_command.c:965-1034 | A session that is placed stays; a new one goes to the less loaded core; a placement the firmware is not told of is taken back. |
| `CorePlacement.OnlyOrderIsPlaced` | kernel-overlay/drivers/media/platform/qcom/iris/iris_hfi_gen1_command.c:985-1016 | Placing sessions changes nothing but their own core, which is set once. |
| `CoreLifecycle.StepKeepsConsistent` | kernel-overlay/drivers/media/platform/qcom/iris/iris_core.c:15-167 | After any start, stop, recovery, system error, collapse or resume, in whatever state, the core holds exactly what its state says, if and only if the step is not one of five: a start in ERROR, a power-on that fails in a stage that does not unwind, a resume whose power-on fails, a collapse in DEINIT, or a system error in DEINIT. |
| `CoreLifecycle.RunsStayConsistent` | kernel-overlay/drivers/media/platform/qcom/iris/iris_hfi_common.c:252-269 | Over any run the core holds exactly what its state says, all the way, if and only if the run has no such step. |
| `CoreLifecycle.CollapseInDeinitUnderflows` | kernel-overlay/drivers/media/platform/qcom/iris/iris_vidc.c:462-472 | The run that ends with every count at -1: the recovery of a close fails to power the core, and the idle worker collapses it in DEINIT. |
| `CoreLifecycle.CollapseInDeinitPowersTwice` | kernel-overlay/drivers/media/platform/qcom/iris/iris_hfi_common.c:252-269 | Or else the core is marked as collapsed in DEINIT, started, and powered a second time by the next resume. |
| `CoreLifecycle.InitInErrorStrandsAll` | kernel-overlay/drivers/media/platform/qcom/iris/iris_core.c:94-96 | A start in ERROR says DEINIT while queues, firmware and power are still held, and no deinit releases them. |
| `CoreLifecycle.WhereStartEnds` | kernel-overlay/drivers/media/platform/qcom/iris/iris_core.c:86-167 | A start of a stopped core ends running exactly if everything goes well, in ERROR exactly if only the firmware's answer is missing, and stopped otherwise, with queues and firmware held exactly in the first two; a running core stays and one in ERROR is declared stopped. |
| `CoreLifecycle.ResumeUndoesCollapse` | kernel-overlay/drivers/media/platform/qcom/iris/iris_hfi_common.c:161-221 | A core that collapses and resumes is as it was before, counts, bandwidth, rate and interrupt mask included. |
| `CoreLifecycle.ResumeOutcome` | kernel-overlay/drivers/media/platform/qcom/iris/iris_hfi_common.c:182-221 | A collapsed core is back if and only if its power and its firmware are; if only the firmware is not, nothing has changed. |
| `CoreLifecycle.OnlyRecoveryBringsBack` | kernel-overlay/drivers/media/platform/qcom/iris/iris_core.c:86-113 | A system error changes the state alone; after it a recovery that goes well brings a consistent core back running, powered and not collapsed, and a start without one leaves it stopped. |
| `CoreLifecycle.WatchdogIsRemembered` | kernel-overlay/drivers/media/platform/qcom/iris/iris_hfi_common.c:114-151 | Over any run of interrupts, handlers and power failures in which power does not come on, a watchdog counts as seen exactly if it was before or one fired. |
| `CoreLifecycle.FailedPowerOnUnwinds` | kernel-overlay/drivers/media/platform/qcom/iris/iris_vpu_common.c:817-826 | A power-on that fails gives every count back, except at the control domain (one too many) and the auxiliary core clock (one too few). |
| `CoreLifecycle.PowerOffAfterFailureUnderflows` | kernel-overlay/drivers/media/platform/qcom/iris/iris_vpu_common.c:515-534 | A power-off after a failed power-on takes every count one below what was held. |
| `CoreLifecycle.PowerOffUndoesPowerOn` | kernel-overlay/drivers/media/platform/qcom/iris/iris_vpu_common.c:515-553 | Power-off after power-on restores every count and the interrupt mask, and a second power-off changes nothing. |
| `CoreLifecycle.MaskStaysBalanced` | kernel-overlay/drivers/media/platform/qcom/iris/iris_hfi_common.c:114-151 | The interrupt mask stays balanced in a step if and only if the step is not power coming on while a handler that has still to unmask, or was to leave masked, an older line is at work, nor power going off after a power-on that failed. |
| `CoreLifecycle.QuietCoreIsMaskedOnce` | kernel-overlay/drivers/media/platform/qcom/iris/iris_hfi_common.c:114-151 | Over any other run, with or without watchdogs and failed power-ons, a core that is off and quiet is masked exactly once, and one that is on and quiet is open unless a watchdog was seen. |
| `CoreLifecycle.StepRunsLine` | kernel-overlay/drivers/media/platform/qcom/iris/iris_core.c:15-167 | Every step of the lifecycle moves line and power mark exactly as its successful, failed and undone power operations do one after the other. |
| `CoreLifecycle.DriverKeepsMask` | kernel-overlay/drivers/media/platform/qcom/iris/iris_vpu_common.c:515-534 | So it is for the driver itself, with interrupts and handlers wherever they can come between the steps of the lifecycle. |
| `CoreLifecycle.LateWatchdogHandlerUnmasks` | kernel-overlay/drivers/media/platform/qcom/iris/iris_hfi_common.c:147-148 | The run in which a late watchdog handler unmasks the line of a core that is off. |
| `CoreLifecycle.FailedResumeLeavesRunningCoreMasked` | kernel-overlay/drivers/media/platform/qcom/iris/iris_vpu_common.c:813-826 | The run in which a collapsed core fails to resume, is recovered at the next open, and runs with its line still masked. |
| `CoreLifecycle.IrisCore.PowerOn` | kernel-overlay/drivers/media/platform/qcom/iris/iris_vpu_common.c:757-827 | The staged power-on with its unwinding amounts to all counts one up, or to what the failing stage leaves behind; it counts as powered either way. |
| `CoreLifecycle.IrisCore.PowerOff` | kernel-overlay/drivers/media/platform/qcom/iris/iris_vpu_common.c:515-553 | All counts one down, once. |
| `CoreLifecycle.IrisCore.PowerOnController` | kernel-overlay/drivers/media/platform/qcom/iris/iris_vpu_common.c:555-630 | All or nothing, but for a control domain that does not resume. |
| `CoreLifecycle.IrisCore.PowerOnHw` | kernel-overlay/drivers/media/platform/qcom/iris/iris_vpu_common.c:632-755 | All or nothing, but for an auxiliary core clock that does not start. |
| `CoreLifecycle.IrisCore.Init` | kernel-overlay/drivers/media/platform/qcom/iris/iris_core.c:86-167 | A start that succeeds holds everything; one the firmware does not answer holds everything in ERROR; one that fails before gives back what its power stage gives back. |
| `CoreLifecycle.IrisCore.Deinit` | kernel-overlay/drivers/media/platform/qcom/iris/iris_core.c:15-44 | Releases everything unless the state is DEINIT. |
| `CoreLifecycle.IrisCore.CollapsePower` | kernel-overlay/drivers/media/platform/qcom/iris/iris_hfi_common.c:161-180 | Power goes, firmware and queues stay. |
| `CoreLifecycle.IrisCore.ResumePower` | kernel-overlay/drivers/media/platform/qcom/iris/iris_hfi_common.c:182-221 | Power comes back, or what a failure leaves. |
| `CoreLifecycle.IrisCore.HardIrq` | kernel-overlay/drivers/media/platform/qcom/iris/iris_hfi_common.c:114-130 | Masks the line once more and notes a watchdog. |
| `CoreLifecycle.IrisCore.ThreadedIrq` | kernel-overlay/drivers/media/platform/qcom/iris/iris_hfi_common.c:132-151 | Opens the line once unless a watchdog was seen. |
| `Gen2Message.ParseUndoesBuild` | kernel-overlay/drivers/media/platform/qcom/iris/iris_hfi_gen2_packet.c:89-119 | A message built in 4096 bytes reads back: its header, and exactly its packets; it is accepted if and only if it has a packet. |
| `Gen2Message.PacketLayout` | kernel-overlay/drivers/media/platform/qcom/iris/iris_hfi_gen2_packet.c:100-119 | Size, type, flags, payload information, port and id stand at bytes 0 to 20, two zero words follow, and then the payload. |
| `Gen2Message.HeaderLayout` | kernel-overlay/drivers/media/platform/qcom/iris/iris_hfi_gen2_packet.c:89-98 | Size, session, id and number of packets stand at bytes 0, 4, 8 and 28 of the header, with zeros between. |
| `Gen2Message.DecodeEncode` | kernel-overlay/drivers/media/platform/qcom/iris/iris_hfi_gen2_packet.c:100-119 | A packet reads back field for field. |
| `Gen2Message.Builder.CreatePacket` | kernel-overlay/drivers/media/platform/qcom/iris/iris_hfi_gen2_packet.c:100-119 | Appends exactly the packet behind the others, one more in the count and its size in the header. |
| `Gen2Message.ValidateHeader` | kernel-overlay/drivers/media/platform/qcom/iris/iris_hfi_gen2_response.c:167-189 | The loop accepts exactly the messages whose packets lie inside the buffer, going by their own sizes. |
| `Gen2Message.AcceptedLiesInside` | kernel-overlay/drivers/media/platform/qcom/iris/iris_hfi_gen2_response.c:150-165 | Each packet of an accepted message lies inside the buffer with its header and payload. |
| `Gen2Message.WalkAdvances` | kernel-overlay/drivers/media/platform/qcom/iris/iris_hfi_gen2_response.c:179-186 | A walk over an accepted message advances by at least 32 bytes with every packet. |
| `Gen2Message.WalkIsShort` | kernel-overlay/drivers/media/platform/qcom/iris/iris_hfi_gen2_response.c:179-186 | An accepted message has at most 127 packets. |
| `Gen2Message.BytesBehindDoNotMatter` | kernel-overlay/drivers/media/platform/qcom/iris/iris_hfi_gen2_response.c:150-165 | What lies behind the buffer never decides whether a message is accepted. |
| `Gen2Dispatch.EachPacketOnce` | kernel-overlay/drivers/media/platform/qcom/iris/iris_hfi_gen2_response.c:896-911 | A packet is handled once, in the class of its type, and in no other; one flagged as a session error is complained of in each of the four passes. |
| `Gen2Dispatch.ResponseInOrder` | kernel-overlay/drivers/media/platform/qcom/iris/iris_hfi_gen2_response.c:865-911 | Packets are handled class by class, errors, information, properties, commands, and in message order within a class. |
| `Gen2Dispatch.FlagIsBitTwo` | kernel-overlay/drivers/media/platform/qcom/iris/iris_hfi_gen2_response.c:898-903 | A packet is flagged as a session error by bit 2 of its flags alone. |
| `Gen2Dispatch.PassGoesOnce` | kernel-overlay/drivers/media/platform/qcom/iris/iris_hfi_gen2_response.c:898-910 | A pass goes through the message once, in order, and complains of a packet before it handles it. |
| `Gen2Dispatch.ClassIsTopByte` | kernel-overlay/drivers/media/platform/qcom/iris/iris_hfi_gen2_response.c:865-882 | The class of a packet is the top byte of its type, without the first and the last type of each class. |
| `Gen2Dispatch.PropertiesBeforeCommands` | kernel-overlay/drivers/media/platform/qcom/iris/iris_hfi_gen2_response.c:865-911 | Every property of a message is applied before any command of it. |
| `Gen2Dispatch.DequeueAtTheEnd` | kernel-overlay/drivers/media/platform/qcom/iris/iris_hfi_gen2_response.c:904-914 | Buffers are dequeued, last and once, if and only if the message has a buffer command. |
| `Gen2Dispatch.ResetCounts` | kernel-overlay/drivers/media/platform/qcom/iris/iris_hfi_gen2_response.c:884-893 | The parameters are reset at most once, exactly if the message announces changed settings on the bitstream port. |
| `Gen2Dispatch.ResetComesFirst` | kernel-overlay/drivers/media/platform/qcom/iris/iris_hfi_gen2_response.c:884-893 | A reset is the first action of a message, before anything is handled or complained of, and names the first packet that changes the bitstream's settings; there is one exactly if there is such a packet. |
| `Gen2Dispatch.ReportIsOfLast` | kernel-overlay/drivers/media/platform/qcom/iris/iris_hfi_gen2_response.c:896-919 | What a message reports is what the handler of its last command returns, without commands that of its last property, or else of its last information; otherwise success. |
| `Gen2Dispatch.ReportedFailureIsReal` | kernel-overlay/drivers/media/platform/qcom/iris/iris_hfi_gen2_response.c:905-907 | The result reported is that of the last handler: a message that reports a failure has put the session in ERROR. |
| `Gen2Dispatch.SessionFailsExactly` | kernel-overlay/drivers/media/platform/qcom/iris/iris_hfi_gen2_response.c:229-268 | A message puts the session in ERROR if and only if it has a packet that is flagged as a session error, is a session error itself, or whose handler fails or puts the session in ERROR. |
| `Gen2Dispatch.HandleSessionResponse` | kernel-overlay/drivers/media/platform/qcom/iris/iris_hfi_gen2_response.c:855-919 | The nested loops do exactly the four passes; the session is in ERROR if something was complained of or some handler failed or put it there, and the result is the last handler's. |
| `Gen2Dispatch.HandlePass` | kernel-overlay/drivers/media/platform/qcom/iris/iris_hfi_gen2_response.c:898-910 | One pass handles exactly the packets of its class. |
| `TimestampRing.LookupFindsNewest` | kernel-overlay/drivers/media/platform/qcom/iris/iris_buffer.c:803-817 | As long as the newest 32 timestamps differ, looking one up gives what was recorded with it, across every wrap. |
| `TimestampRing.LookupMisses` | kernel-overlay/drivers/media/platform/qcom/iris/iris_buffer.c:819-821 | An unknown timestamp gets a blank record while there is room and the oldest record after that. |
| `TimestampRing.IndexAfter` | kernel-overlay/drivers/media/platform/qcom/iris/iris_common.c:40-50 | The index stands behind the table, where a miss reads out of bounds, exactly after each full round of 32 inputs. |
| `TimestampRing.TaggedMergesFlags` | kernel-overlay/drivers/media/platform/qcom/iris/iris_buffer.c:813-815 | An output takes the timecode and source flags of its input and keeps its other flags. |
| `TimestampRing.Metadata.SetTsMetadata` | kernel-overlay/drivers/media/platform/qcom/iris/iris_common.c:34-51 | Records into the next slot of the ring. |
| `TimestampRing.Metadata.GetTsMetadata` | kernel-overlay/drivers/media/platform/qcom/iris/iris_buffer.c:803-822 | Gets what the ring says. |
| `TimestampRing.Metadata.Find` | kernel-overlay/drivers/media/platform/qcom/iris/iris_buffer.c:809-817 | The loop finds the first slot of the timestamp. |
| `RateVote.VoteStaysInBounds` | kernel-overlay/drivers/media/platform/qcom/iris/iris_vdec.c:684-698 | Whatever the windows measure, the vote stays in [30, 480] and is at least the last window's target. |
| `RateVote.QueueKeepsVote` | kernel-overlay/drivers/media/platform/qcom/iris/iris_vdec.c:111-131 | Every input, also one whose timestamp jumps and starts the window over, keeps the vote in bounds, and one that closes a window leaves it at the clamped measured rate at least. |
| `RateVote.VoteFollowsWindows` | kernel-overlay/drivers/media/platform/qcom/iris/iris_vdec.c:637-706 | After any inputs from stream-on the vote is the one the targets of the closed windows lead to, in their order. |
| `RateVote.VoteFallsOnThirdLowerWindow` | kernel-overlay/drivers/media/platform/qcom/iris/iris_vdec.c:690-698 | The vote becomes a window's target exactly if it was still 480, the target is not lower, or this is the third window in a row that is lower than it; in every other case it stays. |
| `RateVote.InputLowersOnThirdWindow` | kernel-overlay/drivers/media/platform/qcom/iris/iris_vdec.c:637-706 | Over any inputs from stream-on the vote changes only with an input that closes a window, and then exactly in that way. |
| `RateVote.LastInputCloses` | kernel-overlay/drivers/media/platform/qcom/iris/iris_vdec.c:652-706 | Inputs that fill a window: the last closes it exactly if it comes a second or more after the first, and the vote then goes by their number, their duration and the spread of their timestamps. |
| `RateVote.TargetAddsTenth` | kernel-overlay/drivers/media/platform/qcom/iris/iris_vdec.c:684-688 | Within its bounds the target is the least rate that is a tenth above what was measured. |
| `RateVote.MeasuredIsGreater` | kernel-overlay/drivers/media/platform/qcom/iris/iris_vdec.c:668-683 | A window measures the rate of its arrivals, or, on the legacy platform, that of its timestamps if it is greater. |
| `RateVote.RateIsRoundedUp` | kernel-overlay/drivers/media/platform/qcom/iris/iris_vdec.c:668-682 | Where it does not wrap, the estimate is the least whole rate that is not below the true one. |
| `RateVote.LastTimestampIsKept` | kernel-overlay/drivers/media/platform/qcom/iris/iris_vdec.c:111-131 | Over any inputs the legacy platform remembers the timestamp of the last one, whatever became of its window, and no other platform remembers any. |
| `RateVote.OrderMattersExactly` | kernel-overlay/drivers/media/platform/qcom/iris/iris_vdec.c:111-131 | Frames that arrive at given times leave the same window in every order if and only if the platform is not the legacy one or no two of their timestamps are more than a second apart. |
| `RateVote.OrderMattersExample` | kernel-overlay/drivers/media/platform/qcom/iris/iris_vdec.c:122-125 | Timestamps 0, 0.6 s and 1.2 s in order leave one window of three frames, with the last two exchanged one of two. |
| `RateVote.VoteIgnoresOrder` | kernel-overlay/drivers/media/platform/qcom/iris/iris_vdec.c:655-706 | The inputs that fill and close a window lead to the same vote in every such order. |
| `RateVote.DenseTimestampsWrap` | kernel-overlay/drivers/media/platform/qcom/iris/iris_vdec.c:676-682 | The 32-bit estimate is the true rate if and only if that is below 2^32. |
| `RateVote.Estimator.TrackInputTimestamp` | kernel-overlay/drivers/media/platform/qcom/iris/iris_vdec.c:111-131 | On the legacy platform a jump of more than a second starts the window over, and every timestamp is remembered. |
| `RateVote.Estimator.QueueInput` | kernel-overlay/drivers/media/platform/qcom/iris/iris_vdec.c:637-706 | The estimator's fields follow the windows, jumps and votes, and stay sane. |
| `RateVote.Estimator.QueueStream` | kernel-overlay/drivers/media/platform/qcom/iris/iris_vdec.c:637-706 | Over any inputs from stream-on the fields hold the vote that the closed windows lead to, within [30, 480]. |
| `FrameLayout.SizeIsExact` | kernel-overlay/drivers/media/platform/qcom/iris/iris_buffer.c:63-96 | Up to 8192 by 8192 nothing overflows 32 bits and the size is whole pages of the aligned planes. |
| `FrameLayout.EverySampleFits` | kernel-overlay/drivers/media/platform/qcom/iris/iris_buffer.c:63-96 | Every line of samples and, for every two of them, a line of colour fit into the size. |
| `FrameLayout.SizeIsMonotone` | kernel-overlay/drivers/media/platform/qcom/iris/iris_buffer.c:63-96 | A frame that is no smaller either way takes no less room. |
| `FrameLayout.Nv12MatchesStride` | kernel-overlay/drivers/media/platform/qcom/iris/iris_vdec.c:418-425 | The NV12 size is the client's line length times 3/2 of the aligned height in whole pages, from the visible or the aligned dimensions. |
| `FrameLayout.P010MatchesStride` | kernel-overlay/drivers/media/platform/qcom/iris/iris_vdec.c:418-425 | So is the P010 size from the aligned dimensions. |
| `FrameLayout.P010FromVisibleWidth` | kernel-overlay/drivers/media/platform/qcom/iris/iris_buffer.c:83-96 | From the visible width it is so if and only if the width is a multiple of 128 or more than 64 above one, and too small otherwise. |
| `FrameLayout.PackedLinesFit` | kernel-overlay/drivers/media/platform/qcom/iris/iris_buffer.c:230-231 | Three times the packed 10-bit line length is at least four times the width, despite the truncating division. |

## Left out

- Gen1Protocol.EveryRunIsSound: fewer than 2^32 - 1 flushes are outstanding; a system error marks a session under the core's lock and not under the session's own, and a recovery drops the request under neither; both count as sections of their own, before or after whatever section they fall into.
- Gen1Session.Session.FillBufferDone: finding, holding and handing back the buffer is in CaptureBuffers; here its outcome is a parameter.
- Gen1Session.Session.StartStreamonInput: setting properties succeeds or fails as a whole; so does creating, queueing and destroying internal buffers, in InputIsSetUp.
- Gen1Session.Session.StartStreamonOutput: so do the configuration and the internal buffers of capture; several waits with nothing in between but the next message are one wait.
- HfiQueue.IfaceQueue.Write: while an index stands outside the ring, a packet larger than the ring is not modelled, as the code would copy it past the end of the ring.
- HfiTraffic.Exchange: both sides keep the ring discipline, packets say their own size in whole words; weak memory and barriers are not modelled.
- CoreAdmission.NeverOverAdmitted: the session list holds values rather than objects, and the recovery flag is consumed in one step with the recovery itself.
- CorePlacement.PlacementIsBalanced: loads are fixed and no session leaves, as the measured rates that change them are not under the placement's control.
- CoreLifecycle.RunsStayConsistent: whether any instance is open, which the idle worker asks for first; a resume of a power domain that fails still counts its use, as the kernel does for the variant called here; allocating the queues fails as a whole.
- Gen1Protocol.Flushed: the other responses (requirements, stop, release, load) only end a wait, which is the step that follows it.
- CaptureBuffers.CaptureQueue.StopStreaming: the return of buffers as merely queued when capture stream-on is rolled back.
- CaptureBuffers.CaptureQueue.FillDone: what the client sees of a frame taken while a stale slot names its own buffer or one of the same timestamp; picture types, crop rectangles, sequence numbers, and the driver's own picture buffers of split mode.
- TimestampRing.Metadata.SetTsMetadata: the copy of the timestamp in microseconds, which nothing reads.
- RateVote.Estimator.QueueInput: the frame counter does not wrap within a window; inputs queued before the queue streams are set aside by the driver and not measured, so they are no inputs here.
- The encoder, Gen2 sessions beyond message handling, and platforms other than SM8150 in the lifecycle.
- V4L2, videobuf2 and mem2mem themselves: a list of buffers, a streaming flag and completions stand for them.
- Registers, polling, firmware loading, secure calls, clocks and memory mapping: each succeeds or fails.
- Property setters, colour mappings, capability tables and internal buffer sizes: translations that would add only easy members.
- Surface fences, debug queues, and races between dropping the core lock and the recovery that follows it.
