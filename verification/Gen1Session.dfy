/**
 One Gen1 decoder session as the driver keeps it: fields updated in place by the handlers of firmware
 messages, client commands and queue operations.  Every section that runs under the instance lock is a step of
 Gen1Protocol and keeps the session valid, so that any run of sections does.
 */
module Gen1Session {
  import opened Bytes
  import opened IrisState
  import opened Gen1Protocol

  lemma PauseIsSet(p: Phase, request: Flags)
    requires request == NONE || request == INPUT_PAUSE
    ensures ChangeSub(ChangeState(p, OnTarget(p.state, Output)).phase, NONE, request).ok
  {
  }

  class Session {
    var state: InstState
    var sub: Flags
    /** The core's flag, which all its sessions share. */
    var recoveryPending: bool
    var sessionOpen: bool
    var streamoffPending: bool
    var flushPending: nat
    var flushDone: nat
    var lastDequeued: bool
    /** Where the queue operation that is under way waits, and how many STARTs wait for a flush. */
    var op: Op
    var starters: nat
    ghost var inFlight: nat
    ghost var lasts: nat
    ghost var cycles: nat
    ghost var cyclesBeforeError: nat

    ghost function P(): Phase
      reads this
    {
      Phase(state, sub, recoveryPending)
    }

    ghost function F(): Flush
      reads this
    {
      Flush(flushPending, flushDone, inFlight)
    }

    /** The session as a state of the protocol. */
    ghost function View(): Inst
      reads this
    {
      Inst(P(), sessionOpen, op, starters, F(), streamoffPending, Last(lastDequeued, lasts),
           Cycles(cycles, cyclesBeforeError))
    }

    ghost predicate Valid()
      reads this
    {
      Sound(View())
    }

    constructor (pending: bool)
      ensures Valid() && View() == Fresh(pending)
    {
      state, sub, recoveryPending := Deinit, NONE, pending;
      sessionOpen, streamoffPending, lastDequeued := false, false, false;
      flushPending, flushDone := 0, 0;
      op, starters, inFlight, lasts := Free, 0, 0, 0;
      cycles, cyclesBeforeError := 0, 0;
    }

    // State and flags.

    method ChangeStateTo(to: InstState) returns (ok: bool)
      modifies this`state, this`recoveryPending
      ensures Change(P(), ok) == ChangeState(old(P()), to)
    {
      if state == Error || state == to {
        return true;
      }
      if to == Error {
        recoveryPending := true;
      } else if !MayGo(state, to) {
        return false;
      }
      state := to;
      return true;
    }

    method ChangeSubState(clear: Flags, request: Flags) returns (ok: bool)
      modifies this`sub
      ensures Change(P(), ok) == ChangeSub(old(P()), clear, request)
    {
      hide AllowSub;
      if state == Error || (clear == 0 && request == 0) {
        return true;
      }
      if clear & request != 0 || !AllowSub(state, request) {
        return false;
      }
      sub := (sub | request) & !clear;
      return true;
    }

    method SubStateDrc() returns (ok: bool)
      modifies this`sub
      ensures Change(P(), ok) == BeginDrc(old(P()))
    {
      if sub & DRC != 0 {
        return false;
      }
      var set_ := DRC | INPUT_PAUSE;
      if state == InputStreaming || state == Init {
        set_ := FIRST_IPSC | INPUT_PAUSE;
      }
      ok := ChangeSubState(0, set_);
    }

    method SubStateDrainLast() returns (ok: bool)
      modifies this`sub
      ensures Change(P(), ok) == LastOfDrain(old(P()))
    {
      if sub & DRAIN_LAST != 0 || sub & DRAIN == 0 {
        return false;
      }
      ok := ChangeSubState(0, DRAIN_LAST | OUTPUT_PAUSE);
    }

    method SubStateDrcLast() returns (ok: bool)
      modifies this`sub
      ensures Change(P(), ok) == LastOfDrc(old(P()))
    {
      if sub & DRC_LAST != 0 || sub & DRC == 0 || sub & INPUT_PAUSE == 0 {
        return false;
      }
      if sub & FIRST_IPSC != 0 {
        return true;
      }
      ok := ChangeSubState(0, DRC_LAST | OUTPUT_PAUSE);
    }

    method Die()
      modifies this`state, this`recoveryPending
      ensures P() == Fail(old(P()))
    {
      var _ := ChangeStateTo(Error);
    }

    // Firmware messages.

    /** The flush sent for a resolution change; the completion is re-armed only if no flush is outstanding. */
    method ArmDrcFlush(sent: bool)
      modifies this`flushPending, this`flushDone, this`inFlight
      ensures F() == SendDrcFlush(old(F()), sent)
    {
      if flushPending == 0 {
        flushDone := 0;
      }
      if sent {
        flushPending := Wrap32(flushPending + 1);
        inFlight := inFlight + 1;
      }
    }

    method ArmAndFlush(sent: bool)
      modifies this`flushPending, this`flushDone, this`inFlight
      ensures F() == SendFlush(old(F()), sent)
    {
      flushDone := 0;
      if sent {
        flushPending := Wrap32(flushPending + 1);
        inFlight := inFlight + 1;
      }
    }

    method ArmChange(sent: bool)
      modifies this
      ensures View() == ArmDrc(old(View()), sent)
    {
      var ok := SubStateDrc();
      if !ok {
        return;
      }
      if state != Error && sub & FIRST_IPSC == 0 {
        ArmDrcFlush(sent);
      }
      ok := SubStateDrcLast();
    }

    method EventSeqChanged(e: Event)
      requires e.SeqChanged? && Valid() && Enabled(View(), e)
      modifies this
      ensures Valid() && View() == Step(old(View()), e)
    {
      hide ArmDrc, Sound;
      StepKeepsSound(View(), e);
      if sub & DRC != 0 {
        return;
      }
      if !e.known || !e.hasProperties {
        Die();
        return;
      }
      if !e.depthOk {
        Die();
      }
      if e.fits && state == Streaming {
        if !e.resumed {
          Die();
        } else {
          var _ := ChangeSubState(DRC | FIRST_IPSC | INPUT_PAUSE, 0);
        }
        return;
      }
      ArmChange(e.sent);
    }

    /** An empty frame, or one the client queues, carries LAST when a change or a drain is over. */
    method MarkLast()
      modifies this`lastDequeued, this`lasts
      ensures View() == TagLast(old(View()))
    {
      if !lastDequeued && ((sub & DRC != 0 && sub & DRC_LAST != 0) || (sub & DRAIN != 0 && sub & DRAIN_LAST != 0)) {
        lastDequeued := true;
        lasts := lasts + 1;
      }
    }

    method FillBufferDone(e: Event)
      requires e.FillDone? && Valid() && Enabled(View(), e)
      modifies this
      ensures Valid() && View() == Step(old(View()), e)
    {
      hide Sound, TagLast, SendFlush, LastOfDrain;
      StepKeepsSound(View(), e);
      if e.eos && !e.filled {
        ArmAndFlush(e.sent);
        var _ := SubStateDrainLast();
      }
      if e.matched {
        if !e.filled && e.client {
          MarkLast();
        }
        if e.completed {
          return;
        }
      }
      if streamoffPending || lastDequeued || e.stopped {
        return;
      }
      Die();
    }

    method FlushResponse(status: FlushStatus)
      requires Valid() && Enabled(View(), FlushDone(status))
      modifies this
      ensures Valid() && View() == Step(old(View()), FlushDone(status))
    {
      hide Sound;
      StepKeepsSound(View(), FlushDone(status));
      if status != NoError && !(status == SameState && streamoffPending) {
        Die();
      }
      flushPending := Wrap32(flushPending - 1);
      if flushPending == 0 {
        flushDone := flushDone + 1;
      }
      inFlight := if inFlight == 0 then 0 else inFlight - 1;
    }

    method SystemError()
      requires Valid() && Enabled(View(), SessionError)
      modifies this
      ensures Valid() && View() == Step(old(View()), SessionError)
    {
      hide Sound;
      StepKeepsSound(View(), SessionError);
      Die();
      recoveryPending := true;
    }

    method Fails()
      requires Valid() && Enabled(View(), Failure)
      modifies this
      ensures Valid() && View() == Step(old(View()), Failure)
    {
      hide Sound;
      StepKeepsSound(View(), Failure);
      Die();
    }

    // The core.

    method RequestCoreRecovery()
      requires Valid() && Enabled(View(), CoreRequested)
      modifies this
      ensures Valid() && View() == Step(old(View()), CoreRequested)
    {
      hide Sound;
      StepKeepsSound(View(), CoreRequested);
      recoveryPending := true;
    }

    /** Another thread has power-cycled the core and dropped the request, with this session in whatever state. */
    method CoreWasRecovered()
      requires Valid() && Enabled(View(), CoreRecovered)
      modifies this
      ensures Valid() && View() == Step(old(View()), CoreRecovered)
    {
      hide Sound;
      StepKeepsSound(View(), CoreRecovered);
      recoveryPending := false;
      cycles := cycles + 1;
      cyclesBeforeError := if state == Error then cyclesBeforeError else cycles;
    }

    // Commands.

    /** The client queues a capture buffer, which comes straight back as LAST when that is due. */
    method QueueCaptureBuffer()
      requires Valid() && Enabled(View(), QueueCapture)
      modifies this
      ensures Valid() && View() == Step(old(View()), QueueCapture)
    {
      hide Sound;
      StepKeepsSound(View(), QueueCapture);
      if state != Error {
        MarkLast();
      }
    }

    method Restart(resumedInput: bool, resumedOutput: bool)
      modifies this
      ensures View() == Started(old(View()), resumedInput, resumedOutput)
    {
      var clear: Flags := 0;
      if sub & DRC != 0 && sub & DRC_LAST != 0 {
        clear := DRC | DRC_LAST;
        if sub & INPUT_PAUSE != 0 {
          if !resumedInput {
            return;
          }
          clear := clear | INPUT_PAUSE;
        }
        if sub & OUTPUT_PAUSE != 0 {
          if !resumedOutput {
            return;
          }
          clear := clear | OUTPUT_PAUSE;
        }
      } else if sub & DRAIN != 0 && sub & DRAIN_LAST != 0 {
        clear := DRAIN | DRAIN_LAST;
        if sub & INPUT_PAUSE != 0 {
          clear := clear | INPUT_PAUSE;
        }
        if sub & OUTPUT_PAUSE != 0 {
          clear := clear | OUTPUT_PAUSE;
        }
      } else {
        Die();
        return;
      }
      var ok := ChangeSubState(clear, 0);
      if ok {
        lastDequeued := false;
        lasts := 0;
      }
    }

    // Stream-on and stream-off.

    method FinishStreamonInput() returns (ok: bool)
      modifies this
      ensures View() == StreamonInputTail(old(View())) && ok
    {
      hide ChangeSub, ChangeState, OnTarget;
      ok := true;
      if sub & INPUT_PAUSE != 0 {
        ok := ChangeSubState(INPUT_PAUSE, 0);
      }
      var set_: Flags := 0;
      if sub & DRC != 0 || sub & DRAIN != 0 || sub & FIRST_IPSC != 0 {
        if sub & INPUT_PAUSE == 0 {
          set_ := INPUT_PAUSE;
        }
      }
      PauseIsSet(P(), set_);
      ok := ChangeStateTo(OnTarget(state, Output));
      lastDequeued := false;
      lasts := 0;
      ok := ChangeSubState(0, set_);
    }

    /** Capture stream-on clears a drain or change that was over before it began, and the pauses. */
    method FlagsOverAtCapture(drcActive: bool, drainActive: bool) returns (clear: Flags)
      ensures clear == ClearedByCapture(View(), drcActive, drainActive)
    {
      clear := 0;
      if drcActive {
        clear := DRC | DRC_LAST;
      } else if drainActive {
        clear := DRAIN | DRAIN_LAST;
      }
      if state == InputStreaming && sub & INPUT_PAUSE != 0 {
        clear := clear | INPUT_PAUSE;
      }
      if sub & FIRST_IPSC != 0 {
        clear := clear | FIRST_IPSC;
      }
      if sub & OUTPUT_PAUSE != 0 {
        clear := clear | OUTPUT_PAUSE;
      }
    }

    method FinishStreamonOutput(drcActive: bool, drainActive: bool) returns (ok: bool)
      modifies this
      ensures View() == CaptureOn(old(View()), drcActive, drainActive) && ok
    {
      var clear := FlagsOverAtCapture(drcActive, drainActive);
      ok := ChangeStateTo(OnTarget(state, Capture));
      lastDequeued := false;
      lasts := 0;
      ok := ChangeSubState(clear, 0);
    }

    method Forget()
      modifies this
      ensures View() == old(View()).(phase := old(P()).(sub := NONE), sessionOpen := false, op := Free,
                                     flush := Flush(0, old(flushDone), 0), streamoffPending := false,
                                     last := Last(false, 0))
    {
      sessionOpen := false;
      sub := NONE;
      streamoffPending := false;
      flushPending := 0;
      lastDequeued := false;
      op, inFlight, lasts := Free, 0, 0;
    }

    method Cleanup(closer: Closer, ok: bool)
      modifies this
      ensures View() == Closed(old(View()), closer, ok)
    {
      Forget();
      if !ok {
        recoveryPending := true;
      }
      if closer == Unwinding || (closer == Stopping && !ok) {
        Die();
      }
    }

    method StartClose(closer: Closer, sent: bool)
      modifies this
      ensures View() == BeginClose(old(View()), closer, sent)
    {
      if !sessionOpen {
        if closer == Unwinding {
          Die();
        }
        return;
      }
      var wasError := state == Error;
      if sent {
        op := AwaitClose(wasError, closer);
      } else {
        Cleanup(closer, false);
      }
    }

    method CloseSession(sent: bool)
      requires Valid() && Enabled(View(), CloseBegin(sent))
      modifies this
      ensures Valid() && View() == Step(old(View()), CloseBegin(sent))
    {
      hide Sound, BeginClose;
      StepKeepsSound(View(), CloseBegin(sent));
      StartClose(Release, sent);
    }

    /** The session end was answered, or the wait for it timed out. */
    method FinishClose(answered: bool)
      requires Valid() && Enabled(View(), CloseEnd(answered))
      modifies this
      ensures Valid() && View() == Step(old(View()), CloseEnd(answered))
    {
      hide Sound, Closed;
      StepKeepsSound(View(), CloseEnd(answered));
      var wasError, closer := op.wasError, op.closer;
      var ok := answered;
      if !answered {
        Die();
      } else if !wasError && state == Error {
        ok := false;
      } else if state != Error {
        ok := ChangeStateTo(Deinit);
      }
      Cleanup(closer, ok);
    }

    method FinishStop(plane: Plane, closer: Closer, closeSent: bool)
      modifies this
      ensures View() == StopTail(old(View()), plane, closer, closeSent)
    {
      var _ := ChangeStateTo(OffTarget(state, plane));
      if state == Init {
        StartClose(closer, closeSent);
      } else if closer == Unwinding {
        Die();
      }
    }

    /** Asks the session to give up its resources; if that cannot be sent, they count as given up. */
    method StartRelease(plane: Plane, closer: Closer, sent: bool)
      modifies this
      ensures View() == BeginRelease(old(View()), plane, closer, sent)
    {
      if sent {
        op := AwaitRelease(plane, closer);
        return;
      }
      op := Free;
      var _ := ChangeSubState(LOAD_RESOURCES, 0);
      Die();
    }

    method StartStop(plane: Plane, closer: Closer, sent: bool, released: bool, closeSent: bool)
      modifies this
      ensures View() == BeginStop(old(View()), plane, closer, sent, released, closeSent)
    {
      hide BeginRelease, StopTail, SendFlush, Fail;
      streamoffPending := true;
      if state == Streaming {
        ArmAndFlush(sent);
        if sent {
          op := AwaitFlush(plane, closer);
        } else {
          Die();
        }
      } else if sub & LOAD_RESOURCES != 0 {
        if sent {
          op := AwaitStop(plane, closer);
        } else {
          StartRelease(plane, closer, released);
        }
      } else {
        FinishStop(plane, closer, closeSent);
      }
    }

    // The sections as the client's calls run them, one per lock release.

    method StartCommand(legacy: bool, streaming: bool, formatChanged: bool, resumedInput: bool, resumedOutput: bool)
      requires Valid() && Enabled(View(), StartCmd(legacy, streaming, formatChanged, resumedInput, resumedOutput))
      modifies this
      ensures Valid() && View() == Step(old(View()), StartCmd(legacy, streaming, formatChanged, resumedInput, resumedOutput))
    {
      hide Sound, Started;
      StepKeepsSound(View(), StartCmd(legacy, streaming, formatChanged, resumedInput, resumedOutput));
      if state == Deinit || !streaming
         || !((sub & DRC != 0 && sub & DRC_LAST != 0) || (sub & DRAIN != 0 && sub & DRAIN_LAST != 0)) {
        return;
      }
      if formatChanged {
        return;
      }
      if legacy && flushPending != 0 {
        starters := starters + 1;
        return;
      }
      Restart(resumedInput, resumedOutput);
    }

    /** START goes on when the flush it waited for is over, or gives up. */
    method StartCommandFlushed(timeout: bool, resumedInput: bool, resumedOutput: bool)
      requires Valid() && Enabled(View(), StartCmdFlushed(timeout, resumedInput, resumedOutput))
      modifies this
      ensures Valid() && View() == Step(old(View()), StartCmdFlushed(timeout, resumedInput, resumedOutput))
    {
      hide Sound, Started;
      StepKeepsSound(View(), StartCmdFlushed(timeout, resumedInput, resumedOutput));
      starters := starters - 1;
      if timeout {
        Die();
      } else {
        flushDone := flushDone - 1;
        Restart(resumedInput, resumedOutput);
      }
    }

    method StopCommand(streaming: bool, sent: bool)
      requires Valid() && Enabled(View(), StopCmd(streaming, sent))
      modifies this
      ensures Valid() && View() == Step(old(View()), StopCmd(streaming, sent))
    {
      hide Sound;
      StepKeepsSound(View(), StopCmd(streaming, sent));
      if state == Deinit || !streaming || sub == DRAIN || !sent {
        return;
      }
      var _ := ChangeSubState(0, DRAIN);
    }

    method GiveUpSlot()
      modifies this`sessionOpen, this`recoveryPending, this`op
      ensures View() == ReleaseSlot(old(View()))
    {
      recoveryPending := true;
      sessionOpen := false;
      op := Free;
    }

    method OpenSession(sent: bool)
      requires Valid() && Enabled(View(), OpenBegin(sent))
      modifies this
      ensures Valid() && View() == Step(old(View()), OpenBegin(sent))
    {
      hide Sound;
      StepKeepsSound(View(), OpenBegin(sent));
      sessionOpen := true;
      if state != Deinit || !sent {
        GiveUpSlot();
        return;
      }
      op := AwaitOpen;
    }

    method FinishOpen(answered: bool)
      requires Valid() && Enabled(View(), OpenEnd(answered))
      modifies this
      ensures Valid() && View() == Step(old(View()), OpenEnd(answered))
    {
      hide Sound;
      StepKeepsSound(View(), OpenEnd(answered));
      if !answered {
        Die();
      }
      if state == Error {
        GiveUpSlot();
        return;
      }
      var ok := ChangeStateTo(Init);
      if !ok {
        GiveUpSlot();
        return;
      }
      op := Free;
    }

    method ProcessStreamonInput()
      modifies this
      ensures View() == InputSetUp(old(View()))
    {
      hide StreamonInputTail;
      if sub & LOAD_RESOURCES != 0 {
        var _ := FinishStreamonInput();
      } else {
        op := AwaitLoad;
      }
    }

    method StartStreamonInput(ready: bool, waits: bool)
      requires Valid() && Enabled(View(), StreamonInput(ready, waits))
      modifies this
      ensures Valid() && View() == Step(old(View()), StreamonInput(ready, waits))
    {
      hide Sound, InputSetUp;
      StepKeepsSound(View(), StreamonInput(ready, waits));
      streamoffPending := false;
      if !ready {
        Die();
      } else if waits {
        op := AwaitSetUp(Output);
      } else {
        ProcessStreamonInput();
      }
    }

    /** The firmware has said what buffers it needs, or the wait for that timed out. */
    method InputIsSetUp(answered: bool, ready: bool)
      requires Valid() && Enabled(View(), StreamonInputSetUp(answered, ready))
      modifies this
      ensures Valid() && View() == Step(old(View()), StreamonInputSetUp(answered, ready))
    {
      hide Sound, InputSetUp;
      StepKeepsSound(View(), StreamonInputSetUp(answered, ready));
      op := Free;
      if answered && ready {
        ProcessStreamonInput();
      } else {
        Die();
      }
    }

    /** The resources are loaded, or the wait for them timed out; the session is to start next. */
    method InputLoaded(answered: bool, sent: bool)
      requires Valid() && Enabled(View(), StreamonInputLoaded(answered, sent))
      modifies this
      ensures Valid() && View() == Step(old(View()), StreamonInputLoaded(answered, sent))
    {
      hide Sound;
      StepKeepsSound(View(), StreamonInputLoaded(answered, sent));
      if answered && sent {
        op := AwaitStart;
        return;
      }
      op := Free;
      Die();
    }

    method InputStarted(answered: bool)
      requires Valid() && Enabled(View(), StreamonInputStarted(answered))
      modifies this
      ensures Valid() && View() == Step(old(View()), StreamonInputStarted(answered))
    {
      hide Sound, StreamonInputTail;
      StepKeepsSound(View(), StreamonInputStarted(answered));
      op := Free;
      if answered {
        var ok := ChangeSubState(0, LOAD_RESOURCES);
        if ok {
          ok := FinishStreamonInput();
          return;
        }
      }
      Die();
    }

    method StreamoffAfterFlush(timeout: bool, closeSent: bool)
      requires Valid() && Enabled(View(), StreamoffFlushed(timeout, closeSent))
      modifies this
      ensures Valid() && View() == Step(old(View()), StreamoffFlushed(timeout, closeSent))
    {
      hide Sound, StopTail;
      StepKeepsSound(View(), StreamoffFlushed(timeout, closeSent));
      var plane, closer := op.plane, op.closer;
      op := Free;
      if timeout {
        Die();
      } else {
        flushDone := flushDone - 1;
        FinishStop(plane, closer, closeSent);
      }
    }

    /** Whether or not the session answered the stop, it is asked to give up its resources. */
    method StreamoffAfterStop(timedOut: bool, sent: bool)
      requires Valid() && Enabled(View(), StreamoffStopped(timedOut, sent))
      modifies this
      ensures Valid() && View() == Step(old(View()), StreamoffStopped(timedOut, sent))
    {
      hide Sound, BeginRelease;
      StepKeepsSound(View(), StreamoffStopped(timedOut, sent));
      if timedOut {
        Die();
      }
      StartRelease(op.plane, op.closer, sent);
    }

    method StreamoffAfterRelease(answered: bool, closeSent: bool)
      requires Valid() && Enabled(View(), StreamoffReleased(answered, closeSent))
      modifies this
      ensures Valid() && View() == Step(old(View()), StreamoffReleased(answered, closeSent))
    {
      hide Sound, StopTail;
      StepKeepsSound(View(), StreamoffReleased(answered, closeSent));
      var plane, closer := op.plane, op.closer;
      op := Free;
      if !answered {
        Die();
      }
      var _ := ChangeSubState(LOAD_RESOURCES, 0);
      if answered {
        FinishStop(plane, closer, closeSent);
      }
    }

    /** The rest of capture stream-on; a failure is unwound by a stream-off. */
    method FinishOrUnwindOutput(drcActive: bool, drainActive: bool, e: Event)
      requires EndsStreamon(e)
      modifies this
      ensures View() == StreamonOutputTail(old(View()), drcActive, drainActive, e)
    {
      hide CaptureOn, BeginStop;
      var ok := e.ready;
      if ok && state == InputStreaming && sub & INPUT_PAUSE != 0 && !drainActive {
        ok := e.resumed;
      }
      if ok {
        ok := FinishStreamonOutput(drcActive, drainActive);
        ok := e.queued;
      }
      if !ok {
        StartStop(Capture, Unwinding, e.sent, e.released, e.closeSent);
      }
    }

    method ProcessStreamonOutput(e: Event)
      requires EndsStreamon(e)
      modifies this
      ensures View() == OutputSetUp(old(View()), e)
    {
      hide StreamonOutputTail;
      var drainActive := sub & DRAIN != 0 && sub & DRAIN_LAST != 0;
      var drcActive := sub & DRC != 0 && sub & DRC_LAST != 0;
      if sub & INPUT_PAUSE != 0 {
        op := AwaitBuffers(drcActive, drainActive);
      } else {
        FinishOrUnwindOutput(drcActive, drainActive, e);
      }
    }

    method StartStreamonOutput(e: Event)
      requires e.StreamonOutput? && Valid() && Enabled(View(), e)
      modifies this
      ensures Valid() && View() == Step(old(View()), e)
    {
      hide Sound, OutputSetUp;
      StepKeepsSound(View(), e);
      streamoffPending := false;
      if !e.configured {
        Die();
      } else if e.waits {
        op := AwaitSetUp(Capture);
      } else {
        ProcessStreamonOutput(e);
      }
    }

    method OutputIsSetUp(e: Event)
      requires e.StreamonOutputSetUp? && Valid() && Enabled(View(), e)
      modifies this
      ensures Valid() && View() == Step(old(View()), e)
    {
      hide Sound, OutputSetUp;
      StepKeepsSound(View(), e);
      op := Free;
      if e.answered && e.configured {
        ProcessStreamonOutput(e);
      } else {
        Die();
      }
    }

    /** The input's internal buffers are in place; the flags were read before the wait. */
    method OutputReady(e: Event)
      requires e.StreamonOutputReady? && Valid() && Enabled(View(), e)
      modifies this
      ensures Valid() && View() == Step(old(View()), e)
    {
      hide Sound, StreamonOutputTail;
      StepKeepsSound(View(), e);
      var drcActive, drainActive := op.drcActive, op.drainActive;
      op := Free;
      FinishOrUnwindOutput(drcActive, drainActive, e);
    }

    method StopStreaming(plane: Plane, sent: bool, released: bool, closeSent: bool)
      requires Valid() && Enabled(View(), Streamoff(plane, sent, released, closeSent))
      modifies this
      ensures Valid() && View() == Step(old(View()), Streamoff(plane, sent, released, closeSent))
    {
      hide Sound, BeginStop;
      StepKeepsSound(View(), Streamoff(plane, sent, released, closeSent));
      if plane == Capture && state == Init {
        return;
      }
      StartStop(plane, Stopping, sent, released, closeSent);
    }

    // Runs.

    /** The section that an event starts. */
    method Handle(e: Event)
      requires Valid() && Enabled(View(), e)
      modifies this
      ensures Valid() && View() == Step(old(View()), e)
    {
      hide Step, Enabled, Sound;
      match e
      case SeqChanged(_, _, _, _, _, _) => EventSeqChanged(e);
      case SessionError => SystemError();
      case Failure => Fails();
      case FillDone(_, _, _, _, _, _, _) => FillBufferDone(e);
      case FlushDone(status) => FlushResponse(status);
      case CoreRequested => RequestCoreRecovery();
      case CoreRecovered => CoreWasRecovered();
      case StartCmd(legacy, streaming, formatChanged, resumedInput, resumedOutput) =>
        StartCommand(legacy, streaming, formatChanged, resumedInput, resumedOutput);
      case StartCmdFlushed(timeout, resumedInput, resumedOutput) => StartCommandFlushed(timeout, resumedInput, resumedOutput);
      case StopCmd(streaming, sent) => StopCommand(streaming, sent);
      case QueueCapture => QueueCaptureBuffer();
      case OpenBegin(sent) => OpenSession(sent);
      case OpenEnd(answered) => FinishOpen(answered);
      case StreamonInput(ready, waits) => StartStreamonInput(ready, waits);
      case StreamonInputSetUp(answered, ready) => InputIsSetUp(answered, ready);
      case StreamonInputLoaded(answered, sent) => InputLoaded(answered, sent);
      case StreamonInputStarted(answered) => InputStarted(answered);
      case StreamonOutput(_, _, _, _, _, _, _, _) => StartStreamonOutput(e);
      case StreamonOutputSetUp(_, _, _, _, _, _, _, _) => OutputIsSetUp(e);
      case StreamonOutputReady(_, _, _, _, _, _) => OutputReady(e);
      case Streamoff(plane, sent, released, closeSent) => StopStreaming(plane, sent, released, closeSent);
      case StreamoffFlushed(timeout, closeSent) => StreamoffAfterFlush(timeout, closeSent);
      case StreamoffStopped(timedOut, sent) => StreamoffAfterStop(timedOut, sent);
      case StreamoffReleased(answered, closeSent) => StreamoffAfterRelease(answered, closeSent);
      case CloseBegin(sent) => CloseSession(sent);
      case CloseEnd(answered) => FinishClose(answered);
    }

    /**
     Serves any run of sections that the locks and waits allow, whatever other threads do to the core.  At its
     end, as at each lock release on the way, the fields are in order: LAST was delivered at most once since it was
     last reset, a change goes with its LAST mark, and an error has its request pending or the core was cycled
     since.  As long as no answer came that was not owed, the count of flushes is that of the answers owed, and
     nobody is woken too early.
     */
    method Serve(es: seq<Event>)
      requires Valid() && Runs(View(), es)
      modifies this
      ensures Valid() && View() == After(old(View()), es)
      ensures lasts == if lastDequeued then 1 else 0
      ensures sub & DRC != 0 <==> sub & DRC_LAST != 0
      ensures sub & DRAIN_LAST != 0 ==> sub & DRAIN != 0
      ensures state == Streaming ==> sub & FIRST_IPSC == 0
      ensures state == Error ==> recoveryPending || cycles > cyclesBeforeError
      ensures op == AwaitOpen ==> sessionOpen && (state == Deinit || state == Error)
      ensures old(Balanced(F())) && !old(SometimeUnowed(View(), es)) ==>
                flushPending == inFlight && (flushDone > 0 ==> flushPending == 0)
    {
      if Balanced(F()) {
        CountStaysExact(View(), es);
      }
      hide Step, Enabled;
      for k := 0 to |es|
        invariant Valid() && Runs(View(), es[k..]) && After(View(), es[k..]) == After(old(View()), es)
      {
        assert es[k..][0] == es[k] && es[k..][1..] == es[k + 1..];
        Handle(es[k]);
      }
    }
  }
}
