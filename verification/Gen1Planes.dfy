/**
 Which queue streams.  The states of a session are the four combinations of its two queues, and two more; the laws
 here say what each section does to a queue.
 */
module Gen1Planes {
  import opened Bytes
  import opened IrisState
  import opened Gen1Protocol
  import opened Gen1Promises

  predicate Streams(state: InstState, plane: Plane) {
    match plane
    case Output => state == InputStreaming || state == Streaming
    case Capture => state == OutputStreaming || state == Streaming
  }

  function Other(plane: Plane): Plane {
    match plane
    case Output => Capture
    case Capture => Output
  }

  /** Open, and not in error: one of the four combinations. */
  predicate Running(state: InstState) {
    state != Deinit && state != Error
  }

  /** A state is known by its queues. */
  lemma QueuesTellState(a: InstState, b: InstState)
    requires Running(a) && Running(b) && forall plane :: Streams(a, plane) == Streams(b, plane)
    ensures a == b
  {
    assert Streams(a, Output) == Streams(b, Output) && Streams(a, Capture) == Streams(b, Capture);
  }

  /** Stream-off of a queue that streams stops that queue and not the other one; of any other it is an error. */
  lemma StreamoffStopsOne(p: Phase, plane: Plane)
    requires p.state != Error
    ensures var off := ChangeState(p, OffTarget(p.state, plane));
            && off.ok && off.phase.sub == p.sub
            && if Streams(p.state, plane)
               then && Running(off.phase.state) && off.phase.recoveryPending == p.recoveryPending
                    && !Streams(off.phase.state, plane)
                    && (Streams(off.phase.state, Other(plane)) <==> Streams(p.state, Other(plane)))
               else off.phase.state == Error
  {
  }

  /** Stream-on of a queue that does not stream starts that queue and leaves the other one; of any other it is an error. */
  lemma StreamonStartsOne(p: Phase, plane: Plane)
    requires p.state != Error
    ensures var on := ChangeState(p, OnTarget(p.state, plane));
            && on.ok && on.phase.sub == p.sub
            && if Running(p.state) && !Streams(p.state, plane)
               then && Running(on.phase.state) && on.phase.recoveryPending == p.recoveryPending
                    && Streams(on.phase.state, plane)
                    && (Streams(on.phase.state, Other(plane)) <==> Streams(p.state, Other(plane)))
               else on.phase.state == Error
  {
  }

  /** A session opens into a state without queues, changes one queue at a time, and may close from anywhere. */
  lemma ChangesAllowed(a: InstState, b: InstState)
    requires a != b
    ensures MayGo(a, b) <==>
              || (a == Deinit && b == Init) || (Running(a) && b == Deinit)
              || (Running(a) && Running(b)
                  && (Streams(a, Output) == Streams(b, Output) || Streams(a, Capture) == Streams(b, Capture)))
  {
  }

  // What the sections do to the state.

  lemma SubKeepsState(p: Phase, clear: Flags, request: Flags)
    ensures ChangeSub(p, clear, request).phase.state == p.state
  {
  }

  function On(state: InstState, plane: Plane): InstState {
    if state == Error then Error else OnTarget(state, plane)
  }

  function Off(state: InstState, plane: Plane): InstState {
    if state == Error then Error else OffTarget(state, plane)
  }

  lemma ChangesGo(p: Phase, plane: Plane)
    ensures ChangeState(p, OnTarget(p.state, plane)).phase.state == On(p.state, plane)
    ensures ChangeState(p, OffTarget(p.state, plane)).phase.state == Off(p.state, plane)
  {
  }

  lemma InputTailState(s: Inst)
    ensures StreamonInputTail(s).phase.state == On(s.phase.state, Output)
  {
    hide ChangeSub, ChangeState, OnTarget, On;
    var p1 := if s.phase.Has(INPUT_PAUSE) then ChangeSub(s.phase, INPUT_PAUSE, NONE).phase else s.phase;
    SubKeepsState(s.phase, INPUT_PAUSE, NONE);
    ChangesGo(p1, Output);
    var on := ChangeState(p1, OnTarget(p1.state, Output)).phase;
    SubKeepsState(on, NONE, NONE);
    SubKeepsState(on, NONE, INPUT_PAUSE);
  }

  lemma CaptureOnState(s: Inst, drcActive: bool, drainActive: bool)
    ensures CaptureOn(s, drcActive, drainActive).phase.state == On(s.phase.state, Capture)
  {
    hide ChangeSub, ChangeState, OnTarget, On, ClearedByCapture;
    ChangesGo(s.phase, Capture);
    var on := ChangeState(s.phase, OnTarget(s.phase.state, Capture)).phase;
    SubKeepsState(on, ClearedByCapture(s, drcActive, drainActive), NONE);
  }

  /** Where the end of a stream-off leaves the state: at its target, or in error. */
  lemma StopTailState(s: Inst, plane: Plane, closer: Closer, closeSent: bool)
    ensures StopTail(s, plane, closer, closeSent).phase.state in {Off(s.phase.state, plane), Error}
  {
    hide OffTarget, Off;
    ChangesGo(s.phase, plane);
  }

  lemma BeginStopState(s: Inst, plane: Plane, closer: Closer, sent: bool, released: bool, closeSent: bool)
    ensures BeginStop(s, plane, closer, sent, released, closeSent).phase.state
            in {s.phase.state, Off(s.phase.state, plane), Error}
  {
    hide StopTail, Off;
    StopTailState(s.(streamoffPending := true), plane, closer, closeSent);
    SubKeepsState(s.phase, LOAD_RESOURCES, NONE);
  }

  lemma OutputTailState(s: Inst, drcActive: bool, drainActive: bool, e: Event)
    requires EndsStreamon(e)
    ensures StreamonOutputTail(s, drcActive, drainActive, e).phase.state
            in {s.phase.state, Off(s.phase.state, Capture), On(s.phase.state, Capture),
                Off(On(s.phase.state, Capture), Capture), Error}
  {
    hide CaptureOn, BeginStop, On, Off;
    CaptureOnState(s, drcActive, drainActive);
    BeginStopState(s, Capture, Unwinding, e.sent, e.released, e.closeSent);
    BeginStopState(CaptureOn(s, drcActive, drainActive), Capture, Unwinding, e.sent, e.released, e.closeSent);
  }

  lemma InputStartState(s: Inst, e: Event)
    requires Enabled(s, e) && Starts(e, Output)
    ensures StartStep(s, e).phase.state in {s.phase.state, On(s.phase.state, Output), Error}
  {
    hide StreamonInputTail, On, ChangeSub;
    InputTailState(s.(streamoffPending := false));
    InputTailState(s.(op := Free));
    SubKeepsState(s.phase, NONE, LOAD_RESOURCES);
    InputTailState(s.(op := Free, phase := ChangeSub(s.phase, NONE, LOAD_RESOURCES).phase));
  }

  lemma OutputStartState(s: Inst, e: Event)
    requires Enabled(s, e) && EndsStreamon(e)
    ensures StartStep(s, e).phase.state
            in {s.phase.state, Off(s.phase.state, Capture), On(s.phase.state, Capture),
                Off(On(s.phase.state, Capture), Capture), Error}
  {
    hide StreamonOutputTail, On, Off;
    if e.StreamonOutputReady? {
      OutputTailState(s.(op := Free), s.op.drcActive, s.op.drainActive, e);
    } else {
      OutputTailState(s.(streamoffPending := false), s.phase.DrcPending(), s.phase.DrainPending(), e);
      OutputTailState(s.(op := Free), s.phase.DrcPending(), s.phase.DrainPending(), e);
    }
  }

  lemma StopState(s: Inst, e: Event)
    requires Enabled(s, e) && (e.Streamoff? || e.StreamoffFlushed? || e.StreamoffReleased?)
    ensures var plane := if e.Streamoff? then e.plane else s.op.plane;
            StopStep(s, e).phase.state in {s.phase.state, Off(s.phase.state, plane), Error}
  {
    hide BeginStop, StopTail, Off;
    match e
    case Streamoff(plane, sent, released, closeSent) => BeginStopState(s, plane, Stopping, sent, released, closeSent);
    case StreamoffFlushed(timeout, closeSent) =>
      if !timeout {
        StopTailState(s.(op := Free, flush := s.flush.(signals := s.flush.signals - 1)), s.op.plane, s.op.closer, closeSent);
      }
    case StreamoffReleased(answered, closeSent) =>
      SubKeepsState(s.phase, LOAD_RESOURCES, NONE);
      if answered {
        var s1 := s.(op := Free, phase := ChangeSub(s.phase, LOAD_RESOURCES, NONE).phase);
        StopTailState(s1, s.op.plane, s.op.closer, closeSent);
      } else {
        SubKeepsState(Failed(s).phase, LOAD_RESOURCES, NONE);
      }
  }

  lemma SequenceState(s: Inst, e: Event)
    requires e.SeqChanged?
    ensures SequenceChanged(s, e).phase.state in {s.phase.state, Error}
  {
    var s1 := if e.depthOk then s else Failed(s);
    SubKeepsState(s1.phase, DRC | FIRST_IPSC | INPUT_PAUSE, NONE);
    ArmState(s1, e.sent);
    hide ArmDrc, ChangeSub;
  }

  lemma ArmState(s: Inst, sent: bool)
    ensures ArmDrc(s, sent).phase.state == s.phase.state
  {
  }

  lemma FilledState(s: Inst, e: Event)
    requires e.FillDone?
    ensures Filled(s, e).phase.state in {s.phase.state, Error}
  {
    hide SendFlush;
  }

  lemma StartedState(s: Inst, resumedInput: bool, resumedOutput: bool)
    ensures Started(s, resumedInput, resumedOutput).phase.state in {s.phase.state, Error}
  {
  }

  lemma OthersMoveNothing(s: Inst, e: Event)
    requires Enabled(s, e) && (FromFirmware(e) || FromCore(e) || FromClient(e))
    ensures Step(s, e).phase.state in {s.phase.state, Error}
  {
    hide SequenceChanged, Filled, Started;
    match e
    case SeqChanged(_, _, _, _, _, _) => SequenceState(s, e);
    case FillDone(_, _, _, _, _, _, _) => FilledState(s, e);
    case StartCmd(_, _, _, resumedInput, resumedOutput) => StartedState(s, resumedInput, resumedOutput);
    case StartCmdFlushed(timeout, resumedInput, resumedOutput) =>
      if !timeout {
        var woken := s.flush.(signals := s.flush.signals - 1);
        StartedState(s.(starters := s.starters - 1, flush := woken), resumedInput, resumedOutput);
      }
    case StopCmd(_, _) => SubKeepsState(s.phase, NONE, DRAIN);
    case _ =>
  }

  // What the sections do to the queues.

  /** The sections of the stream-on of a queue. */
  predicate Starts(e: Event, plane: Plane) {
    match plane
    case Output => e.StreamonInput? || e.StreamonInputSetUp? || e.StreamonInputStarted?
    case Capture => EndsStreamon(e)
  }

  /** The sections of its stream-off, or of the stream-on of capture that is unwound, and the end of the session. */
  predicate Stops(s: Inst, e: Event, plane: Plane)
    requires Enabled(s, e)
  {
    match e
    case Streamoff(which, _, _, _) => which == plane
    case StreamoffFlushed(_, _) => s.op.plane == plane
    case StreamoffReleased(_, _) => s.op.plane == plane
    case CloseEnd(_) => true
    case _ => plane == Capture && EndsStreamon(e)
  }

  lemma RestKeepsQueues(s: Inst, e: Event)
    requires Sound(s) && Enabled(s, e)
    requires e.OpenBegin? || e.OpenEnd? || e.StreamonInputLoaded? || e.StreamoffStopped? || e.CloseBegin?
    ensures var t := Step(s, e).phase.state;
            t == s.phase.state || t == Error || (s.phase.state == Deinit && t == Init)
  {
    SubKeepsState(s.phase, LOAD_RESOURCES, NONE);
    SubKeepsState(Failed(s).phase, LOAD_RESOURCES, NONE);
    hide ChangeSub;
  }

  /** What On and Off mean to the two queues. */
  lemma OnAndOff(state: InstState, plane: Plane, other: Plane)
    ensures var on, off := On(state, plane), Off(state, plane);
            && (on != Error ==> (Streams(on, other) <==> other == plane || Streams(state, other)))
            && (state == Error ==> on == Error && off == Error)
            && (off != Error ==> (Streams(off, other) <==> other != plane && Streams(state, other)))
  {
  }

  /** A move of the state that only a section of the right kind makes. */
  predicate MovesAlone(before: InstState, after: InstState, plane: Plane, starts: bool, stops: bool) {
    && (!Streams(before, plane) && Streams(after, plane) ==> starts)
    && (Streams(before, plane) && !Streams(after, plane) ==> stops)
  }

  lemma InputMovesAlone(s: Inst, e: Event, plane: Plane)
    requires Enabled(s, e) && Starts(e, Output) && Step(s, e).phase.state != Error
    ensures MovesAlone(s.phase.state, Step(s, e).phase.state, plane, Starts(e, plane), Stops(s, e, plane))
  {
    OnAndOff(s.phase.state, Output, plane);
    hide On, StartStep;
    InputStartState(s, e);
  }

  lemma OutputMovesAlone(s: Inst, e: Event, plane: Plane)
    requires Enabled(s, e) && EndsStreamon(e) && Step(s, e).phase.state != Error
    ensures MovesAlone(s.phase.state, Step(s, e).phase.state, plane, Starts(e, plane), Stops(s, e, plane))
  {
    OnlyCaptureMoves(s.phase.state, Step(s, e).phase.state, plane);
    hide On, Off, StartStep, MovesAlone;
    OutputStartState(s, e);
  }

  lemma OnlyCaptureMoves(before: InstState, after: InstState, plane: Plane)
    requires after != Error
    ensures after in {before, Off(before, Capture), On(before, Capture), Off(On(before, Capture), Capture), Error} ==>
              MovesAlone(before, after, plane, plane == Capture, plane == Capture)
  {
    OnAndOff(before, Capture, plane);
    OnAndOff(On(before, Capture), Capture, plane);
    hide On, Off;
  }

  lemma StopMovesAlone(s: Inst, e: Event, plane: Plane)
    requires Enabled(s, e) && (e.Streamoff? || e.StreamoffFlushed? || e.StreamoffReleased?)
    requires Step(s, e).phase.state != Error
    ensures MovesAlone(s.phase.state, Step(s, e).phase.state, plane, Starts(e, plane), Stops(s, e, plane))
  {
    OnAndOff(s.phase.state, if e.Streamoff? then e.plane else s.op.plane, plane);
    hide Off, StopStep;
    StopState(s, e);
  }

  /**
   In every section that does not end in ERROR: a queue that streams afterwards and did not before was started by
   its own stream-on, and one that does not any more was stopped by its own stream-off, by the unwinding of its
   stream-on, or by the end of the session.
   */
  lemma QueuesMoveAlone(s: Inst, e: Event, plane: Plane)
    requires Sound(s) && Enabled(s, e) && Step(s, e).phase.state != Error
    ensures MovesAlone(s.phase.state, Step(s, e).phase.state, plane, Starts(e, plane), Stops(s, e, plane))
  {
    hide Sound, Step, Enabled;
    if Starts(e, Output) {
      InputMovesAlone(s, e, plane);
    } else if EndsStreamon(e) {
      OutputMovesAlone(s, e, plane);
    } else if e.Streamoff? || e.StreamoffFlushed? || e.StreamoffReleased? {
      StopMovesAlone(s, e, plane);
    } else if FromFirmware(e) || FromCore(e) || FromClient(e) {
      OthersMoveNothing(s, e);
    } else if e.CloseEnd? {
      CloseState(s, e);
    } else {
      RestKeepsQueues(s, e);
    }
  }

  lemma CloseState(s: Inst, e: Event)
    requires Enabled(s, e) && e.CloseEnd?
    ensures Step(s, e).phase.state in {Deinit, Error}
  {
    CloseForgetsSession(s, e.answered);
    hide EndClose;
  }
}
