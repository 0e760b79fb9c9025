/**
 Whether those who wait for a flush are woken.  The driver keeps one completion for all of them: it is given once
 when the last flush owed is answered, and every flush sent takes back what was given and not yet used.
 */
module Gen1Waking {
  import opened Bytes
  import opened IrisState
  import opened Gen1Protocol
  import opened Gen1Promises

  /** STARTs and a stream-off that wait for the flushes to end. */
  function Waiters(s: Inst): nat {
    s.starters + if s.op.AwaitFlush? then 1 else 0
  }

  /** The wake-ups that were given, or will be if no further flush is sent. */
  function WakeUps(f: Flush): nat {
    f.signals + if f.pending > 0 then 1 else 0
  }

  /** There is a wake-up for everybody who waits. */
  predicate Provided(s: Inst) {
    Waiters(s) <= WakeUps(s.flush)
  }

  function Answers(n: nat): seq<Event> {
    if n == 0 then [] else [FlushDone(NoError)] + Answers(n - 1)
  }

  /** Once the firmware has answered all it owes, every waiter can go on exactly if it was provided for. */
  lemma {:induction false} AnswersWake(s: Inst)
    requires Balanced(s.flush) && s.flush.inFlight + 1 < U32_LIMIT
    ensures Runs(s, Answers(s.flush.inFlight))
    ensures var end := After(s, Answers(s.flush.inFlight));
            && end == s.(flush := Flush(0, WakeUps(s.flush), 0))
            && (Waiters(end) <= end.flush.signals <==> Provided(s))
    decreases s.flush.inFlight
  {
    var n := s.flush.inFlight;
    if n > 0 {
      var next := Step(s, FlushDone(NoError));
      assert next == s.(flush := Flush(n - 1, if n == 1 then 1 else 0, n - 1));
      AnswersWake(next);
      RunsCons(s, FlushDone(NoError), Answers(n - 1));
    }
  }

  // When a step leaves a waiter without a wake-up.

  /** START that waits for the flushes. */
  predicate Joins(s: Inst, e: Event)
    requires e.StartCmd?
  {
    && e.streaming && !e.formatChanged && e.legacy && s.phase.state != Deinit
    && s.phase.LastDue() && s.flush.pending != 0
  }

  /** A sequence change that sends a flush, or tries to. */
  predicate Flushes(s: Inst, e: Event)
    requires e.SeqChanged?
  {
    && !s.phase.Has(DRC) && e.known && e.hasProperties && e.depthOk
    && (s.phase.state == Deinit || (s.phase.state == Streaming && !e.fits))
  }

  /** A flush while nothing is owed takes back the wake-ups given and stands for one, if it can be sent. */
  predicate StrandsByFlush(s: Inst, sent: bool) {
    s.flush.pending == 0 && Waiters(s) > if sent then 1 else 0
  }

  /** A START still waits for an answer that nobody will count once the session is closed. */
  predicate StrandsByClose(s: Inst) {
    s.flush.pending > 0 && s.starters > 0
  }

  predicate ClosesAtOnce(s: Inst, state: InstState, plane: Plane, closeSent: bool) {
    OffTarget(state, plane) == Init && s.sessionOpen && !closeSent
  }

  /** Stream-off that begins in phase `p`: the flush it sends is one to wait for itself. */
  predicate StrandsByStop(s: Inst, p: Phase, plane: Plane, sent: bool, closeSent: bool) {
    if p.state == Streaming then s.starters > 0 && (sent || s.flush.pending == 0)
    else !p.Has(LOAD_RESOURCES) && ClosesAtOnce(s, p.state, plane, closeSent) && StrandsByClose(s)
  }

  /** Capture stream-on that fails is unwound by such a stream-off. */
  predicate StrandsByUnwinding(s: Inst, drcActive: bool, drainActive: bool, e: Event)
    requires EndsStreamon(e)
  {
    if !e.ready || (ResumesInput(s) && !drainActive && !e.resumed) then
      StrandsByStop(s, s.phase, Capture, e.sent, e.closeSent)
    else !e.queued && StrandsByStop(s, CaptureOn(s, drcActive, drainActive).phase, Capture, e.sent, e.closeSent)
  }

  predicate StrandsBySetUp(s: Inst, e: Event)
    requires EndsStreamon(e)
  {
    !s.phase.Has(INPUT_PAUSE) && StrandsByUnwinding(s, s.phase.DrcPending(), s.phase.DrainPending(), e)
  }

  /**
   The steps that strand a waiter: a START or a stream-off that joins while somebody waits already, a flush that
   takes a wake-up back from two waiters or cannot be sent, and a close while START waits for an answer.
   */
  predicate Strands(s: Inst, e: Event)
    requires Enabled(s, e)
  {
    match e
    case StartCmd(_, _, _, _, _) => Joins(s, e) && Waiters(s) > 0
    case SeqChanged(_, _, _, _, _, sent) => Flushes(s, e) && StrandsByFlush(s, sent)
    case FillDone(eos, filled, _, _, _, _, sent) => eos && !filled && StrandsByFlush(s, sent)
    case Streamoff(plane, sent, _, closeSent) =>
      !(plane == Capture && s.phase.state == Init) && StrandsByStop(s, s.phase, plane, sent, closeSent)
    case StreamonOutput(configured, waits, _, _, _, _, _, _) => configured && !waits && StrandsBySetUp(s, e)
    case StreamonOutputSetUp(answered, configured, _, _, _, _, _, _) =>
      answered && configured && StrandsBySetUp(s, e)
    case StreamonOutputReady(_, _, _, _, _, _) => StrandsByUnwinding(s, s.op.drcActive, s.op.drainActive, e)
    case StreamoffReleased(answered, closeSent) =>
      answered && StrandsByClose(s)
      && ClosesAtOnce(s, s.phase.state, s.op.plane, closeSent)
    case CloseBegin(sent) => s.sessionOpen && !sent && StrandsByClose(s)
    case CloseEnd(_) => StrandsByClose(s)
    case _ => false
  }

  lemma FlushStrands(s: Inst, sent: bool)
    requires Balanced(s.flush) && Countable(s) && Provided(s)
    ensures var f := SendFlush(s.flush, sent); Waiters(s) <= WakeUps(f) <==> !StrandsByFlush(s, sent)
    ensures var f := SendDrcFlush(s.flush, sent); Waiters(s) <= WakeUps(f) <==> !StrandsByFlush(s, sent)
  {
  }

  lemma ChangeFlushes(s: Inst, e: Event)
    requires Ordered(s.phase) && e.SeqChanged?
    ensures var t := SequenceChanged(s, e);
            && t.starters == s.starters && t.op == s.op
            && t.flush == if Flushes(s, e) then SendDrcFlush(s.flush, e.sent) else s.flush
  {
    hide SendDrcFlush;
  }

  lemma TailWakes(s: Inst, plane: Plane, closer: Closer, closeSent: bool)
    requires s.op == Free
    ensures var t := StopTail(s, plane, closer, closeSent);
            && t.starters == s.starters && !t.op.AwaitFlush?
            && t.flush == if ClosesAtOnce(s, s.phase.state, plane, closeSent) then Flush(0, s.flush.signals, 0) else s.flush
  {
  }

  lemma StopWakes(s: Inst, plane: Plane, closer: Closer, sent: bool, released: bool, closeSent: bool)
    requires s.op == Free && Balanced(s.flush) && Countable(s) && Provided(s)
    ensures Provided(BeginStop(s, plane, closer, sent, released, closeSent))
            <==> !StrandsByStop(s, s.phase, plane, sent, closeSent)
  {
    hide StopTail, ClosesAtOnce;
    TailWakes(s.(streamoffPending := true), plane, closer, closeSent);
    ClosesFrom(s, plane, closeSent);
  }

  lemma ClosesFrom(s: Inst, plane: Plane, closeSent: bool)
    ensures ClosesAtOnce(s.(streamoffPending := true), s.phase.state, plane, closeSent)
            == ClosesAtOnce(s, s.phase.state, plane, closeSent)
  {
  }

  lemma UnwindingWakes(s: Inst, drcActive: bool, drainActive: bool, e: Event)
    requires EndsStreamon(e)
    requires s.op == Free && Balanced(s.flush) && Countable(s) && Provided(s)
    ensures Provided(StreamonOutputTail(s, drcActive, drainActive, e))
            <==> !StrandsByUnwinding(s, drcActive, drainActive, e)
  {
    hide BeginStop, CaptureOn;
    var on := CaptureOn(s, drcActive, drainActive);
    CaptureOnLeavesFlush(s, drcActive, drainActive);
    StopWakes(s, Capture, Unwinding, e.sent, e.released, e.closeSent);
    StopWakes(on, Capture, Unwinding, e.sent, e.released, e.closeSent);
  }

  lemma CaptureOnLeavesFlush(s: Inst, drcActive: bool, drainActive: bool)
    ensures var on := CaptureOn(s, drcActive, drainActive);
            on.flush == s.flush && on.op == s.op && on.starters == s.starters && on.sessionOpen == s.sessionOpen
  {
  }

  lemma FirmwareWakes(s: Inst, e: Event)
    requires Sound(s) && Balanced(s.flush) && Enabled(s, e) && FromFirmware(e) && !Unowed(s, e) && Provided(s)
    ensures Provided(FirmwareStep(s, e)) <==> !Strands(s, e)
  {
    match e
    case SeqChanged(_, _, _, _, _, sent) =>
      hide SequenceChanged, Flushes, SendDrcFlush, StrandsByFlush;
      ChangeFlushes(s, e);
      FlushStrands(s, sent);
    case FillDone(_, _, _, _, _, _, sent) =>
      hide SendFlush, StrandsByFlush;
      FlushStrands(s, sent);
    case SessionError =>
    case Failure =>
    case FlushDone(_) =>
  }

  lemma ClientWakes(s: Inst, e: Event)
    requires Balanced(s.flush) && Enabled(s, e) && FromClient(e) && Provided(s)
    ensures Provided(ClientStep(s, e)) <==> !Strands(s, e)
  {
  }

  lemma InputWakesNobody(s: Inst)
    ensures var t := InputSetUp(s);
            t.flush == s.flush && t.starters == s.starters && (s.op == Free ==> !t.op.AwaitFlush?)
  {
  }

  /** `s` differs from `before` only in what does not matter to those who wait. */
  lemma SetUpWakes(before: Inst, s: Inst, e: Event)
    requires EndsStreamon(e) && s.op == Free && Balanced(s.flush) && Countable(s) && Provided(s)
    requires before.phase == s.phase && before.flush == s.flush
    requires before.starters == s.starters && before.sessionOpen == s.sessionOpen
    ensures Provided(OutputSetUp(s, e)) <==> !StrandsBySetUp(before, e)
  {
    hide StreamonOutputTail, StrandsByUnwinding;
    UnwindingWakes(s, s.phase.DrcPending(), s.phase.DrainPending(), e);
    SameUnwinding(before, s, s.phase.DrcPending(), s.phase.DrainPending(), e);
  }

  lemma StartWakes(s: Inst, e: Event)
    requires Balanced(s.flush) && Enabled(s, e) && ForStart(e) && Provided(s)
    ensures Provided(StartStep(s, e)) <==> !Strands(s, e)
  {
    hide InputSetUp, OutputSetUp, StrandsBySetUp, StreamonOutputTail, StrandsByUnwinding;
    var on, free := s.(streamoffPending := false), s.(op := Free);
    InputWakesNobody(on);
    InputWakesNobody(free);
    if e.StreamonOutput? {
      SetUpWakes(s, on, e);
    } else if e.StreamonOutputSetUp? {
      SetUpWakes(s, free, e);
    } else if e.StreamonOutputReady? {
      UnwindingWakes(free, s.op.drcActive, s.op.drainActive, e);
      SameUnwinding(s, free, s.op.drcActive, s.op.drainActive, e);
    }
  }

  lemma SameUnwinding(s: Inst, t: Inst, drcActive: bool, drainActive: bool, e: Event)
    requires EndsStreamon(e)
    requires t.phase == s.phase && t.flush == s.flush && t.starters == s.starters && t.sessionOpen == s.sessionOpen
    ensures StrandsByUnwinding(t, drcActive, drainActive, e) == StrandsByUnwinding(s, drcActive, drainActive, e)
  {
    hide CaptureOn, StrandsByStop;
    SameCaptureOn(s, t, drcActive, drainActive);
    SameStop(s, t, s.phase, e);
    SameStop(s, t, CaptureOn(s, drcActive, drainActive).phase, e);
  }

  lemma SameCaptureOn(s: Inst, t: Inst, drcActive: bool, drainActive: bool)
    requires t.phase == s.phase
    ensures CaptureOn(t, drcActive, drainActive).phase == CaptureOn(s, drcActive, drainActive).phase
  {
  }

  lemma SameStop(s: Inst, t: Inst, p: Phase, e: Event)
    requires EndsStreamon(e)
    requires t.flush == s.flush && t.starters == s.starters && t.sessionOpen == s.sessionOpen
    ensures StrandsByStop(t, p, Capture, e.sent, e.closeSent) == StrandsByStop(s, p, Capture, e.sent, e.closeSent)
  {
  }

  lemma ClosingWakes(s: Inst, e: Event)
    requires Balanced(s.flush) && Enabled(s, e) && (e.CloseBegin? || e.CloseEnd?) && Provided(s)
    ensures Provided(StopStep(s, e)) <==> !Strands(s, e)
  {
  }

  lemma ReleasedWakes(s: Inst, e: Event)
    requires Balanced(s.flush) && Enabled(s, e) && e.StreamoffReleased? && Provided(s)
    ensures Provided(StopStep(s, e)) <==> !Strands(s, e)
  {
    hide StopTail;
    var waited := if e.answered then s else Failed(s);
    var s1 := waited.(op := Free, phase := ChangeSub(waited.phase, LOAD_RESOURCES, NONE).phase);
    TailWakes(s1, s.op.plane, s.op.closer, e.closeSent);
  }

  lemma StoppingWakes(s: Inst, e: Event)
    requires Balanced(s.flush) && Enabled(s, e) && ForStop(e) && Provided(s)
    ensures Provided(StopStep(s, e)) <==> !Strands(s, e)
  {
    hide BeginStop, StopTail, BeginClose, EndClose, StrandsByStop;
    match e
    case Streamoff(plane, sent, released, closeSent) => StopWakes(s, plane, Stopping, sent, released, closeSent);
    case StreamoffFlushed(timeout, closeSent) =>
      if !timeout {
        var woken := s.(op := Free, flush := s.flush.(signals := s.flush.signals - 1));
        TailWakes(woken, s.op.plane, s.op.closer, closeSent);
      }
    case StreamoffStopped(_, _) =>
    case StreamoffReleased(_, _) => ReleasedWakes(s, e);
    case CloseBegin(_) => ClosingWakes(s, e);
    case CloseEnd(_) => ClosingWakes(s, e);
  }

  /** As long as everybody who waits is provided for, a step leaves it so exactly if it is none of those. */
  lemma StepWakes(s: Inst, e: Event)
    requires Sound(s) && Balanced(s.flush) && Enabled(s, e) && !Unowed(s, e) && Provided(s)
    ensures Provided(Step(s, e)) <==> !Strands(s, e)
  {
    hide Provided, Strands;
    if FromFirmware(e) {
      FirmwareWakes(s, e);
    } else if FromCore(e) {
      CoreStepWakesNobody(s, e);
    } else if FromClient(e) {
      ClientWakes(s, e);
    } else if ForStart(e) {
      StartWakes(s, e);
    } else {
      StoppingWakes(s, e);
    }
  }

  lemma CoreStepWakesNobody(s: Inst, e: Event)
    requires Enabled(s, e) && FromCore(e) && Provided(s)
    ensures Provided(CoreStep(s, e)) && !Strands(s, e)
  {
  }

  predicate SometimeStrands(s: Inst, es: seq<Event>)
    requires Runs(s, es)
    decreases |es|
  {
    es != [] && (Strands(s, es[0]) || SometimeStrands(Step(s, es[0]), es[1..]))
  }

  predicate AlwaysProvided(s: Inst, es: seq<Event>)
    requires Runs(s, es)
    decreases |es|
  {
    Provided(s) && (es != [] ==> AlwaysProvided(Step(s, es[0]), es[1..]))
  }

  /**
   Over a run, as long as the firmware answers only what it owes: everybody who waits for a flush is woken once
   the firmware has answered, at each point of the run, if and only if no step strands a waiter.
   */
  lemma {:induction false} EveryWaiterIsWoken(s: Inst, es: seq<Event>)
    requires Sound(s) && Balanced(s.flush) && Provided(s) && Runs(s, es) && !SometimeUnowed(s, es)
    ensures AlwaysProvided(s, es) <==> !SometimeStrands(s, es)
    decreases |es|
  {
    hide Sound, Balanced, Provided, Strands, Unowed;
    if es != [] {
      StepKeepsSound(s, es[0]);
      StepWakes(s, es[0]);
      if !Strands(s, es[0]) {
        EveryWaiterIsWoken(Step(s, es[0]), es[1..]);
      }
    }
  }

  // The run that strands START.

  /** START waits for the flush of a change; capture stream-off sends a second one; both are answered. */
  function TwoWaitForOne(start: Event, off: Event, go: Event): seq<Event> {
    [start] + ([off] + ([FlushDone(NoError)] + ([FlushDone(NoError)] + ([go] + []))))
  }

  lemma StartJoins(s: Inst, e: Event)
    requires Unchanging(s) && e.StartCmd? && e.legacy && e.streaming && !e.formatChanged
    ensures var changing := Changing(s, Streaming, Free, Flush(1, 0, 1), s.streamoffPending);
            Enabled(changing, e) && Step(changing, e) == changing.(starters := s.starters + 1)
  {
  }

  lemma StopJoins(s: Inst, e: Event)
    requires Unchanging(s) && e.Streamoff? && e.plane == Capture && e.sent
    ensures var waiting := Changing(s, Streaming, Free, Flush(1, 0, 1), s.streamoffPending).(starters := s.starters + 1);
            && Enabled(waiting, e) && Strands(waiting, e)
            && Step(waiting, e) == Changing(s, Streaming, AwaitFlush(Capture, Stopping), Flush(2, 0, 2), true).(
                                     starters := s.starters + 1)
  {
  }

  lemma FirstAnswer(s: Inst)
    requires s.flush == Flush(2, 0, 2)
    ensures Enabled(s, FlushDone(NoError)) && Step(s, FlushDone(NoError)) == s.(flush := Flush(1, 0, 1))
  {
  }

  /** Nothing is owed any more, the stream-off has used the one wake-up, and START can only time out. */
  lemma StrandedStart(s: Inst, start: Event, off: Event, go: Event)
    requires Unchanging(s) && start.StartCmd? && start.legacy && start.streaming && !start.formatChanged
    requires off.Streamoff? && off.plane == Capture && off.sent && go.StreamoffFlushed? && !go.timeout
    ensures var changing := Changing(s, Streaming, Free, Flush(1, 0, 1), s.streamoffPending);
            && Runs(changing, TwoWaitForOne(start, off, go))
            && var end := After(changing, TwoWaitForOne(start, off, go));
               && end.flush == Flush(0, 0, 0) && end.starters == s.starters + 1
               && !Enabled(end, StartCmdFlushed(false, true, true))
  {
    hide Runs, After, Step, Enabled, Unchanging, Changing, Strands;
    var s0 := Changing(s, Streaming, Free, Flush(1, 0, 1), s.streamoffPending);
    var s1 := s0.(starters := s.starters + 1);
    var s2 := Changing(s, Streaming, AwaitFlush(Capture, Stopping), Flush(2, 0, 2), true).(starters := s.starters + 1);
    var s3 := s2.(flush := Flush(1, 0, 1));
    var s4 := s2.(flush := Flush(0, 1, 0));
    StartJoins(s, start);
    StopJoins(s, off);
    ChangingFlush(s, Streaming, AwaitFlush(Capture, Stopping), Flush(2, 0, 2), true);
    FirstAnswer(s2);
    FlushAnswerWakes(s3, FlushDone(NoError));
    StopGoesOn(s4, go);
    RunsNil(Step(s4, go));
    RunsCons(s4, go, []);
    RunsCons(s3, FlushDone(NoError), [go] + []);
    RunsCons(s2, FlushDone(NoError), [FlushDone(NoError)] + ([go] + []));
    RunsCons(s1, off, [FlushDone(NoError)] + ([FlushDone(NoError)] + ([go] + [])));
    RunsCons(s0, start, [off] + ([FlushDone(NoError)] + ([FlushDone(NoError)] + ([go] + []))));
  }

  lemma ChangingFlush(s: Inst, state: InstState, op: Op, flush: Flush, stopping: bool)
    ensures var t := Changing(s, state, op, flush, stopping); t.flush == flush && t.op == op && t.phase.state == state
  {
  }

  lemma StopGoesOn(s: Inst, e: Event)
    requires s.op == AwaitFlush(Capture, Stopping) && s.flush == Flush(0, 1, 0) && s.phase.state == Streaming
    requires e.StreamoffFlushed? && !e.timeout
    ensures Enabled(s, e)
    ensures Step(s, e).flush == Flush(0, 0, 0) && Step(s, e).starters == s.starters
    ensures !Enabled(Step(s, e), StartCmdFlushed(false, true, true))
  {
  }
}
