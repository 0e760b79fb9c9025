/** What the session protocol promises a client: about errors, LAST, pauses, and undoing a change or a drain. */
module Gen1Promises {
  import opened Bytes
  import opened IrisState
  import opened Gen1Protocol

  // Errors.

  /** What a section does about errors: none is left, and entering one asks for the core to be recovered. */
  predicate Doomed(before: Inst, after: Inst) {
    && (before.phase.state == Error ==> after.phase.state == Error)
    && (before.phase.recoveryPending ==> after.phase.recoveryPending)
    && (after.phase.state == Error && before.phase.state != Error ==> after.phase.recoveryPending)
    && after.cycles == before.cycles
  }

  lemma SequenceChangedDooms(s: Inst, e: Event)
    requires e.SeqChanged?
    ensures Doomed(s, SequenceChanged(s, e))
  {
    var s1 := if e.depthOk then s else Failed(s);
    assert Doomed(s, s1);
    assert Doomed(s1, ArmDrc(s1, e.sent));
  }

  lemma StopTailDooms(s: Inst, plane: Plane, closer: Closer, closeSent: bool)
    ensures Doomed(s, StopTail(s, plane, closer, closeSent))
  {
    var s1 := s.(phase := ChangeState(s.phase, OffTarget(s.phase.state, plane)).phase);
    assert Doomed(s, s1);
    assert Doomed(s1, BeginClose(s1, closer, closeSent));
  }

  lemma BeginStopDooms(s: Inst, plane: Plane, closer: Closer, sent: bool, released: bool, closeSent: bool)
    ensures Doomed(s, BeginStop(s, plane, closer, sent, released, closeSent))
  {
    StopTailDooms(s.(streamoffPending := true), plane, closer, closeSent);
  }

  lemma CaptureOnDooms(s: Inst, drcActive: bool, drainActive: bool)
    ensures Doomed(s, CaptureOn(s, drcActive, drainActive))
  {
  }

  lemma StreamonDooms(s: Inst, drcActive: bool, drainActive: bool, e: Event)
    requires EndsStreamon(e)
    ensures Doomed(s, StreamonOutputTail(s, drcActive, drainActive, e))
  {
    var on := CaptureOn(s, drcActive, drainActive);
    CaptureOnDooms(s, drcActive, drainActive);
    BeginStopDooms(s, Capture, Unwinding, e.sent, e.released, e.closeSent);
    BeginStopDooms(on, Capture, Unwinding, e.sent, e.released, e.closeSent);
  }

  lemma StreamonInputDooms(s: Inst)
    ensures Doomed(s, StreamonInputTail(s))
  {
  }

  lemma SetUpDooms(s: Inst, e: Event)
    ensures Doomed(s, InputSetUp(s))
    ensures EndsStreamon(e) ==> Doomed(s, OutputSetUp(s, e))
  {
    StreamonInputDooms(s);
    if EndsStreamon(e) {
      StreamonDooms(s, s.phase.DrcPending(), s.phase.DrainPending(), e);
    }
  }

  lemma StartStepDooms(s: Inst, e: Event)
    requires Enabled(s, e) && ForStart(e)
    ensures Doomed(s, StartStep(s, e))
  {
    hide InputSetUp, OutputSetUp, StreamonOutputTail;
    SetUpDooms(s.(streamoffPending := false), e);
    SetUpDooms(s.(op := Free), e);
    if e.StreamonInputStarted? {
      StreamonInputDooms(s.(op := Free, phase := ChangeSub(s.phase, NONE, LOAD_RESOURCES).phase));
    } else if e.StreamonOutputReady? {
      StreamonDooms(s.(op := Free), s.op.drcActive, s.op.drainActive, e);
    }
  }

  lemma CloseStepDooms(s: Inst, e: Event)
    requires Enabled(s, e) && (e.CloseBegin? || e.CloseEnd?)
    ensures Doomed(s, StopStep(s, e))
  {
  }

  lemma ReleasedDooms(s: Inst, e: Event)
    requires Enabled(s, e) && e.StreamoffReleased?
    ensures Doomed(s, StopStep(s, e))
  {
    hide StopTail;
    var waited := if e.answered then s else Failed(s);
    var s1 := waited.(op := Free, phase := ChangeSub(waited.phase, LOAD_RESOURCES, NONE).phase);
    StopTailDooms(s1, s.op.plane, s.op.closer, e.closeSent);
  }

  lemma StopStepDooms(s: Inst, e: Event)
    requires Enabled(s, e) && ForStop(e)
    ensures Doomed(s, StopStep(s, e))
  {
    hide StopTail, BeginStop, BeginClose, EndClose;
    match e
    case Streamoff(plane, sent, released, closeSent) => BeginStopDooms(s, plane, Stopping, sent, released, closeSent);
    case StreamoffFlushed(timeout, closeSent) =>
      if !timeout {
        var woken := s.flush.(signals := s.flush.signals - 1);
        StopTailDooms(s.(op := Free, flush := woken), s.op.plane, s.op.closer, closeSent);
      }
    case StreamoffStopped(_, _) =>
    case StreamoffReleased(_, _) => ReleasedDooms(s, e);
    case CloseBegin(_) => CloseStepDooms(s, e);
    case CloseEnd(_) => CloseStepDooms(s, e);
  }

  lemma FirmwareStepDooms(s: Inst, e: Event)
    requires Enabled(s, e) && FromFirmware(e)
    ensures Doomed(s, FirmwareStep(s, e))
  {
    if e.SeqChanged? {
      hide SequenceChanged;
      SequenceChangedDooms(s, e);
    }
  }

  lemma ClientStepDooms(s: Inst, e: Event)
    requires Enabled(s, e) && FromClient(e)
    ensures Doomed(s, ClientStep(s, e))
  {
  }

  /**
   Every section dooms, and asks for recovery when it enters ERROR; a request is dropped only when the core has
   been power-cycled.
   */
  lemma StepDooms(s: Inst, e: Event)
    requires Enabled(s, e)
    ensures !e.CoreRecovered? ==> Doomed(s, Step(s, e))
    ensures e.CoreRecovered? ==>
              Step(s, e).phase == s.phase.(recoveryPending := false) && Step(s, e).cycles.count == s.cycles.count + 1
  {
    if FromFirmware(e) {
      hide Doomed;
      FirmwareStepDooms(s, e);
    } else if FromClient(e) {
      hide Doomed;
      ClientStepDooms(s, e);
    } else if ForStart(e) {
      hide Doomed;
      StartStepDooms(s, e);
    } else if ForStop(e) {
      hide Doomed;
      StopStepDooms(s, e);
    }
  }

  /** What a run does: a request outlives it unless the core was power-cycled on the way. */
  predicate Remembered(before: Inst, after: Inst) {
    && (before.phase.state == Error ==> after.phase.state == Error)
    && after.cycles.count >= before.cycles.count
    && (before.phase.recoveryPending || (after.phase.state == Error && before.phase.state != Error) ==>
          after.phase.recoveryPending || after.cycles.count > before.cycles.count)
  }

  /**
   Over a whole run ERROR absorbs, and the recovery that a session asks for when it enters ERROR is still
   requested at the end unless the core was power-cycled since.
   */
  lemma {:induction false} ErrorsAreRemembered(s: Inst, es: seq<Event>)
    requires Runs(s, es)
    ensures Remembered(s, After(s, es))
    decreases |es|
  {
    if es != [] {
      StepDooms(s, es[0]);
      ErrorsAreRemembered(Step(s, es[0]), es[1..]);
    }
  }

  lemma RunsNil(s: Inst)
    ensures Runs(s, []) && After(s, []) == s
  {
  }

  lemma RunsCons(s: Inst, e: Event, rest: seq<Event>)
    requires Enabled(s, e) && Runs(Step(s, e), rest)
    ensures Runs(s, [e] + rest) && After(s, [e] + rest) == After(Step(s, e), rest)
  {
    assert ([e] + rest)[1..] == rest;
  }

  /** A system error, and the recovery that its worker runs: the session stays in ERROR with nothing requested. */
  lemma RecoveryLeavesSessionInError(pending: bool)
    ensures Runs(Fresh(pending), [SessionError] + ([CoreRecovered] + []))
    ensures var s := After(Fresh(pending), [SessionError] + ([CoreRecovered] + []));
            s.phase.state == Error && !s.phase.recoveryPending && s.cycles == Cycles(1, 0)
  {
    var s1 := Step(Fresh(pending), SessionError);
    RunsNil(Step(s1, CoreRecovered));
    RunsCons(s1, CoreRecovered, []);
    RunsCons(Fresh(pending), SessionError, [CoreRecovered] + []);
  }

  /**
   The state change of stream-on reports success whatever happens, even when it has just put the session
   in error: exactly when the queue was not in a state it can be started from.
   */
  lemma StreamonNeverReportsFailure(p: Phase, plane: Plane)
    ensures var on := ChangeState(p, OnTarget(p.state, plane));
            on.ok
            && (on.phase.state == Error <==>
                  !(p.state == Init || p.state == (if plane == Output then OutputStreaming else InputStreaming)))
    ensures var off := ChangeState(p, OffTarget(p.state, plane));
            off.ok
            && (off.phase.state == Error <==>
                  !(p.state == Streaming || p.state == (if plane == Output then InputStreaming else OutputStreaming)))
  {
  }

  // Flushes.

  /** An answer wakes the waiters exactly when it is the last one owed. */
  lemma LastAnswerWakes(f: Flush)
    requires f.pending < U32_LIMIT
    ensures FlushAnswered(f).signals == if f.pending == 1 then f.signals + 1 else f.signals
    ensures FlushAnswered(f).pending < f.pending <==> f.pending > 0
  {
  }

  /**
   An answer nobody waits for any more, say one that arrives after a close has zeroed the count, wraps it:
   the count then claims flushes that the firmware does not owe, and nobody is woken.
   */
  lemma LateAnswerWraps(f: Flush)
    ensures FlushAnswered(f.(pending := 0)).pending == U32_LIMIT - 1
    ensures FlushAnswered(f.(pending := 0)).signals == f.signals
    ensures !Balanced(FlushAnswered(f.(pending := 0, inFlight := 0)))
  {
  }

  // LAST.

  /** Queue operations never tag LAST: they leave the mark alone or reset it. */
  predicate Quiet(before: Inst, after: Inst) {
    after.last == before.last || after.last == Last(false, 0)
  }

  lemma BeginStopIsQuiet(s: Inst, plane: Plane, closer: Closer, sent: bool, released: bool, closeSent: bool)
    ensures Quiet(s, BeginStop(s, plane, closer, sent, released, closeSent))
    ensures Quiet(s, StopTail(s, plane, closer, closeSent))
  {
  }

  lemma StreamonIsQuiet(s: Inst, drcActive: bool, drainActive: bool, e: Event)
    requires EndsStreamon(e)
    ensures Quiet(s, StreamonOutputTail(s, drcActive, drainActive, e))
  {
    var on := CaptureOn(s, drcActive, drainActive);
    assert on.last == Last(false, 0);
    BeginStopIsQuiet(s, Capture, Unwinding, e.sent, e.released, e.closeSent);
    BeginStopIsQuiet(on, Capture, Unwinding, e.sent, e.released, e.closeSent);
  }

  lemma SetUpIsQuiet(s: Inst, e: Event)
    ensures Quiet(s, InputSetUp(s))
    ensures EndsStreamon(e) ==> Quiet(s, OutputSetUp(s, e))
  {
    if EndsStreamon(e) {
      StreamonIsQuiet(s, s.phase.DrcPending(), s.phase.DrainPending(), e);
    }
  }

  lemma StartStepIsQuiet(s: Inst, e: Event)
    requires Enabled(s, e) && ForStart(e)
    ensures Quiet(s, StartStep(s, e))
  {
    hide InputSetUp, OutputSetUp, StreamonOutputTail;
    SetUpIsQuiet(s.(streamoffPending := false), e);
    SetUpIsQuiet(s.(op := Free), e);
    if e.StreamonOutputReady? {
      StreamonIsQuiet(s.(op := Free), s.op.drcActive, s.op.drainActive, e);
    }
  }

  lemma StopStepIsQuiet(s: Inst, e: Event)
    requires Enabled(s, e) && ForStop(e)
    ensures Quiet(s, StopStep(s, e))
  {
    match e
    case Streamoff(plane, sent, released, closeSent) => BeginStopIsQuiet(s, plane, Stopping, sent, released, closeSent);
    case StreamoffFlushed(timeout, closeSent) =>
      if !timeout {
        var woken := s.flush.(signals := s.flush.signals - 1);
        BeginStopIsQuiet(s.(op := Free, flush := woken), s.op.plane, s.op.closer, false, false, closeSent);
      }
    case StreamoffStopped(_, _) =>
    case StreamoffReleased(answered, closeSent) =>
      var waited := if answered then s else Failed(s);
      var s1 := waited.(op := Free, phase := ChangeSub(waited.phase, LOAD_RESOURCES, NONE).phase);
      BeginStopIsQuiet(s1, s.op.plane, s.op.closer, false, false, closeSent);
    case CloseBegin(_) =>
    case CloseEnd(_) =>
  }

  lemma SequenceChangeIsQuiet(s: Inst, e: Event)
    requires e.SeqChanged?
    ensures Quiet(s, SequenceChanged(s, e))
  {
  }

  /** LAST goes out only when it is due and not out yet; only an empty frame or a capture buffer can carry it. */
  lemma LastOnlyWhenDue(s: Inst, e: Event)
    requires Enabled(s, e)
    ensures Step(s, e).last.count > s.last.count ==>
              && (e.QueueCapture? || (e.FillDone? && !e.filled && e.client))
              && !s.last.dequeued && Step(s, e).last.dequeued && Step(s, e).phase.LastDue()
              && Step(s, e).last.count == s.last.count + 1
  {
    if ForStart(e) {
      StartStepIsQuiet(s, e);
    } else if ForStop(e) {
      StopStepIsQuiet(s, e);
    } else if e.SeqChanged? {
      SequenceChangeIsQuiet(s, e);
    }
  }

  // Pauses.

  /** After input stream-on outside ERROR, the input is paused exactly while a change or a drain is on. */
  lemma PausedExactlyWhileChanging(s: Inst)
    requires Sound(s)
    ensures var on := StreamonInputTail(s).phase;
            on.state != Error ==>
              (on.Has(INPUT_PAUSE) <==> on.Has(DRC) || on.Has(DRAIN) || on.Has(FIRST_IPSC))
    ensures !StreamonInputTail(s).last.dequeued
  {
  }

  // Opening and closing.

  /**
   However the open of a session is interleaved with what else happens to it, it ends with the session in INIT
   or without its slot and with a request for recovery.
   */
  lemma OpenSucceedsOrGivesUp(pending: bool, es: seq<Event>, answered: bool)
    requires Runs(Fresh(pending), es) && Enabled(After(Fresh(pending), es), OpenEnd(answered))
    ensures var before := After(Fresh(pending), es);
            var after := Step(before, OpenEnd(answered));
            && after.op == Free
            && if answered && before.phase.state != Error
               then after.phase == before.phase.(state := Init) && after.sessionOpen
               else after.phase.state == Error && !after.sessionOpen && after.phase.recoveryPending
  {
    EveryRunIsSound(Fresh(pending), es);
  }

  /**
   A close forgets the session whatever comes of it; only an answered one outside ERROR that does not unwind a
   failed stream-on ends in DEINIT.
   */
  lemma CloseForgetsSession(s: Inst, answered: bool)
    requires s.op.AwaitClose?
    ensures var after := EndClose(s, answered);
            && !after.sessionOpen && after.op == Free && after.phase.sub == NONE && after.last == Last(false, 0)
            && after.flush.pending == 0 && !after.streamoffPending
            && (after.phase.state == Deinit <==> answered && s.phase.state != Error && s.op.closer != Unwinding)
            && (after.phase.state != Deinit <==> after.phase.state == Error)
            && (!answered ==> after.phase.recoveryPending)
  {
  }

  // What undoes a change or a drain.

  const PAUSES: Flags := INPUT_PAUSE | OUTPUT_PAUSE

  /** START after LAST ends exactly the change, or failing that the drain, that was pending, and its pauses. */
  lemma StartEndsWhatWasPending(s: Inst)
    requires s.phase.LastDue() && s.phase.state != Error
    ensures var on := Started(s, true, true);
            && on.phase.state == s.phase.state
            && on.phase.sub == s.phase.sub & !(PAUSES | (if s.phase.DrcPending() then DRC | DRC_LAST else DRAIN | DRAIN_LAST))
            && on.last == Last(false, 0)
            && on.flush == s.flush
  {
  }

  /** A resolution change in the middle of a stream arms LAST and stops both sides. */
  lemma ChangeArmsLast(s: Inst, sent: bool)
    requires Ordered(s.phase) && s.phase.state == Streaming && !s.phase.Has(DRC)
    ensures var armed := ArmDrc(s, sent);
            && armed.phase == s.phase.(sub := s.phase.sub | DRC | DRC_LAST | PAUSES)
            && armed.flush == SendDrcFlush(s.flush, sent)
            && armed.phase.DrcPending()
  {
  }

  /** A session that streams, is in no change or drain, and waits for nothing. */
  predicate Steady(s: Inst) {
    && s.phase.state == Streaming && s.phase.sub & (DRC | DRC_LAST | DRAIN | DRAIN_LAST | FIRST_IPSC) == NONE
    && s.sessionOpen && s.op == Free && s.flush.pending == 0 && s.flush.inFlight == 0
  }

  /** STOP, the empty frame that ends the stream, the answer to its flush, and START. */
  function DrainAndStart(legacy: bool, stopped: bool): seq<Event> {
    [StopCmd(true, true)]
    + ([FillDone(true, false, true, true, stopped, true, true)]
       + ([FlushDone(NoError)] + ([StartCmd(legacy, true, false, true, true)] + [])))
  }

  function Draining(s: Inst): Inst {
    s.(phase := s.phase.(sub := s.phase.sub | DRAIN))
  }

  function Drained(s: Inst, flush: Flush): Inst {
    s.(phase := s.phase.(sub := s.phase.sub | DRAIN | DRAIN_LAST | OUTPUT_PAUSE), flush := flush,
       last := if s.last.dequeued then s.last else Last(true, s.last.count + 1))
  }

  lemma StopDrains(s: Inst, e: Event)
    requires Steady(s) && e == StopCmd(true, true)
    ensures Enabled(s, e) && Step(s, e) == Draining(s)
  {
  }

  lemma EmptyFrameEndsDrain(s: Inst, e: Event)
    requires Steady(s) && e.FillDone? && e.eos && !e.filled && e.client && e.matched && e.completed && e.sent
    ensures Enabled(Draining(s), e) && Step(Draining(s), e) == Drained(s, Flush(1, 0, 1))
  {
  }

  lemma FlushAnswerWakes(s: Inst, e: Event)
    requires s.flush == Flush(1, 0, 1) && e == FlushDone(NoError)
    ensures Enabled(s, e) && Step(s, e) == s.(flush := Flush(0, 1, 0))
  {
  }

  lemma StartEndsDrain(s: Inst, e: Event)
    requires Steady(s) && e.StartCmd? && e.streaming && !e.formatChanged && e.resumedInput && e.resumedOutput
    ensures var drained := Drained(s, Flush(0, 1, 0));
            && Enabled(drained, e)
            && Step(drained, e)
               == s.(phase := s.phase.(sub := s.phase.sub & !PAUSES), flush := Flush(0, 1, 0), last := Last(false, 0))
  {
    var drained := Drained(s, Flush(0, 1, 0));
    StartEndsWhatWasPending(drained);
  }

  /** STOP, the end of the stream, and START bring a decoder that was in no change back where it was. */
  lemma StartUndoesStop(s: Inst, legacy: bool, stopped: bool)
    requires Steady(s)
    ensures Runs(s, DrainAndStart(legacy, stopped))
    ensures After(s, DrainAndStart(legacy, stopped))
            == s.(phase := s.phase.(sub := s.phase.sub & !PAUSES), flush := Flush(0, 1, 0), last := Last(false, 0))
  {
    hide Runs, After, Step, Enabled, Draining, Steady;
    var e1, e2, e3, e4 := StopCmd(true, true), FillDone(true, false, true, true, stopped, true, true),
                          FlushDone(NoError), StartCmd(legacy, true, false, true, true);
    StopDrains(s, e1);
    EmptyFrameEndsDrain(s, e2);
    FlushAnswerWakes(Drained(s, Flush(1, 0, 1)), e3);
    StartEndsDrain(s, e4);
    var drained := Drained(s, Flush(0, 1, 0));
    RunsNil(Step(drained, e4));
    RunsCons(drained, e4, []);
    RunsCons(Drained(s, Flush(1, 0, 1)), e3, [e4] + []);
    RunsCons(Draining(s), e2, [e3] + ([e4] + []));
    RunsCons(s, e1, [e2] + ([e3] + ([e4] + [])));
  }

  /** A session that streams without a resolution change and waits for nothing; a drain may be on. */
  predicate Unchanging(s: Inst) {
    && Ordered(s.phase) && s.phase.state == Streaming && !s.phase.Has(DRC)
    && s.sessionOpen && s.op == Free && s.flush.pending == 0 && s.flush.inFlight == 0
  }

  /** In the change, on the way through stream-off and stream-on of the capture queue. */
  function Changing(s: Inst, state: InstState, op: Op, flush: Flush, stopping: bool): Inst {
    s.(phase := s.phase.(state := state, sub := s.phase.sub | DRC | DRC_LAST | PAUSES), op := op, flush := flush,
       streamoffPending := stopping)
  }

  lemma SequenceChangeArms(s: Inst, e: Event)
    requires Unchanging(s) && e.SeqChanged? && e.known && e.hasProperties && e.depthOk && !e.fits && e.sent
    ensures Enabled(s, e) && Step(s, e) == Changing(s, Streaming, Free, Flush(1, 0, 1), s.streamoffPending)
  {
    ChangeArmsLast(s, true);
  }

  lemma StreamoffFlushes(s: Inst, e: Event)
    requires Unchanging(s) && e.Streamoff? && e.plane == Capture && e.sent
    ensures var changing := Changing(s, Streaming, Free, Flush(0, 1, 0), s.streamoffPending);
            Enabled(changing, e)
            && Step(changing, e) == Changing(s, Streaming, AwaitFlush(Capture, Stopping), Flush(1, 0, 1), true)
  {
  }

  lemma FlushedCaptureStops(s: Inst, e: Event)
    requires Unchanging(s) && e.StreamoffFlushed? && !e.timeout
    ensures var flushed := Changing(s, Streaming, AwaitFlush(Capture, Stopping), Flush(0, 1, 0), true);
            Enabled(flushed, e) && Step(flushed, e) == Changing(s, InputStreaming, Free, Flush(0, 0, 0), true)
  {
  }

  lemma StreamonWaitsForBuffers(s: Inst, e: Event)
    requires Unchanging(s) && e.StreamonOutput? && e.configured && !e.waits
    ensures var off := Changing(s, InputStreaming, Free, Flush(0, 0, 0), true);
            var on := Step(off, e);
            Enabled(off, e)
            && on == Changing(s, InputStreaming, AwaitBuffers(true, s.phase.DrainPending()), Flush(0, 0, 0), false)
  {
  }

  lemma CaptureOnEndsChange(s: Inst)
    requires Unchanging(s)
    ensures var off := Changing(s, InputStreaming, Free, Flush(0, 0, 0), false);
            CaptureOn(off, true, s.phase.DrainPending())
            == s.(phase := s.phase.(sub := s.phase.sub & !PAUSES), flush := Flush(0, 0, 0),
                  streamoffPending := false, last := Last(false, 0))
  {
  }

  lemma StreamonEndsChange(s: Inst, e: Event)
    requires Unchanging(s) && e.StreamonOutputReady? && e.ready && e.resumed && e.queued
    ensures var ready := Changing(s, InputStreaming, AwaitBuffers(true, s.phase.DrainPending()), Flush(0, 0, 0), false);
            Enabled(ready, e)
            && Step(ready, e)
               == s.(phase := s.phase.(sub := s.phase.sub & !PAUSES), flush := Flush(0, 0, 0),
                     streamoffPending := false, last := Last(false, 0))
  {
    CaptureOnEndsChange(s);
    assert Enabled(Changing(s, InputStreaming, AwaitBuffers(true, s.phase.DrainPending()), Flush(0, 0, 0), false), e);
  }

  /** The resolution change, the answer to its flush, and the client's restart of the capture queue. */
  function ChangeAndRestart(sent: bool, released: bool, closeSent: bool): seq<Event> {
    [SeqChanged(true, true, true, false, false, true)]
    + ([FlushDone(NoError)]
       + ([Streamoff(Capture, true, released, closeSent)]
          + ([FlushDone(NoError)]
             + ([StreamoffFlushed(false, closeSent)]
                + ([StreamonOutput(true, false, true, true, true, sent, released, closeSent)]
                   + ([StreamonOutputReady(true, true, true, sent, released, closeSent)] + []))))))
  }

  /** Restarting capture after a resolution change leaves the session as it was, but for the pauses. */
  lemma RestartUndoesChange(s: Inst, sent: bool, released: bool, closeSent: bool)
    requires Unchanging(s)
    ensures Runs(s, ChangeAndRestart(sent, released, closeSent))
    ensures After(s, ChangeAndRestart(sent, released, closeSent))
            == s.(phase := s.phase.(sub := s.phase.sub & !PAUSES), flush := Flush(0, 0, 0),
                  streamoffPending := false, last := Last(false, 0))
  {
    hide Runs, After, Step, Enabled, Unchanging;
    var e1, e2 := SeqChanged(true, true, true, false, false, true), FlushDone(NoError);
    var e3 := Streamoff(Capture, true, released, closeSent);
    var e5, e6 := StreamoffFlushed(false, closeSent), StreamonOutput(true, false, true, true, true, sent, released, closeSent);
    var e7 := StreamonOutputReady(true, true, true, sent, released, closeSent);
    var s1 := Changing(s, Streaming, Free, Flush(1, 0, 1), s.streamoffPending);
    var s3 := Changing(s, Streaming, AwaitFlush(Capture, Stopping), Flush(1, 0, 1), true);
    var s2, s4 := s1.(flush := Flush(0, 1, 0)), s3.(flush := Flush(0, 1, 0));
    var s5 := Changing(s, InputStreaming, Free, Flush(0, 0, 0), true);
    var s6 := Changing(s, InputStreaming, AwaitBuffers(true, s.phase.DrainPending()), Flush(0, 0, 0), false);
    SequenceChangeArms(s, e1);
    FlushAnswerWakes(s1, e2);
    StreamoffFlushes(s, e3);
    FlushAnswerWakes(s3, e2);
    FlushedCaptureStops(s, e5);
    StreamonWaitsForBuffers(s, e6);
    StreamonEndsChange(s, e7);
    RunsNil(Step(s6, e7));
    RunsCons(s6, e7, []);
    RunsCons(s5, e6, [e7] + []);
    RunsCons(s4, e5, [e6] + ([e7] + []));
    RunsCons(s3, e2, [e5] + ([e6] + ([e7] + [])));
    RunsCons(s2, e3, [e2] + ([e5] + ([e6] + ([e7] + []))));
    RunsCons(s1, e2, [e3] + ([e2] + ([e5] + ([e6] + ([e7] + [])))));
    RunsCons(s, e1, [e2] + ([e3] + ([e2] + ([e5] + ([e6] + ([e7] + []))))));
  }

  // Everything together.

  /**
   From open on, whatever happens to the session and to the core: what holds every time the instance lock is
   released, and what holds besides as long as no flush is answered twice or too late.
   */
  lemma AtEveryRelease(pending: bool, es: seq<Event>)
    requires Runs(Fresh(pending), es)
    ensures var s := After(Fresh(pending), es);
            && s.last.count <= 1 && (s.last.count == 1 <==> s.last.dequeued)
            && (s.phase.Has(DRC) <==> s.phase.Has(DRC_LAST)) && (s.phase.Has(DRAIN_LAST) ==> s.phase.Has(DRAIN))
            && (s.phase.state == Streaming ==> !s.phase.Has(FIRST_IPSC))
            && (s.phase.state == Error ==> s.phase.recoveryPending || s.cycles.count > s.cycles.beforeError)
            && (s.op == AwaitOpen ==> s.sessionOpen && (s.phase.state == Deinit || s.phase.state == Error))
    ensures var s := After(Fresh(pending), es);
            !SometimeUnowed(Fresh(pending), es) ==>
              s.flush.pending == s.flush.inFlight && (s.flush.signals > 0 ==> s.flush.inFlight == 0)
  {
    EveryRunIsSound(Fresh(pending), es);
    CountStaysExact(Fresh(pending), es);
  }
}
