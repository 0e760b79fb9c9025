/** What each section makes of a session that is not in error: when it fails, what it marks, and what it leaves alone. */
module Gen1Outcomes {
  import opened Bytes
  import opened IrisState
  import opened Gen1Protocol
  import opened Gen1Planes

  // Flags.

  /** Flags are set and cleared together or not at all, and one that the state lets be set lets the others through. */
  lemma ChangeSubOutcome(p: Phase, clear: Flags, request: Flags)
    requires p.state != Error
    ensures var change := ChangeSub(p, clear, request);
            && (change.ok <==> clear & request == NONE && (request == NONE || request & Settable(p.state) != NONE))
            && change.phase == p.(sub := if change.ok then (p.sub & !clear) | request else p.sub)
  {
    SetAndClear(p.sub, clear, request);
  }

  lemma SetAndClear(sub: Flags, clear: Flags, request: Flags)
    ensures clear & request == NONE ==> (sub | request) & !clear == (sub & !clear) | request
    ensures (sub & !NONE) | NONE == sub && NONE & request == NONE && clear & NONE == NONE
  {
  }

  /** Where a resolution change can begin: not twice, and not while the input does not stream, but for a closed session. */
  lemma ChangeBegins(p: Phase)
    requires p.state != Error
    ensures var begun := BeginDrc(p);
            && (begun.ok <==> !p.Has(DRC) && (Streams(p.state, Output) || p.state == Deinit))
            && begun.phase == if !begun.ok then p
                              else if Streams(p.state, Capture) || p.state == Deinit then p.(sub := p.sub | DRC | INPUT_PAUSE)
                              else p.(sub := p.sub | FIRST_IPSC | INPUT_PAUSE)
  {
  }

  /** A drain ends where capture streams, once, with capture paused. */
  lemma DrainEnds(p: Phase)
    requires p.state != Error
    ensures var ended := LastOfDrain(p);
            && (ended.ok <==> p.Has(DRAIN) && !p.Has(DRAIN_LAST) && (Streams(p.state, Capture) || p.state == Deinit))
            && ended.phase == if ended.ok then p.(sub := p.sub | DRAIN_LAST | OUTPUT_PAUSE) else p
  {
  }

  /** So does a change whose input is paused; a first sequence change has no end of its own. */
  lemma ChangeEnds(p: Phase)
    requires p.state != Error
    ensures LastOfDrc(p).phase
            == if p.Has(DRC) && !p.Has(DRC_LAST) && p.Has(INPUT_PAUSE) && !p.Has(FIRST_IPSC)
                  && (Streams(p.state, Capture) || p.state == Deinit)
               then p.(sub := p.sub | DRC_LAST | OUTPUT_PAUSE) else p
  {
  }

  // Messages.

  /** Is the sequence change to be reported as a failure of the session? */
  predicate Malformed(s: Inst, e: Event)
    requires e.SeqChanged?
  {
    !e.known || !e.hasProperties || !e.depthOk || (s.phase.state == Streaming && e.fits && !e.resumed)
  }

  /** A change has begun: the first one only pauses the input, a later one also stops capture and sends a flush. */
  function Begun(s: Inst, sent: bool): Inst {
    if s.phase.state == InputStreaming then s.(phase := s.phase.(sub := s.phase.sub | FIRST_IPSC | INPUT_PAUSE))
    else if s.phase.state == Streaming || s.phase.state == Deinit then
      s.(phase := s.phase.(sub := s.phase.sub | DRC | DRC_LAST | INPUT_PAUSE | OUTPUT_PAUSE),
         flush := SendDrcFlush(s.flush, sent))
    else s
  }

  lemma ArmOutcome(s: Inst, sent: bool)
    requires Sound(s) && s.phase.state != Error && !s.phase.Has(DRC)
    ensures ArmDrc(s, sent) == Begun(s, sent)
  {
    hide SendDrcFlush;
    ChangeBegins(s.phase);
    if BeginDrc(s.phase).ok {
      ChangeEnds(BeginDrc(s.phase).phase);
    }
  }

  lemma ArmInError(s: Inst, sent: bool)
    requires s.phase.state == Error
    ensures ArmDrc(s, sent) == s
  {
  }

  lemma ResumeOutcome(p: Phase)
    requires p.state == Streaming && Ordered(p) && !p.Has(DRC)
    ensures ChangeSub(p, DRC | FIRST_IPSC | INPUT_PAUSE, NONE).phase == p.(sub := p.sub & !INPUT_PAUSE)
  {
  }

  /**
   A sequence change is absorbed by the change that is on, fails the session, resumes the input in place, or begins
   a change.
   */
  lemma SequenceChangeOutcome(s: Inst, e: Event)
    requires Sound(s) && s.phase.state != Error && e.SeqChanged? && Enabled(s, e)
    ensures Step(s, e) ==
              if s.phase.Has(DRC) then s
              else if Malformed(s, e) then Failed(s)
              else if s.phase.state == Streaming && e.fits then s.(phase := s.phase.(sub := s.phase.sub & !INPUT_PAUSE))
              else Begun(s, e.sent)
  {
    if !s.phase.Has(DRC) && e.known && e.hasProperties {
      ArmInError(Failed(s), e.sent);
      ArmOutcome(s, e.sent);
      if s.phase.state == Streaming {
        ResumeOutcome(s.phase);
      }
    }
    hide ArmDrc, Begun, ChangeSub;
  }

  /** A flush message counts one more flush owed and takes back the wake-ups given, unless one for a change finds some owed. */
  lemma FlushesCount(f: Flush, sent: bool)
    requires Balanced(f) && f.inFlight + 1 < U32_LIMIT
    ensures SendFlush(f, sent).inFlight == SendDrcFlush(f, sent).inFlight == f.inFlight + if sent then 1 else 0
    ensures SendFlush(f, sent).pending == SendFlush(f, sent).inFlight
    ensures SendDrcFlush(f, sent).pending == SendDrcFlush(f, sent).inFlight
    ensures SendFlush(f, sent).signals == 0 && SendDrcFlush(f, sent).signals == 0
  {
  }

  /** Is LAST due once this finished buffer has been looked at? */
  predicate LastDueAt(s: Inst, e: Event)
    requires e.FillDone?
  {
    s.phase.LastDue()
    || (e.eos && !e.filled && s.phase.Has(DRAIN) && !s.phase.Has(DRAIN_LAST)
        && (Streams(s.phase.state, Capture) || s.phase.state == Deinit))
  }

  /**
   A finished buffer: the empty one that ends the stream marks the drain and sends a flush; an empty one of the
   client's carries LAST exactly if it is due and not out; and the session fails exactly if the buffer was not
   dealt with and nothing excuses that.
   */
  lemma FillDoneOutcome(s: Inst, e: Event)
    requires s.phase.state != Error && e.FillDone? && Enabled(s, e)
    ensures var t := Step(s, e);
            && t.flush == (if e.eos && !e.filled then SendFlush(s.flush, e.sent) else s.flush)
            && (t.last != s.last <==> e.matched && !e.filled && e.client && !s.last.dequeued && LastDueAt(s, e))
            && (t.last != s.last ==> t.last == Last(true, s.last.count + 1))
            && (t.phase.state == Error <==>
                  !(e.matched && e.completed) && !s.streamoffPending && !t.last.dequeued && !e.stopped)
            && (t.phase.Has(DRAIN_LAST) <==>
                  s.phase.Has(DRAIN_LAST)
                  || (e.eos && !e.filled && s.phase.Has(DRAIN) && (Streams(s.phase.state, Capture) || s.phase.state == Deinit)))
            && t.sessionOpen == s.sessionOpen && t.op == s.op && t.starters == s.starters
  {
    hide SendFlush;
    DrainEnds(s.phase);
  }

  /** A flush is answered whatever its status; the status fails the session unless a stream-off makes it harmless. */
  lemma FlushDoneOutcome(s: Inst, status: FlushStatus)
    requires s.phase.state != Error && Enabled(s, FlushDone(status)) && Balanced(s.flush) && s.flush.inFlight > 0
    ensures var t := Step(s, FlushDone(status));
            && t.flush.inFlight == t.flush.pending == s.flush.inFlight - 1
            && t.flush.signals == (if s.flush.inFlight == 1 then s.flush.signals + 1 else s.flush.signals)
            && (t.phase == s.phase <==> status == NoError || (status == SameState && s.streamoffPending))
            && (t.phase != s.phase ==> t.phase.state == Error)
            && t == s.(phase := t.phase, flush := t.flush)
  {
  }

  // Commands.

  /**
   A failure, or an error the firmware reports, leaves the session in ERROR with a request pending; the report asks
   again even if the session was in ERROR before, which another failure does not.
   */
  lemma ErrorOutcome(s: Inst, e: Event)
    requires Enabled(s, e) && (e.SessionError? || e.Failure?)
    ensures var t := Step(s, e);
            && t.phase.state == Error && t.phase.sub == s.phase.sub && t == s.(phase := t.phase, cycles := t.cycles)
            && (t.phase.recoveryPending <==> e.SessionError? || s.phase.state != Error || s.phase.recoveryPending)
  {
  }

  /** A request or a recovery by others moves the request and the count of cycles, and nothing of the session itself. */
  lemma CoreOutcome(s: Inst, e: Event)
    requires Enabled(s, e) && FromCore(e)
    ensures var t := Step(s, e);
            && t == s.(phase := s.phase.(recoveryPending := e.CoreRequested?), cycles := t.cycles)
            && t.cycles.count == s.cycles.count + (if e.CoreRecovered? then 1 else 0)
            && (s.phase.state == Error || e.CoreRequested? ==> t.cycles.beforeError == s.cycles.beforeError)
            && (s.phase.state != Error && e.CoreRecovered? ==> t.cycles.beforeError == t.cycles.count)
  {
  }

  /** STOP begins a drain exactly if both queues of the client and the message let it, and the input streams. */
  lemma StopOutcome(s: Inst, e: Event)
    requires s.phase.state != Error && e.StopCmd? && Enabled(s, e)
    ensures Step(s, e) == if e.streaming && e.sent && Streams(s.phase.state, Output)
                          then s.(phase := s.phase.(sub := s.phase.sub | DRAIN)) else s
  {
  }

  /** What START does once no flush stands in its way. */
  lemma StartedOutcome(s: Inst, resumedInput: bool, resumedOutput: bool)
    requires s.phase.state != Error
    ensures var t := Started(s, resumedInput, resumedOutput);
            var stuck := s.phase.DrcPending()
                         && ((s.phase.Has(INPUT_PAUSE) && !resumedInput) || (s.phase.Has(OUTPUT_PAUSE) && !resumedOutput));
            && (t.phase.state == Error <==> !s.phase.LastDue())
            && (s.phase.LastDue() && stuck ==> t == s)
            && (s.phase.LastDue() && !stuck ==>
                  t == s.(last := Last(false, 0),
                          phase := s.phase.(sub := s.phase.sub & !(INPUT_PAUSE | OUTPUT_PAUSE | Over(s.phase)))))
  {
  }

  function Over(p: Phase): Flags {
    if p.DrcPending() then DRC | DRC_LAST else DRAIN | DRAIN_LAST
  }

  /** START does nothing unless LAST is due, waits for flushes on the legacy platform, and goes on otherwise. */
  lemma StartOutcome(s: Inst, e: Event)
    requires s.phase.state != Error && e.StartCmd? && Enabled(s, e)
    ensures Step(s, e) ==
              if s.phase.state == Deinit || !e.streaming || e.formatChanged || !s.phase.LastDue() then s
              else if e.legacy && s.flush.pending > 0 then s.(starters := s.starters + 1)
              else Started(s, e.resumedInput, e.resumedOutput)
  {
    hide Started;
  }

  /** A START that waited for a flush fails the session if none ends in time, or else takes a wake-up and goes on. */
  lemma StartFlushedOutcome(s: Inst, e: Event)
    requires s.phase.state != Error && e.StartCmdFlushed? && Enabled(s, e)
    ensures var t, left := Step(s, e), s.(starters := s.starters - 1);
            if e.timeout then t == left.(phase := t.phase) && t.phase.state == Error && t.phase.recoveryPending
            else t == Started(left.(flush := s.flush.(signals := s.flush.signals - 1)), e.resumedInput, e.resumedOutput)
  {
    hide Started;
  }

  /** A capture buffer that is queued carries LAST exactly if it is due and not out. */
  lemma QueueCaptureOutcome(s: Inst)
    requires Enabled(s, QueueCapture)
    ensures Step(s, QueueCapture)
            == if s.phase.state != Error && s.phase.LastDue() && !s.last.dequeued
               then s.(last := Last(true, s.last.count + 1)) else s
  {
  }

  // Opening.

  /** Open takes the slot exactly if the session is closed and the request can be sent; otherwise it asks for recovery. */
  lemma OpenBeginOutcome(s: Inst, sent: bool)
    requires Enabled(s, OpenBegin(sent))
    ensures var t := Step(s, OpenBegin(sent));
            && (t.sessionOpen <==> s.phase.state == Deinit && sent)
            && t == if t.sessionOpen then s.(sessionOpen := true, op := AwaitOpen)
                    else s.(phase := s.phase.(recoveryPending := true))
  {
  }

  // Stream-on.

  /** The input is paused exactly while a change or a drain is on. */
  function PausedFor(sub: Flags): Flags {
    if sub & (DRC | DRAIN | FIRST_IPSC) != 0 then sub | INPUT_PAUSE else sub & !INPUT_PAUSE
  }

  lemma ClearOutcome(p: Phase, clear: Flags)
    requires p.state != Error
    ensures ChangeSub(p, clear, NONE).phase == p.(sub := p.sub & !clear)
  {
    assert (p.sub | NONE) & !clear == p.sub & !clear;
    assert p.sub & !NONE == p.sub;
  }

  lemma PauseOutcome(p: Phase)
    requires Streams(p.state, Output)
    ensures ChangeSub(p, NONE, INPUT_PAUSE).phase == p.(sub := p.sub | INPUT_PAUSE)
    ensures ChangeSub(p, NONE, NONE).phase == p
  {
  }

  lemma PauseBits(sub: Flags)
    ensures var q := sub & !INPUT_PAUSE;
            && q & INPUT_PAUSE == 0
            && (q & DRC != 0 || q & DRAIN != 0 || q & FIRST_IPSC != 0 <==> sub & (DRC | DRAIN | FIRST_IPSC) != 0)
            && (sub & INPUT_PAUSE == 0 ==> q == sub)
            && PausedFor(sub) == if sub & (DRC | DRAIN | FIRST_IPSC) != 0 then q | INPUT_PAUSE else q
  {
  }

  /** What the end of input stream-on makes of a session: its input streams, paused exactly while that is needed. */
  lemma InputTailOutcome(s: Inst)
    requires Running(s.phase.state) && !Streams(s.phase.state, Output)
    ensures StreamonInputTail(s)
            == s.(phase := s.phase.(state := On(s.phase.state, Output), sub := PausedFor(s.phase.sub)),
                  last := Last(false, 0))
  {
    var p1 := s.phase.(sub := s.phase.sub & !INPUT_PAUSE);
    PauseBits(s.phase.sub);
    ClearOutcome(s.phase, INPUT_PAUSE);
    OnPhase(p1, Output);
    hide ChangeSub, ChangeState;
    assert p1 == if s.phase.Has(INPUT_PAUSE) then ChangeSub(s.phase, INPUT_PAUSE, NONE).phase else s.phase;
    var pauses := (p1.Has(DRC) || p1.Has(DRAIN) || p1.Has(FIRST_IPSC)) && !p1.Has(INPUT_PAUSE);
    assert pauses <==> s.phase.sub & (DRC | DRAIN | FIRST_IPSC) != 0;
    hide Phase.Has, PausedFor;
    PauseOutcome(p1.(state := On(s.phase.state, Output)));
  }

  /** Of an input that streams already it is an error. */
  lemma InputTailFails(s: Inst)
    requires s.phase.state != Error && !(Running(s.phase.state) && !Streams(s.phase.state, Output))
    ensures StreamonInputTail(s).phase.state == Error
  {
    hide StreamonInputTail;
    InputTailState(s);
  }

  /** Once set up, the input streams if the resources are loaded, and waits for them otherwise. */
  lemma InputSetUpOutcome(s: Inst)
    ensures InputSetUp(s) == if s.phase.Has(LOAD_RESOURCES) then StreamonInputTail(s) else s.(op := AwaitLoad)
  {
  }

  lemma InputStreamonOutcome(s: Inst, e: Event)
    requires (e.StreamonInput? || e.StreamonInputSetUp? || e.StreamonInputLoaded?) && Enabled(s, e) && s.phase.state != Error
    ensures var t := Step(s, e);
            var fails := match e
                         case StreamonInput(ready, _) => !ready
                         case StreamonInputSetUp(answered, ready) => !answered || !ready
                         case StreamonInputLoaded(answered, sent) => !answered || !sent
                         case _ => false;
            && (fails ==> t.phase.state == Error && t.op == Free)
            && (!fails && e.StreamonInput? && e.waits ==> t == s.(streamoffPending := false, op := AwaitSetUp(Output)))
            && (!fails && e.StreamonInput? && !e.waits ==> t == InputSetUp(s.(streamoffPending := false)))
            && (!fails && e.StreamonInputSetUp? ==> t == InputSetUp(s.(op := Free)))
            && (!fails && e.StreamonInputLoaded? ==> t == s.(op := AwaitStart))
  {
    hide InputSetUp;
  }

  /** An answered start marks the resources as loaded, and the input streams; without an answer the session fails. */
  lemma InputStartedOutcome(s: Inst, answered: bool)
    requires Enabled(s, StreamonInputStarted(answered)) && s.phase.state != Error
    ensures var t := Step(s, StreamonInputStarted(answered));
            && t.op == Free
            && (t.phase.state != Error <==> answered && Running(s.phase.state) && !Streams(s.phase.state, Output))
            && (t.phase.state != Error ==>
                  && Streams(t.phase.state, Output) && t.phase.sub == PausedFor(s.phase.sub | LOAD_RESOURCES)
                  && t.last == Last(false, 0) && t.flush == s.flush && t.sessionOpen == s.sessionOpen)
  {
    hide StreamonInputTail, ChangeSub, PausedFor;
    LoadOutcome(s.phase);
    var loaded := s.(op := Free, phase := s.phase.(sub := s.phase.sub | LOAD_RESOURCES));
    if Running(s.phase.state) && !Streams(s.phase.state, Output) {
      InputTailOutcome(loaded);
    }
    assert Step(s, StreamonInputStarted(answered)) ==
             if answered && ChangeSub(s.phase, NONE, LOAD_RESOURCES).ok then StreamonInputTail(loaded)
             else Failed(s.(op := Free));
    hide Step, Enabled;
  }

  lemma LoadOutcome(p: Phase)
    requires p.state != Error
    ensures var loaded := ChangeSub(p, NONE, LOAD_RESOURCES);
            && (loaded.ok <==> p.state == Init || p.state == OutputStreaming)
            && (loaded.ok ==> loaded.phase == p.(sub := p.sub | LOAD_RESOURCES))
  {
  }

  /** The flags that capture stream-on leaves: no first change, no pause of capture, and nothing of what was over. */
  function LeftByCapture(s: Inst, drcActive: bool, drainActive: bool): Flags {
    var sub := s.phase.sub & !(FIRST_IPSC | OUTPUT_PAUSE);
    var resumed := if s.phase.state == InputStreaming then sub & !INPUT_PAUSE else sub;
    if drcActive then resumed & !(DRC | DRC_LAST) else if drainActive then resumed & !(DRAIN | DRAIN_LAST) else resumed
  }

  lemma CaptureOnOutcome(s: Inst, drcActive: bool, drainActive: bool)
    requires Running(s.phase.state) && !Streams(s.phase.state, Capture)
    ensures CaptureOn(s, drcActive, drainActive)
            == s.(phase := s.phase.(state := On(s.phase.state, Capture), sub := LeftByCapture(s, drcActive, drainActive)),
                  last := Last(false, 0))
  {
    CaptureBits(s, drcActive, drainActive);
    OnPhase(s.phase, Capture);
    hide ChangeSub, ChangeState, ClearedByCapture, LeftByCapture;
    ClearOutcome(s.phase.(state := On(s.phase.state, Capture)), ClearedByCapture(s, drcActive, drainActive));
  }

  /** Of a capture queue that streams already it is an error. */
  lemma CaptureOnFails(s: Inst, drcActive: bool, drainActive: bool)
    requires s.phase.state != Error && !(Running(s.phase.state) && !Streams(s.phase.state, Capture))
    ensures CaptureOn(s, drcActive, drainActive).phase.state == Error
  {
    hide CaptureOn;
    CaptureOnState(s, drcActive, drainActive);
  }

  lemma OnPhase(p: Phase, plane: Plane)
    requires p.state != Error
    ensures Running(p.state) && !Streams(p.state, plane) ==>
              ChangeState(p, OnTarget(p.state, plane)).phase == p.(state := On(p.state, plane))
  {
  }

  lemma CaptureBits(s: Inst, drcActive: bool, drainActive: bool)
    ensures s.phase.sub & !ClearedByCapture(s, drcActive, drainActive) == LeftByCapture(s, drcActive, drainActive)
  {
  }

  /** Capture stream-on succeeds exactly if its buffers are ready, the input could be resumed, and they could be queued. */
  lemma OutputTailOutcome(s: Inst, drcActive: bool, drainActive: bool, e: Event)
    requires EndsStreamon(e)
    ensures var t := StreamonOutputTail(s, drcActive, drainActive, e);
            var on := CaptureOn(s, drcActive, drainActive);
            var resumes := s.phase.state == InputStreaming && s.phase.Has(INPUT_PAUSE) && !drainActive;
            if e.ready && (resumes ==> e.resumed) then
              t == if e.queued then on else BeginStop(on, Capture, Unwinding, e.sent, e.released, e.closeSent)
            else t == BeginStop(s, Capture, Unwinding, e.sent, e.released, e.closeSent)
  {
    hide CaptureOn, BeginStop;
  }

  /** Capture is set up: it fails, waits for the requirements, waits for the buffers of a paused input, or goes on. */
  lemma OutputStreamonOutcome(s: Inst, e: Event)
    requires EndsStreamon(e) && Enabled(s, e) && s.phase.state != Error
    ensures var t := Step(s, e);
            var s1 := if e.StreamonOutput? then s.(streamoffPending := false) else s.(op := Free);
            var fails := (e.StreamonOutput? && !e.configured) || (e.StreamonOutputSetUp? && !(e.answered && e.configured));
            if fails then t.phase.state == Error && t.op == Free
            else if e.StreamonOutputReady? then t == StreamonOutputTail(s1, s.op.drcActive, s.op.drainActive, e)
            else if e.StreamonOutput? && e.waits then t == s1.(op := AwaitSetUp(Capture))
            else if s.phase.Has(INPUT_PAUSE) then t == s1.(op := AwaitBuffers(s.phase.DrcPending(), s.phase.DrainPending()))
            else t == StreamonOutputTail(s1, s.phase.DrcPending(), s.phase.DrainPending(), e)
  {
    hide StreamonOutputTail;
  }

  // Stream-off.

  /** How stream-off begins: with a flush while both queues stream, with a stop while resources are loaded, or at once. */
  lemma BeginStopOutcome(s: Inst, plane: Plane, closer: Closer, sent: bool, released: bool, closeSent: bool)
    requires s.phase.state != Error
    ensures var t := BeginStop(s, plane, closer, sent, released, closeSent);
            var s1 := s.(streamoffPending := true);
            && (s.phase.state == Streaming ==>
                  t == if sent then s1.(op := AwaitFlush(plane, closer), flush := SendFlush(s.flush, true))
                       else Failed(s1.(flush := SendFlush(s.flush, false))))
            && (s.phase.state != Streaming && s.phase.Has(LOAD_RESOURCES) ==>
                  t == if sent then s1.(op := AwaitStop(plane, closer))
                       else if released then s1.(op := AwaitRelease(plane, closer))
                       else Failed(s1.(op := Free, phase := s.phase.(sub := s.phase.sub & !LOAD_RESOURCES))))
            && (s.phase.state != Streaming && !s.phase.Has(LOAD_RESOURCES) ==> t == StopTail(s1, plane, closer, closeSent))
  {
    hide StopTail, SendFlush;
  }

  /** How it ends: the queue stops, and with the other one stopped the session is closed. */
  lemma StopTailOutcome(s: Inst, plane: Plane, closer: Closer, closeSent: bool)
    requires s.phase.state != Error
    ensures var t := StopTail(s, plane, closer, closeSent);
            var stopped := s.(phase := s.phase.(state := Off(s.phase.state, plane)));
            if !Streams(s.phase.state, plane) then t == Failed(s)
            else if Streams(s.phase.state, Other(plane)) then t == if closer == Unwinding then Failed(stopped) else stopped
            else t == BeginClose(stopped, closer, closeSent)
  {
    hide BeginClose;
    StreamoffStopsOne(s.phase, plane);
  }

  /** A flush that is not answered fails the stream-off. */
  lemma StreamoffFlushedOutcome(s: Inst, timeout: bool, closeSent: bool)
    requires Enabled(s, StreamoffFlushed(timeout, closeSent)) && s.phase.state != Error
    ensures Step(s, StreamoffFlushed(timeout, closeSent))
            == if timeout then Failed(s.(op := Free))
               else StopTail(s.(op := Free, flush := s.flush.(signals := s.flush.signals - 1)),
                             s.op.plane, s.op.closer, closeSent)
  {
    hide StopTail;
  }

  /** A stop that is not answered fails the session but does not keep it from being released. */
  lemma StreamoffStoppedOutcome(s: Inst, timedOut: bool, sent: bool)
    requires Enabled(s, StreamoffStopped(timedOut, sent)) && s.phase.state != Error
    ensures var t := Step(s, StreamoffStopped(timedOut, sent));
            && (t.phase.state == Error <==> timedOut || !sent)
            && (t.phase.state != Error ==> t.phase.state == s.phase.state)
            && t.op == (if sent then AwaitRelease(s.op.plane, s.op.closer) else Free)
            && t.phase.sub == (if sent || timedOut then s.phase.sub else s.phase.sub & !LOAD_RESOURCES)
  {
    ClearOutcome(s.phase, LOAD_RESOURCES);
    KeptInError(Failed(s).phase, LOAD_RESOURCES);
    hide ChangeSub;
  }

  lemma KeptInError(p: Phase, clear: Flags)
    requires p.state == Error
    ensures ChangeSub(p, clear, NONE).phase == p
  {
  }

  /** An answered release takes the mark of the resources and goes on; one that is not fails with the mark in place. */
  lemma StreamoffReleasedOutcome(s: Inst, answered: bool, closeSent: bool)
    requires Enabled(s, StreamoffReleased(answered, closeSent)) && s.phase.state != Error
    ensures Step(s, StreamoffReleased(answered, closeSent))
            == if answered then StopTail(s.(op := Free, phase := s.phase.(sub := s.phase.sub & !LOAD_RESOURCES)),
                                         s.op.plane, s.op.closer, closeSent)
               else Failed(s.(op := Free))
  {
    ClearOutcome(s.phase, LOAD_RESOURCES);
    KeptInError(Failed(s).phase, LOAD_RESOURCES);
    hide StopTail, ChangeSub;
  }

  /** Stream-off of capture does nothing in INIT; any other begins. */
  lemma StreamoffOutcome(s: Inst, e: Event)
    requires e.Streamoff? && Enabled(s, e)
    ensures Step(s, e) == if e.plane == Capture && s.phase.state == Init then s
                          else BeginStop(s, e.plane, Stopping, e.sent, e.released, e.closeSent)
  {
    hide BeginStop;
  }

  // Closing.

  /** A close waits for the firmware if the session is open and the message can be sent. */
  lemma CloseBeginOutcome(s: Inst, closer: Closer, sent: bool)
    ensures var t := BeginClose(s, closer, sent);
            && (t.op.AwaitClose? && t.op != s.op ==> s.sessionOpen && sent)
            && (s.sessionOpen && sent ==> t == s.(op := AwaitClose(s.phase.state == Error, closer)))
            && (!s.sessionOpen && closer != Unwinding ==> t == s)
            && (!s.sessionOpen && closer == Unwinding ==> t == Failed(s))
            && (s.sessionOpen && !sent ==>
                  !t.sessionOpen && t.phase.recoveryPending && t.op == Free
                  && (closer != Release ==> t.phase.state == Error)
                  && (closer == Release ==> t.phase.state == s.phase.state))
  {
  }

  /** A close succeeds if it was answered and the session did not fail meanwhile; whoever stops or unwinds fails with it. */
  lemma CloseEndOutcome(s: Inst, answered: bool)
    requires Enabled(s, CloseEnd(answered))
    ensures var t := Step(s, CloseEnd(answered));
            var ok := answered && (s.op.wasError || s.phase.state != Error);
            && t.phase.state == (if ok && s.op.closer != Unwinding && s.phase.state != Error then Deinit else Error)
            && (ok && s.op.closer != Unwinding ==> t.phase.recoveryPending == s.phase.recoveryPending)
            && (!ok || (s.op.closer == Unwinding && s.phase.state != Error) ==> t.phase.recoveryPending)
            && !t.sessionOpen && t.op == Free && t.phase.sub == NONE && t.last == Last(false, 0) && !t.streamoffPending
            && t.flush == Flush(0, s.flush.signals, 0) && t.starters == s.starters && t.cycles == s.cycles
  {
  }
}
