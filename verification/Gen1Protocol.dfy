/**
 The session protocol of an HFI Gen1 decoder as a state machine.  A step is what one thread does from
 taking the instance lock to releasing it.  The lock is released inside an operation only while it waits
 for the firmware, so an operation that waits is several steps, and any other thread's steps may come in
 between.  `op` says which queue operation is under way: those exclude each other through the queue lock.
 */
module Gen1Protocol {
  import opened Bytes
  import opened IrisState

  /** Who closes the session, and so what becomes of a failure to do it. */
  datatype Closer = Release | Stopping | Unwinding

  datatype Op =
    | Free
    | AwaitOpen
    | AwaitSetUp(plane: Plane)
    | AwaitLoad
    | AwaitStart
    | AwaitBuffers(drcActive: bool, drainActive: bool)
    | AwaitFlush(plane: Plane, closer: Closer)
    | AwaitStop(plane: Plane, closer: Closer)
    | AwaitRelease(plane: Plane, closer: Closer)
    | AwaitClose(wasError: bool, closer: Closer)

  /** Flushes the driver counts as pending, wake-ups it has given, and flushes the firmware still has to answer. */
  datatype Flush = Flush(pending: nat, signals: nat, inFlight: nat)

  /** Whether LAST was delivered, and how often it was since the mark was last reset. */
  datatype Last = Last(dequeued: bool, count: nat)

  /** How often the core was power-cycled, and how often it had been when the session entered ERROR, if it did. */
  datatype Cycles = Cycles(count: nat, beforeError: nat)

  datatype Inst = Inst(
    phase: Phase,
    sessionOpen: bool,
    op: Op,
    starters: nat,
    flush: Flush,
    streamoffPending: bool,
    last: Last,
    cycles: Cycles)

  datatype FlushStatus = NoError | SameState | OtherError

  datatype Event =
    // firmware messages
    | SeqChanged(known: bool, hasProperties: bool, depthOk: bool, fits: bool, resumed: bool, sent: bool)
    | SessionError
    | Failure
    | FillDone(eos: bool, filled: bool, client: bool, matched: bool, stopped: bool, completed: bool, sent: bool)
    | FlushDone(status: FlushStatus)
    // what other threads do to the core's request for recovery
    | CoreRequested
    | CoreRecovered
    // commands and buffers from the client
    | StartCmd(legacy: bool, streaming: bool, formatChanged: bool, resumedInput: bool, resumedOutput: bool)
    | StartCmdFlushed(timeout: bool, resumedInput: bool, resumedOutput: bool)
    | StopCmd(streaming: bool, sent: bool)
    | QueueCapture
    // queue operations, in sections between waits
    | OpenBegin(sent: bool)
    | OpenEnd(answered: bool)
    | StreamonInput(ready: bool, waits: bool)
    | StreamonInputSetUp(answered: bool, ready: bool)
    | StreamonInputLoaded(answered: bool, sent: bool)
    | StreamonInputStarted(answered: bool)
    | StreamonOutput(configured: bool, waits: bool, ready: bool, resumed: bool, queued: bool,
                     sent: bool, released: bool, closeSent: bool)
    | StreamonOutputSetUp(answered: bool, configured: bool, ready: bool, resumed: bool, queued: bool,
                          sent: bool, released: bool, closeSent: bool)
    | StreamonOutputReady(ready: bool, resumed: bool, queued: bool, sent: bool, released: bool, closeSent: bool)
    | Streamoff(plane: Plane, sent: bool, released: bool, closeSent: bool)
    | StreamoffFlushed(timeout: bool, closeSent: bool)
    | StreamoffStopped(timedOut: bool, sent: bool)
    | StreamoffReleased(answered: bool, closeSent: bool)
    | CloseBegin(sent: bool)
    | CloseEnd(answered: bool)

  function Fresh(recoveryPending: bool): Inst {
    Inst(Phase(Deinit, NONE, recoveryPending), false, Free, 0, Flush(0, 0, 0), false, Last(false, 0), Cycles(0, 0))
  }

  function Failed(s: Inst): Inst {
    s.(phase := Fail(s.phase))
  }

  // Flushing.

  /** A sender that always re-arms the completion. */
  function SendFlush(f: Flush, sent: bool): Flush {
    if sent then Flush(Wrap32(f.pending + 1), 0, f.inFlight + 1) else f.(signals := 0)
  }

  /** The sender that re-arms only when no flush is outstanding. */
  function SendDrcFlush(f: Flush, sent: bool): Flush {
    var armed := if f.pending == 0 then f.(signals := 0) else f;
    if sent then armed.(pending := Wrap32(f.pending + 1), inFlight := f.inFlight + 1) else armed
  }

  function FlushAnswered(f: Flush): Flush {
    var left := Wrap32(f.pending - 1);
    Flush(left, if left == 0 then f.signals + 1 else f.signals, if f.inFlight == 0 then 0 else f.inFlight - 1)
  }

  function Flushed(s: Inst, status: FlushStatus): Inst {
    var checked := if status == NoError || (status == SameState && s.streamoffPending) then s else Failed(s);
    checked.(flush := FlushAnswered(s.flush))
  }

  // Sequence changes and the end of a stream.

  function ArmDrc(s: Inst, sent: bool): Inst {
    var begun := BeginDrc(s.phase);
    if !begun.ok then s
    else
      var s1 := s.(phase := begun.phase);
      var s2 := if s1.phase.state != Error && !s1.phase.Has(FIRST_IPSC) then s1.(flush := SendDrcFlush(s.flush, sent)) else s1;
      s2.(phase := LastOfDrc(s2.phase).phase)
  }

  function SequenceChanged(s: Inst, e: Event): Inst
    requires e.SeqChanged?
  {
    if s.phase.Has(DRC) then s
    else if !e.known || !e.hasProperties then Failed(s)
    else
      var s1 := if e.depthOk then s else Failed(s);
      if e.fits && s1.phase.state == Streaming then
        if e.resumed then s1.(phase := ChangeSub(s1.phase, DRC | FIRST_IPSC | INPUT_PAUSE, NONE).phase) else Failed(s1)
      else ArmDrc(s1, e.sent)
  }

  function TagLast(s: Inst): Inst {
    if !s.last.dequeued && s.phase.LastDue() then s.(last := Last(true, s.last.count + 1)) else s
  }

  function ForgetLast(s: Inst): Inst {
    s.(last := Last(false, 0))
  }

  function Filled(s: Inst, e: Event): Inst
    requires e.FillDone?
  {
    var s1 := if e.eos && !e.filled then
                s.(flush := SendFlush(s.flush, e.sent), phase := LastOfDrain(s.phase).phase)
              else s;
    var s2 := if e.matched && !e.filled && e.client then TagLast(s1) else s1;
    if e.matched && e.completed then s2
    else if s2.streamoffPending || s2.last.dequeued || e.stopped then s2
    else Failed(s2)
  }

  // Commands.

  /** START once no flush is outstanding: ends the drain or the resolution change that delivered LAST. */
  function Started(s: Inst, resumedInput: bool, resumedOutput: bool): Inst {
    if !s.phase.LastDue() then Failed(s)
    else if s.phase.DrcPending() && ((s.phase.Has(INPUT_PAUSE) && !resumedInput) || (s.phase.Has(OUTPUT_PAUSE) && !resumedOutput))
    then s
    else
      var ended := if s.phase.DrcPending() then DRC | DRC_LAST else DRAIN | DRAIN_LAST;
      var clear := ended | (s.phase.sub & (INPUT_PAUSE | OUTPUT_PAUSE));
      ForgetLast(s.(phase := ChangeSub(s.phase, clear, NONE).phase))
  }

  // Stream-on and stream-off.

  predicate EndsStreamon(e: Event) {
    e.StreamonOutput? || e.StreamonOutputSetUp? || e.StreamonOutputReady?
  }

  function StreamonInputTail(s: Inst): Inst {
    var p1 := if s.phase.Has(INPUT_PAUSE) then ChangeSub(s.phase, INPUT_PAUSE, NONE).phase else s.phase;
    var pauses := (p1.Has(DRC) || p1.Has(DRAIN) || p1.Has(FIRST_IPSC)) && !p1.Has(INPUT_PAUSE);
    var on := ChangeState(p1, OnTarget(p1.state, Output)).phase;
    ForgetLast(s.(phase := ChangeSub(on, NONE, if pauses then INPUT_PAUSE else NONE).phase))
  }

  predicate ResumesInput(s: Inst) {
    s.phase.state == InputStreaming && s.phase.Has(INPUT_PAUSE)
  }

  /** The flags capture stream-on clears: a drain or change that was over before it began, and the pauses. */
  function ClearedByCapture(s: Inst, drcActive: bool, drainActive: bool): Flags {
    var over := if drcActive then DRC | DRC_LAST else if drainActive then DRAIN | DRAIN_LAST else NONE;
    over | (if ResumesInput(s) then INPUT_PAUSE else NONE) | (s.phase.sub & (FIRST_IPSC | OUTPUT_PAUSE))
  }

  function CaptureOn(s: Inst, drcActive: bool, drainActive: bool): Inst {
    var on := ChangeState(s.phase, OnTarget(s.phase.state, Capture)).phase;
    ForgetLast(s.(phase := ChangeSub(on, ClearedByCapture(s, drcActive, drainActive), NONE).phase))
  }

  /** The rest of capture stream-on, unwound as a capture stream-off when it fails. */
  function StreamonOutputTail(s: Inst, drcActive: bool, drainActive: bool, e: Event): Inst
    requires EndsStreamon(e)
  {
    if !e.ready || (ResumesInput(s) && !drainActive && !e.resumed)
    then BeginStop(s, Capture, Unwinding, e.sent, e.released, e.closeSent)
    else if e.queued then CaptureOn(s, drcActive, drainActive)
    else BeginStop(CaptureOn(s, drcActive, drainActive), Capture, Unwinding, e.sent, e.released, e.closeSent)
  }

  /** Input is set up: the firmware is to load its resources unless it has them. */
  function InputSetUp(s: Inst): Inst {
    if s.phase.Has(LOAD_RESOURCES) then StreamonInputTail(s) else s.(op := AwaitLoad)
  }

  /** Capture is set up: a paused input first gets its internal buffers back. */
  function OutputSetUp(s: Inst, e: Event): Inst
    requires EndsStreamon(e)
  {
    if s.phase.Has(INPUT_PAUSE) then s.(op := AwaitBuffers(s.phase.DrcPending(), s.phase.DrainPending()))
    else StreamonOutputTail(s, s.phase.DrcPending(), s.phase.DrainPending(), e)
  }

  /** `sent` says whether the first message went out, `released` whether a release did in its place. */
  function BeginStop(s: Inst, plane: Plane, closer: Closer, sent: bool, released: bool, closeSent: bool): Inst {
    var s1 := s.(streamoffPending := true);
    if s.phase.state == Streaming then
      var s2 := s1.(flush := SendFlush(s.flush, sent));
      if sent then s2.(op := AwaitFlush(plane, closer)) else Failed(s2)
    else if s.phase.Has(LOAD_RESOURCES) then
      if sent then s1.(op := AwaitStop(plane, closer)) else BeginRelease(s1, plane, closer, released)
    else StopTail(s1, plane, closer, closeSent)
  }

  /** The session was asked to stop, with or without an answer; now it is to give up its resources. */
  function BeginRelease(s: Inst, plane: Plane, closer: Closer, sent: bool): Inst {
    if sent then s.(op := AwaitRelease(plane, closer))
    else Failed(s.(op := Free, phase := ChangeSub(s.phase, LOAD_RESOURCES, NONE).phase))
  }

  /** The firmware no longer works on `plane`; the last stream-off also closes the session. */
  function StopTail(s: Inst, plane: Plane, closer: Closer, closeSent: bool): Inst {
    var s1 := s.(phase := ChangeState(s.phase, OffTarget(s.phase.state, plane)).phase);
    if s1.phase.state == Init then BeginClose(s1, closer, closeSent)
    else if closer == Unwinding then Failed(s1)
    else s1
  }

  function BeginClose(s: Inst, closer: Closer, sent: bool): Inst {
    if !s.sessionOpen then (if closer == Unwinding then Failed(s) else s)
    else if sent then s.(op := AwaitClose(s.phase.state == Error, closer))
    else Closed(s, closer, false)
  }

  /** Whatever the firmware said, the session is gone. */
  function Closed(s: Inst, closer: Closer, ok: bool): Inst {
    var s1 := s.(phase := s.phase.(sub := NONE, recoveryPending := s.phase.recoveryPending || !ok),
                 sessionOpen := false, op := Free, flush := Flush(0, s.flush.signals, 0),
                 streamoffPending := false, last := Last(false, 0));
    if closer == Unwinding || (closer == Stopping && !ok) then Failed(s1) else s1
  }

  function EndClose(s: Inst, answered: bool): Inst
    requires s.op.AwaitClose?
  {
    if !answered then Closed(Failed(s), s.op.closer, false)
    else if !s.op.wasError && s.phase.state == Error then Closed(s, s.op.closer, false)
    else
      var gone := ChangeState(s.phase, Deinit);
      Closed(s.(phase := gone.phase), s.op.closer, gone.ok)
  }

  function ReleaseSlot(s: Inst): Inst {
    s.(sessionOpen := false, op := Free, phase := s.phase.(recoveryPending := true))
  }

  // Steps and runs.

  /** The count of flushes sent and not answered does not run over its 32 bits. */
  predicate Countable(s: Inst) {
    s.flush.inFlight + 1 < U32_LIMIT
  }

  /** When a step can happen: queue operations one at a time, and a wait ends with an answer or a timeout. */
  predicate Enabled(s: Inst, e: Event) {
    Countable(s) &&
    match e
    case StartCmdFlushed(timeout, _, _) => s.starters > 0 && (timeout || s.flush.signals > 0)
    case OpenBegin(_) => s.op == Free && !s.sessionOpen && s.phase.state != Error
    case OpenEnd(_) => s.op == AwaitOpen
    case StreamonInput(_, _) => s.op == Free && s.sessionOpen && s.phase.state != Error
    case StreamonInputLoaded(_, _) => s.op == AwaitLoad
    case StreamonInputStarted(_) => s.op == AwaitStart
    case StreamonInputSetUp(_, _) => s.op == AwaitSetUp(Output)
    case StreamonOutput(_, _, _, _, _, _, _, _) => s.op == Free && s.sessionOpen && s.phase.state != Error
    case StreamonOutputSetUp(_, _, _, _, _, _, _, _) => s.op == AwaitSetUp(Capture)
    case StreamonOutputReady(_, _, _, _, _, _) => s.op.AwaitBuffers?
    case Streamoff(_, _, _, _) => s.op == Free
    case StreamoffFlushed(timeout, _) => s.op.AwaitFlush? && (timeout || s.flush.signals > 0)
    case StreamoffStopped(_, _) => s.op.AwaitStop?
    case StreamoffReleased(_, _) => s.op.AwaitRelease?
    case CloseBegin(_) => s.op == Free
    case CloseEnd(_) => s.op.AwaitClose?
    case _ => true
  }

  predicate FromFirmware(e: Event) {
    e.SeqChanged? || e.SessionError? || e.Failure? || e.FillDone? || e.FlushDone?
  }

  predicate FromCore(e: Event) {
    e.CoreRequested? || e.CoreRecovered?
  }

  predicate FromClient(e: Event) {
    e.StartCmd? || e.StartCmdFlushed? || e.StopCmd? || e.QueueCapture?
  }

  predicate ForStart(e: Event) {
    || e.OpenBegin? || e.OpenEnd? || EndsStreamon(e)
    || e.StreamonInput? || e.StreamonInputSetUp? || e.StreamonInputLoaded? || e.StreamonInputStarted?
  }

  predicate ForStop(e: Event) {
    e.Streamoff? || e.StreamoffFlushed? || e.StreamoffStopped? || e.StreamoffReleased? || e.CloseBegin? || e.CloseEnd?
  }

  /** A message from the firmware, or a failure of some kind. */
  function FirmwareStep(s: Inst, e: Event): Inst
    requires Enabled(s, e) && FromFirmware(e)
  {
    match e
    case SeqChanged(_, _, _, _, _, _) => SequenceChanged(s, e)
    case SessionError =>
      var s1 := Failed(s);
      s1.(phase := s1.phase.(recoveryPending := true))
    case Failure => Failed(s)
    case FillDone(_, _, _, _, _, _, _) => Filled(s, e)
    case FlushDone(status) => Flushed(s, status)
  }

  /** The core is to be power-cycled, or just was, whatever state this session is in. */
  function CoreStep(s: Inst, e: Event): Inst
    requires FromCore(e)
  {
    match e
    case CoreRequested => s.(phase := s.phase.(recoveryPending := true))
    case CoreRecovered =>
      var count := s.cycles.count + 1;
      s.(phase := s.phase.(recoveryPending := false),
         cycles := Cycles(count, if s.phase.state == Error then s.cycles.beforeError else count))
  }

  /** A decoder command or a capture buffer from the client. */
  function ClientStep(s: Inst, e: Event): Inst
    requires Enabled(s, e) && FromClient(e)
  {
    match e
    case StartCmd(legacy, streaming, formatChanged, resumedInput, resumedOutput) =>
      if s.phase.state == Deinit || !streaming || !s.phase.LastDue() || formatChanged then s
      else if legacy && s.flush.pending != 0 then s.(starters := s.starters + 1)
      else Started(s, resumedInput, resumedOutput)
    case StartCmdFlushed(timeout, resumedInput, resumedOutput) =>
      var s1 := s.(starters := s.starters - 1);
      if timeout then Failed(s1)
      else Started(s1.(flush := s.flush.(signals := s.flush.signals - 1)), resumedInput, resumedOutput)
    case StopCmd(streaming, sent) =>
      if s.phase.state == Deinit || !streaming || s.phase.sub == DRAIN || !sent then s
      else s.(phase := ChangeSub(s.phase, NONE, DRAIN).phase)
    case QueueCapture => if s.phase.state == Error then s else TagLast(s)
  }

  /** A section of opening the session or of stream-on. */
  function StartStep(s: Inst, e: Event): Inst
    requires Enabled(s, e) && ForStart(e)
  {
    match e
    case OpenBegin(sent) =>
      if s.phase.state == Deinit && sent then s.(sessionOpen := true, op := AwaitOpen) else ReleaseSlot(s)
    case OpenEnd(answered) =>
      var s1 := if answered then s else Failed(s);
      if s1.phase.state == Error then ReleaseSlot(s1)
      else
        var up := ChangeState(s1.phase, Init);
        if up.ok then s1.(phase := up.phase, op := Free) else ReleaseSlot(s1)
    case StreamonInput(ready, waits) =>
      var s1 := s.(streamoffPending := false);
      if !ready then Failed(s1) else if waits then s1.(op := AwaitSetUp(Output)) else InputSetUp(s1)
    case StreamonInputSetUp(answered, ready) =>
      var s1 := s.(op := Free);
      if answered && ready then InputSetUp(s1) else Failed(s1)
    case StreamonInputLoaded(answered, sent) =>
      if answered && sent then s.(op := AwaitStart) else Failed(s.(op := Free))
    case StreamonInputStarted(answered) =>
      var s1 := s.(op := Free);
      var loaded := ChangeSub(s.phase, NONE, LOAD_RESOURCES);
      if answered && loaded.ok then StreamonInputTail(s1.(phase := loaded.phase)) else Failed(s1)
    case StreamonOutput(_, _, _, _, _, _, _, _) =>
      var s1 := s.(streamoffPending := false);
      if !e.configured then Failed(s1) else if e.waits then s1.(op := AwaitSetUp(Capture)) else OutputSetUp(s1, e)
    case StreamonOutputSetUp(_, _, _, _, _, _, _, _) =>
      var s1 := s.(op := Free);
      if e.answered && e.configured then OutputSetUp(s1, e) else Failed(s1)
    case StreamonOutputReady(_, _, _, _, _, _) =>
      StreamonOutputTail(s.(op := Free), s.op.drcActive, s.op.drainActive, e)
  }

  /** A section of stream-off or of closing the session. */
  function StopStep(s: Inst, e: Event): Inst
    requires Enabled(s, e) && ForStop(e)
  {
    match e
    case Streamoff(plane, sent, released, closeSent) =>
      if plane == Capture && s.phase.state == Init then s else BeginStop(s, plane, Stopping, sent, released, closeSent)
    case StreamoffFlushed(timeout, closeSent) =>
      var s1 := s.(op := Free);
      if timeout then Failed(s1)
      else StopTail(s1.(flush := s.flush.(signals := s.flush.signals - 1)), s.op.plane, s.op.closer, closeSent)
    case StreamoffStopped(timedOut, sent) =>
      BeginRelease(if timedOut then Failed(s) else s, s.op.plane, s.op.closer, sent)
    case StreamoffReleased(answered, closeSent) =>
      var waited := if answered then s else Failed(s);
      var s1 := waited.(op := Free, phase := ChangeSub(waited.phase, LOAD_RESOURCES, NONE).phase);
      if answered then StopTail(s1, s.op.plane, s.op.closer, closeSent) else s1
    case CloseBegin(sent) => BeginClose(s, Release, sent)
    case CloseEnd(answered) => EndClose(s, answered)
  }

  function Step(s: Inst, e: Event): Inst
    requires Enabled(s, e)
  {
    if FromFirmware(e) then FirmwareStep(s, e)
    else if FromCore(e) then CoreStep(s, e)
    else if FromClient(e) then ClientStep(s, e)
    else if ForStart(e) then StartStep(s, e)
    else StopStep(s, e)
  }

  // What every step keeps.

  /**
   LAST is marked only within its own change or drain, a resolution change goes with its LAST mark at every
   lock release, and a first sequence change is remembered only before capture streams.
   */
  predicate Ordered(p: Phase) {
    && p.Has(DRC_LAST) == p.Has(DRC)
    && (p.Has(DRAIN_LAST) ==> p.Has(DRAIN))
    && (p.Has(FIRST_IPSC) ==> p.state == Init || p.state == InputStreaming || p.state == Error)
  }

  /** Nobody is told that the flushes are over while one is outstanding. */
  predicate Balanced(f: Flush) {
    && f.pending == f.inFlight < U32_LIMIT
    && (f.signals > 0 ==> f.pending == 0)
  }

  predicate AtMostOne(l: Last) {
    l.count == if l.dequeued then 1 else 0
  }

  /** While an open waits for the firmware, nothing but an error can happen to the session. */
  predicate OpensFromDeinit(s: Inst) {
    s.op == AwaitOpen ==> s.sessionOpen && (s.phase.state == Deinit || s.phase.state == Error)
  }

  /** While a session is in error its request is pending, or the core has been power-cycled since it entered. */
  predicate ErrorGetsRecovery(s: Inst) {
    && s.cycles.beforeError <= s.cycles.count
    && if s.phase.state == Error then s.phase.recoveryPending || s.cycles.beforeError < s.cycles.count
       else s.cycles.beforeError == s.cycles.count
  }

  predicate Sound(s: Inst) {
    Ordered(s.phase) && ErrorGetsRecovery(s) && AtMostOne(s.last) && OpensFromDeinit(s)
  }

  predicate Keeps(s: Inst, t: Inst) {
    Sound(t) && (Balanced(s.flush) ==> Balanced(t.flush))
  }

  lemma ChangeStateKeepsOrder(p: Phase, plane: Plane)
    requires Ordered(p)
    ensures Ordered(Fail(p)) && Ordered(ChangeState(p, Init).phase)
    ensures Ordered(ChangeState(p, OffTarget(p.state, plane)).phase)
    ensures Ordered(ChangeState(p, OnTarget(p.state, Output)).phase)
  {
  }

  lemma ArmingKeepsOrder(p: Phase)
    requires Ordered(p) && BeginDrc(p).ok
    ensures Ordered(LastOfDrc(BeginDrc(p).phase).phase)
  {
  }

  lemma EndingKeepsOrder(p: Phase)
    requires Ordered(p)
    ensures Ordered(LastOfDrain(p).phase)
    ensures Ordered(ChangeSub(p, NONE, DRAIN).phase)
  {
  }

  lemma LoadingKeepsOrder(p: Phase)
    requires Ordered(p)
    ensures Ordered(ChangeSub(p, NONE, LOAD_RESOURCES).phase) && Ordered(ChangeSub(p, LOAD_RESOURCES, NONE).phase)
  {
  }

  lemma ResumingKeepsOrder(p: Phase)
    requires Ordered(p) && !p.Has(DRC)
    ensures Ordered(ChangeSub(p, DRC | FIRST_IPSC | INPUT_PAUSE, NONE).phase)
  {
  }

  lemma FlushKeepsBalance(f: Flush, sent: bool)
    requires f.inFlight + 1 < U32_LIMIT
    ensures Balanced(f) ==> Balanced(SendFlush(f, sent)) && Balanced(SendDrcFlush(f, sent))
  {
  }

  lemma FailedKeepsSound(s: Inst)
    requires Sound(s)
    ensures Keeps(s, Failed(s))
  {
  }

  lemma ArmDrcKeepsSound(s: Inst, sent: bool)
    requires Sound(s) && Countable(s)
    ensures Keeps(s, ArmDrc(s, sent))
  {
    FlushKeepsBalance(s.flush, sent);
    if BeginDrc(s.phase).ok {
      ArmingKeepsOrder(s.phase);
    }
  }

  lemma SequenceChangedKeepsSound(s: Inst, e: Event)
    requires Sound(s) && Countable(s) && e.SeqChanged?
    ensures Keeps(s, SequenceChanged(s, e))
  {
    hide ArmDrc, Ordered;
    if !s.phase.Has(DRC) && e.known && e.hasProperties {
      var s1 := if e.depthOk then s else Failed(s);
      FailedKeepsSound(s);
      FailedKeepsSound(s1);
      ResumingKeepsOrder(s1.phase);
      ArmDrcKeepsSound(s1, e.sent);
    } else {
      FailedKeepsSound(s);
    }
  }

  lemma TagLastKeepsSound(s: Inst)
    requires Sound(s)
    ensures Keeps(s, TagLast(s))
  {
  }

  lemma FilledKeepsSound(s: Inst, e: Event)
    requires Sound(s) && Countable(s) && e.FillDone?
    ensures Keeps(s, Filled(s, e))
  {
    hide TagLast, SendFlush, Ordered;
    EndingKeepsOrder(s.phase);
    FlushKeepsBalance(s.flush, e.sent);
    var s1 := if e.eos && !e.filled then
                s.(flush := SendFlush(s.flush, e.sent), phase := LastOfDrain(s.phase).phase)
              else s;
    TagLastKeepsSound(s1);
    FailedKeepsSound(s1);
    FailedKeepsSound(TagLast(s1));
  }

  lemma StartedKeepsSound(s: Inst, resumedInput: bool, resumedOutput: bool)
    requires Sound(s)
    ensures Keeps(s, Started(s, resumedInput, resumedOutput))
  {
  }

  lemma StreamonInputKeepsSound(s: Inst)
    requires Sound(s)
    ensures Keeps(s, StreamonInputTail(s))
  {
  }

  lemma CaptureOnKeepsSound(s: Inst, drcActive: bool, drainActive: bool)
    requires Sound(s)
    ensures Keeps(s, CaptureOn(s, drcActive, drainActive))
  {
  }

  /** Whatever else the session was like, closing it leaves it sound. */
  lemma ClosedIsSound(s: Inst, closer: Closer, ok: bool)
    requires ErrorGetsRecovery(s)
    ensures Keeps(s, Closed(s, closer, ok))
  {
  }

  lemma CloseKeepsSound(s: Inst, closer: Closer, sent: bool)
    requires Sound(s)
    ensures Keeps(s, BeginClose(s, closer, sent))
  {
    FailedKeepsSound(s);
    ClosedIsSound(s, closer, false);
  }

  lemma EndCloseKeepsSound(s: Inst, answered: bool)
    requires Sound(s) && s.op.AwaitClose?
    ensures Keeps(s, EndClose(s, answered))
  {
    hide Closed, Ordered, Balanced;
    var gone := ChangeState(s.phase, Deinit);
    ClosedIsSound(s, s.op.closer, false);
    ClosedIsSound(Failed(s), s.op.closer, false);
    ClosedIsSound(s.(phase := gone.phase), s.op.closer, gone.ok);
  }

  lemma StopTailKeepsSound(s: Inst, plane: Plane, closer: Closer, closeSent: bool)
    requires Sound(s)
    ensures Keeps(s, StopTail(s, plane, closer, closeSent))
  {
    var s1 := s.(phase := ChangeState(s.phase, OffTarget(s.phase.state, plane)).phase);
    ChangeStateKeepsOrder(s.phase, plane);
    ChangeStateKeepsOrder(s1.phase, plane);
    CloseKeepsSound(s1, closer, closeSent);
  }

  lemma BeginReleaseKeepsSound(s: Inst, plane: Plane, closer: Closer, sent: bool)
    requires Sound(s)
    ensures Keeps(s, BeginRelease(s, plane, closer, sent))
  {
    var s1 := s.(op := Free, phase := ChangeSub(s.phase, LOAD_RESOURCES, NONE).phase);
    LoadingKeepsOrder(s.phase);
    FailedKeepsSound(s1);
  }

  lemma BeginStopKeepsSound(s: Inst, plane: Plane, closer: Closer, sent: bool, released: bool, closeSent: bool)
    requires Sound(s) && Countable(s)
    ensures Keeps(s, BeginStop(s, plane, closer, sent, released, closeSent))
  {
    BeginReleaseKeepsSound(s.(streamoffPending := true), plane, closer, released);
    FlushKeepsBalance(s.flush, sent);
    StopTailKeepsSound(s.(streamoffPending := true), plane, closer, closeSent);
  }

  lemma StreamonOutputKeepsSound(s: Inst, drcActive: bool, drainActive: bool, e: Event)
    requires EndsStreamon(e)
    requires Sound(s) && Countable(s)
    ensures Keeps(s, StreamonOutputTail(s, drcActive, drainActive, e))
  {
    var on := CaptureOn(s, drcActive, drainActive);
    CaptureOnKeepsSound(s, drcActive, drainActive);
    BeginStopKeepsSound(s, Capture, Unwinding, e.sent, e.released, e.closeSent);
    BeginStopKeepsSound(on, Capture, Unwinding, e.sent, e.released, e.closeSent);
  }

  /** An answer to a flush that is not owed. */
  predicate Unowed(s: Inst, e: Event) {
    e.FlushDone? && s.flush.inFlight == 0
  }

  lemma FlushedKeepsSound(s: Inst, status: FlushStatus)
    requires Sound(s)
    ensures Sound(Flushed(s, status))
    ensures Balanced(s.flush) ==> (Balanced(Flushed(s, status).flush) <==> s.flush.inFlight > 0)
  {
    FailedKeepsSound(s);
  }

  lemma FirmwareStepKeepsSound(s: Inst, e: Event)
    requires Sound(s) && Enabled(s, e) && FromFirmware(e) && !e.FlushDone?
    ensures Keeps(s, FirmwareStep(s, e))
  {
    ChangeStateKeepsOrder(s.phase, Output);
    match e
    case SeqChanged(_, _, _, _, _, _) => SequenceChangedKeepsSound(s, e);
    case SessionError =>
    case Failure =>
    case FillDone(_, _, _, _, _, _, _) => FilledKeepsSound(s, e);
  }

  lemma StartFlushedKeepsSound(s: Inst, e: Event)
    requires Sound(s) && Enabled(s, e) && e.StartCmdFlushed?
    ensures Keeps(s, ClientStep(s, e))
  {
    hide Started, Ordered;
    var s1 := s.(starters := s.starters - 1);
    if e.timeout {
      FailedKeepsSound(s1);
    } else {
      StartedKeepsSound(s1.(flush := s.flush.(signals := s.flush.signals - 1)), e.resumedInput, e.resumedOutput);
    }
  }

  lemma ClientStepKeepsSound(s: Inst, e: Event)
    requires Sound(s) && Enabled(s, e) && FromClient(e)
    ensures Keeps(s, ClientStep(s, e))
  {
    hide Started, Ordered, TagLast;
    match e
    case StartCmd(_, _, _, resumedInput, resumedOutput) => StartedKeepsSound(s, resumedInput, resumedOutput);
    case StartCmdFlushed(_, _, _) => StartFlushedKeepsSound(s, e);
    case StopCmd(_, _) => EndingKeepsOrder(s.phase);
    case QueueCapture => TagLastKeepsSound(s);
  }

  lemma OpenKeepsSound(s: Inst, e: Event)
    requires Sound(s) && Enabled(s, e) && (e.OpenBegin? || e.OpenEnd?)
    ensures Keeps(s, StartStep(s, e))
  {
    ChangeStateKeepsOrder(s.phase, Output);
  }

  lemma InputStartedKeepsSound(s: Inst, e: Event)
    requires Sound(s) && Enabled(s, e) && e.StreamonInputStarted?
    ensures Keeps(s, StartStep(s, e))
  {
    hide StreamonInputTail, Ordered;
    var loaded := ChangeSub(s.phase, NONE, LOAD_RESOURCES).phase;
    LoadingKeepsOrder(s.phase);
    FailedKeepsSound(s.(op := Free));
    StreamonInputKeepsSound(s.(op := Free, phase := loaded));
  }

  lemma InputSetUpKeepsSound(s: Inst)
    requires Sound(s)
    ensures Keeps(s, InputSetUp(s))
  {
    StreamonInputKeepsSound(s);
  }

  lemma OutputSetUpKeepsSound(s: Inst, e: Event)
    requires Sound(s) && Countable(s) && EndsStreamon(e)
    ensures Keeps(s, OutputSetUp(s, e))
  {
    StreamonOutputKeepsSound(s, s.phase.DrcPending(), s.phase.DrainPending(), e);
  }

  lemma InputStepKeepsSound(s: Inst, e: Event)
    requires Sound(s) && Enabled(s, e)
    requires e.StreamonInput? || e.StreamonInputSetUp? || e.StreamonInputLoaded? || e.StreamonInputStarted?
    ensures Keeps(s, StartStep(s, e))
  {
    hide InputSetUp, Ordered;
    var on, free := s.(streamoffPending := false), s.(op := Free);
    if e.StreamonInputStarted? {
      InputStartedKeepsSound(s, e);
    } else if e.StreamonInput? {
      FailedKeepsSound(on);
      InputSetUpKeepsSound(on);
    } else {
      FailedKeepsSound(free);
      InputSetUpKeepsSound(free);
    }
  }

  lemma OutputStepKeepsSound(s: Inst, e: Event)
    requires Sound(s) && Enabled(s, e) && EndsStreamon(e)
    ensures Keeps(s, StartStep(s, e))
  {
    hide OutputSetUp, StreamonOutputTail, Ordered;
    var on, free := s.(streamoffPending := false), s.(op := Free);
    if e.StreamonOutputReady? {
      StreamonOutputKeepsSound(free, s.op.drcActive, s.op.drainActive, e);
    } else if e.StreamonOutput? {
      FailedKeepsSound(on);
      OutputSetUpKeepsSound(on, e);
    } else {
      FailedKeepsSound(free);
      OutputSetUpKeepsSound(free, e);
    }
  }

  lemma StartStepKeepsSound(s: Inst, e: Event)
    requires Sound(s) && Enabled(s, e) && ForStart(e)
    ensures Keeps(s, StartStep(s, e))
  {
    hide Keeps, Sound, StartStep, Enabled;
    if e.OpenBegin? || e.OpenEnd? {
      OpenKeepsSound(s, e);
    } else if EndsStreamon(e) {
      OutputStepKeepsSound(s, e);
    } else {
      InputStepKeepsSound(s, e);
    }
  }

  lemma ReleasedKeepsSound(s: Inst, e: Event)
    requires Sound(s) && Enabled(s, e) && e.StreamoffReleased?
    ensures Keeps(s, StopStep(s, e))
  {
    var waited := if e.answered then s else Failed(s);
    var s1 := waited.(op := Free, phase := ChangeSub(waited.phase, LOAD_RESOURCES, NONE).phase);
    ChangeStateKeepsOrder(s.phase, Output);
    LoadingKeepsOrder(waited.phase);
    StopTailKeepsSound(s1, s.op.plane, s.op.closer, e.closeSent);
  }

  lemma StopFlushedKeepsSound(s: Inst, e: Event)
    requires Sound(s) && Enabled(s, e) && e.StreamoffFlushed?
    ensures Keeps(s, StopStep(s, e))
  {
    hide StopTail, Ordered;
    if e.timeout {
      FailedKeepsSound(s.(op := Free));
    } else {
      var woken := s.flush.(signals := s.flush.signals - 1);
      StopTailKeepsSound(s.(op := Free, flush := woken), s.op.plane, s.op.closer, e.closeSent);
    }
  }

  lemma StopStepKeepsSound(s: Inst, e: Event)
    requires Sound(s) && Enabled(s, e) && ForStop(e)
    ensures Keeps(s, StopStep(s, e))
  {
    match e
    case Streamoff(plane, sent, released, closeSent) => BeginStopKeepsSound(s, plane, Stopping, sent, released, closeSent);
    case StreamoffFlushed(_, _) => StopFlushedKeepsSound(s, e);
    case StreamoffStopped(timedOut, sent) =>
      FailedKeepsSound(s);
      BeginReleaseKeepsSound(if timedOut then Failed(s) else s, s.op.plane, s.op.closer, sent);
    case StreamoffReleased(_, _) => ReleasedKeepsSound(s, e);
    case CloseBegin(sent) => CloseKeepsSound(s, Release, sent);
    case CloseEnd(answered) => EndCloseKeepsSound(s, answered);
  }

  /** Each section keeps the session sound, and the count of its flushes exact unless an answer is not owed. */
  lemma StepKeepsSound(s: Inst, e: Event)
    requires Sound(s) && Enabled(s, e)
    ensures Sound(Step(s, e))
    ensures Balanced(s.flush) ==> (Balanced(Step(s, e).flush) <==> !Unowed(s, e))
  {
    hide Sound, Balanced;
    if e.FlushDone? {
      FlushedKeepsSound(s, e.status);
    } else if FromFirmware(e) {
      FirmwareStepKeepsSound(s, e);
    } else if FromCore(e) {
      CoreStepKeepsSound(s, e);
    } else if FromClient(e) {
      ClientStepKeepsSound(s, e);
    } else if ForStart(e) {
      StartStepKeepsSound(s, e);
    } else {
      StopStepKeepsSound(s, e);
    }
  }

  lemma CoreStepKeepsSound(s: Inst, e: Event)
    requires Sound(s) && FromCore(e)
    ensures Keeps(s, CoreStep(s, e))
  {
  }

  // Whole runs.

  predicate Runs(s: Inst, es: seq<Event>)
    decreases |es|
  {
    es == [] || (Enabled(s, es[0]) && Runs(Step(s, es[0]), es[1..]))
  }

  function After(s: Inst, es: seq<Event>): Inst
    requires Runs(s, es)
    decreases |es|
  {
    if es == [] then s else After(Step(s, es[0]), es[1..])
  }

  /** Whatever the interleaving, every lock release of every run from open finds the session sound. */
  lemma {:induction false} EveryRunIsSound(s: Inst, es: seq<Event>)
    requires Sound(s) && Runs(s, es)
    ensures Sound(After(s, es))
    decreases |es|
  {
    hide Sound;
    if es != [] {
      StepKeepsSound(s, es[0]);
      EveryRunIsSound(Step(s, es[0]), es[1..]);
    }
  }

  predicate SometimeUnowed(s: Inst, es: seq<Event>)
    requires Runs(s, es)
    decreases |es|
  {
    es != [] && (Unowed(s, es[0]) || SometimeUnowed(Step(s, es[0]), es[1..]))
  }

  predicate AlwaysBalanced(s: Inst, es: seq<Event>)
    requires Runs(s, es)
    decreases |es|
  {
    Balanced(s.flush) && (es != [] ==> AlwaysBalanced(Step(s, es[0]), es[1..]))
  }

  /**
   The count of flushes stays exact, and nobody is woken too early, exactly as long as no answer arrives that
   is not owed, say because the session it was owed to has been closed.
   */
  lemma {:induction false} CountStaysExact(s: Inst, es: seq<Event>)
    requires Sound(s) && Balanced(s.flush) && Runs(s, es)
    ensures AlwaysBalanced(s, es) <==> !SometimeUnowed(s, es)
    ensures AlwaysBalanced(s, es) ==> Balanced(After(s, es).flush)
    decreases |es|
  {
    hide Sound, Balanced, Unowed;
    if es != [] {
      StepKeepsSound(s, es[0]);
      if !Unowed(s, es[0]) {
        CountStaysExact(Step(s, es[0]), es[1..]);
      }
    }
  }
}
