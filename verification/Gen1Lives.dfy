/** Runs that lead a session back to where it was: a seek, and a whole life from before its open to after its close. */
module Gen1Lives {
  import opened Bytes
  import opened IrisState
  import opened Gen1Protocol
  import opened Gen1Promises

  predicate Reaches(s: Inst, es: seq<Event>, t: Inst) {
    Runs(s, es) && After(s, es) == t
  }

  /** One step of a run that is being put together. */
  predicate Goes(s: Inst, e: Event, t: Inst) {
    Enabled(s, e) && Step(s, e) == t
  }

  lemma {:induction false} ReachesAll(s: Inst, es: seq<Event>, ts: seq<Inst>)
    requires |ts| == |es| + 1 && ts[0] == s && forall k | 0 <= k < |es| :: Goes(ts[k], es[k], ts[k + 1])
    ensures Reaches(s, es, ts[|es|])
    decreases |es|
  {
    hide Step, Enabled;
    if es != [] {
      assert forall k | 0 <= k < |es[1..]| :: Goes(ts[1..][k], es[1..][k], ts[1..][k + 1]) by {
        forall k | 0 <= k < |es[1..]| ensures Goes(ts[1..][k], es[1..][k], ts[1..][k + 1]) {
          assert Goes(ts[k + 1], es[k + 1], ts[k + 2]);
        }
      }
      assert Goes(ts[0], es[0], ts[1]);
      ReachesAll(ts[1], es[1..], ts[1..]);
    }
  }

  // A seek.

  function Seeking(s: Inst, state: InstState, op: Op, flush: Flush, stopping: bool): Inst {
    s.(phase := s.phase.(state := state), op := op, flush := flush, streamoffPending := stopping)
  }

  /** Input stream-off with its flush, and input stream-on again, which finds the resources loaded. */
  function Seek(released: bool, closeSent: bool): seq<Event> {
    [Streamoff(Output, true, released, closeSent), FlushDone(NoError), StreamoffFlushed(false, closeSent),
     StreamonInput(true, true), StreamonInputSetUp(true, true)]
  }

  /** A decoder that streams and is in no change or drain streams again after a seek, its input no longer paused. */
  lemma SeekReturns(s: Inst, released: bool, closeSent: bool)
    requires Steady(s) && s.phase.Has(LOAD_RESOURCES)
    ensures Reaches(s, Seek(released, closeSent),
                    s.(phase := s.phase.(sub := s.phase.sub & !INPUT_PAUSE), flush := Flush(0, 0, 0),
                       streamoffPending := false, last := Last(false, 0)))
  {
    hide Goes, Reaches, Seeking, Steady;
    var s1 := Seeking(s, Streaming, AwaitFlush(Output, Stopping), Flush(1, 0, 1), true);
    var s2 := Seeking(s, Streaming, AwaitFlush(Output, Stopping), Flush(0, 1, 0), true);
    var s3 := Seeking(s, OutputStreaming, Free, Flush(0, 0, 0), true);
    var s4 := Seeking(s, OutputStreaming, AwaitSetUp(Output), Flush(0, 0, 0), false);
    var s5 := s.(phase := s.phase.(sub := s.phase.sub & !INPUT_PAUSE), flush := Flush(0, 0, 0),
                 streamoffPending := false, last := Last(false, 0));
    SeekStops(s, s1, Streamoff(Output, true, released, closeSent));
    SeekIsFlushed(s, s1, s2);
    SeekHalts(s, s2, s3, StreamoffFlushed(false, closeSent));
    SeekStarts(s, s3, s4);
    SeekStreams(s, s4, s5);
    ReachesAll(s, Seek(released, closeSent), [s, s1, s2, s3, s4, s5]);
  }

  lemma SeekStops(s: Inst, t: Inst, e: Event)
    requires Steady(s) && e.Streamoff? && e.plane == Output && e.sent
    requires t == Seeking(s, Streaming, AwaitFlush(Output, Stopping), Flush(1, 0, 1), true)
    ensures Goes(s, e, t)
  {
  }

  lemma SeekIsFlushed(s: Inst, t: Inst, u: Inst)
    requires t == Seeking(s, Streaming, AwaitFlush(Output, Stopping), Flush(1, 0, 1), true)
    requires u == Seeking(s, Streaming, AwaitFlush(Output, Stopping), Flush(0, 1, 0), true)
    ensures Goes(t, FlushDone(NoError), u)
  {
  }

  lemma SeekHalts(s: Inst, t: Inst, u: Inst, e: Event)
    requires e.StreamoffFlushed? && !e.timeout
    requires t == Seeking(s, Streaming, AwaitFlush(Output, Stopping), Flush(0, 1, 0), true)
    requires u == Seeking(s, OutputStreaming, Free, Flush(0, 0, 0), true)
    ensures Goes(t, e, u)
  {
  }

  lemma SeekStarts(s: Inst, t: Inst, u: Inst)
    requires Steady(s) && t == Seeking(s, OutputStreaming, Free, Flush(0, 0, 0), true)
    requires u == Seeking(s, OutputStreaming, AwaitSetUp(Output), Flush(0, 0, 0), false)
    ensures Goes(t, StreamonInput(true, true), u)
  {
  }

  lemma SeekStreams(s: Inst, t: Inst, u: Inst)
    requires Steady(s) && s.phase.Has(LOAD_RESOURCES)
    requires t == Seeking(s, OutputStreaming, AwaitSetUp(Output), Flush(0, 0, 0), false)
    requires u == s.(phase := s.phase.(sub := s.phase.sub & !INPUT_PAUSE), flush := Flush(0, 0, 0),
                     streamoffPending := false, last := Last(false, 0))
    ensures Goes(t, StreamonInputSetUp(true, true), u)
  {
  }

  // A life.

  function At(pending: bool, state: InstState, sub: Flags, open: bool, op: Op, flush: Flush, stopping: bool): Inst {
    Inst(Phase(state, sub, pending), open, op, 0, flush, stopping, Last(false, 0), Cycles(0, 0))
  }

  const QUIET := Flush(0, 0, 0)

  /** Open, and input stream-on with its three waits. */
  const UP: seq<Event> := [
    OpenBegin(true), OpenEnd(true), StreamonInput(true, true), StreamonInputSetUp(true, true),
    StreamonInputLoaded(true, true), StreamonInputStarted(true)]

  lemma OpenReachesInit(p: bool)
    ensures Goes(Fresh(p), OpenBegin(true), At(p, Deinit, NONE, true, AwaitOpen, QUIET, false))
    ensures Goes(At(p, Deinit, NONE, true, AwaitOpen, QUIET, false), OpenEnd(true),
                 At(p, Init, NONE, true, Free, QUIET, false))
  {
  }

  lemma InputWaits(p: bool)
    ensures Goes(At(p, Init, NONE, true, Free, QUIET, false), StreamonInput(true, true),
                 At(p, Init, NONE, true, AwaitSetUp(Output), QUIET, false))
    ensures Goes(At(p, Init, NONE, true, AwaitSetUp(Output), QUIET, false), StreamonInputSetUp(true, true),
                 At(p, Init, NONE, true, AwaitLoad, QUIET, false))
    ensures Goes(At(p, Init, NONE, true, AwaitLoad, QUIET, false), StreamonInputLoaded(true, true),
                 At(p, Init, NONE, true, AwaitStart, QUIET, false))
  {
  }

  lemma InputStreams(p: bool)
    ensures Goes(At(p, Init, NONE, true, AwaitStart, QUIET, false), StreamonInputStarted(true),
                 At(p, InputStreaming, LOAD_RESOURCES, true, Free, QUIET, false))
  {
  }

  /** A fresh session that is opened and whose input is started streams its input, with the resources loaded. */
  lemma OpenedInputStreams(p: bool)
    ensures Reaches(Fresh(p), UP, At(p, InputStreaming, LOAD_RESOURCES, true, Free, QUIET, false))
  {
    OpenReachesInit(p);
    InputWaits(p);
    InputStreams(p);
    hide Goes, Reaches;
    ReachesAll(Fresh(p), UP, [
      Fresh(p), At(p, Deinit, NONE, true, AwaitOpen, QUIET, false), At(p, Init, NONE, true, Free, QUIET, false),
      At(p, Init, NONE, true, AwaitSetUp(Output), QUIET, false), At(p, Init, NONE, true, AwaitLoad, QUIET, false),
      At(p, Init, NONE, true, AwaitStart, QUIET, false), At(p, InputStreaming, LOAD_RESOURCES, true, Free, QUIET, false)]);
  }

  const FIRST: Flags := LOAD_RESOURCES | FIRST_IPSC | INPUT_PAUSE

  /** The first sequence, and capture stream-on with its two waits. */
  function Decode(fits: bool, sent: bool): seq<Event> {
    [SeqChanged(true, true, true, fits, true, sent), StreamonOutput(true, true, true, true, true, sent, true, true),
     StreamonOutputSetUp(true, true, true, true, true, sent, true, true),
     StreamonOutputReady(true, true, true, sent, true, true)]
  }

  lemma FirstSequencePauses(p: bool, e: Event)
    requires e.SeqChanged? && e.known && e.hasProperties && e.depthOk
    ensures Goes(At(p, InputStreaming, LOAD_RESOURCES, true, Free, QUIET, false), e,
                 At(p, InputStreaming, FIRST, true, Free, QUIET, false))
  {
  }

  lemma CaptureWaits(p: bool, e: Event, f: Event)
    requires e.StreamonOutput? && e.configured && e.waits && f.StreamonOutputSetUp? && f.answered && f.configured
    ensures Goes(At(p, InputStreaming, FIRST, true, Free, QUIET, false), e,
                 At(p, InputStreaming, FIRST, true, AwaitSetUp(Capture), QUIET, false))
    ensures Goes(At(p, InputStreaming, FIRST, true, AwaitSetUp(Capture), QUIET, false), f,
                 At(p, InputStreaming, FIRST, true, AwaitBuffers(false, false), QUIET, false))
  {
  }

  lemma CaptureStreams(p: bool, e: Event)
    requires e.StreamonOutputReady? && e.ready && e.resumed && e.queued
    ensures Goes(At(p, InputStreaming, FIRST, true, AwaitBuffers(false, false), QUIET, false), e,
                 At(p, Streaming, LOAD_RESOURCES, true, Free, QUIET, false))
  {
  }

  /** After the first sequence the client starts capture, and both queues stream, unpaused. */
  lemma FirstSequenceDecodes(p: bool, fits: bool, sent: bool)
    ensures Reaches(At(p, InputStreaming, LOAD_RESOURCES, true, Free, QUIET, false), Decode(fits, sent),
                    At(p, Streaming, LOAD_RESOURCES, true, Free, QUIET, false))
  {
    var es := Decode(fits, sent);
    FirstSequencePauses(p, es[0]);
    CaptureWaits(p, es[1], es[2]);
    CaptureStreams(p, es[3]);
    hide Goes, Reaches;
    ReachesAll(At(p, InputStreaming, LOAD_RESOURCES, true, Free, QUIET, false), es, [
      At(p, InputStreaming, LOAD_RESOURCES, true, Free, QUIET, false), At(p, InputStreaming, FIRST, true, Free, QUIET, false),
      At(p, InputStreaming, FIRST, true, AwaitSetUp(Capture), QUIET, false),
      At(p, InputStreaming, FIRST, true, AwaitBuffers(false, false), QUIET, false),
      At(p, Streaming, LOAD_RESOURCES, true, Free, QUIET, false)]);
  }

  /** Capture stream-off with its flush, input stream-off with its two waits, and the close that comes with it. */
  const DOWN: seq<Event> := [
    Streamoff(Capture, true, true, true), FlushDone(NoError), StreamoffFlushed(false, true),
    Streamoff(Output, true, true, true), StreamoffStopped(false, true), StreamoffReleased(true, true), CloseEnd(true)]

  lemma CaptureFlushes(p: bool)
    ensures Goes(At(p, Streaming, LOAD_RESOURCES, true, Free, QUIET, false), Streamoff(Capture, true, true, true),
                 At(p, Streaming, LOAD_RESOURCES, true, AwaitFlush(Capture, Stopping), Flush(1, 0, 1), true))
  {
  }

  lemma CaptureIsFlushed(p: bool)
    ensures Goes(At(p, Streaming, LOAD_RESOURCES, true, AwaitFlush(Capture, Stopping), Flush(1, 0, 1), true),
                 FlushDone(NoError),
                 At(p, Streaming, LOAD_RESOURCES, true, AwaitFlush(Capture, Stopping), Flush(0, 1, 0), true))
  {
  }

  lemma CaptureStops(p: bool)
    ensures Goes(At(p, Streaming, LOAD_RESOURCES, true, AwaitFlush(Capture, Stopping), Flush(0, 1, 0), true),
                 StreamoffFlushed(false, true), At(p, InputStreaming, LOAD_RESOURCES, true, Free, QUIET, true))
  {
  }

  lemma InputIsStopped(p: bool)
    ensures Goes(At(p, InputStreaming, LOAD_RESOURCES, true, Free, QUIET, true), Streamoff(Output, true, true, true),
                 At(p, InputStreaming, LOAD_RESOURCES, true, AwaitStop(Output, Stopping), QUIET, true))
  {
  }

  lemma InputIsReleased(p: bool)
    ensures Goes(At(p, InputStreaming, LOAD_RESOURCES, true, AwaitStop(Output, Stopping), QUIET, true),
                 StreamoffStopped(false, true),
                 At(p, InputStreaming, LOAD_RESOURCES, true, AwaitRelease(Output, Stopping), QUIET, true))
  {
  }

  lemma InputStops(p: bool)
    ensures Goes(At(p, InputStreaming, LOAD_RESOURCES, true, AwaitRelease(Output, Stopping), QUIET, true),
                 StreamoffReleased(true, true), At(p, Init, NONE, true, AwaitClose(false, Stopping), QUIET, true))
  {
  }

  lemma SessionEnds(p: bool)
    ensures Goes(At(p, Init, NONE, true, AwaitClose(false, Stopping), QUIET, true), CloseEnd(true), Fresh(p))
  {
  }

  /** Stopping both queues of a streaming session ends it: it is as it was before its open. */
  lemma StoppedSessionIsFresh(p: bool)
    ensures Reaches(At(p, Streaming, LOAD_RESOURCES, true, Free, QUIET, false), DOWN, Fresh(p))
  {
    CaptureFlushes(p);
    CaptureIsFlushed(p);
    CaptureStops(p);
    InputIsStopped(p);
    InputIsReleased(p);
    InputStops(p);
    SessionEnds(p);
    hide Goes, Reaches;
    ReachesAll(At(p, Streaming, LOAD_RESOURCES, true, Free, QUIET, false), DOWN, [
      At(p, Streaming, LOAD_RESOURCES, true, Free, QUIET, false),
      At(p, Streaming, LOAD_RESOURCES, true, AwaitFlush(Capture, Stopping), Flush(1, 0, 1), true),
      At(p, Streaming, LOAD_RESOURCES, true, AwaitFlush(Capture, Stopping), Flush(0, 1, 0), true),
      At(p, InputStreaming, LOAD_RESOURCES, true, Free, QUIET, true),
      At(p, InputStreaming, LOAD_RESOURCES, true, AwaitStop(Output, Stopping), QUIET, true),
      At(p, InputStreaming, LOAD_RESOURCES, true, AwaitRelease(Output, Stopping), QUIET, true),
      At(p, Init, NONE, true, AwaitClose(false, Stopping), QUIET, true), Fresh(p)]);
  }

  lemma {:induction false} ReachesOn(s: Inst, es: seq<Event>, t: Inst, fs: seq<Event>, u: Inst)
    requires Reaches(s, es, t) && Reaches(t, fs, u)
    ensures Reaches(s, es + fs, u)
    decreases |es|
  {
    hide Step, Enabled;
    if es == [] {
      assert es + fs == fs;
    } else {
      ReachesOn(Step(s, es[0]), es[1..], t, fs, u);
      assert (es + fs)[1..] == es[1..] + fs;
    }
  }

  /** A whole life: opened, started, decoding, stopped, closed, and nothing is left of it. */
  lemma LifeLeavesNothing(p: bool, fits: bool, sent: bool)
    ensures Reaches(Fresh(p), UP + Decode(fits, sent) + DOWN, Fresh(p))
  {
    OpenedInputStreams(p);
    FirstSequenceDecodes(p, fits, sent);
    StoppedSessionIsFresh(p);
    hide Reaches;
    ReachesOn(Fresh(p), UP, At(p, InputStreaming, LOAD_RESOURCES, true, Free, QUIET, false), Decode(fits, sent),
              At(p, Streaming, LOAD_RESOURCES, true, Free, QUIET, false));
    ReachesOn(Fresh(p), UP + Decode(fits, sent), At(p, Streaming, LOAD_RESOURCES, true, Free, QUIET, false), DOWN, Fresh(p));
  }
}
