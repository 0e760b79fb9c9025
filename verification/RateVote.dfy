/**
 The rate a decoder session votes for: inputs are measured in windows of at least a second, a higher rate
 counts at once, and a lower one only when three windows in a row say so.
 */
module RateVote {
  import opened Bytes
  import opened Rates

  const NSEC_PER_SEC: nat := 1_000_000_000

  function Clamp(x: nat, lo: nat, hi: nat): nat {
    if x < lo then lo else if x > hi then hi else x
  }

  /** Frames per second of `frames` frames over `span` nanoseconds, rounded up and kept in 32 bits. */
  function Fps(frames: nat, span: nat): nat
    requires frames > 0 && span > 0
  {
    Wrap32(((frames - 1) * NSEC_PER_SEC + span - 1) / span)
  }

  /**
   A rate of 2^32 frames per second and more is not what the estimate says: 8388609 frames stamped within one
   nanosecond measure as none at all.  Below that it is the true rate, rounded up.
   */
  lemma DenseTimestampsWrap(frames: nat, span: nat)
    requires frames > 0 && span > 0
    ensures Fps(frames, span) == ((frames - 1) * NSEC_PER_SEC + span - 1) / span
            <==> ((frames - 1) * NSEC_PER_SEC + span - 1) / span < U32_LIMIT
    ensures Fps(8388609, 1) == 0
  {
    assert 8388608 * NSEC_PER_SEC == 1953125 * U32_LIMIT;
  }

  /** Where it does not wrap, the estimate is the least whole rate that is not below the true one. */
  lemma RateIsRoundedUp(frames: nat, span: nat)
    requires frames > 0 && span > 0 && ((frames - 1) * NSEC_PER_SEC + span - 1) / span < U32_LIMIT
    ensures Fps(frames, span) * span >= (frames - 1) * NSEC_PER_SEC
    ensures Fps(frames, span) > 0 ==> (Fps(frames, span) - 1) * span < (frames - 1) * NSEC_PER_SEC
  {
    var n := (frames - 1) * NSEC_PER_SEC;
    RoundingUp(n, span);
  }

  lemma RoundingUp(n: nat, span: nat)
    requires span > 0
    ensures var q := (n + span - 1) / span; q * span >= n && (q - 1) * span < n + (if n == 0 then 1 else 0)
  {
    var q, r := (n + span - 1) / span, (n + span - 1) % span;
    assert n + span - 1 == q * span + r;
    assert (q - 1) * span == q * span - span;
  }

  // The vote.

  datatype Vote = Vote(fps: nat, down: nat)

  function Target(measured: nat): (t: nat)
    ensures DEFAULT_FPS <= t <= MAXIMUM_FPS
    ensures t >= Clamp(measured, 1, MAXIMUM_FPS)
  {
    Clamp((Clamp(measured, 1, MAXIMUM_FPS) * 11 + 9) / 10, DEFAULT_FPS, MAXIMUM_FPS)
  }

  /** The target is a tenth above what was measured, rounded up, as far as the bounds allow. */
  lemma TargetAddsTenth(measured: nat, n: nat)
    requires DEFAULT_FPS <= n < MAXIMUM_FPS
    ensures Target(measured) <= n <==> 11 * measured <= 10 * n
  {
  }

  /** A rate that is not lower counts at once; a lower one must come from three windows in a row. */
  function Decide(v: Vote, target: nat): Vote {
    if v.fps == MAXIMUM_FPS || target >= v.fps then Vote(target, 0)
    else if v.down + 1 >= 3 then Vote(target, 0)
    else Vote(v.fps, v.down + 1)
  }

  /** The vote after the windows with these targets, from stream-on. */
  function VoteAfter(targets: seq<nat>): Vote {
    if targets == [] then Vote(MAXIMUM_FPS, 0)
    else Decide(VoteAfter(targets[..|targets| - 1]), targets[|targets| - 1])
  }

  lemma VoteSnoc(targets: seq<nat>, target: nat)
    ensures VoteAfter(targets + [target]) == Decide(VoteAfter(targets), target)
  {
    assert (targets + [target])[..|targets|] == targets;
  }

  predicate InBounds(targets: seq<nat>) {
    forall k | 0 <= k < |targets| :: DEFAULT_FPS <= targets[k] <= MAXIMUM_FPS
  }

  /** The vote never leaves its bounds, and each window leaves it at least at that window's target. */
  lemma {:induction false} VoteStaysInBounds(targets: seq<nat>)
    requires InBounds(targets)
    ensures DEFAULT_FPS <= VoteAfter(targets).fps <= MAXIMUM_FPS
    ensures targets != [] ==> VoteAfter(targets).fps >= targets[|targets| - 1]
  {
    if targets != [] {
      VoteStaysInBounds(targets[..|targets| - 1]);
    }
  }

  /** The last `n` windows were all lower than the vote, which they left as it was. */
  predicate LowerFor(targets: seq<nat>, n: nat) {
    n <= |targets| &&
    forall k | |targets| - n <= k < |targets| ::
      targets[k] < VoteAfter(targets).fps && VoteAfter(targets[..k]).fps == VoteAfter(targets).fps
  }

  lemma {:induction false} DownCountsLowerWindows(targets: seq<nat>)
    ensures VoteAfter(targets).down <= 2 && LowerFor(targets, VoteAfter(targets).down)
    ensures VoteAfter(targets).down > 0 ==> VoteAfter(targets).fps != MAXIMUM_FPS
  {
    if targets != [] {
      var n := |targets| - 1;
      var before, after := VoteAfter(targets[..n]), VoteAfter(targets);
      DownCountsLowerWindows(targets[..n]);
      if after.down > 0 {
        forall k | |targets| - after.down <= k < |targets|
          ensures targets[k] < after.fps && VoteAfter(targets[..k]).fps == after.fps
        {
          if k < n {
            assert targets[..n][k] == targets[k] && targets[..n][..k] == targets[..k];
          }
        }
      }
    }
  }

  lemma LowerTwiceIsCounted(targets: seq<nat>)
    requires InBounds(targets) && LowerFor(targets, 2)
    ensures VoteAfter(targets).down == 2
  {
    var n := |targets|;
    var first, second := targets[..n - 1], targets[..n - 2];
    assert first[..n - 2] == second && first[n - 2] == targets[n - 2];
    DownCountsLowerWindows(targets);
    VoteStaysInBounds(second);
    assert VoteAfter(first) == Decide(VoteAfter(second), targets[n - 2]);
    assert VoteAfter(targets) == Decide(VoteAfter(first), targets[n - 1]);
  }

  /**
   The vote becomes the target of a window if it was still the maximum that stream-on votes for, if the target is
   not lower, or if this is the third window in a row that is lower than the vote, the first two of which left it
   alone; in every other case the vote stays.
   */
  lemma VoteFallsOnThirdLowerWindow(earlier: seq<nat>, target: nat)
    requires InBounds(earlier)
    ensures var before := VoteAfter(earlier).fps;
            VoteAfter(earlier + [target]).fps
            == if before == MAXIMUM_FPS || target >= before || LowerFor(earlier, 2) then target else before
  {
    DownCountsLowerWindows(earlier);
    VoteSnoc(earlier, target);
    if LowerFor(earlier, 2) {
      LowerTwiceIsCounted(earlier);
    }
  }

  // The window.

  /** The open window: when it began, the least and the greatest timestamp, and how many frames it has. */
  datatype Window = Window(since: nat, least: nat, greatest: nat, frames: nat)

  const CLOSED := Window(0, 0, 0, 0)

  function Arrive(w: Window, now: nat, timestamp: nat): Window {
    if w.frames == 0 then Window(now, timestamp, timestamp, 1)
    else Window(w.since, Min(w.least, timestamp), Max(w.greatest, timestamp), w.frames + 1)
  }

  /** What a window that lasted `span` nanoseconds measures: the arrivals, or the timestamps if they are denser. */
  function Measured(w: Window, span: nat, legacy: bool): nat
    requires w.frames > 0 && span > 0 && w.least <= w.greatest
  {
    Max(Fps(w.frames, span),
        if legacy && w.greatest > w.least && w.frames > 1 then Fps(w.frames, w.greatest - w.least) else 0)
  }

  /** It is the greater of the two rates, or that of the arrivals where the timestamps have no span or do not count. */
  lemma MeasuredIsGreater(w: Window, span: nat, legacy: bool)
    requires w.frames > 0 && span > 0 && w.least <= w.greatest
    ensures var arrivals, stamps := Fps(w.frames, span), if w.least < w.greatest then Fps(w.frames, w.greatest - w.least) else 0;
            var m := Measured(w, span, legacy);
            if legacy && w.frames > 1 then m >= arrivals && m >= stamps && (m == arrivals || m == stamps) else m == arrivals
  {
  }

  /** The timestamp of the last input, once there was one; only the legacy platform keeps it. */
  datatype Track = Unknown | Known(timestamp: nat)

  datatype State = State(window: Window, last: Track, vote: Vote)

  const STREAM_ON := State(CLOSED, Unknown, Vote(MAXIMUM_FPS, 0))

  function Apart(a: nat, b: nat): nat {
    if a > b then a - b else b - a
  }

  predicate Jumps(last: Track, timestamp: nat) {
    last.Known? && Apart(timestamp, last.timestamp) > NSEC_PER_SEC
  }

  /** On the legacy platform a jump of the timestamps by more than a second starts the window over. */
  function Followed(s: State, timestamp: nat, legacy: bool): State {
    if !legacy then s
    else s.(window := if Jumps(s.last, timestamp) then CLOSED else s.window, last := Known(timestamp))
  }

  predicate Sane(s: State, now: nat) {
    && s.window.least <= s.window.greatest
    && (s.window.frames > 0 ==> s.window.since <= now)
    && DEFAULT_FPS <= s.vote.fps <= MAXIMUM_FPS
  }

  /** The window an input leaves, before it is asked whether that is old enough to be closed. */
  function Entered(s: State, now: nat, timestamp: nat, legacy: bool): Window {
    Arrive(Followed(s, timestamp, legacy).window, now, timestamp)
  }

  predicate Closes(s: State, now: nat, timestamp: nat, legacy: bool)
    requires Sane(s, now)
  {
    now - Entered(s, now, timestamp, legacy).since >= NSEC_PER_SEC
  }

  /** The target of the window that an input closes. */
  function TargetOf(s: State, now: nat, timestamp: nat, legacy: bool): nat
    requires Sane(s, now) && Closes(s, now, timestamp, legacy)
  {
    var w := Entered(s, now, timestamp, legacy);
    Target(Measured(w, now - w.since, legacy))
  }

  function Queue(s: State, now: nat, timestamp: nat, legacy: bool): State
    requires Sane(s, now)
  {
    var last := Followed(s, timestamp, legacy).last;
    if !Closes(s, now, timestamp, legacy) then State(Entered(s, now, timestamp, legacy), last, s.vote)
    else State(CLOSED, last, Decide(s.vote, TargetOf(s, now, timestamp, legacy)))
  }

  /** Every input leaves the vote in bounds; one that closes a window leaves it at what was measured at least. */
  lemma QueueKeepsVote(s: State, now: nat, timestamp: nat, legacy: bool)
    requires Sane(s, now)
    ensures Sane(Queue(s, now, timestamp, legacy), now)
    ensures Closes(s, now, timestamp, legacy) ==>
              var w := Entered(s, now, timestamp, legacy);
              Queue(s, now, timestamp, legacy).vote.fps >= Clamp(Measured(w, now - w.since, legacy), 1, MAXIMUM_FPS)
  {
  }

  lemma QueueVotes(s: State, now: nat, timestamp: nat, legacy: bool)
    requires Sane(s, now)
    ensures Queue(s, now, timestamp, legacy).vote ==
              if Closes(s, now, timestamp, legacy) then Decide(s.vote, TargetOf(s, now, timestamp, legacy)) else s.vote
    ensures Closes(s, now, timestamp, legacy) ==>
              DEFAULT_FPS <= TargetOf(s, now, timestamp, legacy) <= MAXIMUM_FPS
  {
  }

  // Whole runs of inputs.

  datatype Input = Input(now: nat, timestamp: nat)

  /** Inputs as they come, one after the other. */
  predicate InTime(inputs: seq<Input>) {
    forall i, j | 0 <= i < j < |inputs| :: inputs[i].now <= inputs[j].now
  }

  function QueueAll(start: State, inputs: seq<Input>, legacy: bool): (s: State)
    requires Sane(start, 0) && InTime(inputs)
    ensures forall now: nat | inputs == [] || inputs[|inputs| - 1].now <= now :: Sane(s, now)
  {
    if inputs == [] then start
    else
      var n := |inputs| - 1;
      Queue(QueueAll(start, inputs[..n], legacy), inputs[n].now, inputs[n].timestamp, legacy)
  }

  lemma RunsStaySane(inputs: seq<Input>, x: Input, legacy: bool)
    requires InTime(inputs) && (inputs == [] || inputs[|inputs| - 1].now <= x.now)
    ensures Sane(QueueAll(STREAM_ON, inputs, legacy), x.now)
  {
  }

  /** The targets of the windows that were closed since stream-on, in order. */
  function Targets(inputs: seq<Input>, legacy: bool): seq<nat>
    requires InTime(inputs)
  {
    if inputs == [] then []
    else
      var n := |inputs| - 1;
      var s, x := QueueAll(STREAM_ON, inputs[..n], legacy), inputs[n];
      Targets(inputs[..n], legacy)
      + (if Closes(s, x.now, x.timestamp, legacy) then [TargetOf(s, x.now, x.timestamp, legacy)] else [])
  }

  lemma {:induction false} TargetsInBounds(inputs: seq<Input>, legacy: bool)
    requires InTime(inputs)
    ensures InBounds(Targets(inputs, legacy))
  {
    if inputs != [] {
      hide TargetOf, Closes, Sane, Queue;
      var n := |inputs| - 1;
      TargetsInBounds(inputs[..n], legacy);
      QueueVotes(QueueAll(STREAM_ON, inputs[..n], legacy), inputs[n].now, inputs[n].timestamp, legacy);
    }
  }

  /** After any inputs from stream-on the vote is what the targets of the closed windows make it. */
  lemma {:induction false} VoteFollowsWindows(inputs: seq<Input>, legacy: bool)
    requires InTime(inputs)
    ensures QueueAll(STREAM_ON, inputs, legacy).vote == VoteAfter(Targets(inputs, legacy))
  {
    if inputs == [] {
      assert Targets(inputs, legacy) == [];
    } else {
      var n := |inputs| - 1;
      VoteFollowsWindows(inputs[..n], legacy);
      VoteFollowsOne(inputs[..n], inputs[n], legacy);
      assert inputs[..n] + [inputs[n]] == inputs;
    }
  }

  lemma VoteFollowsOne(inputs: seq<Input>, x: Input, legacy: bool)
    requires InTime(inputs) && InTime(inputs + [x])
    requires QueueAll(STREAM_ON, inputs, legacy).vote == VoteAfter(Targets(inputs, legacy))
    ensures QueueAll(STREAM_ON, inputs + [x], legacy).vote == VoteAfter(Targets(inputs + [x], legacy))
  {
    hide Decide, TargetOf, Closes, VoteAfter, Queue;
    var s, ts, more := QueueAll(STREAM_ON, inputs, legacy), Targets(inputs, legacy), inputs + [x];
    assert more[..|inputs|] == inputs && more[|inputs|] == x;
    assert inputs != [] ==> more[|inputs| - 1] == inputs[|inputs| - 1];
    RunsStaySane(inputs, x, legacy);
    QueueVotes(s, x.now, x.timestamp, legacy);
    assert QueueAll(STREAM_ON, more, legacy) == Queue(s, x.now, x.timestamp, legacy);
    if Closes(s, x.now, x.timestamp, legacy) {
      VoteSnoc(ts, TargetOf(s, x.now, x.timestamp, legacy));
      assert Targets(more, legacy) == ts + [TargetOf(s, x.now, x.timestamp, legacy)];
    } else {
      assert Targets(more, legacy) == ts;
    }
  }

  /**
   In any run of inputs the vote changes only with one that closes a window, and then as the targets of the
   windows say: a vote below the maximum comes down exactly with the third window in a row that is lower.
   */
  lemma InputLowersOnThirdWindow(inputs: seq<Input>, x: Input, legacy: bool)
    requires InTime(inputs) && InTime(inputs + [x])
    ensures Sane(QueueAll(STREAM_ON, inputs, legacy), x.now)
    ensures var s, ts := QueueAll(STREAM_ON, inputs, legacy), Targets(inputs, legacy);
            QueueAll(STREAM_ON, inputs + [x], legacy).vote.fps
            == if !Closes(s, x.now, x.timestamp, legacy) then s.vote.fps
               else
                 var target := TargetOf(s, x.now, x.timestamp, legacy);
                 if s.vote.fps == MAXIMUM_FPS || target >= s.vote.fps || LowerFor(ts, 2) then target else s.vote.fps
  {
    hide Queue, Decide, TargetOf, Closes, VoteAfter, LowerFor;
    var s, ts, more := QueueAll(STREAM_ON, inputs, legacy), Targets(inputs, legacy), inputs + [x];
    assert more[..|inputs|] == inputs && more[|inputs|] == x;
    assert inputs != [] ==> more[|inputs| - 1] == inputs[|inputs| - 1];
    RunsStaySane(inputs, x, legacy);
    QueueVotes(s, x.now, x.timestamp, legacy);
    VoteFollowsWindows(more, legacy);
    VoteFollowsWindows(inputs, legacy);
    TargetsInBounds(inputs, legacy);
    if Closes(s, x.now, x.timestamp, legacy) {
      VoteFallsOnThirdLowerWindow(ts, TargetOf(s, x.now, x.timestamp, legacy));
    }
  }

  // The order of the frames in a window.

  function Least(ts: seq<nat>): nat
    requires ts != []
  {
    if |ts| == 1 then ts[0] else Min(Least(ts[..|ts| - 1]), ts[|ts| - 1])
  }

  function Greatest(ts: seq<nat>): nat
    requires ts != []
  {
    if |ts| == 1 then ts[0] else Max(Greatest(ts[..|ts| - 1]), ts[|ts| - 1])
  }

  lemma {:induction false} ExtremesAreMembers(ts: seq<nat>)
    requires ts != []
    ensures Least(ts) in ts && Greatest(ts) in ts
    ensures forall t | t in ts :: Least(ts) <= t <= Greatest(ts)
  {
    var n := |ts| - 1;
    assert ts == ts[..n] + [ts[n]];
    if n > 0 {
      ExtremesAreMembers(ts[..n]);
    }
  }

  /** The arrival times of frames, and their timestamps, with which a window begins. */
  predicate Arrivals(nows: seq<nat>, ts: seq<nat>) {
    |nows| == |ts| > 0
  }

  /** A window that is opened by the first of these frames and left open, whatever the last timestamp was before. */
  function Filled(last: Track, nows: seq<nat>, ts: seq<nat>, legacy: bool): State
    requires |nows| == |ts|
  {
    if ts == [] then State(CLOSED, last, Vote(MAXIMUM_FPS, 0))
    else
      var n := |ts| - 1;
      var s := Filled(last, nows[..n], ts[..n], legacy);
      State(Entered(s, nows[n], ts[n], legacy), Followed(s, ts[n], legacy).last, s.vote)
  }

  predicate Close(ts: seq<nat>) {
    forall i, j | 0 <= i < |ts| && 0 <= j < |ts| :: Apart(ts[i], ts[j]) <= NSEC_PER_SEC
  }

  /** As long as no two timestamps are more than a second apart, a window has all of its frames. */
  lemma {:induction false} CloseFramesFill(last: Track, nows: seq<nat>, ts: seq<nat>, legacy: bool)
    requires Arrivals(nows, ts) && (legacy ==> Close(ts))
    ensures Filled(last, nows, ts, legacy).window == Window(nows[0], Least(ts), Greatest(ts), |ts|)
    ensures legacy ==> Filled(last, nows, ts, legacy).last == Known(ts[|ts| - 1])
    ensures Least(ts) <= Greatest(ts)
  {
    var n := |ts| - 1;
    if n == 0 {
      assert Filled(last, nows[..0], ts[..0], legacy) == State(CLOSED, last, Vote(MAXIMUM_FPS, 0));
    } else {
      CloseFramesFill(last, nows[..n], ts[..n], legacy);
      assert ts[..n][n - 1] == ts[n - 1];
    }
  }

  /** A last frame more than a second from the one before it begins the window anew. */
  lemma JumpLeavesOne(last: Track, nows: seq<nat>, ts: seq<nat>)
    requires |nows| == |ts| >= 2 && Apart(ts[|ts| - 1], ts[|ts| - 2]) > NSEC_PER_SEC
    ensures var n := |ts| - 1;
            Filled(last, nows, ts, true).window == Window(nows[n], ts[n], ts[n], 1)
  {
    var n := |ts| - 1;
    assert Filled(last, nows[..n], ts[..n], true).last == Known(ts[..n][n - 1]);
  }

  lemma SameExtremes(ts: seq<nat>, us: seq<nat>)
    requires ts != [] && multiset(ts) == multiset(us)
    ensures |ts| == |us| && Least(ts) == Least(us) && Greatest(ts) == Greatest(us)
  {
    assert |multiset(ts)| == |ts| && |multiset(us)| == |us|;
    ExtremesAreMembers(ts);
    ExtremesAreMembers(us);
    assert forall t :: t in ts <==> t in multiset(ts);
    assert forall t :: t in us <==> t in multiset(us);
    assert Least(us) in ts && Least(ts) in us && Greatest(us) in ts && Greatest(ts) in us;
  }

  lemma CloseIsSpread(ts: seq<nat>)
    requires ts != []
    ensures Close(ts) <==> Greatest(ts) - Least(ts) <= NSEC_PER_SEC
  {
    ExtremesAreMembers(ts);
    forall i, j | 0 <= i < |ts| && 0 <= j < |ts| ensures Apart(ts[i], ts[j]) <= Greatest(ts) - Least(ts) {
      assert ts[i] in ts && ts[j] in ts;
    }
    if Close(ts) {
      var i, j :| 0 <= i < |ts| && 0 <= j < |ts| && ts[i] == Greatest(ts) && ts[j] == Least(ts);
    }
  }

  /** Every order of these frames makes the same window, and so measures the same. */
  ghost predicate OrderFree(last: Track, nows: seq<nat>, ts: seq<nat>, legacy: bool)
    requires |nows| == |ts|
  {
    forall us: seq<nat> | |us| == |ts| && multiset(us) == multiset(ts) ::
      Filled(last, nows, us, legacy).window == Filled(last, nows, ts, legacy).window
  }

  lemma TakeOut(ts: seq<nat>, i: nat)
    requires i < |ts|
    ensures multiset(ts) == multiset(ts[..i] + ts[i + 1..]) + multiset{ts[i]}
  {
    assert ts == ts[..i] + [ts[i]] + ts[i + 1..];
  }

  lemma PutBack(ts: seq<nat>, a: nat, b: nat)
    ensures multiset(ts + [a, b]) == multiset(ts) + multiset{a} + multiset{b}
  {
  }

  /** Two frames can be put last, in either order. */
  lemma PutLast(ts: seq<nat>, i: nat, j: nat) returns (rest: seq<nat>)
    requires i < j < |ts|
    ensures |rest| == |ts| - 2
    ensures multiset(rest + [ts[i], ts[j]]) == multiset(ts) && multiset(rest + [ts[j], ts[i]]) == multiset(ts)
  {
    var once := ts[..j] + ts[j + 1..];
    TakeOut(ts, j);
    TakeOut(once, i);
    rest := once[..i] + once[i + 1..];
    PutBack(rest, ts[i], ts[j]);
    PutBack(rest, ts[j], ts[i]);
  }

  lemma FarFramesDisagree(last: Track, nows: seq<nat>, ts: seq<nat>, i: nat, j: nat)
    requires Arrivals(nows, ts) && i < j < |ts| && Apart(ts[i], ts[j]) > NSEC_PER_SEC
    ensures !OrderFree(last, nows, ts, true)
  {
    var rest := PutLast(ts, i, j);
    var us, vs := rest + [ts[i], ts[j]], rest + [ts[j], ts[i]];
    JumpLeavesOne(last, nows, us);
    JumpLeavesOne(last, nows, vs);
    assert Filled(last, nows, us, true).window.least != Filled(last, nows, vs, true).window.least;
  }

  /**
   The order in which the frames of a window arrive does not matter on other platforms; on the legacy one it
   does not exactly if no two of their timestamps are more than a second apart.
   */
  lemma OrderMattersExactly(last: Track, nows: seq<nat>, ts: seq<nat>, legacy: bool)
    requires Arrivals(nows, ts)
    ensures OrderFree(last, nows, ts, legacy) <==> !legacy || Greatest(ts) - Least(ts) <= NSEC_PER_SEC
  {
    CloseIsSpread(ts);
    if !legacy || Close(ts) {
      CloseFramesFill(last, nows, ts, legacy);
      forall us: seq<nat> | |us| == |ts| && multiset(us) == multiset(ts)
        ensures Filled(last, nows, us, legacy).window == Filled(last, nows, ts, legacy).window
      {
        SameExtremes(ts, us);
        CloseIsSpread(us);
        CloseFramesFill(last, nows, us, legacy);
      }
    } else {
      var i, j :| 0 <= i < |ts| && 0 <= j < |ts| && Apart(ts[i], ts[j]) > NSEC_PER_SEC;
      FarFramesDisagree(last, nows, ts, if i < j then i else j, if i < j then j else i);
    }
  }

  /** Three frames within 1.2 seconds: in order they make one window, with the last two exchanged a shorter one. */
  lemma OrderMattersExample(last: Track, a: nat, b: nat, c: nat)
    ensures Filled(last, [a, b, c], [0, 600_000_000, 1_200_000_000], true).window == Window(a, 0, 1_200_000_000, 3)
    ensures Filled(last, [a, b, c], [0, 1_200_000_000, 600_000_000], true).window
            == Window(b, 600_000_000, 1_200_000_000, 2)
  {
    FilledThree(last, a, b, c, 0, 600_000_000, 1_200_000_000);
    FilledThree(last, a, b, c, 0, 1_200_000_000, 600_000_000);
  }

  lemma FilledThree(last: Track, a: nat, b: nat, c: nat, x: nat, y: nat, z: nat)
    ensures var s1 := State(Window(a, x, x, 1), Known(x), Vote(MAXIMUM_FPS, 0));
            var s2 := State(Entered(s1, b, y, true), Known(y), s1.vote);
            Filled(last, [a, b, c], [x, y, z], true) == State(Entered(s2, c, z, true), Known(z), s1.vote)
  {
    assert [a, b, c][..2] == [a, b] && [x, y, z][..2] == [x, y];
    assert [a, b][..1] == [a] && [x, y][..1] == [x] && [a][..0] == [] && [x][..0] == [];
    assert Filled(last, [a], [x], true) == State(Window(a, x, x, 1), Known(x), Vote(MAXIMUM_FPS, 0));
  }

  /** On the legacy platform the timestamp of the last input is remembered, whatever became of its window. */
  lemma {:induction false} LastTimestampIsKept(start: State, inputs: seq<Input>, legacy: bool)
    requires Sane(start, 0) && InTime(inputs)
    ensures QueueAll(start, inputs, legacy).last
            == if legacy && inputs != [] then Known(inputs[|inputs| - 1].timestamp) else start.last
  {
    hide Decide, TargetOf, Target, Measured;
    if inputs != [] {
      LastTimestampIsKept(start, inputs[..|inputs| - 1], legacy);
    }
  }

  function Nows(inputs: seq<Input>): seq<nat> {
    seq(|inputs|, k requires 0 <= k < |inputs| => inputs[k].now)
  }

  function Stamps(inputs: seq<Input>): seq<nat> {
    seq(|inputs|, k requires 0 <= k < |inputs| => inputs[k].timestamp)
  }

  /** Inputs that come within a second of each other, after a closed window, do fill one, up to the one that closes it. */
  lemma {:induction false} InputsFillWindow(start: State, inputs: seq<Input>, legacy: bool)
    requires Sane(start, 0) && start.window == CLOSED && InTime(inputs)
    requires inputs != [] ==> inputs[|inputs| - 1].now - inputs[0].now < NSEC_PER_SEC
    ensures var s, filled := QueueAll(start, inputs, legacy), Filled(start.last, Nows(inputs), Stamps(inputs), legacy);
            s.window == filled.window && s.last == filled.last && s.vote == start.vote
    ensures inputs != [] ==> QueueAll(start, inputs, legacy).window.since >= inputs[0].now
  {
    hide Decide, TargetOf, Target;
    if inputs != [] {
      var n := |inputs| - 1;
      assert Nows(inputs)[..n] == Nows(inputs[..n]) && Stamps(inputs)[..n] == Stamps(inputs[..n]);
      InputsFillWindow(start, inputs[..n], legacy);
    }
  }

  lemma LastInputEnters(start: State, inputs: seq<Input>, legacy: bool)
    requires Sane(start, 0) && start.window == CLOSED && InTime(inputs) && inputs != []
    requires |inputs| > 1 ==> inputs[|inputs| - 2].now - inputs[0].now < NSEC_PER_SEC
    ensures var n := |inputs| - 1;
            var s, x := QueueAll(start, inputs[..n], legacy), inputs[n];
            && Entered(s, x.now, x.timestamp, legacy) == Filled(start.last, Nows(inputs), Stamps(inputs), legacy).window
            && s.vote == start.vote
  {
    hide Queue, Closes;
    var n := |inputs| - 1;
    assert Nows(inputs)[..n] == Nows(inputs[..n]) && Stamps(inputs)[..n] == Stamps(inputs[..n]);
    InputsFillWindow(start, inputs[..n], legacy);
  }

  /**
   Inputs that fill a window: the last of them closes it exactly if it comes a second or more after the first,
   and then the vote goes by how many they are, how long they took, and how far their timestamps spread.
   */
  lemma LastInputCloses(start: State, inputs: seq<Input>, legacy: bool)
    requires Sane(start, 0) && start.window == CLOSED && InTime(inputs) && inputs != []
    requires |inputs| > 1 ==> inputs[|inputs| - 2].now - inputs[0].now < NSEC_PER_SEC
    requires legacy ==> Greatest(Stamps(inputs)) - Least(Stamps(inputs)) <= NSEC_PER_SEC
    ensures var n := |inputs| - 1;
            var span, w := inputs[n].now - inputs[0].now,
                           Window(inputs[0].now, Least(Stamps(inputs)), Greatest(Stamps(inputs)), |inputs|);
            && w.least <= w.greatest
            && (QueueAll(start, inputs, legacy).window == CLOSED <==> span >= NSEC_PER_SEC)
            && (span < NSEC_PER_SEC ==> QueueAll(start, inputs, legacy).window == w)
            && QueueAll(start, inputs, legacy).vote
               == if span < NSEC_PER_SEC then start.vote else Decide(start.vote, Target(Measured(w, span, legacy)))
  {
    hide Filled, Entered, Decide, Target, Measured, Greatest, Least, Sane, Followed;
    var n := |inputs| - 1;
    CloseIsSpread(Stamps(inputs));
    CloseFramesFill(start.last, Nows(inputs), Stamps(inputs), legacy);
    LastInputEnters(start, inputs, legacy);
    SaneBefore(start, inputs, legacy);
  }

  lemma OrdersAgree(last: Track, nows: seq<nat>, ts: seq<nat>, us: seq<nat>, legacy: bool)
    requires Arrivals(nows, ts) && |us| == |ts| && multiset(us) == multiset(ts)
    requires legacy ==> Greatest(ts) - Least(ts) <= NSEC_PER_SEC
    ensures Filled(last, nows, us, legacy).window == Filled(last, nows, ts, legacy).window
  {
    hide Filled;
    OrderMattersExactly(last, nows, ts, legacy);
  }

  lemma SameEntrySameVote(s: State, t: State, now: nat, a: nat, b: nat, legacy: bool)
    requires Sane(s, now) && Sane(t, now) && s.vote == t.vote
    requires Entered(s, now, a, legacy) == Entered(t, now, b, legacy)
    ensures Queue(s, now, a, legacy).window == Queue(t, now, b, legacy).window
    ensures Queue(s, now, a, legacy).vote == Queue(t, now, b, legacy).vote
  {
    hide Entered, Decide, Target, Measured;
  }

  lemma SaneBefore(start: State, inputs: seq<Input>, legacy: bool)
    requires Sane(start, 0) && InTime(inputs) && inputs != []
    ensures var n := |inputs| - 1;
            Sane(QueueAll(start, inputs[..n], legacy), inputs[n].now)
  {
  }

  /**
   A window that inputs fill and that the last of them closes, with the vote it leads to: the same in every order
   that OrderMattersExactly frees.
   */
  lemma VoteIgnoresOrder(start: State, inputs: seq<Input>, others: seq<Input>, legacy: bool)
    requires Sane(start, 0) && start.window == CLOSED && InTime(inputs) && InTime(others) && inputs != []
    requires Nows(inputs) == Nows(others) && multiset(Stamps(inputs)) == multiset(Stamps(others))
    requires |inputs| > 1 ==> inputs[|inputs| - 2].now - inputs[0].now < NSEC_PER_SEC
    requires legacy ==> Greatest(Stamps(inputs)) - Least(Stamps(inputs)) <= NSEC_PER_SEC
    ensures QueueAll(start, inputs, legacy).window == QueueAll(start, others, legacy).window
    ensures QueueAll(start, inputs, legacy).vote == QueueAll(start, others, legacy).vote
  {
    hide Filled, Entered, Queue, Sane, Least, Greatest, OrderFree;
    assert |Nows(inputs)| == |inputs| && |Nows(others)| == |others|;
    assert forall k | 0 <= k < |inputs| :: inputs[k].now == Nows(inputs)[k] && others[k].now == Nows(others)[k];
    OrdersAgree(start.last, Nows(inputs), Stamps(inputs), Stamps(others), legacy);
    LastInputEnters(start, inputs, legacy);
    LastInputEnters(start, others, legacy);
    SaneBefore(start, inputs, legacy);
    SaneBefore(start, others, legacy);
    var n := |inputs| - 1;
    SameEntrySameVote(QueueAll(start, inputs[..n], legacy), QueueAll(start, others[..n], legacy), inputs[n].now,
                      inputs[n].timestamp, others[n].timestamp, legacy);
  }

  // The estimator as the driver keeps it.

  class Estimator {
    const legacy: bool
    var lastBufNs: nat
    var rateMinTimestamp: nat
    var rateMaxTimestamp: nat
    var frameCounter: nat
    var lastInputTimestamp: nat
    var inputTimestampValid: bool
    var frameRate: nat
    var frameRateDownCount: nat

    ghost function View(): State
      reads this
    {
      State(Window(lastBufNs, rateMinTimestamp, rateMaxTimestamp, frameCounter),
            if inputTimestampValid then Known(lastInputTimestamp) else Unknown,
            Vote(frameRate, frameRateDownCount))
    }

    constructor StreamOn(legacy: bool)
      ensures View() == STREAM_ON && this.legacy == legacy
    {
      this.legacy := legacy;
      lastBufNs, rateMinTimestamp, rateMaxTimestamp, frameCounter := 0, 0, 0, 0;
      lastInputTimestamp, inputTimestampValid := 0, false;
      frameRate, frameRateDownCount := MAXIMUM_FPS, 0;
    }

    method ResetWindow()
      modifies this`lastBufNs, this`rateMinTimestamp, this`rateMaxTimestamp, this`frameCounter
      ensures View() == old(View()).(window := CLOSED)
    {
      lastBufNs, rateMinTimestamp, rateMaxTimestamp, frameCounter := 0, 0, 0, 0;
    }

    /** A jump of the timestamps starts the window over, so that it does not span two timelines. */
    method TrackInputTimestamp(timestamp: nat)
      modifies this
      ensures View() == Followed(old(View()), timestamp, legacy)
    {
      if !legacy {
        return;
      }
      if inputTimestampValid {
        var delta := if timestamp > lastInputTimestamp then timestamp - lastInputTimestamp
                     else lastInputTimestamp - timestamp;
        if delta > NSEC_PER_SEC {
          ResetWindow();
        }
      }
      lastInputTimestamp := timestamp;
      inputTimestampValid := true;
    }

    method Count(now: nat, timestamp: nat)
      modifies this`lastBufNs, this`rateMinTimestamp, this`rateMaxTimestamp, this`frameCounter
      ensures View() == old(View()).(window := Arrive(old(View()).window, now, timestamp))
    {
      if frameCounter == 0 {
        lastBufNs := now;
        rateMinTimestamp := timestamp;
        rateMaxTimestamp := timestamp;
      } else {
        rateMinTimestamp := Min(rateMinTimestamp, timestamp);
        rateMaxTimestamp := Max(rateMaxTimestamp, timestamp);
      }
      frameCounter := frameCounter + 1;
    }

    method Adjust(target: nat)
      modifies this`frameRate, this`frameRateDownCount
      ensures View() == old(View()).(vote := Decide(old(View()).vote, target))
    {
      if frameRate == MAXIMUM_FPS || target >= frameRate {
        frameRate := target;
        frameRateDownCount := 0;
      } else {
        frameRateDownCount := frameRateDownCount + 1;
        if frameRateDownCount >= 3 {
          frameRate := target;
          frameRateDownCount := 0;
        }
      }
    }

    method QueueInput(now: nat, timestamp: nat)
      requires Sane(View(), now)
      modifies this
      ensures View() == Queue(old(View()), now, timestamp, legacy) && Sane(View(), now)
    {
      QueueKeepsVote(View(), now, timestamp, legacy);
      TrackInputTimestamp(timestamp);
      Count(now, timestamp);
      var delta := now - lastBufNs;
      if delta >= NSEC_PER_SEC {
        var qbufFps := Fps(frameCounter, delta);
        var timestampDelta := rateMaxTimestamp - rateMinTimestamp;
        var timestampFps := 0;
        if legacy && timestampDelta != 0 && frameCounter > 1 {
          timestampFps := Fps(frameCounter, timestampDelta);
        }
        Adjust(Target(Max(qbufFps, timestampFps)));
        ResetWindow();
      }
    }

    /** A stream's inputs from stream-on: the vote is what the closed windows make it, and within its bounds. */
    method QueueStream(inputs: seq<Input>)
      requires View() == STREAM_ON && InTime(inputs)
      modifies this
      ensures View() == QueueAll(STREAM_ON, inputs, legacy)
      ensures Vote(frameRate, frameRateDownCount) == VoteAfter(Targets(inputs, legacy))
      ensures DEFAULT_FPS <= frameRate <= MAXIMUM_FPS
    {
      assert inputs[..0] == [];
      for k := 0 to |inputs|
        invariant View() == QueueAll(STREAM_ON, inputs[..k], legacy)
      {
        assert inputs[..k + 1][..k] == inputs[..k];
        QueueInput(inputs[k].now, inputs[k].timestamp);
      }
      assert inputs[..|inputs|] == inputs;
      VoteFollowsWindows(inputs, legacy);
      TargetsInBounds(inputs, legacy);
      VoteStaysInBounds(Targets(inputs, legacy));
    }
  }
}
