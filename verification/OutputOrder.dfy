/**
 What a client of a legacy VP9 decoder sees of the frames the firmware completes.  The firmware emits a hidden
 frame and its successor with the same timestamp, so one filled frame is held back until the next completion
 tells whether it is to be delivered or replaced.
 */
module OutputOrder {

  /** A completed capture buffer; `size` is what the firmware wrote into it. */
  datatype Frame = Frame(index: nat, size: nat, timestamp: nat, last: bool, error: bool) {
    predicate Filled() {
      size > 0
    }
  }

  /** Frames delivered so far, the one held back (if any), and the ones that were replaced. */
  datatype Output = Output(delivered: seq<Frame>, held: seq<Frame>, replaced: seq<Frame>)

  predicate Supersedes(next: Frame, f: Frame) {
    f.Filled() && next.Filled() && next.timestamp == f.timestamp
  }

  /** One completion. */
  function Arrive(o: Output, f: Frame): Output {
    if |o.held| > 0 && Supersedes(f, o.held[0]) then Output(o.delivered, [f], o.replaced + o.held)
    else if f.Filled() then Output(o.delivered + o.held, [f], o.replaced)
    else Output(o.delivered + o.held + [f], [], o.replaced)
  }

  function ArriveAll(o: Output, fs: seq<Frame>): Output
    decreases |fs|
  {
    if fs == [] then o else ArriveAll(Arrive(o, fs[0]), fs[1..])
  }

  // What should come out, without a buffer to hold anything in.

  predicate Hidden(fs: seq<Frame>, k: nat)
    requires k < |fs|
  {
    k + 1 < |fs| && Supersedes(fs[k + 1], fs[k])
  }

  /** The positions of the frames that are not followed at once by their replacement. */
  function Shown(fs: seq<Frame>, from: nat): seq<nat>
    requires from <= |fs|
    decreases |fs| - from
  {
    if from == |fs| then []
    else if Hidden(fs, from) then Shown(fs, from + 1)
    else [from] + Shown(fs, from + 1)
  }

  function Collapse(fs: seq<Frame>): seq<Frame>
    decreases |fs|
  {
    if fs == [] then []
    else if Hidden(fs, 0) then Collapse(fs[1..])
    else [fs[0]] + Collapse(fs[1..])
  }

  /** `Shown` lists exactly the frames that are not hidden, in order and each once. */
  lemma {:induction false} ShownIsExact(fs: seq<Frame>, from: nat)
    requires from <= |fs|
    ensures forall j | 0 <= j < |Shown(fs, from)| :: from <= Shown(fs, from)[j] < |fs| && !Hidden(fs, Shown(fs, from)[j])
    ensures forall i, j | 0 <= i < j < |Shown(fs, from)| :: Shown(fs, from)[i] < Shown(fs, from)[j]
    ensures forall k | from <= k < |fs| && !Hidden(fs, k) :: k in Shown(fs, from)
    decreases |fs| - from
  {
    if from < |fs| {
      ShownIsExact(fs, from + 1);
      var rest := Shown(fs, from + 1);
      if !Hidden(fs, from) {
        assert Shown(fs, from) == [from] + rest;
        forall k | from <= k < |fs| && !Hidden(fs, k) ensures k in Shown(fs, from) {
          if k > from {
            assert k in rest;
          }
        }
      }
    }
  }

  lemma {:induction false} CollapseFrom(fs: seq<Frame>, from: nat)
    requires from <= |fs|
    ensures |Collapse(fs[from..])| == |Shown(fs, from)|
    ensures forall j | 0 <= j < |Shown(fs, from)| ::
      Shown(fs, from)[j] < |fs| && Collapse(fs[from..])[j] == fs[Shown(fs, from)[j]]
    decreases |fs| - from
  {
    if from < |fs| {
      CollapseFrom(fs, from + 1);
      assert fs[from..][1..] == fs[from + 1..];
      assert Hidden(fs[from..], 0) == Hidden(fs, from);
    }
  }

  /** What the collapsed stream is: the sub-sequence of the frames that are not hidden. */
  lemma CollapseKeepsShown(fs: seq<Frame>)
    ensures |Collapse(fs)| == |Shown(fs, 0)|
    ensures forall j | 0 <= j < |Collapse(fs)| :: Shown(fs, 0)[j] < |fs| && Collapse(fs)[j] == fs[Shown(fs, 0)[j]]
  {
    assert fs[0..] == fs;
    CollapseFrom(fs, 0);
  }

  /** Where neighbours differ in their timestamps, or one of them is empty, every frame is shown. */
  lemma {:induction false} OnlyTwinsAreHidden(fs: seq<Frame>)
    requires forall k | 0 <= k < |fs| - 1 ::
      fs[k].size == 0 || fs[k + 1].size == 0 || fs[k].timestamp != fs[k + 1].timestamp
    ensures Collapse(fs) == fs
    decreases |fs|
  {
    if fs != [] {
      OnlyTwinsAreHidden(fs[1..]);
    }
  }

  /** Of filled frames that all have one timestamp only the last is shown. */
  lemma {:induction false} TwinsAreHidden(fs: seq<Frame>)
    requires fs != [] && forall k | 0 <= k < |fs| :: fs[k].size > 0 && fs[k].timestamp == fs[0].timestamp
    ensures Collapse(fs) == [fs[|fs| - 1]]
    decreases |fs|
  {
    if |fs| > 1 {
      TwinsAreHidden(fs[1..]);
    } else {
      assert Collapse(fs[1..]) == [];
    }
  }

  predicate HoldsOne(o: Output) {
    |o.held| == 0 || (|o.held| == 1 && o.held[0].Filled())
  }

  /** After any completions, what was delivered and what is held make up the collapsed stream. */
  lemma {:induction false} DeliveredAndHeldAreCollapse(o: Output, fs: seq<Frame>)
    requires HoldsOne(o)
    ensures var end := ArriveAll(o, fs);
            HoldsOne(end) && end.delivered + end.held == o.delivered + Collapse(o.held + fs)
    decreases |fs|
  {
    if fs == [] {
      assert o.held + fs == o.held;
      if |o.held| == 1 {
        assert o.held[1..] == [];
        assert Collapse(o.held) == [o.held[0]] + Collapse([]);
      }
    } else {
      var f, rest := fs[0], fs[1..];
      var next := Arrive(o, f);
      DeliveredAndHeldAreCollapse(next, rest);
      CollapseArrival(o, f, rest);
      assert o.held + fs == o.held + [f] + rest;
    }
  }

  lemma CollapseCons(f: Frame, rest: seq<Frame>)
    ensures Collapse([f] + rest)
            == (if |rest| > 0 && Supersedes(rest[0], f) then Collapse(rest) else [f] + Collapse(rest))
  {
    assert ([f] + rest)[1..] == rest;
  }

  lemma CollapseHeld(o: Output, f: Frame, rest: seq<Frame>)
    requires HoldsOne(o)
    ensures var replaced := |o.held| > 0 && Supersedes(f, o.held[0]);
            Collapse(o.held + [f] + rest) == (if replaced then [] else o.held) + Collapse([f] + rest)
  {
    var tail := [f] + rest;
    assert o.held + [f] + rest == o.held + tail;
    if |o.held| == 1 {
      CollapseCons(o.held[0], tail);
      assert o.held == [o.held[0]];
    } else {
      assert o.held + tail == tail;
    }
  }

  lemma Associate(a: seq<Frame>, b: seq<Frame>, c: seq<Frame>)
    ensures a + b + c == a + (b + c)
  {
  }

  lemma CollapseArrival(o: Output, f: Frame, rest: seq<Frame>)
    requires HoldsOne(o)
    ensures var next := Arrive(o, f);
            next.delivered + Collapse(next.held + rest) == o.delivered + Collapse(o.held + [f] + rest)
  {
    CollapseHeld(o, f, rest);
    if f.Filled() {
      Associate(o.delivered, o.held, Collapse([f] + rest));
    } else {
      CollapseCons(f, rest);
      assert [] + rest == rest;
      Associate(o.delivered, o.held, [f] + Collapse(rest));
      Associate(o.delivered + o.held, [f], Collapse(rest));
    }
  }

  lemma ArrivalLosesNothing(o: Output, f: Frame)
    ensures var next := Arrive(o, f);
            multiset(next.delivered) + multiset(next.held) + multiset(next.replaced)
            == multiset(o.delivered) + multiset(o.held) + multiset(o.replaced) + multiset{f}
  {
  }

  /** Every completion is delivered, held or replaced, each exactly once. */
  lemma {:induction false} NoFrameIsLost(o: Output, fs: seq<Frame>)
    ensures var end := ArriveAll(o, fs);
            multiset(end.delivered) + multiset(end.held) + multiset(end.replaced)
            == multiset(o.delivered) + multiset(o.held) + multiset(o.replaced) + multiset(fs)
    decreases |fs|
  {
    if fs != [] {
      ArrivalLosesNothing(o, fs[0]);
      NoFrameIsLost(Arrive(o, fs[0]), fs[1..]);
      assert multiset([fs[0]] + fs[1..]) == multiset{fs[0]} + multiset(fs[1..]);
      assert fs == [fs[0]] + fs[1..];
    }
  }

  lemma {:induction false} ArriveAllSnoc(o: Output, fs: seq<Frame>, f: Frame)
    ensures ArriveAll(o, fs + [f]) == Arrive(ArriveAll(o, fs), f)
    decreases |fs|
  {
    if fs == [] {
      assert [f][1..] == [];
    } else {
      assert (fs + [f])[1..] == fs[1..] + [f];
      ArriveAllSnoc(Arrive(o, fs[0]), fs[1..], f);
    }
  }

  /**
   A buffer that comes straight back as LAST does not wait for the held frame: whatever completes afterwards,
   the client gets that frame behind LAST unless the next completion replaces it.
   */
  lemma FramesAfterLast(o: Output, last: Frame, fs: seq<Frame>)
    requires HoldsOne(o)
    ensures var end := ArriveAll(o.(delivered := o.delivered + [last]), fs);
            && end.delivered + end.held == o.delivered + [last] + Collapse(o.held + fs)
            && (end.delivered + end.held == o.delivered + [last] + Collapse(fs)
                <==> o.held == [] || (fs != [] && Supersedes(fs[0], o.held[0])))
  {
    hide ArriveAll, Collapse;
    DeliveredAndHeldAreCollapse(o.(delivered := o.delivered + [last]), fs);
    HeldCounts(o.held, fs);
    assert |o.delivered + [last] + Collapse(o.held + fs)| == |o.delivered| + 1 + |Collapse(o.held + fs)|;
    assert |o.delivered + [last] + Collapse(fs)| == |o.delivered| + 1 + |Collapse(fs)|;
  }

  /** A held frame is part of the collapsed stream unless the next one replaces it. */
  lemma HeldCounts(held: seq<Frame>, fs: seq<Frame>)
    requires held == [] || (|held| == 1 && held[0].Filled())
    ensures Collapse(held + fs)
            == if held != [] && fs != [] && Supersedes(fs[0], held[0]) then Collapse(fs) else held + Collapse(fs)
  {
    if held == [] {
      assert held + fs == fs;
    } else {
      assert held == [held[0]];
      CollapseCons(held[0], fs);
    }
  }

  /**
   Restarting the input forgets the held frame.  The client still sees the collapsed stream exactly when
   nothing was held, or when the next frame would have replaced it anyway.
   */
  lemma ForgettingLosesAFrame(o: Output, fs: seq<Frame>)
    requires HoldsOne(o)
    ensures var end := ArriveAll(o.(held := []), fs);
            && end.delivered + end.held == o.delivered + Collapse(fs)
            && (end.delivered + end.held == o.delivered + Collapse(o.held + fs)
                <==> o.held == [] || (fs != [] && Supersedes(fs[0], o.held[0])))
  {
    hide ArriveAll, Collapse;
    DeliveredAndHeldAreCollapse(o.(held := []), fs);
    assert [] + fs == fs;
    HeldCounts(o.held, fs);
    assert |o.delivered + Collapse(o.held + fs)| == |o.delivered| + |Collapse(o.held + fs)|;
  }

  // Other codecs: a damaged frame goes back to the firmware, but only so many in a row.

  const MAX_CORRUPT_DROPS: nat := 8

  /** The number of frames dropped in a row after frames that were damaged or not. */
  function DropsAfter(drops: nat, damaged: seq<bool>): nat
    decreases |damaged|
  {
    if damaged == [] then drops
    else DropsAfter(if damaged[0] && drops < MAX_CORRUPT_DROPS then drops + 1 else 0, damaged[1..])
  }

  predicate IsDropped(drops: nat, damaged: seq<bool>, k: nat)
    requires k < |damaged|
  {
    damaged[k] && DropsAfter(drops, damaged[..k]) < MAX_CORRUPT_DROPS
  }

  lemma {:induction false} DropsAfterSnoc(drops: nat, damaged: seq<bool>, d: bool)
    ensures var before := DropsAfter(drops, damaged);
            DropsAfter(drops, damaged + [d]) == if d && before < MAX_CORRUPT_DROPS then before + 1 else 0
    decreases |damaged|
  {
    if damaged == [] {
      assert [d][1..] == [];
    } else {
      assert (damaged + [d])[1..] == damaged[1..] + [d];
      DropsAfterSnoc(if damaged[0] && drops < MAX_CORRUPT_DROPS then drops + 1 else 0, damaged[1..], d);
    }
  }

  /** While frames are dropped the count goes up by one each time. */
  lemma {:induction false} DropsInARow(drops: nat, damaged: seq<bool>, from: nat, n: nat)
    requires from + n <= |damaged|
    requires forall k | from <= k < from + n :: IsDropped(drops, damaged, k)
    ensures DropsAfter(drops, damaged[..from + n]) == DropsAfter(drops, damaged[..from]) + n
    decreases n
  {
    if n > 0 {
      DropsInARow(drops, damaged, from, n - 1);
      var k := from + n - 1;
      assert damaged[..k + 1] == damaged[..k] + [damaged[k]];
      DropsAfterSnoc(drops, damaged[..k], damaged[k]);
      assert IsDropped(drops, damaged, k);
    }
  }

  lemma {:induction false} DropsStayBounded(drops: nat, damaged: seq<bool>)
    requires drops <= MAX_CORRUPT_DROPS
    ensures DropsAfter(drops, damaged) <= MAX_CORRUPT_DROPS
    decreases |damaged|
  {
    if damaged != [] {
      var k := |damaged| - 1;
      DropsStayBounded(drops, damaged[..k]);
      assert damaged == damaged[..k] + [damaged[k]];
      DropsAfterSnoc(drops, damaged[..k], damaged[k]);
    }
  }

  /** Of any nine frames in a row the client gets at least one, however damaged the stream is. */
  lemma NeverNineInARow(drops: nat, damaged: seq<bool>, from: nat)
    requires drops <= MAX_CORRUPT_DROPS && from + MAX_CORRUPT_DROPS + 1 <= |damaged|
    ensures exists k | from <= k < from + MAX_CORRUPT_DROPS + 1 :: !IsDropped(drops, damaged, k)
  {
    if forall k | from <= k < from + MAX_CORRUPT_DROPS + 1 :: IsDropped(drops, damaged, k) {
      DropsInARow(drops, damaged, from, MAX_CORRUPT_DROPS + 1);
      DropsStayBounded(drops, damaged[..from + MAX_CORRUPT_DROPS + 1]);
      assert false;
    }
  }
}
