/** The capture queue of a legacy decoder: who owns each buffer, and which frames reach the client. */
module CaptureBuffers {
  import opened OutputOrder

  type Attr = bv8

  const DEFERRED: Attr := 0x01
  const QUEUED: Attr := 0x04
  const DEQUEUED: Attr := 0x08
  const BUFFER_DONE: Attr := 0x10

  datatype Buffer = Buffer(attr: Attr, offset: nat, size: nat, timestamp: nat, last: bool, error: bool) {
    predicate Is(mark: Attr) {
      attr & mark != 0
    }
  }

  /** The one-deep slot for a frame that waits for its successor. */
  datatype Slot = Vacant | Holding(index: nat)

  predicate Distinct(list: seq<nat>) {
    forall a, b | 0 <= a < b < |list| :: list[a] != list[b]
  }

  function Without(list: seq<nat>, i: nat): seq<nat> {
    if list == [] then []
    else if list[0] == i then list[1..]
    else [list[0]] + Without(list[1..], i)
  }

  lemma {:induction false} WithoutMember(list: seq<nat>, i: nat, x: nat)
    requires Distinct(list)
    ensures x in Without(list, i) <==> x in list && x != i
  {
    if list != [] {
      assert x in list <==> x == list[0] || x in list[1..];
      if list[0] == i {
        assert i !in list[1..];
      } else {
        WithoutMember(list[1..], i, x);
      }
    }
  }

  lemma {:induction false} WithoutDistinct(list: seq<nat>, i: nat)
    requires Distinct(list)
    ensures Distinct(Without(list, i))
  {
    if list != [] && list[0] != i {
      WithoutDistinct(list[1..], i);
      WithoutMember(list[1..], i, list[0]);
      assert list[0] !in list[1..];
    }
  }

  lemma {:induction false} WithoutCounts(list: seq<nat>, i: nat)
    requires i in list
    ensures multiset(list) == multiset(Without(list, i)) + multiset{i}
  {
    assert list == [list[0]] + list[1..];
    if list[0] != i {
      WithoutCounts(list[1..], i);
      assert Without(list, i) == [list[0]] + Without(list[1..], i);
    }
  }

  lemma WithoutRemovesOne(list: seq<nat>, i: nat)
    requires Distinct(list)
    ensures Distinct(Without(list, i))
    ensures forall x :: x in Without(list, i) <==> x in list && x != i
    ensures i in list ==> multiset(list) == multiset(Without(list, i)) + multiset{i}
  {
    WithoutDistinct(list, i);
    forall x ensures x in Without(list, i) <==> x in list && x != i {
      WithoutMember(list, i, x);
    }
    if i in list {
      WithoutCounts(list, i);
    }
  }

  function Indices(fs: seq<Frame>): seq<nat> {
    seq(|fs|, k requires 0 <= k < |fs| => fs[k].index)
  }

  lemma IndicesSnoc(fs: seq<Frame>, f: Frame)
    ensures Indices(fs + [f]) == Indices(fs) + [f.index]
    ensures multiset(Indices(fs + [f])) == multiset(Indices(fs)) + multiset{f.index}
  {
    assert Indices(fs + [f]) == Indices(fs) + [f.index];
  }

  /** The frame a client gets in buffer `i`: one in error carries no picture. */
  function FrameIn(i: nat, b: Buffer): Frame {
    if b.error then Frame(i, 0, 0, b.last, true) else Frame(i, b.size, b.timestamp, b.last, false)
  }

  function Empty(i: nat, last: bool, error: bool): Frame {
    Frame(i, 0, 0, last, error)
  }

  /** The frame that a completion of buffer `i` makes; what legacy VP9 reports as damaged is usable. */
  function Completed(vp9: bool, i: nat, size: nat, timestamp: nat, corrupt: bool, last: bool): Frame {
    if corrupt && !(vp9 && size > 0) then Empty(i, last, true)
    else Frame(i, size, if size > 0 then timestamp else 0, last, false)
  }

  /** The frame in buffer `i` as it comes back from the firmware. */
  function Finished(vp9: bool, i: nat, b: Buffer, filled: bool, corrupt: bool, last: bool): Frame {
    if corrupt && !(vp9 && filled) then Empty(i, last, true) else Frame(i, b.size, b.timestamp, last, false)
  }

  /** LAST is never lost, a damaged frame is reported and carries no picture, and any other is what the firmware wrote. */
  lemma CompletedFrame(vp9: bool, i: nat, size: nat, timestamp: nat, corrupt: bool, last: bool)
    ensures var f := Completed(vp9, i, size, timestamp, corrupt, last);
            && f.index == i && f.last == last && (f.error <==> corrupt && (size == 0 || !vp9))
            && (f.size, f.timestamp) == if size == 0 || f.error then (0, 0) else (size, timestamp)
  {
  }

  /** One completion seen by the client; only VP9 holds frames back. */
  function Advance(vp9: bool, o: Output, f: Frame): Output {
    if vp9 then Arrive(o, f) else o.(delivered := o.delivered + [f])
  }

  predicate Aside(i: nat, bufs: seq<Buffer>) {
    i < |bufs| && bufs[i].Is(DEFERRED)
  }

  /** The listed buffers that were set aside for later, or the other ones, in list order. */
  function SetAside(list: seq<nat>, bufs: seq<Buffer>, aside: bool): seq<nat> {
    if list == [] then []
    else if Aside(list[0], bufs) == aside then [list[0]] + SetAside(list[1..], bufs, aside)
    else SetAside(list[1..], bufs, aside)
  }

  lemma {:induction false} SetAsideSplits(list: seq<nat>, bufs: seq<Buffer>)
    ensures multiset(list) == multiset(SetAside(list, bufs, true)) + multiset(SetAside(list, bufs, false))
  {
    if list != [] {
      SetAsideSplits(list[1..], bufs);
      assert list == [list[0]] + list[1..];
    }
  }

  lemma {:induction false} SetAsideMember(list: seq<nat>, bufs: seq<Buffer>, aside: bool, i: nat)
    ensures i in SetAside(list, bufs, aside) <==> i in list && Aside(i, bufs) == aside
  {
    if list != [] {
      SetAsideMember(list[1..], bufs, aside, i);
    }
  }

  lemma {:induction false} SetAsideDistinct(list: seq<nat>, bufs: seq<Buffer>, aside: bool)
    requires Distinct(list)
    ensures Distinct(SetAside(list, bufs, aside))
  {
    if list != [] {
      SetAsideDistinct(list[1..], bufs, aside);
      SetAsideMember(list[1..], bufs, aside, list[0]);
    }
  }

  lemma FlushDeferredIsSound(list: seq<nat>, bufs: seq<Buffer>)
    requires Distinct(list)
    ensures Distinct(SetAside(list, bufs, false)) && (forall i | i in SetAside(list, bufs, false) :: i in list)
    ensures multiset(list) == multiset(SetAside(list, bufs, true)) + multiset(SetAside(list, bufs, false))
  {
    SetAsideDistinct(list, bufs, false);
    forall i | i in SetAside(list, bufs, false) ensures i in list {
      SetAsideMember(list, bufs, false, i);
    }
    SetAsideSplits(list, bufs);
  }

  lemma IndicesAppend(a: seq<Frame>, b: seq<Frame>)
    ensures Indices(a + b) == Indices(a) + Indices(b)
  {
  }

  /** What the client gets for buffers that stop_streaming hands back. */
  function Flushed(list: seq<nat>, error: bool): (r: seq<Frame>)
    ensures Indices(r) == list
  {
    seq(|list|, k requires 0 <= k < |list| => Empty(list[k], false, error))
  }

  lemma FlushedCons(i: nat, rest: seq<nat>, error: bool)
    ensures Flushed([i] + rest, error) == [Empty(i, false, error)] + Flushed(rest, error)
  {
  }

  function InFirmware(b: Buffer): (r: Buffer)
    ensures r.Is(QUEUED) && !r.Is(DEFERRED) && r == b.(attr := r.attr)
  {
    b.(attr := (b.attr & !DEFERRED) | QUEUED)
  }

  /** Buffer `b` as the client has just queued it: with the firmware, set aside, or, if it could not be sent, in neither. */
  function Enlisted(b: Buffer, timestamp: nat, streaming: bool, ok: bool): (r: Buffer)
    ensures r.Is(QUEUED) == (streaming && ok) && r.Is(DEFERRED) == (!streaming && ok)
  {
    Buffer(if !ok then 0 else if streaming then QUEUED else DEFERRED, b.offset, 0, timestamp, false, false)
  }

  method EmptyFrames(list: seq<nat>) returns (frames: seq<Frame>)
    ensures frames == Flushed(list, true)
  {
    frames := [];
    var rest := list;
    while rest != []
      invariant frames + Flushed(rest, true) == Flushed(list, true)
      decreases |rest|
    {
      assert rest == [rest[0]] + rest[1..];
      FlushedCons(rest[0], rest[1..], true);
      frames := frames + [Empty(rest[0], false, true)];
      rest := rest[1..];
    }
  }

  method SplitDeferred(list: seq<nat>, bufs: seq<Buffer>) returns (frames: seq<Frame>, kept: seq<nat>)
    ensures frames == Flushed(SetAside(list, bufs, true), false)
    ensures kept == SetAside(list, bufs, false)
  {
    hide Flushed;
    frames, kept := [], [];
    var rest := list;
    while rest != []
      invariant kept + SetAside(rest, bufs, false) == SetAside(list, bufs, false)
      invariant frames + Flushed(SetAside(rest, bufs, true), false) == Flushed(SetAside(list, bufs, true), false)
      decreases |rest|
    {
      var i := rest[0];
      rest := rest[1..];
      if i < |bufs| && bufs[i].Is(DEFERRED) {
        FlushedCons(i, SetAside(rest, bufs, true), false);
        Associate(frames, [Empty(i, false, false)], Flushed(SetAside(rest, bufs, true), false));
        frames := frames + [Empty(i, false, false)];
      } else {
        assert kept + ([i] + SetAside(rest, bufs, false)) == kept + [i] + SetAside(rest, bufs, false);
        kept := kept + [i];
      }
    }
  }

  lemma {:induction false} SetAsideAppend(list: seq<nat>, more: seq<nat>, bufs: seq<Buffer>, aside: bool)
    ensures SetAside(list + more, bufs, aside) == SetAside(list, bufs, aside) + SetAside(more, bufs, aside)
  {
    if list == [] {
      assert list + more == more;
    } else {
      assert (list + more)[1..] == list[1..] + more;
      SetAsideAppend(list[1..], more, bufs, aside);
    }
  }

  /** The set-aside buffers that there is room to send, in list order. */
  function Sendable(list: seq<nat>, bufs: seq<Buffer>, room: nat): (sent: seq<nat>)
    ensures |sent| <= room && sent <= SetAside(list, bufs, true)
    ensures |sent| < room ==> sent == SetAside(list, bufs, true)
  {
    var aside := SetAside(list, bufs, true);
    if |aside| <= room then aside else aside[..room]
  }

  /** Buffers `sent` went to the firmware, and nothing else happened. */
  predicate SentOnly(bufs: seq<Buffer>, now: seq<Buffer>, sent: seq<nat>) {
    |now| == |bufs| && forall x | 0 <= x < |bufs| :: now[x] == if x in sent then InFirmware(bufs[x]) else bufs[x]
  }

  /** What is sent had been set aside. */
  lemma SentWereAside(list: seq<nat>, bufs: seq<Buffer>, now: seq<Buffer>, room: nat)
    requires SentOnly(bufs, now, Sendable(list, bufs, room))
    ensures forall x | 0 <= x < |bufs| ::
      now[x] == bufs[x] || (bufs[x].Is(DEFERRED) && now[x] == InFirmware(bufs[x]))
  {
    forall x | 0 <= x < |bufs| && now[x] != bufs[x] ensures bufs[x].Is(DEFERRED) && now[x] == InFirmware(bufs[x]) {
      SetAsideMember(list, bufs, true, x);
    }
  }

  method SendDeferred(list: seq<nat>, bufs: seq<Buffer>, room: nat) returns (now: seq<Buffer>, ok: bool)
    requires Distinct(list)
    ensures SentOnly(bufs, now, Sendable(list, bufs, room))
    ensures ok <==> |SetAside(list, bufs, true)| <= room
    ensures ok ==> SetAside(list, now, true) == []
  {
    now := bufs;
    var k, left := 0, room;
    while k < |list|
      invariant 0 <= k <= |list| && 0 <= left <= room
      invariant left == room - |SetAside(list[..k], bufs, true)|
      invariant SentOnly(bufs, now, SetAside(list[..k], bufs, true))
    {
      var i := list[k];
      assert list[..k + 1] == list[..k] + [i] && list[k..] == [i] + list[k + 1..];
      SetAsideAppend(list[..k], [i], bufs, true);
      SetAsideMember(list[..k], bufs, true, i);
      assert i !in list[..k];
      if i < |bufs| && now[i].Is(DEFERRED) {
        if left == 0 {
          assert list == list[..k] + list[k..];
          SetAsideAppend(list[..k], list[k..], bufs, true);
          return now, false;
        }
        now := now[i := InFirmware(now[i])];
        left := left - 1;
      }
      k := k + 1;
    }
    assert list[..k] == list;
    ok := true;
    forall a | 0 <= a < |list| ensures !Aside(list[a], now) {
      SetAsideMember(list, bufs, true, list[a]);
    }
    NoneAside(list, now);
  }

  lemma {:induction false} NoneAside(list: seq<nat>, bufs: seq<Buffer>)
    requires forall a | 0 <= a < |list| :: !Aside(list[a], bufs)
    ensures SetAside(list, bufs, true) == []
  {
    if list != [] {
      NoneAside(list[1..], bufs);
    }
  }

  /** What the firmware says of a finished client buffer, whether LAST is due, and whether a buffer could be sent back. */
  datatype Completion = Completion(
    index: nat, offset: nat, size: nat, timestamp: nat, corrupt: bool, due: bool, sent: bool)

  /** What becomes of a completion; `Failed` is the error path, taken before its own frame is dealt with. */
  datatype Result = Unmatched | Failed | Dropped(resent: bool) | Taken

  function LastStep(last: bool, c: Completion, r: Result): bool {
    last || (!r.Unmatched? && c.size == 0 && c.due)
  }

  /** What arrives with a completion: the frame, tagged LAST if that is due and not out yet. */
  function FrameOf(vp9: bool, last: bool, c: Completion): Frame {
    Completed(vp9, c.index, c.size, c.timestamp, c.corrupt, c.due && c.size == 0 && !last)
  }

  lemma StampOfEmpty(vp9: bool, c: Completion, last: bool)
    ensures Completed(vp9, c.index, c.size, if c.size > 0 then c.timestamp else 0, c.corrupt, last)
            == Completed(vp9, c.index, c.size, c.timestamp, c.corrupt, last)
  {
  }

  function DropStep(drops: nat, c: Completion, r: Result): nat {
    if r.Dropped? then drops + 1 else if r.Taken? && c.size > 0 then 0 else drops
  }

  /** Only a filled VP9 frame that is taken fills the slot, and everything else but an unmatched one empties it. */
  function Next(vp9: bool, slot: Slot, c: Completion, r: Result): Slot {
    if r.Unmatched? then slot else if r.Taken? && vp9 && c.size > 0 then Holding(c.index) else Vacant
  }

  // Runs of completions `cs` with their results `rs`, each built up from the front.

  function LastSeen(last: bool, cs: seq<Completion>, rs: seq<Result>): bool
    requires |cs| == |rs|
  {
    if cs == [] then last
    else
      var k := |cs| - 1;
      LastStep(LastSeen(last, cs[..k], rs[..k]), cs[k], rs[k])
  }

  /** The frames that were taken, LAST on the one that ends the stream. */
  function Frames(vp9: bool, last: bool, cs: seq<Completion>, rs: seq<Result>): seq<Frame>
    requires |cs| == |rs|
  {
    if cs == [] then []
    else
      var k := |cs| - 1;
      Frames(vp9, last, cs[..k], rs[..k])
      + if rs[k].Taken? then [FrameOf(vp9, LastSeen(last, cs[..k], rs[..k]), cs[k])] else []
  }

  function SlotAfter(vp9: bool, slot: Slot, cs: seq<Completion>, rs: seq<Result>): Slot
    requires |cs| == |rs|
  {
    if cs == [] then slot
    else
      var k := |cs| - 1;
      Next(vp9, SlotAfter(vp9, slot, cs[..k], rs[..k]), cs[k], rs[k])
  }

  /** Of the filled frames that matched a buffer: which were damaged, and which were dropped. */
  function Damaged(cs: seq<Completion>, rs: seq<Result>): seq<bool>
    requires |cs| == |rs|
  {
    if cs == [] then []
    else
      var k := |cs| - 1;
      Damaged(cs[..k], rs[..k]) + if rs[k].Unmatched? || cs[k].size == 0 then [] else [cs[k].corrupt]
  }

  function DroppedOnes(cs: seq<Completion>, rs: seq<Result>): seq<bool>
    requires |cs| == |rs|
  {
    if cs == [] then []
    else
      var k := |cs| - 1;
      DroppedOnes(cs[..k], rs[..k]) + if rs[k].Unmatched? || cs[k].size == 0 then [] else [rs[k].Dropped?]
  }

  /** Is the frame of completion `k` held at the end, no later completion having matched a buffer? */
  predicate HeldSince(cs: seq<Completion>, rs: seq<Result>, k: nat)
    requires |cs| == |rs|
  {
    && k < |cs| && rs[k].Taken? && cs[k].size > 0
    && forall j | k < j < |rs| :: rs[j].Unmatched?
  }

  lemma {:induction false} SlotAfterIsLastMatched(vp9: bool, cs: seq<Completion>, rs: seq<Result>)
    requires |cs| == |rs|
    ensures SlotAfter(vp9, Vacant, cs, rs).Holding? <==> vp9 && exists k :: HeldSince(cs, rs, k)
    decreases |cs|
  {
    if cs == [] {
      return;
    }
    var n := |cs| - 1;
    SlotAfterIsLastMatched(vp9, cs[..n], rs[..n]);
    if rs[n].Unmatched? {
      forall k ensures HeldSince(cs, rs, k) <==> HeldSince(cs[..n], rs[..n], k) {
      }
    } else if rs[n].Taken? && cs[n].size > 0 {
      assert HeldSince(cs, rs, n);
    }
  }

  lemma {:induction false} SlotAfterAppend(
    vp9: bool, slot: Slot, cs: seq<Completion>, rs: seq<Result>, ds: seq<Completion>, ss: seq<Result>)
    requires |cs| == |rs| && |ds| == |ss|
    ensures SlotAfter(vp9, SlotAfter(vp9, slot, cs, rs), ds, ss) == SlotAfter(vp9, slot, cs + ds, rs + ss)
    decreases |ds|
  {
    if ds == [] {
      assert cs + ds == cs && rs + ss == rs;
    } else {
      var n := |ds| - 1;
      SlotAfterAppend(vp9, slot, cs, rs, ds[..n], ss[..n]);
      assert (cs + ds)[..|cs| + n] == cs + ds[..n] && (rs + ss)[..|cs| + n] == rs + ss[..n];
    }
  }

  /** A stream-off leaves a stale slot exactly when the last completion that found a buffer was held. */
  lemma StaleSlotExactly(vp9: bool, cs: seq<Completion>, rs: seq<Result>, ds: seq<Completion>, ss: seq<Result>)
    requires |cs| == |rs| && |ds| == |ss|
    ensures SlotAfter(vp9, SlotAfter(vp9, Vacant, cs, rs), ds, ss).Holding?
            <==> vp9 && exists k :: HeldSince(cs + ds, rs + ss, k)
  {
    SlotAfterAppend(vp9, Vacant, cs, rs, ds, ss);
    SlotAfterIsLastMatched(vp9, cs + ds, rs + ss);
  }

  function AdvanceAll(vp9: bool, o: Output, fs: seq<Frame>): Output {
    if vp9 then ArriveAll(o, fs) else o.(delivered := o.delivered + fs)
  }

  lemma AdvanceAllSnoc(vp9: bool, o: Output, fs: seq<Frame>, f: Frame)
    ensures AdvanceAll(vp9, o, fs + [f]) == Advance(vp9, AdvanceAll(vp9, o, fs), f)
  {
    ArriveAllSnoc(o, fs, f);
    assert o.delivered + (fs + [f]) == o.delivered + fs + [f];
  }

  /** What the client has or is to get after a run, with the hidden frames taken out for VP9. */
  function Delivered(vp9: bool, fs: seq<Frame>): seq<Frame> {
    if vp9 then Collapse(fs) else fs
  }

  lemma AdvanceAllDelivers(vp9: bool, o: Output, fs: seq<Frame>)
    requires HoldsOne(o) && (!vp9 ==> o.held == [])
    ensures var end := AdvanceAll(vp9, o, fs);
            end.delivered + end.held == o.delivered + Delivered(vp9, o.held + fs)
  {
    if vp9 {
      DeliveredAndHeldAreCollapse(o, fs);
    } else {
      assert o.held + fs == fs;
    }
  }

  predicate KeepsOneOfNine(dropped: seq<bool>, from: nat) {
    exists k | from <= k <= from + MAX_CORRUPT_DROPS && k < |dropped| :: !dropped[k]
  }

  /** Of any nine frames in a row at least one was not dropped. */
  predicate NeverNine(dropped: seq<bool>) {
    forall from | 0 <= from < |dropped| - MAX_CORRUPT_DROPS :: KeepsOneOfNine(dropped, from)
  }

  predicate DropsRight(drops: nat, damaged: seq<bool>, dropped: seq<bool>) {
    |damaged| == |dropped| && forall k | 0 <= k < |damaged| :: dropped[k] == IsDropped(drops, damaged, k)
  }

  lemma DropsRightSnoc(drops: nat, damaged: seq<bool>, dropped: seq<bool>, d: bool)
    requires DropsRight(drops, damaged, dropped)
    ensures DropsRight(drops, damaged + [d], dropped + [d && DropsAfter(drops, damaged) < MAX_CORRUPT_DROPS])
  {
    var more := damaged + [d];
    forall k | 0 <= k < |more| ensures more[..k] == damaged[..k] {
    }
    assert damaged[..|damaged|] == damaged;
  }

  lemma DropsRightNeverNine(drops: nat, damaged: seq<bool>, dropped: seq<bool>)
    requires drops <= MAX_CORRUPT_DROPS && DropsRight(drops, damaged, dropped)
    ensures NeverNine(dropped)
  {
    forall from | 0 <= from < |dropped| - MAX_CORRUPT_DROPS ensures KeepsOneOfNine(dropped, from) {
      NeverNineInARow(drops, damaged, from);
      var k :| from <= k < from + MAX_CORRUPT_DROPS + 1 && !IsDropped(drops, damaged, k);
      assert !dropped[k];
    }
  }

  /** What stop_streaming hands back without any completion in between; `released` if the firmware gave up all. */
  function StoppedFrames(list: seq<nat>, bufs: seq<Buffer>, released: bool): seq<Frame> {
    if released then Flushed(list, true)
    else Flushed(SetAside(list, bufs, true), false) + Flushed(SetAside(list, bufs, false), true)
  }

  /** What a run of completions acts on: what the client sees, LAST, the slot, and the frames dropped in a row. */
  datatype View = View(out: Output, last: bool, slot: Slot, drops: nat)

  /** One completion; what the client sees of a taken frame is promised for a valid queue only. */
  predicate Steps(vp9: bool, valid: bool, v: View, c: Completion, r: Result, w: View) {
    && w.last == LastStep(v.last, c, r)
    && w.slot == Next(vp9, v.slot, c, r)
    && w.drops == DropStep(v.drops, c, r)
    && (valid && r.Taken? ==> w.out == Advance(vp9, v.out, FrameOf(vp9, v.last, c)))
    && (r.Unmatched? || r.Dropped? ==> w.out == v.out)
    && (!vp9 && !r.Unmatched? ==>
          !r.Failed? && (r.Dropped? <==> c.size > 0 && c.corrupt && v.drops < MAX_CORRUPT_DROPS))
  }

  /** Many completions. */
  predicate Runs(vp9: bool, valid: bool, v: View, cs: seq<Completion>, rs: seq<Result>, w: View) {
    && |cs| == |rs|
    && w.last == LastSeen(v.last, cs, rs)
    && w.slot == SlotAfter(vp9, v.slot, cs, rs)
    && (valid && Failed !in rs ==> w.out == AdvanceAll(vp9, v.out, Frames(vp9, v.last, cs, rs)))
    && (!vp9 ==> Failed !in rs && w.drops == DropsAfter(v.drops, Damaged(cs, rs))
                 && DropsRight(v.drops, Damaged(cs, rs), DroppedOnes(cs, rs)))
  }

  lemma RunsSnoc(vp9: bool, valid: bool, v: View, cs: seq<Completion>, rs: seq<Result>, w: View,
                 c: Completion, r: Result, next: View)
    requires Runs(vp9, valid, v, cs, rs, w) && Steps(vp9, valid, w, c, r, next)
    ensures Runs(vp9, valid, v, cs + [c], rs + [r], next)
  {
    assert (cs + [c])[..|cs|] == cs && (rs + [r])[..|rs|] == rs;
    var fs := Frames(vp9, v.last, cs, rs);
    AdvanceAllSnoc(vp9, v.out, fs, FrameOf(vp9, w.last, c));
    assert fs + [] == fs;
    if !vp9 {
      DropsSnoc(v.drops, cs, rs, c, r);
    }
  }

  lemma RunsNowhere(vp9: bool, valid: bool, v: View)
    ensures Runs(vp9, valid, v, [], [], v)
  {
    assert v.out.delivered + [] == v.out.delivered;
  }

  lemma RunsEnd(vp9: bool, valid: bool, v: View, cs: seq<Completion>, rs: seq<Result>, w: View)
    requires Runs(vp9, valid, v, cs, rs, w)
    ensures w.slot == SlotAfter(vp9, v.slot, cs, rs)
    ensures valid && Failed !in rs ==> w.out == AdvanceAll(vp9, v.out, Frames(vp9, v.last, cs, rs))
  {
  }

  /** What the client gets over a run. */
  lemma RunsDeliver(vp9: bool, valid: bool, v: View, cs: seq<Completion>, rs: seq<Result>, w: View)
    requires Runs(vp9, valid, v, cs, rs, w) && v.drops <= MAX_CORRUPT_DROPS
    requires valid ==> HoldsOne(v.out) && (!vp9 ==> v.out.held == [])
    ensures valid && Failed !in rs ==>
              w.out.delivered + w.out.held
              == v.out.delivered + Delivered(vp9, v.out.held + Frames(vp9, v.last, cs, rs))
    ensures !vp9 ==> Failed !in rs && NeverNine(DroppedOnes(cs, rs))
  {
    if valid {
      AdvanceAllDelivers(vp9, v.out, Frames(vp9, v.last, cs, rs));
    }
    if !vp9 {
      DropsRightNeverNine(v.drops, Damaged(cs, rs), DroppedOnes(cs, rs));
    }
  }

  lemma DropsSnoc(drops: nat, cs: seq<Completion>, rs: seq<Result>, c: Completion, r: Result)
    requires |cs| == |rs| && DropsRight(drops, Damaged(cs, rs), DroppedOnes(cs, rs))
    requires !r.Unmatched? ==>
               !r.Failed?
               && (r.Dropped? <==> c.size > 0 && c.corrupt && DropsAfter(drops, Damaged(cs, rs)) < MAX_CORRUPT_DROPS)
    ensures var damaged := Damaged(cs + [c], rs + [r]);
            && DropsRight(drops, damaged, DroppedOnes(cs + [c], rs + [r]))
            && DropsAfter(drops, damaged) == DropStep(DropsAfter(drops, Damaged(cs, rs)), c, r)
  {
    assert (cs + [c])[..|cs|] == cs && (rs + [r])[..|rs|] == rs;
    var damaged, dropped := Damaged(cs, rs), DroppedOnes(cs, rs);
    assert damaged + [] == damaged && dropped + [] == dropped;
    DropsRightSnoc(drops, damaged, dropped, c.corrupt);
    DropsAfterSnoc(drops, damaged, c.corrupt);
  }

  /** An emptied buffer, with the firmware if it could be sent there. */
  predicate Recycled(b: Buffer, sent: bool) {
    b.size == 0 && b.timestamp == 0 && !b.last && !b.error && b.Is(QUEUED) == sent && !b.Is(DEQUEUED) && !b.Is(BUFFER_DONE)
  }

  /** A buffer that has come back from the firmware with its frame. */
  predicate CameBack(b: Buffer) {
    !b.Is(QUEUED) && !b.Is(DEFERRED) && b.Is(DEQUEUED) && b.Is(BUFFER_DONE)
  }

  /** Nothing happened to the buffers but to `i`, and that stays where it is. */
  predicate OnlyAt(before: seq<Buffer>, after: seq<Buffer>, i: nat)
    requires i < |before|
  {
    |after| == |before| && after[i].offset == before[i].offset && after == before[i := after[i]]
  }

  /** What became of the buffers when that of frame `i` was completed, and the slot held or named another. */
  predicate Moved(was: seq<Buffer>, now: seq<Buffer>, i: nat, slot: Slot, supplanted: bool, r: Result, sent: bool) {
    && |now| == |was| && i < |was|
    && (forall x | 0 <= x < |was| ::
          now[x].offset == was[x].offset && (x != i && slot != Holding(x) ==> now[x] == was[x]))
    && (r.Taken? ==> CameBack(now[i]))
    && (r.Dropped? ==> Recycled(now[i], sent))
    && (slot.Holding? && slot.index < |was| && slot.index != i ==>
          if supplanted then Recycled(now[slot.index], sent) else now[slot.index] == was[slot.index])
  }

  /** It is the same from before the frame was noted in its buffer. */
  lemma MovedFromBefore(
    was: seq<Buffer>, noted: seq<Buffer>, now: seq<Buffer>, i: nat, slot: Slot, twin: bool, r: Result, sent: bool)
    requires i < |was| == |noted| && noted == was[i := noted[i]] && noted[i].offset == was[i].offset
    requires Moved(noted, now, i, slot, twin, r, sent)
    ensures Moved(was, now, i, slot, twin, r, sent)
  {
  }

  /** How many frames carry LAST. */
  function LastsIn(fs: seq<Frame>): nat {
    if fs == [] then 0
    else
      var n := |fs| - 1;
      LastsIn(fs[..n]) + if fs[n].last then 1 else 0
  }

  lemma LastsSnoc(fs: seq<Frame>, f: Frame)
    ensures LastsIn(fs + [f]) == LastsIn(fs) + if f.last then 1 else 0
  {
    assert (fs + [f])[..|fs|] == fs;
  }

  lemma {:induction false} LastsAppend(fs: seq<Frame>, gs: seq<Frame>)
    requires forall k | 0 <= k < |gs| :: !gs[k].last
    ensures LastsIn(fs + gs) == LastsIn(fs)
    decreases |gs|
  {
    if gs == [] {
      assert fs + gs == fs;
    } else {
      var n := |gs| - 1;
      LastsAppend(fs, gs[..n]);
      assert fs + gs == fs + gs[..n] + [gs[n]];
      LastsSnoc(fs + gs[..n], gs[n]);
    }
  }

  /** Over completions without a failure LAST is on exactly one frame if it came due, and on none if it was out before. */
  lemma {:induction false} LastComesOnce(vp9: bool, last: bool, cs: seq<Completion>, rs: seq<Result>)
    requires |cs| == |rs| && Failed !in rs && forall k | 0 <= k < |rs| && rs[k].Dropped? :: cs[k].size > 0
    ensures LastsIn(Frames(vp9, last, cs, rs)) == if LastSeen(last, cs, rs) && !last then 1 else 0
    ensures LastSeen(last, cs, rs) <==>
              last || exists k | 0 <= k < |cs| :: !rs[k].Unmatched? && cs[k].size == 0 && cs[k].due
    decreases |cs|
  {
    if cs != [] {
      var k := |cs| - 1;
      LastComesOnce(vp9, last, cs[..k], rs[..k]);
      LastsSnoc(Frames(vp9, last, cs[..k], rs[..k]), FrameOf(vp9, LastSeen(last, cs[..k], rs[..k]), cs[k]));
      assert Frames(vp9, last, cs[..k], rs[..k]) + [] == Frames(vp9, last, cs[..k], rs[..k]);
      if j :| 0 <= j < |cs| && !rs[j].Unmatched? && cs[j].size == 0 && cs[j].due && j < k {
        assert cs[..k][j] == cs[j] && rs[..k][j] == rs[j];
      }
    }
  }

  /** Whether LAST may still come before it is reset. */
  function Room(lastDequeued: bool): nat {
    if lastDequeued then 0 else 1
  }

  /** What the client, the firmware and the driver do to the queue, section by section. */
  datatype Call =
    | Queues(index: nat, timestamp: nat, inError: bool, due: bool, streaming: bool, sent: bool)
    | Completes(completion: Completion)
    | SendsAside(room: nat)
    | BeginsStreamon
    | ForgetsLast
    | BeginsStop
    | ContinuesStop(released: bool)
    | ReturnsAll

  /** Whether every listed buffer stays in one place, is left in none, or is listed although it was handed back. */
  datatype Reply = Clean | Unplaced | Twice

  function Resets(calls: seq<Call>): nat {
    if calls == [] then 0
    else
      var n := |calls| - 1;
      Resets(calls[..n]) + if calls[n].ForgetsLast? then 1 else 0
  }

  /** Handing everything back settles what was misplaced before. */
  predicate StaysPlaced(placed: bool, calls: seq<Call>, replies: seq<Reply>)
    requires |calls| == |replies|
  {
    if calls == [] then placed
    else
      var n := |calls| - 1;
      calls[n].ReturnsAll? || (replies[n].Clean? && StaysPlaced(placed, calls[..n], replies[..n]))
  }

  /** What the client gave, and was given back without being taken off the list, is what it got and what is listed. */
  predicate Even(taken: multiset<nat>, twice: multiset<nat>, returned: seq<Frame>, list: seq<nat>) {
    taken + twice == multiset(Indices(returned)) + multiset(list)
  }

  lemma EvenHandedBack(taken: multiset<nat>, twice: multiset<nat>, returned: seq<Frame>, list: seq<nat>, f: Frame)
    requires Even(taken, twice, returned, list)
    ensures Even(taken + multiset{f.index}, twice, returned + [f], list)
  {
    IndicesSnoc(returned, f);
    var r, l, one := multiset(Indices(returned)), multiset(list), multiset{f.index};
    assert (taken + one) + twice == (taken + twice) + one && (r + one) + l == (r + l) + one;
  }

  lemma EvenEnlisted(taken: multiset<nat>, twice: multiset<nat>, returned: seq<Frame>, list: seq<nat>, i: nat)
    requires Even(taken, twice, returned, list)
    ensures Even(taken + multiset{i}, twice, returned, list + [i])
  {
    var r, l, one := multiset(Indices(returned)), multiset(list), multiset{i};
    assert (taken + one) + twice == (taken + twice) + one && r + (l + one) == (r + l) + one;
  }

  lemma EvenBoth(taken: multiset<nat>, twice: multiset<nat>, returned: seq<Frame>, list: seq<nat>, f: Frame)
    requires Even(taken, twice, returned, list)
    ensures Even(taken + multiset{f.index}, twice + multiset{f.index}, returned + [f], list + [f.index])
  {
    IndicesSnoc(returned, f);
    var r, l, one := multiset(Indices(returned)), multiset(list), multiset{f.index};
    assert (taken + one) + (twice + one) == (taken + twice) + one + one;
    assert (r + one) + (l + one) == (r + l) + one + one;
  }

  class CaptureQueue {
    const vp9: bool
    var bufs: seq<Buffer>
    var list: seq<nat>
    var pending: Slot
    var drops: nat
    var lastDequeued: bool
    var returned: seq<Frame>
    /** Every buffer the client ever queued, those it got back and that stay listed, and the frames that were replaced. */
    ghost var taken: multiset<nat>
    ghost var twice: multiset<nat>
    ghost var replaced: seq<Frame>

    predicate OnList(i: nat)
      reads this
    {
      i in list
    }

    /** What always holds, even of a slot that still names a buffer the client has got back. */
    ghost predicate Sound()
      reads this
    {
      && Distinct(list)
      && (forall i | i in list :: i < |bufs|)
      && (forall i | 0 <= i < |bufs| && (bufs[i].Is(QUEUED) || bufs[i].Is(DEFERRED)) ::
            !bufs[i].last && !bufs[i].error && bufs[i].Is(QUEUED) != bufs[i].Is(DEFERRED))
      && (pending.Holding? ==>
            vp9 && pending.index < |bufs| && !bufs[pending.index].error && !bufs[pending.index].last)
      && drops <= MAX_CORRUPT_DROPS
    }

    /** The slot is vacant, or holds a filled frame in a listed buffer that is in nobody else's hands. */
    ghost predicate Valid()
      reads this
    {
      Sound() &&
      (pending.Holding? ==>
         && OnList(pending.index) && bufs[pending.index].size > 0
         && !bufs[pending.index].Is(QUEUED) && !bufs[pending.index].Is(DEFERRED))
    }

    /** Each buffer the client queued was handed back, or is still on the list; only those in `twice` are both. */
    ghost predicate Conserved()
      reads this
    {
      Even(taken, twice, returned, list)
    }

    /** Every listed buffer is set aside, with the firmware, or held; validity says that no two of these hold. */
    ghost predicate Placed()
      reads this
      requires Sound()
    {
      forall i | i in list :: pending == Holding(i) || bufs[i].Is(QUEUED) || bufs[i].Is(DEFERRED)
    }

    ghost function Held(): seq<Frame>
      reads this
      requires Sound()
    {
      if pending.Vacant? then [] else [FrameIn(pending.index, bufs[pending.index])]
    }

    ghost function Seen(): Output
      reads this
      requires Sound()
    {
      Output(returned, Held(), replaced)
    }

    lemma HoldsAtMostOne()
      requires Sound()
      ensures Valid() ==> HoldsOne(Seen()) && (!vp9 ==> Held() == [])
    {
      assert Valid() ==> Held() == [] || Held()[0].Filled();
    }

    ghost function Now(): View
      reads this
      requires Sound()
    {
      View(Seen(), lastDequeued, pending, drops)
    }

    constructor (vp9: bool, count: nat)
      ensures Valid() && Conserved() && Placed()
      ensures this.vp9 == vp9 && |bufs| == count && list == [] && Seen() == Output([], [], [])
      ensures taken == twice == multiset{}
      ensures !lastDequeued && drops == 0 && pending.Vacant?
      ensures forall i | 0 <= i < count :: bufs[i].offset == 0
    {
      this.vp9 := vp9;
      bufs := seq(count, _ => Buffer(0, 0, 0, 0, false, false));
      list, pending, drops, lastDequeued, returned := [], Vacant, 0, false, [];
      taken, twice, replaced := multiset{}, multiset{}, [];
    }

    /** Hands buffer `i` back to the client. */
    method BufferDone(i: nat) returns (ok: bool)
      requires Distinct(list) && i < |bufs|
      modifies this`list, this`returned, this`lastDequeued
      ensures ok <==> old(OnList(i))
      ensures !ok ==> list == old(list) && returned == old(returned) && lastDequeued == old(lastDequeued)
      ensures ok ==> list == Without(old(list), i) && returned == old(returned) + [FrameIn(i, bufs[i])]
      ensures ok ==> lastDequeued == (old(lastDequeued) || (bufs[i].last && !bufs[i].error))
      ensures Distinct(list) && (forall x :: x in list <==> x in old(list) && x != i)
      ensures old(Conserved()) ==> Conserved()
    {
      WithoutRemovesOne(list, i);
      if i !in list {
        return false;
      }
      IndicesSnoc(returned, FrameIn(i, bufs[i]));
      list := Without(list, i);
      returned := returned + [FrameIn(i, bufs[i])];
      if !bufs[i].error && bufs[i].last {
        lastDequeued := true;
      }
      return true;
    }

    /** Gives buffer `i` to the firmware, unless the command queue is full. */
    method QueueBuffer(i: nat, sent: bool) returns (ok: bool)
      requires i < |bufs|
      modifies this`bufs
      ensures ok == sent
      ensures bufs == if sent then old(bufs)[i := InFirmware(old(bufs)[i])] else old(bufs)
    {
      if !sent {
        return false;
      }
      bufs := bufs[i := InFirmware(bufs[i])];
      return true;
    }

    /** A frame nobody is to see: its buffer is emptied and goes back to the firmware. */
    method SendBack(i: nat, sent: bool) returns (ok: bool)
      requires i < |bufs|
      modifies this`bufs
      ensures ok == sent && OnlyAt(old(bufs), bufs, i) && Recycled(bufs[i], sent)
      ensures sent ==> bufs[i].attr & (QUEUED | DEFERRED) == QUEUED
    {
      bufs := bufs[i := bufs[i].(size := 0, last := false, error := false, timestamp := 0,
                                 attr := bufs[i].attr & !(QUEUED | DEQUEUED | BUFFER_DONE))];
      ok := QueueBuffer(i, sent);
    }

    // The slot.

    /** The held frame was only the hidden half of what has now arrived: its buffer goes back to the firmware. */
    method RecyclePending(sent: bool) returns (ok: bool)
      requires Sound() && pending.Holding?
      modifies this`pending, this`bufs, this`replaced
      ensures Valid() && pending.Vacant? && ok == sent
      ensures replaced == old(replaced) + old(Held())
      ensures var i := old(pending).index; OnlyAt(old(bufs), bufs, i) && Recycled(bufs[i], sent)
      ensures old(Placed()) && ok ==> Placed()
    {
      var i := pending.index;
      replaced := replaced + Held();
      pending := Vacant;
      ok := SendBack(i, sent);
    }

    /** Does the slot name a buffer that can be handed back? */
    predicate Listed()
      reads this
    {
      pending.Holding? ==> OnList(pending.index)
    }

    method CompletePending() returns (ok: bool)
      requires Sound()
      modifies this`list, this`returned, this`lastDequeued, this`pending
      ensures Valid() && pending.Vacant? && ok == old(Listed()) && lastDequeued == old(lastDequeued)
      ensures returned == old(returned) + (if ok then old(Held()) else [])
      ensures forall x :: x in list <==> x in old(list) && old(pending) != Holding(x)
      ensures !ok ==> list == old(list)
      ensures old(Conserved()) ==> Conserved()
      ensures old(Placed()) ==> Placed()
      ensures LastsIn(returned) == LastsIn(old(returned))
    {
      hide LastsIn;
      if pending.Vacant? {
        return true;
      }
      var i := pending.index;
      LastsSnoc(returned, FrameIn(i, bufs[i]));
      pending := Vacant;
      ok := BufferDone(i);
    }

    /** Does the frame that has just arrived show that the held one was its hidden half? */
    predicate Twin(filled: bool, timestamp: nat)
      reads this
      requires pending.Holding? ==> pending.index < |bufs|
    {
      vp9 && filled && pending.Holding? && bufs[pending.index].timestamp == timestamp
    }

    /** Settling fails if the hidden half cannot be sent back, or if what is held cannot be handed back. */
    predicate Settles(filled: bool, timestamp: nat, sent: bool)
      reads this
      requires pending.Holding? ==> pending.index < |bufs|
    {
      if Twin(filled, timestamp) then sent else Listed()
    }

    /** The held frame is replaced or delivered before a completed buffer is dealt with. */
    method SettlePending(filled: bool, timestamp: nat, sent: bool) returns (ok: bool)
      requires Sound()
      modifies this`list, this`returned, this`lastDequeued, this`pending, this`bufs, this`replaced
      ensures Valid() && pending.Vacant? && lastDequeued == old(lastDequeued)
      ensures old(Conserved()) ==> Conserved()
      ensures ok == old(Settles(filled, timestamp, sent))
      ensures returned == old(returned) + (if ok && !old(Twin(filled, timestamp)) then old(Held()) else [])
      ensures replaced == old(replaced) + (if old(Twin(filled, timestamp)) then old(Held()) else [])
      ensures if old(Twin(filled, timestamp)) then
                var i := old(pending).index; OnlyAt(old(bufs), bufs, i) && Recycled(bufs[i], sent)
              else bufs == old(bufs)
      ensures forall x :: x in list <==> x in old(list) && (old(pending) != Holding(x) || old(Twin(filled, timestamp)))
      ensures old(Placed()) && ok ==> Placed()
      ensures LastsIn(returned) == LastsIn(old(returned))
    {
      hide LastsIn;
      if Twin(filled, timestamp) {
        ok := RecyclePending(sent);
      } else {
        ok := CompletePending();
      }
    }

    // The frame that has just been completed.

    predicate Drops(filled: bool, corrupt: bool)
      reads this
    {
      !vp9 && filled && corrupt && drops < MAX_CORRUPT_DROPS
    }

    method DropFrame(i: nat, sent: bool) returns (ok: bool)
      requires Valid() && pending.Vacant? && i < |bufs| && drops < MAX_CORRUPT_DROPS
      modifies this`bufs, this`drops
      ensures Valid() && ok == sent && drops == old(drops) + 1
      ensures OnlyAt(old(bufs), bufs, i) && Recycled(bufs[i], sent)
      ensures old(Placed()) && ok ==> Placed()
    {
      drops := drops + 1;
      ok := SendBack(i, sent);
    }

    /** Marks buffer `i` as back from the firmware, carrying its frame. */
    method TakeBack(i: nat, filled: bool, corrupt: bool, last: bool)
      requires Valid() && pending.Vacant? && i < |bufs| && bufs[i].Is(QUEUED)
      modifies this`bufs
      ensures Valid() && OnlyAt(old(bufs), bufs, i) && CameBack(bufs[i])
      ensures FrameIn(i, bufs[i]) == Finished(vp9, i, old(bufs)[i], filled, corrupt, last)
      ensures bufs[i].last == last && bufs[i].error == (corrupt && !(vp9 && filled))
      ensures bufs[i].size == old(bufs)[i].size && bufs[i].timestamp == old(bufs)[i].timestamp
    {
      bufs := bufs[i := bufs[i].(attr := (bufs[i].attr & !QUEUED) | DEQUEUED | BUFFER_DONE, last := last,
                                 error := corrupt && !(vp9 && filled))];
    }

    method HoldOrDeliver(i: nat, filled: bool, corrupt: bool, last: bool)
      requires Valid() && pending.Vacant? && i < |bufs| && bufs[i].Is(QUEUED)
      requires last ==> lastDequeued && !filled
      modifies this`list, this`returned, this`lastDequeued, this`pending, this`bufs
      ensures OnlyAt(old(bufs), bufs, i) && CameBack(bufs[i])
      ensures Sound() && lastDequeued == old(lastDequeued) && (old(Conserved()) ==> Conserved())
      ensures old(Placed()) ==> Placed()
      ensures pending == if vp9 && filled then Holding(i) else Vacant
      ensures Valid() <==> pending.Vacant? || (old(OnList(i)) && old(bufs)[i].size > 0)
      ensures var frame := Finished(vp9, i, old(bufs)[i], filled, corrupt, last);
              if vp9 && filled then Held() == [frame] && returned == old(returned)
              else returned == old(returned) + (if old(OnList(i)) then [frame] else [])
      ensures LastsIn(returned) <= LastsIn(old(returned)) + if last then 1 else 0
    {
      hide LastsIn;
      LastsSnoc(returned, Finished(vp9, i, bufs[i], filled, corrupt, last));
      TakeBack(i, filled, corrupt, last);
      if vp9 && filled {
        pending := Holding(i);
        return;
      }
      var _ := BufferDone(i);
    }

    /** A completed buffer whose predecessor is settled: dropped and sent back, held, or delivered. */
    method Release(i: nat, filled: bool, corrupt: bool, last: bool, sent: bool) returns (r: Result)
      requires Valid() && pending.Vacant? && i < |bufs| && bufs[i].Is(QUEUED)
      requires last ==> lastDequeued && !filled
      modifies this`list, this`returned, this`lastDequeued, this`pending, this`bufs, this`drops
      ensures OnlyAt(old(bufs), bufs, i) && (if r.Dropped? then Recycled(bufs[i], sent) else CameBack(bufs[i]))
      ensures Sound() && lastDequeued == old(lastDequeued) && (old(Conserved()) ==> Conserved())
      ensures old(Placed()) && r != Dropped(false) ==> Placed()
      ensures r == if old(Drops(filled, corrupt)) then Dropped(sent) else Taken
      ensures drops == if r.Dropped? then old(drops) + 1 else if filled then 0 else old(drops)
      ensures pending == if r.Taken? && vp9 && filled then Holding(i) else Vacant
      ensures Valid() <==> pending.Vacant? || (old(OnList(i)) && old(bufs)[i].size > 0)
      ensures var frame := Finished(vp9, i, old(bufs)[i], filled, corrupt, last);
              if r.Taken? && vp9 && filled then Held() == [frame] && returned == old(returned)
              else returned == old(returned) + (if r.Taken? && old(OnList(i)) then [frame] else [])
      ensures LastsIn(returned) <= LastsIn(old(returned)) + if last then 1 else 0
    {
      hide LastsIn;
      if filled {
        if !vp9 && corrupt && drops < MAX_CORRUPT_DROPS {
          var ok := DropFrame(i, sent);
          return Dropped(ok);
        }
        drops := 0;
      }
      HoldOrDeliver(i, filled, corrupt, last);
      r := Taken;
    }

    // A completion.

    predicate Matches(i: nat, offset: nat)
      reads this
    {
      i in list && i < |bufs| && bufs[i].Is(QUEUED) && bufs[i].offset == offset
    }

    /** The frame in buffer `i` is complete: its predecessor is settled first, then the frame itself. */
    method Accept(i: nat, corrupt: bool, last: bool, sent: bool) returns (r: Result)
      requires Sound() && OnList(i) && bufs[i].Is(QUEUED)
      requires bufs[i].size == 0 ==> bufs[i].timestamp == 0
      requires last ==> lastDequeued && bufs[i].size == 0
      modifies this`list, this`returned, this`lastDequeued, this`pending, this`bufs, this`drops, this`replaced
      ensures |bufs| == |old(bufs)| && Sound() && lastDequeued == old(lastDequeued) && (old(Conserved()) ==> Conserved())
      ensures old(Valid()) ==> Valid()
      ensures old(Placed()) && (r.Taken? || r == Dropped(true)) ==> Placed()
      ensures r == if !old(Settles(bufs[i].size > 0, bufs[i].timestamp, sent)) then Failed
                   else if old(Drops(bufs[i].size > 0, corrupt)) then Dropped(sent)
                   else Taken
      ensures drops == if r.Dropped? then old(drops) + 1 else if r.Taken? && old(bufs)[i].size > 0 then 0 else old(drops)
      ensures pending == if r.Taken? && vp9 && old(bufs)[i].size > 0 then Holding(i) else Vacant
      ensures r.Taken? && old(Valid() || (!Twin(bufs[i].size > 0, bufs[i].timestamp) && pending != Holding(i))) ==>
                var frame := old(Completed(vp9, i, bufs[i].size, bufs[i].timestamp, corrupt, last));
                Seen() == Advance(vp9, old(Seen()), frame)
      ensures r.Dropped? ==> Seen() == old(Seen())
      ensures r.Failed? ==> returned == old(returned)
      ensures old(returned) <= returned && LastsIn(returned) <= LastsIn(old(returned)) + if last then 1 else 0
      ensures Moved(old(bufs), bufs, i, old(pending), old(Twin(bufs[i].size > 0, bufs[i].timestamp)), r, sent)
    {
      hide Conserved, LastsIn, CameBack;
      ghost var was := Seen();
      ghost var b := bufs[i];
      ghost var twin := Twin(bufs[i].size > 0, bufs[i].timestamp);
      ghost var plain := Valid() || (!twin && pending != Holding(i));
      var filled := bufs[i].size > 0;
      var ok := SettlePending(filled, bufs[i].timestamp, sent);
      if !ok {
        return Failed;
      }
      assert plain ==> OnList(i) && bufs[i] == b;
      r := Release(i, filled, corrupt, last, sent);
      if r.Taken? && plain {
        ghost var frame := Completed(vp9, i, b.size, b.timestamp, corrupt, last);
        assert vp9 ==> (twin <==> |was.held| > 0 && Supersedes(frame, was.held[0]));
        assert frame == Finished(vp9, i, b, filled, corrupt, last);
      }
    }

    /** Notes in the buffer what the firmware wrote, and decides whether it is the LAST one. */
    method Note(i: nat, size: nat, timestamp: nat, due: bool) returns (last: bool)
      requires Sound() && OnList(i) && bufs[i].Is(QUEUED)
      modifies this`bufs, this`lastDequeued
      ensures Sound() && (old(Valid()) ==> Valid() && Seen() == old(Seen()))
      ensures (old(Placed()) ==> Placed()) && (old(Conserved()) ==> Conserved())
      ensures |bufs| == |old(bufs)|
      ensures bufs == old(bufs)[i := old(bufs)[i].(size := size, timestamp := if size > 0 then timestamp else 0)]
      ensures last == (size == 0 && due && !old(lastDequeued))
      ensures lastDequeued == (old(lastDequeued) || (size == 0 && due))
    {
      last := size == 0 && !lastDequeued && due;
      if last {
        lastDequeued := true;
      }
      bufs := bufs[i := bufs[i].(size := size, timestamp := if size > 0 then timestamp else 0)];
    }

    /** Does the completed frame replace the one that is held? */
    predicate Supplants(c: Completion)
      reads this
      requires pending.Holding? ==> pending.index < |bufs|
    {
      vp9 && c.size > 0 && pending.Holding?
      && (pending.index == c.index || bufs[pending.index].timestamp == c.timestamp)
    }

    /** A completion fails if what it replaces cannot be sent back, or if what is held is not the client's to get. */
    predicate Fails(c: Completion)
      reads this
      requires pending.Holding? ==> pending.index < |bufs|
    {
      Matches(c.index, c.offset) && if Supplants(c) then !c.sent else !Listed()
    }

    /** A completion that matches a queued buffer. */
    method Fill(c: Completion) returns (r: Result)
      requires Sound() && Matches(c.index, c.offset)
      modifies this`list, this`returned, this`lastDequeued, this`pending, this`bufs, this`drops, this`replaced
      ensures |bufs| == |old(bufs)| && Sound() && (old(Conserved()) ==> Conserved())
      ensures old(Valid()) ==> Valid()
      ensures old(Placed()) && r != Failed && r != Dropped(false) ==> Placed()
      ensures r == if old(Fails(c)) then Failed
                   else if old(Drops(c.size > 0, c.corrupt)) then Dropped(c.sent)
                   else Taken
      ensures Steps(vp9, old(Valid()), old(Now()), c, r, Now())
      ensures r.Taken? && !old(Supplants(c)) && old(pending) != Holding(c.index) ==>
                Seen() == Advance(vp9, old(Seen()), FrameOf(vp9, old(lastDequeued), c))
      ensures r.Failed? ==> returned == old(returned)
      ensures old(returned) <= returned
      ensures LastsIn(returned) + Room(lastDequeued) <= LastsIn(old(returned)) + Room(old(lastDequeued))
      ensures Moved(old(bufs), bufs, c.index, old(pending), old(Supplants(c)), r, c.sent)
    {
      hide Moved, Valid, Distinct, Advance, Conserved, FrameIn, Completed, Placed, LastsIn;
      ghost var twin, listed, drop := Supplants(c), Listed(), Drops(c.size > 0, c.corrupt);
      var last := Note(c.index, c.size, c.timestamp, c.due);
      StampOfEmpty(vp9, c, last);
      assert Twin(c.size > 0, bufs[c.index].timestamp) == twin;
      assert Listed() == listed && Drops(c.size > 0, c.corrupt) == drop;
      ghost var noted := bufs;
      r := Accept(c.index, c.corrupt, last, c.sent);
      MovedFromBefore(old(bufs), noted, bufs, c.index, old(pending), twin, r, c.sent);
    }

    /**
     The firmware has finished with a client buffer.  A completion that matches no queued buffer changes
     nothing; otherwise the client's view advances by exactly this frame, unless a damaged one is dropped.  The
     slot of a valid queue stays valid; a stale one can only make a completion fail.
     */
    method FillDone(c: Completion) returns (r: Result)
      requires Sound()
      modifies this`list, this`returned, this`lastDequeued, this`pending, this`bufs, this`drops, this`replaced
      ensures |bufs| == |old(bufs)| && Sound() && (old(Conserved()) ==> Conserved())
      ensures old(Valid()) ==> Valid()
      ensures old(Placed()) && r != Failed && r != Dropped(false) ==> Placed()
      ensures r == if !old(Matches(c.index, c.offset)) then Unmatched
                   else if old(Fails(c)) then Failed
                   else if old(Drops(c.size > 0, c.corrupt)) then Dropped(c.sent)
                   else Taken
      ensures r.Unmatched? ==> Now() == old(Now()) && bufs == old(bufs) && list == old(list)
      ensures Steps(vp9, old(Valid()), old(Now()), c, r, Now())
      ensures r.Taken? && !old(Supplants(c)) && old(pending) != Holding(c.index) ==>
                Seen() == Advance(vp9, old(Seen()), FrameOf(vp9, old(lastDequeued), c))
      ensures r.Failed? ==> returned == old(returned)
      ensures old(returned) <= returned
      ensures LastsIn(returned) + Room(lastDequeued) <= LastsIn(old(returned)) + Room(old(lastDequeued))
      ensures !r.Unmatched? ==> Moved(old(bufs), bufs, c.index, old(pending), old(Supplants(c)), r, c.sent)
    {
      hide Recycled, CameBack;
      hide Advance, Conserved, FrameIn, LastsIn;
      if !Matches(c.index, c.offset) {
        return Unmatched;
      }
      r := Fill(c);
    }

    // The client's calls.

    method HandBack(i: nat, last: bool, error: bool)
      modifies this`returned
      ensures returned == old(returned) + [Empty(i, last, error)]
      ensures multiset(Indices(returned)) == multiset(Indices(old(returned))) + multiset{i}
    {
      IndicesSnoc(returned, Empty(i, last, error));
      returned := returned + [Empty(i, last, error)];
    }

    /** Puts buffer `i` on the list and, while the queue streams, with the firmware. */
    method Enlist(i: nat, timestamp: nat, streaming: bool, sent: bool) returns (ok: bool)
      requires Sound() && !OnList(i) && i < |bufs|
      modifies this`list, this`bufs
      ensures Sound() && list == old(list) + [i] && bufs == old(bufs)[i := Enlisted(old(bufs)[i], timestamp, streaming, ok)]
      ensures old(Valid()) ==> Valid() && Held() == old(Held())
      ensures ok == (streaming ==> sent)
      ensures old(Placed()) && ok ==> Placed()
    {
      list := list + [i];
      bufs := bufs[i := Buffer(0, bufs[i].offset, 0, timestamp, false, false)];
      if !streaming {
        bufs := bufs[i := bufs[i].(attr := DEFERRED)];
        return true;
      }
      ok := QueueBuffer(i, sent);
    }

    /** A buffer the client has just queued and is not told about at once. */
    method Submit(i: nat, timestamp: nat, streaming: bool, sent: bool) returns (ok: bool)
      requires Sound() && !OnList(i) && i < |bufs|
      modifies this`list, this`returned, this`bufs, this`twice
      ensures Sound() && list == old(list) + [i] && bufs == old(bufs)[i := Enlisted(old(bufs)[i], timestamp, streaming, ok)]
      ensures old(Valid()) ==> Valid() && Held() == old(Held())
      ensures ok == (streaming ==> sent)
      ensures returned == if ok then old(returned) else old(returned) + [Empty(i, false, true)]
      ensures twice == if ok then old(twice) else old(twice) + multiset{i}
      ensures old(Placed()) && ok ==> Placed()
    {
      hide FrameIn;
      ok := Enlist(i, timestamp, streaming, sent);
      if !ok {
        twice := twice + multiset{i};
        HandBack(i, false, true);
      }
    }

    /**
     The client queues buffer `i`.  While LAST is due it comes straight back as LAST, whether or not a frame
     is held; otherwise it goes on the list.  Only a buffer that cannot be given to a streaming firmware is
     handed back and stays on the list.  That puts the session in error, so a buffer the client queues while it is
     listed only comes back once more.
     */
    method Queue(i: nat, timestamp: nat, inError: bool, due: bool, streaming: bool, sent: bool) returns (ok: bool)
      requires Sound() && i < |bufs| && (OnList(i) ==> inError)
      modifies this`list, this`returned, this`lastDequeued, this`bufs, this`taken, this`twice
      ensures Sound() && (old(Valid()) ==> Valid() && Held() == old(Held()))
      ensures ok == (!inError && ((due && !old(lastDequeued)) || !streaming || sent))
      ensures list == if inError || (due && !old(lastDequeued)) then old(list) else old(list) + [i]
      ensures lastDequeued == (old(lastDequeued) || (!inError && due))
      ensures returned == if !ok then old(returned) + [Empty(i, false, true)]
                          else if due && !old(lastDequeued) then old(returned) + [Empty(i, true, false)]
                          else old(returned)
      ensures old(Conserved()) ==> Conserved()
      ensures taken == old(taken) + multiset{i}
      ensures twice == if ok || inError then old(twice) else old(twice) + multiset{i}
      ensures old(Placed()) && (ok || inError) ==> Placed()
      ensures bufs == if inError || (due && !old(lastDequeued)) then old(bufs)
                      else old(bufs)[i := Enlisted(old(bufs)[i], timestamp, streaming, ok)]
    {
      hide FrameIn, Flushed, Even;
      ghost var t, w, r, l, even := taken, twice, returned, list, Conserved();
      taken := taken + multiset{i};
      if inError {
        if even {
          EvenHandedBack(t, w, r, l, Empty(i, false, true));
        }
        HandBack(i, false, true);
        return false;
      }
      if !lastDequeued && due {
        if even {
          EvenHandedBack(t, w, r, l, Empty(i, true, false));
        }
        HandBack(i, true, false);
        lastDequeued := true;
        return true;
      }
      if even {
        EvenEnlisted(t, w, r, l, i);
        EvenBoth(t, w, r, l, Empty(i, false, true));
      }
      ok := Submit(i, timestamp, streaming, sent);
    }

    /** Input stream-on forgets the held frame: the client never sees it, though its buffer stays on the list. */
    method BeginStreamonInput()
      requires Sound()
      modifies this`pending, this`drops
      ensures Valid() && pending.Vacant? && drops == 0
      ensures old(Conserved()) ==> Conserved()
      ensures old(Placed()) && old(Valid()) ==> (Placed() <==> old(pending.Vacant?))
      ensures old(Placed()) && old(pending.Vacant?) ==> Placed()
      ensures Seen() == old(Seen()).(held := [])
    {
      pending := Vacant;
      drops := 0;
    }

    /** The ends of both stream-ons, and START: LAST may come again. */
    method ForgetLast()
      requires Sound()
      modifies this`lastDequeued
      ensures !lastDequeued && Sound() && (old(Valid()) ==> Valid())
      ensures (old(Conserved()) ==> Conserved()) && (old(Placed()) ==> Placed())
    {
      lastDequeued := false;
    }

    /**
     Input stream-on, with the completions that are served while it waits for the firmware; if it succeeds, LAST
     may come again.  Without a failure the client gets the frames of those completions and not the held one.
     */
    method StreamonInput(cs: seq<Completion>, started: bool) returns (rs: seq<Result>)
      requires Sound()
      modifies this`list, this`returned, this`lastDequeued, this`pending, this`bufs, this`drops, this`replaced
      ensures |rs| == |cs| && Valid() && (old(Conserved()) ==> Conserved())
      ensures lastDequeued == (!started && LastSeen(old(lastDequeued), cs, rs))
      ensures Failed !in rs ==>
                returned + Held() == old(returned) + Delivered(vp9, Frames(vp9, old(lastDequeued), cs, rs))
    {
      hide SlotAfter, Frames, AdvanceAll, Delivered, DroppedOnes, Damaged, DropsRight, NeverNine, FrameIn, Conserved;
      BeginStreamonInput();
      rs := Serve(cs);
      assert [] + Frames(vp9, old(lastDequeued), cs, rs) == Frames(vp9, old(lastDequeued), cs, rs);
      if started {
        ForgetLast();
      }
    }

    /** Stream-on: what was set aside goes to the firmware, in list order, as far as there is room for commands. */
    method QueueDeferred(room: nat) returns (ok: bool)
      requires Sound()
      modifies this`bufs
      ensures |bufs| == |old(bufs)| && (old(Conserved()) ==> Conserved())
      ensures Sound() && (old(Valid()) ==> Valid() && Held() == old(Held()))
      ensures SentOnly(old(bufs), bufs, Sendable(list, old(bufs), room))
      ensures ok <==> |SetAside(list, old(bufs), true)| <= room
      ensures ok ==> SetAside(list, bufs, true) == []
      ensures old(Placed()) ==> Placed()
    {
      var now;
      now, ok := SendDeferred(list, bufs, room);
      SentWereAside(list, bufs, now, room);
      bufs := now;
    }

    // Stream-off, in the sections between which its waits let completions in.

    /** Hands back every buffer still on the list, as stop_streaming does for those the firmware gave up. */
    method ReturnAll()
      requires Sound()
      modifies this`list, this`returned
      ensures Sound() && list == [] && returned == old(returned) + Flushed(old(list), true)
      ensures Valid() <==> pending.Vacant?
      ensures old(Conserved()) ==> Conserved() && taken + twice == multiset(Indices(returned))
      ensures LastsIn(returned) == LastsIn(old(returned))
    {
      hide LastsIn;
      var frames := EmptyFrames(list);
      LastsAppend(returned, frames);
      IndicesAppend(returned, frames);
      returned := returned + frames;
      list := [];
    }

    /** Hands back, empty, the buffers that never went to the firmware. */
    method FlushDeferred()
      requires Sound()
      modifies this`list, this`returned
      ensures Sound() && list == SetAside(old(list), bufs, false)
      ensures returned == old(returned) + Flushed(SetAside(old(list), bufs, true), false)
      ensures old(Valid()) ==> Valid()
      ensures old(Conserved()) ==> Conserved()
      ensures old(Placed()) ==> Placed()
      ensures LastsIn(returned) == LastsIn(old(returned))
    {
      hide LastsIn;
      var frames, kept := SplitDeferred(list, bufs);
      LastsAppend(returned, frames);
      FlushDeferredIsSound(list, bufs);
      if pending.Holding? {
        SetAsideMember(list, bufs, false, pending.index);
      }
      IndicesAppend(returned, frames);
      returned := returned + frames;
      list := kept;
    }

    // Runs.

    /** Serves the completions `cs` one after the other, as the response handler does while the lock is free. */
    method ServeEach(cs: seq<Completion>) returns (rs: seq<Result>)
      requires Sound()
      modifies this`list, this`returned, this`lastDequeued, this`pending, this`bufs, this`drops, this`replaced
      ensures |rs| == |cs| && |bufs| == |old(bufs)| && Sound() && (old(Conserved()) ==> Conserved())
      ensures old(Valid()) ==> Valid()
      ensures Runs(vp9, old(Valid()), old(Now()), cs, rs, Now())
      ensures old(returned) <= returned
      ensures cs == [] ==> Now() == old(Now()) && list == old(list) && bufs == old(bufs)
      ensures old(Placed()) && Failed !in rs && Dropped(false) !in rs ==> Placed()
    {
      ghost var start, valid := Now(), Valid();
      hide Runs, Steps, FrameIn, Conserved, Valid, Placed, Moved;
      rs := [];
      RunsNowhere(vp9, valid, start);
      for k := 0 to |cs|
        invariant |rs| == k && |bufs| == |old(bufs)| && Sound() && (old(Conserved()) ==> Conserved())
        invariant valid ==> Valid()
        invariant old(returned) <= returned
        invariant k == 0 ==> Now() == start && list == old(list) && bufs == old(bufs)
        invariant old(Placed()) && Failed !in rs && Dropped(false) !in rs ==> Placed()
        invariant Runs(vp9, valid, start, cs[..k], rs, Now())
      {
        ghost var was := Now();
        var r := FillDone(cs[k]);
        RunsSnoc(vp9, valid, start, cs[..k], rs, was, cs[k], r, Now());
        rs := rs + [r];
        assert cs[..k + 1] == cs[..k] + [cs[k]];
      }
      assert cs[..|cs|] == cs;
    }

    /** What the client gets from that. */
    method Serve(cs: seq<Completion>) returns (rs: seq<Result>)
      requires Sound()
      modifies this`list, this`returned, this`lastDequeued, this`pending, this`bufs, this`drops, this`replaced
      ensures |rs| == |cs| && |bufs| == |old(bufs)| && Sound() && (old(Conserved()) ==> Conserved())
      ensures old(Valid()) ==> Valid()
      ensures Runs(vp9, old(Valid()), old(Now()), cs, rs, Now())
      ensures old(returned) <= returned
      ensures cs == [] ==> Now() == old(Now()) && list == old(list) && bufs == old(bufs)
      ensures old(Placed()) && Failed !in rs && Dropped(false) !in rs ==> Placed()
      ensures old(Valid()) && Failed !in rs ==>
                returned + Held()
                == old(returned) + Delivered(vp9, old(Held()) + Frames(vp9, old(lastDequeued), cs, rs))
      ensures !vp9 ==> Failed !in rs && NeverNine(DroppedOnes(cs, rs))
    {
      ghost var start, valid := Now(), Valid();
      HoldsAtMostOne();
      hide Runs, Frames, DroppedOnes, Delivered, NeverNine, FrameIn, Conserved, Valid, Placed;
      rs := ServeEach(cs);
      RunsDeliver(vp9, valid, start, cs, rs, Now());
    }

    /** The section before the first wait of stream-off: the held frame is forgotten. */
    method BeginStop()
      requires Sound()
      modifies this`pending
      ensures Valid() && pending.Vacant? && Seen() == old(Seen()).(held := []) && (old(Conserved()) ==> Conserved())
      ensures old(Placed()) && old(pending.Vacant?) ==> Placed()
    {
      pending := Vacant;
    }

    /** The section after it, up to the wait for the session to close. */
    method MiddleStop(released: bool)
      requires Sound()
      modifies this`list, this`returned
      ensures Sound() && (old(Conserved()) ==> Conserved()) && old(returned) <= returned
      ensures returned + Flushed(list, true) == old(returned) + StoppedFrames(old(list), old(bufs), released)
      ensures old(Placed()) ==> Placed()
      ensures LastsIn(returned) == LastsIn(old(returned))
    {
      hide LastsIn;
      ghost var given := returned;
      ghost var aside, rest := Flushed(SetAside(list, bufs, true), false), Flushed(SetAside(list, bufs, false), true);
      if released {
        ReturnAll();
      }
      FlushDeferred();
      Associate(given, aside, rest);
    }

    /**
     Capture stream-off, with the completions that are served during its waits.  Whatever is queued comes back
     exactly once.  The slot ends vacant, and the queue valid, exactly when no completion of a wait was held: a
     frame held there stays in the slot although its buffer goes back to the client.
     */
    method Streamoff(first: seq<Completion>, released: bool, second: seq<Completion>)
      returns (rs: seq<Result>, ss: seq<Result>)
      requires Sound()
      modifies this`list, this`returned, this`lastDequeued, this`pending, this`bufs, this`drops, this`replaced
      ensures |rs| == |first| && |ss| == |second| && Sound() && list == [] && old(returned) <= returned
      ensures old(Conserved()) ==> Conserved() && taken + twice == multiset(Indices(returned))
      ensures pending == SlotAfter(vp9, SlotAfter(vp9, Vacant, first, rs), second, ss)
      ensures Valid() <==> pending.Vacant?
      ensures Failed !in rs ==>
                AdvanceAll(vp9, Output(old(returned), [], old(replaced)),
                           Frames(vp9, old(lastDequeued), first, rs)).delivered <= returned
      ensures first == [] && second == [] ==> returned == old(returned) + StoppedFrames(old(list), old(bufs), released)
    {
      hide StoppedFrames, AdvanceAll, Frames, SlotAfter, Valid, FrameIn;
      hide Runs, Conserved, NeverNine, DroppedOnes, Delivered, SetAside, Indices;
      BeginStop();
      ghost var start := Now();
      rs := Serve(first);
      RunsEnd(vp9, true, start, first, rs, Now());
      MiddleStop(released);
      ghost var middle, valid := Now(), Valid();
      ss := Serve(second);
      RunsEnd(vp9, valid, middle, second, ss, Now());
      ReturnAll();
    }

    /** In INIT capture was never started, and there is nothing to stop. */
    method StopStreaming(inInit: bool, first: seq<Completion>, released: bool, second: seq<Completion>)
      returns (rs: seq<Result>, ss: seq<Result>)
      requires Sound()
      modifies this`list, this`returned, this`lastDequeued, this`pending, this`bufs, this`drops, this`replaced
      ensures Sound() && (old(Conserved()) ==> Conserved())
      ensures inInit ==> Now() == old(Now()) && list == old(list) && bufs == old(bufs)
      ensures !inInit ==> |rs| == |first| && |ss| == |second| && list == []
      ensures !inInit ==> pending == SlotAfter(vp9, SlotAfter(vp9, Vacant, first, rs), second, ss)
      ensures !inInit ==> (Valid() <==> !vp9 || !exists k :: HeldSince(first + second, rs + ss, k))
    {
      if inInit {
        return [], [];
      }
      rs, ss := Streamoff(first, released, second);
      StaleSlotExactly(vp9, first, rs, second, ss);
    }

    /** videobuf2 refuses a buffer it has not got, or that the client did not get back. */
    predicate Refuses(call: Call)
      reads this
    {
      call.Queues? && (call.index >= |bufs| || (OnList(call.index) && !call.inError))
    }

    method QueueCall(call: Call) returns (reply: Reply)
      requires Sound() && call.Queues?
      modifies this`list, this`returned, this`lastDequeued, this`bufs, this`taken, this`twice
      ensures |bufs| == |old(bufs)| && Sound() && (old(Conserved()) ==> Conserved()) && (old(Valid()) ==> Valid())
      ensures old(Placed()) && reply.Clean? ==> Placed()
      ensures !reply.Unplaced?
      ensures reply.Twice? <==> !old(Refuses(call)) && !call.inError && !(call.due && !old(lastDequeued))
                                && call.streaming && !call.sent
      ensures twice == if reply.Twice? then old(twice) + multiset{call.index} else old(twice)
      ensures old(returned) <= returned
      ensures LastsIn(returned) + Room(lastDequeued) <= LastsIn(old(returned)) + Room(old(lastDequeued))
    {
      hide LastsIn, Conserved, FrameIn;
      if Refuses(call) {
        return Clean;
      }
      LastsSnoc(returned, Empty(call.index, false, true));
      LastsSnoc(returned, Empty(call.index, true, false));
      var ok := Queue(call.index, call.timestamp, call.inError, call.due, call.streaming, call.sent);
      reply := if ok || call.inError then Clean else Twice;
    }

    /** One section of whichever caller has the lock. */
    method Perform(call: Call) returns (reply: Reply)
      requires Sound()
      modifies this
      ensures |bufs| == |old(bufs)| && Sound() && (old(Conserved()) ==> Conserved())
      ensures old(Valid()) && !call.ReturnsAll? && !call.ContinuesStop? ==> Valid()
      ensures call.ReturnsAll? || (old(Placed()) && reply.Clean?) ==> Placed()
      ensures reply.Twice? ==> call.Queues?
      ensures twice == if reply.Twice? then old(twice) + multiset{call.index} else old(twice)
      ensures old(returned) <= returned
      ensures LastsIn(returned) + Room(lastDequeued)
              <= LastsIn(old(returned)) + Room(old(lastDequeued)) + if call.ForgetsLast? then 1 else 0
    {
      hide LastsIn, Conserved, FrameIn, Steps, Flushed, StoppedFrames;
      match call
      case Queues(_, _, _, _, _, _) => reply := QueueCall(call);
      case Completes(c) =>
        var r := FillDone(c);
        reply := if r == Failed || r == Dropped(false) then Unplaced else Clean;
      case SendsAside(room) =>
        var _ := QueueDeferred(room);
        reply := Clean;
      case BeginsStreamon =>
        reply := if pending.Vacant? then Clean else Unplaced;
        BeginStreamonInput();
      case ForgetsLast =>
        ForgetLast();
        reply := Clean;
      case BeginsStop =>
        reply := if pending.Vacant? then Clean else Unplaced;
        BeginStop();
      case ContinuesStop(released) =>
        MiddleStop(released);
        reply := Clean;
      case ReturnsAll =>
        ReturnAll();
        reply := Clean;
    }

    /**
     Any sections in any order, as calls, completions and the waits of stream-on and stream-off mix.  Every buffer
     the client queued has come back or is listed, exactly once but for those that could not be given to a
     streaming firmware; every listed buffer is in one place unless a section misplaced one since all were last
     handed back; and LAST has come at most once more than it was reset.
     */
    method Run(calls: seq<Call>) returns (replies: seq<Reply>)
      requires Sound()
      modifies this
      ensures |replies| == |calls| && Sound() && (old(Conserved()) ==> Conserved())
      ensures Twice !in replies ==> twice == old(twice)
      ensures StaysPlaced(old(Placed()), calls, replies) ==> Placed()
      ensures old(returned) <= returned
      ensures LastsIn(returned) + Room(lastDequeued)
              <= LastsIn(old(returned)) + Room(old(lastDequeued)) + Resets(calls)
    {
      hide LastsIn, Conserved, Placed;
      replies := [];
      assert calls[..0] == [];
      for k := 0 to |calls|
        invariant |replies| == k && Sound() && (old(Conserved()) ==> Conserved())
        invariant Twice !in replies ==> twice == old(twice)
        invariant StaysPlaced(old(Placed()), calls[..k], replies) ==> Placed()
        invariant old(returned) <= returned
        invariant LastsIn(returned) + Room(lastDequeued)
                  <= LastsIn(old(returned)) + Room(old(lastDequeued)) + Resets(calls[..k])
      {
        assert calls[..k + 1][..k] == calls[..k];
        var reply := Perform(calls[k]);
        assert (replies + [reply])[..k] == replies;
        replies := replies + [reply];
      }
      assert calls[..|calls|] == calls;
    }
  }

  method TwoQueued() returns (q: CaptureQueue)
    ensures fresh(q) && q.vp9 && q.Valid() && q.pending.Vacant? && q.list == [0, 1] && |q.bufs| == 2
    ensures q.Conserved() && q.taken == multiset{0, 1} && q.twice == multiset{}
    ensures q.returned == [] && !q.lastDequeued && q.Matches(0, 0) && q.bufs[1].offset == 0
  {
    hide CaptureQueue.Placed, FrameIn, Flushed, Even;
    q := new CaptureQueue(true, 2);
    var _ := q.Queue(0, 0, false, false, true, true);
    var _ := q.Queue(1, 0, false, false, true, true);
  }

  /**
   A stream-off of two queued buffers; a frame of the first completes during the wait and is held.  Both buffers
   go back to the client, and the first one stays in the slot.
   */
  method HeldDuringStop() returns (q: CaptureQueue)
    ensures fresh(q) && q.vp9 && q.Sound() && q.pending == Holding(0) && q.list == [] && |q.bufs| == 2
    ensures q.Conserved() && q.taken == multiset{0, 1} && q.twice == multiset{}
    ensures q.Held() == [Frame(0, 1, 5, false, false)]
  {
    hide CaptureQueue.Placed, FrameIn, Indices;
    q := TwoQueued();
    q.BeginStop();
    var _ := q.FillDone(Completion(0, 0, 1, 5, false, false, true));
    q.ReturnAll();
  }

  /** After such a stream-off, the first frame that arrives in another buffer is a failure. */
  method StaleSlotFailsNextFrame() returns (listed: seq<nat>, r: Result)
    ensures listed == [1] && r == Failed
  {
    hide CaptureQueue.Conserved, CaptureQueue.Placed, Indices;
    var q := HeldDuringStop();
    var offset := q.bufs[1].offset;
    var _ := q.Queue(1, 0, false, false, true, true);
    listed := q.list;
    r := q.FillDone(Completion(1, offset, 1, 7, false, false, true));
  }
}
