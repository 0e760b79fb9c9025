/**
 The ring that host and firmware share for one direction of HFI traffic.  Packets are variable
 in size, the first word of a packet is its size in bytes, and the indices count words.
 */
module HfiQueue {
  import opened Bytes

  const IFACEQ_QUEUE_SIZE: nat := 1024 * 50 * 16
  const IFACEQ_CORE_PKT_SIZE: nat := 4096

  datatype Status = Success | NoSpace | Invalid | NoData | BadMessage

  /** A packet that says its own size, in whole words. */
  predicate WellFormed(p: seq<Byte>) {
    |p| >= 4 && |p| % 4 == 0 && GetWord(p, 0) == |p|
  }

  predicate AllWellFormed(ps: seq<seq<Byte>>) {
    forall i | 0 <= i < |ps| :: WellFormed(ps[i])
  }

  function Flatten(ps: seq<seq<Byte>>): seq<Byte> {
    if ps == [] then [] else ps[0] + Flatten(ps[1..])
  }

  lemma {:induction false} FlattenAppend(ps: seq<seq<Byte>>, p: seq<Byte>)
    ensures Flatten(ps + [p]) == Flatten(ps) + p
  {
    if ps == [] {
      assert [p][1..] == [];
    } else {
      assert (ps + [p])[1..] == ps[1..] + [p];
      FlattenAppend(ps[1..], p);
    }
  }

  /** The bytes of a ring determine the packets in it: two well-formed packet lists with the same bytes are equal. */
  lemma {:induction false} UniqueParse(ps: seq<seq<Byte>>, qs: seq<seq<Byte>>)
    requires AllWellFormed(ps) && AllWellFormed(qs)
    requires Flatten(ps) == Flatten(qs)
    ensures ps == qs
  {
    if ps != [] && qs != [] {
      var bytes := Flatten(ps);
      GetWordOfPrefix(ps[0], Flatten(ps[1..]), 0);
      GetWordOfPrefix(qs[0], Flatten(qs[1..]), 0);
      assert ps[0] == bytes[..|ps[0]|] && qs[0] == bytes[..|qs[0]|];
      assert Flatten(ps[1..]) == bytes[|ps[0]|..] && Flatten(qs[1..]) == bytes[|qs[0]|..];
      UniqueParse(ps[1..], qs[1..]);
    }
  }

  /** How many bytes lie between byte `r` and byte `w` of a ring. */
  function Used(size: nat, r: nat, w: nat): (n: nat)
    requires r < size && w < size
    ensures n < size
  {
    if r <= w then w - r else size - r + w
  }

  /** The byte that is `n` bytes after byte `at` of a ring. */
  function Advance(size: nat, at: nat, n: nat): (end: nat)
    requires at < size && n <= size
    ensures end < size
  {
    if at + n < size then at + n else at + n - size
  }

  /** The bytes of ring contents `d` from byte `r` up to byte `w`, going round. */
  function Between(d: seq<Byte>, r: nat, w: nat): (s: seq<Byte>)
    requires r < |d| && w < |d|
    ensures |s| == Used(|d|, r, w)
  {
    seq(Used(|d|, r, w), i requires 0 <= i < Used(|d|, r, w) => d[Advance(|d|, r, i)])
  }

  /** `d'` is ring contents `d` with `p` laid down from byte `at`, going round. */
  predicate Stored(d: seq<Byte>, d': seq<Byte>, at: nat, p: seq<Byte>)
    requires at < |d|
  {
    && |d'| == |d|
    && forall k | 0 <= k < |d| ::
         d'[k] == if Used(|d|, at, k) < |p| then p[Used(|d|, at, k)] else d[k]
  }

  /** A write below the room left appends the packet and leaves every unread byte as it was. */
  lemma StoreExtends(d: seq<Byte>, d': seq<Byte>, r: nat, w: nat, p: seq<Byte>)
    requires r < |d| && w < |d| && Used(|d|, r, w) + |p| < |d|
    requires Stored(d, d', w, p)
    ensures Between(d', r, Advance(|d|, w, |p|)) == Between(d, r, w) + p
  {
    var w' := Advance(|d|, w, |p|);
    var used := Used(|d|, r, w);
    assert Used(|d|, r, w') == used + |p|;
    forall i | 0 <= i < used + |p|
      ensures Between(d', r, w')[i] == (Between(d, r, w) + p)[i]
    {
      var k := Advance(|d|, r, i);
      assert Used(|d|, w, k) == if i < used then |d| - used + i else i - used;
    }
  }

  lemma StoreEffect(d: seq<Byte>, d': seq<Byte>, r: nat, w: nat, p: seq<Byte>)
    requires w < |d| && |p| <= |d|
    requires Stored(d, d', w, p)
    ensures r < |d| ==>
              var used := Used(|d|, r, w);
              var w' := Advance(|d|, w, |p|);
              && (used + |p| == |d| ==> w' == r)
              && (used + |p| < |d| ==> Between(d', r, w') == Between(d, r, w) + p)
  {
    if r < |d| && Used(|d|, r, w) + |p| < |d| {
      StoreExtends(d, d', r, w, p);
    }
  }

  lemma ReadSplits(d: seq<Byte>, r: nat, w: nat, n: nat)
    requires r < |d| && w < |d| && n <= Used(|d|, r, w)
    ensures Between(d, r, Advance(|d|, r, n)) == Between(d, r, w)[..n]
    ensures Between(d, Advance(|d|, r, n), w) == Between(d, r, w)[n..]
  {
    var r' := Advance(|d|, r, n);
    assert Used(|d|, r, r') == n && Used(|d|, r', w) == Used(|d|, r, w) - n;
    forall i | 0 <= i < Used(|d|, r', w)
      ensures Between(d, r', w)[i] == Between(d, r, w)[n..][i]
    {
      assert Advance(|d|, r', i) == Advance(|d|, r, n + i);
    }
  }

  /** Bytes copied out from byte `r` on are the first unread ones. */
  lemma CopiedIsFront(d: seq<Byte>, r: nat, w: nat, p: seq<Byte>)
    requires r < |d| && w < |d| && |p| <= Used(|d|, r, w)
    requires forall i | 0 <= i < |p| :: p[i] == d[Advance(|d|, r, i)]
    ensures p == Between(d, r, w)[..|p|]
  {
  }

  lemma HeadWord(d: seq<Byte>, readIdx: nat, writeIdx: nat)
    requires |d| % 4 == 0 && 4 * readIdx < |d| && 4 * writeIdx < |d| && readIdx != writeIdx
    ensures |Between(d, 4 * readIdx, 4 * writeIdx)| >= 4
    ensures GetWord(Between(d, 4 * readIdx, 4 * writeIdx), 0) == GetWord(d, 4 * readIdx)
  {
  }

  /** The unread bytes start with all of one packet. */
  predicate Whole(unread: seq<Byte>) {
    |unread| >= 4 && GetWord(unread, 0) % 4 == 0 && GetWord(unread, 0) <= |unread|
  }

  class IfaceQueue {
    const data: array<Byte>
    const isMessageQueue: bool
    var readIdx: nat
    var writeIdx: nat
    var rxReq: nat
    var txReq: nat

    /** What the code relies on whatever the firmware stored in the header. */
    ghost predicate Shaped()
      reads this
    {
      data.Length == IFACEQ_QUEUE_SIZE && readIdx < U32_LIMIT && writeIdx < U32_LIMIT
    }

    /** Both sides kept their index inside the ring. */
    ghost predicate InRing()
      reads this
    {
      Shaped() && 4 * readIdx < IFACEQ_QUEUE_SIZE && 4 * writeIdx < IFACEQ_QUEUE_SIZE
    }

    /** The bytes written and not yet read, oldest first. */
    ghost function Unread(): seq<Byte>
      requires InRing()
      reads this, data
    {
      Between(data[..], 4 * readIdx, 4 * writeIdx)
    }

    ghost function Room(): nat
      requires InRing()
      reads this
    {
      IFACEQ_QUEUE_SIZE - Used(IFACEQ_QUEUE_SIZE, 4 * readIdx, 4 * writeIdx)
    }

    /** What a reader leaves in the header: a message queue is to announce its next message, any other is not. */
    ghost predicate AsksToBeTold()
      reads this
    {
      rxReq == if isMessageQueue then 1 else 0
    }

    /** The ring holds exactly these packets, oldest first. */
    ghost predicate Holds(ps: seq<seq<Byte>>)
      reads this, data
    {
      InRing() && AllWellFormed(ps) && Unread() == Flatten(ps)
    }

    /** The front of `packet` is the `size` bytes of the ring from byte `at` on, going round. */
    ghost predicate CopiedOut(at: nat, size: nat, packet: array<Byte>)
      reads this, data, packet
    {
      at < data.Length && size <= data.Length && size <= packet.Length
      && forall i | 0 <= i < size :: packet[i] == data[Advance(data.Length, at, i)]
    }

    constructor (isMessageQueue: bool)
      ensures Holds([]) && fresh(data) && this.isMessageQueue == isMessageQueue
      ensures rxReq == 1 && txReq == 0
    {
      data := new Byte[IFACEQ_QUEUE_SIZE](_ => 0);
      this.isMessageQueue := isMessageQueue;
      readIdx, writeIdx := 0, 0;
      rxReq, txReq := 1, 0;
    }

    /** Copies `packet` in at byte `at`, in two pieces when it reaches the end of the ring. */
    method CopyIn(at: nat, packet: seq<Byte>, ghost reader: nat) returns (end: nat)
      requires data.Length == IFACEQ_QUEUE_SIZE
      requires at <= IFACEQ_QUEUE_SIZE && |packet| <= IFACEQ_QUEUE_SIZE
      modifies data
      ensures end < U32_LIMIT
      ensures at < IFACEQ_QUEUE_SIZE ==> end < IFACEQ_QUEUE_SIZE
      ensures at < IFACEQ_QUEUE_SIZE && at % 4 == 0 && |packet| % 4 == 0 ==> end / 4 * 4 == end
      ensures at < IFACEQ_QUEUE_SIZE && reader < IFACEQ_QUEUE_SIZE ==>
                var used := Used(IFACEQ_QUEUE_SIZE, reader, at);
                && (used + |packet| == IFACEQ_QUEUE_SIZE ==> end == reader)
                && (used + |packet| < IFACEQ_QUEUE_SIZE ==>
                      Between(data[..], reader, end) == old(Between(data[..], reader, at)) + packet)
    {
      var size := |packet|;
      end := at + size;
      if end < IFACEQ_QUEUE_SIZE {
        forall i | 0 <= i < size {
          data[at + i] := packet[i];
        }
      } else {
        var residue := end - IFACEQ_QUEUE_SIZE;
        forall i | 0 <= i < size - residue {
          data[at + i] := packet[i];
        }
        forall i | 0 <= i < residue {
          data[i] := packet[size - residue + i];
        }
        end := residue;
      }
      if at < IFACEQ_QUEUE_SIZE {
        StoreEffect(old(data[..]), data[..], reader, at, packet);
      }
    }

    /** Copies `size` bytes out from byte `at`, in two pieces when they reach the end of the ring. */
    method CopyOut(at: nat, size: nat, packet: array<Byte>) returns (end: nat)
      requires data.Length == IFACEQ_QUEUE_SIZE && packet != data
      requires at < IFACEQ_QUEUE_SIZE && size <= IFACEQ_CORE_PKT_SIZE <= packet.Length
      modifies packet
      ensures end == Advance(IFACEQ_QUEUE_SIZE, at, size)
      ensures at % 4 == 0 && size % 4 == 0 ==> end / 4 * 4 == end
      ensures CopiedOut(at, size, packet)
      ensures packet[size..] == old(packet[size..])
    {
      end := at + size;
      if end < IFACEQ_QUEUE_SIZE {
        forall i | 0 <= i < size {
          packet[i] := data[at + i];
        }
      } else {
        var residue := end - IFACEQ_QUEUE_SIZE;
        forall i | 0 <= i < size - residue {
          packet[i] := data[at + i];
        }
        forall i | 0 <= i < residue {
          packet[size - residue + i] := data[i];
        }
        end := residue;
      }
    }

    /**
     Appends one packet.  A ring in order grows by exactly the packet when the packet is strictly
     smaller than the room left.  A packet of exactly that size is accepted too, which makes both
     indices equal, and everything in the ring is lost to the reader.
     */
    method Write(packet: seq<Byte>) returns (status: Status)
      requires Shaped()
      requires |packet| < U32_LIMIT
      requires !InRing() ==> |packet| <= IFACEQ_QUEUE_SIZE
      modifies this`writeIdx, this`txReq, data
      ensures Shaped()
      ensures status.Success? || status.NoSpace? || status.Invalid?
      ensures !status.Success? ==> writeIdx == old(writeIdx) && data[..] == old(data[..])
      ensures txReq == if status.NoSpace? then old(txReq) else 0
      ensures old(InRing()) ==> (status.Success? <==> |packet| <= old(Room())) && !status.Invalid?
      ensures old(InRing()) && status.Success? ==> InRing()
      ensures old(InRing()) && |packet| % 4 == 0 && |packet| < old(Room()) ==>
                Unread() == old(Unread()) + packet
      ensures old(InRing()) && |packet| == old(Room()) ==> Unread() == []
    {
      var write := Wrap32(writeIdx * 4);
      var read := Wrap32(readIdx * 4);
      var size := |packet|;
      var emptySpace := if write < read then read - write
                        else Wrap32(IFACEQ_QUEUE_SIZE - (write - read));
      assert InRing() ==> emptySpace == Room();
      if emptySpace < size {
        return NoSpace;
      }
      txReq := 0;
      if write > IFACEQ_QUEUE_SIZE {
        return Invalid;
      }
      var newWrite := CopyIn(write, packet, read);
      writeIdx := newWrite / 4;
      return Success;
    }

    /**
     Takes the oldest packet into `packet`.  A size word above the response buffer makes the reader
     give up on everything unread; a size word of zero leaves the ring as it is.  After every other outcome
     the header says whether the next message is to be announced.
     */
    method Read(packet: array<Byte>) returns (status: Status)
      requires Shaped() && packet.Length >= IFACEQ_CORE_PKT_SIZE && packet != data
      modifies this`readIdx, this`rxReq, packet
      ensures Shaped()
      ensures old(InRing()) ==> InRing()
      ensures !status.Success? ==> packet[..] == old(packet[..])
      ensures status.NoData? || status.Invalid? ==> readIdx == old(readIdx)
      ensures status.Success? || status.BadMessage? || (old(InRing()) && status.NoData?) ==> AsksToBeTold()
      ensures status.NoData? ==>
                if old(Wrap32(4 * readIdx) == Wrap32(4 * writeIdx)) then AsksToBeTold() else rxReq == old(rxReq)
      ensures status.Invalid? ==> rxReq == old(rxReq)
      ensures old(InRing()) ==>
                && (status.NoData? <==> old(Unread()) == [])
                && (status.Invalid? <==> old(Unread()) != [] && GetWord(old(Unread()), 0) == 0)
                && (status.BadMessage? <==> old(Unread()) != [] && GetWord(old(Unread()), 0) > IFACEQ_CORE_PKT_SIZE)
                && !status.NoSpace?
      ensures old(InRing()) && status.BadMessage? ==> Unread() == []
      ensures old(InRing()) && status.Success? ==>
                var size := GetWord(data[..], 4 * old(readIdx));
                && readIdx == Advance(IFACEQ_QUEUE_SIZE, 4 * old(readIdx), size) / 4
                && CopiedOut(4 * old(readIdx), size, packet)
      ensures old(InRing()) && status.Success? && Whole(old(Unread())) ==>
                var size := GetWord(old(Unread()), 0);
                && packet[..size] == old(Unread())[..size]
                && packet[size..] == old(packet[size..])
                && Unread() == old(Unread())[size..]
    {
      var write := Wrap32(writeIdx * 4);
      var read := Wrap32(readIdx * 4);
      var receiveRequest := if isMessageQueue then 1 else 0;
      if read == write {
        rxReq := receiveRequest;
        return NoData;
      }
      if read > IFACEQ_QUEUE_SIZE - 4 {
        return NoData;
      }
      var size := GetWord(data[..], read);
      if InRing() {
        HeadWord(data[..], readIdx, writeIdx);
      }
      if size == 0 {
        return Invalid;
      }
      if size > IFACEQ_CORE_PKT_SIZE {
        rxReq := receiveRequest;
        readIdx := write / 4;
        return BadMessage;
      }
      Take(read, size, packet);
      rxReq := receiveRequest;
      return Success;
    }

    /** Copies the packet of `size` bytes at byte `read` out and moves the read index past it. */
    method Take(read: nat, size: nat, packet: array<Byte>)
      requires Shaped() && packet.Length >= IFACEQ_CORE_PKT_SIZE && packet != data
      requires read < IFACEQ_QUEUE_SIZE && size <= IFACEQ_CORE_PKT_SIZE
      modifies this`readIdx, packet
      ensures Shaped()
      ensures old(InRing()) ==> InRing()
      ensures readIdx == Advance(IFACEQ_QUEUE_SIZE, read, size) / 4 && CopiedOut(read, size, packet)
      ensures old(InRing()) && read == 4 * old(readIdx) && size % 4 == 0 && size <= |old(Unread())| ==>
                && packet[..size] == old(Unread())[..size]
                && packet[size..] == old(packet[size..])
                && Unread() == old(Unread())[size..]
    {
      var newRead := CopyOut(read, size, packet);
      readIdx := newRead / 4;
      if old(InRing()) && size <= Used(IFACEQ_QUEUE_SIZE, read, 4 * writeIdx) {
        ReadSplits(data[..], read, 4 * writeIdx, size);
        CopiedIsFront(data[..], read, 4 * writeIdx, packet[..size]);
      }
    }
  }
}
