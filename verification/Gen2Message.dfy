/**
 HFI Gen2 messages: a header of eight words and packets of eight words and a payload, one behind the other.
 The host appends packets; the reader first checks that all of them lie inside its buffer and then walks them.
 */
module Gen2Message {
  import opened Bytes

  const HEADER_SIZE: nat := 32
  const PACKET_SIZE: nat := 32
  const BUFFER_SIZE: nat := 4096

  type Word = w: int | 0 <= w < U32_LIMIT

  datatype Packet = Packet(kind: Word, flags: Word, payloadInfo: Word, port: Word, id: Word, payload: seq<Byte>) {
    function Size(): nat {
      PACKET_SIZE + |payload|
    }
  }

  datatype Header = Header(size: Word, session: Word, id: Word, packets: Word)

  function Words(ws: seq<Word>): (s: seq<Byte>)
    ensures |s| == 4 * |ws|
  {
    if ws == [] then [] else PutWord(ws[0]) + Words(ws[1..])
  }

  lemma {:induction false} WordAt(ws: seq<Word>, k: nat, rest: seq<Byte>)
    requires k < |ws|
    ensures GetWord(Words(ws) + rest, 4 * k) == ws[k]
  {
    var all := Words(ws) + rest;
    if k == 0 {
      assert all[0..4] == PutWord(ws[0]);
      GetWordOfSlice(all, 0, 4, 0);
    } else {
      WordAt(ws[1..], k - 1, rest);
      assert all[4..] == Words(ws[1..]) + rest;
      GetWordOfSlice(all, 4, |all|, 4 * (k - 1));
    }
  }

  lemma EightWords(ws: seq<Word>, rest: seq<Byte>)
    requires |ws| == 8
    ensures var s := Words(ws) + rest;
            && GetWord(s, 0) == ws[0] && GetWord(s, 4) == ws[1] && GetWord(s, 8) == ws[2] && GetWord(s, 12) == ws[3]
            && GetWord(s, 16) == ws[4] && GetWord(s, 20) == ws[5] && GetWord(s, 24) == ws[6] && GetWord(s, 28) == ws[7]
  {
    WordAt(ws, 0, rest);
    WordAt(ws, 1, rest);
    WordAt(ws, 2, rest);
    WordAt(ws, 3, rest);
    WordAt(ws, 4, rest);
    WordAt(ws, 5, rest);
    WordAt(ws, 6, rest);
    WordAt(ws, 7, rest);
  }

  function Fields(p: Packet): seq<Word>
    requires p.Size() < U32_LIMIT
  {
    [p.Size(), p.kind, p.flags, p.payloadInfo, p.port, p.id, 0, 0]
  }

  predicate Small(p: Packet) {
    p.Size() <= BUFFER_SIZE
  }

  function Encode(p: Packet): (s: seq<Byte>)
    requires Small(p)
    ensures |s| == p.Size()
  {
    Words(Fields(p)) + p.payload
  }

  function Decode(s: seq<Byte>): Packet
    requires |s| >= PACKET_SIZE
  {
    Packet(GetWord(s, 4), GetWord(s, 8), GetWord(s, 12), GetWord(s, 16), GetWord(s, 20), s[PACKET_SIZE..])
  }

  lemma DecodeEncode(p: Packet)
    requires Small(p)
    ensures Decode(Encode(p)) == p && GetWord(Encode(p), 0) == p.Size()
  {
    EightWords(Fields(p), p.payload);
  }

  /** Where each field of a packet stands, and that nothing else stands in front of its payload. */
  lemma PacketLayout(p: Packet)
    requires Small(p)
    ensures var s := Encode(p);
            && GetWord(s, 0) == p.Size() && GetWord(s, 4) == p.kind && GetWord(s, 8) == p.flags
            && GetWord(s, 12) == p.payloadInfo && GetWord(s, 16) == p.port && GetWord(s, 20) == p.id
            && GetWord(s, 24) == GetWord(s, 28) == 0 && s[32..] == p.payload
  {
    EightWords(Fields(p), p.payload);
  }

  predicate AllSmall(ps: seq<Packet>) {
    forall k | 0 <= k < |ps| :: Small(ps[k])
  }

  function Body(ps: seq<Packet>): seq<Byte>
    requires AllSmall(ps)
  {
    if ps == [] then [] else Encode(ps[0]) + Body(ps[1..])
  }

  lemma {:induction false} BodySnoc(ps: seq<Packet>, p: Packet)
    requires AllSmall(ps) && Small(p)
    ensures AllSmall(ps + [p]) && Body(ps + [p]) == Body(ps) + Encode(p)
  {
    if ps == [] {
      assert [p][1..] == [];
    } else {
      var first, rest, last := Encode(ps[0]), Body(ps[1..]), Encode(p);
      assert (ps + [p])[1..] == ps[1..] + [p];
      BodySnoc(ps[1..], p);
      assert first + rest + last == first + (rest + last);
    }
  }

  lemma {:induction false} BodyIsLong(ps: seq<Packet>)
    requires AllSmall(ps)
    ensures |Body(ps)| >= 32 * |ps|
  {
    if ps != [] {
      BodyIsLong(ps[1..]);
    }
  }

  // Building.

  class Builder {
    var size: nat
    var session: Word
    var headerId: Word
    var numPackets: nat
    /** Where packets go: the memory behind the header. */
    const area: array<Byte>

    ghost predicate Built(ps: seq<Packet>)
      reads this, area
    {
      && AllSmall(ps) && numPackets == |ps| && size == HEADER_SIZE + |Body(ps)|
      && size <= HEADER_SIZE + area.Length
      && area[..size - HEADER_SIZE] == Body(ps)
    }

    constructor (room: nat, session: Word, id: Word)
      ensures fresh(area) && area.Length == room
      ensures this.session == session && headerId == id && Built([])
    {
      size, this.session, headerId, numPackets := HEADER_SIZE, session, id, 0;
      area := new Byte[room];
    }

    /** Copies bytes into the area, leaving what lies in front of them alone. */
    method Store(at: nat, bytes: seq<Byte>)
      requires at + |bytes| <= area.Length
      modifies area
      ensures area[..at + |bytes|] == old(area[..at]) + bytes
    {
      for k := 0 to |bytes|
        invariant area[..at + k] == old(area[..at]) + bytes[..k]
      {
        area[at + k] := bytes[k];
        assert area[..at + k + 1] == area[..at + k] + [bytes[k]];
      }
    }

    /** Appends a packet behind the last one. */
    method CreatePacket(p: Packet, ghost ps: seq<Packet>)
      requires Built(ps) && size + p.Size() <= HEADER_SIZE + area.Length && size + p.Size() <= BUFFER_SIZE
      modifies this`size, this`numPackets, area
      ensures Built(ps + [p]) && size == old(size) + p.Size()
    {
      var at := size - HEADER_SIZE;
      var fields := Words(Fields(p));
      Store(at, fields);
      Store(at + |fields|, p.payload);
      AppendedIsBody(ps, p);
      numPackets := numPackets + 1;
      size := size + p.Size();
    }
  }

  lemma AppendedIsBody(ps: seq<Packet>, p: Packet)
    requires AllSmall(ps) && Small(p)
    ensures AllSmall(ps + [p]) && Body(ps) + Words(Fields(p)) + p.payload == Body(ps + [p])
  {
    BodySnoc(ps, p);
    assert Body(ps) + Words(Fields(p)) + p.payload == Body(ps) + Encode(p);
  }

  // Checking and walking.  `mem` is the reader's buffer together with whatever memory lies behind it.

  predicate Readable(mem: seq<Byte>) {
    |mem| >= BUFFER_SIZE + 4
  }

  /** Do `n` packets from `at` on lie inside the buffer, going by their own sizes? */
  predicate Inside(mem: seq<Byte>, at: nat, n: nat)
    requires Readable(mem) && at <= BUFFER_SIZE
    decreases n
  {
    n == 0 ||
    var size := GetWord(mem, at);
    size >= PACKET_SIZE && at + size <= BUFFER_SIZE && Inside(mem, at + size, n - 1)
  }

  function Walk(mem: seq<Byte>, at: nat, n: nat): seq<Packet>
    requires Readable(mem) && at <= BUFFER_SIZE && Inside(mem, at, n)
    decreases n
  {
    if n == 0 then []
    else
      var size := GetWord(mem, at);
      [Decode(mem[at..at + size])] + Walk(mem, at + size, n - 1)
  }

  /** Where each packet starts. */
  function Starts(mem: seq<Byte>, at: nat, n: nat): (r: seq<nat>)
    requires Readable(mem) && at <= BUFFER_SIZE && Inside(mem, at, n)
    ensures |r| == n
    decreases n
  {
    if n == 0 then [] else [at] + Starts(mem, at + GetWord(mem, at), n - 1)
  }

  predicate Accepted(mem: seq<Byte>, h: Header)
    requires Readable(mem)
  {
    h.size >= HEADER_SIZE + PACKET_SIZE && Inside(mem, HEADER_SIZE, h.packets)
  }

  method ValidateHeader(mem: seq<Byte>, h: Header) returns (ok: bool)
    requires Readable(mem)
    ensures ok == Accepted(mem, h)
  {
    if h.size < HEADER_SIZE + PACKET_SIZE {
      return false;
    }
    var at := HEADER_SIZE;
    for i := 0 to h.packets
      invariant 0 <= at <= BUFFER_SIZE
      invariant Inside(mem, HEADER_SIZE, h.packets) == Inside(mem, at, h.packets - i)
    {
      var size := GetWord(mem, at);
      if size == 0 || size < PACKET_SIZE || at + size > BUFFER_SIZE {
        return false;
      }
      at := at + size;
    }
    return true;
  }

  predicate StandsAt(mem: seq<Byte>, at: nat, p: Packet)
    requires Small(p)
  {
    at + p.Size() <= |mem| && mem[at..at + p.Size()] == Encode(p)
  }

  /** The packets stand in memory one behind the other, from `at` on. */
  predicate Laid(mem: seq<Byte>, at: nat, ps: seq<Packet>)
    requires AllSmall(ps)
    decreases |ps|
  {
    ps == [] || (StandsAt(mem, at, ps[0]) && Laid(mem, at + ps[0].Size(), ps[1..]))
  }

  lemma Splice(front: seq<Byte>, middle: seq<Byte>, tail: seq<Byte>)
    ensures var mem := front + (middle + tail);
            mem == (front + middle) + tail && mem[|front|..|front| + |middle|] == middle
  {
  }

  lemma {:induction false} BodyIsLaid(mem: seq<Byte>, front: seq<Byte>, ps: seq<Packet>, behind: seq<Byte>)
    requires AllSmall(ps) && mem == front + (Body(ps) + behind)
    ensures Laid(mem, |front|, ps)
    decreases |ps|
  {
    if ps != [] {
      var first, rest := Encode(ps[0]), Body(ps[1..]);
      Splice(first, rest, behind);
      Splice(front, first, rest + behind);
      BodyIsLaid(mem, front + first, ps[1..], behind);
    }
  }

  lemma ReadsAs(mem: seq<Byte>, at: nat, p: Packet)
    requires Readable(mem) && Small(p) && StandsAt(mem, at, p)
    ensures GetWord(mem, at) == p.Size() && Decode(mem[at..at + p.Size()]) == p
  {
    DecodeEncode(p);
    GetWordOfSlice(mem, at, at + p.Size(), 0);
  }

  lemma WalkStep(mem: seq<Byte>, at: nat, p: Packet, n: nat)
    requires Readable(mem) && Small(p) && at + p.Size() <= BUFFER_SIZE && StandsAt(mem, at, p)
    requires Inside(mem, at + p.Size(), n)
    ensures Inside(mem, at, n + 1) && Walk(mem, at, n + 1) == [p] + Walk(mem, at + p.Size(), n)
  {
    ReadsAs(mem, at, p);
    assert Inside(mem, at, n + 1);
  }

  /** Where packets stand one behind the other, the walk finds exactly them. */
  lemma {:induction false} WalkFindsLaid(mem: seq<Byte>, at: nat, ps: seq<Packet>)
    requires AllSmall(ps) && Readable(mem) && Laid(mem, at, ps) && at + |Body(ps)| <= BUFFER_SIZE
    ensures Inside(mem, at, |ps|) && Walk(mem, at, |ps|) == ps
    decreases |ps|
  {
    if ps != [] {
      var p, rest := ps[0], ps[1..];
      WalkFindsLaid(mem, at + p.Size(), rest);
      WalkStep(mem, at, p, |rest|);
    }
  }

  function HeaderWords(h: Header): seq<Word> {
    [h.size, h.session, h.id, 0, 0, 0, 0, h.packets]
  }

  /** The same for the header; the words between the type and the number of packets are zero. */
  lemma HeaderLayout(h: Header)
    ensures var s := Words(HeaderWords(h));
            && |s| == HEADER_SIZE
            && GetWord(s, 0) == h.size && GetWord(s, 4) == h.session && GetWord(s, 8) == h.id
            && GetWord(s, 12) == GetWord(s, 16) == GetWord(s, 20) == GetWord(s, 24) == 0 && GetWord(s, 28) == h.packets
  {
    assert Words(HeaderWords(h)) + [] == Words(HeaderWords(h));
    EightWords(HeaderWords(h), []);
  }

  function DecodeHeader(mem: seq<Byte>): Header
    requires Readable(mem)
  {
    Header(GetWord(mem, 0), GetWord(mem, 4), GetWord(mem, 8), GetWord(mem, 28))
  }

  function HeaderOf(session: Word, id: Word, ps: seq<Packet>): Header
    requires AllSmall(ps) && HEADER_SIZE + |Body(ps)| <= BUFFER_SIZE
  {
    BodyIsLong(ps);
    Header(HEADER_SIZE + |Body(ps)|, session, id, |ps|)
  }

  /**
   Build and read back: a message that fits the buffer is accepted, unless it has no packet at all, and
   yields its header and exactly its packets, whatever lies behind it.
   */
  lemma ParseUndoesBuild(session: Word, id: Word, ps: seq<Packet>, behind: seq<Byte>)
    requires AllSmall(ps) && HEADER_SIZE + |Body(ps)| <= BUFFER_SIZE
    requires HEADER_SIZE + |Body(ps)| + |behind| >= BUFFER_SIZE + 4
    ensures var h := HeaderOf(session, id, ps);
            var mem := Words(HeaderWords(h)) + Body(ps) + behind;
            && DecodeHeader(mem) == h
            && (Accepted(mem, h) <==> ps != [])
            && Inside(mem, HEADER_SIZE, |ps|) && Walk(mem, HEADER_SIZE, |ps|) == ps
  {
    var h := HeaderOf(session, id, ps);
    var ws := HeaderWords(h);
    var mem := Words(ws) + Body(ps) + behind;
    BodyIsLong(ps);
    assert mem == Words(ws) + (Body(ps) + behind);
    HeaderReadsBack(h, Body(ps) + behind);
    BodyIsLaid(mem, Words(ws), ps, behind);
    WalkFindsLaid(mem, HEADER_SIZE, ps);
  }

  lemma HeaderReadsBack(h: Header, rest: seq<Byte>)
    requires |rest| >= BUFFER_SIZE + 4 - HEADER_SIZE
    ensures DecodeHeader(Words(HeaderWords(h)) + rest) == h
  {
    EightWords(HeaderWords(h), rest);
  }

  /** A packet that starts at `at` lies inside the buffer, header and payload. */
  predicate Whole(mem: seq<Byte>, at: nat)
    requires Readable(mem)
  {
    at + PACKET_SIZE <= BUFFER_SIZE && PACKET_SIZE <= GetWord(mem, at) <= BUFFER_SIZE - at
  }

  /** Every packet of an accepted message lies inside the buffer. */
  lemma {:induction false} AcceptedLiesInside(mem: seq<Byte>, at: nat, n: nat, k: nat)
    requires Readable(mem) && at <= BUFFER_SIZE && Inside(mem, at, n) && k < n
    ensures var start := Starts(mem, at, n)[k];
            at + 32 * k <= start && Whole(mem, start)
    decreases k
  {
    var next := at + GetWord(mem, at);
    assert Whole(mem, at);
    assert Starts(mem, at, n) == [at] + Starts(mem, next, n - 1);
    if k == 0 {
      assert Starts(mem, at, n)[0] == at;
    } else {
      AcceptedLiesInside(mem, next, n - 1, k - 1);
      assert Starts(mem, at, n)[k] == Starts(mem, next, n - 1)[k - 1];
    }
  }

  /** The walk goes from each packet to the next by at least 32 bytes. */
  lemma {:induction false} WalkAdvances(mem: seq<Byte>, at: nat, n: nat, k: nat)
    requires Readable(mem) && at <= BUFFER_SIZE && Inside(mem, at, n) && k + 1 < n
    ensures Starts(mem, at, n)[k] + PACKET_SIZE <= Starts(mem, at, n)[k + 1]
    decreases k
  {
    if k > 0 {
      WalkAdvances(mem, at + GetWord(mem, at), n - 1, k - 1);
    }
  }

  /** A buffer of 4096 bytes cannot make the reader walk more than 127 packets. */
  lemma WalkIsShort(mem: seq<Byte>, h: Header)
    requires Readable(mem) && Accepted(mem, h)
    ensures h.packets <= 127
  {
    if h.packets > 0 {
      AcceptedLiesInside(mem, HEADER_SIZE, h.packets, h.packets - 1);
    }
  }

  /** The check may look at up to four bytes behind the buffer, but they never decide it. */
  lemma {:induction false} BytesBehindDoNotMatter(buffer: seq<Byte>, x: seq<Byte>, y: seq<Byte>, at: nat, n: nat)
    requires |buffer| == BUFFER_SIZE && |x| >= 4 && |y| >= 4 && at <= BUFFER_SIZE
    ensures Inside(buffer + x, at, n) == Inside(buffer + y, at, n)
    decreases n
  {
    if n > 0 && at + 4 <= BUFFER_SIZE {
      GetWordOfPrefix(buffer, x, at);
      GetWordOfPrefix(buffer, y, at);
      var size := GetWord(buffer, at);
      if size >= PACKET_SIZE && at + size <= BUFFER_SIZE {
        BytesBehindDoNotMatter(buffer, x, y, at + size, n - 1);
      }
    }
  }
}
