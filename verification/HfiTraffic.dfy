/**
 Runs of the shared ring: any interleaving of writes and reads against an abstract queue of packets,
 and the loop with which the response handler empties the message queue.
 */
module HfiTraffic {
  import opened Bytes
  import opened HfiQueue
  import opened IrisState

  datatype Op = Put(packet: seq<Byte>) | Get

  datatype Outcome = Accepted | Refused | Empty | Delivered(packet: seq<Byte>) | Discarded

  datatype Fifo = Fifo(packets: seq<seq<Byte>>, log: seq<Outcome>)

  /** The abstract queue.  It differs from a plain bounded queue in one case: a packet that exactly fills it empties it. */
  function FifoStep(ps: seq<seq<Byte>>, op: Op): (seq<seq<Byte>>, Outcome) {
    match op
    case Put(p) =>
      var room := IFACEQ_QUEUE_SIZE - |Flatten(ps)|;
      if |p| > room then (ps, Refused)
      else if |p| == room then ([], Accepted)
      else (ps + [p], Accepted)
    case Get =>
      if ps == [] then (ps, Empty)
      else if |ps[0]| > IFACEQ_CORE_PKT_SIZE then ([], Discarded)
      else (ps[1..], Delivered(ps[0]))
  }

  function FifoRun(ps: seq<seq<Byte>>, ops: seq<Op>): Fifo
    decreases |ops|
  {
    if ops == [] then Fifo(ps, [])
    else
      var (next, outcome) := FifoStep(ps, ops[0]);
      var rest := FifoRun(next, ops[1..]);
      Fifo(rest.packets, [outcome] + rest.log)
  }

  lemma {:induction false} FifoRunSnoc(ps: seq<seq<Byte>>, ops: seq<Op>, op: Op)
    ensures var before := FifoRun(ps, ops);
            var (next, outcome) := FifoStep(before.packets, op);
            FifoRun(ps, ops + [op]) == Fifo(next, before.log + [outcome])
    decreases |ops|
  {
    if ops == [] {
      assert [op][1..] == [];
    } else {
      assert (ops + [op])[1..] == ops[1..] + [op];
      FifoRunSnoc(FifoStep(ps, ops[0]).0, ops[1..], op);
    }
  }

  predicate AllPutsWellFormed(ops: seq<Op>) {
    forall i | 0 <= i < |ops| && ops[i].Put? :: WellFormed(ops[i].packet) && |ops[i].packet| < U32_LIMIT
  }

  /** The ring refines the abstract queue on every interleaving of writes and reads, outcome by outcome. */
  method Exchange(queue: IfaceQueue, buffer: array<Byte>, ops: seq<Op>, ghost ps: seq<seq<Byte>>)
    returns (log: seq<Outcome>)
    requires queue.Holds(ps) && AllPutsWellFormed(ops)
    requires buffer.Length >= IFACEQ_CORE_PKT_SIZE && buffer != queue.data
    modifies queue, queue.data, buffer
    ensures log == FifoRun(ps, ops).log
    ensures queue.Holds(FifoRun(ps, ops).packets)
  {
    log := [];
    ghost var now := ps;
    assert ops[..0] == [];
    for n := 0 to |ops|
      invariant queue.Holds(now) && FifoRun(ps, ops[..n]) == Fifo(now, log)
    {
      assert ops[..n + 1] == ops[..n] + [ops[n]];
      FifoRunSnoc(ps, ops[..n], ops[n]);
      var outcome := ExchangeOne(queue, buffer, ops[n], now);
      log := log + [outcome];
      now := FifoStep(now, ops[n]).0;
    }
    assert ops[..|ops|] == ops;
  }

  method ExchangeOne(queue: IfaceQueue, buffer: array<Byte>, op: Op, ghost ps: seq<seq<Byte>>)
    returns (outcome: Outcome)
    requires queue.Holds(ps)
    requires op.Put? ==> WellFormed(op.packet) && |op.packet| < U32_LIMIT
    requires buffer.Length >= IFACEQ_CORE_PKT_SIZE && buffer != queue.data
    modifies queue, queue.data, buffer
    ensures outcome == FifoStep(ps, op).1 && queue.Holds(FifoStep(ps, op).0)
  {
    match op
    case Put(p) =>
      FlattenAppend(ps, p);
      var status := queue.Write(p);
      outcome := if status.Success? then Accepted else Refused;
    case Get =>
      HeadOfFlatten(ps);
      var status := queue.Read(buffer);
      match status {
        case Success => outcome := Delivered(buffer[..GetWord(buffer[..], 0)]);
        case BadMessage => outcome := Discarded;
        case _ => outcome := Empty;
      }
  }

  lemma HeadOfFlatten(ps: seq<seq<Byte>>)
    requires AllWellFormed(ps)
    ensures ps == [] ==> Flatten(ps) == []
    ensures ps != [] ==>
              && |Flatten(ps)| >= |ps[0]| == GetWord(Flatten(ps), 0)
              && Flatten(ps)[..|ps[0]|] == ps[0] && Flatten(ps)[|ps[0]|..] == Flatten(ps[1..])
              && AllWellFormed(ps[1..])
  {
    if ps != [] {
      GetWordOfPrefix(ps[0], Flatten(ps[1..]), 0);
    }
  }

  // Nothing is lost exactly as long as no write fills the ring to the last byte and no read meets an oversized packet.

  function PacketsIn(ops: seq<Op>, log: seq<Outcome>): seq<seq<Byte>>
    requires |ops| == |log|
  {
    if ops == [] then []
    else (if ops[0].Put? && log[0].Accepted? then [ops[0].packet] else []) + PacketsIn(ops[1..], log[1..])
  }

  function PacketsOut(log: seq<Outcome>): seq<seq<Byte>> {
    if log == [] then []
    else (if log[0].Delivered? then [log[0].packet] else []) + PacketsOut(log[1..])
  }

  predicate Fits(p: seq<Byte>) {
    |p| <= IFACEQ_CORE_PKT_SIZE
  }

  /** Some write of the run is as large as the room it finds, or some read meets a packet that is too big. */
  predicate Loses(ps: seq<seq<Byte>>, ops: seq<Op>)
    decreases |ops|
  {
    ops != [] &&
    ((ops[0].Put? && |Flatten(ps)| + |ops[0].packet| == IFACEQ_QUEUE_SIZE)
     || (ops[0].Get? && ps != [] && !Fits(ps[0]))
     || Loses(FifoStep(ps, ops[0]).0, ops[1..]))
  }

  lemma {:induction false} RunLength(ps: seq<seq<Byte>>, ops: seq<Op>)
    ensures |FifoRun(ps, ops).log| == |ops|
    decreases |ops|
  {
    if ops != [] {
      RunLength(FifoStep(ps, ops[0]).0, ops[1..]);
    }
  }

  /** Between any two points: what was there and what was accepted is what was delivered and what is left, in order. */
  lemma {:induction false} FirstInFirstOut(ps: seq<seq<Byte>>, ops: seq<Op>)
    ensures |FifoRun(ps, ops).log| == |ops|
    ensures var run := FifoRun(ps, ops);
            ps + PacketsIn(ops, run.log) == PacketsOut(run.log) + run.packets <==> !Loses(ps, ops)
  {
    RunLength(ps, ops);
    CountPackets(ps, ops);
    if !Loses(ps, ops) {
      NothingLost(ps, ops);
    }
  }

  lemma {:induction false} NothingLost(ps: seq<seq<Byte>>, ops: seq<Op>)
    requires !Loses(ps, ops)
    requires |FifoRun(ps, ops).log| == |ops|
    ensures var run := FifoRun(ps, ops);
            ps + PacketsIn(ops, run.log) == PacketsOut(run.log) + run.packets
    decreases |ops|
  {
    if ops != [] {
      var (next, outcome) := FifoStep(ps, ops[0]);
      var rest := FifoRun(next, ops[1..]);
      var run := FifoRun(ps, ops);
      assert run.log[1..] == rest.log;
      NothingLost(next, ops[1..]);
      match ops[0]
      case Put(p) =>
        if outcome.Accepted? {
          assert ps + PacketsIn(ops, run.log) == next + PacketsIn(ops[1..], rest.log);
        } else {
          assert next == ps && PacketsIn(ops, run.log) == PacketsIn(ops[1..], rest.log);
        }
        assert PacketsOut(run.log) == PacketsOut(rest.log);
      case Get =>
        if ps == [] {
          assert PacketsIn(ops, run.log) == PacketsIn(ops[1..], rest.log);
          assert PacketsOut(run.log) == PacketsOut(rest.log);
        } else {
          assert ps + PacketsIn(ops, run.log) == [ps[0]] + (next + PacketsIn(ops[1..], rest.log));
        }
    }
  }

  lemma {:induction false} CountPackets(ps: seq<seq<Byte>>, ops: seq<Op>)
    requires |FifoRun(ps, ops).log| == |ops|
    ensures var run := FifoRun(ps, ops);
            |ps| + |PacketsIn(ops, run.log)| >= |PacketsOut(run.log)| + |run.packets|
                                                + if Loses(ps, ops) then 1 else 0
    decreases |ops|
  {
    if ops != [] {
      var next := FifoStep(ps, ops[0]).0;
      assert FifoRun(ps, ops).log[1..] == FifoRun(next, ops[1..]).log;
      CountPackets(next, ops[1..]);
    }
  }

  // Emptying the message queue.

  /** Handling a packet can put the core into its error state, which stops the loop. */
  type Fatal = seq<Byte> -> bool

  /** The packets the loop hands to the response handler. */
  function Handled(ps: seq<seq<Byte>>, fatal: Fatal): seq<seq<Byte>> {
    if ps == [] || !Fits(ps[0]) then []
    else [ps[0]] + if fatal(ps[0]) then [] else Handled(ps[1..], fatal)
  }

  /** The packets the loop leaves in the ring. */
  function Left(ps: seq<seq<Byte>>, fatal: Fatal): seq<seq<Byte>> {
    if ps == [] || !Fits(ps[0]) then []
    else if fatal(ps[0]) then ps[1..]
    else Left(ps[1..], fatal)
  }

  /** Where the loop stops, and why: at the end, at a packet that is too big, or after a fatal one. */
  lemma {:induction false} WhereDrainStops(ps: seq<seq<Byte>>, fatal: Fatal)
    ensures var n := |Handled(ps, fatal)|;
            && n <= |ps| && Handled(ps, fatal) == ps[..n]
            && (forall i | 0 <= i < n :: Fits(ps[i]))
            && (forall i | 0 <= i < n - 1 :: !fatal(ps[i]))
            && if n > 0 && fatal(ps[n - 1]) then Left(ps, fatal) == ps[n..]
               else Left(ps, fatal) == [] && (n == |ps| || !Fits(ps[n]))
  {
    if ps != [] && Fits(ps[0]) && !fatal(ps[0]) {
      WhereDrainStops(ps[1..], fatal);
      assert forall i | 0 <= i < |ps[1..]| :: ps[1..][i] == ps[i + 1];
    }
  }

  /** `handled` has been handed over, and `now` is what the loop still has before it. */
  predicate Midway(ps: seq<seq<Byte>>, fatal: Fatal, handled: seq<seq<Byte>>, now: seq<seq<Byte>>) {
    Handled(ps, fatal) == handled + Handled(now, fatal) && Left(ps, fatal) == Left(now, fatal)
  }

  lemma HandleOne(ps: seq<seq<Byte>>, fatal: Fatal, handled: seq<seq<Byte>>, now: seq<seq<Byte>>)
    requires Midway(ps, fatal, handled, now) && now != [] && Fits(now[0])
    ensures if fatal(now[0]) then Handled(ps, fatal) == handled + [now[0]] && Left(ps, fatal) == now[1..]
            else Midway(ps, fatal, handled + [now[0]], now[1..])
  {
    assert handled + ([now[0]] + Handled(now[1..], fatal)) == handled + [now[0]] + Handled(now[1..], fatal);
  }

  lemma StartsMidway(ps: seq<seq<Byte>>, fatal: Fatal)
    ensures Midway(ps, fatal, [], ps)
  {
  }

  lemma NothingLeftToHandle(ps: seq<seq<Byte>>, fatal: Fatal, handled: seq<seq<Byte>>, now: seq<seq<Byte>>)
    requires Midway(ps, fatal, handled, now) && (now == [] || !Fits(now[0]))
    ensures handled == Handled(ps, fatal) && Left(ps, fatal) == []
  {
  }

  class ResponsePump {
    const queue: IfaceQueue
    const responsePacket: array<Byte>
    var state: CoreState

    ghost predicate Valid()
      reads this
    {
      queue.data != responsePacket && responsePacket.Length == IFACEQ_CORE_PKT_SIZE
    }

    constructor (queue: IfaceQueue, state: CoreState)
      ensures Valid() && this.queue == queue && this.state == state && fresh(responsePacket)
    {
      this.queue := queue;
      this.state := state;
      responsePacket := new Byte[IFACEQ_CORE_PKT_SIZE](_ => 0);
    }

    /** Reads one message, but only while the core runs. */
    method MsgRead(ghost ps: seq<seq<Byte>>) returns (status: Status)
      requires Valid() && queue.Holds(ps)
      modifies queue`readIdx, queue`rxReq, responsePacket
      ensures state != CoreInit ==> status.Invalid? && queue.Holds(ps) && queue.rxReq == old(queue.rxReq)
      ensures state == CoreInit ==>
                if ps == [] || !Fits(ps[0]) then status.NoData? && queue.Holds([])
                else status.Success? && responsePacket[..|ps[0]|] == ps[0] && queue.Holds(ps[1..])
      ensures state == CoreInit ==> queue.AsksToBeTold()
      ensures if status.Success? then responsePacket[|ps[0]|..] == old(responsePacket[|ps[0]|..])
              else responsePacket[..] == old(responsePacket[..])
    {
      if state != CoreInit {
        return Invalid;
      }
      HeadOfFlatten(ps);
      status := queue.Read(responsePacket);
      if !status.Success? {
        status := NoData;
      }
    }

    /** Clears the header left by the last message, then reads the next: what is shorter than a header ends in zeros. */
    method NextMessage(ghost ps: seq<seq<Byte>>) returns (status: Status)
      requires Valid() && queue.Holds(ps)
      modifies queue`readIdx, queue`rxReq, responsePacket
      ensures status.Success? ==>
                && state == CoreInit && ps != [] && WellFormed(ps[0]) && Fits(ps[0])
                && responsePacket[..|ps[0]|] == ps[0] && queue.Holds(ps[1..])
      ensures !status.Success? ==>
                if state == CoreInit then queue.Holds([]) && (ps == [] || !Fits(ps[0]))
                else queue.Holds(ps) && queue.rxReq == old(queue.rxReq)
      ensures state == CoreInit ==> queue.AsksToBeTold()
      ensures forall i | (if status.Success? then |ps[0]| else 0) <= i < 8 :: responsePacket[i] == 0
    {
      forall i | 0 <= i < 8 {
        responsePacket[i] := 0;
      }
      ghost var cleared := responsePacket[..];
      status := MsgRead(ps);
      ghost var kept := if status.Success? then |ps[0]| else 0;
      assert responsePacket[kept..] == cleared[kept..];
      assert forall i | kept <= i < 8 :: responsePacket[i] == cleared[kept..][i - kept];
    }

    /** Handles the message in the response buffer. */
    method HandleResponse(fatal: Fatal, ghost p: seq<Byte>) returns (packet: seq<Byte>)
      requires Valid() && WellFormed(p) && Fits(p) && responsePacket[..|p|] == p
      modifies this`state
      ensures packet == p
      ensures state == if fatal(p) then CoreError else old(state)
    {
      packet := responsePacket[..GetWord(responsePacket[..], 0)];
      if fatal(packet) {
        state := CoreError;
      }
    }

    /**
     Hands over every message until none is left or the core fails.  A core that still runs then has an empty queue,
     and the queue asks for its next message to be announced.
     */
    method ResponseHandler(fatal: Fatal, ghost ps: seq<seq<Byte>>) returns (handled: seq<seq<Byte>>)
      requires Valid() && queue.Holds(ps) && state == CoreInit
      modifies this`state, queue`readIdx, queue`rxReq, responsePacket
      ensures handled == Handled(ps, fatal)
      ensures queue.Holds(Left(ps, fatal))
      ensures state == if handled != [] && fatal(handled[|handled| - 1]) then CoreError else CoreInit
      ensures state == CoreInit ==> queue.Holds([])
      ensures queue.AsksToBeTold()
    {
      hide Midway, Handled, Left, WellFormed;
      handled := [];
      ghost var now := ps;
      StartsMidway(ps, fatal);
      var status := NextMessage(now);
      if !status.Success? {
        NothingLeftToHandle(ps, fatal, handled, now);
      }
      while status.Success?
        invariant Valid()
        invariant state == if handled != [] && fatal(handled[|handled| - 1]) then CoreError else CoreInit
        invariant queue.AsksToBeTold() && (!status.Success? && state == CoreInit ==> queue.Holds([]))
        invariant status.Success? ==>
                    && state == CoreInit && now != [] && WellFormed(now[0]) && Fits(now[0])
                    && responsePacket[..|now[0]|] == now[0] && queue.Holds(now[1..])
                    && Midway(ps, fatal, handled, now)
        invariant !status.Success? ==> handled == Handled(ps, fatal) && queue.Holds(Left(ps, fatal))
        decreases |now|
      {
        HandleOne(ps, fatal, handled, now);
        var packet := HandleResponse(fatal, now[0]);
        handled := handled + [packet];
        now := now[1..];
        status := NextMessage(now);
        if !status.Success? && state == CoreInit {
          NothingLeftToHandle(ps, fatal, handled, now);
        }
      }
    }
  }
}
