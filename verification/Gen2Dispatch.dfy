/**
 How the packets of one session message are handled: four passes over the message, each handling the packets
 of one range of types, so that errors come first and commands last.
 */
module Gen2Dispatch {
  import opened Gen2Message

  const HFI_CMD_BUFFER: nat := 0x01000009
  const HFI_CMD_SETTINGS_CHANGE: nat := 0x0100000C
  const HFI_PORT_BITSTREAM: nat := 0x1
  const SESSION_ERROR_BIT: nat := 0x4

  datatype Class = SessionError | Information | Property | Command

  const CLASSES: seq<Class> := [SessionError, Information, Property, Command]

  /** The types strictly between the two bounds belong to the class. */
  function Begin(c: Class): nat {
    match c
    case SessionError => 0x04000000
    case Information => 0x06000000
    case Property => 0x03000000
    case Command => 0x01000000
  }

  function End(c: Class): nat {
    Begin(c) + 0x00FFFFFF
  }

  predicate In(p: Packet, c: Class) {
    Begin(c) < p.kind < End(c)
  }

  predicate Flagged(p: Packet) {
    (p.flags / SESSION_ERROR_BIT) % 2 == 1
  }

  lemma FlagIsBitTwo(p: Packet)
    ensures Flagged(p) <==> p.flags % 8 >= 4
  {
  }

  /** What the handler does: positions are those of the packets in the message. */
  datatype Action = Reset(at: nat) | Complain(at: nat) | Handle(class_: Class, at: nat) | Dequeue

  // What is to happen, pass by pass.

  /** What one pass does about the packet at `j`. */
  function About(ps: seq<Packet>, c: Class, j: nat): seq<Action>
    requires j < |ps|
  {
    if Flagged(ps[j]) then (if In(ps[j], c) then [Complain(j), Handle(c, j)] else [Complain(j)])
    else if In(ps[j], c) then [Handle(c, j)]
    else []
  }

  function Pass(ps: seq<Packet>, c: Class, from: nat): seq<Action>
    requires from <= |ps|
    decreases |ps| - from
  {
    if from == |ps| then [] else About(ps, c, from) + Pass(ps, c, from + 1)
  }

  function Passes(ps: seq<Packet>, pass: nat): seq<Action>
    requires pass <= |CLASSES|
    decreases |CLASSES| - pass
  {
    if pass == |CLASSES| then [] else Pass(ps, CLASSES[pass], 0) + Passes(ps, pass + 1)
  }

  predicate ChangesSettings(p: Packet) {
    p.kind == HFI_CMD_SETTINGS_CHANGE && p.port == HFI_PORT_BITSTREAM
  }

  function ResetFor(ps: seq<Packet>, from: nat): seq<Action>
    requires from <= |ps|
    decreases |ps| - from
  {
    if from == |ps| then []
    else if ps[from].kind == HFI_CMD_SETTINGS_CHANGE && ps[from].port == HFI_PORT_BITSTREAM then [Reset(from)]
    else ResetFor(ps, from + 1)
  }

  predicate HasBuffer(ps: seq<Packet>, log: seq<Action>) {
    exists a | 0 <= a < |log| :: log[a].Handle? && log[a].at < |ps| && ps[log[a].at].kind == HFI_CMD_BUFFER
  }

  function Dispatch(ps: seq<Packet>): seq<Action> {
    ResetFor(ps, 0) + Passes(ps, 0) + (if HasBuffer(ps, Passes(ps, 0)) then [Dequeue] else [])
  }

  /** What the handler of a packet does: it may return a failure, or put the session in ERROR and return success. */
  datatype Effect = Effect(fails: bool, kills: bool)

  /** The session error handler always returns success. */
  predicate Returns(c: Class, e: Effect) {
    c != SessionError && e.fails
  }

  /** It also always puts the session in ERROR, and so does a complaint. */
  predicate Kills(action: Action, effects: seq<Effect>) {
    match action
    case Complain(_) => true
    case Handle(c, at) => c == SessionError || (at < |effects| && (effects[at].fails || effects[at].kills))
    case _ => false
  }

  /** The result of the last handler that ran. */
  function LastResult(log: seq<Action>, effects: seq<Effect>): bool {
    if log == [] then false
    else
      var n := |log| - 1;
      if log[n].Handle? && log[n].at < |effects| then Returns(log[n].class_, effects[log[n].at])
      else LastResult(log[..n], effects)
  }

  predicate SomeKills(log: seq<Action>, effects: seq<Effect>) {
    exists a | 0 <= a < |log| :: Kills(log[a], effects)
  }

  // The code: nested loops over the passes and the packets.

  /** What a message has led to so far: the actions, the last result, whether the session failed, and the dequeue flag. */
  datatype Outcome = Outcome(log: seq<Action>, ret: bool, failed: bool, dequeue: bool)

  /** `effects[j]` says what the handler of packet `j` does. */
  predicate Faithful(o: Outcome, ps: seq<Packet>, effects: seq<Effect>) {
    o.ret == LastResult(o.log, effects) && o.failed == SomeKills(o.log, effects) && o.dequeue == HasBuffer(ps, o.log)
  }

  method FindReset(ps: seq<Packet>) returns (log: seq<Action>)
    ensures log == ResetFor(ps, 0)
  {
    for i := 0 to |ps|
      invariant ResetFor(ps, i) == ResetFor(ps, 0)
    {
      if ps[i].kind == HFI_CMD_SETTINGS_CHANGE {
        if ps[i].port == HFI_PORT_BITSTREAM {
          return [Reset(i)];
        }
      }
    }
    return [];
  }

  /** What an action adds to the outcome. */
  function Also(o: Outcome, ps: seq<Packet>, effects: seq<Effect>, action: Action): Outcome
    requires |effects| == |ps| && (action.Handle? ==> action.at < |ps|)
  {
    Outcome(o.log + [action],
            if action.Handle? then Returns(action.class_, effects[action.at]) else o.ret,
            o.failed || Kills(action, effects),
            o.dequeue || (action.Handle? && ps[action.at].kind == HFI_CMD_BUFFER))
  }

  lemma ActionKeepsFaithful(o: Outcome, ps: seq<Packet>, effects: seq<Effect>, action: Action)
    requires Faithful(o, ps, effects) && |effects| == |ps| && (action.Handle? ==> action.at < |ps|)
    ensures Faithful(Also(o, ps, effects, action), ps, effects)
  {
    hide Kills;
    var log := o.log + [action];
    assert log[..|o.log|] == o.log && log[|o.log|] == action;
    assert forall a | 0 <= a < |o.log| :: log[a] == o.log[a];
    assert SomeKills(log, effects) == (SomeKills(o.log, effects) || Kills(action, effects));
    assert HasBuffer(ps, log) == (HasBuffer(ps, o.log) || (action.Handle? && ps[action.at].kind == HFI_CMD_BUFFER));
  }

  method HandlePacket(ps: seq<Packet>, c: Class, j: nat, effects: seq<Effect>, before: Outcome) returns (o: Outcome)
    requires |effects| == |ps| && j < |ps| && Faithful(before, ps, effects)
    ensures o.log == before.log + About(ps, c, j) && Faithful(o, ps, effects)
  {
    hide Faithful;
    o := before;
    if Flagged(ps[j]) {
      ActionKeepsFaithful(o, ps, effects, Complain(j));
      o := o.(log := o.log + [Complain(j)], failed := true);
    }
    if Begin(c) < ps[j].kind && ps[j].kind < End(c) {
      ActionKeepsFaithful(o, ps, effects, Handle(c, j));
      var ret, failed := effects[j].fails, o.failed || effects[j].fails || effects[j].kills;
      if c == SessionError {
        ret, failed := false, true;
      }
      o := Outcome(o.log + [Handle(c, j)], ret, failed, o.dequeue || ps[j].kind == HFI_CMD_BUFFER);
    }
  }

  lemma Associate(a: seq<Action>, b: seq<Action>, c: seq<Action>)
    ensures (a + b) + c == a + (b + c)
  {
  }

  method HandlePass(ps: seq<Packet>, c: Class, effects: seq<Effect>, before: Outcome) returns (o: Outcome)
    requires |effects| == |ps| && Faithful(before, ps, effects)
    ensures o.log == before.log + Pass(ps, c, 0) && Faithful(o, ps, effects)
  {
    hide Faithful, About;
    o := before;
    for j := 0 to |ps|
      invariant o.log + Pass(ps, c, j) == before.log + Pass(ps, c, 0)
      invariant Faithful(o, ps, effects)
    {
      Associate(o.log, About(ps, c, j), Pass(ps, c, j + 1));
      o := HandlePacket(ps, c, j, effects, o);
    }
  }

  /** The four passes, what the last handler of them returned, and whether any of them failed. */
  function ResponseTo(ps: seq<Packet>, effects: seq<Effect>): Outcome {
    var passes := Passes(ps, 0);
    Outcome(Dispatch(ps), LastResult(passes, effects), SomeKills(passes, effects), HasBuffer(ps, passes))
  }

  /** The response to one message: its actions, the result it reports, and whether the session failed. */
  method HandleSessionResponse(ps: seq<Packet>, effects: seq<Effect>) returns (o: Outcome)
    requires |effects| == |ps|
    ensures o == ResponseTo(ps, effects)
  {
    var reset := FindReset(ps);
    o := Outcome([], false, false, false);
    for i := 0 to |CLASSES|
      invariant o.log + Passes(ps, i) == Passes(ps, 0)
      invariant Faithful(o, ps, effects)
    {
      Associate(o.log, Pass(ps, CLASSES[i], 0), Passes(ps, i + 1));
      o := HandlePass(ps, CLASSES[i], effects, o);
    }
    assert o.log == Passes(ps, 0);
    o := o.(log := reset + o.log + (if o.dequeue then [Dequeue] else []));
  }

  // Every packet in a range is handled once, in its own class; a flagged one is complained of in every pass.

  function Count(log: seq<Action>, x: Action): nat {
    if log == [] then 0 else (if log[0] == x then 1 else 0) + Count(log[1..], x)
  }

  lemma {:induction false} CountAppend(a: seq<Action>, b: seq<Action>, x: Action)
    ensures Count(a + b, x) == Count(a, x) + Count(b, x)
  {
    if a == [] {
      assert a + b == b;
    } else {
      assert (a + b)[1..] == a[1..] + b;
      CountAppend(a[1..], b, x);
    }
  }

  lemma {:induction false} CountZero(log: seq<Action>, x: Action)
    ensures Count(log, x) == 0 <==> x !in log
  {
    if log != [] {
      CountZero(log[1..], x);
      assert x in log <==> x == log[0] || x in log[1..];
    }
  }

  lemma AboutCounts(ps: seq<Packet>, c: Class, from: nat, x: Action)
    requires from < |ps|
    ensures x.Handle? ==> Count(About(ps, c, from), x) == if x == Handle(c, from) && In(ps[from], c) then 1 else 0
    ensures x.Complain? ==> Count(About(ps, c, from), x) == if x.at == from && Flagged(ps[from]) then 1 else 0
  {
    var one, two := Complain(from), Handle(c, from);
    assert [one, two][1..] == [two] && [one][1..] == [] && [two][1..] == [];
    assert Count([two], x) == if two == x then 1 else 0;
    assert Count([one], x) == if one == x then 1 else 0;
    assert Count([one, two], x) == (if one == x then 1 else 0) + Count([two], x);
  }

  lemma {:induction false} PassCounts(ps: seq<Packet>, c: Class, from: nat, j: nat, d: Class)
    requires from <= |ps| && j < |ps|
    ensures Count(Pass(ps, c, from), Handle(d, j)) == if c == d && from <= j && In(ps[j], c) then 1 else 0
    ensures Count(Pass(ps, c, from), Complain(j)) == if from <= j && Flagged(ps[j]) then 1 else 0
    decreases |ps| - from
  {
    if from < |ps| {
      PassCounts(ps, c, from + 1, j, d);
      AboutCounts(ps, c, from, Handle(d, j));
      AboutCounts(ps, c, from, Complain(j));
      CountAppend(About(ps, c, from), Pass(ps, c, from + 1), Handle(d, j));
      CountAppend(About(ps, c, from), Pass(ps, c, from + 1), Complain(j));
    }
  }

  function Rank(c: Class): nat {
    match c
    case SessionError => 0
    case Information => 1
    case Property => 2
    case Command => 3
  }

  lemma {:induction false} PassesCount(ps: seq<Packet>, pass: nat, j: nat, d: Class)
    requires pass <= |CLASSES| && j < |ps|
    ensures Count(Passes(ps, pass), Handle(d, j)) == if pass <= Rank(d) && In(ps[j], d) then 1 else 0
    ensures Count(Passes(ps, pass), Complain(j)) == if Flagged(ps[j]) then |CLASSES| - pass else 0
    decreases |CLASSES| - pass
  {
    if pass < |CLASSES| {
      PassesCount(ps, pass + 1, j, d);
      PassCounts(ps, CLASSES[pass], 0, j, d);
      CountAppend(Pass(ps, CLASSES[pass], 0), Passes(ps, pass + 1), Handle(d, j));
      CountAppend(Pass(ps, CLASSES[pass], 0), Passes(ps, pass + 1), Complain(j));
      assert CLASSES[pass] == d <==> pass == Rank(d);
    }
  }

  lemma {:induction false} ResetCounts(ps: seq<Packet>, from: nat)
    requires from <= |ps|
    ensures |ResetFor(ps, from)| <= 1
    ensures ResetFor(ps, from) != [] <==> exists j | from <= j < |ps| :: ChangesSettings(ps[j])
    ensures forall a | 0 <= a < |ResetFor(ps, from)| :: ResetFor(ps, from)[a].Reset?
    decreases |ps| - from
  {
    if from < |ps| {
      ResetCounts(ps, from + 1);
    }
  }

  /** In the whole response, a packet is handled once in the class of its type and in no other. */
  lemma EachPacketOnce(ps: seq<Packet>, j: nat, d: Class)
    requires j < |ps|
    ensures Count(Dispatch(ps), Handle(d, j)) == if In(ps[j], d) then 1 else 0
    ensures Count(Dispatch(ps), Complain(j)) == if Flagged(ps[j]) then 4 else 0
  {
    PassesCount(ps, 0, j, d);
    OnlyPassesCount(ps, Handle(d, j));
    OnlyPassesCount(ps, Complain(j));
  }

  lemma OnlyPassesCount(ps: seq<Packet>, x: Action)
    requires x.Handle? || x.Complain?
    ensures Count(Dispatch(ps), x) == Count(Passes(ps, 0), x)
  {
    var reset, passes, end := ResetFor(ps, 0), Passes(ps, 0), if HasBuffer(ps, Passes(ps, 0)) then [Dequeue] else [];
    ResetCounts(ps, 0);
    CountZero(reset, x);
    CountZero(end, x);
    CountAppend(reset, passes, x);
    CountAppend(reset + passes, end, x);
  }

  // Order.

  /** Handled packets come class by class, and within a class in the order of the message. */
  predicate InOrder(log: seq<Action>) {
    forall a, b | 0 <= a < b < |log| && log[a].Handle? && log[b].Handle? ::
      Rank(log[a].class_) < Rank(log[b].class_) || (log[a].class_ == log[b].class_ && log[a].at < log[b].at)
  }

  predicate Of(log: seq<Action>, c: Class, from: nat) {
    forall a | 0 <= a < |log| && log[a].Handle? :: log[a].class_ == c && log[a].at >= from
  }

  lemma {:induction false} PassInOrder(ps: seq<Packet>, c: Class, from: nat)
    requires from <= |ps|
    ensures InOrder(Pass(ps, c, from)) && Of(Pass(ps, c, from), c, from)
    decreases |ps| - from
  {
    if from < |ps| {
      PassInOrder(ps, c, from + 1);
    }
  }

  predicate NotBefore(log: seq<Action>, rank: nat) {
    forall a | 0 <= a < |log| && log[a].Handle? :: Rank(log[a].class_) >= rank
  }

  lemma InOrderJoin(first: seq<Action>, c: Class, rest: seq<Action>)
    requires InOrder(first) && Of(first, c, 0) && InOrder(rest) && NotBefore(rest, Rank(c) + 1)
    ensures InOrder(first + rest) && NotBefore(first + rest, Rank(c))
  {
  }

  lemma {:induction false} PassesInOrder(ps: seq<Packet>, pass: nat)
    requires pass <= |CLASSES|
    ensures InOrder(Passes(ps, pass)) && NotBefore(Passes(ps, pass), pass)
    decreases |CLASSES| - pass
  {
    if pass < |CLASSES| {
      PassesInOrder(ps, pass + 1);
      PassInOrder(ps, CLASSES[pass], 0);
      assert Rank(CLASSES[pass]) == pass;
      InOrderJoin(Pass(ps, CLASSES[pass], 0), CLASSES[pass], Passes(ps, pass + 1));
    }
  }

  /** The response handles errors, information, properties and commands in that order, each in message order. */
  lemma ResponseInOrder(ps: seq<Packet>)
    ensures InOrder(Dispatch(ps))
  {
    ResetCounts(ps, 0);
    PassesInOrder(ps, 0);
    var reset, passes := ResetFor(ps, 0), Passes(ps, 0);
    var log := Dispatch(ps);
    assert forall a | 0 <= a < |log| && log[a].Handle? :: |reset| <= a < |reset| + |passes| && log[a] == passes[a - |reset|];
  }

  /** Every property of a message is applied before any of its commands is carried out. */
  lemma PropertiesBeforeCommands(ps: seq<Packet>, a: nat, b: nat)
    requires a < |Dispatch(ps)| && b < |Dispatch(ps)|
    requires Dispatch(ps)[a].Handle? && Dispatch(ps)[a].class_ == Property
    requires Dispatch(ps)[b].Handle? && Dispatch(ps)[b].class_ == Command
    ensures a < b
  {
    ResponseInOrder(ps);
  }

  lemma {:induction false} ResetNamesFirst(ps: seq<Packet>, from: nat, j: nat)
    requires from <= j < |ps| && ChangesSettings(ps[j]) && forall i | from <= i < j :: !ChangesSettings(ps[i])
    ensures ResetFor(ps, from) == [Reset(j)]
    decreases j - from
  {
    if from < j {
      ResetNamesFirst(ps, from + 1, j);
    }
  }

  predicate NoReset(log: seq<Action>) {
    forall a | 0 <= a < |log| :: !log[a].Reset?
  }

  lemma ResetOnlyInFront(reset: seq<Action>, tail: seq<Action>)
    requires |reset| <= 1 && NoReset(tail)
    ensures forall a | 0 <= a < |reset + tail| && (reset + tail)[a].Reset? :: a == 0 && reset == [(reset + tail)[0]]
  {
  }

  lemma NoResetBehind(ps: seq<Packet>)
    ensures NoReset(Passes(ps, 0) + (if HasBuffer(ps, Passes(ps, 0)) then [Dequeue] else []))
  {
    PassesStayInside(ps, 0);
  }

  /**
   The parameters of a source change are reset before anything else is done about the message, exactly if it
   announces changed settings of the bitstream, and for the first packet that does.
   */
  lemma ResetComesFirst(ps: seq<Packet>)
    ensures forall a | 0 <= a < |Dispatch(ps)| && Dispatch(ps)[a].Reset? ::
              && a == 0 && Dispatch(ps)[a].at < |ps| && ChangesSettings(ps[Dispatch(ps)[a].at])
              && forall i | 0 <= i < Dispatch(ps)[a].at :: !ChangesSettings(ps[i])
    ensures (exists j | 0 <= j < |ps| :: ChangesSettings(ps[j])) <==> Dispatch(ps) != [] && Dispatch(ps)[0].Reset?
  {
    var reset, passes := ResetFor(ps, 0), Passes(ps, 0);
    var tail := passes + (if HasBuffer(ps, passes) then [Dequeue] else []);
    ResetCounts(ps, 0);
    NoResetBehind(ps);
    assert Dispatch(ps) == reset + tail;
    hide Dispatch, Passes, HasBuffer, ResetFor, ChangesSettings;
    ResetOnlyInFront(reset, tail);
    if exists j | 0 <= j < |ps| :: ChangesSettings(ps[j]) {
      FirstChange(ps);
      var j :| 0 <= j < |ps| && ChangesSettings(ps[j]) && forall i | 0 <= i < j :: !ChangesSettings(ps[i]);
      ResetNamesFirst(ps, 0, j);
    }
  }

  lemma {:induction false} FirstChange(ps: seq<Packet>)
    requires exists j | 0 <= j < |ps| :: ChangesSettings(ps[j])
    ensures exists j | 0 <= j < |ps| :: ChangesSettings(ps[j]) && forall i | 0 <= i < j :: !ChangesSettings(ps[i])
  {
    var n := |ps| - 1;
    if k :| 0 <= k < n && ChangesSettings(ps[k]) {
      assert ChangesSettings(ps[..n][k]);
      FirstChange(ps[..n]);
      var j :| 0 <= j < n && ChangesSettings(ps[..n][j]) && forall i | 0 <= i < j :: !ChangesSettings(ps[..n][i]);
      assert forall i | 0 <= i < j :: ps[..n][i] == ps[i];
    }
  }

  /** The class of a packet is the top byte of its type; the first and the last type of each class are in none. */
  lemma ClassIsTopByte(p: Packet)
    ensures In(p, SessionError) <==> p.kind / 0x0100_0000 == 4 && 0 < p.kind % 0x0100_0000 < 0x00FF_FFFF
    ensures In(p, Information) <==> p.kind / 0x0100_0000 == 6 && 0 < p.kind % 0x0100_0000 < 0x00FF_FFFF
    ensures In(p, Property) <==> p.kind / 0x0100_0000 == 3 && 0 < p.kind % 0x0100_0000 < 0x00FF_FFFF
    ensures In(p, Command) <==> p.kind / 0x0100_0000 == 1 && 0 < p.kind % 0x0100_0000 < 0x00FF_FFFF
  {
  }

  predicate Once(log: seq<Action>, from: nat, until: nat) {
    && (forall a | 0 <= a < |log| :: (log[a].Complain? || log[a].Handle?) && from <= log[a].at < until)
    && (forall a, b | 0 <= a < b < |log| ::
          log[a].at < log[b].at || (log[a].at == log[b].at && log[a].Complain? && log[b].Handle?))
  }

  lemma OnceJoin(first: seq<Action>, rest: seq<Action>, from: nat, until: nat)
    requires from < until && Once(first, from, from + 1) && Once(rest, from + 1, until)
    ensures Once(first + rest, from, until)
  {
  }

  /** A pass goes through the message once, and complains of a packet before it handles it. */
  lemma {:induction false} PassGoesOnce(ps: seq<Packet>, c: Class, from: nat)
    requires from <= |ps|
    ensures Once(Pass(ps, c, from), from, |ps|)
    decreases |ps| - from
  {
    if from < |ps| {
      PassGoesOnce(ps, c, from + 1);
      OnceJoin(About(ps, c, from), Pass(ps, c, from + 1), from, |ps|);
    }
  }

  lemma BufferIsCommand(ps: seq<Packet>, j: nat)
    requires j < |ps| && ps[j].kind == HFI_CMD_BUFFER
    ensures HasBuffer(ps, Passes(ps, 0))
  {
    PassesCount(ps, 0, j, Command);
    CountZero(Passes(ps, 0), Handle(Command, j));
  }

  /** Finished buffers are dequeued at the end, once, exactly if the message has a buffer command. */
  lemma DequeueAtTheEnd(ps: seq<Packet>)
    ensures (exists j | 0 <= j < |ps| :: ps[j].kind == HFI_CMD_BUFFER) <==> Dequeue in Dispatch(ps)
    ensures forall a | 0 <= a < |Dispatch(ps)| && Dispatch(ps)[a].Dequeue? :: a == |Dispatch(ps)| - 1
  {
    NoDequeueInPasses(ps, 0);
    ResetCounts(ps, 0);
    if j :| 0 <= j < |ps| && ps[j].kind == HFI_CMD_BUFFER {
      BufferIsCommand(ps, j);
    }
  }

  lemma {:induction false} NoDequeueInPass(ps: seq<Packet>, c: Class, from: nat)
    requires from <= |ps|
    ensures forall a | 0 <= a < |Pass(ps, c, from)| :: !Pass(ps, c, from)[a].Dequeue?
    decreases |ps| - from
  {
    if from < |ps| {
      NoDequeueInPass(ps, c, from + 1);
    }
  }

  lemma {:induction false} NoDequeueInPasses(ps: seq<Packet>, pass: nat)
    requires pass <= |CLASSES|
    ensures forall a | 0 <= a < |Passes(ps, pass)| :: !Passes(ps, pass)[a].Dequeue?
    decreases |CLASSES| - pass
  {
    if pass < |CLASSES| {
      NoDequeueInPasses(ps, pass + 1);
      NoDequeueInPass(ps, CLASSES[pass], 0);
    }
  }

  /** The result a message reports is that of the handler that ran last: a failure it reports is real. */
  lemma {:induction false} ReportedFailureIsReal(log: seq<Action>, effects: seq<Effect>)
    ensures LastResult(log, effects) ==> SomeKills(log, effects)
  {
    if log != [] {
      var n := |log| - 1;
      ReportedFailureIsReal(log[..n], effects);
      assert log == log[..n] + [log[n]];
      if SomeKills(log[..n], effects) {
        var a :| 0 <= a < n && Kills(log[..n][a], effects);
        assert Kills(log[a], effects);
      } else if LastResult(log, effects) {
        assert Kills(log[n], effects);
      }
    }
  }

  lemma {:induction false} LastHandleDecides(log: seq<Action>, effects: seq<Effect>, a: nat)
    requires a < |log| && log[a].Handle? && log[a].at < |effects|
    requires forall b | a < b < |log| :: !log[b].Handle?
    ensures LastResult(log, effects) == Returns(log[a].class_, effects[log[a].at])
  {
    if a < |log| - 1 {
      LastHandleDecides(log[..|log| - 1], effects, a);
    }
  }

  lemma {:induction false} NoHandleNoFailure(log: seq<Action>, effects: seq<Effect>)
    requires forall b | 0 <= b < |log| :: !log[b].Handle?
    ensures !LastResult(log, effects)
  {
    if log != [] {
      NoHandleNoFailure(log[..|log| - 1], effects);
    }
  }

  /** No packet of a later class, and none behind it of the same class. */
  predicate ComesLast(ps: seq<Packet>, j: nat, c: Class)
    requires j < |ps|
  {
    In(ps[j], c) && forall i, d | 0 <= i < |ps| && In(ps[i], d) :: Rank(d) < Rank(c) || (d == c && i <= j)
  }

  lemma HandledIsIn(ps: seq<Packet>, x: Action)
    requires x in Passes(ps, 0) && x.Handle?
    ensures x.at < |ps| && In(ps[x.at], x.class_)
  {
    PassesStayInside(ps, 0);
    PassesCount(ps, 0, x.at, x.class_);
    CountZero(Passes(ps, 0), x);
  }

  /**
   What a message reports is what the handler returns of its last command, or without commands of its last property,
   or else information; a message of errors alone, or of nothing, reports success.
   */
  lemma ReportIsOfLast(ps: seq<Packet>, effects: seq<Effect>)
    requires |effects| == |ps|
    ensures forall j, c | 0 <= j < |ps| && ComesLast(ps, j, c) ::
              ResponseTo(ps, effects).ret == (c != SessionError && effects[j].fails)
    ensures (forall j, c | 0 <= j < |ps| :: !In(ps[j], c)) ==> !ResponseTo(ps, effects).ret
  {
    var log := Passes(ps, 0);
    forall x | x in log && x.Handle? ensures x.at < |ps| && In(ps[x.at], x.class_) {
      HandledIsIn(ps, x);
    }
    PassesInOrder(ps, 0);
    hide Passes, In;
    forall j, c | 0 <= j < |ps| && ComesLast(ps, j, c)
      ensures ResponseTo(ps, effects).ret == (c != SessionError && effects[j].fails)
    {
      PassesCount(ps, 0, j, c);
      CountZero(log, Handle(c, j));
      var a :| 0 <= a < |log| && log[a] == Handle(c, j);
      assert forall b | a < b < |log| && log[b].Handle? :: log[b] in log;
      LastHandleDecides(log, effects, a);
    }
    if forall j, c | 0 <= j < |ps| :: !In(ps[j], c) {
      assert forall b | 0 <= b < |log| :: log[b] in log;
      NoHandleNoFailure(log, effects);
    }
  }

  /** Packets that are the end of the session, whatever else is in the message. */
  predicate Fatal(p: Packet, e: Effect) {
    Flagged(p) || In(p, SessionError)
    || ((In(p, Information) || In(p, Property) || In(p, Command)) && (e.fails || e.kills))
  }

  /** The session is in ERROR after a message exactly if one of its packets is fatal. */
  lemma SessionFailsExactly(ps: seq<Packet>, effects: seq<Effect>)
    requires |effects| == |ps|
    ensures ResponseTo(ps, effects).failed <==> exists j | 0 <= j < |ps| :: Fatal(ps[j], effects[j])
  {
    var passes := Passes(ps, 0);
    if SomeKills(passes, effects) {
      var a :| 0 <= a < |passes| && Kills(passes[a], effects);
      PassesStayInside(ps, 0);
      var j := passes[a].at;
      KilledByFatal(ps, effects, passes[a]);
    }
    if j :| 0 <= j < |ps| && Fatal(ps[j], effects[j]) {
      FatalKills(ps, effects, j);
    }
  }

  /** Only packets of the message are dealt with. */
  lemma {:induction false} PassStaysInside(ps: seq<Packet>, c: Class, from: nat)
    requires from <= |ps|
    ensures forall a | 0 <= a < |Pass(ps, c, from)| ::
              (Pass(ps, c, from)[a].Complain? || Pass(ps, c, from)[a].Handle?) && Pass(ps, c, from)[a].at < |ps|
    decreases |ps| - from
  {
    if from < |ps| {
      PassStaysInside(ps, c, from + 1);
    }
  }

  lemma {:induction false} PassesStayInside(ps: seq<Packet>, pass: nat)
    requires pass <= |CLASSES|
    ensures forall a | 0 <= a < |Passes(ps, pass)| ::
              (Passes(ps, pass)[a].Complain? || Passes(ps, pass)[a].Handle?) && Passes(ps, pass)[a].at < |ps|
    decreases |CLASSES| - pass
  {
    if pass < |CLASSES| {
      PassesStayInside(ps, pass + 1);
      PassStaysInside(ps, CLASSES[pass], 0);
    }
  }

  lemma KilledByFatal(ps: seq<Packet>, effects: seq<Effect>, x: Action)
    requires |effects| == |ps| && x in Passes(ps, 0) && (x.Complain? || x.Handle?) && x.at < |ps| && Kills(x, effects)
    ensures Fatal(ps[x.at], effects[x.at])
  {
    CountZero(Passes(ps, 0), x);
    PassesCount(ps, 0, x.at, if x.Handle? then x.class_ else SessionError);
  }

  lemma FatalKills(ps: seq<Packet>, effects: seq<Effect>, j: nat)
    requires |effects| == |ps| && j < |ps| && Fatal(ps[j], effects[j])
    ensures SomeKills(Passes(ps, 0), effects)
  {
    var c := if In(ps[j], SessionError) then SessionError
             else if In(ps[j], Information) then Information
             else if In(ps[j], Property) then Property
             else Command;
    var x := if Flagged(ps[j]) then Complain(j) else Handle(c, j);
    PassesCount(ps, 0, j, c);
    CountZero(Passes(ps, 0), x);
    assert Kills(x, effects);
  }
}
