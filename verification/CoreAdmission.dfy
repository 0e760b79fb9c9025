/**
 Which sessions the core takes on, and when it is power-cycled.  Every locked section of the core is one
 step.  Nobody is asked when the frames of a session that was taken on change their size.
 */
module CoreAdmission {
  import opened Sums

  datatype Session = Session(mbpf: nat, sessionOpen: bool, reserved: bool, rejected: bool, fps: nat)

  /** What a platform promises to carry. */
  datatype Limits = Limits(sessions: nat, mbpf: nat, mbps: nat, legacy: bool)

  const IRIS1_4K_MBPF: nat := 135 * 240
  const IRIS1_MAX_4K_SESSIONS: nat := 3

  datatype Status = Success | Busy | NoMemory

  datatype Core = Core(instances: seq<Session>, recoveryPending: bool, recoveries: nat)

  // Sums over the sessions.

  function IsOpened(s: Session): nat {
    if s.sessionOpen then 1 else 0
  }

  function OpenedMbpf(s: Session): nat {
    if s.sessionOpen then s.mbpf else 0
  }

  function ReservedMbps(s: Session): nat {
    if s.reserved then s.mbpf * s.fps else 0
  }

  function IsLarge(s: Session): nat {
    if s.reserved && s.mbpf >= IRIS1_4K_MBPF then 1 else 0
  }

  lemma {:induction false} SomeOpened(ss: seq<Session>)
    ensures Sum(ss, IsOpened) > 0 <==> exists k | 0 <= k < |ss| :: ss[k].sessionOpen
  {
    if ss != [] {
      var n := |ss| - 1;
      SomeOpened(ss[..n]);
      if Sum(ss[..n], IsOpened) > 0 {
        var k :| 0 <= k < n && ss[..n][k].sessionOpen;
        assert ss[k].sessionOpen;
      } else if ss[n].sessionOpen {
      } else {
        forall k | 0 <= k < |ss| ensures !ss[k].sessionOpen {
          if k < n {
            assert ss[..n][k] == ss[k];
          }
        }
      }
    }
  }

  /** The core never carries more than the platform promises. */
  ghost predicate Admitted(ss: seq<Session>, l: Limits) {
    && Sum(ss, IsOpened) <= l.sessions
    && Sum(ss, OpenedMbpf) <= l.mbpf
    && Sum(ss, ReservedMbps) <= l.mbps
    && (l.legacy ==> Sum(ss, IsLarge) <= IRIS1_MAX_4K_SESSIONS)
    && (forall k | 0 <= k < |ss| :: ss[k].reserved ==> ss[k].sessionOpen)
  }

  // The locked sections.

  function Shut(s: Session): Session {
    s.(sessionOpen := false, reserved := false, rejected := false, fps := 0)
  }

  predicate FitsOpen(ss: seq<Session>, k: nat, l: Limits)
    requires k < |ss|
  {
    Sum(ss, IsOpened) < l.sessions && Sum(ss, OpenedMbpf) + ss[k].mbpf <= l.mbpf
  }

  predicate FitsLoad(ss: seq<Session>, k: nat, fps: nat, l: Limits)
    requires k < |ss|
  {
    && Sum(ss, ReservedMbps) + ss[k].mbpf * fps <= l.mbps
    && !(l.legacy && ss[k].mbpf >= IRIS1_4K_MBPF && Sum(ss, IsLarge) >= IRIS1_MAX_4K_SESSIONS)
  }

  function AtLeastOne(fps: nat): nat {
    if fps < 1 then 1 else fps
  }

  function Recovered(c: Core): Core {
    if c.recoveryPending && Sum(c.instances, IsOpened) == 0
    then c.(recoveryPending := false, recoveries := c.recoveries + 1)
    else c
  }

  function OpenSlot(c: Core, k: nat, l: Limits): (Core, Status)
    requires k < |c.instances|
  {
    if c.instances[k].sessionOpen then (c, Success)
    else
      var c1 := Recovered(c);
      if Sum(c1.instances, IsOpened) >= l.sessions then (c1, Busy)
      else if !FitsOpen(c1.instances, k, l) then (c1, NoMemory)
      else (c1.(instances := c1.instances[k := c1.instances[k].(sessionOpen := true)]), Success)
  }

  function Reserve(c: Core, k: nat, fps: nat, l: Limits): (Core, Status)
    requires k < |c.instances|
  {
    var s := c.instances[k];
    if s.reserved then (c, Success)
    else if !FitsLoad(c.instances, k, AtLeastOne(fps), l) then (c, NoMemory)
    else (c.(instances := c.instances[k := s.(fps := AtLeastOne(fps), reserved := true)]), Success)
  }

  lemma ReserveResults(c: Core, k: nat, fps: nat, l: Limits)
    requires k < |c.instances|
    ensures Reserve(c, k, fps, l).1 != Success ==> Reserve(c, k, fps, l) == (c, NoMemory)
  {
  }

  function Rejected(ss: seq<Session>, k: nat): seq<Session>
    requires k < |ss|
  {
    ss[k := ss[k].(rejected := true)]
  }

  /** Setting up the capture queue reserves the load; a session that was refused once is not asked about again. */
  function SetUp(c: Core, k: nat, fps: nat, l: Limits): (Core, Status)
    requires k < |c.instances|
  {
    if c.instances[k].rejected then (c, NoMemory)
    else if Reserve(c, k, fps, l).1 == Success then Reserve(c, k, fps, l)
    else (c.(instances := Rejected(c.instances, k)), NoMemory)
  }

  function Unload(c: Core, k: nat): Core
    requires k < |c.instances|
  {
    c.(instances := c.instances[k := c.instances[k].(reserved := false, fps := 0)])
  }

  /** An open that failed, or a close: the slot is given up, and a failure asks for a power cycle. */
  function GiveUp(c: Core, k: nat, failed: bool): Core
    requires k < |c.instances|
  {
    c.(instances := c.instances[k := Shut(c.instances[k])], recoveryPending := c.recoveryPending || failed)
  }

  /** The last reference to a session goes away: close it, unlink it, and recover the core if that was asked for. */
  function CloseFile(c: Core, k: nat, failed: bool): Core
    requires k < |c.instances|
  {
    var c1 := if c.instances[k].sessionOpen then GiveUp(c, k, failed) else Unload(c, k);
    Recovered(c1.(instances := c1.instances[..k] + c1.instances[k + 1..]))
  }

  /** A new sequence, or a new format, gives a session frames of another size. */
  function Resized(ss: seq<Session>, k: nat, mbpf: nat): seq<Session>
    requires k < |ss|
  {
    ss[k := ss[k].(mbpf := mbpf)]
  }

  datatype Event =
    | Join(mbpf: nat)
    | Open(k: nat)
    | Load(k: nat, fps: nat)
    | Resize(k: nat, mbpf: nat)
    | Release(k: nat)
    | Close(k: nat, failed: bool)
    | Leave(k: nat, failed: bool)
    | Request
    | Restart

  predicate Enabled(c: Core, e: Event) {
    match e
    case Join(_) => true
    case Open(k) => k < |c.instances|
    // capture queue setup reserves only after the session is open
    case Load(k, _) => k < |c.instances| && c.instances[k].sessionOpen
    case Resize(k, _) => k < |c.instances|
    case Release(k) => k < |c.instances|
    case Close(k, _) => k < |c.instances|
    case Leave(k, _) => k < |c.instances|
    case Request => true
    case Restart => true
  }

  function Step(c: Core, e: Event, l: Limits): Core
    requires Enabled(c, e)
  {
    match e
    case Join(mbpf) => c.(instances := c.instances + [Session(mbpf, false, false, false, 0)])
    case Open(k) => OpenSlot(c, k, l).0
    case Load(k, fps) => SetUp(c, k, fps, l).0
    case Resize(k, mbpf) => c.(instances := Resized(c.instances, k, mbpf))
    case Release(k) => Unload(c, k)
    case Close(k, failed) => GiveUp(c, k, failed)
    case Leave(k, failed) => CloseFile(c, k, failed)
    case Request => c.(recoveryPending := true)
    case Restart => c.(recoveryPending := false, recoveries := c.recoveries + 1)
  }

  predicate Runs(c: Core, es: seq<Event>, l: Limits)
    decreases |es|
  {
    es == [] || (Enabled(c, es[0]) && Runs(Step(c, es[0], l), es[1..], l))
  }

  function After(c: Core, es: seq<Event>, l: Limits): Core
    requires Runs(c, es, l)
    decreases |es|
  {
    if es == [] then c else After(Step(c, es[0], l), es[1..], l)
  }

  // Admission.

  lemma UpdateKeepsAdmitted(ss: seq<Session>, k: nat, s: Session, l: Limits)
    requires k < |ss| && Admitted(ss, l) && (s.reserved ==> s.sessionOpen)
    requires IsOpened(s) <= IsOpened(ss[k]) && OpenedMbpf(s) <= OpenedMbpf(ss[k])
    requires ReservedMbps(s) <= ReservedMbps(ss[k]) && IsLarge(s) <= IsLarge(ss[k])
    ensures Admitted(ss[k := s], l)
  {
    SumUpdate(ss, k, s, IsOpened);
    SumUpdate(ss, k, s, OpenedMbpf);
    SumUpdate(ss, k, s, ReservedMbps);
    SumUpdate(ss, k, s, IsLarge);
  }

  lemma OpenKeepsAdmitted(c: Core, k: nat, l: Limits)
    requires k < |c.instances| && Admitted(c.instances, l)
    ensures Admitted(OpenSlot(c, k, l).0.instances, l)
    ensures OpenSlot(c, k, l).1 == Success <==> c.instances[k].sessionOpen || FitsOpen(c.instances, k, l)
  {
    var s := c.instances[k].(sessionOpen := true);
    SumUpdate(c.instances, k, s, IsOpened);
    SumUpdate(c.instances, k, s, OpenedMbpf);
    SumUpdate(c.instances, k, s, ReservedMbps);
    SumUpdate(c.instances, k, s, IsLarge);
  }

  lemma ReserveKeepsAdmitted(c: Core, k: nat, fps: nat, l: Limits)
    requires k < |c.instances| && c.instances[k].sessionOpen && Admitted(c.instances, l)
    ensures Admitted(Reserve(c, k, fps, l).0.instances, l)
    ensures Reserve(c, k, fps, l).1 == Success <==>
              c.instances[k].reserved || FitsLoad(c.instances, k, AtLeastOne(fps), l)
  {
    var s := c.instances[k].(fps := AtLeastOne(fps), reserved := true);
    SumUpdate(c.instances, k, s, IsOpened);
    SumUpdate(c.instances, k, s, OpenedMbpf);
    SumUpdate(c.instances, k, s, ReservedMbps);
    SumUpdate(c.instances, k, s, IsLarge);
  }

  // What the answers mean.

  function Marked(ss: seq<Session>, k: nat): seq<Session>
    requires k < |ss|
  {
    ss[k := ss[k].(sessionOpen := true)]
  }

  /**
   A session is let in exactly if the limits still hold with it: it is told apart by the answer whether the count
   or the frames stood in the way, it counts as open exactly if the answer is success, and nothing else changes.
   */
  lemma OpenAnswers(c: Core, k: nat, l: Limits)
    requires k < |c.instances| && Admitted(c.instances, l)
    ensures var (after, answer) := OpenSlot(c, k, l);
            && (answer == Success <==> c.instances[k].sessionOpen || Admitted(Marked(c.instances, k), l))
            && (answer == Busy <==> !c.instances[k].sessionOpen && Sum(c.instances, IsOpened) == l.sessions)
            && (answer == Success <==> after.instances[k].sessionOpen)
            && after.instances == (if answer == Success then Marked(c.instances, k) else c.instances)
            && after.recoveries == c.recoveries
                 + (if c.recoveryPending && Sum(c.instances, IsOpened) == 0 then 1 else 0)
            && (after.recoveryPending <==> c.recoveryPending && Sum(c.instances, IsOpened) > 0)
  {
    var s := c.instances[k].(sessionOpen := true);
    SumUpdate(c.instances, k, s, IsOpened);
    SumUpdate(c.instances, k, s, OpenedMbpf);
    SumUpdate(c.instances, k, s, ReservedMbps);
    SumUpdate(c.instances, k, s, IsLarge);
    SomeOpened(c.instances);
    assert c.instances[k].sessionOpen ==> Marked(c.instances, k) == c.instances;
  }

  function Reserved(ss: seq<Session>, k: nat, fps: nat): seq<Session>
    requires k < |ss|
  {
    ss[k := ss[k].(reserved := true, fps := if fps == 0 then 1 else fps)]
  }

  /** A load is reserved exactly if the limits still hold with it, and then at the rate asked for, of at least one. */
  lemma ReserveAnswers(c: Core, k: nat, fps: nat, l: Limits)
    requires k < |c.instances| && c.instances[k].sessionOpen && Admitted(c.instances, l)
    ensures var (after, answer) := Reserve(c, k, fps, l);
            && (answer == Success <==> c.instances[k].reserved || Admitted(Reserved(c.instances, k, fps), l))
            && (answer == Success <==> after.instances[k].reserved)
            && after == if answer == Success && !c.instances[k].reserved
                        then c.(instances := Reserved(c.instances, k, fps)) else c
  {
    var s := Reserved(c.instances, k, fps)[k];
    SumUpdate(c.instances, k, s, IsOpened);
    SumUpdate(c.instances, k, s, OpenedMbpf);
    SumUpdate(c.instances, k, s, ReservedMbps);
    SumUpdate(c.instances, k, s, IsLarge);
  }

  /** A close takes everything from the session and nothing from the others; a failure asks for a power cycle. */
  lemma CloseTakesAll(c: Core, k: nat, failed: bool)
    requires k < |c.instances|
    ensures var after := GiveUp(c, k, failed);
            && after.instances == c.instances[k := Session(c.instances[k].mbpf, false, false, false, 0)]
            && (after.recoveryPending <==> c.recoveryPending || failed)
            && after.recoveries == c.recoveries
  {
  }

  /** When a file is closed its session leaves the list, and the core is power-cycled if that was due and nobody is open. */
  lemma LeaveTakesOne(c: Core, k: nat, failed: bool)
    requires k < |c.instances|
    ensures var after := CloseFile(c, k, failed);
            var others := c.instances[..k] + c.instances[k + 1..];
            var due := c.recoveryPending || (c.instances[k].sessionOpen && failed);
            && after.instances == others
            && after.recoveries == c.recoveries + (if due && Sum(others, IsOpened) == 0 then 1 else 0)
            && (after.recoveryPending <==> due && Sum(others, IsOpened) > 0)
  {
    var c1 := if c.instances[k].sessionOpen then GiveUp(c, k, failed) else Unload(c, k);
    assert c1.instances[..k] + c1.instances[k + 1..] == c.instances[..k] + c.instances[k + 1..];
  }

  // What the answers add up to.

  /** What a session holds, going by what it was told: let in, its reserved rate (or none), and a refusal. */
  datatype Entry = Entry(letIn: bool, rate: nat, refused: bool)

  function Answer(c: Core, e: Event, l: Limits): Status
    requires Enabled(c, e)
  {
    match e
    case Open(k) => OpenSlot(c, k, l).1
    case Load(k, fps) => SetUp(c, k, fps, l).1
    case _ => Success
  }

  predicate Names<T>(ledger: seq<T>, e: Event) {
    (e.Open? || e.Load? || e.Resize? || e.Release? || e.Close? || e.Leave?) ==> e.k < |ledger|
  }

  function Written(ledger: seq<Entry>, e: Event, answer: Status): seq<Entry>
    requires Names(ledger, e)
  {
    match e
    case Join(_) => ledger + [Entry(false, 0, false)]
    case Open(k) => if answer == Success then ledger[k := ledger[k].(letIn := true)] else ledger
    case Load(k, fps) =>
      if answer != Success then ledger[k := ledger[k].(refused := true)]
      else if ledger[k].rate > 0 then ledger
      else ledger[k := ledger[k].(rate := if fps == 0 then 1 else fps)]
    case Release(k) => ledger[k := ledger[k].(rate := 0)]
    case Close(k, _) => ledger[k := Entry(false, 0, false)]
    case Leave(k, _) => ledger[..k] + ledger[k + 1..]
    case _ => ledger
  }

  predicate Agree(ss: seq<Session>, ledger: seq<Entry>) {
    |ss| == |ledger| && forall k | 0 <= k < |ss| :: Matches(ss[k], ledger[k])
  }

  predicate Matches(s: Session, entry: Entry) {
    entry == Entry(s.sessionOpen, s.fps, s.rejected) && (s.reserved <==> s.fps > 0)
  }

  lemma AgreeUpdate(ss: seq<Session>, ledger: seq<Entry>, k: nat, s: Session, entry: Entry)
    requires Agree(ss, ledger) && k < |ss| && Matches(s, entry)
    ensures Agree(ss[k := s], ledger[k := entry])
  {
  }

  lemma AgreeSnoc(ss: seq<Session>, ledger: seq<Entry>, s: Session, entry: Entry)
    requires Agree(ss, ledger) && Matches(s, entry)
    ensures Agree(ss + [s], ledger + [entry])
  {
  }

  lemma AgreeWithout(ss: seq<Session>, ledger: seq<Entry>, k: nat)
    requires Agree(ss, ledger) && k < |ss|
    ensures Agree(ss[..k] + ss[k + 1..], ledger[..k] + ledger[k + 1..])
  {
  }

  lemma AgreeAt(ss: seq<Session>, ledger: seq<Entry>, k: nat)
    requires Agree(ss, ledger) && k < |ss|
    ensures k < |ledger| && Matches(ss[k], ledger[k]) && ledger[k := ledger[k]] == ledger
  {
  }

  lemma StepKeepsLedger(c: Core, e: Event, l: Limits, ledger: seq<Entry>)
    requires Enabled(c, e) && Agree(c.instances, ledger)
    ensures Agree(Step(c, e, l).instances, Written(ledger, e, Answer(c, e, l)))
  {
    hide Agree, FitsOpen, FitsLoad, Sum;
    if Names(c.instances, e) && !e.Join? && !e.Request? && !e.Restart? {
      AgreeAt(c.instances, ledger, e.k);
    }
    match e
    case Join(mbpf) => AgreeSnoc(c.instances, ledger, Session(mbpf, false, false, false, 0), Entry(false, 0, false));
    case Leave(k, failed) =>
      LeaveTakesOne(c, k, failed);
      AgreeWithout(c.instances, ledger, k);
    case Request =>
    case Restart =>
    case _ =>
      var after := Step(c, e, l).instances;
      AgreeUpdate(c.instances, ledger, e.k, after[e.k], Written(ledger, e, Answer(c, e, l))[e.k]);
  }

  function Ledger(c: Core, es: seq<Event>, l: Limits, ledger: seq<Entry>): seq<Entry>
    requires Runs(c, es, l) && Agree(c.instances, ledger)
    decreases |es|
  {
    if es == [] then ledger
    else
      StepKeepsLedger(c, es[0], l, ledger);
      Ledger(Step(c, es[0], l), es[1..], l, Written(ledger, es[0], Answer(c, es[0], l)))
  }

  /**
   Over any run the sessions that count as open are exactly those that were let in and not closed since, and the
   loads that count are exactly those that were reserved and not released since.
   */
  lemma {:induction false} LedgerIsKept(c: Core, es: seq<Event>, l: Limits, ledger: seq<Entry>)
    requires Runs(c, es, l) && Agree(c.instances, ledger)
    ensures Agree(After(c, es, l).instances, Ledger(c, es, l, ledger))
    decreases |es|
  {
    if es != [] {
      StepKeepsLedger(c, es[0], l, ledger);
      LedgerIsKept(Step(c, es[0], l), es[1..], l, Written(ledger, es[0], Answer(c, es[0], l)));
    }
  }

  function LetIn(ledger: seq<Entry>): nat {
    Sum(ledger, (entry: Entry) => if entry.letIn then 1 else 0)
  }

  lemma {:induction false} LedgerCounts(ss: seq<Session>, ledger: seq<Entry>)
    requires Agree(ss, ledger)
    ensures LetIn(ledger) == Sum(ss, IsOpened)
  {
    if ss != [] {
      LedgerCounts(ss[..|ss| - 1], ledger[..|ss| - 1]);
    }
  }

  /** The limit on sessions bites: as many were let in and not closed since as there may be, and the next one is told so. */
  lemma FullCoreIsBusy(c: Core, es: seq<Event>, l: Limits, ledger: seq<Entry>, k: nat)
    requires Runs(c, es, l) && Agree(c.instances, ledger) && k < |After(c, es, l).instances|
    ensures var now := Ledger(c, es, l, ledger);
            |now| == |After(c, es, l).instances|
            && (OpenSlot(After(c, es, l), k, l).1 == Busy <==> !now[k].letIn && LetIn(now) >= l.sessions)
  {
    LedgerIsKept(c, es, l, ledger);
    LedgerCounts(After(c, es, l).instances, Ledger(c, es, l, ledger));
  }

  lemma RemovalKeepsAdmitted(ss: seq<Session>, k: nat, l: Limits)
    requires k < |ss| && Admitted(ss, l)
    ensures Admitted(ss[..k] + ss[k + 1..], l)
  {
    SumWithout(ss, k, IsOpened);
    SumWithout(ss, k, OpenedMbpf);
    SumWithout(ss, k, ReservedMbps);
    SumWithout(ss, k, IsLarge);
  }

  lemma JoinKeepsAdmitted(ss: seq<Session>, s: Session, l: Limits)
    requires Admitted(ss, l) && !s.sessionOpen && !s.reserved
    ensures Admitted(ss + [s], l)
  {
    SumSnoc(ss, s, IsOpened);
    SumSnoc(ss, s, OpenedMbpf);
    SumSnoc(ss, s, ReservedMbps);
    SumSnoc(ss, s, IsLarge);
  }

  lemma LeaveKeepsAdmitted(c: Core, k: nat, failed: bool, l: Limits)
    requires k < |c.instances| && Admitted(c.instances, l)
    ensures Admitted(CloseFile(c, k, failed).instances, l)
  {
    var s := if c.instances[k].sessionOpen then Shut(c.instances[k]) else c.instances[k].(reserved := false, fps := 0);
    UpdateKeepsAdmitted(c.instances, k, s, l);
    RemovalKeepsAdmitted(c.instances[k := s], k, l);
  }

  lemma RejectionKeepsAdmitted(ss: seq<Session>, k: nat, l: Limits)
    requires k < |ss| && Admitted(ss, l)
    ensures Admitted(Rejected(ss, k), l)
  {
    UpdateKeepsAdmitted(ss, k, ss[k].(rejected := true), l);
  }

  /** Capture can be set up exactly if the session was not refused since it was opened, and its load fits. */
  lemma SetUpKeepsAdmitted(c: Core, k: nat, fps: nat, l: Limits)
    requires k < |c.instances| && c.instances[k].sessionOpen && Admitted(c.instances, l)
    ensures Admitted(SetUp(c, k, fps, l).0.instances, l)
    ensures SetUp(c, k, fps, l).1 == Success <==>
              !c.instances[k].rejected && (c.instances[k].reserved || FitsLoad(c.instances, k, AtLeastOne(fps), l))
    ensures SetUp(c, k, fps, l).1 != Success <==> SetUp(c, k, fps, l).0.instances[k].rejected
  {
    hide Admitted, FitsLoad;
    ReserveKeepsAdmitted(c, k, fps, l);
    RejectionKeepsAdmitted(c.instances, k, l);
  }

  // What growing frames can break.

  predicate OutgrowsFrames(ss: seq<Session>, k: nat, mbpf: nat, l: Limits)
    requires k < |ss|
  {
    ss[k].sessionOpen && mbpf - ss[k].mbpf > l.mbpf - Sum(ss, OpenedMbpf)
  }

  predicate OutgrowsRate(ss: seq<Session>, k: nat, mbpf: nat, l: Limits)
    requires k < |ss|
  {
    ss[k].reserved && (mbpf - ss[k].mbpf) * ss[k].fps > l.mbps - Sum(ss, ReservedMbps)
  }

  predicate BecomesFourthLarge(ss: seq<Session>, k: nat, mbpf: nat, l: Limits)
    requires k < |ss|
  {
    l.legacy && ss[k].reserved && ss[k].mbpf < IRIS1_4K_MBPF <= mbpf && Sum(ss, IsLarge) == IRIS1_MAX_4K_SESSIONS
  }

  predicate Overloads(ss: seq<Session>, k: nat, mbpf: nat, l: Limits)
    requires k < |ss|
  {
    OutgrowsFrames(ss, k, mbpf, l) || OutgrowsRate(ss, k, mbpf, l) || BecomesFourthLarge(ss, k, mbpf, l)
  }

  lemma Growth(old_: nat, new_: nat, fps: nat)
    ensures new_ * fps - old_ * fps == (new_ - old_) * fps
  {
  }

  /** Which limit a session breaks whose frames change their size, by what was to spare before. */
  lemma GrowingFramesOverload(ss: seq<Session>, k: nat, mbpf: nat, l: Limits)
    requires k < |ss| && Admitted(ss, l)
    ensures var now := Resized(ss, k, mbpf);
            && (Sum(now, OpenedMbpf) > l.mbpf <==> OutgrowsFrames(ss, k, mbpf, l))
            && (Sum(now, ReservedMbps) > l.mbps <==> OutgrowsRate(ss, k, mbpf, l))
            && (l.legacy && Sum(now, IsLarge) > IRIS1_MAX_4K_SESSIONS <==> BecomesFourthLarge(ss, k, mbpf, l))
            && (Admitted(now, l) <==> !Overloads(ss, k, mbpf, l))
  {
    var s := ss[k].(mbpf := mbpf);
    Growth(ss[k].mbpf, mbpf, ss[k].fps);
    SumUpdate(ss, k, s, IsOpened);
    SumUpdate(ss, k, s, OpenedMbpf);
    SumUpdate(ss, k, s, ReservedMbps);
    SumUpdate(ss, k, s, IsLarge);
  }

  predicate Overgrows(c: Core, e: Event, l: Limits)
    requires Enabled(c, e)
  {
    e.Resize? && Overloads(c.instances, e.k, e.mbpf, l)
  }

  lemma StepKeepsAdmitted(c: Core, e: Event, l: Limits)
    requires Enabled(c, e) && Admitted(c.instances, l)
    ensures Admitted(Step(c, e, l).instances, l) <==> !Overgrows(c, e, l)
  {
    hide Admitted, Overloads;
    match e
    case Join(mbpf) => JoinKeepsAdmitted(c.instances, Session(mbpf, false, false, false, 0), l);
    case Open(k) => OpenKeepsAdmitted(c, k, l);
    case Load(k, fps) => SetUpKeepsAdmitted(c, k, fps, l);
    case Resize(k, mbpf) => GrowingFramesOverload(c.instances, k, mbpf, l);
    case Release(k) => ReleaseKeepsAdmitted(c.instances, k, l);
    case Close(k, _) => ShutKeepsAdmitted(c.instances, k, l);
    case Leave(k, failed) => LeaveKeepsAdmitted(c, k, failed, l);
    case Request =>
    case Restart =>
  }

  lemma ReleaseKeepsAdmitted(ss: seq<Session>, k: nat, l: Limits)
    requires k < |ss| && Admitted(ss, l)
    ensures Admitted(ss[k := ss[k].(reserved := false, fps := 0)], l)
  {
    UpdateKeepsAdmitted(ss, k, ss[k].(reserved := false, fps := 0), l);
  }

  lemma ShutKeepsAdmitted(ss: seq<Session>, k: nat, l: Limits)
    requires k < |ss| && Admitted(ss, l)
    ensures Admitted(ss[k := Shut(ss[k])], l)
  {
    UpdateKeepsAdmitted(ss, k, Shut(ss[k]), l);
  }

  /** Some session of the run grows beyond what is to spare. */
  predicate SomeOvergrows(c: Core, es: seq<Event>, l: Limits)
    requires Runs(c, es, l)
    decreases |es|
  {
    es != [] && (Overgrows(c, es[0], l) || SomeOvergrows(Step(c, es[0], l), es[1..], l))
  }

  ghost predicate AlwaysAdmitted(c: Core, es: seq<Event>, l: Limits)
    requires Runs(c, es, l)
    decreases |es|
  {
    Admitted(c.instances, l) && (es != [] ==> AlwaysAdmitted(Step(c, es[0], l), es[1..], l))
  }

  /** However sessions open, fail, reserve, release and close, only growing frames promise the core out. */
  lemma {:induction false} NeverOverAdmitted(c: Core, es: seq<Event>, l: Limits)
    requires Admitted(c.instances, l) && Runs(c, es, l)
    ensures AlwaysAdmitted(c, es, l) <==> !SomeOvergrows(c, es, l)
    decreases |es|
  {
    if es != [] {
      StepKeepsAdmitted(c, es[0], l);
      if !Overgrows(c, es[0], l) {
        NeverOverAdmitted(Step(c, es[0], l), es[1..], l);
      }
    }
  }

  // Recovery.

  lemma DeferredRecoveryOnlyWhenIdle(c: Core)
    ensures Recovered(c) != c <==> c.recoveryPending && (forall k | 0 <= k < |c.instances| :: !c.instances[k].sessionOpen)
    ensures Recovered(c).recoveryPending ==> exists k | 0 <= k < |c.instances| :: c.instances[k].sessionOpen
  {
    SomeOpened(c.instances);
  }

  /** When a session file is closed, recovery is put off only if another session is still open. */
  lemma CloseLeavesNothingPending(c: Core, k: nat, failed: bool)
    requires k < |c.instances|
    ensures var after := CloseFile(c, k, failed);
            after.recoveryPending ==> exists j | 0 <= j < |after.instances| :: after.instances[j].sessionOpen
  {
    var c1 := if c.instances[k].sessionOpen then GiveUp(c, k, failed) else Unload(c, k);
    DeferredRecoveryOnlyWhenIdle(c1.(instances := c1.instances[..k] + c1.instances[k + 1..]));
  }

  /** Over any run: a request stays pending until the core has been power-cycled since. */
  lemma {:induction false} RequestsAreNotForgotten(c: Core, es: seq<Event>, l: Limits)
    requires Runs(c, es, l)
    ensures After(c, es, l).recoveries >= c.recoveries
    ensures c.recoveryPending && After(c, es, l).recoveries == c.recoveries ==> After(c, es, l).recoveryPending
    decreases |es|
  {
    if es != [] {
      RequestsAreNotForgotten(Step(c, es[0], l), es[1..], l);
    }
  }

  /** Asked for by a timeout or a system error, or by a session that fails to open or to close. */
  predicate Asks(e: Event) {
    e.Request? || ((e.Close? || e.Leave?) && e.failed)
  }

  /** A request that is pending, and that nobody has made meanwhile, was there before, and the core was not power-cycled. */
  lemma {:induction false} RequestsAreAnswered(c: Core, es: seq<Event>, l: Limits)
    requires Runs(c, es, l) && forall k | 0 <= k < |es| :: !Asks(es[k])
    ensures After(c, es, l).recoveryPending ==> c.recoveryPending && After(c, es, l).recoveries == c.recoveries
    decreases |es|
  {
    if es != [] {
      RequestsAreNotForgotten(Step(c, es[0], l), es[1..], l);
      RequestsAreAnswered(Step(c, es[0], l), es[1..], l);
    }
  }

  // The core as the driver keeps it.

  method TotalsOpened(ss: seq<Session>) returns (sessions: nat, mbpf: nat)
    ensures sessions == Sum(ss, IsOpened) && mbpf == Sum(ss, OpenedMbpf)
  {
    sessions, mbpf := 0, 0;
    assert ss[..0] == [];
    for j := 0 to |ss|
      invariant sessions == Sum(ss[..j], IsOpened) && mbpf == Sum(ss[..j], OpenedMbpf)
    {
      assert ss[..j + 1] == ss[..j] + [ss[j]];
      SumSnoc(ss[..j], ss[j], IsOpened);
      SumSnoc(ss[..j], ss[j], OpenedMbpf);
      if ss[j].sessionOpen {
        sessions := sessions + 1;
        mbpf := mbpf + ss[j].mbpf;
      }
    }
    assert ss[..|ss|] == ss;
  }

  method TotalsReserved(ss: seq<Session>) returns (mbps: nat, large: nat)
    ensures mbps == Sum(ss, ReservedMbps) && large == Sum(ss, IsLarge)
  {
    mbps, large := 0, 0;
    assert ss[..0] == [];
    for j := 0 to |ss|
      invariant mbps == Sum(ss[..j], ReservedMbps) && large == Sum(ss[..j], IsLarge)
    {
      assert ss[..j + 1] == ss[..j] + [ss[j]];
      SumSnoc(ss[..j], ss[j], ReservedMbps);
      SumSnoc(ss[..j], ss[j], IsLarge);
      if ss[j].reserved {
        mbps := mbps + ss[j].mbpf * ss[j].fps;
        if ss[j].mbpf >= IRIS1_4K_MBPF {
          large := large + 1;
        }
      }
    }
    assert ss[..|ss|] == ss;
  }

  class IrisCore {
    const limits: Limits
    var instances: seq<Session>
    var recoveryPending: bool
    var recoveries: nat

    ghost function View(): Core
      reads this
    {
      Core(instances, recoveryPending, recoveries)
    }

    constructor (limits: Limits)
      ensures this.limits == limits && View() == Core([], false, 0)
      ensures Admitted(instances, limits)
    {
      this.limits := limits;
      instances, recoveryPending, recoveries := [], false, 0;
    }

    method RunPendingRecovery()
      modifies this`recoveryPending, this`recoveries
      ensures View() == Recovered(old(View()))
    {
      if !recoveryPending {
        return;
      }
      var ss := instances;
      SomeOpened(ss);
      for k := 0 to |ss|
        invariant forall j | 0 <= j < k :: !ss[j].sessionOpen
      {
        if ss[k].sessionOpen {
          return;
        }
      }
      recoveryPending := false;
      recoveries := recoveries + 1;
    }

    /** Reserves a session slot; the firmware is asked for the session only afterwards. */
    method OpenSession(k: nat) returns (status: Status)
      requires k < |instances|
      modifies this
      ensures (View(), status) == OpenSlot(old(View()), k, limits)
      ensures status == Success <==> instances[k].sessionOpen
      ensures old(Admitted(instances, limits)) ==> Admitted(instances, limits)
    {
      if Admitted(instances, limits) {
        OpenKeepsAdmitted(View(), k, limits);
      }
      if instances[k].sessionOpen {
        return Success;
      }
      RunPendingRecovery();
      var sessions, mbpf := TotalsOpened(instances);
      if sessions >= limits.sessions {
        return Busy;
      }
      mbpf := mbpf + instances[k].mbpf;
      if mbpf > limits.mbpf {
        return NoMemory;
      }
      instances := instances[k := instances[k].(sessionOpen := true)];
      return Success;
    }

    method ReserveLoad(k: nat, rate: nat) returns (status: Status)
      requires k < |instances| && instances[k].sessionOpen
      modifies this`instances
      ensures (View(), status) == Reserve(old(View()), k, rate, limits)
      ensures old(Admitted(instances, limits)) ==> Admitted(instances, limits)
    {
      if Admitted(instances, limits) {
        ReserveKeepsAdmitted(View(), k, rate, limits);
      }
      var fps := if rate < 1 then 1 else rate;
      if instances[k].reserved {
        return Success;
      }
      var mbps, large := TotalsReserved(instances);
      mbps := mbps + instances[k].mbpf * fps;
      if mbps > limits.mbps {
        return NoMemory;
      }
      if limits.legacy && instances[k].mbpf >= IRIS1_4K_MBPF && large >= IRIS1_MAX_4K_SESSIONS {
        return NoMemory;
      }
      instances := instances[k := instances[k].(fps := fps, reserved := true)];
      return Success;
    }

    method SetUpCapture(k: nat, rate: nat) returns (status: Status)
      requires k < |instances| && instances[k].sessionOpen
      modifies this`instances
      ensures (View(), status) == SetUp(old(View()), k, rate, limits)
      ensures old(Admitted(instances, limits)) ==> Admitted(instances, limits)
    {
      hide Reserve, Admitted;
      if Admitted(instances, limits) {
        SetUpKeepsAdmitted(View(), k, rate, limits);
      }
      if instances[k].rejected {
        return NoMemory;
      }
      ghost var before := View();
      ReserveResults(before, k, rate, limits);
      status := ReserveLoad(k, rate);
      if status != Success {
        instances := instances[k := instances[k].(rejected := true)];
      }
    }

    method CloseSession(k: nat, failed: bool)
      requires k < |instances|
      modifies this
      ensures View() == CloseFile(old(View()), k, failed)
      ensures recoveryPending ==> exists j | 0 <= j < |instances| :: instances[j].sessionOpen
    {
      CloseLeavesNothingPending(View(), k, failed);
      if instances[k].sessionOpen {
        instances := instances[k := Shut(instances[k])];
        if failed {
          recoveryPending := true;
        }
      } else {
        instances := instances[k := instances[k].(reserved := false, fps := 0)];
      }
      instances := instances[..k] + instances[k + 1..];
      RunPendingRecovery();
    }
  }
}
