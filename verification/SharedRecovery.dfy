/**
 One Gen1 session and the core it shares with the others, over the one flag that ties them: the request for a
 recovery.  The session raises it; the core drops it, in an open, in a close, or in the worker of a system error,
 without looking at the session's state.
 */
module SharedRecovery {
  import Core = CoreAdmission
  import P = Gen1Protocol
  import Promises = Gen1Promises
  import opened IrisState

  datatype System = System(core: Core.Core, inst: P.Inst)

  /** A section of the session, or one of the core that another thread runs (this session's own slot included). */
  datatype Move = Session(event: P.Event) | Others(change: Core.Event)

  /** Both sides see one flag, and count the same power cycles. */
  predicate Linked(y: System) {
    y.core.recoveryPending == y.inst.phase.recoveryPending && y.core.recoveries == y.inst.cycles.count
  }

  predicate Enabled(y: System, m: Move) {
    match m
    case Session(event) => P.Enabled(y.inst, event) && !P.FromCore(event)
    case Others(change) => Core.Enabled(y.core, change) && P.Countable(y.inst)
  }

  /** What a change of the core means to the session. */
  function Noticed(inst: P.Inst, before: Core.Core, after: Core.Core): P.Inst {
    var s := if after.recoveries > before.recoveries then P.CoreStep(inst, P.CoreRecovered) else inst;
    if after.recoveryPending then P.CoreStep(s, P.CoreRequested) else s
  }

  /** What a section of the session means to the core. */
  function Asked(core: Core.Core, after: P.Inst, l: Core.Limits): Core.Core {
    if after.phase.recoveryPending then Core.Step(core, Core.Request, l) else core
  }

  function Step(y: System, m: Move, l: Core.Limits): System
    requires Enabled(y, m)
  {
    match m
    case Session(event) =>
      var after := P.Step(y.inst, event);
      System(Asked(y.core, after, l), after)
    case Others(change) =>
      var after := Core.Step(y.core, change, l);
      System(after, Noticed(y.inst, y.core, after))
  }

  /** A core section power-cycles the core at most once, and drops the request only if it does. */
  lemma CoreFlag(c: Core.Core, e: Core.Event, l: Core.Limits)
    requires Core.Enabled(c, e)
    ensures var after := Core.Step(c, e, l);
            && (after.recoveries == c.recoveries || after.recoveries == c.recoveries + 1)
            && (after.recoveries == c.recoveries && c.recoveryPending ==> after.recoveryPending)
  {
  }

  lemma NoticedKeepsSound(inst: P.Inst, before: Core.Core, after: Core.Core)
    requires P.Sound(inst)
    ensures P.Sound(Noticed(inst, before, after))
  {
    hide P.Sound, P.Balanced;
    P.CoreStepKeepsSound(inst, P.CoreRecovered);
    var s := if after.recoveries > before.recoveries then P.CoreStep(inst, P.CoreRecovered) else inst;
    P.CoreStepKeepsSound(s, P.CoreRequested);
  }

  /** Every move keeps the two sides in step, and the session sound. */
  lemma MoveKeepsLink(y: System, m: Move, l: Core.Limits)
    requires Enabled(y, m) && Linked(y) && P.Sound(y.inst)
    ensures Linked(Step(y, m, l)) && P.Sound(Step(y, m, l).inst)
  {
    hide P.Sound, P.Step, P.Enabled, Core.Step;
    match m
    case Session(event) =>
      P.StepKeepsSound(y.inst, event);
      Promises.StepDooms(y.inst, event);
      RequestRaisesFlag(y.core, l);
    case Others(change) =>
      CoreFlag(y.core, change, l);
      NoticedKeepsSound(y.inst, y.core, Core.Step(y.core, change, l));
  }

  lemma RequestRaisesFlag(c: Core.Core, l: Core.Limits)
    ensures Core.Step(c, Core.Request, l) == c.(recoveryPending := true)
  {
  }

  /** A session that enters ERROR raises the core's request in the same section. */
  lemma EntryAsksTheCore(y: System, e: P.Event, l: Core.Limits)
    requires Enabled(y, Session(e)) && Linked(y)
    requires y.inst.phase.state != Error && P.Step(y.inst, e).phase.state == Error
    ensures Step(y, Session(e), l).core == Core.Step(y.core, Core.Request, l)
    ensures Step(y, Session(e), l).core.recoveryPending
  {
    hide P.Step, P.Enabled;
    Promises.StepDooms(y.inst, e);
  }

  predicate Runs(y: System, ms: seq<Move>, l: Core.Limits)
    decreases |ms|
  {
    ms == [] || (Enabled(y, ms[0]) && Runs(Step(y, ms[0], l), ms[1..], l))
  }

  function After(y: System, ms: seq<Move>, l: Core.Limits): System
    requires Runs(y, ms, l)
    decreases |ms|
  {
    if ms == [] then y else After(Step(y, ms[0], l), ms[1..], l)
  }

  /**
   However sections of the session and of the core are interleaved: while the session is in ERROR the core still
   has its request, or has been power-cycled since the session entered.
   */
  lemma {:induction false} ErrorReachesTheCore(y: System, ms: seq<Move>, l: Core.Limits)
    requires Linked(y) && P.Sound(y.inst) && Runs(y, ms, l)
    ensures var end := After(y, ms, l);
            && Linked(end) && P.Sound(end.inst)
            && (end.inst.phase.state == Error ==>
                  end.core.recoveryPending || end.core.recoveries > end.inst.cycles.beforeError)
    decreases |ms|
  {
    hide Step, Enabled, P.Ordered, P.AtMostOne, P.OpensFromDeinit;
    if ms != [] {
      MoveKeepsLink(y, ms[0], l);
      ErrorReachesTheCore(Step(y, ms[0], l), ms[1..], l);
    }
  }

  /** The last session goes away in ERROR: closing its file power-cycles the core and drops the request. */
  lemma LastCloseRecovers(y: System, k: nat, failed: bool, l: Core.Limits)
    requires Linked(y) && y.core.recoveryPending && y.inst.phase.state == Error && P.Countable(y.inst)
    requires k < |y.core.instances|
    requires forall j | 0 <= j < |y.core.instances| && j != k :: !y.core.instances[j].sessionOpen
    ensures var end := Step(y, Others(Core.Leave(k, failed)), l);
            && !end.core.recoveryPending && end.core.recoveries == y.core.recoveries + 1
            && end.inst.phase.state == Error && !end.inst.phase.recoveryPending
  {
    var after := Core.Step(y.core, Core.Leave(k, failed), l);
    Core.CloseLeavesNothingPending(y.core, k, failed);
    assert forall j | 0 <= j < |after.instances| :: after.instances[j] == y.core.instances[if j < k then j else j + 1];
    CoreFlag(y.core, Core.Leave(k, failed), l);
  }
}
