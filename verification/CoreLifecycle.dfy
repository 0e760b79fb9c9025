/**
 Bringing the SM8150 video core up and down: queues, power, firmware and interrupt, with the unwinding of a
 start that fails at any stage.  What the hardware and the kernel do is a success or a failure at each stage.
 */
module CoreLifecycle {
  import opened IrisState

  /** How often the controller's power domain is held and its clocks are enabled; below zero is an underflow. */
  datatype Controller = Controller(domain: int, bus: int, axi: int, core: int) {
    function Plus(n: int): Controller {
      Controller(domain + n, bus + n, axi + n, core + n)
    }
  }

  /** The same for the two codec cores. */
  datatype Codec = Codec(domain: int, auxDomain: int, axi: int, auxAxi: int, core: int, auxCore: int) {
    function Plus(n: int): Codec {
      Codec(domain + n, auxDomain + n, axi + n, auxAxi + n, core + n, auxCore + n)
    }
  }

  datatype Counts = Counts(controller: Controller, codec: Codec) {
    function Plus(n: int): Counts {
      Counts(controller.Plus(n), codec.Plus(n))
    }
  }

  const NOTHING := Counts(Controller(0, 0, 0, 0), Codec(0, 0, 0, 0, 0, 0))

  /** Disable depth, whether a watchdog interrupt was seen, and whether a threaded handler is still to finish. */
  datatype Irq = Irq(depth: nat, watchdog: bool, inFlight: bool)

  function EnableIrq(depth: nat): nat {
    if depth == 0 then 0 else depth - 1
  }

  /** Power-on forgets what the last interrupt was and lets the next one through. */
  function Unmasked(irq: Irq): Irq {
    Irq(EnableIrq(irq.depth), false, irq.inFlight)
  }

  /** Power-off masks the line, which after a watchdog is masked already. */
  function MaskedOff(irq: Irq): Irq {
    if irq.watchdog then irq else irq.(depth := irq.depth + 1)
  }

  function Fired(irq: Irq, watchdog: bool): Irq {
    Irq(irq.depth + 1, irq.watchdog || watchdog, true)
  }

  function Handled(irq: Irq): Irq {
    Irq(if irq.watchdog then irq.depth else EnableIrq(irq.depth), irq.watchdog, false)
  }

  /** The stage of power-on that fails. */
  datatype Fault =
    | NoFault | Bandwidth | CtrlDomain | Reset | BusClk | AxiClk | CtrlClk | Rate
    | HwDomain | AuxDomain | HwAxiClk | AuxHwAxiClk | HwClk | AuxHwClk

  datatype Vpu = Vpu(
    state: CoreState, queues: int, firmware: int, suspended: bool, powered: bool,
    counts: Counts, bandwidth: bool, rate: bool, irq: Irq)

  /** The stages of a start after power-on, and whether the firmware answers. */
  datatype Start = Start(queues: bool, fault: Fault, load: bool, resume: bool, boot: bool, hfi: bool, answer: bool)

  // What each operation amounts to.

  predicate AtController(fault: Fault) {
    fault.CtrlDomain? || fault.Reset? || fault.BusClk? || fault.AxiClk? || fault.CtrlClk?
  }

  predicate AtCodec(fault: Fault) {
    fault.HwDomain? || fault.AuxDomain? || fault.HwAxiClk? || fault.AuxHwAxiClk? || fault.HwClk? || fault.AuxHwClk?
  }

  /** What an unwound power-on leaves behind. */
  function Residue(c: Counts, fault: Fault): Counts {
    match fault
    case CtrlDomain => c.(controller := c.controller.(domain := c.controller.domain + 1))
    case AuxHwClk => c.(codec := c.codec.(auxCore := c.codec.auxCore - 1))
    case _ => c
  }

  predicate Unwinds(fault: Fault) {
    fault != CtrlDomain && fault != AuxHwClk
  }

  function PoweredOn(v: Vpu, fault: Fault): Vpu {
    if fault == NoFault then
      v.(powered := true, counts := v.counts.Plus(1), bandwidth := true, rate := true,
         irq := Unmasked(v.irq))
    else
      v.(powered := true, counts := Residue(v.counts, fault),
         bandwidth := if fault == Bandwidth then v.bandwidth else false,
         rate := if AtCodec(fault) then false else v.rate)
  }

  function PoweredOff(v: Vpu): Vpu {
    if !v.powered then v
    else
      v.(powered := false, counts := v.counts.Plus(-1), bandwidth := false, rate := false,
         irq := MaskedOff(v.irq))
  }

  function Initialized(v: Vpu, s: Start): Vpu {
    if v.state == CoreInit then v
    else if v.state == CoreError || !s.queues then v.(state := CoreDeinit)
    else
      var on := PoweredOn(v, s.fault);
      if s.fault != NoFault then on.(state := CoreDeinit)
      else if !s.load || !s.resume || !s.boot || !s.hfi then PoweredOff(on).(state := CoreDeinit)
      else on.(state := if s.answer then CoreInit else CoreError, queues := v.queues + 1, firmware := v.firmware + 1)
  }

  function Deinitialized(v: Vpu): Vpu {
    if v.state == CoreDeinit then v
    else PoweredOff(v).(state := CoreDeinit, queues := v.queues - 1, firmware := v.firmware - 1, suspended := false)
  }

  /** Collapsing the idle core: the firmware has to be ready and the secure world to agree. */
  function Collapsed(v: Vpu, ready: bool): Vpu {
    if v.suspended || !ready then v else PoweredOff(v).(suspended := true)
  }

  function Resumed(v: Vpu, fault: Fault, up: bool): Vpu {
    if !v.suspended then v
    else if fault != NoFault then PoweredOn(v, fault)
    else if !up then PoweredOff(PoweredOn(v, fault))
    else PoweredOn(v, fault).(suspended := false)
  }

  // The code, stage by stage.

  class IrisCore {
    var state: CoreState
    var queues: int
    var firmware: int
    var suspended: bool
    var powered: bool
    var controller: Controller
    var codec: Codec
    var bandwidth: bool
    var rate: bool
    var irq: Irq

    ghost function View(): Vpu
      reads this
    {
      Vpu(state, queues, firmware, suspended, powered, Counts(controller, codec), bandwidth, rate, irq)
    }

    constructor ()
      ensures View() == Vpu(CoreDeinit, 0, 0, false, false, NOTHING, false, false, Irq(1, false, false))
    {
      state, queues, firmware, suspended, powered := CoreDeinit, 0, 0, false, false;
      controller, codec := NOTHING.controller, NOTHING.codec;
      bandwidth, rate, irq := false, false, Irq(1, false, false);
    }

    method PowerOffController()
      modifies this`controller
      ensures controller == old(controller).Plus(-1)
    {
      controller := controller.(core := controller.core - 1);
      controller := controller.(axi := controller.axi - 1);
      controller := controller.(bus := controller.bus - 1);
      controller := controller.(domain := controller.domain - 1);
    }

    /** The domain's usage goes up even when resuming it fails. */
    method PowerOnController(fault: Fault) returns (ok: bool)
      modifies this`controller
      ensures ok == !AtController(fault)
      ensures Counts(controller, codec) ==
                if ok then Counts(old(controller).Plus(1), codec) else Residue(Counts(old(controller), codec), fault)
    {
      controller := controller.(domain := controller.domain + 1);
      if fault == CtrlDomain {
        return false;
      }
      if fault == Reset || fault == BusClk {
        controller := controller.(domain := controller.domain - 1);
        return false;
      }
      controller := controller.(bus := controller.bus + 1);
      if fault == AxiClk {
        controller := controller.(bus := controller.bus - 1);
        controller := controller.(domain := controller.domain - 1);
        return false;
      }
      controller := controller.(axi := controller.axi + 1);
      if fault == CtrlClk {
        controller := controller.(axi := controller.axi - 1);
        controller := controller.(bus := controller.bus - 1);
        controller := controller.(domain := controller.domain - 1);
        return false;
      }
      controller := controller.(core := controller.core + 1);
      return true;
    }

    method PowerOffHw()
      modifies this`codec
      ensures codec == old(codec).Plus(-1)
    {
      codec := codec.(auxCore := codec.auxCore - 1);
      codec := codec.(core := codec.core - 1);
      codec := codec.(auxAxi := codec.auxAxi - 1);
      codec := codec.(axi := codec.axi - 1);
      codec := codec.(auxDomain := codec.auxDomain - 1);
      codec := codec.(domain := codec.domain - 1);
    }

    /** A failure to enable the auxiliary core clock is unwound together with that very clock. */
    method PowerOnHw(fault: Fault) returns (ok: bool)
      modifies this`codec
      ensures ok == !AtCodec(fault)
      ensures Counts(controller, codec) ==
                if ok then Counts(controller, old(codec).Plus(1)) else Residue(Counts(controller, old(codec)), fault)
    {
      if fault == HwDomain {
        return false;
      }
      codec := codec.(domain := codec.domain + 1);
      if fault == AuxDomain {
        codec := codec.(domain := codec.domain - 1);
        return false;
      }
      codec := codec.(auxDomain := codec.auxDomain + 1);
      if fault == HwAxiClk {
        codec := codec.(auxDomain := codec.auxDomain - 1);
        codec := codec.(domain := codec.domain - 1);
        return false;
      }
      codec := codec.(axi := codec.axi + 1);
      if fault == AuxHwAxiClk {
        codec := codec.(axi := codec.axi - 1);
        codec := codec.(auxDomain := codec.auxDomain - 1);
        codec := codec.(domain := codec.domain - 1);
        return false;
      }
      codec := codec.(auxAxi := codec.auxAxi + 1);
      if fault == HwClk {
        codec := codec.(auxAxi := codec.auxAxi - 1, axi := codec.axi - 1);
        codec := codec.(auxDomain := codec.auxDomain - 1, domain := codec.domain - 1);
        return false;
      }
      codec := codec.(core := codec.core + 1);
      if fault == AuxHwClk {
        codec := codec.(auxCore := codec.auxCore - 1, core := codec.core - 1);
        codec := codec.(auxAxi := codec.auxAxi - 1, axi := codec.axi - 1);
        codec := codec.(auxDomain := codec.auxDomain - 1, domain := codec.domain - 1);
        return false;
      }
      codec := codec.(auxCore := codec.auxCore + 1);
      return true;
    }

    /** The controller first, then the operating point, and only then the codec. */
    method PowerOnDomains(fault: Fault) returns (ok: bool)
      requires fault != Bandwidth
      modifies this`controller, this`codec, this`rate
      ensures ok == (fault == NoFault)
      ensures rate == if ok then true else if AtCodec(fault) then false else old(rate)
      ensures Counts(controller, codec) ==
                if ok then Counts(old(controller), old(codec)).Plus(1) else Residue(Counts(old(controller), old(codec)), fault)
    {
      ok := PowerOnController(fault);
      if !ok {
        return;
      }
      if fault == Rate {
        PowerOffController();
        return false;
      }
      rate := true;
      ok := PowerOnHw(fault);
      if !ok {
        rate := false;
        PowerOffController();
      }
    }

    method PowerOn(fault: Fault) returns (ok: bool)
      modifies this
      ensures ok == (fault == NoFault) && View() == PoweredOn(old(View()), fault)
    {
      powered := true;
      if fault == Bandwidth {
        return false;
      }
      bandwidth := true;
      ok := PowerOnDomains(fault);
      if !ok {
        bandwidth := false;
        return;
      }
      irq := irq.(watchdog := false);
      irq := irq.(depth := EnableIrq(irq.depth));
    }

    method PowerOff()
      modifies this
      ensures View() == PoweredOff(old(View()))
    {
      if !powered {
        return;
      }
      powered := false;
      rate := false;
      PowerOffHw();
      PowerOffController();
      bandwidth := false;
      if !irq.watchdog {
        irq := irq.(depth := irq.depth + 1);
      }
    }

    /** The hard handler: mask the line, clear the source, wake the thread. */
    method HardIrq(watchdog: bool)
      modifies this`irq
      ensures irq == Fired(old(irq), watchdog)
    {
      irq := irq.(depth := irq.depth + 1);
      if watchdog {
        irq := irq.(watchdog := true);
      }
      irq := irq.(inFlight := true);
    }

    /** The end of the threaded handler, after the responses have been dealt with. */
    method ThreadedIrq()
      modifies this`irq
      ensures irq == Handled(old(irq))
    {
      if !irq.watchdog {
        irq := irq.(depth := EnableIrq(irq.depth));
      }
      irq := irq.(inFlight := false);
    }

    /** The start of the core, and the unwinding of one that fails. */
    method Init(s: Start) returns (ok: bool)
      modifies this
      ensures View() == Initialized(old(View()), s)
      ensures ok == (state == CoreInit)
    {
      if state == CoreInit {
        return true;
      }
      if state == CoreError {
        state := CoreDeinit;
        return false;
      }
      state := CoreInit;
      if !s.queues {
        state := CoreDeinit;
        return false;
      }
      queues := queues + 1;
      ok := PowerOn(s.fault);
      if ok {
        ok := Boot(s);
        if !ok {
          PowerOff();
        }
      }
      if !ok {
        queues := queues - 1;
        state := CoreDeinit;
        return;
      }
      if !s.answer {
        state := CoreError;
        return false;
      }
    }

    method Boot(s: Start) returns (ok: bool)
      modifies this`firmware
      ensures ok == (s.load && s.resume && s.boot && s.hfi)
      ensures firmware == if ok then old(firmware) + 1 else old(firmware)
    {
      if !s.load {
        return false;
      }
      firmware := firmware + 1;
      if !s.resume || !s.boot || !s.hfi {
        firmware := firmware - 1;
        return false;
      }
      return true;
    }

    method Deinit()
      modifies this
      ensures View() == Deinitialized(old(View()))
    {
      if state == CoreDeinit {
        return;
      }
      firmware := firmware - 1;
      PowerOff();
      queues := queues - 1;
      suspended := false;
      state := CoreDeinit;
    }

    method Recover(s: Start) returns (ok: bool)
      modifies this
      ensures View() == Initialized(Deinitialized(old(View())), s)
      ensures ok == (state == CoreInit)
    {
      Deinit();
      ok := Init(s);
    }

    method CollapsePower(ready: bool)
      modifies this
      ensures View() == Collapsed(old(View()), ready)
    {
      if suspended || !ready {
        return;
      }
      PowerOff();
      suspended := true;
    }

    method ResumePower(fault: Fault, up: bool) returns (ok: bool)
      modifies this
      ensures View() == Resumed(old(View()), fault, up)
      ensures ok == !suspended
    {
      if !suspended {
        return true;
      }
      ok := PowerOn(fault);
      if !ok {
        return;
      }
      if !up {
        PowerOff();
        return false;
      }
      suspended := false;
    }
  }

  // What the lifecycle keeps.

  /** The core holds exactly what its state says: nothing in DEINIT, otherwise queues and firmware, and power unless collapsed. */
  predicate Consistent(v: Vpu) {
    if v.state == CoreDeinit then
      v.queues == 0 && v.firmware == 0 && v.counts == NOTHING && !v.bandwidth && !v.rate && !v.suspended
    else
      && v.queues == 1 && v.firmware == 1 && v.suspended == !v.powered
      && v.counts == (if v.powered then NOTHING.Plus(1) else NOTHING)
      && v.bandwidth == v.rate == v.powered
  }

  /** Power-off undoes power-on, and doing it again changes nothing. */
  lemma PowerOffUndoesPowerOn(v: Vpu)
    requires v.irq.depth > 0 && !v.powered && !v.bandwidth && !v.rate
    ensures var off := PoweredOff(PoweredOn(v, NoFault));
            && off == v.(irq := Irq(v.irq.depth, false, v.irq.inFlight))
            && PoweredOff(off) == off
  {
  }

  /**
   A power-on that fails part-way gives everything back, but for two stages: the controller's domain stays held
   once more when resuming it fails, and the auxiliary core clock is given back once too often when enabling it does.
   */
  lemma FailedPowerOnUnwinds(v: Vpu, fault: Fault)
    requires fault != NoFault
    ensures PoweredOn(v, fault).counts == v.counts <==> Unwinds(fault)
    ensures fault == CtrlDomain ==>
              var held := v.counts.controller;
              PoweredOn(v, fault).counts == v.counts.(controller := held.(domain := held.domain + 1))
    ensures fault == AuxHwClk ==>
              var held := v.counts.codec;
              PoweredOn(v, fault).counts == v.counts.(codec := held.(auxCore := held.auxCore - 1))
    ensures PoweredOn(v, fault).irq == v.irq
  {
  }

  /**
   A failed power-on still counts as powered, so that a power-off after it takes away what was never held:
   every count is one too low, whatever the stage.
   */
  lemma PowerOffAfterFailureUnderflows(v: Vpu, fault: Fault)
    requires fault != NoFault
    ensures PoweredOff(PoweredOn(v, fault)).counts == Residue(v.counts, fault).Plus(-1)
    ensures v.counts == NOTHING ==> PoweredOff(PoweredOn(v, fault)).counts.codec.domain < 0
  {
  }

  datatype Event =
    | Init(start: Start)
    | Deinit
    | Recover(start: Start)
    | SystemError
    | Collapse(ready: bool)
    | Resume(fault: Fault, up: bool)

  function Step(v: Vpu, e: Event): Vpu {
    match e
    case Init(start) => Initialized(v, start)
    case Deinit => Deinitialized(v)
    case Recover(start) => Initialized(Deinitialized(v), start)
    case SystemError => v.(state := CoreError)
    case Collapse(ready) => Collapsed(v, ready)
    case Resume(fault, up) => Resumed(v, fault, up)
  }

  /** Starts that get as far as a power stage that does not unwind. */
  predicate Leaks(s: Start) {
    s.queues && !Unwinds(s.fault)
  }

  /**
   When a step loses track of what is held: a start in ERROR says DEINIT and releases nothing; two power
   stages do not unwind; a collapsed core whose power-on fails believes to be powered; the idle worker, which
   asks for no state, collapses a core in DEINIT; and a late system error puts a core in ERROR that is in DEINIT.
   */
  predicate LosesTrack(v: Vpu, e: Event) {
    match e
    case Init(start) => v.state == CoreError || (v.state == CoreDeinit && Leaks(start))
    case Recover(start) => Leaks(start)
    case Resume(fault, _) => v.suspended && fault != NoFault
    case Collapse(ready) => v.state == CoreDeinit && ready
    case SystemError => v.state == CoreDeinit
    case Deinit => false
  }

  lemma StartKeepsConsistent(v: Vpu, s: Start)
    requires Consistent(v) && v.state == CoreDeinit && s.queues
    ensures Consistent(Initialized(v, s)) <==> Unwinds(s.fault)
  {
    if s.fault != NoFault {
      FailedPowerOnUnwinds(v, s.fault);
    }
  }

  lemma InitKeepsConsistent(v: Vpu, s: Start)
    requires Consistent(v)
    ensures Consistent(Initialized(v, s)) <==> !(v.state == CoreError || (v.state == CoreDeinit && Leaks(s)))
  {
    if v.state == CoreDeinit && s.queues {
      StartKeepsConsistent(v, s);
    }
  }

  lemma DeinitReleasesAll(v: Vpu)
    requires Consistent(v)
    ensures Consistent(Deinitialized(v)) && Deinitialized(v).state == CoreDeinit
  {
  }

  lemma RecoverKeepsConsistent(v: Vpu, s: Start)
    requires Consistent(v)
    ensures Consistent(Initialized(Deinitialized(v), s)) <==> !Leaks(s)
  {
    hide Initialized, Deinitialized, Consistent;
    DeinitReleasesAll(v);
    InitKeepsConsistent(Deinitialized(v), s);
  }

  lemma CollapseKeepsConsistent(v: Vpu, ready: bool)
    requires Consistent(v)
    ensures Consistent(Collapsed(v, ready)) <==> !(v.state == CoreDeinit && ready)
  {
  }

  lemma ResumeKeepsConsistent(v: Vpu, fault: Fault, up: bool)
    requires Consistent(v)
    ensures Consistent(Resumed(v, fault, up)) <==> !(v.suspended && fault != NoFault)
  {
    if fault != NoFault {
      FailedPowerOnUnwinds(v, fault);
    }
  }

  /** A step keeps the core consistent exactly when it does not lose track. */
  lemma StepKeepsConsistent(v: Vpu, e: Event)
    requires Consistent(v)
    ensures Consistent(Step(v, e)) <==> !LosesTrack(v, e)
  {
    match e
    case Init(start) =>
      hide Initialized, Consistent;
      InitKeepsConsistent(v, start);
    case Deinit =>
      hide Deinitialized, Consistent;
      DeinitReleasesAll(v);
    case Recover(start) =>
      hide Initialized, Deinitialized, Consistent;
      RecoverKeepsConsistent(v, start);
    case SystemError =>
    case Collapse(ready) =>
      hide Collapsed, Consistent;
      CollapseKeepsConsistent(v, ready);
    case Resume(fault, up) =>
      hide Resumed, Consistent;
      ResumeKeepsConsistent(v, fault, up);
  }

  function After(v: Vpu, es: seq<Event>): Vpu
    decreases |es|
  {
    if es == [] then v else After(Step(v, es[0]), es[1..])
  }

  predicate SometimeLosesTrack(v: Vpu, es: seq<Event>)
    decreases |es|
  {
    es != [] && (LosesTrack(v, es[0]) || SometimeLosesTrack(Step(v, es[0]), es[1..]))
  }

  predicate AlwaysConsistent(v: Vpu, es: seq<Event>)
    decreases |es|
  {
    Consistent(v) && (es != [] ==> AlwaysConsistent(Step(v, es[0]), es[1..]))
  }

  /** Over a run the core holds exactly what its state says, all the way, if and only if no step loses track. */
  lemma {:induction false} RunsStayConsistent(v: Vpu, es: seq<Event>)
    requires Consistent(v)
    ensures AlwaysConsistent(v, es) <==> !SometimeLosesTrack(v, es)
    ensures AlwaysConsistent(v, es) ==> Consistent(After(v, es))
    decreases |es|
  {
    hide Consistent, Step, LosesTrack;
    if es != [] {
      StepKeepsConsistent(v, es[0]);
      if !LosesTrack(v, es[0]) {
        RunsStayConsistent(Step(v, es[0]), es[1..]);
      }
    }
  }

  predicate AllGood(s: Start) {
    s.queues && s.fault == NoFault && s.load && s.resume && s.boot && s.hfi && s.answer
  }

  /** Everything goes well up to the message that starts the firmware. */
  predicate ComesUp(s: Start) {
    s.queues && s.fault == NoFault && s.load && s.resume && s.boot && s.hfi
  }

  /**
   Where a start leaves the core: running if all went well and the firmware answered, in ERROR if only the answer is
   missing, in DEINIT otherwise.  Only a start in DEINIT does anything else; a running core stays, and one in ERROR is
   declared closed.
   */
  lemma WhereStartEnds(v: Vpu, s: Start)
    ensures v.state == CoreInit ==> Initialized(v, s) == v
    ensures v.state == CoreError ==> Initialized(v, s) == v.(state := CoreDeinit)
    ensures v.state == CoreDeinit ==>
              var after := Initialized(v, s);
              && after.state == (if AllGood(s) then CoreInit else if ComesUp(s) then CoreError else CoreDeinit)
              && after.queues == v.queues + (if ComesUp(s) then 1 else 0)
              && after.firmware == v.firmware + (if ComesUp(s) then 1 else 0)
              && after.suspended == v.suspended
  {
    hide Initialized, PoweredOn;
    PowerMovesPowerOnly(v, NoFault);
    if v.state == CoreDeinit && ComesUp(s) {
      CleanStart(v, s);
    } else if v.state == CoreDeinit {
      BrokenStart(v, s);
    } else {
      StartElsewhere(v, s);
    }
  }

  lemma StartElsewhere(v: Vpu, s: Start)
    requires v.state != CoreDeinit
    ensures Initialized(v, s) == if v.state == CoreInit then v else v.(state := CoreDeinit)
  {
  }

  lemma BrokenStart(v: Vpu, s: Start)
    requires v.state == CoreDeinit && !ComesUp(s)
    ensures var after := Initialized(v, s);
            after.state == CoreDeinit && after.queues == v.queues && after.firmware == v.firmware
            && after.suspended == v.suspended
  {
    hide PoweredOn, PoweredOff;
    PowerMovesPowerOnly(v, s.fault);
    PowerMovesPowerOnly(PoweredOn(v, s.fault), s.fault);
  }

  lemma CleanStart(v: Vpu, s: Start)
    requires v.state == CoreDeinit && ComesUp(s)
    ensures Initialized(v, s)
            == PoweredOn(v, NoFault).(state := if s.answer then CoreInit else CoreError,
                                      queues := v.queues + 1, firmware := v.firmware + 1)
  {
    hide PoweredOn, PoweredOff;
    PowerMovesPowerOnly(v, NoFault);
  }

  lemma PowerMovesPowerOnly(v: Vpu, fault: Fault)
    ensures var on := PoweredOn(v, fault);
            on.queues == v.queues && on.firmware == v.firmware && on.suspended == v.suspended && on.state == v.state
    ensures var off := PoweredOff(v);
            off.queues == v.queues && off.firmware == v.firmware && off.suspended == v.suspended && off.state == v.state
  {
  }

  lemma StartWithoutPower(v: Vpu, s: Start)
    requires v.state == CoreDeinit && s.queues && s.fault != NoFault
    ensures Initialized(v, s) == PoweredOn(v, s.fault).(state := CoreDeinit)
  {
  }

  lemma CollapseOfPowered(v: Vpu)
    requires v.powered && !v.suspended && !v.irq.watchdog
    ensures var down := Collapsed(v, true);
            down.counts == v.counts.Plus(-1) && down.irq.depth == v.irq.depth + 1 && down.suspended
  {
  }

  /**
   The idle worker after a recovery whose start failed: a core in DEINIT that still counts as powered is powered
   off below zero, with its line masked once more.
   */
  lemma CollapseInDeinitUnderflows(v: Vpu, s: Start)
    requires Consistent(v) && v.state == CoreInit && !v.irq.watchdog
    requires s.queues && s.fault != NoFault && Unwinds(s.fault)
    ensures var down := Step(v, Recover(s));
            && Consistent(down) && down.state == CoreDeinit && down.powered
            && Step(down, Collapse(true)).counts == NOTHING.Plus(-1)
            && Step(down, Collapse(true)).irq.depth == down.irq.depth + 1
  {
    hide Initialized, Deinitialized, Collapsed;
    var off := Deinitialized(v);
    DeinitReleasesAll(v);
    DeinitKeepsNoWatchdog(v);
    RecoverKeepsConsistent(v, s);
    StartWithoutPower(off, s);
    CollapseOfPowered(Initialized(off, s));
  }

  lemma DeinitKeepsNoWatchdog(v: Vpu)
    ensures Deinitialized(v).irq.watchdog == v.irq.watchdog
  {
  }

  /** One that does not is marked as collapsed, and powered twice when it is next started and resumed. */
  lemma CollapseInDeinitPowersTwice(v: Vpu, s: Start)
    requires Consistent(v) && v.state == CoreDeinit && !v.powered && AllGood(s)
    ensures var running := Step(Step(v, Collapse(true)), Event.Init(s));
            && running.state == CoreInit && running.suspended && running.counts == NOTHING.Plus(1)
            && Step(running, Resume(NoFault, true)).counts == NOTHING.Plus(2)
  {
    hide Initialized, Collapsed, Resumed, PoweredOn, Deinitialized;
    assert !v.suspended && v.counts == NOTHING;
    hide Consistent;
    assert NOTHING.Plus(1).Plus(1) == NOTHING.Plus(2);
    hide Counts.Plus;
    CollapseOfUnpowered(v);
    CleanStart(Collapsed(v, true), s);
    PowerOnCounts(Collapsed(v, true));
    ResumeCounts(Initialized(Collapsed(v, true), s));
  }

  lemma CollapseOfUnpowered(v: Vpu)
    requires !v.powered && !v.suspended
    ensures Collapsed(v, true) == v.(suspended := true)
  {
  }

  lemma PowerOnCounts(v: Vpu)
    ensures PoweredOn(v, NoFault).counts == v.counts.Plus(1) && PoweredOn(v, NoFault).suspended == v.suspended
  {
  }

  lemma ResumeCounts(v: Vpu)
    requires v.suspended
    ensures Resumed(v, NoFault, true).counts == v.counts.Plus(1)
  {
  }

  lemma RunningIsHeld(v: Vpu)
    requires Consistent(v) && v.state != CoreDeinit
    ensures v.suspended == !v.powered && v.bandwidth == v.rate == v.powered
    ensures v.counts == if v.powered then NOTHING.Plus(1) else NOTHING
  {
  }

  /** Power-on undoes power-off. */
  lemma PowerOnUndoesPowerOff(v: Vpu)
    requires v.powered && v.bandwidth && v.rate && !v.irq.watchdog
    ensures PoweredOn(PoweredOff(v), NoFault) == v
  {
  }

  lemma CollapseIsPowerOff(v: Vpu)
    requires !v.suspended
    ensures Collapsed(v, true) == PoweredOff(v).(suspended := true)
  {
  }

  lemma ResumeIsPowerOn(v: Vpu, fault: Fault, up: bool)
    requires v.suspended
    ensures Resumed(v, fault, up) == if fault == NoFault && !up then PoweredOff(PoweredOn(v, NoFault))
                                     else PoweredOn(v, fault).(suspended := fault != NoFault)
  {
  }

  /** A core that collapses and resumes is as it was before. */
  lemma ResumeUndoesCollapse(v: Vpu)
    requires Consistent(v) && v.state != CoreDeinit && v.powered && !v.irq.watchdog
    ensures Resumed(Collapsed(v, true), NoFault, true) == v
  {
    hide Consistent, Collapsed, Resumed, Residue;
    RunningIsHeld(v);
    CollapseIsPowerOff(v);
    ResumeIsPowerOn(Collapsed(v, true), NoFault, true);
    PowerOnUndoesPowerOff(v);
    SuspendedPowersTheSame(PoweredOff(v));
  }

  lemma SuspendedPowersTheSame(v: Vpu)
    ensures PoweredOn(v.(suspended := true), NoFault) == PoweredOn(v, NoFault).(suspended := true)
  {
  }

  /**
   A collapsed core is back exactly if its power and its firmware are; if only the firmware is not, its power goes
   again, and nothing has changed.
   */
  lemma ResumeOutcome(v: Vpu, fault: Fault, up: bool)
    requires Consistent(v) && v.suspended && v.irq == Irq(1, false, v.irq.inFlight)
    ensures var after := Resumed(v, fault, up);
            && (!after.suspended <==> fault == NoFault && up)
            && (fault == NoFault && !up ==> after == v)
            && after.state == v.state && after.queues == v.queues && after.firmware == v.firmware
  {
    assert v.state != CoreDeinit;
    hide *;
    RunningIsHeld(v);
    ResumeIsPowerOn(v, fault, up);
    PowerMovesPowerOnly(v, fault);
    if fault == NoFault && !up {
      PowerOffUndoesPowerOn(v);
    }
  }

  /**
   A system error changes the state and nothing else.  A recovery that goes well brings the core back, power, queues
   and firmware; a start without one does not.
   */
  lemma OnlyRecoveryBringsBack(v: Vpu, s: Start)
    requires Consistent(v) && v.state != CoreDeinit && AllGood(s)
    ensures var failed := Step(v, SystemError);
            && failed == v.(state := CoreError) && Consistent(failed)
            && Step(failed, Event.Init(s)).state == CoreDeinit
            && Step(failed, Recover(s)).state == CoreInit && Consistent(Step(failed, Recover(s)))
            && Step(failed, Recover(s)).powered && !Step(failed, Recover(s)).suspended
  {
    var failed := v.(state := CoreError);
    assert Consistent(failed);
    hide Initialized, Deinitialized, Consistent;
    DeinitReleasesAll(failed);
    RecoverKeepsConsistent(failed, s);
    WhereStartEnds(failed, s);
    WhereStartEnds(Deinitialized(failed), s);
    CleanStart(Deinitialized(failed), s);
    RunningIsHeld(Initialized(Deinitialized(failed), s));
  }

  /** A start in ERROR: it reports failure, says DEINIT, and everything is still held, out of reach of any deinit. */
  lemma InitInErrorStrandsAll(v: Vpu, s: Start)
    requires Consistent(v) && v.state == CoreError
    ensures var after := Initialized(v, s);
            && after == v.(state := CoreDeinit)
            && after.queues == 1 && after.firmware == 1
            && Deinitialized(after) == after
  {
  }

  // The interrupt.

  /** What touches the interrupt line, one power operation or handler at a time. */
  datatype IrqEvent = Fires(watchdog: bool) | HandlerDone | On | OnFails | Off

  /** `powered` is what the driver believes; `live` says that the line was opened by a power-on and not closed since. */
  datatype Line = Line(powered: bool, live: bool, irq: Irq)

  /** Power operations come as the driver makes them; the line fires while it is open, the handler ends after that. */
  predicate IrqEnabled(l: Line, e: IrqEvent) {
    match e
    case Fires(_) => l.live && l.irq.depth == 0 && !l.irq.inFlight
    case HandlerDone => l.irq.inFlight
    case _ => true
  }

  function IrqStep(l: Line, e: IrqEvent): Line {
    match e
    // the hard handler masks the line and notes a watchdog
    case Fires(watchdog) => l.(irq := Fired(l.irq, watchdog))
    case HandlerDone => l.(irq := Handled(l.irq))
    case On => Line(true, true, Unmasked(l.irq))
    // a power-on that fails returns before it opens the line
    case OnFails => l.(powered := true)
    case Off => if l.powered then Line(false, false, MaskedOff(l.irq)) else l
  }

  /** Masked once while it is not open or after a watchdog, and once more by a handler that is going to unmask it. */
  predicate Masked(l: Line) {
    l.irq.depth == (if l.live && !l.irq.watchdog then 0 else 1) + (if l.irq.inFlight && !l.irq.watchdog then 1 else 0)
  }

  /**
   What unbalances the mask: power coming on while a handler is at work that will not know it has to, or still
   has to, unmask an older line; and power going off after a power-on that failed, which closes the line twice.
   */
  predicate Unbalances(l: Line, e: IrqEvent) {
    match e
    case On => l.irq.inFlight && (l.irq.watchdog || l.live)
    case Off => l.powered && !l.live && !l.irq.watchdog
    case _ => false
  }

  /** The mask stays balanced in a step exactly if the step is neither of those. */
  lemma MaskStaysBalanced(l: Line, e: IrqEvent)
    requires Masked(l) && IrqEnabled(l, e)
    ensures Masked(IrqStep(l, e)) <==> !Unbalances(l, e)
  {
  }

  predicate IrqRuns(l: Line, es: seq<IrqEvent>)
    decreases |es|
  {
    es == [] || (IrqEnabled(l, es[0]) && !Unbalances(l, es[0]) && IrqRuns(IrqStep(l, es[0]), es[1..]))
  }

  function IrqAfter(l: Line, es: seq<IrqEvent>): Line
    decreases |es|
  {
    if es == [] then l else IrqAfter(IrqStep(l, es[0]), es[1..])
  }

  lemma IrqAfterCons(l: Line, e: IrqEvent, es: seq<IrqEvent>)
    ensures IrqAfter(l, [e] + es) == IrqAfter(IrqStep(l, e), es)
  {
    assert ([e] + es)[1..] == es;
  }

  lemma {:induction false} IrqAfterAppend(l: Line, es: seq<IrqEvent>, fs: seq<IrqEvent>)
    ensures IrqAfter(l, es + fs) == IrqAfter(IrqAfter(l, es), fs)
    decreases |es|
  {
    if es == [] {
      assert es + fs == fs;
    } else {
      assert es + fs == [es[0]] + (es[1..] + fs);
      IrqAfterCons(l, es[0], es[1..] + fs);
      IrqAfterAppend(IrqStep(l, es[0]), es[1..], fs);
    }
  }

  /**
   Over any run without such a step, with or without watchdogs and failed power-ons: a core that is off and
   quiet is masked exactly once, and one that is on and quiet is open unless a watchdog was seen.
   */
  lemma {:induction false} QuietCoreIsMaskedOnce(l: Line, es: seq<IrqEvent>)
    requires Masked(l) && IrqRuns(l, es)
    ensures var end := IrqAfter(l, es);
            Masked(end) && (!end.irq.inFlight ==> end.irq.depth == if end.live && !end.irq.watchdog then 0 else 1)
    decreases |es|
  {
    if es != [] {
      MaskStaysBalanced(l, es[0]);
      QuietCoreIsMaskedOnce(IrqStep(l, es[0]), es[1..]);
    }
  }

  /** A watchdog that was seen is not forgotten until power comes on, whatever else fires or ends in between. */
  lemma {:induction false} WatchdogIsRemembered(l: Line, es: seq<IrqEvent>)
    requires On !in es
    ensures IrqAfter(l, es).irq.watchdog <==> l.irq.watchdog || Fires(true) in es
    decreases |es|
  {
    if es != [] {
      assert es == [es[0]] + es[1..];
      WatchdogIsRemembered(IrqStep(l, es[0]), es[1..]);
    }
  }

  // Which power operations the lifecycle makes.

  function StartOps(s: Start): seq<IrqEvent> {
    if !s.queues then []
    else if s.fault != NoFault then [OnFails]
    else if !s.load || !s.resume || !s.boot || !s.hfi then [On, Off]
    else [On]
  }

  function InitOps(state: CoreState, s: Start): seq<IrqEvent> {
    if state == CoreDeinit then StartOps(s) else []
  }

  function Ops(v: Vpu, e: Event): seq<IrqEvent> {
    match e
    case Init(start) => InitOps(v.state, start)
    case Deinit => if v.state == CoreDeinit then [] else [Off]
    case Recover(start) => (if v.state == CoreDeinit then [] else [Off]) + StartOps(start)
    case SystemError => []
    case Collapse(ready) => if v.suspended || !ready then [] else [Off]
    case Resume(fault, up) =>
      if !v.suspended then [] else if fault != NoFault then [OnFails] else if !up then [On, Off] else [On]
  }

  /** The line of a core, given whether it is live. */
  function LineOf(v: Vpu, live: bool): Line {
    Line(v.powered, live, v.irq)
  }

  lemma InitRunsLine(v: Vpu, live: bool, s: Start)
    ensures var l := IrqAfter(LineOf(v, live), InitOps(v.state, s));
            l == LineOf(Initialized(v, s), l.live)
  {
    var l := LineOf(v, live);
    if v.state == CoreDeinit && s.queues {
      IrqAfterCons(l, if s.fault == NoFault then On else OnFails, []);
      IrqAfterCons(l, On, [Off]);
      IrqAfterCons(IrqStep(l, On), Off, []);
      assert [On] + [Off] == [On, Off] && [On] + [] == [On] && [Off] + [] == [Off] && [OnFails] + [] == [OnFails];
    }
  }

  lemma OneOp(l: Line, e: IrqEvent)
    ensures IrqAfter(l, [e]) == IrqStep(l, e)
  {
    assert [e][1..] == [];
  }

  /** Every step of the lifecycle moves the line as its power operations do, one after the other. */
  lemma StepRunsLine(v: Vpu, live: bool, e: Event)
    ensures var l := IrqAfter(LineOf(v, live), Ops(v, e));
            l == LineOf(Step(v, e), l.live)
  {
    var l := LineOf(v, live);
    OneOp(l, Off);
    OneOp(l, OnFails);
    OneOp(l, On);
    match e
    case Init(start) => InitRunsLine(v, live, start);
    case Deinit =>
    case Recover(start) =>
      var off := if v.state == CoreDeinit then [] else [Off];
      var mid := IrqAfter(l, off);
      IrqAfterAppend(l, off, StartOps(start));
      InitRunsLine(Deinitialized(v), mid.live, start);
    case SystemError =>
    case Collapse(_) =>
    case Resume(_, _) =>
      IrqAfterCons(l, On, [Off]);
      OneOp(IrqStep(l, On), Off);
      assert [On] + [Off] == [On, Off];
  }

  // Lifecycle and interrupts together.

  datatype Happening = Life(event: Event) | Interrupt(watchdog: bool) | HandlerEnds

  datatype Machine = Machine(vpu: Vpu, live: bool)

  function OpsOf(m: Machine, h: Happening): seq<IrqEvent> {
    match h
    case Life(event) => Ops(m.vpu, event)
    case Interrupt(watchdog) => [Fires(watchdog)]
    case HandlerEnds => [HandlerDone]
  }

  function Happened(m: Machine, h: Happening): Machine {
    var live := IrqAfter(LineOf(m.vpu, m.live), OpsOf(m, h)).live;
    match h
    case Life(event) => Machine(Step(m.vpu, event), live)
    case Interrupt(watchdog) => Machine(m.vpu.(irq := Fired(m.vpu.irq, watchdog)), live)
    case HandlerEnds => Machine(m.vpu.(irq := Handled(m.vpu.irq)), live)
  }

  /** What can happen, and leaves the mask in balance. */
  predicate Orderly(m: Machine, hs: seq<Happening>)
    decreases |hs|
  {
    hs == [] ||
    (IrqRuns(LineOf(m.vpu, m.live), OpsOf(m, hs[0])) && Orderly(Happened(m, hs[0]), hs[1..]))
  }

  function Later(m: Machine, hs: seq<Happening>): Machine
    decreases |hs|
  {
    if hs == [] then m else Later(Happened(m, hs[0]), hs[1..])
  }

  lemma HappeningRunsLine(m: Machine, h: Happening)
    ensures var next := Happened(m, h);
            LineOf(next.vpu, next.live) == IrqAfter(LineOf(m.vpu, m.live), OpsOf(m, h))
  {
    match h
    case Life(event) => StepRunsLine(m.vpu, m.live, event);
    case Interrupt(watchdog) => OneOp(LineOf(m.vpu, m.live), Fires(watchdog));
    case HandlerEnds => OneOp(LineOf(m.vpu, m.live), HandlerDone);
  }

  /** The driver, with interrupts whenever they can come: as long as nothing unbalances the mask it is what it should be. */
  lemma {:induction false} DriverKeepsMask(m: Machine, hs: seq<Happening>)
    requires Masked(LineOf(m.vpu, m.live)) && Orderly(m, hs)
    ensures var end := Later(m, hs);
            && Masked(LineOf(end.vpu, end.live))
            && (!end.vpu.irq.inFlight ==> end.vpu.irq.depth == if end.live && !end.vpu.irq.watchdog then 0 else 1)
    decreases |hs|
  {
    if hs != [] {
      QuietCoreIsMaskedOnce(LineOf(m.vpu, m.live), OpsOf(m, hs[0]));
      HappeningRunsLine(m, hs[0]);
      DriverKeepsMask(Happened(m, hs[0]), hs[1..]);
    }
  }

  // The two runs that unbalance it.

  /** A watchdog handler that ends after power came back and went again unmasks the line of a core that is off. */
  lemma LateWatchdogHandlerUnmasks()
    ensures var l := IrqAfter(Line(false, false, Irq(1, false, false)), [On, Fires(true), Off, On, Off]);
            IrqEnabled(l, HandlerDone) && IrqStep(l, HandlerDone) == Line(false, false, Irq(0, false, false))
  {
  }

  lemma FailedResumeKeepsLine(v: Vpu, fault: Fault, up: bool)
    requires v.suspended && fault != NoFault
    ensures var failed := Resumed(v, fault, up);
            failed.state == v.state && failed.powered && failed.irq == v.irq
  {
  }

  lemma DeinitClosesLine(v: Vpu)
    requires v.state != CoreDeinit && v.powered
    ensures Deinitialized(v).state == CoreDeinit && Deinitialized(v).irq == MaskedOff(v.irq)
  {
  }

  /**
   A collapsed core whose power-on fails is recovered when the device is next opened: its line, masked once,
   is masked again, and stays masked on the core that the recovery starts.
   */
  lemma FailedResumeLeavesRunningCoreMasked(v: Vpu, fault: Fault, up: bool, s: Start)
    requires Consistent(v) && v.state == CoreInit && v.suspended && v.irq == Irq(1, false, false) && fault != NoFault
    requires AllGood(s)
    ensures Masked(LineOf(v, false)) && Masked(LineOf(Resumed(v, fault, up), false))
    ensures Deinitialized(Resumed(v, fault, up)).irq.depth == 2
    ensures var running := Step(Resumed(v, fault, up), Recover(s));
            running.state == CoreInit && running.powered && running.irq == Irq(1, false, false)
            && !Masked(LineOf(running, true))
  {
    hide Resumed, Deinitialized, Initialized;
    var failed := Resumed(v, fault, up);
    FailedResumeKeepsLine(v, fault, up);
    DeinitClosesLine(failed);
    CleanStart(Deinitialized(failed), s);
  }
}
