/** The states of the video core and of one instance (session) of it, and the changes the driver allows. */
module IrisState {

  datatype CoreState = CoreDeinit | CoreInit | CoreError

  datatype InstState = Deinit | Init | InputStreaming | OutputStreaming | Streaming | Error

  /** The flags an instance keeps next to its state, one bit each. */
  type Flags = bv8

  const NONE: Flags := 0
  const FIRST_IPSC: Flags := 0x01
  const DRC: Flags := 0x02
  const DRC_LAST: Flags := 0x04
  const DRAIN: Flags := 0x08
  const DRAIN_LAST: Flags := 0x10
  const INPUT_PAUSE: Flags := 0x20
  const OUTPUT_PAUSE: Flags := 0x40
  const LOAD_RESOURCES: Flags := 0x80

  /** OUTPUT carries the bitstream into the decoder, CAPTURE the frames out of it. */
  datatype Plane = Output | Capture

  datatype Phase = Phase(state: InstState, sub: Flags, recoveryPending: bool) {
    predicate Has(flag: Flags) {
      sub & flag != 0
    }

    predicate DrcPending() {
      Has(DRC) && Has(DRC_LAST)
    }

    predicate DrainPending() {
      Has(DRAIN) && Has(DRAIN_LAST)
    }

    predicate LastDue() {
      DrcPending() || DrainPending()
    }
  }

  /** What a change function leaves behind, and whether it returned success. */
  datatype Change = Change(phase: Phase, ok: bool)

  predicate MayGo(from: InstState, to: InstState) {
    match from
    case Init => to == InputStreaming || to == OutputStreaming || to == Deinit
    case InputStreaming => to == Init || to == Streaming || to == Deinit
    case OutputStreaming => to == Init || to == Streaming || to == Deinit
    case Streaming => to == InputStreaming || to == OutputStreaming || to == Deinit
    case Deinit => to == Init
    case Error => false
  }

  function ChangeState(p: Phase, to: InstState): Change {
    if p.state == Error || p.state == to then Change(p, true)
    else if to == Error then Change(p.(state := Error, recoveryPending := true), true)
    else if MayGo(p.state, to) then Change(p.(state := to), true)
    else Change(p, false)
  }

  function Fail(p: Phase): Phase {
    ChangeState(p, Error).phase
  }

  /** The state after stream-on of `plane`; anything unexpected is an error. */
  function OnTarget(state: InstState, plane: Plane): InstState {
    match (plane, state)
    case (Output, Init) => InputStreaming
    case (Output, OutputStreaming) => Streaming
    case (Capture, Init) => OutputStreaming
    case (Capture, InputStreaming) => Streaming
    case _ => Error
  }

  function OffTarget(state: InstState, plane: Plane): InstState {
    match (plane, state)
    case (Output, InputStreaming) => Init
    case (Output, Streaming) => OutputStreaming
    case (Capture, OutputStreaming) => Init
    case (Capture, Streaming) => InputStreaming
    case _ => Error
  }

  function Settable(state: InstState): Flags {
    match state
    case Init => LOAD_RESOURCES
    case InputStreaming => FIRST_IPSC | DRC | DRAIN | INPUT_PAUSE
    case OutputStreaming => DRC_LAST | DRAIN_LAST | OUTPUT_PAUSE | LOAD_RESOURCES
    case Streaming => DRC | DRAIN | DRC_LAST | DRAIN_LAST | INPUT_PAUSE | OUTPUT_PAUSE
    case Deinit => DRC | DRAIN | DRC_LAST | DRAIN_LAST | INPUT_PAUSE | OUTPUT_PAUSE
    case Error => NONE
  }

  /** One settable flag in a request is enough to let all of it through. */
  predicate AllowSub(state: InstState, request: Flags) {
    request == NONE || request & Settable(state) != 0
  }

  function ChangeSub(p: Phase, clear: Flags, request: Flags): Change {
    if p.state == Error || (clear == NONE && request == NONE) then Change(p, true)
    else if clear & request != 0 || !AllowSub(p.state, request) then Change(p, false)
    else Change(p.(sub := (p.sub | request) & !clear), true)
  }

  function BeginDrc(p: Phase): Change {
    if p.Has(DRC) then Change(p, false)
    else
      var which := if p.state == InputStreaming || p.state == Init then FIRST_IPSC else DRC;
      ChangeSub(p, NONE, which | INPUT_PAUSE)
  }

  function LastOfDrain(p: Phase): Change {
    if p.Has(DRAIN_LAST) || !p.Has(DRAIN) then Change(p, false)
    else ChangeSub(p, NONE, DRAIN_LAST | OUTPUT_PAUSE)
  }

  function LastOfDrc(p: Phase): Change {
    if p.Has(DRC_LAST) || !p.Has(DRC) || !p.Has(INPUT_PAUSE) then Change(p, false)
    else if p.Has(FIRST_IPSC) then Change(p, true)
    else ChangeSub(p, NONE, DRC_LAST | OUTPUT_PAUSE)
  }
}
