/** The driver's housekeeping state machine, run once per 1 Hz tick. */
module Housekeeping {

  /** Driver_state; the source's `default:` branch is unreachable for this
      closed enumeration. */
  datatype DriverState = Unknown | Init | Normal | Error

  /** How each stage of ADC bring-up ends: the generated peripheral
      initialisers (MX_DMA_Init, MX_ADC1_Init, which enter Error_Handler
      themselves on failure), ADC calibration, and the start of DMA. */
  datatype BringUp = BringUp(initOk: bool, calibrationOk: bool, dmaStartOk: bool)
  {
    predicate Succeeds() { initOk && calibrationOk && dmaStartOk }
  }

  /** One tick either moves to a next state or ends in Error_Handler,
      which never returns. */
  datatype StepResult = Advance(next: DriverState) | Halted

  /** The transition taken by one 1 Hz tick from state `s`. Only an INIT
      tick whose bring-up fails at some stage halts, and no tick enters ERROR or UNKNOWN. */
  function Step(s: DriverState, hal: BringUp): (r: StepResult)
    ensures r.Halted? <==> s == Init && !hal.Succeeds()
    ensures r.Advance? ==> r.next == Init || r.next == Normal
    ensures r.Advance? ==> (r.next == Normal <==> s == Normal || s == Init)
  {
    match s
    case Unknown => Advance(Init)
    case Init =>
      if !hal.initOk then Halted
      else if !hal.calibrationOk then Halted
      else if !hal.dmaStartOk then Halted
      else Advance(Normal)
    case Normal => Advance(Normal)
    case Error => Advance(Init)
  }

  /** The outcome of a sequence of 1 Hz ticks, one bring-up report per tick. */
  function Run(s: DriverState, ticks: seq<BringUp>): StepResult
    decreases |ticks|
  {
    if ticks == [] then Advance(s)
    else
      match Step(s, ticks[0])
      case Halted => Halted
      case Advance(next) => Run(next, ticks[1..])
  }

  /** Once NORMAL, the driver stays NORMAL on every later tick. */
  lemma {:induction false} NormalIsAbsorbing(ticks: seq<BringUp>)
    ensures Run(Normal, ticks) == Advance(Normal)
    decreases |ticks|
  {
    if ticks != [] {
      NormalIsAbsorbing(ticks[1..]);
    }
  }

  /** From UNKNOWN (start-up) or ERROR (recovery), the first tick goes to
      INIT whatever the hardware says, a second tick with a successful
      bring-up reaches NORMAL, and the driver stays there. */
  lemma RecoveryReachesNormal(s: DriverState, first: BringUp, second: BringUp, later: seq<BringUp>)
    requires s == Unknown || s == Error
    requires second.Succeeds()
    ensures Run(s, [first]) == Advance(Init)
    ensures Run(s, [first, second] + later) == Advance(Normal)
  {
    var ticks := [first, second] + later;
    assert ticks[1..][1..] == later;
    NormalIsAbsorbing(later);
  }

  /** No sequence of ticks leads into ERROR from another state: fault entry
      is not wired to anything inside the state machine. */
  lemma {:induction false} NeverEntersError(s: DriverState, ticks: seq<BringUp>)
    requires s != Error
    ensures Run(s, ticks) != Advance(Error)
    decreases |ticks|
  {
    if ticks != [] {
      match Step(s, ticks[0])
      case Halted =>
      case Advance(next) => NeverEntersError(next, ticks[1..]);
    }
  }

  /** A run halts only if some tick reported a failed bring-up. */
  lemma {:induction false} HaltNeedsFailedBringUp(s: DriverState, ticks: seq<BringUp>)
    requires Run(s, ticks) == Halted
    ensures exists i :: 0 <= i < |ticks| && !ticks[i].Succeeds()
    decreases |ticks|
  {
    match Step(s, ticks[0])
    case Halted =>
      assert !ticks[0].Succeeds();
    case Advance(next) =>
      HaltNeedsFailedBringUp(next, ticks[1..]);
      var i :| 0 <= i < |ticks[1..]| && !ticks[1..][i].Succeeds();
      assert !ticks[i + 1].Succeeds();
  }
}
