/** The TAP-transaction operations (tap_ir.py). Scan data is an integer whose bit i is the value of
    cycle i + 1. */
module TapIr {
  import opened Wrappers
  import opened Bits
  import opened TapFsm

  datatype Op =
    | GotoState(state: TapState)
    | ShiftIR(bits: nat, tdi: int, tdo: Option<int>, mask: Option<int>)
    | ShiftDR(bits: nat, tdi: int, tdo: Option<int>, mask: Option<int>)
    | Runtest(count: int)
    | PulsePin(port: string, pulses: int, hold: seq<(string, bool)>)
    | SetPins(pins: seq<(string, bool)>)

  /** The three operations of one DR scan from Run-Test/Idle and back. */
  function DrOps(shift: Op): seq<Op> {
    [GotoState(ShiftDrState), shift, GotoState(RunTestIdle)]
  }
}
