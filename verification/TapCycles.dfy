/** The raw TCK sequences of tap_integrity.py: the paths tap_ir_play does not navigate, through Pause and
    Exit2, Capture straight to Exit1, Select-IR to reset. While they load no instruction that reaches the
    network, the network does not see them. */
module TapCycles {
  import opened Wrappers
  import opened Bits
  import opened TapFsm
  import opened TapModel
  import opened TapPlay
  import opened TapSelect

  /** Run-Test/Idle to Shift-DR, to Shift-IR; Exit1 to Run-Test/Idle; Exit1 to Pause, held two more cycles,
      and back to the shift. */
  function ToShiftDr(): Cycles { Idle([true, false, false]) }

  function ToShiftIr(): Cycles { Idle([true, true, false, false]) }

  function Exit1ToIdle(): Cycles { Idle([true, false]) }

  function PauseAndResume(): Cycles { Idle([false, false, false, true, false]) }

  /** _ir_load. */
  function IrLoad(opcode: int, irWidth: nat): Cycles {
    ToShiftIr() + ShiftCycles(FromInt(opcode, irWidth)) + Exit1ToIdle()
  }

  /** _dr_scan_cycles, on the bits it feeds. */
  function DrCycles(fed: Bits): Cycles { ToShiftDr() + ShiftCycles(fed) + Exit1ToIdle() }

  /** The bits of a scan paused twice. */
  function PausedCycles(first: Bits, second: Bits, last: Bits): Cycles {
    ToShiftDr() + ShiftCycles(first) + PauseAndResume() + ShiftCycles(second) + PauseAndResume() + ShiftCycles(last)
    + Exit1ToIdle()
  }

  // ---------------------------------------------------------------- quiet runs

  /** An instruction whose register is built into the TAP. */
  predicate Quiet(cfg: Config, i: Instruction) { i.BYPASS? || (i.IDCODE? && cfg.hasIdcode) }

  /** The instruction register's shift stage over one cycle. */
  function IrStep(cfg: Config, s: TapState, ir: Bits, tdi: bool): Bits {
    if s.CaptureIr? then FromInt(CAPTURE_IR_PATTERN, cfg.irWidth)
    else if s.ShiftIrState? then ShiftRight(ir, tdi).0
    else ir
  }

  /** A run of cycles that takes the controller and the shift stage from one place to another and loads only
      quiet instructions on the way. */
  predicate Goes(cfg: Config, s: TapState, ir: Bits, cycles: Cycles, s': TapState, ir': Bits)
    decreases |cycles|
  {
    if cycles == [] then s == s' && ir == ir'
    else
      && (s.UpdateIr? ==> Quiet(cfg, Decode(cfg, ToInt(ir))))
      && Goes(cfg, NextState(s, cycles[0].0), IrStep(cfg, s, ir, cycles[0].1), cycles[1..], s', ir')
  }

  lemma {:induction false} GoesJoin(
    cfg: Config, s: TapState, ir: Bits, a: Cycles, s1: TapState, ir1: Bits, b: Cycles, s2: TapState, ir2: Bits)
    requires Goes(cfg, s, ir, a, s1, ir1) && Goes(cfg, s1, ir1, b, s2, ir2)
    ensures Goes(cfg, s, ir, a + b, s2, ir2)
    decreases |a|
  {
    hide NextState, IrStep, Quiet, Decode;
    if a == [] {
      assert a + b == b;
    } else {
      assert (a + b)[0] == a[0] && (a + b)[1..] == a[1..] + b;
      GoesJoin(cfg, NextState(s, a[0].0), IrStep(cfg, s, ir, a[0].1), a[1..], s1, ir1, b, s2, ir2);
    }
  }

  lemma GoesOn(cfg: Config, s: TapState, ir: Bits, tms: Bits, rest: Bits, s': TapState, ir': Bits)
    requires tms != [] && tms[1..] == rest && (s.UpdateIr? ==> Quiet(cfg, Decode(cfg, ToInt(ir))))
    requires Goes(cfg, NextState(s, tms[0]), IrStep(cfg, s, ir, false), Idle(rest), s', ir')
    ensures Goes(cfg, s, ir, Idle(tms), s', ir')
  {
    hide NextState, IrStep, Quiet, Decode;
    assert Idle(tms)[0] == (tms[0], false) && Idle(tms)[1..] == Idle(rest);
  }

  lemma GoesNowhere(cfg: Config, s: TapState, ir: Bits)
    ensures Goes(cfg, s, ir, Idle([]), s, ir)
  {
  }

  /** Quiet cycles never touch the network, and leave a quiet instruction. */
  lemma {:induction false} QuietTicks<D>(w: Wiring<D>, t: Tap<D>, cycles: Cycles, s': TapState, ir': Bits)
    requires Quiet(t.cfg, t.instruction) && Goes(t.cfg, t.state, t.ir, cycles, s', ir')
    ensures Ticks(w, t, cycles).Some?
    ensures var u := Ticks(w, t, cycles).value.0;
            u.cfg == t.cfg && u.state == s' && u.ir == ir' && u.network == t.network && Quiet(u.cfg, u.instruction)
    decreases |cycles|
  {
    hide NextState;
    if cycles != [] {
      QuietTick(w, t, cycles[0].0, cycles[0].1);
      QuietTicks(w, Tick(w, t, cycles[0].0, cycles[0].1).value.0, cycles[1..], s', ir');
    }
  }

  lemma QuietTick<D>(w: Wiring<D>, t: Tap<D>, tms: bool, tdi: bool)
    requires Quiet(t.cfg, t.instruction)
    requires t.state.UpdateIr? ==> Quiet(t.cfg, Decode(t.cfg, ToInt(t.ir)))
    ensures Tick(w, t, tms, tdi).Some?
    ensures var u := Tick(w, t, tms, tdi).value.0;
            && u.cfg == t.cfg && u.state == NextState(t.state, tms) && u.ir == IrStep(t.cfg, t.state, t.ir, tdi)
            && u.network == t.network && Quiet(u.cfg, u.instruction)
  {
    hide NextState, Decode, FromInt, ToInt;
  }

  // ---------------------------------------------------------------- the pieces

  lemma {:induction false} DrShiftGoes(cfg: Config, ir: Bits, fed: Bits)
    requires fed != []
    ensures Goes(cfg, ShiftDrState, ir, ShiftCycles(fed), Exit1Dr, ir)
    decreases |fed|
  {
    var cycles := ShiftCycles(fed);
    if |fed| == 1 {
      assert cycles[1..] == [];
    } else {
      assert cycles[1..] == ShiftCycles(fed[1..]);
      DrShiftGoes(cfg, ir, fed[1..]);
    }
  }

  /** The shift stage keeps the last bits fed. */
  lemma {:induction false} IrShiftGoes(cfg: Config, ir: Bits, fed: Bits)
    requires fed != [] && ir != []
    ensures Goes(cfg, ShiftIrState, ir, ShiftCycles(fed), Exit1Ir, (ir + fed)[|fed|..])
    decreases |fed|
  {
    var cycles, next := ShiftCycles(fed), ir[1..] + [fed[0]];
    assert cycles[0] == (|fed| == 1, fed[0]);
    assert IrStep(cfg, ShiftIrState, ir, fed[0]) == next;
    ShiftOff(ir, fed);
    hide IrStep, NextState;
    if |fed| == 1 {
      assert cycles[1..] == [];
      assert NextState(ShiftIrState, true) == Exit1Ir by { ShiftStates(); }
    } else {
      assert cycles[1..] == ShiftCycles(fed[1..]);
      IrShiftGoes(cfg, next, fed[1..]);
      assert NextState(ShiftIrState, false) == ShiftIrState by { ShiftStates(); }
    }
  }

  lemma ShiftStates()
    ensures NextState(ShiftIrState, true) == Exit1Ir && NextState(ShiftIrState, false) == ShiftIrState
  {
  }

  lemma ShiftOff(ir: Bits, fed: Bits)
    requires ir != [] && fed != []
    ensures var next := ir[1..] + [fed[0]];
            (next + fed[1..])[|fed| - 1..] == (ir + fed)[|fed|..] && (|fed| == 1 ==> next == (ir + fed)[1..])
  {
    var next := ir[1..] + [fed[0]];
    assert ir + fed == [ir[0]] + (next + fed[1..]);
  }

  lemma EntersDr(cfg: Config, ir: Bits)
    ensures Goes(cfg, RunTestIdle, ir, ToShiftDr(), ShiftDrState, ir)
  {
    var end := ShiftDrState;
    GoesNowhere(cfg, end, ir);
    hide Goes, Idle;
    GoesOn(cfg, CaptureDr, ir, [false], [], end, ir);
    GoesOn(cfg, SelectDrScan, ir, [false, false], [false], end, ir);
    GoesOn(cfg, RunTestIdle, ir, [true, false, false], [false, false], end, ir);
  }

  lemma EntersIr(cfg: Config, ir: Bits)
    ensures Goes(cfg, RunTestIdle, ir, ToShiftIr(), ShiftIrState, FromInt(CAPTURE_IR_PATTERN, cfg.irWidth))
  {
    var end, pattern := ShiftIrState, FromInt(CAPTURE_IR_PATTERN, cfg.irWidth);
    GoesNowhere(cfg, end, pattern);
    hide Goes, Idle;
    GoesOn(cfg, CaptureIr, ir, [false], [], end, pattern);
    GoesOn(cfg, SelectIrScan, ir, [false, false], [false], end, pattern);
    GoesOn(cfg, SelectDrScan, ir, [true, false, false], [false, false], end, pattern);
    GoesOn(cfg, RunTestIdle, ir, [true, true, false, false], [true, false, false], end, pattern);
  }

  lemma LeavesDr(cfg: Config, ir: Bits)
    ensures Goes(cfg, Exit1Dr, ir, Exit1ToIdle(), RunTestIdle, ir)
  {
    GoesNowhere(cfg, RunTestIdle, ir);
    hide Goes, Idle;
    GoesOn(cfg, UpdateDr, ir, [false], [], RunTestIdle, ir);
    GoesOn(cfg, Exit1Dr, ir, [true, false], [false], RunTestIdle, ir);
  }

  lemma LeavesIr(cfg: Config, ir: Bits)
    requires Quiet(cfg, Decode(cfg, ToInt(ir)))
    ensures Goes(cfg, Exit1Ir, ir, Exit1ToIdle(), RunTestIdle, ir)
  {
    GoesNowhere(cfg, RunTestIdle, ir);
    hide Goes, Idle, Quiet, Decode;
    GoesOn(cfg, UpdateIr, ir, [false], [], RunTestIdle, ir);
    GoesOn(cfg, Exit1Ir, ir, [true, false], [false], RunTestIdle, ir);
  }

  lemma PausesDr(cfg: Config, ir: Bits)
    ensures Goes(cfg, Exit1Dr, ir, PauseAndResume(), ShiftDrState, ir)
  {
    var end := ShiftDrState;
    GoesNowhere(cfg, end, ir);
    hide Goes, Idle;
    GoesOn(cfg, Exit2Dr, ir, [false], [], end, ir);
    GoesOn(cfg, PauseDr, ir, [true, false], [false], end, ir);
    GoesOn(cfg, PauseDr, ir, [false, true, false], [true, false], end, ir);
    GoesOn(cfg, PauseDr, ir, [false, false, true, false], [false, true, false], end, ir);
    GoesOn(cfg, Exit1Dr, ir, [false, false, false, true, false], [false, false, true, false], end, ir);
  }

  lemma PausesIr(cfg: Config, ir: Bits)
    ensures Goes(cfg, Exit1Ir, ir, PauseAndResume(), ShiftIrState, ir)
  {
    var end := ShiftIrState;
    GoesNowhere(cfg, end, ir);
    hide Goes, Idle;
    GoesOn(cfg, Exit2Ir, ir, [false], [], end, ir);
    GoesOn(cfg, PauseIr, ir, [true, false], [false], end, ir);
    GoesOn(cfg, PauseIr, ir, [false, true, false], [true, false], end, ir);
    GoesOn(cfg, PauseIr, ir, [false, false, true, false], [false, true, false], end, ir);
    GoesOn(cfg, Exit1Ir, ir, [false, false, false, true, false], [false, false, true, false], end, ir);
  }

  /** Exit1 through Pause and Exit2 to Update. */
  function PauseToUpdate(): Cycles { Idle([false, true, true]) }

  /** Update straight to Capture and Exit1, and through another Update to Run-Test/Idle. */
  function CaptureAndExit(): Cycles { Idle([true, false, true, true, false]) }

  lemma PausesToUpdate(cfg: Config, ir: Bits)
    ensures Goes(cfg, Exit1Dr, ir, PauseToUpdate(), UpdateDr, ir) && Goes(cfg, Exit1Ir, ir, PauseToUpdate(), UpdateIr, ir)
  {
    GoesNowhere(cfg, UpdateDr, ir);
    GoesNowhere(cfg, UpdateIr, ir);
    hide Goes, Idle;
    GoesOn(cfg, Exit2Dr, ir, [true], [], UpdateDr, ir);
    GoesOn(cfg, PauseDr, ir, [true, true], [true], UpdateDr, ir);
    GoesOn(cfg, Exit1Dr, ir, [false, true, true], [true, true], UpdateDr, ir);
    GoesOn(cfg, Exit2Ir, ir, [true], [], UpdateIr, ir);
    GoesOn(cfg, PauseIr, ir, [true, true], [true], UpdateIr, ir);
    GoesOn(cfg, Exit1Ir, ir, [false, true, true], [true, true], UpdateIr, ir);
  }

  lemma CapturesAndExits(cfg: Config, ir: Bits)
    ensures Goes(cfg, UpdateDr, ir, CaptureAndExit(), RunTestIdle, ir)
  {
    var end := RunTestIdle;
    GoesNowhere(cfg, end, ir);
    hide Goes, Idle;
    GoesOn(cfg, UpdateDr, ir, [false], [], end, ir);
    GoesOn(cfg, Exit1Dr, ir, [true, false], [false], end, ir);
    GoesOn(cfg, CaptureDr, ir, [true, true, false], [true, false], end, ir);
    GoesOn(cfg, SelectDrScan, ir, [false, true, true, false], [true, true, false], end, ir);
    GoesOn(cfg, UpdateDr, ir, [true, false, true, true, false], [false, true, true, false], end, ir);
  }

  /** From Update-IR straight into a DR scan. */
  lemma UpdateIrToDr(cfg: Config, ir: Bits)
    requires Quiet(cfg, Decode(cfg, ToInt(ir)))
    ensures Goes(cfg, UpdateIr, ir, ToShiftDr(), ShiftDrState, ir)
  {
    var end := ShiftDrState;
    GoesNowhere(cfg, end, ir);
    hide Goes, Idle, Quiet, Decode;
    GoesOn(cfg, CaptureDr, ir, [false], [], end, ir);
    GoesOn(cfg, SelectDrScan, ir, [false, false], [false], end, ir);
    GoesOn(cfg, UpdateIr, ir, [true, false, false], [false, false], end, ir);
  }

  /** Capture-IR straight to Update-IR: the capture pattern itself is loaded. */
  function CaptureIrLoad(): Cycles { Idle([true, true, false, true, true, false]) }

  lemma CaptureIrLoads(cfg: Config, ir: Bits)
    requires Quiet(cfg, Decode(cfg, ToInt(FromInt(CAPTURE_IR_PATTERN, cfg.irWidth))))
    ensures Goes(cfg, RunTestIdle, ir, CaptureIrLoad(), RunTestIdle, FromInt(CAPTURE_IR_PATTERN, cfg.irWidth))
  {
    var end, pattern := RunTestIdle, FromInt(CAPTURE_IR_PATTERN, cfg.irWidth);
    GoesNowhere(cfg, end, pattern);
    hide Goes, Idle, Quiet, Decode;
    GoesOn(cfg, UpdateIr, pattern, [false], [], end, pattern);
    GoesOn(cfg, Exit1Ir, pattern, [true, false], [false], end, pattern);
    GoesOn(cfg, CaptureIr, ir, [true, true, false], [true, false], end, pattern);
    GoesOn(cfg, SelectIrScan, ir, [false, true, true, false], [true, true, false], end, pattern);
    GoesOn(cfg, SelectDrScan, ir, [true, false, true, true, false], [false, true, true, false], end, pattern);
    GoesOn(cfg, RunTestIdle, ir, [true, true, false, true, true, false], [true, false, true, true, false], end, pattern);
  }

  /** Select-IR to Test-Logic-Reset, held a cycle, and back. */
  function SelectIrReset(): Cycles { Idle([true, true, true, true, false]) }

  lemma SelectIrResets(cfg: Config, ir: Bits)
    ensures Goes(cfg, RunTestIdle, ir, SelectIrReset(), RunTestIdle, ir)
  {
    var end := RunTestIdle;
    GoesNowhere(cfg, end, ir);
    hide Goes, Idle;
    GoesOn(cfg, TestLogicReset, ir, [false], [], end, ir);
    GoesOn(cfg, TestLogicReset, ir, [true, false], [false], end, ir);
    GoesOn(cfg, SelectIrScan, ir, [true, true, false], [true, false], end, ir);
    GoesOn(cfg, SelectDrScan, ir, [true, true, true, false], [true, true, false], end, ir);
    GoesOn(cfg, RunTestIdle, ir, [true, true, true, true, false], [true, true, true, false], end, ir);
  }

  // ---------------------------------------------------------------- whole scans

  lemma DrScanGoes(cfg: Config, ir: Bits, fed: Bits)
    requires fed != []
    ensures Goes(cfg, RunTestIdle, ir, DrCycles(fed), RunTestIdle, ir)
  {
    hide Goes, ShiftCycles, ToShiftDr, Exit1ToIdle;
    EntersDr(cfg, ir);
    DrShiftGoes(cfg, ir, fed);
    LeavesDr(cfg, ir);
    GoesJoin(cfg, RunTestIdle, ir, ToShiftDr(), ShiftDrState, ir, ShiftCycles(fed), Exit1Dr, ir);
    GoesJoin(cfg, RunTestIdle, ir, ToShiftDr() + ShiftCycles(fed), Exit1Dr, ir, Exit1ToIdle(), RunTestIdle, ir);
  }

  lemma IrLoadGoes(cfg: Config, ir: Bits, opcode: int)
    requires cfg.irWidth >= 1 && 0 <= opcode < Pow2(cfg.irWidth) && Quiet(cfg, Decode(cfg, opcode))
    ensures Goes(cfg, RunTestIdle, ir, IrLoad(opcode, cfg.irWidth), RunTestIdle, FromInt(opcode, cfg.irWidth))
  {
    hide Goes, ShiftCycles, ToShiftIr, Exit1ToIdle, Quiet, Decode;
    var n, pattern, fed := cfg.irWidth, FromInt(CAPTURE_IR_PATTERN, cfg.irWidth), FromInt(opcode, cfg.irWidth);
    EntersIr(cfg, ir);
    IrShiftGoes(cfg, pattern, fed);
    assert (pattern + fed)[n..] == fed;
    ToIntFromInt(opcode, n);
    LeavesIr(cfg, fed);
    GoesJoin(cfg, RunTestIdle, ir, ToShiftIr(), ShiftIrState, pattern, ShiftCycles(fed), Exit1Ir, fed);
    GoesJoin(cfg, RunTestIdle, ir, ToShiftIr() + ShiftCycles(fed), Exit1Ir, fed, Exit1ToIdle(), RunTestIdle, fed);
  }

  /** Loading any opcode: it is decoded, and no data register is touched. */
  lemma TicksIrLoad<D>(w: Wiring<D>, t: Tap<D>, opcode: int)
    requires t.state == RunTestIdle && t.cfg.irWidth >= 1 && 0 <= opcode < Pow2(t.cfg.irWidth)
    ensures Ticks(w, t, IrLoad(opcode, t.cfg.irWidth)).Some?
    ensures Ticks(w, t, IrLoad(opcode, t.cfg.irWidth)).value.0
            == t.(ir := FromInt(opcode, t.cfg.irWidth), instruction := Decode(t.cfg, opcode))
  {
    var n := t.cfg.irWidth;
    var fed, pattern := FromInt(opcode, n), FromInt(CAPTURE_IR_PATTERN, n);
    var t1 := t.(ir := pattern, state := ShiftIrState);
    EnterIr(w, t);
    TicksShiftIr(w, t1, fed);
    var t2 := t1.(ir := fed, state := Exit1Ir);
    assert pattern[n..] + fed == fed;
    ToIntFromInt(opcode, n);
    var t3 := t.(ir := fed, instruction := Decode(t.cfg, opcode));
    LeaveIr(w, t2, t3);
    TicksCompose(w, t, ToShiftIr(), ShiftCycles(fed));
    TicksCompose(w, t, ToShiftIr() + ShiftCycles(fed), Exit1ToIdle());
  }
}
