/** The TAP model as the object it is (tap_model.py): one tick overwrites its state, its instruction
    register or the selected data register. Proved to step as TapModel says. */
module TapMachine {
  import opened Wrappers
  import opened Bits
  import opened TapFsm
  import opened TapModel

  class TapDevice<!D> {
    const cfg: Config
    const wiring: Wiring<D>
    var state: TapState
    var irShift: Bits
    var instruction: Instruction
    var bypassBit: bool
    var idcodeShift: Bits
    var network: D

    function Now(): Tap<D>
      reads this
    {
      Tap(cfg, state, irShift, instruction, bypassBit, idcodeShift, network)
    }

    constructor (cfg: Config, wiring: Wiring<D>, network: D)
      ensures this.cfg == cfg && this.wiring == wiring && Now() == ResetTap(cfg, network)
    {
      this.cfg, this.wiring, this.network := cfg, wiring, network;
      state, irShift, instruction := TestLogicReset, Zeros(cfg.irWidth), ResetInstruction(cfg);
      bypassBit, idcodeShift := false, Zeros(32);
    }

    /** TRST: the plugged-in network is the caller's to reset. */
    method Reset()
      modifies this
      ensures Now() == ResetTap(cfg, old(network))
      ensures state == TestLogicReset && instruction == (if cfg.hasIdcode then IDCODE else BYPASS) && !bypassBit
      ensures |irShift| == cfg.irWidth && (forall k :: 0 <= k < |irShift| ==> !irShift[k])
      ensures |idcodeShift| == 32 && forall k :: 0 <= k < 32 ==> !idcodeShift[k]
    {
      state, irShift, instruction := TestLogicReset, Zeros(cfg.irWidth), ResetInstruction(cfg);
      bypassBit, idcodeShift := false, Zeros(32);
    }

    /** One TCK rising edge: the old state acts, then the controller steps. None, and nothing changed,
        where the selected instruction has no data register. */
    method Tick(tms: bool, tdi: bool) returns (tdo: Option<bool>)
      modifies this
      ensures match TapModel.Tick(wiring, old(Now()), tms, tdi)
              case None => tdo.None? && Now() == old(Now())
              case Some((after, bit)) => tdo == Some(bit) && Now() == after
    {
      var oldState := state;
      tdo := Some(false);
      match oldState {
        case TestLogicReset => instruction := ResetInstruction(cfg);
        case CaptureIr => irShift := FromInt(CAPTURE_IR_PATTERN, cfg.irWidth);
        case ShiftIrState =>
          var (shifted, bit) := ShiftRight(irShift, tdi);
          irShift, tdo := shifted, Some(bit);
        case UpdateIr => instruction := Decode(cfg, ToInt(irShift));
        case CaptureDr =>
          var ok := CaptureRegister();
          if !ok { return None; }
        case ShiftDrState =>
          tdo := ShiftRegister(tdi);
          if tdo.None? { return; }
        case UpdateDr =>
          var ok := UpdateRegister();
          if !ok { return None; }
        case _ =>
      }
      state := NextState(oldState, tms);
    }

    method CaptureRegister() returns (ok: bool)
      modifies this
      ensures match CaptureActive(wiring, old(Now()))
              case None => !ok && Now() == old(Now())
              case Some(after) => ok && Now() == after
    {
      if instruction.BYPASS? {
        bypassBit := false;
        return true;
      }
      if instruction.IDCODE? {
        if !cfg.hasIdcode { return false; }
        idcodeShift := FromInt(cfg.idcodeValue, 32);
        return true;
      }
      var dr := Registered(wiring, instruction);
      if dr.None? { return false; }
      network := dr.value.capture(network);
      return true;
    }

    method ShiftRegister(tdi: bool) returns (tdo: Option<bool>)
      modifies this
      ensures match ShiftActive(wiring, old(Now()), tdi)
              case None => tdo.None? && Now() == old(Now())
              case Some((after, bit)) => tdo == Some(bit) && Now() == after
    {
      if instruction.BYPASS? {
        tdo := Some(bypassBit);
        bypassBit := tdi;
        return;
      }
      if instruction.IDCODE? {
        if !cfg.hasIdcode { return None; }
        var (shifted, bit) := ShiftRight(idcodeShift, tdi);
        idcodeShift := shifted;
        return Some(bit);
      }
      var dr := Registered(wiring, instruction);
      if dr.None? { return None; }
      var (n, bit) := dr.value.shift(network, tdi);
      network := n;
      return Some(bit);
    }

    method UpdateRegister() returns (ok: bool)
      modifies this
      ensures match UpdateActive(wiring, old(Now()))
              case None => !ok && Now() == old(Now())
              case Some(after) => ok && Now() == after
    {
      if instruction.BYPASS? {
        return true;
      }
      if instruction.IDCODE? {
        return cfg.hasIdcode;
      }
      var dr := Registered(wiring, instruction);
      if dr.None? { return false; }
      network := dr.value.update(network);
      return true;
    }
  }
}
