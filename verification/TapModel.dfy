/** The cycle-stepped TAP (tap_model.py): the controller, the instruction register, BYPASS, IDCODE
    and whatever data register is plugged in. A register's content is a bit list, bit 0 first, so
    a right shift drops the head and appends TDI. */
module TapModel {
  import opened Wrappers
  import opened Bits
  import opened TapFsm

  datatype Instruction = EXTEST | SAMPLE_PRELOAD | IDCODE | BYPASS | IJTAG_ACCESS

  const OPCODE_EXTEST := 0
  const OPCODE_IDCODE := 1
  const OPCODE_SAMPLE_PRELOAD := 2
  const CAPTURE_IR_PATTERN := OPCODE_IDCODE

  datatype Config = Config(irWidth: nat, hasIdcode: bool, idcodeValue: int, accessOpcode: Option<int>)

  /** decode_instruction. */
  function Decode(cfg: Config, opcode: int): Instruction {
    if cfg.accessOpcode.Some? && opcode == cfg.accessOpcode.value then IJTAG_ACCESS
    else if cfg.accessOpcode.None? && opcode == OPCODE_EXTEST then EXTEST
    else if cfg.accessOpcode.None? && opcode == OPCODE_SAMPLE_PRELOAD then SAMPLE_PRELOAD
    else if cfg.hasIdcode && opcode == OPCODE_IDCODE then IDCODE
    else BYPASS
  }

  function ResetInstruction(cfg: Config): Instruction {
    if cfg.hasIdcode then IDCODE else BYPASS
  }

  function NetworkInstruction(cfg: Config): Instruction {
    if cfg.accessOpcode.Some? then IJTAG_ACCESS else EXTEST
  }

  /** A data register over a state of type D: the DataRegister protocol. */
  datatype DataRegister<!D> = DataRegister(
    capture: D -> D, shift: (D, bool) -> (D, bool), update: D -> D)

  /** What is registered for the instructions without a built-in register; all of them act on the
      one network state. */
  datatype Wiring<!D> = Wiring(
    extest: Option<DataRegister<D>>, sample: Option<DataRegister<D>>, access: Option<DataRegister<D>>)

  function Registered<D>(w: Wiring<D>, i: Instruction): Option<DataRegister<D>> {
    match i
    case EXTEST => w.extest
    case SAMPLE_PRELOAD => w.sample
    case IJTAG_ACCESS => w.access
    case _ => None
  }

  datatype Tap<D> = Tap(
    cfg: Config, state: TapState, ir: Bits, instruction: Instruction,
    bypass: bool, idcode: Bits, network: D)

  function ShiftRight(b: Bits, tdi: bool): (Bits, bool) {
    if b == [] then (b, tdi) else (b[1..] + [tdi], b[0])
  }

  /** reset; a plugged-in register is the caller's to reset. */
  function ResetTap<D>(cfg: Config, network: D): Tap<D> {
    Tap(cfg, TestLogicReset, Zeros(cfg.irWidth), ResetInstruction(cfg), false, Zeros(32), network)
  }

  function CaptureActive<D>(w: Wiring<D>, t: Tap<D>): Option<Tap<D>> {
    match t.instruction
    case BYPASS => Some(t.(bypass := false))
    case IDCODE => if t.cfg.hasIdcode then Some(t.(idcode := FromInt(t.cfg.idcodeValue, 32))) else None
    case i => match Registered(w, i) case None => None case Some(dr) => Some(t.(network := dr.capture(t.network)))
  }

  function ShiftActive<D>(w: Wiring<D>, t: Tap<D>, tdi: bool): Option<(Tap<D>, bool)> {
    match t.instruction
    case BYPASS => Some((t.(bypass := tdi), t.bypass))
    case IDCODE =>
      if t.cfg.hasIdcode then
        var (b, tdo) := ShiftRight(t.idcode, tdi);
        Some((t.(idcode := b), tdo))
      else None
    case i =>
      match Registered(w, i)
      case None => None
      case Some(dr) =>
        var (n, tdo) := dr.shift(t.network, tdi);
        Some((t.(network := n), tdo))
  }

  function UpdateActive<D>(w: Wiring<D>, t: Tap<D>): Option<Tap<D>> {
    match t.instruction
    case BYPASS => Some(t)
    case IDCODE => if t.cfg.hasIdcode then Some(t) else None
    case i => match Registered(w, i) case None => None case Some(dr) => Some(t.(network := dr.update(t.network)))
  }

  function Act<D>(w: Wiring<D>, t: Tap<D>, tdi: bool): Option<(Tap<D>, bool)> {
    match t.state
    case TestLogicReset => Some((t.(instruction := ResetInstruction(t.cfg)), false))
    case CaptureIr => Some((t.(ir := FromInt(CAPTURE_IR_PATTERN, t.cfg.irWidth)), false))
    case ShiftIrState =>
      var (b, tdo) := ShiftRight(t.ir, tdi);
      Some((t.(ir := b), tdo))
    case UpdateIr => Some((t.(instruction := Decode(t.cfg, ToInt(t.ir))), false))
    case CaptureDr => (match CaptureActive(w, t) case None => None case Some(u) => Some((u, false)))
    case ShiftDrState => ShiftActive(w, t, tdi)
    case UpdateDr => (match UpdateActive(w, t) case None => None case Some(u) => Some((u, false)))
    case _ => Some((t, false))
  }

  /** TapModel.tick: act on the state before the edge, then step the controller. None where the
      source raises for an instruction without a data register. */
  function Tick<D>(w: Wiring<D>, t: Tap<D>, tms: bool, tdi: bool): Option<(Tap<D>, bool)> {
    match Act(w, t, tdi)
    case None => None
    case Some((u, tdo)) => Some((u.(state := NextState(t.state, tms)), tdo))
  }

  /** A run of cycles and what TDO shows in each. */
  function Ticks<D>(w: Wiring<D>, t: Tap<D>, cycles: seq<(bool, bool)>): Option<(Tap<D>, Bits)>
    decreases |cycles|
  {
    if cycles == [] then Some((t, []))
    else match Tick(w, t, cycles[0].0, cycles[0].1)
      case None => None
      case Some((u, tdo)) =>
        match Ticks(w, u, cycles[1..])
        case None => None
        case Some((v, out)) => Some((v, [tdo] + out))
  }

  lemma {:induction false} TicksCompose<D>(w: Wiring<D>, t: Tap<D>, a: seq<(bool, bool)>, b: seq<(bool, bool)>)
    ensures Ticks(w, t, a + b)
            == match Ticks(w, t, a)
               case None => None
               case Some((u, x)) =>
                 match Ticks(w, u, b)
                 case None => None
                 case Some((v, y)) => Some((v, x + y))
    decreases |a|
  {
    if a == [] {
      assert a + b == b;
      if Ticks(w, t, b).Some? {
        var (v, y) := Ticks(w, t, b).value;
        assert [] + y == y;
      }
    } else {
      assert (a + b)[1..] == a[1..] + b;
      var step := Tick(w, t, a[0].0, a[0].1);
      if step.Some? {
        var (u, tdo) := step.value;
        TicksCompose(w, u, a[1..], b);
        if Ticks(w, u, a[1..]).Some? {
          var (u1, x) := Ticks(w, u, a[1..]).value;
          if Ticks(w, u1, b).Some? {
            var (v, y) := Ticks(w, u1, b).value;
            assert [tdo] + (x + y) == ([tdo] + x) + y;
          }
        }
      }
    }
  }

  lemma {:induction false} TicksLength<D>(w: Wiring<D>, t: Tap<D>, cycles: seq<(bool, bool)>)
    requires Ticks(w, t, cycles).Some?
    ensures |Ticks(w, t, cycles).value.1| == |cycles|
    ensures Ticks(w, t, cycles).value.0.state == Walk(t.state, cycles)
    decreases |cycles|
  {
    if cycles != [] {
      TicksLength(w, Tick(w, t, cycles[0].0, cycles[0].1).value.0, cycles[1..]);
    }
  }

  /** Where the controller is after a run of cycles. */
  function Walk(s: TapState, cycles: seq<(bool, bool)>): TapState
    decreases |cycles|
  {
    if cycles == [] then s else Walk(NextState(s, cycles[0].0), cycles[1..])
  }
}
