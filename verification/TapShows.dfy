/** What the TAP's own registers show at TDO (tap_model.py), cycle by cycle: each scan of the instruction register,
    BYPASS or IDCODE shows what the register captured and then the bits fed. */
module TapShows {
  import opened Wrappers
  import opened Bits
  import opened IclModel
  import opened SibCells
  import opened TapFsm
  import opened TapModel
  import opened TapPlay
  import opened TapSelect
  import opened TapCycles
  import opened Retargeting
  import opened Integrity
  import opened SelfCheckCycles

  /** The bits of the shift cycles of a run, in order. */
  function Shown(w: Wiring<NetState>, c: Chain, t: Tap<NetState>, ins: seq<TckInput>): Bits
    decreases |ins|
  {
    if ins == [] then []
    else match Drive(w, c, t, ins[0])
      case None => []
      case Some((u, tdo)) => (if ins[0].trstN && Shifting(t.state) then [tdo] else []) + Shown(w, c, u, ins[1..])
  }

  /** The run takes `t` to `u` and its shift cycles show `bits`. */
  ghost predicate Displays(w: Wiring<NetState>, c: Chain, t: Tap<NetState>, ins: seq<TckInput>, u: Tap<NetState>, bits: Bits) {
    Ends(w, c, t, ins) == Some(u) && Shown(w, c, t, ins) == bits
  }

  lemma Quietly(w: Wiring<NetState>, c: Chain, t: Tap<NetState>)
    ensures Displays(w, c, t, [], t, [])
  {
  }

  lemma Regroup(a: Bits, b: Bits, d: Bits)
    ensures a + (b + d) == a + b + d
  {
  }

  lemma {:induction false} DisplaysJoin(w: Wiring<NetState>, c: Chain, t: Tap<NetState>, a: seq<TckInput>, u: Tap<NetState>,
                                        x: Bits, b: seq<TckInput>, v: Tap<NetState>, y: Bits)
    requires Displays(w, c, t, a, u, x) && Displays(w, c, u, b, v, y)
    ensures Displays(w, c, t, a + b, v, x + y)
    decreases |a|
  {
    hide Drive;
    if a == [] {
      assert a + b == b && x + y == y;
    } else {
      assert (a + b)[0] == a[0] && (a + b)[1..] == a[1..] + b;
      var (next, tdo) := Drive(w, c, t, a[0]).value;
      var rest := Shown(w, c, next, a[1..]);
      assert Ends(w, c, next, a[1..]) == Some(u);
      DisplaysJoin(w, c, next, a[1..], u, rest, b, v, y);
      Regroup(if a[0].trstN && Shifting(t.state) then [tdo] else [], rest, y);
    }
  }

  /** One more cycle in front. */
  lemma DisplaysOn(w: Wiring<NetState>, c: Chain, t: Tap<NetState>, i: TckInput, u: Tap<NetState>, tdo: bool,
                   rest: seq<TckInput>, v: Tap<NetState>, bits: Bits)
    requires Drive(w, c, t, i) == Some((u, tdo)) && Displays(w, c, u, rest, v, bits)
    ensures Displays(w, c, t, [i] + rest, v, (if i.trstN && Shifting(t.state) then [tdo] else []) + bits)
  {
    hide Drive;
    var ins := [i] + rest;
    assert ins[0] == i && ins[1..] == rest;
  }

  /** One more cycle with TDI low and TRST high, in a state that shows nothing. */
  lemma Onward(w: Wiring<NetState>, c: Chain, t: Tap<NetState>, tms: Bits, rest: Bits, u: Tap<NetState>, v: Tap<NetState>)
    requires tms != [] && tms[1..] == rest && !Shifting(t.state)
    requires Tick(w, t, tms[0], false).Some? && Tick(w, t, tms[0], false).value.0 == u
    requires Displays(w, c, u, Inputs(Idle(rest)), v, [])
    ensures Displays(w, c, t, Inputs(Idle(tms)), v, [])
  {
    hide Tick, Displays;
    var i, none: Bits := TckInput(tms[0], false, true), [];
    assert Inputs(Idle(tms)) == [i] + Inputs(Idle(rest));
    assert none + none == none;
    DisplaysOn(w, c, t, i, u, Tick(w, t, tms[0], false).value.1, Inputs(Idle(rest)), v, none);
  }

  lemma NothingOn(w: Wiring<NetState>, c: Chain, t: Tap<NetState>)
    ensures Displays(w, c, t, Inputs(Idle([])), t, [])
  {
    assert Inputs(Idle([])) == [];
  }

  // ---------------------------------------------------------------- the selected register

  /** Under BYPASS or IDCODE, the bits in the selected register, next one out first. */
  function Inside(t: Tap<NetState>): Bits {
    if t.instruction.BYPASS? then [t.bypass] else t.idcode
  }

  function With(t: Tap<NetState>, bits: Bits): Tap<NetState>
    requires bits != []
  {
    if t.instruction.BYPASS? then t.(bypass := bits[0]) else t.(idcode := bits)
  }

  /** What BYPASS and IDCODE capture: a 0, and the 32 bits of the configured code, bit 0 first. */
  function Loaded(cfg: Config, i: Instruction): (bits: Bits)
    ensures bits != []
  {
    if i.BYPASS? then [false] else seq(32, k requires 0 <= k < 32 => BitOf(cfg.idcodeValue, k))
  }

  /** The bits a scan of a register shows: what is in it, then what is fed. */
  function Through(inside: Bits, fed: Bits): (bits: Bits)
    ensures |bits| == |fed|
  {
    (inside + fed)[..|fed|]
  }

  /** What stays in it. */
  function Kept(inside: Bits, fed: Bits): (bits: Bits)
    ensures |bits| == |inside|
  {
    (inside + fed)[|fed|..]
  }

  lemma OneBit(inside: Bits, fed: Bits)
    requires inside != [] && fed != []
    ensures var next := inside[1..] + [fed[0]];
            && Through(inside, fed) == [inside[0]] + Through(next, fed[1..])
            && Kept(inside, fed) == Kept(next, fed[1..])
  {
    var next := inside[1..] + [fed[0]];
    assert inside + fed == [inside[0]] + (next + fed[1..]);
  }

  lemma NoBits(inside: Bits)
    ensures Through(inside, []) == [] && Kept(inside, []) == inside
  {
    assert inside + [] == inside;
  }

  lemma Twice(inside: Bits, a: Bits, b: Bits)
    ensures Through(inside, a) + Through(Kept(inside, a), b) == Through(inside, a + b)
    ensures Kept(Kept(inside, a), b) == Kept(inside, a + b)
  {
    assert inside + (a + b) == Through(inside, a) + (Kept(inside, a) + b);
  }

  /** One cycle in Shift-DR. */
  lemma ShiftTick(w: Wiring<NetState>, c: Chain, t: Tap<NetState>, tms: bool, tdi: bool)
    requires Quiet(t.cfg, t.instruction) && t.state == ShiftDrState && Inside(t) != []
    ensures var next := Inside(t)[1..] + [tdi];
            var u := With(t, next).(state := if tms then Exit1Dr else ShiftDrState);
            && Drive(w, c, t, TckInput(tms, tdi, true)) == Some((u, Inside(t)[0]))
            && Inside(u) == next && Quiet(u.cfg, u.instruction)
  {
  }

  lemma WithTwice(t: Tap<NetState>, a: Bits, b: Bits, s: TapState)
    requires a != [] && b != []
    ensures With(With(t, a).(state := s), b) == With(t, b).(state := s)
  {
  }

  lemma FirstShift(fed: Bits)
    requires fed != []
    ensures Inputs(ShiftCycles(fed)) == [TckInput(|fed| == 1, fed[0], true)] + Inputs(ShiftCycles(fed[1..]))
  {
  }

  /** Shifting the selected register. */
  lemma {:induction false} ShiftsDr(w: Wiring<NetState>, c: Chain, t: Tap<NetState>, fed: Bits)
    requires Quiet(t.cfg, t.instruction) && t.state == ShiftDrState && fed != [] && Inside(t) != []
    ensures Displays(w, c, t, Inputs(ShiftCycles(fed)), With(t, Kept(Inside(t), fed)).(state := Exit1Dr),
                     Through(Inside(t), fed))
    decreases |fed|
  {
    hide Drive, Displays, Quiet, Inside, With, Through, Kept, ShiftCycles, Inputs;
    var i := TckInput(|fed| == 1, fed[0], true);
    var next := Inside(t)[1..] + [fed[0]];
    var u := With(t, next).(state := if |fed| == 1 then Exit1Dr else ShiftDrState);
    ShiftTick(w, c, t, |fed| == 1, fed[0]);
    FirstShift(fed);
    OneBit(Inside(t), fed);
    if |fed| == 1 {
      NoBits(next);
      assert fed[1..] == [] && Inputs(ShiftCycles([])) == [] by { NoCycles(); }
      Quietly(w, c, u);
      DisplaysOn(w, c, t, i, u, Inside(t)[0], [], u, []);
    } else {
      ShiftsDr(w, c, u, fed[1..]);
      WithTwice(t, next, Kept(next, fed[1..]), ShiftDrState);
      DisplaysOn(w, c, t, i, u, Inside(t)[0], Inputs(ShiftCycles(fed[1..])), With(u, Kept(next, fed[1..])).(state := Exit1Dr),
                 Through(next, fed[1..]));
    }
  }

  lemma NoCycles()
    ensures Inputs(ShiftCycles([])) == []
  {
  }

  /** One cycle in Shift-IR. */
  lemma ShiftIrTick(w: Wiring<NetState>, c: Chain, t: Tap<NetState>, tms: bool, tdi: bool)
    requires t.state == ShiftIrState && t.ir != []
    ensures Drive(w, c, t, TckInput(tms, tdi, true))
            == Some((t.(ir := t.ir[1..] + [tdi], state := if tms then Exit1Ir else ShiftIrState), t.ir[0]))
  {
  }

  /** Shifting the instruction register. */
  lemma {:induction false} ShiftsIr(w: Wiring<NetState>, c: Chain, t: Tap<NetState>, fed: Bits)
    requires t.state == ShiftIrState && fed != [] && t.ir != []
    ensures Displays(w, c, t, Inputs(ShiftCycles(fed)), t.(ir := Kept(t.ir, fed), state := Exit1Ir), Through(t.ir, fed))
    decreases |fed|
  {
    hide Drive, Displays, Through, Kept, ShiftCycles, Inputs;
    var i := TckInput(|fed| == 1, fed[0], true);
    var next := t.ir[1..] + [fed[0]];
    var u := t.(ir := next, state := if |fed| == 1 then Exit1Ir else ShiftIrState);
    ShiftIrTick(w, c, t, |fed| == 1, fed[0]);
    FirstShift(fed);
    OneBit(t.ir, fed);
    if |fed| == 1 {
      NoBits(next);
      assert fed[1..] == [] && Inputs(ShiftCycles([])) == [] by { NoCycles(); }
      Quietly(w, c, u);
      DisplaysOn(w, c, t, i, u, t.ir[0], [], u, []);
    } else {
      ShiftsIr(w, c, u, fed[1..]);
      var v := u.(ir := Kept(next, fed[1..]), state := Exit1Ir);
      DisplaysOn(w, c, t, i, u, t.ir[0], Inputs(ShiftCycles(fed[1..])), v, Through(next, fed[1..]));
    }
  }

  // ---------------------------------------------------------------- navigation

  /** The state after Capture-DR. */
  function CapturedDr(t: Tap<NetState>): Tap<NetState> { With(t, Loaded(t.cfg, t.instruction)) }

  /** One cycle in Capture-DR. */
  lemma CaptureTick(w: Wiring<NetState>, t: Tap<NetState>, tms: bool)
    requires Quiet(t.cfg, t.instruction) && t.state == CaptureDr
    ensures Tick(w, t, tms, false).Some?
    ensures Tick(w, t, tms, false).value.0 == CapturedDr(t).(state := NextState(CaptureDr, tms))
  {
    if t.instruction.IDCODE? {
      forall k | 0 <= k < 32 ensures FromInt(t.cfg.idcodeValue, 32)[k] == Loaded(t.cfg, t.instruction)[k] {
        FromIntBit(t.cfg.idcodeValue, 32, k);
      }
      assert FromInt(t.cfg.idcodeValue, 32) == Loaded(t.cfg, t.instruction);
    }
  }

  /** The states whose cycles change nothing but the controller's state. */
  predicate Still(s: TapState) {
    s.RunTestIdle? || s.SelectDrScan? || s.SelectIrScan? || s.Exit1Dr? || s.PauseDr? || s.Exit2Dr? || s.UpdateDr?
    || s.Exit1Ir? || s.PauseIr? || s.Exit2Ir?
  }

  lemma StillOn(w: Wiring<NetState>, c: Chain, t: Tap<NetState>, s: TapState, tms: Bits, rest: Bits, v: Tap<NetState>)
    requires Quiet(t.cfg, t.instruction) && Still(s) && tms != [] && tms[1..] == rest
    requires Displays(w, c, t.(state := NextState(s, tms[0])), Inputs(Idle(rest)), v, [])
    ensures Displays(w, c, t.(state := s), Inputs(Idle(tms)), v, [])
  {
    hide Displays, NextState, Inputs, Idle;
    var here := t.(state := s);
    assert here.(state := NextState(s, tms[0])) == t.(state := NextState(s, tms[0]));
    Onward(w, c, here, tms, rest, t.(state := NextState(s, tms[0])), v);
  }

  lemma ToDr(w: Wiring<NetState>, c: Chain, t: Tap<NetState>)
    requires Quiet(t.cfg, t.instruction) && t.state == RunTestIdle
    ensures Displays(w, c, t, Inputs(ToShiftDr()), CapturedDr(t).(state := ShiftDrState), [])
  {
    SelectToDr(w, c, t);
    hide Displays, Inputs, Idle, CapturedDr, Quiet;
    assert t.(state := RunTestIdle) == t;
    StillOn(w, c, t, RunTestIdle, [true, false, false], [false, false], CapturedDr(t).(state := ShiftDrState));
  }

  lemma SelectToDr(w: Wiring<NetState>, c: Chain, t: Tap<NetState>)
    requires Quiet(t.cfg, t.instruction)
    ensures Displays(w, c, t.(state := SelectDrScan), Inputs(Idle([false, false])), CapturedDr(t).(state := ShiftDrState), [])
  {
    var u := CapturedDr(t).(state := ShiftDrState);
    var at := t.(state := CaptureDr);
    hide Displays, Inputs, Idle, CapturedDr, Quiet, Tick;
    NothingOn(w, c, u);
    CaptureTick(w, at, false);
    CapturedAnywhere(t, CaptureDr, ShiftDrState);
    Onward(w, c, at, [false], [], u, u);
    StillOn(w, c, t, SelectDrScan, [false, false], [false], u);
  }

  lemma LeavesDr(w: Wiring<NetState>, c: Chain, t: Tap<NetState>)
    requires Quiet(t.cfg, t.instruction)
    ensures Displays(w, c, t.(state := Exit1Dr), Inputs(Exit1ToIdle()), t.(state := RunTestIdle), [])
  {
    var u := t.(state := RunTestIdle);
    NothingOn(w, c, u);
    hide Displays, Inputs, Idle, Quiet;
    StillOn(w, c, t, UpdateDr, [false], [], u);
    StillOn(w, c, t, Exit1Dr, [true, false], [false], u);
  }

  lemma PausesDr(w: Wiring<NetState>, c: Chain, t: Tap<NetState>)
    requires Quiet(t.cfg, t.instruction)
    ensures Displays(w, c, t.(state := Exit1Dr), Inputs(PauseAndResume()), t.(state := ShiftDrState), [])
  {
    var u := t.(state := ShiftDrState);
    NothingOn(w, c, u);
    hide Displays, Inputs, Idle, Quiet;
    StillOn(w, c, t, Exit2Dr, [false], [], u);
    StillOn(w, c, t, PauseDr, [true, false], [false], u);
    StillOn(w, c, t, PauseDr, [false, true, false], [true, false], u);
    StillOn(w, c, t, PauseDr, [false, false, true, false], [false, true, false], u);
    StillOn(w, c, t, Exit1Dr, [false, false, false, true, false], [false, false, true, false], u);
  }

  lemma PausesIr(w: Wiring<NetState>, c: Chain, t: Tap<NetState>)
    requires Quiet(t.cfg, t.instruction)
    ensures Displays(w, c, t.(state := Exit1Ir), Inputs(PauseAndResume()), t.(state := ShiftIrState), [])
  {
    var u := t.(state := ShiftIrState);
    NothingOn(w, c, u);
    hide Displays, Inputs, Idle, Quiet;
    StillOn(w, c, t, Exit2Ir, [false], [], u);
    StillOn(w, c, t, PauseIr, [true, false], [false], u);
    StillOn(w, c, t, PauseIr, [false, true, false], [true, false], u);
    StillOn(w, c, t, PauseIr, [false, false, true, false], [false, true, false], u);
    StillOn(w, c, t, Exit1Ir, [false, false, false, true, false], [false, false, true, false], u);
  }

  /** Exit1-DR through Pause to Update-DR. */
  lemma PausesToUpdateDr(w: Wiring<NetState>, c: Chain, t: Tap<NetState>)
    requires Quiet(t.cfg, t.instruction)
    ensures Displays(w, c, t.(state := Exit1Dr), Inputs(PauseToUpdate()), t.(state := UpdateDr), [])
  {
    var u := t.(state := UpdateDr);
    NothingOn(w, c, u);
    hide Displays, Inputs, Idle, Quiet;
    StillOn(w, c, t, Exit2Dr, [true], [], u);
    StillOn(w, c, t, PauseDr, [true, true], [true], u);
    StillOn(w, c, t, Exit1Dr, [false, true, true], [true, true], u);
  }

  lemma CapturedAnywhere(t: Tap<NetState>, s: TapState, s': TapState)
    ensures CapturedDr(t.(state := s)).(state := s') == CapturedDr(t).(state := s')
    ensures Quiet(t.cfg, t.instruction) ==> Quiet(CapturedDr(t).cfg, CapturedDr(t).instruction)
  {
    hide Loaded;
  }

  /** Update-DR round through an empty scan to Run-Test/Idle. */
  lemma RoundDr(w: Wiring<NetState>, c: Chain, t: Tap<NetState>)
    requires Quiet(t.cfg, t.instruction)
    ensures Displays(w, c, t.(state := UpdateDr), Inputs(CaptureAndExit()), CapturedDr(t).(state := RunTestIdle), [])
  {
    var at, k := t.(state := CaptureDr), CapturedDr(t);
    var v := k.(state := RunTestIdle);
    hide Displays, Inputs, Idle, Quiet, CapturedDr, Tick;
    CapturedAnywhere(t, CaptureDr, Exit1Dr);
    CaptureTick(w, at, true);
    LeavesDr(w, c, k);
    Onward(w, c, at, [true, true, false], [true, false], k.(state := Exit1Dr), v);
    StillOn(w, c, t, SelectDrScan, [false, true, true, false], [true, true, false], v);
    StillOn(w, c, t, UpdateDr, [true, false, true, true, false], [false, true, true, false], v);
  }

  /** What the instruction register captures: a 1 and then 0s. */
  function IrPattern(cfg: Config): (bits: Bits)
    requires cfg.irWidth >= 1
    ensures |bits| == cfg.irWidth
  {
    [true] + Zeros(cfg.irWidth - 1)
  }

  lemma IrPatternIs(cfg: Config)
    requires cfg.irWidth >= 1
    ensures FromInt(CAPTURE_IR_PATTERN, cfg.irWidth) == IrPattern(cfg)
  {
    FromZero(cfg.irWidth - 1);
  }

  lemma CaptureIrTick(w: Wiring<NetState>, t: Tap<NetState>, tms: bool)
    requires t.cfg.irWidth >= 1 && t.state == CaptureIr
    ensures Tick(w, t, tms, false).Some?
    ensures Tick(w, t, tms, false).value.0 == t.(ir := IrPattern(t.cfg), state := NextState(CaptureIr, tms))
  {
    IrPatternIs(t.cfg);
  }

  lemma ToIr(w: Wiring<NetState>, c: Chain, t: Tap<NetState>)
    requires Quiet(t.cfg, t.instruction) && t.state == RunTestIdle && t.cfg.irWidth >= 1
    ensures Displays(w, c, t, Inputs(ToShiftIr()), t.(ir := IrPattern(t.cfg), state := ShiftIrState), [])
  {
    var u, at := t.(ir := IrPattern(t.cfg), state := ShiftIrState), t.(state := CaptureIr);
    NothingOn(w, c, u);
    CaptureIrTick(w, at, false);
    assert t.(state := RunTestIdle) == t;
    hide Displays, Inputs, Idle, Quiet, Tick, IrPattern;
    Onward(w, c, at, [false], [], u, u);
    StillOn(w, c, t, SelectIrScan, [false, false], [false], u);
    StillOn(w, c, t, SelectDrScan, [true, false, false], [false, false], u);
    StillOn(w, c, t, RunTestIdle, [true, true, false, false], [true, false, false], u);
  }

  /** The state after Update-IR. */
  function Decoded(t: Tap<NetState>): Tap<NetState> { t.(instruction := Decode(t.cfg, ToInt(t.ir))) }

  lemma UpdateIrTick(w: Wiring<NetState>, t: Tap<NetState>, tms: bool)
    requires t.state == UpdateIr
    ensures Tick(w, t, tms, false).Some?
    ensures Tick(w, t, tms, false).value.0 == Decoded(t).(state := NextState(UpdateIr, tms))
  {
  }

  lemma LeavesIr(w: Wiring<NetState>, c: Chain, t: Tap<NetState>)
    requires Quiet(t.cfg, t.instruction)
    ensures Displays(w, c, t.(state := Exit1Ir), Inputs(Exit1ToIdle()), Decoded(t).(state := RunTestIdle), [])
  {
    var u, at := Decoded(t).(state := RunTestIdle), t.(state := UpdateIr);
    NothingOn(w, c, u);
    UpdateIrTick(w, at, false);
    hide Displays, Inputs, Idle, Quiet, Tick;
    Onward(w, c, at, [false], [], u, u);
    StillOn(w, c, t, Exit1Ir, [true, false], [false], u);
  }

  /** Exit1-IR through Pause to Update-IR. */
  lemma PausesToUpdateIr(w: Wiring<NetState>, c: Chain, t: Tap<NetState>)
    requires Quiet(t.cfg, t.instruction)
    ensures Displays(w, c, t.(state := Exit1Ir), Inputs(PauseToUpdate()), t.(state := UpdateIr), [])
  {
    var u := t.(state := UpdateIr);
    NothingOn(w, c, u);
    hide Displays, Inputs, Idle, Quiet;
    StillOn(w, c, t, Exit2Ir, [true], [], u);
    StillOn(w, c, t, PauseIr, [true, true], [true], u);
    StillOn(w, c, t, Exit1Ir, [false, true, true], [true, true], u);
  }

  /** Update-IR straight into a DR scan. */
  lemma OnToDr(w: Wiring<NetState>, c: Chain, t: Tap<NetState>)
    requires Quiet(t.cfg, Decoded(t).instruction)
    ensures Displays(w, c, t.(state := UpdateIr), Inputs(ToShiftDr()), CapturedDr(Decoded(t)).(state := ShiftDrState), [])
  {
    var v, at := CapturedDr(Decoded(t)).(state := ShiftDrState), t.(state := UpdateIr);
    UpdateIrTick(w, at, true);
    assert Decoded(at) == Decoded(t).(state := UpdateIr);
    SelectToDr(w, c, Decoded(t));
    hide Displays, Inputs, Idle, Quiet, Tick, CapturedDr, Decoded;
    Onward(w, c, at, [true, false, false], [false, false], Decoded(t).(state := SelectDrScan), v);
  }

  /** Capture-IR straight to Update-IR. */
  lemma LoadsPattern(w: Wiring<NetState>, c: Chain, t: Tap<NetState>)
    requires Quiet(t.cfg, t.instruction) && t.state == RunTestIdle && t.cfg.irWidth >= 1
    ensures Displays(w, c, t, Inputs(CaptureIrLoad()),
                     Decoded(t.(ir := IrPattern(t.cfg))).(state := RunTestIdle), [])
  {
    var p := t.(ir := IrPattern(t.cfg));
    var at := t.(state := CaptureIr);
    var u := Decoded(p).(state := RunTestIdle);
    hide *;
    CaptureIrTick(w, at, true);
    LeavesIr(w, c, p);
    assert t.(state := RunTestIdle) == t;
    assert at.(ir := IrPattern(at.cfg), state := Exit1Ir) == p.(state := Exit1Ir);
    Onward(w, c, at, [true, true, false], [true, false], p.(state := Exit1Ir), u);
    StillOn(w, c, t, SelectIrScan, [false, true, true, false], [true, true, false], u);
    StillOn(w, c, t, SelectDrScan, [true, false, true, true, false], [false, true, true, false], u);
    StillOn(w, c, t, RunTestIdle, [true, true, false, true, true, false], [true, false, true, true, false], u);
  }

  /** The state after a cycle in Test-Logic-Reset. */
  function Default(t: Tap<NetState>): Tap<NetState> { t.(instruction := if t.cfg.hasIdcode then IDCODE else BYPASS) }

  lemma ResetTick(w: Wiring<NetState>, t: Tap<NetState>, tms: bool)
    requires t.state == TestLogicReset
    ensures Tick(w, t, tms, false).Some?
    ensures Tick(w, t, tms, false).value.0 == Default(t).(state := NextState(TestLogicReset, tms))
  {
  }

  /** Select-IR to Test-Logic-Reset and back. */
  lemma ResetsByTms(w: Wiring<NetState>, c: Chain, t: Tap<NetState>)
    requires Quiet(t.cfg, t.instruction) && t.state == RunTestIdle
    ensures Displays(w, c, t, Inputs(SelectIrReset()), Default(t).(state := RunTestIdle), [])
  {
    var u, a, b := Default(t).(state := RunTestIdle), t.(state := TestLogicReset), Default(t).(state := TestLogicReset);
    NothingOn(w, c, u);
    ResetTick(w, a, true);
    ResetTick(w, b, false);
    assert Default(b).(state := RunTestIdle) == u && t.(state := RunTestIdle) == t;
    hide Displays, Inputs, Idle, Quiet, Tick, Default;
    Onward(w, c, b, [false], [], u, u);
    Onward(w, c, a, [true, false], [false], b, u);
    StillOn(w, c, t, SelectIrScan, [true, true, false], [true, false], u);
    StillOn(w, c, t, SelectDrScan, [true, true, true, false], [true, true, false], u);
    StillOn(w, c, t, RunTestIdle, [true, true, true, true, false], [true, true, true, false], u);
  }

  lemma Waits(w: Wiring<NetState>, c: Chain, t: Tap<NetState>)
    requires Quiet(t.cfg, t.instruction) && t.state == RunTestIdle
    ensures Displays(w, c, t, Inputs(Idle([false, false])), t, [])
  {
    NothingOn(w, c, t);
    assert t.(state := RunTestIdle) == t;
    hide Displays, Inputs, Idle, Quiet;
    StillOn(w, c, t, RunTestIdle, [false], [], t);
    StillOn(w, c, t, RunTestIdle, [false, false], [false], t);
  }
}
