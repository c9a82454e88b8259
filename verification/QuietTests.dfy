/** The tests of the TAP itself (tap_integrity.py) load only instructions whose registers are the TAP's own,
    so the network behind it does not see them. */
module QuietTests {
  import opened Wrappers
  import opened Bits
  import opened TapFsm
  import opened TapIr
  import opened TapModel
  import opened TapPlay
  import opened TapSelect
  import opened TapCycles
  import opened OverShift
  import opened SelfCheckCycles
  import opened WriteReadback
  import opened TestRuns
  import opened NetworkScans
  import opened IntegrityTests

  /** From Run-Test/Idle back to it, whatever the shift stage holds, loading nothing but quiet instructions. */
  ghost predicate SilentCycles(cfg: Config, cycles: Cycles) {
    forall ir: Bits :: Returns(cfg, ir, cycles)
  }

  ghost predicate Returns(cfg: Config, ir: Bits, cycles: Cycles) {
    exists ir': Bits :: Goes(cfg, RunTestIdle, ir, cycles, RunTestIdle, ir')
  }

  /** Both parts of the test are. */
  ghost predicate Silent(cfg: Config, test: Test) {
    && (exists x: Cycles :: test.leadIn == Inputs(x) && SilentCycles(cfg, x))
    && ToCycles(RunTestIdle, test.ops).Some? && SilentCycles(cfg, ToCycles(RunTestIdle, test.ops).value)
  }

  lemma SilentJoin(cfg: Config, a: Cycles, b: Cycles)
    requires SilentCycles(cfg, a) && SilentCycles(cfg, b)
    ensures SilentCycles(cfg, a + b)
  {
    hide Returns;
    forall ir: Bits ensures Returns(cfg, ir, a + b) {
      assert Returns(cfg, ir, a);
      ReturnsJoin(cfg, ir, a, b);
    }
  }

  lemma ReturnsJoin(cfg: Config, ir: Bits, a: Cycles, b: Cycles)
    requires Returns(cfg, ir, a) && SilentCycles(cfg, b)
    ensures Returns(cfg, ir, a + b)
  {
    hide Goes;
    var ir1: Bits :| Goes(cfg, RunTestIdle, ir, a, RunTestIdle, ir1);
    assert Returns(cfg, ir1, b);
    var ir2: Bits :| Goes(cfg, RunTestIdle, ir1, b, RunTestIdle, ir2);
    GoesJoin(cfg, RunTestIdle, ir, a, RunTestIdle, ir1, b, RunTestIdle, ir2);
  }

  lemma NothingSilent(cfg: Config)
    ensures SilentCycles(cfg, [])
  {
    forall ir: Bits ensures Returns(cfg, ir, []) {
      assert Goes(cfg, RunTestIdle, ir, [], RunTestIdle, ir);
    }
  }

  lemma RawSilent(cfg: Config, cycles: Cycles)
    requires SilentCycles(cfg, cycles)
    ensures Silent(cfg, RawTest(cycles))
  {
    NothingSilent(cfg);
  }

  lemma OpsSilent(cfg: Config, ops: seq<Op>, cycles: Cycles)
    requires ToCycles(RunTestIdle, ops) == Some(cycles) && SilentCycles(cfg, cycles)
    ensures Silent(cfg, Test([], ops))
  {
    NothingSilent(cfg);
    assert Inputs([]) == [];
  }

  // ---------------------------------------------------------------- opcodes

  lemma QuietOpcode(cfg: Config, opcode: int)
    requires Usable(cfg)
    requires opcode == BypassOpcode(cfg.irWidth) || opcode == OPCODE_IDCODE || !Implemented(cfg, opcode)
    ensures Quiet(cfg, Decode(cfg, opcode)) && 0 <= BypassOpcode(cfg.irWidth) && 3 < Pow2(cfg.irWidth)
  {
    assert Pow2(cfg.irWidth) == 2 * (2 * Pow2(cfg.irWidth - 2));
  }

  lemma OnesAre(n: nat)
    ensures FromInt(Pow2(n) - 1, n) == Ones(n) && ToInt(Ones(n)) == Pow2(n) - 1
  {
    forall k | 0 <= k < n ensures FromInt(Pow2(n) - 1, n)[k] == Ones(n)[k] {
      FromIntBit(Pow2(n) - 1, n, k);
      AllOnesBit(n, k);
    }
    assert FromInt(Pow2(n) - 1, n) == Ones(n);
    ToIntFromInt(Pow2(n) - 1, n);
  }

  // ---------------------------------------------------------------- pieces

  lemma IrLoadSilent(cfg: Config, opcode: int)
    requires cfg.irWidth >= 1 && 0 <= opcode < Pow2(cfg.irWidth) && Quiet(cfg, Decode(cfg, opcode))
    ensures SilentCycles(cfg, IrLoad(opcode, cfg.irWidth))
  {
    hide Goes, IrLoad, Quiet, Decode, FromInt;
    forall ir: Bits ensures Returns(cfg, ir, IrLoad(opcode, cfg.irWidth)) {
      IrLoadGoes(cfg, ir, opcode);
    }
  }

  lemma DrScanSilent(cfg: Config, fed: Bits)
    requires fed != []
    ensures SilentCycles(cfg, DrCycles(fed))
  {
    hide Goes, DrCycles;
    forall ir: Bits ensures Returns(cfg, ir, DrCycles(fed)) {
      DrScanGoes(cfg, ir, fed);
    }
  }

  lemma HeldIdleSilent(cfg: Config)
    ensures SilentCycles(cfg, Idle([false, false]))
  {
    forall ir: Bits ensures Returns(cfg, ir, Idle([false, false])) {
      GoesNowhere(cfg, RunTestIdle, ir);
      GoesOn(cfg, RunTestIdle, ir, [false], [], RunTestIdle, ir);
      GoesOn(cfg, RunTestIdle, ir, [false, false], [false], RunTestIdle, ir);
    }
  }

  lemma AroundSilent(cfg: Config, first: Bits, second: Bits)
    requires first != [] && second != []
    ensures SilentCycles(cfg, AroundDr(first, second))
  {
    hide Goes, ToShiftDr, ShiftCycles, PauseAndResume, PauseToUpdate, CaptureAndExit;
    forall ir: Bits ensures Returns(cfg, ir, AroundDr(first, second)) {
      EntersDr(cfg, ir);
      DrShiftGoes(cfg, ir, first);
      PausesDr(cfg, ir);
      DrShiftGoes(cfg, ir, second);
      PausesToUpdate(cfg, ir);
      CapturesAndExits(cfg, ir);
      var a, b := ToShiftDr(), ShiftCycles(first);
      GoesJoin(cfg, RunTestIdle, ir, a, ShiftDrState, ir, b, Exit1Dr, ir);
      GoesJoin(cfg, RunTestIdle, ir, a + b, Exit1Dr, ir, PauseAndResume(), ShiftDrState, ir);
      var d := a + b + PauseAndResume();
      GoesJoin(cfg, RunTestIdle, ir, d, ShiftDrState, ir, ShiftCycles(second), Exit1Dr, ir);
      GoesJoin(cfg, RunTestIdle, ir, d + ShiftCycles(second), Exit1Dr, ir, PauseToUpdate(), UpdateDr, ir);
      var e := d + ShiftCycles(second) + PauseToUpdate();
      GoesJoin(cfg, RunTestIdle, ir, e, UpdateDr, ir, CaptureAndExit(), RunTestIdle, ir);
    }
  }

  lemma PausedSilent(cfg: Config, first: Bits, second: Bits, last: Bits)
    requires first != [] && second != [] && last != []
    ensures SilentCycles(cfg, PausedCycles(first, second, last))
  {
    hide Goes, ToShiftDr, ShiftCycles, PauseAndResume, Exit1ToIdle;
    forall ir: Bits
      ensures Returns(cfg, ir, PausedCycles(first, second, last))
    {
      EntersDr(cfg, ir);
      DrShiftGoes(cfg, ir, first);
      PausesDr(cfg, ir);
      DrShiftGoes(cfg, ir, second);
      DrShiftGoes(cfg, ir, last);
      LeavesDr(cfg, ir);
      var a, b := ToShiftDr(), ShiftCycles(first);
      GoesJoin(cfg, RunTestIdle, ir, a, ShiftDrState, ir, b, Exit1Dr, ir);
      GoesJoin(cfg, RunTestIdle, ir, a + b, Exit1Dr, ir, PauseAndResume(), ShiftDrState, ir);
      var d := a + b + PauseAndResume();
      GoesJoin(cfg, RunTestIdle, ir, d, ShiftDrState, ir, ShiftCycles(second), Exit1Dr, ir);
      GoesJoin(cfg, RunTestIdle, ir, d + ShiftCycles(second), Exit1Dr, ir, PauseAndResume(), ShiftDrState, ir);
      var e := d + ShiftCycles(second) + PauseAndResume();
      GoesJoin(cfg, RunTestIdle, ir, e, ShiftDrState, ir, ShiftCycles(last), Exit1Dr, ir);
      GoesJoin(cfg, RunTestIdle, ir, e + ShiftCycles(last), Exit1Dr, ir, Exit1ToIdle(), RunTestIdle, ir);
    }
  }

  lemma CaptureIrSilent(cfg: Config)
    requires Usable(cfg)
    ensures SilentCycles(cfg, CaptureIrLoad())
  {
    QuietOpcode(cfg, OPCODE_IDCODE);
    ToIntFromInt(CAPTURE_IR_PATTERN, cfg.irWidth);
    hide Goes, Idle, Quiet, Decode, FromInt;
    forall ir: Bits ensures Returns(cfg, ir, CaptureIrLoad()) {
      CaptureIrLoads(cfg, ir);
    }
  }

  lemma SelectResetSilent(cfg: Config)
    ensures SilentCycles(cfg, SelectIrReset())
  {
    hide Goes, Idle;
    forall ir: Bits ensures Returns(cfg, ir, SelectIrReset()) {
      SelectIrResets(cfg, ir);
    }
  }

  // ---------------------------------------------------------------- fed through the instruction register

  /** Bits shifted in after bits. */
  lemma StageAfter(ir: Bits, a: Bits, b: Bits)
    ensures ((ir + a)[|a|..] + b)[|b|..] == (ir + (a + b))[|a + b|..]
  {
  }

  /** What ends in ones leaves the shift stage all ones. */
  lemma EndsInOnes(ir: Bits, front: Bits)
    ensures (ir + (front + Ones(|ir|)))[|front + Ones(|ir|)|..] == Ones(|ir|)
  {
    assert ir + (front + Ones(|ir|)) == (ir + front) + Ones(|ir|);
  }

  /** The instruction register fed its pattern and the sentinel, then BYPASS. */
  lemma IrScanSilent(cfg: Config, margin: nat)
    requires Usable(cfg)
    ensures Silent(cfg, Test([], IrScan(cfg, margin)))
  {
    var n := cfg.irWidth;
    var fed := Sentinel(margin) + Ones(n);
    QuietOpcode(cfg, BypassOpcode(n));
    OnesAre(n);
    hide Goes, ToShiftIr, ShiftCycles, Exit1ToIdle, Quiet, Decode, FromInt, ToInt, Ones, Sentinel, Silent;
    var cycles := ToShiftIr() + ShiftCycles(fed) + Exit1ToIdle();
    forall ir: Bits ensures Returns(cfg, ir, cycles) {
      var pattern := FromInt(CAPTURE_IR_PATTERN, n);
      EntersIr(cfg, ir);
      IrShiftGoes(cfg, pattern, fed);
      EndsInOnes(pattern, Sentinel(margin));
      LeavesIr(cfg, Ones(n));
      GoesJoin(cfg, RunTestIdle, ir, ToShiftIr(), ShiftIrState, pattern, ShiftCycles(fed), Exit1Ir, Ones(n));
      GoesJoin(cfg, RunTestIdle, ir, ToShiftIr() + ShiftCycles(fed), Exit1Ir, Ones(n), Exit1ToIdle(), RunTestIdle, Ones(n));
    }
    IrOpsCycles(n + margin, ToInt(fed));
    FromIntToInt(fed);
    OpsSilent(cfg, IrScan(cfg, margin), cycles);
  }

  lemma IrOpsCycles(bits: nat, tdi: int)
    requires bits >= 1
    ensures ToCycles(RunTestIdle, [GotoState(ShiftIrState), ShiftIR(bits, tdi, None, None), GotoState(RunTestIdle)])
            == Some(ToShiftIr() + ShiftCycles(FromInt(tdi, bits)) + Exit1ToIdle())
  {
    var fed, shift, back := FromInt(tdi, bits), ShiftIR(bits, tdi, None, None), GotoState(RunTestIdle);
    IrShiftAside(fed);
    IrNavigates();
    WalkNothing(RunTestIdle);
    hide Walk, Idle, ShiftCycles, FromInt, NavigationTms;
    assert [back] + [] == [back] && [shift] + [back] == [shift, back];
    assert [GotoState(ShiftIrState), shift, back] == [GotoState(ShiftIrState)] + [shift, back];
    assert Exit1ToIdle() + [] == Exit1ToIdle();
    OneCycles(Exit1Ir, back, Exit1ToIdle(), [], []);
    OneCycles(ShiftIrState, shift, ShiftCycles(fed), [back], Exit1ToIdle());
    OneCycles(RunTestIdle, GotoState(ShiftIrState), ToShiftIr(), [shift, back], ShiftCycles(fed) + Exit1ToIdle());
    assert ToShiftIr() + (ShiftCycles(fed) + Exit1ToIdle()) == ToShiftIr() + ShiftCycles(fed) + Exit1ToIdle();
  }

  lemma IrNavigates()
    ensures OpCycles(RunTestIdle, GotoState(ShiftIrState)) == Some(ToShiftIr())
    ensures Walk(RunTestIdle, ToShiftIr()) == ShiftIrState
    ensures OpCycles(Exit1Ir, GotoState(RunTestIdle)) == Some(Exit1ToIdle())
    ensures Walk(Exit1Ir, Exit1ToIdle()) == RunTestIdle
  {
    var down, up := ToShiftIr(), Exit1ToIdle();
    assert down[1..][1..][1..][1..] == [] && up[1..][1..] == [];
  }

  lemma OnesSplit(n: nat, margin: nat, split: nat)
    requires split <= n + margin
    ensures var ones := Ones(n + margin);
            ones[..split] + ones[split..] == Ones(margin) + Ones(n)
  {
  }

  /** Two runs of bits through the instruction register, paused between them, leave it as one run. */
  lemma IrTwiceGoes(cfg: Config, ir: Bits, first: Bits, second: Bits)
    requires first != [] && second != [] && cfg.irWidth >= 1
    ensures var pattern := FromInt(CAPTURE_IR_PATTERN, cfg.irWidth);
            Goes(cfg, RunTestIdle, ir, ToShiftIr() + ShiftCycles(first) + PauseAndResume() + ShiftCycles(second),
                 Exit1Ir, (pattern + (first + second))[|first + second|..])
  {
    var pattern := FromInt(CAPTURE_IR_PATTERN, cfg.irWidth);
    var mid := (pattern + first)[|first|..];
    var end := (pattern + (first + second))[|first + second|..];
    hide Goes, ToShiftIr, ShiftCycles, PauseAndResume;
    EntersIr(cfg, ir);
    IrShiftGoes(cfg, pattern, first);
    PausesIr(cfg, mid);
    IrShiftGoes(cfg, mid, second);
    StageAfter(pattern, first, second);
    var a, b := ToShiftIr(), ShiftCycles(first);
    GoesJoin(cfg, RunTestIdle, ir, a, ShiftIrState, pattern, b, Exit1Ir, mid);
    GoesJoin(cfg, RunTestIdle, ir, a + b, Exit1Ir, mid, PauseAndResume(), ShiftIrState, mid);
    GoesJoin(cfg, RunTestIdle, ir, a + b + PauseAndResume(), ShiftIrState, mid, ShiftCycles(second), Exit1Ir, end);
  }

  /** From Exit1-IR through Pause to Update-IR and straight on to a DR scan. */
  lemma OnToDrGoes(cfg: Config, ir: Bits, front: Cycles, loaded: Bits, fed: Bits)
    requires Goes(cfg, RunTestIdle, ir, front, Exit1Ir, loaded) && Quiet(cfg, Decode(cfg, ToInt(loaded))) && fed != []
    ensures Goes(cfg, RunTestIdle, ir,
                 front + PauseToUpdate() + ToShiftDr() + ShiftCycles(fed) + Exit1ToIdle(), RunTestIdle, loaded)
  {
    hide Goes, ToShiftDr, ShiftCycles, PauseToUpdate, Exit1ToIdle, Quiet, Decode, ToInt;
    PausesToUpdate(cfg, loaded);
    UpdateIrToDr(cfg, loaded);
    DrShiftGoes(cfg, loaded, fed);
    LeavesDr(cfg, loaded);
    GoesJoin(cfg, RunTestIdle, ir, front, Exit1Ir, loaded, PauseToUpdate(), UpdateIr, loaded);
    GoesJoin(cfg, RunTestIdle, ir, front + PauseToUpdate(), UpdateIr, loaded, ToShiftDr(), ShiftDrState, loaded);
    var b := front + PauseToUpdate() + ToShiftDr();
    GoesJoin(cfg, RunTestIdle, ir, b, ShiftDrState, loaded, ShiftCycles(fed), Exit1Dr, loaded);
    GoesJoin(cfg, RunTestIdle, ir, b + ShiftCycles(fed), Exit1Dr, loaded, Exit1ToIdle(), RunTestIdle, loaded);
  }

  lemma IrPathsGo(cfg: Config, ir: Bits, first: Bits, second: Bits, margin: nat, fed: Bits)
    requires Usable(cfg) && first != [] && second != [] && fed != []
    requires first + second == Ones(margin) + Ones(cfg.irWidth)
    ensures Returns(cfg, ir, ToShiftIr() + ShiftCycles(first) + PauseAndResume() + ShiftCycles(second)
                             + PauseToUpdate() + ToShiftDr() + ShiftCycles(fed) + Exit1ToIdle())
  {
    var n, pattern := cfg.irWidth, FromInt(CAPTURE_IR_PATTERN, cfg.irWidth);
    QuietOpcode(cfg, BypassOpcode(n));
    OnesAre(n);
    EndsInOnes(pattern, Ones(margin));
    hide Goes, ToShiftIr, ToShiftDr, ShiftCycles, PauseAndResume, PauseToUpdate, Exit1ToIdle, Quiet, Decode, FromInt,
         ToInt, Ones;
    IrTwiceGoes(cfg, ir, first, second);
    OnToDrGoes(cfg, ir, ToShiftIr() + ShiftCycles(first) + PauseAndResume() + ShiftCycles(second), Ones(n), fed);
  }

  lemma IrPathsSilent(cfg: Config, margin: nat)
    requires Usable(cfg) && margin >= 1
    ensures SilentCycles(cfg, IrPaths(cfg, margin))
  {
    var ones, split, fed := Ones(cfg.irWidth + margin), AtLeastOne(cfg.irWidth / 2), Sentinel(1 + margin);
    OnesSplit(cfg.irWidth, margin, split);
    assert |ones| == cfg.irWidth + margin && |fed| == 1 + margin && 0 < split < cfg.irWidth + margin;
    hide Returns, ToShiftIr, ToShiftDr, ShiftCycles, PauseAndResume, PauseToUpdate, Exit1ToIdle, Ones, Sentinel,
         AtLeastOne, Usable;
    forall ir: Bits ensures Returns(cfg, ir, IrPaths(cfg, margin)) {
      IrPathsGo(cfg, ir, ones[..split], ones[split..], margin, fed);
    }
  }

  lemma OnesTail(n: nat, margin: nat)
    ensures Ones(n + margin) == Ones(margin) + Ones(n)
  {
  }

  /** From Exit1-IR through Pause back to the shift, and out. */
  lemma ResumedGoes(cfg: Config, ir: Bits, front: Cycles, mid: Bits, fed: Bits)
    requires Goes(cfg, RunTestIdle, ir, front, Exit1Ir, mid) && mid != [] && fed != []
    requires Quiet(cfg, Decode(cfg, ToInt((mid + fed)[|fed|..])))
    ensures Returns(cfg, ir, front + PauseAndResume() + ShiftCycles(fed) + Exit1ToIdle())
  {
    hide Goes, ShiftCycles, PauseAndResume, Exit1ToIdle, Quiet, Decode, ToInt;
    var loaded := (mid + fed)[|fed|..];
    PausesIr(cfg, mid);
    IrShiftGoes(cfg, mid, fed);
    LeavesIr(cfg, loaded);
    GoesJoin(cfg, RunTestIdle, ir, front, Exit1Ir, mid, PauseAndResume(), ShiftIrState, mid);
    GoesJoin(cfg, RunTestIdle, ir, front + PauseAndResume(), ShiftIrState, mid, ShiftCycles(fed), Exit1Ir, loaded);
    GoesJoin(cfg, RunTestIdle, ir, front + PauseAndResume() + ShiftCycles(fed), Exit1Ir, loaded,
             Exit1ToIdle(), RunTestIdle, loaded);
  }

  lemma IrHoldGo(cfg: Config, ir: Bits, first: Bits, second: Bits, margin: nat)
    requires Usable(cfg) && first != [] && second != []
    ensures Returns(cfg, ir, ToShiftIr() + ShiftCycles(first) + PauseAndResume() + ShiftCycles(second)
                             + PauseAndResume() + ShiftCycles(Ones(cfg.irWidth + margin)) + Exit1ToIdle())
  {
    var n := cfg.irWidth;
    var pattern, fed := FromInt(CAPTURE_IR_PATTERN, n), Ones(n + margin);
    var mid := (pattern + (first + second))[|first + second|..];
    QuietOpcode(cfg, BypassOpcode(n));
    OnesAre(n);
    OnesTail(n, margin);
    EndsInOnes(mid, Ones(margin));
    assert fed != [] && |mid| == n;
    hide Goes, Returns, ToShiftIr, ShiftCycles, PauseAndResume, Exit1ToIdle, Quiet, Decode, FromInt, ToInt, Ones;
    IrTwiceGoes(cfg, ir, first, second);
    ResumedGoes(cfg, ir, ToShiftIr() + ShiftCycles(first) + PauseAndResume() + ShiftCycles(second), mid, fed);
  }

  lemma IrHoldSilent(cfg: Config, margin: nat)
    requires Usable(cfg)
    ensures SilentCycles(cfg, IrHold(cfg, margin))
  {
    var n := cfg.irWidth;
    var first, second := FromInt(Alternating(n), n), FromInt(Not(Alternating(n)), n);
    assert first != [] && second != [];
    hide Returns, ToShiftIr, ShiftCycles, PauseAndResume, Exit1ToIdle, Ones, FromInt, Alternating, Not, Usable;
    forall ir: Bits ensures Returns(cfg, ir, IrHold(cfg, margin)) {
      IrHoldGo(cfg, ir, first, second, margin);
    }
  }

  // ---------------------------------------------------------------- the tests

  lemma SentinelSilent(cfg: Config, bits: nat, margin: nat)
    requires bits + margin >= 1
    ensures ToCycles(RunTestIdle, SentinelScan(bits, margin)) == Some(DrCycles(Sentinel(bits + margin)))
    ensures SilentCycles(cfg, DrCycles(Sentinel(bits + margin))) && Silent(cfg, Test([], SentinelScan(bits, margin)))
  {
    hide SilentCycles, Silent, DrCycles, ToCycles, DrOps;
    var n := bits + margin;
    DrOpsCycles(ShiftDR(n, DefaultSentinel(n), None, None));
    DrScanSilent(cfg, Sentinel(n));
    OpsSilent(cfg, SentinelScan(bits, margin), DrCycles(Sentinel(n)));
  }

  /** An instruction loaded and its register scanned. */
  lemma LoadSilent(cfg: Config, opcode: int, bits: nat, margin: nat)
    requires cfg.irWidth >= 1 && 0 <= opcode < Pow2(cfg.irWidth) && Quiet(cfg, Decode(cfg, opcode)) && bits + margin >= 1
    ensures Silent(cfg, Test([], SelectInstruction(opcode, cfg.irWidth) + SentinelScan(bits, margin)))
  {
    hide SilentCycles, Silent, DrCycles, ToCycles, SentinelScan, Quiet, Decode, Sentinel, FromInt, Walk, Goes;
    SelectCycles(opcode, cfg.irWidth);
    SentinelSilent(cfg, bits, margin);
    IrLoadSilent(cfg, opcode);
    var (a, b) := (IrLoad(opcode, cfg.irWidth), DrCycles(Sentinel(bits + margin)));
    ToCyclesJoin(RunTestIdle, SelectInstruction(opcode, cfg.irWidth), SentinelScan(bits, margin));
    SilentJoin(cfg, a, b);
    OpsSilent(cfg, SelectInstruction(opcode, cfg.irWidth) + SentinelScan(bits, margin), a + b);
  }

  lemma SelectCycles(opcode: int, irWidth: nat)
    requires irWidth >= 1
    ensures ToCycles(RunTestIdle, SelectInstruction(opcode, irWidth)) == Some(IrLoad(opcode, irWidth))
    ensures Walk(RunTestIdle, IrLoad(opcode, irWidth)) == RunTestIdle
  {
    var fed := FromInt(opcode, irWidth);
    IrOpsCycles(irWidth, opcode);
    IrShiftAside(fed);
    IrNavigates();
    hide Walk, ToShiftIr, ShiftCycles, Exit1ToIdle, FromInt;
    WalkJoin(RunTestIdle, ToShiftIr(), ShiftCycles(fed));
    WalkJoin(RunTestIdle, ToShiftIr() + ShiftCycles(fed), Exit1ToIdle());
  }

  ghost predicate AllSilent(cfg: Config, tests: seq<Test>) {
    forall k :: 0 <= k < |tests| ==> Silent(cfg, tests[k])
  }

  lemma {:induction false} OpcodesSilent(cfg: Config, count: nat, margin: nat)
    requires Usable(cfg) && count <= Pow2(cfg.irWidth)
    ensures AllSilent(cfg, OpcodeTests(cfg, count, margin))
  {
    hide Silent, Usable, Implemented, SelectInstruction, SentinelScan;
    if count > 0 {
      OpcodesSilent(cfg, count - 1, margin);
      if !Implemented(cfg, count - 1) {
        QuietOpcode(cfg, count - 1);
        assert cfg.irWidth >= 1 by { TwoBits(cfg); }
        LoadSilent(cfg, count - 1, 1, margin);
      }
    }
  }

  lemma TwoBits(cfg: Config)
    requires Usable(cfg)
    ensures cfg.irWidth >= 2
  {
  }

  /** One quiet instruction loaded, then raw cycles. */
  lemma LoadedSilent(cfg: Config, opcode: int, cycles: Cycles)
    requires cfg.irWidth >= 1 && 0 <= opcode < Pow2(cfg.irWidth) && Quiet(cfg, Decode(cfg, opcode))
    requires SilentCycles(cfg, cycles)
    ensures SilentCycles(cfg, IrLoad(opcode, cfg.irWidth) + cycles) && Silent(cfg, RawTest(IrLoad(opcode, cfg.irWidth) + cycles))
  {
    hide SilentCycles, IrLoad, Quiet, Decode, Silent, RawTest;
    IrLoadSilent(cfg, opcode);
    SilentJoin(cfg, IrLoad(opcode, cfg.irWidth), cycles);
    RawSilent(cfg, IrLoad(opcode, cfg.irWidth) + cycles);
  }

  /** One quiet instruction loaded, then raw cycles twice. */
  lemma LoadedTwiceSilent(cfg: Config, opcode: int, a: Cycles, b: Cycles)
    requires cfg.irWidth >= 1 && 0 <= opcode < Pow2(cfg.irWidth) && Quiet(cfg, Decode(cfg, opcode))
    requires SilentCycles(cfg, a) && SilentCycles(cfg, b)
    ensures Silent(cfg, RawTest(IrLoad(opcode, cfg.irWidth) + a + b))
  {
    hide SilentCycles, IrLoad, Quiet, Decode, Silent, RawTest;
    LoadedSilent(cfg, opcode, a);
    SilentJoin(cfg, IrLoad(opcode, cfg.irWidth) + a, b);
    RawSilent(cfg, IrLoad(opcode, cfg.irWidth) + a + b);
  }

  lemma NoneSilent(cfg: Config)
    ensures AllSilent(cfg, [])
  {
  }

  lemma OneSilent(cfg: Config, test: Test)
    requires Silent(cfg, test)
    ensures AllSilent(cfg, [test])
  {
    hide Silent;
  }

  lemma MoreSilent(cfg: Config, a: seq<Test>, b: seq<Test>)
    requires AllSilent(cfg, a) && AllSilent(cfg, b)
    ensures AllSilent(cfg, a + b)
  {
    hide Silent;
  }

  lemma TwoSilent(cfg: Config, a: Test, b: Test)
    requires Silent(cfg, a) && Silent(cfg, b)
    ensures AllSilent(cfg, [a, b])
  {
    hide Silent;
  }

  lemma FourSilent(cfg: Config, a: Test, b: Test, c: Test, d: Test)
    requires Silent(cfg, a) && Silent(cfg, b) && Silent(cfg, c) && Silent(cfg, d)
    ensures AllSilent(cfg, [a, b, c, d])
  {
    hide Silent;
  }

  lemma PathsSilent(cfg: Config, fed: Bits, margin: nat)
    requires Usable(cfg) && margin >= 1 && |fed| >= 2
    ensures AllSilent(cfg, PathTests(cfg, fed, margin))
  {
    QuietOpcode(cfg, BypassOpcode(cfg.irWidth));
    hide AllSilent, SilentCycles, Silent, RawTest, DrPaths, IrPaths, CaptureIrLoad, DrCycles, IrLoad, SelectIrReset, Quiet,
         Decode;
    DrPathsSilent(cfg, fed);
    RawSilent(cfg, DrPaths(cfg, fed));
    IrPathsSilent(cfg, margin);
    RawSilent(cfg, IrPaths(cfg, margin));
    CaptureIrSilent(cfg);
    DrScanSilent(cfg, fed);
    SilentJoin(cfg, CaptureIrLoad(), DrCycles(fed));
    RawSilent(cfg, CaptureIrLoad() + DrCycles(fed));
    SelectResetSilent(cfg);
    LoadedTwiceSilent(cfg, BypassOpcode(cfg.irWidth), SelectIrReset(), DrCycles(fed));
    var tests := PathTests(cfg, fed, margin);
    FourSilent(cfg, tests[0], tests[1], tests[2], tests[3]);
  }

  lemma HeldSilent(cfg: Config, fed: Bits, margin: nat)
    requires Usable(cfg) && fed != []
    ensures AllSilent(cfg, HeldTests(cfg, fed, margin))
  {
    var p, q, n := FromInt(Alternating(32), 32), FromInt(Not(Alternating(32)), 32), cfg.irWidth;
    QuietOpcode(cfg, BypassOpcode(n));
    QuietOpcode(cfg, OPCODE_IDCODE);
    hide AllSilent, SilentCycles, Silent, RawTest, IrLoad, PausedCycles, Quiet, Decode, FromInt, IrHold, Alternating, Not;
    PausedSilent(cfg, p, q, fed);
    LoadedSilent(cfg, OPCODE_IDCODE, PausedCycles(p, q, fed));
    PausedSilent(cfg, [true], [false, false], [true, true]);
    LoadedSilent(cfg, BypassOpcode(n), PausedCycles([true], [false, false], [true, true]));
    IrHoldSilent(cfg, margin);
    RawSilent(cfg, IrHold(cfg, margin));
    NoneSilent(cfg);
    OneSilent(cfg, RawTest(IrLoad(OPCODE_IDCODE, n) + PausedCycles(p, q, fed)));
    var two := [RawTest(IrLoad(BypassOpcode(n), n) + PausedCycles([true], [false, false], [true, true])),
                RawTest(IrHold(cfg, margin))];
    TwoSilent(cfg, two[0], two[1]);
    MoreSilent(cfg, if cfg.hasIdcode then [RawTest(IrLoad(OPCODE_IDCODE, n) + PausedCycles(p, q, fed))] else [], two);
  }

  lemma CapturedSilent(cfg: Config, fed: Bits, margin: nat)
    requires Usable(cfg) && fed != []
    ensures AllSilent(cfg, CapturedTests(cfg, fed, margin))
  {
    var held, short, n := FromInt(Not(cfg.idcodeValue), 32), Sentinel(1 + margin), cfg.irWidth;
    assert short != [];
    QuietOpcode(cfg, BypassOpcode(n));
    QuietOpcode(cfg, OPCODE_IDCODE);
    hide AllSilent, SilentCycles, Silent, RawTest, IrLoad, DrCycles, Quiet, Decode, FromInt, Not, Sentinel;
    DrScanSilent(cfg, held);
    DrScanSilent(cfg, fed);
    LoadedTwiceSilent(cfg, OPCODE_IDCODE, DrCycles(held), DrCycles(fed));
    DrScanSilent(cfg, [true, true]);
    DrScanSilent(cfg, short);
    LoadedTwiceSilent(cfg, BypassOpcode(n), DrCycles([true, true]), DrCycles(short));
    var one, last := RawTest(IrLoad(OPCODE_IDCODE, n) + DrCycles(held) + DrCycles(fed)),
                     RawTest(IrLoad(BypassOpcode(n), n) + DrCycles([true, true]) + DrCycles(short));
    NoneSilent(cfg);
    OneSilent(cfg, one);
    OneSilent(cfg, last);
    MoreSilent(cfg, if cfg.hasIdcode then [one] else [], [last]);
  }

  lemma TapPathsSilent(cfg: Config, margin: nat)
    requires Usable(cfg) && margin >= 1
    ensures AllSilent(cfg, TapPathTests(cfg, margin))
  {
    var fed := Sentinel(ResetBits(cfg) + margin);
    assert |fed| >= 2;
    var a, b, c := PathTests(cfg, fed, margin), HeldTests(cfg, fed, margin), CapturedTests(cfg, fed, margin);
    assert TapPathTests(cfg, margin) == a + b + c;
    hide *;
    PathsSilent(cfg, fed, margin);
    HeldSilent(cfg, fed, margin);
    CapturedSilent(cfg, fed, margin);
    MoreSilent(cfg, a, b);
    MoreSilent(cfg, a + b, c);
  }

  lemma DrPathsSilent(cfg: Config, fed: Bits)
    requires Usable(cfg) && |fed| >= 2
    ensures SilentCycles(cfg, DrPaths(cfg, fed))
  {
    var n, split := cfg.irWidth, AtLeastOne(|fed| / 4);
    var load := IrLoad(ResetOpcode(cfg), n);
    QuietOpcode(cfg, ResetOpcode(cfg));
    hide SilentCycles, IrLoad, DrCycles, AroundDr, Idle;
    IrLoadSilent(cfg, ResetOpcode(cfg));
    HeldIdleSilent(cfg);
    AroundSilent(cfg, fed[..split], fed[split..]);
    DrScanSilent(cfg, fed);
    SilentJoin(cfg, load, Idle([false, false]));
    SilentJoin(cfg, load + Idle([false, false]), AroundDr(fed[..split], fed[split..]));
    SilentJoin(cfg, load + Idle([false, false]) + AroundDr(fed[..split], fed[split..]), DrCycles(fed));
  }

  /** All tests of the TAP but the first, which starts with TRST. */
  lemma TapTestsSilent(cfg: Config, margin: nat, options: Options)
    requires Usable(cfg) && margin >= 1
    ensures AllSilent(cfg, TapTests(cfg, margin, options))
  {
    QuietOpcode(cfg, OPCODE_IDCODE);
    LoadSilent(cfg, OPCODE_IDCODE, 32, margin);
    hide AllSilent, Silent, IrScan, SentinelScan, OpcodeTests, TapPathTests, SelectInstruction, Usable;
    IrScanSilent(cfg, margin);
    SentinelSilent(cfg, 1, margin);
    NoneSilent(cfg);
    var first := [Test([], IrScan(cfg, margin)), Test([], SentinelScan(1, margin))];
    TwoSilent(cfg, first[0], first[1]);
    OpcodesSilent(cfg, Pow2(cfg.irWidth), margin);
    var codes := if options.exhaustiveOpcodes then OpcodeTests(cfg, Pow2(cfg.irWidth), margin) else [];
    var idcode := Test([], SelectInstruction(OPCODE_IDCODE, cfg.irWidth) + SentinelScan(32, margin));
    OneSilent(cfg, idcode);
    TapPathsSilent(cfg, margin);
    MoreSilent(cfg, first, codes);
    MoreSilent(cfg, first + codes, if cfg.hasIdcode then [idcode] else []);
    MoreSilent(cfg, first + codes + (if cfg.hasIdcode then [idcode] else []),
               if options.tapPaths then TapPathTests(cfg, margin) else []);
  }
}
