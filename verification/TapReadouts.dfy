/** What the integrity program (tap_integrity.py) expects of the TAP itself: in every test of the instruction
    register, BYPASS, IDCODE, the unused opcodes, the paths of the controller and the resets, each shift cycle is
    compared, and with a value written out here. */
module TapReadouts {
  import opened Wrappers
  import opened Bits
  import opened IclModel
  import opened SibCells
  import opened SibRetarget
  import opened SibStaging
  import opened PathPlan
  import opened TapFsm
  import opened TapIr
  import opened TapModel
  import opened TapPlay
  import opened TapSelect
  import opened TapCycles
  import opened PdlSpec
  import opened Retargeting
  import opened OverShift
  import opened Integrity
  import opened SelfCheckCycles
  import opened WriteReadback
  import opened TestRuns
  import opened NetworkScans
  import opened IntegrityTests
  import opened QuietTests
  import opened TestBoundaries
  import opened TapShows

  // ---------------------------------------------------------------- the values

  /** The bits fed by default: 0011, over and over. */
  function Period(n: nat): Bits { seq(n, k => k % 4 >= 2) }

  /** Alternating from a 1, from a 0, and nothing but 1s. */
  function FromOne(n: nat): Bits { seq(n, k => k % 2 == 0) }

  function FromZeroOn(n: nat): Bits { seq(n, k => k % 2 == 1) }

  function Set(n: nat): Bits { seq(n, _ => true) }

  /** The instruction a reset loads. */
  function Preset(cfg: Config): Instruction { if cfg.hasIdcode then IDCODE else BYPASS }

  function ResetReadout(cfg: Config, margin: nat): Bits {
    var inside := TapShows.Loaded(cfg, Preset(cfg));
    Through(inside, Period(|inside| + margin))
  }

  /** An opcode shifted in: the capture pattern comes out. */
  function LoadReadout(cfg: Config, fed: Bits): Bits
    requires cfg.irWidth >= 1
  {
    Through(IrPattern(cfg), fed)
  }

  function Code(cfg: Config, opcode: int): (fed: Bits)
    ensures |fed| == cfg.irWidth
  {
    seq(cfg.irWidth, k requires 0 <= k < cfg.irWidth => BitOf(opcode, k))
  }

  function BypassReadout(margin: nat): Bits { Through([false], Period(1 + margin)) }

  /** Every opcode that decodes to BYPASS without being its own. */
  function OpcodeReadouts(cfg: Config, count: nat, margin: nat): seq<Bits>
    requires cfg.irWidth >= 1
  {
    if count == 0 then []
    else OpcodeReadouts(cfg, count - 1, margin)
         + if Decode(cfg, count - 1) == BYPASS && Code(cfg, count - 1) != Set(cfg.irWidth)
           then [LoadReadout(cfg, Code(cfg, count - 1)) + BypassReadout(margin)] else []
  }

  function PathReadouts(cfg: Config, fed: Bits, margin: nat): seq<Bits>
    requires cfg.irWidth >= 1
  {
    var n, inside := cfg.irWidth, TapShows.Loaded(cfg, Preset(cfg));
    [LoadReadout(cfg, if cfg.hasIdcode then Code(cfg, 1) else Set(n)) + Through(inside, fed) + Through(inside, fed),
     LoadReadout(cfg, Set(n + margin)) + BypassReadout(margin),
     Through(inside, fed),
     LoadReadout(cfg, Set(n)) + Through(inside, fed)]
  }

  function HeldReadouts(cfg: Config, fed: Bits, margin: nat): seq<Bits>
    requires cfg.irWidth >= 1
  {
    var n := cfg.irWidth;
    (if cfg.hasIdcode then
       [LoadReadout(cfg, Code(cfg, 1)) + Through(TapShows.Loaded(cfg, IDCODE), FromOne(32) + FromZeroOn(32) + fed)]
     else [])
    + [LoadReadout(cfg, Set(n)) + [false, true, false, false, true],
       LoadReadout(cfg, FromOne(n) + FromZeroOn(n) + Set(n + margin))]
  }

  function CapturedReadouts(cfg: Config, fed: Bits, margin: nat): seq<Bits>
    requires cfg.irWidth >= 1
  {
    var n := cfg.irWidth;
    var code := TapShows.Loaded(cfg, IDCODE);
    (if cfg.hasIdcode then [LoadReadout(cfg, Code(cfg, 1)) + code + Through(code, fed)] else [])
    + [LoadReadout(cfg, Set(n)) + [false, true] + BypassReadout(margin)]
  }

  /** After the first test, which reads the register a reset selects. */
  function TestReadouts(cfg: Config, margin: nat, options: Options): seq<Bits>
    requires cfg.irWidth >= 1
  {
    var fed := Period(|TapShows.Loaded(cfg, Preset(cfg))| + margin);
    [LoadReadout(cfg, Period(margin) + Set(cfg.irWidth)), BypassReadout(margin)]
    + (if options.exhaustiveOpcodes then OpcodeReadouts(cfg, Pow2(cfg.irWidth), margin) else [])
    + (if cfg.hasIdcode then
         [LoadReadout(cfg, Code(cfg, 1)) + Through(TapShows.Loaded(cfg, IDCODE), Period(32 + margin))] else [])
    + (if options.tapPaths then
         PathReadouts(cfg, fed, margin) + HeldReadouts(cfg, fed, margin) + CapturedReadouts(cfg, fed, margin) else [])
  }

  // ---------------------------------------------------------------- what is fed

  lemma SentinelIs(n: nat)
    ensures Sentinel(n) == Period(n)
  {
    hide ToInt, FromInt;
    var bits := seq(n, i => i / 2 % 2 == 1);
    FromIntToInt(bits);
    forall k | 0 <= k < n ensures bits[k] == Period(n)[k] {
      var q, r := k / 4, k % 4;
      assert k == 4 * q + r && k / 2 == 2 * q + r / 2;
    }
  }

  lemma AlternatingIs(n: nat)
    ensures FromInt(Alternating(n), n) == FromOne(n)
    ensures FromInt(Not(Alternating(n)), n) == FromZeroOn(n)
  {
    hide ToInt, FromInt;
    var bits := seq(n, k => k % 2 == 0);
    FromIntToInt(bits);
    forall k | 0 <= k < n ensures FromInt(Not(Alternating(n)), n)[k] == FromZeroOn(n)[k] {
      FromIntBit(Not(Alternating(n)), n, k);
      NotBit(Alternating(n), k);
      ToIntBit(bits, k);
    }
  }

  lemma CodeIs(cfg: Config, opcode: int)
    ensures FromInt(opcode, cfg.irWidth) == Code(cfg, opcode)
  {
    forall k | 0 <= k < cfg.irWidth ensures FromInt(opcode, cfg.irWidth)[k] == BitOf(opcode, k) {
      FromIntBit(opcode, cfg.irWidth, k);
    }
  }

  /** BYPASS's opcode is all ones, and no other opcode of the width is. */
  lemma BypassIsSet(cfg: Config, opcode: int)
    requires 0 <= opcode < Pow2(cfg.irWidth)
    ensures Code(cfg, opcode) == Set(cfg.irWidth) <==> opcode == BypassOpcode(cfg.irWidth)
  {
    var n := cfg.irWidth;
    OnesAre(n);
    CodeIs(cfg, opcode);
    ToIntFromInt(opcode, n);
    assert Ones(n) == Set(n);
  }

  // ---------------------------------------------------------------- whole scans

  /** Waiting in Run-Test/Idle under a quiet instruction. */
  ghost predicate At(cfg: Config, i: Instruction, t: Tap<NetState>) {
    Aside(cfg, t) && t.instruction == i
  }

  /** A DR scan of any bits. */
  lemma ScanDisplays(w: Wiring<NetState>, c: Chain, cfg: Config, t: Tap<NetState>, fed: Bits) returns (u: Tap<NetState>)
    requires Aside(cfg, t) && fed != []
    ensures Displays(w, c, t, Inputs(DrCycles(fed)), u, Through(TapShows.Loaded(cfg, t.instruction), fed))
    ensures At(cfg, t.instruction, u)
  {
    var inside := TapShows.Loaded(cfg, t.instruction);
    var a := CapturedDr(t).(state := ShiftDrState);
    assert Inside(a) == inside && Quiet(a.cfg, a.instruction);
    var b := With(a, Kept(inside, fed)).(state := Exit1Dr);
    u := b.(state := RunTestIdle);
    assert Quiet(b.cfg, b.instruction) && b.(state := Exit1Dr) == b && At(cfg, t.instruction, u);
    hide Displays, Inputs, ShiftCycles, Idle, TapShows.Loaded, CapturedDr, Inside, With, Kept, Through, Quiet;
    ToDr(w, c, t);
    ShiftsDr(w, c, a, fed);
    TapShows.LeavesDr(w, c, b);
    ThreeDisplay(w, c, t, ToShiftDr(), a, [], ShiftCycles(fed), b, Through(inside, fed), Exit1ToIdle(), u, []);
    Alone(Through(inside, fed));
  }

  lemma Alone(bits: Bits)
    ensures [] + bits + [] == bits
  {
  }

  lemma TwoDisplay(w: Wiring<NetState>, c: Chain, t: Tap<NetState>, x: Cycles, a: Tap<NetState>, p: Bits,
                   y: Cycles, b: Tap<NetState>, q: Bits)
    requires Displays(w, c, t, Inputs(x), a, p) && Displays(w, c, a, Inputs(y), b, q)
    ensures Displays(w, c, t, Inputs(x + y), b, p + q)
  {
    hide Displays, Inputs;
    InputsJoin(x, y);
    DisplaysJoin(w, c, t, Inputs(x), a, p, Inputs(y), b, q);
  }

  lemma ThreeDisplay(w: Wiring<NetState>, c: Chain, t: Tap<NetState>, x: Cycles, a: Tap<NetState>, p: Bits,
                     y: Cycles, b: Tap<NetState>, q: Bits, z: Cycles, u: Tap<NetState>, r: Bits)
    requires Displays(w, c, t, Inputs(x), a, p) && Displays(w, c, a, Inputs(y), b, q) && Displays(w, c, b, Inputs(z), u, r)
    ensures Displays(w, c, t, Inputs(x + y + z), u, p + q + r)
  {
    hide Displays, Inputs;
    TwoDisplay(w, c, t, x, a, p, y, b, q);
    TwoDisplay(w, c, t, x + y, b, p + q, z, u, r);
  }

  /** Bits through the instruction register and an update: what stays inside is decoded, and nothing else happens. */
  lemma AnyLoadDisplays(w: Wiring<NetState>, c: Chain, cfg: Config, t: Tap<NetState>, fed: Bits)
    requires Aside(cfg, t) && fed != [] && cfg.irWidth >= 1
    ensures var kept := Kept(IrPattern(cfg), fed);
            Displays(w, c, t, Inputs(ToShiftIr() + ShiftCycles(fed) + Exit1ToIdle()),
                     t.(ir := kept, instruction := Decode(cfg, ToInt(kept))), LoadReadout(cfg, fed))
  {
    var a := t.(ir := IrPattern(cfg), state := ShiftIrState);
    var b := t.(ir := Kept(IrPattern(cfg), fed), state := Exit1Ir);
    var u := Decoded(b).(state := RunTestIdle);
    assert b.(state := Exit1Ir) == b;
    hide Displays, Inputs, ShiftCycles, Idle, IrPattern, Kept, Through, Decode, ToInt;
    ToIr(w, c, t);
    ShiftsIr(w, c, a, fed);
    TapShows.LeavesIr(w, c, b);
    ThreeDisplay(w, c, t, ToShiftIr(), a, [], ShiftCycles(fed), b, Through(IrPattern(cfg), fed), Exit1ToIdle(), u, []);
    Alone(Through(IrPattern(cfg), fed));
  }

  lemma LoadDisplays(w: Wiring<NetState>, c: Chain, cfg: Config, t: Tap<NetState>, fed: Bits) returns (u: Tap<NetState>)
    requires Aside(cfg, t) && fed != [] && cfg.irWidth >= 1
    requires Quiet(cfg, Decode(cfg, ToInt(Kept(IrPattern(cfg), fed))))
    ensures Displays(w, c, t, Inputs(ToShiftIr() + ShiftCycles(fed) + Exit1ToIdle()), u, LoadReadout(cfg, fed))
    ensures At(cfg, Decode(cfg, ToInt(Kept(IrPattern(cfg), fed))), u)
  {
    hide Displays, Inputs, ShiftCycles, Idle, IrPattern, Kept, LoadReadout, Decode, ToInt, Quiet;
    AnyLoadDisplays(w, c, cfg, t, fed);
    var kept := Kept(IrPattern(cfg), fed);
    u := t.(ir := kept, instruction := Decode(cfg, ToInt(kept)));
  }

  /** What ends in an opcode's bits loads the opcode. */
  lemma EndsInCode(cfg: Config, front: Bits, opcode: int)
    requires cfg.irWidth >= 1 && 0 <= opcode < Pow2(cfg.irWidth)
    ensures ToInt(Kept(IrPattern(cfg), front + Code(cfg, opcode))) == opcode
  {
    hide ToInt, IrPattern;
    CodeIs(cfg, opcode);
    ToIntFromInt(opcode, cfg.irWidth);
    var p := IrPattern(cfg);
    assert p + (front + Code(cfg, opcode)) == (p + front) + Code(cfg, opcode);
  }

  lemma OpcodeDisplays(w: Wiring<NetState>, c: Chain, cfg: Config, t: Tap<NetState>, opcode: int) returns (u: Tap<NetState>)
    requires Aside(cfg, t) && cfg.irWidth >= 1 && 0 <= opcode < Pow2(cfg.irWidth) && Quiet(cfg, Decode(cfg, opcode))
    ensures Displays(w, c, t, Inputs(IrLoad(opcode, cfg.irWidth)), u, LoadReadout(cfg, Code(cfg, opcode)))
    ensures At(cfg, Decode(cfg, opcode), u)
  {
    hide Displays, Inputs, ShiftCycles, Idle, IrPattern, Kept, Through, Decode, ToInt, Code, Aside;
    EndsInCode(cfg, [], opcode);
    CodeIs(cfg, opcode);
    assert [] + Code(cfg, opcode) == Code(cfg, opcode);
    u := LoadDisplays(w, c, cfg, t, Code(cfg, opcode));
  }

  // ---------------------------------------------------------------- decoding

  /** What the opcodes the tests load select. */
  lemma OpcodesSelect(cfg: Config)
    requires Usable(cfg)
    ensures 1 < Pow2(cfg.irWidth)
    ensures Decode(cfg, BypassOpcode(cfg.irWidth)) == BYPASS && 0 <= BypassOpcode(cfg.irWidth) < Pow2(cfg.irWidth)
    ensures Decode(cfg, OPCODE_IDCODE) == Preset(cfg) && Quiet(cfg, Preset(cfg)) && Quiet(cfg, BYPASS)
    ensures Code(cfg, BypassOpcode(cfg.irWidth)) == Set(cfg.irWidth)
  {
    QuietOpcode(cfg, BypassOpcode(cfg.irWidth));
    BypassIsSet(cfg, BypassOpcode(cfg.irWidth));
  }

  /** An opcode is not implemented exactly when it decodes to BYPASS and is not BYPASS's own. */
  lemma UnimplementedIs(cfg: Config, opcode: int)
    requires Usable(cfg) && 0 <= opcode < Pow2(cfg.irWidth)
    ensures !Implemented(cfg, opcode) <==> Decode(cfg, opcode) == BYPASS && Code(cfg, opcode) != Set(cfg.irWidth)
  {
    BypassIsSet(cfg, opcode);
    hide Code, Set, Pow2;
  }

  // ---------------------------------------------------------------- one test

  function InputsOf(test: Test): seq<TckInput> { test.leadIn + Inputs(CyclesOf(test)) }

  /** From `t` the test shows `bits` and leaves nothing loaded that reaches the network. */
  ghost predicate ReadsFrom(w: Wiring<NetState>, c: Chain, cfg: Config, t: Tap<NetState>, test: Test, bits: Bits) {
    exists u: Tap<NetState> :: Displays(w, c, t, InputsOf(test), u, bits) && Aside(cfg, u)
  }

  /** The same from wherever the tests before it leave the TAP. */
  ghost predicate Reads(w: Wiring<NetState>, c: Chain, cfg: Config, test: Test, bits: Bits) {
    forall t: Tap<NetState> :: Aside(cfg, t) ==> ReadsFrom(w, c, cfg, t, test, bits)
  }

  ghost predicate AllRead(w: Wiring<NetState>, c: Chain, cfg: Config, tests: seq<Test>, readouts: seq<Bits>) {
    |tests| == |readouts| && forall k :: 0 <= k < |tests| ==> Reads(w, c, cfg, tests[k], readouts[k])
  }

  lemma AllJoin(w: Wiring<NetState>, c: Chain, cfg: Config, a: seq<Test>, x: seq<Bits>, b: seq<Test>, y: seq<Bits>)
    requires AllRead(w, c, cfg, a, x) && AllRead(w, c, cfg, b, y)
    ensures AllRead(w, c, cfg, a + b, x + y)
  {
    hide Reads;
  }

  lemma NoneRead(w: Wiring<NetState>, c: Chain, cfg: Config)
    ensures AllRead(w, c, cfg, [], [])
  {
  }

  lemma OneRead(w: Wiring<NetState>, c: Chain, cfg: Config, test: Test, bits: Bits)
    requires Reads(w, c, cfg, test, bits)
    ensures AllRead(w, c, cfg, [test], [bits])
  {
    hide Reads;
  }

  lemma RawReads(w: Wiring<NetState>, c: Chain, cfg: Config, t: Tap<NetState>, cycles: Cycles, u: Tap<NetState>, bits: Bits)
    requires Displays(w, c, t, Inputs(cycles), u, bits) && Aside(cfg, u)
    ensures ReadsFrom(w, c, cfg, t, RawTest(cycles), bits)
  {
    hide Displays, Aside;
    assert Inputs([]) == [];
    assert InputsOf(RawTest(cycles)) == Inputs(cycles);
  }

  lemma OpsRead(w: Wiring<NetState>, c: Chain, cfg: Config, t: Tap<NetState>, ops: seq<Op>, cycles: Cycles,
                u: Tap<NetState>, bits: Bits)
    requires ToCycles(RunTestIdle, ops) == Some(cycles) && Displays(w, c, t, Inputs(cycles), u, bits) && Aside(cfg, u)
    ensures ReadsFrom(w, c, cfg, t, Test([], ops), bits)
  {
    hide Displays, Aside, ToCycles;
    assert InputsOf(Test([], ops)) == Inputs(cycles);
  }

  /** An opcode loaded and its register scanned with the default bits. */
  lemma SelectReads(w: Wiring<NetState>, c: Chain, cfg: Config, opcode: int, bits: nat, margin: nat)
    requires cfg.irWidth >= 1 && 0 <= opcode < Pow2(cfg.irWidth) && Quiet(cfg, Decode(cfg, opcode)) && bits + margin >= 1
    ensures Reads(w, c, cfg, Test([], SelectInstruction(opcode, cfg.irWidth) + SentinelScan(bits, margin)),
                  LoadReadout(cfg, Code(cfg, opcode))
                  + Through(TapShows.Loaded(cfg, Decode(cfg, opcode)), Period(bits + margin)))
  {
    hide Displays, Inputs, IrLoad, DrCycles, ToCycles, SentinelScan, SelectInstruction, LoadReadout, Through, Code,
         TapShows.Loaded, Decode, Quiet, Walk, ReadsFrom, Silent, SilentCycles, Sentinel;
    SelectCycles(opcode, cfg.irWidth);
    SentinelSilent(cfg, bits, margin);
    SentinelIs(bits + margin);
    var (a, b) := (IrLoad(opcode, cfg.irWidth), DrCycles(Period(bits + margin)));
    ToCyclesJoin(RunTestIdle, SelectInstruction(opcode, cfg.irWidth), SentinelScan(bits, margin));
    assert Period(bits + margin) != [];
    forall t: Tap<NetState> | Aside(cfg, t)
      ensures ReadsFrom(w, c, cfg, t, Test([], SelectInstruction(opcode, cfg.irWidth) + SentinelScan(bits, margin)),
                        LoadReadout(cfg, Code(cfg, opcode))
                        + Through(TapShows.Loaded(cfg, Decode(cfg, opcode)), Period(bits + margin)))
    {
      var mid := OpcodeDisplays(w, c, cfg, t, opcode);
      var u := ScanDisplays(w, c, cfg, mid, Period(bits + margin));
      TwoDisplay(w, c, t, a, mid, LoadReadout(cfg, Code(cfg, opcode)), b, u,
                 Through(TapShows.Loaded(cfg, Decode(cfg, opcode)), Period(bits + margin)));
      OpsRead(w, c, cfg, t, SelectInstruction(opcode, cfg.irWidth) + SentinelScan(bits, margin), a + b, u,
              LoadReadout(cfg, Code(cfg, opcode))
              + Through(TapShows.Loaded(cfg, Decode(cfg, opcode)), Period(bits + margin)));
    }
  }

  /** The test of one unused opcode, or none. */
  lemma OpcodeReads(w: Wiring<NetState>, c: Chain, cfg: Config, opcode: nat, margin: nat)
    requires Usable(cfg) && opcode < Pow2(cfg.irWidth) && cfg.irWidth >= 1
    ensures AllRead(w, c, cfg, if Implemented(cfg, opcode) then [] else [OpcodeTest(cfg, opcode, margin)],
                    if Decode(cfg, opcode) == BYPASS && Code(cfg, opcode) != Set(cfg.irWidth)
                    then [LoadReadout(cfg, Code(cfg, opcode)) + BypassReadout(margin)] else [])
  {
    hide Reads, Usable, Implemented, SelectInstruction, SentinelScan, Decode, Code, Set, LoadReadout, Through, Period,
         TapShows.Loaded, Quiet, AllRead;
    UnimplementedIs(cfg, opcode);
    NoneRead(w, c, cfg);
    if !Implemented(cfg, opcode) {
      QuietOpcode(cfg, opcode);
      SelectReads(w, c, cfg, opcode, 1, margin);
      BypassLoads(cfg);
      OneRead(w, c, cfg, OpcodeTest(cfg, opcode, margin), LoadReadout(cfg, Code(cfg, opcode)) + BypassReadout(margin));
    }
  }

  lemma {:induction false} OpcodesRead(w: Wiring<NetState>, c: Chain, cfg: Config, count: nat, margin: nat)
    requires Usable(cfg) && count <= Pow2(cfg.irWidth) && cfg.irWidth >= 1
    ensures AllRead(w, c, cfg, OpcodeTests(cfg, count, margin), OpcodeReadouts(cfg, count, margin))
  {
    hide AllRead, Usable, Implemented, Decode, Code, Set, LoadReadout, BypassReadout, OpcodeTest;
    if count == 0 {
      NoneRead(w, c, cfg);
    } else {
      var opcode := count - 1;
      OpcodesRead(w, c, cfg, opcode, margin);
      OpcodeReads(w, c, cfg, opcode, margin);
      AllJoin(w, c, cfg, OpcodeTests(cfg, opcode, margin), OpcodeReadouts(cfg, opcode, margin),
              if Implemented(cfg, opcode) then [] else [OpcodeTest(cfg, opcode, margin)],
              if Decode(cfg, opcode) == BYPASS && Code(cfg, opcode) != Set(cfg.irWidth)
              then [LoadReadout(cfg, Code(cfg, opcode)) + BypassReadout(margin)] else []);
    }
  }

  lemma BypassLoads(cfg: Config)
    ensures TapShows.Loaded(cfg, BYPASS) == [false]
  {
  }

  // ---------------------------------------------------------------- raw sequences, piece by piece

  /** In state `s` with `inside` in the register the instruction selects. */
  ghost predicate Holding(cfg: Config, i: Instruction, s: TapState, inside: Bits, t: Tap<NetState>) {
    t.cfg == cfg && t.instruction == i && Quiet(cfg, i) && t.state == s && Inside(t) == inside
  }

  /** In state `s` with `ir` in the instruction register. */
  ghost predicate IrHolding(cfg: Config, s: TapState, ir: Bits, t: Tap<NetState>) {
    t.cfg == cfg && Quiet(cfg, t.instruction) && t.state == s && t.ir == ir
  }

  lemma Unshown(bits: Bits)
    ensures bits + [] == bits
  {
  }

  lemma DrEnter(w: Wiring<NetState>, c: Chain, cfg: Config, i: Instruction, t: Tap<NetState>, front: Cycles,
                a: Tap<NetState>, p: Bits) returns (u: Tap<NetState>)
    requires Displays(w, c, t, Inputs(front), a, p) && At(cfg, i, a)
    ensures Displays(w, c, t, Inputs(front + ToShiftDr()), u, p)
    ensures Holding(cfg, i, ShiftDrState, TapShows.Loaded(cfg, i), u)
  {
    u := CapturedDr(a).(state := ShiftDrState);
    hide Displays, Inputs, Idle;
    ToDr(w, c, a);
    TwoDisplay(w, c, t, front, a, p, ToShiftDr(), u, []);
    Unshown(p);
  }

  lemma DrShift(w: Wiring<NetState>, c: Chain, cfg: Config, i: Instruction, inside: Bits, t: Tap<NetState>, front: Cycles,
                a: Tap<NetState>, p: Bits, fed: Bits) returns (u: Tap<NetState>)
    requires Displays(w, c, t, Inputs(front), a, p) && Holding(cfg, i, ShiftDrState, inside, a)
    requires inside != [] && fed != []
    ensures Displays(w, c, t, Inputs(front + ShiftCycles(fed)), u, p + Through(inside, fed))
    ensures Holding(cfg, i, Exit1Dr, Kept(inside, fed), u)
  {
    u := With(a, Kept(inside, fed)).(state := Exit1Dr);
    hide Displays, Inputs, ShiftCycles, Through, Kept;
    ShiftsDr(w, c, a, fed);
    TwoDisplay(w, c, t, front, a, p, ShiftCycles(fed), u, Through(inside, fed));
  }

  lemma DrPause(w: Wiring<NetState>, c: Chain, cfg: Config, i: Instruction, inside: Bits, t: Tap<NetState>, front: Cycles,
                a: Tap<NetState>, p: Bits) returns (u: Tap<NetState>)
    requires Displays(w, c, t, Inputs(front), a, p) && Holding(cfg, i, Exit1Dr, inside, a)
    ensures Displays(w, c, t, Inputs(front + PauseAndResume()), u, p) && Holding(cfg, i, ShiftDrState, inside, u)
  {
    u := a.(state := ShiftDrState);
    assert a.(state := Exit1Dr) == a;
    hide Displays, Inputs, Idle;
    TapShows.PausesDr(w, c, a);
    TwoDisplay(w, c, t, front, a, p, PauseAndResume(), u, []);
    Unshown(p);
  }

  lemma DrLeave(w: Wiring<NetState>, c: Chain, cfg: Config, i: Instruction, inside: Bits, t: Tap<NetState>, front: Cycles,
                a: Tap<NetState>, p: Bits) returns (u: Tap<NetState>)
    requires Displays(w, c, t, Inputs(front), a, p) && Holding(cfg, i, Exit1Dr, inside, a)
    ensures Displays(w, c, t, Inputs(front + Exit1ToIdle()), u, p) && At(cfg, i, u)
  {
    u := a.(state := RunTestIdle);
    assert a.(state := Exit1Dr) == a;
    hide Displays, Inputs, Idle;
    TapShows.LeavesDr(w, c, a);
    TwoDisplay(w, c, t, front, a, p, Exit1ToIdle(), u, []);
    Unshown(p);
  }

  lemma DrRound(w: Wiring<NetState>, c: Chain, cfg: Config, i: Instruction, inside: Bits, t: Tap<NetState>, front: Cycles,
                a: Tap<NetState>, p: Bits) returns (u: Tap<NetState>)
    requires Displays(w, c, t, Inputs(front), a, p) && Holding(cfg, i, Exit1Dr, inside, a)
    ensures Displays(w, c, t, Inputs(front + PauseToUpdate() + CaptureAndExit()), u, p) && At(cfg, i, u)
  {
    u := CapturedDr(a).(state := RunTestIdle);
    assert a.(state := Exit1Dr) == a;
    assert At(cfg, i, u) by { CapturedAnywhere(a, Exit1Dr, RunTestIdle); }
    hide Displays, Inputs, Idle, CapturedDr, Aside;
    PausesToUpdateDr(w, c, a);
    RoundDr(w, c, a);
    ThreeDisplay(w, c, t, front, a, p, PauseToUpdate(), a.(state := UpdateDr), [], CaptureAndExit(), u, []);
    Unshown(p);
  }

  lemma IrEnter(w: Wiring<NetState>, c: Chain, cfg: Config, t: Tap<NetState>) returns (u: Tap<NetState>)
    requires Aside(cfg, t) && cfg.irWidth >= 1
    ensures Displays(w, c, t, Inputs(ToShiftIr()), u, []) && IrHolding(cfg, ShiftIrState, IrPattern(cfg), u)
  {
    u := t.(ir := IrPattern(cfg), state := ShiftIrState);
    hide Displays, Inputs, Idle, IrPattern;
    ToIr(w, c, t);
  }

  lemma IrShift(w: Wiring<NetState>, c: Chain, cfg: Config, ir: Bits, t: Tap<NetState>, front: Cycles,
                a: Tap<NetState>, p: Bits, fed: Bits) returns (u: Tap<NetState>)
    requires Displays(w, c, t, Inputs(front), a, p) && IrHolding(cfg, ShiftIrState, ir, a) && ir != [] && fed != []
    ensures Displays(w, c, t, Inputs(front + ShiftCycles(fed)), u, p + Through(ir, fed))
    ensures IrHolding(cfg, Exit1Ir, Kept(ir, fed), u)
  {
    u := a.(ir := Kept(ir, fed), state := Exit1Ir);
    hide Displays, Inputs, ShiftCycles, Through, Kept;
    ShiftsIr(w, c, a, fed);
    TwoDisplay(w, c, t, front, a, p, ShiftCycles(fed), u, Through(ir, fed));
  }

  lemma IrPause(w: Wiring<NetState>, c: Chain, cfg: Config, ir: Bits, t: Tap<NetState>, front: Cycles,
                a: Tap<NetState>, p: Bits) returns (u: Tap<NetState>)
    requires Displays(w, c, t, Inputs(front), a, p) && IrHolding(cfg, Exit1Ir, ir, a)
    ensures Displays(w, c, t, Inputs(front + PauseAndResume()), u, p) && IrHolding(cfg, ShiftIrState, ir, u)
  {
    u := a.(state := ShiftIrState);
    assert a.(state := Exit1Ir) == a;
    hide Displays, Inputs, Idle;
    TapShows.PausesIr(w, c, a);
    TwoDisplay(w, c, t, front, a, p, PauseAndResume(), u, []);
    Unshown(p);
  }

  lemma IrLeave(w: Wiring<NetState>, c: Chain, cfg: Config, ir: Bits, t: Tap<NetState>, front: Cycles,
                a: Tap<NetState>, p: Bits) returns (u: Tap<NetState>)
    requires Displays(w, c, t, Inputs(front), a, p) && IrHolding(cfg, Exit1Ir, ir, a) && Quiet(cfg, Decode(cfg, ToInt(ir)))
    ensures Displays(w, c, t, Inputs(front + Exit1ToIdle()), u, p) && At(cfg, Decode(cfg, ToInt(ir)), u)
  {
    u := Decoded(a).(state := RunTestIdle);
    assert a.(state := Exit1Ir) == a;
    hide Displays, Inputs, Idle, Decode, ToInt, Quiet;
    TapShows.LeavesIr(w, c, a);
    TwoDisplay(w, c, t, front, a, p, Exit1ToIdle(), u, []);
    Unshown(p);
  }

  /** Through Pause-IR and an update on into a DR scan. */
  lemma IrOn(w: Wiring<NetState>, c: Chain, cfg: Config, ir: Bits, t: Tap<NetState>, front: Cycles,
             a: Tap<NetState>, p: Bits) returns (u: Tap<NetState>)
    requires Displays(w, c, t, Inputs(front), a, p) && IrHolding(cfg, Exit1Ir, ir, a) && Quiet(cfg, Decode(cfg, ToInt(ir)))
    ensures Displays(w, c, t, Inputs(front + PauseToUpdate() + ToShiftDr()), u, p)
    ensures var i := Decode(cfg, ToInt(ir)); Holding(cfg, i, ShiftDrState, TapShows.Loaded(cfg, i), u)
  {
    u := CapturedDr(Decoded(a)).(state := ShiftDrState);
    assert a.(state := Exit1Ir) == a;
    hide Displays, Inputs, Idle, Decode, ToInt;
    PausesToUpdateIr(w, c, a);
    OnToDr(w, c, a);
    ThreeDisplay(w, c, t, front, a, p, PauseToUpdate(), a.(state := UpdateIr), [], ToShiftDr(), u, []);
    Unshown(p);
  }

  lemma FromNothing(w: Wiring<NetState>, c: Chain, t: Tap<NetState>)
    ensures Displays(w, c, t, Inputs([]), t, [])
  {
    assert Inputs([]) == [];
  }

  /** Two stretches of bits through one register. */
  lemma DrTwo(w: Wiring<NetState>, c: Chain, cfg: Config, i: Instruction, t: Tap<NetState>, first: Bits, second: Bits)
    returns (u: Tap<NetState>)
    requires At(cfg, i, t) && first != [] && second != []
    ensures var inside := TapShows.Loaded(cfg, i);
            && Displays(w, c, t, Inputs(ToShiftDr() + ShiftCycles(first) + PauseAndResume() + ShiftCycles(second)), u,
                        Through(inside, first + second))
            && Holding(cfg, i, Exit1Dr, Kept(inside, first + second), u)
  {
    hide Displays, Inputs, ShiftCycles, Idle, Through, Kept, TapShows.Loaded, Holding, At;
    var inside := TapShows.Loaded(cfg, i);
    FromNothing(w, c, t);
    var a := DrEnter(w, c, cfg, i, t, [], t, []);
    assert [] + ToShiftDr() == ToShiftDr();
    var b := DrShift(w, c, cfg, i, inside, t, ToShiftDr(), a, [], first);
    var d := DrPause(w, c, cfg, i, Kept(inside, first), t, ToShiftDr() + ShiftCycles(first), b, [] + Through(inside, first));
    u := DrShift(w, c, cfg, i, Kept(inside, first), t, ToShiftDr() + ShiftCycles(first) + PauseAndResume(), d,
                 [] + Through(inside, first), second);
    Twice(inside, first, second);
    assert [] + Through(inside, first) == Through(inside, first);
  }

  lemma AroundReads(w: Wiring<NetState>, c: Chain, cfg: Config, i: Instruction, t: Tap<NetState>, first: Bits, second: Bits)
    returns (u: Tap<NetState>)
    requires At(cfg, i, t) && first != [] && second != []
    ensures Displays(w, c, t, Inputs(AroundDr(first, second)), u, Through(TapShows.Loaded(cfg, i), first + second))
    ensures At(cfg, i, u)
  {
    hide Displays, Inputs, ShiftCycles, Idle, Through, Kept, TapShows.Loaded, Holding, At;
    var inside := TapShows.Loaded(cfg, i);
    var a := DrTwo(w, c, cfg, i, t, first, second);
    u := DrRound(w, c, cfg, i, Kept(inside, first + second), t,
                 ToShiftDr() + ShiftCycles(first) + PauseAndResume() + ShiftCycles(second), a, Through(inside, first + second));
  }

  lemma PausedReads(w: Wiring<NetState>, c: Chain, cfg: Config, i: Instruction, t: Tap<NetState>, first: Bits,
                    second: Bits, last: Bits) returns (u: Tap<NetState>)
    requires At(cfg, i, t) && first != [] && second != [] && last != []
    ensures Displays(w, c, t, Inputs(PausedCycles(first, second, last)), u,
                     Through(TapShows.Loaded(cfg, i), first + second + last))
    ensures At(cfg, i, u)
  {
    hide Displays, Inputs, ShiftCycles, Idle, Through, Kept, TapShows.Loaded, Holding, At;
    var inside := TapShows.Loaded(cfg, i);
    var front := ToShiftDr() + ShiftCycles(first) + PauseAndResume() + ShiftCycles(second);
    var a := DrTwo(w, c, cfg, i, t, first, second);
    var kept := Kept(inside, first + second);
    var b := DrPause(w, c, cfg, i, kept, t, front, a, Through(inside, first + second));
    var d := DrShift(w, c, cfg, i, kept, t, front + PauseAndResume(), b, Through(inside, first + second), last);
    Twice(inside, first + second, last);
    u := DrLeave(w, c, cfg, i, Kept(kept, last), t, front + PauseAndResume() + ShiftCycles(last), d,
                 Through(inside, first + second) + Through(kept, last));
  }

  /** Two stretches of bits through the instruction register. */
  lemma IrTwo(w: Wiring<NetState>, c: Chain, cfg: Config, t: Tap<NetState>, first: Bits, second: Bits)
    returns (u: Tap<NetState>)
    requires Aside(cfg, t) && first != [] && second != [] && cfg.irWidth >= 1
    ensures Displays(w, c, t, Inputs(ToShiftIr() + ShiftCycles(first) + PauseAndResume() + ShiftCycles(second)), u,
                     LoadReadout(cfg, first + second))
    ensures IrHolding(cfg, Exit1Ir, Kept(IrPattern(cfg), first + second), u)
  {
    hide Displays, Inputs, ShiftCycles, Idle, Through, Kept, IrPattern, IrHolding, Aside;
    var ir := IrPattern(cfg);
    assert ir != [];
    var a := IrEnter(w, c, cfg, t);
    var b := IrShift(w, c, cfg, ir, t, ToShiftIr(), a, [], first);
    var d := IrPause(w, c, cfg, Kept(ir, first), t, ToShiftIr() + ShiftCycles(first), b, [] + Through(ir, first));
    u := IrShift(w, c, cfg, Kept(ir, first), t, ToShiftIr() + ShiftCycles(first) + PauseAndResume(), d,
                 [] + Through(ir, first), second);
    Twice(ir, first, second);
    assert [] + Through(ir, first) == Through(ir, first);
  }

  // ---------------------------------------------------------------- the paths

  /** A quiet opcode loaded, then two runs of raw cycles under it. */
  lemma DrPathsRead(w: Wiring<NetState>, c: Chain, cfg: Config, fed: Bits)
    requires Usable(cfg) && |fed| >= 2
    ensures cfg.irWidth >= 1
    ensures Reads(w, c, cfg, RawTest(DrPaths(cfg, fed)),
                  LoadReadout(cfg, if cfg.hasIdcode then Code(cfg, 1) else Set(cfg.irWidth))
                  + Through(TapShows.Loaded(cfg, Preset(cfg)), fed) + Through(TapShows.Loaded(cfg, Preset(cfg)), fed))
  {
    TwoBits(cfg);
    OpcodesSelect(cfg);
    var split, i, opcode := AtLeastOne(|fed| / 4), Preset(cfg), ResetOpcode(cfg);
    assert Decode(cfg, opcode) == i && 0 <= opcode < Pow2(cfg.irWidth);
    assert fed[..split] + fed[split..] == fed && fed[..split] != [] && fed[split..] != [];
    var load, shown := LoadReadout(cfg, Code(cfg, opcode)), Through(TapShows.Loaded(cfg, i), fed);
    hide Displays, Inputs, IrLoad, Idle, DrCycles, AroundDr, LoadReadout, Through, Code, Set, TapShows.Loaded, Decode,
         Aside, Usable, ReadsFrom;
    forall t: Tap<NetState> | Aside(cfg, t) ensures ReadsFrom(w, c, cfg, t, RawTest(DrPaths(cfg, fed)), load + shown + shown) {
      var a := OpcodeDisplays(w, c, cfg, t, opcode);
      assert a.state == RunTestIdle by { AsideIdle(cfg, a); }
      TapShows.Waits(w, c, a) by { AsideQuiet(cfg, a); }
      TwoDisplay(w, c, t, IrLoad(opcode, cfg.irWidth), a, load, Idle([false, false]), a, []);
      Unshown(load);
      var b := AroundReads(w, c, cfg, i, a, fed[..split], fed[split..]);
      var u := ScanDisplays(w, c, cfg, b, fed);
      ThreeDisplay(w, c, t, IrLoad(opcode, cfg.irWidth) + Idle([false, false]), a, load,
                   AroundDr(fed[..split], fed[split..]), b, shown, DrCycles(fed), u, shown);
      RawReads(w, c, cfg, t, DrPaths(cfg, fed), u, load + shown + shown);
    }
  }

  lemma AsideQuiet(cfg: Config, t: Tap<NetState>)
    requires Aside(cfg, t)
    ensures t.cfg == cfg && Quiet(t.cfg, t.instruction) && t.state == RunTestIdle
  {
  }

  /** What ends in ones loads BYPASS. */
  lemma EndsInSet(cfg: Config, front: Bits)
    requires Usable(cfg) && cfg.irWidth >= 1
    ensures Decode(cfg, ToInt(Kept(IrPattern(cfg), front + Set(cfg.irWidth)))) == BYPASS && Quiet(cfg, BYPASS)
  {
    OpcodesSelect(cfg);
    hide Usable, Set, Code, Kept, IrPattern, ToInt, Pow2, Decode;
    EndsInCode(cfg, front, BypassOpcode(cfg.irWidth));
  }

  lemma SetParts(n: nat, margin: nat, split: nat)
    requires split <= n + margin
    ensures Set(n + margin)[..split] + Set(n + margin)[split..] == Set(margin) + Set(n) == Set(n + margin)
    ensures Ones(n + margin) == Set(n + margin)
  {
  }

  /** Two stretches of bits through the instruction register that end in BYPASS's opcode, and on to BYPASS. */
  lemma IrOnRead(w: Wiring<NetState>, c: Chain, cfg: Config, first: Bits, second: Bits, fed: Bits)
    requires cfg.irWidth >= 1 && first != [] && second != [] && fed != []
    requires Decode(cfg, ToInt(Kept(IrPattern(cfg), first + second))) == BYPASS && Quiet(cfg, BYPASS)
    ensures Reads(w, c, cfg, RawTest(ToShiftIr() + ShiftCycles(first) + PauseAndResume() + ShiftCycles(second)
                                     + PauseToUpdate() + ToShiftDr() + ShiftCycles(fed) + Exit1ToIdle()),
                  LoadReadout(cfg, first + second) + Through([false], fed))
  {
    BypassLoads(cfg);
    var load, shown := LoadReadout(cfg, first + second), Through([false], fed);
    var front := ToShiftIr() + ShiftCycles(first) + PauseAndResume() + ShiftCycles(second);
    var cycles := front + PauseToUpdate() + ToShiftDr() + ShiftCycles(fed) + Exit1ToIdle();
    var ir := Kept(IrPattern(cfg), first + second);
    hide Displays, Inputs, ShiftCycles, Idle, Through, Kept, IrPattern, TapShows.Loaded, Holding, IrHolding, Aside,
         ReadsFrom, LoadReadout, Decode, ToInt, Quiet;
    forall t: Tap<NetState> | Aside(cfg, t) ensures ReadsFrom(w, c, cfg, t, RawTest(cycles), load + shown) {
      var a := IrTwo(w, c, cfg, t, first, second);
      var b := IrOn(w, c, cfg, ir, t, front, a, load);
      var d := DrShift(w, c, cfg, BYPASS, [false], t, front + PauseToUpdate() + ToShiftDr(), b, load, fed);
      var u := DrLeave(w, c, cfg, BYPASS, Kept([false], fed), t,
                       front + PauseToUpdate() + ToShiftDr() + ShiftCycles(fed), d, load + shown);
      RawReads(w, c, cfg, t, cycles, u, load + shown);
    }
  }

  lemma IrPathsRead(w: Wiring<NetState>, c: Chain, cfg: Config, margin: nat)
    requires Usable(cfg) && margin >= 1 && cfg.irWidth >= 1
    ensures Reads(w, c, cfg, RawTest(IrPaths(cfg, margin)), LoadReadout(cfg, Set(cfg.irWidth + margin)) + BypassReadout(margin))
  {
    TwoBits(cfg);
    var first, second := IrPathsAre(cfg, margin);
    EndsInSet(cfg, Set(margin));
    hide *;
    IrOnRead(w, c, cfg, first, second, Period(1 + margin));
    assert BypassReadout(margin) == Through([false], Period(1 + margin)) by { BypassReadoutIs(margin); }
  }

  lemma BypassReadoutIs(margin: nat)
    ensures BypassReadout(margin) == Through([false], Period(1 + margin)) && Period(1 + margin) != []
  {
  }

  lemma IrPathsAre(cfg: Config, margin: nat) returns (first: Bits, second: Bits)
    requires cfg.irWidth >= 2 && margin >= 1
    ensures first != [] && second != [] && Period(1 + margin) != []
    ensures first + second == Set(margin) + Set(cfg.irWidth) == Set(cfg.irWidth + margin)
    ensures IrPaths(cfg, margin)
            == ToShiftIr() + ShiftCycles(first) + PauseAndResume() + ShiftCycles(second)
               + PauseToUpdate() + ToShiftDr() + ShiftCycles(Period(1 + margin)) + Exit1ToIdle()
  {
    var ones, split := Ones(cfg.irWidth + margin), AtLeastOne(cfg.irWidth / 2);
    first, second := ones[..split], ones[split..];
    assert first != [] && second != [] && |Period(1 + margin)| == 1 + margin;
    hide Set, Ones, Period, Sentinel, ShiftCycles, Idle, AtLeastOne;
    SentinelIs(1 + margin);
    SetParts(cfg.irWidth, margin, split);
  }

  /** The capture pattern loaded as it is. */
  lemma PatternRead(w: Wiring<NetState>, c: Chain, cfg: Config, fed: Bits)
    requires Usable(cfg) && cfg.irWidth >= 1 && fed != []
    ensures Reads(w, c, cfg, RawTest(CaptureIrLoad() + DrCycles(fed)), Through(TapShows.Loaded(cfg, Preset(cfg)), fed))
  {
    OpcodesSelect(cfg);
    var i, shown := Preset(cfg), Through(TapShows.Loaded(cfg, Preset(cfg)), fed);
    assert Decode(cfg, ToInt(IrPattern(cfg))) == i by {
      IrPatternIs(cfg);
      ToIntFromInt(CAPTURE_IR_PATTERN, cfg.irWidth);
    }
    hide Displays, Inputs, Idle, DrCycles, Through, TapShows.Loaded, Decode, ToInt, Usable, ReadsFrom, IrPattern;
    forall t: Tap<NetState> | Aside(cfg, t)
      ensures ReadsFrom(w, c, cfg, t, RawTest(CaptureIrLoad() + DrCycles(fed)), shown)
    {
      var a := Decoded(t.(ir := IrPattern(cfg))).(state := RunTestIdle);
      LoadsPattern(w, c, t);
      var u := ScanDisplays(w, c, cfg, a, fed);
      TwoDisplay(w, c, t, CaptureIrLoad(), a, [], DrCycles(fed), u, shown);
      assert [] + shown == shown;
      RawReads(w, c, cfg, t, CaptureIrLoad() + DrCycles(fed), u, shown);
    }
  }

  /** BYPASS loaded, and a reset through Select-IR-Scan. */
  lemma SelectResetRead(w: Wiring<NetState>, c: Chain, cfg: Config, fed: Bits)
    requires Usable(cfg) && cfg.irWidth >= 1 && fed != []
    ensures Reads(w, c, cfg, RawTest(IrLoad(BypassOpcode(cfg.irWidth), cfg.irWidth) + SelectIrReset() + DrCycles(fed)),
                  LoadReadout(cfg, Set(cfg.irWidth)) + Through(TapShows.Loaded(cfg, Preset(cfg)), fed))
  {
    OpcodesSelect(cfg);
    var n, i, opcode := cfg.irWidth, Preset(cfg), BypassOpcode(cfg.irWidth);
    var load, shown := LoadReadout(cfg, Set(n)), Through(TapShows.Loaded(cfg, i), fed);
    hide Displays, Inputs, Idle, DrCycles, IrLoad, Through, TapShows.Loaded, Decode, Usable, ReadsFrom, LoadReadout, Set,
         Code, BypassOpcode;
    forall t: Tap<NetState> | Aside(cfg, t)
      ensures ReadsFrom(w, c, cfg, t, RawTest(IrLoad(opcode, n) + SelectIrReset() + DrCycles(fed)), load + shown)
    {
      var a := OpcodeDisplays(w, c, cfg, t, opcode);
      var b := Default(a).(state := RunTestIdle);
      ResetsByTms(w, c, a);
      var u := ScanDisplays(w, c, cfg, b, fed);
      ThreeDisplay(w, c, t, IrLoad(opcode, n), a, load, SelectIrReset(), b, [], DrCycles(fed), u, shown);
      Unshown(load);
      RawReads(w, c, cfg, t, IrLoad(opcode, n) + SelectIrReset() + DrCycles(fed), u, load + shown);
    }
  }

  // ---------------------------------------------------------------- held in Pause, and captured

  /** An opcode loaded, and its register scanned with two pauses. */
  lemma PausedRead(w: Wiring<NetState>, c: Chain, cfg: Config, opcode: int, first: Bits, second: Bits, last: Bits)
    requires cfg.irWidth >= 1 && 0 <= opcode < Pow2(cfg.irWidth) && Quiet(cfg, Decode(cfg, opcode))
    requires first != [] && second != [] && last != []
    ensures Reads(w, c, cfg, RawTest(IrLoad(opcode, cfg.irWidth) + PausedCycles(first, second, last)),
                  LoadReadout(cfg, Code(cfg, opcode))
                  + Through(TapShows.Loaded(cfg, Decode(cfg, opcode)), first + second + last))
  {
    var load, shown := LoadReadout(cfg, Code(cfg, opcode)),
                       Through(TapShows.Loaded(cfg, Decode(cfg, opcode)), first + second + last);
    var cycles := IrLoad(opcode, cfg.irWidth) + PausedCycles(first, second, last);
    hide Displays, Inputs, Idle, PausedCycles, IrLoad, Through, TapShows.Loaded, Decode, ReadsFrom, LoadReadout, Code,
         Aside, Quiet;
    forall t: Tap<NetState> | Aside(cfg, t) ensures ReadsFrom(w, c, cfg, t, RawTest(cycles), load + shown) {
      var a := OpcodeDisplays(w, c, cfg, t, opcode);
      var u := PausedReads(w, c, cfg, Decode(cfg, opcode), a, first, second, last);
      TwoDisplay(w, c, t, IrLoad(opcode, cfg.irWidth), a, load, PausedCycles(first, second, last), u, shown);
      RawReads(w, c, cfg, t, cycles, u, load + shown);
    }
  }

  /** Three stretches of bits through the instruction register, the last of them ending in BYPASS's opcode. */
  lemma IrThreeRead(w: Wiring<NetState>, c: Chain, cfg: Config, first: Bits, second: Bits, last: Bits)
    requires cfg.irWidth >= 1 && first != [] && second != [] && last != []
    requires Quiet(cfg, Decode(cfg, ToInt(Kept(IrPattern(cfg), first + second + last))))
    ensures Reads(w, c, cfg, RawTest(ToShiftIr() + ShiftCycles(first) + PauseAndResume() + ShiftCycles(second)
                                     + PauseAndResume() + ShiftCycles(last) + Exit1ToIdle()),
                  LoadReadout(cfg, first + second + last))
  {
    var ir := IrPattern(cfg);
    var kept := Kept(ir, first + second);
    assert kept != [];
    Twice(ir, first + second, last);
    hide Displays, Inputs, ShiftCycles, Idle, Through, Kept, IrPattern, IrHolding, Aside, ReadsFrom, Decode, ToInt, Quiet;
    var front := ToShiftIr() + ShiftCycles(first) + PauseAndResume() + ShiftCycles(second);
    var cycles := front + PauseAndResume() + ShiftCycles(last) + Exit1ToIdle();
    forall t: Tap<NetState> | Aside(cfg, t)
      ensures ReadsFrom(w, c, cfg, t, RawTest(cycles), LoadReadout(cfg, first + second + last))
    {
      var a := IrTwo(w, c, cfg, t, first, second);
      var b := IrPause(w, c, cfg, kept, t, front, a, LoadReadout(cfg, first + second));
      var d := IrShift(w, c, cfg, kept, t, front + PauseAndResume(), b, LoadReadout(cfg, first + second), last);
      var u := IrLeave(w, c, cfg, Kept(kept, last), t, front + PauseAndResume() + ShiftCycles(last), d,
                       LoadReadout(cfg, first + second + last));
      RawReads(w, c, cfg, t, cycles, u, LoadReadout(cfg, first + second + last));
    }
  }

  lemma IrHoldRead(w: Wiring<NetState>, c: Chain, cfg: Config, margin: nat)
    requires Usable(cfg) && cfg.irWidth >= 1
    ensures Reads(w, c, cfg, RawTest(IrHold(cfg, margin)),
                  LoadReadout(cfg, FromOne(cfg.irWidth) + FromZeroOn(cfg.irWidth) + Set(cfg.irWidth + margin)))
  {
    var n := cfg.irWidth;
    IrHoldIs(cfg, margin);
    EndsInSet(cfg, FromOne(n) + FromZeroOn(n) + Set(margin));
    hide *;
    IrThreeRead(w, c, cfg, FromOne(n), FromZeroOn(n), Set(n + margin));
  }

  lemma IrHoldIs(cfg: Config, margin: nat)
    requires cfg.irWidth >= 1
    ensures var n := cfg.irWidth;
            var last := Set(n + margin);
            && FromOne(n) != [] && FromZeroOn(n) != [] && last != []
            && FromOne(n) + FromZeroOn(n) + last == FromOne(n) + FromZeroOn(n) + Set(margin) + Set(n)
            && IrHold(cfg, margin)
               == ToShiftIr() + ShiftCycles(FromOne(n)) + PauseAndResume() + ShiftCycles(FromZeroOn(n))
                  + PauseAndResume() + ShiftCycles(last) + Exit1ToIdle()
  {
    var n := cfg.irWidth;
    hide FromInt, Alternating, Not, ShiftCycles, Idle;
    AlternatingIs(n);
    SetParts(n, margin, 0);
    assert |FromOne(n)| == |FromZeroOn(n)| == n && |Set(n + margin)| == n + margin;
  }

  /** An opcode loaded, and its register scanned twice. */
  lemma TwiceRead(w: Wiring<NetState>, c: Chain, cfg: Config, opcode: int, first: Bits, second: Bits)
    requires cfg.irWidth >= 1 && 0 <= opcode < Pow2(cfg.irWidth) && Quiet(cfg, Decode(cfg, opcode))
    requires first != [] && second != []
    ensures Reads(w, c, cfg, RawTest(IrLoad(opcode, cfg.irWidth) + DrCycles(first) + DrCycles(second)),
                  LoadReadout(cfg, Code(cfg, opcode))
                  + Through(TapShows.Loaded(cfg, Decode(cfg, opcode)), first)
                  + Through(TapShows.Loaded(cfg, Decode(cfg, opcode)), second))
  {
    var inside := TapShows.Loaded(cfg, Decode(cfg, opcode));
    var load, x, y := LoadReadout(cfg, Code(cfg, opcode)), Through(inside, first), Through(inside, second);
    var cycles := IrLoad(opcode, cfg.irWidth) + DrCycles(first) + DrCycles(second);
    hide Displays, Inputs, Idle, DrCycles, IrLoad, Through, TapShows.Loaded, Decode, ReadsFrom, LoadReadout, Code,
         Aside, Quiet;
    forall t: Tap<NetState> | Aside(cfg, t) ensures ReadsFrom(w, c, cfg, t, RawTest(cycles), load + x + y) {
      var a := OpcodeDisplays(w, c, cfg, t, opcode);
      var b := ScanDisplays(w, c, cfg, a, first);
      var u := ScanDisplays(w, c, cfg, b, second);
      ThreeDisplay(w, c, t, IrLoad(opcode, cfg.irWidth), a, load, DrCycles(first), b, x, DrCycles(second), u, y);
      RawReads(w, c, cfg, t, cycles, u, load + x + y);
    }
  }

  // ---------------------------------------------------------------- all the TAP's tests

  lemma PathsRead(w: Wiring<NetState>, c: Chain, cfg: Config, fed: Bits, margin: nat)
    requires Usable(cfg) && cfg.irWidth >= 1 && |fed| >= 2 && margin >= 1
    ensures AllRead(w, c, cfg, PathTests(cfg, fed, margin), PathReadouts(cfg, fed, margin))
  {
    hide Reads, DrPaths, IrPaths, CaptureIrLoad, DrCycles, IrLoad, SelectIrReset, LoadReadout, BypassReadout, Through,
         TapShows.Loaded, Set, Code, Usable, RawTest, BypassOpcode;
    DrPathsRead(w, c, cfg, fed);
    IrPathsRead(w, c, cfg, margin);
    PatternRead(w, c, cfg, fed);
    SelectResetRead(w, c, cfg, fed);
  }

  lemma IdcodeHeldRead(w: Wiring<NetState>, c: Chain, cfg: Config, fed: Bits)
    requires Usable(cfg) && cfg.irWidth >= 1 && fed != [] && cfg.hasIdcode
    ensures var pattern := Alternating(32);
            Reads(w, c, cfg, RawTest(IrLoad(OPCODE_IDCODE, cfg.irWidth)
                                     + PausedCycles(FromInt(pattern, 32), FromInt(Not(pattern), 32), fed)),
                  LoadReadout(cfg, Code(cfg, 1)) + Through(TapShows.Loaded(cfg, IDCODE), FromOne(32) + FromZeroOn(32) + fed))
  {
    OpcodesSelect(cfg);
    assert |FromOne(32)| == |FromZeroOn(32)| == 32;
    hide *;
    AlternatingIs(32);
    assert Preset(cfg) == IDCODE by { PresetIs(cfg); }
    PausedRead(w, c, cfg, OPCODE_IDCODE, FromOne(32), FromZeroOn(32), fed);
  }

  lemma PresetIs(cfg: Config)
    ensures cfg.hasIdcode ==> Preset(cfg) == IDCODE
  {
  }

  lemma BypassHeldRead(w: Wiring<NetState>, c: Chain, cfg: Config)
    requires Usable(cfg) && cfg.irWidth >= 1
    ensures Reads(w, c, cfg, RawTest(IrLoad(BypassOpcode(cfg.irWidth), cfg.irWidth)
                                     + PausedCycles([true], [false, false], [true, true])),
                  LoadReadout(cfg, Set(cfg.irWidth)) + [false, true, false, false, true])
  {
    OpcodesSelect(cfg);
    BypassLoads(cfg);
    assert Through([false], [true] + [false, false] + [true, true]) == [false, true, false, false, true];
    hide *;
    PausedRead(w, c, cfg, BypassOpcode(cfg.irWidth), [true], [false, false], [true, true]);
  }

  lemma HeldRead(w: Wiring<NetState>, c: Chain, cfg: Config, fed: Bits, margin: nat)
    requires Usable(cfg) && cfg.irWidth >= 1 && fed != []
    ensures AllRead(w, c, cfg, HeldTests(cfg, fed, margin), HeldReadouts(cfg, fed, margin))
  {
    hide Reads, IrLoad, PausedCycles, IrHold, LoadReadout, Through, TapShows.Loaded, Set, Code, Usable, RawTest,
         BypassOpcode, FromOne, FromZeroOn, Alternating, FromInt, Not;
    if cfg.hasIdcode {
      IdcodeHeldRead(w, c, cfg, fed);
    }
    BypassHeldRead(w, c, cfg);
    IrHoldRead(w, c, cfg, margin);
  }

  lemma IdcodeCapturedRead(w: Wiring<NetState>, c: Chain, cfg: Config, fed: Bits)
    requires Usable(cfg) && cfg.irWidth >= 1 && fed != [] && cfg.hasIdcode
    ensures var code := TapShows.Loaded(cfg, IDCODE);
            Reads(w, c, cfg, RawTest(IrLoad(OPCODE_IDCODE, cfg.irWidth) + DrCycles(FromInt(Not(cfg.idcodeValue), 32))
                                     + DrCycles(fed)),
                  LoadReadout(cfg, Code(cfg, 1)) + code + Through(code, fed))
  {
    var held := FromInt(Not(cfg.idcodeValue), 32);
    OpcodesSelect(cfg);
    assert Through(TapShows.Loaded(cfg, IDCODE), held) == TapShows.Loaded(cfg, IDCODE) && held != [];
    hide *;
    assert Preset(cfg) == IDCODE by { PresetIs(cfg); }
    TwiceRead(w, c, cfg, OPCODE_IDCODE, held, fed);
  }

  lemma BypassCapturedRead(w: Wiring<NetState>, c: Chain, cfg: Config, margin: nat)
    requires Usable(cfg) && cfg.irWidth >= 1
    ensures Reads(w, c, cfg, RawTest(IrLoad(BypassOpcode(cfg.irWidth), cfg.irWidth) + DrCycles([true, true])
                                     + DrCycles(Sentinel(1 + margin))),
                  LoadReadout(cfg, Set(cfg.irWidth)) + [false, true] + BypassReadout(margin))
  {
    OpcodesSelect(cfg);
    BypassLoads(cfg);
    SentinelIs(1 + margin);
    BypassReadoutIs(margin);
    assert Through([false], [true, true]) == [false, true];
    hide *;
    TwiceRead(w, c, cfg, BypassOpcode(cfg.irWidth), [true, true], Period(1 + margin));
  }

  lemma CapturedRead(w: Wiring<NetState>, c: Chain, cfg: Config, fed: Bits, margin: nat)
    requires Usable(cfg) && cfg.irWidth >= 1 && fed != []
    ensures AllRead(w, c, cfg, CapturedTests(cfg, fed, margin), CapturedReadouts(cfg, fed, margin))
  {
    hide Reads, IrLoad, DrCycles, LoadReadout, Through, TapShows.Loaded, Set, Code, Usable, RawTest, BypassOpcode,
         FromInt, Not, Sentinel, BypassReadout;
    if cfg.hasIdcode {
      IdcodeCapturedRead(w, c, cfg, fed);
    }
    BypassCapturedRead(w, c, cfg, margin);
  }

  /** All but the tests that start with a reset and the scans of the instruction register and of BYPASS. */
  lemma LaterRead(w: Wiring<NetState>, c: Chain, cfg: Config, margin: nat, options: Options)
    requires Usable(cfg) && cfg.irWidth >= 1 && margin >= 1
    ensures |TapTests(cfg, margin, options)| >= 2 && |TestReadouts(cfg, margin, options)| >= 2
    ensures AllRead(w, c, cfg, TapTests(cfg, margin, options)[2..], TestReadouts(cfg, margin, options)[2..])
  {
    var codes := if options.exhaustiveOpcodes then OpcodeTests(cfg, Pow2(cfg.irWidth), margin) else [];
    var x := if options.exhaustiveOpcodes then OpcodeReadouts(cfg, Pow2(cfg.irWidth), margin) else [];
    var idcode := if cfg.hasIdcode then [Test([], SelectInstruction(OPCODE_IDCODE, cfg.irWidth) + SentinelScan(32, margin))]
                  else [];
    var y := if cfg.hasIdcode
             then [LoadReadout(cfg, Code(cfg, 1)) + Through(TapShows.Loaded(cfg, IDCODE), Period(32 + margin))] else [];
    var paths := if options.tapPaths then TapPathTests(cfg, margin) else [];
    var fed := Period(|TapShows.Loaded(cfg, Preset(cfg))| + margin);
    var z := if options.tapPaths
             then PathReadouts(cfg, fed, margin) + HeldReadouts(cfg, fed, margin) + CapturedReadouts(cfg, fed, margin)
             else [];
    hide OpcodeTests, OpcodeReadouts, SelectInstruction, SentinelScan, LoadReadout, Through, TapPathTests, PathReadouts,
         HeldReadouts, CapturedReadouts, AllRead, Usable, Pow2, Code, TapShows.Loaded, Period, IrScan, BypassReadout, Set;
    Behind(Test([], IrScan(cfg, margin)), Test([], SentinelScan(1, margin)), codes, idcode, paths);
    Behind(LoadReadout(cfg, Period(margin) + Set(cfg.irWidth)), BypassReadout(margin), x, y, z);
    assert TapTests(cfg, margin, options)[2..] == codes + idcode + paths;
    assert TestReadouts(cfg, margin, options)[2..] == x + y + z;
    hide *;
    NoneRead(w, c, cfg);
    OpcodesRead(w, c, cfg, Pow2(cfg.irWidth), margin);
    if cfg.hasIdcode {
      IdcodeRead(w, c, cfg, margin);
    }
    if options.tapPaths {
      TapPathsRead(w, c, cfg, margin);
    }
    AllJoin(w, c, cfg, codes, x, idcode, y);
    AllJoin(w, c, cfg, codes + idcode, x + y, paths, z);
  }

  lemma Behind<T>(a: T, b: T, x: seq<T>, y: seq<T>, z: seq<T>)
    ensures ([a, b] + x + y + z)[2..] == x + y + z
  {
  }

  lemma IdcodeRead(w: Wiring<NetState>, c: Chain, cfg: Config, margin: nat)
    requires Usable(cfg) && cfg.irWidth >= 1 && cfg.hasIdcode
    ensures AllRead(w, c, cfg, [Test([], SelectInstruction(OPCODE_IDCODE, cfg.irWidth) + SentinelScan(32, margin))],
                    [LoadReadout(cfg, Code(cfg, 1)) + Through(TapShows.Loaded(cfg, IDCODE), Period(32 + margin))])
  {
    OpcodesSelect(cfg);
    hide *;
    assert Preset(cfg) == IDCODE by { PresetIs(cfg); }
    SelectReads(w, c, cfg, OPCODE_IDCODE, 32, margin);
    OneRead(w, c, cfg, Test([], SelectInstruction(OPCODE_IDCODE, cfg.irWidth) + SentinelScan(32, margin)),
            LoadReadout(cfg, Code(cfg, 1)) + Through(TapShows.Loaded(cfg, IDCODE), Period(32 + margin)));
  }

  lemma TapPathsRead(w: Wiring<NetState>, c: Chain, cfg: Config, margin: nat)
    requires Usable(cfg) && cfg.irWidth >= 1 && margin >= 1
    ensures var fed := Period(|TapShows.Loaded(cfg, Preset(cfg))| + margin);
            AllRead(w, c, cfg, TapPathTests(cfg, margin),
                    PathReadouts(cfg, fed, margin) + HeldReadouts(cfg, fed, margin) + CapturedReadouts(cfg, fed, margin))
  {
    hide *;
    TapPathsParts(cfg, margin);
    var fed := Period(|TapShows.Loaded(cfg, Preset(cfg))| + margin);
    var a, b, d := PathTests(cfg, fed, margin), HeldTests(cfg, fed, margin), CapturedTests(cfg, fed, margin);
    var x, y, z := PathReadouts(cfg, fed, margin), HeldReadouts(cfg, fed, margin), CapturedReadouts(cfg, fed, margin);
    PathsRead(w, c, cfg, fed, margin);
    HeldRead(w, c, cfg, fed, margin);
    CapturedRead(w, c, cfg, fed, margin);
    AllJoin(w, c, cfg, a, x, b, y);
    AllJoin(w, c, cfg, a + b, x + y, d, z);
  }

  lemma TapPathsParts(cfg: Config, margin: nat)
    requires margin >= 1
    ensures var fed := Period(|TapShows.Loaded(cfg, Preset(cfg))| + margin);
            |fed| >= 2 && TapPathTests(cfg, margin)
                          == PathTests(cfg, fed, margin) + HeldTests(cfg, fed, margin) + CapturedTests(cfg, fed, margin)
  {
    hide PathTests, HeldTests, CapturedTests, Sentinel;
    SentinelIs(ResetBits(cfg) + margin);
    assert |TapShows.Loaded(cfg, Preset(cfg))| == ResetBits(cfg);
  }
}
