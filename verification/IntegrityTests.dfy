/** The tests of the integrity program (tap_integrity.py), in order: the TAP's own registers and state
    machine, the probes of the network, the network holding still, the write and readback of every WRITE
    instrument, and the reset through TMS. */
module IntegrityTests {
  import opened Wrappers
  import opened Bits
  import opened IclModel
  import opened SibLayout
  import opened SibRetarget
  import opened SibStaging
  import opened TapFsm
  import opened TapIr
  import opened TapModel
  import opened TapPlay
  import opened TapSelect
  import opened TapCycles
  import opened PdlSpec
  import opened OverShift
  import opened Integrity
  import opened SelfCheckCycles
  import opened IntegrityProbes
  import opened WriteReadback
  import opened WriteTargets

  /** What is driven before the operations, ending in Run-Test/Idle, and the operations. */
  datatype Test = Test(leadIn: seq<TckInput>, ops: seq<Op>)

  /** A test of the network and what is taken to be open when it is over: by the builder, and in a readback
      test by its interpreter. */
  datatype Planned = Planned(test: Test, believed: OpenMap)

  /** The groups of tests that can be left out. */
  datatype Options = Options(exhaustiveOpcodes: bool, writeReadback: bool, tapPaths: bool, networkHold: bool)

  const LOW := TckInput(false, false, true)
  const HIGH := TckInput(true, false, true)
  const TRST := TckInput(false, false, false)
  const TRST_LEAD_IN := [TRST, TRST, LOW]
  const TMS_RESET_LEAD_IN := [HIGH, HIGH, HIGH, HIGH, HIGH, LOW]

  function Ones(n: nat): Bits { seq(n, _ => true) }

  function BypassOpcode(irWidth: nat): int { Pow2(irWidth) - 1 }

  /** What build_integrity_program may be given: an instruction register of at least two bits, and an
      access opcode that fits and is none of the others'. */
  predicate Usable(cfg: Config) {
    && cfg.irWidth >= 2
    && (cfg.accessOpcode.Some? ==>
          && 0 <= cfg.accessOpcode.value < Pow2(cfg.irWidth)
          && cfg.accessOpcode.value != OPCODE_EXTEST && cfg.accessOpcode.value != OPCODE_SAMPLE_PRELOAD
          && cfg.accessOpcode.value != OPCODE_IDCODE && cfg.accessOpcode.value != BypassOpcode(cfg.irWidth))
  }

  predicate Implemented(cfg: Config, opcode: int) {
    || opcode == BypassOpcode(cfg.irWidth) || (cfg.hasIdcode && opcode == OPCODE_IDCODE)
    || (if cfg.accessOpcode.Some? then opcode == cfg.accessOpcode.value
        else opcode == OPCODE_EXTEST || opcode == OPCODE_SAMPLE_PRELOAD)
  }

  // ---------------------------------------------------------------- the TAP

  function Sentinel(bits: nat): Bits { FromInt(DefaultSentinel(bits), bits) }

  /** A scan of a register of so many bits, and the sentinel past its end. */
  function SentinelScan(bits: nat, margin: nat): seq<Op> {
    DrOps(ShiftDR(bits + margin, DefaultSentinel(bits + margin), None, None))
  }

  function ResetBits(cfg: Config): nat { if cfg.hasIdcode then 32 else 1 }

  function ResetOpcode(cfg: Config): int { if cfg.hasIdcode then OPCODE_IDCODE else BypassOpcode(cfg.irWidth) }

  function RawTest(cycles: Cycles): Test { Test(Inputs(cycles), []) }

  /** The sentinel first, then BYPASS's opcode: what Update-IR loads is the last bits fed. */
  function IrScan(cfg: Config, margin: nat): seq<Op> {
    [GotoState(ShiftIrState),
     ShiftIR(cfg.irWidth + margin, ToInt(Sentinel(margin) + Ones(cfg.irWidth)), None, None),
     GotoState(RunTestIdle)]
  }

  function OpcodeTest(cfg: Config, opcode: int, margin: nat): Test {
    Test([], SelectInstruction(opcode, cfg.irWidth) + SentinelScan(1, margin))
  }

  /** Every unimplemented opcode below `count`. */
  function OpcodeTests(cfg: Config, count: nat, margin: nat): seq<Test> {
    if count == 0 then []
    else OpcodeTests(cfg, count - 1, margin)
         + if Implemented(cfg, count - 1) then [] else [OpcodeTest(cfg, count - 1, margin)]
  }

  function AtLeastOne(n: nat): nat { if n == 0 then 1 else n }

  /** Run-Test/Idle held, then the DR side of the controller, then the register read whole again. */
  function DrPaths(cfg: Config, fed: Bits): Cycles
    requires |fed| >= 2
  {
    var split := AtLeastOne(|fed| / 4);
    IrLoad(ResetOpcode(cfg), cfg.irWidth) + Idle([false, false]) + AroundDr(fed[..split], fed[split..]) + DrCycles(fed)
  }

  /** Paused in the middle, out through Pause, and once more through Capture without a shift. */
  function AroundDr(first: Bits, second: Bits): Cycles {
    ToShiftDr() + ShiftCycles(first) + PauseAndResume() + ShiftCycles(second) + PauseToUpdate() + CaptureAndExit()
  }

  /** BYPASS, fed through the length of the instruction register, then straight on to a DR scan. */
  function IrPaths(cfg: Config, margin: nat): Cycles
    requires margin >= 1
  {
    var ones, split := Ones(cfg.irWidth + margin), AtLeastOne(cfg.irWidth / 2);
    ToShiftIr() + ShiftCycles(ones[..split]) + PauseAndResume() + ShiftCycles(ones[split..])
    + PauseToUpdate() + ToShiftDr() + ShiftCycles(Sentinel(1 + margin)) + Exit1ToIdle()
  }

  function IrHold(cfg: Config, margin: nat): Cycles {
    var n, pattern := cfg.irWidth, Alternating(cfg.irWidth);
    ToShiftIr() + ShiftCycles(FromInt(pattern, n)) + PauseAndResume() + ShiftCycles(FromInt(Not(pattern), n))
    + PauseAndResume() + ShiftCycles(Ones(n + margin)) + Exit1ToIdle()
  }

  /** The paths of the state machine tap_ir_play does not take. */
  function PathTests(cfg: Config, fed: Bits, margin: nat): seq<Test>
    requires |fed| >= 2 && margin >= 1
  {
    [RawTest(DrPaths(cfg, fed)),
     RawTest(IrPaths(cfg, margin)),
     RawTest(CaptureIrLoad() + DrCycles(fed)),
     RawTest(IrLoad(BypassOpcode(cfg.irWidth), cfg.irWidth) + SelectIrReset() + DrCycles(fed))]
  }

  /** Each register held in Pause at 0 and at 1 in every bit. */
  function HeldTests(cfg: Config, fed: Bits, margin: nat): seq<Test> {
    var n, pattern := cfg.irWidth, Alternating(32);
    (if cfg.hasIdcode then
       [RawTest(IrLoad(OPCODE_IDCODE, n) + PausedCycles(FromInt(pattern, 32), FromInt(Not(pattern), 32), fed))]
     else [])
    + [RawTest(IrLoad(BypassOpcode(n), n) + PausedCycles([true], [false, false], [true, true])),
       RawTest(IrHold(cfg, margin))]
  }

  /** Each register captured while it holds the complement of what it captures. */
  function CapturedTests(cfg: Config, fed: Bits, margin: nat): seq<Test> {
    var n := cfg.irWidth;
    (if cfg.hasIdcode then
       [RawTest(IrLoad(OPCODE_IDCODE, n) + DrCycles(FromInt(Not(cfg.idcodeValue), 32)) + DrCycles(fed))]
     else [])
    + [RawTest(IrLoad(BypassOpcode(n), n) + DrCycles([true, true]) + DrCycles(Sentinel(1 + margin)))]
  }

  /** _tap_path_tests. */
  function TapPathTests(cfg: Config, margin: nat): seq<Test>
    requires margin >= 1
  {
    var fed := Sentinel(ResetBits(cfg) + margin);
    PathTests(cfg, fed, margin) + HeldTests(cfg, fed, margin) + CapturedTests(cfg, fed, margin)
  }

  /** The first test, after TRST. */
  function TrstTest(cfg: Config, margin: nat): Test {
    Test(TRST_LEAD_IN, SentinelScan(ResetBits(cfg), margin))
  }

  /** The other tests before the network's. */
  function TapTests(cfg: Config, margin: nat, options: Options): seq<Test>
    requires margin >= 1
  {
    [Test([], IrScan(cfg, margin)), Test([], SentinelScan(1, margin))]
    + (if options.exhaustiveOpcodes then OpcodeTests(cfg, Pow2(cfg.irWidth), margin) else [])
    + (if cfg.hasIdcode then [Test([], SelectInstruction(OPCODE_IDCODE, cfg.irWidth) + SentinelScan(32, margin))] else [])
    + (if options.tapPaths then TapPathTests(cfg, margin) else [])
  }

  function ResetTest(cfg: Config, margin: nat): Test {
    Test(TMS_RESET_LEAD_IN, SentinelScan(ResetBits(cfg), margin))
  }

  // ---------------------------------------------------------------- the network

  /** The closed network's probe, then every target's; each closes what the last one opened. */
  ghost function ProbeTests(cfg: Config, c: Chain, targets: seq<Path>, margin: nat): Option<seq<Planned>>
    ensures ProbeTests(cfg, c, targets, margin).Some? ==> ProbeTests(cfg, c, targets, margin).value != []
    decreases |targets|
  {
    if targets == [] then
      match OvershiftOps(c, [], map[], margin, None)
      case None => None
      case Some(ops) => Some([Planned(Test([], SelectInstruction(NetworkOpcode(cfg), cfg.irWidth) + ops), map[])])
    else
      var target := targets[|targets| - 1];
      match (ProbeTests(cfg, c, targets[..|targets| - 1], margin), OvershiftOps(c, target, map[], margin, None))
      case (Some(front), Some(ops)) =>
        Some(front + [Planned(Test([], CloseAll(c, Last(front).believed) + ops), OpenedBy(c, target))])
      case _ => None
  }

  function Last(tests: seq<Planned>): Planned
    requires tests != []
  {
    tests[|tests| - 1]
  }

  /** The slots the chain itself has. */
  function Slots(c: Chain): nat {
    if c.End? then 0 else 1 + Slots(c.rest)
  }

  function BoardScan(cfg: Config, c: Chain, opcode: int, margin: nat): Cycles {
    IrLoad(opcode, cfg.irWidth) + DrCycles(Sentinel(Slots(c) + margin))
  }

  /** One scan paused twice, through the network as it is open, that ends by closing it. */
  function PausedHold(c: Chain, open: OpenMap): Cycles {
    var n := Length(c, open);
    PausedCycles(FromInt(Alternating(n), n), FromInt(Not(Alternating(n)), n), Reverse(Compose(c, open, map[], None, 0)))
  }

  function HoldScan(cfg: Config, c: Chain, open: OpenMap): Cycles {
    IrLoad(NetworkOpcode(cfg), cfg.irWidth) + PausedHold(c, open)
  }

  function BoardTests(cfg: Config, c: Chain, open: OpenMap, margin: nat): seq<Planned> {
    (if cfg.accessOpcode.Some? then [Planned(RawTest(BoardScan(cfg, c, OPCODE_EXTEST, margin)), open)] else [])
    + [Planned(RawTest(BoardScan(cfg, c, OPCODE_SAMPLE_PRELOAD, margin)), open)]
  }

  /** _network_hold_tests. */
  function HoldTests(cfg: Config, c: Chain, open: OpenMap, margin: nat): seq<Planned> {
    BoardTests(cfg, c, open, margin) + [Planned(RawTest(HoldScan(cfg, c, open)), map[])]
  }

  function From<T>(s: seq<T>, start: nat): seq<T> { if start <= |s| then s[start..] else [] }

  /** What one interpreter appends for each instrument; the first test closes what the tests before it
      left open. */
  ghost function ReadbackTests(c: Chain, root: ModuleInstance, writes: seq<Writable>, believed: OpenMap)
    : (r: Option<seq<Planned>>)
    ensures r.Some? ==> |r.value| == |writes|
    decreases |writes|
  {
    if writes == [] then Some([])
    else
      var front := writes[..|writes| - 1];
      match (ReadbackTests(c, root, front, believed), Run(c, root, Calls(Items(front))), Run(c, root, Calls(Items(writes))))
      case (Some(tests), Some(p), Some(q)) =>
        Some(tests + [Planned(Test([], (if front == [] then CloseAll(c, believed) else [])
                                      + From(q.program, |p.program|)), q.open)])
      case _ => None
  }

  // ---------------------------------------------------------------- the whole list

  function Closed(tests: seq<Test>): seq<Planned> {
    seq(|tests|, i requires 0 <= i < |tests| => Planned(tests[i], map[]))
  }

  /** The probes, and what follows them. */
  ghost function NetworkTests(cfg: Config, c: Chain, margin: nat, options: Options): (r: Option<seq<Planned>>)
    ensures r.Some? ==> r.value != []
  {
    match ProbeTests(cfg, c, Targets(c), margin)
    case None => None
    case Some(probes) =>
      Some(probes + if options.networkHold then HoldTests(cfg, c, Last(probes).believed, margin) else [])
  }

  /** The tests before the first readback. */
  ghost function FirstTests(cfg: Config, c: Chain, margin: nat, options: Options): (r: Option<seq<Planned>>)
    requires margin >= 1
    ensures r.Some? ==> r.value != []
  {
    var front := Closed([TrstTest(cfg, margin)] + TapTests(cfg, margin, options));
    if c.End? then Some(front)
    else match NetworkTests(cfg, c, margin, options)
      case None => None
      case Some(network) => Some(front + network)
  }

  /** The readback tests, if there are any. */
  ghost function LastTests(c: Chain, root: ModuleInstance, options: Options, believed: OpenMap): Option<seq<Planned>> {
    if c.End? || !options.writeReadback then Some([])
    else match Writes(c, root)
      case None => None
      case Some(writes) => ReadbackTests(c, root, writes, believed)
  }

  /** _integrity_tests: None where the source raises. */
  ghost function AllTests(cfg: Config, c: Chain, root: ModuleInstance, margin: int, options: Options)
    : Option<seq<Planned>>
  {
    if margin < 1 then None
    else match FirstTests(cfg, c, margin, options)
      case None => None
      case Some(first) =>
        match LastTests(c, root, options, Last(first).believed)
        case None => None
        case Some(last) =>
          Some(first + last + [Planned(ResetTest(cfg, margin), Last(first + last).believed)])
  }
}
