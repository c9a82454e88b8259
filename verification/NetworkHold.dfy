/** The network holding still (tap_integrity.py): the board instructions leave every select and every latch as
    they were, and the paused scan closes the network. */
module NetworkHold {
  import opened Wrappers
  import opened Bits
  import opened IclModel
  import opened SibLayout
  import opened SibCells
  import opened SibShift
  import opened SibRound
  import opened SibRetarget
  import opened SibStaging
  import opened SibReach
  import opened PathPlan
  import opened TapFsm
  import opened TapIr
  import opened TapModel
  import opened TapPlay
  import opened TapSelect
  import opened TapCycles
  import opened Retargeting
  import opened OverShift
  import opened Integrity
  import opened SelfCheckCycles
  import opened IntegrityProbes
  import opened WriteReadback
  import opened TestRuns
  import opened NetworkScans
  import opened IntegrityTests
  import opened QuietTests

  /** The TAP waits in Run-Test/Idle, exactly `open` is open behind it and every WRITE instrument holds 0. */
  ghost predicate Resting(cfg: Config, t: Tap<NetState>, c: Chain, open: OpenMap) {
    t.cfg == cfg && t.state == RunTestIdle && InStep(c, open, map[], t.network.cells)
  }

  // ---------------------------------------------------------------- the board's instructions

  lemma {:induction false} TailShifts(world: World, n: NetState, fed: Bits)
    ensures ShiftRun(TailRegister(world), n, fed).0 == n
    decreases |fed|
  {
    hide TailOf;
    if fed != [] {
      TailShifts(world, n, fed[1..]);
    }
  }

  /** A scan of the network's tail: the instruments' shift stages capture, and nothing else happens. */
  lemma TailRuns(w: Wiring<NetState>, world: World, c: Chain, t: Tap<NetState>, fed: Bits)
    requires t.state == RunTestIdle && PluggedIn(w, t, TailRegister(world)) && !Selected(t) && fed != []
    ensures Runs(w, c, t, 0, Inputs(DrCycles(fed)),
                 t.(network := NetState(CaptureUnselected(t.network.cells, world(t.network.captures)),
                                        t.network.captures + 1)), 0)
  {
    hide Runs, Goes, ToCycles, DrCycles, Ticks, Play, FromInt, ToInt, CaptureUnselected, TailOf;
    var shift := ShiftDR(|fed|, ToInt(fed), None, None);
    FromIntToInt(fed);
    PlayDr(w, t, TailRegister(world), shift);
    TailShifts(world, TailRegister(world).capture(t.network), fed);
    DrOpsCycles(shift);
    PlayWalks(w, t, DrOps(shift));
    DrScanGoes(t.cfg, t.ir, fed);
    AwayRuns(w, c, t, DrCycles(fed), RunTestIdle, t.ir, 0);
  }

  lemma TailKeeps(c: Chain, open: OpenMap, com: Committed, h: Cells, sense: Sense)
    requires InStep(c, open, com, h)
    ensures InStep(c, open, com, CaptureUnselected(h, sense))
  {
    hide Agrees, Latched, Sized, CaptureUnselected, Standing;
    UnselectedKeeps(h, sense);
    StandingTells(h, open, com);
    StandingTells(CaptureUnselected(h, sense), open, com);
  }

  /** The instruction is one of the board's tests': SAMPLE/PRELOAD, or EXTEST where the network has an
      instruction of its own. */
  predicate OnBoard(cfg: Config, opcode: int) {
    opcode == OPCODE_SAMPLE_PRELOAD || (opcode == OPCODE_EXTEST && cfg.accessOpcode.Some?)
  }

  lemma BoardDecodes(cfg: Config, opcode: int)
    requires Usable(cfg) && OnBoard(cfg, opcode)
    ensures 0 <= opcode < Pow2(cfg.irWidth) && Decode(cfg, opcode) != NetworkInstruction(cfg)
    ensures if cfg.accessOpcode.Some? then Quiet(cfg, Decode(cfg, opcode)) else Decode(cfg, opcode).SAMPLE_PRELOAD?
  {
    QuietOpcode(cfg, BypassOpcode(cfg.irWidth));
  }

  /** Why an instruction register needs two bits: SAMPLE/PRELOAD's opcode cut to one bit is EXTEST's, which
      selects the network. */
  lemma OneBitSelectsNetwork(cfg: Config)
    requires cfg.irWidth == 1 && cfg.accessOpcode.None?
    ensures Decode(cfg, ToInt(FromInt(OPCODE_SAMPLE_PRELOAD, cfg.irWidth))) == NetworkInstruction(cfg)
  {
    assert FromInt(2, 1) == [false] + FromInt(1, 0);
    assert [false][1..] == [] && ToInt([false]) == 0 + 2 * ToInt([]);
  }

  lemma BoardRuns(cfg: Config, c: Chain, world: World, t: Tap<NetState>, open: OpenMap, opcode: int, margin: nat)
    returns (u: Tap<NetState>)
    requires Usable(cfg) && OnBoard(cfg, opcode) && margin >= 1 && !c.End? && Resting(cfg, t, c, open)
    ensures Runs(Rig(cfg, c, world), c, t, 0, Inputs(BoardScan(cfg, c, opcode, margin)), u, 0) && Resting(cfg, u, c, open)
  {
    var w, fed, load := Rig(cfg, c, world), Sentinel(Slots(c) + margin), IrLoad(opcode, cfg.irWidth);
    var t1 := t.(ir := FromInt(opcode, cfg.irWidth), instruction := Decode(cfg, opcode));
    BoardDecodes(cfg, opcode);
    hide Runs, Goes, InStep, Decode, FromInt, IrLoad, DrCycles, Ticks, CaptureUnselected, Quiet, TailRegister, Sentinel;
    IrLoadRuns(w, c, t, opcode);
    assert fed != [] by { assert |fed| >= 1; }
    if cfg.accessOpcode.Some? {
      DrScanGoes(cfg, t1.ir, fed);
      QuietRuns(w, c, t1, DrCycles(fed), RunTestIdle, t1.ir);
      u := Ticks(w, t1, DrCycles(fed)).value.0;
    } else {
      TailRuns(w, world, c, t1, fed);
      TailKeeps(c, open, map[], t.network.cells, world(t.network.captures));
      u := t1.(network := NetState(CaptureUnselected(t.network.cells, world(t.network.captures)), t.network.captures + 1));
    }
    InputsJoin(load, DrCycles(fed));
    RunsJoin(w, c, t, 0, Inputs(load), t1, 0, Inputs(DrCycles(fed)), u, 0);
  }

  // ---------------------------------------------------------------- the paused scan

  /** Whatever is fed ahead of them, the closing bits close the network. */
  lemma ScanCloses(c: Chain, open: OpenMap, h: Cells, sense: Sense, front: Bits)
    requires Network(c) && InStep(c, open, map[], h) && Rooted(c, open, open) && Proper(c, open)
    ensures InStep(c, map[], map[], DrScan(h, sense, front + Reverse(Compose(c, open, map[], None, 0))).0)
  {
    hide Network, Agrees, Latched, Sized, Steppable, Commits, Capture, Update, Zeroed, Rooted, Proper, DrScan, Compose,
         Raw, Tapped, Emerged, Downstream, AllZero;
    NetworkParts(c);
    EmptyIsRooted(c);
    assert Rooted(c, open, map[]) by { NothingRooted(c, open); }
    var held := Zeroed(c, open, map[], map[]);
    var r := Round(open, map[], None, 0, map[], held);
    ZeroedRound(c, open, map[], map[]);
    ScanProbe(h, r, sense, front);
    assert AllZero(map[]) by { NoneIsZero(); }
    ZeroedIsZero(c, open, map[], map[]);
    ZeroLatches(DrScan(h, sense, front + Reverse(Scan(c, r))).0, held);
  }

  lemma PausedCloses(w: Wiring<NetState>, world: World, c: Chain, t: Tap<NetState>, open: OpenMap) returns (u: Tap<NetState>)
    requires Network(c) && Waits(w, world, t) && InStep(c, open, map[], t.network.cells)
    requires Rooted(c, open, open) && Proper(c, open)
    ensures u == t.(network := u.network) && Runs(w, c, t, 0, Inputs(PausedHold(c, open)), u, 0)
    ensures InStep(c, map[], map[], u.network.cells)
  {
    var n := Length(c, open);
    var first, second := FromInt(Alternating(n), n), FromInt(Not(Alternating(n)), n);
    var last := Reverse(Compose(c, open, map[], None, 0));
    hide Network, Runs, InStep, Length, Compose, FromInt, Alternating, Not, PausedCycles, Rooted, Proper, DrScan, Waits;
    PositiveLength(c, open);
    ComposeLength(c, open, map[], None, 0);
    PausedRuns(w, world, c, t, open, map[], first, second, last);
    ScanCloses(c, open, t.network.cells, world(t.network.captures), first + second);
    u := t.(network := NetState(DrScan(t.network.cells, world(t.network.captures), first + second + last).0,
                                t.network.captures + 1));
  }

  lemma HoldRuns(w: Wiring<NetState>, world: World, cfg: Config, c: Chain, t: Tap<NetState>, open: OpenMap)
    returns (u: Tap<NetState>)
    requires Network(c) && Wired(w, world, cfg) && Resting(cfg, t, c, open) && Rooted(c, open, open) && Proper(c, open)
    ensures Runs(w, c, t, 0, Inputs(HoldScan(cfg, c, open)), u, 0)
    ensures Resting(cfg, u, c, map[]) && Waits(w, world, u)
  {
    var opcode := NetworkOpcode(cfg);
    var load, paused := IrLoad(opcode, cfg.irWidth), PausedHold(c, open);
    var t1 := t.(ir := FromInt(opcode, cfg.irWidth), instruction := Decode(cfg, opcode));
    assert Waits(w, world, t1);
    hide Network, Runs, InStep, FromInt, Decode, IrLoad, PausedHold, Rooted, Proper, Wired, Waits;
    assert cfg.irWidth >= 1 && 0 <= opcode < Pow2(cfg.irWidth) by { WiredFits(w, world, cfg); }
    IrLoadRuns(w, c, t, opcode);
    u := PausedCloses(w, world, c, t1, open);
    assert Waits(w, world, u) by { StillWaits(w, world, t1, u); }
    InputsJoin(load, paused);
    RunsJoin(w, c, t, 0, Inputs(load), t1, 0, Inputs(paused), u, 0);
  }

  lemma WiredFits(w: Wiring<NetState>, world: World, cfg: Config)
    requires Wired(w, world, cfg)
    ensures cfg.irWidth >= 1 && 0 <= NetworkOpcode(cfg) < Pow2(cfg.irWidth)
  {
  }

  lemma StillWaits(w: Wiring<NetState>, world: World, t: Tap<NetState>, u: Tap<NetState>)
    requires Waits(w, world, t) && u == t.(network := u.network)
    ensures Waits(w, world, u)
  {
  }
}
