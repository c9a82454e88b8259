/** What the network shows at TDO in the integrity program (tap_integrity.py): under its own instruction the captured
    chain and then the bits fed, under SAMPLE/PRELOAD the last live cell alone; and the test of the closed network,
    which the program compares bit by bit. */
module NetworkShows {
  import opened Wrappers
  import opened Bits
  import opened IclModel
  import opened SibLayout
  import opened SibCells
  import opened SibShift
  import opened SibRound
  import opened SibRetarget
  import opened SibStaging
  import opened PathPlan
  import opened TapFsm
  import opened TapIr
  import opened TapModel
  import opened TapPlay
  import opened TapSelect
  import opened TapCycles
  import opened PdlSpec
  import opened Retargeting
  import opened ReadBack
  import opened ReadChecks
  import opened OverShift
  import opened Integrity
  import opened SelfCheckCycles
  import opened TestRuns
  import opened NetworkScans
  import opened NetworkHold
  import opened IntegrityTests
  import opened IntegrityProbes
  import opened QuietTests
  import opened TestBoundaries
  import opened TapShows
  import opened TapReadouts

  // ---------------------------------------------------------------- a scan of any register

  /** The controller passes no shift state. */
  predicate Mute(s: TapState, cycles: Cycles)
    decreases |cycles|
  {
    cycles == [] || (!Shifting(s) && Mute(NextState(s, cycles[0].0), cycles[1..]))
  }

  lemma {:induction false} MuteDisplays(w: Wiring<NetState>, c: Chain, t: Tap<NetState>, cycles: Cycles)
    requires Ticks(w, t, cycles).Some? && Mute(t.state, cycles)
    ensures Displays(w, c, t, Inputs(cycles), Ticks(w, t, cycles).value.0, [])
    decreases |cycles|
  {
    hide Tick, NextState, Displays;
    if cycles == [] {
      assert Inputs(cycles) == [];
      Quietly(w, c, t);
    } else {
      var i := TckInput(cycles[0].0, cycles[0].1, true);
      var (u, tdo) := Tick(w, t, cycles[0].0, cycles[0].1).value;
      assert Inputs(cycles) == [i] + Inputs(cycles[1..]);
      assert u.state == NextState(t.state, cycles[0].0) by { TickState(w, t, cycles[0].0, cycles[0].1); }
      MuteDisplays(w, c, u, cycles[1..]);
      var none: Bits := [];
      assert none + none == none;
      DisplaysOn(w, c, t, i, u, tdo, Inputs(cycles[1..]), Ticks(w, u, cycles[1..]).value.0, none);
    }
  }

  lemma TickState(w: Wiring<NetState>, t: Tap<NetState>, tms: bool, tdi: bool)
    requires Tick(w, t, tms, tdi).Some?
    ensures Tick(w, t, tms, tdi).value.0.state == NextState(t.state, tms)
  {
    hide NextState;
  }

  /** Every cycle of a run of Shift-DR cycles shows its bit. */
  lemma {:induction false} AllShown(w: Wiring<NetState>, c: Chain, t: Tap<NetState>, fed: Bits)
    requires t.state == ShiftDrState && Ticks(w, t, ShiftCycles(fed)).Some?
    ensures Displays(w, c, t, Inputs(ShiftCycles(fed)), Ticks(w, t, ShiftCycles(fed)).value.0,
                     Ticks(w, t, ShiftCycles(fed)).value.1)
    decreases |fed|
  {
    hide Tick, Displays;
    if fed == [] {
      assert Inputs(ShiftCycles(fed)) == [];
      Quietly(w, c, t);
    } else {
      var cycles := ShiftCycles(fed);
      assert cycles[0] == (|fed| == 1, fed[0]) && cycles[1..] == ShiftCycles(fed[1..]);
      var (u, tdo) := Tick(w, t, cycles[0].0, cycles[0].1).value;
      TickState(w, t, cycles[0].0, cycles[0].1);
      FirstShift(fed);
      if |fed| == 1 {
        assert fed[1..] == [] && Inputs(ShiftCycles([])) == [] && ShiftCycles([]) == [];
        Quietly(w, c, u);
      } else {
        AllShown(w, c, u, fed[1..]);
      }
      DisplaysOn(w, c, t, TckInput(|fed| == 1, fed[0], true), u, tdo, Inputs(ShiftCycles(fed[1..])),
                 Ticks(w, u, cycles[1..]).value.0, Ticks(w, u, cycles[1..]).value.1);
    }
  }

  lemma MutePieces()
    ensures Mute(RunTestIdle, ToShiftDr()) && Mute(Exit1Dr, Exit1ToIdle())
  {
    var a, b := ToShiftDr(), Exit1ToIdle();
    assert a[1..][1..][1..] == [] && b[1..][1..] == [];
  }

  /** A DR scan of whatever register is plugged in: its capture, its shifts and its update, and what it shifts out. */
  lemma DrDisplays(w: Wiring<NetState>, c: Chain, t: Tap<NetState>, dr: DataRegister<NetState>, fed: Bits)
    requires PluggedIn(w, t, dr) && t.state == RunTestIdle && fed != []
    ensures var (end, out) := ShiftRun(dr, dr.capture(t.network), fed);
            Displays(w, c, t, Inputs(DrCycles(fed)), t.(network := dr.update(end)), out)
  {
    hide Ticks, Displays, ShiftCycles, Inputs, ShiftRun, Idle;
    var a := t.(network := dr.capture(t.network), state := ShiftDrState);
    var (end, out) := ShiftRun(dr, dr.capture(t.network), fed);
    var b := a.(network := end, state := Exit1Dr);
    var u := t.(network := dr.update(end));
    MutePieces();
    EnterShift(w, t, dr);
    MuteDisplays(w, c, t, ToShiftDr());
    TicksShift(w, a, dr, fed);
    AllShown(w, c, a, fed);
    LeaveShift(w, b, dr);
    MuteDisplays(w, c, b, Exit1ToIdle());
    ThreeDisplay(w, c, t, ToShiftDr(), a, [], ShiftCycles(fed), b, out, Exit1ToIdle(), u, []);
    Alone(out);
  }

  /** The selected network: a scan shows what DrScan says of its cells. */
  lemma NetworkDisplays(w: Wiring<NetState>, world: World, c: Chain, t: Tap<NetState>, fed: Bits)
    requires PluggedIn(w, t, NetworkRegister(world)) && t.state == RunTestIdle && fed != []
    ensures var (h, out) := DrScan(t.network.cells, world(t.network.captures), fed);
            Displays(w, c, t, Inputs(DrCycles(fed)), t.(network := NetState(h, t.network.captures + 1)), out)
  {
    hide Displays, Inputs, DrCycles, ShiftRun, Capture, ShiftAll, Update;
    DrDisplays(w, c, t, NetworkRegister(world), fed);
    RunIsShiftAll(world, NetCapture(world, t.network), fed);
  }

  // ---------------------------------------------------------------- SAMPLE/PRELOAD

  function Same(n: nat, bit: bool): Bits { seq(n, _ => bit) }

  lemma {:induction false} TailRepeats(world: World, n: NetState, fed: Bits)
    ensures ShiftRun(TailRegister(world), n, fed) == (n, Same(|fed|, TailOf(n.cells)))
    decreases |fed|
  {
    var bit := TailOf(n.cells);
    hide TailOf;
    if fed != [] {
      TailRepeats(world, n, fed[1..]);
      assert [bit] + Same(|fed[1..]|, bit) == Same(|fed|, bit);
      assert TailRegister(world).shift(n, fed[0]) == (n, bit);
    } else {
      assert Same(|fed|, bit) == [];
    }
  }

  /** The tail is what one shift cycle of the network would show. */
  lemma TailIsShiftOut(h: Cells, tdi: bool)
    requires Seen(h) != []
    ensures TailOf(h) == Shift(h, tdi).1
  {
  }

  /** Every instrument's shift stage holds what it captured, selected or not. */
  lemma {:induction false} UnselectedShows(h: Cells, com: Committed, sense: Sense)
    requires Latched(h, com)
    ensures Shows(CaptureUnselected(h, sense), com, sense)
  {
    match h
    case CEnd =>
    case CSib(_, _, _, gate, rest) =>
      UnselectedGateShows(gate, com, sense);
      UnselectedShows(rest, com, sense);
    case CMux(_, _, _, _, arms, rest) =>
      UnselectedArmsShow(arms, com, sense);
      UnselectedShows(rest, com, sense);
  }

  lemma {:induction false} UnselectedGateShows(g: GateCells, com: Committed, sense: Sense)
    requires LatchedGate(g, com)
    ensures ShowsGate(CaptureGateUnselected(g, sense), com, sense)
  {
    if g.CNet? {
      UnselectedShows(g.chain, com, sense);
    }
  }

  lemma {:induction false} UnselectedArmsShow(a: ArmCells, com: Committed, sense: Sense)
    requires LatchedArms(a, com)
    ensures ShowsArms(CaptureArmsUnselected(a, sense), com, sense)
  {
    if a.CArm? {
      UnselectedGateShows(a.gate, com, sense);
      UnselectedArmsShow(a.others, com, sense);
    }
  }

  /** Under SAMPLE/PRELOAD a scan shows one bit over and over, the one a shift of the network would show next once its
      instruments have captured, and moves no cell. */
  lemma SampleDisplays(cfg: Config, c: Chain, world: World, t: Tap<NetState>, open: OpenMap, com: Committed, fed: Bits)
    requires cfg.accessOpcode.None? && Network(c) && t.instruction == SAMPLE_PRELOAD && t.state == RunTestIdle
    requires InStep(c, open, com, t.network.cells) && fed != []
    ensures var h := CaptureUnselected(t.network.cells, world(t.network.captures));
            && Shows(h, com, world(t.network.captures))
            && Displays(Rig(cfg, c, world), c, t, Inputs(DrCycles(fed)),
                        t.(network := NetState(h, t.network.captures + 1)), Same(|fed|, Shift(h, false).1))
  {
    var w, sense := Rig(cfg, c, world), world(t.network.captures);
    var h := CaptureUnselected(t.network.cells, sense);
    var after := NetState(h, t.network.captures + 1);
    assert PluggedIn(w, t, TailRegister(world)) by { SamplePlugged(cfg, c, world, t); }
    assert TailRegister(world).capture(t.network) == after && TailRegister(world).update(after) == after;
    hide Displays, Inputs, DrCycles, ShiftRun, CaptureUnselected, Seen, Shift, TailOf, Rig, TailRegister, Network,
         Agrees, Latched, SibCells.Sized, PluggedIn, Length, Raw;
    DrDisplays(w, c, t, TailRegister(world), fed);
    TailRepeats(world, after, fed);
    UnselectedShows(t.network.cells, com, sense);
    TailKeeps(c, open, com, t.network.cells, sense);
    LiveSome(c, open, h);
    TailIsShiftOut(h, false);
  }

  lemma SamplePlugged(cfg: Config, c: Chain, world: World, t: Tap<NetState>)
    requires cfg.accessOpcode.None? && Network(c) && t.instruction == SAMPLE_PRELOAD
    ensures PluggedIn(Rig(cfg, c, world), t, TailRegister(world))
  {
    NetworkParts(c);
  }

  lemma LiveSome(c: Chain, open: OpenMap, h: Cells)
    requires Network(c) && Topo(h) == c && SibCells.Sized(h) && Agrees(h, open)
    ensures Seen(h) != []
  {
    NetworkParts(c);
    GoodHasNoZero(c);
    LayoutIsLive(h, open);
    PositiveLength(c, open);
    SeenLength(h);
  }

  // ---------------------------------------------------------------- reset

  /** Every stage of every cell, live or not, is 0. */
  ghost predicate Cleared(h: Cells) {
    match h
    case CEnd => true
    case CSib(_, ff, po, gate, rest) => !ff && !po && ClearedGate(gate) && Cleared(rest)
    case CMux(_, _, mff, mpo, arms, rest) => AllClear(mff) && AllClear(mpo) && ClearedArms(arms) && Cleared(rest)
  }

  ghost predicate ClearedGate(g: GateCells) {
    match g
    case CLeaf(_, sh, latch) => AllClear(sh) && AllClear(latch)
    case CNet(chain) => Cleared(chain)
  }

  ghost predicate ClearedArms(a: ArmCells) {
    match a
    case CNoArms => true
    case CArm(_, gate, others) => ClearedGate(gate) && ClearedArms(others)
  }

  ghost predicate AllClear(bits: Bits) { forall k :: 0 <= k < |bits| ==> !bits[k] }

  /** Reset clears everything, at every depth and in every arm. */
  lemma {:induction false} FreshCleared(c: Chain)
    ensures Topo(Fresh(c)) == c && SibCells.Sized(Fresh(c)) && Cleared(Fresh(c))
  {
    FreshState(c);
    match c
    case End =>
    case Sib(_, gate, rest) =>
      FreshGateCleared(gate);
      FreshCleared(rest);
    case Mux(_, _, arms, rest) =>
      FreshArmsCleared(arms);
      FreshCleared(rest);
  }

  lemma {:induction false} FreshGateCleared(g: Gate)
    ensures ClearedGate(FreshGate(g))
  {
    if g.Net? {
      FreshCleared(g.chain);
    }
  }

  lemma {:induction false} FreshArmsCleared(a: Arms)
    ensures ClearedArms(FreshArms(a))
  {
    if a.Arm? {
      FreshGateCleared(a.gate);
      FreshArmsCleared(a.others);
    }
  }

  /** The board's scans feed a bit per slot of the top level: as long as a closed network of SIBs, and never longer than
      a closed network with ScanMuxes. */
  lemma {:induction false} SlotsAre(c: Chain)
    requires Structured(c)
    ensures IntegrityTests.Slots(c) <= Length(c, map[])
    ensures SibOnly(c) ==> IntegrityTests.Slots(c) == Length(c, map[])
  {
    match c
    case End =>
    case Sib(_, _, rest) => SlotsAre(rest);
    case Mux(_, _, _, rest) => SlotsAre(rest);
  }

  // ---------------------------------------------------------------- the closed network

  lemma {:induction false} NothingSelected(c: Chain)
    ensures Bypassing(c, map[])
  {
    match c
    case End =>
    case Sib(_, _, rest) => NothingSelected(rest);
    case Mux(_, _, _, rest) => NothingSelected(rest);
  }

  /** Closed, the live chain is the network's own select cells, and each captures 0. */
  lemma {:induction false} ClosedRaw(h: Cells, sense: Sense)
    requires Agrees(h, map[]) && SibCells.Sized(h) && NoZeroArm(Topo(h))
    ensures forall k :: 0 <= k < |Raw(Capture(h, sense, true))| ==> !Raw(Capture(h, sense, true))[k]
  {
    match h
    case CEnd =>
    case CSib(_, _, _, gate, rest) => ClosedRaw(rest, sense);
    case CMux(_, _, _, mpo, arms, rest) =>
      ClosedRaw(rest, sense);
      assert Value(mpo) == 0;
      NoneTaken(arms, sense, true, 0);
      ToIntZero(Reverse(mpo));
      forall k | 0 <= k < |mpo| ensures !mpo[k] {
        assert Reverse(mpo)[|mpo| - 1 - k] == mpo[k];
      }
  }

  lemma {:induction false} NoneTaken(a: ArmCells, sense: Sense, live: bool, value: int)
    requires NoZeroArms(ArmTopo(a))
    ensures RawArms(CaptureArms(a, sense, live, value), 0) == []
  {
    if a.CArm? {
      NoneTaken(a.others, sense, live, value);
    }
  }

  /** What a scan of the closed network shows: a 0 for every bit of its length, then what is fed. */
  lemma ClosedShows(c: Chain, h: Cells, com: Committed, sense: Sense, fed: Bits)
    requires Network(c) && InStep(c, map[], com, h)
    ensures DrScan(h, sense, fed).1 == Through(Zeros(Length(c, map[])), fed)
  {
    hide Network, Agrees, Latched, SibCells.Sized, Raw, Downstream, ShiftAll, Capture, GoodShape, Structured, Update;
    var seen := Capture(h, sense, true);
    LiveThrough(c, map[], com, h, sense, []);
    assert ShiftAll(seen, []).0 == seen by { NoShifts(seen); }
    GoodHasNoZero(c);
    CaptureKeeps(h, sense, true, map[], com);
    ClosedRaw(h, sense);
    NothingSelected(c);
    NothingDownstream(seen, map[]);
    ShiftAllEffect(seen, fed);
    var n := Length(c, map[]);
    assert Raw(seen) == Zeros(n);
    assert Tapped(seen) == Zeros(n) by {
      assert Zeros(n)[..n] == Zeros(n);
    }
    assert Reverse(Zeros(n)) == Zeros(n);
  }

  lemma NoShifts(h: Cells)
    ensures ShiftAll(h, []).0 == h
  {
  }

  // ---------------------------------------------------------------- its test

  /** The two scans of the first probe: one that closes a closed network, and the probe itself. */
  function CloseBits(c: Chain): Bits { Reverse(Compose(c, map[], map[], None, 0)) }

  function ClosedTest(cfg: Config, c: Chain, margin: nat): Test {
    Test([], SelectInstruction(NetworkOpcode(cfg), cfg.irWidth)
             + DrOps(ShiftDR(Length(c, map[]), FeedOf(Compose(c, map[], map[], None, 0)), None, None))
             + DrOps(ProbeShift(c, map[], SentinelBits(margin, None))))
  }

  /** What the program does first with the network. */
  lemma FirstProbe(cfg: Config, c: Chain, targets: seq<Path>, margin: nat)
    requires ProbeTests(cfg, c, targets, margin).Some?
    ensures ProbeTests(cfg, c, targets, margin).value[0] == Planned(ClosedTest(cfg, c, margin), map[])
    decreases |targets|
  {
    if targets == [] {
      hide DrOps, Compose, Length, FeedOf, SelectInstruction, ProbeShift, SentinelBits;
      var scan := DrOps(ShiftDR(Length(c, map[]), FeedOf(Compose(c, map[], map[], None, 0)), None, None));
      assert RoundOps(c, map[], [map[]]) == scan + RoundOps(c, map[], []);
      var none: seq<Op> := [];
      assert scan + none == scan;
      var probe := DrOps(ProbeShift(c, map[], SentinelBits(margin, None)));
      assert OvershiftOps(c, [], map[], margin, None) == Some(scan + probe);
      var select := SelectInstruction(NetworkOpcode(cfg), cfg.irWidth);
      assert select + (scan + probe) == select + scan + probe;
    } else {
      FirstProbe(cfg, c, targets[..|targets| - 1], margin);
    }
  }

  /** The opcode shifted in, then a 0 for every bit of the closed network, twice, and then the default pattern. */
  function ClosedReadout(cfg: Config, c: Chain, margin: nat): Bits
    requires cfg.irWidth >= 1
  {
    LoadReadout(cfg, Code(cfg, NetworkOpcode(cfg))) + Zeros(Length(c, map[])) + (Zeros(Length(c, map[])) + Period(margin))
  }

  lemma ClosedCycles(cfg: Config, c: Chain, margin: nat)
    requires Network(c) && cfg.irWidth >= 1
    ensures var fed := SentinelBits(margin, None) + CloseBits(c);
            && |CloseBits(c)| == Length(c, map[]) && CloseBits(c) != [] && SentinelBits(margin, None) == Period(margin)
            && InputsOf(ClosedTest(cfg, c, margin))
               == Inputs(IrLoad(NetworkOpcode(cfg), cfg.irWidth) + DrCycles(CloseBits(c)) + DrCycles(fed))
  {
    hide Network, Compose, Length, IrLoad, DrCycles, Walk, ToCycles, SelectInstruction, DrOps, ToInt, FromInt, Inputs;
    ComposeLength(c, map[], map[], None, 0);
    PositiveLength(c, map[]);
    SentinelIs(margin);
    var select := SelectInstruction(NetworkOpcode(cfg), cfg.irWidth);
    SelectCycles(NetworkOpcode(cfg), cfg.irWidth);
    var bits, fed := CloseBits(c), SentinelBits(margin, None) + CloseBits(c);
    var a := ShiftDR(|bits|, ToInt(bits), None, None);
    var b := ShiftDR(|fed|, ToInt(fed), None, None);
    FromIntToInt(bits);
    FromIntToInt(fed);
    DrOpsCycles(a);
    DrOpsCycles(b);
    ScanReturns(a);
    ToCyclesJoin(RunTestIdle, select, DrOps(a));
    WalkJoin(RunTestIdle, IrLoad(NetworkOpcode(cfg), cfg.irWidth), DrCycles(bits));
    ToCyclesJoin(RunTestIdle, select + DrOps(a), DrOps(b));
    assert [] + Inputs(IrLoad(NetworkOpcode(cfg), cfg.irWidth) + DrCycles(bits) + DrCycles(fed))
        == Inputs(IrLoad(NetworkOpcode(cfg), cfg.irWidth) + DrCycles(bits) + DrCycles(fed));
  }

  /** A DR scan ends where it began. */
  lemma ScanReturns(shift: Op)
    requires shift.ShiftDR? && shift.bits >= 1
    ensures Walk(RunTestIdle, DrCycles(FromInt(shift.tdi, shift.bits))) == RunTestIdle
  {
    hide Walk, ShiftCycles, FromInt;
    var fed := FromInt(shift.tdi, shift.bits);
    ShiftExits(fed);
    Navigates();
    WalkJoin(RunTestIdle, ToShiftDr(), ShiftCycles(fed));
    WalkJoin(RunTestIdle, ToShiftDr() + ShiftCycles(fed), Exit1ToIdle());
  }

  /** The test of the closed network, from wherever the tests of the TAP leave it. */
  lemma ClosedDisplays(cfg: Config, c: Chain, world: World, t: Tap<NetState>, margin: nat) returns (u: Tap<NetState>)
    requires Usable(cfg) && Network(c) && Aside(cfg, t) && t.network.cells == Fresh(c)
    ensures cfg.irWidth >= 1
    ensures Displays(Rig(cfg, c, world), c, t, InputsOf(ClosedTest(cfg, c, margin)), u, ClosedReadout(cfg, c, margin))
  {
    var w, n := Rig(cfg, c, world), Length(c, map[]);
    TwoBits(cfg);
    RigWired(cfg, c, world);
    hide *;
    WiredFits(w, world, cfg);
    ClosedCycles(cfg, c, margin);
    var opcode, bits, fed := NetworkOpcode(cfg), CloseBits(c), SentinelBits(margin, None) + CloseBits(c);
    var a := SelectDisplays(w, world, cfg, c, t);
    assert InStep(c, map[], map[], a.network.cells) by { FreshInStep(c); }
    NetworkDisplays(w, world, c, a, bits);
    ClosedShows(c, a.network.cells, map[], world(a.network.captures), bits);
    var b := a.(network := NetState(DrScan(a.network.cells, world(a.network.captures), bits).0, a.network.captures + 1));
    assert InStep(c, map[], map[], b.network.cells) by {
      EmptyIsRooted(c);
      ScanCloses(c, map[], a.network.cells, world(a.network.captures), []);
      assert [] + bits == bits;
    }
    NetworkDisplays(w, world, c, b, fed);
    ClosedShows(c, b.network.cells, map[], world(b.network.captures), fed);
    u := b.(network := NetState(DrScan(b.network.cells, world(b.network.captures), fed).0, b.network.captures + 1));
    ZerosThrough(n, bits, Period(margin));
    ThreeDisplay(w, c, t, IrLoad(opcode, cfg.irWidth), a, LoadReadout(cfg, Code(cfg, opcode)), DrCycles(bits), b, Zeros(n),
                 DrCycles(fed), u, Zeros(n) + Period(margin));
  }

  lemma ZerosThrough(n: nat, bits: Bits, front: Bits)
    requires |bits| == n
    ensures Through(Zeros(n), bits) == Zeros(n) && Through(Zeros(n), front + bits) == Zeros(n) + front
  {
  }

  lemma FreshInStep(c: Chain)
    ensures InStep(c, map[], map[], Fresh(c))
  {
    FreshState(c);
  }

  /** The network's opcode loaded. */
  lemma SelectDisplays(w: Wiring<NetState>, world: World, cfg: Config, c: Chain, t: Tap<NetState>) returns (u: Tap<NetState>)
    requires Wired(w, world, cfg) && Aside(cfg, t) && cfg.irWidth >= 1
    ensures Displays(w, c, t, Inputs(IrLoad(NetworkOpcode(cfg), cfg.irWidth)), u,
                     LoadReadout(cfg, Code(cfg, NetworkOpcode(cfg))))
    ensures u.network == t.network && u.state == RunTestIdle && PluggedIn(w, u, NetworkRegister(world))
  {
    var opcode := NetworkOpcode(cfg);
    assert Decode(cfg, opcode) == NetworkInstruction(cfg);
    hide Displays, Inputs, ShiftCycles, Idle, IrPattern, Kept, LoadReadout, ToInt, Code, Decode, FromInt;
    EndsInCode(cfg, [], opcode);
    CodeIs(cfg, opcode);
    assert [] + Code(cfg, opcode) == Code(cfg, opcode);
    AnyLoadDisplays(w, c, cfg, t, Code(cfg, opcode));
    var kept := Kept(IrPattern(cfg), Code(cfg, opcode));
    u := t.(ir := kept, instruction := Decode(cfg, ToInt(kept)));
  }

  // ---------------------------------------------------------------- the tests of the network

  /** One test per target, in order: it closes what the test before it left open, probes the target, and leaves open the
      target and its ancestors. */
  lemma {:induction false} ProbeTestsAre(cfg: Config, c: Chain, targets: seq<Path>, margin: nat)
    requires ProbeTests(cfg, c, targets, margin).Some?
    ensures var tests := ProbeTests(cfg, c, targets, margin).value;
            && |tests| == |targets| + 1
            && forall j :: 0 <= j < |targets| ==>
                 var ops := OvershiftOps(c, targets[j], map[], margin, None);
                 && ops.Some?
                 && tests[j + 1] == Planned(Test([], CloseAll(c, tests[j].believed) + ops.value), OpenedBy(c, targets[j]))
    decreases |targets|
  {
    hide OvershiftOps, CloseAll, OpenedBy, SelectInstruction;
    if targets != [] {
      var n := |targets| - 1;
      ProbeTestsAre(cfg, c, targets[..n], margin);
      var front, tests := ProbeTests(cfg, c, targets[..n], margin).value, ProbeTests(cfg, c, targets, margin).value;
      forall j | 0 <= j < |targets|
        ensures OvershiftOps(c, targets[j], map[], margin, None).Some?
        ensures tests[j + 1] == Planned(Test([], CloseAll(c, tests[j].believed)
                                              + OvershiftOps(c, targets[j], map[], margin, None).value),
                                        OpenedBy(c, targets[j]))
      {
        if j < n {
          assert targets[..n][j] == targets[j] && tests[j] == front[j] && tests[j + 1] == front[j + 1];
        }
      }
    }
  }

  /** After the probes: EXTEST where the network has an instruction of its own, SAMPLE/PRELOAD, and the paused scan. */
  lemma HoldTestsAre(cfg: Config, c: Chain, open: OpenMap, margin: nat)
    ensures var board := opcode => Planned(RawTest(IrLoad(opcode, cfg.irWidth)
                                                   + DrCycles(Period(IntegrityTests.Slots(c) + margin))), open);
            var hold := Planned(RawTest(IrLoad(NetworkOpcode(cfg), cfg.irWidth) + PausedHold(c, open)), map[]);
            HoldTests(cfg, c, open, margin) == if cfg.accessOpcode.Some? then [board(0), board(2), hold] else [board(2), hold]
  {
    hide IrLoad, DrCycles, PausedHold, Sentinel, Period, RawTest;
    SentinelIs(IntegrityTests.Slots(c) + margin);
  }
}
