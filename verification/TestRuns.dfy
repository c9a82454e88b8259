/** Stretches of a TCK program: where a TAP and its network get to, and that every update of the selected
    network on the way ends a scan as long as its live chain. */
module TestRuns {
  import opened Wrappers
  import opened Bits
  import opened IclModel
  import opened SibLayout
  import opened SibCells
  import opened SibShift
  import opened SibRound
  import opened SibRetarget
  import opened SibStaging
  import opened SibReach
  import opened PathPlan
  import opened TapFsm
  import opened TapIr
  import opened TapModel
  import opened TapPlay
  import opened TapSelect
  import opened TapCycles
  import opened Retargeting
  import opened OverShift
  import opened Integrity
  import opened SelfCheckCycles

  /** Fed, over a whole run. */
  function FedAfter(w: Wiring<NetState>, c: Chain, t: Tap<NetState>, ins: seq<TckInput>, count: nat): nat
    decreases |ins|
  {
    if ins == [] then count
    else match Drive(w, c, t, ins[0])
      case None => count
      case Some((u, _)) => FedAfter(w, c, u, ins[1..], Fed(t, ins[0], count))
  }

  /** The run takes `t` to `u`; counting from `count` every network update is long enough, and at least
      `least` shift cycles have been fed by the end. */
  ghost predicate Runs(w: Wiring<NetState>, c: Chain, t: Tap<NetState>, count: nat, ins: seq<TckInput>,
                       u: Tap<NetState>, least: nat)
  {
    && DriveAll(w, c, t, ins).Some? && DriveAll(w, c, t, ins).value.0 == u
    && ScansAreLong(w, c, t, ins, count) && least <= FedAfter(w, c, t, ins, count)
  }

  lemma {:induction false} LongerIsLong(w: Wiring<NetState>, c: Chain, t: Tap<NetState>, ins: seq<TckInput>,
                                        count: nat, more: nat)
    requires count <= more && ScansAreLong(w, c, t, ins, count)
    ensures ScansAreLong(w, c, t, ins, more) && FedAfter(w, c, t, ins, count) <= FedAfter(w, c, t, ins, more)
    decreases |ins|
  {
    hide Drive, Raw;
    if ins != [] && Drive(w, c, t, ins[0]).Some? {
      LongerIsLong(w, c, Drive(w, c, t, ins[0]).value.0, ins[1..], Fed(t, ins[0], count), Fed(t, ins[0], more));
    }
  }

  lemma {:induction false} RunsJoin(w: Wiring<NetState>, c: Chain, t: Tap<NetState>, count: nat, a: seq<TckInput>,
                                    u: Tap<NetState>, mid: nat, b: seq<TckInput>, v: Tap<NetState>, least: nat)
    requires Runs(w, c, t, count, a, u, mid) && Runs(w, c, u, mid, b, v, least)
    ensures Runs(w, c, t, count, a + b, v, least)
    decreases |a|
  {
    hide Drive, Raw, Fed;
    if a == [] {
      assert a + b == b;
      LongerIsLong(w, c, t, b, mid, count);
    } else {
      assert (a + b)[0] == a[0] && (a + b)[1..] == a[1..] + b;
      var next := Drive(w, c, t, a[0]).value.0;
      assert DriveAll(w, c, next, a[1..]).Some?;
      RunsJoin(w, c, next, Fed(t, a[0], count), a[1..], u, mid, b, v, least);
    }
  }

  /** The same for a run of TCK cycles with TRST released. */
  lemma {:induction false} DriveTicks(w: Wiring<NetState>, c: Chain, t: Tap<NetState>, cycles: Cycles)
    ensures DriveAll(w, c, t, Inputs(cycles)) == Ticks(w, t, cycles)
    decreases |cycles|
  {
    hide Tick;
    if cycles != [] {
      var ins := Inputs(cycles);
      assert ins[0] == TckInput(cycles[0].0, cycles[0].1, true) && ins[1..] == Inputs(cycles[1..]);
      if Tick(w, t, cycles[0].0, cycles[0].1).Some? {
        DriveTicks(w, c, Tick(w, t, cycles[0].0, cycles[0].1).value.0, cycles[1..]);
      }
    }
  }

  lemma InputsJoin(a: Cycles, b: Cycles)
    ensures Inputs(a + b) == Inputs(a) + Inputs(b)
  {
  }

  // ---------------------------------------------------------------- runs without a network update

  /** The controller never comes by Update-DR, nor, if `strict`, by Capture-DR. */
  predicate Avoids(s: TapState, cycles: Cycles, strict: bool)
    decreases |cycles|
  {
    cycles == [] || (!s.UpdateDr? && !(strict && s.CaptureDr?) && Avoids(NextState(s, cycles[0].0), cycles[1..], strict))
  }

  lemma {:induction false} AvoidsJoin(s: TapState, a: Cycles, b: Cycles, strict: bool)
    requires Avoids(s, a, strict) && Avoids(Walk(s, a), b, strict)
    ensures Avoids(s, a + b, strict)
    decreases |a|
  {
    hide NextState;
    if a == [] {
      assert a + b == b;
    } else {
      assert (a + b)[0] == a[0] && (a + b)[1..] == a[1..] + b;
      AvoidsJoin(NextState(s, a[0].0), a[1..], b, strict);
    }
  }

  lemma AvoidsOn(s: TapState, tms: Bits, rest: Bits, strict: bool)
    requires tms != [] && tms[1..] == rest && !s.UpdateDr? && !(strict && s.CaptureDr?)
    requires Avoids(NextState(s, tms[0]), Idle(rest), strict)
    ensures Avoids(s, Idle(tms), strict) && Walk(s, Idle(tms)) == Walk(NextState(s, tms[0]), Idle(rest))
  {
    hide NextState;
    assert Idle(tms)[0] == (tms[0], false) && Idle(tms)[1..] == Idle(rest);
  }

  lemma AvoidsNothing(s: TapState, strict: bool)
    ensures Avoids(s, Idle([]), strict) && Walk(s, Idle([])) == s
  {
  }

  /** Such a run needs no scan to be long, and when strict it keeps the count. */
  lemma {:induction false} AvoidsRuns(w: Wiring<NetState>, c: Chain, t: Tap<NetState>, cycles: Cycles, strict: bool,
                                      count: nat)
    requires Ticks(w, t, cycles).Some? && Avoids(t.state, cycles, strict)
    ensures Runs(w, c, t, count, Inputs(cycles), Ticks(w, t, cycles).value.0, if strict then count else 0)
    decreases |cycles|
  {
    hide Tick, NextState, Raw;
    DriveTicks(w, c, t, cycles);
    if cycles != [] {
      var ins := Inputs(cycles);
      assert ins[0] == TckInput(cycles[0].0, cycles[0].1, true) && ins[1..] == Inputs(cycles[1..]);
      var u := Tick(w, t, cycles[0].0, cycles[0].1).value.0;
      TickState(w, t, cycles[0]);
      AvoidsRuns(w, c, u, cycles[1..], strict, Fed(t, ins[0], count));
    }
  }

  lemma WalksToDr()
    ensures Avoids(RunTestIdle, ToShiftDr(), false) && Walk(RunTestIdle, ToShiftDr()) == ShiftDrState
  {
    AvoidsNothing(ShiftDrState, false);
    hide Avoids, Idle, Walk;
    AvoidsOn(CaptureDr, [false], [], false);
    AvoidsOn(SelectDrScan, [false, false], [false], false);
    AvoidsOn(RunTestIdle, [true, false, false], [false, false], false);
  }

  lemma PausesAside()
    ensures Avoids(Exit1Dr, PauseAndResume(), true) && Walk(Exit1Dr, PauseAndResume()) == ShiftDrState
  {
    AvoidsNothing(ShiftDrState, true);
    hide Avoids, Idle, Walk;
    AvoidsOn(Exit2Dr, [false], [], true);
    AvoidsOn(PauseDr, [true, false], [false], true);
    AvoidsOn(PauseDr, [false, true, false], [true, false], true);
    AvoidsOn(PauseDr, [false, false, true, false], [false, true, false], true);
    AvoidsOn(Exit1Dr, [false, false, false, true, false], [false, false, true, false], true);
  }

  lemma IrLoadAside(fed: Bits)
    requires fed != []
    ensures Avoids(RunTestIdle, ToShiftIr() + ShiftCycles(fed) + Exit1ToIdle(), true)
  {
    AvoidsNothing(ShiftIrState, true);
    AvoidsNothing(RunTestIdle, true);
    IrShiftAside(fed);
    hide Avoids, Idle, Walk, ShiftCycles;
    AvoidsOn(CaptureIr, [false], [], true);
    AvoidsOn(SelectIrScan, [false, false], [false], true);
    AvoidsOn(SelectDrScan, [true, false, false], [false, false], true);
    AvoidsOn(RunTestIdle, [true, true, false, false], [true, false, false], true);
    AvoidsOn(UpdateIr, [false], [], true);
    AvoidsOn(Exit1Ir, [true, false], [false], true);
    AvoidsJoin(RunTestIdle, ToShiftIr(), ShiftCycles(fed), true);
    WalkJoin(RunTestIdle, ToShiftIr(), ShiftCycles(fed));
    AvoidsJoin(RunTestIdle, ToShiftIr() + ShiftCycles(fed), Exit1ToIdle(), true);
  }

  lemma {:induction false} IrShiftAside(fed: Bits)
    requires fed != []
    ensures Avoids(ShiftIrState, ShiftCycles(fed), true) && Walk(ShiftIrState, ShiftCycles(fed)) == Exit1Ir
    decreases |fed|
  {
    var cycles := ShiftCycles(fed);
    if |fed| == 1 {
      assert cycles[1..] == [];
    } else {
      assert cycles[1..] == ShiftCycles(fed[1..]);
      IrShiftAside(fed[1..]);
    }
  }

  /** Loading an opcode, whatever was loaded before. */
  lemma IrLoadRuns(w: Wiring<NetState>, c: Chain, t: Tap<NetState>, opcode: int)
    requires t.state == RunTestIdle && t.cfg.irWidth >= 1 && 0 <= opcode < Pow2(t.cfg.irWidth)
    ensures Runs(w, c, t, 0, Inputs(IrLoad(opcode, t.cfg.irWidth)),
                 t.(ir := FromInt(opcode, t.cfg.irWidth), instruction := Decode(t.cfg, opcode)), 0)
  {
    TicksIrLoad(w, t, opcode);
    IrLoadAside(FromInt(opcode, t.cfg.irWidth));
    hide Avoids, Ticks, Runs, IrLoad, Decode, FromInt;
    assert IrLoad(opcode, t.cfg.irWidth)
           == ToShiftIr() + ShiftCycles(FromInt(opcode, t.cfg.irWidth)) + Exit1ToIdle() by { IrLoadIs(opcode, t.cfg.irWidth); }
    AvoidsRuns(w, c, t, IrLoad(opcode, t.cfg.irWidth), true, 0);
  }

  lemma IrLoadIs(opcode: int, irWidth: nat)
    ensures IrLoad(opcode, irWidth) == ToShiftIr() + ShiftCycles(FromInt(opcode, irWidth)) + Exit1ToIdle()
  {
  }

  // ---------------------------------------------------------------- runs under other instructions

  /** While the network's instruction is not loaded, no update is one of the network's. */
  lemma {:induction false} AwayRuns(w: Wiring<NetState>, c: Chain, t: Tap<NetState>, cycles: Cycles,
                                    s': TapState, ir': Bits, count: nat)
    requires !Selected(t) && Goes(t.cfg, t.state, t.ir, cycles, s', ir') && Ticks(w, t, cycles).Some?
    ensures Runs(w, c, t, count, Inputs(cycles), Ticks(w, t, cycles).value.0, 0)
    decreases |cycles|
  {
    hide NextState, Raw, Tick, Decode, Selected, IrStep;
    DriveTicks(w, c, t, cycles);
    if cycles != [] {
      var ins := Inputs(cycles);
      assert ins[0] == TckInput(cycles[0].0, cycles[0].1, true) && ins[1..] == Inputs(cycles[1..]);
      AwayTick(w, t, cycles[0].0, cycles[0].1);
      AwayRuns(w, c, Tick(w, t, cycles[0].0, cycles[0].1).value.0, cycles[1..], s', ir', Fed(t, ins[0], count));
    }
  }

  /** No data register touches the instruction register or the instruction. */
  lemma ActivesKeep(w: Wiring<NetState>, t: Tap<NetState>, tdi: bool)
    ensures CaptureActive(w, t).Some? ==> SameControl(CaptureActive(w, t).value, t)
    ensures ShiftActive(w, t, tdi).Some? ==> SameControl(ShiftActive(w, t, tdi).value.0, t)
    ensures UpdateActive(w, t).Some? ==> SameControl(UpdateActive(w, t).value, t)
  {
    hide Registered, FromInt;
  }

  predicate SameControl(u: Tap<NetState>, t: Tap<NetState>) {
    u.cfg == t.cfg && u.ir == t.ir && u.instruction == t.instruction && u.state == t.state
  }

  lemma AwayTick(w: Wiring<NetState>, t: Tap<NetState>, tms: bool, tdi: bool)
    requires !Selected(t) && Tick(w, t, tms, tdi).Some?
    requires t.state.UpdateIr? ==> Quiet(t.cfg, Decode(t.cfg, ToInt(t.ir)))
    ensures var u := Tick(w, t, tms, tdi).value.0;
            && u.cfg == t.cfg && u.state == NextState(t.state, tms) && u.ir == IrStep(t.cfg, t.state, t.ir, tdi)
            && !Selected(u)
  {
    hide NextState, Decode, FromInt, ToInt, CaptureActive, ShiftActive, UpdateActive, ShiftRight;
    ActivesKeep(w, t, tdi);
  }

  /** Nor while nothing that reaches the network is loaded, and then it is not touched at all. */
  lemma QuietRuns(w: Wiring<NetState>, c: Chain, t: Tap<NetState>, cycles: Cycles, s': TapState, ir': Bits)
    requires Quiet(t.cfg, t.instruction) && Goes(t.cfg, t.state, t.ir, cycles, s', ir')
    ensures Ticks(w, t, cycles).Some?
    ensures var u := Ticks(w, t, cycles).value.0;
            && Runs(w, c, t, 0, Inputs(cycles), u, 0)
            && u.cfg == t.cfg && u.state == s' && u.network == t.network && Quiet(u.cfg, u.instruction)
  {
    hide Goes, Runs, Ticks;
    QuietTicks(w, t, cycles, s', ir');
    AwayRuns(w, c, t, cycles, s', ir', 0);
  }

  // ---------------------------------------------------------------- network scans

  /** A run of Shift-DR cycles of the selected network. */
  lemma {:induction false} ShiftRuns(w: Wiring<NetState>, world: World, c: Chain, t: Tap<NetState>, fed: Bits, count: nat)
    requires t.state == ShiftDrState && Selected(t) && PluggedIn(w, t, NetworkRegister(world)) && fed != []
    ensures var h := ShiftAll(t.network.cells, fed).0;
            Runs(w, c, t, count, Inputs(ShiftCycles(fed)), t.(network := t.network.(cells := h), state := Exit1Dr),
                 count + |fed|)
    decreases |fed|
  {
    hide Shift, Raw, Runs;
    var cycles := ShiftCycles(fed);
    var first := TckInput(|fed| == 1, fed[0], true);
    var u := t.(network := NetShift(t.network, fed[0]).0, state := NextState(ShiftDrState, |fed| == 1));
    assert Drive(w, c, t, first) == Some((u, NetShift(t.network, fed[0]).1));
    RunsOne(w, c, t, first, u, count);
    if |fed| == 1 {
      assert Inputs(cycles) == [first];
      assert ShiftAll(t.network.cells, fed).0 == u.network.cells by { OneShifted(t.network.cells, fed); }
    } else {
      assert cycles[1..] == ShiftCycles(fed[1..]) && Inputs(cycles) == [first] + Inputs(ShiftCycles(fed[1..]));
      ShiftRuns(w, world, c, u, fed[1..], count + 1);
      var end := u.(network := u.network.(cells := ShiftAll(u.network.cells, fed[1..]).0), state := Exit1Dr);
      RunsJoin(w, c, t, count, [first], u, count + 1, Inputs(ShiftCycles(fed[1..])), end, count + |fed|);
    }
  }

  lemma OneShifted(h: Cells, fed: Bits)
    requires |fed| == 1
    ensures ShiftAll(h, fed).0 == Shift(h, fed[0]).0
  {
    hide Shift;
    assert fed[1..] == [];
  }

  /** One Shift-DR cycle. */
  lemma RunsOne(w: Wiring<NetState>, c: Chain, t: Tap<NetState>, i: TckInput, u: Tap<NetState>, count: nat)
    requires t.state == ShiftDrState && Selected(t) && i.trstN
    requires Drive(w, c, t, i).Some? && Drive(w, c, t, i).value.0 == u
    ensures Runs(w, c, t, count, [i], u, count + 1)
  {
    hide Drive, Raw;
    assert [i][1..] == [] && Fed(t, i, count) == count + 1;
    assert DriveAll(w, c, u, []) == Some((u, []));
    assert DriveAll(w, c, t, [i]).Some? && DriveAll(w, c, t, [i]).value.0 == u;
    assert FedAfter(w, c, u, [], count + 1) == count + 1;
    assert FedAfter(w, c, t, [i], count) == count + 1;
    assert ScansAreLong(w, c, u, [], count + 1);
  }

  lemma LeaveRuns(w: Wiring<NetState>, world: World, c: Chain, t: Tap<NetState>, count: nat)
    requires t.state == Exit1Dr && Selected(t) && PluggedIn(w, t, NetworkRegister(world))
    requires |Raw(t.network.cells)| <= count
    ensures Runs(w, c, t, count, Inputs(Exit1ToIdle()), t.(network := NetUpdate(t.network), state := RunTestIdle), 0)
  {
    hide Raw, Update;
    var ins := Inputs(Exit1ToIdle());
    assert ins == [TckInput(true, false, true), TckInput(false, false, true)];
    var a := t.(state := UpdateDr);
    assert Drive(w, c, t, ins[0]) == Some((a, false));
    assert Drive(w, c, a, ins[1]) == Some((t.(network := NetUpdate(t.network), state := RunTestIdle), false));
    assert ins[1..] == [ins[1]] && ins[1..][1..] == [];
  }

  /** The network selected and waiting in Run-Test/Idle. */
  ghost predicate Waits(w: Wiring<NetState>, world: World, t: Tap<NetState>) {
    Ready(w, world, t) && Selected(t)
  }

  lemma CaptureRuns(w: Wiring<NetState>, world: World, c: Chain, t: Tap<NetState>)
    requires Waits(w, world, t)
    ensures Runs(w, c, t, 0, Inputs(ToShiftDr()), t.(network := NetCapture(world, t.network), state := ShiftDrState), 0)
  {
    EnterShift(w, t, NetworkRegister(world));
    WalksToDr();
    hide Avoids, Ticks, Runs, Idle;
    AvoidsRuns(w, c, t, ToShiftDr(), false, 0);
  }

  /** The live chain is as long through a scan as the static layout says. */
  lemma LiveThrough(c: Chain, open: OpenMap, com: Committed, h: Cells, sense: Sense, fed: Bits)
    requires Network(c) && InStep(c, open, com, h)
    ensures |Raw(ShiftAll(Capture(h, sense, true), fed).0)| == Length(c, open) && Topo(Capture(h, sense, true)) == c
    ensures GoodShape(c) && Structured(c) && Sized(Capture(h, sense, true))
  {
    NetworkParts(c);
    GoodHasNoZero(c);
    CaptureKeeps(h, sense, true, open, com);
    var seen := Capture(h, sense, true);
    LayoutIsLive(seen, open);
    ShiftAllEffect(seen, fed);
    RawLoad(seen, Advanced(Raw(seen), fed));
  }

  /** A scan of the selected network at least as long as its live chain. */
  lemma ScanRuns(w: Wiring<NetState>, world: World, c: Chain, t: Tap<NetState>, open: OpenMap, com: Committed, fed: Bits)
    requires Network(c) && Waits(w, world, t) && InStep(c, open, com, t.network.cells) && Length(c, open) <= |fed|
    ensures var h := DrScan(t.network.cells, world(t.network.captures), fed).0;
            Runs(w, c, t, 0, Inputs(DrCycles(fed)), t.(network := NetState(h, t.network.captures + 1)), 0)
  {
    hide Network, Runs, Raw, ShiftAll, Capture, Update, Length, InStep, ToShiftDr, ShiftCycles, Exit1ToIdle, Inputs;
    PositiveLength(c, open);
    LiveThrough(c, open, com, t.network.cells, world(t.network.captures), fed);
    CaptureRuns(w, world, c, t);
    var t1 := t.(network := NetCapture(world, t.network), state := ShiftDrState);
    ShiftRuns(w, world, c, t1, fed, 0);
    var t2 := t1.(network := t1.network.(cells := ShiftAll(t1.network.cells, fed).0), state := Exit1Dr);
    LeaveRuns(w, world, c, t2, |fed|);
    InputsJoin(ToShiftDr(), ShiftCycles(fed));
    InputsJoin(ToShiftDr() + ShiftCycles(fed), Exit1ToIdle());
    RunsJoin(w, c, t, 0, Inputs(ToShiftDr()), t1, 0, Inputs(ShiftCycles(fed)), t2, |fed|);
    RunsJoin(w, c, t, 0, Inputs(ToShiftDr()) + Inputs(ShiftCycles(fed)), t2, |fed|, Inputs(Exit1ToIdle()),
             t2.(network := NetUpdate(t2.network), state := RunTestIdle), 0);
  }

  lemma PauseRuns(w: Wiring<NetState>, c: Chain, t: Tap<NetState>, count: nat)
    requires t.state == Exit1Dr
    ensures Runs(w, c, t, count, Inputs(PauseAndResume()), t.(state := ShiftDrState), count)
  {
    PausesAside();
    PauseTicks(w, t);
    hide Avoids, Runs, Ticks, PauseAndResume;
    AvoidsRuns(w, c, t, PauseAndResume(), true, count);
  }

  lemma PauseTicks(w: Wiring<NetState>, t: Tap<NetState>)
    requires t.state == Exit1Dr
    ensures Ticks(w, t, PauseAndResume()) == Some((t.(state := ShiftDrState), Zeros(5)))
  {
    var (low, high) := ((false, false), (true, false));
    var (p, e, end) := (t.(state := PauseDr), t.(state := Exit2Dr), t.(state := ShiftDrState));
    assert PauseAndResume() == [low] + ([low] + ([low] + ([high] + ([low] + []))));
    assert Zeros(5) == [false] + ([false] + ([false] + ([false] + ([false] + []))));
    assert Ticks(w, end, []) == Some((end, []));
    hide Ticks, Idle, Zeros;
    TickThen(w, e, low, [], end, false, end, []);
    TickThen(w, p, high, [low] + [], e, false, end, [false] + []);
    TickThen(w, p, low, [high] + ([low] + []), p, false, end, [false] + ([false] + []));
    TickThen(w, p, low, [low] + ([high] + ([low] + [])), p, false, end, [false] + ([false] + ([false] + [])));
    TickThen(w, t, low, [low] + ([low] + ([high] + ([low] + []))), p, false, end,
             [false] + ([false] + ([false] + ([false] + []))));
  }

  /** A paused scan does to the network what one scan of all its bits does. */
  lemma PausedRuns(w: Wiring<NetState>, world: World, c: Chain, t: Tap<NetState>, open: OpenMap, com: Committed,
                   first: Bits, second: Bits, last: Bits)
    requires Network(c) && Waits(w, world, t) && InStep(c, open, com, t.network.cells)
    requires first != [] && second != [] && last != [] && Length(c, open) <= |first + second + last|
    ensures var h := DrScan(t.network.cells, world(t.network.captures), first + second + last).0;
            Runs(w, c, t, 0, Inputs(PausedCycles(first, second, last)),
                 t.(network := NetState(h, t.network.captures + 1)), 0)
  {
    hide Network, Runs, Raw, ShiftAll, Capture, Update, Length, InStep, ToShiftDr, ShiftCycles, Exit1ToIdle, Inputs,
         PauseAndResume;
    LiveThrough(c, open, com, t.network.cells, world(t.network.captures), first + second + last);
    CaptureRuns(w, world, c, t);
    var t1 := t.(network := NetCapture(world, t.network), state := ShiftDrState);
    var u1 := ShiftThenPause(w, world, c, t1, 0, first);
    var u2 := ShiftThenPause(w, world, c, u1, |first|, second);
    ShiftRuns(w, world, c, u2, last, |first| + |second|);
    var h := ShiftAll(u2.network.cells, last).0;
    ShiftedJoin(t1.network.cells, first, second, last);
    var t3 := u2.(network := u2.network.(cells := h), state := Exit1Dr);
    LeaveRuns(w, world, c, t3, |first| + |second| + |last|);
    RunsJoin(w, c, u2, |first| + |second|, Inputs(ShiftCycles(last)), t3, |first| + |second| + |last|,
             Inputs(Exit1ToIdle()), t3.(network := NetUpdate(t3.network), state := RunTestIdle), 0);
    var end := t3.(network := NetUpdate(t3.network), state := RunTestIdle);
    RunsJoin(w, c, u1, |first|, Inputs(ShiftCycles(second)) + Inputs(PauseAndResume()), u2, |first| + |second|,
             Inputs(ShiftCycles(last)) + Inputs(Exit1ToIdle()), end, 0);
    RunsJoin(w, c, t1, 0, Inputs(ShiftCycles(first)) + Inputs(PauseAndResume()), u1, |first|,
             Inputs(ShiftCycles(second)) + Inputs(PauseAndResume()) + (Inputs(ShiftCycles(last)) + Inputs(Exit1ToIdle())),
             end, 0);
    RunsJoin(w, c, t, 0, Inputs(ToShiftDr()), t1, 0,
             Inputs(ShiftCycles(first)) + Inputs(PauseAndResume())
             + (Inputs(ShiftCycles(second)) + Inputs(PauseAndResume()) + (Inputs(ShiftCycles(last)) + Inputs(Exit1ToIdle()))),
             end, 0);
    PausedInputs(first, second, last);
  }

  lemma PausedInputs(first: Bits, second: Bits, last: Bits)
    ensures Inputs(PausedCycles(first, second, last))
            == Inputs(ToShiftDr())
               + (Inputs(ShiftCycles(first)) + Inputs(PauseAndResume())
                  + (Inputs(ShiftCycles(second)) + Inputs(PauseAndResume())
                     + (Inputs(ShiftCycles(last)) + Inputs(Exit1ToIdle()))))
  {
    hide Inputs, ToShiftDr, ShiftCycles, PauseAndResume, Exit1ToIdle;
    var (a, b, p, d, e, f) :=
      (ToShiftDr(), ShiftCycles(first), PauseAndResume(), ShiftCycles(second), ShiftCycles(last), Exit1ToIdle());
    InputsJoin(a, b);
    InputsJoin(a + b, p);
    InputsJoin(a + b + p, d);
    InputsJoin(a + b + p + d, p);
    InputsJoin(a + b + p + d + p, e);
    InputsJoin(a + b + p + d + p + e, f);
    SevenParts(Inputs(a), Inputs(b), Inputs(p), Inputs(d), Inputs(e), Inputs(f));
  }

  lemma SevenParts(a: seq<TckInput>, b: seq<TckInput>, p: seq<TckInput>, d: seq<TckInput>, e: seq<TckInput>,
                   f: seq<TckInput>)
    ensures a + b + p + d + p + e + f == a + (b + p + (d + p + (e + f)))
  {
  }

  lemma ShiftThenPause(w: Wiring<NetState>, world: World, c: Chain, t: Tap<NetState>, count: nat, fed: Bits)
    returns (u: Tap<NetState>)
    requires t.state == ShiftDrState && Selected(t) && PluggedIn(w, t, NetworkRegister(world)) && fed != []
    ensures u == t.(network := t.network.(cells := ShiftAll(t.network.cells, fed).0))
    ensures Runs(w, c, t, count, Inputs(ShiftCycles(fed)) + Inputs(PauseAndResume()), u, count + |fed|)
  {
    hide Runs, ShiftAll, ShiftCycles, PauseAndResume, Inputs;
    ShiftRuns(w, world, c, t, fed, count);
    var mid := t.(network := t.network.(cells := ShiftAll(t.network.cells, fed).0), state := Exit1Dr);
    PauseRuns(w, c, mid, count + |fed|);
    u := mid.(state := ShiftDrState);
    RunsJoin(w, c, t, count, Inputs(ShiftCycles(fed)), mid, count + |fed|, Inputs(PauseAndResume()), u, count + |fed|);
  }

  lemma {:induction false} ShiftedTwice(h: Cells, a: Bits, b: Bits)
    ensures ShiftAll(h, a + b).0 == ShiftAll(ShiftAll(h, a).0, b).0
    decreases |a|
  {
    hide Shift;
    if a == [] {
      assert a + b == b;
    } else {
      assert (a + b)[0] == a[0] && (a + b)[1..] == a[1..] + b;
      ShiftedTwice(Shift(h, a[0]).0, a[1..], b);
    }
  }

  lemma ShiftedJoin(h: Cells, first: Bits, second: Bits, last: Bits)
    ensures ShiftAll(h, first + second + last).0 == ShiftAll(ShiftAll(ShiftAll(h, first).0, second).0, last).0
  {
    hide ShiftAll;
    ShiftedTwice(h, first + second, last);
    ShiftedTwice(h, first, second);
  }
}
