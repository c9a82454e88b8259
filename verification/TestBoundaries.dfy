/** What is open at every test boundary of the integrity program (tap_integrity.py): what the builder takes to
    be open when a test is over is what the register then has open. */
module TestBoundaries {
  import opened Wrappers
  import opened Bits
  import opened IclModel
  import opened SibLayout
  import opened SibCells
  import opened SibRound
  import opened SibRetarget
  import opened SibStaging
  import opened SibReach
  import opened PathPlan
  import opened TapFsm
  import opened TapIr
  import opened TapModel
  import opened TapPlay
  import opened TapSelect
  import opened TapCycles
  import opened PdlSpec
  import opened Retargeting
  import opened RetargetingRuns
  import opened OverShift
  import opened Integrity
  import opened SelfCheckCycles
  import opened IntegrityProbes
  import opened ReadProbes
  import opened WriteReadback
  import opened WriteTargets
  import opened TestRuns
  import opened NetworkScans
  import opened IntegrityTests
  import opened QuietTests
  import opened NetworkHold

  // ---------------------------------------------------------------- courses

  /** Where a run ends, or its start if it stops. */
  function Reached(w: Wiring<NetState>, c: Chain, t: Tap<NetState>, ins: seq<TckInput>): Tap<NetState> {
    match Ends(w, c, t, ins)
    case None => t
    case Some(u) => u
  }

  function CyclesOf(test: Test): Cycles {
    match ToCycles(RunTestIdle, test.ops)
    case None => []
    case Some(cycles) => cycles
  }

  function Led(w: Wiring<NetState>, c: Chain, t: Tap<NetState>, test: Test): Tap<NetState> {
    Reached(w, c, t, test.leadIn)
  }

  function After(w: Wiring<NetState>, c: Chain, t: Tap<NetState>, test: Test): Tap<NetState> {
    Reached(w, c, Led(w, c, t, test), Inputs(CyclesOf(test)))
  }

  /** The test starts its operations in Run-Test/Idle and ends there, and every update of the network ends a
      scan as long as the live chain. */
  ghost predicate Completes(w: Wiring<NetState>, c: Chain, t: Tap<NetState>, test: Test) {
    && ToCycles(RunTestIdle, test.ops).Some?
    && Runs(w, c, t, 0, test.leadIn, Led(w, c, t, test), 0) && Led(w, c, t, test).state.RunTestIdle?
    && Runs(w, c, Led(w, c, t, test), 0, Inputs(CyclesOf(test)), After(w, c, t, test), 0)
    && After(w, c, t, test).state.RunTestIdle?
  }

  /** Exactly `open` is open. */
  ghost predicate HasOpen(c: Chain, t: Tap<NetState>, open: OpenMap) {
    Topo(t.network.cells) == c && Sized(t.network.cells) && Agrees(t.network.cells, open)
  }

  /** Every test completes, and leaves open what it is taken to leave open. */
  ghost predicate Tracked(w: Wiring<NetState>, c: Chain, t: Tap<NetState>, tests: seq<Planned>)
    decreases |tests|
  {
    tests == [] ||
    (&& Completes(w, c, t, tests[0].test)
     && HasOpen(c, After(w, c, t, tests[0].test), tests[0].believed)
     && Tracked(w, c, After(w, c, t, tests[0].test), tests[1..]))
  }

  function EndOf(w: Wiring<NetState>, c: Chain, t: Tap<NetState>, tests: seq<Planned>): Tap<NetState>
    decreases |tests|
  {
    if tests == [] then t else EndOf(w, c, After(w, c, t, tests[0].test), tests[1..])
  }

  /** The tests go from `t` to `u`. */
  ghost predicate Course(w: Wiring<NetState>, c: Chain, t: Tap<NetState>, tests: seq<Planned>, u: Tap<NetState>) {
    Tracked(w, c, t, tests) && EndOf(w, c, t, tests) == u
  }

  lemma NoCourse(w: Wiring<NetState>, c: Chain, t: Tap<NetState>)
    ensures Course(w, c, t, [], t)
  {
  }

  lemma {:induction false} CourseJoin(w: Wiring<NetState>, c: Chain, t: Tap<NetState>, a: seq<Planned>, u: Tap<NetState>,
                                      b: seq<Planned>, v: Tap<NetState>)
    requires Course(w, c, t, a, u) && Course(w, c, u, b, v)
    ensures Course(w, c, t, a + b, v)
    decreases |a|
  {
    hide Completes, HasOpen, After;
    if a == [] {
      assert a + b == b;
    } else {
      assert (a + b)[0] == a[0] && (a + b)[1..] == a[1..] + b;
      CourseJoin(w, c, After(w, c, t, a[0].test), a[1..], u, b, v);
    }
  }

  lemma RunsReach(w: Wiring<NetState>, c: Chain, t: Tap<NetState>, ins: seq<TckInput>, u: Tap<NetState>)
    requires Runs(w, c, t, 0, ins, u, 0)
    ensures Reached(w, c, t, ins) == u
  {
  }

  /** One test. */
  lemma OneCourse(w: Wiring<NetState>, c: Chain, t: Tap<NetState>, test: Test, believed: OpenMap, mid: Tap<NetState>,
                  u: Tap<NetState>)
    requires ToCycles(RunTestIdle, test.ops).Some? && mid.state == u.state == RunTestIdle
    requires Runs(w, c, t, 0, test.leadIn, mid, 0) && Runs(w, c, mid, 0, Inputs(CyclesOf(test)), u, 0)
    requires HasOpen(c, u, believed)
    ensures Course(w, c, t, [Planned(test, believed)], u)
  {
    RunsReach(w, c, t, test.leadIn, mid);
    RunsReach(w, c, mid, Inputs(CyclesOf(test)), u);
    hide Runs, HasOpen, Reached, ToCycles;
    var tests := [Planned(test, believed)];
    assert tests[1..] == [];
    assert Completes(w, c, t, test) && After(w, c, t, test) == u;
    assert Tracked(w, c, u, []) && EndOf(w, c, u, []) == u;
  }

  lemma NothingRuns(w: Wiring<NetState>, c: Chain, t: Tap<NetState>)
    ensures Runs(w, c, t, 0, [], t, 0)
  {
  }

  /** A test of operations alone. */
  lemma OpsCourse(w: Wiring<NetState>, c: Chain, t: Tap<NetState>, ops: seq<Op>, believed: OpenMap, cycles: Cycles,
                  u: Tap<NetState>)
    requires ToCycles(RunTestIdle, ops) == Some(cycles) && t.state == u.state == RunTestIdle
    requires Runs(w, c, t, 0, Inputs(cycles), u, 0) && HasOpen(c, u, believed)
    ensures Course(w, c, t, [Planned(Test([], ops), believed)], u)
  {
    hide Runs, HasOpen, ToCycles, Course;
    NothingRuns(w, c, t);
    OneCourse(w, c, t, Test([], ops), believed, t, u);
  }

  /** A test of raw cycles. */
  lemma RawCourse(w: Wiring<NetState>, c: Chain, t: Tap<NetState>, cycles: Cycles, believed: OpenMap, u: Tap<NetState>)
    requires u.state == RunTestIdle && Runs(w, c, t, 0, Inputs(cycles), u, 0) && HasOpen(c, u, believed)
    ensures Course(w, c, t, [Planned(RawTest(cycles), believed)], u)
  {
    hide Runs, HasOpen, Course;
    NothingRuns(w, c, u);
    assert Inputs([]) == [];
    OneCourse(w, c, t, RawTest(cycles), believed, u, u);
  }

  // ---------------------------------------------------------------- the TAP's own tests

  /** Waiting with nothing loaded that reaches the network. */
  ghost predicate Aside(cfg: Config, t: Tap<NetState>) {
    t.cfg == cfg && t.state == RunTestIdle && Quiet(cfg, t.instruction)
  }

  lemma SilentRuns(w: Wiring<NetState>, cfg: Config, c: Chain, t: Tap<NetState>, cycles: Cycles) returns (u: Tap<NetState>)
    requires Aside(cfg, t) && SilentCycles(cfg, cycles)
    ensures Runs(w, c, t, 0, Inputs(cycles), u, 0) && Aside(cfg, u) && u.network == t.network
  {
    hide Runs, Goes, Quiet, Ticks;
    assert Returns(cfg, t.ir, cycles);
    var ir': Bits :| Goes(cfg, RunTestIdle, t.ir, cycles, RunTestIdle, ir');
    QuietRuns(w, c, t, cycles, RunTestIdle, ir');
    u := Ticks(w, t, cycles).value.0;
  }

  lemma SilentCourse(w: Wiring<NetState>, cfg: Config, c: Chain, t: Tap<NetState>, test: Test, open: OpenMap)
    returns (u: Tap<NetState>)
    requires Aside(cfg, t) && Silent(cfg, test) && HasOpen(c, t, open)
    ensures Course(w, c, t, [Planned(test, open)], u) && Aside(cfg, u) && u.network == t.network
  {
    hide Runs, Course, Quiet, SilentCycles, Agrees, Sized;
    var x: Cycles :| test.leadIn == Inputs(x) && SilentCycles(cfg, x);
    var mid := SilentRuns(w, cfg, c, t, x);
    u := SilentRuns(w, cfg, c, mid, CyclesOf(test));
    OneCourse(w, c, t, test, open, mid, u);
  }

  lemma {:induction false} SilentTests(w: Wiring<NetState>, cfg: Config, c: Chain, t: Tap<NetState>, tests: seq<Test>)
    returns (u: Tap<NetState>)
    requires Aside(cfg, t) && AllSilent(cfg, tests) && HasOpen(c, t, map[])
    ensures Course(w, c, t, Closed(tests), u) && Aside(cfg, u) && u.network == t.network
    decreases |tests|
  {
    hide Course, Silent, Aside, Agrees, Sized;
    if tests == [] {
      u := t;
      NoCourse(w, c, t);
    } else {
      var mid := SilentCourse(w, cfg, c, t, tests[0], map[]);
      u := SilentTests(w, cfg, c, mid, tests[1..]);
      assert Closed(tests) == [Planned(tests[0], map[])] + Closed(tests[1..]);
      CourseJoin(w, c, t, [Planned(tests[0], map[])], mid, Closed(tests[1..]), u);
    }
  }

  lemma ResetScan(w: Wiring<NetState>, cfg: Config, c: Chain, t: Tap<NetState>, margin: nat) returns (u: Tap<NetState>)
    requires Aside(cfg, t) && margin >= 1
    ensures ToCycles(RunTestIdle, SentinelScan(ResetBits(cfg), margin)).Some?
    ensures var cycles := ToCycles(RunTestIdle, SentinelScan(ResetBits(cfg), margin)).value;
            Runs(w, c, t, 0, Inputs(cycles), u, 0) && Aside(cfg, u) && u.network == t.network
  {
    hide Runs, Aside, SilentCycles, ToCycles;
    SentinelSilent(cfg, ResetBits(cfg), margin);
    u := SilentRuns(w, cfg, c, t, DrCycles(Sentinel(ResetBits(cfg) + margin)));
  }

  /** One cycle of reset, or one that is neither a shift nor an update. */
  lemma StepRuns(w: Wiring<NetState>, c: Chain, t: Tap<NetState>, i: TckInput, u: Tap<NetState>, rest: seq<TckInput>,
                 v: Tap<NetState>)
    requires Drive(w, c, t, i) == Some((u, false)) && (i.trstN ==> !t.state.UpdateDr? && !t.state.ShiftDrState?)
    requires Runs(w, c, u, 0, rest, v, 0)
    ensures Runs(w, c, t, 0, [i] + rest, v, 0)
  {
    hide Drive, SibCells.Raw;
    assert ([i] + rest)[0] == i && ([i] + rest)[1..] == rest;
    assert Fed(t, i, 0) == 0;
  }

  /** TRST, whatever the TAP and the network were doing. */
  lemma TrstLeads(w: Wiring<NetState>, cfg: Config, c: Chain, t: Tap<NetState>) returns (mid: Tap<NetState>)
    requires t.cfg == cfg
    ensures Runs(w, c, t, 0, TRST_LEAD_IN, mid, 0)
    ensures Aside(cfg, mid) && mid.network == NetState(Fresh(c), t.network.captures)
  {
    hide Fresh, SibCells.Raw;
    var reset := ResetTap(cfg, NetState(Fresh(c), t.network.captures));
    mid := reset.(instruction := ResetInstruction(cfg), state := RunTestIdle);
    assert Drive(w, c, t, TRST) == Some((reset, false)) && Drive(w, c, reset, TRST) == Some((reset, false));
    assert Drive(w, c, reset, LOW) == Some((mid, false));
    assert TRST_LEAD_IN == [TRST] + ([TRST] + ([LOW] + []));
    hide Runs, Drive;
    NothingRuns(w, c, mid);
    StepRuns(w, c, reset, LOW, mid, [], mid);
    StepRuns(w, c, reset, TRST, reset, [LOW] + [], mid);
    StepRuns(w, c, t, TRST, reset, [TRST] + ([LOW] + []), mid);
  }

  /** The tests before the network's leave it as TRST left it. */
  lemma TapCourse(w: Wiring<NetState>, cfg: Config, c: Chain, t: Tap<NetState>, margin: nat, options: Options)
    returns (u: Tap<NetState>)
    requires Usable(cfg) && margin >= 1 && t.cfg == cfg
    ensures Course(w, c, t, Closed([TrstTest(cfg, margin)] + TapTests(cfg, margin, options)), u)
    ensures Aside(cfg, u) && u.network == NetState(Fresh(c), t.network.captures)
  {
    hide Runs, Course, Aside, Agrees, Sized, TapTests, Usable, AllSilent, ToCycles, Fresh;
    var first, rest := TrstTest(cfg, margin), TapTests(cfg, margin, options);
    var mid := TrstLeads(w, cfg, c, t);
    assert HasOpen(c, mid, map[]) by { FreshState(c); }
    var one := ResetScan(w, cfg, c, mid, margin);
    assert mid.state == one.state == RunTestIdle by { AsideIdle(cfg, mid); AsideIdle(cfg, one); }
    OneCourse(w, c, t, first, map[], mid, one);
    TapTestsSilent(cfg, margin, options);
    u := SilentTests(w, cfg, c, one, rest);
    assert Closed([first] + rest) == [Planned(first, map[])] + Closed(rest);
    CourseJoin(w, c, t, [Planned(first, map[])], one, Closed(rest), u);
  }

  lemma AsideIdle(cfg: Config, t: Tap<NetState>)
    requires Aside(cfg, t)
    ensures t.state == RunTestIdle
  {
  }

  /** Five cycles of TMS high, from anywhere in Run-Test/Idle. */
  lemma TmsLeads(w: Wiring<NetState>, cfg: Config, c: Chain, t: Tap<NetState>) returns (mid: Tap<NetState>)
    requires t.cfg == cfg && t.state == RunTestIdle
    ensures Runs(w, c, t, 0, TMS_RESET_LEAD_IN, mid, 0) && Aside(cfg, mid) && mid.network == t.network
  {
    hide SibCells.Raw;
    var a, b, e := t.(state := SelectDrScan), t.(state := SelectIrScan), t.(state := TestLogicReset);
    var f := e.(instruction := ResetInstruction(cfg));
    mid := f.(state := RunTestIdle);
    assert Drive(w, c, t, HIGH) == Some((a, false)) && Drive(w, c, a, HIGH) == Some((b, false));
    assert Drive(w, c, b, HIGH) == Some((e, false)) && Drive(w, c, e, HIGH) == Some((f, false));
    assert Drive(w, c, f, HIGH) == Some((f, false)) && Drive(w, c, f, LOW) == Some((mid, false));
    assert TMS_RESET_LEAD_IN == [HIGH] + ([HIGH] + ([HIGH] + ([HIGH] + ([HIGH] + ([LOW] + [])))));
    hide Runs, Drive;
    NothingRuns(w, c, mid);
    StepRuns(w, c, f, LOW, mid, [], mid);
    StepRuns(w, c, f, HIGH, f, [LOW] + [], mid);
    StepRuns(w, c, e, HIGH, f, [HIGH] + ([LOW] + []), mid);
    StepRuns(w, c, b, HIGH, e, [HIGH] + ([HIGH] + ([LOW] + [])), mid);
    StepRuns(w, c, a, HIGH, b, [HIGH] + ([HIGH] + ([HIGH] + ([LOW] + []))), mid);
    StepRuns(w, c, t, HIGH, a, [HIGH] + ([HIGH] + ([HIGH] + ([HIGH] + ([LOW] + [])))), mid);
  }

  /** The last test leaves the network as it was. */
  lemma ResetCourse(w: Wiring<NetState>, cfg: Config, c: Chain, t: Tap<NetState>, margin: nat, open: OpenMap)
    returns (u: Tap<NetState>)
    requires margin >= 1 && t.cfg == cfg && t.state == RunTestIdle && HasOpen(c, t, open)
    ensures Course(w, c, t, [Planned(ResetTest(cfg, margin), open)], u) && u.network == t.network
  {
    hide Runs, Course, Aside, Agrees, Sized, ToCycles;
    var mid := TmsLeads(w, cfg, c, t);
    u := ResetScan(w, cfg, c, mid, margin);
    assert mid.state == u.state == RunTestIdle by { AsideIdle(cfg, mid); AsideIdle(cfg, u); }
    OneCourse(w, c, t, ResetTest(cfg, margin), open, mid, u);
  }

  // ---------------------------------------------------------------- probes

  /** Between two tests of the network: it is selected, what is open is believed to be, and every WRITE
      instrument holds 0. */
  ghost predicate Standby(w: Wiring<NetState>, world: World, cfg: Config, t: Tap<NetState>, c: Chain, open: OpenMap) {
    Waits(w, world, t) && Clean(w, world, t, c, open) && t.cfg == cfg
  }

  lemma StandbyOpens(w: Wiring<NetState>, world: World, cfg: Config, t: Tap<NetState>, c: Chain, open: OpenMap)
    requires Standby(w, world, cfg, t, c, open)
    ensures HasOpen(c, t, open) && t.state == RunTestIdle && Resting(cfg, t, c, open)
    ensures Rooted(c, open, open) && Proper(c, open)
  {
  }

  /** Operations that leave the network on standby. */
  lemma ScansCourse(w: Wiring<NetState>, world: World, cfg: Config, c: Chain, t: Tap<NetState>, open: OpenMap,
                    ops: seq<Op>, after: OpenMap)
    requires Standby(w, world, cfg, t, c, open) && Scans(w, c, t, ops)
    requires Clean(w, world, Play(w, t, ops).value.0, c, after)
    ensures Course(w, c, t, [Planned(Test([], ops), after)], Play(w, t, ops).value.0)
    ensures Standby(w, world, cfg, Play(w, t, ops).value.0, c, after)
  {
    hide Runs, Agrees, Latched, Sized, Rooted, Proper, Play, ToCycles, Course;
    var u := Play(w, t, ops).value.0;
    OpsCourse(w, c, t, ops, after, ToCycles(RunTestIdle, ops).value, u);
  }

  /** A probe after the scan that closes what the last one opened. */
  lemma ProbeCourse(w: Wiring<NetState>, world: World, cfg: Config, c: Chain, t: Tap<NetState>, open: OpenMap,
                    target: Path, margin: nat) returns (u: Tap<NetState>)
    requires Network(c) && Standby(w, world, cfg, t, c, open) && Plannable(c, target)
    ensures OvershiftOps(c, target, map[], margin, None).Some?
    ensures var ops := CloseAll(c, open) + OvershiftOps(c, target, map[], margin, None).value;
            Course(w, c, t, [Planned(Test([], ops), OpenedBy(c, target))], u)
    ensures Standby(w, world, cfg, u, c, OpenedBy(c, target))
  {
    hide Network, Scans, Waits, Clean, Plannable, Play, Course, OvershiftOps, CloseAll, OpenedBy, Completed;
    CloseAllPlays(w, world, t, c, open);
    CloseScans(w, world, c, t, open);
    var mid := Play(w, t, CloseAll(c, open)).value.0;
    ProbePlays(w, world, mid, c, target, margin);
    OvershiftScans(w, world, c, mid, target, margin);
    var probe := OvershiftOps(c, target, map[], margin, None).value;
    ScansJoin(w, c, t, CloseAll(c, open), probe);
    ScansPlay(w, c, t, CloseAll(c, open) + probe);
    ScansCourse(w, world, cfg, c, t, open, CloseAll(c, open) + probe, OpenedBy(c, target));
    u := Play(w, t, CloseAll(c, open) + probe).value.0;
  }

  /** The network selected and its closed chain probed. */
  lemma ClosedCourse(w: Wiring<NetState>, world: World, cfg: Config, c: Chain, t: Tap<NetState>, margin: nat)
    returns (u: Tap<NetState>)
    requires Network(c) && Wired(w, world, cfg) && t.cfg == cfg && t.state == RunTestIdle && t.network.cells == Fresh(c)
    ensures ProbeTests(cfg, c, [], margin).Some?
    ensures Course(w, c, t, ProbeTests(cfg, c, [], margin).value, u)
    ensures Last(ProbeTests(cfg, c, [], margin).value).believed == map[] && Standby(w, world, cfg, u, c, map[])
  {
    var opcode := NetworkOpcode(cfg);
    var select, load := SelectInstruction(opcode, cfg.irWidth), IrLoad(opcode, cfg.irWidth);
    var t1 := t.(ir := FromInt(opcode, cfg.irWidth), instruction := Decode(cfg, opcode));
    assert Selected(t1) && Waits(w, world, t1);
    FreshState(c);
    EmptyIsRooted(c);
    assert Clean(w, world, t1, c, map[]);
    NothingPlanned(c);
    hide Network, Scans, Clean, Waits, Plannable, Course, OvershiftOps, OpenedBy, Completed, SelectInstruction, IrLoad,
         Decode, Wired, ToCycles, Play, Fresh, FromInt;
    assert cfg.irWidth >= 1 && 0 <= opcode < Pow2(cfg.irWidth) by { WiredFits(w, world, cfg); }
    IrLoadRuns(w, c, t, opcode);
    SelectCycles(opcode, cfg.irWidth);
    ProbePlays(w, world, t1, c, [], margin);
    OvershiftScans(w, world, c, t1, [], margin);
    assert OpenedBy(c, []) == map[] by { NothingOpened(c); }
    var probe := OvershiftOps(c, [], map[], margin, None).value;
    u := Play(w, t1, probe).value.0;
    SelectedCourse(w, c, t, select, load, t1, probe, u);
    assert Standby(w, world, cfg, u, c, map[]) by { ScansStandby(w, world, cfg, c, t1, probe, map[]); }
  }

  lemma ScansStandby(w: Wiring<NetState>, world: World, cfg: Config, c: Chain, t: Tap<NetState>, ops: seq<Op>, open: OpenMap)
    requires Waits(w, world, t) && t.cfg == cfg && Scans(w, c, t, ops) && Clean(w, world, Play(w, t, ops).value.0, c, open)
    ensures Standby(w, world, cfg, Play(w, t, ops).value.0, c, open)
  {
    hide Runs, Agrees, Latched, Sized, Rooted, Proper, Play, ToCycles;
  }

  lemma SelectedCourse(w: Wiring<NetState>, c: Chain, t: Tap<NetState>, select: seq<Op>, load: Cycles, t1: Tap<NetState>,
                       probe: seq<Op>, u: Tap<NetState>)
    requires ToCycles(RunTestIdle, select) == Some(load) && Walk(RunTestIdle, load) == RunTestIdle
    requires t.state == t1.state == RunTestIdle && Runs(w, c, t, 0, Inputs(load), t1, 0)
    requires Scans(w, c, t1, probe) && u == Play(w, t1, probe).value.0 && HasOpen(c, u, map[])
    ensures Course(w, c, t, [Planned(Test([], select + probe), map[])], u)
  {
    hide Runs, HasOpen, ToCycles, Walk, Play, Course;
    ToCyclesJoin(RunTestIdle, select, probe);
    var cycles := ToCycles(RunTestIdle, probe).value;
    InputsJoin(load, cycles);
    RunsJoin(w, c, t, 0, Inputs(load), t1, 0, Inputs(cycles), u, 0);
    OpsCourse(w, c, t, select + probe, map[], load + cycles, u);
  }

  /** All probes. */
  lemma {:induction false} ProbesCourse(w: Wiring<NetState>, world: World, cfg: Config, c: Chain, t: Tap<NetState>,
                                        targets: seq<Path>, margin: nat) returns (u: Tap<NetState>)
    requires Network(c) && Wired(w, world, cfg) && t.cfg == cfg && t.state == RunTestIdle && t.network.cells == Fresh(c)
    requires forall p: Path :: p in targets ==> Plannable(c, p)
    ensures ProbeTests(cfg, c, targets, margin).Some?
    ensures Course(w, c, t, ProbeTests(cfg, c, targets, margin).value, u)
    ensures Standby(w, world, cfg, u, c, Last(ProbeTests(cfg, c, targets, margin).value).believed)
    decreases |targets|
  {
    hide Network, Wired, Standby, Plannable, Course, OvershiftOps, CloseAll, OpenedBy, SelectInstruction, Fresh;
    if targets == [] {
      u := ClosedCourse(w, world, cfg, c, t, margin);
    } else {
      var n := |targets| - 1;
      var front := ProbesCourse(w, world, cfg, c, t, targets[..n], margin);
      var tests := ProbeTests(cfg, c, targets[..n], margin).value;
      assert targets[n] in targets;
      u := ProbeCourse(w, world, cfg, c, front, Last(tests).believed, targets[n], margin);
      var ops := CloseAll(c, Last(tests).believed) + OvershiftOps(c, targets[n], map[], margin, None).value;
      CourseJoin(w, c, t, tests, front, [Planned(Test([], ops), OpenedBy(c, targets[n]))], u);
    }
  }

  // ---------------------------------------------------------------- the network holding still

  lemma RestingOpens(cfg: Config, t: Tap<NetState>, c: Chain, open: OpenMap)
    requires Resting(cfg, t, c, open)
    ensures HasOpen(c, t, open) && t.state == RunTestIdle && t.cfg == cfg
  {
  }

  lemma BoardCourse(cfg: Config, c: Chain, world: World, t: Tap<NetState>, open: OpenMap, opcode: int, margin: nat)
    returns (u: Tap<NetState>)
    requires Usable(cfg) && OnBoard(cfg, opcode) && margin >= 1 && !c.End? && Resting(cfg, t, c, open)
    ensures Course(Rig(cfg, c, world), c, t, [Planned(RawTest(BoardScan(cfg, c, opcode, margin)), open)], u)
    ensures Resting(cfg, u, c, open)
  {
    hide Usable, OnBoard, Resting, Course, Runs, BoardScan, Rig, HasOpen;
    u := BoardRuns(cfg, c, world, t, open, opcode, margin);
    RestingOpens(cfg, u, c, open);
    RawCourse(Rig(cfg, c, world), c, t, BoardScan(cfg, c, opcode, margin), open, u);
  }

  /** The board's instructions keep what is open. */
  lemma BoardsCourse(cfg: Config, c: Chain, world: World, t: Tap<NetState>, open: OpenMap, margin: nat)
    returns (u: Tap<NetState>)
    requires Usable(cfg) && margin >= 1 && !c.End? && Resting(cfg, t, c, open)
    ensures Course(Rig(cfg, c, world), c, t, BoardTests(cfg, c, open, margin), u) && Resting(cfg, u, c, open)
  {
    hide Usable, Resting, Course, BoardScan, Rig;
    u := t;
    var tests: seq<Planned> := [];
    NoCourse(Rig(cfg, c, world), c, t);
    if cfg.accessOpcode.Some? {
      u := BoardCourse(cfg, c, world, t, open, OPCODE_EXTEST, margin);
      tests := [Planned(RawTest(BoardScan(cfg, c, OPCODE_EXTEST, margin)), open)];
    }
    var mid, sample := u, [Planned(RawTest(BoardScan(cfg, c, OPCODE_SAMPLE_PRELOAD, margin)), open)];
    u := BoardCourse(cfg, c, world, mid, open, OPCODE_SAMPLE_PRELOAD, margin);
    CourseJoin(Rig(cfg, c, world), c, t, tests, mid, sample, u);
  }

  /** From whatever the probes left open: the board's instructions keep it, and the paused scan leaves the
      network closed with every WRITE instrument at 0. */
  lemma HoldCourse(cfg: Config, c: Chain, world: World, t: Tap<NetState>, open: OpenMap, margin: nat)
    returns (u: Tap<NetState>)
    requires Network(c) && Usable(cfg) && margin >= 1 && Standby(Rig(cfg, c, world), world, cfg, t, c, open)
    ensures Course(Rig(cfg, c, world), c, t, HoldTests(cfg, c, open, margin), u)
    ensures Standby(Rig(cfg, c, world), world, cfg, u, c, map[])
  {
    var w := Rig(cfg, c, world);
    NetworkParts(c);
    StandbyOpens(w, world, cfg, t, c, open);
    RigWired(cfg, c, world);
    hide Network, Usable, Resting, Standby, Course, Runs, BoardTests, HoldScan, Rig, Rooted, Proper, Wired, Waits, HasOpen;
    var mid := BoardsCourse(cfg, c, world, t, open, margin);
    u := HoldRuns(w, world, cfg, c, mid, open);
    RestingOpens(cfg, u, c, map[]);
    RawCourse(w, c, mid, HoldScan(cfg, c, open), map[], u);
    CourseJoin(w, c, t, BoardTests(cfg, c, open, margin), mid, [Planned(RawTest(HoldScan(cfg, c, open)), map[])], u);
    RestingStandby(w, world, cfg, u, c);
  }

  lemma RigWired(cfg: Config, c: Chain, world: World)
    requires Usable(cfg)
    ensures Wired(Rig(cfg, c, world), world, cfg)
  {
    hide NetworkRegister, TailRegister;
  }

  lemma RestingStandby(w: Wiring<NetState>, world: World, cfg: Config, t: Tap<NetState>, c: Chain)
    requires Resting(cfg, t, c, map[]) && Waits(w, world, t)
    ensures Standby(w, world, cfg, t, c, map[])
  {
    EmptyIsRooted(c);
  }

  // ---------------------------------------------------------------- write and readback

  lemma {:induction false} CallsOnlyScan(items: seq<Item>)
    ensures forall k :: 0 <= k < |Calls(items)| ==> !Calls(items)[k].IRunLoop?
    decreases |items|
  {
    if items != [] {
      CallsOnlyScan(items[..|items| - 1]);
    }
  }

  lemma WritesRun(w: Wiring<NetState>, world: World, t: Tap<NetState>, c: Chain, root: ModuleInstance, writes: seq<Writable>)
    requires Network(c) && Tracks(w, world, c, NewPdl, t) && AllWritten(c, root, writes)
    ensures Run(c, root, Calls(Items(writes))).Some?
  {
    hide Network, Tracks, Run, Calls, Items, Written;
    ItemsWritten(c, root, writes);
    ReadbackRuns(w, world, t, c, root, Items(writes));
    BetweenChecks(w, world, t, c, root, Items(writes));
  }

  /** What is open between two readback tests: the interpreter's own, and what the tests before left open
      before the first. */
  ghost predicate Reading(w: Wiring<NetState>, world: World, cfg: Config, t: Tap<NetState>, c: Chain,
                          root: ModuleInstance, writes: seq<Writable>)
  {
    && Waits(w, world, t) && t.cfg == cfg && Run(c, root, Calls(Items(writes))).Some?
    && Tracks(w, world, c, Run(c, root, Calls(Items(writes))).value, t)
  }

  lemma ReadingOpens(w: Wiring<NetState>, world: World, cfg: Config, t: Tap<NetState>, c: Chain, root: ModuleInstance,
                     writes: seq<Writable>)
    requires Reading(w, world, cfg, t, c, root, writes)
    ensures t.state == RunTestIdle && HasOpen(c, t, Run(c, root, Calls(Items(writes))).value.open)
  {
  }

  /** One instrument's test, without a closing scan: its slice of the program. */
  lemma SliceScans(w: Wiring<NetState>, world: World, cfg: Config, c: Chain, t: Tap<NetState>, root: ModuleInstance,
                   writes: seq<Writable>) returns (slice: seq<Op>)
    requires Network(c) && writes != [] && AllWritten(c, root, writes)
    requires Reading(w, world, cfg, t, c, root, writes[..|writes| - 1])
    ensures Run(c, root, Calls(Items(writes))).Some?
    ensures var p := Run(c, root, Calls(Items(writes[..|writes| - 1]))).value;
            var q := Run(c, root, Calls(Items(writes))).value;
            q.program == p.program + slice && From(q.program, |p.program|) == slice
    ensures Scans(w, c, t, slice) && Play(w, t, slice).Some?
    ensures Reading(w, world, cfg, Play(w, t, slice).value.0, c, root, writes)
  {
    hide Network, Scans, Waits, Tracks, Run, Play, Calls, ItemsOf, Written, ToCycles;
    var front, added := writes[..|writes| - 1], ItemsOf(writes[|writes| - 1]);
    CallsJoin(Items(front), added);
    CallsOnlyScan(added);
    assert Run(c, root, Calls(Items(writes))).Some? by { SomewhereRuns(c, root, writes); }
    slice := MoreScans(w, world, c, t, root, Calls(Items(front)), Calls(added));
    ScansPlay(w, c, t, slice);
    assert Play(w, t, slice).value.0.cfg == cfg by { ScansKeeps(w, c, t, slice); }
  }

  lemma ScansKeeps(w: Wiring<NetState>, c: Chain, t: Tap<NetState>, ops: seq<Op>)
    requires Scans(w, c, t, ops)
    ensures Play(w, t, ops).value.0.cfg == t.cfg
  {
  }

  /** Whether the commands succeed does not depend on a TAP. */
  lemma SomewhereRuns(c: Chain, root: ModuleInstance, writes: seq<Writable>)
    requires Network(c) && AllWritten(c, root, writes)
    ensures Run(c, root, Calls(Items(writes))).Some?
  {
    var world: World := (n: nat) => (inst: Instrument) => inst.captureValue;
    var cfg := Config(2, false, 0, None);
    var w := Rig(cfg, c, world);
    var t := ResetTap(cfg, NetState(Fresh(c), 0)).(instruction := EXTEST, state := RunTestIdle);
    hide Network, Run, Calls, Items, AllWritten, NetworkRegister, TailRegister, Fresh;
    ResetStarts(w, world, t, c);
    WritesRun(w, world, t, c, root, writes);
  }

  /** The readback tests, from what the tests before left open. */
  lemma {:induction false} ReadbackCourse(w: Wiring<NetState>, world: World, cfg: Config, c: Chain, t: Tap<NetState>,
                                          root: ModuleInstance, writes: seq<Writable>, open: OpenMap)
    returns (u: Tap<NetState>)
    requires Network(c) && Standby(w, world, cfg, t, c, open) && AllWritten(c, root, writes)
    ensures ReadbackTests(c, root, writes, open).Some?
    ensures Course(w, c, t, ReadbackTests(c, root, writes, open).value, u)
    ensures if writes == [] then u == t else Reading(w, world, cfg, u, c, root, writes)
    decreases |writes|
  {
    hide Network, Standby, Course, Scans, Run, Calls, Items, CloseAll, Written, Play, ToCycles, Reading, HasOpen, Runs;
    if writes == [] {
      u := t;
      NoCourse(w, c, t);
    } else {
      var front := writes[..|writes| - 1];
      var mid := ReadbackCourse(w, world, cfg, c, t, root, front, open);
      SomewhereRuns(c, root, front);
      SomewhereRuns(c, root, writes);
      var p, q := Run(c, root, Calls(Items(front))).value, Run(c, root, Calls(Items(writes))).value;
      var ops := (if front == [] then CloseAll(c, open) else []) + From(q.program, |p.program|);
      u := TestScans(w, world, cfg, c, mid, root, writes, open, ops);
      CourseJoin(w, c, t, ReadbackTests(c, root, front, open).value, mid, [Planned(Test([], ops), q.open)], u);
    }
  }

  lemma TestScans(w: Wiring<NetState>, world: World, cfg: Config, c: Chain, t: Tap<NetState>, root: ModuleInstance,
                  writes: seq<Writable>, open: OpenMap, ops: seq<Op>) returns (u: Tap<NetState>)
    requires Network(c) && writes != [] && AllWritten(c, root, writes)
    requires Run(c, root, Calls(Items(writes[..|writes| - 1]))).Some? && Run(c, root, Calls(Items(writes))).Some?
    requires if |writes| == 1 then Standby(w, world, cfg, t, c, open)
             else Reading(w, world, cfg, t, c, root, writes[..|writes| - 1])
    requires var p := Run(c, root, Calls(Items(writes[..|writes| - 1]))).value;
             ops == (if |writes| == 1 then CloseAll(c, open) else [])
                    + From(Run(c, root, Calls(Items(writes))).value.program, |p.program|)
    ensures Course(w, c, t, [Planned(Test([], ops), Run(c, root, Calls(Items(writes))).value.open)], u)
    ensures Reading(w, world, cfg, u, c, root, writes)
  {
    hide Network, Clean, Waits, Tracks, Course, Scans, Run, Calls, Items, CloseAll, Written, Play, ToCycles, HasOpen, Runs,
         Reading, From;
    var front := writes[..|writes| - 1];
    var closing, mid := [], t;
    NothingScans(w, c, t);
    if |writes| == 1 {
      closing := CloseAll(c, open);
      CloseAllPlays(w, world, t, c, open);
      CloseScans(w, world, c, t, open);
      mid := Play(w, t, closing).value.0;
      ScansKeeps(w, c, t, closing);
      StartsReading(w, world, cfg, mid, c, root, front);
    }
    var slice := SliceScans(w, world, cfg, c, mid, root, writes);
    ScansJoin(w, c, t, closing, slice);
    u := Play(w, mid, slice).value.0;
    ReadingOpens(w, world, cfg, u, c, root, writes);
    assert t.state == RunTestIdle by { IdleNow(w, world, cfg, t, c, open, root, writes); }
    ScansOps(w, c, t, ops, u, Run(c, root, Calls(Items(writes))).value.open);
  }

  lemma IdleNow(w: Wiring<NetState>, world: World, cfg: Config, t: Tap<NetState>, c: Chain, open: OpenMap,
                root: ModuleInstance, writes: seq<Writable>)
    requires writes != []
    requires if |writes| == 1 then Standby(w, world, cfg, t, c, open)
             else Reading(w, world, cfg, t, c, root, writes[..|writes| - 1])
    ensures t.state == RunTestIdle
  {
  }

  lemma ScansOps(w: Wiring<NetState>, c: Chain, t: Tap<NetState>, ops: seq<Op>, u: Tap<NetState>, open: OpenMap)
    requires t.state == RunTestIdle && Scans(w, c, t, ops) && u == Play(w, t, ops).value.0
    requires u.state == RunTestIdle && HasOpen(c, u, open)
    ensures Course(w, c, t, [Planned(Test([], ops), open)], u)
  {
    hide Runs, HasOpen, Play, ToCycles, Course;
    OpsCourse(w, c, t, ops, open, ToCycles(RunTestIdle, ops).value, u);
  }

  lemma StartsReading(w: Wiring<NetState>, world: World, cfg: Config, t: Tap<NetState>, c: Chain, root: ModuleInstance,
                      writes: seq<Writable>)
    requires Waits(w, world, t) && Clean(w, world, t, c, map[]) && t.cfg == cfg && writes == []
    ensures Reading(w, world, cfg, t, c, root, writes)
  {
    CleanStarts(w, world, t, c);
    assert Run(c, root, Calls(Items([]))) == Some(NewPdl);
  }
}
