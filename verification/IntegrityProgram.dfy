/** build_integrity_program as a whole (tap_integrity.py): exactly when it builds a program, and that a
    conforming network passes it. */
module IntegrityProgram {
  import opened Wrappers
  import opened Bits
  import opened IclModel
  import opened SibLayout
  import opened SibCells
  import opened SibRound
  import opened SibRetarget
  import opened SibStaging
  import opened PathPlan
  import opened TapFsm
  import opened TapIr
  import opened TapModel
  import opened TapPlay
  import opened TapSelect
  import opened TapCycles
  import opened PdlSpec
  import opened Retargeting
  import opened RetargetingRuns
  import opened OverShift
  import opened Integrity
  import opened SelfCheckCycles
  import opened IntegrityProbes
  import opened ReadProbes
  import opened WriteReadback
  import opened WriteTargets
  import opened TestRuns
  import opened NetworkScans
  import opened IntegrityTests
  import opened QuietTests
  import opened NetworkHold
  import opened TestBoundaries
  import opened ReadChecks
  import opened ProgramBoundaries
  import opened CareBits
  import opened ProgramCycles
  import opened ProgramChecks

  // ---------------------------------------------------------------- when there are tests

  /** The interpreter accepted every address. */
  lemma {:induction false} ReadbackResolves(c: Chain, root: ModuleInstance, writes: seq<Writable>, open: OpenMap, j: nat)
    requires ReadbackTests(c, root, writes, open).Some? && j < |writes|
    ensures Resolve(root, writes[j].address).Some?
    decreases |writes|
  {
    hide Run, Calls, Items, Resolve, CloseAll;
    var front := writes[..|writes| - 1];
    if j < |front| {
      ReadbackResolves(c, root, front, open, j);
    } else {
      FirstCall(c, root, writes);
    }
  }

  /** The first command for the last instrument is the one that addresses it. */
  lemma FirstCall(c: Chain, root: ModuleInstance, writes: seq<Writable>)
    requires writes != [] && Run(c, root, Calls(Items(writes))).Some?
    ensures Resolve(root, writes[|writes| - 1].address).Some?
  {
    hide Run, Resolve, Calls, ItemsOf;
    var last := writes[|writes| - 1];
    var before, items, first := Calls(Items(writes[..|writes| - 1])), ItemsOf(last), Call.ITarget(last.address);
    CallsJoin(Items(writes[..|writes| - 1]), items);
    ThreeValues(last);
    CallsJoin([items[0]], items[1..]);
    assert items == [items[0]] + items[1..];
    OneItem(items[0]);
    PrefixOf(before, Calls([items[0]]), Calls(items[1..]), first);
    RunGrows(c, root, Calls(Items(writes)), |before| + 1);
    TargetRan(c, root, before, last.address);
  }

  lemma PrefixOf(before: seq<Call>, a: seq<Call>, b: seq<Call>, first: Call)
    requires a != [] && a[0] == first
    ensures |before| + 1 <= |before + (a + b)| && (before + (a + b))[..|before| + 1] == before + [first]
  {
  }

  lemma TargetRan(c: Chain, root: ModuleInstance, before: seq<Call>, address: seq<string>)
    requires Run(c, root, before + [Call.ITarget(address)]).Some?
    ensures Resolve(root, address).Some?
  {
    hide Resolve;
    assert (before + [Call.ITarget(address)])[..|before|] == before;
  }

  lemma ThreeValues(w: Writable)
    ensures |ItemsOf(w)| == 3 && ItemsOf(w)[0].address == w.address
  {
    hide Alternating, XorInt, Pow2;
  }

  lemma OneItem(item: Item)
    ensures Calls([item]) != [] && Calls([item])[0] == Call.ITarget(item.address)
  {
    assert [item][..0] == [];
  }

  /** _integrity_tests gives a list of tests exactly when the margin is positive and every WRITE instrument that
      is to be written has one address that leads to it. */
  lemma TestsBuilt(cfg: Config, c: Chain, root: ModuleInstance, margin: int, options: Options)
    requires Usable(cfg) && (c.End? || Network(c))
    ensures AllTests(cfg, c, root, margin, options).Some? <==> margin >= 1 && CanRead(c, root, options)
  {
    hide Usable, Network, FirstTests, Tracked, Writes, ReadbackTests, Resolve, Addressable;
    if margin >= 1 && CanRead(c, root, options) {
      var world: World := (n: nat) => (inst: Instrument) => inst.captureValue;
      BoundariesTracked(cfg, c, root, world, ResetTap(cfg, NetState(Fresh(c), 0)), margin, options);
    } else if AllTests(cfg, c, root, margin, options).Some? {
      var open := Last(FirstTests(cfg, c, margin, options).value).believed;
      var writes := Writes(c, root).value;
      forall j | 0 <= j < |writes| ensures Resolve(root, writes[j].address).Some? {
        ReadbackResolves(c, root, writes, open, j);
      }
      WritesAreWritten(c, root);
    }
  }

  // ---------------------------------------------------------------- when the program is built

  /** build_integrity_program: None where the source raises. */
  ghost function BuildProgram(cfg: Config, c: Chain, root: ModuleInstance, live: set<string>, values: map<string, int>,
                              margin: int, options: Options): Option<seq<TckCycle>>
  {
    match AllTests(cfg, c, root, margin, options)
    case None => None
    case Some(tests) =>
      var start := ResetTap(cfg, NetState(Fresh(c), 0));
      TestCycles(Rig(cfg, c, ModelWorld(live, values, false)), Rig(cfg, c, ModelWorld(live, values, true)), c,
                 start, start, tests)
  }

  /** Every WRITE instrument that is to be read back is readable: outside every ScanMux arm's SIBs, or without
      a bit to read. */
  ghost predicate CanTell(c: Chain, options: Options) {
    c.End? || !options.writeReadback
    || forall l :: l in Leaves(c, []) && l.inst.direction.WRITE? ==> Readable(c, l)
  }

  lemma WritesReadable(c: Chain, root: ModuleInstance)
    requires Writes(c, root).Some?
    ensures AllReadable(c, Writes(c, root).value)
            <==> forall l :: l in Leaves(c, []) && l.inst.direction.WRITE? ==> Readable(c, l)
  {
    hide Leaves, Writes, Readable;
    var writes := Writes(c, root).value;
    forall l: LeafSite
      ensures l in Leaves(c, []) && l.inst.direction.WRITE? <==> exists j :: 0 <= j < |writes| && writes[j].leaf == l
    {
      WrittenAre(c, root, l);
    }
    forall j | 0 <= j < |writes|
      ensures writes[j].leaf in Leaves(c, []) && writes[j].leaf.inst.direction.WRITE?
    {
      var l := writes[j].leaf;
      assert exists k :: 0 <= k < |writes| && writes[k].leaf == l;
    }
  }

  /** The checks of all tests hold exactly when everything that is read back is readable. */
  lemma ChecksDecide(cfg: Config, c: Chain, root: ModuleInstance, low: World, high: World, l: Tap<NetState>,
                     h: Tap<NetState>, margin: nat, options: Options)
    requires Usable(cfg) && margin >= 1 && (c.End? || Network(c)) && CanRead(c, root, options) && Steady(low)
    requires l.cfg == h.cfg == cfg
    ensures AllTests(cfg, c, root, margin, options).Some?
    ensures ChecksHold(Rig(cfg, c, low), Rig(cfg, c, high), c, l, h, AllTests(cfg, c, root, margin, options).value)
            <==> CanTell(c, options)
  {
    var (wl, wh) := (Rig(cfg, c, low), Rig(cfg, c, high));
    hide Usable, Network, Course, Standby, Rig, HasOpen, FirstTests, LastTests, CanRead, CanTell, ChecksHold, ResetTest,
         Steady, NoneRead;
    var ml := FirstCourse(cfg, c, low, l, margin, options);
    var mh := FirstCourse(cfg, c, high, h, margin, options);
    var first := FirstTests(cfg, c, margin, options).value;
    var open := Last(first).believed;
    var ul := LastCourse(cfg, c, root, low, ml, options, open);
    var uh := LastCourse(cfg, c, root, high, mh, options, open);
    var last := LastTests(c, root, options, open).value;
    LastOfTwo(first, last);
    var reset := [Planned(ResetTest(cfg, margin), Last(first + last).believed)];
    var el := ResetCourse(wl, cfg, c, ul, margin, reset[0].believed);
    var eh := ResetCourse(wh, cfg, c, uh, margin, reset[0].believed);
    FirstReadNothing(cfg, c, margin, options);
    CoursesHold(wl, wh, c, l, h, first, ml, mh);
    OneReadsNothing(ResetTest(cfg, margin), reset[0].believed) by { ResetReadsNothing(cfg, margin); }
    CoursesHold(wl, wh, c, ul, uh, reset, el, eh);
    LastDecides(cfg, c, root, low, high, ml, mh, ul, uh, options, open);
    CoursesJoin(wl, wh, c, l, h, first, ml, mh, last);
    CourseJoin(wl, c, l, first, ml, last, ul);
    CourseJoin(wh, c, h, first, mh, last, uh);
    CoursesJoin(wl, wh, c, l, h, first + last, ul, uh, reset);
  }

  lemma ResetReadsNothing(cfg: Config, margin: nat)
    requires margin >= 1
    ensures NoReads(ResetTest(cfg, margin).ops)
  {
  }

  lemma CoursesHold(wl: Wiring<NetState>, wh: Wiring<NetState>, c: Chain, l: Tap<NetState>, h: Tap<NetState>,
                    tests: seq<Planned>, el: Tap<NetState>, eh: Tap<NetState>)
    requires Course(wl, c, l, tests, el) && Course(wh, c, h, tests, eh) && NoneRead(tests)
    ensures ChecksHold(wl, wh, c, l, h, tests)
  {
    hide Tracked, EndOf, NoReads;
    NoReadsChecks(wl, wh, c, l, h, tests);
  }

  lemma CoursesJoin(wl: Wiring<NetState>, wh: Wiring<NetState>, c: Chain, l: Tap<NetState>, h: Tap<NetState>,
                    a: seq<Planned>, ml: Tap<NetState>, mh: Tap<NetState>, b: seq<Planned>)
    requires Course(wl, c, l, a, ml) && Course(wh, c, h, a, mh)
    ensures ChecksHold(wl, wh, c, l, h, a + b) <==> ChecksHold(wl, wh, c, l, h, a) && ChecksHold(wl, wh, c, ml, mh, b)
  {
    hide Tracked, EndOf, ChecksHold;
    ChecksJoin(wl, wh, c, l, h, a, b);
  }

  lemma LastDecides(cfg: Config, c: Chain, root: ModuleInstance, low: World, high: World, l: Tap<NetState>,
                    h: Tap<NetState>, ul: Tap<NetState>, uh: Tap<NetState>, options: Options, open: OpenMap)
    requires var (wl, wh) := (Rig(cfg, c, low), Rig(cfg, c, high));
             && (c.End? || Network(c)) && CanRead(c, root, options) && Steady(low)
             && LastTests(c, root, options, open).Some?
             && Course(wl, c, l, LastTests(c, root, options, open).value, ul)
             && Course(wh, c, h, LastTests(c, root, options, open).value, uh)
             && (!c.End? ==> Standby(wl, low, cfg, l, c, open) && Standby(wh, high, cfg, h, c, open))
    ensures ChecksHold(Rig(cfg, c, low), Rig(cfg, c, high), c, l, h, LastTests(c, root, options, open).value)
            <==> CanTell(c, options)
  {
    hide Network, Standby, Rig, Writes, ReadbackTests, Tracked, EndOf, Addressable, AllWritten, AllReadable, Steady, Readable,
         Leaves;
    if !c.End? && options.writeReadback {
      WritesAreWritten(c, root);
      var writes := Writes(c, root).value;
      WritesReadable(c, root);
      ReadbackDecides(cfg, c, root, low, high, l, h, writes, open);
    }
  }

  lemma ModelsSteady(live: set<string>, values: map<string, int>, high: bool)
    ensures Steady(ModelWorld(live, values, high))
  {
  }

  /** A program is built exactly when the margin is positive, every WRITE instrument that is to be written has
      one address that leads to it, and each of them is readable. */
  lemma ProgramBuilt(cfg: Config, c: Chain, root: ModuleInstance, live: set<string>, values: map<string, int>,
                     margin: int, options: Options)
    requires Usable(cfg) && (c.End? || Network(c))
    ensures BuildProgram(cfg, c, root, live, values, margin, options).Some?
            <==> margin >= 1 && CanRead(c, root, options) && CanTell(c, options)
  {
    hide Usable, Network, AllTests, CanRead, CanTell, ChecksHold, TestCycles, Tracked, Steady, Rig, Expected;
    TestsBuilt(cfg, c, root, margin, options);
    if AllTests(cfg, c, root, margin, options).Some? {
      var (low, high) := (ModelWorld(live, values, false), ModelWorld(live, values, true));
      var start := ResetTap(cfg, NetState(Fresh(c), 0));
      ModelsSteady(live, values, false);
      ChecksDecide(cfg, c, root, low, high, start, start, margin, options);
      BuiltCycles(cfg, c, root, live, values, margin, options);
    }
  }

  /** The cycles are those of the whole run. */
  lemma BuiltCycles(cfg: Config, c: Chain, root: ModuleInstance, live: set<string>, values: map<string, int>,
                    margin: nat, options: Options)
    requires Usable(cfg) && (c.End? || Network(c)) && margin >= 1 && CanRead(c, root, options)
    ensures AllTests(cfg, c, root, margin, options).Some?
    ensures var tests := AllTests(cfg, c, root, margin, options).value;
            var start := ResetTap(cfg, NetState(Fresh(c), 0));
            && Program(cfg, c, live, values, Frames(tests)).Some?
            && BuildProgram(cfg, c, root, live, values, margin, options)
               == if ChecksHold(Rig(cfg, c, ModelWorld(live, values, false)), Rig(cfg, c, ModelWorld(live, values, true)), c,
                                start, start, tests)
                  then Program(cfg, c, live, values, Frames(tests)) else None
  {
    hide Usable, Network, AllTests, CanRead, ChecksHold, TestCycles, Tracked, Rig, Expected, Frames;
    var start := ResetTap(cfg, NetState(Fresh(c), 0));
    BoundariesTracked(cfg, c, root, ModelWorld(live, values, false), start, margin, options);
    BoundariesTracked(cfg, c, root, ModelWorld(live, values, true), start, margin, options);
    CyclesAreFrames(Rig(cfg, c, ModelWorld(live, values, false)), Rig(cfg, c, ModelWorld(live, values, true)), c,
                    start, start, AllTests(cfg, c, root, margin, options).value);
  }

  // ---------------------------------------------------------------- what the program passes

  lemma {:induction false} TrackedRuns(w: Wiring<NetState>, c: Chain, t: Tap<NetState>, tests: seq<Planned>)
    requires Tracked(w, c, t, tests)
    ensures Runs(w, c, t, 0, Frames(tests), EndOf(w, c, t, tests), 0)
    decreases |tests|
  {
    hide HasOpen, Runs, CyclesOf, After, Led, ToCycles;
    if tests == [] {
      NothingRuns(w, c, t);
    } else {
      var test, rest := tests[0].test, tests[1..];
      var (mid, u) := (Led(w, c, t, test), After(w, c, t, test));
      TrackedRuns(w, c, u, rest);
      RunsJoin(w, c, t, 0, test.leadIn, mid, 0, Inputs(CyclesOf(test)), u, 0);
      RunsJoin(w, c, t, 0, test.leadIn + Inputs(CyclesOf(test)), u, 0, Frames(rest), EndOf(w, c, t, tests), 0);
    }
  }

  lemma RunsLong(w: Wiring<NetState>, c: Chain, t: Tap<NetState>, ins: seq<TckInput>, u: Tap<NetState>)
    requires Runs(w, c, t, 0, ins, u, 0)
    ensures ScansAreLong(w, c, t, ins, 0)
  {
  }

  /** No false failure: a network that shows what the program was told of it, and anything at all where it was
      told nothing, passes every program that is built for it. */
  lemma BuiltProgramPasses(cfg: Config, c: Chain, root: ModuleInstance, live: set<string>, values: map<string, int>,
                           margin: int, options: Options, world: World)
    requires Usable(cfg) && (c.End? || Network(c)) && Conforms(world, live, values)
    requires BuildProgram(cfg, c, root, live, values, margin, options).Some?
    ensures AllTests(cfg, c, root, margin, options).Some?
    ensures var cycles := BuildProgram(cfg, c, root, live, values, margin, options).value;
            var ins := Frames(AllTests(cfg, c, root, margin, options).value);
            var run := DriveAll(Rig(cfg, c, world), c, ResetTap(cfg, NetState(Fresh(c), 0)), ins);
            && run.Some? && |cycles| == |ins|
            && Passes(cycles, seq(|ins|, k requires 0 <= k < |ins| => Level(run.value.1[k])))
  {
    var start, w := ResetTap(cfg, NetState(Fresh(c), 0)), Rig(cfg, c, ModelWorld(live, values, false));
    assert GoodShape(c) && Structured(c) by { ShapeOf(c); }
    hide Usable, Network, AllTests, CanRead, CanTell, ChecksHold, TestCycles, Tracked, Rig, Expected, Frames, Conforms, Passes,
         DriveAll, Structured, GoodShape, BuildProgram, Program, Runs, ScansAreLong, Fresh;
    ProgramBuilt(cfg, c, root, live, values, margin, options);
    BuiltCycles(cfg, c, root, live, values, margin, options);
    var tests := AllTests(cfg, c, root, margin, options).value;
    BoundariesTracked(cfg, c, root, ModelWorld(live, values, false), start, margin, options);
    TrackedRuns(w, c, start, tests);
    RunsLong(w, c, start, Frames(tests), EndOf(w, c, start, tests));
    LongProgramSelectsHold(cfg, c, live, values, Frames(tests));
    ConformingNetworkPasses(cfg, c, live, values, Frames(tests), world);
    ProgramLength(cfg, c, live, values, Frames(tests));
  }

  lemma ShapeOf(c: Chain)
    requires c.End? || Network(c)
    ensures GoodShape(c) && Structured(c)
  {
  }

  lemma ProgramLength(cfg: Config, c: Chain, live: set<string>, values: map<string, int>, ins: seq<TckInput>)
    requires Program(cfg, c, live, values, ins).Some?
    ensures |Program(cfg, c, live, values, ins).value| == |ins|
  {
  }

  // ---------------------------------------------------------------- what shift_op_ranges can follow

  /** shift_op_ranges reports every shift of every built test where it is. */
  lemma TestsPlain(cfg: Config, c: Chain, root: ModuleInstance, margin: int, options: Options)
    requires Usable(cfg) && (c.End? || Network(c)) && AllTests(cfg, c, root, margin, options).Some?
    ensures forall test :: test in AllTests(cfg, c, root, margin, options).value ==> Plain(test.test.ops)
  {
    hide Usable, Network, FirstTests, Plain, Writes, ReadbackTests, ResetTest;
    var first := FirstTests(cfg, c, margin, options).value;
    FirstReadNothing(cfg, c, margin, options);
    ResetReadsNothing(cfg, margin);
    if !c.End? && options.writeReadback {
      ReadbackPlain(c, root, Writes(c, root).value, Last(first).believed);
    }
  }
}
