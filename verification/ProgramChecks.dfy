/** The integrity program's own check of its reads (tap_integrity.py), test by test: it holds exactly when
    every instrument written is readable. */
module ProgramChecks {
  import opened Wrappers
  import opened Bits
  import opened IclModel
  import opened SibLayout
  import opened SibCells
  import opened SibRound
  import opened SibRetarget
  import opened SibStaging
  import opened PathPlan
  import opened TapFsm
  import opened TapIr
  import opened TapModel
  import opened TapPlay
  import opened TapSelect
  import opened TapCycles
  import opened PdlSpec
  import opened Retargeting
  import opened RetargetingRuns
  import opened OverShift
  import opened Integrity
  import opened SelfCheckCycles
  import opened IntegrityProbes
  import opened ReadProbes
  import opened WriteReadback
  import opened WriteTargets
  import opened TestRuns
  import opened NetworkScans
  import opened IntegrityTests
  import opened QuietTests
  import opened NetworkHold
  import opened TestBoundaries
  import opened ReadChecks
  import opened ProgramBoundaries
  import opened ProgramCycles

  // ---------------------------------------------------------------- tests that read nothing

  lemma {:induction false} RoundsReadNothing(c: Chain, prior: OpenMap, rounds: seq<OpenMap>)
    requires Network(c)
    ensures NoReads(RoundOps(c, prior, rounds))
    decreases |rounds|
  {
    hide Network, Length, Compose;
    if rounds != [] {
      PositiveLength(c, prior);
      RoundsReadNothing(c, rounds[0], rounds[1..]);
    }
  }

  lemma ProbeReadsNothing(c: Chain, target: Path, margin: nat)
    requires Network(c) && OvershiftOps(c, target, map[], margin, None).Some?
    ensures NoReads(OvershiftOps(c, target, map[], margin, None).value)
  {
    hide Network, Stage, RoundOps, LastOf, Compose, Length;
    var rounds := Stage(c, target, map[]).value;
    RoundsReadNothing(c, map[], rounds);
    PositiveLength(c, LastOf(map[], rounds));
    ComposeLength(c, LastOf(map[], rounds), LastOf(map[], rounds), None, 0);
  }

  ghost predicate NoneRead(tests: seq<Planned>) {
    forall k :: 0 <= k < |tests| ==> NoReads(tests[k].test.ops)
  }

  lemma NoneReadJoin(a: seq<Planned>, b: seq<Planned>)
    requires NoneRead(a) && NoneRead(b)
    ensures NoneRead(a + b)
  {
    hide NoReads;
  }

  lemma OneReadsNothing(test: Test, believed: OpenMap)
    requires NoReads(test.ops)
    ensures NoneRead([Planned(test, believed)])
  {
    hide NoReads;
  }

  lemma {:induction false} ProbesReadNothing(cfg: Config, c: Chain, targets: seq<Path>, margin: nat)
    requires Network(c) && cfg.irWidth >= 1 && ProbeTests(cfg, c, targets, margin).Some?
    ensures NoneRead(ProbeTests(cfg, c, targets, margin).value)
    decreases |targets|
  {
    hide Network, OvershiftOps, Stage, OpenedBy, CloseAll;
    if targets == [] {
      ProbeReadsNothing(c, [], margin);
    } else {
      CloseIsBlock(c, Last(ProbeTests(cfg, c, targets[..|targets| - 1], margin).value).believed);
      ProbesReadNothing(cfg, c, targets[..|targets| - 1], margin);
      ProbeReadsNothing(c, targets[|targets| - 1], margin);
    }
  }

  ghost predicate NothingRead(tests: seq<Test>) {
    forall k :: 0 <= k < |tests| ==> NoReads(tests[k].ops)
  }

  lemma NothingReadJoin(a: seq<Test>, b: seq<Test>)
    requires NothingRead(a) && NothingRead(b)
    ensures NothingRead(a + b)
  {
    hide NoReads;
  }

  lemma {:induction false} OpcodesReadNothing(cfg: Config, count: nat, margin: nat)
    requires cfg.irWidth >= 1
    ensures NothingRead(OpcodeTests(cfg, count, margin))
  {
    if count > 0 {
      OpcodesReadNothing(cfg, count - 1, margin);
    }
  }

  lemma WaysReadNothing(cfg: Config, fed: Bits, margin: nat)
    requires |fed| >= 2 && margin >= 1
    ensures NothingRead(PathTests(cfg, fed, margin))
  {
    hide DrPaths, IrPaths, IrLoad, DrCycles, Inputs;
  }

  lemma HeldReadNothing(cfg: Config, fed: Bits, margin: nat)
    ensures NothingRead(HeldTests(cfg, fed, margin))
  {
    hide IrHold, IrLoad, PausedCycles, FromInt, Alternating, Not, Inputs;
  }

  lemma CapturedReadNothing(cfg: Config, fed: Bits, margin: nat)
    ensures NothingRead(CapturedTests(cfg, fed, margin))
  {
    hide IrLoad, DrCycles, FromInt, Sentinel, Not, Inputs;
  }

  lemma PathsReadNothing(cfg: Config, margin: nat)
    requires margin >= 1
    ensures NothingRead(TapPathTests(cfg, margin))
  {
    var fed := Sentinel(ResetBits(cfg) + margin);
    assert |fed| >= 2;
    var a, b, d := PathTests(cfg, fed, margin), HeldTests(cfg, fed, margin), CapturedTests(cfg, fed, margin);
    assert TapPathTests(cfg, margin) == a + b + d;
    hide *;
    WaysReadNothing(cfg, fed, margin);
    HeldReadNothing(cfg, fed, margin);
    CapturedReadNothing(cfg, fed, margin);
    NothingReadJoin(a, b);
    NothingReadJoin(a + b, d);
  }

  lemma TapReadsNothing(cfg: Config, margin: nat, options: Options)
    requires margin >= 1 && cfg.irWidth >= 1
    ensures NothingRead([TrstTest(cfg, margin)] + TapTests(cfg, margin, options))
  {
    var first := [Test([], IrScan(cfg, margin)), Test([], SentinelScan(1, margin))];
    var codes := if options.exhaustiveOpcodes then OpcodeTests(cfg, Pow2(cfg.irWidth), margin) else [];
    var idcode := if cfg.hasIdcode then
      [Test([], SelectInstruction(OPCODE_IDCODE, cfg.irWidth) + SentinelScan(32, margin))] else [];
    var paths := if options.tapPaths then TapPathTests(cfg, margin) else [];
    assert NothingRead([TrstTest(cfg, margin)]) && NothingRead(first) && NothingRead(idcode);
    assert TapTests(cfg, margin, options) == first + codes + idcode + paths;
    hide NothingRead, OpcodeTests, TapPathTests, TapTests, SelectInstruction, SentinelScan, IrScan, TrstTest;
    OpcodesReadNothing(cfg, Pow2(cfg.irWidth), margin);
    PathsReadNothing(cfg, margin);
    assert NothingRead([]) by { NoneToRead(); }
    NothingReadJoin(first, codes);
    NothingReadJoin(first + codes, idcode);
    NothingReadJoin(first + codes + idcode, paths);
    NothingReadJoin([TrstTest(cfg, margin)], TapTests(cfg, margin, options));
  }

  lemma NoneToRead()
    ensures NothingRead([])
  {
  }

  lemma ClosedReadsNothing(tests: seq<Test>)
    requires NothingRead(tests)
    ensures NoneRead(Closed(tests))
  {
    hide NoReads;
  }

  /** No test before the first readback reads anything. */
  lemma FirstReadNothing(cfg: Config, c: Chain, margin: nat, options: Options)
    requires Usable(cfg) && margin >= 1 && (c.End? || Network(c)) && FirstTests(cfg, c, margin, options).Some?
    ensures NoneRead(FirstTests(cfg, c, margin, options).value)
  {
    var tap := [TrstTest(cfg, margin)] + TapTests(cfg, margin, options);
    hide Network, NoneRead, NothingRead, TapTests, TrstTest, ProbeTests, HoldTests, Targets, Closed;
    TapReadsNothing(cfg, margin, options);
    ClosedReadsNothing(tap);
    if !c.End? {
      ProbesReadNothing(cfg, c, Targets(c), margin);
      var probes := ProbeTests(cfg, c, Targets(c), margin).value;
      var hold := if options.networkHold then HoldTests(cfg, c, Last(probes).believed, margin) else [];
      assert NoneRead(hold) by { HoldReadsNothing(cfg, c, Last(probes).believed, margin); }
      NoneReadJoin(probes, hold);
      NoneReadJoin(Closed(tap), probes + hold);
    }
  }

  lemma HoldReadsNothing(cfg: Config, c: Chain, open: OpenMap, margin: nat)
    ensures NoneRead(HoldTests(cfg, c, open, margin)) && NoneRead([])
  {
    hide BoardScan, HoldScan, Inputs;
  }

  // ---------------------------------------------------------------- the readback tests' operations

  /** Without iRunLoop the program is TAP operations alone. */
  lemma {:induction false} OnlyTapOps(c: Chain, root: ModuleInstance, calls: seq<Call>)
    requires Run(c, root, calls).Some? && forall k :: 0 <= k < |calls| ==> !calls[k].IRunLoop?
    ensures TapOps(Run(c, root, calls).value.program) == Run(c, root, calls).value.program
    decreases |calls|
  {
    hide Do, TapOps;
    if calls == [] {
      ScansAreTapOps([]);
    } else {
      var init, call := calls[..|calls| - 1], calls[|calls| - 1];
      OnlyTapOps(c, root, init);
      var p := Run(c, root, init).value;
      if call.IApply? {
        AppliedTapOps(c, root, p);
      } else {
        QueuedKeeps(c, root, p, call);
      }
    }
  }

  lemma AppliedTapOps(c: Chain, root: ModuleInstance, p: Pdl)
    requires Do(c, root, p, Call.IApply).Some? && TapOps(p.program) == p.program
    ensures TapOps(Do(c, root, p, Call.IApply).value.program) == Do(c, root, p, Call.IApply).value.program
  {
    hide Stage, RoundOps, OpenPath, Length, Compose, TapOps, Expectation;
    var a := Apply(c, p).value;
    var rounds := Stage(c, OpenPath(c, p.scope.value, []).value, p.open).value;
    AppliedProgram(c, p);
    RoundOpsAreScans(c, p.open, rounds);
    TapOpsJoin(p.program, a.ops);
    ScansAreTapOps(a.ops);
  }

  /** What is left of a block after a block. */
  lemma {:induction false} FedSuffix(s: TapState, a: seq<Op>, b: seq<Op>)
    requires WellFed(s, a + b) && ToCycles(s, a + b).Some?
    ensures ToCycles(s, a).Some?
    ensures var u := Walk(s, ToCycles(s, a).value); WellFed(u, b) && ToCycles(u, b).Some?
    decreases |a|
  {
    hide OpCycles, Walk;
    if a == [] {
      assert a + b == b;
      WalkNothing(s);
    } else {
      assert (a + b)[0] == a[0] && (a + b)[1..] == a[1..] + b;
      var x := OpCycles(s, a[0]).value;
      FedSuffix(Walk(s, x), a[1..], b);
      WalkJoin(s, x, ToCycles(Walk(s, x), a[1..]).value);
    }
  }

  lemma BlockSuffix(a: seq<Op>, b: seq<Op>)
    requires Block(a) && Block(a + b)
    ensures Block(b)
  {
    hide WellFed, Walk, ToCycles;
    FedSuffix(RunTestIdle, a, b);
    ToCyclesJoin(RunTestIdle, a, b);
    WalkJoin(RunTestIdle, ToCycles(RunTestIdle, a).value, ToCycles(RunTestIdle, b).value);
    MaskedSuffix(a, b);
  }

  lemma MaskedSuffix(a: seq<Op>, b: seq<Op>)
    requires Masked(a + b)
    ensures Masked(b)
  {
    forall k | 0 <= k < |b| && IsShift(b[k]) && b[k].tdo.Some? ensures b[k].mask.Some? {
      assert (a + b)[|a| + k] == b[k];
    }
  }

  lemma CloseIsBlock(c: Chain, open: OpenMap)
    requires Network(c)
    ensures Block(CloseAll(c, open)) && NoReads(CloseAll(c, open))
  {
    hide Network, Compose, Length, Block;
    if open == map[] {
      NothingBlock();
    } else {
      PositiveLength(c, open);
      DrBlock(ShiftDR(Length(c, open), FeedOf(Compose(c, open, map[], None, 0)), None, None));
    }
  }

  lemma ProgramIsBlock(c: Chain, root: ModuleInstance, writes: seq<Writable>)
    requires Network(c) && Run(c, root, Calls(Items(writes))).Some?
    ensures var program := Run(c, root, Calls(Items(writes))).value.program;
            Block(program) && TapOps(program) == program
  {
    hide Network, Run, Calls, Items, TapOps, Block;
    CallsOnlyScan(Items(writes));
    OnlyTapOps(c, root, Calls(Items(writes)));
    RunIsFed(c, root, Calls(Items(writes)));
  }

  /** The program after one more instrument. */
  lemma ProgramGrows(c: Chain, root: ModuleInstance, writes: seq<Writable>)
    requires writes != [] && Run(c, root, Calls(Items(writes))).Some?
    ensures Run(c, root, Calls(Items(writes[..|writes| - 1]))).Some?
    ensures Run(c, root, Calls(Items(writes[..|writes| - 1]))).value.program <= Run(c, root, Calls(Items(writes))).value.program
  {
    hide Run, Calls, ItemsOf;
    var front, more := Items(writes[..|writes| - 1]), ItemsOf(writes[|writes| - 1]);
    CallsJoin(front, more);
    RunGrows(c, root, Calls(Items(writes)), |Calls(front)|);
    assert Calls(Items(writes))[..|Calls(front)|] == Calls(front);
  }

  /** Together the readback tests are the closing scan and the whole program. */
  lemma {:induction false} ReadbackOps(c: Chain, root: ModuleInstance, writes: seq<Writable>, open: OpenMap)
    requires Network(c) && ReadbackTests(c, root, writes, open).Some?
    ensures Blocks(ReadbackTests(c, root, writes, open).value)
    ensures writes == [] ==> OpsOf(ReadbackTests(c, root, writes, open).value) == []
    ensures writes != [] ==> Run(c, root, Calls(Items(writes))).Some?
    ensures writes != [] ==> OpsOf(ReadbackTests(c, root, writes, open).value)
                             == CloseAll(c, open) + Run(c, root, Calls(Items(writes))).value.program
    decreases |writes|
  {
    hide Network, Run, Calls, Items, CloseAll, Block, OpsOf, Blocks;
    if writes == [] {
      assert OpsOf([]) == [] && Blocks([]) by { NoOps(); }
    } else {
      var front := writes[..|writes| - 1];
      ReadbackOps(c, root, front, open);
      ProgramGrows(c, root, writes);
      ProgramIsBlock(c, root, front);
      ProgramIsBlock(c, root, writes);
      CloseIsBlock(c, open);
      var p, q := Run(c, root, Calls(Items(front))).value.program, Run(c, root, Calls(Items(writes))).value.program;
      var slice := From(q, |p|);
      assert p + slice == q;
      BlockSuffix(p, slice);
      var closing := if front == [] then CloseAll(c, open) else [];
      assert Block(closing) by { NothingBlock(); }
      BlockJoin(closing, slice);
      assert front == [] ==> p == [] by { NoProgram(c, root); }
      var tests := ReadbackTests(c, root, front, open).value;
      var test := Planned(Test([], closing + slice), Run(c, root, Calls(Items(writes))).value.open);
      OpsOfLast(tests, test);
      OneMoreBlock(tests, test);
      Regrouped(OpsOf(tests), closing, slice, CloseAll(c, open), p, q, front == []);
    }
  }

  lemma OneMoreBlock(tests: seq<Planned>, test: Planned)
    requires Blocks(tests) && test.test.leadIn == [] && Block(test.test.ops)
    ensures Blocks(tests + [test])
  {
    hide Block;
  }

  lemma Regrouped(before: seq<Op>, closing: seq<Op>, slice: seq<Op>, close: seq<Op>, p: seq<Op>, q: seq<Op>, first: bool)
    requires p + slice == q
    requires if first then before == [] && p == [] && closing == close else before == close + p && closing == []
    ensures before + (closing + slice) == close + q
  {
  }

  lemma NoOps()
    ensures OpsOf([]) == [] && Blocks([])
  {
  }

  lemma NoProgram(c: Chain, root: ModuleInstance)
    ensures Run(c, root, Calls(Items([]))) == Some(NewPdl)
  {
  }

  lemma {:induction false} OpsOfLast(tests: seq<Planned>, test: Planned)
    ensures OpsOf(tests + [test]) == OpsOf(tests) + test.test.ops
  {
    if tests == [] {
      assert tests + [test] == [test] && [test][1..] == [];
      assert test.test.ops + [] == [] + test.test.ops;
    } else {
      assert (tests + [test])[0] == tests[0] && (tests + [test])[1..] == tests[1..] + [test];
      OpsOfLast(tests[1..], test);
      assert tests[0].test.ops + (OpsOf(tests[1..]) + test.test.ops) == tests[0].test.ops + OpsOf(tests[1..]) + test.test.ops;
    }
  }

  // ---------------------------------------------------------------- the readback tests' checks

  lemma ScansDrive(w: Wiring<NetState>, c: Chain, t: Tap<NetState>, ops: seq<Op>)
    requires t.state == RunTestIdle && Scans(w, c, t, ops)
    ensures Drives(w, c, t, ops, Play(w, t, ops).value.0)
  {
    hide Play, ToCycles, ScansAreLong, FedAfter;
  }

  lemma NoReadsOps(wl: Wiring<NetState>, wh: Wiring<NetState>, c: Chain, low: Tap<NetState>, high: Tap<NetState>,
                   ops: seq<Op>, l: Tap<NetState>, h: Tap<NetState>)
    requires Block(ops) && NoReads(ops) && Drives(wl, c, low, ops, l) && Drives(wh, c, high, ops, h)
    ensures OpsHold(wl, wh, c, low, high, ops)
  {
    hide ToCycles, Expected, DriveAll, ReadsHold, NoReads, WellFed, Masked, Walk;
    var cycles := CyclesOf(Test([], ops));
    NothingLeads(wl, c, low, Test([], ops));
    NothingLeads(wh, c, high, Test([], ops));
    ExpectedDrives(wl, wh, c, low, high, Inputs(cycles));
    NoReadsHold(RunTestIdle, ops, Expected(wl, wh, c, low, high, Inputs(cycles)).value);
  }

  ghost predicate AllReadable(c: Chain, writes: seq<Writable>) {
    forall j :: 0 <= j < |writes| ==> Readable(c, writes[j].leaf)
  }

  /** The closing scan takes the network on standby to where a new interpreter starts. */
  lemma ClosingDrives(w: Wiring<NetState>, world: World, cfg: Config, c: Chain, t: Tap<NetState>, open: OpenMap)
    returns (u: Tap<NetState>)
    requires Network(c) && Standby(w, world, cfg, t, c, open)
    ensures Drives(w, c, t, CloseAll(c, open), u) && Waits(w, world, u) && Tracks(w, world, c, NewPdl, u)
  {
    hide Network, Clean, Waits, Scans, CloseAll, Play, Drives, Tracks;
    assert t.state == RunTestIdle by { StandbyOpens(w, world, cfg, t, c, open); }
    CloseAllPlays(w, world, t, c, open);
    CloseScans(w, world, c, t, open);
    ScansDrive(w, c, t, CloseAll(c, open));
    u := Play(w, t, CloseAll(c, open)).value.0;
    CleanStarts(w, world, u, c);
  }

  /** The whole program from there. */
  lemma ProgramDrives(w: Wiring<NetState>, world: World, c: Chain, t: Tap<NetState>, root: ModuleInstance,
                      writes: seq<Writable>) returns (u: Tap<NetState>)
    requires Network(c) && Waits(w, world, t) && Tracks(w, world, c, NewPdl, t)
    requires Run(c, root, Calls(Items(writes))).Some?
    ensures Drives(w, c, t, Run(c, root, Calls(Items(writes))).value.program, u)
  {
    hide Network, Waits, Scans, Play, Drives, Tracks, Calls, Items;
    var calls, program := Calls(Items(writes)), Run(c, root, Calls(Items(writes))).value.program;
    CallsOnlyScan(Items(writes));
    assert [] + calls == calls && Run(c, root, []) == Some(NewPdl);
    var added := MoreScans(w, world, c, t, root, [], calls);
    assert NewPdl.program + added == added == program;
    assert t.state == RunTestIdle by { WaitsReady(w, world, t); }
    ScansDrive(w, c, t, program);
    ScansPlay(w, c, t, program);
    u := Play(w, t, program).value.0;
  }

  /** With models that show the same at every capture, the checks of the readback tests all hold exactly when
      every instrument written is readable. */
  lemma ReadbackDecides(cfg: Config, c: Chain, root: ModuleInstance, low: World, high: World, l: Tap<NetState>,
                        h: Tap<NetState>, writes: seq<Writable>, open: OpenMap)
    requires var (wl, wh) := (Rig(cfg, c, low), Rig(cfg, c, high));
             && Network(c) && Steady(low) && AllWritten(c, root, writes)
             && Standby(wl, low, cfg, l, c, open) && Standby(wh, high, cfg, h, c, open)
             && ReadbackTests(c, root, writes, open).Some?
             && Tracked(wl, c, l, ReadbackTests(c, root, writes, open).value)
             && Tracked(wh, c, h, ReadbackTests(c, root, writes, open).value)
    ensures ChecksHold(Rig(cfg, c, low), Rig(cfg, c, high), c, l, h, ReadbackTests(c, root, writes, open).value)
            <==> AllReadable(c, writes)
  {
    hide Network, Steady, Written, Standby, Tracked, ReadbackTests, ChecksHold, OpsHold, Drives, Block, Blocks, NoReads,
         Readable, Waits, Tracks, CloseAll, Run, Calls, Items, Rig, OpsOf;
    var (wl, wh) := (Rig(cfg, c, low), Rig(cfg, c, high));
    var tests := ReadbackTests(c, root, writes, open).value;
    ReadbackOps(c, root, writes, open);
    ChecksTogether(wl, wh, c, l, h, tests);
    if writes == [] {
      NothingChecked(wl, wh, c, l, h);
    } else {
      var closing, program := CloseAll(c, open), Run(c, root, Calls(Items(writes))).value.program;
      var l1 := ClosingDrives(wl, low, cfg, c, l, open);
      var h1 := ClosingDrives(wh, high, cfg, c, h, open);
      var l2 := ProgramDrives(wl, low, c, l1, root, writes);
      var h2 := ProgramDrives(wh, high, c, h1, root, writes);
      CloseIsBlock(c, open);
      ProgramIsBlock(c, root, writes);
      NoReadsOps(wl, wh, c, l, h, closing, l1, h1);
      DrivesSome(wl, c, l1, program, l2);
      DrivesSome(wh, c, h1, program, h2);
      OpsHoldJoin(wl, wh, c, l, h, closing, l1, h1, program);
      ReadbackRaisesIff(wl, wh, low, high, l1, h1, c, root, writes);
      OpsHoldReads(wl, wh, c, l1, h1, program);
    }
  }

  lemma OpsHoldReads(wl: Wiring<NetState>, wh: Wiring<NetState>, c: Chain, low: Tap<NetState>, high: Tap<NetState>,
                     ops: seq<Op>)
    requires ToCycles(RunTestIdle, ops).Some?
    requires Expected(wl, wh, c, low, high, Inputs(ToCycles(RunTestIdle, ops).value)).Some?
    ensures OpsHold(wl, wh, c, low, high, ops)
            <==> ReadsHold(RunTestIdle, ops,
                           Expected(wl, wh, c, low, high, Inputs(ToCycles(RunTestIdle, ops).value)).value)
  {
    hide ToCycles, Expected, ReadsHold;
    NothingLeads(wl, c, low, Test([], ops));
    NothingLeads(wh, c, high, Test([], ops));
  }

  // ---------------------------------------------------------------- what shift_op_ranges can follow

  /** Navigation and shifts of at least one bit keep the two walkers level. */
  lemma PlainAligned(ops: seq<Op>)
    requires Plain(ops) && ToCycles(RunTestIdle, ops).Some?
    ensures Aligned(RunTestIdle, RunTestIdle, 0, ops)
  {
    hide ToCycles, Aligned;
    FedIsAligned(RunTestIdle, 0, ops);
  }

  lemma {:induction false} ProgramPlain(c: Chain, root: ModuleInstance, calls: seq<Call>)
    requires Network(c) && Run(c, root, calls).Some? && forall k :: 0 <= k < |calls| ==> !calls[k].IRunLoop?
    ensures Plain(Run(c, root, calls).value.program)
    decreases |calls|
  {
    hide Network, Do;
    if calls != [] {
      var init, call := calls[..|calls| - 1], calls[|calls| - 1];
      ProgramPlain(c, root, init);
      var p := Run(c, root, init).value;
      if call.IApply? {
        AppliedPlain(c, root, p);
      } else {
        QueuedKeeps(c, root, p, call);
      }
    }
  }

  lemma AppliedPlain(c: Chain, root: ModuleInstance, p: Pdl)
    requires Network(c) && Do(c, root, p, Call.IApply).Some? && Plain(p.program)
    ensures Plain(Do(c, root, p, Call.IApply).value.program)
  {
    hide Network, Stage, RoundOps, OpenPath, Length, Compose, Expectation;
    var rounds := Stage(c, OpenPath(c, p.scope.value, []).value, p.open).value;
    AppliedProgram(c, p);
    RoundsReadNothing(c, p.open, rounds);
    PositiveLength(c, LastOf(p.open, rounds));
  }

  lemma {:induction false} ReadbackPlain(c: Chain, root: ModuleInstance, writes: seq<Writable>, open: OpenMap)
    requires Network(c) && ReadbackTests(c, root, writes, open).Some?
    ensures forall k :: 0 <= k < |writes| ==> Plain(ReadbackTests(c, root, writes, open).value[k].test.ops)
    decreases |writes|
  {
    hide Network, Run, Calls, Items, CloseAll;
    if writes != [] {
      ReadbackPlain(c, root, writes[..|writes| - 1], open);
      CallsOnlyScan(Items(writes));
      ProgramPlain(c, root, Calls(Items(writes)));
      CloseIsBlock(c, open);
    }
  }
}
