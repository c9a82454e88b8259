/** The cycles of the integrity program (tap_integrity.py): two models stepped through the tests one by one,
    each test's reads checked on its own cycles. */
module ProgramCycles {
  import opened Wrappers
  import opened Bits
  import opened IclModel
  import opened SibLayout
  import opened SibCells
  import opened SibRound
  import opened SibRetarget
  import opened SibStaging
  import opened PathPlan
  import opened TapFsm
  import opened TapIr
  import opened TapModel
  import opened TapPlay
  import opened TapSelect
  import opened TapCycles
  import opened PdlSpec
  import opened Retargeting
  import opened RetargetingRuns
  import opened OverShift
  import opened Integrity
  import opened SelfCheckCycles
  import opened IntegrityProbes
  import opened ReadProbes
  import opened WriteReadback
  import opened WriteTargets
  import opened TestRuns
  import opened NetworkScans
  import opened IntegrityTests
  import opened QuietTests
  import opened NetworkHold
  import opened TestBoundaries


  /** One test of _expected_cycles: None where the source raises, for a test that does not start in
      Run-Test/Idle or a read the models do not bear out. */
  ghost function CyclesOfTest(wl: Wiring<NetState>, wh: Wiring<NetState>, c: Chain, low: Tap<NetState>,
                              high: Tap<NetState>, test: Test): Option<seq<TckCycle>>
  {
    var (l, h) := (Led(wl, c, low, test), Led(wh, c, high, test));
    match (Expected(wl, wh, c, low, high, test.leadIn), ToCycles(RunTestIdle, test.ops))
    case (Some(lead), Some(cycles)) =>
      if !l.state.RunTestIdle? then None
      else (match Expected(wl, wh, c, l, h, Inputs(cycles))
        case None => None
        case Some(body) => if ReadsHold(RunTestIdle, test.ops, body) then Some(lead + body) else None)
    case _ => None
  }

  /** _expected_cycles: the two models stepped through every test, one by one. */
  ghost function TestCycles(wl: Wiring<NetState>, wh: Wiring<NetState>, c: Chain, low: Tap<NetState>,
                            high: Tap<NetState>, tests: seq<Planned>): Option<seq<TckCycle>>
    decreases |tests|
  {
    if tests == [] then Some([])
    else
      var test := tests[0].test;
      match (CyclesOfTest(wl, wh, c, low, high, test),
             TestCycles(wl, wh, c, After(wl, c, low, test), After(wh, c, high, test), tests[1..]))
      case (Some(here), Some(rest)) => Some(here + rest)
      case _ => None
  }

  /** What is driven, in one run. */
  function Frames(tests: seq<Planned>): seq<TckInput> {
    if tests == [] then []
    else tests[0].test.leadIn + Inputs(CyclesOf(tests[0].test)) + Frames(tests[1..])
  }

  lemma {:induction false} ExpectedDrives(wl: Wiring<NetState>, wh: Wiring<NetState>, c: Chain, low: Tap<NetState>,
                                          high: Tap<NetState>, ins: seq<TckInput>)
    requires DriveAll(wl, c, low, ins).Some? && DriveAll(wh, c, high, ins).Some?
    ensures Expected(wl, wh, c, low, high, ins).Some?
    decreases |ins|
  {
    hide Drive, Integrity.Expect;
    if ins != [] {
      ExpectedDrives(wl, wh, c, Drive(wl, c, low, ins[0]).value.0, Drive(wh, c, high, ins[0]).value.0, ins[1..]);
    }
  }

  lemma {:induction false} ExpectedJoin(wl: Wiring<NetState>, wh: Wiring<NetState>, c: Chain, low: Tap<NetState>,
                                        high: Tap<NetState>, a: seq<TckInput>, b: seq<TckInput>)
    requires DriveAll(wl, c, low, a).Some? && DriveAll(wh, c, high, a).Some?
    requires Expected(wl, wh, c, Reached(wl, c, low, a), Reached(wh, c, high, a), b).Some?
    ensures Expected(wl, wh, c, low, high, a).Some?
    ensures Expected(wl, wh, c, low, high, a + b)
            == Some(Expected(wl, wh, c, low, high, a).value
                    + Expected(wl, wh, c, Reached(wl, c, low, a), Reached(wh, c, high, a), b).value)
    decreases |a|
  {
    hide Drive, Integrity.Expect;
    if a == [] {
      assert a + b == b;
      assert [] + Expected(wl, wh, c, low, high, b).value == Expected(wl, wh, c, low, high, b).value;
    } else {
      assert (a + b)[0] == a[0] && (a + b)[1..] == a[1..] + b;
      var (l, h) := (Drive(wl, c, low, a[0]).value, Drive(wh, c, high, a[0]).value);
      ExpectedJoin(wl, wh, c, l.0, h.0, a[1..], b);
      var here := Integrity.Expect(low.state, a[0], l.1, h.1);
      OneMore(here, Expected(wl, wh, c, l.0, h.0, a[1..]).value,
              Expected(wl, wh, c, Reached(wl, c, low, a), Reached(wh, c, high, a), b).value);
    }
  }

  lemma OneMore(here: TckCycle, x: seq<TckCycle>, y: seq<TckCycle>)
    ensures [here] + (x + y) == [here] + x + y
  {
  }

  /** The checks of all tests hold on their own cycles. */
  ghost predicate ChecksHold(wl: Wiring<NetState>, wh: Wiring<NetState>, c: Chain, low: Tap<NetState>,
                             high: Tap<NetState>, tests: seq<Planned>)
    decreases |tests|
  {
    tests == [] ||
    (&& CheckHolds(wl, wh, c, low, high, tests[0].test)
     && ChecksHold(wl, wh, c, After(wl, c, low, tests[0].test), After(wh, c, high, tests[0].test), tests[1..]))
  }

  ghost predicate CheckHolds(wl: Wiring<NetState>, wh: Wiring<NetState>, c: Chain, low: Tap<NetState>,
                             high: Tap<NetState>, test: Test)
  {
    var body := Expected(wl, wh, c, Led(wl, c, low, test), Led(wh, c, high, test), Inputs(CyclesOf(test)));
    && ToCycles(RunTestIdle, test.ops).Some? && body.Some? && ReadsHold(RunTestIdle, test.ops, body.value)
  }

  lemma CompletesDrives(w: Wiring<NetState>, c: Chain, t: Tap<NetState>, test: Test)
    requires Completes(w, c, t, test)
    ensures DriveAll(w, c, t, test.leadIn).Some? && DriveAll(w, c, Led(w, c, t, test), Inputs(CyclesOf(test))).Some?
    ensures Led(w, c, t, test).state.RunTestIdle? && ToCycles(RunTestIdle, test.ops) == Some(CyclesOf(test))
    ensures Reached(w, c, t, test.leadIn) == Led(w, c, t, test)
    ensures Reached(w, c, Led(w, c, t, test), Inputs(CyclesOf(test))) == After(w, c, t, test)
  {
  }

  /** Stepping the tests one by one succeeds exactly when their checks hold, and gives what stepping the whole
      run gives. */
  lemma {:induction false} CyclesAreFrames(wl: Wiring<NetState>, wh: Wiring<NetState>, c: Chain, low: Tap<NetState>,
                                           high: Tap<NetState>, tests: seq<Planned>)
    requires Tracked(wl, c, low, tests) && Tracked(wh, c, high, tests)
    ensures Expected(wl, wh, c, low, high, Frames(tests)).Some?
    ensures TestCycles(wl, wh, c, low, high, tests)
            == if ChecksHold(wl, wh, c, low, high, tests) then Expected(wl, wh, c, low, high, Frames(tests)) else None
    decreases |tests|
  {
    hide Completes, HasOpen, Led, After, CyclesOf, ToCycles, ReadsHold, Expected, DriveAll, Reached;
    if tests == [] {
      NothingExpected(wl, wh, c, low, high);
    } else {
      var test, rest := tests[0].test, tests[1..];
      var (l, h) := (Led(wl, c, low, test), Led(wh, c, high, test));
      var (ul, uh) := (After(wl, c, low, test), After(wh, c, high, test));
      CompletesDrives(wl, c, low, test);
      CompletesDrives(wh, c, high, test);
      CyclesAreFrames(wl, wh, c, ul, uh, rest);
      ExpectedDrives(wl, wh, c, low, high, test.leadIn);
      ExpectedDrives(wl, wh, c, l, h, Inputs(CyclesOf(test)));
      ExpectedJoin(wl, wh, c, l, h, Inputs(CyclesOf(test)), Frames(rest));
      ExpectedJoin(wl, wh, c, low, high, test.leadIn, Inputs(CyclesOf(test)) + Frames(rest));
      assert test.leadIn + Inputs(CyclesOf(test)) + Frames(rest) == test.leadIn + (Inputs(CyclesOf(test)) + Frames(rest));
      ThreeParts(Expected(wl, wh, c, low, high, test.leadIn).value,
                 Expected(wl, wh, c, l, h, Inputs(CyclesOf(test))).value,
                 Expected(wl, wh, c, ul, uh, Frames(rest)).value);
    }
  }

  lemma NothingExpected(wl: Wiring<NetState>, wh: Wiring<NetState>, c: Chain, low: Tap<NetState>, high: Tap<NetState>)
    ensures Expected(wl, wh, c, low, high, []) == Some([])
  {
  }

  lemma ThreeParts(a: seq<TckCycle>, b: seq<TckCycle>, d: seq<TckCycle>)
    ensures a + (b + d) == a + b + d
  {
  }

  // ---------------------------------------------------------------- tests in a row

  lemma {:induction false} ChecksJoin(wl: Wiring<NetState>, wh: Wiring<NetState>, c: Chain, low: Tap<NetState>,
                                      high: Tap<NetState>, a: seq<Planned>, b: seq<Planned>)
    ensures ChecksHold(wl, wh, c, low, high, a + b)
            <==> ChecksHold(wl, wh, c, low, high, a)
                 && ChecksHold(wl, wh, c, EndOf(wl, c, low, a), EndOf(wh, c, high, a), b)
    decreases |a|
  {
    hide CheckHolds, After;
    if a == [] {
      assert a + b == b;
    } else {
      assert (a + b)[0] == a[0] && (a + b)[1..] == a[1..] + b;
      ChecksJoin(wl, wh, c, After(wl, c, low, a[0].test), After(wh, c, high, a[0].test), a[1..], b);
    }
  }

  /** Nothing but navigation and shifts of at least one bit. */
  ghost predicate Plain(ops: seq<Op>) {
    forall k :: 0 <= k < |ops| ==> ops[k].GotoState? || (IsShift(ops[k]) && ops[k].bits >= 1)
  }

  /** And no value is expected. */
  ghost predicate NoReads(ops: seq<Op>) {
    Plain(ops) && forall k :: 0 <= k < |ops| && IsShift(ops[k]) ==> ops[k].tdo.None?
  }

  lemma {:induction false} NoReadsHold(state: TapState, ops: seq<Op>, cycles: seq<TckCycle>)
    requires ToCycles(state, ops).Some? && |cycles| == |ToCycles(state, ops).value| && NoReads(ops)
    ensures ReadsHold(state, ops, cycles)
    decreases |ops|
  {
    hide OpCycles, Walk;
    if ops != [] {
      var a := OpCycles(state, ops[0]).value;
      NoReadsHold(Walk(state, a), ops[1..], cycles[|a|..]);
    }
  }

  /** Tests that read nothing have nothing to fail. */
  lemma {:induction false} NoReadsChecks(wl: Wiring<NetState>, wh: Wiring<NetState>, c: Chain, low: Tap<NetState>,
                                         high: Tap<NetState>, tests: seq<Planned>)
    requires Tracked(wl, c, low, tests) && Tracked(wh, c, high, tests)
    requires forall k :: 0 <= k < |tests| ==> NoReads(tests[k].test.ops)
    ensures ChecksHold(wl, wh, c, low, high, tests)
    decreases |tests|
  {
    hide Completes, HasOpen, Led, After, CyclesOf, ToCycles, Expected, DriveAll, Reached, NoReads;
    if tests != [] {
      var test := tests[0].test;
      CompletesDrives(wl, c, low, test);
      CompletesDrives(wh, c, high, test);
      ExpectedDrives(wl, wh, c, Led(wl, c, low, test), Led(wh, c, high, test), Inputs(CyclesOf(test)));
      NoReadsHold(RunTestIdle, test.ops,
                  Expected(wl, wh, c, Led(wl, c, low, test), Led(wh, c, high, test), Inputs(CyclesOf(test))).value);
      NoReadsChecks(wl, wh, c, After(wl, c, low, test), After(wh, c, high, test), tests[1..]);
    }
  }

  /** The operations of tests in a row. */
  function OpsOf(tests: seq<Planned>): seq<Op> {
    if tests == [] then [] else tests[0].test.ops + OpsOf(tests[1..])
  }

  /** Tests of operations alone, each from Run-Test/Idle back to it. */
  ghost predicate Blocks(tests: seq<Planned>) {
    forall k :: 0 <= k < |tests| ==> tests[k].test.leadIn == [] && Block(tests[k].test.ops)
  }

  /** The check of a list of operations on its own cycles. */
  ghost predicate OpsHold(wl: Wiring<NetState>, wh: Wiring<NetState>, c: Chain, low: Tap<NetState>,
                          high: Tap<NetState>, ops: seq<Op>)
  {
    CheckHolds(wl, wh, c, low, high, Test([], ops))
  }

  lemma NothingLeads(w: Wiring<NetState>, c: Chain, t: Tap<NetState>, test: Test)
    requires test.leadIn == []
    ensures Led(w, c, t, test) == t
  {
  }

  /** Checking two lists of operations one after the other is checking them as one. */
  lemma OpsHoldJoin(wl: Wiring<NetState>, wh: Wiring<NetState>, c: Chain, low: Tap<NetState>, high: Tap<NetState>,
                    a: seq<Op>, l: Tap<NetState>, h: Tap<NetState>, b: seq<Op>)
    requires Block(a) && Block(b)
    requires Drives(wl, c, low, a, l) && Drives(wh, c, high, a, h)
    requires DriveAll(wl, c, l, Inputs(CyclesOf(Test([], b)))).Some? && DriveAll(wh, c, h, Inputs(CyclesOf(Test([], b)))).Some?
    ensures OpsHold(wl, wh, c, low, high, a + b) <==> OpsHold(wl, wh, c, low, high, a) && OpsHold(wl, wh, c, l, h, b)
  {
    hide ToCycles, Walk, ReadsHold, Expected, DriveAll, Masked, WellFed, Reached;
    var (x, y) := (CyclesOf(Test([], a)), CyclesOf(Test([], b)));
    ToCyclesJoin(RunTestIdle, a, b);
    InputsJoin(x, y);
    NothingLeads(wl, c, low, Test([], a));
    NothingLeads(wh, c, high, Test([], a));
    NothingLeads(wl, c, l, Test([], b));
    NothingLeads(wh, c, h, Test([], b));
    NothingLeads(wl, c, low, Test([], a + b));
    NothingLeads(wh, c, high, Test([], a + b));
    ExpectedDrives(wl, wh, c, l, h, Inputs(y));
    ExpectedJoin(wl, wh, c, low, high, Inputs(x), Inputs(y));
    HoldsSplit(RunTestIdle, a, b, Expected(wl, wh, c, low, high, Inputs(x)).value, Expected(wl, wh, c, l, h, Inputs(y)).value);
  }

  /** The operations' cycles take `t` to `u`. */
  ghost predicate Drives(w: Wiring<NetState>, c: Chain, t: Tap<NetState>, ops: seq<Op>, u: Tap<NetState>) {
    DriveAll(w, c, t, Inputs(CyclesOf(Test([], ops)))).Some? && Reached(w, c, t, Inputs(CyclesOf(Test([], ops)))) == u
  }

  lemma {:induction false} OpsDrive(w: Wiring<NetState>, c: Chain, t: Tap<NetState>, tests: seq<Planned>)
    requires Tracked(w, c, t, tests) && Blocks(tests)
    ensures Block(OpsOf(tests)) && Drives(w, c, t, OpsOf(tests), EndOf(w, c, t, tests))
    decreases |tests|
  {
    hide Completes, HasOpen, After, Block, Drives;
    if tests == [] {
      NothingDrives(w, c, t);
    } else {
      var test, rest := tests[0].test, tests[1..];
      OneDrives(w, c, t, test);
      OpsDrive(w, c, After(w, c, t, test), rest);
      BlockJoin(test.ops, OpsOf(rest));
      DrivesJoin(w, c, t, test.ops, After(w, c, t, test), OpsOf(rest), EndOf(w, c, t, tests));
    }
  }

  lemma NothingDrives(w: Wiring<NetState>, c: Chain, t: Tap<NetState>)
    ensures Block([]) && Drives(w, c, t, [], t)
  {
    assert Inputs([]) == [];
  }

  lemma OneDrives(w: Wiring<NetState>, c: Chain, t: Tap<NetState>, test: Test)
    requires Completes(w, c, t, test) && test.leadIn == []
    ensures Drives(w, c, t, test.ops, After(w, c, t, test))
  {
    hide ToCycles;
    NothingLeads(w, c, t, test);
    assert test == Test([], test.ops);
  }

  lemma DrivesJoin(w: Wiring<NetState>, c: Chain, t: Tap<NetState>, a: seq<Op>, u: Tap<NetState>, b: seq<Op>,
                   v: Tap<NetState>)
    requires Block(a) && Block(b) && Drives(w, c, t, a, u) && Drives(w, c, u, b, v)
    ensures Drives(w, c, t, a + b, v)
  {
    hide ToCycles, Walk, Masked, WellFed, DriveAll;
    var (x, y) := (CyclesOf(Test([], a)), CyclesOf(Test([], b)));
    ToCyclesJoin(RunTestIdle, a, b);
    InputsJoin(x, y);
    DriveJoin(w, c, t, Inputs(x), Inputs(y));
  }

  lemma {:induction false} DriveJoin(w: Wiring<NetState>, c: Chain, t: Tap<NetState>, a: seq<TckInput>, b: seq<TckInput>)
    requires DriveAll(w, c, t, a).Some? && DriveAll(w, c, Reached(w, c, t, a), b).Some?
    ensures DriveAll(w, c, t, a + b).Some? && Reached(w, c, t, a + b) == Reached(w, c, Reached(w, c, t, a), b)
    decreases |a|
  {
    hide Drive;
    if a == [] {
      assert a + b == b;
    } else {
      assert (a + b)[0] == a[0] && (a + b)[1..] == a[1..] + b;
      DriveJoin(w, c, Drive(w, c, t, a[0]).value.0, a[1..], b);
    }
  }

  /** Tests of operations alone: checked one by one they hold exactly when their operations, checked as one
      list, do. */
  lemma {:induction false} ChecksTogether(wl: Wiring<NetState>, wh: Wiring<NetState>, c: Chain, low: Tap<NetState>,
                                          high: Tap<NetState>, tests: seq<Planned>)
    requires Tracked(wl, c, low, tests) && Tracked(wh, c, high, tests) && Blocks(tests)
    ensures ChecksHold(wl, wh, c, low, high, tests) <==> OpsHold(wl, wh, c, low, high, OpsOf(tests))
    decreases |tests|
  {
    hide Completes, HasOpen, After, Block, Drives, OpsHold, CheckHolds;
    if tests == [] {
      NothingChecked(wl, wh, c, low, high);
    } else {
      var test, rest := tests[0].test, tests[1..];
      assert test == Test([], test.ops);
      OneDrives(wl, c, low, test);
      OneDrives(wh, c, high, test);
      var (l, h) := (After(wl, c, low, test), After(wh, c, high, test));
      OpsDrive(wl, c, l, rest);
      OpsDrive(wh, c, h, rest);
      ChecksTogether(wl, wh, c, l, h, rest);
      DrivesSome(wl, c, l, OpsOf(rest), EndOf(wl, c, l, rest));
      DrivesSome(wh, c, h, OpsOf(rest), EndOf(wh, c, h, rest));
      OpsHoldJoin(wl, wh, c, low, high, test.ops, l, h, OpsOf(rest));
      OpsHoldIs(wl, wh, c, low, high, test.ops);
    }
  }

  lemma OpsHoldIs(wl: Wiring<NetState>, wh: Wiring<NetState>, c: Chain, low: Tap<NetState>, high: Tap<NetState>, ops: seq<Op>)
    ensures OpsHold(wl, wh, c, low, high, ops) == CheckHolds(wl, wh, c, low, high, Test([], ops))
  {
  }

  lemma DrivesSome(w: Wiring<NetState>, c: Chain, t: Tap<NetState>, ops: seq<Op>, u: Tap<NetState>)
    requires Drives(w, c, t, ops, u)
    ensures DriveAll(w, c, t, Inputs(CyclesOf(Test([], ops)))).Some?
  {
  }

  lemma NothingChecked(wl: Wiring<NetState>, wh: Wiring<NetState>, c: Chain, low: Tap<NetState>, high: Tap<NetState>)
    ensures OpsHold(wl, wh, c, low, high, [])
  {
    assert Inputs([]) == [];
  }
}
