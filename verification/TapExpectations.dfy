/** The built integrity program compares every shift cycle of the tests of the TAP itself, each with the value
    TapReadouts writes out (tap_integrity.py). */
module TapExpectations {
  import opened Wrappers
  import opened Bits
  import opened IclModel
  import opened SibLayout
  import opened SibCells
  import opened SibRetarget
  import opened SibStaging
  import opened PathPlan
  import opened TapFsm
  import opened TapIr
  import opened TapModel
  import opened TapPlay
  import opened TapSelect
  import opened TapCycles
  import opened TapTables
  import opened PdlSpec
  import opened IntegrityProbes
  import opened Retargeting
  import opened OverShift
  import opened Integrity
  import opened SelfCheckCycles
  import opened WriteReadback
  import opened WriteTargets
  import opened TestRuns
  import opened NetworkScans
  import opened IntegrityTests
  import opened QuietTests
  import opened TestBoundaries
  import opened ProgramBoundaries
  import opened ProgramCycles
  import opened IntegrityProgram
  import opened CareExact
  import opened TapShows
  import opened TapReadouts
  import opened NetworkShows

  // ---------------------------------------------------------------- the first tests, and the last

  /** One cycle that shows nothing. */
  lemma Leading(w: Wiring<NetState>, c: Chain, t: Tap<NetState>, i: TckInput, u: Tap<NetState>, rest: seq<TckInput>,
                v: Tap<NetState>)
    requires Drive(w, c, t, i) == Some((u, false)) && !(i.trstN && Shifting(t.state)) && Displays(w, c, u, rest, v, [])
    ensures Displays(w, c, t, [i] + rest, v, [])
  {
    hide Drive, Displays;
    var none: Bits := [];
    assert none + none == none;
    DisplaysOn(w, c, t, i, u, false, rest, v, none);
  }

  /** After TRST the reset instruction is in, and its register is read. */
  lemma TrstReads(w: Wiring<NetState>, c: Chain, cfg: Config, t: Tap<NetState>, margin: nat)
    requires Usable(cfg) && t.cfg == cfg && margin >= 1
    ensures ReadsFrom(w, c, cfg, t, TrstTest(cfg, margin), ResetReadout(cfg, margin))
  {
    OpcodesSelect(cfg);
    hide Fresh, SibCells.Raw, Usable, Pow2, Decode, Code, Set;
    var reset := ResetTap(cfg, NetState(Fresh(c), t.network.captures));
    var mid := reset.(instruction := Preset(cfg), state := RunTestIdle);
    assert Drive(w, c, t, TRST) == Some((reset, false)) && Drive(w, c, reset, TRST) == Some((reset, false));
    assert Drive(w, c, reset, LOW) == Some((mid, false));
    assert TRST_LEAD_IN == [TRST] + ([TRST] + ([LOW] + []));
    hide Drive, Displays, Quiet;
    Quietly(w, c, mid);
    Leading(w, c, reset, LOW, mid, [], mid);
    Leading(w, c, reset, TRST, reset, [LOW] + [], mid);
    Leading(w, c, t, TRST, reset, [TRST] + ([LOW] + []), mid);
    ResetScanReads(w, c, cfg, t, TRST_LEAD_IN, mid, margin);
  }

  /** The scan both reset tests end with. */
  lemma ResetScanReads(w: Wiring<NetState>, c: Chain, cfg: Config, t: Tap<NetState>, leadIn: seq<TckInput>,
                       mid: Tap<NetState>, margin: nat)
    requires Displays(w, c, t, leadIn, mid, []) && At(cfg, Preset(cfg), mid) && margin >= 1
    ensures ReadsFrom(w, c, cfg, t, Test(leadIn, SentinelScan(ResetBits(cfg), margin)), ResetReadout(cfg, margin))
  {
    var n, readout := ResetBits(cfg) + margin, ResetReadout(cfg, margin);
    ResetReadoutIs(cfg, margin);
    AtIsAside(cfg, Preset(cfg), mid);
    assert mid.instruction == Preset(cfg);
    hide *;
    SentinelSilent(cfg, ResetBits(cfg), margin);
    SentinelIs(n);
    var u := ScanDisplays(w, c, cfg, mid, Period(n));
    AtIsAside(cfg, Preset(cfg), u);
    DisplaysJoin(w, c, t, leadIn, mid, [], Inputs(DrCycles(Period(n))), u, readout);
    assert [] + readout == readout;
    OpsAfter(leadIn, SentinelScan(ResetBits(cfg), margin), DrCycles(Period(n)));
    FoundFrom(w, c, cfg, t, Test(leadIn, SentinelScan(ResetBits(cfg), margin)), u, readout);
  }

  lemma ResetReadoutIs(cfg: Config, margin: nat)
    requires margin >= 1
    ensures var fed := Period(ResetBits(cfg) + margin);
            fed != [] && ResetBits(cfg) + margin >= 1
            && ResetReadout(cfg, margin) == Through(TapShows.Loaded(cfg, Preset(cfg)), fed)
  {
    assert |TapShows.Loaded(cfg, Preset(cfg))| == ResetBits(cfg);
    assert |Period(ResetBits(cfg) + margin)| == ResetBits(cfg) + margin;
  }

  lemma OpsAfter(leadIn: seq<TckInput>, ops: seq<Op>, cycles: Cycles)
    requires ToCycles(RunTestIdle, ops) == Some(cycles)
    ensures InputsOf(Test(leadIn, ops)) == leadIn + Inputs(cycles)
  {
    hide ToCycles, Inputs;
  }

  lemma FoundFrom(w: Wiring<NetState>, c: Chain, cfg: Config, t: Tap<NetState>, test: Test, u: Tap<NetState>, bits: Bits)
    requires Displays(w, c, t, InputsOf(test), u, bits) && Aside(cfg, u)
    ensures ReadsFrom(w, c, cfg, t, test, bits)
  {
    hide Displays, InputsOf, Aside;
  }

  /** Where five cycles with TMS high and one low lead. */
  lemma TmsDrives(w: Wiring<NetState>, c: Chain, t: Tap<NetState>)
    requires t.state == RunTestIdle
    ensures var a, b, e := t.(state := SelectDrScan), t.(state := SelectIrScan), t.(state := TestLogicReset);
            var f := e.(instruction := Preset(t.cfg));
            && Drive(w, c, t, HIGH) == Some((a, false)) && Drive(w, c, a, HIGH) == Some((b, false))
            && Drive(w, c, b, HIGH) == Some((e, false)) && Drive(w, c, e, HIGH) == Some((f, false))
            && Drive(w, c, f, HIGH) == Some((f, false))
            && Drive(w, c, f, LOW) == Some((f.(state := RunTestIdle), false))
  {
    hide SibCells.Raw, Fresh;
  }

  /** The reset through TMS, from Run-Test/Idle under any instruction. */
  lemma TmsReads(w: Wiring<NetState>, c: Chain, cfg: Config, t: Tap<NetState>, margin: nat)
    requires Usable(cfg) && t.cfg == cfg && t.state == RunTestIdle && margin >= 1
    ensures ReadsFrom(w, c, cfg, t, ResetTest(cfg, margin), ResetReadout(cfg, margin))
  {
    OpcodesSelect(cfg);
    var a, b, e := t.(state := SelectDrScan), t.(state := SelectIrScan), t.(state := TestLogicReset);
    var f := e.(instruction := Preset(cfg));
    var mid := f.(state := RunTestIdle);
    assert TMS_RESET_LEAD_IN == [HIGH] + ([HIGH] + ([HIGH] + ([HIGH] + ([HIGH] + ([LOW] + [])))));
    hide Drive, Displays, Quiet, SibCells.Raw, Usable, Pow2, Decode, Code, Set, Preset;
    TmsDrives(w, c, t);
    Quietly(w, c, mid);
    Leading(w, c, f, LOW, mid, [], mid);
    Leading(w, c, f, HIGH, f, [LOW] + [], mid);
    Leading(w, c, e, HIGH, f, [HIGH] + ([LOW] + []), mid);
    Leading(w, c, b, HIGH, e, [HIGH] + ([HIGH] + ([LOW] + [])), mid);
    Leading(w, c, a, HIGH, b, [HIGH] + ([HIGH] + ([HIGH] + ([LOW] + []))), mid);
    Leading(w, c, t, HIGH, a, [HIGH] + ([HIGH] + ([HIGH] + ([HIGH] + ([LOW] + [])))), mid);
    ResetScanReads(w, c, cfg, t, TMS_RESET_LEAD_IN, mid, margin);
  }

  lemma IrScanCycles(cfg: Config, margin: nat)
    requires cfg.irWidth >= 1
    ensures var fed := Period(margin) + Set(cfg.irWidth);
            fed != [] && InputsOf(Test([], IrScan(cfg, margin))) == Inputs(ToShiftIr() + ShiftCycles(fed) + Exit1ToIdle())
  {
    var n := cfg.irWidth;
    var fed := Period(margin) + Set(n);
    assert |fed| == n + margin && Ones(n) == Set(n);
    hide Inputs, ShiftCycles, Idle, ToCycles, Sentinel, Period, Set, Ones, ToInt, FromInt, InputsOf;
    SentinelIs(margin);
    FromIntToInt(fed);
    IrOpsCycles(n + margin, ToInt(fed));
    var cycles := ToShiftIr() + ShiftCycles(fed) + Exit1ToIdle();
    OpsAfter([], IrScan(cfg, margin), cycles);
    assert [] + Inputs(cycles) == Inputs(cycles);
  }

  /** The instruction register scanned: its pattern, the bits fed, and BYPASS's opcode left inside. */
  lemma IrScanReads(w: Wiring<NetState>, c: Chain, cfg: Config, t: Tap<NetState>, margin: nat) returns (mid: Tap<NetState>)
    requires Usable(cfg) && Aside(cfg, t) && cfg.irWidth >= 1
    ensures Displays(w, c, t, InputsOf(Test([], IrScan(cfg, margin))), mid,
                     LoadReadout(cfg, Period(margin) + Set(cfg.irWidth)))
    ensures At(cfg, BYPASS, mid)
  {
    hide *;
    IrScanCycles(cfg, margin);
    EndsInSet(cfg, Period(margin));
    mid := LoadDisplays(w, c, cfg, t, Period(margin) + Set(cfg.irWidth));
  }

  /** BYPASS scanned, when it is what is loaded. */
  lemma BypassReads(w: Wiring<NetState>, c: Chain, cfg: Config, t: Tap<NetState>, margin: nat)
    requires At(cfg, BYPASS, t)
    ensures ReadsFrom(w, c, cfg, t, Test([], SentinelScan(1, margin)), BypassReadout(margin))
  {
    assert Aside(cfg, t) && t.instruction == BYPASS;
    hide *;
    SentinelIs(1 + margin);
    BypassReadoutIs(margin);
    BypassLoads(cfg);
    SentinelSilent(cfg, 1, margin);
    var u := ScanDisplays(w, c, cfg, t, Period(1 + margin));
    AtIsAside(cfg, BYPASS, u);
    OpsRead(w, c, cfg, t, SentinelScan(1, margin), DrCycles(Period(1 + margin)), u, BypassReadout(margin));
  }

  lemma AtIsAside(cfg: Config, i: Instruction, t: Tap<NetState>)
    requires At(cfg, i, t)
    ensures Aside(cfg, t)
  {
  }

  /** The lead-in of the reset through TMS ends in Run-Test/Idle wherever the controller was. */
  lemma TmsLeadInResets(s: TapState)
    ensures TMS_RESET_LEAD_IN == Inputs(Idle([true, true, true, true, true, false]))
    ensures Walk(s, Idle([true, true, true, true, true, false])) == RunTestIdle
  {
    FiveReset(s);
    var tms: Bits := [true, true, true, true, true];
    assert Idle(tms + [false]) == Idle(tms) + Idle([false]) && tms + [false] == [true, true, true, true, true, false];
    WalkJoin(s, Idle(tms), Idle([false]));
    WalkStep(TestLogicReset, [false]);
    WalkNone(RunTestIdle);
  }

  // ---------------------------------------------------------------- one after the other

  /** From `t` on, the tests show the readouts, one each. */
  ghost predicate ReadsOut(w: Wiring<NetState>, c: Chain, t: Tap<NetState>, tests: seq<Test>, readouts: seq<Bits>)
    decreases |tests|
  {
    && |tests| == |readouts|
    && (tests != [] ==>
          var ins := InputsOf(tests[0]);
          && Ends(w, c, t, ins).Some? && Shown(w, c, t, ins) == readouts[0]
          && ReadsOut(w, c, Ends(w, c, t, ins).value, tests[1..], readouts[1..]))
  }

  lemma ReadsOutFirst(w: Wiring<NetState>, c: Chain, t: Tap<NetState>, test: Test, u: Tap<NetState>, bits: Bits,
                      tests: seq<Test>, readouts: seq<Bits>)
    requires Displays(w, c, t, InputsOf(test), u, bits) && ReadsOut(w, c, u, tests, readouts)
    ensures ReadsOut(w, c, t, [test] + tests, [bits] + readouts)
  {
    hide Ends, Shown, InputsOf;
    assert ([test] + tests)[1..] == tests && ([bits] + readouts)[1..] == readouts;
  }

  lemma Witness(w: Wiring<NetState>, c: Chain, cfg: Config, t: Tap<NetState>, test: Test, bits: Bits)
    returns (u: Tap<NetState>)
    requires ReadsFrom(w, c, cfg, t, test, bits)
    ensures Displays(w, c, t, InputsOf(test), u, bits) && Aside(cfg, u)
  {
    hide Displays, InputsOf, Aside;
    u :| Displays(w, c, t, InputsOf(test), u, bits) && Aside(cfg, u);
  }

  lemma FirstOfAll(w: Wiring<NetState>, c: Chain, cfg: Config, t: Tap<NetState>, tests: seq<Test>, readouts: seq<Bits>)
    requires Aside(cfg, t) && AllRead(w, c, cfg, tests, readouts) && tests != []
    ensures |readouts| == |tests| && ReadsFrom(w, c, cfg, t, tests[0], readouts[0])
    ensures AllRead(w, c, cfg, tests[1..], readouts[1..])
  {
    hide Aside, ReadsFrom;
    assert Reads(w, c, cfg, tests[0], readouts[0]);
    hide Reads;
  }

  lemma {:induction false} AllReadsOut(w: Wiring<NetState>, c: Chain, cfg: Config, t: Tap<NetState>, tests: seq<Test>,
                                       readouts: seq<Bits>)
    requires Aside(cfg, t) && AllRead(w, c, cfg, tests, readouts)
    ensures ReadsOut(w, c, t, tests, readouts)
    decreases |tests|
  {
    hide *;
    SameCount(w, c, cfg, tests, readouts);
    if tests == [] {
      NoneReadsOut(w, c, t);
    } else {
      FirstOfAll(w, c, cfg, t, tests, readouts);
      var u := Witness(w, c, cfg, t, tests[0], readouts[0]);
      AllReadsOut(w, c, cfg, u, tests[1..], readouts[1..]);
      ReadsOutFirst(w, c, t, tests[0], u, readouts[0], tests[1..], readouts[1..]);
      assert [tests[0]] + tests[1..] == tests && [readouts[0]] + readouts[1..] == readouts;
    }
  }

  lemma SameCount(w: Wiring<NetState>, c: Chain, cfg: Config, tests: seq<Test>, readouts: seq<Bits>)
    requires AllRead(w, c, cfg, tests, readouts)
    ensures |readouts| == |tests|
  {
  }

  lemma NoneReadsOut(w: Wiring<NetState>, c: Chain, t: Tap<NetState>)
    ensures ReadsOut(w, c, t, [], [])
  {
  }

  /** All tests of the TAP, from the TRST they start with. */
  lemma TapReadsOut(w: Wiring<NetState>, c: Chain, cfg: Config, t: Tap<NetState>, margin: nat, options: Options)
    requires Usable(cfg) && t.cfg == cfg && margin >= 1
    ensures cfg.irWidth >= 1
    ensures ReadsOut(w, c, t, [TrstTest(cfg, margin)] + TapTests(cfg, margin, options),
                     [ResetReadout(cfg, margin)] + TestReadouts(cfg, margin, options))
  {
    hide *;
    TwoBits(cfg);
    var tests, readouts := TapTests(cfg, margin, options), TestReadouts(cfg, margin, options);
    FirstTwo(cfg, margin, options);
    TrstReads(w, c, cfg, t, margin);
    var a := Witness(w, c, cfg, t, TrstTest(cfg, margin), ResetReadout(cfg, margin));
    var b := IrScanReads(w, c, cfg, a, margin);
    BypassReads(w, c, cfg, b, margin);
    var d := Witness(w, c, cfg, b, tests[1], readouts[1]);
    LaterRead(w, c, cfg, margin, options);
    AllReadsOut(w, c, cfg, d, tests[2..], readouts[2..]);
    ReadsOutFirst(w, c, b, tests[1], d, readouts[1], tests[2..], readouts[2..]);
    ReadsOutFirst(w, c, a, tests[0], b, readouts[0], [tests[1]] + tests[2..], [readouts[1]] + readouts[2..]);
    assert [tests[0]] + ([tests[1]] + tests[2..]) == tests;
    assert [readouts[0]] + ([readouts[1]] + readouts[2..]) == readouts;
    ReadsOutFirst(w, c, t, TrstTest(cfg, margin), a, ResetReadout(cfg, margin), tests, readouts);
  }

  lemma FirstTwo(cfg: Config, margin: nat, options: Options)
    requires margin >= 1 && cfg.irWidth >= 1
    ensures var tests, readouts := TapTests(cfg, margin, options), TestReadouts(cfg, margin, options);
            && |tests| >= 2 && |readouts| >= 2
            && tests[0] == Test([], IrScan(cfg, margin)) && readouts[0] == LoadReadout(cfg, Period(margin) + Set(cfg.irWidth))
            && tests[1] == Test([], SentinelScan(1, margin)) && readouts[1] == BypassReadout(margin)
  {
    hide OpcodeTests, OpcodeReadouts, SelectInstruction, SentinelScan, LoadReadout, Through, TapPathTests, PathReadouts,
         HeldReadouts, CapturedReadouts, Pow2, Code, TapShows.Loaded, Period, IrScan, BypassReadout, Set;
  }

  // ---------------------------------------------------------------- what the program expects

  /** The expected bits of the shift cycles, in order. */
  function TdoOf(cycles: seq<TckCycle>): Bits {
    if cycles == [] then [] else (if cycles[0].shift then [cycles[0].tdo] else []) + TdoOf(cycles[1..])
  }

  /** The shift cycles expect `bits`, and every one of them is compared. */
  ghost predicate Carries(cycles: seq<TckCycle>, bits: Bits) {
    TdoOf(cycles) == bits && forall k :: 0 <= k < |cycles| && cycles[k].shift ==> cycles[k].care
  }

  lemma CarriesOn(first: TckCycle, x: Bits, rest: seq<TckCycle>, y: Bits)
    requires Carries(rest, y) && (first.shift ==> first.care) && x == if first.shift then [first.tdo] else []
    ensures Carries([first] + rest, x + y)
  {
    var cycles := [first] + rest;
    assert cycles[0] == first && cycles[1..] == rest;
  }

  lemma SameHeads(x: Bits, a: Bits, y: Bits, b: Bits)
    requires x + a == y + b && |x| == |y|
    ensures x == y && a == b
  {
    assert x == (x + a)[..|x|] && a == (x + a)[|x|..];
    assert y == (y + b)[..|y|] && b == (y + b)[|y|..];
  }

  lemma DriveState(w: Wiring<NetState>, c: Chain, t: Tap<NetState>, i: TckInput)
    requires Drive(w, c, t, i).Some?
    ensures var u := Drive(w, c, t, i).value.0;
            u.cfg == t.cfg && u.state == if i.trstN then NextState(t.state, i.tms) else TestLogicReset
  {
    hide NextState, Fresh;
  }

  /** Two models in the same state that show the same bits make the program compare them. */
  lemma {:induction false} BothCarry(wl: Wiring<NetState>, wh: Wiring<NetState>, c: Chain, l: Tap<NetState>, h: Tap<NetState>,
                                     ins: seq<TckInput>, bits: Bits)
    requires l.state == h.state && Ends(wl, c, l, ins).Some? && Ends(wh, c, h, ins).Some?
    requires Shown(wl, c, l, ins) == bits == Shown(wh, c, h, ins)
    ensures Expected(wl, wh, c, l, h, ins).Some? && Carries(Expected(wl, wh, c, l, h, ins).value, bits)
    ensures Ends(wl, c, l, ins).value.state == Ends(wh, c, h, ins).value.state
    decreases |ins|
  {
    hide Drive, Carries, NextState;
    if ins == [] {
      assert Carries([], []) by { NoneCarries(); }
    } else {
      var ((ul, tl), (uh, th)) := (Drive(wl, c, l, ins[0]).value, Drive(wh, c, h, ins[0]).value);
      DriveState(wl, c, l, ins[0]);
      DriveState(wh, c, h, ins[0]);
      var shift := ins[0].trstN && Shifting(l.state);
      var (xl, xh) := (if shift then [tl] else [], if shift then [th] else []);
      var rest := Shown(wl, c, ul, ins[1..]);
      SameHeads(xl, rest, xh, Shown(wh, c, uh, ins[1..]));
      BothCarry(wl, wh, c, ul, uh, ins[1..], rest);
      var here := Integrity.Expect(l.state, ins[0], tl, th);
      assert shift ==> xl[0] == xh[0];
      CarriesOn(here, xl, Expected(wl, wh, c, ul, uh, ins[1..]).value, rest);
    }
  }

  lemma NoneCarries()
    ensures Carries([], [])
  {
  }

  /** Test by test, the program's cycles expect the readouts. */
  ghost predicate TestsShow(cycles: seq<TckCycle>, tests: seq<Test>, readouts: seq<Bits>)
    decreases |tests|
  {
    && |tests| == |readouts|
    && (tests != [] ==>
          var n := |InputsOf(tests[0])|;
          n <= |cycles| && Carries(cycles[..n], readouts[0]) && TestsShow(cycles[n..], tests[1..], readouts[1..]))
  }

  lemma TestsShowFirst(here: seq<TckCycle>, rest: seq<TckCycle>, test: Test, bits: Bits, tests: seq<Test>, readouts: seq<Bits>)
    requires |here| == |InputsOf(test)| && Carries(here, bits) && TestsShow(rest, tests, readouts)
    ensures TestsShow(here + rest, [test] + tests, [bits] + readouts)
  {
    hide Carries, InputsOf;
    var cycles := here + rest;
    assert cycles[..|here|] == here && cycles[|here|..] == rest;
    assert ([test] + tests)[1..] == tests && ([bits] + readouts)[1..] == readouts;
  }

  function InputsOfAll(tests: seq<Test>): seq<TckInput> {
    if tests == [] then [] else InputsOf(tests[0]) + InputsOfAll(tests[1..])
  }

  lemma EndsReached(w: Wiring<NetState>, c: Chain, t: Tap<NetState>, ins: seq<TckInput>)
    requires Ends(w, c, t, ins).Some?
    ensures DriveAll(w, c, t, ins).Some? && Reached(w, c, t, ins) == Ends(w, c, t, ins).value
  {
  }

  lemma {:induction false} ListShows(wl: Wiring<NetState>, wh: Wiring<NetState>, c: Chain, l: Tap<NetState>, h: Tap<NetState>,
                                     tests: seq<Test>, readouts: seq<Bits>, rest: seq<TckInput>)
    requires l.state == h.state && ReadsOut(wl, c, l, tests, readouts) && ReadsOut(wh, c, h, tests, readouts)
    requires Expected(wl, wh, c, l, h, InputsOfAll(tests) + rest).Some?
    ensures TestsShow(Expected(wl, wh, c, l, h, InputsOfAll(tests) + rest).value, tests, readouts)
    decreases |tests|
  {
    hide Expected, Ends, Shown, InputsOf, TestsShow, Reached, DriveAll;
    if tests == [] {
      NoneShow(Expected(wl, wh, c, l, h, InputsOfAll(tests) + rest).value);
    } else {
      var ins, more := InputsOf(tests[0]), InputsOfAll(tests[1..]) + rest;
      var (ul, uh) := (Ends(wl, c, l, ins).value, Ends(wh, c, h, ins).value);
      assert InputsOfAll(tests) + rest == ins + more;
      BothCarry(wl, wh, c, l, h, ins, readouts[0]);
      EndsReached(wl, c, l, ins);
      EndsReached(wh, c, h, ins);
      ExpectedRest(wl, wh, c, l, h, ins, more);
      ExpectedJoin(wl, wh, c, l, h, ins, more);
      ListShows(wl, wh, c, ul, uh, tests[1..], readouts[1..], rest);
      TestsShowFirst(Expected(wl, wh, c, l, h, ins).value, Expected(wl, wh, c, ul, uh, more).value,
                     tests[0], readouts[0], tests[1..], readouts[1..]);
      assert [tests[0]] + tests[1..] == tests && [readouts[0]] + readouts[1..] == readouts;
    }
  }

  lemma NoneShow(cycles: seq<TckCycle>)
    ensures TestsShow(cycles, [], [])
  {
  }

  /** A run that can be stepped to its end can be from wherever part of it ends. */
  lemma {:induction false} ExpectedRest(wl: Wiring<NetState>, wh: Wiring<NetState>, c: Chain, l: Tap<NetState>,
                                        h: Tap<NetState>, a: seq<TckInput>, b: seq<TckInput>)
    requires DriveAll(wl, c, l, a).Some? && DriveAll(wh, c, h, a).Some? && Expected(wl, wh, c, l, h, a + b).Some?
    ensures Expected(wl, wh, c, Reached(wl, c, l, a), Reached(wh, c, h, a), b).Some?
    decreases |a|
  {
    hide Drive, Integrity.Expect;
    if a == [] {
      assert a + b == b;
    } else {
      assert (a + b)[0] == a[0] && (a + b)[1..] == a[1..] + b;
      ExpectedRest(wl, wh, c, Drive(wl, c, l, a[0]).value.0, Drive(wh, c, h, a[0]).value.0, a[1..], b);
    }
  }

  // ---------------------------------------------------------------- the built program

  lemma {:induction false} FramesOfClosed(tests: seq<Test>, rest: seq<Planned>)
    ensures Frames(Closed(tests) + rest) == InputsOfAll(tests) + Frames(rest)
  {
    hide InputsOf, CyclesOf;
    if tests == [] {
      assert Closed(tests) + rest == rest;
    } else {
      var all := Closed(tests) + rest;
      assert all[0] == Planned(tests[0], map[]) && all[1..] == Closed(tests[1..]) + rest;
      FramesOfClosed(tests[1..], rest);
      FramesFirst(tests[0]);
      assert InputsOf(tests[0]) + (InputsOfAll(tests[1..]) + Frames(rest))
          == InputsOf(tests[0]) + InputsOfAll(tests[1..]) + Frames(rest);
    }
  }

  lemma FramesFirst(test: Test)
    ensures test.leadIn + Inputs(CyclesOf(test)) == InputsOf(test)
  {
  }

  lemma {:induction false} FramesEnd(front: seq<Planned>, last: Planned)
    ensures Frames(front + [last]) == Frames(front) + InputsOf(last.test)
  {
    hide CyclesOf;
    if front == [] {
      assert front + [last] == [last] && [last][1..] == [];
      assert Frames([last]) == InputsOf(last.test) + [];
      assert [] + InputsOf(last.test) == InputsOf(last.test);
    } else {
      var all := front + [last];
      assert all[0] == front[0] && all[1..] == front[1..] + [last];
      FramesEnd(front[1..], last);
      var here := front[0].test.leadIn + Inputs(CyclesOf(front[0].test));
      assert here + (Frames(front[1..]) + InputsOf(last.test)) == here + Frames(front[1..]) + InputsOf(last.test);
    }
  }

  /** Tests that complete leave the TAP in Run-Test/Idle as it was configured. */
  lemma {:induction false} TrackedFront(w: Wiring<NetState>, c: Chain, t: Tap<NetState>, front: seq<Planned>,
                                        rest: seq<Planned>)
    requires Tracked(w, c, t, front + rest)
    ensures Tracked(w, c, t, front)
    ensures front != [] ==> EndOf(w, c, t, front).state == RunTestIdle
    decreases |front|
  {
    hide *;
    TrackedStep(w, c, t, front);
    if front != [] {
      var all := front + rest;
      assert all[0] == front[0] && all[1..] == front[1..] + rest;
      TrackedStep(w, c, t, all);
      TrackedFront(w, c, After(w, c, t, front[0].test), front[1..], rest);
      TrackedStep(w, c, After(w, c, t, front[0].test), front[1..]);
    }
  }

  lemma TrackedStep(w: Wiring<NetState>, c: Chain, t: Tap<NetState>, tests: seq<Planned>)
    ensures tests == [] ==> Tracked(w, c, t, tests) && EndOf(w, c, t, tests) == t
    ensures tests != [] ==>
              var u := After(w, c, t, tests[0].test);
              && (Tracked(w, c, t, tests)
                  <==> Completes(w, c, t, tests[0].test) && HasOpen(c, u, tests[0].believed) && Tracked(w, c, u, tests[1..]))
              && EndOf(w, c, t, tests) == EndOf(w, c, u, tests[1..])
              && (Completes(w, c, t, tests[0].test) ==> u.state == RunTestIdle)
  {
    hide After, HasOpen, Runs, ToCycles, Led;
  }

  lemma {:induction false} DriveKeepsConfig(w: Wiring<NetState>, c: Chain, t: Tap<NetState>, ins: seq<TckInput>)
    requires DriveAll(w, c, t, ins).Some?
    ensures DriveAll(w, c, t, ins).value.0.cfg == t.cfg
    decreases |ins|
  {
    hide Drive;
    if ins != [] {
      DriveState(w, c, t, ins[0]);
      DriveKeepsConfig(w, c, Drive(w, c, t, ins[0]).value.0, ins[1..]);
    }
  }

  /** Where the last test starts. */
  lemma LastStarts(w: Wiring<NetState>, c: Chain, t: Tap<NetState>, front: seq<Planned>, last: Planned)
    requires Tracked(w, c, t, front + [last]) && front != []
    ensures DriveAll(w, c, t, Frames(front)).Some?
    ensures Reached(w, c, t, Frames(front)).state == RunTestIdle && Reached(w, c, t, Frames(front)).cfg == t.cfg
  {
    hide Tracked, EndOf, Frames;
    TrackedFront(w, c, t, front, [last]);
    TrackedRuns(w, c, t, front);
    DriveKeepsConfig(w, c, t, Frames(front));
  }

  lemma ReadsShown(w: Wiring<NetState>, c: Chain, cfg: Config, t: Tap<NetState>, test: Test, bits: Bits)
    requires ReadsFrom(w, c, cfg, t, test, bits)
    ensures Ends(w, c, t, InputsOf(test)).Some? && Shown(w, c, t, InputsOf(test)) == bits
  {
    var u := Witness(w, c, cfg, t, test, bits);
  }

  /** What the tests are, first to last. */
  lemma TestsAre(cfg: Config, c: Chain, root: ModuleInstance, margin: nat, options: Options)
    returns (middle: seq<Planned>, believed: OpenMap)
    requires margin >= 1 && AllTests(cfg, c, root, margin, options).Some?
    ensures AllTests(cfg, c, root, margin, options).value
            == Closed([TrstTest(cfg, margin)] + TapTests(cfg, margin, options)) + middle
               + [Planned(ResetTest(cfg, margin), believed)]
  {
    hide TrstTest, TapTests, NetworkTests, ResetTest, Writes, ReadbackTests;
    var first := FirstTests(cfg, c, margin, options).value;
    var last := LastTests(c, root, options, Last(first).believed).value;
    var front := Closed([TrstTest(cfg, margin)] + TapTests(cfg, margin, options));
    middle := (if c.End? then [] else NetworkTests(cfg, c, margin, options).value) + last;
    believed := Last(first + last).believed;
    assert front + ((if c.End? then [] else NetworkTests(cfg, c, margin, options).value) + last) == first + last;
  }

  /** Every built program, whatever the network: in the tests of the TAP itself, from the TRST it starts with, and in
      the reset through TMS at its end, every shift cycle is compared, and the bits expected are the readouts: the
      register's captured value, then what the test feeds. */
  lemma TapIsCompared(cfg: Config, c: Chain, root: ModuleInstance, live: set<string>, values: map<string, int>,
                      margin: int, options: Options)
    requires Usable(cfg) && (c.End? || Network(c))
    requires BuildProgram(cfg, c, root, live, values, margin, options).Some?
    ensures margin >= 1 && cfg.irWidth >= 1
    ensures var cycles := BuildProgram(cfg, c, root, live, values, margin, options).value;
            var n := |InputsOf(ResetTest(cfg, margin))|;
            && TestsShow(cycles, [TrstTest(cfg, margin)] + TapTests(cfg, margin, options),
                         [ResetReadout(cfg, margin)] + TestReadouts(cfg, margin, options))
            && n <= |cycles| && Carries(cycles[|cycles| - n..], ResetReadout(cfg, margin))
  {
    hide *;
    TwoBits(cfg);
    ProgramBuilt(cfg, c, root, live, values, margin, options);
    BuiltCycles(cfg, c, root, live, values, margin, options);
    var tests := AllTests(cfg, c, root, margin, options).value;
    var start := ResetTap(cfg, NetState(Fresh(c), 0));
    var (low, high) := (ModelWorld(live, values, false), ModelWorld(live, values, true));
    BoundariesTracked(cfg, c, root, low, start, margin, options) by { Fresher(cfg, c); }
    BoundariesTracked(cfg, c, root, high, start, margin, options) by { Fresher(cfg, c); }
    var cycles := BuildProgram(cfg, c, root, live, values, margin, options).value;
    var (wl, wh) := (Rig(cfg, c, low), Rig(cfg, c, high));
    assert Expected(wl, wh, c, start, start, Frames(tests)) == Some(cycles) by { ProgramIs(cfg, c, live, values, Frames(tests)); }
    var middle, believed := TestsAre(cfg, c, root, margin, options);
    Fresher(cfg, c);
    TapShown(cfg, c, low, high, start, margin, options, middle + [Planned(ResetTest(cfg, margin), believed)]) by {
      Associates(Closed([TrstTest(cfg, margin)] + TapTests(cfg, margin, options)), middle,
                 [Planned(ResetTest(cfg, margin), believed)]);
    }
    ResetShown(cfg, c, low, high, start, margin,
               Closed([TrstTest(cfg, margin)] + TapTests(cfg, margin, options)) + middle, believed) by {
      ClosedSome(TrstTest(cfg, margin), TapTests(cfg, margin, options), middle);
    }
    Associates(Closed([TrstTest(cfg, margin)] + TapTests(cfg, margin, options)), middle,
               [Planned(ResetTest(cfg, margin), believed)]);
  }

  lemma Fresher(cfg: Config, c: Chain)
    ensures ResetTap(cfg, NetState(Fresh(c), 0)).cfg == cfg
  {
  }

  lemma Associates(a: seq<Planned>, b: seq<Planned>, d: seq<Planned>)
    ensures a + (b + d) == a + b + d
  {
  }

  lemma ClosedSome(test: Test, tests: seq<Test>, rest: seq<Planned>)
    ensures Closed([test] + tests) + rest != []
  {
  }

  /** The tests at the front of the program. */
  lemma TapShown(cfg: Config, c: Chain, low: World, high: World, start: Tap<NetState>, margin: nat, options: Options,
                 rest: seq<Planned>)
    requires Usable(cfg) && margin >= 1 && start.cfg == cfg
    requires var tests := Closed([TrstTest(cfg, margin)] + TapTests(cfg, margin, options)) + rest;
             Expected(Rig(cfg, c, low), Rig(cfg, c, high), c, start, start, Frames(tests)).Some?
    ensures cfg.irWidth >= 1
    ensures var tests := Closed([TrstTest(cfg, margin)] + TapTests(cfg, margin, options)) + rest;
            TestsShow(Expected(Rig(cfg, c, low), Rig(cfg, c, high), c, start, start, Frames(tests)).value,
                      [TrstTest(cfg, margin)] + TapTests(cfg, margin, options),
                      [ResetReadout(cfg, margin)] + TestReadouts(cfg, margin, options))
  {
    hide *;
    var (wl, wh) := (Rig(cfg, c, low), Rig(cfg, c, high));
    var mine := [TrstTest(cfg, margin)] + TapTests(cfg, margin, options);
    FramesOfClosed(mine, rest);
    TapReadsOut(wl, c, cfg, start, margin, options);
    TapReadsOut(wh, c, cfg, start, margin, options);
    ListShows(wl, wh, c, start, start, mine, [ResetReadout(cfg, margin)] + TestReadouts(cfg, margin, options), Frames(rest));
  }

  /** The test at its end. */
  lemma ResetShown(cfg: Config, c: Chain, low: World, high: World, start: Tap<NetState>, margin: nat,
                   front: seq<Planned>, believed: OpenMap)
    requires Usable(cfg) && margin >= 1 && start.cfg == cfg && front != []
    requires var tests := front + [Planned(ResetTest(cfg, margin), believed)];
             && Tracked(Rig(cfg, c, low), c, start, tests) && Tracked(Rig(cfg, c, high), c, start, tests)
             && Expected(Rig(cfg, c, low), Rig(cfg, c, high), c, start, start, Frames(tests)).Some?
    ensures var tests := front + [Planned(ResetTest(cfg, margin), believed)];
            var cycles := Expected(Rig(cfg, c, low), Rig(cfg, c, high), c, start, start, Frames(tests)).value;
            var n := |InputsOf(ResetTest(cfg, margin))|;
            n <= |cycles| && Carries(cycles[|cycles| - n..], ResetReadout(cfg, margin))
  {
    hide *;
    var (wl, wh) := (Rig(cfg, c, low), Rig(cfg, c, high));
    var last := Planned(ResetTest(cfg, margin), believed);
    var (a, b) := (Frames(front), InputsOf(ResetTest(cfg, margin)));
    FramesEnd(front, last);
    LastStarts(wl, c, start, front, last);
    LastStarts(wh, c, start, front, last);
    ExpectedRest(wl, wh, c, start, start, a, b);
    ExpectedJoin(wl, wh, c, start, start, a, b);
    var (l, h) := (Reached(wl, c, start, a), Reached(wh, c, start, a));
    TmsReads(wl, c, cfg, l, margin);
    TmsReads(wh, c, cfg, h, margin);
    ReadsShown(wl, c, cfg, l, ResetTest(cfg, margin), ResetReadout(cfg, margin));
    ReadsShown(wh, c, cfg, h, ResetTest(cfg, margin), ResetReadout(cfg, margin));
    BothCarry(wl, wh, c, l, h, b, ResetReadout(cfg, margin));
    var (x, y) := (Expected(wl, wh, c, start, start, a).value, Expected(wl, wh, c, l, h, b).value);
    assert |y| == |b|;
    assert (x + y)[|x + y| - |b|..] == y;
  }

  // ---------------------------------------------------------------- the closed network

  lemma {:induction false} ExpectedParts(wl: Wiring<NetState>, wh: Wiring<NetState>, c: Chain, l: Tap<NetState>,
                                         h: Tap<NetState>, a: seq<TckInput>, b: seq<TckInput>, rest: seq<TckInput>)
    requires DriveAll(wl, c, l, a).Some? && DriveAll(wh, c, h, a).Some?
    requires var (ul, uh) := (Reached(wl, c, l, a), Reached(wh, c, h, a));
             DriveAll(wl, c, ul, b).Some? && DriveAll(wh, c, uh, b).Some?
    requires Expected(wl, wh, c, l, h, a + (b + rest)).Some?
    ensures var (ul, uh) := (Reached(wl, c, l, a), Reached(wh, c, h, a));
            && Expected(wl, wh, c, ul, uh, b).Some?
            && |a| + |b| <= |Expected(wl, wh, c, l, h, a + (b + rest)).value|
            && Expected(wl, wh, c, l, h, a + (b + rest)).value[|a|..|a| + |b|] == Expected(wl, wh, c, ul, uh, b).value
  {
    hide Expected, DriveAll, Reached;
    var (ul, uh) := (Reached(wl, c, l, a), Reached(wh, c, h, a));
    ExpectedRest(wl, wh, c, l, h, a, b + rest);
    ExpectedJoin(wl, wh, c, l, h, a, b + rest);
    ExpectedRest(wl, wh, c, ul, uh, b, rest);
    ExpectedJoin(wl, wh, c, ul, uh, b, rest);
    MiddleOf(Expected(wl, wh, c, l, h, a).value, Expected(wl, wh, c, ul, uh, b).value,
             Expected(wl, wh, c, Reached(wl, c, ul, b), Reached(wh, c, uh, b), rest).value);
  }

  lemma MiddleOf(x: seq<TckCycle>, y: seq<TckCycle>, z: seq<TckCycle>)
    ensures (x + (y + z))[|x|..|x| + |y|] == y
  {
  }

  /** Where the tests of the TAP leave the network. */
  lemma TapLeaves(cfg: Config, c: Chain, world: World, start: Tap<NetState>, margin: nat, options: Options)
    requires Usable(cfg) && margin >= 1 && start.cfg == cfg
    ensures var (w, ins) := (Rig(cfg, c, world), InputsOfAll([TrstTest(cfg, margin)] + TapTests(cfg, margin, options)));
            && DriveAll(w, c, start, ins).Some?
            && var u := Reached(w, c, start, ins);
               Aside(cfg, u) && u.network.cells == Fresh(c) && u.state == RunTestIdle
  {
    hide *;
    var (w, mine) := (Rig(cfg, c, world), [TrstTest(cfg, margin)] + TapTests(cfg, margin, options));
    var u := TapCourse(w, cfg, c, start, margin, options);
    CourseTracked(w, c, start, Closed(mine), u);
    TrackedRuns(w, c, start, Closed(mine));
    FramesOfClosed(mine, []);
    NoFrames(Closed(mine), InputsOfAll(mine));
    RunsReach(w, c, start, Frames(Closed(mine)), u);
    RunsDriven(w, c, start, Frames(Closed(mine)), u);
    AsideIdle(cfg, u);
  }

  lemma NoFrames(tests: seq<Planned>, ins: seq<TckInput>)
    ensures tests + [] == tests && ins + Frames([]) == ins
  {
  }

  lemma RunsDriven(w: Wiring<NetState>, c: Chain, t: Tap<NetState>, ins: seq<TckInput>, u: Tap<NetState>)
    requires Runs(w, c, t, 0, ins, u, 0)
    ensures DriveAll(w, c, t, ins).Some?
  {
  }

  /** The first test of the network follows those of the TAP. */
  lemma ClosedFollows(cfg: Config, c: Chain, root: ModuleInstance, margin: nat, options: Options)
    returns (rest: seq<Planned>)
    requires margin >= 1 && !c.End? && AllTests(cfg, c, root, margin, options).Some?
    ensures AllTests(cfg, c, root, margin, options).value
            == Closed([TrstTest(cfg, margin)] + TapTests(cfg, margin, options))
               + ([Planned(ClosedTest(cfg, c, margin), map[])] + rest)
  {
    hide TrstTest, TapTests, ProbeTests, ResetTest, Writes, ReadbackTests, ClosedTest, Targets, HoldTests;
    var first := FirstTests(cfg, c, margin, options).value;
    var probes := ProbeTests(cfg, c, Targets(c), margin).value;
    FirstProbe(cfg, c, Targets(c), margin);
    var hold := if options.networkHold then HoldTests(cfg, c, Last(probes).believed, margin) else [];
    var last := LastTests(c, root, options, Last(first).believed).value;
    var reset := [Planned(ResetTest(cfg, margin), Last(first + last).believed)];
    rest := probes[1..] + hold + last + reset;
    var front := Closed([TrstTest(cfg, margin)] + TapTests(cfg, margin, options));
    assert probes == [probes[0]] + probes[1..];
    assert first == front + (probes + hold);
    assert front + ([probes[0]] + (probes[1..] + hold + last + reset)) == front + (probes + hold) + last + reset;
  }

  /** In every built program for a network, the test of the closed network is compared bit by bit whatever its
      instruments show: a 0 for every bit of the predicted length, and then the default pattern, on time. */
  lemma ClosedIsCompared(cfg: Config, c: Chain, root: ModuleInstance, live: set<string>, values: map<string, int>,
                         margin: int, options: Options)
    requires Usable(cfg) && Network(c)
    requires BuildProgram(cfg, c, root, live, values, margin, options).Some?
    ensures margin >= 1 && cfg.irWidth >= 1
    ensures var cycles := BuildProgram(cfg, c, root, live, values, margin, options).value;
            var n := |InputsOfAll([TrstTest(cfg, margin)] + TapTests(cfg, margin, options))|;
            var m := |InputsOf(ClosedTest(cfg, c, margin))|;
            n + m <= |cycles| && Carries(cycles[n..n + m], ClosedReadout(cfg, c, margin))
  {
    hide *;
    TwoBits(cfg);
    NotEmpty(c);
    ProgramBuilt(cfg, c, root, live, values, margin, options);
    BuiltCycles(cfg, c, root, live, values, margin, options);
    var tests := AllTests(cfg, c, root, margin, options).value;
    var start := ResetTap(cfg, NetState(Fresh(c), 0));
    Fresher(cfg, c);
    var (low, high) := (ModelWorld(live, values, false), ModelWorld(live, values, true));
    var (wl, wh) := (Rig(cfg, c, low), Rig(cfg, c, high));
    ProgramIs(cfg, c, live, values, Frames(tests));
    var rest := ClosedFollows(cfg, c, root, margin, options);
    var mine, closed := [TrstTest(cfg, margin)] + TapTests(cfg, margin, options), ClosedTest(cfg, c, margin);
    FramesOfClosed(mine, [Planned(closed, map[])] + rest);
    FramesOnce(closed, map[], rest);
    TapLeaves(cfg, c, low, start, margin, options);
    TapLeaves(cfg, c, high, start, margin, options);
    var (l, h) := (Reached(wl, c, start, InputsOfAll(mine)), Reached(wh, c, start, InputsOfAll(mine)));
    var ul := ClosedDisplays(cfg, c, low, l, margin);
    var uh := ClosedDisplays(cfg, c, high, h, margin);
    DisplaysIs(wl, c, l, InputsOf(closed), ul, ClosedReadout(cfg, c, margin));
    DisplaysIs(wh, c, h, InputsOf(closed), uh, ClosedReadout(cfg, c, margin));
    BothCarry(wl, wh, c, l, h, InputsOf(closed), ClosedReadout(cfg, c, margin));
    EndsReached(wl, c, l, InputsOf(closed));
    EndsReached(wh, c, h, InputsOf(closed));
    ExpectedParts(wl, wh, c, start, start, InputsOfAll(mine), InputsOf(closed), Frames(rest));
  }

  lemma NotEmpty(c: Chain)
    requires Network(c)
    ensures !c.End?
  {
    NetworkParts(c);
  }

  lemma FramesOnce(test: Test, believed: OpenMap, rest: seq<Planned>)
    ensures Frames([Planned(test, believed)] + rest) == InputsOf(test) + Frames(rest)
  {
    var all := [Planned(test, believed)] + rest;
    assert all[0].test == test && all[1..] == rest;
  }

  lemma DisplaysIs(w: Wiring<NetState>, c: Chain, t: Tap<NetState>, ins: seq<TckInput>, u: Tap<NetState>, bits: Bits)
    requires Displays(w, c, t, ins, u, bits)
    ensures Ends(w, c, t, ins) == Some(u) && Shown(w, c, t, ins) == bits
  {
  }
}
