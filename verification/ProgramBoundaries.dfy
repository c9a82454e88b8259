/** The integrity program's tests in order (tap_integrity.py): what is open at every boundary of the program
    as it is built. */
module ProgramBoundaries {
  import opened Wrappers
  import opened Bits
  import opened IclModel
  import opened SibLayout
  import opened SibCells
  import opened SibRound
  import opened SibRetarget
  import opened SibStaging
  import opened PathPlan
  import opened TapFsm
  import opened TapIr
  import opened TapModel
  import opened TapPlay
  import opened TapSelect
  import opened TapCycles
  import opened PdlSpec
  import opened Retargeting
  import opened RetargetingRuns
  import opened OverShift
  import opened Integrity
  import opened SelfCheckCycles
  import opened IntegrityProbes
  import opened ReadProbes
  import opened WriteReadback
  import opened WriteTargets
  import opened TestRuns
  import opened NetworkScans
  import opened IntegrityTests
  import opened QuietTests
  import opened NetworkHold
  import opened TestBoundaries

  /** The probes and what follows them leave the network on standby. */
  lemma NetworkCourse(cfg: Config, c: Chain, world: World, t: Tap<NetState>, margin: nat, options: Options)
    returns (u: Tap<NetState>)
    requires Usable(cfg) && margin >= 1 && Network(c)
    requires t.cfg == cfg && t.state == RunTestIdle && t.network.cells == Fresh(c)
    ensures NetworkTests(cfg, c, margin, options).Some?
    ensures var tests := NetworkTests(cfg, c, margin, options).value;
            && Course(Rig(cfg, c, world), c, t, tests, u)
            && Standby(Rig(cfg, c, world), world, cfg, u, c, Last(tests).believed)
  {
    var w := Rig(cfg, c, world);
    RigWired(cfg, c, world);
    hide Usable, Network, Course, Standby, Wired, Rig, Plannable, Targets, ProbeTests, HoldTests, Fresh;
    assert Valid(c) by { NetworkParts(c); }
    TargetsArePlannable(c);
    u := ProbesCourse(w, world, cfg, c, t, Targets(c), margin);
    var probes := ProbeTests(cfg, c, Targets(c), margin).value;
    if options.networkHold {
      var hold := HoldTests(cfg, c, Last(probes).believed, margin);
      var held := HoldCourse(cfg, c, world, u, Last(probes).believed, margin);
      CourseJoin(w, c, t, probes, u, hold, held);
      u := held;
      HoldEndsClosed(cfg, c, Last(probes).believed, margin);
    } else {
      assert probes + [] == probes;
    }
  }

  /** The tests before the first readback leave it so, whatever was there before TRST. */
  lemma FirstCourse(cfg: Config, c: Chain, world: World, t: Tap<NetState>, margin: nat, options: Options)
    returns (u: Tap<NetState>)
    requires Usable(cfg) && margin >= 1 && t.cfg == cfg && (c.End? || Network(c))
    ensures FirstTests(cfg, c, margin, options).Some?
    ensures var tests := FirstTests(cfg, c, margin, options).value;
            && Course(Rig(cfg, c, world), c, t, tests, u) && u.cfg == cfg && u.state == RunTestIdle
            && HasOpen(c, u, Last(tests).believed)
            && (!c.End? ==> Standby(Rig(cfg, c, world), world, cfg, u, c, Last(tests).believed))
  {
    var w, front := Rig(cfg, c, world), Closed([TrstTest(cfg, margin)] + TapTests(cfg, margin, options));
    hide Usable, Network, Course, Standby, TapTests, Aside, Rig, NetworkTests, HasOpen, Fresh, TrstTest;
    var mid := TapCourse(w, cfg, c, t, margin, options);
    assert mid.state == RunTestIdle && mid.cfg == cfg by { AsideWaits(cfg, mid); }
    if c.End? {
      u := mid;
      assert HasOpen(c, u, map[]) by { FreshOpens(c, u); }
    } else {
      u := NetworkCourse(cfg, c, world, mid, margin, options);
      var network := NetworkTests(cfg, c, margin, options).value;
      CourseJoin(w, c, t, front, mid, network, u);
      StandbyOpens(w, world, cfg, u, c, Last(network).believed);
      assert u.cfg == cfg by { StandbyConfig(w, world, cfg, u, c, Last(network).believed); }
    }
  }

  lemma AsideWaits(cfg: Config, t: Tap<NetState>)
    requires Aside(cfg, t)
    ensures t.state == RunTestIdle && t.cfg == cfg
  {
  }

  lemma FreshOpens(c: Chain, t: Tap<NetState>)
    requires t.network.cells == Fresh(c)
    ensures HasOpen(c, t, map[])
  {
    FreshState(c);
  }

  lemma StandbyConfig(w: Wiring<NetState>, world: World, cfg: Config, t: Tap<NetState>, c: Chain, open: OpenMap)
    requires Standby(w, world, cfg, t, c, open)
    ensures t.cfg == cfg
  {
  }

  lemma HoldEndsClosed(cfg: Config, c: Chain, open: OpenMap, margin: nat)
    ensures HoldTests(cfg, c, open, margin) != [] && Last(HoldTests(cfg, c, open, margin)).believed == map[]
  {
  }

  /** Every readback test can be built when there is none or every WRITE instrument can be addressed. */
  ghost predicate CanRead(c: Chain, root: ModuleInstance, options: Options) {
    c.End? || !options.writeReadback || Addressable(c, root)
  }

  /** The readback tests. */
  lemma LastCourse(cfg: Config, c: Chain, root: ModuleInstance, world: World, t: Tap<NetState>, options: Options,
                   open: OpenMap) returns (u: Tap<NetState>)
    requires (c.End? || Network(c)) && CanRead(c, root, options) && t.cfg == cfg && t.state == RunTestIdle
    requires !c.End? ==> Standby(Rig(cfg, c, world), world, cfg, t, c, open)
    ensures LastTests(c, root, options, open).Some?
    ensures var tests := LastTests(c, root, options, open).value;
            && Course(Rig(cfg, c, world), c, t, tests, u) && u.cfg == cfg && u.state == RunTestIdle
            && (tests == [] ==> u == t)
            && (tests != [] ==> HasOpen(c, u, Last(tests).believed))
  {
    hide Network, Course, Standby, Rig, HasOpen, ReadbackTests, Writes, Addressable, AllWritten, Reading, Run, Items, Calls;
    if c.End? || !options.writeReadback {
      u := t;
      NoCourse(Rig(cfg, c, world), c, t);
    } else {
      WritesAreWritten(c, root);
      var writes := Writes(c, root).value;
      u := ReadbackCourse(Rig(cfg, c, world), world, cfg, c, t, root, writes, open);
      if writes != [] {
        ReadingOpens(Rig(cfg, c, world), world, cfg, u, c, root, writes);
        ReadingConfig(Rig(cfg, c, world), world, cfg, u, c, root, writes);
        LastReading(c, root, writes, open);
      }
    }
  }

  lemma ReadingConfig(w: Wiring<NetState>, world: World, cfg: Config, t: Tap<NetState>, c: Chain, root: ModuleInstance,
                      writes: seq<Writable>)
    requires Reading(w, world, cfg, t, c, root, writes)
    ensures t.cfg == cfg && Run(c, root, Calls(Items(writes))).Some?
  {
  }

  lemma LastReading(c: Chain, root: ModuleInstance, writes: seq<Writable>, open: OpenMap)
    requires writes != [] && ReadbackTests(c, root, writes, open).Some?
    ensures Run(c, root, Calls(Items(writes))).Some?
    ensures Last(ReadbackTests(c, root, writes, open).value).believed == Run(c, root, Calls(Items(writes))).value.open
  {
    hide Run, Calls, Items, CloseAll;
  }

  /** At the end of every test of the built program, from any state of the TAP and the network behind it, the
      register has open exactly what the builder takes to be open, or in a readback test its interpreter;
      and every update on the way ends a scan as long as the live chain. */
  lemma BoundariesTracked(cfg: Config, c: Chain, root: ModuleInstance, world: World, t: Tap<NetState>, margin: nat,
                          options: Options)
    requires Usable(cfg) && margin >= 1 && t.cfg == cfg && (c.End? || Network(c)) && CanRead(c, root, options)
    ensures AllTests(cfg, c, root, margin, options).Some?
    ensures Tracked(Rig(cfg, c, world), c, t, AllTests(cfg, c, root, margin, options).value)
  {
    hide Usable, Network, Course, Standby, Rig, HasOpen, FirstTests, LastTests, CanRead, ResetTest;
    var w := Rig(cfg, c, world);
    var mid := FirstCourse(cfg, c, world, t, margin, options);
    var first := FirstTests(cfg, c, margin, options).value;
    var u := LastCourse(cfg, c, root, world, mid, options, Last(first).believed);
    var last := LastTests(c, root, options, Last(first).believed).value;
    LastOfTwo(first, last);
    var end := ResetCourse(w, cfg, c, u, margin, Last(first + last).believed);
    CourseJoin(w, c, t, first, mid, last, u);
    CourseJoin(w, c, t, first + last, u, [Planned(ResetTest(cfg, margin), Last(first + last).believed)], end);
    assert Tracked(w, c, t, AllTests(cfg, c, root, margin, options).value) by {
      CourseTracked(w, c, t, AllTests(cfg, c, root, margin, options).value, end);
    }
  }

  lemma CourseTracked(w: Wiring<NetState>, c: Chain, t: Tap<NetState>, tests: seq<Planned>, u: Tap<NetState>)
    requires Course(w, c, t, tests, u)
    ensures Tracked(w, c, t, tests) && EndOf(w, c, t, tests) == u
  {
  }

  lemma LastOfTwo(a: seq<Planned>, b: seq<Planned>)
    requires a != []
    ensures a + b != [] && Last(a + b) == if b == [] then Last(a) else Last(b)
  {
    if b == [] {
      assert a + b == a;
    }
  }
}
