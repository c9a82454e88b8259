/** The program's operations on the selected network, cycle by cycle: nothing but the network changes, and
    every update ends a scan as long as the live chain. */
module NetworkScans {
  import opened Wrappers
  import opened Bits
  import opened IclModel
  import opened SibLayout
  import opened SibCells
  import opened SibShift
  import opened SibRound
  import opened SibRetarget
  import opened SibStaging
  import opened SibReach
  import opened PathPlan
  import opened TapFsm
  import opened TapIr
  import opened TapModel
  import opened TapPlay
  import opened TapCycles
  import opened PdlSpec
  import opened Retargeting
  import opened RetargetingRuns
  import opened OverShift
  import opened Integrity
  import opened SelfCheckCycles
  import opened IntegrityProbes
  import opened TestRuns

  /** The operations, played from `t`. */
  ghost predicate Scans(w: Wiring<NetState>, c: Chain, t: Tap<NetState>, ops: seq<Op>) {
    && ToCycles(t.state, ops).Some? && Play(w, t, ops).Some?
    && var u := Play(w, t, ops).value.0;
       u == t.(network := u.network) && Runs(w, c, t, 0, Inputs(ToCycles(t.state, ops).value), u, 0)
  }

  lemma {:induction false} ToCyclesJoin(s: TapState, a: seq<Op>, b: seq<Op>)
    requires ToCycles(s, a).Some? && ToCycles(Walk(s, ToCycles(s, a).value), b).Some?
    ensures ToCycles(s, a + b) == Some(ToCycles(s, a).value + ToCycles(Walk(s, ToCycles(s, a).value), b).value)
    decreases |a|
  {
    hide OpCycles, Walk;
    if a == [] {
      assert a + b == b;
      WalkNothing(s);
      assert [] + ToCycles(s, b).value == ToCycles(s, b).value;
    } else {
      assert (a + b)[0] == a[0] && (a + b)[1..] == a[1..] + b;
      var x := OpCycles(s, a[0]).value;
      var y := ToCycles(Walk(s, x), a[1..]).value;
      WalkJoin(s, x, y);
      ToCyclesJoin(Walk(s, x), a[1..], b);
      var z := ToCycles(Walk(Walk(s, x), y), b).value;
      assert x + (y + z) == x + y + z;
    }
  }

  /** Playing walks the controller where its cycles walk it. */
  lemma PlayWalks<D>(w: Wiring<D>, t: Tap<D>, ops: seq<Op>)
    requires Play(w, t, ops).Some?
    ensures ToCycles(t.state, ops).Some?
    ensures Ticks(w, t, ToCycles(t.state, ops).value).Some?
    ensures Ticks(w, t, ToCycles(t.state, ops).value).value.0 == Play(w, t, ops).value.0
    ensures Walk(t.state, ToCycles(t.state, ops).value) == Play(w, t, ops).value.0.state
  {
    hide Play, Ticks, ToCycles, Walk, Cut;
    PlayCuts(w, t, ops);
    TicksLength(w, t, ToCycles(t.state, ops).value);
  }

  lemma ScansPlay(w: Wiring<NetState>, c: Chain, t: Tap<NetState>, ops: seq<Op>)
    requires Scans(w, c, t, ops)
    ensures Play(w, t, ops).Some?
  {
  }

  lemma NothingScans(w: Wiring<NetState>, c: Chain, t: Tap<NetState>)
    ensures Scans(w, c, t, []) && Play(w, t, []).value.0 == t
  {
    assert Inputs([]) == [];
  }

  lemma ScansJoin(w: Wiring<NetState>, c: Chain, t: Tap<NetState>, a: seq<Op>, b: seq<Op>)
    requires Scans(w, c, t, a) && Scans(w, c, Play(w, t, a).value.0, b)
    ensures Scans(w, c, t, a + b)
    ensures Play(w, t, a + b).value.0 == Play(w, Play(w, t, a).value.0, b).value.0
  {
    hide Play, ToCycles, Walk, Runs, Ticks;
    var u := Play(w, t, a).value.0;
    PlayWalks(w, t, a);
    PlayCompose(w, t, a, b);
    ToCyclesJoin(t.state, a, b);
    var (x, y) := (ToCycles(t.state, a).value, ToCycles(u.state, b).value);
    InputsJoin(x, y);
    RunsJoin(w, c, t, 0, Inputs(x), u, 0, Inputs(y), Play(w, u, b).value.0, 0);
  }

  // ---------------------------------------------------------------- one scan

  lemma DrOpsCycles(shift: Op)
    requires shift.ShiftDR? && shift.bits >= 1
    ensures ToCycles(RunTestIdle, DrOps(shift)) == Some(DrCycles(FromInt(shift.tdi, shift.bits)))
  {
    var fed, back := FromInt(shift.tdi, shift.bits), GotoState(RunTestIdle);
    ShiftExits(fed);
    Navigates();
    WalkNothing(RunTestIdle);
    hide Walk, Idle, ShiftCycles, FromInt, NavigationTms;
    assert [back] + [] == [back] && [shift] + [back] == [shift, back];
    assert DrOps(shift) == [GotoState(ShiftDrState)] + [shift, back];
    assert Exit1ToIdle() + [] == Exit1ToIdle();
    OneCycles(Exit1Dr, back, Exit1ToIdle(), [], []);
    OneCycles(ShiftDrState, shift, ShiftCycles(fed), [back], Exit1ToIdle());
    OneCycles(RunTestIdle, GotoState(ShiftDrState), ToShiftDr(), [shift, back], ShiftCycles(fed) + Exit1ToIdle());
    assert ToShiftDr() + (ShiftCycles(fed) + Exit1ToIdle()) == DrCycles(fed);
  }

  lemma OneCycles(s: TapState, op: Op, cycles: Cycles, rest: seq<Op>, after: Cycles)
    requires OpCycles(s, op) == Some(cycles) && ToCycles(Walk(s, cycles), rest) == Some(after)
    ensures ToCycles(s, [op] + rest) == Some(cycles + after)
  {
    hide OpCycles, Walk;
    assert ([op] + rest)[1..] == rest;
  }

  /** A scan of the network at least as long as its live chain. */
  lemma DrScans(w: Wiring<NetState>, world: World, c: Chain, t: Tap<NetState>, open: OpenMap, com: Committed, shift: Op)
    requires Network(c) && Waits(w, world, t) && InStep(c, open, com, t.network.cells)
    requires shift.ShiftDR? && Length(c, open) <= shift.bits
    ensures Scans(w, c, t, DrOps(shift)) && Waits(w, world, Play(w, t, DrOps(shift)).value.0)
  {
    hide Network, InStep, Length, Runs, DrScan, Inputs, ToCycles, DrCycles, FromInt, Capture, ShiftAll, Update;
    PositiveLength(c, open);
    var fed := FromInt(shift.tdi, shift.bits);
    ScanRuns(w, world, c, t, open, com, fed);
    DrOpsCycles(shift);
    PlayDr(w, t, NetworkRegister(world), shift);
    RunIsShiftAll(world, NetCapture(world, t.network), fed);
    DrScanIs(t.network.cells, world(t.network.captures), fed);
  }

  lemma DrScanIs(h: Cells, sense: Sense, fed: Bits)
    ensures DrScan(h, sense, fed).0 == Update(ShiftAll(Capture(h, sense, true), fed).0, true)
  {
  }

  // ---------------------------------------------------------------- retargeting scans, probes, closing

  lemma {:induction false} RoundsScan(w: Wiring<NetState>, world: World, c: Chain, t: Tap<NetState>, prior: OpenMap,
                                      rounds: seq<OpenMap>, com: Committed)
    requires Network(c) && Waits(w, world, t) && InStep(c, prior, com, t.network.cells)
    requires Rooted(c, prior, prior) && Proper(c, prior) && Staged(c, prior, rounds)
    ensures Scans(w, c, t, RoundOps(c, prior, rounds))
    ensures Waits(w, world, Play(w, t, RoundOps(c, prior, rounds)).value.0)
    decreases |rounds|
  {
    hide Network, Agrees, Latched, Sized, Leaves, Sites, Steppable, Commits, Compose, Length, Zeroed, Rooted, Proper,
         DrOps, FeedOf, Capture, Emerged, Tapped, Scans, Waits, Play;
    if rounds == [] {
      NothingScans(w, c, t);
    } else {
      var next := rounds[0];
      assert Before(prior, rounds, 0) == prior && StagedOne(c, prior, next);
      var held := Zeroed(c, prior, next, com);
      ZeroedRound(c, prior, next, com);
      var r := Round(prior, next, None, 0, com, held);
      var shift := ShiftDR(Length(c, prior), FeedOf(Scan(c, r)), None, None);
      WaitsReady(w, world, t);
      PlayRound(w, world, t, c, r, None, None);
      DrScans(w, world, c, t, prior, com, shift);
      var rest := rounds[1..];
      forall i | 0 <= i < |rest|
        ensures rest[i] == rounds[i + 1]
                && Before(next, rest, i) == Before(prior, rounds, i + 1)
      {
      }
      RoundsScan(w, world, c, Play(w, t, DrOps(shift)).value.0, next, rest, held);
      ScansJoin(w, c, t, DrOps(shift), RoundOps(c, next, rest));
    }
  }

  lemma WaitsReady(w: Wiring<NetState>, world: World, t: Tap<NetState>)
    requires Waits(w, world, t)
    ensures Ready(w, world, t)
  {
  }

  /** An over-shift probe. */
  lemma OvershiftScans(w: Wiring<NetState>, world: World, c: Chain, t: Tap<NetState>, target: Path, margin: nat)
    requires Network(c) && Waits(w, world, t) && Clean(w, world, t, c, map[]) && Plannable(c, target)
    ensures OvershiftOps(c, target, map[], margin, None).Some?
    ensures Scans(w, c, t, OvershiftOps(c, target, map[], margin, None).value)
  {
    hide Network, Agrees, Latched, Sized, Leaves, Sites, Stage, Play, Capture, Compose, Length, Zeroed,
         SentinelBits, HeldAfter, Raw, Tapped, Downstream, Emerged, Follows, Completed, Rooted, Proper, Scans, Waits,
         RoundOps, DrOps, ToInt;
    var plan: OpenMap :| Follows(c, target, plan) && Proper(c, plan);
    WaitsReady(w, world, t);
    TargetStaged(c, target, plan);
    var rounds := Stage(c, target, map[]).value;
    var com: Committed := map[];
    RoundsScan(w, world, c, t, map[], rounds, com);
    PlayScans(w, world, t, c, map[], rounds, com);
    var open, ops := LastOf(map[], rounds), RoundOps(c, map[], rounds);
    var mid := Play(w, t, ops).value.0;
    var probe := ProbeShift(c, open, SentinelBits(margin, None));
    ProbeIsLong(c, open, SentinelBits(margin, None));
    DrScans(w, world, c, mid, open, HeldAfter(c, map[], rounds, com), probe);
    ScansJoin(w, c, t, ops, DrOps(probe));
  }

  lemma ProbeIsLong(c: Chain, open: OpenMap, sentinel: Bits)
    ensures ProbeShift(c, open, sentinel).ShiftDR? && Length(c, open) <= ProbeShift(c, open, sentinel).bits
  {
    ComposeLength(c, open, open, None, 0);
  }

  lemma TargetStaged(c: Chain, target: Path, plan: OpenMap)
    requires Network(c) && Follows(c, target, plan) && Proper(c, plan)
    ensures Stage(c, target, map[]).Some?
    ensures Staged(c, map[], Stage(c, target, map[]).value)
  {
    NetworkParts(c);
    hide Network, Leaves, Sites, Stage, Structured, UniqueSlots, Follows, Proper;
    if target == [] {
      StageNothing(c, map[]);
    } else {
      StagingIsSound(c, target, map[], plan, Stage(c, target, map[]));
    }
  }

  /** The scan that closes what is open. */
  lemma CloseScans(w: Wiring<NetState>, world: World, c: Chain, t: Tap<NetState>, believed: OpenMap)
    requires Network(c) && Waits(w, world, t) && Clean(w, world, t, c, believed)
    ensures Scans(w, c, t, CloseAll(c, believed)) && Waits(w, world, Play(w, t, CloseAll(c, believed)).value.0)
  {
    hide Network, InStep, Length, Compose, Scans, Waits, Play, Rooted, Proper, FeedOf, DrOps;
    if believed == map[] {
      NothingScans(w, c, t);
    } else {
      DrScans(w, world, c, t, believed, map[],
              ShiftDR(Length(c, believed), FeedOf(Compose(c, believed, map[], None, 0)), None, None));
    }
  }

  // ---------------------------------------------------------------- an interpreter's program

  /** One iApply. */
  lemma ApplyScans(w: Wiring<NetState>, world: World, c: Chain, t: Tap<NetState>, p: Pdl)
    requires Network(c) && Waits(w, world, t) && Tracks(w, world, c, p, t) && Apply(c, p).Some?
    ensures Scans(w, c, t, Apply(c, p).value.ops) && Waits(w, world, Play(w, t, Apply(c, p).value.ops).value.0)
  {
    hide Network, Agrees, Latched, Sized, Leaves, Sites, Stage, Play, Capture, Compose, Length, Zeroed,
         HeldAfter, Raw, Tapped, Downstream, Emerged, Rooted, Proper, Scans, Waits, RoundOps, Apply, DrOps, OpenState,
         PathMap;
    assert OpenState(c, p.open);
    var l := ApplyTarget(c, p);
    var rounds := Stage(c, Way(l), p.open).value;
    ApplyStaged(c, p, l);
    RoundsScan(w, world, c, t, p.open, rounds, p.committed);
    PlayScans(w, world, t, c, p.open, rounds, p.committed);
    var live, ops := LastOf(p.open, rounds), RoundOps(c, p.open, rounds);
    var mid := Play(w, t, ops).value.0;
    var shift := ApplyShift(c, p, l);
    DrScans(w, world, c, mid, live, HeldAfter(c, p.open, rounds, p.committed), shift);
    ScansJoin(w, c, t, ops, DrOps(shift));
  }

  lemma ApplyStaged(c: Chain, p: Pdl, l: LeafSite)
    requires Network(c) && OpenState(c, p.open) && l in Leaves(c, []) && Stage(c, Way(l), p.open).Some?
    ensures Staged(c, p.open, Stage(c, Way(l), p.open).value)
    ensures Rooted(c, p.open, p.open) && Proper(c, p.open)
  {
    NetworkParts(c);
    hide Network, Leaves, Sites, Stage, Valid, Rooted, Proper;
    StageForWay(c, l, p.open);
    OpenStateIsRooted(c, p.open);
  }

  /** The last scan of an iApply. */
  lemma ApplyShift(c: Chain, p: Pdl, l: LeafSite) returns (shift: Op)
    requires Network(c) && Apply(c, p).Some? && OpenState(c, p.open) && l in Leaves(c, []) && p.scope == Some(l.inst.name)
    requires OpenPath(c, l.inst.name, []) == Some(Way(l)) && Stage(c, Way(l), p.open).Some?
    ensures var rounds := Stage(c, Way(l), p.open).value;
            shift.ShiftDR? && shift.bits == Length(c, LastOf(p.open, rounds))
            && Apply(c, p).value.ops == RoundOps(c, p.open, rounds) + DrOps(shift)
  {
    hide Network, Length, Compose, Leaves, Stage, RoundOps;
    ApplyProgram(c, p, l);
    var rounds := Stage(c, Way(l), p.open).value;
    var phase2 := Apply(c, p).value.ops[|RoundOps(c, p.open, rounds)|..];
    shift := phase2[1];
  }

  /** One command other than iRunLoop: what it appends to the program, played. */
  lemma StepScans(w: Wiring<NetState>, world: World, c: Chain, t: Tap<NetState>, root: ModuleInstance, p: Pdl, call: Call)
    returns (added: seq<Op>)
    requires Network(c) && Waits(w, world, t) && Tracks(w, world, c, p, t)
    requires !call.IRunLoop? && Do(c, root, p, call).Some?
    ensures var q := Do(c, root, p, call).value;
            && q.program == p.program + added && Scans(w, c, t, added)
            && var u := Play(w, t, added).value.0; Waits(w, world, u) && Tracks(w, world, c, q, u)
  {
    hide Network, Scans, Waits, Apply, Play, Target, Write, Read, InStep, OpenState, PluggedIn;
    if call.IApply? {
      added := Apply(c, p).value.ops;
      assert OpenState(c, p.open);
      ApplyScans(w, world, c, t, p);
      var l := ApplyTarget(c, p);
      var mid := PlayApply(w, world, t, c, p, l);
      AppliedProgram(c, p);
    } else {
      added := [];
      QueuedKeeps(c, root, p, call);
      NothingScans(w, c, t);
      assert p.program + [] == p.program;
    }
  }

  lemma QueuedKeeps(c: Chain, root: ModuleInstance, p: Pdl, call: Call)
    requires !call.IRunLoop? && !call.IApply? && Do(c, root, p, call).Some?
    ensures var q := Do(c, root, p, call).value;
            q.program == p.program && q.open == p.open && q.committed == p.committed
  {
  }

  lemma AppliedProgram(c: Chain, p: Pdl)
    requires Apply(c, p).Some?
    ensures Apply(c, p).value.pdl.program == p.program + Apply(c, p).value.ops
  {
    hide Stage, RoundOps, DrOps, PayloadShift, OpenPath;
  }

  /** What a run of such commands appends. */
  lemma {:induction false} MoreScans(w: Wiring<NetState>, world: World, c: Chain, t: Tap<NetState>, root: ModuleInstance,
                                     calls: seq<Call>, more: seq<Call>) returns (added: seq<Op>)
    requires Network(c) && Run(c, root, calls).Some? && Run(c, root, calls + more).Some?
    requires Waits(w, world, t) && Tracks(w, world, c, Run(c, root, calls).value, t)
    requires forall k :: 0 <= k < |more| ==> !more[k].IRunLoop?
    ensures var q := Run(c, root, calls + more).value;
            && q.program == Run(c, root, calls).value.program + added && Scans(w, c, t, added)
            && var u := Play(w, t, added).value.0; Waits(w, world, u) && Tracks(w, world, c, q, u)
    decreases |more|
  {
    hide Network, Scans, Waits, Tracks, Do, Play;
    if more == [] {
      assert calls + more == calls;
      added := [];
      NothingScans(w, c, t);
      assert Run(c, root, calls).value.program + [] == Run(c, root, calls).value.program;
    } else {
      var init, last := more[..|more| - 1], more[|more| - 1];
      assert (calls + more)[..|calls + more| - 1] == calls + init;
      RunPrefix(c, root, calls + more);
      var a := MoreScans(w, world, c, t, root, calls, init);
      ScansPlay(w, c, t, a);
      var u := Play(w, t, a).value.0;
      var b := StepScans(w, world, c, u, root, Run(c, root, calls + init).value, last);
      ScansJoin(w, c, t, a, b);
      added := a + b;
      assert Run(c, root, calls).value.program + a + b == Run(c, root, calls).value.program + added;
    }
  }
}
