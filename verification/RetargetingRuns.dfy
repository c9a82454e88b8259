/** Whole runs: any sequence of successful PDL commands, its program played on a reset network. */
module RetargetingRuns {
  import opened Wrappers
  import opened Bits
  import opened IclModel
  import opened SibLayout
  import opened SibCells
  import opened SibRound
  import opened SibRetarget
  import SibStaging
  import opened PathPlan
  import opened TapFsm
  import opened TapIr
  import opened TapModel
  import opened TapPlay
  import opened PdlSpec
  import opened Retargeting

  /** The part of a program the TAP pins see: a pulse on another pin leaves the TAP untouched. */
  function TapOps(ops: seq<Op>): seq<Op> {
    if ops == [] then []
    else (if ops[0].PulsePin? || ops[0].SetPins? then [] else [ops[0]]) + TapOps(ops[1..])
  }

  lemma {:induction false} TapOpsJoin(a: seq<Op>, b: seq<Op>)
    ensures TapOps(a + b) == TapOps(a) + TapOps(b)
  {
    if a == [] {
      assert a + b == b;
    } else {
      assert (a + b)[0] == a[0] && (a + b)[1..] == a[1..] + b;
      TapOpsJoin(a[1..], b);
      var here := if a[0].PulsePin? || a[0].SetPins? then [] else [a[0]];
      Regroup(here, TapOps(a[1..]), TapOps(b));
    }
  }

  lemma Regroup(here: seq<Op>, x: seq<Op>, y: seq<Op>)
    ensures here + (x + y) == here + x + y
  {
  }

  lemma {:induction false} ScansAreTapOps(ops: seq<Op>)
    requires forall i :: 0 <= i < |ops| ==> !ops[i].PulsePin? && !ops[i].SetPins?
    ensures TapOps(ops) == ops
  {
    if ops != [] {
      ScansAreTapOps(ops[1..]);
    }
  }

  lemma {:induction false} RoundOpsAreScans(c: Chain, prior: OpenMap, rounds: seq<OpenMap>)
    ensures forall i :: 0 <= i < |RoundOps(c, prior, rounds)| ==>
              RoundOps(c, prior, rounds)[i].GotoState? || RoundOps(c, prior, rounds)[i].ShiftDR?
    decreases |rounds|
  {
    if rounds != [] {
      RoundOpsAreScans(c, rounds[0], rounds[1..]);
    }
  }

  /** Waiting in Run-Test/Idle changes nothing. */
  lemma {:induction false} IdleHolds<D>(w: Wiring<D>, t: Tap<D>, n: nat)
    requires t.state == RunTestIdle
    ensures Ticks(w, t, Idle(Zeros(n))) == Some((t, Zeros(n)))
  {
    if n > 0 {
      assert Idle(Zeros(n))[1..] == Idle(Zeros(n - 1));
      IdleHolds(w, t, n - 1);
      assert [false] + Zeros(n - 1) == Zeros(n);
      assert t.(state := NextState(t.state, false)) == t;
    }
  }

  lemma PlayRunLoop<D>(w: Wiring<D>, t: Tap<D>, count: int)
    requires t.state == RunTestIdle
    ensures Play(w, t, [Runtest(count)]) == Some((t, []))
  {
    var n := if count < 0 then 0 else count;
    var none: seq<int> := [];
    IdleHolds(w, t, n);
    assert [Runtest(count)] + [] == [Runtest(count)] && none + none == none;
    PlayOne(w, t, Runtest(count), [], Idle(Zeros(n)), t, Zeros(n), t, none);
  }

  lemma RunPrefix(c: Chain, root: ModuleInstance, calls: seq<Call>)
    requires Run(c, root, calls).Some? && calls != []
    ensures var init := calls[..|calls| - 1];
            Run(c, root, init).Some?
            && Run(c, root, calls) == Do(c, root, Run(c, root, init).value, calls[|calls| - 1])
  {
  }

  /** A reset network is what a new interpreter assumes. */
  lemma ResetStarts(w: Wiring<NetState>, world: World, t: Tap<NetState>, c: Chain)
    requires Network(c) && Ready(w, world, t) && t.network.cells == Fresh(c)
    ensures Tracks(w, world, c, NewPdl, t)
  {
    FreshState(c);
  }

  /** For every network of good shape and every sequence of successful PDL commands: played on a
      network as reset leaves it, the program leaves open exactly the slots the interpreter thinks are open
      (none, or the way to the last target) and every WRITE instrument holding exactly the value
      the interpreter thinks it last committed, at every depth and in every arm. */
  lemma {:induction false} RunStaysInStep(
    w: Wiring<NetState>, world: World, t: Tap<NetState>, c: Chain, root: ModuleInstance, calls: seq<Call>)
    requires Network(c) && Tracks(w, world, c, NewPdl, t)
    requires Run(c, root, calls).Some?
    ensures PlaysTo(w, world, t, c, Run(c, root, calls).value)
    decreases |calls|
  {
    if calls != [] {
      RunPrefix(c, root, calls);
      RunStaysInStep(w, world, t, c, root, calls[..|calls| - 1]);
      var p := Run(c, root, calls[..|calls| - 1]).value;
      StepTracks(w, world, t, c, root, p, calls[|calls| - 1]);
    }
  }

  ghost predicate PlaysTo(w: Wiring<NetState>, world: World, t: Tap<NetState>, c: Chain, p: Pdl) {
    Play(w, t, TapOps(p.program)).Some? && Tracks(w, world, c, p, Play(w, t, TapOps(p.program)).value.0)
  }

  /** One more successful command. */
  lemma StepTracks(w: Wiring<NetState>, world: World, t: Tap<NetState>, c: Chain, root: ModuleInstance,
                   p: Pdl, call: Call)
    requires Network(c) && Do(c, root, p, call).Some? && PlaysTo(w, world, t, c, p)
    ensures PlaysTo(w, world, t, c, Do(c, root, p, call).value)
  {
    hide Network, PlaysTo, Apply, RunLoop;
    match call
    case IApply => StepApply(w, world, t, c, p);
    case IRunLoop(count, port) => StepRunLoop(w, world, t, c, p, count, port);
    case _ => StepQueued(w, world, t, c, p, Do(c, root, p, call).value);
  }

  /** Commands that only queue something leave the program and the state alone. */
  lemma StepQueued(w: Wiring<NetState>, world: World, t: Tap<NetState>, c: Chain, p: Pdl, q: Pdl)
    requires PlaysTo(w, world, t, c, p)
    requires q.program == p.program && q.open == p.open && q.committed == p.committed
    ensures PlaysTo(w, world, t, c, q)
  {
  }

  lemma StepApply(w: Wiring<NetState>, world: World, t: Tap<NetState>, c: Chain, p: Pdl)
    requires Network(c) && Apply(c, p).Some? && PlaysTo(w, world, t, c, p)
    ensures PlaysTo(w, world, t, c, Apply(c, p).value.pdl)
  {
    hide Network, InStep, Leaves, Play, PluggedIn, Apply, TapOps;
    var u := Play(w, t, TapOps(p.program)).value.0;
    var l := ApplyTarget(c, p);
    var mid := PlayApply(w, world, u, c, p, l);
    ApplyProgram(c, p, l);
    PlayCompose(w, t, TapOps(p.program), Apply(c, p).value.ops);
  }

  lemma StepRunLoop(w: Wiring<NetState>, world: World, t: Tap<NetState>, c: Chain, p: Pdl,
                    count: int, port: Option<string>)
    requires PlaysTo(w, world, t, c, p)
    ensures PlaysTo(w, world, t, c, RunLoop(p, count, port))
  {
    hide Network, InStep, Leaves, Play, PluggedIn;
    var u := Play(w, t, TapOps(p.program)).value.0;
    var op := if port.None? then Runtest(count) else PulsePin(port.value, count, []);
    TapOpsJoin(p.program, [op]);
    assert [op][1..] == [];
    if port.None? {
      PlayRunLoop(w, u, count);
      PlayCompose(w, t, TapOps(p.program), [op]);
      assert TapOps([op]) == [op] + TapOps([]) == [op];
    } else {
      assert TapOps([op]) == [] + TapOps([]) == [];
      assert TapOps(p.program) + [] == TapOps(p.program);
    }
  }

  lemma ApplyProgram(c: Chain, p: Pdl, l: LeafSite)
    requires Network(c) && Apply(c, p).Some? && l in Leaves(c, []) && p.scope == Some(l.inst.name)
    ensures TapOps(Apply(c, p).value.pdl.program) == TapOps(p.program) + Apply(c, p).value.ops
  {
    var a := Apply(c, p).value;
    var path := OpenPath(c, p.scope.value, []).value;
    var rounds := SibStaging.Stage(c, path, p.open).value;
    RoundOpsAreScans(c, p.open, rounds);
    TapOpsJoin(p.program, a.ops);
    ScansAreTapOps(a.ops);
  }
}
