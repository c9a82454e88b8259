/** The probes of the integrity program (tap_integrity.py): every SIB and every ScanMux arm, and all SIBs
    together, opened from an all-closed network and probed. A probe leaves open what the builder takes it to,
    and commits nothing to any instrument. */
module IntegrityProbes {
  import opened Wrappers
  import opened Bits
  import opened IclModel
  import opened SibLayout
  import opened SibCells
  import opened SibShift
  import opened SibRound
  import opened SibRetarget
  import opened SibStaging
  import opened PathPlan
  import opened TapFsm
  import opened TapIr
  import opened TapModel
  import opened TapPlay
  import opened PdlSpec
  import opened Retargeting
  import opened ReadBack
  import opened OverShift

  // ---------------------------------------------------------------- the targets

  /** Every SIB and every ScanMux arm, depth first. */
  function ProbeTargets(c: Chain): seq<Path>
    decreases c
  {
    match c
    case End => []
    case Sib(name, gate, rest) => [[Step(name, 1)]] + GateTargets(gate) + ProbeTargets(rest)
    case Mux(name, _, arms, rest) => ArmTargets(name, arms) + ProbeTargets(rest)
  }

  function GateTargets(g: Gate): seq<Path>
    decreases g
  {
    match g
    case Leaf(_) => []
    case Net(chain) => ProbeTargets(chain)
  }

  function ArmTargets(mux: string, a: Arms): seq<Path>
    decreases a
  {
    match a
    case NoArms => []
    case Arm(value, gate, others) => [[Step(mux, value)]] + GateTargets(gate) + ArmTargets(mux, others)
  }

  function SibsOutsideMuxes(c: Chain): seq<string> {
    match c
    case End => []
    case Sib(name, gate, rest) =>
      [name] + (if gate.Net? then SibsOutsideMuxes(gate.chain) else []) + SibsOutsideMuxes(rest)
    case Mux(_, _, _, rest) => SibsOutsideMuxes(rest)
  }

  function AllSteps(names: seq<string>): Path {
    seq(|names|, i requires 0 <= i < |names| => Step(names[i], 1))
  }

  /** The probes in order; the last opens every SIB at once. */
  function Targets(c: Chain): seq<Path> {
    var sibs := SibsOutsideMuxes(c);
    ProbeTargets(c) + if |sibs| > 1 then [AllSteps(sibs)] else []
  }

  /** No two steps of the target ask one ScanMux for different arms. */
  ghost predicate Plannable(c: Chain, target: Path) {
    exists plan: OpenMap :: Follows(c, target, plan) && Proper(c, plan)
  }

  ghost predicate Carried(s: Site, value: int) { if s.isMux then 0 <= value < s.limit else value == 1 }

  /** One slot with its ancestors is a plan for itself. */
  lemma SlotPlan(c: Chain, s: Site, step: Step)
    requires Valid(c) && s in Sites(c, []) && step.name == s.name && Carried(s, step.value)
    ensures Plannable(c, [step])
  {
    hide UniqueSlots, Structured, Sites;
    var path := s.above + [step];
    forall i, j | 0 <= i < j < |path| ensures path[i].name != path[j].name {
      PathNamesDistinct(c, s, step, i, j);
    }
    var plan := PathMap(path);
    PathMapIs(path);
    assert s.above + [Step(s.name, if s.isMux then step.value else 1)] == path;
    assert Follows(c, [step], plan);
    forall t | t in Sites(c, []) && t.name in plan
      ensures if t.isMux then 0 <= plan[t.name] < t.limit else plan[t.name] == 1
    {
      var i :| 0 <= i < |path| && path[i].name == t.name;
      var u := PathSites(c, s, step, i);
      SiteKind(c, t, u);
      assert Carries(plan, path[i].name, path[i].value);
      if i < |s.above| {
        assert path[i] == s.above[i];
      } else {
        SiteKind(c, t, s);
      }
    }
  }

  /** Every target of a probe is one slot, asked for a value it can carry. */
  lemma {:induction false} TargetIsSlot(c: Chain, above: Path, p: Path) returns (s: Site)
    requires Structured(c) && p in ProbeTargets(c)
    ensures s in Sites(c, above) && |p| == 1 && p[0].name == s.name && Carried(s, p[0].value)
    decreases c, 1
  {
    match c
    case Sib(name, gate, rest) =>
      if p == [Step(name, 1)] {
        s := Site(name, above, false, 2);
      } else if p in GateTargets(gate) {
        s := TargetIsSlot(gate.chain, above + [Step(name, 1)], p);
      } else {
        s := TargetIsSlot(rest, above, p);
      }
    case Mux(name, width, arms, rest) =>
      if p in ArmTargets(name, arms) {
        s := ArmTargetIsSlot(arms, Site(name, above, true, Pow2(width)), p);
      } else {
        s := TargetIsSlot(rest, above, p);
      }
  }

  lemma {:induction false} ArmTargetIsSlot(a: Arms, mux: Site, p: Path) returns (s: Site)
    requires mux.isMux && StructuredArms(a, mux.limit) && p in ArmTargets(mux.name, a)
    ensures s == mux || s in ArmSites(a, mux.name, mux.above)
    ensures |p| == 1 && p[0].name == s.name && Carried(s, p[0].value)
    decreases a, 1
  {
    if p == [Step(mux.name, a.value)] {
      s := mux;
    } else if p in GateTargets(a.gate) {
      s := TargetIsSlot(a.gate.chain, mux.above + [Step(mux.name, a.value)], p);
    } else {
      s := ArmTargetIsSlot(a.others, mux, p);
    }
  }

  /** Every SIB, wherever it is, is probed by itself. */
  lemma {:induction false} EverySibIsProbed(c: Chain, above: Path, s: Site)
    requires s in Sites(c, above) && !s.isMux
    ensures [Step(s.name, 1)] in ProbeTargets(c)
    decreases c, 1
  {
    match c
    case Sib(name, gate, rest) =>
      if s in GateSites(gate, above + [Step(name, 1)]) {
        EverySibIsProbed(gate.chain, above + [Step(name, 1)], s);
      } else if s in Sites(rest, above) {
        EverySibIsProbed(rest, above, s);
      }
    case Mux(name, _, arms, rest) =>
      if s in ArmSites(arms, name, above) {
        EveryArmSibIsProbed(arms, name, above, s);
      } else {
        EverySibIsProbed(rest, above, s);
      }
  }

  lemma {:induction false} EveryArmSibIsProbed(a: Arms, mux: string, above: Path, s: Site)
    requires s in ArmSites(a, mux, above) && !s.isMux
    ensures [Step(s.name, 1)] in ArmTargets(mux, a)
    decreases a, 1
  {
    if s in GateSites(a.gate, above + [Step(mux, a.value)]) {
      EverySibIsProbed(a.gate.chain, above + [Step(mux, a.value)], s);
    } else {
      EveryArmSibIsProbed(a.others, mux, above, s);
    }
  }

  /** Every gate on the way to every instrument is probed by itself: every SIB there and every arm of a ScanMux. */
  lemma {:induction false} EveryStepIsProbed(c: Chain, above: Path, l: LeafSite, i: nat)
    requires l in Leaves(c, above) && |above| <= i < |Way(l)|
    ensures [Way(l)[i]] in ProbeTargets(c)
    decreases c, 1
  {
    match c
    case Sib(name, gate, rest) =>
      if l in GateLeaves(gate, Step(name, 1), above, false) {
        GateStepIsProbed(gate, Step(name, 1), above, false, l, i);
      } else {
        EveryStepIsProbed(rest, above, l, i);
      }
    case Mux(name, _, arms, rest) =>
      if l in ArmLeaves(arms, name, above) {
        ArmStepIsProbed(arms, name, above, l, i);
      } else {
        EveryStepIsProbed(rest, above, l, i);
      }
  }

  lemma {:induction false} GateStepIsProbed(g: Gate, step: Step, above: Path, isMux: bool, l: LeafSite, i: nat)
    requires l in GateLeaves(g, step, above, isMux) && |above| <= i < |Way(l)|
    ensures Way(l)[i] == step || [Way(l)[i]] in GateTargets(g)
    decreases g, 0
  {
    match g
    case Leaf(_) => assert Way(l) == above + [step];
    case Net(chain) =>
      var here := above + [step];
      if i == |above| {
        LeafPath(chain, here, l);
        assert Way(l)[i] == Way(l)[..|here|][i] == here[i];
      } else {
        EveryStepIsProbed(chain, here, l, i);
      }
  }

  lemma {:induction false} ArmStepIsProbed(a: Arms, mux: string, above: Path, l: LeafSite, i: nat)
    requires l in ArmLeaves(a, mux, above) && |above| <= i < |Way(l)|
    ensures [Way(l)[i]] in ArmTargets(mux, a)
    decreases a, 1
  {
    if l in GateLeaves(a.gate, Step(mux, a.value), above, true) {
      GateStepIsProbed(a.gate, Step(mux, a.value), above, true, l, i);
    } else {
      ArmStepIsProbed(a.others, mux, above, l, i);
    }
  }

  /** The probe of all SIBs at once names every SIB that is inside no ScanMux. */
  lemma {:induction false} EveryOutsideSib(c: Chain, above: Path, s: Site)
    requires s in Sites(c, above) && !s.isMux && UniqueSlots(c)
    requires forall i, m :: |above| <= i < |s.above| && m in Sites(c, above) && m.isMux ==> m.name != s.above[i].name
    ensures s.name in SibsOutsideMuxes(c)
    decreases c
  {
    match c
    case Sib(name, gate, rest) =>
      if s in GateSites(gate, above + [Step(name, 1)]) {
        EveryOutsideSib(gate.chain, above + [Step(name, 1)], s);
      } else if s in Sites(rest, above) {
        EveryOutsideSib(rest, above, s);
      }
    case Mux(name, width, arms, rest) =>
      assert Site(name, above, true, Pow2(width)) in Sites(c, above);
      if s in ArmSites(arms, name, above) {
        ArmSiteBelow(arms, name, above, s);
      } else {
        EveryOutsideSib(rest, above, s);
      }
  }

  lemma {:induction false} ArmSiteBelow(a: Arms, mux: string, above: Path, s: Site)
    requires s in ArmSites(a, mux, above)
    ensures |s.above| > |above| && s.above[|above|].name == mux
  {
    var here := above + [Step(mux, a.value)];
    if s in GateSites(a.gate, here) {
      SiteNames(a.gate.chain, here, s);
      assert s.above[|above|] == s.above[..|here|][|above|] == here[|above|];
    } else {
      ArmSiteBelow(a.others, mux, above, s);
    }
  }

  /** A SIB outside every ScanMux lies below SIBs outside every ScanMux. */
  lemma {:induction false} OutsideSite(c: Chain, above: Path, name: string) returns (s: Site)
    requires name in SibsOutsideMuxes(c)
    ensures s in Sites(c, above) && s.name == name && !s.isMux && |above| <= |s.above| && s.above[..|above|] == above
    ensures forall i :: |above| <= i < |s.above| ==> s.above[i].name in SibsOutsideMuxes(c) && s.above[i].value == 1
  {
    match c
    case Sib(own, gate, rest) =>
      if name == own {
        s := Site(name, above, false, 2);
      } else if gate.Net? && name in SibsOutsideMuxes(gate.chain) {
        var here := above + [Step(own, 1)];
        s := OutsideSite(gate.chain, here, name);
        assert s.above[|above|] == s.above[..|here|][|above|] == here[|above|];
        assert s.above[..|above|] == s.above[..|here|][..|above|] == above;
      } else {
        s := OutsideSite(rest, above, name);
      }
    case Mux(_, _, _, rest) => s := OutsideSite(rest, above, name);
  }

  lemma AllSibsPlan(c: Chain)
    requires Valid(c)
    ensures Plannable(c, AllSteps(SibsOutsideMuxes(c)))
  {
    hide Sites, Structured, UniqueSlots;
    var sibs := SibsOutsideMuxes(c);
    var plan := AllOpen(set n | n in sibs);
    var target := AllSteps(sibs);
    forall k | 0 <= k < |target| ensures FollowsOne(c, target[k], plan) {
      var s := OutsideSite(c, [], sibs[k]);
      assert Opened(plan, s.above + [Step(s.name, 1)]);
    }
    forall t | t in Sites(c, []) && t.name in plan ensures !t.isMux && plan[t.name] == 1 {
      var s := OutsideSite(c, [], t.name);
      SiteKind(c, s, t);
    }
    assert Follows(c, target, plan) && Proper(c, plan);
  }

  lemma TargetsArePlannable(c: Chain)
    requires Valid(c)
    ensures forall p: Path :: p in Targets(c) ==> Plannable(c, p)
  {
    hide Plannable, SibsOutsideMuxes, Sites;
    AllSibsPlan(c);
    forall p: Path | p in ProbeTargets(c) ensures Plannable(c, p) {
      var s := TargetIsSlot(c, [], p);
      assert p == [p[0]];
      SlotPlan(c, s, p[0]);
    }
  }

  // ---------------------------------------------------------------- the program

  /** _close_all. */
  function CloseAll(c: Chain, believed: OpenMap): seq<Op> {
    if believed == map[] then []
    else DrOps(ShiftDR(Length(c, believed), FeedOf(Compose(c, believed, map[], None, 0)), None, None))
  }

  /** _opened: what staging leaves from an all-closed network. */
  ghost function OpenedBy(c: Chain, target: Path): OpenMap {
    match Stage(c, target, map[])
    case None => map[]
    case Some(rounds) => LastOf(map[], rounds)
  }

  // ---------------------------------------------------------------- nothing is ever committed

  ghost predicate AllZero(com: Committed) {
    forall n :: n in com ==> com[n] == 0
  }

  lemma {:induction false} ZeroLatches(h: Cells, com: Committed)
    requires Latched(h, com) && AllZero(com)
    ensures Latched(h, map[])
  {
    match h
    case CEnd =>
    case CSib(_, _, _, gate, rest) =>
      ZeroGateLatches(gate, com);
      ZeroLatches(rest, com);
    case CMux(_, _, _, _, arms, rest) =>
      ZeroArmLatches(arms, com);
      ZeroLatches(rest, com);
  }

  lemma {:induction false} ZeroGateLatches(g: GateCells, com: Committed)
    requires LatchedGate(g, com) && AllZero(com)
    ensures LatchedGate(g, map[])
  {
    if g.CNet? {
      ZeroLatches(g.chain, com);
    }
  }

  lemma {:induction false} ZeroArmLatches(a: ArmCells, com: Committed)
    requires LatchedArms(a, com) && AllZero(com)
    ensures LatchedArms(a, map[])
  {
    if a.CArm? {
      ZeroGateLatches(a.gate, com);
      ZeroArmLatches(a.others, com);
    }
  }

  lemma {:induction false} HeldStaysZero(c: Chain, prior: OpenMap, rounds: seq<OpenMap>, com: Committed)
    requires AllZero(com)
    ensures AllZero(HeldAfter(c, prior, rounds, com))
    decreases |rounds|
  {
    if rounds != [] {
      HeldStaysZero(c, rounds[0], rounds[1..], Zeroed(c, prior, rounds[0], com));
    }
  }

  /** The network with exactly `believed` open and every WRITE instrument still at its reset value. */
  ghost predicate Clean(w: Wiring<NetState>, world: World, t: Tap<NetState>, c: Chain, believed: OpenMap) {
    && Ready(w, world, t) && InStep(c, believed, map[], t.network.cells)
    && Rooted(c, believed, believed) && Proper(c, believed)
  }

  lemma CloseAllPlays(w: Wiring<NetState>, world: World, t: Tap<NetState>, c: Chain, believed: OpenMap)
    requires Network(c) && Clean(w, world, t, c, believed)
    ensures Play(w, t, CloseAll(c, believed)).Some?
    ensures Clean(w, world, Play(w, t, CloseAll(c, believed)).value.0, c, map[])
  {
    hide Network, Agrees, Latched, Sized, Steppable, Commits, Compose, Length, Zeroed, Rooted, Proper, Capture, Emerged,
         Tapped, DrOps, FeedOf, AllZero;
    EmptyIsRooted(c);
    if believed != map[] {
      var held := Zeroed(c, believed, map[], map[]);
      assert Rooted(c, believed, map[]) by { NothingRooted(c, believed); }
      ZeroedRound(c, believed, map[], map[]);
      PlayRound(w, world, t, c, Round(believed, map[], None, 0, map[], held), None, None);
      var u := Play(w, t, CloseAll(c, believed)).value.0;
      assert AllZero(held) by { ZeroedIsZero(c, believed, map[], map[]); }
      ZeroLatches(u.network.cells, held);
    }
  }

  lemma NothingRooted(c: Chain, believed: OpenMap)
    ensures Rooted(c, believed, map[])
  {
  }

  lemma ZeroedIsZero(c: Chain, now: OpenMap, after: OpenMap, com: Committed)
    requires AllZero(com)
    ensures AllZero(Zeroed(c, now, after, com))
  {
  }

  /** One probe from a closed network. */
  lemma ProbePlays(w: Wiring<NetState>, world: World, t: Tap<NetState>, c: Chain, target: Path, margin: nat)
    requires Network(c) && Clean(w, world, t, c, map[]) && Plannable(c, target)
    ensures OvershiftOps(c, target, map[], margin, None).Some?
    ensures var ops := OvershiftOps(c, target, map[], margin, None).value;
            Play(w, t, ops).Some? && Clean(w, world, Play(w, t, ops).value.0, c, OpenedBy(c, target))
    ensures Completed(c, target, map[], OpenedBy(c, target))
  {
    hide Network, Agrees, Latched, Sized, Leaves, Sites, Stage, Play, Capture, Compose, Length, Zeroed, OvershiftOps,
         SentinelBits, HeldAfter, Raw, Tapped, Downstream, Emerged, Follows, Completed, Rooted, Proper, AllZero;
    var plan: OpenMap :| Follows(c, target, plan) && Proper(c, plan);
    var com: Committed := map[];
    var mid, open := OvershiftPlays(w, world, t, c, target, map[], plan, com, margin, None);
    var u := Play(w, t, OvershiftOps(c, target, map[], margin, None).value).value.0;
    var held := HeldAfter(c, map[], Stage(c, target, map[]).value, com);
    assert AllZero(com) by { NoneIsZero(); }
    HeldStaysZero(c, map[], Stage(c, target, map[]).value, com);
    ZeroedIsZero(c, open, open, held);
    ZeroLatches(u.network.cells, Zeroed(c, open, open, held));
  }

  lemma NoneIsZero()
    ensures AllZero(map[])
  {
  }

  lemma NothingPlanned(c: Chain)
    ensures Plannable(c, [])
  {
    assert Follows(c, [], map[]) && Proper(c, map[]);
  }

  lemma NothingOpened(c: Chain)
    ensures OpenedBy(c, []) == map[]
  {
  }
}
