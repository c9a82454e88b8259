/** Instruments inside an arm of the final ScanMux, behind a SIB of their own: where they are, and that
    TDO's tap then sits the whole select field before the end of the chain. */
module ArmReads {
  import opened Wrappers
  import opened Bits
  import opened IclModel
  import opened SibLayout
  import opened SibCells
  import opened SibShift
  import opened SibRound
  import opened SibRetarget
  import opened SibStaging
  import opened PathPlan
  import opened PdlSpec
  import opened Retargeting
  import opened ReadBack
  import opened LayoutWindow
  import opened LiveCells
  import opened SibReads

  /** The width of the select field that ends the chain. */
  function FieldWidth(c: Chain): nat {
    match c
    case End => 0
    case Sib(_, _, rest) => FieldWidth(rest)
    case Mux(_, selectWidth, _, rest) => if rest.End? then selectWidth else FieldWidth(rest)
  }

  /** The instrument is in the chain of an arm of the final ScanMux. */
  ghost predicate InFinalArm(c: Chain, above: Path, l: LeafSite) {
    match c
    case End => false
    case Sib(_, _, rest) => InFinalArm(rest, above, l)
    case Mux(name, _, arms, _) => l in ArmLeaves(arms, name, above) && !l.isMux
  }

  lemma {:induction false} FinalArmLeaf(c: Chain, above: Path, l: LeafSite)
    requires InFinalArm(c, above, l)
    ensures l in Leaves(c, above) && !l.isMux
  {
    if c.Sib? {
      FinalArmLeaf(c.rest, above, l);
    }
  }

  lemma {:induction false} NoFinalArm(c: Chain, above: Path, l: LeafSite)
    requires SibOnly(c)
    ensures !InFinalArm(c, above, l)
  {
    if c.Sib? {
      NoFinalArm(c.rest, above, l);
    }
  }

  /** Elsewhere on a good shape an instrument has only SIBs above it. */
  lemma {:induction false} SibsAbove(c: Chain, above: Path, l: LeafSite, i: nat) returns (t: Site)
    requires GoodShape(c) && l in Leaves(c, above) && !InFinalArm(c, above, l) && |above| <= i < |l.above|
    ensures t in Sites(c, above) && !t.isMux && t.name == l.above[i].name
  {
    match c
    case Sib(name, gate, rest) =>
      var here := above + [Step(name, 1)];
      if l in GateLeaves(gate, Step(name, 1), above, false) {
        LeafPath(gate.chain, here, l);
        if i == |above| {
          assert l.above[i] == Way(l)[..|here|][i] == here[i] by { assert |l.above| >= |here|; }
          t := Site(name, above, false, 2);
        } else {
          SibOnlyIsGood(gate.chain);
          NoFinalArm(gate.chain, here, l);
          t := SibsAbove(gate.chain, here, l, i);
        }
      } else {
        t := SibsAbove(rest, above, l, i);
      }
    case Mux(name, _, arms, _) =>
      LeafArmAbove(arms, name, above, l);
      assert false;
  }

  lemma {:induction false} LeafArmAbove(a: Arms, mux: string, above: Path, l: LeafSite)
    requires GoodArms(a) && l in ArmLeaves(a, mux, above) && l.isMux
    ensures l.above == above
  {
    var step := Step(mux, a.value);
    if l in GateLeaves(a.gate, step, above, true) {
      if a.gate.Net? {
        NoMuxLeaf(a.gate.chain, above + [step], l);
      }
    } else {
      LeafArmAbove(a.others, mux, above, l);
    }
  }

  /** Below a ScanMux, on a good shape, is inside an arm of the final one. */
  lemma InsideIsFinal(c: Chain, l: LeafSite)
    requires Network(c) && l in Leaves(c, []) && InsideArm(c, l)
    ensures InFinalArm(c, [], l)
  {
    hide Sites, Leaves, InFinalArm;
    NetworkParts(c);
    var s, i :| s in Sites(c, []) && s.isMux && 0 <= i < |l.above| && l.above[i].name == s.name;
    if !InFinalArm(c, [], l) {
      var t := SibsAbove(c, [], l, i);
      SiteKind(c, s, t);
    }
  }

  // ---------------------------------------------------------------- the tap

  lemma {:induction false} ArmIsClaimed(a: ArmCells, mux: string, above: Path, l: LeafSite)
    requires l in ArmLeaves(ArmTopo(a), mux, above)
    ensures |Way(l)| > |above| && Way(l)[|above|].name == mux && Claims(a, Way(l)[|above|].value)
  {
    var step := Step(mux, a.value);
    if l in GateLeaves(GateTopo(a.gate), step, above, true) {
      if a.gate.CNet? {
        LeafPath(Topo(a.gate.chain), above + [step], l);
        assert Way(l)[|above|] == Way(l)[..|above| + 1][|above|] == step;
      } else {
        assert Way(l) == above + [step];
      }
    } else {
      ArmIsClaimed(a.others, mux, above, l);
    }
  }

  /** With the way to it open, the tap sits the whole select field before the end of the chain. */
  lemma {:induction false} ArmIsTapped(h: Cells, above: Path, l: LeafSite, open: OpenMap)
    requires Sized(h) && Agrees(h, open) && GoodShape(Topo(h)) && Structured(Topo(h))
    requires InFinalArm(Topo(h), above, l) && Opened(open, Way(l))
    ensures Downstream(h) == FieldWidth(Topo(h)) >= 1
  {
    match h
    case CSib(_, _, _, _, rest) => ArmIsTapped(rest, above, l, open);
    case CMux(name, _, _, mpo, arms, rest) =>
      assert Topo(rest).End?;
      ArmIsClaimed(arms, name, above, l);
      assert Carries(open, Way(l)[|above|].name, Way(l)[|above|].value);
  }

  lemma {:induction false} ArmEndsInSelects(c: Chain, above: Path, l: LeafSite, open: OpenMap)
    requires GoodShape(c) && InFinalArm(c, above, l)
    ensures EndsInSelects(Live(c, open), FieldWidth(c))
  {
    match c
    case Sib(name, gate, rest) =>
      ArmEndsInSelects(rest, above, l, open);
      SelectsBehind((if name in open then LiveGate(gate, name, open) else []) + [Select(name in open)],
                    Live(rest, open), FieldWidth(rest));
    case Mux(name, selectWidth, arms, rest) =>
      var field := Reverse(FromInt(FieldOf(open, name), selectWidth));
      var own := if name in open then LiveArms(arms, open[name], name, open) else [];
      SelectsBehind(own, Selects(field), selectWidth);
      assert own + Selects(field) + [] == own + Selects(field);
  }

  lemma SelectsBehind(own: seq<LiveCell>, rest: seq<LiveCell>, m: nat)
    requires EndsInSelects(rest, m)
    ensures EndsInSelects(own + rest, m)
  {
    forall p | |own + rest| - m <= p < |own + rest| ensures (own + rest)[p].Select? {
      assert (own + rest)[p] == rest[p - |own|];
    }
  }

  // ---------------------------------------------------------------- its window

  lemma {:induction false} ArmWindowFound(c: Chain, above: Path, l: LeafSite, open: OpenMap, offset: nat)
    returns (at: nat)
    requires UniqueSlots(c) && GoodShape(c) && Structured(c) && InFinalArm(c, above, l) && Opened(open, Way(l))
    ensures TargetLayout(c, open, l.step.name, offset) == Some(Window(offset + at, l.inst.width, false))
  {
    match c
    case Sib(name, gate, rest) =>
      FinalArmLeaf(rest, above, l);
      LeafNames(rest, above, l);
      if gate.Net? {
        NoWindow(gate.chain, open, l.step.name, offset);
      }
      var own := (if name in open then GateLength(gate, open) else 0) + 1;
      var below := ArmWindowFound(rest, above, l, open, offset + own);
      at := own + below;
    case Mux(name, selectWidth, arms, rest) =>
      ArmLeafPath(arms, name, above, l);
      assert Carries(open, Way(l)[|above|].name, Way(l)[|above|].value);
      at := InnerWindowFound(arms, name, Pow2(selectWidth), above, l, open, offset);
      InnerLeafName(arms, name, above, l);
  }

  lemma {:induction false} InnerLeafName(a: Arms, mux: string, above: Path, l: LeafSite)
    requires l in ArmLeaves(a, mux, above) && !l.isMux
    ensures l.step.name in ArmSlots(a)
  {
    var step := Step(mux, a.value);
    if l in GateLeaves(a.gate, step, above, true) {
      LeafNames(a.gate.chain, above + [step], l);
    } else {
      InnerLeafName(a.others, mux, above, l);
    }
  }

  lemma {:induction false} InnerWindowFound(
    a: Arms, mux: string, limit: nat, above: Path, l: LeafSite, open: OpenMap, offset: nat) returns (at: nat)
    requires UniqueArmSlots(a) && GoodArms(a) && DistinctValues(a) && StructuredArms(a, limit)
    requires l in ArmLeaves(a, mux, above) && !l.isMux && Opened(open, Way(l))
    ensures |Way(l)| > |above| && Way(l)[|above|].value in ArmValues(a)
    ensures ArmTargetLayout(a, Way(l)[|above|].value, open, l.step.name, offset)
            == Some(Window(offset + at, l.inst.width, false))
  {
    var step := Step(mux, a.value);
    if l in GateLeaves(a.gate, step, above, true) {
      var here := above + [step];
      LeafPath(a.gate.chain, here, l);
      assert Way(l)[|above|] == Way(l)[..|here|][|above|] == step;
      SibOnlyIsGood(a.gate.chain);
      SibOnlyBypasses(a.gate.chain, open);
      at := WindowComposed(a.gate.chain, here, l, open, 0, offset);
    } else {
      at := InnerWindowFound(a.others, mux, limit, above, l, open, offset);
    }
  }

  // ---------------------------------------------------------------- the verdict

  /** What the check of a read inside an arm decides, from any state iApply can leave the way open in: it
      compares the cells a select field's width nearer TDI than the target's. */
  lemma ArmFieldShown(c: Chain, h: Cells, l: LeafSite, com: Committed, sense: Sense, payload: int, read: Expect)
    returns (at: nat)
    requires Network(c) && l in Leaves(c, []) && InsideArm(c, l)
    requires InStep(c, PathMap(Way(l)), com, h) && HighOf(read, l.inst.width) < l.inst.width
    ensures var open, seen := PathMap(Way(l)), Capture(h, sense, true);
            var (tdo, mask) := Expectation(c, open, l.step.name, read);
            && TargetLayout(c, open, l.step.name, 0) == Some(Window(at, l.inst.width, false))
            && 1 <= FieldWidth(c) <= |Live(c, open)| && at + l.inst.width <= |Live(c, open)|
            && Downstream(seen) <= |Raw(seen)| && tdo.Some? && mask.Some?
            && (Matches(ToInt(Emerged(Tapped(seen), Reverse(Compose(c, open, open, Some(l.step.name), payload)))),
                        tdo.value, mask.value)
                <==> FieldShown(Live(c, open), FieldWidth(c), at, com, sense, read, l.inst.width))
  {
    hide Leaves, Sites, PathMap, Matches, FieldShown, Raw, Compose, Capture, Sized, TargetLayout, InsideArm, ToInt,
         Network, Live, Downstream, EndsInSelects, GoodShape, Structured, UniqueSlots, InFinalArm, FieldWidth, Tapped,
         Expectation, Agrees;
    var open, seen := PathMap(Way(l)), Capture(h, sense, true);
    NetworkParts(c);
    InsideIsFinal(c, l);
    FinalArmLeaf(c, [], l);
    WayDistinct(c, l);
    StepOpen(l, open);
    GoodHasNoZero(c);
    CaptureKeeps(h, sense, true, open, com);
    ArmIsTapped(seen, [], l, open);
    ArmEndsInSelects(c, [], l, open);
    at := ArmWindowFound(c, [], l, open, 0);
    SibVerdict(c, h, l, com, sense, payload, read, open, Window(at, l.inst.width, false));
    TapFits(Live(c, open), FieldWidth(c));
  }

  lemma StepOpen(l: LeafSite, open: OpenMap)
    requires Opened(open, Way(l))
    ensures l.step.name in open
  {
    assert Way(l)[|l.above|] == l.step;
    assert Carries(open, Way(l)[|l.above|].name, Way(l)[|l.above|].value);
  }
}
