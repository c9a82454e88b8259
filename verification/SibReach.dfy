/** From slots and paths to the cells: which rounds the hardware can do, and which it cannot. */
module SibReach {
  import opened Wrappers
  import opened Bits
  import opened IclModel
  import opened SibLayout
  import opened SibCells
  import opened SibShift
  import opened SibRound
  import opened SibRetarget
  import opened SibStaging

  // ---------------------------------------------------------------- rounds that can be done

  ghost predicate SiteOk(r: Round, s: Site) {
    && (s.name in r.now || s.name in r.after ==> Opened(r.now, s.above))
    && (s.name in r.now ==> if s.isMux then 0 <= r.now[s.name] < s.limit else r.now[s.name] == 1)
    && (s.name in r.after ==> if s.isMux then 0 <= r.after[s.name] < s.limit else r.after[s.name] == 1)
  }

  lemma OpenedMore(open: OpenMap, above: Path, step: Step)
    ensures Opened(open, above + [step]) <==> Opened(open, above) && Carries(open, step.name, step.value)
  {
    assert (above + [step])[|above|] == step;
    assert forall i :: 0 <= i < |above| ==> (above + [step])[i] == above[i];
  }

  lemma {:induction false} SteppableFromSites(c: Chain, r: Round, above: Path)
    requires NoZeroArm(c) && forall s :: s in Sites(c, above) ==> SiteOk(r, s)
    ensures Steppable(c, r, Opened(r.now, above))
  {
    match c
    case End =>
    case Sib(name, gate, rest) =>
      assert SiteOk(r, Site(name, above, false, 2));
      OpenedMore(r.now, above, Step(name, 1));
      if gate.Net? {
        assert forall s :: s in Sites(gate.chain, above + [Step(name, 1)]) ==> s in Sites(c, above);
        SteppableFromSites(gate.chain, r, above + [Step(name, 1)]);
      }
      SteppableFromSites(rest, r, above);
    case Mux(name, selectWidth, arms, rest) =>
      assert SiteOk(r, Site(name, above, true, Pow2(selectWidth)));
      SteppableArmsFromSites(arms, name, r, above);
      SteppableFromSites(rest, r, above);
  }

  lemma {:induction false} SteppableArmsFromSites(a: Arms, mux: string, r: Round, above: Path)
    requires NoZeroArms(a) && forall s :: s in ArmSites(a, mux, above) ==> SiteOk(r, s)
    requires mux in r.now ==> Opened(r.now, above)
    ensures SteppableArms(a, r, FieldOf(r.now, mux))
  {
    if a.Arm? {
      OpenedMore(r.now, above, Step(mux, a.value));
      if a.gate.Net? {
        assert forall s :: s in Sites(a.gate.chain, above + [Step(mux, a.value)]) ==> s in ArmSites(a, mux, above);
        SteppableFromSites(a.gate.chain, r, above + [Step(mux, a.value)]);
      }
      SteppableArmsFromSites(a.others, mux, r, above);
    }
  }

  /** A round that opens only slots below what is open, starting from such a state, is one the
      hardware does in a single Update-DR. */
  lemma RoundCanBeDone(c: Chain, r: Round)
    requires NoZeroArm(c) && Proper(c, r.now) && Proper(c, r.after)
    requires Rooted(c, r.now, r.now) && Rooted(c, r.now, r.after)
    ensures Steppable(c, r, true)
  {
    SteppableFromSites(c, r, []);
  }

  // ---------------------------------------------------------------- what a round commits

  ghost predicate Stays(l: LeafSite, now: OpenMap, after: OpenMap) {
    if l.isMux then l.step.value == FieldOf(now, l.step.name) && l.step.value == FieldOf(after, l.step.name)
    else l.step.name in now && l.step.name in after
  }

  ghost predicate LeafOk(r: Round, l: LeafSite) {
    l.inst.direction.WRITE? ==>
      Held(r.held, l.inst) == if !Stays(l, r.now, r.after) then Held(r.com, l.inst)
                              else if r.target == Some(l.step.name) then FromInt(r.payload, l.inst.width)
                              else Zeros(l.inst.width)
  }

  lemma {:induction false} CommitsFromLeaves(c: Chain, r: Round, above: Path)
    requires forall l :: l in Leaves(c, above) ==> LeafOk(r, l)
    ensures Commits(c, r)
  {
    match c
    case End =>
    case Sib(name, gate, rest) =>
      assert forall l :: l in GateLeaves(gate, Step(name, 1), above, false) ==> l in Leaves(c, above);
      if gate.Net? {
        CommitsFromLeaves(gate.chain, r, above + [Step(name, 1)]);
      } else {
        assert LeafSite(Step(name, 1), above, false, gate.inst) in Leaves(c, above);
      }
      CommitsFromLeaves(rest, r, above);
    case Mux(name, selectWidth, arms, rest) =>
      CommitsArmsFromLeaves(arms, name, r, above);
      CommitsFromLeaves(rest, r, above);
  }

  lemma {:induction false} CommitsArmsFromLeaves(a: Arms, mux: string, r: Round, above: Path)
    requires forall l :: l in ArmLeaves(a, mux, above) ==> LeafOk(r, l)
    ensures CommitsArms(a, r, FieldOf(r.now, mux), FieldOf(r.after, mux), r.target == Some(mux))
  {
    if a.Arm? {
      assert forall l :: l in GateLeaves(a.gate, Step(mux, a.value), above, true) ==> l in ArmLeaves(a, mux, above);
      if a.gate.Net? {
        CommitsFromLeaves(a.gate.chain, r, above + [Step(mux, a.value)]);
      } else {
        assert LeafSite(Step(mux, a.value), above, true, a.gate.inst) in ArmLeaves(a, mux, above);
      }
      CommitsArmsFromLeaves(a.others, mux, r, above);
    }
  }

  // ---------------------------------------------------------------- rounds that cannot be done

  /** Whatever is shifted in, one Update-DR cannot change a slot below a closed one. */
  lemma {:induction false} UpdateReaches(h: Cells, h': Cells, now: OpenMap, after: OpenMap, above: Path, s: Site)
    requires Topo(h') == Topo(h) && Agrees(h, now) && Agrees(h', after)
    requires SamePo(h, h', Opened(now, above)) && NoZeroArm(Topo(h))
    requires s in Sites(Topo(h), above) && !Opened(now, s.above)
    requires forall t :: t in Sites(Topo(h), above) && t.name in now ==> t.isMux || now[t.name] == 1
    ensures !s.isMux ==> (s.name in after <==> s.name in now)
    ensures s.isMux ==> FieldOf(after, s.name) == FieldOf(now, s.name)
  {
    match h
    case CEnd =>
    case CSib(name, _, po, gate, rest) =>
      var here := above + [Step(name, 1)];
      OpenedMore(now, above, Step(name, 1));
      assert Site(name, above, false, 2) in Sites(Topo(h), above);
      if s in GateSites(GateTopo(gate), here) {
        UpdateReaches(gate.chain, h'.gate.chain, now, after, here, s);
      } else if s in Sites(Topo(rest), above) {
        UpdateReaches(rest, h'.rest, now, after, above, s);
      }
    case CMux(name, _, _, _, arms, rest) =>
      if s in ArmSites(ArmTopo(arms), name, above) {
        ArmUpdateReaches(arms, h'.arms, name, now, after, above, s);
      } else if s in Sites(Topo(rest), above) {
        UpdateReaches(rest, h'.rest, now, after, above, s);
      }
  }

  lemma {:induction false} ArmUpdateReaches(
    a: ArmCells, a': ArmCells, mux: string, now: OpenMap, after: OpenMap, above: Path, s: Site)
    requires ArmTopo(a') == ArmTopo(a) && AgreesArms(a, now) && AgreesArms(a', after)
    requires SamePoArms(a, a', Opened(now, above), FieldOf(now, mux)) && NoZeroArms(ArmTopo(a))
    requires s in ArmSites(ArmTopo(a), mux, above) && !Opened(now, s.above)
    requires forall t :: t in ArmSites(ArmTopo(a), mux, above) && t.name in now ==> t.isMux || now[t.name] == 1
    ensures !s.isMux ==> (s.name in after <==> s.name in now)
    ensures s.isMux ==> FieldOf(after, s.name) == FieldOf(now, s.name)
  {
    var here := above + [Step(mux, a.value)];
    OpenedMore(now, above, Step(mux, a.value));
    if s in GateSites(GateTopo(a.gate), here) {
      UpdateReaches(a.gate.chain, a'.gate.chain, now, after, here, s);
    } else {
      ArmUpdateReaches(a.others, a'.others, mux, now, after, above, s);
    }
  }

  /** `h'` has the update stages of `h` wherever the select is not live. */
  ghost predicate SamePo(h: Cells, h': Cells, live: bool)
    requires Topo(h') == Topo(h)
  {
    match h
    case CEnd => true
    case CSib(_, _, po, gate, rest) =>
      && (!live ==> h'.po == po) && SamePoGate(gate, h'.gate, live && po) && SamePo(rest, h'.rest, live)
    case CMux(_, _, _, mpo, arms, rest) =>
      && (!live ==> h'.mpo == mpo) && SamePoArms(arms, h'.arms, live, Value(mpo))
      && SamePo(rest, h'.rest, live)
  }

  ghost predicate SamePoGate(g: GateCells, g': GateCells, live: bool)
    requires GateTopo(g') == GateTopo(g)
  {
    g.CLeaf? || SamePo(g.chain, g'.chain, live)
  }

  ghost predicate SamePoArms(a: ArmCells, a': ArmCells, live: bool, value: int)
    requires ArmTopo(a') == ArmTopo(a)
  {
    match a
    case CNoArms => true
    case CArm(v, gate, others) =>
      SamePoGate(gate, a'.gate, live && v == value) && SamePoArms(others, a'.others, live, value)
  }

  lemma {:induction false} UpdateSamePo(h: Cells, live: bool)
    ensures Topo(Update(h, live)) == Topo(h) && SamePo(h, Update(h, live), live)
  {
    match h
    case CEnd =>
    case CSib(_, ff, po, gate, rest) =>
      UpdateGateSamePo(gate, live && po, live && po && ff);
      UpdateSamePo(rest, live);
    case CMux(_, _, mff, mpo, arms, rest) =>
      UpdateArmsSamePo(arms, live, Value(mpo), Value(mff));
      UpdateSamePo(rest, live);
  }

  lemma {:induction false} UpdateGateSamePo(g: GateCells, live: bool, stays: bool)
    ensures GateTopo(UpdateGate(g, live, stays)) == GateTopo(g)
    ensures SamePoGate(g, UpdateGate(g, live, stays), live)
  {
    if g.CNet? {
      UpdateSamePo(g.chain, live);
    }
  }

  lemma {:induction false} UpdateArmsSamePo(a: ArmCells, live: bool, before: int, after: int)
    ensures ArmTopo(UpdateArms(a, live, before, after)) == ArmTopo(a)
    ensures SamePoArms(a, UpdateArms(a, live, before, after), live, before)
  {
    if a.CArm? {
      UpdateGateSamePo(a.gate, live && before == a.value, live && before == a.value && after == a.value);
      UpdateArmsSamePo(a.others, live, before, after);
    }
  }
}
