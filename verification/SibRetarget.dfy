/** Static retargeting (sib_retarget.py): which slots must be open to reach an instrument, and in
    which rounds they can be opened. */
module SibRetarget {
  import opened Wrappers
  import opened Bits
  import opened IclModel
  import opened SibLayout

  /** One ancestor and the value it must carry: 1 for a SIB, the arm's value for a ScanMux. */
  datatype Step = Step(name: string, value: int)

  type Path = seq<Step>

  // ---------------------------------------------------------------- the searches

  /** open_path_to: depth first, the path to the slot that gates the named instrument. */
  function OpenPath(c: Chain, inst: string, path: Path): Option<Path> {
    match c
    case End => None
    case Sib(name, gate, rest) =>
      var found := OpenPathGate(gate, inst, path + [Step(name, 1)]);
      if found.Some? then found else OpenPath(rest, inst, path)
    case Mux(name, _, arms, rest) =>
      var found := OpenPathArms(arms, name, inst, path);
      if found.Some? then found else OpenPath(rest, inst, path)
  }

  function OpenPathGate(g: Gate, inst: string, here: Path): Option<Path> {
    match g
    case Leaf(i) => if i.name == inst then Some(here) else None
    case Net(chain) => OpenPath(chain, inst, here)
  }

  function OpenPathArms(a: Arms, mux: string, inst: string, path: Path): Option<Path> {
    match a
    case NoArms => None
    case Arm(value, gate, others) =>
      var found := OpenPathGate(gate, inst, path + [Step(mux, value)]);
      if found.Some? then found else OpenPathArms(others, mux, inst, path)
  }

  /** path_to_sib_name: the path to a slot by its own name; `value` is what a ScanMux target is to
      carry. */
  function SlotPath(c: Chain, slot: string, value: int, path: Path): Option<Path> {
    match c
    case End => None
    case Sib(name, gate, rest) =>
      var here := path + [Step(name, 1)];
      if name == slot then Some(here)
      else
        var found := SlotPathGate(gate, slot, value, here);
        if found.Some? then found else SlotPath(rest, slot, value, path)
    case Mux(name, _, arms, rest) =>
      if name == slot then Some(path + [Step(name, value)])
      else
        var found := SlotPathArms(arms, name, slot, value, path);
        if found.Some? then found else SlotPath(rest, slot, value, path)
  }

  function SlotPathGate(g: Gate, slot: string, value: int, here: Path): Option<Path> {
    match g
    case Leaf(_) => None
    case Net(chain) => SlotPath(chain, slot, value, here)
  }

  function SlotPathArms(a: Arms, mux: string, slot: string, value: int, path: Path): Option<Path> {
    match a
    case NoArms => None
    case Arm(v, gate, others) =>
      var found := SlotPathGate(gate, slot, value, path + [Step(mux, v)]);
      if found.Some? then found else SlotPathArms(others, mux, slot, value, path)
  }

  // ---------------------------------------------------------------- where things are

  /** A slot: its ancestors root first, and the values its own select may carry. */
  datatype Site = Site(name: string, above: Path, isMux: bool, limit: nat)

  /** An instrument: the step of the slot that gates it, and that slot's ancestors. */
  datatype LeafSite = LeafSite(step: Step, above: Path, isMux: bool, inst: Instrument)

  ghost function Sites(c: Chain, above: Path): set<Site> {
    match c
    case End => {}
    case Sib(name, gate, rest) =>
      {Site(name, above, false, 2)} + GateSites(gate, above + [Step(name, 1)]) + Sites(rest, above)
    case Mux(name, selectWidth, arms, rest) =>
      {Site(name, above, true, Pow2(selectWidth))} + ArmSites(arms, name, above) + Sites(rest, above)
  }

  ghost function GateSites(g: Gate, here: Path): set<Site> {
    match g
    case Leaf(_) => {}
    case Net(chain) => Sites(chain, here)
  }

  ghost function ArmSites(a: Arms, mux: string, above: Path): set<Site> {
    match a
    case NoArms => {}
    case Arm(value, gate, others) =>
      GateSites(gate, above + [Step(mux, value)]) + ArmSites(others, mux, above)
  }

  ghost function Leaves(c: Chain, above: Path): set<LeafSite> {
    match c
    case End => {}
    case Sib(name, gate, rest) =>
      GateLeaves(gate, Step(name, 1), above, false) + Leaves(rest, above)
    case Mux(name, _, arms, rest) => ArmLeaves(arms, name, above) + Leaves(rest, above)
  }

  ghost function GateLeaves(g: Gate, step: Step, above: Path, isMux: bool): set<LeafSite> {
    match g
    case Leaf(inst) => {LeafSite(step, above, isMux, inst)}
    case Net(chain) => Leaves(chain, above + [step])
  }

  ghost function ArmLeaves(a: Arms, mux: string, above: Path): set<LeafSite> {
    match a
    case NoArms => {}
    case Arm(value, gate, others) =>
      GateLeaves(gate, Step(mux, value), above, true) + ArmLeaves(others, mux, above)
  }

  // ---------------------------------------------------------------- what the searches find

  lemma {:induction false} SiteNames(c: Chain, above: Path, s: Site)
    requires s in Sites(c, above)
    ensures s.name in SlotNames(c) && |above| <= |s.above| && s.above[..|above|] == above
  {
    match c
    case End =>
    case Sib(name, gate, rest) =>
      if s in GateSites(gate, above + [Step(name, 1)]) {
        SiteNames(gate.chain, above + [Step(name, 1)], s);
        assert s.above[..|above|] == s.above[..|above| + 1][..|above|];
      } else if s in Sites(rest, above) {
        SiteNames(rest, above, s);
      }
    case Mux(name, _, arms, rest) =>
      if s in ArmSites(arms, name, above) {
        ArmSiteNames(arms, name, above, s);
      } else if s in Sites(rest, above) {
        SiteNames(rest, above, s);
      }
  }

  lemma {:induction false} ArmSiteNames(a: Arms, mux: string, above: Path, s: Site)
    requires s in ArmSites(a, mux, above)
    ensures s.name in ArmSlots(a) && |above| < |s.above| && s.above[..|above|] == above
    ensures s.above[|above|].name == mux
  {
    var here := above + [Step(mux, a.value)];
    if s in GateSites(a.gate, here) {
      SiteNames(a.gate.chain, here, s);
      assert s.above[..|above|] == s.above[..|above| + 1][..|above|];
      assert s.above[|above|] == s.above[..|above| + 1][|above|];
    } else {
      ArmSiteNames(a.others, mux, above, s);
    }
  }

  lemma {:induction false} NoPathElsewhere(c: Chain, slot: string, value: int, path: Path)
    requires slot !in SlotNames(c)
    ensures SlotPath(c, slot, value, path).None?
  {
    match c
    case End =>
    case Sib(name, gate, rest) =>
      if gate.Net? {
        NoPathElsewhere(gate.chain, slot, value, path + [Step(name, 1)]);
      }
      NoPathElsewhere(rest, slot, value, path);
    case Mux(name, _, arms, rest) =>
      NoArmPathElsewhere(arms, name, slot, value, path);
      NoPathElsewhere(rest, slot, value, path);
  }

  lemma {:induction false} NoArmPathElsewhere(a: Arms, mux: string, slot: string, value: int, path: Path)
    requires slot !in ArmSlots(a)
    ensures SlotPathArms(a, mux, slot, value, path).None?
  {
    if a.Arm? {
      if a.gate.Net? {
        NoPathElsewhere(a.gate.chain, slot, value, path + [Step(mux, a.value)]);
      }
      NoArmPathElsewhere(a.others, mux, slot, value, path);
    }
  }

  /** path_to_sib_name finds every slot, and finds it under its own ancestors. */
  lemma {:induction false} SlotPathFinds(c: Chain, above: Path, s: Site, value: int)
    requires UniqueSlots(c) && s in Sites(c, above)
    ensures SlotPath(c, s.name, value, above)
            == Some(s.above + [Step(s.name, if s.isMux then value else 1)])
  {
    match c
    case End =>
    case Sib(name, gate, rest) =>
      var here := above + [Step(name, 1)];
      if s in GateSites(gate, here) {
        SiteNames(gate.chain, here, s);
        SlotPathFinds(gate.chain, here, s, value);
      } else if s in Sites(rest, above) {
        SiteNames(rest, above, s);
        if gate.Net? {
          NoPathElsewhere(gate.chain, s.name, value, here);
        }
        SlotPathFinds(rest, above, s, value);
      }
    case Mux(name, _, arms, rest) =>
      if s in ArmSites(arms, name, above) {
        ArmSiteNames(arms, name, above, s);
        ArmSlotPathFinds(arms, name, above, s, value);
      } else if s in Sites(rest, above) {
        SiteNames(rest, above, s);
        NoArmPathElsewhere(arms, name, s.name, value, above);
        SlotPathFinds(rest, above, s, value);
      }
  }

  lemma {:induction false} ArmSlotPathFinds(a: Arms, mux: string, above: Path, s: Site, value: int)
    requires UniqueArmSlots(a) && s in ArmSites(a, mux, above)
    ensures SlotPathArms(a, mux, s.name, value, above)
            == Some(s.above + [Step(s.name, if s.isMux then value else 1)])
  {
    var here := above + [Step(mux, a.value)];
    if s in GateSites(a.gate, here) {
      SiteNames(a.gate.chain, here, s);
      SlotPathFinds(a.gate.chain, here, s, value);
    } else {
      ArmSiteNames(a.others, mux, above, s);
      if a.gate.Net? {
        NoPathElsewhere(a.gate.chain, s.name, value, here);
      }
      ArmSlotPathFinds(a.others, mux, above, s, value);
    }
  }

  /** A name belongs to one slot. */
  lemma SiteUnique(c: Chain, s: Site, t: Site)
    requires UniqueSlots(c) && s in Sites(c, []) && t in Sites(c, []) && s.name == t.name
    ensures s.above == t.above
  {
    SlotPathFinds(c, [], s, 1);
    SlotPathFinds(c, [], t, 1);
    var p := SlotPath(c, s.name, 1, []).value;
    assert s.above == p[..|p| - 1] == t.above;
  }

  /** Every slot a path passes through is itself a slot under the part of the path before it. */
  lemma {:induction false} AncestorSite(c: Chain, above: Path, s: Site, i: nat) returns (t: Site)
    requires Structured(c) && s in Sites(c, above) && |above| <= i < |s.above|
    ensures t in Sites(c, above) && t.name == s.above[i].name && t.above == s.above[..i]
    ensures !t.isMux ==> s.above[i].value == 1
    ensures t.isMux ==> 0 <= s.above[i].value < t.limit
  {
    match c
    case End =>
    case Sib(name, gate, rest) =>
      var here := above + [Step(name, 1)];
      if s in GateSites(gate, here) {
        SiteNames(gate.chain, here, s);
        if i == |above| {
          t := Site(name, above, false, 2);
          assert s.above[i] == here[i] && s.above[..i] == here[..i];
        } else {
          t := AncestorSite(gate.chain, here, s, i);
        }
      } else {
        assert s != Site(name, above, false, 2);
        t := AncestorSite(rest, above, s, i);
      }
    case Mux(name, selectWidth, arms, rest) =>
      if s in ArmSites(arms, name, above) {
        t := ArmAncestorSite(arms, name, selectWidth, above, s, i);
      } else {
        assert s != Site(name, above, true, Pow2(selectWidth));
        t := AncestorSite(rest, above, s, i);
      }
  }

  lemma {:induction false} ArmAncestorSite(
    a: Arms, mux: string, selectWidth: nat, above: Path, s: Site, i: nat) returns (t: Site)
    requires StructuredArms(a, Pow2(selectWidth))
    requires s in ArmSites(a, mux, above) && |above| <= i < |s.above|
    ensures t in ArmSites(a, mux, above) || t == Site(mux, above, true, Pow2(selectWidth))
    ensures t.name == s.above[i].name && t.above == s.above[..i]
    ensures !t.isMux ==> s.above[i].value == 1
    ensures t.isMux ==> 0 <= s.above[i].value < t.limit
  {
    var here := above + [Step(mux, a.value)];
    if s in GateSites(a.gate, here) {
      SiteNames(a.gate.chain, here, s);
      if i == |above| {
        t := Site(mux, above, true, Pow2(selectWidth));
        assert s.above[i] == here[i] && s.above[..i] == here[..i];
      } else {
        t := AncestorSite(a.gate.chain, here, s, i);
      }
    } else {
      t := ArmAncestorSite(a.others, mux, selectWidth, above, s, i);
    }
  }

  // ---------------------------------------------------------------- instruments

  lemma {:induction false} LeafNames(c: Chain, above: Path, l: LeafSite)
    requires l in Leaves(c, above)
    ensures l.inst.name in InstNames(c) && l.step.name in SlotNames(c)
  {
    match c
    case End =>
    case Sib(name, gate, rest) =>
      if l in GateLeaves(gate, Step(name, 1), above, false) {
        if gate.Net? {
          LeafNames(gate.chain, above + [Step(name, 1)], l);
        }
      } else {
        LeafNames(rest, above, l);
      }
    case Mux(name, _, arms, rest) =>
      if l in ArmLeaves(arms, name, above) {
        ArmLeafNames(arms, name, above, l);
      } else {
        LeafNames(rest, above, l);
      }
  }

  lemma {:induction false} ArmLeafNames(a: Arms, mux: string, above: Path, l: LeafSite)
    requires l in ArmLeaves(a, mux, above)
    ensures l.inst.name in ArmInsts(a) && (l.step.name == mux || l.step.name in ArmSlots(a))
  {
    if l in GateLeaves(a.gate, Step(mux, a.value), above, true) {
      if a.gate.Net? {
        LeafNames(a.gate.chain, above + [Step(mux, a.value)], l);
      }
    } else {
      ArmLeafNames(a.others, mux, above, l);
    }
  }

  lemma {:induction false} NoInstElsewhere(c: Chain, inst: string, path: Path)
    requires inst !in InstNames(c)
    ensures OpenPath(c, inst, path).None?
  {
    match c
    case End =>
    case Sib(name, gate, rest) =>
      if gate.Net? {
        NoInstElsewhere(gate.chain, inst, path + [Step(name, 1)]);
      }
      NoInstElsewhere(rest, inst, path);
    case Mux(name, _, arms, rest) =>
      NoArmInstElsewhere(arms, name, inst, path);
      NoInstElsewhere(rest, inst, path);
  }

  lemma {:induction false} NoArmInstElsewhere(a: Arms, mux: string, inst: string, path: Path)
    requires inst !in ArmInsts(a)
    ensures OpenPathArms(a, mux, inst, path).None?
  {
    if a.Arm? {
      if a.gate.Net? {
        NoInstElsewhere(a.gate.chain, inst, path + [Step(mux, a.value)]);
      }
      NoArmInstElsewhere(a.others, mux, inst, path);
    }
  }

  /** open_path_to finds every instrument, and what it returns is the way to that instrument's own
      slot. */
  lemma {:induction false} OpenPathFinds(c: Chain, above: Path, l: LeafSite)
    requires UniqueInsts(c) && l in Leaves(c, above)
    ensures OpenPath(c, l.inst.name, above) == Some(l.above + [l.step])
  {
    match c
    case End =>
    case Sib(name, gate, rest) =>
      if l in GateLeaves(gate, Step(name, 1), above, false) {
        GatePathFinds(gate, Step(name, 1), above, false, l);
      } else {
        LeafNames(rest, above, l);
        if gate.Net? {
          NoInstElsewhere(gate.chain, l.inst.name, above + [Step(name, 1)]);
        }
        OpenPathFinds(rest, above, l);
      }
    case Mux(name, _, arms, rest) =>
      if l in ArmLeaves(arms, name, above) {
        ArmPathFinds(arms, name, above, l);
      } else {
        LeafNames(rest, above, l);
        NoArmInstElsewhere(arms, name, l.inst.name, above);
        OpenPathFinds(rest, above, l);
      }
  }

  lemma {:induction false} GatePathFinds(g: Gate, step: Step, above: Path, isMux: bool, l: LeafSite)
    requires UniqueGateInsts(g) && l in GateLeaves(g, step, above, isMux)
    ensures OpenPathGate(g, l.inst.name, above + [step]) == Some(l.above + [l.step])
  {
    if g.Net? {
      OpenPathFinds(g.chain, above + [step], l);
    }
  }

  lemma {:induction false} ArmPathFinds(a: Arms, mux: string, above: Path, l: LeafSite)
    requires UniqueArmInsts(a) && l in ArmLeaves(a, mux, above)
    ensures OpenPathArms(a, mux, l.inst.name, above) == Some(l.above + [l.step])
  {
    if l in GateLeaves(a.gate, Step(mux, a.value), above, true) {
      GatePathFinds(a.gate, Step(mux, a.value), above, true, l);
    } else {
      ArmLeafNames(a.others, mux, above, l);
      if a.gate.Net? {
        NoInstElsewhere(a.gate.chain, l.inst.name, above + [Step(mux, a.value)]);
      }
      ArmPathFinds(a.others, mux, above, l);
    }
  }

  /** Conversely a returned path always leads to an instrument of that name. */
  lemma {:induction false} OpenPathLeads(c: Chain, inst: string, above: Path) returns (l: LeafSite)
    requires OpenPath(c, inst, above).Some?
    ensures l in Leaves(c, above) && l.inst.name == inst
    ensures OpenPath(c, inst, above).value == l.above + [l.step]
  {
    match c
    case End =>
    case Sib(name, gate, rest) =>
      if OpenPathGate(gate, inst, above + [Step(name, 1)]).Some? {
        l := GatePathLeads(gate, inst, Step(name, 1), above, false);
      } else {
        l := OpenPathLeads(rest, inst, above);
      }
    case Mux(name, _, arms, rest) =>
      if OpenPathArms(arms, name, inst, above).Some? {
        l := ArmPathLeads(arms, name, inst, above);
      } else {
        l := OpenPathLeads(rest, inst, above);
      }
  }

  lemma {:induction false} GatePathLeads(g: Gate, inst: string, step: Step, above: Path, isMux: bool)
    returns (l: LeafSite)
    requires OpenPathGate(g, inst, above + [step]).Some?
    ensures l in GateLeaves(g, step, above, isMux) && l.inst.name == inst
    ensures OpenPathGate(g, inst, above + [step]).value == l.above + [l.step]
  {
    match g
    case Leaf(i) => l := LeafSite(step, above, isMux, i);
    case Net(chain) => l := OpenPathLeads(chain, inst, above + [step]);
  }

  lemma {:induction false} ArmPathLeads(a: Arms, mux: string, inst: string, above: Path)
    returns (l: LeafSite)
    requires OpenPathArms(a, mux, inst, above).Some?
    ensures l in ArmLeaves(a, mux, above) && l.inst.name == inst
    ensures OpenPathArms(a, mux, inst, above).value == l.above + [l.step]
  {
    if OpenPathGate(a.gate, inst, above + [Step(mux, a.value)]).Some? {
      l := GatePathLeads(a.gate, inst, Step(mux, a.value), above, true);
    } else {
      l := ArmPathLeads(a.others, mux, inst, above);
    }
  }

  /** The slot that gates an instrument is a slot like any other. */
  lemma {:induction false} LeafSlot(c: Chain, above: Path, l: LeafSite) returns (t: Site)
    requires Structured(c) && l in Leaves(c, above)
    ensures t in Sites(c, above) && t.name == l.step.name && t.above == l.above && t.isMux == l.isMux
    ensures if t.isMux then 0 <= l.step.value < t.limit else l.step.value == 1
  {
    match c
    case End =>
    case Sib(name, gate, rest) =>
      if l in GateLeaves(gate, Step(name, 1), above, false) {
        if gate.Net? {
          t := LeafSlot(gate.chain, above + [Step(name, 1)], l);
        } else {
          t := Site(name, above, false, 2);
        }
      } else {
        t := LeafSlot(rest, above, l);
      }
    case Mux(name, selectWidth, arms, rest) =>
      if l in ArmLeaves(arms, name, above) {
        t := ArmLeafSlot(arms, name, selectWidth, above, l);
      } else {
        t := LeafSlot(rest, above, l);
      }
  }

  lemma {:induction false} ArmLeafSlot(a: Arms, mux: string, selectWidth: nat, above: Path, l: LeafSite)
    returns (t: Site)
    requires StructuredArms(a, Pow2(selectWidth)) && l in ArmLeaves(a, mux, above)
    ensures t in ArmSites(a, mux, above) || t == Site(mux, above, true, Pow2(selectWidth))
    ensures t.name == l.step.name && t.above == l.above && t.isMux == l.isMux
    ensures if t.isMux then 0 <= l.step.value < t.limit else l.step.value == 1
  {
    if l in GateLeaves(a.gate, Step(mux, a.value), above, true) {
      if a.gate.Net? {
        t := LeafSlot(a.gate.chain, above + [Step(mux, a.value)], l);
      } else {
        t := Site(mux, above, true, Pow2(selectWidth));
      }
    } else {
      t := ArmLeafSlot(a.others, mux, selectWidth, above, l);
    }
  }

  /** A slot that gates an instrument is nobody's ancestor: under a SIB, or under the arm that
      holds the instrument, there is no other slot. */
  lemma {:induction false} LeafIsNoAncestor(c: Chain, above: Path, l: LeafSite, s: Site, i: nat)
    requires UniqueSlots(c) && Structured(c) && l in Leaves(c, above) && s in Sites(c, above)
    requires |above| <= i < |s.above|
    ensures s.above[i] != l.step
  {
    LeafNames(c, above, l);
    match c
    case End =>
    case Sib(name, gate, rest) =>
      SiteNames(c, above, s);
      var here := above + [Step(name, 1)];
      if s in GateSites(gate, here) {
        SiteNames(gate.chain, here, s);
        if i > |above| {
          AncestorNames(gate.chain, here, s, i);
        }
        if l in GateLeaves(gate, Step(name, 1), above, false) {
          LeafNames(gate.chain, here, l);
          if i > |above| {
            LeafIsNoAncestor(gate.chain, here, l, s, i);
          } else {
            assert s.above[i] == here[i];
          }
        } else {
          LeafNames(rest, above, l);
          assert i == |above| ==> s.above[i] == here[i];
        }
      } else {
        assert s in Sites(rest, above);
        AncestorNames(rest, above, s, i);
        if l in Leaves(rest, above) {
          LeafIsNoAncestor(rest, above, l, s, i);
        } else if gate.Net? {
          LeafNames(gate.chain, here, l);
        }
      }
    case Mux(name, selectWidth, arms, rest) =>
      if s in ArmSites(arms, name, above) {
        ArmAncestorNames(arms, name, above, s, i);
        if l in ArmLeaves(arms, name, above) {
          ArmLeafIsNoAncestor(arms, name, selectWidth, above, l, s, i);
        } else {
          LeafNames(rest, above, l);
        }
      } else {
        assert s in Sites(rest, above);
        AncestorNames(rest, above, s, i);
        if l in Leaves(rest, above) {
          LeafIsNoAncestor(rest, above, l, s, i);
        } else {
          ArmLeafNames(arms, name, above, l);
        }
      }
  }

  lemma {:induction false} ArmLeafIsNoAncestor(
    a: Arms, mux: string, selectWidth: nat, above: Path, l: LeafSite, s: Site, i: nat)
    requires UniqueArmSlots(a) && DistinctValues(a) && StructuredArms(a, Pow2(selectWidth))
    requires mux !in ArmSlots(a)
    requires l in ArmLeaves(a, mux, above) && s in ArmSites(a, mux, above)
    requires |above| <= i < |s.above|
    ensures s.above[i] != l.step
  {
    ArmLeafNames(a, mux, above, l);
    ArmAncestorNames(a, mux, above, s, i);
    var here := above + [Step(mux, a.value)];
    if s in GateSites(a.gate, here) {
      SiteNames(a.gate.chain, here, s);
      assert s.above[|above|] == here[|above|];
      if l in GateLeaves(a.gate, Step(mux, a.value), above, true) {
        LeafNames(a.gate.chain, here, l);
        if i > |above| {
          LeafIsNoAncestor(a.gate.chain, here, l, s, i);
        }
      } else {
        ArmLeafNames(a.others, mux, above, l);
        if i > |above| {
          AncestorNames(a.gate.chain, here, s, i);
        } else if l.step.name == mux {
          ArmLeafValue(a.others, mux, above, l);
        }
      }
    } else {
      ArmAncestorNames(a.others, mux, above, s, i);
      if l in ArmLeaves(a.others, mux, above) {
        ArmLeafIsNoAncestor(a.others, mux, selectWidth, above, l, s, i);
      } else if a.gate.Net? {
        LeafNames(a.gate.chain, here, l);
      } else {
        ArmSiteValue(a.others, mux, above, s);
      }
    }
  }

  lemma {:induction false} ArmLeafValue(a: Arms, mux: string, above: Path, l: LeafSite)
    requires l in ArmLeaves(a, mux, above) && l.step.name == mux && mux !in ArmSlots(a)
    ensures l.step.value in ArmValues(a)
  {
    if l in GateLeaves(a.gate, Step(mux, a.value), above, true) {
      if a.gate.Net? {
        LeafNames(a.gate.chain, above + [Step(mux, a.value)], l);
      }
    } else {
      ArmLeafValue(a.others, mux, above, l);
    }
  }

  lemma {:induction false} ArmSiteValue(a: Arms, mux: string, above: Path, s: Site)
    requires s in ArmSites(a, mux, above)
    ensures |s.above| > |above| && s.above[|above|].value in ArmValues(a)
  {
    var here := above + [Step(mux, a.value)];
    if s in GateSites(a.gate, here) {
      SiteNames(a.gate.chain, here, s);
      assert s.above[|above|] == here[|above|];
    } else {
      ArmSiteValue(a.others, mux, above, s);
    }
  }

  lemma {:induction false} AncestorNames(c: Chain, above: Path, s: Site, i: nat)
    requires s in Sites(c, above) && |above| <= i < |s.above|
    ensures s.above[i].name in SlotNames(c)
  {
    match c
    case End =>
    case Sib(name, gate, rest) =>
      var here := above + [Step(name, 1)];
      if s in GateSites(gate, here) {
        SiteNames(gate.chain, here, s);
        if i > |above| {
          AncestorNames(gate.chain, here, s, i);
        } else {
          assert s.above[i] == here[i];
        }
      } else {
        AncestorNames(rest, above, s, i);
      }
    case Mux(name, _, arms, rest) =>
      if s in ArmSites(arms, name, above) {
        ArmAncestorNames(arms, name, above, s, i);
      } else {
        AncestorNames(rest, above, s, i);
      }
  }

  lemma {:induction false} ArmAncestorNames(a: Arms, mux: string, above: Path, s: Site, i: nat)
    requires s in ArmSites(a, mux, above) && |above| <= i < |s.above|
    ensures if i == |above| then s.above[i].name == mux else s.above[i].name in ArmSlots(a)
  {
    var here := above + [Step(mux, a.value)];
    if s in GateSites(a.gate, here) {
      SiteNames(a.gate.chain, here, s);
      assert s.above[|above|] == here[|above|];
      if i > |above| {
        AncestorNames(a.gate.chain, here, s, i);
      }
    } else {
      ArmAncestorNames(a.others, mux, above, s, i);
    }
  }
}
