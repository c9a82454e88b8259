/** Staging the way to one instrument uses as few scans as any sequence of scans can: whatever is
    shifted in, one Update-DR reaches only slots whose ancestors were all open before it. */
module LeastRounds {
  import opened Wrappers
  import opened Bits
  import opened IclModel
  import opened SibLayout
  import opened SibCells
  import opened SibShift
  import opened SibRound
  import opened SibRetarget
  import opened SibStaging
  import opened SibReach
  import opened PathPlan

  // ---------------------------------------------------------------- what a state has open

  /** The selects of a state, read off its cells. */
  ghost function OpenOf(h: Cells): OpenMap {
    match h
    case CEnd => map[]
    case CSib(name, _, po, gate, rest) => (if po then map[name := 1] else map[]) + OpenOfGate(gate) + OpenOf(rest)
    case CMux(name, _, _, mpo, arms, rest) => map[name := Value(mpo)] + OpenOfArms(arms) + OpenOf(rest)
  }

  ghost function OpenOfGate(g: GateCells): OpenMap {
    match g
    case CLeaf(_, _, _) => map[]
    case CNet(chain) => OpenOf(chain)
  }

  ghost function OpenOfArms(a: ArmCells): OpenMap {
    match a
    case CNoArms => map[]
    case CArm(_, gate, others) => OpenOfGate(gate) + OpenOfArms(others)
  }

  lemma {:induction false} OpenNames(h: Cells)
    ensures OpenOf(h).Keys <= SlotNames(Topo(h))
  {
    match h
    case CEnd =>
    case CSib(_, _, _, gate, rest) =>
      OpenGateNames(gate);
      OpenNames(rest);
    case CMux(_, _, _, _, arms, rest) =>
      OpenArmNames(arms);
      OpenNames(rest);
  }

  lemma {:induction false} OpenGateNames(g: GateCells)
    ensures OpenOfGate(g).Keys <= GateSlots(GateTopo(g))
  {
    if g.CNet? {
      OpenNames(g.chain);
    }
  }

  lemma {:induction false} OpenArmNames(a: ArmCells)
    ensures OpenOfArms(a).Keys <= ArmSlots(ArmTopo(a))
  {
    if a.CArm? {
      OpenGateNames(a.gate);
      OpenArmNames(a.others);
    }
  }

  /** `open` says of the slots in `names` what `part` says. */
  ghost predicate Covers(open: OpenMap, part: OpenMap, names: set<string>) {
    forall n :: n in names ==> (n in open <==> n in part) && (n in open ==> open[n] == part[n])
  }

  lemma {:induction false} OpenAgrees(h: Cells, open: OpenMap)
    requires UniqueSlots(Topo(h)) && Covers(open, OpenOf(h), SlotNames(Topo(h)))
    ensures Agrees(h, open)
  {
    match h
    case CEnd =>
    case CSib(name, _, po, gate, rest) =>
      OpenGateNames(gate);
      OpenNames(rest);
      assert name in SlotNames(Topo(h));
      assert Covers(open, OpenOfGate(gate), GateSlots(GateTopo(gate)));
      assert Covers(open, OpenOf(rest), SlotNames(Topo(rest)));
      OpenGateAgrees(gate, open);
      OpenAgrees(rest, open);
    case CMux(name, _, _, _, arms, rest) =>
      OpenArmNames(arms);
      OpenNames(rest);
      assert name in SlotNames(Topo(h));
      assert Covers(open, OpenOfArms(arms), ArmSlots(ArmTopo(arms)));
      assert Covers(open, OpenOf(rest), SlotNames(Topo(rest)));
      OpenArmsAgree(arms, open);
      OpenAgrees(rest, open);
  }

  lemma {:induction false} OpenGateAgrees(g: GateCells, open: OpenMap)
    requires UniqueGateSlots(GateTopo(g)) && Covers(open, OpenOfGate(g), GateSlots(GateTopo(g)))
    ensures AgreesGate(g, open)
  {
    if g.CNet? {
      OpenAgrees(g.chain, open);
    }
  }

  lemma {:induction false} OpenArmsAgree(a: ArmCells, open: OpenMap)
    requires UniqueArmSlots(ArmTopo(a)) && Covers(open, OpenOfArms(a), ArmSlots(ArmTopo(a)))
    ensures AgreesArms(a, open)
  {
    if a.CArm? {
      OpenGateNames(a.gate);
      OpenArmNames(a.others);
      OpenGateAgrees(a.gate, open);
      OpenArmsAgree(a.others, open);
    }
  }

  /** A SIB's entry is 1. */
  lemma {:induction false} SibsOpenAsOne(h: Cells, open: OpenMap, above: Path, t: Site)
    requires UniqueSlots(Topo(h)) && Covers(open, OpenOf(h), SlotNames(Topo(h)))
    requires t in Sites(Topo(h), above) && t.name in open && !t.isMux
    ensures open[t.name] == 1
  {
    SiteNames(Topo(h), above, t);
    match h
    case CSib(name, _, po, gate, rest) =>
      OpenGateNames(gate);
      OpenNames(rest);
      var here := above + [Step(name, 1)];
      if t in GateSites(GateTopo(gate), here) {
        SiteNames(GateTopo(gate).chain, here, t);
        SibsOpenAsOne(gate.chain, open, here, t);
      } else if t in Sites(Topo(rest), above) {
        SiteNames(Topo(rest), above, t);
        SibsOpenAsOne(rest, open, above, t);
      }
    case CMux(name, _, _, _, arms, rest) =>
      OpenArmNames(arms);
      OpenNames(rest);
      if t in ArmSites(ArmTopo(arms), name, above) {
        ArmSiteNames(ArmTopo(arms), name, above, t);
        ArmSibsOpenAsOne(arms, open, name, above, t);
      } else if t in Sites(Topo(rest), above) {
        SiteNames(Topo(rest), above, t);
        SibsOpenAsOne(rest, open, above, t);
      }
  }

  lemma {:induction false} ArmSibsOpenAsOne(a: ArmCells, open: OpenMap, mux: string, above: Path, t: Site)
    requires UniqueArmSlots(ArmTopo(a)) && Covers(open, OpenOfArms(a), ArmSlots(ArmTopo(a)))
    requires t in ArmSites(ArmTopo(a), mux, above) && t.name in open && !t.isMux
    ensures open[t.name] == 1
  {
    OpenGateNames(a.gate);
    OpenArmNames(a.others);
    var here := above + [Step(mux, a.value)];
    if t in GateSites(GateTopo(a.gate), here) {
      SiteNames(GateTopo(a.gate).chain, here, t);
      SibsOpenAsOne(a.gate.chain, open, here, t);
    } else {
      ArmSiteNames(ArmTopo(a.others), mux, above, t);
      ArmSibsOpenAsOne(a.others, open, mux, above, t);
    }
  }

  // ---------------------------------------------------------------- captures and shifts move no select

  lemma {:induction false} CaptureOpens(h: Cells, sense: Sense, live: bool)
    ensures OpenOf(Capture(h, sense, live)) == OpenOf(h) && Topo(Capture(h, sense, live)) == Topo(h)
  {
    match h
    case CEnd =>
    case CSib(_, _, po, gate, rest) =>
      CaptureGateOpens(gate, sense, po);
      CaptureOpens(rest, sense, live);
    case CMux(_, _, _, mpo, arms, rest) =>
      CaptureArmsOpens(arms, sense, live, Value(mpo));
      CaptureOpens(rest, sense, live);
  }

  lemma {:induction false} CaptureGateOpens(g: GateCells, sense: Sense, live: bool)
    ensures OpenOfGate(CaptureGate(g, sense, live)) == OpenOfGate(g)
    ensures GateTopo(CaptureGate(g, sense, live)) == GateTopo(g)
  {
    if g.CNet? {
      CaptureOpens(g.chain, sense, live);
    }
  }

  lemma {:induction false} CaptureArmsOpens(a: ArmCells, sense: Sense, live: bool, value: int)
    ensures OpenOfArms(CaptureArms(a, sense, live, value)) == OpenOfArms(a)
    ensures ArmTopo(CaptureArms(a, sense, live, value)) == ArmTopo(a)
  {
    if a.CArm? {
      CaptureGateOpens(a.gate, sense, live && value == a.value);
      CaptureArmsOpens(a.others, sense, live, value);
    }
  }

  lemma {:induction false} LoadOpens(h: Cells, bits: Bits)
    requires |bits| == |Raw(h)|
    ensures OpenOf(Load(h, bits)) == OpenOf(h)
    decreases h, 1
  {
    match h
    case CEnd =>
    case CSib(_, _, _, _, _) => LoadOpensSib(h, bits);
    case CMux(_, _, _, _, _, _) => LoadOpensMux(h, bits);
  }

  lemma {:induction false} LoadOpensSib(h: Cells, bits: Bits)
    requires h.CSib? && |bits| == |Raw(h)|
    ensures OpenOf(Load(h, bits)) == OpenOf(h)
    decreases h, 0
  {
    hide LoadGate, RawGate, OpenOfGate;
    var n := if h.po then |RawGate(h.gate)| else 0;
    if h.po {
      LoadGateOpens(h.gate, bits[..n]);
    }
    LoadOpens(h.rest, bits[n + 1..]);
  }

  lemma {:induction false} LoadOpensMux(h: Cells, bits: Bits)
    requires h.CMux? && |bits| == |Raw(h)|
    ensures OpenOf(Load(h, bits)) == OpenOf(h)
    decreases h, 0
  {
    hide LoadArms, RawArms, OpenOfArms, Value;
    var n := |RawArms(h.arms, Value(h.mpo))|;
    LoadArmsOpens(h.arms, Value(h.mpo), bits[..n]);
    LoadOpens(h.rest, bits[n + |h.mff|..]);
  }

  lemma {:induction false} LoadGateOpens(g: GateCells, bits: Bits)
    requires |bits| == |RawGate(g)|
    ensures OpenOfGate(LoadGate(g, bits)) == OpenOfGate(g)
  {
    if g.CNet? {
      LoadOpens(g.chain, bits);
    }
  }

  lemma {:induction false} LoadArmsOpens(a: ArmCells, value: int, bits: Bits)
    requires |bits| == |RawArms(a, value)|
    ensures OpenOfArms(LoadArms(a, value, bits)) == OpenOfArms(a)
  {
    if a.CArm? {
      if a.value == value {
        LoadGateOpens(a.gate, bits);
      } else {
        LoadArmsOpens(a.others, value, bits);
      }
    }
  }

  lemma ShiftOpens(h: Cells, tdi: bool)
    ensures OpenOf(Shift(h, tdi).0) == OpenOf(h) && Topo(Shift(h, tdi).0) == Topo(h)
  {
    hide OpenOf, Topo, Load, Seen, Raw;
    SeenLength(h);
    var seen := Seen(h);
    if seen != [] {
      LoadOpens(h, [tdi] + seen[..|seen| - 1]);
      LoadKeeps(h, [tdi] + seen[..|seen| - 1]);
    }
  }

  lemma {:induction false} ShiftsOpen(h: Cells, fed: Bits)
    ensures OpenOf(ShiftAll(h, fed).0) == OpenOf(h) && Topo(ShiftAll(h, fed).0) == Topo(h)
    decreases |fed|
  {
    hide OpenOf, Topo, Shift;
    if fed != [] {
      ShiftOpens(h, fed[0]);
      ShiftsOpen(Shift(h, fed[0]).0, fed[1..]);
    }
  }

  // ---------------------------------------------------------------- one scan, whatever it shifts

  /** A slot's own select in `open`. */
  function Select(open: OpenMap, s: Site): int {
    if s.isMux then FieldOf(open, s.name) else if s.name in open then 1 else 0
  }

  /** A scan changes no slot that has a closed ancestor. */
  lemma ScanReaches(h: Cells, sense: Sense, fed: Bits, s: Site)
    requires UniqueSlots(Topo(h)) && NoZeroArm(Topo(h)) && s in Sites(Topo(h), []) && !Opened(OpenOf(h), s.above)
    ensures var h' := DrScan(h, sense, fed).0;
            Topo(h') == Topo(h) && Select(OpenOf(h'), s) == Select(OpenOf(h), s)
  {
    hide Capture, ShiftAll, Update, UniqueSlots, Sites, Opened, NoZeroArm, Agrees, SamePo, OpenOf, Topo;
    var c := Topo(h);
    var h1 := Capture(h, sense, true);
    CaptureOpens(h, sense, true);
    ShiftsOpen(h1, fed);
    var h2 := ShiftAll(h1, fed).0;
    var h3 := Update(h2, true);
    UpdateSamePo(h2, true);
    OpenAgrees(h2, OpenOf(h2));
    OpenAgrees(h3, OpenOf(h3));
    var now, after := OpenOf(h2), OpenOf(h3);
    forall t | t in Sites(c, []) && t.name in now ensures t.isMux || now[t.name] == 1 {
      if !t.isMux {
        SibsOpenAsOne(h2, now, [], t);
      }
    }
    assert Opened(now, []) by { NothingAbove(now); }
    UpdateReaches(h2, h3, now, after, [], s);
  }

  lemma NothingAbove(open: OpenMap)
    ensures Opened(open, [])
  {
  }

  /** A sequence of DR scans; `senses` and `feeds` are arbitrary. */
  ghost function Scans(h: Cells, senses: nat -> Sense, feeds: seq<Bits>, from: nat): Cells
    requires from <= |feeds|
    decreases |feeds| - from
  {
    if from == |feeds| then h else Scans(DrScan(h, senses(from), feeds[from]).0, senses, feeds, from + 1)
  }

  // ---------------------------------------------------------------- down one way

  /** No step of the way from step `d` on is selected. */
  ghost predicate ClosedFrom(c: Chain, l: LeafSite, open: OpenMap, d: nat) {
    forall s :: s in Sites(c, []) && s.name in Names(Way(l)) && |s.above| >= d ==>
      Select(open, s) != StepAt(l, |s.above|)
  }

  function StepAt(l: LeafSite, i: nat): int {
    if i < |Way(l)| then Way(l)[i].value else 0
  }

  lemma {:induction false} AboveNonZero(c: Chain, above: Path, s: Site)
    requires NoZeroArm(c) && s in Sites(c, above)
    ensures forall i :: |above| <= i < |s.above| ==> s.above[i].value != 0
  {
    match c
    case Sib(name, gate, rest) =>
      var here := above + [Step(name, 1)];
      if s in GateSites(gate, here) {
        SiteNames(gate.chain, here, s);
        AboveNonZero(gate.chain, here, s);
        assert s.above[..|here|][|above|] == here[|above|];
      } else if s in Sites(rest, above) {
        AboveNonZero(rest, above, s);
      }
    case Mux(name, _, arms, rest) =>
      if s in ArmSites(arms, name, above) {
        ArmAboveNonZero(arms, name, above, s);
      } else if s in Sites(rest, above) {
        AboveNonZero(rest, above, s);
      }
  }

  lemma {:induction false} ArmAboveNonZero(a: Arms, mux: string, above: Path, s: Site)
    requires NoZeroArms(a) && s in ArmSites(a, mux, above)
    ensures forall i :: |above| <= i < |s.above| ==> s.above[i].value != 0
  {
    var here := above + [Step(mux, a.value)];
    if s in GateSites(a.gate, here) {
      SiteNames(a.gate.chain, here, s);
      AboveNonZero(a.gate.chain, here, s);
      assert s.above[..|here|][|above|] == here[|above|];
    } else {
      ArmAboveNonZero(a.others, mux, above, s);
    }
  }

  /** Every step of a way asks its slot for something it does not carry when closed. */
  lemma WayStep(c: Chain, l: LeafSite, s: Site) returns (i: nat)
    requires Valid(c) && NoZeroArm(c) && l in Leaves(c, []) && s in Sites(c, []) && s.name in Names(Way(l))
    ensures i == |s.above| < |Way(l)| && s.above == Way(l)[..i] && Way(l)[i].name == s.name
    ensures Way(l)[i].value != 0 && (!s.isMux ==> Way(l)[i].value == 1)
  {
    i :| 0 <= i < |Way(l)| && Way(l)[i].name == s.name;
    var t := WaySite(c, l, i);
    SiteKind(c, s, t);
    var own := LeafSlot(c, [], l);
    if i < |l.above| {
      AboveNonZero(c, [], own);
      assert own.above[i] == Way(l)[i];
    } else {
      assert Way(l)[i] == l.step;
      if l.isMux {
        LeafNonZero(c, [], l);
      }
    }
  }

  lemma CarriesIsSelect(open: OpenMap, s: Site, value: int)
    requires value != 0 && (!s.isMux ==> value == 1)
    requires !s.isMux && s.name in open ==> open[s.name] == 1
    ensures Carries(open, s.name, value) <==> Select(open, s) == value
  {
  }

  /** One scan opens at most one more step. */
  lemma ScanOpensOne(c: Chain, l: LeafSite, h: Cells, sense: Sense, fed: Bits, d: nat)
    requires Valid(c) && NoZeroArm(c) && l in Leaves(c, []) && Topo(h) == c && ClosedFrom(c, l, OpenOf(h), d)
    ensures Topo(DrScan(h, sense, fed).0) == c
    ensures ClosedFrom(c, l, OpenOf(DrScan(h, sense, fed).0), d + 1)
  {
    hide DrScan, OpenOf, Topo, Leaves, Sites, UniqueSlots, Structured, NoZeroArm;
    var own := WaySite(c, l, 0);
    ScanTopo(h, sense, fed);
    forall s | s in Sites(c, []) && s.name in Names(Way(l)) && |s.above| >= d + 1
      ensures Select(OpenOf(DrScan(h, sense, fed).0), s) != StepAt(l, |s.above|)
    {
      var i := WayStep(c, l, s);
      var t := WaySite(c, l, i - 1);
      assert t.name in Names(Way(l));
      assert Select(OpenOf(h), t) != Way(l)[i - 1].value;
      var j := WayStep(c, l, t);
      assert !Opened(OpenOf(h), s.above) by {
        if Opened(OpenOf(h), s.above) {
          assert s.above[i - 1] == Way(l)[i - 1];
          assert Carries(OpenOf(h), t.name, Way(l)[i - 1].value);
          CarriedSelects(c, h, t, Way(l)[i - 1].value);
        }
      }
      ScanReaches(h, sense, fed, s);
      assert Select(OpenOf(h), s) != StepAt(l, |s.above|);
    }
  }

  lemma CarriedSelects(c: Chain, h: Cells, t: Site, value: int)
    requires Topo(h) == c && UniqueSlots(c) && t in Sites(c, []) && Carries(OpenOf(h), t.name, value)
    requires !t.isMux ==> value == 1
    ensures Select(OpenOf(h), t) == value
  {
  }

  lemma ScanTopo(h: Cells, sense: Sense, fed: Bits)
    ensures Topo(DrScan(h, sense, fed).0) == Topo(h)
  {
    CaptureOpens(h, sense, true);
    ShiftsOpen(Capture(h, sense, true), fed);
    UpdateSamePo(ShiftAll(Capture(h, sense, true), fed).0, true);
  }

  lemma {:induction false} ScansOpenOneEach(
    c: Chain, l: LeafSite, h: Cells, senses: nat -> Sense, feeds: seq<Bits>, from: nat, d: nat)
    requires Valid(c) && NoZeroArm(c) && l in Leaves(c, []) && Topo(h) == c && ClosedFrom(c, l, OpenOf(h), d)
    requires from <= |feeds|
    ensures Topo(Scans(h, senses, feeds, from)) == c
    ensures ClosedFrom(c, l, OpenOf(Scans(h, senses, feeds, from)), d + |feeds| - from)
    decreases |feeds| - from
  {
    hide DrScan, OpenOf, Topo, Leaves, ClosedFrom, Valid, NoZeroArm;
    if from < |feeds| {
      ScanOpensOne(c, l, h, senses(from), feeds[from], d);
      ScansOpenOneEach(c, l, DrScan(h, senses(from), feeds[from]).0, senses, feeds, from + 1, d + 1);
    }
  }

  // ---------------------------------------------------------------- how many rounds staging takes

  /** Staging starts at the first step that is not carried: it takes one round a step from there. */
  lemma RoundCount(c: Chain, l: LeafSite, open: OpenMap) returns (first: nat)
    requires Valid(c) && l in Leaves(c, []) && Stage(c, Way(l), open).Some?
    requires Stage(c, Way(l), open).value != []
    ensures 1 <= first <= |Way(l)| && |Stage(c, Way(l), open).value| == |Way(l)| - (first - 1)
    ensures !Carries(open, Way(l)[first - 1].name, Way(l)[first - 1].value)
  {
    hide Sites, Leaves, Valid, WellMarked, MarkAll, PathMap;
    WayMarks(c, l);
    var m := MarkAll(c, Way(l), map[]).value;
    first := FirstNewOf(m, open).value;
    assert IsDeepest(m, |Way(l)|);
    var n :| n in m && m[n].depth == first && !Carries(open, n, m[n].value);
    MarkedStep(c, l, m, n);
  }

  lemma MarkedStep(c: Chain, l: LeafSite, m: Marks, n: string)
    requires Valid(c) && l in Leaves(c, []) && WayMarked(c, l, m) && n in m
    ensures 1 <= m[n].depth <= |Way(l)| && Way(l)[m[n].depth - 1] == Step(n, m[n].value)
  {
    hide Sites, Leaves, Valid;
    var s :| s in Sites(c, []) && s.name == n;
    assert SiteMarked(m, PathMap(Way(l)), s);
    var i := OnWay(c, l, s);
  }

  lemma {:induction false} SelectsAgree(h: Cells, a: OpenMap, b: OpenMap, above: Path, s: Site)
    requires Agrees(h, a) && Agrees(h, b) && s in Sites(Topo(h), above)
    ensures Select(a, s) == Select(b, s)
  {
    match h
    case CSib(name, _, po, gate, rest) =>
      var here := above + [Step(name, 1)];
      if s in GateSites(GateTopo(gate), here) {
        SelectsAgree(gate.chain, a, b, here, s);
      } else if s in Sites(Topo(rest), above) {
        SelectsAgree(rest, a, b, above, s);
      }
    case CMux(name, _, _, _, arms, rest) =>
      if s in ArmSites(ArmTopo(arms), name, above) {
        ArmSelectsAgree(arms, a, b, name, above, s);
      } else if s in Sites(Topo(rest), above) {
        SelectsAgree(rest, a, b, above, s);
      }
  }

  lemma {:induction false} ArmSelectsAgree(h: ArmCells, a: OpenMap, b: OpenMap, mux: string, above: Path, s: Site)
    requires AgreesArms(h, a) && AgreesArms(h, b) && s in ArmSites(ArmTopo(h), mux, above)
    ensures Select(a, s) == Select(b, s)
  {
    var here := above + [Step(mux, h.value)];
    if s in GateSites(GateTopo(h.gate), here) {
      SelectsAgree(h.gate.chain, a, b, here, s);
    } else {
      ArmSelectsAgree(h.others, a, b, mux, above, s);
    }
  }

  /** Below a step that is not carried, an ancestor-closed state carries none. */
  lemma StartsClosed(c: Chain, l: LeafSite, h: Cells, open: OpenMap, first: nat)
    requires Valid(c) && NoZeroArm(c) && l in Leaves(c, []) && Topo(h) == c && Agrees(h, open)
    requires Rooted(c, open, open) && Proper(c, open)
    requires 1 <= first <= |Way(l)| && !Carries(open, Way(l)[first - 1].name, Way(l)[first - 1].value)
    ensures ClosedFrom(c, l, OpenOf(h), first - 1)
  {
    hide OpenOf, Topo, Leaves, Sites, UniqueSlots, Structured, NoZeroArm, Agrees;
    OpenAgrees(h, OpenOf(h));
    forall s | s in Sites(c, []) && s.name in Names(Way(l)) && |s.above| >= first - 1
      ensures Select(OpenOf(h), s) != StepAt(l, |s.above|)
    {
      var i := WayStep(c, l, s);
      SelectsAgree(h, OpenOf(h), open, [], s);
      CarriesIsSelect(open, s, Way(l)[i].value);
      assert s.name in open ==> Opened(open, s.above);
      if i > first - 1 {
        assert s.above[first - 1] == Way(l)[first - 1];
      }
    }
  }

  /** No sequence of scans, whatever is shifted and whatever the instruments see, opens the way to
      an instrument in fewer scans than staging takes from an ancestor-closed state. */
  lemma StagingIsLeast(
    c: Chain, l: LeafSite, h: Cells, open: OpenMap, senses: nat -> Sense, feeds: seq<Bits>)
    requires Valid(c) && NoZeroArm(c) && l in Leaves(c, []) && Topo(h) == c && Agrees(h, open)
    requires Rooted(c, open, open) && Proper(c, open)
    requires Opened(OpenOf(Scans(h, senses, feeds, 0)), Way(l))
    ensures Stage(c, Way(l), open).Some? && |Stage(c, Way(l), open).value| <= |feeds|
  {
    hide *;
    StagedWay(c, l, open);
    if Stage(c, Way(l), open).value != [] {
      var first := RoundCount(c, l, open);
      StartsClosed(c, l, h, open, first);
      ScansOpenOneEach(c, l, h, senses, feeds, 0, first - 1);
      OpenedIsNotClosed(c, l, Scans(h, senses, feeds, 0), first - 1 + |feeds|);
    }
  }

  lemma StagedWay(c: Chain, l: LeafSite, open: OpenMap)
    requires Valid(c) && l in Leaves(c, [])
    ensures Stage(c, Way(l), open).Some?
  {
    WayMarks(c, l);
  }

  lemma OpenedIsNotClosed(c: Chain, l: LeafSite, h: Cells, d: nat)
    requires Valid(c) && NoZeroArm(c) && l in Leaves(c, []) && Topo(h) == c
    requires Opened(OpenOf(h), Way(l)) && ClosedFrom(c, l, OpenOf(h), d)
    ensures d >= |Way(l)|
  {
    hide OpenOf, Topo, Leaves, Sites, UniqueSlots, Structured, NoZeroArm;
    var i := |Way(l)| - 1;
    var t := WaySite(c, l, i);
    assert t.name in Names(Way(l));
    assert Carries(OpenOf(h), Way(l)[i].name, Way(l)[i].value);
    var j := WayStep(c, l, t);
    CarriedSelects(c, h, t, Way(l)[i].value);
  }
}
