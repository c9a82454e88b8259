/** The cells of an inserted network as a value: what sib_model.py's register does to every
    flip-flop on Capture-DR, on one Shift-DR cycle and on Update-DR. The tree mirrors the
    topology; `ff` is a select cell's shift stage and `po` its update stage, `sh` and `latch`
    are the same two stages of an instrument. `mff` and `mpo` are a ScanMux's select field in
    chain order, most significant bit first. SibRegister.dfy is the in-place register. */
module SibCells {
  import opened Bits
  import opened IclModel

  datatype Cells =
    | CEnd
    | CSib(name: string, ff: bool, po: bool, gate: GateCells, rest: Cells)
    | CMux(name: string, width: nat, mff: Bits, mpo: Bits, arms: ArmCells, rest: Cells)

  datatype GateCells = CLeaf(inst: Instrument, sh: Bits, latch: Bits) | CNet(chain: Cells)

  datatype ArmCells = CNoArms | CArm(value: nat, gate: GateCells, others: ArmCells)

  /** What each READ instrument sees at one Capture-DR. */
  type Sense = Instrument -> int

  /** sib_model's own stub: a READ instrument sees its declared capture value. */
  function Stub(inst: Instrument): int { inst.captureValue }

  /** The value a select field in chain order holds. */
  function Value(field: Bits): nat { ToInt(Reverse(field)) }

  // ---------------------------------------------------------------- topology, sizes, reset

  function Topo(h: Cells): Chain {
    match h
    case CEnd => End
    case CSib(name, _, _, gate, rest) => Sib(name, GateTopo(gate), Topo(rest))
    case CMux(name, width, _, _, arms, rest) => Mux(name, width, ArmTopo(arms), Topo(rest))
  }

  function GateTopo(g: GateCells): Gate {
    match g
    case CLeaf(inst, _, _) => Leaf(inst)
    case CNet(chain) => Net(Topo(chain))
  }

  function ArmTopo(a: ArmCells): Arms {
    match a
    case CNoArms => NoArms
    case CArm(value, gate, others) => Arm(value, GateTopo(gate), ArmTopo(others))
  }

  /** Every register has the width its topology declares. */
  ghost predicate Sized(h: Cells) {
    match h
    case CEnd => true
    case CSib(_, _, _, gate, rest) => SizedGate(gate) && Sized(rest)
    case CMux(_, width, mff, mpo, arms, rest) =>
      |mff| == width && |mpo| == width && SizedArms(arms) && Sized(rest)
  }

  ghost predicate SizedGate(g: GateCells) {
    match g
    case CLeaf(inst, sh, latch) => |sh| == inst.width && |latch| == inst.width
    case CNet(chain) => Sized(chain)
  }

  ghost predicate SizedArms(a: ArmCells) {
    match a
    case CNoArms => true
    case CArm(_, gate, others) => SizedGate(gate) && SizedArms(others)
  }

  /** The state reset leaves, at every depth and in every arm. */
  function Fresh(c: Chain): (h: Cells) {
    match c
    case End => CEnd
    case Sib(name, gate, rest) => CSib(name, false, false, FreshGate(gate), Fresh(rest))
    case Mux(name, width, arms, rest) =>
      CMux(name, width, Zeros(width), Zeros(width), FreshArms(arms), Fresh(rest))
  }

  function FreshGate(g: Gate): GateCells {
    match g
    case Leaf(inst) => CLeaf(inst, Zeros(inst.width), Zeros(inst.width))
    case Net(chain) => CNet(Fresh(chain))
  }

  function FreshArms(a: Arms): ArmCells {
    match a
    case NoArms => CNoArms
    case Arm(value, gate, others) => CArm(value, FreshGate(gate), FreshArms(others))
  }

  // ---------------------------------------------------------------- Capture-DR and Update-DR

  /** A select cell recaptures its own update stage only while its select is live; a nested
      chain's select is its parent's update stage alone. Instruments always capture. */
  function Capture(h: Cells, sense: Sense, live: bool): Cells {
    match h
    case CEnd => CEnd
    case CSib(name, ff, po, gate, rest) =>
      CSib(name, if live then po else ff, po, CaptureGate(gate, sense, po), Capture(rest, sense, live))
    case CMux(name, width, mff, mpo, arms, rest) =>
      CMux(name, width, if live then mpo else mff, mpo,
           CaptureArms(arms, sense, live, Value(mpo)), Capture(rest, sense, live))
  }

  function CaptureGate(g: GateCells, sense: Sense, live: bool): GateCells {
    match g
    case CLeaf(inst, _, latch) =>
      CLeaf(inst, if inst.direction.WRITE? then latch else FromInt(sense(inst), inst.width), latch)
    case CNet(chain) => CNet(Capture(chain, sense, live))
  }

  function CaptureArms(a: ArmCells, sense: Sense, live: bool, value: int): ArmCells {
    match a
    case CNoArms => CNoArms
    case CArm(v, gate, others) =>
      CArm(v, CaptureGate(gate, sense, live && value == v), CaptureArms(others, sense, live, value))
  }

  /** Capture-DR while the network is not selected: only instruments capture. */
  function CaptureUnselected(h: Cells, sense: Sense): Cells {
    match h
    case CEnd => CEnd
    case CSib(name, ff, po, gate, rest) =>
      CSib(name, ff, po, CaptureGateUnselected(gate, sense), CaptureUnselected(rest, sense))
    case CMux(name, width, mff, mpo, arms, rest) =>
      CMux(name, width, mff, mpo, CaptureArmsUnselected(arms, sense), CaptureUnselected(rest, sense))
  }

  function CaptureGateUnselected(g: GateCells, sense: Sense): GateCells {
    match g
    case CLeaf(inst, _, latch) =>
      CLeaf(inst, if inst.direction.WRITE? then latch else FromInt(sense(inst), inst.width), latch)
    case CNet(chain) => CNet(CaptureUnselected(chain, sense))
  }

  function CaptureArmsUnselected(a: ArmCells, sense: Sense): ArmCells {
    match a
    case CNoArms => CNoArms
    case CArm(v, gate, others) =>
      CArm(v, CaptureGateUnselected(gate, sense), CaptureArmsUnselected(others, sense))
  }

  /** A select cell commits only while its select is live; a WRITE instrument commits only when
      its gate is open both before and after this edge. Children see the state before the edge. */
  function Update(h: Cells, live: bool): Cells {
    match h
    case CEnd => CEnd
    case CSib(name, ff, po, gate, rest) =>
      CSib(name, ff, if live then ff else po,
           UpdateGate(gate, live && po, live && po && ff), Update(rest, live))
    case CMux(name, width, mff, mpo, arms, rest) =>
      CMux(name, width, mff, if live then mff else mpo,
           UpdateArms(arms, live, Value(mpo), Value(mff)), Update(rest, live))
  }

  function UpdateGate(g: GateCells, live: bool, stays: bool): GateCells {
    match g
    case CLeaf(inst, sh, latch) =>
      CLeaf(inst, sh, if inst.direction.WRITE? && stays then sh else latch)
    case CNet(chain) => CNet(Update(chain, live))
  }

  function UpdateArms(a: ArmCells, live: bool, before: int, after: int): ArmCells {
    match a
    case CNoArms => CNoArms
    case CArm(v, gate, others) =>
      CArm(v, UpdateGate(gate, live && before == v, live && before == v && after == v),
           UpdateArms(others, live, before, after))
  }

  // ---------------------------------------------------------------- the live chain

  /** The content of every live cell, nearest TDI first. */
  function Raw(h: Cells): Bits {
    match h
    case CEnd => []
    case CSib(_, ff, po, gate, rest) => (if po then RawGate(gate) else []) + [ff] + Raw(rest)
    case CMux(_, _, mff, mpo, arms, rest) => RawArms(arms, Value(mpo)) + mff + Raw(rest)
  }

  function RawGate(g: GateCells): Bits {
    match g
    case CLeaf(_, sh, _) => sh
    case CNet(chain) => Raw(chain)
  }

  function RawArms(a: ArmCells, value: int): Bits {
    match a
    case CNoArms => []
    case CArm(v, gate, others) => if v == value then RawGate(gate) else RawArms(others, value)
  }

  /** What the chain shows at its own scan output, `fallback` when it has no slot: the last
      slot's select cell, or the matched arm's own output while a ScanMux has one. */
  function LiveSo(h: Cells, fallback: bool): bool {
    match h
    case CEnd => fallback
    case CSib(_, ff, _, _, rest) => LiveSo(rest, ff)
    case CMux(_, _, mff, mpo, arms, rest) => LiveSo(rest, ArmSo(arms, Value(mpo), mff != [] && mff[|mff| - 1]))
  }

  function GateSo(g: GateCells): bool {
    match g
    case CLeaf(_, sh, _) => sh != [] && sh[|sh| - 1]
    case CNet(chain) => LiveSo(chain, false)
  }

  function ArmSo(a: ArmCells, value: int, own: bool): bool {
    match a
    case CNoArms => own
    case CArm(v, gate, others) => if v == value then GateSo(gate) else ArmSo(others, value, own)
  }

  /** What a shift reads from every live cell: the cell itself, except that bit 0 of a ScanMux's
      select field reads as the mux's scan output. */
  function Seen(h: Cells): Bits {
    match h
    case CEnd => []
    case CSib(_, ff, po, gate, rest) => (if po then SeenGate(gate) else []) + [ff] + Seen(rest)
    case CMux(_, _, mff, mpo, arms, rest) =>
      SeenArms(arms, Value(mpo))
      + (if mff == [] then [] else mff[..|mff| - 1] + [ArmSo(arms, Value(mpo), mff[|mff| - 1])])
      + Seen(rest)
  }

  function SeenGate(g: GateCells): Bits {
    match g
    case CLeaf(_, sh, _) => sh
    case CNet(chain) => Seen(chain)
  }

  function SeenArms(a: ArmCells, value: int): Bits {
    match a
    case CNoArms => []
    case CArm(v, gate, others) => if v == value then SeenGate(gate) else SeenArms(others, value)
  }

  lemma {:induction false} SeenLength(h: Cells)
    ensures |Seen(h)| == |Raw(h)|
  {
    match h
    case CEnd =>
    case CSib(_, _, _, gate, rest) =>
      SeenGateLength(gate);
      SeenLength(rest);
    case CMux(_, _, _, mpo, arms, rest) =>
      SeenArmsLength(arms, Value(mpo));
      SeenLength(rest);
  }

  lemma {:induction false} SeenGateLength(g: GateCells)
    ensures |SeenGate(g)| == |RawGate(g)|
  {
    if g.CNet? {
      SeenLength(g.chain);
    }
  }

  lemma {:induction false} SeenArmsLength(a: ArmCells, value: int)
    ensures |SeenArms(a, value)| == |RawArms(a, value)|
  {
    if a.CArm? {
      SeenGateLength(a.gate);
      SeenArmsLength(a.others, value);
    }
  }

  /** Write `bits` into the live cells, nearest TDI first. */
  function Load(h: Cells, bits: Bits): (r: Cells)
    requires |bits| == |Raw(h)|
  {
    match h
    case CEnd => CEnd
    case CSib(name, ff, po, gate, rest) =>
      var n := if po then |RawGate(gate)| else 0;
      CSib(name, bits[n], po, if po then LoadGate(gate, bits[..n]) else gate, Load(rest, bits[n + 1..]))
    case CMux(name, width, mff, mpo, arms, rest) =>
      var n := |RawArms(arms, Value(mpo))|;
      var m := n + |mff|;
      CMux(name, width, bits[n..m], mpo, LoadArms(arms, Value(mpo), bits[..n]), Load(rest, bits[m..]))
  }

  function LoadGate(g: GateCells, bits: Bits): GateCells
    requires |bits| == |RawGate(g)|
  {
    match g
    case CLeaf(inst, _, latch) => CLeaf(inst, bits, latch)
    case CNet(chain) => CNet(Load(chain, bits))
  }

  function LoadArms(a: ArmCells, value: int, bits: Bits): ArmCells
    requires |bits| == |RawArms(a, value)|
  {
    match a
    case CNoArms => CNoArms
    case CArm(v, gate, others) =>
      if v == value then CArm(v, LoadGate(gate, bits), others)
      else CArm(v, gate, LoadArms(others, value, bits))
  }

  /** One Shift-DR cycle: every live cell takes what its TDI-side neighbour showed. */
  function Shift(h: Cells, tdi: bool): (Cells, bool) {
    SeenLength(h);
    var seen := Seen(h);
    if seen == [] then (h, tdi)
    else (Load(h, [tdi] + seen[..|seen| - 1]), seen[|seen| - 1])
  }

  /** A run of Shift-DR cycles: the state it leaves and what TDO shows, first cycle first. */
  function ShiftAll(h: Cells, fed: Bits): (Cells, Bits)
    decreases |fed|
  {
    if fed == [] then (h, [])
    else
      var (h1, tdo) := Shift(h, fed[0]);
      var (h2, out) := ShiftAll(h1, fed[1..]);
      (h2, [tdo] + out)
  }

  /** A whole DR scan of the selected network: capture, shift `fed`, update. */
  function DrScan(h: Cells, sense: Sense, fed: Bits): (Cells, Bits) {
    var (h1, out) := ShiftAll(Capture(h, sense, true), fed);
    (Update(h1, true), out)
  }
}
