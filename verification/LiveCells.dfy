/** The live chain cell by cell: which bit of which instrument, or which select bit, sits at each
    position. Both what compose_bits loads and what a capture leaves are read off the same list, so the
    window of an instrument is in the same place in both. */
module LiveCells {
  import opened Wrappers
  import opened Bits
  import opened IclModel
  import opened SibLayout
  import opened SibCells
  import opened SibShift
  import opened SibRound
  import opened SibRetarget
  import opened SibStaging
  import opened PathPlan
  import opened PdlSpec
  import opened Retargeting
  import opened LayoutWindow

  /** A select cell and the bit it stands at, or bit `k` of an instrument and the slot that gates it. */
  datatype LiveCell = Select(bit: bool) | Content(slot: string, inst: Instrument, k: nat)

  function Live(c: Chain, open: OpenMap): seq<LiveCell> {
    match c
    case End => []
    case Sib(name, gate, rest) =>
      (if name in open then LiveGate(gate, name, open) else []) + [Select(name in open)] + Live(rest, open)
    case Mux(name, selectWidth, arms, rest) =>
      (if name in open then LiveArms(arms, open[name], name, open) else [])
      + Selects(Reverse(FromInt(FieldOf(open, name), selectWidth))) + Live(rest, open)
  }

  function LiveGate(g: Gate, slot: string, open: OpenMap): seq<LiveCell> {
    match g
    case Leaf(inst) => Contents(slot, inst)
    case Net(chain) => Live(chain, open)
  }

  function LiveArms(a: Arms, value: int, mux: string, open: OpenMap): seq<LiveCell> {
    match a
    case NoArms => []
    case Arm(v, gate, others) =>
      if v == value then LiveGate(gate, mux, open) else LiveArms(others, value, mux, open)
  }

  function Contents(slot: string, inst: Instrument): (r: seq<LiveCell>)
    ensures |r| == inst.width
  {
    seq(inst.width, k requires 0 <= k => Content(slot, inst, k))
  }

  function Selects(bits: Bits): (r: seq<LiveCell>)
    ensures |r| == |bits|
  {
    seq(|bits|, k requires 0 <= k < |bits| => Select(bits[k]))
  }

  // ---------------------------------------------------------------- two readings of the list

  /** What compose_bits puts in a cell when everything open stays open. */
  function Loads(cell: LiveCell, target: Option<string>, payload: int): bool {
    match cell
    case Select(bit) => bit
    case Content(slot, _, k) => target == Some(slot) && BitOf(payload, k)
  }

  /** What a cell holds after a capture. */
  function Holds1(cell: LiveCell, com: Committed, sense: Sense): bool {
    match cell
    case Select(bit) => bit
    case Content(_, inst, k) => k < inst.width && Captured(inst, com, sense)[k]
  }

  function Loaded(cells: seq<LiveCell>, target: Option<string>, payload: int): (r: Bits)
    ensures |r| == |cells|
  {
    seq(|cells|, i requires 0 <= i < |cells| => Loads(cells[i], target, payload))
  }

  function Kept(cells: seq<LiveCell>, com: Committed, sense: Sense): (r: Bits)
    ensures |r| == |cells|
  {
    seq(|cells|, i requires 0 <= i < |cells| => Holds1(cells[i], com, sense))
  }

  lemma LoadedJoin(a: seq<LiveCell>, b: seq<LiveCell>, target: Option<string>, payload: int)
    ensures Loaded(a + b, target, payload) == Loaded(a, target, payload) + Loaded(b, target, payload)
  {
  }

  lemma KeptJoin(a: seq<LiveCell>, b: seq<LiveCell>, com: Committed, sense: Sense)
    ensures Kept(a + b, com, sense) == Kept(a, com, sense) + Kept(b, com, sense)
  {
  }

  lemma FixedBits(bits: Bits, target: Option<string>, payload: int, com: Committed, sense: Sense)
    ensures Loaded(Selects(bits), target, payload) == bits && Kept(Selects(bits), com, sense) == bits
  {
  }

  lemma ContentBits(slot: string, inst: Instrument, target: Option<string>, payload: int, com: Committed, sense: Sense)
    ensures Loaded(Contents(slot, inst), target, payload)
            == if target == Some(slot) then FromInt(payload, inst.width) else Zeros(inst.width)
    ensures Kept(Contents(slot, inst), com, sense) == Captured(inst, com, sense)
  {
    forall k | 0 <= k < inst.width ensures FromInt(payload, inst.width)[k] == BitOf(payload, k) {
      FromIntBit(payload, inst.width, k);
    }
  }

  /** compose_bits fills the list. */
  lemma {:induction false} ComposeIsLoaded(c: Chain, open: OpenMap, target: Option<string>, payload: int)
    ensures Compose(c, open, open, target, payload) == Loaded(Live(c, open), target, payload)
  {
    match c
    case End =>
    case Sib(name, gate, rest) =>
      ComposeIsLoaded(rest, open, target, payload);
      GateIsLoaded(gate, name, open, target, payload);
      var own := if name in open then LiveGate(gate, name, open) else [];
      LoadedThree(own, [name in open], Live(rest, open), target, payload);
    case Mux(name, selectWidth, arms, rest) =>
      ComposeIsLoaded(rest, open, target, payload);
      if name in open {
        ArmsAreLoaded(arms, open[name], name, open, target, payload);
      }
      var own := if name in open then LiveArms(arms, open[name], name, open) else [];
      LoadedThree(own, Reverse(FromInt(FieldOf(open, name), selectWidth)), Live(rest, open), target, payload);
  }

  lemma LoadedThree(own: seq<LiveCell>, bits: Bits, rest: seq<LiveCell>, target: Option<string>, payload: int)
    ensures Loaded(own + Selects(bits) + rest, target, payload)
            == Loaded(own, target, payload) + bits + Loaded(rest, target, payload)
    ensures |bits| == 1 ==> Selects(bits) == [Select(bits[0])]
  {
    hide Loaded;
    LoadedJoin(own + Selects(bits), rest, target, payload);
    LoadedJoin(own, Selects(bits), target, payload);
    FixedBits(bits, target, payload, map[], Stub);
  }

  lemma {:induction false} GateIsLoaded(g: Gate, slot: string, open: OpenMap, target: Option<string>, payload: int)
    ensures GateBits(g, open, open, target, payload, target == Some(slot))
            == Loaded(LiveGate(g, slot, open), target, payload)
  {
    match g
    case Leaf(inst) => ContentBits(slot, inst, target, payload, map[], Stub);
    case Net(chain) => ComposeIsLoaded(chain, open, target, payload);
  }

  lemma {:induction false} ArmsAreLoaded(
    a: Arms, value: int, mux: string, open: OpenMap, target: Option<string>, payload: int)
    ensures ArmBits(a, value, open, open, target, payload, target == Some(mux))
            == Loaded(LiveArms(a, value, mux, open), target, payload)
  {
    if a.Arm? {
      if a.value == value {
        GateIsLoaded(a.gate, mux, open, target, payload);
      } else {
        ArmsAreLoaded(a.others, value, mux, open, target, payload);
      }
    }
  }

  /** A capture fills the list too: every open select cell stands at its own bit, every instrument shows
      what it captured. */
  lemma {:induction false} CaptureIsKept(h: Cells, open: OpenMap, com: Committed, sense: Sense)
    requires Agrees(h, open) && Latched(h, com) && Sized(h) && NoZeroArm(Topo(h))
    ensures Raw(Capture(h, sense, true)) == Kept(Live(Topo(h), open), com, sense)
  {
    match h
    case CEnd =>
    case CSib(name, _, po, gate, rest) =>
      CaptureIsKept(rest, open, com, sense);
      if po {
        GateIsKept(gate, name, open, com, sense);
      }
      var own := if po then LiveGate(GateTopo(gate), name, open) else [];
      KeptThree(own, [po], Live(Topo(rest), open), com, sense);
    case CMux(name, width, _, mpo, arms, rest) =>
      CaptureIsKept(rest, open, com, sense);
      ArmsAreKept(arms, name, Value(mpo), open, com, sense);
      FieldStands(mpo, width);
      var own := if name in open then LiveArms(ArmTopo(arms), Value(mpo), name, open) else [];
      KeptThree(own, mpo, Live(Topo(rest), open), com, sense);
  }

  lemma FieldStands(field: Bits, width: nat)
    requires |field| == width
    ensures Reverse(FromInt(Value(field), width)) == field
  {
    FromIntToInt(Reverse(field));
    ReverseTwice(field);
  }

  lemma KeptThree(own: seq<LiveCell>, bits: Bits, rest: seq<LiveCell>, com: Committed, sense: Sense)
    ensures Kept(own + Selects(bits) + rest, com, sense) == Kept(own, com, sense) + bits + Kept(rest, com, sense)
    ensures |bits| == 1 ==> Selects(bits) == [Select(bits[0])]
  {
    hide Kept;
    KeptJoin(own + Selects(bits), rest, com, sense);
    KeptJoin(own, Selects(bits), com, sense);
    FixedBits(bits, None, 0, com, sense);
  }

  lemma {:induction false} GateIsKept(g: GateCells, slot: string, open: OpenMap, com: Committed, sense: Sense)
    requires AgreesGate(g, open) && LatchedGate(g, com) && SizedGate(g) && NoZeroGate(GateTopo(g))
    ensures RawGate(CaptureGate(g, sense, true)) == Kept(LiveGate(GateTopo(g), slot, open), com, sense)
  {
    match g
    case CLeaf(inst, _, _) => ContentBits(slot, inst, None, 0, com, sense);
    case CNet(chain) => CaptureIsKept(chain, open, com, sense);
  }

  lemma {:induction false} ArmsAreKept(
    a: ArmCells, mux: string, value: int, open: OpenMap, com: Committed, sense: Sense)
    requires AgreesArms(a, open) && LatchedArms(a, com) && SizedArms(a) && NoZeroArms(ArmTopo(a))
    ensures RawArms(CaptureArms(a, sense, true, value), value)
            == Kept(LiveArms(ArmTopo(a), value, mux, open), com, sense)
    ensures value == 0 ==> LiveArms(ArmTopo(a), value, mux, open) == []
  {
    if a.CArm? {
      if a.value == value {
        GateIsKept(a.gate, mux, open, com, sense);
      } else {
        ArmsAreKept(a.others, mux, value, open, com, sense);
      }
    }
  }

  // ---------------------------------------------------------------- whose cells they are

  /** Content belongs to an instrument of the network, under the slot that gates it. */
  lemma {:induction false} ContentIsLeaf(c: Chain, above: Path, open: OpenMap, i: nat) returns (l: LeafSite)
    requires i < |Live(c, open)| && Live(c, open)[i].Content?
    ensures var cell := Live(c, open)[i];
            l in Leaves(c, above) && l.step.name == cell.slot && l.inst == cell.inst && cell.k < l.inst.width
  {
    match c
    case Sib(name, gate, rest) =>
      var own := if name in open then LiveGate(gate, name, open) else [];
      if i < |own| {
        l := GateContentIsLeaf(gate, Step(name, 1), above, false, open, i);
      } else {
        assert Live(c, open)[i] == Live(rest, open)[i - |own| - 1];
        l := ContentIsLeaf(rest, above, open, i - |own| - 1);
      }
    case Mux(name, selectWidth, arms, rest) =>
      var own := if name in open then LiveArms(arms, open[name], name, open) else [];
      if i < |own| {
        l := ArmContentIsLeaf(arms, open[name], name, above, open, i);
      } else {
        assert i >= |own| + selectWidth;
        assert Live(c, open)[i] == Live(rest, open)[i - |own| - selectWidth];
        l := ContentIsLeaf(rest, above, open, i - |own| - selectWidth);
      }
  }

  lemma {:induction false} GateContentIsLeaf(g: Gate, step: Step, above: Path, isMux: bool, open: OpenMap, i: nat)
    returns (l: LeafSite)
    requires i < |LiveGate(g, step.name, open)| && LiveGate(g, step.name, open)[i].Content?
    ensures var cell := LiveGate(g, step.name, open)[i];
            l in GateLeaves(g, step, above, isMux) && l.step.name == cell.slot && l.inst == cell.inst
            && cell.k < l.inst.width
  {
    match g
    case Leaf(inst) => l := LeafSite(step, above, isMux, inst);
    case Net(chain) => l := ContentIsLeaf(chain, above + [step], open, i);
  }

  lemma {:induction false} ArmContentIsLeaf(a: Arms, value: int, mux: string, above: Path, open: OpenMap, i: nat)
    returns (l: LeafSite)
    requires i < |LiveArms(a, value, mux, open)| && LiveArms(a, value, mux, open)[i].Content?
    ensures var cell := LiveArms(a, value, mux, open)[i];
            l in ArmLeaves(a, mux, above) && l.step.name == cell.slot && l.inst == cell.inst && cell.k < l.inst.width
  {
    if a.value == value {
      l := GateContentIsLeaf(a.gate, Step(mux, value), above, true, open, i);
    } else {
      l := ArmContentIsLeaf(a.others, value, mux, above, open, i);
    }
  }

  // ---------------------------------------------------------------- the window of an instrument

  /** A composed bit follows the payload's bit `j`, for every payload, only in the cell that holds bit `j`
      of the target's content. */
  lemma OnlyItsOwn(cell: LiveCell, slot: string, j: nat)
    requires forall payload: int :: Loads(cell, Some(slot), payload) == BitOf(payload, j)
    ensures Of(cell, slot) && cell.k == j
  {
    assert Loads(cell, Some(slot), -1) == BitOf(-1, j) && Loads(cell, Some(slot), 0) == BitOf(0, j);
    MinusOneBit(j);
    ZeroBit(j);
    assert cell.Content? && cell.slot == slot;
    assert Loads(cell, Some(slot), Shl(1, j)) == BitOf(Shl(1, j), j);
    ShlOneBit(j, j);
    ShlOneBit(j, cell.k);
  }

  predicate Of(cell: LiveCell, slot: string) { cell.Content? && cell.slot == slot }

  /** The window _target_layout reports is where the target's content is in the list, and there is none
      of it elsewhere. */
  lemma WindowIsContent(c: Chain, open: OpenMap, slot: string, w: Window)
    requires UniqueSlots(c) && slot in open && TargetLayout(c, open, slot, 0) == Some(w)
    ensures 0 <= w.offset && w.offset + w.width <= |Live(c, open)|
    ensures forall p :: 0 <= p < |Live(c, open)| ==>
              (Of(Live(c, open)[p], slot) <==> w.offset <= p < w.offset + w.width)
              && (Of(Live(c, open)[p], slot) ==> Live(c, open)[p].k == p - w.offset)
  {
    WindowIsExact(c, open, open, slot, 0, 0);
    ComposeIsLoaded(c, open, None, 0);
    hide Live, TargetLayout, UniqueSlots;
    forall p | 0 <= p < |Live(c, open)|
      ensures Of(Live(c, open)[p], slot) <==> w.offset <= p < w.offset + w.width
      ensures Of(Live(c, open)[p], slot) ==> Live(c, open)[p].k == p - w.offset
    {
      WindowCell(c, open, slot, w, p);
    }
  }

  lemma WindowCell(c: Chain, open: OpenMap, slot: string, w: Window, p: nat)
    requires UniqueSlots(c) && slot in open && TargetLayout(c, open, slot, 0) == Some(w)
    requires 0 <= w.offset && w.offset + w.width <= |Live(c, open)| && p < |Live(c, open)|
    ensures Of(Live(c, open)[p], slot) <==> w.offset <= p < w.offset + w.width
    ensures Of(Live(c, open)[p], slot) ==> Live(c, open)[p].k == p - w.offset
  {
    hide Live, TargetLayout, UniqueSlots;
    var cell := Live(c, open)[p];
    if w.offset <= p < w.offset + w.width {
      forall payload: int ensures Loads(cell, Some(slot), payload) == BitOf(payload, p - w.offset) {
        InWindow(c, open, slot, w, payload, p - w.offset);
      }
      OnlyItsOwn(cell, slot, p - w.offset);
    } else {
      OutsideWindow(c, open, slot, w, -1, p);
      if Of(cell, slot) {
        MinusOneBit(cell.k);
      }
    }
  }

  lemma InWindow(c: Chain, open: OpenMap, slot: string, w: Window, payload: int, j: nat)
    requires UniqueSlots(c) && slot in open && TargetLayout(c, open, slot, 0) == Some(w) && j < w.width
    ensures 0 <= w.offset && w.offset + w.width <= |Live(c, open)|
    ensures Loads(Live(c, open)[w.offset + j], Some(slot), payload) == BitOf(payload, j)
  {
    hide UniqueSlots, TargetLayout, Compose, Live, Loads, BitOf;
    WindowIsExact(c, open, open, slot, payload, 0);
    ComposeIsLoaded(c, open, Some(slot), payload);
    ComposeIsLoaded(c, open, None, 0);
    FromIntBit(payload, w.width, j);
    ReplacedAt(Compose(c, open, open, None, 0), w.offset, FromInt(payload, w.width), w.offset + j);
  }

  lemma OutsideWindow(c: Chain, open: OpenMap, slot: string, w: Window, payload: int, p: nat)
    requires UniqueSlots(c) && slot in open && TargetLayout(c, open, slot, 0) == Some(w)
    requires p < |Live(c, open)| && !(w.offset <= p < w.offset + w.width)
    ensures Loads(Live(c, open)[p], Some(slot), payload) == Loads(Live(c, open)[p], None, 0)
  {
    hide UniqueSlots, TargetLayout, Compose, Live, Loads, FromInt;
    WindowIsExact(c, open, open, slot, payload, 0);
    ComposeIsLoaded(c, open, Some(slot), payload);
    ComposeIsLoaded(c, open, None, 0);
    ReplacedAt(Compose(c, open, open, None, 0), w.offset, FromInt(payload, w.width), p);
  }

  lemma ReplacedAt(base: Bits, at: int, part: Bits, p: nat)
    requires Fits(base, at, part) && p < |base|
    ensures |Replaced(base, at, part)| == |base|
    ensures Replaced(base, at, part)[p] == if at <= p < at + |part| then part[p - at] else base[p]
  {
  }
}
