/** Writing the live layout of the store cell by cell is SibCells.Load on the tree. */
module SibLoad {
  import opened Bits
  import opened IclModel
  import opened SibCells
  import opened SibStore

  ghost predicate Distinct(c: Chain) { UniqueSlots(c) && UniqueInsts(c) }

  ghost predicate DistinctGate(g: Gate) { UniqueGateSlots(g) && UniqueGateInsts(g) }

  ghost predicate DistinctArms(a: Arms) { UniqueArmSlots(a) && UniqueArmInsts(a) }

  /** Cells changed elsewhere read the same. */
  lemma Elsewhere(c: Chain, s: Store, s': Store, slots: set<string>, insts: set<string>)
    requires Within(s, s', slots, insts) && slots !! SlotNames(c) && insts !! InstNames(c)
    ensures CellsOf(c, s) == CellsOf(c, s')
  {
    hide SameSlot, SameInst;
    CellsFrame(c, s, s');
  }

  lemma GateElsewhere(g: Gate, s: Store, s': Store, slots: set<string>, insts: set<string>)
    requires Within(s, s', slots, insts) && slots !! GateSlots(g) && insts !! GateInsts(g)
    ensures GateCellsOf(g, s) == GateCellsOf(g, s')
  {
    hide SameSlot, SameInst;
    GateFrame(g, s, s');
  }

  lemma ArmsElsewhere(a: Arms, s: Store, s': Store, slots: set<string>, insts: set<string>)
    requires Within(s, s', slots, insts) && slots !! ArmSlots(a) && insts !! ArmInsts(a)
    ensures ArmCellsOf(a, s) == ArmCellsOf(a, s')
  {
    hide SameSlot, SameInst;
    ArmsFrame(a, s, s');
  }

  lemma Wider(s: Store, s': Store, slots: set<string>, insts: set<string>, slots': set<string>, insts': set<string>)
    requires Within(s, s', slots, insts) && slots <= slots' && insts <= insts'
    ensures Within(s, s', slots', insts')
  {
    hide SameSlot, SameInst;
  }

  lemma {:induction false} LayoutLength(c: Chain, s: Store)
    requires Sized(CellsOf(c, s))
    ensures |Layout(c, s)| == |Raw(CellsOf(c, s))|
  {
    ReadIsSeen(c, s);
    SeenLength(CellsOf(c, s));
  }

  lemma {:induction false} GateLayoutLength(g: Gate, s: Store)
    requires SizedGate(GateCellsOf(g, s))
    ensures |GateLayout(g, s)| == |RawGate(GateCellsOf(g, s))|
  {
    GateReadIsSeen(g, s);
    SeenGateLength(GateCellsOf(g, s));
  }

  lemma {:induction false} ArmLayoutLength(a: Arms, value: int, s: Store)
    requires SizedArms(ArmCellsOf(a, s))
    ensures |ArmLayout(a, value, s)| == |RawArms(ArmCellsOf(a, s), value)|
  {
    ArmReadIsSeen(a, value, s);
    SeenArmsLength(ArmCellsOf(a, s), value);
  }

  /** What a run of shift-stage writes over one part of the network does to the store. */
  ghost predicate Wrote(s: Store, s': Store, slots: set<string>, insts: set<string>) {
    Within(s, s', slots, insts) && SameStages(s, s')
  }

  lemma WriteThree(s: Store, a: seq<CellRef>, r: CellRef, b: seq<CellRef>, bits: Bits)
    requires |bits| == |a| + 1 + |b|
    ensures WriteAll(s, a + [r] + b, bits)
            == WriteAll(WriteRef(WriteAll(s, a, bits[..|a|]), r, bits[|a|]), b, bits[|a| + 1..])
  {
    var n := |a|;
    Rejoin(bits, n, n + 1);
    WriteJoin(s, a + [r], b, bits[..n] + bits[n..n + 1], bits[n + 1..]);
    WriteJoin(s, a, [r], bits[..n], bits[n..n + 1]);
  }

  lemma WroteLayout(c: Chain, s: Store, bits: Bits)
    requires |bits| == |Layout(c, s)|
    ensures Wrote(s, WriteAll(s, Layout(c, s), bits), SlotNames(c), InstNames(c))
  {
    hide Within, Refers;
    LayoutRefers(c, s);
    WriteWithin(s, Layout(c, s), bits, SlotNames(c), InstNames(c));
  }

  lemma WroteGate(g: Gate, s: Store, bits: Bits)
    requires |bits| == |GateLayout(g, s)|
    ensures Wrote(s, WriteAll(s, GateLayout(g, s), bits), GateSlots(g), GateInsts(g))
  {
    hide Within, Refers;
    GateLayoutRefers(g, s);
    WriteWithin(s, GateLayout(g, s), bits, GateSlots(g), GateInsts(g));
  }

  lemma WroteArms(a: Arms, value: int, s: Store, bits: Bits)
    requires |bits| == |ArmLayout(a, value, s)|
    ensures Wrote(s, WriteAll(s, ArmLayout(a, value, s), bits), ArmSlots(a), ArmInsts(a))
  {
    hide Within, Refers;
    ArmLayoutRefers(a, value, s);
    WriteWithin(s, ArmLayout(a, value, s), bits, ArmSlots(a), ArmInsts(a));
  }

  /** The gate, the select cell and the rest of a chain are written one after the other. */
  lemma SibParts(c: Chain, s: Store, s1: Store, s2: Store, s3: Store)
    requires c.Sib? && Distinct(c)
    requires Wrote(s, s1, GateSlots(c.gate), GateInsts(c.gate)) && Wrote(s1, s2, {c.name}, {})
    requires Wrote(s2, s3, SlotNames(c.rest), InstNames(c.rest))
    ensures CellsOf(c.rest, s2) == CellsOf(c.rest, s) && Layout(c.rest, s2) == Layout(c.rest, s)
    ensures GateCellsOf(c.gate, s3) == GateCellsOf(c.gate, s1)
    ensures Flag(s3.sibFf, c.name) == Flag(s2.sibFf, c.name) && Flag(s3.sibPo, c.name) == Flag(s.sibPo, c.name)
  {
    Elsewhere(c.rest, s, s1, GateSlots(c.gate), GateInsts(c.gate));
    Elsewhere(c.rest, s1, s2, {c.name}, {});
    LayoutFrame(c.rest, s, s2);
    GateElsewhere(c.gate, s1, s2, {c.name}, {});
    GateElsewhere(c.gate, s2, s3, SlotNames(c.rest), InstNames(c.rest));
    assert SameSlot(s2, s3, c.name);
  }

  lemma MuxParts(c: Chain, s: Store, s1: Store, s2: Store, s3: Store)
    requires c.Mux? && Distinct(c)
    requires Wrote(s, s1, ArmSlots(c.arms), ArmInsts(c.arms)) && Wrote(s1, s2, {c.name}, {})
    requires Wrote(s2, s3, SlotNames(c.rest), InstNames(c.rest))
    ensures CellsOf(c.rest, s2) == CellsOf(c.rest, s) && Layout(c.rest, s2) == Layout(c.rest, s)
    ensures ArmCellsOf(c.arms, s3) == ArmCellsOf(c.arms, s1)
    ensures Word(s3.muxFf, c.name) == Word(s2.muxFf, c.name) && Word(s3.muxPo, c.name) == Word(s.muxPo, c.name)
  {
    Elsewhere(c.rest, s, s1, ArmSlots(c.arms), ArmInsts(c.arms));
    Elsewhere(c.rest, s1, s2, {c.name}, {});
    LayoutFrame(c.rest, s, s2);
    ArmsElsewhere(c.arms, s1, s2, {c.name}, {});
    ArmsElsewhere(c.arms, s2, s3, SlotNames(c.rest), InstNames(c.rest));
    assert SameSlot(s2, s3, c.name) && SameSlot(s, s1, c.name);
  }

  lemma FieldKept(c: Chain, s: Store, s1: Store)
    requires c.Mux? && Distinct(c) && Wrote(s, s1, ArmSlots(c.arms), ArmInsts(c.arms))
    ensures Word(s1.muxFf, c.name) == Word(s.muxFf, c.name)
  {
    assert SameSlot(s, s1, c.name);
  }

  lemma {:induction false} WriteIsLoad(c: Chain, s: Store, bits: Bits)
    requires Distinct(c) && Sized(CellsOf(c, s)) && |bits| == |Layout(c, s)| == |Raw(CellsOf(c, s))|
    ensures CellsOf(c, WriteAll(s, Layout(c, s), bits)) == Load(CellsOf(c, s), bits)
    decreases c, 1
  {
    match c
    case End =>
    case Sib(name, gate, rest) => SibWriteIsLoad(c, s, bits);
    case Mux(name, _, arms, rest) => MuxWriteIsLoad(c, s, bits);
  }

  lemma SibSplit(c: Chain, s: Store)
    requires c.Sib? && Sized(CellsOf(c, s))
    ensures Layout(c, s)
            == (if Flag(s.sibPo, c.name) then GateLayout(c.gate, s) else []) + [SibCell(c.name)] + Layout(c.rest, s)
    ensures |GateLayout(c.gate, s)| == |RawGate(GateCellsOf(c.gate, s))|
    ensures |Layout(c.rest, s)| == |Raw(CellsOf(c.rest, s))|
  {
    hide RawGate, GateLayout, Raw;
    GateLayoutLength(c.gate, s);
    LayoutLength(c.rest, s);
  }

  /** The parts of a SIB written one after the other are the parts Load writes. */
  lemma SibLoaded(h: Cells, h': Cells, bits: Bits, n: nat)
    requires h.CSib? && n == (if h.po then |RawGate(h.gate)| else 0) && |bits| == n + 1 + |Raw(h.rest)|
    requires h'.CSib? && h'.name == h.name && h'.po == h.po && h'.ff == bits[n]
    requires h'.gate == if h.po then LoadGate(h.gate, bits[..n]) else h.gate
    requires h'.rest == Load(h.rest, bits[n + 1..])
    ensures |bits| == |Raw(h)| && h' == Load(h, bits)
  {
    hide LoadGate, RawGate;
  }

  lemma {:induction false} SibWriteIsLoad(c: Chain, s: Store, bits: Bits)
    requires c.Sib? && Distinct(c) && Sized(CellsOf(c, s)) && |bits| == |Layout(c, s)| == |Raw(CellsOf(c, s))|
    ensures CellsOf(c, WriteAll(s, Layout(c, s), bits)) == Load(CellsOf(c, s), bits)
    decreases c, 0
  {
    hide Within, Refers, GateLayout, LoadGate, WriteAll, RawGate, SlotNames, InstNames, GateSlots, GateInsts;
    hide Layout, Load, Raw;
    var name, gate, rest := c.name, c.gate, c.rest;
    var inner := if Flag(s.sibPo, name) then GateLayout(gate, s) else [];
    var n := |inner|;
    SibSplit(c, s);
    WriteThree(s, inner, SibCell(name), Layout(rest, s), bits);
    var x, y := bits[..n], bits[n + 1..];
    var s1 := WriteAll(s, inner, x);
    var s2 := WriteRef(s1, SibCell(name), bits[n]);
    var s3 := WriteAll(s2, Layout(rest, s), y);
    OpenWriteIsLoad(c, s, x);
    WroteCell(s1, name, bits[n]);
    assert Layout(rest, s2) == Layout(rest, s) by { LayoutFrame(rest, s, s2); }
    WroteLayout(rest, s2, y);
    SibParts(c, s, s1, s2, s3);
    WriteIsLoad(rest, s2, y);
    SibLoaded(CellsOf(c, s), CellsOf(c, s3), bits, n);
  }

  lemma WroteCell(s: Store, name: string, v: bool)
    ensures Wrote(s, WriteRef(s, SibCell(name), v), {name}, {})
  {
  }

  lemma {:induction false} OpenWriteIsLoad(c: Chain, s: Store, x: Bits)
    requires c.Sib? && DistinctGate(c.gate) && SizedGate(GateCellsOf(c.gate, s))
    requires |x| == if Flag(s.sibPo, c.name) then |GateLayout(c.gate, s)| else 0
    ensures var s1 := WriteAll(s, if Flag(s.sibPo, c.name) then GateLayout(c.gate, s) else [], x);
            && Wrote(s, s1, GateSlots(c.gate), GateInsts(c.gate))
            && |GateLayout(c.gate, s)| == |RawGate(GateCellsOf(c.gate, s))|
            && GateCellsOf(c.gate, s1)
               == if Flag(s.sibPo, c.name) then LoadGate(GateCellsOf(c.gate, s), x) else GateCellsOf(c.gate, s)
    decreases c.gate, 1
  {
    hide LoadGate, GateLayout, RawGate;
    GateLayoutLength(c.gate, s);
    if Flag(s.sibPo, c.name) {
      WroteGate(c.gate, s, x);
      GateWriteIsLoad(c.gate, s, x);
    } else {
      WithinSelf(s, GateSlots(c.gate), GateInsts(c.gate));
    }
  }

  lemma {:induction false} GateWriteIsLoad(g: Gate, s: Store, bits: Bits)
    requires DistinctGate(g) && SizedGate(GateCellsOf(g, s))
    requires |bits| == |GateLayout(g, s)| == |RawGate(GateCellsOf(g, s))|
    ensures GateCellsOf(g, WriteAll(s, GateLayout(g, s), bits)) == LoadGate(GateCellsOf(g, s), bits)
    decreases g, 0
  {
    match g
    case Leaf(inst) =>
      WroteGate(g, s, bits);
      assert GateLayout(g, s) == InstRefs(inst.name, 0, inst.width);
      WriteInst(s, inst.name, 0, inst.width, bits);
      assert Word(s.instFf, inst.name)[..0] + bits == bits;
    case Net(chain) => WriteIsLoad(chain, s, bits);
  }

  lemma {:induction false} ArmsWriteIsLoad(a: Arms, value: int, s: Store, bits: Bits)
    requires DistinctArms(a) && SizedArms(ArmCellsOf(a, s))
    requires |bits| == |ArmLayout(a, value, s)| == |RawArms(ArmCellsOf(a, s), value)|
    ensures ArmCellsOf(a, WriteAll(s, ArmLayout(a, value, s), bits)) == LoadArms(ArmCellsOf(a, s), value, bits)
    decreases a, 0
  {
    hide Within, GateLayout, LoadGate, RawGate;
    if a.Arm? {
      var s' := WriteAll(s, ArmLayout(a, value, s), bits);
      if a.value == value {
        GateWriteIsLoad(a.gate, s, bits);
        WroteGate(a.gate, s, bits);
        ArmsElsewhere(a.others, s, s', GateSlots(a.gate), GateInsts(a.gate));
      } else {
        ArmsWriteIsLoad(a.others, value, s, bits);
        WroteArms(a.others, value, s, bits);
        GateElsewhere(a.gate, s, s', ArmSlots(a.others), ArmInsts(a.others));
      }
    }
  }

  /** The field cells of a ScanMux, written most significant bit first. */
  lemma FieldWrite(c: Chain, s: Store, z: Bits)
    requires c.Mux? && |z| == c.selectWidth == |Word(s.muxFf, c.name)|
    ensures var s' := WriteAll(s, MuxField(c), z);
            Wrote(s, s', {c.name}, {}) && Word(s'.muxFf, c.name) == Reverse(z)
  {
    assert MuxField(c) == FieldRefs(c, c.selectWidth);
    WriteWithin(s, MuxField(c), z, {c.name}, {});
    WriteField(s, c, c.selectWidth, z);
  }

  lemma WriteThreeRuns(s: Store, a: seq<CellRef>, b: seq<CellRef>, r: seq<CellRef>, bits: Bits)
    requires |bits| == |a| + |b| + |r|
    ensures var n, m := |a|, |a| + |b|;
            WriteAll(s, a + b + r, bits)
            == WriteAll(WriteAll(WriteAll(s, a, bits[..n]), b, bits[n..m]), r, bits[m..])
  {
    var n, m := |a|, |a| + |b|;
    Rejoin(bits, n, m);
    WriteJoin(s, a + b, r, bits[..n] + bits[n..m], bits[m..]);
    WriteJoin(s, a, b, bits[..n], bits[n..m]);
  }

  lemma MuxSplit(c: Chain, s: Store)
    requires c.Mux? && Sized(CellsOf(c, s))
    ensures Layout(c, s) == MuxOwn(c, s) + Layout(c.rest, s)
    ensures var h := CellsOf(c, s);
            && Value(h.mpo) == ToInt(Word(s.muxPo, c.name))
            && |ArmLayout(c.arms, Value(h.mpo), s)| == |RawArms(h.arms, Value(h.mpo))|
            && |Layout(c.rest, s)| == |Raw(h.rest)|
  {
    FieldTwice(Word(s.muxPo, c.name));
    ArmLayoutLength(c.arms, ToInt(Word(s.muxPo, c.name)), s);
    LayoutLength(c.rest, s);
  }

  /** The parts of a ScanMux written one after the other are the parts Load writes. */
  lemma MuxLoaded(h: Cells, h': Cells, bits: Bits, n: nat)
    requires h.CMux? && n == |RawArms(h.arms, Value(h.mpo))| && |bits| == n + |h.mff| + |Raw(h.rest)|
    requires h'.CMux? && h'.name == h.name && h'.width == h.width && h'.mpo == h.mpo
    requires h'.arms == LoadArms(h.arms, Value(h.mpo), bits[..n])
    requires h'.mff == bits[n..n + |h.mff|] && h'.rest == Load(h.rest, bits[n + |h.mff|..])
    ensures |bits| == |Raw(h)| && h' == Load(h, bits)
  {
    hide LoadArms, RawArms, Value;
  }

  lemma {:induction false} MuxWriteIsLoad(c: Chain, s: Store, bits: Bits)
    requires c.Mux? && Distinct(c) && Sized(CellsOf(c, s)) && |bits| == |Layout(c, s)| == |Raw(CellsOf(c, s))|
    ensures CellsOf(c, WriteAll(s, Layout(c, s), bits)) == Load(CellsOf(c, s), bits)
    decreases c, 0
  {
    hide Within, Refers, ArmLayout, LoadArms, WriteAll, RawArms, SlotNames, InstNames, ArmSlots, ArmInsts, ToInt, Value;
    hide Layout, Load, Raw, WriteRef, Reverse;
    var arms, rest := c.arms, c.rest;
    var value := ToInt(Word(s.muxPo, c.name));
    MuxSplit(c, s);
    var inner := ArmLayout(arms, value, s);
    WriteThreeRuns(s, inner, MuxField(c), Layout(rest, s), bits);
    var n := |inner|;
    var m := n + c.selectWidth;
    var x, z, y := bits[..n], bits[n..m], bits[m..];
    var s1 := WriteAll(s, inner, x);
    ArmsWriteIsLoad(arms, value, s, x);
    WroteArms(arms, value, s, x);
    FieldKept(c, s, s1);
    FieldWrite(c, s1, z);
    var s2 := WriteAll(s1, MuxField(c), z);
    assert Layout(rest, s2) == Layout(rest, s) by { LayoutFrame(rest, s, s2); }
    var s3 := WriteAll(s2, Layout(rest, s), y);
    WroteLayout(rest, s2, y);
    MuxParts(c, s, s1, s2, s3);
    WriteIsLoad(rest, s2, y);
    ReverseTwice(z);
    MuxLoaded(CellsOf(c, s), CellsOf(c, s3), bits, n);
  }
}
