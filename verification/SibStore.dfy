/** The register's cells as the source keeps them: one entry per named slot and instrument, updated
    in place. `Cells` reads them off as the tree SibCells works on. A ScanMux's select field is
    stored bit 0 first, as in the source; the tree has it in chain order. */
module SibStore {
  import opened Bits
  import opened IclModel
  import opened SibCells

  datatype Store = Store(
    sibFf: map<string, bool>, sibPo: map<string, bool>,
    muxFf: map<string, Bits>, muxPo: map<string, Bits>,
    instFf: map<string, Bits>, instPo: map<string, Bits>)

  function Flag(m: map<string, bool>, name: string): bool { name in m && m[name] }

  function Word(m: map<string, Bits>, name: string): Bits { if name in m then m[name] else [] }

  function CellsOf(c: Chain, s: Store): Cells {
    match c
    case End => CEnd
    case Sib(name, gate, rest) =>
      CSib(name, Flag(s.sibFf, name), Flag(s.sibPo, name), GateCellsOf(gate, s), CellsOf(rest, s))
    case Mux(name, width, arms, rest) =>
      CMux(name, width, Reverse(Word(s.muxFf, name)), Reverse(Word(s.muxPo, name)),
           ArmCellsOf(arms, s), CellsOf(rest, s))
  }

  function GateCellsOf(g: Gate, s: Store): GateCells {
    match g
    case Leaf(inst) => CLeaf(inst, Word(s.instFf, inst.name), Word(s.instPo, inst.name))
    case Net(chain) => CNet(CellsOf(chain, s))
  }

  function ArmCellsOf(a: Arms, s: Store): ArmCells {
    match a
    case NoArms => CNoArms
    case Arm(value, gate, others) => CArm(value, GateCellsOf(gate, s), ArmCellsOf(others, s))
  }

  lemma {:induction false} CellsTopo(c: Chain, s: Store)
    ensures Topo(CellsOf(c, s)) == c
  {
    match c
    case End =>
    case Sib(_, gate, rest) =>
      GateCellsTopo(gate, s);
      CellsTopo(rest, s);
    case Mux(_, _, arms, rest) =>
      ArmCellsTopo(arms, s);
      CellsTopo(rest, s);
  }

  lemma {:induction false} GateCellsTopo(g: Gate, s: Store)
    ensures GateTopo(GateCellsOf(g, s)) == g
  {
    if g.Net? {
      CellsTopo(g.chain, s);
    }
  }

  lemma {:induction false} ArmCellsTopo(a: Arms, s: Store)
    ensures ArmTopo(ArmCellsOf(a, s)) == a
  {
    if a.Arm? {
      GateCellsTopo(a.gate, s);
      ArmCellsTopo(a.others, s);
    }
  }

  // ---------------------------------------------------------------- frames

  ghost predicate SameSlot(s: Store, s': Store, name: string) {
    && Flag(s.sibFf, name) == Flag(s'.sibFf, name) && Flag(s.sibPo, name) == Flag(s'.sibPo, name)
    && Word(s.muxFf, name) == Word(s'.muxFf, name) && Word(s.muxPo, name) == Word(s'.muxPo, name)
  }

  ghost predicate SameInst(s: Store, s': Store, name: string) {
    Word(s.instFf, name) == Word(s'.instFf, name) && Word(s.instPo, name) == Word(s'.instPo, name)
  }

  /** Only cells of these slots and instruments differ. */
  ghost predicate Within(s: Store, s': Store, slots: set<string>, insts: set<string>) {
    && (forall n :: n !in slots ==> SameSlot(s, s', n))
    && (forall n :: n !in insts ==> SameInst(s, s', n))
  }

  lemma {:induction false} CellsFrame(c: Chain, s: Store, s': Store)
    requires forall n :: n in SlotNames(c) ==> SameSlot(s, s', n)
    requires forall n :: n in InstNames(c) ==> SameInst(s, s', n)
    ensures CellsOf(c, s) == CellsOf(c, s')
  {
    match c
    case End =>
    case Sib(name, gate, rest) =>
      assert SameSlot(s, s', name);
      GateFrame(gate, s, s');
      CellsFrame(rest, s, s');
    case Mux(name, _, arms, rest) =>
      assert SameSlot(s, s', name);
      ArmsFrame(arms, s, s');
      CellsFrame(rest, s, s');
  }

  lemma {:induction false} GateFrame(g: Gate, s: Store, s': Store)
    requires forall n :: n in GateSlots(g) ==> SameSlot(s, s', n)
    requires forall n :: n in GateInsts(g) ==> SameInst(s, s', n)
    ensures GateCellsOf(g, s) == GateCellsOf(g, s')
  {
    match g
    case Leaf(inst) => assert SameInst(s, s', inst.name);
    case Net(chain) => CellsFrame(chain, s, s');
  }

  lemma {:induction false} ArmsFrame(a: Arms, s: Store, s': Store)
    requires forall n :: n in ArmSlots(a) ==> SameSlot(s, s', n)
    requires forall n :: n in ArmInsts(a) ==> SameInst(s, s', n)
    ensures ArmCellsOf(a, s) == ArmCellsOf(a, s')
  {
    if a.Arm? {
      GateFrame(a.gate, s, s');
      ArmsFrame(a.others, s, s');
    }
  }

  // ---------------------------------------------------------------- the live layout

  /** One live flip-flop: a SIB's select cell, bit `k` of a ScanMux's select field or of an
      instrument. */
  datatype CellRef = SibCell(name: string) | MuxBit(mux: Chain, k: nat) | InstBit(name: string, k: nat)

  /** _live_layout_chain. */
  function Layout(c: Chain, s: Store): seq<CellRef> {
    match c
    case End => []
    case Sib(name, gate, rest) =>
      (if Flag(s.sibPo, name) then GateLayout(gate, s) else []) + [SibCell(name)] + Layout(rest, s)
    case Mux(name, width, arms, rest) =>
      ArmLayout(arms, ToInt(Word(s.muxPo, name)), s)
      + seq(width, i requires 0 <= i < width => MuxBit(c, width - 1 - i))
      + Layout(rest, s)
  }

  function GateLayout(g: Gate, s: Store): seq<CellRef> {
    match g
    case Leaf(inst) => seq(inst.width, k requires 0 <= k < inst.width => InstBit(inst.name, k))
    case Net(chain) => Layout(chain, s)
  }

  function ArmLayout(a: Arms, value: int, s: Store): seq<CellRef> {
    match a
    case NoArms => []
    case Arm(v, gate, others) => if v == value then GateLayout(gate, s) else ArmLayout(others, value, s)
  }

  function Nth(b: Bits, k: nat): bool { k < |b| && b[k] }

  /** _live_so: what a chain shows at its own scan output. */
  function ChainSo(c: Chain, s: Store, fallback: bool): bool
    decreases c, 1
  {
    match c
    case End => fallback
    case Sib(name, _, rest) => ChainSo(rest, s, Flag(s.sibFf, name))
    case Mux(name, _, arms, rest) => ChainSo(rest, s, MuxSo(name, arms, s))
  }

  function MuxSo(name: string, arms: Arms, s: Store): bool
    decreases arms, 1
  {
    ArmsSo(arms, ToInt(Word(s.muxPo, name)), s, Nth(Word(s.muxFf, name), 0))
  }

  function ArmsSo(a: Arms, value: int, s: Store, own: bool): bool
    decreases a, 0
  {
    match a
    case NoArms => own
    case Arm(v, gate, others) =>
      if v != value then ArmsSo(others, value, s, own)
      else if gate.Leaf? then
        var b := Word(s.instFf, gate.inst.name);
        b != [] && b[|b| - 1]
      else ChainSo(gate.chain, s, false)
  }

  /** _read: only bit 0 of a select field is a scan output; it reads as the mux's. */
  function ReadRef(s: Store, r: CellRef): bool {
    match r
    case SibCell(name) => Flag(s.sibFf, name)
    case MuxBit(mux, k) =>
      if !mux.Mux? then false
      else if k == 0 then MuxSo(mux.name, mux.arms, s)
      else Nth(Word(s.muxFf, mux.name), k)
    case InstBit(name, k) => Nth(Word(s.instFf, name), k)
  }

  function SetNth(b: Bits, k: nat, v: bool): Bits { if k < |b| then b[k := v] else b }

  /** _write. */
  function WriteRef(s: Store, r: CellRef, v: bool): Store {
    match r
    case SibCell(name) => s.(sibFf := s.sibFf[name := v])
    case MuxBit(mux, k) =>
      if mux.Mux? then s.(muxFf := s.muxFf[mux.name := SetNth(Word(s.muxFf, mux.name), k, v)]) else s
    case InstBit(name, k) => s.(instFf := s.instFf[name := SetNth(Word(s.instFf, name), k, v)])
  }

  function ReadAll(s: Store, refs: seq<CellRef>): Bits {
    seq(|refs|, i requires 0 <= i < |refs| => ReadRef(s, refs[i]))
  }

  function WriteAll(s: Store, refs: seq<CellRef>, bits: Bits): Store
    requires |refs| == |bits|
    decreases |refs|
  {
    if refs == [] then s else WriteAll(WriteRef(s, refs[0], bits[0]), refs[1..], bits[1..])
  }

  // ---------------------------------------------------------------- reading

  lemma FieldTwice(b: Bits)
    ensures Value(Reverse(b)) == ToInt(b)
  {
    ReverseTwice(b);
  }

  lemma {:induction false} ChainSoIsLive(c: Chain, s: Store, fallback: bool)
    ensures ChainSo(c, s, fallback) == LiveSo(CellsOf(c, s), fallback)
    decreases c, 1
  {
    match c
    case End =>
    case Sib(name, _, rest) => ChainSoIsLive(rest, s, Flag(s.sibFf, name));
    case Mux(name, width, arms, rest) =>
      MuxSoIsLive(c, s);
      ChainSoIsLive(rest, s, MuxSo(name, arms, s));
  }

  lemma {:induction false} MuxSoIsLive(c: Chain, s: Store)
    requires c.Mux?
    ensures var ff, po := Word(s.muxFf, c.name), Word(s.muxPo, c.name);
            MuxSo(c.name, c.arms, s)
            == ArmSo(ArmCellsOf(c.arms, s), Value(Reverse(po)), Reverse(ff) != [] && Reverse(ff)[|ff| - 1])
    decreases c, 0
  {
    var ff, po := Word(s.muxFf, c.name), Word(s.muxPo, c.name);
    FieldTwice(po);
    ArmsSoIsLive(c.arms, ToInt(po), s, Nth(ff, 0));
  }

  lemma {:induction false} ArmsSoIsLive(a: Arms, value: int, s: Store, own: bool)
    ensures ArmsSo(a, value, s, own) == ArmSo(ArmCellsOf(a, s), value, own)
    decreases a, 0
  {
    if a.Arm? {
      if a.gate.Net? {
        ChainSoIsLive(a.gate.chain, s, false);
      }
      ArmsSoIsLive(a.others, value, s, own);
    }
  }

  lemma ReadJoin(s: Store, a: seq<CellRef>, b: seq<CellRef>)
    ensures ReadAll(s, a + b) == ReadAll(s, a) + ReadAll(s, b)
  {
  }

  /** Reading the layout cell by cell is what a shift sees of the tree. */
  lemma {:induction false} ReadIsSeen(c: Chain, s: Store)
    requires Sized(CellsOf(c, s))
    ensures ReadAll(s, Layout(c, s)) == Seen(CellsOf(c, s))
    decreases c, 1
  {
    match c
    case End =>
    case Sib(name, gate, rest) =>
      var content := if Flag(s.sibPo, name) then GateLayout(gate, s) else [];
      GateReadIsSeen(gate, s);
      ReadIsSeen(rest, s);
      ReadJoin(s, content, [SibCell(name)]);
      ReadJoin(s, content + [SibCell(name)], Layout(rest, s));
      assert ReadAll(s, [SibCell(name)]) == [Flag(s.sibFf, name)];
    case Mux(name, width, arms, rest) =>
      MuxReadIsSeen(c, s);
      ReadIsSeen(rest, s);
      ReadJoin(s, MuxOwn(c, s), Layout(rest, s));
  }

  lemma {:induction false} GateReadIsSeen(g: Gate, s: Store)
    requires SizedGate(GateCellsOf(g, s))
    ensures ReadAll(s, GateLayout(g, s)) == SeenGate(GateCellsOf(g, s))
    decreases g, 0
  {
    match g
    case Leaf(inst) => assert ReadAll(s, GateLayout(g, s)) == Word(s.instFf, inst.name);
    case Net(chain) => ReadIsSeen(chain, s);
  }

  lemma {:induction false} ArmReadIsSeen(a: Arms, value: int, s: Store)
    requires SizedArms(ArmCellsOf(a, s))
    ensures ReadAll(s, ArmLayout(a, value, s)) == SeenArms(ArmCellsOf(a, s), value)
    decreases a, 0
  {
    if a.Arm? {
      GateReadIsSeen(a.gate, s);
      ArmReadIsSeen(a.others, value, s);
    }
  }

  /** The cells of a ScanMux itself: its matched arm's, then its select field. */
  function MuxOwn(c: Chain, s: Store): seq<CellRef>
    requires c.Mux?
  {
    ArmLayout(c.arms, ToInt(Word(s.muxPo, c.name)), s) + MuxField(c)
  }

  function MuxField(c: Chain): seq<CellRef>
    requires c.Mux?
  {
    seq(c.selectWidth, i requires 0 <= i < c.selectWidth => MuxBit(c, c.selectWidth - 1 - i))
  }

  lemma {:induction false} MuxReadIsSeen(c: Chain, s: Store)
    requires c.Mux? && Sized(CellsOf(c, s))
    ensures var h := CellsOf(c, s);
            Seen(h) == ReadAll(s, MuxOwn(c, s)) + Seen(h.rest)
    decreases c, 0
  {
    var h := CellsOf(c, s);
    var ff, po, w := Word(s.muxFf, c.name), Word(s.muxPo, c.name), c.selectWidth;
    FieldTwice(po);
    ArmReadIsSeen(c.arms, ToInt(po), s);
    ReadJoin(s, ArmLayout(c.arms, ToInt(po), s), MuxField(c));
    MuxSoIsLive(c, s);
    FieldReads(c, s);
    hide ReadAll, MuxField, ArmLayout, MuxSo, ArmSo, SeenArms, ArmCellsOf, ToInt;
    if w > 0 {
      assert h.mff == Reverse(ff) && |h.mff| == w;
    } else {
      assert h.mff == [];
    }
  }

  /** The select field read cell by cell: bit 0, the last, reads as what the ScanMux shows. */
  lemma FieldReads(c: Chain, s: Store)
    requires c.Mux?
    ensures var ff, w, own := Reverse(Word(s.muxFf, c.name)), c.selectWidth, ReadAll(s, MuxField(c));
            |ff| == w ==> own == if w == 0 then [] else ff[..w - 1] + [MuxSo(c.name, c.arms, s)]
  {
    var ff, w, own := Reverse(Word(s.muxFf, c.name)), c.selectWidth, ReadAll(s, MuxField(c));
    hide MuxSo;
    if |ff| == w {
      forall i | 0 <= i < w ensures own[i] == if i == w - 1 then MuxSo(c.name, c.arms, s) else ff[i] {
      }
    }
  }

  // ---------------------------------------------------------------- writing

  ghost predicate Refers(r: CellRef, slots: set<string>, insts: set<string>) {
    match r
    case SibCell(name) => name in slots
    case MuxBit(mux, _) => mux.Mux? && mux.name in slots
    case InstBit(name, _) => name in insts
  }

  lemma {:induction false} LayoutRefers(c: Chain, s: Store)
    ensures forall r :: r in Layout(c, s) ==> Refers(r, SlotNames(c), InstNames(c))
  {
    match c
    case End =>
    case Sib(name, gate, rest) =>
      GateLayoutRefers(gate, s);
      LayoutRefers(rest, s);
    case Mux(name, width, arms, rest) =>
      ArmLayoutRefers(arms, ToInt(Word(s.muxPo, name)), s);
      LayoutRefers(rest, s);
  }

  lemma {:induction false} GateLayoutRefers(g: Gate, s: Store)
    ensures forall r :: r in GateLayout(g, s) ==> Refers(r, GateSlots(g), GateInsts(g))
  {
    if g.Net? {
      LayoutRefers(g.chain, s);
    }
  }

  lemma {:induction false} ArmLayoutRefers(a: Arms, value: int, s: Store)
    ensures forall r :: r in ArmLayout(a, value, s) ==> Refers(r, ArmSlots(a), ArmInsts(a))
  {
    if a.Arm? {
      GateLayoutRefers(a.gate, s);
      ArmLayoutRefers(a.others, value, s);
    }
  }

  /** Shift-stage writes leave every update stage alone. */
  ghost predicate SameStages(s: Store, s': Store) {
    s.sibPo == s'.sibPo && s.muxPo == s'.muxPo && s.instPo == s'.instPo
  }

  lemma WithinSelf(s: Store, slots: set<string>, insts: set<string>)
    ensures Within(s, s, slots, insts)
  {
  }

  lemma WithinTrans(s: Store, m: Store, s': Store, slots: set<string>, insts: set<string>)
    requires Within(s, m, slots, insts) && Within(m, s', slots, insts)
    ensures Within(s, s', slots, insts)
  {
    forall n | n !in slots ensures SameSlot(s, s', n) {
      assert SameSlot(s, m, n) && SameSlot(m, s', n);
    }
    forall n | n !in insts ensures SameInst(s, s', n) {
      assert SameInst(s, m, n) && SameInst(m, s', n);
    }
  }

  lemma WriteOneWithin(s: Store, r: CellRef, v: bool, slots: set<string>, insts: set<string>)
    requires Refers(r, slots, insts)
    ensures Within(s, WriteRef(s, r, v), slots, insts) && SameStages(s, WriteRef(s, r, v))
  {
  }

  lemma {:induction false} WriteWithin(s: Store, refs: seq<CellRef>, bits: Bits, slots: set<string>, insts: set<string>)
    requires |refs| == |bits| && forall r :: r in refs ==> Refers(r, slots, insts)
    ensures Within(s, WriteAll(s, refs, bits), slots, insts) && SameStages(s, WriteAll(s, refs, bits))
    decreases |refs|
  {
    hide Refers, WriteRef, SameSlot, SameInst;
    if refs == [] {
      WithinSelf(s, slots, insts);
    } else {
      assert Refers(refs[0], slots, insts);
      WriteOneWithin(s, refs[0], bits[0], slots, insts);
      var s1 := WriteRef(s, refs[0], bits[0]);
      WriteWithin(s1, refs[1..], bits[1..], slots, insts);
      WithinTrans(s, s1, WriteAll(s, refs, bits), slots, insts);
    }
  }

  lemma {:induction false} WriteJoin(s: Store, a: seq<CellRef>, b: seq<CellRef>, x: Bits, y: Bits)
    requires |a| == |x| && |b| == |y|
    ensures WriteAll(s, a + b, x + y) == WriteAll(WriteAll(s, a, x), b, y)
    decreases |a|
  {
    if a == [] {
      assert a + b == b && x + y == y;
    } else {
      assert (a + b)[1..] == a[1..] + b && (x + y)[1..] == x[1..] + y;
      WriteJoin(WriteRef(s, a[0], x[0]), a[1..], b, x[1..], y);
    }
  }

  lemma {:induction false} LayoutFrame(c: Chain, s: Store, s': Store)
    requires s.sibPo == s'.sibPo && s.muxPo == s'.muxPo
    ensures Layout(c, s) == Layout(c, s')
  {
    match c
    case End =>
    case Sib(_, gate, rest) =>
      GateLayoutFrame(gate, s, s');
      LayoutFrame(rest, s, s');
    case Mux(name, _, arms, rest) =>
      ArmLayoutFrame(arms, ToInt(Word(s.muxPo, name)), s, s');
      LayoutFrame(rest, s, s');
  }

  lemma {:induction false} GateLayoutFrame(g: Gate, s: Store, s': Store)
    requires s.sibPo == s'.sibPo && s.muxPo == s'.muxPo
    ensures GateLayout(g, s) == GateLayout(g, s')
  {
    if g.Net? {
      LayoutFrame(g.chain, s, s');
    }
  }

  lemma {:induction false} ArmLayoutFrame(a: Arms, value: int, s: Store, s': Store)
    requires s.sibPo == s'.sibPo && s.muxPo == s'.muxPo
    ensures ArmLayout(a, value, s) == ArmLayout(a, value, s')
  {
    if a.Arm? {
      GateLayoutFrame(a.gate, s, s');
      ArmLayoutFrame(a.others, value, s, s');
    }
  }

  /** Bit refs of one instrument from bit `k` on. */
  function InstRefs(name: string, k: nat, width: nat): seq<CellRef>
    requires k <= width
  {
    seq(width - k, i requires 0 <= i < width - k => InstBit(name, k + i))
  }

  lemma {:induction false} WriteInst(s: Store, name: string, k: nat, width: nat, bits: Bits)
    requires k <= width && |Word(s.instFf, name)| == width && |bits| == width - k
    ensures Word(WriteAll(s, InstRefs(name, k, width), bits).instFf, name) == Word(s.instFf, name)[..k] + bits
    decreases width - k
  {
    var w := Word(s.instFf, name);
    if k < width {
      var refs := InstRefs(name, k, width);
      var s1 := WriteRef(s, refs[0], bits[0]);
      assert refs[1..] == InstRefs(name, k + 1, width);
      WriteInst(s1, name, k + 1, width, bits[1..]);
      assert Word(s1.instFf, name) == w[k := bits[0]];
      assert w[k := bits[0]][..k + 1] + bits[1..] == w[..k] + bits;
    } else {
      assert w[..k] + bits == w;
    }
  }

  /** Field refs of a ScanMux from bit `k - 1` down. */
  function FieldRefs(c: Chain, k: nat): seq<CellRef> {
    seq(k, i requires 0 <= i < k => MuxBit(c, k - 1 - i))
  }

  lemma {:induction false} WriteField(s: Store, c: Chain, k: nat, bits: Bits)
    requires c.Mux? && |bits| == k <= |Word(s.muxFf, c.name)|
    ensures var w := Word(s.muxFf, c.name);
            Word(WriteAll(s, FieldRefs(c, k), bits).muxFf, c.name) == Reverse(bits) + w[k..]
    decreases k
  {
    var w := Word(s.muxFf, c.name);
    if k > 0 {
      var refs := FieldRefs(c, k);
      var s1 := WriteRef(s, refs[0], bits[0]);
      assert refs[1..] == FieldRefs(c, k - 1);
      assert Word(s1.muxFf, c.name) == w[k - 1 := bits[0]];
      WriteField(s1, c, k - 1, bits[1..]);
      FieldStep(w, k, bits);
    } else {
      assert Reverse(bits) + w[0..] == w;
    }
  }

  lemma FieldStep(w: Bits, k: nat, bits: Bits)
    requires 0 < |bits| == k <= |w|
    ensures Reverse(bits[1..]) + w[k - 1 := bits[0]][k - 1..] == Reverse(bits) + w[k..]
  {
    assert Reverse(bits) == Reverse(bits[1..]) + [bits[0]];
    assert w[k - 1 := bits[0]][k - 1..] == [bits[0]] + w[k..];
  }
}
