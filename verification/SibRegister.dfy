/** The register as the object it is (sib_model.py): one entry per slot and instrument, walked down
    the topology and overwritten in place. Every operation is proved to do to the tree of cells
    exactly what SibCells says, and the tree is what the network's theorems are about. */
module SibRegister {
  import opened Wrappers
  import opened Bits
  import opened IclModel
  import opened SibCells
  import opened SibStore
  import opened SibLoad
  import opened SibRound
  import opened SibShift

  // ---------------------------------------------------------------- walks over the topology

  /** What a walk leaves: the cells of `c` and nothing else changed. */
  ghost predicate Walked(c: Chain, s: Store, s': Store) { Within(s, s', SlotNames(c), InstNames(c)) }

  ghost predicate WalkedGate(g: Gate, s: Store, s': Store) { Within(s, s', GateSlots(g), GateInsts(g)) }

  ghost predicate WalkedArms(a: Arms, s: Store, s': Store) { Within(s, s', ArmSlots(a), ArmInsts(a)) }

  /** A slot's own cells, then its gate, then the rest of its chain. */
  lemma SibWalk(c: Chain, s: Store, s1: Store, s2: Store, s3: Store)
    requires c.Sib? && Distinct(c)
    requires Within(s, s1, {c.name}, {}) && WalkedGate(c.gate, s1, s2) && Walked(c.rest, s2, s3)
    ensures Walked(c, s, s3)
    ensures GateCellsOf(c.gate, s1) == GateCellsOf(c.gate, s) && CellsOf(c.rest, s2) == CellsOf(c.rest, s)
    ensures GateCellsOf(c.gate, s3) == GateCellsOf(c.gate, s2)
    ensures Flag(s3.sibFf, c.name) == Flag(s1.sibFf, c.name) && Flag(s3.sibPo, c.name) == Flag(s1.sibPo, c.name)
  {
    GateElsewhere(c.gate, s, s1, {c.name}, {});
    Elsewhere(c.rest, s, s1, {c.name}, {});
    Elsewhere(c.rest, s1, s2, GateSlots(c.gate), GateInsts(c.gate));
    GateElsewhere(c.gate, s2, s3, SlotNames(c.rest), InstNames(c.rest));
    assert SameSlot(s1, s2, c.name) && SameSlot(s2, s3, c.name);
    WalkJoin(c, s, s1, s2, s3);
  }

  lemma WalkJoin(c: Chain, s: Store, s1: Store, s2: Store, s3: Store)
    requires c.Sib? && Within(s, s1, {c.name}, {}) && WalkedGate(c.gate, s1, s2) && Walked(c.rest, s2, s3)
    ensures Walked(c, s, s3)
  {
    hide SameSlot, SameInst;
    Wider(s, s1, {c.name}, {}, SlotNames(c), InstNames(c));
    Wider(s1, s2, GateSlots(c.gate), GateInsts(c.gate), SlotNames(c), InstNames(c));
    Wider(s2, s3, SlotNames(c.rest), InstNames(c.rest), SlotNames(c), InstNames(c));
    WithinTrans(s, s1, s2, SlotNames(c), InstNames(c));
    WithinTrans(s, s2, s3, SlotNames(c), InstNames(c));
  }

  lemma MuxWalk(c: Chain, s: Store, s1: Store, s2: Store, s3: Store)
    requires c.Mux? && Distinct(c)
    requires Within(s, s1, {c.name}, {}) && WalkedArms(c.arms, s1, s2) && Walked(c.rest, s2, s3)
    ensures Walked(c, s, s3)
    ensures ArmCellsOf(c.arms, s1) == ArmCellsOf(c.arms, s) && CellsOf(c.rest, s2) == CellsOf(c.rest, s)
    ensures ArmCellsOf(c.arms, s3) == ArmCellsOf(c.arms, s2)
    ensures Word(s3.muxFf, c.name) == Word(s1.muxFf, c.name) && Word(s3.muxPo, c.name) == Word(s1.muxPo, c.name)
  {
    ArmsElsewhere(c.arms, s, s1, {c.name}, {});
    Elsewhere(c.rest, s, s1, {c.name}, {});
    Elsewhere(c.rest, s1, s2, ArmSlots(c.arms), ArmInsts(c.arms));
    ArmsElsewhere(c.arms, s2, s3, SlotNames(c.rest), InstNames(c.rest));
    assert SameSlot(s1, s2, c.name) && SameSlot(s2, s3, c.name);
    MuxWalkJoin(c, s, s1, s2, s3);
  }

  lemma MuxWalkJoin(c: Chain, s: Store, s1: Store, s2: Store, s3: Store)
    requires c.Mux? && Within(s, s1, {c.name}, {}) && WalkedArms(c.arms, s1, s2) && Walked(c.rest, s2, s3)
    ensures Walked(c, s, s3)
  {
    hide SameSlot, SameInst;
    Wider(s, s1, {c.name}, {}, SlotNames(c), InstNames(c));
    Wider(s1, s2, ArmSlots(c.arms), ArmInsts(c.arms), SlotNames(c), InstNames(c));
    Wider(s2, s3, SlotNames(c.rest), InstNames(c.rest), SlotNames(c), InstNames(c));
    WithinTrans(s, s1, s2, SlotNames(c), InstNames(c));
    WithinTrans(s, s2, s3, SlotNames(c), InstNames(c));
  }

  lemma ArmsWalk(a: Arms, s: Store, s1: Store, s2: Store)
    requires a.Arm? && DistinctArms(a) && WalkedGate(a.gate, s, s1) && WalkedArms(a.others, s1, s2)
    ensures WalkedArms(a, s, s2)
    ensures ArmCellsOf(a.others, s1) == ArmCellsOf(a.others, s) && GateCellsOf(a.gate, s2) == GateCellsOf(a.gate, s1)
  {
    hide SameSlot, SameInst;
    ArmsElsewhere(a.others, s, s1, GateSlots(a.gate), GateInsts(a.gate));
    GateElsewhere(a.gate, s1, s2, ArmSlots(a.others), ArmInsts(a.others));
    Wider(s, s1, GateSlots(a.gate), GateInsts(a.gate), ArmSlots(a), ArmInsts(a));
    Wider(s1, s2, ArmSlots(a.others), ArmInsts(a.others), ArmSlots(a), ArmInsts(a));
    WithinTrans(s, s1, s2, ArmSlots(a), ArmInsts(a));
  }

  class SibNetworkRegister {
    const graph: Chain
    var sibFf: map<string, bool>
    var sibPo: map<string, bool>
    var muxFf: map<string, Bits>
    var muxPo: map<string, Bits>
    var instFf: map<string, Bits>
    var instPo: map<string, Bits>

    function Now(): Store
      reads this
    {
      Store(sibFf, sibPo, muxFf, muxPo, instFf, instPo)
    }

    ghost predicate Valid()
      reads this
    {
      Distinct(graph) && Sized(State())
    }

    /** The register as the tree of its cells. */
    ghost function State(): Cells
      reads this
    {
      CellsOf(graph, Now())
    }

    constructor (graph: Chain)
      requires Distinct(graph)
      ensures this.graph == graph && Valid() && State() == Fresh(graph)
    {
      this.graph := graph;
      sibFf, sibPo, muxFf, muxPo, instFf, instPo := map[], map[], map[], map[], map[], map[];
      new;
      ResetChain(graph);
      FreshState(graph);
    }

    method Reset()
      requires Valid()
      modifies this
      ensures Valid() && State() == Fresh(graph)
    {
      ResetChain(graph);
      FreshState(graph);
    }

    method ResetChain(c: Chain)
      requires Distinct(c)
      modifies this
      ensures CellsOf(c, Now()) == Fresh(c) && Walked(c, old(Now()), Now())
      decreases c
    {
      hide Within, SameSlot, SameInst;
      match c
      case End => WithinSelf(Now(), {}, {});
      case Sib(name, gate, rest) =>
        ghost var s := Now();
        sibFf, sibPo := sibFf[name := false], sibPo[name := false];
        ghost var s1 := Now();
        ResetGate(gate);
        ghost var s2 := Now();
        ResetChain(rest);
        assert Within(s, s1, {name}, {}) by { OwnSib(s, s1, name); }
        SibWalk(c, s, s1, s2, Now());
      case Mux(name, width, arms, rest) =>
        ghost var s := Now();
        muxFf, muxPo := muxFf[name := Zeros(width)], muxPo[name := Zeros(width)];
        ghost var s1 := Now();
        ResetArms(arms);
        ghost var s2 := Now();
        ResetChain(rest);
        assert Within(s, s1, {name}, {}) by { OwnMux(s, s1, name); }
        MuxWalk(c, s, s1, s2, Now());
        assert Reverse(Zeros(width)) == Zeros(width);
    }

    method ResetGate(g: Gate)
      requires DistinctGate(g)
      modifies this
      ensures GateCellsOf(g, Now()) == FreshGate(g) && WalkedGate(g, old(Now()), Now())
      decreases g
    {
      match g
      case Leaf(inst) =>
        instFf, instPo := instFf[inst.name := Zeros(inst.width)], instPo[inst.name := Zeros(inst.width)];
        OwnInst(old(Now()), Now(), inst.name);
      case Net(chain) => ResetChain(chain);
    }

    method ResetArms(a: Arms)
      requires DistinctArms(a)
      modifies this
      ensures ArmCellsOf(a, Now()) == FreshArms(a) && WalkedArms(a, old(Now()), Now())
      decreases a
    {
      if a.Arm? {
        ResetGate(a.gate);
        ghost var s1 := Now();
        ResetArms(a.others);
        ArmsWalk(a, old(Now()), s1, Now());
      }
    }

    /** Capture-DR under the network's own instruction; READ instruments see their stub. */
    method Capture()
      requires Valid()
      modifies this
      ensures Valid() && State() == SibCells.Capture(old(State()), Stub, true)
    {
      CaptureKeeps(State(), Stub, true, map[], map[]);
      CaptureChain(graph, true);
    }

    method CaptureChain(c: Chain, live: bool)
      requires Distinct(c)
      modifies this
      ensures CellsOf(c, Now()) == SibCells.Capture(CellsOf(c, old(Now())), Stub, live)
      ensures Walked(c, old(Now()), Now())
      decreases c
    {
      hide Within, SameSlot, SameInst;
      match c
      case End => WithinSelf(Now(), {}, {});
      case Sib(name, gate, rest) =>
        ghost var s := Now();
        if live {
          sibFf := sibFf[name := Flag(sibPo, name)];
        }
        ghost var s1 := Now();
        CaptureGate(gate, Flag(sibPo, name));
        ghost var s2 := Now();
        CaptureChain(rest, live);
        assert Within(s, s1, {name}, {}) by { OwnSib(s, s1, name); }
        SibWalk(c, s, s1, s2, Now());
      case Mux(name, width, arms, rest) =>
        ghost var s := Now();
        if live {
          muxFf := muxFf[name := Word(muxPo, name)];
        }
        ghost var s1 := Now();
        CaptureArms(arms, live, ToInt(Word(muxPo, name)));
        ghost var s2 := Now();
        CaptureChain(rest, live);
        assert Within(s, s1, {name}, {}) by { OwnMux(s, s1, name); }
        MuxWalk(c, s, s1, s2, Now());
        FieldTwice(Word(s.muxPo, name));
    }

    method CaptureGate(g: Gate, live: bool)
      requires DistinctGate(g)
      modifies this
      ensures GateCellsOf(g, Now()) == SibCells.CaptureGate(GateCellsOf(g, old(Now())), Stub, live)
      ensures WalkedGate(g, old(Now()), Now())
      decreases g
    {
      match g
      case Leaf(inst) =>
        if inst.direction.WRITE? {
          instFf := instFf[inst.name := Word(instPo, inst.name)];
        } else {
          instFf := instFf[inst.name := FromInt(inst.captureValue, inst.width)];
        }
        OwnInst(old(Now()), Now(), inst.name);
      case Net(chain) => CaptureChain(chain, live);
    }

    method CaptureArms(a: Arms, live: bool, value: nat)
      requires DistinctArms(a)
      modifies this
      ensures ArmCellsOf(a, Now()) == SibCells.CaptureArms(ArmCellsOf(a, old(Now())), Stub, live, value)
      ensures WalkedArms(a, old(Now()), Now())
      decreases a
    {
      if a.Arm? {
        CaptureGate(a.gate, live && value == a.value);
        ghost var s1 := Now();
        CaptureArms(a.others, live, value);
        ArmsWalk(a, old(Now()), s1, Now());
      }
    }

    /** Capture-DR under an instruction that does not select the network. */
    method CaptureUnselected()
      requires Valid()
      modifies this
      ensures Valid() && State() == SibCells.CaptureUnselected(old(State()), Stub)
    {
      UnselectedKeeps(State(), Stub);
      CaptureLeaves(graph);
    }

    method CaptureLeaves(c: Chain)
      requires Distinct(c)
      modifies this
      ensures CellsOf(c, Now()) == SibCells.CaptureUnselected(CellsOf(c, old(Now())), Stub)
      ensures Walked(c, old(Now()), Now())
      decreases c
    {
      hide Within, SameSlot, SameInst;
      match c
      case End => WithinSelf(Now(), {}, {});
      case Sib(name, gate, rest) =>
        ghost var s := Now();
        CaptureGateLeaves(gate);
        ghost var s2 := Now();
        CaptureLeaves(rest);
        WithinSelf(s, {name}, {});
        SibWalk(c, s, s, s2, Now());
      case Mux(name, width, arms, rest) =>
        ghost var s := Now();
        CaptureArmsLeaves(arms);
        ghost var s2 := Now();
        CaptureLeaves(rest);
        WithinSelf(s, {name}, {});
        MuxWalk(c, s, s, s2, Now());
    }

    method CaptureGateLeaves(g: Gate)
      requires DistinctGate(g)
      modifies this
      ensures GateCellsOf(g, Now()) == CaptureGateUnselected(GateCellsOf(g, old(Now())), Stub)
      ensures WalkedGate(g, old(Now()), Now())
      decreases g
    {
      match g
      case Leaf(inst) =>
        if inst.direction.WRITE? {
          instFf := instFf[inst.name := Word(instPo, inst.name)];
        } else {
          instFf := instFf[inst.name := FromInt(inst.captureValue, inst.width)];
        }
        OwnInst(old(Now()), Now(), inst.name);
      case Net(chain) => CaptureLeaves(chain);
    }

    method CaptureArmsLeaves(a: Arms)
      requires DistinctArms(a)
      modifies this
      ensures ArmCellsOf(a, Now()) == CaptureArmsUnselected(ArmCellsOf(a, old(Now())), Stub)
      ensures WalkedArms(a, old(Now()), Now())
      decreases a
    {
      if a.Arm? {
        CaptureGateLeaves(a.gate);
        ghost var s1 := Now();
        CaptureArmsLeaves(a.others);
        ArmsWalk(a, old(Now()), s1, Now());
      }
    }

    /** Update-DR. A nested chain sees its parent's select from before this edge. */
    method Update()
      requires Valid()
      modifies this
      ensures Valid() && State() == SibCells.Update(old(State()), true)
    {
      UpdateSized(State(), true);
      UpdateChain(graph, true);
    }

    method UpdateChain(c: Chain, live: bool)
      requires Distinct(c)
      modifies this
      ensures CellsOf(c, Now()) == SibCells.Update(CellsOf(c, old(Now())), live)
      ensures Walked(c, old(Now()), Now())
      decreases c
    {
      hide Within, SameSlot, SameInst;
      match c
      case End => WithinSelf(Now(), {}, {});
      case Sib(name, gate, rest) =>
        ghost var s := Now();
        var before := Flag(sibPo, name);
        var stays := live && before && Flag(sibFf, name);
        if live {
          sibPo := sibPo[name := Flag(sibFf, name)];
        }
        ghost var s1 := Now();
        UpdateGate(gate, live && before, stays);
        ghost var s2 := Now();
        UpdateChain(rest, live);
        assert Within(s, s1, {name}, {}) by { OwnSib(s, s1, name); }
        SibWalk(c, s, s1, s2, Now());
      case Mux(name, width, arms, rest) =>
        ghost var s := Now();
        var before, after := ToInt(Word(muxPo, name)), ToInt(Word(muxFf, name));
        if live {
          muxPo := muxPo[name := Word(muxFf, name)];
        }
        ghost var s1 := Now();
        UpdateArms(arms, live, before, after);
        ghost var s2 := Now();
        UpdateChain(rest, live);
        assert Within(s, s1, {name}, {}) by { OwnMux(s, s1, name); }
        MuxWalk(c, s, s1, s2, Now());
        FieldTwice(Word(s.muxPo, name));
        FieldTwice(Word(s.muxFf, name));
    }

    method UpdateGate(g: Gate, live: bool, stays: bool)
      requires DistinctGate(g)
      modifies this
      ensures GateCellsOf(g, Now()) == SibCells.UpdateGate(GateCellsOf(g, old(Now())), live, stays)
      ensures WalkedGate(g, old(Now()), Now())
      decreases g
    {
      match g
      case Leaf(inst) =>
        if inst.direction.WRITE? && stays {
          instPo := instPo[inst.name := Word(instFf, inst.name)];
        }
        OwnInst(old(Now()), Now(), inst.name);
      case Net(chain) => UpdateChain(chain, live);
    }

    method UpdateArms(a: Arms, live: bool, before: nat, after: nat)
      requires DistinctArms(a)
      modifies this
      ensures ArmCellsOf(a, Now()) == SibCells.UpdateArms(ArmCellsOf(a, old(Now())), live, before, after)
      ensures WalkedArms(a, old(Now()), Now())
      decreases a
    {
      if a.Arm? {
        UpdateGate(a.gate, live && before == a.value, live && before == a.value && after == a.value);
        ghost var s1 := Now();
        UpdateArms(a.others, live, before, after);
        ArmsWalk(a, old(Now()), s1, Now());
      }
    }

    method Write(ref: CellRef, value: bool)
      modifies this
      ensures Now() == WriteRef(old(Now()), ref, value)
    {
      match ref
      case SibCell(name) => sibFf := sibFf[name := value];
      case MuxBit(mux, k) =>
        if mux.Mux? {
          muxFf := muxFf[mux.name := SetNth(Word(muxFf, mux.name), k, value)];
        }
      case InstBit(name, k) => instFf := instFf[name := SetNth(Word(instFf, name), k, value)];
    }

    /** One Shift-DR cycle: read every live cell, then pass each value one cell on. */
    method Shift(tdi: bool) returns (tdo: bool)
      requires Valid()
      modifies this
      ensures Valid() && (State(), tdo) == SibCells.Shift(old(State()), tdi)
    {
      hide Distinct, Sized, Layout, ReadAll, WriteRef, Seen, Load, Raw, CellsOf;
      ghost var s, h := Now(), State();
      var layout := Layout(graph, Now());
      ReadIsSeen(graph, s);
      SeenLength(h);
      LayoutLength(graph, s);
      if layout == [] {
        return tdi;
      }
      var values := ReadAll(Now(), layout);
      ghost var moved := [tdi] + values[..|values| - 1];
      tdo := values[|values| - 1];
      var incoming := tdi;
      for i := 0 to |layout|
        invariant incoming == if i == 0 then tdi else values[i - 1]
        invariant Now() == WriteAll(s, layout[..i], moved[..i])
      {
        Write(layout[i], incoming);
        incoming := values[i];
        WriteNext(s, layout, moved, i);
      }
      assert layout[..|layout|] == layout && moved[..|layout|] == moved;
      WriteIsLoad(graph, s, moved);
      LoadKeeps(h, moved);
    }

    /** What the next shift would put on TDO, without shifting. */
    method Tail() returns (tdo: Option<bool>)
      requires Valid()
      ensures tdo == if Seen(State()) == [] then None else Some(Seen(State())[|Seen(State())| - 1])
    {
      var layout := Layout(graph, Now());
      ReadIsSeen(graph, Now());
      if layout == [] {
        return None;
      }
      return Some(ReadRef(Now(), layout[|layout| - 1]));
    }
  }

  lemma WriteNext(s: Store, refs: seq<CellRef>, bits: Bits, i: nat)
    requires |refs| == |bits| && i < |refs|
    ensures WriteAll(s, refs[..i + 1], bits[..i + 1]) == WriteRef(WriteAll(s, refs[..i], bits[..i]), refs[i], bits[i])
  {
    assert refs[..i + 1] == refs[..i] + [refs[i]] && bits[..i + 1] == bits[..i] + [bits[i]];
    WriteJoin(s, refs[..i], [refs[i]], bits[..i], [bits[i]]);
  }

  lemma OwnSib(s: Store, s': Store, name: string)
    requires s'.muxFf == s.muxFf && s'.muxPo == s.muxPo && s'.instFf == s.instFf && s'.instPo == s.instPo
    requires forall n :: n != name ==> Flag(s'.sibFf, n) == Flag(s.sibFf, n) && Flag(s'.sibPo, n) == Flag(s.sibPo, n)
    ensures Within(s, s', {name}, {})
  {
  }

  lemma OwnMux(s: Store, s': Store, name: string)
    requires s'.sibFf == s.sibFf && s'.sibPo == s.sibPo && s'.instFf == s.instFf && s'.instPo == s.instPo
    requires forall n :: n != name ==> Word(s'.muxFf, n) == Word(s.muxFf, n) && Word(s'.muxPo, n) == Word(s.muxPo, n)
    ensures Within(s, s', {name}, {})
  {
  }

  lemma OwnInst(s: Store, s': Store, name: string)
    requires s'.sibFf == s.sibFf && s'.sibPo == s.sibPo && s'.muxFf == s.muxFf && s'.muxPo == s.muxPo
    requires forall n :: n != name ==> Word(s'.instFf, n) == Word(s.instFf, n) && Word(s'.instPo, n) == Word(s.instPo, n)
    ensures Within(s, s', {}, {name})
  {
  }
}
