/** _target_layout's window is exactly the part of a composed scan that depends on the payload, for
    every topology with unique slot names and every set of open slots. */
module LayoutWindow {
  import opened Wrappers
  import opened Bits
  import opened IclModel
  import opened SibLayout
  import opened PdlSpec

  ghost predicate Fits(base: Bits, at: int, part: Bits) { 0 <= at && at + |part| <= |base| }

  /** `base` with `part` in place of what was there. */
  function Replaced(base: Bits, at: int, part: Bits): Bits
    requires Fits(base, at, part)
  {
    base[..at] + part + base[at + |part|..]
  }

  lemma ReplacedInside(before: Bits, base: Bits, tail: Bits, at: int, part: Bits)
    requires Fits(base, at, part)
    ensures Fits(before + base + tail, |before| + at, part)
    ensures Replaced(before + base + tail, |before| + at, part) == before + Replaced(base, at, part) + tail
  {
    var whole := before + base + tail;
    assert whole[..|before| + at] == before + base[..at];
    assert whole[|before| + at + |part|..] == base[at + |part|..] + tail;
  }

  lemma ReplacedWhole(base: Bits, part: Bits)
    requires |base| == |part|
    ensures Fits(base, 0, part) && Replaced(base, 0, part) == part
  {
    assert base[..0] == [] && base[|part|..] == [];
  }

  // ---------------------------------------------------------------- no window, no payload

  /** A name that is no slot of a chain leaves its scan as without a target. */
  lemma {:induction false} NoPayload(c: Chain, now: OpenMap, after: OpenMap, slot: string, payload: int)
    requires slot !in SlotNames(c)
    ensures Compose(c, now, after, Some(slot), payload) == Compose(c, now, after, None, 0)
  {
    match c
    case End =>
    case Sib(_, gate, rest) =>
      NoGatePayload(gate, now, after, slot, payload);
      NoPayload(rest, now, after, slot, payload);
    case Mux(name, _, arms, rest) =>
      if name in now {
        NoArmPayload(arms, now[name], now, after, slot, payload);
      }
      NoPayload(rest, now, after, slot, payload);
  }

  lemma {:induction false} NoGatePayload(g: Gate, now: OpenMap, after: OpenMap, slot: string, payload: int)
    requires slot !in GateSlots(g)
    ensures GateBits(g, now, after, Some(slot), payload, false) == GateBits(g, now, after, None, 0, false)
  {
    if g.Net? {
      NoPayload(g.chain, now, after, slot, payload);
    }
  }

  lemma {:induction false} NoArmPayload(
    a: Arms, value: int, now: OpenMap, after: OpenMap, slot: string, payload: int)
    requires slot !in ArmSlots(a)
    ensures ArmBits(a, value, now, after, Some(slot), payload, false) == ArmBits(a, value, now, after, None, 0, false)
  {
    if a.Arm? {
      NoGatePayload(a.gate, now, after, slot, payload);
      NoArmPayload(a.others, value, now, after, slot, payload);
    }
  }

  /** The scan is the target-less one with the payload in the window, or just the target-less one. */
  ghost predicate Exact(scan: Bits, base: Bits, found: Option<Window>, offset: nat, payload: int) {
    match found
    case None => scan == base
    case Some(w) =>
      var part := FromInt(payload, w.width);
      Fits(base, w.offset - offset, part) && scan == Replaced(base, w.offset - offset, part)
  }

  /** Content and cells around a part that is exact. */
  lemma ExactInside(before: Bits, scan: Bits, base: Bits, tail: Bits, found: Option<Window>, offset: nat, payload: int)
    requires Exact(scan, base, found, offset + |before|, payload)
    ensures Exact(before + scan + tail, before + base + tail, found, offset, payload)
  {
    if found.Some? {
      ReplacedInside(before, base, tail, found.value.offset - offset - |before|, FromInt(payload, found.value.width));
    }
  }

  lemma FrontExact(content: Bits, plain: Bits, own: Bits, rest: Bits, found: Option<Window>, offset: nat, payload: int)
    requires Exact(content, plain, found, offset, payload)
    ensures Exact(content + own + rest, plain + own + rest, found, offset, payload)
  {
    hide Exact;
    ExactInside([], content, plain, own + rest, found, offset, payload);
    Regroup(content, own, rest);
    Regroup(plain, own, rest);
  }

  lemma Regroup(a: Bits, b: Bits, c: Bits)
    ensures [] + a + (b + c) == a + b + c && a + b + c + [] == a + b + c
  {
  }

  lemma BackExact(plain: Bits, own: Bits, scan: Bits, base: Bits, found: Option<Window>, offset: nat, payload: int)
    requires Exact(scan, base, found, offset + |plain| + |own|, payload)
    ensures Exact(plain + own + scan, plain + own + base, found, offset, payload)
  {
    hide Exact;
    ExactInside(plain + own, scan, base, [], found, offset, payload);
    Regroup(plain, own, scan);
    Regroup(plain, own, base);
  }

  /** For every open slot of every network: the window holds the payload, everything around it does not
      depend on it, and without a window nothing does. */
  lemma {:induction false} WindowIsExact(
    c: Chain, now: OpenMap, after: OpenMap, slot: string, payload: int, offset: nat)
    requires UniqueSlots(c) && slot in now
    ensures Exact(Compose(c, now, after, Some(slot), payload), Compose(c, now, after, None, 0),
                  TargetLayout(c, now, slot, offset), offset, payload)
    decreases c, 1
  {
    match c
    case End =>
    case Sib(_, _, _) => SibWindowIsExact(c, now, after, slot, payload, offset);
    case Mux(_, _, _, _) => MuxWindowIsExact(c, now, after, slot, payload, offset);
  }

  lemma {:induction false} SibWindowIsExact(
    c: Chain, now: OpenMap, after: OpenMap, slot: string, payload: int, offset: nat)
    requires c.Sib? && UniqueSlots(c) && slot in now
    ensures Exact(Compose(c, now, after, Some(slot), payload), Compose(c, now, after, None, 0),
                  TargetLayout(c, now, slot, offset), offset, payload)
    decreases c, 0
  {
    hide Exact, UniqueSlots, SlotNames, GateSlots, TargetLayout;
    SlotParts(c);
    var name, gate, rest := c.name, c.gate, c.rest;
    var content := if name in now then GateBits(gate, now, after, Some(slot), payload, slot == name) else [];
    var plain := if name in now then GateBits(gate, now, after, None, 0, false) else [];
    var scan, base := Compose(rest, now, after, Some(slot), payload), Compose(rest, now, after, None, 0);
    var own := [name in after];
    GateBitsLength(gate, now, after, None, 0, false);
    if slot == name {
      NoPayload(rest, now, after, slot, payload);
      OwnGate(c, now, after, payload, offset);
      FrontExact(content, plain, own, base, TargetLayout(c, now, slot, offset), offset, payload);
    } else if name in now && slot in GateSlots(gate) {
      NoPayload(rest, now, after, slot, payload);
      NetGate(gate, slot);
      WindowIsExact(gate.chain, now, after, slot, payload, offset);
      NestedFirst(c, now, slot, offset);
      FrontExact(content, plain, own, base, TargetLayout(c, now, slot, offset), offset, payload);
    } else {
      if name in now {
        NoGatePayload(gate, now, after, slot, payload);
      }
      var here := offset + |plain| + 1;
      WindowIsExact(rest, now, after, slot, payload, here);
      RestNext(c, now, slot, offset);
      BackExact(plain, own, scan, base, TargetLayout(c, now, slot, offset), offset, payload);
    }
  }

  lemma NetGate(g: Gate, slot: string)
    requires slot in GateSlots(g)
    ensures g.Net? && GateSlots(g) == SlotNames(g.chain)
    ensures UniqueGateSlots(g) ==> UniqueSlots(g.chain)
  {
  }

  lemma SlotParts(c: Chain)
    requires !c.End? && UniqueSlots(c)
    ensures UniqueSlots(c.rest) && c.name !in SlotNames(c.rest)
    ensures c.Sib? ==> UniqueGateSlots(c.gate) && c.name !in GateSlots(c.gate) && GateSlots(c.gate) !! SlotNames(c.rest)
    ensures c.Mux? ==> UniqueArmSlots(c.arms) && c.name !in ArmSlots(c.arms) && ArmSlots(c.arms) !! SlotNames(c.rest)
  {
  }

  /** A SIB's own instrument, or a nested chain its own name does not reach into. */
  lemma OwnGate(c: Chain, now: OpenMap, after: OpenMap, payload: int, offset: nat)
    requires c.Sib? && c.name in now && c.name !in GateSlots(c.gate)
    ensures Exact(GateBits(c.gate, now, after, Some(c.name), payload, true),
                  GateBits(c.gate, now, after, None, 0, false), TargetLayout(c, now, c.name, offset), offset, payload)
  {
    match c.gate
    case Leaf(inst) => ReplacedWhole(Zeros(inst.width), FromInt(payload, inst.width));
    case Net(chain) => NoPayload(chain, now, after, c.name, payload);
  }

  /** The walk finds a target inside the gate before it looks further. */
  lemma NestedFirst(c: Chain, now: OpenMap, slot: string, offset: nat)
    requires c.Sib? && slot != c.name && c.name in now && c.gate.Net? && slot !in SlotNames(c.rest)
    ensures TargetLayout(c, now, slot, offset) == TargetLayout(c.gate.chain, now, slot, offset)
  {
    NoWindow(c.rest, now, slot, offset + Length(c.gate.chain, now) + 1);
  }

  lemma RestNext(c: Chain, now: OpenMap, slot: string, offset: nat)
    requires c.Sib? && slot != c.name && (c.name !in now || slot !in GateSlots(c.gate))
    ensures TargetLayout(c, now, slot, offset)
            == TargetLayout(c.rest, now, slot, offset + (if c.name in now then GateLength(c.gate, now) else 0) + 1)
  {
    if c.name in now && c.gate.Net? {
      NoWindow(c.gate.chain, now, slot, offset);
    }
  }

  lemma {:induction false} NoWindow(c: Chain, now: OpenMap, slot: string, offset: nat)
    requires slot !in SlotNames(c)
    ensures TargetLayout(c, now, slot, offset).None?
  {
    match c
    case End =>
    case Sib(name, gate, rest) =>
      if gate.Net? {
        NoWindow(gate.chain, now, slot, offset);
      }
      NoWindow(rest, now, slot, offset + (if name in now then GateLength(gate, now) else 0) + 1);
    case Mux(name, selectWidth, arms, rest) =>
      if name in now {
        NoArmWindow(arms, now[name], now, slot, offset);
      }
      NoWindow(rest, now, slot,
               offset + (if name in now then ArmLength(arms, now[name], now) else 0) + selectWidth);
  }

  lemma {:induction false} NoArmWindow(a: Arms, value: int, now: OpenMap, slot: string, offset: nat)
    requires slot !in ArmSlots(a)
    ensures ArmTargetLayout(a, value, now, slot, offset).None?
  {
    if a.Arm? {
      if a.gate.Net? {
        NoWindow(a.gate.chain, now, slot, offset);
      }
      NoArmWindow(a.others, value, now, slot, offset);
    }
  }

  lemma {:induction false} MuxWindowIsExact(
    c: Chain, now: OpenMap, after: OpenMap, slot: string, payload: int, offset: nat)
    requires c.Mux? && UniqueSlots(c) && slot in now
    ensures Exact(Compose(c, now, after, Some(slot), payload), Compose(c, now, after, None, 0),
                  TargetLayout(c, now, slot, offset), offset, payload)
    decreases c, 0
  {
    hide Exact, UniqueSlots, SlotNames, ArmSlots, TargetLayout, ArmTargetLayout, ArmWindow, ArmBits, Reverse;
    SlotParts(c);
    var name, arms, rest := c.name, c.arms, c.rest;
    var content := if name in now then ArmBits(arms, now[name], now, after, Some(slot), payload, slot == name) else [];
    var plain := if name in now then ArmBits(arms, now[name], now, after, None, 0, false) else [];
    var scan, base := Compose(rest, now, after, Some(slot), payload), Compose(rest, now, after, None, 0);
    var own := Reverse(FromInt(FieldOf(after, name), c.selectWidth));
    if name in now {
      ArmBitsLength(arms, now[name], now, after, None, 0, false);
    }
    if slot == name {
      NoPayload(rest, now, after, slot, payload);
      OwnArm(arms, now[name], now, after, name, payload, offset);
      MuxOwnWindow(c, now, offset);
      FrontExact(content, plain, own, base, TargetLayout(c, now, slot, offset), offset, payload);
    } else if name in now && slot in ArmSlots(arms) {
      NoPayload(rest, now, after, slot, payload);
      ArmWindowIsExact(arms, now[name], now, after, slot, payload, offset);
      ArmFirst(c, now, slot, offset);
      FrontExact(content, plain, own, base, TargetLayout(c, now, slot, offset), offset, payload);
    } else {
      if name in now {
        NoArmPayload(arms, now[name], now, after, slot, payload);
      }
      WindowIsExact(rest, now, after, slot, payload, offset + |plain| + c.selectWidth);
      MuxRestNext(c, now, slot, offset);
      BackExact(plain, own, scan, base, TargetLayout(c, now, slot, offset), offset, payload);
    }
  }

  lemma MuxOwnWindow(c: Chain, now: OpenMap, offset: nat)
    requires c.Mux? && c.name in now
    ensures TargetLayout(c, now, c.name, offset) == ArmWindow(c.arms, now[c.name], offset)
  {
  }

  lemma ArmFirst(c: Chain, now: OpenMap, slot: string, offset: nat)
    requires c.Mux? && slot != c.name && c.name in now && slot !in SlotNames(c.rest)
    ensures TargetLayout(c, now, slot, offset) == ArmTargetLayout(c.arms, now[c.name], now, slot, offset)
  {
    NoWindow(c.rest, now, slot, offset + ArmLength(c.arms, now[c.name], now) + c.selectWidth);
  }

  lemma MuxRestNext(c: Chain, now: OpenMap, slot: string, offset: nat)
    requires c.Mux? && slot != c.name && (c.name !in now || slot !in ArmSlots(c.arms))
    ensures TargetLayout(c, now, slot, offset)
            == TargetLayout(c.rest, now, slot,
                            offset + (if c.name in now then ArmLength(c.arms, now[c.name], now) else 0) + c.selectWidth)
  {
    if c.name in now {
      NoArmWindow(c.arms, now[c.name], now, slot, offset);
    }
  }

  /** A ScanMux's matched arm when the ScanMux itself is the target. */
  lemma {:induction false} OwnArm(
    a: Arms, value: int, now: OpenMap, after: OpenMap, mux: string, payload: int, offset: nat)
    requires mux !in ArmSlots(a)
    ensures Exact(ArmBits(a, value, now, after, Some(mux), payload, true),
                  ArmBits(a, value, now, after, None, 0, false), ArmWindow(a, value, offset), offset, payload)
  {
    match a
    case NoArms =>
    case Arm(v, gate, others) =>
      if v != value {
        OwnArm(others, value, now, after, mux, payload, offset);
      } else {
        match gate
        case Leaf(inst) => ReplacedWhole(Zeros(inst.width), FromInt(payload, inst.width));
        case Net(chain) => NoPayload(chain, now, after, mux, payload);
      }
  }

  /** A slot inside the matched arm. */
  lemma {:induction false} ArmWindowIsExact(
    a: Arms, value: int, now: OpenMap, after: OpenMap, slot: string, payload: int, offset: nat)
    requires UniqueArmSlots(a) && slot in now
    ensures Exact(ArmBits(a, value, now, after, Some(slot), payload, false),
                  ArmBits(a, value, now, after, None, 0, false), ArmTargetLayout(a, value, now, slot, offset),
                  offset, payload)
    decreases a, 1
  {
    match a
    case NoArms =>
    case Arm(v, gate, others) =>
      if v != value {
        ArmWindowIsExact(others, value, now, after, slot, payload, offset);
      } else if gate.Net? {
        WindowIsExact(gate.chain, now, after, slot, payload, offset);
      }
  }
}
