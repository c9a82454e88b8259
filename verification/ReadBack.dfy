/** What an iRead checks: the expected bits and mask iApply puts on phase 2's scan select exactly the
    addressed field of what the target instrument captured. */
module ReadBack {
  import opened Wrappers
  import opened Bits
  import opened IclModel
  import opened SibLayout
  import opened SibCells
  import opened SibShift
  import opened SibRound
  import opened SibRetarget
  import opened SibStaging
  import opened SibReach
  import opened PathPlan
  import opened TapIr
  import opened PdlSpec
  import opened LayoutWindow
  import opened Retargeting

  // ---------------------------------------------------------------- the captured chain

  /** Every instrument's shift stage holds what it captured. */
  ghost predicate Shows(h: Cells, com: Committed, sense: Sense) {
    match h
    case CEnd => true
    case CSib(_, _, _, gate, rest) => ShowsGate(gate, com, sense) && Shows(rest, com, sense)
    case CMux(_, _, _, _, arms, rest) => ShowsArms(arms, com, sense) && Shows(rest, com, sense)
  }

  ghost predicate ShowsGate(g: GateCells, com: Committed, sense: Sense) {
    match g
    case CLeaf(inst, sh, _) => sh == Captured(inst, com, sense)
    case CNet(chain) => Shows(chain, com, sense)
  }

  ghost predicate ShowsArms(a: ArmCells, com: Committed, sense: Sense) {
    match a
    case CNoArms => true
    case CArm(_, gate, others) => ShowsGate(gate, com, sense) && ShowsArms(others, com, sense)
  }

  lemma {:induction false} CaptureShows(h: Cells, com: Committed, sense: Sense, live: bool)
    requires Latched(h, com)
    ensures Shows(Capture(h, sense, live), com, sense)
  {
    match h
    case CEnd =>
    case CSib(_, _, po, gate, rest) =>
      CaptureGateShows(gate, com, sense, po);
      CaptureShows(rest, com, sense, live);
    case CMux(_, _, _, mpo, arms, rest) =>
      CaptureArmsShow(arms, com, sense, live, Value(mpo));
      CaptureShows(rest, com, sense, live);
  }

  lemma {:induction false} CaptureGateShows(g: GateCells, com: Committed, sense: Sense, live: bool)
    requires LatchedGate(g, com)
    ensures ShowsGate(CaptureGate(g, sense, live), com, sense)
  {
    if g.CNet? {
      CaptureShows(g.chain, com, sense, live);
    }
  }

  lemma {:induction false} CaptureArmsShow(a: ArmCells, com: Committed, sense: Sense, live: bool, value: int)
    requires LatchedArms(a, com)
    ensures ShowsArms(CaptureArms(a, sense, live, value), com, sense)
  {
    if a.CArm? {
      CaptureGateShows(a.gate, com, sense, live && value == a.value);
      CaptureArmsShow(a.others, com, sense, live, value);
    }
  }

  // ---------------------------------------------------------------- the target's window

  /** No ScanMux has an arm selected. */
  ghost predicate Bypassing(c: Chain, open: OpenMap) {
    match c
    case End => true
    case Sib(_, _, rest) => Bypassing(rest, open)
    case Mux(name, _, _, rest) => name !in open && Bypassing(rest, open)
  }

  lemma {:induction false} ArmLeafPath(a: Arms, mux: string, above: Path, l: LeafSite)
    requires l in ArmLeaves(a, mux, above)
    ensures |Way(l)| > |above| && Way(l)[|above|].name == mux && Way(l)[..|above|] == above
  {
    var step := Step(mux, a.value);
    if l in GateLeaves(a.gate, step, above, true) {
      if a.gate.Net? {
        LeafPath(a.gate.chain, above + [step], l);
        assert Way(l)[|above|] == Way(l)[..|above| + 1][|above|];
        assert Way(l)[..|above|] == Way(l)[..|above| + 1][..|above|];
      } else {
        assert Way(l) == above + [step];
      }
    } else {
      ArmLeafPath(a.others, mux, above, l);
    }
  }

  lemma {:induction false} LeafPath(c: Chain, above: Path, l: LeafSite)
    requires l in Leaves(c, above)
    ensures |Way(l)| > |above| && Way(l)[..|above|] == above
  {
    match c
    case Sib(name, gate, rest) =>
      var step := Step(name, 1);
      if l in GateLeaves(gate, step, above, false) {
        if gate.Net? {
          LeafPath(gate.chain, above + [step], l);
          assert Way(l)[..|above|] == Way(l)[..|above| + 1][..|above|];
        } else {
          assert Way(l) == above + [step];
        }
      } else {
        LeafPath(rest, above, l);
      }
    case Mux(name, _, arms, rest) =>
      if l in ArmLeaves(arms, name, above) {
        ArmLeafPath(arms, name, above, l);
      } else {
        LeafPath(rest, above, l);
      }
  }

  /** `part` is what `whole` holds from `at` on. */
  ghost predicate Holds(whole: Bits, at: int, part: Bits) {
    0 <= at && at + |part| <= |whole| && whole[at..at + |part|] == part
  }

  lemma HoldsBefore(before: Bits, whole: Bits, after: Bits, at: int, part: Bits)
    requires Holds(whole, at, part)
    ensures Holds(before + whole + after, |before| + at, part)
  {
    assert (before + whole + after)[|before| + at..|before| + at + |part|] == whole[at..at + |part|];
  }

  lemma {:induction false} SibOnlyBypasses(c: Chain, open: OpenMap)
    requires SibOnly(c)
    ensures Bypassing(c, open)
  {
    if c.Sib? {
      SibOnlyBypasses(c.rest, open);
    }
  }

  /** A gate with an open instrument behind it is open. */
  lemma GateIsOpen(g: Gate, name: string, above: Path, l: LeafSite, open: OpenMap)
    requires l in GateLeaves(g, Step(name, 1), above, false) && Opened(open, Way(l))
    ensures name in open && (g.Leaf? ==> l.step.name == name) && (g.Net? ==> l.step.name in GateSlots(g))
  {
    var here := above + [Step(name, 1)];
    if g.Net? {
      LeafPath(g.chain, here, l);
      LeafNames(g.chain, here, l);
      assert Way(l)[|above|] == Way(l)[..|here|][|above|];
    } else {
      assert Way(l) == here;
    }
    assert Carries(open, Way(l)[|above|].name, Way(l)[|above|].value);
  }

  lemma NotInArmsOpen(a: Arms, mux: string, above: Path, l: LeafSite, open: OpenMap)
    requires l in ArmLeaves(a, mux, above) && Opened(open, Way(l))
    ensures mux in open
  {
    ArmLeafPath(a, mux, above, l);
    assert Carries(open, Way(l)[|above|].name, Way(l)[|above|].value);
  }

  /** For an instrument outside any ScanMux: the window _target_layout computes is where a composed
      scan holds its payload. */
  lemma {:induction false} WindowComposed(
    c: Chain, above: Path, l: LeafSite, open: OpenMap, payload: int, offset: nat) returns (at: nat)
    requires UniqueSlots(c) && GoodShape(c) && Bypassing(c, open)
    requires l in Leaves(c, above) && Opened(open, Way(l))
    ensures TargetLayout(c, open, l.step.name, offset) == Some(Window(offset + at, l.inst.width, false))
    ensures Holds(Compose(c, open, open, Some(l.step.name), payload), at, FromInt(payload, l.inst.width))
    decreases c, 1
  {
    at := 0;
    match c
    case Sib(name, gate, rest) =>
      if l in GateLeaves(gate, Step(name, 1), above, false) {
        at := ComposedInGate(c, above, l, open, payload, offset);
      } else {
        at := ComposedInRest(c, above, l, open, payload, offset);
      }
    case Mux(name, _, arms, rest) =>
      NotInArmsOpen(arms, name, above, l, open);
  }

  lemma {:induction false} ComposedInGate(
    c: Chain, above: Path, l: LeafSite, open: OpenMap, payload: int, offset: nat) returns (at: nat)
    requires c.Sib? && UniqueSlots(c) && GoodShape(c) && Bypassing(c, open)
    requires l in GateLeaves(c.gate, Step(c.name, 1), above, false) && Opened(open, Way(l))
    ensures TargetLayout(c, open, l.step.name, offset) == Some(Window(offset + at, l.inst.width, false))
    ensures Holds(Compose(c, open, open, Some(l.step.name), payload), at, FromInt(payload, l.inst.width))
    decreases c, 0
  {
    var slot, want, gate := l.step.name, FromInt(payload, l.inst.width), c.gate;
    GateIsOpen(gate, c.name, above, l, open);
    var content := GateBits(gate, open, open, Some(slot), payload, Some(slot) == Some(c.name));
    at := 0;
    if gate.Leaf? {
      assert content[0..|want|] == want;
    } else {
      SibOnlyIsGood(gate.chain);
      SibOnlyBypasses(gate.chain, open);
      at := WindowComposed(gate.chain, above + [Step(c.name, 1)], l, open, payload, offset);
    }
    var tail := [true] + Compose(c.rest, open, open, Some(slot), payload);
    assert Compose(c, open, open, Some(slot), payload) == [] + content + tail;
    HoldsBefore([], content, tail, at, want);
  }

  lemma {:induction false} ComposedInRest(
    c: Chain, above: Path, l: LeafSite, open: OpenMap, payload: int, offset: nat) returns (at: nat)
    requires c.Sib? && UniqueSlots(c) && GoodShape(c) && Bypassing(c, open)
    requires l in Leaves(c.rest, above) && Opened(open, Way(l))
    ensures TargetLayout(c, open, l.step.name, offset) == Some(Window(offset + at, l.inst.width, false))
    ensures Holds(Compose(c, open, open, Some(l.step.name), payload), at, FromInt(payload, l.inst.width))
    decreases c, 0
  {
    var slot, want, name := l.step.name, FromInt(payload, l.inst.width), c.name;
    LeafNames(c.rest, above, l);
    if c.gate.Net? {
      NoWindow(c.gate.chain, open, slot, offset);
    }
    GateBitsLength(c.gate, open, open, Some(slot), payload, false);
    var own := (if name in open then GateBits(c.gate, open, open, Some(slot), payload, false) else [])
               + [name in open];
    var below := WindowComposed(c.rest, above, l, open, payload, offset + |own|);
    var tail := Compose(c.rest, open, open, Some(slot), payload);
    assert Compose(c, open, open, Some(slot), payload) == own + tail + [];
    HoldsBefore(own, tail, [], below, want);
    at := |own| + below;
  }

  /** The cells of the first slot, past which the walk looks for a target further down the chain. */
  lemma OwnBits(h: Cells, above: Path, l: LeafSite, open: OpenMap, offset: nat) returns (own: Bits)
    requires h.CSib? && Sized(h) && Agrees(h, open) && GoodShape(Topo(h)) && UniqueSlots(Topo(h))
    requires l in Leaves(Topo(h.rest), above)
    ensures Raw(h) == own + Raw(h.rest)
    ensures TargetLayout(Topo(h), open, l.step.name, offset)
            == TargetLayout(Topo(h.rest), open, l.step.name, offset + |own|)
  {
    var c := Topo(h);
    LeafNames(c.rest, above, l);
    if c.gate.Net? {
      NoWindow(c.gate.chain, open, l.step.name, offset);
    }
    GoodHasNoZero(c);
    LayoutIsLiveGate(h.gate, open);
    own := (if h.po then RawGate(h.gate) else []) + [h.ff];
  }

  /** For a leaf arm of the final ScanMux: its content ends the tapped part of the chain. */
  lemma {:induction false} ArmShows(
    h: Cells, above: Path, l: LeafSite, open: OpenMap, com: Committed, sense: Sense, offset: nat)
    requires Sized(h) && Agrees(h, open) && Shows(h, com, sense)
    requires GoodShape(Topo(h)) && UniqueSlots(Topo(h)) && Structured(Topo(h))
    requires l in Leaves(Topo(h), above) && l.isMux && Opened(open, Way(l))
    ensures var w := TargetLayout(Topo(h), open, l.step.name, offset);
            w.Some? && w.value.width == l.inst.width && w.value.isMuxArm
    ensures Downstream(h) <= |Raw(h)|
    ensures var n, want := |Raw(h)| - Downstream(h), Captured(l.inst, com, sense);
            Holds(Raw(h), n - |want|, want)
  {
    var want := Captured(l.inst, com, sense);
    match h
    case CSib(name, _, _, gate, rest) =>
      if l in GateLeaves(GateTopo(gate), Step(name, 1), above, false) {
        NoMuxLeafInGate(GateTopo(gate), Step(name, 1), above, l);
      }
      var own := OwnBits(h, above, l, open, offset);
      ArmShows(rest, above, l, open, com, sense, offset + |own|);
      assert Raw(h) == own + Raw(rest) + [];
      HoldsBefore(own, Raw(rest), [], |Raw(rest)| - Downstream(rest) - |want|, want);
    case CMux(_, _, _, _, _, _) =>
      FinalMuxShows(h, above, l, open, com, sense, offset);
  }

  lemma FinalMuxShows(
    h: Cells, above: Path, l: LeafSite, open: OpenMap, com: Committed, sense: Sense, offset: nat)
    requires h.CMux? && Sized(h) && Agrees(h, open) && Shows(h, com, sense)
    requires GoodShape(Topo(h)) && UniqueSlots(Topo(h)) && Structured(Topo(h))
    requires l in Leaves(Topo(h), above) && l.isMux && Opened(open, Way(l))
    ensures var w := TargetLayout(Topo(h), open, l.step.name, offset);
            w.Some? && w.value.width == l.inst.width && w.value.isMuxArm
    ensures Downstream(h) <= |Raw(h)|
    ensures var n, want := |Raw(h)| - Downstream(h), Captured(l.inst, com, sense);
            Holds(Raw(h), n - |want|, want)
  {
    assert Topo(h.rest).End?;
    ArmLeafPath(ArmTopo(h.arms), h.name, above, l);
    MatchedArmShows(h.arms, h.name, above, l, com, sense, offset, Pow2(h.width));
    assert Carries(open, Way(l)[|l.above|].name, Way(l)[|l.above|].value);
    var content := RawArms(h.arms, Value(h.mpo));
    assert Raw(h) == content + h.mff;
    assert Raw(h)[..|content|] == content;
  }

  lemma {:induction false} NoMuxLeafInGate(g: Gate, step: Step, above: Path, l: LeafSite)
    requires SibOnlyGate(g) && l in GateLeaves(g, step, above, false)
    ensures !l.isMux
  {
    if g.Net? {
      NoMuxLeaf(g.chain, above + [step], l);
    }
  }

  lemma {:induction false} NoMuxLeaf(c: Chain, above: Path, l: LeafSite)
    requires SibOnly(c) && l in Leaves(c, above)
    ensures !l.isMux
  {
    if l in GateLeaves(c.gate, Step(c.name, 1), above, false) {
      NoMuxLeafInGate(c.gate, Step(c.name, 1), above, l);
    } else {
      NoMuxLeaf(c.rest, above, l);
    }
  }

  lemma {:induction false} MatchedArmShows(
    a: ArmCells, mux: string, above: Path, l: LeafSite, com: Committed, sense: Sense, offset: nat, limit: nat)
    requires SizedArms(a) && ShowsArms(a, com, sense) && GoodArms(ArmTopo(a))
    requires DistinctValues(ArmTopo(a)) && StructuredArms(ArmTopo(a), limit)
    requires l in ArmLeaves(ArmTopo(a), mux, above) && l.isMux
    ensures l.step.name == mux && Claims(a, l.step.value)
    ensures RawArms(a, l.step.value) == Captured(l.inst, com, sense)
    ensures ArmWindow(ArmTopo(a), l.step.value, offset) == Some(Window(offset, l.inst.width, true))
  {
    var step := Step(mux, a.value);
    if l in GateLeaves(GateTopo(a.gate), step, above, true) {
      if a.gate.CNet? {
        NoMuxLeaf(Topo(a.gate.chain), above + [step], l);
      }
    } else {
      MatchedArmShows(a.others, mux, above, l, com, sense, offset, limit);
      ValuesAreClaims(a.others, a.value);
    }
  }

  // ---------------------------------------------------------------- the comparison

  function LowOf(read: Expect): nat { if read.field.None? then 0 else read.field.value.low }

  function HighOf(read: Expect, width: nat): int {
    if read.field.None? then width - 1 else read.field.value.high
  }

  /** check_reads' masked comparison. */
  predicate Matches(observed: int, tdo: int, mask: int) {
    And(observed, mask) == And(tdo, mask)
  }

  /** The addressed field of the captured value is the expected one. */
  ghost predicate FieldMatches(captured: Bits, expected: int, low: nat, high: int)
    requires high < |captured|
  {
    forall k: nat :: low <= k <= high ==> captured[k] == BitOf(expected, k - low)
  }

  lemma FeedBit(bits: Bits, t: nat)
    ensures BitOf(FeedOf(bits), t) == (t < |bits| && bits[|bits| - 1 - t])
  {
    ToIntBit(Reverse(bits), t);
  }

  lemma FeedAgrees(raw: Bits, expected: Bits, mask: Bits)
    requires |raw| == |expected| == |mask|
    ensures Matches(FeedOf(raw), FeedOf(expected), FeedOf(mask))
            <==> forall p :: 0 <= p < |mask| && mask[p] ==> raw[p] == expected[p]
  {
    var n := |mask|;
    MaskedEqual(FeedOf(raw), FeedOf(expected), FeedOf(mask));
    if AgreeUnder(FeedOf(raw), FeedOf(expected), FeedOf(mask)) {
      forall p | 0 <= p < n && mask[p] ensures raw[p] == expected[p] {
        FeedBit(mask, n - 1 - p);
        FeedBit(raw, n - 1 - p);
        FeedBit(expected, n - 1 - p);
      }
    }
    if forall p :: 0 <= p < n && mask[p] ==> raw[p] == expected[p] {
      forall t: nat | BitOf(FeedOf(mask), t) ensures BitOf(FeedOf(raw), t) == BitOf(FeedOf(expected), t) {
        FeedBit(mask, t);
        FeedBit(raw, t);
        FeedBit(expected, t);
      }
    }
  }

  /** One cycle of a read of a leaf arm. */
  lemma MaskedArmBit(tapped: Bits, fed: Bits, low: nat, high: int, captured: Bits, want: int, t: nat)
    requires |captured| <= |tapped| <= |fed| && high < |captured|
    requires Holds(tapped, |tapped| - |captured|, captured)
    ensures var (n, w) := (|fed|, |captured|);
            && (BitOf(ToInt(MuxArmMask(n, w, low, high)), t) <==> t < n && low <= w - 1 - t <= high)
            && (t < n && low <= w - 1 - t <= high ==>
                  && BitOf(ToInt(Emerged(tapped, fed)), t) == captured[w - 1 - t]
                  && BitOf(ToInt(MuxArmTdo(n, w, low, high, Shl(want, low))), t) == BitOf(want, w - 1 - t - low))
  {
    hide ToInt, BitOf, Shl;
    var n, w := |fed|, |captured|;
    var out := Emerged(tapped, fed);
    ToIntBit(MuxArmMask(n, w, low, high), t);
    ToIntBit(out, t);
    ToIntBit(MuxArmTdo(n, w, low, high, Shl(want, low)), t);
    if t < n && low <= w - 1 - t <= high {
      assert out[t] == Reverse(tapped)[t] == tapped[|tapped| - 1 - t];
      assert tapped[|tapped| - w..|tapped|][w - 1 - t] == captured[w - 1 - t];
      ShlBit(want, low, w - 1 - t);
    }
  }

  /** The same for a matched arm, whose content ends the tapped chain and shows first. */
  lemma MaskedArm(tapped: Bits, fed: Bits, low: nat, high: int, captured: Bits, want: int)
    requires |captured| <= |tapped| <= |fed| && high < |captured|
    requires Holds(tapped, |tapped| - |captured|, captured)
    ensures var w := |captured|;
            Matches(ToInt(Emerged(tapped, fed)), ToInt(MuxArmTdo(|fed|, w, low, high, Shl(want, low))),
                    ToInt(MuxArmMask(|fed|, w, low, high)))
            <==> FieldMatches(captured, want, low, high)
  {
    hide ToInt, BitOf, Shl, Emerged, MuxArmTdo, MuxArmMask;
    var n, w := |fed|, |captured|;
    var out, tdo, mask := Emerged(tapped, fed), MuxArmTdo(n, w, low, high, Shl(want, low)), MuxArmMask(n, w, low, high);
    MaskedEqual(ToInt(out), ToInt(tdo), ToInt(mask));
    forall t: nat
      ensures BitOf(ToInt(mask), t) <==> t < n && low <= w - 1 - t <= high
      ensures t < n && low <= w - 1 - t <= high ==>
                BitOf(ToInt(out), t) == captured[w - 1 - t] && BitOf(ToInt(tdo), t) == BitOf(want, w - 1 - t - low)
    {
      MaskedArmBit(tapped, fed, low, high, captured, want, t);
    }
    if AgreeUnder(ToInt(out), ToInt(tdo), ToInt(mask)) {
      forall k: nat | low <= k <= high ensures captured[k] == BitOf(want, k - low) {
        var t := w - 1 - k;
        assert BitOf(ToInt(mask), t);
      }
    }
    if FieldMatches(captured, want, low, high) {
      forall t: nat | BitOf(ToInt(mask), t) ensures BitOf(ToInt(out), t) == BitOf(ToInt(tdo), t) {
        var k := w - 1 - t;
        assert low <= k <= high;
      }
    }
  }
}
