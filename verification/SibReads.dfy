/** What a read through a SIB looks at. The bits compared are those of the window _target_layout reports,
    but a matched ScanMux puts TDO's tap `m` cells before the end of the chain, so they show the cells `m`
    places nearer TDI, or select bits that are being fed. */
module SibReads {
  import opened Wrappers
  import opened Bits
  import opened IclModel
  import opened SibLayout
  import opened SibCells
  import opened SibShift
  import opened SibRound
  import opened SibRetarget
  import opened SibStaging
  import opened PathPlan
  import opened PdlSpec
  import opened Retargeting
  import opened ReadBack
  import opened LiveCells

  /** The cell whose bit shows where an untapped chain would show cell `p`. */
  function ShownCell(cells: seq<LiveCell>, m: nat, p: nat): LiveCell
    requires m <= |cells| && p < |cells|
  {
    if p >= m then cells[p - m] else cells[|cells| - m + p]
  }

  /** The last `m` cells are select cells. */
  ghost predicate EndsInSelects(cells: seq<LiveCell>, m: nat) {
    m <= |cells| && forall p :: |cells| - m <= p < |cells| ==> cells[p].Select?
  }

  /** The expected field is what the cells `m` places nearer TDI show. */
  ghost predicate FieldShown(cells: seq<LiveCell>, m: nat, at: nat, com: Committed, sense: Sense, read: Expect, width: nat)
    requires m <= |cells| && at + width <= |cells| && HighOf(read, width) < width
  {
    forall j: nat :: LowOf(read) <= j <= HighOf(read, width) ==> BitShown(cells, m, at, com, sense, read, j)
  }

  /** Bit `j` of the instrument shows as expected. */
  predicate BitShown(cells: seq<LiveCell>, m: nat, at: nat, com: Committed, sense: Sense, read: Expect, j: nat)
    requires m <= |cells| && at + j < |cells| && LowOf(read) <= j
  {
    Holds1(ShownCell(cells, m, at + j), com, sense) == BitOf(read.value, j - LowOf(read))
  }

  function ShownBits(cells: seq<LiveCell>, m: nat, com: Committed, sense: Sense): (r: Bits)
    requires m <= |cells|
    ensures |r| == |cells|
  {
    seq(|cells|, p requires 0 <= p < |cells| => Holds1(ShownCell(cells, m, p), com, sense))
  }

  /** What TDO shows, last cycle first. */
  lemma EmergedIsShown(cells: seq<LiveCell>, m: nat, raw: Bits, com: Committed, sense: Sense,
                       target: Option<string>, payload: int)
    requires EndsInSelects(cells, m) && raw == Kept(cells, com, sense)
    ensures var n := |cells|;
            ToInt(Emerged(raw[..n - m], Reverse(Loaded(cells, target, payload))))
            == FeedOf(ShownBits(cells, m, com, sense))
  {
    hide ToInt;
    var n, fed := |cells|, Reverse(Loaded(cells, target, payload));
    var tapped, shown := raw[..n - m], ShownBits(cells, m, com, sense);
    forall t | 0 <= t < n ensures Emerged(tapped, fed)[t] == Reverse(shown)[t] {
      EmergedAt(tapped, fed, t);
      ShownAt(cells, m, raw, com, sense, target, payload, n - 1 - t);
    }
    assert Emerged(tapped, fed) == Reverse(shown);
  }

  lemma ShownAt(cells: seq<LiveCell>, m: nat, raw: Bits, com: Committed, sense: Sense, target: Option<string>,
                payload: int, p: nat)
    requires EndsInSelects(cells, m) && raw == Kept(cells, com, sense) && p < |cells|
    ensures ShownBits(cells, m, com, sense)[p]
            == if p >= m then raw[p - m] else Loaded(cells, target, payload)[|cells| - m + p]
  {
    if p < m {
      assert cells[|cells| - m + p].Select?;
    }
  }

  lemma EmergedAt(tapped: Bits, fed: Bits, t: nat)
    requires t < |fed|
    ensures Emerged(tapped, fed)[t] == if t < |tapped| then tapped[|tapped| - 1 - t] else fed[t - |tapped|]
  {
  }

  /** The check of a read through a SIB, wherever the SIB is. */
  lemma SibVerdict(c: Chain, h: Cells, l: LeafSite, com: Committed, sense: Sense, payload: int, read: Expect,
                   open: OpenMap, w: Window)
    requires InStep(c, open, com, h) && UniqueSlots(c) && GoodShape(c) && l.step.name in open
    requires TargetLayout(c, open, l.step.name, 0) == Some(w) && w.width == l.inst.width && !w.isMuxArm
    requires HighOf(read, l.inst.width) < l.inst.width
    requires EndsInSelects(Live(c, open), Downstream(Capture(h, sense, true)))
    ensures 0 <= w.offset && w.offset + w.width <= |Live(c, open)|
    ensures var seen := Capture(h, sense, true);
            var (tdo, mask) := Expectation(c, open, l.step.name, read);
            && Downstream(seen) <= |Raw(seen)| == |Live(c, open)| && tdo.Some? && mask.Some?
            && (Matches(ToInt(Emerged(Tapped(seen), Reverse(Compose(c, open, open, Some(l.step.name), payload)))),
                        tdo.value, mask.value)
                <==> FieldShown(Live(c, open), Downstream(seen), w.offset, com, sense, read, l.inst.width))
  {
    hide Live, Raw, Capture, Compose, TargetLayout, Matches, Downstream, UniqueSlots, GoodShape, Sized, Agrees, Latched,
         EndsInSelects, ToInt, FeedOf, Emerged;
    var seen, cells, slot := Capture(h, sense, true), Live(c, open), l.step.name;
    var m := Downstream(seen);
    GoodHasNoZero(c);
    CaptureIsKept(h, open, com, sense);
    WindowIsContent(c, open, slot, w);
    ComposeIsLoaded(c, open, Some(slot), payload);
    ComposeIsLoaded(c, open, Some(slot), Shl(read.value, LowOf(read)));
    TapFits(cells, m);
    EmergedIsShown(cells, m, Raw(seen), com, sense, Some(slot), payload);
    var shown, expected := ShownBits(cells, m, com, sense), Loaded(cells, Some(slot), Shl(read.value, LowOf(read)));
    var mask := ReadMaskBits(|cells|, w.offset, LowOf(read), HighOf(read, l.inst.width));
    FeedAgrees(shown, expected, mask);
    MaskedCells(cells, m, w.offset, l, com, sense, read, slot);
  }

  lemma TapFits(cells: seq<LiveCell>, m: nat)
    requires EndsInSelects(cells, m)
    ensures m <= |cells|
  {
  }

  lemma MaskedCells(cells: seq<LiveCell>, m: nat, at: nat, l: LeafSite, com: Committed, sense: Sense, read: Expect,
                    slot: string)
    requires m <= |cells| && at + l.inst.width <= |cells| && HighOf(read, l.inst.width) < l.inst.width
    requires forall p :: 0 <= p < |cells| ==>
               (Of(cells[p], slot) <==> at <= p < at + l.inst.width) && (Of(cells[p], slot) ==> cells[p].k == p - at)
    ensures var low, high := LowOf(read), HighOf(read, l.inst.width);
            var mask := ReadMaskBits(|cells|, at, low, high);
            var shown, expected := ShownBits(cells, m, com, sense), Loaded(cells, Some(slot), Shl(read.value, low));
            (forall p :: 0 <= p < |mask| && mask[p] ==> shown[p] == expected[p])
            <==> FieldShown(cells, m, at, com, sense, read, l.inst.width)
  {
    hide Shl, BitOf, Holds1, ShownCell, Loads, FieldShown;
    var low, high := LowOf(read), HighOf(read, l.inst.width);
    var mask := ReadMaskBits(|cells|, at, low, high);
    var shown, expected := ShownBits(cells, m, com, sense), Loaded(cells, Some(slot), Shl(read.value, low));
    forall p | 0 <= p < |cells| && mask[p]
      ensures shown[p] == expected[p] <==> BitShown(cells, m, at, com, sense, read, p - at)
    {
      assert Of(cells[p], slot);
      MaskedCell(cells, m, at, com, sense, read, slot, p);
    }
    FieldOfMask(cells, m, at, com, sense, read, l.inst.width, shown, expected, mask);
  }

  lemma MaskedCell(cells: seq<LiveCell>, m: nat, at: nat, com: Committed, sense: Sense, read: Expect,
                   slot: string, p: nat)
    requires m <= |cells| && p < |cells| && at + LowOf(read) <= p && Of(cells[p], slot) && cells[p].k == p - at
    ensures ShownBits(cells, m, com, sense)[p] == Loaded(cells, Some(slot), Shl(read.value, LowOf(read)))[p]
            <==> BitShown(cells, m, at, com, sense, read, p - at)
  {
    ShlBit(read.value, LowOf(read), p - at);
  }

  lemma FieldOfMask(cells: seq<LiveCell>, m: nat, at: nat, com: Committed, sense: Sense, read: Expect, width: nat,
                    shown: Bits, expected: Bits, mask: Bits)
    requires m <= |cells| && at + width <= |cells| && HighOf(read, width) < width
    requires |shown| == |expected| == |cells| && mask == ReadMaskBits(|cells|, at, LowOf(read), HighOf(read, width))
    requires forall p :: 0 <= p < |cells| && mask[p] ==>
               (shown[p] == expected[p] <==> BitShown(cells, m, at, com, sense, read, p - at))
    ensures (forall p :: 0 <= p < |mask| && mask[p] ==> shown[p] == expected[p])
            <==> FieldShown(cells, m, at, com, sense, read, width)
  {
    hide BitShown;
    if forall p :: 0 <= p < |mask| && mask[p] ==> shown[p] == expected[p] {
      forall j: nat | LowOf(read) <= j <= HighOf(read, width) ensures BitShown(cells, m, at, com, sense, read, j) {
        assert mask[at + j] && at + j - at == j;
      }
    }
  }

  /** With the tap at the end of the chain the field shown is the captured one. */
  lemma UntappedField(c: Chain, open: OpenMap, l: LeafSite, com: Committed, sense: Sense, read: Expect, w: Window)
    requires Valid(c) && UniqueInsts(c) && l in Leaves(c, []) && !l.isMux && l.step.name in open
    requires TargetLayout(c, open, l.step.name, 0) == Some(w) && w.width == l.inst.width
    requires HighOf(read, l.inst.width) < l.inst.width
    ensures 0 <= w.offset && w.offset + w.width <= |Live(c, open)| && |Captured(l.inst, com, sense)| == l.inst.width
    ensures FieldShown(Live(c, open), 0, w.offset, com, sense, read, l.inst.width)
            <==> FieldMatches(Captured(l.inst, com, sense), read.value, LowOf(read), HighOf(read, l.inst.width))
  {
    hide Live, TargetLayout, Leaves, Valid, UniqueInsts, Captured, BitOf;
    WindowIsContentOf(c, open, l, w);
    CapturedWidth(l.inst, com, sense);
    var cells, captured := Live(c, open), Captured(l.inst, com, sense);
    forall j: nat | LowOf(read) <= j <= HighOf(read, l.inst.width)
      ensures BitShown(cells, 0, w.offset, com, sense, read, j) <==> captured[j] == BitOf(read.value, j - LowOf(read))
    {
      assert cells[w.offset + j] == Content(l.step.name, l.inst, j);
    }
    if FieldMatches(captured, read.value, LowOf(read), HighOf(read, l.inst.width)) {
      forall j: nat | LowOf(read) <= j <= HighOf(read, l.inst.width)
        ensures BitShown(cells, 0, w.offset, com, sense, read, j)
      {
        assert captured[j] == BitOf(read.value, j - LowOf(read));
      }
    }
  }

  lemma CapturedWidth(inst: Instrument, com: Committed, sense: Sense)
    ensures |Captured(inst, com, sense)| == inst.width
  {
  }

  /** The window holds the bits of the instrument itself, and no cell outside it does. */
  lemma WindowIsContentOf(c: Chain, open: OpenMap, l: LeafSite, w: Window)
    requires Valid(c) && UniqueInsts(c) && l in Leaves(c, []) && !l.isMux && l.step.name in open
    requires TargetLayout(c, open, l.step.name, 0) == Some(w) && w.width == l.inst.width
    ensures 0 <= w.offset && w.offset + w.width <= |Live(c, open)|
    ensures forall p :: w.offset <= p < w.offset + w.width ==>
              Live(c, open)[p] == Content(l.step.name, l.inst, p - w.offset)
    ensures forall p :: 0 <= p < |Live(c, open)| && !(w.offset <= p < w.offset + w.width) ==>
              Live(c, open)[p].Select? || Live(c, open)[p].inst != l.inst
  {
    hide Live, TargetLayout, Leaves, Valid, UniqueInsts;
    ValidParts(c);
    WindowIsContent(c, open, l.step.name, w);
    var cells := Live(c, open);
    forall p | 0 <= p < |cells| && cells[p].Content?
      ensures cells[p].slot == l.step.name <==> cells[p].inst == l.inst
    {
      var k := ContentIsLeaf(c, [], open, p);
      SameSlotSameLeaf(c, k, l);
    }
    forall p | w.offset <= p < w.offset + w.width ensures cells[p] == Content(l.step.name, l.inst, p - w.offset) {
      assert Of(cells[p], l.step.name);
    }
    forall p | 0 <= p < |cells| && !(w.offset <= p < w.offset + w.width)
      ensures cells[p].Select? || cells[p].inst != l.inst
    {
      assert !Of(cells[p], l.step.name);
    }
  }

  lemma ValidParts(c: Chain)
    requires Valid(c)
    ensures UniqueSlots(c) && Structured(c)
  {
  }

  /** A SIB gates one instrument, and an instrument has one slot. */
  lemma SameSlotSameLeaf(c: Chain, k: LeafSite, l: LeafSite)
    requires Valid(c) && UniqueInsts(c) && k in Leaves(c, []) && l in Leaves(c, []) && !l.isMux
    ensures k.step.name == l.step.name <==> k.inst == l.inst
  {
    if k.inst == l.inst {
      SameInstSameLeaf(c, k, l);
    }
    if k.step.name == l.step.name {
      var s := LeafSlot(c, [], k);
      var t := LeafSlot(c, [], l);
      SiteKind(c, s, t);
      SameLeaf(c, [], k, l);
    }
  }
}
