/** Three copies of a network in lockstep (tap_integrity.py): two models whose live instruments
    capture all 0s and all 1s, and a third whose live instruments capture anything. Wherever the
    two models agree, the third agrees with them, as long as the models keep equal selects. */
module CareBits {
  import opened Bits
  import opened IclModel
  import opened SibCells
  import opened SibShift

  /** Where the two models agree, so does the third network. */
  predicate Between(low: bool, high: bool, third: bool) { low == high ==> third == low }

  ghost predicate AllBetween(low: Bits, high: Bits, third: Bits) {
    |low| == |high| == |third| && forall k :: 0 <= k < |low| ==> Between(low[k], high[k], third[k])
  }

  /** What an instrument's captured value may be, given what the two models capture. */
  ghost predicate SenseBetween(low: Sense, high: Sense, third: Sense) {
    forall inst: Instrument, k: nat :: k < inst.width ==>
      Between(BitOf(low(inst), k), BitOf(high(inst), k), BitOf(third(inst), k))
  }

  /** The lockstep invariant: equal selects, and every other cell between the two models'. */
  ghost predicate Among(low: Cells, high: Cells, third: Cells) {
    match low
    case CEnd => high.CEnd? && third.CEnd?
    case CSib(name, ff, po, gate, rest) =>
      && high.CSib? && third.CSib? && high.name == name == third.name && high.po == po == third.po
      && Between(ff, high.ff, third.ff)
      && AmongGate(gate, high.gate, third.gate) && Among(rest, high.rest, third.rest)
    case CMux(name, width, mff, mpo, arms, rest) =>
      && high.CMux? && third.CMux? && high.name == name == third.name && high.width == width == third.width
      && high.mpo == mpo == third.mpo && AllBetween(mff, high.mff, third.mff)
      && AmongArms(arms, high.arms, third.arms) && Among(rest, high.rest, third.rest)
  }

  ghost predicate AmongGate(low: GateCells, high: GateCells, third: GateCells) {
    match low
    case CLeaf(inst, sh, latch) =>
      && high.CLeaf? && third.CLeaf? && high.inst == inst == third.inst
      && AllBetween(sh, high.sh, third.sh) && AllBetween(latch, high.latch, third.latch)
    case CNet(chain) => high.CNet? && third.CNet? && Among(chain, high.chain, third.chain)
  }

  ghost predicate AmongArms(low: ArmCells, high: ArmCells, third: ArmCells) {
    match low
    case CNoArms => high.CNoArms? && third.CNoArms?
    case CArm(value, gate, others) =>
      && high.CArm? && third.CArm? && high.value == value == third.value
      && AmongGate(gate, high.gate, third.gate) && AmongArms(others, high.others, third.others)
  }

  /** Two states of one topology with the same selects. */
  ghost predicate SameSelects(a: Cells, b: Cells) {
    match a
    case CEnd => b.CEnd?
    case CSib(_, _, po, gate, rest) =>
      b.CSib? && b.po == po && SameGateSelects(gate, b.gate) && SameSelects(rest, b.rest)
    case CMux(_, _, _, mpo, arms, rest) =>
      b.CMux? && b.mpo == mpo && SameArmSelects(arms, b.arms) && SameSelects(rest, b.rest)
  }

  ghost predicate SameGateSelects(a: GateCells, b: GateCells) {
    match a
    case CLeaf(_, _, _) => b.CLeaf?
    case CNet(chain) => b.CNet? && SameSelects(chain, b.chain)
  }

  ghost predicate SameArmSelects(a: ArmCells, b: ArmCells) {
    match a
    case CNoArms => b.CNoArms?
    case CArm(_, gate, others) =>
      b.CArm? && SameGateSelects(gate, b.gate) && SameArmSelects(others, b.others)
  }

  // ---------------------------------------------------------------- reset and capture

  lemma {:induction false} FreshAmong(c: Chain)
    ensures Among(Fresh(c), Fresh(c), Fresh(c))
  {
    match c
    case End =>
    case Sib(_, gate, rest) =>
      FreshGateAmong(gate);
      FreshAmong(rest);
    case Mux(_, _, arms, rest) =>
      FreshArmsAmong(arms);
      FreshAmong(rest);
  }

  lemma {:induction false} FreshGateAmong(g: Gate)
    ensures AmongGate(FreshGate(g), FreshGate(g), FreshGate(g))
  {
    if g.Net? {
      FreshAmong(g.chain);
    }
  }

  lemma {:induction false} FreshArmsAmong(a: Arms)
    ensures AmongArms(FreshArms(a), FreshArms(a), FreshArms(a))
  {
    if a.Arm? {
      FreshGateAmong(a.gate);
      FreshArmsAmong(a.others);
    }
  }

  lemma {:induction false} CaptureAmong(
    low: Cells, high: Cells, third: Cells, sl: Sense, sh: Sense, st: Sense, live: bool)
    requires Among(low, high, third) && SenseBetween(sl, sh, st)
    ensures Among(Capture(low, sl, live), Capture(high, sh, live), Capture(third, st, live))
  {
    hide SenseBetween, FromInt;
    match low
    case CEnd =>
    case CSib(_, _, po, gate, rest) =>
      CaptureGateAmong(gate, high.gate, third.gate, sl, sh, st, po);
      CaptureAmong(rest, high.rest, third.rest, sl, sh, st, live);
    case CMux(_, _, _, mpo, arms, rest) =>
      CaptureArmsAmong(arms, high.arms, third.arms, sl, sh, st, live, Value(mpo));
      CaptureAmong(rest, high.rest, third.rest, sl, sh, st, live);
  }

  lemma SensedBetween(inst: Instrument, sl: Sense, sh: Sense, st: Sense)
    requires SenseBetween(sl, sh, st)
    ensures AllBetween(FromInt(sl(inst), inst.width), FromInt(sh(inst), inst.width), FromInt(st(inst), inst.width))
  {
    forall k | 0 <= k < inst.width
      ensures Between(FromInt(sl(inst), inst.width)[k], FromInt(sh(inst), inst.width)[k], FromInt(st(inst), inst.width)[k])
    {
      FromIntBit(sl(inst), inst.width, k);
      FromIntBit(sh(inst), inst.width, k);
      FromIntBit(st(inst), inst.width, k);
    }
  }

  lemma {:induction false} CaptureGateAmong(
    low: GateCells, high: GateCells, third: GateCells, sl: Sense, sh: Sense, st: Sense, live: bool)
    requires AmongGate(low, high, third) && SenseBetween(sl, sh, st)
    ensures AmongGate(CaptureGate(low, sl, live), CaptureGate(high, sh, live), CaptureGate(third, st, live))
  {
    match low
    case CLeaf(inst, _, _) => SensedBetween(inst, sl, sh, st);
    case CNet(chain) => CaptureAmong(chain, high.chain, third.chain, sl, sh, st, live);
  }

  lemma {:induction false} CaptureArmsAmong(
    low: ArmCells, high: ArmCells, third: ArmCells, sl: Sense, sh: Sense, st: Sense, live: bool, value: int)
    requires AmongArms(low, high, third) && SenseBetween(sl, sh, st)
    ensures AmongArms(CaptureArms(low, sl, live, value), CaptureArms(high, sh, live, value),
                      CaptureArms(third, st, live, value))
  {
    if low.CArm? {
      CaptureGateAmong(low.gate, high.gate, third.gate, sl, sh, st, live && value == low.value);
      CaptureArmsAmong(low.others, high.others, third.others, sl, sh, st, live, value);
    }
  }

  lemma {:induction false} UnselectedAmong(
    low: Cells, high: Cells, third: Cells, sl: Sense, sh: Sense, st: Sense)
    requires Among(low, high, third) && SenseBetween(sl, sh, st)
    ensures Among(CaptureUnselected(low, sl), CaptureUnselected(high, sh), CaptureUnselected(third, st))
  {
    match low
    case CEnd =>
    case CSib(_, _, _, gate, rest) =>
      UnselectedGateAmong(gate, high.gate, third.gate, sl, sh, st);
      UnselectedAmong(rest, high.rest, third.rest, sl, sh, st);
    case CMux(_, _, _, _, arms, rest) =>
      UnselectedArmsAmong(arms, high.arms, third.arms, sl, sh, st);
      UnselectedAmong(rest, high.rest, third.rest, sl, sh, st);
  }

  lemma {:induction false} UnselectedGateAmong(
    low: GateCells, high: GateCells, third: GateCells, sl: Sense, sh: Sense, st: Sense)
    requires AmongGate(low, high, third) && SenseBetween(sl, sh, st)
    ensures AmongGate(CaptureGateUnselected(low, sl), CaptureGateUnselected(high, sh), CaptureGateUnselected(third, st))
  {
    match low
    case CLeaf(inst, _, _) => SensedBetween(inst, sl, sh, st);
    case CNet(chain) => UnselectedAmong(chain, high.chain, third.chain, sl, sh, st);
  }

  lemma {:induction false} UnselectedArmsAmong(
    low: ArmCells, high: ArmCells, third: ArmCells, sl: Sense, sh: Sense, st: Sense)
    requires AmongArms(low, high, third) && SenseBetween(sl, sh, st)
    ensures AmongArms(CaptureArmsUnselected(low, sl), CaptureArmsUnselected(high, sh), CaptureArmsUnselected(third, st))
  {
    if low.CArm? {
      UnselectedGateAmong(low.gate, high.gate, third.gate, sl, sh, st);
      UnselectedArmsAmong(low.others, high.others, third.others, sl, sh, st);
    }
  }

  // ---------------------------------------------------------------- shift

  lemma {:induction false} RawAmong(low: Cells, high: Cells, third: Cells)
    requires Among(low, high, third)
    ensures |Raw(low)| == |Raw(high)| == |Raw(third)|
  {
    match low
    case CEnd =>
    case CSib(_, _, _, gate, rest) =>
      RawGateAmong(gate, high.gate, third.gate);
      RawAmong(rest, high.rest, third.rest);
    case CMux(_, _, _, mpo, arms, rest) =>
      RawArmsAmong(arms, high.arms, third.arms, Value(mpo));
      RawAmong(rest, high.rest, third.rest);
  }

  lemma {:induction false} RawGateAmong(low: GateCells, high: GateCells, third: GateCells)
    requires AmongGate(low, high, third)
    ensures |RawGate(low)| == |RawGate(high)| == |RawGate(third)|
  {
    if low.CNet? {
      RawAmong(low.chain, high.chain, third.chain);
    }
  }

  lemma {:induction false} RawArmsAmong(low: ArmCells, high: ArmCells, third: ArmCells, value: int)
    requires AmongArms(low, high, third)
    ensures |RawArms(low, value)| == |RawArms(high, value)| == |RawArms(third, value)|
  {
    if low.CArm? {
      RawGateAmong(low.gate, high.gate, third.gate);
      RawArmsAmong(low.others, high.others, third.others, value);
    }
  }

  lemma {:induction false} SoAmong(low: Cells, high: Cells, third: Cells, fl: bool, fh: bool, ft: bool)
    requires Among(low, high, third) && Between(fl, fh, ft)
    ensures Between(LiveSo(low, fl), LiveSo(high, fh), LiveSo(third, ft))
  {
    match low
    case CEnd =>
    case CSib(_, ff, _, _, rest) => SoAmong(rest, high.rest, third.rest, ff, high.ff, third.ff);
    case CMux(_, _, mff, mpo, arms, rest) =>
      var l := mff != [] && mff[|mff| - 1];
      var h := high.mff != [] && high.mff[|high.mff| - 1];
      var t := third.mff != [] && third.mff[|third.mff| - 1];
      ArmSoAmong(arms, high.arms, third.arms, Value(mpo), l, h, t);
      SoAmong(rest, high.rest, third.rest, ArmSo(arms, Value(mpo), l), ArmSo(high.arms, Value(mpo), h),
              ArmSo(third.arms, Value(mpo), t));
  }

  lemma {:induction false} ArmSoAmong(
    low: ArmCells, high: ArmCells, third: ArmCells, value: int, l: bool, h: bool, t: bool)
    requires AmongArms(low, high, third) && Between(l, h, t)
    ensures Between(ArmSo(low, value, l), ArmSo(high, value, h), ArmSo(third, value, t))
  {
    if low.CArm? {
      GateSoAmong(low.gate, high.gate, third.gate);
      ArmSoAmong(low.others, high.others, third.others, value, l, h, t);
    }
  }

  lemma {:induction false} GateSoAmong(low: GateCells, high: GateCells, third: GateCells)
    requires AmongGate(low, high, third)
    ensures Between(GateSo(low), GateSo(high), GateSo(third))
  {
    match low
    case CLeaf(_, sh, _) =>
      if sh != [] {
        assert Between(sh[|sh| - 1], high.sh[|sh| - 1], third.sh[|sh| - 1]);
      }
    case CNet(chain) => SoAmong(chain, high.chain, third.chain, false, false, false);
  }

  lemma SliceBetween(a: Bits, b: Bits, c: Bits, i: nat, j: nat)
    requires AllBetween(a, b, c) && i <= j <= |a|
    ensures AllBetween(a[i..j], b[i..j], c[i..j])
    ensures i == 0 ==> AllBetween(a[..j], b[..j], c[..j])
    ensures j == |a| ==> AllBetween(a[i..], b[i..], c[i..])
  {
  }

  lemma JoinBetween(a: Bits, b: Bits, c: Bits, x: Bits, y: Bits, z: Bits)
    requires AllBetween(a, b, c) && AllBetween(x, y, z)
    ensures AllBetween(a + x, b + y, c + z)
  {
  }

  lemma {:induction false} SeenAmong(low: Cells, high: Cells, third: Cells)
    requires Among(low, high, third)
    ensures AllBetween(Seen(low), Seen(high), Seen(third))
    decreases low, 1
  {
    match low
    case CEnd =>
    case CSib(_, ff, po, gate, rest) =>
      SeenGateAmong(gate, high.gate, third.gate);
      SeenAmong(rest, high.rest, third.rest);
      var l := (if po then SeenGate(gate) else []) + [ff];
      var h := (if po then SeenGate(high.gate) else []) + [high.ff];
      var t := (if po then SeenGate(third.gate) else []) + [third.ff];
      JoinBetween(l, h, t, Seen(rest), Seen(high.rest), Seen(third.rest));
    case CMux(_, _, _, _, _, _) => SeenMuxAmong(low, high, third);
  }

  /** What a ScanMux's own select field reads as. */
  function FieldSeen(h: Cells): Bits
    requires h.CMux?
  {
    if h.mff == [] then []
    else h.mff[..|h.mff| - 1] + [ArmSo(h.arms, Value(h.mpo), h.mff[|h.mff| - 1])]
  }

  lemma {:induction false} SeenMuxAmong(low: Cells, high: Cells, third: Cells)
    requires low.CMux? && Among(low, high, third)
    ensures AllBetween(Seen(low), Seen(high), Seen(third))
    decreases low, 0
  {
    hide ArmSo, SeenArms, AmongArms, Value;
    var value := Value(low.mpo);
    SeenArmsAmong(low.arms, high.arms, third.arms, value);
    SeenAmong(low.rest, high.rest, third.rest);
    var n := |low.mff|;
    if n > 0 {
      ArmSoAmong(low.arms, high.arms, third.arms, value, low.mff[n - 1], high.mff[n - 1], third.mff[n - 1]);
    }
    var l, h, t := FieldSeen(low), FieldSeen(high), FieldSeen(third);
    assert AllBetween(l, h, t);
    JoinBetween(SeenArms(low.arms, value), SeenArms(high.arms, value), SeenArms(third.arms, value), l, h, t);
    JoinBetween(SeenArms(low.arms, value) + l, SeenArms(high.arms, value) + h, SeenArms(third.arms, value) + t,
                Seen(low.rest), Seen(high.rest), Seen(third.rest));
  }

  lemma {:induction false} SeenGateAmong(low: GateCells, high: GateCells, third: GateCells)
    requires AmongGate(low, high, third)
    ensures AllBetween(SeenGate(low), SeenGate(high), SeenGate(third))
    decreases low, 1
  {
    if low.CNet? {
      SeenAmong(low.chain, high.chain, third.chain);
    }
  }

  lemma {:induction false} SeenArmsAmong(low: ArmCells, high: ArmCells, third: ArmCells, value: int)
    requires AmongArms(low, high, third)
    ensures AllBetween(SeenArms(low, value), SeenArms(high, value), SeenArms(third, value))
    decreases low, 1
  {
    if low.CArm? {
      SeenGateAmong(low.gate, high.gate, third.gate);
      SeenArmsAmong(low.others, high.others, third.others, value);
    }
  }

  lemma {:induction false} LoadAmong(low: Cells, high: Cells, third: Cells, bl: Bits, bh: Bits, bt: Bits)
    requires Among(low, high, third) && AllBetween(bl, bh, bt)
    requires |bl| == |Raw(low)| && |bh| == |Raw(high)| && |bt| == |Raw(third)|
    ensures Among(Load(low, bl), Load(high, bh), Load(third, bt))
    decreases low, 1
  {
    match low
    case CEnd =>
    case CSib(_, _, _, _, _) => LoadSibAmong(low, high, third, bl, bh, bt);
    case CMux(_, _, _, _, _, _) => LoadMuxAmong(low, high, third, bl, bh, bt);
  }

  lemma {:induction false} LoadSibAmong(low: Cells, high: Cells, third: Cells, bl: Bits, bh: Bits, bt: Bits)
    requires low.CSib? && Among(low, high, third) && AllBetween(bl, bh, bt)
    requires |bl| == |Raw(low)| && |bh| == |Raw(high)| && |bt| == |Raw(third)|
    ensures Among(Load(low, bl), Load(high, bh), Load(third, bt))
    decreases low, 0
  {
    hide LoadGate, RawGate, AmongGate;
    RawGateAmong(low.gate, high.gate, third.gate);
    var n := if low.po then |RawGate(low.gate)| else 0;
    if low.po {
      LoadGateAmong(low.gate, high.gate, third.gate, bl[..n], bh[..n], bt[..n]);
    }
    RawAmong(low.rest, high.rest, third.rest);
    LoadAmong(low.rest, high.rest, third.rest, bl[n + 1..], bh[n + 1..], bt[n + 1..]);
  }

  lemma {:induction false} LoadMuxAmong(low: Cells, high: Cells, third: Cells, bl: Bits, bh: Bits, bt: Bits)
    requires low.CMux? && Among(low, high, third) && AllBetween(bl, bh, bt)
    requires |bl| == |Raw(low)| && |bh| == |Raw(high)| && |bt| == |Raw(third)|
    ensures Among(Load(low, bl), Load(high, bh), Load(third, bt))
    decreases low, 0
  {
    hide LoadArms, RawArms, AmongArms, Value, Between, Load, Raw;
    var value := Value(low.mpo);
    RawArmsAmong(low.arms, high.arms, third.arms, value);
    LoadedMux(low, bl);
    LoadedMux(high, bh);
    LoadedMux(third, bt);
    var n, m := |RawArms(low.arms, value)|, |RawArms(low.arms, value)| + |low.mff|;
    SliceBetween(bl, bh, bt, 0, n);
    SliceBetween(bl, bh, bt, n, m);
    SliceBetween(bl, bh, bt, m, |bl|);
    LoadArmsAmong(low.arms, high.arms, third.arms, value, bl[..n], bh[..n], bt[..n]);
    LoadAmong(low.rest, high.rest, third.rest, bl[m..], bh[m..], bt[m..]);
  }

  lemma {:induction false} LoadGateAmong(
    low: GateCells, high: GateCells, third: GateCells, bl: Bits, bh: Bits, bt: Bits)
    requires AmongGate(low, high, third) && AllBetween(bl, bh, bt)
    requires |bl| == |RawGate(low)| && |bh| == |RawGate(high)| && |bt| == |RawGate(third)|
    ensures AmongGate(LoadGate(low, bl), LoadGate(high, bh), LoadGate(third, bt))
    decreases low, 1
  {
    if low.CNet? {
      LoadAmong(low.chain, high.chain, third.chain, bl, bh, bt);
    }
  }

  lemma {:induction false} LoadArmsAmong(
    low: ArmCells, high: ArmCells, third: ArmCells, value: int, bl: Bits, bh: Bits, bt: Bits)
    requires AmongArms(low, high, third) && AllBetween(bl, bh, bt)
    requires |bl| == |RawArms(low, value)| && |bh| == |RawArms(high, value)| && |bt| == |RawArms(third, value)|
    ensures AmongArms(LoadArms(low, value, bl), LoadArms(high, value, bh), LoadArms(third, value, bt))
    decreases low, 1
  {
    if low.CArm? {
      if low.value == value {
        LoadGateAmong(low.gate, high.gate, third.gate, bl, bh, bt);
      } else {
        LoadArmsAmong(low.others, high.others, third.others, value, bl, bh, bt);
      }
    }
  }

  /** One Shift-DR cycle keeps the lockstep, and where the models show the same TDO so does the third. */
  lemma ShiftAmong(low: Cells, high: Cells, third: Cells, tdi: bool)
    requires Among(low, high, third)
    ensures Among(Shift(low, tdi).0, Shift(high, tdi).0, Shift(third, tdi).0)
    ensures Between(Shift(low, tdi).1, Shift(high, tdi).1, Shift(third, tdi).1)
  {
    hide Among, Seen, Raw, Load;
    SeenAmong(low, high, third);
    RawAmong(low, high, third);
    SeenLength(low);
    SeenLength(high);
    SeenLength(third);
    var n := |Seen(low)|;
    if n > 0 {
      var bl, bh, bt := [tdi] + Seen(low)[..n - 1], [tdi] + Seen(high)[..n - 1], [tdi] + Seen(third)[..n - 1];
      assert AllBetween(bl, bh, bt);
      LoadAmong(low, high, third, bl, bh, bt);
    }
  }

  // ---------------------------------------------------------------- update

  /** Update-DR keeps the lockstep when it leaves the two models with equal selects. */
  lemma {:induction false} UpdateAmong(low: Cells, high: Cells, third: Cells, live: bool)
    requires Among(low, high, third) && SameSelects(Update(low, live), Update(high, live))
    ensures Among(Update(low, live), Update(high, live), Update(third, live))
    decreases low, 1
  {
    match low
    case CEnd =>
    case CSib(_, ff, po, gate, rest) =>
      UpdateGateAmong(gate, high.gate, third.gate, live && po, live && po && ff);
      UpdateAmong(rest, high.rest, third.rest, live);
    case CMux(_, _, mff, mpo, arms, rest) => UpdateMuxAmong(low, high, third, live);
  }

  lemma SameField(low: Bits, high: Bits, third: Bits)
    requires AllBetween(low, high, third) && low == high
    ensures third == low
  {
  }

  lemma {:induction false} UpdateMuxAmong(low: Cells, high: Cells, third: Cells, live: bool)
    requires low.CMux? && Among(low, high, third) && SameSelects(Update(low, live), Update(high, live))
    ensures Among(Update(low, live), Update(high, live), Update(third, live))
    decreases low, 0
  {
    hide AmongArms, UpdateArms, SameArmSelects, Value;
    var before := Value(low.mpo);
    if live {
      SameField(low.mff, high.mff, third.mff);
      UpdateArmsAmong(low.arms, high.arms, third.arms, live, before, Value(low.mff), Value(high.mff), Value(third.mff));
    } else {
      UpdateArmsAmong(low.arms, high.arms, third.arms, live, before, Value(low.mff), Value(high.mff), Value(third.mff));
    }
    UpdateAmong(low.rest, high.rest, third.rest, live);
  }

  lemma {:induction false} UpdateGateAmong(low: GateCells, high: GateCells, third: GateCells, live: bool, stays: bool)
    requires AmongGate(low, high, third)
    requires SameGateSelects(UpdateGate(low, live, stays), UpdateGate(high, live, stays))
    ensures AmongGate(UpdateGate(low, live, stays), UpdateGate(high, live, stays), UpdateGate(third, live, stays))
    decreases low, 1
  {
    if low.CNet? {
      UpdateAmong(low.chain, high.chain, third.chain, live);
    }
  }

  lemma {:induction false} UpdateArmsAmong(
    low: ArmCells, high: ArmCells, third: ArmCells, live: bool, before: int, al: int, ah: int, at: int)
    requires AmongArms(low, high, third) && (live ==> al == ah == at)
    requires SameArmSelects(UpdateArms(low, live, before, al), UpdateArms(high, live, before, ah))
    ensures AmongArms(UpdateArms(low, live, before, al), UpdateArms(high, live, before, ah),
                      UpdateArms(third, live, before, at))
    decreases low, 1
  {
    if low.CArm? {
      var was := live && before == low.value;
      UpdateGateAmong(low.gate, high.gate, third.gate, was, was && al == low.value);
      UpdateArmsAmong(low.others, high.others, third.others, live, before, al, ah, at);
    }
  }

  // ---------------------------------------------------------------- equal live cells

  lemma {:induction false} AmongSelects(low: Cells, high: Cells, third: Cells)
    requires Among(low, high, third)
    ensures SameSelects(low, high)
  {
    match low
    case CEnd =>
    case CSib(_, _, _, gate, rest) =>
      AmongGateSelects(gate, high.gate, third.gate);
      AmongSelects(rest, high.rest, third.rest);
    case CMux(_, _, _, _, arms, rest) =>
      AmongArmSelects(arms, high.arms, third.arms);
      AmongSelects(rest, high.rest, third.rest);
  }

  lemma {:induction false} AmongGateSelects(low: GateCells, high: GateCells, third: GateCells)
    requires AmongGate(low, high, third)
    ensures SameGateSelects(low, high)
  {
    if low.CNet? {
      AmongSelects(low.chain, high.chain, third.chain);
    }
  }

  lemma {:induction false} AmongArmSelects(low: ArmCells, high: ArmCells, third: ArmCells)
    requires AmongArms(low, high, third)
    ensures SameArmSelects(low, high)
  {
    if low.CArm? {
      AmongGateSelects(low.gate, high.gate, third.gate);
      AmongArmSelects(low.others, high.others, third.others);
    }
  }

  /** When the two models' live cells hold the same bits, an update leaves their selects equal. */
  lemma {:induction false} UpdateSelects(low: Cells, high: Cells, third: Cells, live: bool)
    requires Among(low, high, third) && Structured(Topo(low)) && (live ==> Raw(low) == Raw(high))
    ensures SameSelects(Update(low, live), Update(high, live))
    decreases low, 1
  {
    match low
    case CEnd =>
    case CSib(_, _, _, _, _) => UpdateSibSelects(low, high, third, live);
    case CMux(_, _, _, _, _, _) => UpdateMuxSelects(low, high, third, live);
  }

  lemma SplitThree(a: Bits, b: Bits, c: Bits, x: Bits, y: Bits, z: Bits)
    requires |a| == |x| && |b| == |y| && a + b + c == x + y + z
    ensures a == x && b == y && c == z
  {
    var s, n, m := a + b + c, |a|, |a| + |b|;
    assert a == s[..n] && x == s[..n] && b == s[n..m] && y == s[n..m] && c == s[m..] && z == s[m..];
  }

  lemma {:induction false} UpdateSibSelects(low: Cells, high: Cells, third: Cells, live: bool)
    requires low.CSib? && Among(low, high, third) && Structured(Topo(low)) && (live ==> Raw(low) == Raw(high))
    ensures SameSelects(Update(low, live), Update(high, live))
    decreases low, 0
  {
    hide AmongGate, RawGate, UpdateGate, SameGateSelects;
    RawGateAmong(low.gate, high.gate, third.gate);
    var inner := if low.po then RawGate(low.gate) else [];
    var inner' := if low.po then RawGate(high.gate) else [];
    if live {
      SplitThree(inner, [low.ff], Raw(low.rest), inner', [high.ff], Raw(high.rest));
      assert low.ff == [low.ff][0] == [high.ff][0] == high.ff;
    }
    UpdateGateSelects(low.gate, high.gate, third.gate, live && low.po, live && low.po && low.ff,
                      live && low.po && high.ff);
    UpdateSelects(low.rest, high.rest, third.rest, live);
  }

  lemma {:induction false} UpdateMuxSelects(low: Cells, high: Cells, third: Cells, live: bool)
    requires low.CMux? && Among(low, high, third) && Structured(Topo(low)) && (live ==> Raw(low) == Raw(high))
    ensures SameSelects(Update(low, live), Update(high, live))
    decreases low, 0
  {
    hide AmongArms, RawArms, UpdateArms, SameArmSelects, Value;
    var value := Value(low.mpo);
    RawArmsAmong(low.arms, high.arms, third.arms, value);
    if live {
      SplitThree(RawArms(low.arms, value), low.mff, Raw(low.rest), RawArms(high.arms, value), high.mff, Raw(high.rest));
    }
    UpdateArmSelects(low.arms, high.arms, third.arms, live, value, Value(low.mff), Value(high.mff),
                     Pow2(low.width));
    UpdateSelects(low.rest, high.rest, third.rest, live);
  }

  lemma {:induction false} UpdateGateSelects(
    low: GateCells, high: GateCells, third: GateCells, live: bool, sl: bool, sh: bool)
    requires AmongGate(low, high, third) && StructuredGate(GateTopo(low)) && (live ==> RawGate(low) == RawGate(high))
    ensures SameGateSelects(UpdateGate(low, live, sl), UpdateGate(high, live, sh))
    decreases low, 1
  {
    if low.CNet? {
      UpdateSelects(low.chain, high.chain, third.chain, live);
    }
  }

  /** At most one arm is live: no two claim the same value. */
  lemma {:induction false} UpdateArmSelects(
    low: ArmCells, high: ArmCells, third: ArmCells, live: bool, before: int, al: int, ah: int, limit: nat)
    requires AmongArms(low, high, third) && StructuredArms(ArmTopo(low), limit) && DistinctValues(ArmTopo(low))
    requires live ==> RawArms(low, before) == RawArms(high, before)
    ensures SameArmSelects(UpdateArms(low, live, before, al), UpdateArms(high, live, before, ah))
    decreases low, 1
  {
    if low.CArm? {
      var was := live && before == low.value;
      UpdateGateSelects(low.gate, high.gate, third.gate, was, was && al == low.value, was && ah == low.value);
      if low.value == before {
        UnclaimedArms(low.others, before);
        UnclaimedArms(high.others, before);
        SameTopo(low.others, high.others, third.others);
      }
      UpdateArmSelects(low.others, high.others, third.others, live, before, al, ah, limit);
    }
  }

  lemma {:induction false} UnclaimedArms(a: ArmCells, value: int)
    ensures value < 0 || value !in ArmValues(ArmTopo(a)) ==> RawArms(a, value) == []
  {
    if a.CArm? {
      UnclaimedArms(a.others, value);
    }
  }

  lemma {:induction false} SameTopo(low: ArmCells, high: ArmCells, third: ArmCells)
    requires AmongArms(low, high, third)
    ensures ArmValues(ArmTopo(low)) == ArmValues(ArmTopo(high))
  {
    if low.CArm? {
      SameTopo(low.others, high.others, third.others);
    }
  }
}
