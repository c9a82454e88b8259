/** One Capture-Shift-Update round against the static layout: what the hardware state is after a
    scan composed by SibLayout.Compose, for any topology in which no ScanMux arm claims 0. */
module SibRound {
  import opened Bits
  import opened Wrappers
  import opened IclModel
  import opened SibLayout
  import opened SibCells
  import opened SibShift

  /** Values last written to each WRITE instrument; an absent one reads 0. */
  type Committed = map<string, int>

  function Held(com: Committed, inst: Instrument): Bits {
    FromInt(if inst.name in com then com[inst.name] else 0, inst.width)
  }

  // ---------------------------------------------------------------- state predicates

  /** Every slot at every depth is open, or holds the select value, exactly as `open` says. */
  ghost predicate Agrees(h: Cells, open: OpenMap) {
    match h
    case CEnd => true
    case CSib(name, _, po, gate, rest) =>
      po == (name in open) && AgreesGate(gate, open) && Agrees(rest, open)
    case CMux(name, _, _, mpo, arms, rest) =>
      Value(mpo) == FieldOf(open, name) && AgreesArms(arms, open) && Agrees(rest, open)
  }

  ghost predicate AgreesGate(g: GateCells, open: OpenMap) {
    g.CLeaf? || Agrees(g.chain, open)
  }

  ghost predicate AgreesArms(a: ArmCells, open: OpenMap) {
    match a
    case CNoArms => true
    case CArm(_, gate, others) => AgreesGate(gate, open) && AgreesArms(others, open)
  }

  /** Every WRITE instrument's update latch holds its committed value, at every depth. */
  ghost predicate Latched(h: Cells, com: Committed) {
    match h
    case CEnd => true
    case CSib(_, _, _, gate, rest) => LatchedGate(gate, com) && Latched(rest, com)
    case CMux(_, _, _, _, arms, rest) => LatchedArms(arms, com) && Latched(rest, com)
  }

  ghost predicate LatchedGate(g: GateCells, com: Committed) {
    match g
    case CLeaf(inst, _, latch) => inst.direction.WRITE? ==> latch == Held(com, inst)
    case CNet(chain) => Latched(chain, com)
  }

  ghost predicate LatchedArms(a: ArmCells, com: Committed) {
    match a
    case CNoArms => true
    case CArm(_, gate, others) => LatchedGate(gate, com) && LatchedArms(others, com)
  }

  // ---------------------------------------------------------------- topology predicates

  /** No ScanMux arm claims value 0, the value a bypassed select field holds. */
  ghost predicate NoZeroArm(c: Chain) {
    match c
    case End => true
    case Sib(_, gate, rest) => NoZeroGate(gate) && NoZeroArm(rest)
    case Mux(_, _, arms, rest) => NoZeroArms(arms) && NoZeroArm(rest)
  }

  ghost predicate NoZeroGate(g: Gate) {
    g.Leaf? || NoZeroArm(g.chain)
  }

  ghost predicate NoZeroArms(a: Arms) {
    match a
    case NoArms => true
    case Arm(value, gate, others) => value != 0 && NoZeroGate(gate) && NoZeroArms(others)
  }

  lemma {:induction false} GoodHasNoZero(c: Chain)
    requires GoodShape(c)
    ensures NoZeroArm(c)
  {
    match c
    case End =>
    case Sib(_, gate, rest) =>
      GoodGateHasNoZero(gate);
      GoodHasNoZero(rest);
    case Mux(_, _, arms, rest) =>
      GoodArmsHaveNoZero(arms);
  }

  lemma {:induction false} GoodGateHasNoZero(g: Gate)
    requires SibOnlyGate(g)
    ensures NoZeroGate(g)
  {
    if g.Net? {
      SibOnlyIsGood(g.chain);
      GoodHasNoZero(g.chain);
    }
  }

  lemma {:induction false} GoodArmsHaveNoZero(a: Arms)
    requires GoodArms(a)
    ensures NoZeroArms(a)
  {
    if a.Arm? {
      GoodGateHasNoZero(a.gate);
      GoodArmsHaveNoZero(a.others);
    }
  }

  /** One Capture-Shift-Update round: what is open before and after it, the content it carries to
      `target`, and what the WRITE instruments hold before and after it. */
  datatype Round = Round(
    now: OpenMap, after: OpenMap, target: Option<string>, payload: int, com: Committed, held: Committed)

  /** The bits the round loads. */
  function Scan(c: Chain, r: Round): Bits {
    Compose(c, r.now, r.after, r.target, r.payload)
  }

  function GateScan(g: Gate, r: Round, isTarget: bool): Bits {
    GateBits(g, r.now, r.after, r.target, r.payload, isTarget)
  }

  function ArmScan(a: Arms, value: int, r: Round, isTarget: bool): Bits {
    ArmBits(a, value, r.now, r.after, r.target, r.payload, isTarget)
  }

  /** The round asks only for what one Update-DR can do: nothing is or gets opened below a slot
      whose gate is not open now. `live` says whether this chain's own gate is. */
  ghost predicate Steppable(c: Chain, r: Round, live: bool) {
    match c
    case End => true
    case Sib(name, gate, rest) =>
      && (live || (name !in r.now && name !in r.after))
      && SteppableGate(gate, r, name in r.now)
      && Steppable(rest, r, live)
    case Mux(name, selectWidth, arms, rest) =>
      && (live || (name !in r.now && name !in r.after))
      && 0 <= FieldOf(r.after, name) < Pow2(selectWidth)
      && SteppableArms(arms, r, FieldOf(r.now, name))
      && Steppable(rest, r, live)
  }

  ghost predicate SteppableGate(g: Gate, r: Round, live: bool) {
    g.Leaf? || Steppable(g.chain, r, live)
  }

  ghost predicate SteppableArms(a: Arms, r: Round, value: int) {
    match a
    case NoArms => true
    case Arm(v, gate, others) => SteppableGate(gate, r, v == value) && SteppableArms(others, r, value)
  }

  /** `r.held` is what the WRITE instruments hold after the round: a gate open on both sides of the
      edge commits what the round loaded, every other one keeps its value. */
  ghost predicate Commits(c: Chain, r: Round) {
    match c
    case End => true
    case Sib(name, gate, rest) =>
      && CommitsGate(gate, r, name in r.now && name in r.after, r.target == Some(name))
      && Commits(rest, r)
    case Mux(name, _, arms, rest) =>
      && CommitsArms(arms, r, FieldOf(r.now, name), FieldOf(r.after, name), r.target == Some(name))
      && Commits(rest, r)
  }

  ghost predicate CommitsGate(g: Gate, r: Round, stays: bool, isTarget: bool) {
    match g
    case Leaf(inst) =>
      inst.direction.WRITE? ==>
        Held(r.held, inst) == if !stays then Held(r.com, inst)
                              else if isTarget then FromInt(r.payload, inst.width)
                              else Zeros(inst.width)
    case Net(chain) => Commits(chain, r)
  }

  ghost predicate CommitsArms(a: Arms, r: Round, before: int, later: int, isTarget: bool) {
    match a
    case NoArms => true
    case Arm(v, gate, others) =>
      && CommitsGate(gate, r, v == before && v == later, isTarget)
      && CommitsArms(others, r, before, later, isTarget)
  }

  // ---------------------------------------------------------------- reset and capture

  lemma {:induction false} FreshState(c: Chain)
    ensures Topo(Fresh(c)) == c && Sized(Fresh(c))
    ensures Agrees(Fresh(c), map[]) && Latched(Fresh(c), map[])
  {
    match c
    case End =>
    case Sib(_, gate, rest) =>
      FreshGateState(gate);
      FreshState(rest);
    case Mux(_, width, arms, rest) =>
      ToIntZero(Reverse(Zeros(width)));
      FreshArmsState(arms);
      FreshState(rest);
  }

  lemma {:induction false} FreshGateState(g: Gate)
    ensures GateTopo(FreshGate(g)) == g && SizedGate(FreshGate(g))
    ensures AgreesGate(FreshGate(g), map[]) && LatchedGate(FreshGate(g), map[])
  {
    match g
    case Leaf(inst) => FromZero(inst.width);
    case Net(chain) => FreshState(chain);
  }

  lemma {:induction false} FreshArmsState(a: Arms)
    ensures ArmTopo(FreshArms(a)) == a && SizedArms(FreshArms(a))
    ensures AgreesArms(FreshArms(a), map[]) && LatchedArms(FreshArms(a), map[])
  {
    if a.Arm? {
      FreshGateState(a.gate);
      FreshArmsState(a.others);
    }
  }

  lemma {:induction false} CaptureKeeps(h: Cells, sense: Sense, live: bool, open: OpenMap, com: Committed)
    requires Sized(h)
    ensures var r := Capture(h, sense, live);
            && Topo(r) == Topo(h) && Sized(r)
            && (Agrees(h, open) ==> Agrees(r, open)) && (Latched(h, com) ==> Latched(r, com))
  {
    match h
    case CEnd =>
    case CSib(_, _, po, gate, rest) =>
      CaptureGateKeeps(gate, sense, po, open, com);
      CaptureKeeps(rest, sense, live, open, com);
    case CMux(_, _, _, mpo, arms, rest) =>
      CaptureArmsKeeps(arms, sense, live, Value(mpo), open, com);
      CaptureKeeps(rest, sense, live, open, com);
  }

  lemma {:induction false} CaptureGateKeeps(
    g: GateCells, sense: Sense, live: bool, open: OpenMap, com: Committed)
    requires SizedGate(g)
    ensures var r := CaptureGate(g, sense, live);
            && GateTopo(r) == GateTopo(g) && SizedGate(r)
            && (AgreesGate(g, open) ==> AgreesGate(r, open))
            && (LatchedGate(g, com) ==> LatchedGate(r, com))
  {
    if g.CNet? {
      CaptureKeeps(g.chain, sense, live, open, com);
    }
  }

  lemma {:induction false} CaptureArmsKeeps(
    a: ArmCells, sense: Sense, live: bool, value: int, open: OpenMap, com: Committed)
    requires SizedArms(a)
    ensures var r := CaptureArms(a, sense, live, value);
            && ArmTopo(r) == ArmTopo(a) && SizedArms(r)
            && (AgreesArms(a, open) ==> AgreesArms(r, open))
            && (LatchedArms(a, com) ==> LatchedArms(r, com))
  {
    if a.CArm? {
      CaptureGateKeeps(a.gate, sense, live && value == a.value, open, com);
      CaptureArmsKeeps(a.others, sense, live, value, open, com);
    }
  }

  lemma {:induction false} UpdateSized(h: Cells, live: bool)
    requires Sized(h)
    ensures Sized(Update(h, live))
  {
    match h
    case CEnd =>
    case CSib(_, ff, po, gate, rest) =>
      UpdateGateSized(gate, live && po, live && po && ff);
      UpdateSized(rest, live);
    case CMux(_, _, mff, mpo, arms, rest) =>
      UpdateArmsSized(arms, live, Value(mpo), Value(mff));
      UpdateSized(rest, live);
  }

  lemma {:induction false} UpdateGateSized(g: GateCells, live: bool, stays: bool)
    requires SizedGate(g)
    ensures SizedGate(UpdateGate(g, live, stays))
  {
    if g.CNet? {
      UpdateSized(g.chain, live);
    }
  }

  lemma {:induction false} UpdateArmsSized(a: ArmCells, live: bool, before: int, after: int)
    requires SizedArms(a)
    ensures SizedArms(UpdateArms(a, live, before, after))
  {
    if a.CArm? {
      var was := live && before == a.value;
      UpdateGateSized(a.gate, was, was && after == a.value);
      UpdateArmsSized(a.others, live, before, after);
    }
  }

  /** The cells without what the instruments' shift stages hold. */
  function Standing(h: Cells): Cells {
    match h
    case CEnd => CEnd
    case CSib(name, ff, po, gate, rest) => CSib(name, ff, po, StandingGate(gate), Standing(rest))
    case CMux(name, width, mff, mpo, arms, rest) => CMux(name, width, mff, mpo, StandingArms(arms), Standing(rest))
  }

  function StandingGate(g: GateCells): GateCells {
    match g
    case CLeaf(inst, _, latch) => CLeaf(inst, [], latch)
    case CNet(chain) => CNet(Standing(chain))
  }

  function StandingArms(a: ArmCells): ArmCells {
    match a
    case CNoArms => CNoArms
    case CArm(v, gate, others) => CArm(v, StandingGate(gate), StandingArms(others))
  }

  /** A capture without the network selected changes nothing but the instruments' shift stages: every
      select cell keeps both its stages, every instrument its latch. */
  lemma {:induction false} UnselectedKeeps(h: Cells, sense: Sense)
    requires Sized(h)
    ensures Sized(CaptureUnselected(h, sense)) && Topo(CaptureUnselected(h, sense)) == Topo(h)
    ensures Standing(CaptureUnselected(h, sense)) == Standing(h)
  {
    match h
    case CEnd =>
    case CSib(_, _, _, gate, rest) =>
      UnselectedGateKeeps(gate, sense);
      UnselectedKeeps(rest, sense);
    case CMux(_, _, _, _, arms, rest) =>
      UnselectedArmsKeep(arms, sense);
      UnselectedKeeps(rest, sense);
  }

  lemma {:induction false} UnselectedGateKeeps(g: GateCells, sense: Sense)
    requires SizedGate(g)
    ensures SizedGate(CaptureGateUnselected(g, sense)) && GateTopo(CaptureGateUnselected(g, sense)) == GateTopo(g)
    ensures StandingGate(CaptureGateUnselected(g, sense)) == StandingGate(g)
  {
    if g.CNet? {
      UnselectedKeeps(g.chain, sense);
    }
  }

  lemma {:induction false} UnselectedArmsKeep(a: ArmCells, sense: Sense)
    requires SizedArms(a)
    ensures SizedArms(CaptureArmsUnselected(a, sense)) && ArmTopo(CaptureArmsUnselected(a, sense)) == ArmTopo(a)
    ensures StandingArms(CaptureArmsUnselected(a, sense)) == StandingArms(a)
  {
    if a.CArm? {
      UnselectedGateKeeps(a.gate, sense);
      UnselectedArmsKeep(a.others, sense);
    }
  }

  /** What is open and what is committed does not depend on the instruments' shift stages. */
  lemma {:induction false} StandingTells(h: Cells, open: OpenMap, com: Committed)
    ensures Agrees(Standing(h), open) <==> Agrees(h, open)
    ensures Latched(Standing(h), com) <==> Latched(h, com)
  {
    match h
    case CEnd =>
    case CSib(_, _, _, gate, rest) =>
      StandingGateTells(gate, open, com);
      StandingTells(rest, open, com);
    case CMux(_, _, _, _, arms, rest) =>
      StandingArmsTell(arms, open, com);
      StandingTells(rest, open, com);
  }

  lemma {:induction false} StandingGateTells(g: GateCells, open: OpenMap, com: Committed)
    ensures AgreesGate(StandingGate(g), open) <==> AgreesGate(g, open)
    ensures LatchedGate(StandingGate(g), com) <==> LatchedGate(g, com)
  {
    if g.CNet? {
      StandingTells(g.chain, open, com);
    }
  }

  lemma {:induction false} StandingArmsTell(a: ArmCells, open: OpenMap, com: Committed)
    ensures AgreesArms(StandingArms(a), open) <==> AgreesArms(a, open)
    ensures LatchedArms(StandingArms(a), com) <==> LatchedArms(a, com)
  {
    if a.CArm? {
      StandingGateTells(a.gate, open, com);
      StandingArmsTell(a.others, open, com);
    }
  }

  // ---------------------------------------------------------------- static = live length

  /** The static layout is exactly as long as the live chain it predicts. */
  lemma {:induction false} LayoutIsLive(h: Cells, open: OpenMap)
    requires Agrees(h, open) && Sized(h) && NoZeroArm(Topo(h))
    ensures |Raw(h)| == Length(Topo(h), open)
  {
    match h
    case CEnd =>
    case CSib(name, _, po, gate, rest) =>
      LayoutIsLiveGate(gate, open);
      LayoutIsLive(rest, open);
    case CMux(name, _, _, mpo, arms, rest) =>
      LayoutIsLiveArms(arms, Value(mpo), open);
      LayoutIsLive(rest, open);
  }

  lemma {:induction false} LayoutIsLiveGate(g: GateCells, open: OpenMap)
    requires AgreesGate(g, open) && SizedGate(g) && NoZeroGate(GateTopo(g))
    ensures |RawGate(g)| == GateLength(GateTopo(g), open)
  {
    if g.CNet? {
      LayoutIsLive(g.chain, open);
    }
  }

  lemma {:induction false} LayoutIsLiveArms(a: ArmCells, value: int, open: OpenMap)
    requires AgreesArms(a, open) && SizedArms(a) && NoZeroArms(ArmTopo(a))
    ensures |RawArms(a, value)| == ArmLength(ArmTopo(a), value, open)
    ensures value == 0 ==> RawArms(a, value) == []
  {
    if a.CArm? {
      LayoutIsLiveGate(a.gate, open);
      LayoutIsLiveArms(a.others, value, open);
    }
  }

  // ---------------------------------------------------------------- one round

  /** What the round leaves behind. */
  ghost predicate Left(h: Cells, h': Cells, r: Round) {
    Topo(h') == Topo(h) && Sized(h') && Agrees(h', r.after) && Latched(h', r.held)
  }

  ghost predicate LeftGate(g: GateCells, g': GateCells, r: Round) {
    && GateTopo(g') == GateTopo(g) && SizedGate(g')
    && AgreesGate(g', r.after) && LatchedGate(g', r.held)
  }

  ghost predicate LeftArms(a: ArmCells, a': ArmCells, r: Round) {
    && ArmTopo(a') == ArmTopo(a) && SizedArms(a')
    && AgreesArms(a', r.after) && LatchedArms(a', r.held)
  }

  /** A chain whose gate is closed comes through the round unchanged. */
  lemma {:induction false} Settled(h: Cells, r: Round)
    requires Agrees(h, r.now) && Latched(h, r.com) && Sized(h) && NoZeroArm(Topo(h))
    requires Steppable(Topo(h), r, false) && Commits(Topo(h), r)
    ensures Left(h, Update(h, false), r)
  {
    match h
    case CEnd =>
    case CSib(name, _, _, gate, rest) =>
      SettledGate(gate, r, r.target == Some(name));
      Settled(rest, r);
    case CMux(name, _, mff, mpo, arms, rest) =>
      ZeroUnclaimed(arms);
      SettledArms(arms, r, 0, 0, r.target == Some(name), false, Value(mpo), Value(mff));
      Settled(rest, r);
  }

  lemma {:induction false} SettledGate(g: GateCells, r: Round, isTarget: bool)
    requires AgreesGate(g, r.now) && LatchedGate(g, r.com) && SizedGate(g) && NoZeroGate(GateTopo(g))
    requires SteppableGate(GateTopo(g), r, false) && CommitsGate(GateTopo(g), r, false, isTarget)
    ensures LeftGate(g, UpdateGate(g, false, false), r)
  {
    if g.CNet? {
      Settled(g.chain, r);
    }
  }

  /** Arms none of which is matched. `live`, `mb` and `ma` are what Update passes down. */
  lemma {:induction false} SettledArms(
    a: ArmCells, r: Round, before: int, later: int, isTarget: bool, live: bool, mb: int, ma: int)
    requires AgreesArms(a, r.now) && LatchedArms(a, r.com) && SizedArms(a) && NoZeroArms(ArmTopo(a))
    requires SteppableArms(ArmTopo(a), r, before)
    requires CommitsArms(ArmTopo(a), r, before, later, isTarget)
    requires !Claims(a, before) && (live ==> mb == before)
    ensures LeftArms(a, UpdateArms(a, live, mb, ma), r)
  {
    if a.CArm? {
      SettledGate(a.gate, r, isTarget);
      SettledArms(a.others, r, before, later, isTarget, live, mb, ma);
    }
  }

  lemma {:induction false} ZeroUnclaimed(a: ArmCells)
    requires NoZeroArms(ArmTopo(a))
    ensures !Claims(a, 0)
  {
    if a.CArm? {
      ZeroUnclaimed(a.others);
    }
  }

  lemma {:induction false} ValuesAreClaims(a: ArmCells, v: nat)
    ensures v in ArmValues(ArmTopo(a)) <==> Claims(a, v)
  {
    if a.CArm? {
      ValuesAreClaims(a.others, v);
    }
  }

  /** A live chain loaded with a composed scan and updated: every select bit reads as `r.after`, and
      the WRITE instruments hold `r.held`. */
  lemma {:induction false} Stepped(h: Cells, r: Round)
    requires Agrees(h, r.now) && Latched(h, r.com) && Sized(h)
    requires NoZeroArm(Topo(h)) && Structured(Topo(h))
    requires Steppable(Topo(h), r, true) && Commits(Topo(h), r)
    ensures |Scan(Topo(h), r)| == |Raw(h)|
    ensures Left(h, Update(Load(h, Scan(Topo(h), r)), true), r)
    decreases h, 1
  {
    match h
    case CEnd =>
    case CSib(_, _, _, _, _) => SteppedSib(h, r);
    case CMux(_, _, _, _, _, _) => SteppedMux(h, r);
  }

  lemma {:induction false} SteppedSib(h: Cells, r: Round)
    requires h.CSib? && Agrees(h, r.now) && Latched(h, r.com) && Sized(h)
    requires NoZeroArm(Topo(h)) && Structured(Topo(h))
    requires Steppable(Topo(h), r, true) && Commits(Topo(h), r)
    ensures |Scan(Topo(h), r)| == |Raw(h)|
    ensures Left(h, Update(Load(h, Scan(Topo(h), r)), true), r)
    decreases h, 0
  {
    var isTarget := r.target == Some(h.name);
    var content := if h.po then GateScan(GateTopo(h.gate), r, isTarget) else [];
    if h.po {
      SteppedGate(h.gate, r, h.name in r.after, isTarget);
    } else {
      SettledGate(h.gate, r, isTarget);
    }
    Stepped(h.rest, r);
    SibStep(h, content, h.name in r.after, Scan(Topo(h.rest), r));
  }

  /** Load and Update on a live SIB, part by part. */
  lemma SibStep(h: Cells, content: Bits, bit: bool, tail: Bits)
    requires h.CSib? && |content| == (if h.po then |RawGate(h.gate)| else 0) && |tail| == |Raw(h.rest)|
    ensures |content + [bit] + tail| == |Raw(h)|
    ensures Update(Load(h, content + [bit] + tail), true)
            == CSib(h.name, bit, bit,
                    if h.po then UpdateGate(LoadGate(h.gate, content), true, bit)
                    else UpdateGate(h.gate, false, false),
                    Update(Load(h.rest, tail), true))
  {
    Parts(content, [bit], tail);
    assert (content + [bit] + tail)[|content|] == bit;
  }

  lemma {:induction false} SteppedGate(g: GateCells, r: Round, stays: bool, isTarget: bool)
    requires AgreesGate(g, r.now) && LatchedGate(g, r.com) && SizedGate(g)
    requires NoZeroGate(GateTopo(g)) && StructuredGate(GateTopo(g))
    requires SteppableGate(GateTopo(g), r, true) && CommitsGate(GateTopo(g), r, stays, isTarget)
    ensures |GateScan(GateTopo(g), r, isTarget)| == |RawGate(g)|
    ensures LeftGate(g, UpdateGate(LoadGate(g, GateScan(GateTopo(g), r, isTarget)), true, stays), r)
  {
    if g.CNet? {
      Stepped(g.chain, r);
    }
  }

  lemma {:induction false} SteppedMux(h: Cells, r: Round)
    requires h.CMux? && Agrees(h, r.now) && Latched(h, r.com) && Sized(h)
    requires NoZeroArm(Topo(h)) && Structured(Topo(h))
    requires Steppable(Topo(h), r, true) && Commits(Topo(h), r)
    ensures |Scan(Topo(h), r)| == |Raw(h)|
    ensures Left(h, Update(Load(h, Scan(Topo(h), r)), true), r)
    decreases h, 0
  {
    hide Value, Raw, Load, Update, UpdateArms, LoadArms;
    var isTarget := r.target == Some(h.name);
    var value, later := FieldOf(r.now, h.name), FieldOf(r.after, h.name);
    var content := ArmScan(ArmTopo(h.arms), value, r, isTarget);
    ZeroUnclaimed(h.arms);
    SteppedArms(h.arms, r, value, later, isTarget, Pow2(h.width));
    assert h.name !in r.now ==> content == [];
    Stepped(h.rest, r);
    FieldValue(later, h.width);
    MuxStep(h, content, Reverse(FromInt(later, h.width)), Scan(Topo(h.rest), r));
  }

  /** Load and Update on a live ScanMux, part by part. */
  lemma MuxStep(h: Cells, content: Bits, field: Bits, tail: Bits)
    requires h.CMux? && |content| == |RawArms(h.arms, Value(h.mpo))|
    requires |field| == |h.mff| && |tail| == |Raw(h.rest)|
    ensures |content + field + tail| == |Raw(h)|
    ensures Update(Load(h, content + field + tail), true)
            == CMux(h.name, h.width, field, field,
                    UpdateArms(LoadArms(h.arms, Value(h.mpo), content), true, Value(h.mpo), Value(field)),
                    Update(Load(h.rest, tail), true))
  {
    Parts(content, field, tail);
  }

  lemma FieldValue(v: int, width: nat)
    requires 0 <= v < Pow2(width)
    ensures Value(Reverse(FromInt(v, width))) == v
  {
    ReverseTwice(FromInt(v, width));
    ToIntFromInt(v, width);
  }

  lemma {:induction false} SteppedArms(
    a: ArmCells, r: Round, before: int, later: int, isTarget: bool, limit: nat)
    requires AgreesArms(a, r.now) && LatchedArms(a, r.com) && SizedArms(a) && NoZeroArms(ArmTopo(a))
    requires DistinctValues(ArmTopo(a)) && StructuredArms(ArmTopo(a), limit)
    requires SteppableArms(ArmTopo(a), r, before)
    requires CommitsArms(ArmTopo(a), r, before, later, isTarget)
    ensures var bits := ArmScan(ArmTopo(a), before, r, isTarget);
            && |bits| == |RawArms(a, before)| && (!Claims(a, before) ==> bits == [])
            && LeftArms(a, UpdateArms(LoadArms(a, before, bits), true, before, later), r)
  {
    if a.CArm? {
      if a.value == before {
        SteppedGate(a.gate, r, a.value == later, isTarget);
        ValuesAreClaims(a.others, a.value);
        SettledArms(a.others, r, before, later, isTarget, true, before, later);
      } else {
        SettledGate(a.gate, r, isTarget);
        SteppedArms(a.others, r, before, later, isTarget, limit);
      }
    }
  }

  /** The whole round as a DR scan on a good shape, whatever the READ instruments see: the state it
      leaves, and what TDO shows while it is shifted. */
  lemma ScanRound(h: Cells, r: Round, sense: Sense)
    requires Agrees(h, r.now) && Latched(h, r.com) && Sized(h)
    requires GoodShape(Topo(h)) && Structured(Topo(h))
    requires Steppable(Topo(h), r, true) && Commits(Topo(h), r)
    ensures var (h', out) := DrScan(h, sense, Reverse(Scan(Topo(h), r)));
            var seen := Capture(h, sense, true);
            && Left(h, h', r) && Downstream(seen) <= |Raw(seen)|
            && out == Emerged(Tapped(seen), Reverse(Scan(Topo(h), r)))
  {
    var bits := Scan(Topo(h), r);
    var seen := Capture(h, sense, true);
    GoodHasNoZero(Topo(h));
    CaptureKeeps(h, sense, true, r.now, r.com);
    Stepped(seen, r);
    ShiftAllEffect(seen, Reverse(bits));
    FullyAdvanced(Raw(seen), bits);
  }

  lemma FullyAdvanced(content: Bits, bits: Bits)
    requires |content| == |bits|
    ensures Advanced(content, Reverse(bits)) == bits
  {
    ReverseTwice(bits);
  }
}
