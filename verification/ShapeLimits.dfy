/** Where the static layout and the cells part, outside the good shape: a ScanMux arm that claims the
    value an unrecorded select field holds, and a slot behind a matched ScanMux. */
module ShapeLimits {
  import opened Wrappers
  import opened Bits
  import opened IclModel
  import opened SibLayout
  import opened SibCells
  import opened SibShift
  import opened SibRound

  // ---------------------------------------------------------------- arms that claim 0

  /** On the live path there is a ScanMux the open map does not record, holding 0, with an arm that
      claims 0 and has cells. */
  ghost predicate Unrecorded(h: Cells, open: OpenMap) {
    match h
    case CEnd => false
    case CSib(_, _, po, gate, rest) => (po && UnrecordedGate(gate, open)) || Unrecorded(rest, open)
    case CMux(name, _, _, mpo, arms, rest) =>
      || (if name in open then UnrecordedArms(arms, Value(mpo), open) else RawArms(arms, Value(mpo)) != [])
      || Unrecorded(rest, open)
  }

  ghost predicate UnrecordedGate(g: GateCells, open: OpenMap) {
    g.CNet? && Unrecorded(g.chain, open)
  }

  ghost predicate UnrecordedArms(a: ArmCells, value: int, open: OpenMap) {
    match a
    case CNoArms => false
    case CArm(v, gate, others) =>
      if v == value then UnrecordedGate(gate, open) else UnrecordedArms(others, value, open)
  }

  /** On every topology and in every state the static length never exceeds the live chain's, and it is
      the live chain's length exactly when no such ScanMux is on the live path. */
  lemma {:induction false} LengthIsLiveIff(h: Cells, open: OpenMap)
    requires Agrees(h, open) && Sized(h)
    ensures Length(Topo(h), open) <= |Raw(h)|
    ensures |Raw(h)| == Length(Topo(h), open) <==> !Unrecorded(h, open)
  {
    match h
    case CEnd =>
    case CSib(_, _, _, gate, rest) =>
      GateLengthIsLiveIff(gate, open);
      LengthIsLiveIff(rest, open);
    case CMux(name, _, _, mpo, arms, rest) =>
      ArmLengthIsLiveIff(arms, Value(mpo), open);
      LengthIsLiveIff(rest, open);
  }

  lemma {:induction false} GateLengthIsLiveIff(g: GateCells, open: OpenMap)
    requires AgreesGate(g, open) && SizedGate(g)
    ensures GateLength(GateTopo(g), open) <= |RawGate(g)|
    ensures |RawGate(g)| == GateLength(GateTopo(g), open) <==> !UnrecordedGate(g, open)
  {
    if g.CNet? {
      LengthIsLiveIff(g.chain, open);
    }
  }

  lemma {:induction false} ArmLengthIsLiveIff(a: ArmCells, value: int, open: OpenMap)
    requires AgreesArms(a, open) && SizedArms(a)
    ensures ArmLength(ArmTopo(a), value, open) <= |RawArms(a, value)|
    ensures |RawArms(a, value)| == ArmLength(ArmTopo(a), value, open) <==> !UnrecordedArms(a, value, open)
  {
    if a.CArm? {
      GateLengthIsLiveIff(a.gate, open);
      ArmLengthIsLiveIff(a.others, value, open);
    }
  }

  function Reader(name: string, width: nat): Instrument { Instrument(name, width, 0, READ, []) }

  /** A ScanMux, one of whose arms claims 0. */
  function ZeroArm(): Chain {
    Mux("m", 1, Arm(0, Leaf(Reader("a", 3)), Arm(1, Leaf(Reader("b", 1)), NoArms)), End)
  }

  /** Straight out of reset the layout predicts the select bit alone, and three more cells are live. */
  lemma ZeroArmIsMislaid()
    ensures Valid(ZeroArm()) && Agrees(Fresh(ZeroArm()), map[])
    ensures Length(ZeroArm(), map[]) == 1 && |Raw(Fresh(ZeroArm()))| == 4
  {
    FreshState(ZeroArm());
    var h := Fresh(ZeroArm());
    assert h.mpo == Zeros(1);
    assert Value(h.mpo) == 0 by {
      assert Reverse(Zeros(1)) == Zeros(1);
      ToIntZero(Zeros(1));
    }
    assert RawArms(h.arms, 0) == Zeros(3);
    assert Raw(h.rest) == [];
  }

  // ---------------------------------------------------------------- slots behind a matched ScanMux

  /** A ScanMux with a matched arm, and slots behind it. */
  ghost predicate Followed(h: Cells) {
    && h.CMux? && Sized(h) && Claims(h.arms, Value(h.mpo)) && GoodArms(ArmTopo(h.arms))
    && h.mff != [] && StructuredArms(ArmTopo(h.arms), Pow2(|h.mff|))
    && !h.rest.CEnd? && GoodShape(Topo(h.rest)) && Structured(Topo(h.rest))
  }

  /** The matched arm's cells, and the same followed by the select field, or by the slots behind. */
  function ArmOf(h: Cells): Bits
    requires h.CMux?
  {
    RawArms(h.arms, Value(h.mpo))
  }

  /** The cells with one content in the arm and the field, and one in the slots behind. */
  function Refilled(h: Cells, arm: Bits, field: Bits, behind: Bits): Cells
    requires h.CMux? && |arm| == |ArmOf(h)| && |behind| == |Raw(h.rest)|
  {
    CMux(h.name, h.width, field, h.mpo, LoadArms(h.arms, Value(h.mpo), arm), Load(h.rest, behind))
  }

  lemma RefilledKeeps(h: Cells, arm: Bits, field: Bits, behind: Bits)
    requires Followed(h) && |arm| == |ArmOf(h)| && |field| == |h.mff| && |behind| == |Raw(h.rest)|
    ensures var r := Refilled(h, arm, field, behind);
            Followed(r) && ArmOf(r) == arm && r.mff == field && Raw(r.rest) == behind && Raw(r) == arm + field + behind
  {
    hide Raw, Load, GoodShape, Structured, Value, StructuredArms;
    LoadArmsKeeps(h.arms, Value(h.mpo), arm);
    LoadKeeps(h.rest, behind);
    RawLoadArms(h.arms, Value(h.mpo), arm);
    RawLoad(h.rest, behind);
    assert !Load(h.rest, behind).CEnd? by { StillSlots(h.rest, behind); }
    RawMux(Refilled(h, arm, field, behind));
  }

  lemma StillSlots(h: Cells, bits: Bits)
    requires |bits| == |Raw(h)| && !h.CEnd?
    ensures !Load(h, bits).CEnd?
  {
  }

  lemma RawMux(h: Cells)
    requires h.CMux?
    ensures Raw(h) == ArmOf(h) + h.mff + Raw(h.rest)
  {
  }

  lemma RefilledTwice(h: Cells, arm: Bits, field: Bits, behind: Bits, arm': Bits, field': Bits, behind': Bits)
    requires Followed(h) && |arm| == |arm'| == |ArmOf(h)| && |field| == |h.mff| && |behind| == |behind'| == |Raw(h.rest)|
    ensures var r := Refilled(h, arm, field, behind);
            |ArmOf(r)| == |arm'| && |Raw(r.rest)| == |behind'|
            && Refilled(r, arm', field', behind') == Refilled(h, arm', field', behind')
  {
    HasField(h);
    hide Raw, Load, Value, Followed;
    RefilledKeeps(h, arm, field, behind);
    LoadLoadArms(h.arms, Value(h.mpo), arm, arm');
    LoadLoad(h.rest, behind, behind');
  }

  /** One shift: the select field and the slots behind both take the arm's last cell. */
  lemma FollowedShift(h: Cells, tdi: bool)
    requires Followed(h)
    ensures ArmOf(h) != [] && Raw(h.rest) != []
    ensures var (arm, field, behind) := (ArmOf(h), h.mff, Raw(h.rest));
            var out := arm[|arm| - 1];
            Shift(h, tdi).0 == Refilled(h, Pushed(arm, tdi), Pushed(field, out), Pushed(behind, out))
  {
    hide Value, Load, GoodShape, Structured, StructuredArms, GoodArms;
    var value, field := Value(h.mpo), h.mff;
    GoodArmSeen(h.arms, value, field[|field| - 1], Pow2(|field|));
    GoodSeen(h.rest);
    SeenLength(h);
    var arm, behind, seen := ArmOf(h), Raw(h.rest), Seen(h.rest);
    assert Seen(h) == arm + (field[..|field| - 1] + [arm[|arm| - 1]]) + seen;
    Relayed(tdi, arm, field, behind, seen);
    assert |Seen(h)| == |Raw(h)| == |arm| + |field| + |behind|;
    LoadMux(h, [tdi] + Seen(h)[..|Seen(h)| - 1]);
  }

  lemma Relayed(tdi: bool, arm: Bits, field: Bits, behind: Bits, seen: Bits)
    requires arm != [] && field != [] && behind != [] && |seen| == |behind| && seen[..|seen| - 1] == behind[..|behind| - 1]
    ensures var (a, m, out) := (|arm|, |field|, arm[|arm| - 1]);
            var all := arm + (field[..m - 1] + [out]) + seen;
            var bits := [tdi] + all[..|all| - 1];
            && bits[..a] == [tdi] + arm[..a - 1] && bits[a..a + m] == [out] + field[..m - 1]
            && bits[a + m..] == [out] + behind[..|behind| - 1]
  {
  }

  lemma LoadMux(h: Cells, bits: Bits)
    requires h.CMux? && |bits| == |Raw(h)|
    ensures var (a, m) := (|ArmOf(h)|, |h.mff|);
            && a + m <= |bits| && |bits| - a - m == |Raw(h.rest)|
            && Load(h, bits) == Refilled(h, bits[..a], bits[a..a + m], bits[a + m..])
  {
  }

  /** Two stretches of cells in one shift register: what the first holds after a run of shifts, and the second. */
  function Front(a: Bits, b: Bits, fed: Bits): (r: Bits)
    ensures |r| == |a|
  {
    Advanced(a + b, fed)[..|a|]
  }

  function Back(a: Bits, b: Bits, fed: Bits): (r: Bits)
    ensures |r| == |b|
  {
    Advanced(a + b, fed)[|a|..]
  }

  /** The arm and the field after one shift more, and the arm and the slots behind. */
  function Pushed(a: Bits, tdi: bool): (r: Bits)
    requires a != []
    ensures |r| == |a|
  {
    [tdi] + a[..|a| - 1]
  }

  lemma OnePlace(a: Bits, b: Bits, fed: Bits)
    requires a != [] && b != [] && fed != []
    ensures var (x, y) := (Pushed(a, fed[0]), Pushed(b, a[|a| - 1]));
            Front(x, y, fed[1..]) == Front(a, b, fed) && Back(x, y, fed[1..]) == Back(a, b, fed)
  {
    var all := a + b;
    assert Pushed(all, fed[0]) == Pushed(a, fed[0]) + Pushed(b, a[|a| - 1]);
    AdvanceOne(all, fed);
  }

  /** Any run of shifts: the arm and the field are one shift register, the arm and the slots behind another. */
  lemma {:induction false} FollowedShifts(h: Cells, fed: Bits)
    requires Followed(h)
    ensures h.CMux?
    ensures var (arm, behind) := (ArmOf(h), Raw(h.rest));
            ShiftAll(h, fed).0 == Refilled(h, Front(arm, h.mff, fed), Back(arm, h.mff, fed), Back(arm, behind, fed))
    decreases |fed|
  {
    HasField(h);
    hide Followed, Shift, ShiftAll, Raw, Load, Value, ArmOf, Refilled, Front, Back, Pushed;
    var arm, field, behind := ArmOf(h), h.mff, Raw(h.rest);
    if fed == [] {
      NothingShifted(h);
    } else {
      FollowedShift(h, fed[0]);
      var out := arm[|arm| - 1];
      var arm1, field1, behind1 := Pushed(arm, fed[0]), Pushed(field, out), Pushed(behind, out);
      var h1 := Refilled(h, arm1, field1, behind1);
      RefilledKeeps(h, arm1, field1, behind1);
      FollowedShifts(h1, fed[1..]);
      OnePlace(arm, field, fed);
      OnePlace(arm, behind, fed);
      RefilledTwice(h, arm1, field1, behind1, Front(arm, field, fed), Back(arm, field, fed), Back(arm, behind, fed));
      OneMoreShift(h, fed, h1);
    }
  }

  lemma OneMoreShift(h: Cells, fed: Bits, h1: Cells)
    requires fed != [] && Shift(h, fed[0]).0 == h1
    ensures ShiftAll(h, fed).0 == ShiftAll(h1, fed[1..]).0
  {
    hide Shift;
  }

  lemma HasField(h: Cells)
    requires Followed(h)
    ensures h.CMux? && h.mff != []
  {
  }

  lemma NothingShifted(h: Cells)
    requires Followed(h)
    ensures var (arm, behind) := (ArmOf(h), Raw(h.rest));
            ShiftAll(h, []).0 == Refilled(h, Front(arm, h.mff, []), Back(arm, h.mff, []), Back(arm, behind, []))
  {
    HasField(h);
    hide Raw, Load, Value, Followed;
    var arm, behind := ArmOf(h), Raw(h.rest);
    NothingPushed(arm, h.mff);
    NothingPushed(arm, behind);
    SizedMux(h);
    LoadRawArms(h.arms, Value(h.mpo));
    LoadRaw(h.rest);
  }

  lemma NothingPushed(a: Bits, b: Bits)
    ensures Front(a, b, []) == a && Back(a, b, []) == b
  {
    assert Advanced(a + b, []) == a + b;
  }

  lemma SizedMux(h: Cells)
    requires Followed(h)
    ensures SizedArms(h.arms) && Sized(h.rest)
  {
  }

  /** A scan as long as the live chain fills the slots behind a matched ScanMux with the bits meant for the
      select field and on, not with their own: it lands as composed exactly when those are the same. */
  lemma BehindTakesField(h: Cells, bits: Bits)
    requires Followed(h) && |bits| == |Raw(h)|
    ensures h.CMux? && |ArmOf(h)| + |h.mff| + |Raw(h.rest)| == |bits|
    ensures var (a, m, r) := (|ArmOf(h)|, |h.mff|, |Raw(h.rest)|);
            var after := ShiftAll(h, Reverse(bits)).0;
            && Raw(after) == bits[..a + m] + bits[a..a + r]
            && (after == Load(h, bits) <==> bits[a + m..] == bits[a..a + r])
  {
    hide Followed, Raw, Load, Value, ShiftAll, ArmOf, Reverse, Refilled;
    RefilledByScan(h, bits);
    var (a, m, r) := (|ArmOf(h)|, |h.mff|, |Raw(h.rest)|);
    RefilledKeeps(h, bits[..a], bits[a..a + m], bits[a..a + r]);
    Fields(bits, a, m, r);
    RawLoad(h, bits);
    LoadMux(h, bits);
  }

  lemma FilledAs(h: Cells, fed: Bits, x: Bits, y: Bits, z: Bits)
    requires Followed(h) && h.CMux?
    requires Front(ArmOf(h), h.mff, fed) == x && Back(ArmOf(h), h.mff, fed) == y && Back(ArmOf(h), Raw(h.rest), fed) == z
    ensures ShiftAll(h, fed).0 == Refilled(h, x, y, z)
  {
    hide *;
    FollowedShifts(h, fed);
  }

  lemma RefilledByScan(h: Cells, bits: Bits)
    requires Followed(h) && |bits| == |Raw(h)|
    ensures h.CMux? && |ArmOf(h)| + |h.mff| + |Raw(h.rest)| == |bits|
    ensures var (a, m, r) := (|ArmOf(h)|, |h.mff|, |Raw(h.rest)|);
            ShiftAll(h, Reverse(bits)).0 == Refilled(h, bits[..a], bits[a..a + m], bits[a..a + r])
  {
    HasField(h);
    hide *;
    RawMux(h);
    var (a, m, r) := (|ArmOf(h)|, |h.mff|, |Raw(h.rest)|);
    AllNew(ArmOf(h), h.mff, bits);
    AllNew(ArmOf(h), Raw(h.rest), bits);
    FilledAs(h, Reverse(bits), bits[..a], bits[a..a + m], bits[a..a + r]);
  }

  /** With as many bits as cells nothing of the old content is left. */
  lemma AllNew(a: Bits, b: Bits, bits: Bits)
    requires |a| + |b| <= |bits|
    ensures Front(a, b, Reverse(bits)) == bits[..|a|] && Back(a, b, Reverse(bits)) == bits[|a|..|a| + |b|]
  {
    hide *;
    AllAdvanced(a + b, bits);
    NewParts(a, b, Reverse(bits), bits);
  }

  lemma NewParts(a: Bits, b: Bits, fed: Bits, bits: Bits)
    requires |a + b| <= |bits| && Advanced(a + b, fed) == bits[..|a + b|]
    ensures Front(a, b, fed) == bits[..|a|] && Back(a, b, fed) == bits[|a|..|a| + |b|]
  {
    hide Advanced;
    TakeTwice(bits, |a|, |a + b|);
  }

  lemma AllAdvanced(content: Bits, bits: Bits)
    requires |content| <= |bits|
    ensures Advanced(content, Reverse(bits)) == bits[..|content|]
  {
    ReverseTwice(bits);
  }

  lemma TakeTwice(bits: Bits, i: nat, j: nat)
    requires i <= j <= |bits|
    ensures bits[..j][..i] == bits[..i] && bits[..j][i..] == bits[i..j]
  {
  }

  lemma Fields(bits: Bits, a: nat, m: nat, r: nat)
    requires a + m + r == |bits|
    ensures bits[..a + m][..a] == bits[..a] && bits[..a + m][a..] == bits[a..a + m] && bits[..a + r][a..] == bits[a..a + r]
    ensures bits[..a] + bits[a..a + m] + bits[a..a + r] == bits[..a + m] + bits[a..a + r]
    ensures bits[..a + m] + bits[a..a + r] == bits <==> bits[a + m..] == bits[a..a + r]
  {
    var x, y := bits[..a + m] + bits[a..a + r], bits[..a + m] + bits[a + m..];
    assert y == bits;
    assert x[a + m..] == bits[a..a + r] && y[a + m..] == bits[a + m..];
  }

  /** A SIB behind a ScanMux, no arm of which claims 0. */
  function Behind(): Chain {
    Mux("m", 2, Arm(1, Leaf(Reader("a", 1)), Arm(2, Leaf(Reader("b", 1)), NoArms)), Sib("s", Leaf(Reader("c", 1)), End))
  }

  /** Its state with arm 1 selected and the SIB closed: a cell of the arm, two select bits, the SIB. */
  function BehindCells(a: bool, high: bool, low: bool, s: bool, b: bool, c: bool): Cells {
    CMux("m", 2, [high, low], [false, true],
         CArm(1, CLeaf(Reader("a", 1), [a], [false]), CArm(2, CLeaf(Reader("b", 1), [b], [false]), CNoArms)),
         CSib("s", s, false, CLeaf(Reader("c", 1), [c], [false]), CEnd))
  }

  lemma SelectsOne()
    ensures Value([false, true]) == 1
  {
    assert Reverse([false, true]) == [true, false];
    assert ToInt([true, false]) == 1 + 2 * ToInt([false]) && ToInt([false]) == 0 + 2 * ToInt([]);
  }

  lemma BehindFollowed(a: bool, b: bool, c: bool)
    ensures var h := BehindCells(a, false, true, false, b, c);
            Followed(h) && ArmOf(h) == [a] && Raw(h.rest) == [false]
  {
    var h := BehindCells(a, false, true, false, b, c);
    SelectsOne();
    BehindIsValid();
    assert Pow2(2) == 4;
    hide Value;
    assert ArmTopo(h.arms) == Behind().arms && GoodArms(Behind().arms.others.others);
    assert GoodArms(Behind().arms.others) && GoodArms(Behind().arms);
    assert Topo(h.rest) == Behind().rest;
    assert Raw(h.rest) == [] + [false] + [];
  }

  /** The arm's cell, then the field, then the SIB with what the field's nearer bit was fed. */
  lemma BehindFour(a: bool, b: bool, c: bool, bits: Bits)
    requires |bits| == 4
    ensures ShiftAll(BehindCells(a, false, true, false, b, c), Reverse(bits)).0
            == BehindCells(bits[0], bits[1], bits[2], bits[1], b, c)
  {
    hide ShiftAll, Value, Reverse, Followed, ArmOf;
    var h := BehindCells(a, false, true, false, b, c);
    BehindFollowed(a, b, c);
    RawMux(h);
    RefilledByScan(h, bits);
    assert bits[..1] == [bits[0]] && bits[1..3] == [bits[1], bits[2]] && bits[1..2] == [bits[1]];
    BehindRefilled(a, b, c, bits[0], [bits[1], bits[2]], bits[1]);
  }

  lemma BehindRefilled(a: bool, b: bool, c: bool, x: bool, field: Bits, y: bool)
    requires |field| == 2
    ensures var h := BehindCells(a, false, true, false, b, c);
            && |ArmOf(h)| == 1 && |Raw(h.rest)| == 1
            && Refilled(h, [x], field, [y]) == BehindCells(x, field[0], field[1], y, b, c)
  {
    SelectsOne();
    hide Value;
    var h := BehindCells(a, false, true, false, b, c);
    assert Raw(h.rest) == [] + [false] + [];
    assert [y][1..] == [] && Load(CEnd, []) == CEnd;
    assert field == [field[0], field[1]];
  }

  lemma ComposedBehind(now: OpenMap, after: OpenMap)
    requires now == map["m" := 1] && after == map["m" := 1, "s" := 1]
    ensures Compose(Behind(), now, after, None, 0) == [false, false, true, true]
  {
    var c := Behind();
    assert ArmBits(c.arms, 1, now, after, None, 0, false) == Zeros(1) == [false];
    assert FromInt(1, 2) == [true] + FromInt(0, 1) && FromInt(0, 1) == [false] + FromInt(0, 0);
    assert Reverse([true, false]) == [false, true];
    assert Compose(c.rest, now, after, None, 0) == [] + [true] + [];
  }

  /** The scan composed to open the SIB, played on the cells with arm 1 selected, leaves it closed. */
  lemma BehindStaysClosed(sense: Sense)
    ensures var (now, after) := (map["m" := 1], map["m" := 1, "s" := 1]);
            var h := BehindCells(false, false, true, false, false, false);
            && Valid(Behind()) && Topo(h) == Behind() && Sized(h) && Agrees(h, now)
            && |Compose(Behind(), now, after, None, 0)| == |Raw(h)|
            && !Agrees(DrScan(h, sense, Reverse(Compose(Behind(), now, after, None, 0))).0, after)
  {
    hide Compose, ShiftAll, Value, Capture, Update, Agrees, Raw, Valid, Sized, Topo, Reverse;
    var now, after := map["m" := 1], map["m" := 1, "s" := 1];
    var scan := Compose(Behind(), now, after, None, 0);
    ComposedBehind(now, after);
    BehindState(now);
    var seen := BehindCaptured(sense);
    BehindFour(seen.0, seen.1, seen.2, scan);
    BehindUpdated(seen.1, seen.2);
  }

  lemma BehindIsValid()
    ensures Valid(Behind())
  {
    var c := Behind();
    var second := c.arms.others;
    assert Pow2(2) == 4 && ArmCount(second) == 1 && ArmCount(c.arms) == 2;
    assert StructuredArms(second.others, 4) && StructuredArms(second, 4) && StructuredArms(c.arms, 4);
    assert ArmValues(second) == {2} && DistinctValues(second) && DistinctValues(c.arms);
    assert Structured(c.rest.rest) && Structured(c.rest);
  }

  lemma BehindAgrees(now: OpenMap)
    requires now == map["m" := 1]
    ensures Agrees(BehindCells(false, false, true, false, false, false), now)
  {
    SelectsOne();
    hide Value;
    var h := BehindCells(false, false, true, false, false, false);
    assert Agrees(h.rest.rest, now);
    assert "s" !in now && AgreesGate(h.rest.gate, now);
    assert Agrees(h.rest, now);
    assert AgreesArms(h.arms.others.others, now);
    assert AgreesGate(h.arms.others.gate, now) && AgreesGate(h.arms.gate, now);
    assert AgreesArms(h.arms.others, now);
    assert AgreesArms(h.arms, now);
    assert Value(h.mpo) == 1 && FieldOf(now, "m") == 1;
  }

  lemma BehindState(now: OpenMap)
    requires now == map["m" := 1]
    ensures var h := BehindCells(false, false, true, false, false, false);
            Valid(Behind()) && Topo(h) == Behind() && Sized(h) && Agrees(h, now) && |Raw(h)| == 4
  {
    BehindIsValid();
    BehindAgrees(now);
    BehindFollowed(false, false, false);
    hide Valid, Agrees, Raw, Value;
    RawMux(BehindCells(false, false, true, false, false, false));
  }

  lemma BehindUpdated(b: bool, c: bool)
    ensures !Agrees(Update(BehindCells(false, false, true, false, b, c), true), map["m" := 1, "s" := 1])
  {
    hide Value, UpdateArms, UpdateGate, AgreesArms, AgreesGate;
    var h := Update(BehindCells(false, false, true, false, b, c), true);
    assert !h.rest.po;
  }

  lemma BehindCaptured(sense: Sense) returns (seen: (bool, bool, bool))
    ensures Capture(BehindCells(false, false, true, false, false, false), sense, true)
            == BehindCells(seen.0, false, true, false, seen.1, seen.2)
  {
    var x, y, z := FromInt(sense(Reader("a", 1)), 1), FromInt(sense(Reader("b", 1)), 1), FromInt(sense(Reader("c", 1)), 1);
    assert x == [x[0]] && y == [y[0]] && z == [z[0]];
    seen := (x[0], y[0], z[0]);
  }
}
