/** What validate_physical_graph promises (icl_model.py), said of the tree as a whole: no name twice in the list of
    all its slots, and every slot by itself well made. */
module IclShape {
  import opened Bits
  import opened IclModel

  predicate Distinct<T(==)>(s: seq<T>) { forall i, j :: 0 <= i < j < |s| ==> s[i] != s[j] }

  lemma DistinctJoin<T>(a: seq<T>, b: seq<T>)
    ensures Distinct(a + b) <==> Distinct(a) && Distinct(b) && forall x :: x in a ==> x !in b
  {
    var s := a + b;
    if Distinct(s) {
      forall i, j | 0 <= i < j < |a| ensures a[i] != a[j] {
        assert s[i] != s[j];
      }
      forall i, j | 0 <= i < j < |b| ensures b[i] != b[j] {
        assert s[|a| + i] != s[|a| + j];
      }
      forall i, j | 0 <= i < |a| && 0 <= j < |b| ensures a[i] != b[j] {
        assert s[i] != s[|a| + j];
      }
    }
    if Distinct(a) && Distinct(b) && forall x :: x in a ==> x !in b {
      forall i, j | 0 <= i < j < |s| ensures s[i] != s[j] {
        if i < |a| <= j {
          assert s[i] in a && s[j] in b;
        }
      }
    }
  }

  // ---------------------------------------------------------------- names

  /** The names of all slots, each ahead of what it gates. */
  function Names(c: Chain): seq<string> {
    match c
    case End => []
    case Sib(name, gate, rest) => [name] + GateNames(gate) + Names(rest)
    case Mux(name, _, arms, rest) => [name] + ArmNames(arms) + Names(rest)
  }

  function GateNames(g: Gate): seq<string> {
    match g
    case Leaf(_) => []
    case Net(chain) => Names(chain)
  }

  function ArmNames(a: Arms): seq<string> {
    match a
    case NoArms => []
    case Arm(_, gate, others) => GateNames(gate) + ArmNames(others)
  }

  lemma ThreeDistinct(name: string, inner: seq<string>, behind: seq<string>)
    ensures Distinct([name] + inner + behind)
            <==> && Distinct(inner) && Distinct(behind) && name !in inner && name !in behind
                 && forall x :: x in inner ==> x !in behind
  {
    DistinctJoin([name] + inner, behind);
    DistinctJoin([name], inner);
    assert forall x :: x in [name] + inner <==> x == name || x in inner;
  }

  lemma {:induction false} NamesAre(c: Chain)
    ensures forall n :: n in Names(c) <==> n in SlotNames(c)
    ensures UniqueSlots(c) <==> Distinct(Names(c))
  {
    hide Distinct, GateNames, ArmNames, GateSlots, ArmSlots;
    match c
    case End => NothingDistinct<string>();
    case Sib(name, gate, rest) =>
      NamesAre(rest);
      GateNamesAre(gate);
      ThreeDistinct(name, GateNames(gate), Names(rest));
    case Mux(name, _, arms, rest) =>
      NamesAre(rest);
      ArmNamesAre(arms);
      ThreeDistinct(name, ArmNames(arms), Names(rest));
  }

  lemma NothingDistinct<T>()
    ensures Distinct<T>([])
  {
  }

  lemma {:induction false} GateNamesAre(g: Gate)
    ensures forall n :: n in GateNames(g) <==> n in GateSlots(g)
    ensures UniqueGateSlots(g) <==> Distinct(GateNames(g))
  {
    if g.Net? {
      NamesAre(g.chain);
    }
  }

  lemma {:induction false} ArmNamesAre(a: Arms)
    ensures forall n :: n in ArmNames(a) <==> n in ArmSlots(a)
    ensures UniqueArmSlots(a) <==> Distinct(ArmNames(a))
  {
    hide GateNames, GateSlots, UniqueGateSlots;
    if a.Arm? {
      GateNamesAre(a.gate);
      ArmNamesAre(a.others);
      DistinctJoin(GateNames(a.gate), ArmNames(a.others));
    }
  }

  // ---------------------------------------------------------------- slots

  /** Every slot of the tree, with the chain behind it. */
  ghost function SlotsOf(c: Chain): set<Chain> {
    match c
    case End => {}
    case Sib(_, gate, rest) => {c} + GateSlotsOf(gate) + SlotsOf(rest)
    case Mux(_, _, arms, rest) => {c} + ArmSlotsOf(arms) + SlotsOf(rest)
  }

  ghost function GateSlotsOf(g: Gate): set<Chain> {
    match g
    case Leaf(_) => {}
    case Net(chain) => SlotsOf(chain)
  }

  ghost function ArmSlotsOf(a: Arms): set<Chain> {
    match a
    case NoArms => {}
    case Arm(_, gate, others) => GateSlotsOf(gate) + ArmSlotsOf(others)
  }

  /** A ScanMux's arms: the value each claims and what it gates. */
  function ArmList(a: Arms): seq<(nat, Gate)> {
    match a
    case NoArms => []
    case Arm(value, gate, others) => [(value, gate)] + ArmList(others)
  }

  /** A gate gates an instrument or a network of at least one slot. */
  predicate GateOk(g: Gate) { g.Net? ==> !g.chain.End? }

  /** One slot, as the validator's messages describe it: a select field of at least one bit, two arms or more, each
      claiming a value of its own that the field can hold. */
  ghost predicate SlotOk(s: Chain) {
    && (s.Sib? ==> GateOk(s.gate))
    && (s.Mux? ==>
          var arms := ArmList(s.arms);
          && s.selectWidth >= 1 && |arms| >= 2
          && (forall k :: 0 <= k < |arms| ==> arms[k].0 < Pow2(s.selectWidth) && GateOk(arms[k].1))
          && forall i, j :: 0 <= i < j < |arms| ==> arms[i].0 != arms[j].0)
  }

  /** The values claimed, arm by arm. */
  function Claimed(a: Arms): seq<nat> {
    match a
    case NoArms => []
    case Arm(value, _, others) => [value] + Claimed(others)
  }

  lemma {:induction false} ClaimedAre(a: Arms)
    ensures |ArmList(a)| == |Claimed(a)| == ArmCount(a)
    ensures forall k :: 0 <= k < |ArmList(a)| ==> ArmList(a)[k].0 == Claimed(a)[k]
    ensures forall v :: v in Claimed(a) <==> v in ArmValues(a)
    ensures DistinctValues(a) <==> Distinct(Claimed(a))
  {
    hide Distinct;
    if a.Arm? {
      ClaimedAre(a.others);
      DistinctJoin([a.value], Claimed(a.others));
      OneDistinct(a.value);
    } else {
      NothingDistinct<nat>();
    }
  }

  lemma OneDistinct(v: nat)
    ensures Distinct([v])
  {
  }

  lemma {:induction false} StructuredIs(c: Chain)
    ensures Structured(c) <==> forall s :: s in SlotsOf(c) ==> SlotOk(s)
  {
    hide SlotOk, GateSlotsOf, ArmSlotsOf, StructuredGate, StructuredArms, Pow2;
    match c
    case End =>
    case Sib(_, gate, rest) =>
      StructuredIs(rest);
      StructuredGateIs(gate);
      SlotOkSib(c);
      assert c in SlotsOf(c);
    case Mux(_, width, arms, rest) =>
      StructuredIs(rest);
      StructuredArmsIs(arms, Pow2(width));
      SlotOkMux(c);
      assert c in SlotsOf(c);
  }

  lemma SlotOkSib(c: Chain)
    requires c.Sib?
    ensures SlotOk(c) <==> GateOk(c.gate)
  {
  }

  lemma SlotOkMux(c: Chain)
    requires c.Mux?
    ensures SlotOk(c) <==> && c.selectWidth >= 1 && ArmCount(c.arms) >= 2 && DistinctValues(c.arms)
                           && ArmsFit(c.arms, Pow2(c.selectWidth))
  {
    ClaimedAre(c.arms);
    var arms, claimed := ArmList(c.arms), Claimed(c.arms);
    if forall i, j :: 0 <= i < j < |arms| ==> arms[i].0 != arms[j].0 {
      forall i, j | 0 <= i < j < |claimed| ensures claimed[i] != claimed[j] {
        assert arms[i].0 != arms[j].0;
      }
    }
  }

  /** Every arm claims a value below the limit and gates something. */
  ghost predicate ArmsFit(a: Arms, limit: nat) {
    forall k :: 0 <= k < |ArmList(a)| ==> ArmList(a)[k].0 < limit && GateOk(ArmList(a)[k].1)
  }

  lemma {:induction false} StructuredGateIs(g: Gate)
    ensures StructuredGate(g) <==> GateOk(g) && forall s :: s in GateSlotsOf(g) ==> SlotOk(s)
  {
    hide SlotOk, SlotsOf;
    if g.Net? {
      StructuredIs(g.chain);
    }
  }

  lemma {:induction false} StructuredArmsIs(a: Arms, limit: nat)
    ensures StructuredArms(a, limit) <==> ArmsFit(a, limit) && forall s :: s in ArmSlotsOf(a) ==> SlotOk(s)
  {
    hide SlotOk, GateSlotsOf, StructuredGate, GateOk;
    if a.Arm? {
      StructuredGateIs(a.gate);
      StructuredArmsIs(a.others, limit);
      ArmsFitFirst(a, limit);
    }
  }

  lemma ArmsFitFirst(a: Arms, limit: nat)
    requires a.Arm?
    ensures ArmsFit(a, limit) <==> a.value < limit && GateOk(a.gate) && ArmsFit(a.others, limit)
  {
    hide GateOk;
    var all, rest := ArmList(a), ArmList(a.others);
    assert all[0] == (a.value, a.gate);
    if ArmsFit(a, limit) {
      forall k | 0 <= k < |rest| ensures rest[k].0 < limit && GateOk(rest[k].1) {
        assert all[k + 1] == rest[k];
      }
    }
    if a.value < limit && GateOk(a.gate) && ArmsFit(a.others, limit) {
      forall k | 0 <= k < |all| ensures all[k].0 < limit && GateOk(all[k].1) {
        assert k > 0 ==> all[k] == rest[k - 1];
      }
    }
  }

  /** A tree is valid exactly when no name is in the list of its slots twice and every slot is well made. */
  lemma ValidIs(c: Chain)
    ensures Valid(c) <==> Distinct(Names(c)) && forall s :: s in SlotsOf(c) ==> SlotOk(s)
  {
    hide Distinct, SlotOk, SlotsOf, UniqueSlots, Structured;
    NamesAre(c);
    StructuredIs(c);
  }
}
