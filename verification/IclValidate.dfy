/** validate_physical_graph (icl_model.py) as it runs: one walk that fills the set of names seen so far
    and, per ScanMux, the set of values claimed. It accepts exactly the trees IclModel calls valid. */
module IclValidate {
  import opened Wrappers
  import opened Bits
  import opened IclModel

  /** What a walk over one part accepts, given the names already seen. */
  ghost predicate Accepts(c: Chain, seen: set<string>) {
    Structured(c) && UniqueSlots(c) && seen !! SlotNames(c)
  }

  ghost predicate AcceptsGate(g: Gate, seen: set<string>) {
    StructuredGate(g) && UniqueGateSlots(g) && seen !! GateSlots(g)
  }

  ghost predicate AcceptsArms(a: Arms, limit: nat, seen: set<string>, claimed: set<nat>) {
    && StructuredArms(a, limit) && UniqueArmSlots(a) && seen !! ArmSlots(a)
    && DistinctValues(a) && claimed !! ArmValues(a)
  }

  method WalkChain(c: Chain, seen: set<string>) returns (now: Option<set<string>>)
    ensures now == if Accepts(c, seen) then Some(seen + SlotNames(c)) else None
    decreases c
  {
    match c
    case End =>
      assert seen + {} == seen;
      return Some(seen);
    case Sib(name, gate, rest) =>
      if name in seen {
        return None;
      }
      var inner := WalkGate(gate, seen + {name});
      if inner.None? {
        return None;
      }
      now := WalkChain(rest, inner.value);
      assert inner.value !! SlotNames(rest) <==>
             seen !! SlotNames(rest) && name !in SlotNames(rest) && GateSlots(gate) !! SlotNames(rest);
      if now.Some? {
        assert now.value == seen + SlotNames(c);
      }
    case Mux(name, selectWidth, arms, rest) =>
      if name in seen || selectWidth < 1 || ArmCount(arms) < 2 {
        return None;
      }
      var inner := WalkArms(arms, Pow2(selectWidth), seen + {name}, {});
      if inner.None? {
        return None;
      }
      now := WalkChain(rest, inner.value);
      assert inner.value !! SlotNames(rest) <==>
             seen !! SlotNames(rest) && name !in SlotNames(rest) && ArmSlots(arms) !! SlotNames(rest);
      if now.Some? {
        assert now.value == seen + SlotNames(c);
      }
  }

  method WalkGate(g: Gate, seen: set<string>) returns (now: Option<set<string>>)
    ensures now == if AcceptsGate(g, seen) then Some(seen + GateSlots(g)) else None
    decreases g
  {
    match g
    case Leaf(_) =>
      assert seen + {} == seen;
      return Some(seen);
    case Net(chain) =>
      if chain.End? {
        return None;
      }
      now := WalkChain(chain, seen);
  }

  method WalkArms(a: Arms, limit: nat, seen: set<string>, claimed: set<nat>) returns (now: Option<set<string>>)
    ensures now == if AcceptsArms(a, limit, seen, claimed) then Some(seen + ArmSlots(a)) else None
    decreases a
  {
    match a
    case NoArms =>
      assert seen + {} == seen;
      return Some(seen);
    case Arm(value, gate, others) =>
      if value >= limit || value in claimed {
        return None;
      }
      var inner := WalkGate(gate, seen);
      if inner.None? {
        return None;
      }
      now := WalkArms(others, limit, inner.value, claimed + {value});
      assert inner.value !! ArmSlots(others) <==> seen !! ArmSlots(others) && GateSlots(gate) !! ArmSlots(others);
      assert claimed + {value} !! ArmValues(others) <==> claimed !! ArmValues(others) && value !in ArmValues(others);
      if now.Some? {
        assert now.value == seen + ArmSlots(a);
      }
  }

  method ValidatePhysicalGraph(c: Chain) returns (ok: bool)
    ensures ok <==> Valid(c)
  {
    var seen := WalkChain(c, {});
    return seen.Some?;
  }
}
