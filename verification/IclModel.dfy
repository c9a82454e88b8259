/** The physical shift topology (icl_model.py): a chain of slots, TDI side first. A SIB gates an
    instrument or a nested chain; a ScanMux gates one of several arms, chosen by its own select
    field. A chain is written head first, each slot carrying the rest of its chain, and a gate
    is a leaf or a nested chain, so a slot with both contents or with neither does not exist. */
module IclModel {
  import opened Bits

  datatype Direction = READ | WRITE

  datatype Alias = Alias(name: string, low: nat, high: nat)

  datatype Instrument = Instrument(
    name: string, width: nat, captureValue: int, direction: Direction, aliases: seq<Alias>)

  datatype Chain =
    | End
    | Sib(name: string, gate: Gate, rest: Chain)
    | Mux(name: string, selectWidth: nat, arms: Arms, rest: Chain)

  datatype Gate = Leaf(inst: Instrument) | Net(chain: Chain)

  datatype Arms = NoArms | Arm(value: nat, gate: Gate, others: Arms)

  // ---------------------------------------------------------------- names

  ghost function SlotNames(c: Chain): set<string> {
    match c
    case End => {}
    case Sib(name, gate, rest) => {name} + GateSlots(gate) + SlotNames(rest)
    case Mux(name, _, arms, rest) => {name} + ArmSlots(arms) + SlotNames(rest)
  }

  ghost function GateSlots(g: Gate): set<string> {
    match g
    case Leaf(_) => {}
    case Net(chain) => SlotNames(chain)
  }

  ghost function ArmSlots(a: Arms): set<string> {
    match a
    case NoArms => {}
    case Arm(_, gate, others) => GateSlots(gate) + ArmSlots(others)
  }

  ghost function InstNames(c: Chain): set<string> {
    match c
    case End => {}
    case Sib(_, gate, rest) => GateInsts(gate) + InstNames(rest)
    case Mux(_, _, arms, rest) => ArmInsts(arms) + InstNames(rest)
  }

  ghost function GateInsts(g: Gate): set<string> {
    match g
    case Leaf(inst) => {inst.name}
    case Net(chain) => InstNames(chain)
  }

  ghost function ArmInsts(a: Arms): set<string> {
    match a
    case NoArms => {}
    case Arm(_, gate, others) => GateInsts(gate) + ArmInsts(others)
  }

  /** Every slot name is used once in the whole tree. */
  ghost predicate UniqueSlots(c: Chain) {
    match c
    case End => true
    case Sib(name, gate, rest) =>
      && UniqueGateSlots(gate) && UniqueSlots(rest)
      && name !in GateSlots(gate) && name !in SlotNames(rest)
      && GateSlots(gate) !! SlotNames(rest)
    case Mux(name, _, arms, rest) =>
      && UniqueArmSlots(arms) && UniqueSlots(rest)
      && name !in ArmSlots(arms) && name !in SlotNames(rest)
      && ArmSlots(arms) !! SlotNames(rest)
  }

  ghost predicate UniqueGateSlots(g: Gate) {
    g.Leaf? || UniqueSlots(g.chain)
  }

  ghost predicate UniqueArmSlots(a: Arms) {
    match a
    case NoArms => true
    case Arm(_, gate, others) =>
      UniqueGateSlots(gate) && UniqueArmSlots(others) && GateSlots(gate) !! ArmSlots(others)
  }

  /** Every instrument name is used once in the whole tree. */
  ghost predicate UniqueInsts(c: Chain) {
    match c
    case End => true
    case Sib(_, gate, rest) =>
      UniqueGateInsts(gate) && UniqueInsts(rest) && GateInsts(gate) !! InstNames(rest)
    case Mux(_, _, arms, rest) =>
      UniqueArmInsts(arms) && UniqueInsts(rest) && ArmInsts(arms) !! InstNames(rest)
  }

  ghost predicate UniqueGateInsts(g: Gate) {
    g.Leaf? || UniqueInsts(g.chain)
  }

  ghost predicate UniqueArmInsts(a: Arms) {
    match a
    case NoArms => true
    case Arm(_, gate, others) =>
      UniqueGateInsts(gate) && UniqueArmInsts(others) && GateInsts(gate) !! ArmInsts(others)
  }

  // ---------------------------------------------------------------- shape

  ghost function ArmValues(a: Arms): set<nat> {
    match a
    case NoArms => {}
    case Arm(value, _, others) => {value} + ArmValues(others)
  }

  ghost predicate DistinctValues(a: Arms) {
    match a
    case NoArms => true
    case Arm(value, _, others) => value !in ArmValues(others) && DistinctValues(others)
  }

  function ArmCount(a: Arms): nat {
    match a
    case NoArms => 0
    case Arm(_, _, others) => 1 + ArmCount(others)
  }

  /** The structural half of validate_physical_graph. */
  ghost predicate Structured(c: Chain) {
    match c
    case End => true
    case Sib(_, gate, rest) => StructuredGate(gate) && Structured(rest)
    case Mux(_, selectWidth, arms, rest) =>
      && selectWidth >= 1 && ArmCount(arms) >= 2 && DistinctValues(arms)
      && StructuredArms(arms, Pow2(selectWidth)) && Structured(rest)
  }

  ghost predicate StructuredGate(g: Gate) {
    g.Leaf? || (!g.chain.End? && Structured(g.chain))
  }

  ghost predicate StructuredArms(a: Arms, limit: nat) {
    match a
    case NoArms => true
    case Arm(value, gate, others) =>
      value < limit && StructuredGate(gate) && StructuredArms(others, limit)
  }

  /** What validate_physical_graph accepts. */
  ghost predicate Valid(c: Chain) {
    UniqueSlots(c) && Structured(c)
  }

  ghost predicate SibOnly(c: Chain) {
    match c
    case End => true
    case Sib(_, gate, rest) => SibOnlyGate(gate) && SibOnly(rest)
    case Mux(_, _, _, _) => false
  }

  ghost predicate SibOnlyGate(g: Gate) {
    g.Leaf? || SibOnly(g.chain)
  }

  /** A SIB tree of any depth, optionally followed by one ScanMux in the last top-level slot
      whose arms hold instruments or SIB trees and none of whose arms claims value 0. */
  ghost predicate GoodShape(c: Chain) {
    match c
    case End => true
    case Sib(_, gate, rest) => SibOnlyGate(gate) && GoodShape(rest)
    case Mux(_, _, arms, rest) => rest.End? && GoodArms(arms)
  }

  ghost predicate GoodArms(a: Arms) {
    match a
    case NoArms => true
    case Arm(value, gate, others) =>
      && value != 0 && SibOnlyGate(gate) && GoodArms(others)
      && (gate.Leaf? ==> gate.inst.width >= 1)
  }

  lemma {:induction false} SibOnlyIsGood(c: Chain)
    requires SibOnly(c)
    ensures GoodShape(c)
  {
    if c.Sib? {
      SibOnlyIsGood(c.rest);
    }
  }
}
