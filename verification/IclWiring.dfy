/** What the emitted bindings wire up: following the scan path of the records backwards, from the scan output the
    network ends at to TDI, passes the network's registers in chain order, whichever slots are open. */
module IclWiring {
  import opened Wrappers
  import opened IclModel
  import opened SibLayout
  import opened IclRecords

  /** One register on the scan path: a slot's own select register, or an instrument. */
  datatype Segment = Select(slot: string, width: nat) | Content(inst: string, width: nat)

  // ---------------------------------------------------------------- on the records

  /** The scan input a value of the select register takes; none where no arm is listed for it. */
  function Taken(arms: seq<ArmRecord>, value: int): Option<Port> {
    if arms == [] then None
    else if arms[0].value == value then Some(arms[0].from)
    else Taken(arms[1..], value)
  }

  /** What the modules of icl_emit.py shift through, from TDI up to `port`, when `open` is in the select
      registers: a SIB's register takes `fromSO` when set and SI otherwise, a ScanMux's the arm of its value, and
      SI, as in bypass, for a value no arm lists; toSI passes SI on. None when `fuel` hops do not reach TDI. */
  function Trace(all: seq<Record>, open: OpenMap, port: Port, fuel: nat): Option<seq<Segment>>
    decreases fuel
  {
    if port.Tdi? then Some([])
    else if fuel == 0 then None
    else match Lookup(all, port)
      case None => None
      case Some(r) =>
        if port.ToSI? then Trace(all, open, r.si, fuel - 1)
        else match r
          case SibRecord(inst, si, from) =>
            var name := Strip(inst, SIB_INSTANCE_PREFIX);
            Then(Trace(all, open, if name in open then from else si, fuel - 1), Select(name, 1))
          case MuxRecord(inst, si, width, arms) =>
            var name := Strip(inst, SCAN_MUX_MODULE_PREFIX);
            var taken := if name in open then Taken(arms, open[name]) else None;
            Then(Trace(all, open, if taken.Some? then taken.value else si, fuel - 1), Select(name, width))
          case InstrRecord(inst, si, width, _) =>
            Then(Trace(all, open, si, fuel - 1), Content(Strip(inst, INSTRUMENT_MODULE_PREFIX), width))
  }

  function Then(before: Option<seq<Segment>>, next: Segment): Option<seq<Segment>> {
    match before case None => None case Some(segments) => Some(segments + [next])
  }

  // ---------------------------------------------------------------- on the tree

  /** The registers of the live chain, nearest TDI first. */
  function Registers(c: Chain, open: OpenMap): seq<Segment> {
    match c
    case End => []
    case Sib(name, gate, rest) =>
      (if name in open then GateRegisters(gate, open) else []) + [Select(name, 1)] + Registers(rest, open)
    case Mux(name, width, arms, rest) =>
      (if name in open then ArmRegisters(arms, open[name], open) else []) + [Select(name, width)] + Registers(rest, open)
  }

  function GateRegisters(g: Gate, open: OpenMap): seq<Segment> {
    match g
    case Leaf(inst) => [Content(inst.name, inst.width)]
    case Net(chain) => Registers(chain, open)
  }

  function ArmRegisters(a: Arms, value: int, open: OpenMap): seq<Segment> {
    match a
    case NoArms => []
    case Arm(v, gate, others) => if v == value then GateRegisters(gate, open) else ArmRegisters(others, value, open)
  }

  function Width(segments: seq<Segment>): nat {
    if segments == [] then 0 else segments[0].width + Width(segments[1..])
  }

  lemma {:induction false} WidthJoin(a: seq<Segment>, b: seq<Segment>)
    ensures Width(a + b) == Width(a) + Width(b)
  {
    if a == [] {
      assert a + b == b;
    } else {
      assert (a + b)[1..] == a[1..] + b;
      WidthJoin(a[1..], b);
    }
  }

  /** They are as many bits as layout_bit_length counts. */
  lemma {:induction false} RegistersLength(c: Chain, open: OpenMap)
    ensures Width(Registers(c, open)) == Length(c, open)
  {
    match c
    case End =>
    case Sib(name, gate, rest) =>
      RegistersLength(rest, open);
      var inner := if name in open then GateRegisters(gate, open) else [];
      WidthJoin(inner + [Select(name, 1)], Registers(rest, open));
      WidthJoin(inner, [Select(name, 1)]);
      GateRegistersLength(gate, open);
    case Mux(name, width, arms, rest) =>
      RegistersLength(rest, open);
      var inner := if name in open then ArmRegisters(arms, open[name], open) else [];
      WidthJoin(inner + [Select(name, width)], Registers(rest, open));
      WidthJoin(inner, [Select(name, width)]);
      if name in open {
        ArmRegistersLength(arms, open[name], open);
      }
  }

  lemma {:induction false} GateRegistersLength(g: Gate, open: OpenMap)
    ensures Width(GateRegisters(g, open)) == GateLength(g, open)
  {
    match g
    case Leaf(inst) => assert GateRegisters(g, open)[1..] == [];
    case Net(chain) => RegistersLength(chain, open);
  }

  lemma {:induction false} ArmRegistersLength(a: Arms, value: int, open: OpenMap)
    ensures Width(ArmRegisters(a, value, open)) == ArmLength(a, value, open)
  {
    match a
    case NoArms =>
    case Arm(v, gate, others) =>
      GateRegistersLength(gate, open);
      ArmRegistersLength(others, value, open);
  }

  // ---------------------------------------------------------------- the path is the chain

  /** More hops than are needed change nothing. */
  lemma {:induction false} TraceSettles(all: seq<Record>, open: OpenMap, port: Port, fuel: nat, more: nat)
    requires fuel <= more && Trace(all, open, port, fuel).Some?
    ensures Trace(all, open, port, more) == Trace(all, open, port, fuel)
    decreases fuel
  {
    hide Lookup, Strip, Taken;
    if !port.Tdi? {
      var r := Lookup(all, port).value;
      if port.ToSI? || r.InstrRecord? {
        TraceSettles(all, open, r.si, fuel - 1, more - 1);
      } else if r.SibRecord? {
        TraceSettles(all, open, if Strip(r.inst, SIB_INSTANCE_PREFIX) in open then r.fromSO else r.si,
                     fuel - 1, more - 1);
      } else {
        var name := Strip(r.inst, SCAN_MUX_MODULE_PREFIX);
        var taken := if name in open then Taken(r.arms, open[name]) else None;
        TraceSettles(all, open, if taken.Some? then taken.value else r.si, fuel - 1, more - 1);
      }
    }
  }

  /** `port` is reached from TDI in `fuel` hops, past `segments`. */
  ghost predicate Reached(all: seq<Record>, open: OpenMap, port: Port, fuel: nat, segments: seq<Segment>) {
    Trace(all, open, port, fuel) == Some(segments)
  }

  lemma ReachedLater(all: seq<Record>, open: OpenMap, port: Port, fuel: nat, more: nat, segments: seq<Segment>)
    requires fuel <= more && Reached(all, open, port, fuel, segments)
    ensures Reached(all, open, port, more, segments)
  {
    TraceSettles(all, open, port, fuel, more);
  }

  lemma KnownHere(all: seq<Record>, part: seq<Record>, r: Record, p: Port)
    requires Known(all, part) && r in part && !p.Tdi? && p.inst == r.inst
    ensures Lookup(all, p) == Some(r)
  {
  }

  /** toSI of a slot is its scan input. */
  lemma EntryReached(all: seq<Record>, part: seq<Record>, open: OpenMap, r: Record, fuel: nat, segments: seq<Segment>)
    requires Known(all, part) && r in part && Reached(all, open, r.si, fuel, segments)
    ensures Reached(all, open, ToSI(r.inst), fuel + 1, segments)
  {
    KnownHere(all, part, r, ToSI(r.inst));
  }

  lemma SibReached(all: seq<Record>, part: seq<Record>, open: OpenMap, name: string, si: Port, from: Port,
                   fuel: nat, segments: seq<Segment>)
    requires Known(all, part) && SibRecord(SibInstance(name), si, from) in part
    requires Reached(all, open, if name in open then from else si, fuel, segments)
    ensures Reached(all, open, SO(SibInstance(name)), fuel + 1, segments + [Select(name, 1)])
  {
    KnownHere(all, part, SibRecord(SibInstance(name), si, from), SO(SibInstance(name)));
    StripPrefix(SIB_INSTANCE_PREFIX, name);
  }

  lemma MuxReached(all: seq<Record>, part: seq<Record>, open: OpenMap, name: string, si: Port, width: nat,
                   arms: seq<ArmRecord>, from: Port, fuel: nat, segments: seq<Segment>)
    requires Known(all, part) && MuxRecord(MuxInstance(name), si, width, arms) in part
    requires var taken := if name in open then Taken(arms, open[name]) else None;
             from == if taken.Some? then taken.value else si
    requires Reached(all, open, from, fuel, segments)
    ensures Reached(all, open, SO(MuxInstance(name)), fuel + 1, segments + [Select(name, width)])
  {
    KnownHere(all, part, MuxRecord(MuxInstance(name), si, width, arms), SO(MuxInstance(name)));
    StripPrefix(SCAN_MUX_MODULE_PREFIX, name);
  }

  lemma InstrReached(all: seq<Record>, part: seq<Record>, open: OpenMap, inst: Instrument, si: Port,
                     fuel: nat, segments: seq<Segment>)
    requires Known(all, part) && InstrRecord(InstrInstance(inst.name), si, inst.width, inst.direction) in part
    requires Reached(all, open, si, fuel, segments)
    ensures Reached(all, open, SO(InstrInstance(inst.name)), fuel + 1, segments + [Content(inst.name, inst.width)])
  {
    KnownHere(all, part, InstrRecord(InstrInstance(inst.name), si, inst.width, inst.direction),
              SO(InstrInstance(inst.name)));
    StripPrefix(INSTRUMENT_MODULE_PREFIX, inst.name);
  }

  /** Past a chain that starts at `prev`: its registers, in its order. */
  lemma {:induction false} ChainReached(c: Chain, prev: Port, all: seq<Record>, open: OpenMap,
                                        fuel: nat, before: seq<Segment>)
    requires Known(all, Emit(c, prev)) && Reached(all, open, prev, fuel, before)
    ensures Reached(all, open, Final(c, prev), fuel + 2 * |Emit(c, prev)|, before + Registers(c, open))
    decreases c, 1
  {
    hide Known, Reached;
    match c
    case End => assert before + [] == before;
    case Sib(_, _, _) => SibSlotReached(c, prev, all, open, fuel, before);
    case Mux(_, _, _, _) => MuxSlotReached(c, prev, all, open, fuel, before);
  }

  lemma {:induction false} SibSlotReached(c: Chain, prev: Port, all: seq<Record>, open: OpenMap,
                                          fuel: nat, before: seq<Segment>)
    requires c.Sib? && Known(all, Emit(c, prev)) && Reached(all, open, prev, fuel, before)
    ensures Reached(all, open, Final(c, prev), fuel + 2 * |Emit(c, prev)|, before + Registers(c, open))
    decreases c, 0
  {
    hide Known, Reached, EmitGate, GateFinal, GateRegisters, SibInstance;
    var name := c.name;
    var s := SibInstance(name);
    var head := SibRecord(s, prev, GateFinal(c.gate, ToSI(s)));
    var inner, behind := EmitGate(c.gate, ToSI(s)), Emit(c.rest, SO(s));
    KnownParts(all, [head] + inner, behind);
    KnownParts(all, [head], inner);
    var reach := fuel + 1 + 2 * |inner|;
    var content := if name in open then GateRegisters(c.gate, open) else [];
    if name in open {
      EntryReached(all, [head], open, head, fuel, before);
      GateReached(c.gate, ToSI(s), all, open, fuel + 1, before);
    } else {
      ReachedLater(all, open, prev, fuel, reach, before);
      assert before + [] == before;
    }
    SibReached(all, [head], open, name, prev, head.fromSO, reach, before + content);
    ChainReached(c.rest, SO(s), all, open, reach + 1, before + content + [Select(name, 1)]);
    Regroup(before, content, [Select(name, 1)], Registers(c.rest, open));
  }

  lemma {:induction false} MuxSlotReached(c: Chain, prev: Port, all: seq<Record>, open: OpenMap,
                                          fuel: nat, before: seq<Segment>)
    requires c.Mux? && Known(all, Emit(c, prev)) && Reached(all, open, prev, fuel, before)
    ensures Reached(all, open, Final(c, prev), fuel + 2 * |Emit(c, prev)|, before + Registers(c, open))
    decreases c, 0
  {
    hide Known, Reached, EmitArms, ArmBindings, ArmRegisters, MuxInstance, Taken;
    var name, width := c.name, c.selectWidth;
    var m := MuxInstance(name);
    var bindings := ArmBindings(c.arms, ToSI(m));
    var head := MuxRecord(m, prev, width, bindings);
    var inner, behind := EmitArms(c.arms, ToSI(m)), Emit(c.rest, SO(m));
    KnownParts(all, [head] + inner, behind);
    KnownParts(all, [head], inner);
    var reach := fuel + 1 + 2 * |inner|;
    var taken := if name in open then Taken(bindings, open[name]) else None;
    var from := if taken.Some? then taken.value else prev;
    var content := if name in open then ArmRegisters(c.arms, open[name], open) else [];
    if name in open {
      EntryReached(all, [head], open, head, fuel, before);
      ArmReached(c.arms, ToSI(m), all, open, open[name], fuel + 1, before);
    }
    if taken.None? {
      ReachedLater(all, open, prev, fuel, reach, before);
      assert before + [] == before;
    }
    MuxReached(all, [head], open, name, prev, width, bindings, from, reach, before + content);
    ChainReached(c.rest, SO(m), all, open, reach + 1, before + content + [Select(name, width)]);
    Regroup(before, content, [Select(name, width)], Registers(c.rest, open));
  }

  lemma Regroup(a: seq<Segment>, b: seq<Segment>, c: seq<Segment>, d: seq<Segment>)
    ensures a + b + c + d == a + (b + c + d)
  {
  }

  lemma KnownParts(all: seq<Record>, a: seq<Record>, b: seq<Record>)
    requires Known(all, a + b)
    ensures Known(all, a) && Known(all, b)
  {
  }

  lemma {:induction false} GateReached(g: Gate, entry: Port, all: seq<Record>, open: OpenMap,
                                       fuel: nat, before: seq<Segment>)
    requires Known(all, EmitGate(g, entry)) && Reached(all, open, entry, fuel, before)
    ensures Reached(all, open, GateFinal(g, entry), fuel + 2 * |EmitGate(g, entry)|, before + GateRegisters(g, open))
    decreases g
  {
    hide Known, Reached;
    match g
    case Leaf(inst) =>
      InstrReached(all, EmitGate(g, entry), open, inst, entry, fuel, before);
      ReachedLater(all, open, GateFinal(g, entry), fuel + 1, fuel + 2, before + GateRegisters(g, open));
    case Net(chain) => ChainReached(chain, entry, all, open, fuel, before);
  }

  /** Past the arm the value takes. */
  lemma {:induction false} ArmReached(a: Arms, entry: Port, all: seq<Record>, open: OpenMap, value: int,
                                      fuel: nat, before: seq<Segment>)
    requires Known(all, EmitArms(a, entry)) && Reached(all, open, entry, fuel, before)
    ensures Taken(ArmBindings(a, entry), value).None? ==> ArmRegisters(a, value, open) == []
    ensures Taken(ArmBindings(a, entry), value).Some? ==>
      Reached(all, open, Taken(ArmBindings(a, entry), value).value, fuel + 2 * |EmitArms(a, entry)|,
              before + ArmRegisters(a, value, open))
    decreases a
  {
    hide Known, Reached, EmitGate, GateFinal, GateRegisters;
    match a
    case NoArms =>
    case Arm(v, gate, others) =>
      var here, behind := EmitGate(gate, entry), EmitArms(others, entry);
      KnownParts(all, here, behind);
      var bindings := ArmBindings(a, entry);
      assert bindings[1..] == ArmBindings(others, entry);
      GateReached(gate, entry, all, open, fuel, before);
      ArmReached(others, entry, all, open, value, fuel, before);
      var taken := Taken(bindings, value);
      if taken.Some? {
        ReachedLater(all, open, taken.value, fuel + 2 * if v == value then |here| else |behind|,
                     fuel + 2 * |EmitArms(a, entry)|, before + ArmRegisters(a, value, open));
      }
  }

  /** The emitted network is the network: for every tree without instance-name collisions and every choice of open
      slots, following the bindings backwards from the scan output the top module's TDO takes visits, nearest TDI
      first, exactly the registers of the live chain. */
  lemma WiredInOrder(c: Chain, open: OpenMap, fuel: nat)
    requires CollisionFree(Emit(c, Tdi)) && fuel >= 2 * |Emit(c, Tdi)|
    ensures Trace(Emit(c, Tdi), open, Final(c, Tdi), fuel) == Some(Registers(c, open))
  {
    hide Trace, Emit, CollisionFree, Known;
    var all := Emit(c, Tdi);
    AllKnown(all);
    assert Reached(all, open, Tdi, 0, []) by {
      TdiReached(all, open);
    }
    ChainReached(c, Tdi, all, open, 0, []);
    assert [] + Registers(c, open) == Registers(c, open);
    ReachedLater(all, open, Final(c, Tdi), 2 * |all|, fuel, Registers(c, open));
  }

  lemma TdiReached(all: seq<Record>, open: OpenMap)
    ensures Trace(all, open, Tdi, 0) == Some([])
  {
  }

  // ---------------------------------------------------------------- when instances do not collide

  /** No slot is called so that its instance would be named like a ScanMux's or an instrument's. */
  ghost predicate PlainNames(slots: set<string>) {
    forall n :: n in slots ==> !("scan_mux_" <= n) && !("instr_" <= n)
  }

  /** The record is the instance of one of these slots or instruments. */
  ghost predicate InstanceOf(r: Record, slots: set<string>, insts: set<string>) {
    || (exists n :: n in slots && (r.inst == SibInstance(n) || r.inst == MuxInstance(n)))
    || (exists n :: n in insts && r.inst == InstrInstance(n))
  }

  ghost predicate AllInstances(recs: seq<Record>, slots: set<string>, insts: set<string>) {
    forall r :: r in recs ==> InstanceOf(r, slots, insts)
  }

  lemma SlotInstances(a: string, b: string)
    requires a != b && !("scan_mux_" <= a)
    ensures SibInstance(a) != SibInstance(b) && SibInstance(a) != MuxInstance(b) && MuxInstance(a) != MuxInstance(b)
  {
    assert SibInstance(a)[|SIB_INSTANCE_PREFIX|..] == a && SibInstance(b)[|SIB_INSTANCE_PREFIX|..] == b;
    assert MuxInstance(a)[|SCAN_MUX_MODULE_PREFIX|..] == a && MuxInstance(b)[|SCAN_MUX_MODULE_PREFIX|..] == b;
    assert MuxInstance(b)[|SIB_INSTANCE_PREFIX|..] == "scan_mux_" + b;
  }

  lemma InstrInstances(a: string, b: string)
    ensures a != b ==> InstrInstance(a) != InstrInstance(b)
    ensures InstrInstance(a) != MuxInstance(b)
    ensures !("instr_" <= b) ==> InstrInstance(a) != SibInstance(b)
  {
    assert InstrInstance(a)[|INSTRUMENT_MODULE_PREFIX|..] == a && InstrInstance(b)[|INSTRUMENT_MODULE_PREFIX|..] == b;
    assert InstrInstance(a)[8] == 'i' && MuxInstance(b)[8] == 's';
    assert InstrInstance(a)[|SIB_INSTANCE_PREFIX|..] == "instr_" + a && SibInstance(b)[|SIB_INSTANCE_PREFIX|..] == b;
  }

  lemma InstancesApart(a: seq<Record>, b: seq<Record>, slots: set<string>, insts: set<string>,
                       otherSlots: set<string>, otherInsts: set<string>)
    requires AllInstances(a, slots, insts) && AllInstances(b, otherSlots, otherInsts)
    requires slots !! otherSlots && insts !! otherInsts && PlainNames(slots) && PlainNames(otherSlots)
    ensures Apart(a, b)
  {
    hide SibInstance, MuxInstance, InstrInstance;
    forall r, s | r in a && s in b ensures r.inst != s.inst {
      if n :| n in slots && (r.inst == SibInstance(n) || r.inst == MuxInstance(n)) {
        if m :| m in otherSlots && (s.inst == SibInstance(m) || s.inst == MuxInstance(m)) {
          SlotInstances(n, m);
          SlotInstances(m, n);
        } else {
          var m :| m in otherInsts && s.inst == InstrInstance(m);
          InstrInstances(m, n);
        }
      } else {
        var n :| n in insts && r.inst == InstrInstance(n);
        if m :| m in otherSlots && (s.inst == SibInstance(m) || s.inst == MuxInstance(m)) {
          InstrInstances(n, m);
        } else {
          var m :| m in otherInsts && s.inst == InstrInstance(m);
          InstrInstances(n, m);
        }
      }
    }
  }

  lemma JoinApart(a: seq<Record>, b: seq<Record>, slots: set<string>, insts: set<string>,
                  otherSlots: set<string>, otherInsts: set<string>)
    requires AllInstances(a, slots, insts) && AllInstances(b, otherSlots, otherInsts)
    requires slots !! otherSlots && insts !! otherInsts && PlainNames(slots) && PlainNames(otherSlots)
    requires CollisionFree(a) && CollisionFree(b)
    ensures CollisionFree(a + b) && AllInstances(a + b, slots + otherSlots, insts + otherInsts)
  {
    hide PlainNames, SibInstance, MuxInstance, InstrInstance;
    InstancesApart(a, b, slots, insts, otherSlots, otherInsts);
    forall i, j | 0 <= i < j < |a + b| ensures (a + b)[i].inst != (a + b)[j].inst {
      if i < |a| <= j {
        assert (a + b)[i] in a && (a + b)[j] in b;
      }
    }
    forall r | r in a + b ensures InstanceOf(r, slots + otherSlots, insts + otherInsts) {
      if r in a {
        assert InstanceOf(r, slots, insts);
      } else {
        assert InstanceOf(r, otherSlots, otherInsts);
      }
    }
  }

  /** With unique slot and instrument names, none of them taken for another kind's, no two instances collide. */
  lemma {:induction false} NamesDoNotCollide(c: Chain, prev: Port)
    requires UniqueSlots(c) && UniqueInsts(c) && PlainNames(SlotNames(c))
    ensures CollisionFree(Emit(c, prev)) && AllInstances(Emit(c, prev), SlotNames(c), InstNames(c))
    decreases c
  {
    hide AllInstances, CollisionFree, EmitGate, EmitArms, ArmBindings, GateFinal, PlainNames, GateSlots, ArmSlots,
         GateInsts, ArmInsts;
    match c
    case End => NoInstances();
    case Sib(name, gate, rest) =>
      var s := SibInstance(name);
      var head := SibRecord(s, prev, GateFinal(gate, ToSI(s)));
      PlainParts({name}, GateSlots(gate), SlotNames(rest));
      OneInstance(head, name);
      GateNames(gate, ToSI(s));
      NamesDoNotCollide(rest, SO(s));
      JoinApart([head], EmitGate(gate, ToSI(s)), {name}, {}, GateSlots(gate), GateInsts(gate));
      JoinApart([head] + EmitGate(gate, ToSI(s)), Emit(rest, SO(s)), {name} + GateSlots(gate), {} + GateInsts(gate),
                SlotNames(rest), InstNames(rest));
      assert {} + GateInsts(gate) == GateInsts(gate);
    case Mux(name, width, arms, rest) =>
      var m := MuxInstance(name);
      var head := MuxRecord(m, prev, width, ArmBindings(arms, ToSI(m)));
      PlainParts({name}, ArmSlots(arms), SlotNames(rest));
      OneInstance(head, name);
      ArmNames(arms, ToSI(m));
      NamesDoNotCollide(rest, SO(m));
      JoinApart([head], EmitArms(arms, ToSI(m)), {name}, {}, ArmSlots(arms), ArmInsts(arms));
      JoinApart([head] + EmitArms(arms, ToSI(m)), Emit(rest, SO(m)), {name} + ArmSlots(arms), {} + ArmInsts(arms),
                SlotNames(rest), InstNames(rest));
      assert {} + ArmInsts(arms) == ArmInsts(arms);
  }

  lemma NoInstances()
    ensures CollisionFree([]) && AllInstances([], {}, {})
  {
  }

  lemma OneInstance(r: Record, name: string)
    requires r.inst == SibInstance(name) || r.inst == MuxInstance(name)
    ensures CollisionFree([r]) && AllInstances([r], {name}, {})
  {
    hide SibInstance, MuxInstance;
    assert name in {name};
  }

  lemma PlainParts(a: set<string>, b: set<string>, c: set<string>)
    requires PlainNames(a + b + c)
    ensures PlainNames(a) && PlainNames(b) && PlainNames(c) && PlainNames(a + b)
  {
  }

  lemma {:induction false} GateNames(g: Gate, entry: Port)
    requires UniqueGateSlots(g) && UniqueGateInsts(g) && PlainNames(GateSlots(g))
    ensures CollisionFree(EmitGate(g, entry)) && AllInstances(EmitGate(g, entry), GateSlots(g), GateInsts(g))
    decreases g
  {
    match g
    case Leaf(inst) =>
      hide InstrInstance, PlainNames;
      assert inst.name in GateInsts(g);
    case Net(chain) => NamesDoNotCollide(chain, entry);
  }

  lemma {:induction false} ArmNames(a: Arms, entry: Port)
    requires UniqueArmSlots(a) && UniqueArmInsts(a) && PlainNames(ArmSlots(a))
    ensures CollisionFree(EmitArms(a, entry)) && AllInstances(EmitArms(a, entry), ArmSlots(a), ArmInsts(a))
    decreases a
  {
    hide AllInstances, CollisionFree, EmitGate, PlainNames, GateSlots, GateInsts;
    match a
    case NoArms => NoInstances();
    case Arm(value, gate, others) =>
      assert GateSlots(gate) + ArmSlots(others) + {} == ArmSlots(a);
      PlainParts(GateSlots(gate), ArmSlots(others), {});
      GateNames(gate, entry);
      ArmNames(others, entry);
      JoinApart(EmitGate(gate, entry), EmitArms(others, entry), GateSlots(gate), GateInsts(gate),
                ArmSlots(others), ArmInsts(others));
  }
}
