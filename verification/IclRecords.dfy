/** ICL at the level of instance records: what icl_emit.py binds for every slot and instrument of a
    chain, and how icl_import.py claims those instances back from one shared pool. */
module IclRecords {
  import opened Wrappers
  import opened Bits
  import opened IclModel

  const SIB_INSTANCE_PREFIX := "warptap_"
  const SCAN_MUX_MODULE_PREFIX := "warptap_scan_mux_"
  const INSTRUMENT_MODULE_PREFIX := "warptap_instr_"

  /** A scan port: the top module's TDI, an instance's SO, or the toSI a SIB or ScanMux offers what
      it gates. */
  datatype Port = Tdi | SO(inst: string) | ToSI(inst: string)

  datatype ArmRecord = ArmRecord(value: nat, from: Port)

  /** One instance of the top module with its bindings. */
  datatype Record =
    | SibRecord(inst: string, si: Port, fromSO: Port)
    | MuxRecord(inst: string, si: Port, selectWidth: nat, arms: seq<ArmRecord>)
    | InstrRecord(inst: string, si: Port, width: nat, direction: Direction)

  predicate IsSlot(r: Record) { !r.InstrRecord? }

  function SibInstance(name: string): string { SIB_INSTANCE_PREFIX + name }

  function MuxInstance(name: string): string { SCAN_MUX_MODULE_PREFIX + name }

  function InstrInstance(name: string): string { INSTRUMENT_MODULE_PREFIX + name }

  // ---------------------------------------------------------------- emission

  /** Every gated instrument has a bit; the emitter refuses the rest. */
  predicate Emittable(c: Chain) {
    match c
    case End => true
    case Sib(_, gate, rest) => EmittableGate(gate) && Emittable(rest)
    case Mux(_, _, arms, rest) => EmittableArms(arms) && Emittable(rest)
  }

  predicate EmittableGate(g: Gate) {
    match g
    case Leaf(inst) => inst.width >= 1
    case Net(chain) => Emittable(chain)
  }

  predicate EmittableArms(a: Arms) {
    match a
    case NoArms => true
    case Arm(_, gate, others) => EmittableGate(gate) && EmittableArms(others)
  }

  /** The scan output a chain ends at. */
  function Final(c: Chain, prev: Port): Port {
    match c
    case End => prev
    case Sib(name, _, rest) => Final(rest, SO(SibInstance(name)))
    case Mux(name, _, _, rest) => Final(rest, SO(MuxInstance(name)))
  }

  function GateFinal(g: Gate, entry: Port): Port {
    match g
    case Leaf(inst) => SO(InstrInstance(inst.name))
    case Net(chain) => Final(chain, entry)
  }

  /** The records of a chain, each slot ahead of what it gates, in chain order. */
  function Emit(c: Chain, prev: Port): seq<Record> {
    match c
    case End => []
    case Sib(name, gate, rest) =>
      var s := SibInstance(name);
      [SibRecord(s, prev, GateFinal(gate, ToSI(s)))] + EmitGate(gate, ToSI(s)) + Emit(rest, SO(s))
    case Mux(name, width, arms, rest) =>
      var m := MuxInstance(name);
      [MuxRecord(m, prev, width, ArmBindings(arms, ToSI(m)))] + EmitArms(arms, ToSI(m)) + Emit(rest, SO(m))
  }

  function EmitGate(g: Gate, entry: Port): seq<Record> {
    match g
    case Leaf(inst) => [InstrRecord(InstrInstance(inst.name), entry, inst.width, inst.direction)]
    case Net(chain) => Emit(chain, entry)
  }

  function EmitArms(a: Arms, entry: Port): seq<Record> {
    match a
    case NoArms => []
    case Arm(_, gate, others) => EmitGate(gate, entry) + EmitArms(others, entry)
  }

  function ArmBindings(a: Arms, entry: Port): seq<ArmRecord> {
    match a
    case NoArms => []
    case Arm(value, gate, others) => [ArmRecord(value, GateFinal(gate, entry))] + ArmBindings(others, entry)
  }

  // ---------------------------------------------------------------- import

  function Strip(inst: string, prefix: string): string {
    if prefix <= inst then inst[|prefix|..] else inst
  }

  /** The instance a port belongs to, among all the top module's. */
  function Lookup(all: seq<Record>, p: Port): Option<Record> {
    if all == [] || p.Tdi? then None
    else if all[0].inst == p.inst then Some(all[0])
    else Lookup(all[1..], p)
  }

  /** Position of the first unclaimed instance fed by `p`. */
  function Claim(pool: seq<Record>, p: Port): (k: Option<nat>)
    ensures k.Some? ==> k.value < |pool|
  {
    if pool == [] then None
    else if pool[0].si == p then Some(0)
    else match Claim(pool[1..], p) case None => None case Some(k) => Some(k + 1)
  }

  function Without(pool: seq<Record>, k: nat): (r: seq<Record>)
    requires k < |pool|
    ensures |r| == |pool| - 1
  {
    pool[..k] + pool[k + 1..]
  }

  /** A recovered instrument: its capture value and aliases are not in the records. */
  function InstrumentOf(r: Record): Option<Instrument> {
    if !r.InstrRecord? || !(INSTRUMENT_MODULE_PREFIX <= r.inst) then None
    else Some(Instrument(Strip(r.inst, INSTRUMENT_MODULE_PREFIX), r.width, 0, r.direction, []))
  }

  /** A slot without the chain behind it. */
  datatype Slot = SibSlot(name: string, gate: Gate) | MuxSlot(name: string, selectWidth: nat, arms: Arms)

  function Attach(s: Slot, rest: Chain): Chain {
    match s
    case SibSlot(name, gate) => Sib(name, gate, rest)
    case MuxSlot(name, width, arms) => Mux(name, width, arms, rest)
  }

  /** From `current` to `terminal`, claiming slots from the pool; what is left of the pool comes back. */
  function Walk(pool: seq<Record>, all: seq<Record>, current: Port, terminal: Port)
    : (r: Option<(Chain, seq<Record>)>)
    ensures r.Some? ==> |r.value.1| <= |pool|
    decreases |pool|, 0
  {
    if current == terminal then Some((End, pool))
    else match Claim(pool, current)
      case None => None
      case Some(k) =>
        match Build(Without(pool, k), all, pool[k])
        case None => None
        case Some((slot, left)) =>
          match Walk(left, all, SO(pool[k].inst), terminal)
          case None => None
          case Some((rest, after)) => Some((Attach(slot, rest), after))
  }

  function Build(pool: seq<Record>, all: seq<Record>, r: Record): (b: Option<(Slot, seq<Record>)>)
    ensures b.Some? ==> |b.value.1| <= |pool|
    decreases |pool|, 3 + if r.MuxRecord? then |r.arms| else 0
  {
    match r
    case SibRecord(inst, _, from) =>
      (match BuildGate(pool, all, ToSI(inst), from)
       case None => None
       case Some((gate, left)) => Some((SibSlot(Strip(inst, SIB_INSTANCE_PREFIX), gate), left)))
    case MuxRecord(inst, _, width, arms) =>
      (match BuildArms(pool, all, ToSI(inst), arms)
       case None => None
       case Some((built, left)) =>
         if ArmCount(built) < 2 then None
         else Some((MuxSlot(Strip(inst, SCAN_MUX_MODULE_PREFIX), width, built), left)))
    case InstrRecord(_, _, _, _) => None
  }

  /** What is bound to a gate: a nested chain when it ends at a slot instance, else an instrument. */
  function BuildGate(pool: seq<Record>, all: seq<Record>, entry: Port, from: Port): (b: Option<(Gate, seq<Record>)>)
    ensures b.Some? ==> |b.value.1| <= |pool|
    decreases |pool|, 1
  {
    match Lookup(all, from)
    case None => None
    case Some(target) =>
      if IsSlot(target) then
        match Walk(pool, all, entry, from)
        case None => None
        case Some((chain, left)) => Some((Net(chain), left))
      else
        match InstrumentOf(target)
        case None => None
        case Some(inst) => Some((Leaf(inst), pool))
  }

  function BuildArms(pool: seq<Record>, all: seq<Record>, entry: Port, arms: seq<ArmRecord>)
    : (b: Option<(Arms, seq<Record>)>)
    ensures b.Some? ==> |b.value.1| <= |pool|
    decreases |pool|, 2 + |arms|
  {
    if arms == [] then Some((NoArms, pool))
    else match BuildGate(pool, all, entry, arms[0].from)
      case None => None
      case Some((gate, left)) =>
        match BuildArms(left, all, entry, arms[1..])
        case None => None
        case Some((others, after)) => Some((Arm(arms[0].value, gate, others), after))
  }

  function Slots(all: seq<Record>): seq<Record> {
    if all == [] then [] else (if IsSlot(all[0]) then [all[0]] else []) + Slots(all[1..])
  }

  /** import_icl's own part: None where it raises. */
  function Import(all: seq<Record>, tdoSource: Port): Option<Chain> {
    var slots := Slots(all);
    if slots == [] then None
    else match Walk(slots, all, Tdi, tdoSource)
      case None => None
      case Some((chain, left)) => if left == [] then Some(chain) else None
  }

  // ---------------------------------------------------------------- the loops

  /** _render_chain_instances. None where it raises. */
  method RenderChain(c: Chain, prev: Port) returns (r: Option<(seq<Record>, Port)>)
    ensures r == if Emittable(c) then Some((Emit(c, prev), Final(c, prev))) else None
    decreases c
  {
    var lines: seq<Record> := [];
    var rest, so := c, prev;
    while !rest.End?
      invariant Emittable(c) <==> Emittable(rest)
      invariant lines + Emit(rest, so) == Emit(c, prev) && Final(rest, so) == Final(c, prev)
      invariant rest == c || rest < c
      decreases rest
    {
      hide EmitGate, EmitArms, ArmBindings, GateFinal, EmittableGate, EmittableArms, SibInstance, MuxInstance;
      match rest
      case Sib(name, gate, others) =>
        var s := SibInstance(name);
        var inner := RenderGate(gate, ToSI(s));
        if inner.None? {
          return None;
        }
        var own := [SibRecord(s, so, inner.value.1)] + inner.value.0;
        AppendLines(lines, own, Emit(others, SO(s)));
        lines := lines + own;
        so, rest := SO(s), others;
      case Mux(name, width, arms, others) =>
        var m := MuxInstance(name);
        var inner := RenderArms(arms, ToSI(m));
        if inner.None? {
          return None;
        }
        var own := [MuxRecord(m, so, width, inner.value.1)] + inner.value.0;
        AppendLines(lines, own, Emit(others, SO(m)));
        lines := lines + own;
        so, rest := SO(m), others;
    }
    assert lines + [] == lines;
    return Some((lines, so));
  }

  method RenderGate(g: Gate, entry: Port) returns (r: Option<(seq<Record>, Port)>)
    ensures r == if EmittableGate(g) then Some((EmitGate(g, entry), GateFinal(g, entry))) else None
    decreases g
  {
    match g
    case Leaf(inst) =>
      if inst.width < 1 {
        return None;
      }
      return Some(([InstrRecord(InstrInstance(inst.name), entry, inst.width, inst.direction)],
                   SO(InstrInstance(inst.name))));
    case Net(chain) => r := RenderChain(chain, entry);
  }

  lemma AppendLines(a: seq<Record>, b: seq<Record>, c: seq<Record>)
    ensures a + (b + c) == (a + b) + c
  {
  }

  lemma AppendBinding(a: seq<ArmRecord>, b: ArmRecord, c: seq<ArmRecord>)
    ensures a + ([b] + c) == (a + [b]) + c
  {
  }

  method RenderArms(a: Arms, entry: Port) returns (r: Option<(seq<Record>, seq<ArmRecord>)>)
    ensures r == if EmittableArms(a) then Some((EmitArms(a, entry), ArmBindings(a, entry))) else None
    decreases a
  {
    var lines: seq<Record>, bindings: seq<ArmRecord> := [], [];
    var rest := a;
    while rest.Arm?
      invariant EmittableArms(a) <==> EmittableArms(rest)
      invariant lines + EmitArms(rest, entry) == EmitArms(a, entry)
      invariant bindings + ArmBindings(rest, entry) == ArmBindings(a, entry)
      invariant rest == a || rest < a
      decreases rest
    {
      hide EmitGate, GateFinal, EmittableGate;
      var inner := RenderGate(rest.gate, entry);
      if inner.None? {
        return None;
      }
      AppendLines(lines, inner.value.0, EmitArms(rest.others, entry));
      AppendBinding(bindings, ArmRecord(rest.value, inner.value.1), ArmBindings(rest.others, entry));
      lines := lines + inner.value.0;
      bindings := bindings + [ArmRecord(rest.value, inner.value.1)];
      rest := rest.others;
    }
    assert lines + [] == lines && bindings + [] == bindings;
    return Some((lines, bindings));
  }

  // ---------------------------------------------------------------- the round trip

  /** What the records keep of a tree: everything but capture values and aliases. */
  function Erased(c: Chain): Chain {
    match c
    case End => End
    case Sib(name, gate, rest) => Sib(name, ErasedGate(gate), Erased(rest))
    case Mux(name, width, arms, rest) => Mux(name, width, ErasedArms(arms), Erased(rest))
  }

  function ErasedGate(g: Gate): Gate {
    match g
    case Leaf(inst) => Leaf(Instrument(inst.name, inst.width, 0, inst.direction, []))
    case Net(chain) => Net(Erased(chain))
  }

  function ErasedArms(a: Arms): (r: Arms)
    ensures ArmCount(r) == ArmCount(a)
  {
    match a
    case NoArms => NoArms
    case Arm(value, gate, others) => Arm(value, ErasedGate(gate), ErasedArms(others))
  }

  /** No two instances share a name. */
  ghost predicate CollisionFree(all: seq<Record>) {
    forall i, j :: 0 <= i < j < |all| ==> all[i].inst != all[j].inst
  }

  /** Every record of `part` is what its name looks up among `all`. */
  ghost predicate Known(all: seq<Record>, part: seq<Record>) {
    forall r :: r in part ==> forall p: Port :: !p.Tdi? && p.inst == r.inst ==> Lookup(all, p) == Some(r)
  }

  lemma {:induction false} LookupFinds(all: seq<Record>, k: nat, p: Port)
    requires CollisionFree(all) && k < |all| && !p.Tdi? && p.inst == all[k].inst
    ensures Lookup(all, p) == Some(all[k])
  {
    if k > 0 {
      LookupFinds(all[1..], k - 1, p);
    }
  }

  lemma AllKnown(all: seq<Record>)
    requires CollisionFree(all)
    ensures Known(all, all)
  {
    forall r, p: Port | r in all && !p.Tdi? && p.inst == r.inst ensures Lookup(all, p) == Some(r) {
      var k :| 0 <= k < |all| && all[k] == r;
      LookupFinds(all, k, p);
    }
  }

  lemma {:induction false} SlotsJoin(a: seq<Record>, b: seq<Record>)
    ensures Slots(a + b) == Slots(a) + Slots(b)
  {
    hide IsSlot;
    if a == [] {
      assert a + b == b;
    } else {
      assert (a + b)[1..] == a[1..] + b && (a + b)[0] == a[0];
      SlotsJoin(a[1..], b);
      var here := if IsSlot(a[0]) then [a[0]] else [];
      assert here + (Slots(a[1..]) + Slots(b)) == (here + Slots(a[1..])) + Slots(b);
    }
  }

  /** A non-empty chain ends at the scan output of one of its own slots. */
  lemma {:induction false} FinalIsSlot(c: Chain, prev: Port) returns (r: Record)
    requires !c.End?
    ensures r in Emit(c, prev) && IsSlot(r) && Final(c, prev) == SO(r.inst)
  {
    match c
    case Sib(name, gate, rest) =>
      var s := SibInstance(name);
      r := SibRecord(s, prev, GateFinal(gate, ToSI(s)));
      if !rest.End? {
        r := FinalIsSlot(rest, SO(s));
      }
    case Mux(name, width, arms, rest) =>
      var m := MuxInstance(name);
      r := MuxRecord(m, prev, width, ArmBindings(arms, ToSI(m)));
      if !rest.End? {
        r := FinalIsSlot(rest, SO(m));
      }
  }

  lemma StripPrefix(prefix: string, name: string)
    ensures prefix <= prefix + name && Strip(prefix + name, prefix) == name
  {
  }

  /** `prev` is the output of none of these instances. */
  ghost predicate Outside(prev: Port, recs: seq<Record>) {
    forall r :: r in recs ==> prev != SO(r.inst)
  }

  ghost predicate Apart(a: seq<Record>, b: seq<Record>) {
    forall r, s :: r in a && s in b ==> r.inst != s.inst
  }

  lemma PartsApart(a: seq<Record>, b: seq<Record>)
    requires CollisionFree(a + b)
    ensures CollisionFree(a) && CollisionFree(b) && Apart(a, b)
  {
    var s := a + b;
    forall i, j | 0 <= i < j < |a| ensures a[i].inst != a[j].inst {
      assert s[i].inst != s[j].inst;
    }
    forall i, j | 0 <= i < j < |b| ensures b[i].inst != b[j].inst {
      assert s[|a| + i].inst != s[|a| + j].inst;
    }
    forall r, t | r in a && t in b ensures r.inst != t.inst {
      var i :| 0 <= i < |a| && a[i] == r;
      var j :| 0 <= j < |b| && b[j] == t;
      assert s[i].inst != s[|a| + j].inst;
    }
  }

  /** What a walk over one chain needs of the records around it. */
  ghost predicate Placed(all: seq<Record>, part: seq<Record>) {
    CollisionFree(part) && Known(all, part)
  }

  lemma PlacedParts(all: seq<Record>, a: seq<Record>, b: seq<Record>)
    requires Placed(all, a + b)
    ensures Placed(all, a) && Placed(all, b) && Apart(a, b)
  {
    PartsApart(a, b);
  }

  /** Claiming the slot at the head of the pool. */
  lemma WalkHead(pool: seq<Record>, all: seq<Record>, terminal: Port, slot: Slot, left: seq<Record>,
                 rest: Chain, after: seq<Record>)
    requires pool != [] && pool[0].si != terminal
    requires Build(pool[1..], all, pool[0]) == Some((slot, left))
    requires Walk(left, all, SO(pool[0].inst), terminal) == Some((rest, after))
    ensures Walk(pool, all, pool[0].si, terminal) == Some((Attach(slot, rest), after))
  {
    assert Without(pool, 0) == pool[1..];
  }

  /** A chain walked over its own records, whatever follows them in the pool, gives the chain back and
      leaves exactly what followed. */
  lemma {:induction false} WalkEmitted(c: Chain, prev: Port, tail: seq<Record>, all: seq<Record>)
    requires Structured(c) && Placed(all, Emit(c, prev)) && Outside(prev, Emit(c, prev))
    ensures Walk(Slots(Emit(c, prev)) + tail, all, prev, Final(c, prev)) == Some((Erased(c), tail))
    decreases c, 1
  {
    match c
    case End => assert [] + tail == tail;
    case Sib(_, _, _) => WalkEmittedSib(c, prev, tail, all);
    case Mux(_, _, _, _) => WalkEmittedMux(c, prev, tail, all);
  }

  /** The records of a chain are its first slot, what that slot gates, and the rest. */
  lemma Pieces(c: Chain, prev: Port, head: Record, inner: seq<Record>, behind: seq<Record>, tail: seq<Record>,
               all: seq<Record>)
    requires !c.End? && Emit(c, prev) == [head] + inner + behind && IsSlot(head)
    requires Placed(all, Emit(c, prev)) && Outside(prev, Emit(c, prev))
    ensures Placed(all, inner) && Placed(all, behind) && Outside(SO(head.inst), behind) && Final(c, prev) != prev
    ensures var pool := Slots(Emit(c, prev)) + tail;
            pool != [] && pool[0] == head && pool[1..] == Slots(inner) + (Slots(behind) + tail)
  {
    hide Known, Emit, CollisionFree, Final, Slots;
    var end := FinalIsSlot(c, prev);
    PlacedParts(all, [head] + inner, behind);
    PlacedParts(all, [head], inner);
    assert head in [head] + inner;
    PoolPieces(head, inner, behind, tail);
  }

  lemma PoolPieces(head: Record, inner: seq<Record>, behind: seq<Record>, tail: seq<Record>)
    requires IsSlot(head)
    ensures var pool := Slots([head] + inner + behind) + tail;
            pool != [] && pool[0] == head && pool[1..] == Slots(inner) + (Slots(behind) + tail)
  {
    var rest := inner + behind;
    assert [head] + inner + behind == [head] + rest && ([head] + rest)[1..] == rest;
    SlotsJoin(inner, behind);
    assert Slots([head] + rest) + tail == [head] + (Slots(inner) + (Slots(behind) + tail));
  }

  lemma {:induction false} WalkEmittedSib(c: Chain, prev: Port, tail: seq<Record>, all: seq<Record>)
    requires c.Sib? && Structured(c) && Placed(all, Emit(c, prev)) && Outside(prev, Emit(c, prev))
    ensures Walk(Slots(Emit(c, prev)) + tail, all, prev, Final(c, prev)) == Some((Erased(c), tail))
    decreases c, 0
  {
    hide Walk, EmitGate, BuildGate, Placed, Outside, Structured, Lookup, Slots, GateFinal, ErasedGate;
    SibStructure(c);
    var s := SibInstance(c.name);
    var head := SibRecord(s, prev, GateFinal(c.gate, ToSI(s)));
    var inner, behind := EmitGate(c.gate, ToSI(s)), Emit(c.rest, SO(s));
    Pieces(c, prev, head, inner, behind, tail, all);
    var left := Slots(behind) + tail;
    GateEmitted(c.gate, ToSI(s), left, all);
    WalkEmitted(c.rest, SO(s), tail, all);
    StripPrefix(SIB_INSTANCE_PREFIX, c.name);
    WalkHead(Slots(Emit(c, prev)) + tail, all, Final(c, prev), SibSlot(c.name, ErasedGate(c.gate)), left,
             Erased(c.rest), tail);
  }

  lemma SibStructure(c: Chain)
    requires c.Sib? && Structured(c)
    ensures Structured(c.rest) && StructuredGate(c.gate)
  {
  }

  lemma MuxStructure(c: Chain)
    requires c.Mux? && Structured(c)
    ensures Structured(c.rest) && StructuredArms(c.arms, Pow2(c.selectWidth)) && ArmCount(c.arms) >= 2
  {
  }

  lemma {:induction false} WalkEmittedMux(c: Chain, prev: Port, tail: seq<Record>, all: seq<Record>)
    requires c.Mux? && Structured(c) && Placed(all, Emit(c, prev)) && Outside(prev, Emit(c, prev))
    ensures Walk(Slots(Emit(c, prev)) + tail, all, prev, Final(c, prev)) == Some((Erased(c), tail))
    decreases c, 0
  {
    hide Walk, EmitArms, BuildArms, Placed, Outside, Structured, StructuredArms, Lookup, Slots, ArmBindings, ErasedArms,
         ArmCount;
    MuxStructure(c);
    var m := MuxInstance(c.name);
    var head := MuxRecord(m, prev, c.selectWidth, ArmBindings(c.arms, ToSI(m)));
    var inner, behind := EmitArms(c.arms, ToSI(m)), Emit(c.rest, SO(m));
    Pieces(c, prev, head, inner, behind, tail, all);
    var left := Slots(behind) + tail;
    ArmsEmitted(c.arms, ToSI(m), Pow2(c.selectWidth), left, all);
    WalkEmitted(c.rest, SO(m), tail, all);
    StripPrefix(SCAN_MUX_MODULE_PREFIX, c.name);
    WalkHead(Slots(Emit(c, prev)) + tail, all, Final(c, prev), MuxSlot(c.name, c.selectWidth, ErasedArms(c.arms)), left,
             Erased(c.rest), tail);
  }

  lemma {:induction false} GateEmitted(g: Gate, entry: Port, tail: seq<Record>, all: seq<Record>)
    requires entry.ToSI? && StructuredGate(g) && Placed(all, EmitGate(g, entry))
    ensures BuildGate(Slots(EmitGate(g, entry)) + tail, all, entry, GateFinal(g, entry)) == Some((ErasedGate(g), tail))
    decreases g, 1
  {
    hide Walk, CollisionFree;
    match g
    case Leaf(inst) =>
      var r := InstrRecord(InstrInstance(inst.name), entry, inst.width, inst.direction);
      assert r in EmitGate(g, entry);
      assert Lookup(all, SO(r.inst)) == Some(r);
      StripPrefix(INSTRUMENT_MODULE_PREFIX, inst.name);
      assert Slots([r]) == [] && [] + tail == tail;
    case Net(chain) =>
      var r := FinalIsSlot(chain, entry);
      assert Lookup(all, SO(r.inst)) == Some(r);
      WalkEmitted(chain, entry, tail, all);
  }

  lemma {:induction false} ArmsEmitted(a: Arms, entry: Port, limit: nat, tail: seq<Record>, all: seq<Record>)
    requires entry.ToSI? && StructuredArms(a, limit) && Placed(all, EmitArms(a, entry))
    ensures BuildArms(Slots(EmitArms(a, entry)) + tail, all, entry, ArmBindings(a, entry)) == Some((ErasedArms(a), tail))
    decreases a, 1
  {
    hide BuildGate, EmitGate, Known, CollisionFree, StructuredGate;
    match a
    case NoArms => assert [] + tail == tail;
    case Arm(value, gate, others) =>
      var here, behind := EmitGate(gate, entry), EmitArms(others, entry);
      PlacedParts(all, here, behind);
      SlotsJoin(here, behind);
      assert Slots(here) + Slots(behind) + tail == Slots(here) + (Slots(behind) + tail);
      GateEmitted(gate, entry, Slots(behind) + tail, all);
      ArmsEmitted(others, entry, limit, tail, all);
      assert ArmBindings(a, entry)[1..] == ArmBindings(others, entry);
  }

  /** Importing what was emitted rebuilds the network: order, names, widths, directions and arm values,
      whatever the arms of a ScanMux share, for every validated tree without instance-name collisions. */
  lemma EmitThenImport(c: Chain)
    requires Valid(c) && !c.End? && CollisionFree(Emit(c, Tdi))
    ensures Import(Emit(c, Tdi), Final(c, Tdi)) == Some(Erased(c))
  {
    var all := Emit(c, Tdi);
    AllKnown(all);
    WalkEmitted(c, Tdi, [], all);
    assert Slots(all) + [] == Slots(all);
    assert IsSlot(all[0]);
  }
}
