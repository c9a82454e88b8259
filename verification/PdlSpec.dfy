/** What the PDL commands do (pdl_interpreter.py), as functions of the interpreter's state. The
    class in PdlInterpreter.dfy is proved to do exactly this. */
module PdlSpec {
  import opened Wrappers
  import opened Bits
  import opened IclModel
  import opened SibLayout
  import opened SibRetarget
  import opened SibStaging
  import opened TapFsm
  import opened TapIr

  // ---------------------------------------------------------------- addressing

  /** One node of the module-instantiation tree. */
  datatype ModuleInstance = ModuleInstance(name: string, children: seq<ModuleInstance>)

  /** resolve_dotted_address, the address split at its dots. */
  function Resolve(node: ModuleInstance, segments: seq<string>): Option<ModuleInstance>
    decreases |segments|
  {
    if segments == [] then Some(node)
    else match ChildNamed(node.children, segments[0])
      case None => None
      case Some(child) => Resolve(child, segments[1..])
  }

  function ChildNamed(children: seq<ModuleInstance>, name: string): Option<ModuleInstance> {
    if children == [] then None
    else if children[0].name == name then Some(children[0])
    else ChildNamed(children[1..], name)
  }

  /** The loops of resolve_dotted_address. */
  method ResolveDottedAddress(root: ModuleInstance, segments: seq<string>) returns (found: Option<ModuleInstance>)
    ensures found == Resolve(root, segments)
  {
    var node := root;
    assert segments[0..] == segments;
    for k := 0 to |segments|
      invariant Resolve(node, segments[k..]) == Resolve(root, segments)
    {
      assert segments[k..][0] == segments[k] && segments[k..][1..] == segments[k + 1..];
      var child := FirstNamed(node.children, segments[k]);
      if child.None? {
        return None;
      }
      node := child.value;
    }
    return Some(node);
  }

  method FirstNamed(children: seq<ModuleInstance>, name: string) returns (found: Option<ModuleInstance>)
    ensures found == ChildNamed(children, name)
  {
    assert children[0..] == children;
    for k := 0 to |children|
      invariant ChildNamed(children[k..], name) == ChildNamed(children, name)
    {
      assert children[k..][0] == children[k] && children[k..][1..] == children[k + 1..];
      if children[k].name == name {
        return Some(children[k]);
      }
    }
    return None;
  }

  /** _find_instrument. */
  function FindInstrument(c: Chain, name: string): Option<Instrument> {
    match c
    case End => None
    case Sib(_, gate, rest) =>
      var found := FindInGate(gate, name);
      if found.Some? then found else FindInstrument(rest, name)
    case Mux(_, _, arms, rest) =>
      var found := FindInArms(arms, name);
      if found.Some? then found else FindInstrument(rest, name)
  }

  function FindInGate(g: Gate, name: string): Option<Instrument> {
    match g
    case Leaf(inst) => if inst.name == name then Some(inst) else None
    case Net(chain) => FindInstrument(chain, name)
  }

  function FindInArms(a: Arms, name: string): Option<Instrument> {
    match a
    case NoArms => None
    case Arm(_, gate, others) =>
      var found := FindInGate(gate, name);
      if found.Some? then found else FindInArms(others, name)
  }

  function AliasNamed(aliases: seq<Alias>, field: string): Option<Alias> {
    if aliases == [] then None
    else if aliases[0].name == field then Some(aliases[0])
    else AliasNamed(aliases[1..], field)
  }

  /** _resolve_field: None where the source raises PDLError. */
  function ResolveField(c: Chain, inst: string, field: string): Option<Alias> {
    match FindInstrument(c, inst)
    case None => None
    case Some(i) => AliasNamed(i.aliases, field)
  }

  /** _set_bit_range, in the source's own integer operators. */
  function SetBitRange(current: int, low: nat, high: nat, value: int): int
    requires low <= high + 1
  {
    var mask := Shl(Shl(1, high - low + 1) - 1, low);
    Or(And(current, Not(mask)), And(Shl(value, low), mask))
  }

  // ---------------------------------------------------------------- where a read looks

  datatype Window = Window(offset: nat, width: nat, isMuxArm: bool)

  /** _target_layout: the target's content bits within Compose's order, None where the walk finds
      no such slot or the slot gates no instrument. */
  function TargetLayout(c: Chain, live: OpenMap, target: string, offset: nat): Option<Window> {
    match c
    case End => None
    case Sib(name, gate, rest) =>
      if name == target then
        if gate.Leaf? then Some(Window(offset, gate.inst.width, false)) else None
      else
        var found := if name in live && gate.Net?
                     then TargetLayout(gate.chain, live, target, offset) else None;
        if found.Some? then found
        else
          var here := if name in live then GateLength(gate, live) else 0;
          TargetLayout(rest, live, target, offset + here + 1)
    case Mux(name, selectWidth, arms, rest) =>
      if name == target then
        if name in live then ArmWindow(arms, live[name], offset) else None
      else
        var found := if name in live
                     then ArmTargetLayout(arms, live[name], live, target, offset) else None;
        if found.Some? then found
        else
          var here := if name in live then ArmLength(arms, live[name], live) else 0;
          TargetLayout(rest, live, target, offset + here + selectWidth)
  }

  function ArmWindow(a: Arms, value: int, offset: nat): Option<Window> {
    match a
    case NoArms => None
    case Arm(v, gate, others) =>
      if v != value then ArmWindow(others, value, offset)
      else if gate.Leaf? then Some(Window(offset, gate.inst.width, true)) else None
  }

  function ArmTargetLayout(a: Arms, value: int, live: OpenMap, target: string, offset: nat): Option<Window> {
    match a
    case NoArms => None
    case Arm(v, gate, others) =>
      if v != value then ArmTargetLayout(others, value, live, target, offset)
      else if gate.Net? then TargetLayout(gate.chain, live, target, offset) else None
  }

  /** _read_mask_bits: set at exactly offset + low to offset + high. */
  function ReadMaskBits(total: nat, offset: int, low: int, high: int): Bits {
    seq(total, i => offset + low <= i <= offset + high)
  }

  /** _mux_arm_read_chronological_bits: a matched ScanMux arm's content shows first, most
      significant bit first. */
  function MuxArmTdo(total: nat, width: int, low: int, high: int, payload: int): Bits {
    seq(total, i requires 0 <= i => low <= width - 1 - i <= high && 0 <= width - 1 - i && BitOf(payload, width - 1 - i))
  }

  function MuxArmMask(total: nat, width: int, low: int, high: int): Bits {
    seq(total, i => low <= width - 1 - i <= high)
  }

  // ---------------------------------------------------------------- the commands

  /** A queued iRead: the expected value and the sub-field it is about, None for the whole
      instrument. */
  datatype Expect = Expect(value: int, field: Option<Alias>)

  datatype Pdl = Pdl(
    scope: Option<string>,
    pendingWrites: map<string, int>,
    committed: map<string, int>,
    pendingReads: map<string, Expect>,
    open: OpenMap,
    program: seq<Op>)

  datatype Call =
    | ITarget(dotted: seq<string>)
    | IWrite(value: int, field: Option<string>)
    | IRead(expected: int, field: Option<string>)
    | IRunLoop(count: int, sckPort: Option<string>)
    | IApply

  const NewPdl := Pdl(None, map[], map[], map[], map[], [])

  function ValueOf(m: map<string, int>, name: string, default: int): int {
    if name in m then m[name] else default
  }

  function Target(p: Pdl, root: ModuleInstance, dotted: seq<string>): Option<Pdl> {
    match Resolve(root, dotted)
    case None => None
    case Some(node) => Some(p.(scope := Some(node.name)))
  }

  /** What the next iApply would deliver to `inst`: what is queued, else what was last committed. */
  function Current(p: Pdl, inst: string): int {
    ValueOf(p.pendingWrites, inst, ValueOf(p.committed, inst, 0))
  }

  function Write(c: Chain, p: Pdl, value: int, field: Option<string>): Option<Pdl> {
    match (p.scope, field)
    case (None, _) => None
    case (Some(inst), None) => Some(p.(pendingWrites := p.pendingWrites[inst := value]))
    case (Some(inst), Some(f)) =>
      match ResolveField(c, inst, f)
      case None => None
      case Some(a) =>
        if a.low > a.high + 1 then None
        else
          var merged := SetBitRange(Current(p, inst), a.low, a.high, value);
          Some(p.(pendingWrites := p.pendingWrites[inst := merged]))
  }

  function Read(c: Chain, p: Pdl, expected: int, field: Option<string>): Option<Pdl> {
    match (p.scope, field)
    case (None, _) => None
    case (Some(inst), None) =>
      Some(p.(pendingReads := p.pendingReads[inst := Expect(expected, None)]))
    case (Some(inst), Some(f)) =>
      match ResolveField(c, inst, f)
      case None => None
      case Some(a) => Some(p.(pendingReads := p.pendingReads[inst := Expect(expected, Some(a))]))
  }

  function RunLoop(p: Pdl, count: int, sckPort: Option<string>): Pdl {
    match sckPort
    case None => p.(program := p.program + [Runtest(count)])
    case Some(port) => p.(program := p.program + [PulsePin(port, count, [])])
  }

  // ---------------------------------------------------------------- iApply

  /** Bits in chain order as the integer a shift feeds: the last bit fed ends nearest TDI. */
  function FeedOf(bits: Bits): nat { ToInt(Reverse(bits)) }

  /** Phase 1: one scan per round, each sized for what the round before it left open. */
  function RoundOps(c: Chain, prior: OpenMap, rounds: seq<OpenMap>): seq<Op>
    decreases |rounds|
  {
    if rounds == [] then []
    else
      var bits := Compose(c, prior, rounds[0], None, 0);
      DrOps(ShiftDR(Length(c, prior), FeedOf(bits), None, None)) + RoundOps(c, rounds[0], rounds[1..])
  }

  function LastOf(prior: OpenMap, rounds: seq<OpenMap>): OpenMap {
    if rounds == [] then prior else rounds[|rounds| - 1]
  }

  /** The expected TDO of phase 2 and its mask, None for both where the source would fail. */
  function Expectation(c: Chain, live: OpenMap, slot: string, read: Expect): (Option<int>, Option<int>) {
    match TargetLayout(c, live, slot, 0)
    case None => (None, None)
    case Some(w) =>
      var low := if read.field.None? then 0 else read.field.value.low;
      var high := if read.field.None? then w.width - 1 else read.field.value.high;
      var payload := Shl(read.value, low);
      var total := Length(c, live);
      if w.isMuxArm then
        (Some(ToInt(MuxArmTdo(total, w.width, low, high, payload))),
         Some(ToInt(MuxArmMask(total, w.width, low, high))))
      else
        var expected := Compose(c, live, live, Some(slot), payload);
        (Some(FeedOf(expected)), Some(FeedOf(ReadMaskBits(|expected|, w.offset, low, high))))
  }

  /** Phase 2's own shift. */
  function PayloadShift(c: Chain, live: OpenMap, slot: string, payload: int, read: Option<Expect>): Op {
    var bits := Compose(c, live, live, Some(slot), payload);
    var (tdo, mask) := if read.None? then (None, None) else Expectation(c, live, slot, read.value);
    ShiftDR(Length(c, live), FeedOf(bits), tdo, mask)
  }

  /** The payload phase 2 delivers: a queued write, else a WRITE instrument's committed value. */
  function PayloadOf(p: Pdl, inst: string, isWrite: bool): int {
    if inst in p.pendingWrites then p.pendingWrites[inst]
    else if isWrite then ValueOf(p.committed, inst, 0)
    else 0
  }

  datatype Applied = Applied(pdl: Pdl, ops: seq<Op>)

  ghost function Apply(c: Chain, p: Pdl): Option<Applied> {
    if p.scope.None? then None
    else
      var inst := p.scope.value;
      match OpenPath(c, inst, [])
      case None => None
      case Some(path) =>
        if path == [] then None
        else match Stage(c, path, p.open)
          case None => None
          case Some(rounds) => Some(Deliver(c, p, inst, path[|path| - 1].name, rounds))
  }

  function Deliver(c: Chain, p: Pdl, inst: string, slot: string, rounds: seq<OpenMap>): Applied {
    var live := LastOf(p.open, rounds);
    var found := FindInstrument(c, inst);
    var isWrite := found.Some? && found.value.direction.WRITE?;
    var payload := PayloadOf(p, inst, isWrite);
    var read := if inst in p.pendingReads then Some(p.pendingReads[inst]) else None;
    var ops := RoundOps(c, p.open, rounds) + DrOps(PayloadShift(c, live, slot, payload, read));
    Applied(
      Pdl(p.scope, p.pendingWrites - {inst},
          if isWrite then p.committed[inst := payload] else p.committed,
          p.pendingReads - {inst}, live, p.program + ops),
      ops)
  }

  /** One command; None where the source raises, which leaves the state as it was. */
  ghost function Do(c: Chain, root: ModuleInstance, p: Pdl, call: Call): Option<Pdl> {
    match call
    case ITarget(dotted) => Target(p, root, dotted)
    case IWrite(value, field) => Write(c, p, value, field)
    case IRead(expected, field) => Read(c, p, expected, field)
    case IRunLoop(count, port) => Some(RunLoop(p, count, port))
    case IApply => (match Apply(c, p) case None => None case Some(a) => Some(a.pdl))
  }

  /** A sequence of commands every one of which succeeds. */
  ghost function Run(c: Chain, root: ModuleInstance, calls: seq<Call>): Option<Pdl>
    decreases |calls|
  {
    if calls == [] then Some(NewPdl)
    else match Run(c, root, calls[..|calls| - 1])
      case None => None
      case Some(p) => Do(c, root, p, calls[|calls| - 1])
  }
}
