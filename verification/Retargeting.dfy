/** The interpreter against the hardware: playing the program of any sequence of successful PDL
    commands on the network behind a TAP keeps the interpreter's bookkeeping equal to the state of
    every cell that holds state. */
module Retargeting {
  import opened Wrappers
  import opened Bits
  import opened IclModel
  import opened SibLayout
  import opened SibCells
  import opened SibShift
  import opened SibRound
  import opened SibRetarget
  import opened SibStaging
  import opened PathPlan
  import opened TapFsm
  import opened TapIr
  import opened TapModel
  import opened TapPlay
  import opened PdlSpec

  /** What every READ instrument sees at each Capture-DR, first capture first. */
  type World = nat -> Sense

  /** The network as a data register: its cells, and how many captures it has made. */
  datatype NetState = NetState(cells: Cells, captures: nat)

  function NetCapture(world: World, n: NetState): NetState {
    NetState(Capture(n.cells, world(n.captures), true), n.captures + 1)
  }

  function NetShift(n: NetState, tdi: bool): (NetState, bool) {
    var (h, tdo) := Shift(n.cells, tdi);
    (NetState(h, n.captures), tdo)
  }

  function NetUpdate(n: NetState): NetState {
    NetState(Update(n.cells, true), n.captures)
  }

  function NetworkRegister(world: World): DataRegister<NetState> {
    DataRegister(n => NetCapture(world, n), (n, tdi) => NetShift(n, tdi), n => NetUpdate(n))
  }

  lemma {:induction false} RunIsShiftAll(world: World, n: NetState, fed: Bits)
    ensures ShiftRun(NetworkRegister(world), n, fed)
            == (NetState(ShiftAll(n.cells, fed).0, n.captures), ShiftAll(n.cells, fed).1)
    decreases |fed|
  {
    hide Shift;
    if fed != [] {
      RunIsShiftAll(world, NetShift(n, fed[0]).0, fed[1..]);
    }
  }

  /** A TAP in Run-Test/Idle under the instruction that selects the network. */
  ghost predicate Ready(w: Wiring<NetState>, world: World, t: Tap<NetState>) {
    t.state == RunTestIdle && PluggedIn(w, t, NetworkRegister(world))
  }

  /** Any DR scan, played: what DrScan says of the cells. */
  lemma PlayFed(w: Wiring<NetState>, world: World, t: Tap<NetState>, fed: Bits, tdo: Option<int>, mask: Option<int>)
    requires Ready(w, world, t) && fed != []
    ensures var (h, out) := DrScan(t.network.cells, world(t.network.captures), fed);
            var result := Play(w, t, DrOps(ShiftDR(|fed|, ToInt(fed), tdo, mask)));
            && result.Some? && Ready(w, world, result.value.0)
            && result.value.0.network == NetState(h, t.network.captures + 1)
            && result.value.1 == [ToInt(out)]
  {
    hide Capture, ShiftAll, Update, Play, FromInt, ToInt;
    FromIntToInt(fed);
    PlayDr(w, t, NetworkRegister(world), ShiftDR(|fed|, ToInt(fed), tdo, mask));
    RunIsShiftAll(world, NetCapture(world, t.network), fed);
  }

  /** The interpreter's bookkeeping is the hardware's state. */
  ghost predicate InStep(c: Chain, open: OpenMap, com: Committed, h: Cells) {
    Topo(h) == c && Sized(h) && Agrees(h, open) && Latched(h, com)
  }

  /** One scan of a program, played: it leaves the round's state behind and shows at TDO what the
      captured chain holds up to the tap, then the bits it feeds. */
  lemma PlayRound(w: Wiring<NetState>, world: World, t: Tap<NetState>, c: Chain, r: Round,
                  tdo: Option<int>, mask: Option<int>)
    requires Network(c) && Ready(w, world, t) && InStep(c, r.now, r.com, t.network.cells)
    requires Steppable(c, r, true) && Commits(c, r)
    ensures var shift := ShiftDR(Length(c, r.now), FeedOf(Scan(c, r)), tdo, mask);
            var seen := Capture(t.network.cells, world(t.network.captures), true);
            && Downstream(seen) <= |Raw(seen)| && Play(w, t, DrOps(shift)).Some?
            && var (u, obs) := Play(w, t, DrOps(shift)).value;
            && Ready(w, world, u) && InStep(c, r.after, r.held, u.network.cells)
            && u.network.captures == t.network.captures + 1
            && obs == [ToInt(Emerged(Tapped(seen), Reverse(Scan(c, r))))]
  {
    hide Network, Agrees, Latched, Sized, Steppable, Commits, Capture, Update, Play, DrScan, Compose, Length, Raw;
    var bits := Scan(c, r);
    ComposeLength(c, r.now, r.after, r.target, r.payload);
    PositiveLength(c, r.now);
    NetworkParts(c);
    ScanRound(t.network.cells, r, world(t.network.captures));
    PlayFed(w, world, t, Reverse(bits), tdo, mask);
  }

  lemma NetworkParts(c: Chain)
    requires Network(c)
    ensures GoodShape(c) && Structured(c) && UniqueSlots(c) && Valid(c) && UniqueInsts(c) && !c.End?
  {
  }

  lemma PositiveLength(c: Chain, open: OpenMap)
    requires Network(c)
    ensures Length(c, open) >= 1
  {
  }

  /** Phase 1, played. */
  lemma {:induction false} PlayRounds(w: Wiring<NetState>, world: World, t: Tap<NetState>, c: Chain,
                                      prior: OpenMap, rounds: seq<OpenMap>, com: Committed)
    requires Network(c) && Ready(w, world, t) && InStep(c, prior, com, t.network.cells)
    requires Rooted(c, prior, prior) && Proper(c, prior) && Staged(c, prior, rounds)
    requires forall i, k :: 0 <= i < |rounds| && k in Leaves(c, []) ==>
               !(Carries(Before(prior, rounds, i), k.step.name, k.step.value)
                 && Carries(rounds[i], k.step.name, k.step.value))
    ensures Play(w, t, RoundOps(c, prior, rounds)).Some?
    ensures var (u, obs) := Play(w, t, RoundOps(c, prior, rounds)).value;
            && Ready(w, world, u) && InStep(c, LastOf(prior, rounds), com, u.network.cells)
            && u.network.captures == t.network.captures + |rounds| && |obs| == |rounds|
    decreases |rounds|
  {
    hide Network, Agrees, Latched, Sized, Leaves, Sites, Steppable, Commits, Compose, Length, DrOps, FeedOf,
         Capture, Emerged, Tapped;
    if rounds != [] {
      hide Play;
      var next := rounds[0];
      assert Before(prior, rounds, 0) == prior && StagedOne(c, prior, next);
      Phase1Round(c, prior, next, com);
      var r := Round(prior, next, None, 0, com, com);
      PlayRound(w, world, t, c, r, None, None);
      var ops := DrOps(ShiftDR(Length(c, prior), FeedOf(Scan(c, r)), None, None));
      var (u, obs) := Play(w, t, ops).value;
      var rest := rounds[1..];
      forall i | 0 <= i < |rest| ensures rest[i] == rounds[i + 1] && Before(next, rest, i) == Before(prior, rounds, i + 1) {
      }
      PlayRounds(w, world, u, c, next, rest, com);
      PlayCompose(w, t, ops, RoundOps(c, next, rest));
    }
  }

  // ---------------------------------------------------------------- one iApply

  /** The interpreter and the hardware agree, and what is open is the way to one instrument. */
  ghost predicate Tracks(w: Wiring<NetState>, world: World, c: Chain, p: Pdl, t: Tap<NetState>) {
    Ready(w, world, t) && InStep(c, p.open, p.committed, t.network.cells) && OpenState(c, p.open)
  }

  /** The instrument iApply addresses: the one its scope names. */
  lemma ApplyTarget(c: Chain, p: Pdl) returns (l: LeafSite)
    requires Network(c) && Apply(c, p).Some? && OpenState(c, p.open)
    ensures l in Leaves(c, []) && p.scope == Some(l.inst.name)
    ensures OpenPath(c, l.inst.name, []) == Some(Way(l)) && Stage(c, Way(l), p.open).Some?
    ensures Apply(c, p) == Some(Deliver(c, p, l.inst.name, l.step.name, Stage(c, Way(l), p.open).value))
    ensures LastOf(p.open, Stage(c, Way(l), p.open).value) == PathMap(Way(l))
    ensures FindInstrument(c, l.inst.name) == Some(l.inst)
  {
    hide Network, Leaves, Sites, Stage, PathMap;
    NetworkParts(c);
    l := OpenPathLeads(c, p.scope.value, []);
    StageForWay(c, l, p.open);
    InstrumentFound(c, [], l);
  }

  lemma {:induction false} InstrumentFound(c: Chain, above: Path, l: LeafSite)
    requires UniqueInsts(c) && l in Leaves(c, above)
    ensures FindInstrument(c, l.inst.name) == Some(l.inst)
  {
    match c
    case Sib(name, gate, rest) =>
      if l in GateLeaves(gate, Step(name, 1), above, false) {
        if gate.Net? {
          InstrumentFound(gate.chain, above + [Step(name, 1)], l);
        }
      } else {
        LeafNames(rest, above, l);
        InstrumentFound(rest, above, l);
        NotInGate(gate, l.inst.name);
      }
    case Mux(name, _, arms, rest) =>
      if l in ArmLeaves(arms, name, above) {
        InstrumentInArms(arms, name, above, l);
      } else {
        LeafNames(rest, above, l);
        InstrumentFound(rest, above, l);
        NotInArms(arms, l.inst.name);
      }
  }

  lemma {:induction false} InstrumentInArms(a: Arms, mux: string, above: Path, l: LeafSite)
    requires UniqueArmInsts(a) && l in ArmLeaves(a, mux, above)
    ensures FindInArms(a, l.inst.name) == Some(l.inst)
  {
    if l in GateLeaves(a.gate, Step(mux, a.value), above, true) {
      if a.gate.Net? {
        InstrumentFound(a.gate.chain, above + [Step(mux, a.value)], l);
      }
    } else {
      ArmLeafNames(a.others, mux, above, l);
      NotInGate(a.gate, l.inst.name);
      InstrumentInArms(a.others, mux, above, l);
    }
  }

  lemma {:induction false} NotInChain(c: Chain, name: string)
    requires name !in InstNames(c)
    ensures FindInstrument(c, name).None?
  {
    match c
    case End =>
    case Sib(_, gate, rest) =>
      NotInGate(gate, name);
      NotInChain(rest, name);
    case Mux(_, _, arms, rest) =>
      NotInArms(arms, name);
      NotInChain(rest, name);
  }

  lemma {:induction false} NotInGate(g: Gate, name: string)
    requires name !in GateInsts(g)
    ensures FindInGate(g, name).None?
  {
    if g.Net? {
      NotInChain(g.chain, name);
    }
  }

  lemma {:induction false} NotInArms(a: Arms, name: string)
    requires name !in ArmInsts(a)
    ensures FindInArms(a, name).None?
  {
    if a.Arm? {
      NotInGate(a.gate, name);
      NotInArms(a.others, name);
    }
  }

  /** What the target's shift stage holds when phase 2 starts to shift: a WRITE instrument's value
      from before this iApply, or what a READ instrument sees. */
  function Captured(inst: Instrument, com: Committed, sense: Sense): Bits {
    if inst.direction.WRITE? then Held(com, inst) else FromInt(sense(inst), inst.width)
  }

  /** Bit by bit: a WRITE instrument shows its committed value, a READ instrument the value it sees. */
  lemma CapturedBit(inst: Instrument, com: Committed, sense: Sense, k: nat)
    requires k < inst.width
    ensures |Captured(inst, com, sense)| == inst.width
    ensures Captured(inst, com, sense)[k]
            == BitOf(if inst.direction.READ? then sense(inst) else if inst.name in com then com[inst.name] else 0, k)
  {
    FromIntBit(sense(inst), inst.width, k);
    FromIntBit(ValueOf(com, inst.name, 0), inst.width, k);
  }

  /** One iApply, played from a state the interpreter tracks: it tracks the state afterwards, phase 1
      left every committed value as it was, and phase 2 shows the captured chain. */
  lemma PlayApply(w: Wiring<NetState>, world: World, t: Tap<NetState>, c: Chain, p: Pdl, l: LeafSite)
    returns (mid: Tap<NetState>)
    requires Network(c) && Tracks(w, world, c, p, t) && Apply(c, p).Some?
    requires l in Leaves(c, []) && p.scope == Some(l.inst.name)
    ensures var a := Apply(c, p).value;
            && Play(w, t, a.ops).Some?
            && var (u, obs) := Play(w, t, a.ops).value;
            && Tracks(w, world, c, a.pdl, u) && a.pdl.open == PathMap(Way(l))
            && InStep(c, a.pdl.open, p.committed, mid.network.cells) && Ready(w, world, mid)
            && obs != [] && u.network.captures == mid.network.captures + 1
            && |obs| == (mid.network.captures - t.network.captures) + 1
            && var seen := Capture(mid.network.cells, world(mid.network.captures), true);
               && Downstream(seen) <= |Raw(seen)|
               && obs[|obs| - 1]
                  == ToInt(Emerged(Tapped(seen),
                                   Reverse(Compose(c, a.pdl.open, a.pdl.open, Some(l.step.name),
                                                   PayloadOf(p, l.inst.name, l.inst.direction.WRITE?)))))
  {
    hide Network, Agrees, Latched, Sized, Leaves, Sites, Stage, PathMap, Play, Capture, Compose, Length, Commits,
         Steppable, FeedOf, Expectation;
    NetworkParts(c);
    var k := ApplyTarget(c, p);
    SameInstSameLeaf(c, k, l);
    var rounds := Stage(c, Way(l), p.open).value;
    StageForWay(c, l, p.open);
    OpenStateIsRooted(c, p.open);
    PlayRounds(w, world, t, c, p.open, rounds, p.committed);
    var (m, seen1) := Play(w, t, RoundOps(c, p.open, rounds)).value;
    mid := m;
    var open, inst := PathMap(Way(l)), l.inst.name;
    var payload := PayloadOf(p, inst, l.inst.direction.WRITE?);
    var read := if inst in p.pendingReads then Some(p.pendingReads[inst]) else None;
    var shift := PayloadShift(c, open, l.step.name, payload, read);
    Phase2Round(c, l, payload, p.committed);
    var held := if l.inst.direction.WRITE? then p.committed[inst := payload] else p.committed;
    var r := Round(open, open, Some(l.step.name), payload, p.committed, held);
    PlayRound(w, world, m, c, r, shift.tdo, shift.mask);
    PlayCompose(w, t, RoundOps(c, p.open, rounds), DrOps(shift));
  }
}
