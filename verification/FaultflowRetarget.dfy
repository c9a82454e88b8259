/** Retargeting scan patterns (faultflow_retarget.py): every chain of a pattern is loaded, one pulse is
    applied, every chain is unloaded. A pattern's chains are listed by ascending chain id, as the
    source's loops visit them. */
module FaultflowRetarget {
  import opened Wrappers
  import opened Bits
  import opened IclModel
  import opened SibCells
  import opened SibLayout
  import opened SibRound
  import opened SibRetarget
  import opened SibStaging
  import opened PathPlan
  import opened TapIr
  import opened TapModel
  import opened TapPlay
  import opened PdlSpec
  import opened Retargeting
  import opened RetargetingRuns
  import opened RunResults

  /** One chain's part of a pattern; `inst` is what chain_to_instrument maps it to. */
  datatype ChainData = ChainData(inst: Option<string>, load: Option<Bits>, unload: Option<Bits>)

  datatype Pattern = Pattern(chains: seq<ChainData>, hold: seq<(string, bool)>)

  datatype Clock = Clock(port: string, pulses: int)

  /** _instrument_width: only instruments gated at the top level are found. */
  function InstrumentWidth(c: Chain, name: string): Option<nat> {
    match c
    case End => None
    case Sib(_, gate, rest) =>
      if gate.Leaf? && gate.inst.name == name then Some(gate.inst.width) else InstrumentWidth(rest, name)
    case Mux(_, _, _, _) => None
  }

  function StripLoad(s: Bits, width: nat): Option<Bits> {
    if |s| < width then None else Some(s[|s| - width..])
  }

  function StripUnload(s: Bits, width: nat): Option<Bits> {
    if |s| < width then None else Some(s[..width])
  }

  function SequenceToPayload(s: Bits): int { ToInt(Reverse(s)) }

  /** Target an instrument, queue one command for it, apply. */
  ghost function ServeOne(c: Chain, root: ModuleInstance, p: Pdl, name: string, call: Call): Option<Pdl> {
    match Do(c, root, p, Call.ITarget([name]))
    case None => None
    case Some(q) =>
      match Do(c, root, q, call)
      case None => None
      case Some(r) => Do(c, root, r, IApply)
  }

  ghost function LoadOne(c: Chain, root: ModuleInstance, p: Pdl, d: ChainData): Option<Pdl> {
    if d.load.None? then Some(p)
    else if d.inst.None? || InstrumentWidth(c, d.inst.value).None? then None
    else match StripLoad(d.load.value, InstrumentWidth(c, d.inst.value).value)
      case None => None
      case Some(s) => ServeOne(c, root, p, d.inst.value, IWrite(SequenceToPayload(s), None))
  }

  ghost function LoadAll(c: Chain, root: ModuleInstance, p: Pdl, chains: seq<ChainData>): Option<Pdl>
    decreases |chains|
  {
    if chains == [] then Some(p)
    else match LoadAll(c, root, p, chains[..|chains| - 1])
      case None => None
      case Some(q) => LoadOne(c, root, q, chains[|chains| - 1])
  }

  ghost function UnloadOne(c: Chain, root: ModuleInstance, p: Pdl, d: ChainData): Option<Pdl> {
    if d.unload.None? then Some(p)
    else if d.inst.None? || InstrumentWidth(c, d.inst.value).None? then None
    else match StripUnload(d.unload.value, InstrumentWidth(c, d.inst.value).value)
      case None => None
      case Some(s) => ServeOne(c, root, p, d.inst.value, IRead(SequenceToPayload(s), None))
  }

  ghost function UnloadAll(c: Chain, root: ModuleInstance, p: Pdl, chains: seq<ChainData>): Option<Pdl>
    decreases |chains|
  {
    if chains == [] then Some(p)
    else match UnloadAll(c, root, p, chains[..|chains| - 1])
      case None => None
      case Some(q) => UnloadOne(c, root, q, chains[|chains| - 1])
  }

  predicate Mapped(c: Chain, d: ChainData) { d.inst.Some? && InstrumentWidth(c, d.inst.value).Some? }

  /** The one capture pulse, when anything is to be unloaded. */
  function Pulsed(p: Pdl, pattern: Pattern, clock: Clock): Pdl {
    if exists i :: 0 <= i < |pattern.chains| && pattern.chains[i].unload.Some? then
      p.(program := p.program + [PulsePin(clock.port, clock.pulses, pattern.hold)])
    else p
  }

  /** The state a pattern's pulse is emitted in. */
  ghost function Loaded(c: Chain, root: ModuleInstance, p: Pdl, pattern: Pattern): Option<Pdl> {
    if exists i :: 0 <= i < |pattern.chains| && !Mapped(c, pattern.chains[i]) then None
    else LoadAll(c, root, p, pattern.chains)
  }

  ghost function RunPattern(c: Chain, root: ModuleInstance, p: Pdl, pattern: Pattern, clock: Clock): Option<Pdl> {
    match Loaded(c, root, p, pattern)
    case None => None
    case Some(q) => UnloadAll(c, root, Pulsed(q, pattern, clock), pattern.chains)
  }

  /** retarget_faultflow_patterns: None where it raises. */
  ghost function RunPatterns(c: Chain, root: ModuleInstance, patterns: seq<Pattern>, clock: Clock): Option<Pdl>
    decreases |patterns|
  {
    if patterns == [] then Some(NewPdl)
    else match RunPatterns(c, root, patterns[..|patterns| - 1], clock)
      case None => None
      case Some(p) => RunPattern(c, root, p, patterns[|patterns| - 1], clock)
  }

  // ---------------------------------------------------------------- in step at every point

  lemma DeliverTracks(w: Wiring<NetState>, world: World, t: Tap<NetState>, c: Chain, root: ModuleInstance,
                      p: Pdl, name: string, call: Call)
    requires Network(c) && PlaysTo(w, world, t, c, p) && ServeOne(c, root, p, name, call).Some?
    ensures PlaysTo(w, world, t, c, ServeOne(c, root, p, name, call).value)
  {
    hide PlaysTo, Network, Do;
    StepTracks(w, world, t, c, root, p, Call.ITarget([name]));
    var q := Do(c, root, p, Call.ITarget([name])).value;
    StepTracks(w, world, t, c, root, q, call);
    StepTracks(w, world, t, c, root, Do(c, root, q, call).value, IApply);
  }

  lemma {:induction false} LoadsTrack(w: Wiring<NetState>, world: World, t: Tap<NetState>, c: Chain,
                                      root: ModuleInstance, p: Pdl, chains: seq<ChainData>)
    requires Network(c) && PlaysTo(w, world, t, c, p) && LoadAll(c, root, p, chains).Some?
    ensures PlaysTo(w, world, t, c, LoadAll(c, root, p, chains).value)
    decreases |chains|
  {
    hide PlaysTo, Network, ServeOne;
    if chains != [] {
      LoadsTrack(w, world, t, c, root, p, chains[..|chains| - 1]);
      var q, d := LoadAll(c, root, p, chains[..|chains| - 1]).value, chains[|chains| - 1];
      if d.load.Some? {
        var s := StripLoad(d.load.value, InstrumentWidth(c, d.inst.value).value).value;
        DeliverTracks(w, world, t, c, root, q, d.inst.value, IWrite(SequenceToPayload(s), None));
      }
    }
  }

  lemma {:induction false} UnloadsTrack(w: Wiring<NetState>, world: World, t: Tap<NetState>, c: Chain,
                                        root: ModuleInstance, p: Pdl, chains: seq<ChainData>)
    requires Network(c) && PlaysTo(w, world, t, c, p) && UnloadAll(c, root, p, chains).Some?
    ensures PlaysTo(w, world, t, c, UnloadAll(c, root, p, chains).value)
    decreases |chains|
  {
    hide PlaysTo, Network, ServeOne;
    if chains != [] {
      UnloadsTrack(w, world, t, c, root, p, chains[..|chains| - 1]);
      var q, d := UnloadAll(c, root, p, chains[..|chains| - 1]).value, chains[|chains| - 1];
      if d.unload.Some? {
        var s := StripUnload(d.unload.value, InstrumentWidth(c, d.inst.value).value).value;
        DeliverTracks(w, world, t, c, root, q, d.inst.value, IRead(SequenceToPayload(s), None));
      }
    }
  }

  /** A pulse on another pin leaves the TAP and the network untouched. */
  lemma PulseTracks(w: Wiring<NetState>, world: World, t: Tap<NetState>, c: Chain, p: Pdl, pattern: Pattern,
                    clock: Clock)
    requires PlaysTo(w, world, t, c, p)
    ensures PlaysTo(w, world, t, c, Pulsed(p, pattern, clock))
  {
    var op := PulsePin(clock.port, clock.pulses, pattern.hold);
    TapOpsJoin(p.program, [op]);
    assert [op][1..] == [] && TapOps([op]) == [];
    assert TapOps(p.program) + [] == TapOps(p.program);
  }

  // ---------------------------------------------------------------- what the loads leave

  /** Instruments of a pattern's chains: distinct, writable, where the network says. */
  ghost predicate Writable(c: Chain, chains: seq<ChainData>) {
    && (forall i :: 0 <= i < |chains| ==> Mapped(c, chains[i]) && WriteLeaf(c, chains[i].inst.value))
    && forall i, j :: 0 <= i < j < |chains| ==> chains[i].inst != chains[j].inst
  }

  ghost predicate WriteLeaf(c: Chain, name: string) {
    exists l :: l in Leaves(c, []) && l.inst.name == name && l.inst.direction.WRITE?
  }

  /** Element `k` of what an instrument is to hold after `d` is loaded. */
  function WantedBit(d: ChainData, k: nat): bool {
    d.load.Some? && k < |d.load.value| && d.load.value[|d.load.value| - 1 - k]
  }

  /** `p` has committed the data of chain `d`. */
  ghost predicate Holds(c: Chain, p: Pdl, d: ChainData)
    requires Mapped(c, d)
  {
    d.load.Some? ==>
      && d.inst.value in p.committed
      && forall k :: 0 <= k < InstrumentWidth(c, d.inst.value).value ==>
           BitOf(p.committed[d.inst.value], k) == WantedBit(d, k)
  }

  lemma PayloadBit(s: Bits, width: nat, k: nat)
    requires StripLoad(s, width).Some? && k < width
    ensures BitOf(SequenceToPayload(StripLoad(s, width).value), k) == s[|s| - 1 - k]
  {
    var r := StripLoad(s, width).value;
    ToIntBit(Reverse(r), k);
  }

  /** Targeting, writing and applying commits exactly the written value, to that instrument alone. */
  lemma DeliverCommits(c: Chain, root: ModuleInstance, p: Pdl, name: string, value: int)
    requires Network(c) && WriteLeaf(c, name)
    requires ServeOne(c, root, p, name, IWrite(value, None)).Some?
    ensures ServeOne(c, root, p, name, IWrite(value, None)).value.committed == p.committed[name := value]
  {
    hide Network, Leaves, Stage, RoundOps, PayloadShift, OpenPath;
    var l :| l in Leaves(c, []) && l.inst.name == name && l.inst.direction.WRITE?;
    NetworkParts(c);
    InstrumentFound(c, [], l);
    var q := Do(c, root, p, Call.ITarget([name])).value;
    ChildKeepsName(root.children, name);
    assert [name][1..] == [];
    assert Resolve(root, [name]) == ChildNamed(root.children, name);
    assert q.scope == Some(name);
  }

  lemma {:induction false} ChildKeepsName(children: seq<ModuleInstance>, name: string)
    ensures ChildNamed(children, name).Some? ==> ChildNamed(children, name).value.name == name
  {
    if children != [] {
      ChildKeepsName(children[1..], name);
    }
  }

  lemma {:induction false} LoadsHold(c: Chain, root: ModuleInstance, p: Pdl, chains: seq<ChainData>)
    requires Network(c) && Writable(c, chains) && LoadAll(c, root, p, chains).Some?
    ensures forall i :: 0 <= i < |chains| ==> Holds(c, LoadAll(c, root, p, chains).value, chains[i])
    decreases |chains|
  {
    hide Network, ServeOne, WriteLeaf, BitOf, WantedBit;
    if chains != [] {
      var n := |chains| - 1;
      var front, d := chains[..n], chains[n];
      LoadsHold(c, root, p, front);
      var q, r := LoadAll(c, root, p, front).value, LoadAll(c, root, p, chains).value;
      if d.load.Some? {
        var width := InstrumentWidth(c, d.inst.value).value;
        var s := StripLoad(d.load.value, width).value;
        DeliverCommits(c, root, q, d.inst.value, SequenceToPayload(s));
        forall k | 0 <= k < width ensures BitOf(r.committed[d.inst.value], k) == WantedBit(d, k) {
          WantedIs(d.load.value, width, k);
        }
      }
      forall i | 0 <= i < n ensures Holds(c, r, chains[i]) {
        assert front[i] == chains[i];
        assert Holds(c, q, front[i]);
      }
    }
  }

  lemma WantedIs(s: Bits, width: nat, k: nat)
    requires StripLoad(s, width).Some? && k < width
    ensures forall inst, unload ::
              BitOf(SequenceToPayload(StripLoad(s, width).value), k) == WantedBit(ChainData(inst, Some(s), unload), k)
  {
    PayloadBit(s, width, k);
  }

  /** The hardware holds `d`'s data: bit k of the instrument is element L-1-k of its sequence. */
  ghost predicate InHardware(c: Chain, h: Cells, d: ChainData, committed: Committed) {
    Latched(h, committed) && (d.load.Some? ==>
      forall l, k :: l in Leaves(c, []) && Some(l.inst.name) == d.inst && 0 <= k < l.inst.width ==>
        Held(committed, l.inst)[k] == WantedBit(d, k))
  }

  lemma {:induction false} WidthIsLeaf(c: Chain, name: string) returns (l: LeafSite)
    requires InstrumentWidth(c, name).Some?
    ensures l in Leaves(c, []) && l.inst.name == name && l.inst.width == InstrumentWidth(c, name).value
    ensures l.above == [] && !l.isMux
  {
    if c.gate.Leaf? && c.gate.inst.name == name {
      l := LeafSite(Step(c.name, 1), [], false, c.gate.inst);
    } else {
      l := WidthIsLeaf(c.rest, name);
    }
  }

  /** In every run of patterns, when a pattern's pulse is emitted every chain the pattern loads holds
      its data at once, whatever was loaded, unloaded or open before. */
  lemma {:induction false} AllChainsHoldAtPulse(
    w: Wiring<NetState>, world: World, t: Tap<NetState>, c: Chain, root: ModuleInstance,
    patterns: seq<Pattern>, clock: Clock, n: nat)
    requires Network(c) && Tracks(w, world, c, NewPdl, t)
    requires RunPatterns(c, root, patterns, clock).Some? && n < |patterns| && Writable(c, patterns[n].chains)
    ensures RunPatterns(c, root, patterns[..n], clock).Some?
    ensures var before := RunPatterns(c, root, patterns[..n], clock).value;
            var at := Loaded(c, root, before, patterns[n]);
            && at.Some? && PlaysTo(w, world, t, c, at.value)
            && forall i :: 0 <= i < |patterns[n].chains| ==>
                 InHardware(c, Play(w, t, TapOps(at.value.program)).value.0.network.cells, patterns[n].chains[i],
                            at.value.committed)
  {
    hide Network, Leaves, Play, Latched, WantedBit;
    PrefixRuns(c, root, patterns, clock, n);
    PatternsTrack(w, world, t, c, root, patterns[..n], clock);
    var before := RunPatterns(c, root, patterns[..n], clock).value;
    assert patterns[..n + 1][..n] == patterns[..n];
    var at := Loaded(c, root, before, patterns[n]).value;
    LoadsTrack(w, world, t, c, root, before, patterns[n].chains);
    LoadsHold(c, root, before, patterns[n].chains);
    forall i | 0 <= i < |patterns[n].chains|
      ensures InHardware(c, Play(w, t, TapOps(at.program)).value.0.network.cells, patterns[n].chains[i], at.committed)
    {
      if patterns[n].chains[i].load.Some? {
        HeldIsWanted(c, at, patterns[n].chains[i]);
      }
    }
  }

  lemma HeldIsWanted(c: Chain, p: Pdl, d: ChainData)
    requires Network(c) && Mapped(c, d) && Holds(c, p, d) && d.load.Some?
    ensures forall l, k :: l in Leaves(c, []) && Some(l.inst.name) == d.inst && 0 <= k < l.inst.width ==>
              Held(p.committed, l.inst)[k] == WantedBit(d, k)
  {
    var found := WidthIsLeaf(c, d.inst.value);
    forall l, k | l in Leaves(c, []) && Some(l.inst.name) == d.inst && 0 <= k < l.inst.width
      ensures Held(p.committed, l.inst)[k] == WantedBit(d, k)
    {
      SameInstSameLeaf(c, found, l);
      FromIntBit(p.committed[l.inst.name], l.inst.width, k);
    }
  }

  lemma {:induction false} PrefixRuns(c: Chain, root: ModuleInstance, patterns: seq<Pattern>, clock: Clock, n: nat)
    requires RunPatterns(c, root, patterns, clock).Some? && n < |patterns|
    ensures RunPatterns(c, root, patterns[..n], clock).Some? && RunPatterns(c, root, patterns[..n + 1], clock).Some?
    decreases |patterns|
  {
    if n == |patterns| - 1 {
      assert patterns[..n + 1] == patterns;
    } else {
      var front := patterns[..|patterns| - 1];
      PrefixRuns(c, root, front, clock, n);
      assert front[..n] == patterns[..n] && front[..n + 1] == patterns[..n + 1];
    }
  }

  lemma {:induction false} PatternsTrack(w: Wiring<NetState>, world: World, t: Tap<NetState>, c: Chain,
                                         root: ModuleInstance, patterns: seq<Pattern>, clock: Clock)
    requires Network(c) && Tracks(w, world, c, NewPdl, t)
    requires RunPatterns(c, root, patterns, clock).Some?
    ensures PlaysTo(w, world, t, c, RunPatterns(c, root, patterns, clock).value)
    decreases |patterns|
  {
    hide Network, PlaysTo, LoadAll, UnloadAll, Pulsed;
    if patterns == [] {
      RunStaysInStep(w, world, t, c, root, []);
    } else {
      var n := |patterns| - 1;
      PatternsTrack(w, world, t, c, root, patterns[..n], clock);
      var p := RunPatterns(c, root, patterns[..n], clock).value;
      var chains := patterns[n].chains;
      LoadsTrack(w, world, t, c, root, p, chains);
      var q := LoadAll(c, root, p, chains).value;
      PulseTracks(w, world, t, c, q, patterns[n], clock);
      UnloadsTrack(w, world, t, c, root, Pulsed(q, patterns[n], clock), chains);
    }
  }
}
