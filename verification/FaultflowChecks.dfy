/** What a retargeted pattern run checks and where its pulses are (faultflow_retarget.py): one check per unload, of
    the instrument's captured value against the pattern's sequence, after the pattern's own pulse. */
module FaultflowChecks {
  import opened Wrappers
  import opened Bits
  import opened IclModel
  import opened SibLayout
  import opened SibCells
  import opened SibRound
  import opened SibRetarget
  import opened SibStaging
  import opened PathPlan
  import opened TapIr
  import opened TapModel
  import opened TapPlay
  import opened PdlSpec
  import opened Retargeting
  import opened RetargetingRuns
  import opened ReadBack
  import opened ReadChecks
  import opened RunResults
  import opened ReadProbes
  import opened FaultflowRetarget

  /** How many captures the network has made when the program has been played. */
  ghost function Captures(w: Wiring<NetState>, t: Tap<NetState>, p: Pdl): nat
    requires Play(w, t, TapOps(p.program)).Some?
  {
    Play(w, t, TapOps(p.program)).value.0.network.captures
  }

  ghost predicate NothingQueued(p: Pdl) { p.pendingReads == map[] && p.pendingWrites == map[] }

  /** The interpreter between two commands of a pattern run: in step, nothing queued, every read so far checked. */
  ghost predicate Between(w: Wiring<NetState>, world: World, t: Tap<NetState>, c: Chain, p: Pdl) {
    PlaysTo(w, world, t, c, p) && NothingQueued(p) && ChecksOf(w, t, p).Some?
  }

  /** The same value for every instrument, 0 where none was committed. */
  ghost predicate SameValues(a: Committed, b: Committed) {
    forall name :: ValueOf(a, name, 0) == ValueOf(b, name, 0)
  }

  lemma SameCaptured(inst: Instrument, a: Committed, b: Committed, sense: Sense)
    requires SameValues(a, b)
    ensures Captured(inst, a, sense) == Captured(inst, b, sense)
  {
    assert ValueOf(a, inst.name, 0) == ValueOf(b, inst.name, 0);
  }

  /** Bit `k` of what the chain's instrument captures is element `width - 1 - k` of the sequence to be unloaded,
      whose padding is at its end. */
  ghost predicate Responds(c: Chain, d: ChainData, committed: Committed, sense: Sense) {
    d.unload.Some? && forall l :: l in Leaves(c, []) && Some(l.inst.name) == d.inst ==>
      && l.inst.width <= |d.unload.value|
      && forall k :: 0 <= k < l.inst.width ==>
           Captured(l.inst, committed, sense)[k] == d.unload.value[l.inst.width - 1 - k]
  }

  /** The chains of a pattern that are unloaded, in their order. */
  function Asked(chains: seq<ChainData>): seq<ChainData> {
    if chains == [] then []
    else Asked(chains[..|chains| - 1])
         + if chains[|chains| - 1].unload.Some? then [chains[|chains| - 1]] else []
  }

  /** _instrument_width finds exactly the instruments a SIB gates at the top level. */
  lemma {:induction false} WidthIff(c: Chain, name: string)
    requires GoodShape(c)
    ensures InstrumentWidth(c, name).Some?
            <==> exists l :: l in Leaves(c, []) && l.above == [] && !l.isMux && l.inst.name == name
  {
    if InstrumentWidth(c, name).Some? {
      var l := WidthIsLeaf(c, name);
    }
    if l :| l in Leaves(c, []) && l.above == [] && !l.isMux && l.inst.name == name {
      TopLeafHasWidth(c, l);
    }
  }

  lemma {:induction false} TopLeafHasWidth(c: Chain, l: LeafSite)
    requires GoodShape(c) && l in Leaves(c, []) && l.above == [] && !l.isMux
    ensures InstrumentWidth(c, l.inst.name).Some?
  {
    match c
    case Sib(name, gate, rest) =>
      if gate.Net? && l in Leaves(gate.chain, [] + [Step(name, 1)]) {
        LeafPath(gate.chain, [] + [Step(name, 1)], l);
      } else if l in Leaves(rest, []) {
        TopLeafHasWidth(rest, l);
      }
    case Mux(name, _, arms, rest) => ArmLeavesDeeper(arms, name, l);
  }

  lemma {:induction false} ArmLeavesDeeper(a: Arms, mux: string, l: LeafSite)
    requires l in ArmLeaves(a, mux, [])
    ensures l.isMux || l.above != []
  {
    var step := Step(mux, a.value);
    if l in GateLeaves(a.gate, step, [], true) {
      if a.gate.Net? {
        LeafPath(a.gate.chain, [] + [step], l);
      }
    } else {
      ArmLeavesDeeper(a.others, mux, l);
    }
  }

  // ---------------------------------------------------------------- one chain

  /** Targeting, queueing and applying, as one state. */
  lemma ServeIs(c: Chain, root: ModuleInstance, p: Pdl, name: string, call: Call)
    requires ServeOne(c, root, p, name, call).Some? && (call.IWrite? || call.IRead?) && call.field.None?
    ensures call.IWrite? ==>
      && Apply(c, Queued(p, name, call.value)).Some?
      && ServeOne(c, root, p, name, call).value == Apply(c, Queued(p, name, call.value)).value.pdl
    ensures call.IRead? && p.pendingReads == map[] ==>
      && Apply(c, Asking(p, name, call.expected, None)).Some?
      && ServeOne(c, root, p, name, call).value == Apply(c, Asking(p, name, call.expected, None)).value.pdl
  {
    hide Apply;
    ChildKeepsName(root.children, name);
    assert [name][1..] == [];
    assert Resolve(root, [name]) == ChildNamed(root.children, name);
  }

  lemma PopsAll(c: Chain, p: Pdl, name: string)
    requires Apply(c, p).Some? && p.scope == Some(name) && p.pendingWrites.Keys <= {name}
    ensures Apply(c, p).value.pdl.pendingWrites == map[]
  {
    TakenWrites(c, p);
  }

  /** A load adds no check. */
  lemma LoadChecksNothing(w: Wiring<NetState>, world: World, t: Tap<NetState>, c: Chain, root: ModuleInstance,
                          p: Pdl, name: string, value: int)
    requires Network(c) && Between(w, world, t, c, p) && InstrumentWidth(c, name).Some?
    requires ServeOne(c, root, p, name, IWrite(value, None)).Some?
    ensures var q := ServeOne(c, root, p, name, IWrite(value, None)).value;
            Between(w, world, t, c, q) && ChecksOf(w, t, q) == ChecksOf(w, t, p)
  {
    hide Network, Leaves, Play, TapOps, Tracks, Apply, ServeOne, CheckReads;
    var l := WidthIsLeaf(c, name);
    ServeIs(c, root, p, name, IWrite(value, None));
    var asked := Queued(p, name, value);
    StepQueued(w, world, t, c, p, asked);
    var q := ProbeApply(w, world, t, c, asked, l);
    PopsAll(c, asked, name);
  }

  /** The value read for a sequence has, at each bit, the element the unload means. */
  lemma UnloadPayload(s: Bits, width: nat, captured: Bits)
    requires width <= |s| && width == |captured|
    ensures FieldMatches(captured, SequenceToPayload(StripUnload(s, width).value), 0, width - 1)
            <==> forall k :: 0 <= k < width ==> captured[k] == s[width - 1 - k]
  {
    var r := StripUnload(s, width).value;
    forall k: nat | k < width ensures BitOf(SequenceToPayload(r), k) == s[width - 1 - k] {
      ToIntBit(Reverse(r), k);
    }
    if FieldMatches(captured, SequenceToPayload(r), 0, width - 1) {
      forall k | 0 <= k < width ensures captured[k] == s[width - 1 - k] {
        assert captured[k] == BitOf(SequenceToPayload(r), k - 0);
      }
    }
  }

  /** An unload adds one check, which passes exactly when the instrument responds as the pattern says. */
  lemma UnloadIsChecked(w: Wiring<NetState>, world: World, t: Tap<NetState>, c: Chain, root: ModuleInstance,
                        p: Pdl, d: ChainData) returns (check: ReadCheck, n: nat)
    requires Network(c) && Between(w, world, t, c, p) && d.unload.Some?
    requires UnloadOne(c, root, p, d).Some?
    ensures var q := UnloadOne(c, root, p, d).value;
            && Between(w, world, t, c, q) && SameValues(q.committed, p.committed)
            && ChecksOf(w, t, q) == Some(ChecksOf(w, t, p).value + [check])
            && Captures(w, t, p) <= n < Captures(w, t, q)
            && (check.passed <==> Responds(c, d, p.committed, world(n)))
  {
    hide Network, Leaves, InsideArm, Play, TapOps, Tracks, Apply, ServeOne, CheckReads, FieldMatches, Stage,
         SequenceToPayload, StripUnload;
    var name := d.inst.value;
    var width := InstrumentWidth(c, name).value;
    var s := StripUnload(d.unload.value, width).value;
    var l := WidthIsLeaf(c, name);
    ServeIs(c, root, p, name, IRead(SequenceToPayload(s), None));
    var asking := Asking(p, name, SequenceToPayload(s), None);
    StepQueued(w, world, t, c, p, asking);
    check, n := AskingApply(w, world, t, c, asking, l);
    PopsAll(c, asking, name);
    ApplyCaptures(w, world, t, c, asking, l);
    CurrentIsCommitted(asking, name);
    OutsideSays(c, check, l, asking, world(n));
    UnloadPayload(d.unload.value, width, Captured(l.inst, p.committed, world(n))) by {
      StripsWhole(d.unload.value, width);
    }
    StripsWhole(d.unload.value, width);
    OneLeaf(c, l, d, p.committed, world(n));
  }

  lemma StripsWhole(s: Bits, width: nat)
    requires StripUnload(s, width).Some?
    ensures width <= |s|
  {
  }

  lemma CurrentIsCommitted(p: Pdl, name: string)
    requires p.pendingWrites == map[]
    ensures Current(p, name) == ValueOf(p.committed, name, 0)
    ensures SameValues(p.committed[name := Current(p, name)], p.committed)
  {
  }

  /** A check outside every arm says what the captured field says. */
  lemma OutsideSays(c: Chain, check: ReadCheck, l: LeafSite, p: Pdl, sense: Sense)
    requires l.above == [] && Says(check, c, l, p, sense)
    ensures Verdict(check, l, p, sense)
  {
  }

  /** The one instrument of the name decides. */
  lemma OneLeaf(c: Chain, l: LeafSite, d: ChainData, committed: Committed, sense: Sense)
    requires Network(c) && l in Leaves(c, []) && Some(l.inst.name) == d.inst
    requires d.unload.Some? && l.inst.width <= |d.unload.value|
    ensures Responds(c, d, committed, sense) <==>
            forall k :: 0 <= k < l.inst.width ==>
              Captured(l.inst, committed, sense)[k] == d.unload.value[l.inst.width - 1 - k]
  {
    hide Network, Leaves, Captured, Valid, UniqueInsts;
    NetworkParts(c);
    forall k | k in Leaves(c, []) && Some(k.inst.name) == d.inst ensures k == l {
      SameInstSameLeaf(c, l, k);
    }
  }

  /** Phase 2 makes the last capture of an iApply. */
  lemma ApplyCaptures(w: Wiring<NetState>, world: World, t: Tap<NetState>, c: Chain, p: Pdl, l: LeafSite)
    requires Network(c) && PlaysTo(w, world, t, c, p) && Apply(c, p).Some?
    requires l in Leaves(c, []) && p.scope == Some(l.inst.name)
    ensures PlaysTo(w, world, t, c, Apply(c, p).value.pdl)
    ensures Captures(w, t, p) <= CaptureOf(w, t, c, p, l)
    ensures Captures(w, t, Apply(c, p).value.pdl) == CaptureOf(w, t, c, p, l) + 1
  {
    hide Network, Leaves, Play, Apply, Stage, TapOps, InStep, Ready, OpenState;
    var a := Apply(c, p).value;
    var u := Play(w, t, TapOps(p.program)).value.0;
    StepApply(w, world, t, c, p);
    var mid := PlayApply(w, world, u, c, p, l);
    ApplyProgram(c, p, l);
    PlayCompose(w, t, TapOps(p.program), a.ops);
    var rounds := ApplyShape(c, p, l);
    PlayShifts(w, u, a.ops);
    ApplyShifts(c, p, l, rounds);
  }

  // ---------------------------------------------------------------- one pattern

  /** Loading a pattern adds no check. */
  lemma {:induction false} LoadsCheckNothing(w: Wiring<NetState>, world: World, t: Tap<NetState>, c: Chain,
                                             root: ModuleInstance, p: Pdl, chains: seq<ChainData>)
    requires Network(c) && Between(w, world, t, c, p) && LoadAll(c, root, p, chains).Some?
    ensures var q := LoadAll(c, root, p, chains).value;
            Between(w, world, t, c, q) && ChecksOf(w, t, q) == ChecksOf(w, t, p)
    decreases |chains|
  {
    hide Network, Between, ServeOne, ChecksOf;
    if chains != [] {
      LoadsCheckNothing(w, world, t, c, root, p, chains[..|chains| - 1]);
      var q, d := LoadAll(c, root, p, chains[..|chains| - 1]).value, chains[|chains| - 1];
      if d.load.Some? {
        var s := StripLoad(d.load.value, InstrumentWidth(c, d.inst.value).value).value;
        LoadChecksNothing(w, world, t, c, root, q, d.inst.value, SequenceToPayload(s));
      }
    }
  }

  /** One check per chain in `asked`, each on its own capture, in order, between captures `from` and `to`. */
  ghost predicate Answers(world: World, c: Chain, committed: Committed, asked: seq<ChainData>,
                          checks: seq<ReadCheck>, captures: seq<nat>, from: nat, to: nat) {
    && |checks| == |captures| == |asked|
    && (forall j :: 0 <= j < |asked| ==>
          from <= captures[j] < to && (checks[j].passed <==> Responds(c, asked[j], committed, world(captures[j]))))
    && forall i, j :: 0 <= i < j < |asked| ==> captures[i] < captures[j]
  }

  lemma AnswersMore(world: World, c: Chain, committed: Committed, now: Committed, asked: seq<ChainData>, d: ChainData,
                    checks: seq<ReadCheck>, check: ReadCheck, captures: seq<nat>, n: nat, from: nat, mid: nat, to: nat)
    requires Answers(world, c, committed, asked, checks, captures, from, mid) && from <= mid <= n < to
    requires SameValues(now, committed) && (check.passed <==> Responds(c, d, now, world(n)))
    ensures Answers(world, c, committed, asked + [d], checks + [check], captures + [n], from, to)
  {
    hide Captured, Leaves;
    assert Responds(c, d, now, world(n)) <==> Responds(c, d, committed, world(n)) by {
      forall l | l in Leaves(c, []) ensures Captured(l.inst, now, world(n)) == Captured(l.inst, committed, world(n)) {
        SameCaptured(l.inst, now, committed, world(n));
      }
    }
    hide Responds;
  }

  /** Unloading a pattern adds one check per chain unloaded, in order. */
  lemma {:induction false} UnloadsAreChecked(w: Wiring<NetState>, world: World, t: Tap<NetState>, c: Chain,
                                             root: ModuleInstance, p: Pdl, chains: seq<ChainData>)
    returns (checks: seq<ReadCheck>, captures: seq<nat>)
    requires Network(c) && Between(w, world, t, c, p) && UnloadAll(c, root, p, chains).Some?
    ensures var q := UnloadAll(c, root, p, chains).value;
            && Between(w, world, t, c, q) && SameValues(q.committed, p.committed)
            && ChecksOf(w, t, q) == Some(ChecksOf(w, t, p).value + checks)
            && Captures(w, t, p) <= Captures(w, t, q)
            && Answers(world, c, p.committed, Asked(chains), checks, captures, Captures(w, t, p), Captures(w, t, q))
    decreases |chains|
  {
    hide Network, Tracks, Play, TapOps, CheckReads, ChecksOf, Captures, UnloadOne, SameValues, Responds;
    checks, captures := [], [];
    if chains == [] {
      SameSelf(p.committed);
      assert ChecksOf(w, t, p).value + [] == ChecksOf(w, t, p).value;
    } else {
      var front, d := chains[..|chains| - 1], chains[|chains| - 1];
      var q := UnloadAll(c, root, p, front).value;
      checks, captures := UnloadsAreChecked(w, world, t, c, root, p, front);
      if d.unload.Some? {
        hide Answers;
        var check, n := UnloadIsChecked(w, world, t, c, root, q, d);
        var r := UnloadOne(c, root, q, d).value;
        AnswersMore(world, c, p.committed, q.committed, Asked(front), d, checks, check, captures, n,
                    Captures(w, t, p), Captures(w, t, q), Captures(w, t, r));
        SameTwice(r.committed, q.committed, p.committed);
        assert ChecksOf(w, t, p).value + checks + [check] == ChecksOf(w, t, p).value + (checks + [check]);
        checks, captures := checks + [check], captures + [n];
      } else {
        assert Asked(front) + [] == Asked(front);
        SkipsUnload(c, root, q, d);
      }
    }
  }

  lemma SkipsUnload(c: Chain, root: ModuleInstance, p: Pdl, d: ChainData)
    requires d.unload.None?
    ensures UnloadOne(c, root, p, d) == Some(p)
  {
  }

  lemma SameSelf(a: Committed)
    ensures SameValues(a, a)
  {
  }

  lemma SameTwice(a: Committed, b: Committed, d: Committed)
    requires SameValues(a, b) && SameValues(b, d)
    ensures SameValues(a, d)
  {
    forall name ensures ValueOf(a, name, 0) == ValueOf(d, name, 0) {
      assert ValueOf(a, name, 0) == ValueOf(b, name, 0);
    }
  }

  // ---------------------------------------------------------------- whole runs

  lemma {:induction false} AskedIff(chains: seq<ChainData>)
    ensures Asked(chains) != [] <==> exists i :: 0 <= i < |chains| && chains[i].unload.Some?
    decreases |chains|
  {
    if chains != [] {
      var front := chains[..|chains| - 1];
      AskedIff(front);
      if i :| 0 <= i < |front| && front[i].unload.Some? {
        assert chains[i].unload.Some?;
      }
      if i :| 0 <= i < |chains| && chains[i].unload.Some? {
        assert i == |chains| - 1 || front[i].unload.Some?;
      }
    }
  }

  /** A pattern's pulse, if it unloads anything. */
  function PulseOf(pattern: Pattern, clock: Clock): seq<Op> {
    if Asked(pattern.chains) == [] then [] else [PulsePin(clock.port, clock.pulses, pattern.hold)]
  }

  lemma PulsedIs(w: Wiring<NetState>, world: World, t: Tap<NetState>, c: Chain, p: Pdl, pattern: Pattern, clock: Clock)
    requires Between(w, world, t, c, p)
    ensures var q := Pulsed(p, pattern, clock);
            && Between(w, world, t, c, q) && q == p.(program := p.program + PulseOf(pattern, clock))
            && ChecksOf(w, t, q) == ChecksOf(w, t, p) && Captures(w, t, q) == Captures(w, t, p)
  {
    hide Play, CheckReads, Tracks;
    AskedIff(pattern.chains);
    var op := PulsePin(clock.port, clock.pulses, pattern.hold);
    if Asked(pattern.chains) == [] {
      assert p.program + [] == p.program;
    } else {
      TapOpsJoin(p.program, [op]);
      assert [op][1..] == [] && TapOps([op]) == [] + TapOps([]) == [];
      assert TapOps(p.program) + [] == TapOps(p.program);
    }
    var q := p.(program := p.program + PulseOf(pattern, clock));
    assert Pulsed(p, pattern, clock) == q;
    assert TapOps(q.program) == TapOps(p.program);
    SameToTap(w, world, t, c, p, q);
  }

  /** What the TAP sees of a program, and what is queued, is all that matters between two commands. */
  lemma SameToTap(w: Wiring<NetState>, world: World, t: Tap<NetState>, c: Chain, p: Pdl, q: Pdl)
    requires Between(w, world, t, c, p) && TapOps(q.program) == TapOps(p.program) && NothingQueued(q)
    requires q.open == p.open && q.committed == p.committed
    ensures Between(w, world, t, c, q)
    ensures ChecksOf(w, t, q) == ChecksOf(w, t, p) && Captures(w, t, q) == Captures(w, t, p)
  {
    hide Play, CheckReads, TapOps;
  }

  /** One pattern from any point between two: its checks, made after its pulse. */
  lemma PatternIsChecked(w: Wiring<NetState>, world: World, t: Tap<NetState>, c: Chain, root: ModuleInstance,
                         p: Pdl, pattern: Pattern, clock: Clock)
    returns (checks: seq<ReadCheck>, captures: seq<nat>)
    requires Network(c) && Between(w, world, t, c, p) && RunPattern(c, root, p, pattern, clock).Some?
    ensures var at, q := Loaded(c, root, p, pattern).value, RunPattern(c, root, p, pattern, clock).value;
            && Between(w, world, t, c, at) && Between(w, world, t, c, q)
            && ChecksOf(w, t, at) == ChecksOf(w, t, p)
            && ChecksOf(w, t, q) == Some(ChecksOf(w, t, p).value + checks)
            && Answers(world, c, at.committed, Asked(pattern.chains), checks, captures,
                       Captures(w, t, at), Captures(w, t, q))
  {
    hide Network, PlaysTo, CheckReads, ChecksOf, Captures, LoadAll, UnloadAll, Pulsed, Answers;
    LoadsCheckNothing(w, world, t, c, root, p, pattern.chains);
    var at := LoadAll(c, root, p, pattern.chains).value;
    PulsedIs(w, world, t, c, at, pattern, clock);
    checks, captures := UnloadsAreChecked(w, world, t, c, root, Pulsed(at, pattern, clock), pattern.chains);
  }

  lemma {:induction false} PatternsBetween(w: Wiring<NetState>, world: World, t: Tap<NetState>, c: Chain,
                                           root: ModuleInstance, patterns: seq<Pattern>, clock: Clock)
    requires Network(c) && Tracks(w, world, c, NewPdl, t) && RunPatterns(c, root, patterns, clock).Some?
    ensures Between(w, world, t, c, RunPatterns(c, root, patterns, clock).value)
    decreases |patterns|
  {
    hide Network, Tracks, RunPattern, ChecksOf;
    if patterns == [] {
      NothingPlayed(w, world, t, c);
    } else {
      hide Between;
      var n := |patterns| - 1;
      PatternsBetween(w, world, t, c, root, patterns[..n], clock);
      var checks, captures := PatternIsChecked(w, world, t, c, root, RunPatterns(c, root, patterns[..n], clock).value,
                                               patterns[n], clock);
    }
  }

  lemma NothingPlayed(w: Wiring<NetState>, world: World, t: Tap<NetState>, c: Chain)
    requires Tracks(w, world, c, NewPdl, t)
    ensures Between(w, world, t, c, NewPdl)
  {
    hide Tracks;
  }

  lemma {:induction false} UnloadsAppend(c: Chain, root: ModuleInstance, p: Pdl, chains: seq<ChainData>)
    requires UnloadAll(c, root, p, chains).Some?
    ensures p.program <= UnloadAll(c, root, p, chains).value.program
    decreases |chains|
  {
    hide Do;
    if chains != [] {
      UnloadsAppend(c, root, p, chains[..|chains| - 1]);
      var q, d := UnloadAll(c, root, p, chains[..|chains| - 1]).value, chains[|chains| - 1];
      if d.unload.Some? {
        var s := StripUnload(d.unload.value, InstrumentWidth(c, d.inst.value).value).value;
        var call := IRead(SequenceToPayload(s), None);
        var q1 := Do(c, root, q, Call.ITarget([d.inst.value])).value;
        var q2 := Do(c, root, q1, call).value;
        Appends(c, root, q, Call.ITarget([d.inst.value]));
        Appends(c, root, q1, call);
        Appends(c, root, q2, IApply);
      }
    }
  }

  /** The pulse stands between a pattern's loads and its unloads. */
  lemma PulseInPlace(c: Chain, root: ModuleInstance, p: Pdl, pattern: Pattern, clock: Clock)
    requires RunPattern(c, root, p, pattern, clock).Some?
    ensures Loaded(c, root, p, pattern).Some?
    ensures Loaded(c, root, p, pattern).value.program + PulseOf(pattern, clock)
            <= RunPattern(c, root, p, pattern, clock).value.program
  {
    hide LoadAll, UnloadAll;
    var at := Loaded(c, root, p, pattern).value;
    AskedIff(pattern.chains);
    assert at.program + [] == at.program;
    UnloadsAppend(c, root, Pulsed(at, pattern, clock), pattern.chains);
  }

  /** In every run of patterns, each pattern that unloads anything is pulsed once, after its loads and before its
      unloads, and adds exactly one check per chain unloaded, in order, each on a capture of its own made after the
      pulse. A check passes exactly when, at every bit, what the chain's instrument captured is the element the
      pattern means: the first `width` of the back-padded sequence, last element at bit 0. */
  lemma UnloadsDecide(w: Wiring<NetState>, world: World, t: Tap<NetState>, c: Chain, root: ModuleInstance,
                      patterns: seq<Pattern>, clock: Clock, n: nat)
    returns (checks: seq<ReadCheck>, captures: seq<nat>)
    requires Network(c) && Tracks(w, world, c, NewPdl, t)
    requires RunPatterns(c, root, patterns, clock).Some? && n < |patterns|
    ensures RunPatterns(c, root, patterns[..n], clock).Some? && RunPatterns(c, root, patterns[..n + 1], clock).Some?
    ensures var before, after := RunPatterns(c, root, patterns[..n], clock).value,
                                 RunPatterns(c, root, patterns[..n + 1], clock).value;
            var at := Loaded(c, root, before, patterns[n]);
            && Between(w, world, t, c, before) && Between(w, world, t, c, after)
            && at.Some? && Between(w, world, t, c, at.value)
            && at.value.program + PulseOf(patterns[n], clock) <= after.program
            && ChecksOf(w, t, at.value) == ChecksOf(w, t, before)
            && ChecksOf(w, t, after) == Some(ChecksOf(w, t, before).value + checks)
            && Answers(world, c, at.value.committed, Asked(patterns[n].chains), checks, captures,
                       Captures(w, t, at.value), Captures(w, t, after))
  {
    hide Network, Tracks, RunPattern, ChecksOf, Between, Captures, Answers, Loaded;
    PrefixRuns(c, root, patterns, clock, n);
    PatternsBetween(w, world, t, c, root, patterns[..n], clock);
    assert patterns[..n + 1][..n] == patterns[..n];
    checks, captures := PatternIsChecked(w, world, t, c, root, RunPatterns(c, root, patterns[..n], clock).value,
                                         patterns[n], clock);
    PulseInPlace(c, root, RunPatterns(c, root, patterns[..n], clock).value, patterns[n], clock);
  }

  // ---------------------------------------------------------------- the pulses

  /** The pulses of a program. */
  function Pulses(ops: seq<Op>): seq<Op> {
    if ops == [] then [] else (if ops[0].PulsePin? then [ops[0]] else []) + Pulses(ops[1..])
  }

  lemma {:induction false} PulsesJoin(a: seq<Op>, b: seq<Op>)
    ensures Pulses(a + b) == Pulses(a) + Pulses(b)
  {
    if a == [] {
      assert a + b == b;
    } else {
      assert (a + b)[0] == a[0] && (a + b)[1..] == a[1..] + b;
      PulsesJoin(a[1..], b);
    }
  }

  lemma {:induction false} ScansPulseNothing(ops: seq<Op>)
    requires forall i :: 0 <= i < |ops| ==> !ops[i].PulsePin?
    ensures Pulses(ops) == []
  {
    if ops != [] {
      ScansPulseNothing(ops[1..]);
    }
  }

  lemma ServePulsesNothing(c: Chain, root: ModuleInstance, p: Pdl, name: string, call: Call)
    requires ServeOne(c, root, p, name, call).Some? && (call.IWrite? || call.IRead?) && call.field.None?
    ensures Pulses(ServeOne(c, root, p, name, call).value.program) == Pulses(p.program)
  {
    hide Stage, OpenPath, Pulses, RoundOps, Resolve, Expectation, Compose, Length;
    var q := Do(c, root, Do(c, root, p, Call.ITarget([name])).value, call).value;
    var ops := Apply(c, q).value.ops;
    var path := OpenPath(c, q.scope.value, []).value;
    var rounds := Stage(c, path, q.open).value;
    RoundOpsAreScans(c, q.open, rounds);
    var scan := ops[|RoundOps(c, q.open, rounds)|..];
    assert ops == RoundOps(c, q.open, rounds) + scan;
    assert forall i :: 0 <= i < |scan| ==> !scan[i].PulsePin?;
    ScansPulseNothing(ops);
    PulsesJoin(p.program, ops);
    assert Pulses(p.program) + [] == Pulses(p.program);
  }

  lemma {:induction false} LoadsPulseNothing(c: Chain, root: ModuleInstance, p: Pdl, chains: seq<ChainData>)
    requires LoadAll(c, root, p, chains).Some?
    ensures Pulses(LoadAll(c, root, p, chains).value.program) == Pulses(p.program)
    decreases |chains|
  {
    hide ServeOne, Pulses;
    if chains != [] {
      LoadsPulseNothing(c, root, p, chains[..|chains| - 1]);
      var q, d := LoadAll(c, root, p, chains[..|chains| - 1]).value, chains[|chains| - 1];
      if d.load.Some? {
        var s := StripLoad(d.load.value, InstrumentWidth(c, d.inst.value).value).value;
        ServePulsesNothing(c, root, q, d.inst.value, IWrite(SequenceToPayload(s), None));
      }
    }
  }

  lemma {:induction false} UnloadsPulseNothing(c: Chain, root: ModuleInstance, p: Pdl, chains: seq<ChainData>)
    requires UnloadAll(c, root, p, chains).Some?
    ensures Pulses(UnloadAll(c, root, p, chains).value.program) == Pulses(p.program)
    decreases |chains|
  {
    hide ServeOne, Pulses;
    if chains != [] {
      UnloadsPulseNothing(c, root, p, chains[..|chains| - 1]);
      var q, d := UnloadAll(c, root, p, chains[..|chains| - 1]).value, chains[|chains| - 1];
      if d.unload.Some? {
        var s := StripUnload(d.unload.value, InstrumentWidth(c, d.inst.value).value).value;
        ServePulsesNothing(c, root, q, d.inst.value, IRead(SequenceToPayload(s), None));
      }
    }
  }

  /** One pulse per pattern that unloads anything, in pattern order. */
  function PulsesOf(patterns: seq<Pattern>, clock: Clock): seq<Op> {
    if patterns == [] then []
    else PulsesOf(patterns[..|patterns| - 1], clock) + PulseOf(patterns[|patterns| - 1], clock)
  }

  /** The only pulses of a pattern run are its patterns' own, each held and counted as asked, and at the time of a
      pattern's pulse exactly the patterns before it have been pulsed. */
  lemma {:induction false} PulsesAre(c: Chain, root: ModuleInstance, patterns: seq<Pattern>, clock: Clock)
    requires RunPatterns(c, root, patterns, clock).Some?
    ensures Pulses(RunPatterns(c, root, patterns, clock).value.program) == PulsesOf(patterns, clock)
    decreases |patterns|
  {
    if patterns != [] {
      var n := |patterns| - 1;
      PulsesAre(c, root, patterns[..n], clock);
      PulsesOfPattern(c, root, RunPatterns(c, root, patterns[..n], clock).value, patterns[n], clock);
    }
  }

  lemma PulsesOfPattern(c: Chain, root: ModuleInstance, p: Pdl, pattern: Pattern, clock: Clock)
    requires RunPattern(c, root, p, pattern, clock).Some?
    ensures Pulses(Loaded(c, root, p, pattern).value.program) == Pulses(p.program)
    ensures Pulses(RunPattern(c, root, p, pattern, clock).value.program) == Pulses(p.program) + PulseOf(pattern, clock)
  {
    hide LoadAll, UnloadAll;
    LoadsPulseNothing(c, root, p, pattern.chains);
    var at := LoadAll(c, root, p, pattern.chains).value;
    AskedIff(pattern.chains);
    UnloadsPulseNothing(c, root, Pulsed(at, pattern, clock), pattern.chains);
    assert at.program + [] == at.program;
    PulsesJoin(at.program, PulseOf(pattern, clock));
    OnePulse(pattern, clock);
  }

  lemma OnePulse(pattern: Pattern, clock: Clock)
    ensures Pulses(PulseOf(pattern, clock)) == PulseOf(pattern, clock)
  {
    if PulseOf(pattern, clock) != [] {
      assert PulseOf(pattern, clock)[1..] == [];
    }
  }
}
