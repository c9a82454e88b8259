/** retarget_faultflow_patterns as it runs: loops that drive one PDL interpreter and append to its
    program. Proved to do what FaultflowRetarget says. */
module FaultflowRun {
  import opened Wrappers
  import opened Bits
  import opened IclModel
  import opened TapIr
  import opened PdlSpec
  import opened PdlInterpreter
  import opened FaultflowRetarget

  /** Target one instrument, queue its load or its expected unload, apply. */
  method DeliverOne(pdl: PDLInterpreter, name: string, value: int, isWrite: bool) returns (ok: bool)
    modifies pdl
    ensures var call := if isWrite then IWrite(value, None) else IRead(value, None);
            match ServeOne(pdl.graph, pdl.root, old(pdl.State()), name, call)
            case None => !ok
            case Some(q) => ok && pdl.State() == q
  {
    hide Target, Write, Read, Apply;
    ok := pdl.ITarget([name]);
    if ok {
      if isWrite {
        ok := pdl.IWrite(value, None);
      } else {
        ok := pdl.IRead(value, None);
      }
    }
    if ok {
      var ops := pdl.IApply();
      ok := ops.Some?;
    }
  }

  method LoadChains(pdl: PDLInterpreter, chains: seq<ChainData>) returns (ok: bool)
    modifies pdl
    ensures match LoadAll(pdl.graph, pdl.root, old(pdl.State()), chains)
            case None => !ok
            case Some(q) => ok && pdl.State() == q
  {
    hide ServeOne;
    ghost var start := pdl.State();
    for i := 0 to |chains|
      invariant LoadAll(pdl.graph, pdl.root, start, chains[..i]) == Some(pdl.State())
    {
      var d := chains[i];
      assert chains[..i + 1][..i] == chains[..i];
      if d.load.Some? {
        var width := if d.inst.None? then None else InstrumentWidth(pdl.graph, d.inst.value);
        var s := if width.None? then None else StripLoad(d.load.value, width.value);
        if s.None? {
          LoadStops(pdl.graph, pdl.root, start, chains, i);
          return false;
        }
        ok := DeliverOne(pdl, d.inst.value, SequenceToPayload(s.value), true);
        if !ok {
          LoadStops(pdl.graph, pdl.root, start, chains, i);
          return;
        }
      }
    }
    assert chains[..|chains|] == chains;
    return true;
  }

  lemma {:induction false} LoadStops(c: Chain, root: ModuleInstance, p: Pdl, chains: seq<ChainData>, i: nat)
    requires i < |chains| && LoadAll(c, root, p, chains[..i + 1]).None?
    ensures LoadAll(c, root, p, chains).None?
    decreases |chains|
  {
    if i == |chains| - 1 {
      assert chains[..i + 1] == chains;
    } else {
      var front := chains[..|chains| - 1];
      assert front[..i + 1] == chains[..i + 1];
      LoadStops(c, root, p, front, i);
    }
  }

  method UnloadChains(pdl: PDLInterpreter, chains: seq<ChainData>) returns (ok: bool)
    modifies pdl
    ensures match UnloadAll(pdl.graph, pdl.root, old(pdl.State()), chains)
            case None => !ok
            case Some(q) => ok && pdl.State() == q
  {
    hide ServeOne;
    ghost var start := pdl.State();
    for i := 0 to |chains|
      invariant UnloadAll(pdl.graph, pdl.root, start, chains[..i]) == Some(pdl.State())
    {
      var d := chains[i];
      assert chains[..i + 1][..i] == chains[..i];
      if d.unload.Some? {
        var width := if d.inst.None? then None else InstrumentWidth(pdl.graph, d.inst.value);
        var s := if width.None? then None else StripUnload(d.unload.value, width.value);
        if s.None? {
          UnloadStops(pdl.graph, pdl.root, start, chains, i);
          return false;
        }
        ok := DeliverOne(pdl, d.inst.value, SequenceToPayload(s.value), false);
        if !ok {
          UnloadStops(pdl.graph, pdl.root, start, chains, i);
          return;
        }
      }
    }
    assert chains[..|chains|] == chains;
    return true;
  }

  lemma {:induction false} UnloadStops(c: Chain, root: ModuleInstance, p: Pdl, chains: seq<ChainData>, i: nat)
    requires i < |chains| && UnloadAll(c, root, p, chains[..i + 1]).None?
    ensures UnloadAll(c, root, p, chains).None?
    decreases |chains|
  {
    if i == |chains| - 1 {
      assert chains[..i + 1] == chains;
    } else {
      var front := chains[..|chains| - 1];
      assert front[..i + 1] == chains[..i + 1];
      UnloadStops(c, root, p, front, i);
    }
  }

  /** One pattern: load, pulse, unload. */
  method RetargetOne(pdl: PDLInterpreter, pattern: Pattern, clock: Clock) returns (ok: bool)
    modifies pdl
    ensures match RunPattern(pdl.graph, pdl.root, old(pdl.State()), pattern, clock)
            case None => !ok
            case Some(q) => ok && pdl.State() == q
  {
    hide LoadAll, UnloadAll;
    for i := 0 to |pattern.chains|
      invariant pdl.State() == old(pdl.State())
      invariant forall k :: 0 <= k < i ==> Mapped(pdl.graph, pattern.chains[k])
    {
      if !Mapped(pdl.graph, pattern.chains[i]) {
        return false;
      }
    }
    ok := LoadChains(pdl, pattern.chains);
    if ok {
      var unloads := exists i :: 0 <= i < |pattern.chains| && pattern.chains[i].unload.Some?;
      if unloads {
        pdl.program := pdl.program + [PulsePin(clock.port, clock.pulses, pattern.hold)];
      }
      ok := UnloadChains(pdl, pattern.chains);
    }
  }

  method RetargetFaultflowPatterns(graph: Chain, root: ModuleInstance, patterns: seq<Pattern>, clock: Clock)
    returns (program: Option<seq<Op>>)
    ensures program == match RunPatterns(graph, root, patterns, clock) case None => None case Some(p) => Some(p.program)
  {
    hide RunPattern;
    var pdl := new PDLInterpreter(graph, root);
    for n := 0 to |patterns|
      invariant pdl.graph == graph && pdl.root == root
      invariant RunPatterns(graph, root, patterns[..n], clock) == Some(pdl.State())
    {
      assert patterns[..n + 1][..n] == patterns[..n];
      var ok := RetargetOne(pdl, patterns[n], clock);
      if !ok {
        if RunPatterns(graph, root, patterns, clock).Some? {
          PrefixRuns(graph, root, patterns, clock, n);
        }
        return None;
      }
    }
    assert patterns[..|patterns|] == patterns;
    return Some(pdl.program);
  }
}
