/** The loops that build the integrity program's tests and step the two models through them
    (tap_integrity.py). */
module IntegrityBuild {
  import opened Wrappers
  import opened Bits
  import opened IclModel
  import opened SibLayout
  import opened SibCells
  import opened SibRetarget
  import opened SibStaging
  import opened PathPlan
  import opened TapFsm
  import opened TapIr
  import opened TapModel
  import opened TapPlay
  import opened TapSelect
  import opened TapCycles
  import opened PdlSpec
  import opened PdlInterpreter
  import opened Retargeting
  import opened OverShift
  import opened Integrity
  import opened SelfCheckCycles
  import opened ReadProbes
  import opened IntegrityProbes
  import opened WriteReadback
  import opened WriteTargets
  import opened IntegrityTests
  import opened TestBoundaries
  import opened ProgramCycles
  import opened ProgramChecks
  import opened IntegrityProgram

  // ---------------------------------------------------------------- the TAP and the probes

  method BuildOpcodeTests(cfg: Config, margin: nat) returns (tests: seq<Test>)
    ensures tests == OpcodeTests(cfg, Pow2(cfg.irWidth), margin)
  {
    hide Implemented, OpcodeTest;
    tests := [];
    for opcode := 0 to Pow2(cfg.irWidth)
      invariant tests == OpcodeTests(cfg, opcode, margin)
    {
      if !Implemented(cfg, opcode) {
        tests := tests + [OpcodeTest(cfg, opcode, margin)];
      }
    }
  }

  method BuildTapTests(cfg: Config, margin: nat, options: Options) returns (tests: seq<Test>)
    requires margin >= 1
    ensures tests == [TrstTest(cfg, margin)] + TapTests(cfg, margin, options)
  {
    hide IrScan, SentinelScan, OpcodeTests, SelectInstruction, TapPathTests, TrstTest;
    tests := [Test([], IrScan(cfg, margin)), Test([], SentinelScan(1, margin))];
    if options.exhaustiveOpcodes {
      var opcodes := BuildOpcodeTests(cfg, margin);
      tests := tests + opcodes;
    }
    if cfg.hasIdcode {
      tests := tests + [Test([], SelectInstruction(OPCODE_IDCODE, cfg.irWidth) + SentinelScan(32, margin))];
    }
    if options.tapPaths {
      tests := tests + TapPathTests(cfg, margin);
    }
    tests := [TrstTest(cfg, margin)] + tests;
  }

  method BuildProbeTests(cfg: Config, c: Chain, margin: nat) returns (tests: Option<seq<Planned>>)
    ensures tests == ProbeTests(cfg, c, Targets(c), margin)
  {
    hide OvershiftOps, CloseAll, Stage, Targets, SelectInstruction;
    var targets := Targets(c);
    var probe := BuildOvershiftOps(c, [], map[], margin, None);
    if probe.None? {
      NoProbes(cfg, c, targets, margin, 0);
      return None;
    }
    var out := [Planned(Test([], SelectInstruction(NetworkOpcode(cfg), cfg.irWidth) + probe.value), map[])];
    for k := 0 to |targets|
      invariant out != [] && ProbeTests(cfg, c, targets[..k], margin) == Some(out)
    {
      assert targets[..k + 1][..k] == targets[..k];
      probe := BuildOvershiftOps(c, targets[k], map[], margin, None);
      if probe.None? {
        NoProbes(cfg, c, targets, margin, k + 1);
        return None;
      }
      var rounds := StageOpenSequence(c, targets[k], map[]);
      var open := if rounds.Some? then LastOf(map[], rounds.value) else map[];
      out := out + [Planned(Test([], CloseAll(c, Last(out).believed) + probe.value), open)];
    }
    assert targets[..|targets|] == targets;
    return Some(out);
  }

  lemma {:induction false} NoProbes(cfg: Config, c: Chain, targets: seq<Path>, margin: nat, k: nat)
    requires k <= |targets| && ProbeTests(cfg, c, targets[..k], margin).None?
    ensures ProbeTests(cfg, c, targets, margin).None?
    decreases |targets|
  {
    hide OvershiftOps, CloseAll;
    if k == |targets| {
      assert targets[..k] == targets;
    } else {
      assert targets[..|targets| - 1][..k] == targets[..k];
      NoProbes(cfg, c, targets[..|targets| - 1], margin, k);
    }
  }

  // ---------------------------------------------------------------- write and readback

  function Half(item: Item, isWrite: bool): seq<Call> {
    [Call.ITarget(item.address), if isWrite then Call.IWrite(item.value, None) else Call.IRead(item.value, None),
     Call.IApply]
  }

  /** Target, queue, apply. */
  method Serve(pdl: PDLInterpreter, item: Item, isWrite: bool, ghost calls: seq<Call>) returns (ok: bool)
    requires Run(pdl.graph, pdl.root, calls) == Some(pdl.State())
    modifies pdl
    ensures match Run(pdl.graph, pdl.root, calls + Half(item, isWrite))
            case None => !ok
            case Some(q) => ok && pdl.State() == q
  {
    hide Run, Target, Write, Read, Apply;
    ghost var half := Half(item, isWrite);
    ghost var all := calls + half;
    Steps(calls, half);
    RunAppend(pdl.graph, pdl.root, calls, half[0]);
    ok := pdl.ITarget(item.address);
    if !ok { Stops(pdl.graph, pdl.root, all, |calls| + 1); return; }
    RunAppend(pdl.graph, pdl.root, all[..|calls| + 1], half[1]);
    if isWrite {
      ok := pdl.IWrite(item.value, None);
    } else {
      ok := pdl.IRead(item.value, None);
    }
    if !ok { Stops(pdl.graph, pdl.root, all, |calls| + 2); return; }
    RunAppend(pdl.graph, pdl.root, all[..|calls| + 2], half[2]);
    var ops := pdl.IApply();
    ok := ops.Some?;
  }

  /** One write and its readback. */
  method WriteAndRead(pdl: PDLInterpreter, item: Item, ghost items: seq<Item>) returns (ok: bool)
    requires Run(pdl.graph, pdl.root, Calls(items)) == Some(pdl.State())
    modifies pdl
    ensures match Run(pdl.graph, pdl.root, Calls(items + [item]))
            case None => !ok
            case Some(q) => ok && pdl.State() == q
  {
    Halves(items, item);
    hide Run, Calls;
    ghost var calls, first, second := Calls(items), Half(item, true), Half(item, false);
    ok := Serve(pdl, item, true, calls);
    if ok {
      ok := Serve(pdl, item, false, calls + first);
    } else {
      Stops(pdl.graph, pdl.root, calls + first + second, |calls + first|);
    }
  }

  lemma Halves(items: seq<Item>, item: Item)
    ensures Calls(items + [item]) == Calls(items) + Half(item, true) + Half(item, false)
    ensures var all := Calls(items + [item]);
            var k := |Calls(items) + Half(item, true)|;
            k <= |all| && all[..k] == Calls(items) + Half(item, true)
  {
    assert (items + [item])[..|items|] == items;
    assert ItemCalls(item) == Half(item, true) + Half(item, false);
  }

  lemma Steps(calls: seq<Call>, block: seq<Call>)
    ensures forall k :: 0 <= k < |block| ==>
              (calls + block)[..|calls| + k] + [block[k]] == (calls + block)[..|calls| + k + 1]
    ensures (calls + block)[..|calls|] == calls && (calls + block)[..|calls| + |block|] == calls + block
  {
  }

  /** The write and readback tests: each is what the interpreter appended for one instrument. */
  method WriteReadbackTests(graph: Chain, root: ModuleInstance, writes: seq<Writable>, open: OpenMap)
    returns (tests: Option<seq<Planned>>)
    ensures tests == ReadbackTests(graph, root, writes, open)
  {
    hide Run, Calls, Values, CloseAll, ReadbackTests, From, Items;
    NoTests(graph, root, open);
    assert writes[..0] == [];
    var pdl := new PDLInterpreter(graph, root);
    var out: seq<Planned> := [];
    var closing := CloseAll(graph, open);
    NoCalls(graph, root);
    for i := 0 to |writes|
      invariant pdl.graph == graph && pdl.root == root
      invariant Run(graph, root, Calls(Items(writes[..i]))) == Some(pdl.State())
      invariant ReadbackTests(graph, root, writes[..i], open) == Some(out)
      invariant closing == if i == 0 then CloseAll(graph, open) else []
    {
      var start := |pdl.program|;
      assert writes[..i + 1][..i] == writes[..i];
      var ok := Readback(pdl, writes, i);
      if !ok {
        NoReadback(graph, root, writes, open, i + 1);
        return None;
      }
      OneTestMore(graph, root, writes[..i + 1], open);
      out := out + [Planned(Test([], closing + From(pdl.program, start)), pdl.currentlyOpen)];
      closing := [];
    }
    assert writes[..|writes|] == writes;
    return Some(out);
  }

  /** Every value written to one instrument and read back. */
  method Readback(pdl: PDLInterpreter, writes: seq<Writable>, i: nat) returns (ok: bool)
    requires i < |writes| && Run(pdl.graph, pdl.root, Calls(Items(writes[..i]))) == Some(pdl.State())
    modifies pdl
    ensures match Run(pdl.graph, pdl.root, Calls(Items(writes[..i + 1])))
            case None => !ok
            case Some(q) => ok && pdl.State() == q
  {
    hide Run, Calls, Values;
    var items := ItemsOf(writes[i]);
    ghost var done := Items(writes[..i]);
    assert writes[..i + 1][..i] == writes[..i] && Items(writes[..i + 1]) == done + items;
    assert items[..0] == [] && done + [] == done;
    for j := 0 to |items|
      invariant Run(pdl.graph, pdl.root, Calls(done + items[..j])) == Some(pdl.State())
    {
      assert done + items[..j] + [items[j]] == done + items[..j + 1];
      ok := WriteAndRead(pdl, items[j], done + items[..j]);
      if !ok {
        Short(pdl.graph, pdl.root, done + items[..j + 1], items[j + 1..]);
        assert done + items[..j + 1] + items[j + 1..] == done + items;
        return;
      }
    }
    assert items[..|items|] == items;
    ok := true;
  }

  lemma Short(c: Chain, root: ModuleInstance, done: seq<Item>, rest: seq<Item>)
    requires Run(c, root, Calls(done)).None?
    ensures Run(c, root, Calls(done + rest)).None?
  {
    hide Run, Calls;
    CallsJoin(done, rest);
    assert (Calls(done) + Calls(rest))[..|Calls(done)|] == Calls(done);
    Stops(c, root, Calls(done + rest), |Calls(done)|);
  }

  lemma NoTests(c: Chain, root: ModuleInstance, open: OpenMap)
    ensures ReadbackTests(c, root, [], open) == Some([])
  {
  }

  lemma OneTestMore(c: Chain, root: ModuleInstance, writes: seq<Writable>, open: OpenMap)
    requires writes != [] && ReadbackTests(c, root, writes[..|writes| - 1], open).Some?
    requires Run(c, root, Calls(Items(writes[..|writes| - 1]))).Some? && Run(c, root, Calls(Items(writes))).Some?
    ensures var front := writes[..|writes| - 1];
            var p, q := Run(c, root, Calls(Items(front))).value, Run(c, root, Calls(Items(writes))).value;
            ReadbackTests(c, root, writes, open)
            == Some(ReadbackTests(c, root, front, open).value
                    + [Planned(Test([], (if front == [] then CloseAll(c, open) else []) + From(q.program, |p.program|)),
                               q.open)])
  {
    hide Run, Calls, Items, CloseAll, From;
  }

  lemma {:induction false} NoReadback(c: Chain, root: ModuleInstance, writes: seq<Writable>, open: OpenMap, k: nat)
    requires 1 <= k <= |writes| && Run(c, root, Calls(Items(writes[..k]))).None?
    ensures ReadbackTests(c, root, writes, open).None?
    decreases |writes|
  {
    hide Run, Calls, Items, CloseAll;
    if k == |writes| {
      assert writes[..k] == writes;
    } else {
      assert writes[..|writes| - 1][..k] == writes[..k];
      NoReadback(c, root, writes[..|writes| - 1], open, k);
    }
  }

  lemma NoCalls(c: Chain, root: ModuleInstance)
    ensures Run(c, root, Calls(Items([]))) == Some(NewPdl)
  {
  }

  // ---------------------------------------------------------------- where an instrument is addressed

  /** The search of _dotted_address, which collects every address it comes by. */
  method Walk(node: ModuleInstance, prefix: seq<string>, name: string, paths: seq<seq<string>>) returns (found: seq<seq<string>>)
    ensures found == paths + Below(prefix, Addresses(node, name))
    decreases node
  {
    hide Below, Under, AddressesIn;
    found := paths;
    NothingBelow(prefix, name);
    assert node.children[..0] == [] && paths + [] == paths;
    for k := 0 to |node.children|
      invariant found == paths + Below(prefix, AddressesIn(node.children[..k], name))
    {
      var child := node.children[k];
      if child.name == name {
        found := found + [prefix + [child.name]];
      }
      found := Walk(child, prefix + [child.name], name, found);
      BelowChild(prefix, node.children[..k], child, name, paths);
      assert node.children[..k + 1] == node.children[..k] + [child];
    }
    assert node.children[..|node.children|] == node.children;
  }

  function Below(prefix: seq<string>, addresses: seq<seq<string>>): seq<seq<string>> {
    seq(|addresses|, i requires 0 <= i < |addresses| => prefix + addresses[i])
  }

  lemma NothingBelow(prefix: seq<string>, name: string)
    ensures Below(prefix, AddressesIn([], name)) == []
  {
  }

  /** One child more. */
  lemma BelowChild(prefix: seq<string>, front: seq<ModuleInstance>, child: ModuleInstance, name: string,
                   paths: seq<seq<string>>)
    ensures var here := if child.name == name then [prefix + [child.name]] else [];
            paths + Below(prefix, AddressesIn(front, name)) + here + Below(prefix + [child.name], Addresses(child, name))
            == paths + Below(prefix, AddressesIn(front + [child], name))
  {
    hide Addresses, Below, Under;
    var own, under := if child.name == name then [[name]] else [], Under(child.name, Addresses(child, name));
    OneChild(front, child, name);
    BelowJoin(prefix, AddressesIn(front, name), own + under);
    BelowJoin(prefix, own, under);
    BelowUnder(prefix, child.name, Addresses(child, name));
    BelowOwn(prefix, child, name);
    Placed(paths, Below(prefix, AddressesIn(front, name)), Below(prefix, own), Below(prefix, under));
  }

  lemma Placed(a: seq<seq<string>>, b: seq<seq<string>>, c: seq<seq<string>>, d: seq<seq<string>>)
    ensures a + b + c + d == a + (b + (c + d))
  {
  }

  lemma BelowOwn(prefix: seq<string>, child: ModuleInstance, name: string)
    ensures Below(prefix, if child.name == name then [[name]] else [])
            == if child.name == name then [prefix + [child.name]] else []
  {
  }

  lemma {:induction false} OneChild(front: seq<ModuleInstance>, child: ModuleInstance, name: string)
    ensures AddressesIn(front + [child], name)
            == AddressesIn(front, name)
               + ((if child.name == name then [[name]] else []) + Under(child.name, Addresses(child, name)))
    decreases |front|
  {
    hide Addresses, Under;
    if front == [] {
      assert front + [child] == [child] && [child][1..] == [];
    } else {
      assert (front + [child])[0] == front[0] && (front + [child])[1..] == front[1..] + [child];
      OneChild(front[1..], child, name);
    }
  }

  lemma BelowJoin(prefix: seq<string>, a: seq<seq<string>>, b: seq<seq<string>>)
    ensures Below(prefix, a + b) == Below(prefix, a) + Below(prefix, b)
  {
  }

  lemma BelowUnder(prefix: seq<string>, name: string, addresses: seq<seq<string>>)
    ensures Below(prefix, Under(name, addresses)) == Below(prefix + [name], addresses)
  {
    forall i | 0 <= i < |addresses|
      ensures Below(prefix, Under(name, addresses))[i] == Below(prefix + [name], addresses)[i]
    {
      assert prefix + ([name] + addresses[i]) == prefix + [name] + addresses[i];
    }
  }

  lemma BelowRoot(addresses: seq<seq<string>>)
    ensures [] + Below([], addresses) == addresses
  {
    forall i | 0 <= i < |addresses| ensures Below([], addresses)[i] == addresses[i] {
      assert [] + addresses[i] == addresses[i];
    }
  }

  method FindAddress(root: ModuleInstance, name: string) returns (address: Option<seq<string>>)
    ensures address == DottedAddress(root, name)
  {
    var paths := Walk(root, [], name, []);
    BelowRoot(Addresses(root, name));
    return if |paths| == 1 then Some(paths[0]) else None;
  }

  method FindWrites(c: Chain, root: ModuleInstance) returns (writes: Option<seq<Writable>>)
    ensures writes == Writes(c, root)
  {
    hide DottedAddress, LeafList, OnlyWrites;
    var leaves := OnlyWrites(LeafList(c, []));
    var out: seq<Writable> := [];
    for k := 0 to |leaves|
      invariant WithAddresses(root, leaves[..k]) == Some(out)
    {
      assert leaves[..k + 1][..k] == leaves[..k];
      var address := FindAddress(root, leaves[k].inst.name);
      if address.None? {
        WithAddressesIs(root, leaves);
        return None;
      }
      out := out + [Writable(leaves[k], address.value)];
    }
    assert leaves[..|leaves|] == leaves;
    return Some(out);
  }

  // ---------------------------------------------------------------- all tests

  /** _integrity_tests. */
  method BuildTests(cfg: Config, c: Chain, root: ModuleInstance, margin: int, options: Options)
    returns (tests: Option<seq<Planned>>)
    ensures tests == AllTests(cfg, c, root, margin, options)
  {
    hide TapTests, TrstTest, ProbeTests, HoldTests, Writes, ReadbackTests, ResetTest, Targets;
    if margin < 1 {
      return None;
    }
    var tap := BuildTapTests(cfg, margin, options);
    var first := Closed(tap);
    var last: seq<Planned> := [];
    if !c.End? {
      var probes := BuildProbeTests(cfg, c, margin);
      if probes.None? {
        return None;
      }
      var network := probes.value;
      assert network + [] == network;
      if options.networkHold {
        network := network + HoldTests(cfg, c, Last(network).believed, margin);
      }
      first := first + network;
      if options.writeReadback {
        var writes := FindWrites(c, root);
        if writes.None? {
          return None;
        }
        var readback := WriteReadbackTests(c, root, writes.value, Last(first).believed);
        if readback.None? {
          return None;
        }
        last := readback.value;
      }
    }
    return Some(first + last + [Planned(ResetTest(cfg, margin), Last(first + last).believed)]);
  }

  // ---------------------------------------------------------------- their cycles

  /** One test: its lead-in, its operations' cycles, and the check of its reads. */
  method ExpectedTest(wl: Wiring<NetState>, wh: Wiring<NetState>, c: Chain, low: Tap<NetState>, high: Tap<NetState>,
                      test: Test) returns (cycles: Option<seq<TckCycle>>, low': Tap<NetState>, high': Tap<NetState>)
    requires Plain(test.ops)
    ensures cycles == CyclesOfTest(wl, wh, c, low, high, test)
    ensures cycles.Some? ==> low' == After(wl, c, low, test) && high' == After(wh, c, high, test)
  {
    hide Expected, ToCycles, ReadsHold, Plain, Ends;
    var lead, l, h := ExpectedCycles(wl, wh, c, low, high, test.leadIn);
    low', high' := l, h;
    var ticks := ToCyclesLoop(test.ops);
    if lead.None? || ticks.None? || !l.state.RunTestIdle? {
      cycles := None;
      return;
    }
    assert l == Led(wl, c, low, test) && h == Led(wh, c, high, test);
    var body;
    body, low', high' := ExpectedCycles(wl, wh, c, l, h, Inputs(ticks.value));
    if body.None? {
      cycles := None;
      return;
    }
    assert |body.value| == |ticks.value|;
    PlainAligned(test.ops);
    var ok := CheckReadsOnCycles(test.ops, body.value);
    cycles := if ok == Some(true) then Some(lead.value + body.value) else None;
  }

  /** _expected_cycles, for the operations of built tests: two models stepped test by test. */
  method ExpectedTests(wl: Wiring<NetState>, wh: Wiring<NetState>, c: Chain, low: Tap<NetState>, high: Tap<NetState>,
                       tests: seq<Planned>) returns (cycles: Option<seq<TckCycle>>)
    requires forall test :: test in tests ==> Plain(test.test.ops)
    ensures cycles == TestCycles(wl, wh, c, low, high, tests)
  {
    hide CyclesOfTest, After, Plain;
    var l, h := low, high;
    var out: seq<TckCycle> := [];
    assert tests[0..] == tests;
    if TestCycles(wl, wh, c, l, h, tests).Some? {
      assert out + TestCycles(wl, wh, c, l, h, tests).value == TestCycles(wl, wh, c, l, h, tests).value;
    }
    for k := 0 to |tests|
      invariant TestCycles(wl, wh, c, low, high, tests)
                == match TestCycles(wl, wh, c, l, h, tests[k..])
                   case None => None
                   case Some(rest) => Some(out + rest)
    {
      assert tests[k..][0] == tests[k] && tests[k..][1..] == tests[k + 1..];
      var here, l1, h1 := ExpectedTest(wl, wh, c, l, h, tests[k].test);
      if here.None? {
        return None;
      }
      var rest := TestCycles(wl, wh, c, l1, h1, tests[k + 1..]);
      if rest.Some? {
        assert out + (here.value + rest.value) == out + here.value + rest.value;
      }
      out := out + here.value;
      l, h := l1, h1;
    }
    assert tests[|tests|..] == [] && out + [] == out;
    return Some(out);
  }

  /** build_integrity_program, from a valid network and TAP. */
  method BuildIntegrityProgram(cfg: Config, c: Chain, root: ModuleInstance, live: set<string>, values: map<string, int>,
                               margin: int, options: Options) returns (program: Option<seq<TckCycle>>)
    requires Usable(cfg) && (c.End? || Network(c))
    ensures program == BuildProgram(cfg, c, root, live, values, margin, options)
  {
    hide Usable, Network, AllTests, TestCycles, Plain, Rig, ModelWorld;
    var tests := BuildTests(cfg, c, root, margin, options);
    if tests.None? {
      return None;
    }
    TestsPlain(cfg, c, root, margin, options);
    var start := ResetTap(cfg, NetState(Fresh(c), 0));
    program := ExpectedTests(Rig(cfg, c, ModelWorld(live, values, false)), Rig(cfg, c, ModelWorld(live, values, true)), c,
                             start, start, tests.value);
  }
}
