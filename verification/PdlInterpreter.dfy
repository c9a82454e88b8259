/** The PDL interpreter as the object it is (pdl_interpreter.py): commands update its fields, iApply
    loops over the retargeting rounds. Each method is proved to do exactly what PdlSpec says. */
module PdlInterpreter {
  import opened Wrappers
  import opened Bits
  import opened IclModel
  import opened SibLayout
  import opened SibRetarget
  import opened SibStaging
  import opened TapFsm
  import opened TapIr
  import opened PdlSpec

  class PDLInterpreter {
    const graph: Chain
    const root: ModuleInstance
    var scope: Option<string>
    var pendingWrites: map<string, int>
    var committedWrites: map<string, int>
    var pendingReads: map<string, Expect>
    var currentlyOpen: OpenMap
    var program: seq<Op>

    ghost function State(): Pdl
      reads this
    {
      Pdl(scope, pendingWrites, committedWrites, pendingReads, currentlyOpen, program)
    }

    constructor (graph: Chain, root: ModuleInstance)
      ensures this.graph == graph && this.root == root && State() == NewPdl
    {
      this.graph, this.root := graph, root;
      scope, pendingWrites, committedWrites, pendingReads := None, map[], map[], map[];
      currentlyOpen, program := map[], [];
    }

    method ITarget(dotted: seq<string>) returns (ok: bool)
      modifies this
      ensures Target(old(State()), root, dotted) == if ok then Some(State()) else None
      ensures !ok ==> State() == old(State())
    {
      var found := ResolveDottedAddress(root, dotted);
      ok := found.Some?;
      if ok {
        scope := Some(found.value.name);
      }
    }

    method IWrite(value: int, field: Option<string>) returns (ok: bool)
      modifies this
      ensures Write(graph, old(State()), value, field) == if ok then Some(State()) else None
      ensures !ok ==> State() == old(State())
    {
      if scope.None? {
        return false;
      }
      var inst := scope.value;
      if field.None? {
        pendingWrites := pendingWrites[inst := value];
        return true;
      }
      var found := ResolveField(graph, inst, field.value);
      if found.None? || found.value.low > found.value.high + 1 {
        return false;
      }
      var current := ValueOf(pendingWrites, inst, ValueOf(committedWrites, inst, 0));
      pendingWrites := pendingWrites[inst := SetBitRange(current, found.value.low, found.value.high, value)];
      return true;
    }

    method IRead(expected: int, field: Option<string>) returns (ok: bool)
      modifies this
      ensures Read(graph, old(State()), expected, field) == if ok then Some(State()) else None
      ensures !ok ==> State() == old(State())
    {
      if scope.None? {
        return false;
      }
      var inst := scope.value;
      if field.None? {
        pendingReads := pendingReads[inst := Expect(expected, None)];
        return true;
      }
      var found := ResolveField(graph, inst, field.value);
      if found.None? {
        return false;
      }
      pendingReads := pendingReads[inst := Expect(expected, found)];
      return true;
    }

    method IRunLoop(count: int, sckPort: Option<string>)
      modifies this
      ensures State() == RunLoop(old(State()), count, sckPort)
    {
      if sckPort.None? {
        program := program + [Runtest(count)];
      } else {
        program := program + [PulsePin(sckPort.value, count, [])];
      }
    }

    method IApply() returns (ops: Option<seq<Op>>)
      modifies this
      ensures match ops
              case None => Apply(graph, old(State())).None? && State() == old(State())
              case Some(out) => Apply(graph, old(State())) == Some(Applied(State(), out))
    {
      hide Stage, RoundOps, LastOf, OpenPath, FindInstrument, Expectation, Compose, Length, FeedOf, DrOps;
      if scope.None? {
        return None;
      }
      var inst := scope.value;
      var targetPath := OpenPath(graph, inst, []);
      if targetPath.None? || targetPath.value == [] {
        return None;
      }
      var path := targetPath.value;
      var slot := path[|path| - 1].name;
      var staged := StageOpenSequence(graph, path, currentlyOpen);
      if staged.None? {
        return None;
      }
      var rounds := staged.value;
      var phase1, live := RoundScans(graph, currentlyOpen, rounds);
      currentlyOpen := live;

      var found := FindInstrument(graph, inst);
      var isWrite := found.Some? && found.value.direction.WRITE?;
      var payload: int;
      if inst in pendingWrites {
        payload := pendingWrites[inst];
      } else if isWrite {
        payload := ValueOf(committedWrites, inst, 0);
      } else {
        payload := 0;
      }
      pendingWrites := pendingWrites - {inst};
      if isWrite {
        committedWrites := committedWrites[inst := payload];
      }
      var read := if inst in pendingReads then Some(pendingReads[inst]) else None;
      pendingReads := pendingReads - {inst};
      var len2 := LayoutBitLength(graph, live);
      var bits2 := ComposeBits(graph, live, live, Some(slot), payload);
      var tdo: Option<int>, mask: Option<int> := None, None;
      if read.Some? {
        var expectation := Expectation(graph, live, slot, read.value);
        tdo, mask := expectation.0, expectation.1;
      }
      var out := phase1 + DrOps(ShiftDR(len2, FeedOf(bits2), tdo, mask));
      program := program + out;
      return Some(out);
    }
  }

  lemma AppendScan(a: seq<Op>, b: seq<Op>, c: seq<Op>)
    ensures a + (b + c) == a + b + c
  {
  }

  /** Phase 1: one scan per round, each sized for what the round before it left open. */
  method RoundScans(graph: Chain, current: OpenMap, rounds: seq<OpenMap>) returns (ops: seq<Op>, prior: OpenMap)
    ensures ops == RoundOps(graph, current, rounds) && prior == LastOf(current, rounds)
  {
    hide Compose, Length, FeedOf, DrOps;
    ops, prior := [], current;
    assert rounds[0..] == rounds && [] + RoundOps(graph, prior, rounds) == RoundOps(graph, prior, rounds);
    for i := 0 to |rounds|
      invariant ops + RoundOps(graph, prior, rounds[i..]) == RoundOps(graph, current, rounds)
      invariant prior == if i == 0 then current else rounds[i - 1]
    {
      var len1 := LayoutBitLength(graph, prior);
      var bits1 := ComposeBits(graph, prior, rounds[i], None, 0);
      var scan := DrOps(ShiftDR(len1, FeedOf(bits1), None, None));
      assert rounds[i..][0] == rounds[i] && rounds[i..][1..] == rounds[i + 1..];
      AppendScan(ops, scan, RoundOps(graph, rounds[i], rounds[i + 1..]));
      ops := ops + scan;
      prior := rounds[i];
    }
    assert ops + [] == ops;
  }
}
