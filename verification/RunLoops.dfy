/** What an iRunLoop makes of a program (pdl_interpreter.py): the wait it asks for, no more and no less. */
module RunLoops {
  import opened Wrappers
  import opened Bits
  import opened IclModel
  import opened TapFsm
  import opened TapIr
  import opened TapModel
  import opened TapPlay
  import opened PdlSpec
  import opened RetargetingRuns
  import opened NetworkScans
  import opened StilWalk
  import opened StilPins

  /** `count` cycles of TCK with TMS and TDI low, none for a negative count. */
  function Waiting(count: int): Cycles { seq(if count < 0 then 0 else count, _ => (false, false)) }

  lemma OneOp(state: TapState, op: Op)
    requires op.Runtest?
    ensures ToCycles(state, [op]) == Some(Waiting(op.count)) && TapOps([op]) == [op]
  {
    assert [op][1..] == [];
    assert TapOps([op]) == [op] + [];
    assert Idle(Zeros(if op.count < 0 then 0 else op.count)) == Waiting(op.count);
    assert Waiting(op.count) + [] == Waiting(op.count);
  }

  /** After any program whose cycles can be listed, an iRunLoop on TCK adds exactly its count of idle cycles, and one
      on another clock adds exactly its count of pulses of that clock and no cycle of the TAP. */
  lemma RunLoopWaits(p: Pdl, count: int, port: Option<string>, place: Place)
    requires ToCycles(RunTestIdle, TapOps(p.program)).Some?
    ensures var q, cycles := RunLoop(p, count, port), ToCycles(RunTestIdle, TapOps(p.program)).value;
            && q == p.(program := q.program) && |q.program| == |p.program| + 1 && p.program <= q.program
            && ToCycles(RunTestIdle, TapOps(q.program)) == Some(cycles + if port.None? then Waiting(count) else [])
            && (port.Some? ==>
                  var step := OpEntries(place, q.program[|p.program|]);
                  && step.Some?
                  && Expand(step.value.1)
                     == seq(if count < 0 then 0 else count, _ => Pulse(port.value, [], place.inputs)))
  {
    hide ToCycles, TapOps, OpEntries, Expand, Waiting;
    var before := ToCycles(RunTestIdle, TapOps(p.program)).value;
    if port.None? {
      var op := Runtest(count);
      TapOpsJoin(p.program, [op]);
      OneOp(Walk(RunTestIdle, before), op);
      ToCyclesJoin(RunTestIdle, TapOps(p.program), [op]);
    } else {
      var op := PulsePin(port.value, count, []);
      TapOpsJoin(p.program, [op]);
      PulseUnseen(op);
      assert TapOps(p.program) + [] == TapOps(p.program) && before + [] == before;
      PulseStep(place, op);
      OpAdds(place, op);
    }
  }

  lemma PulseUnseen(op: Op)
    requires op.PulsePin?
    ensures TapOps([op]) == []
  {
    assert [op][1..] == [];
  }

  lemma PulseStep(place: Place, op: Op)
    requires op.PulsePin?
    ensures OpEntries(place, op).Some?
  {
  }
}
