/** Loading an instruction (tap_integrity.select_instruction), and a program that starts from a TAP
    reset. */
module TapSelect {
  import opened Wrappers
  import opened Bits
  import opened IclModel
  import opened SibCells
  import opened PathPlan
  import opened TapFsm
  import opened TapIr
  import opened TapModel
  import opened TapPlay
  import opened PdlSpec
  import opened Retargeting
  import opened RetargetingRuns

  function SelectInstruction(opcode: int, irWidth: nat): seq<Op> {
    [GotoState(ShiftIrState), ShiftIR(irWidth, opcode, None, None), GotoState(RunTestIdle)]
  }

  /** The opcode that selects the network. */
  function NetworkOpcode(cfg: Config): int {
    if cfg.accessOpcode.Some? then cfg.accessOpcode.value else OPCODE_EXTEST
  }

  lemma {:induction false} TicksShiftIr<D>(w: Wiring<D>, t: Tap<D>, fed: Bits)
    requires t.state == ShiftIrState && 0 < |fed| <= |t.ir|
    ensures Ticks(w, t, ShiftCycles(fed))
            == Some((t.(ir := t.ir[|fed|..] + fed, state := Exit1Ir), t.ir[..|fed|]))
    decreases |fed|
  {
    var cycles := ShiftCycles(fed);
    var u := t.(ir := t.ir[1..] + [fed[0]], state := NextState(ShiftIrState, |fed| == 1));
    assert Tick(w, t, cycles[0].0, cycles[0].1) == Some((u, t.ir[0]));
    if |fed| == 1 {
      assert cycles[1..] == [] && fed == [fed[0]];
      assert [t.ir[0]] + [] == t.ir[..1];
    } else {
      assert cycles[1..] == ShiftCycles(fed[1..]);
      TicksShiftIr(w, u, fed[1..]);
      ShiftedOn(t.ir, fed);
    }
  }

  lemma ShiftedOn(ir: Bits, fed: Bits)
    requires 0 < |fed| <= |ir|
    ensures var next, n := ir[1..] + [fed[0]], |fed|;
            next[n - 1..] + fed[1..] == ir[n..] + fed && [ir[0]] + next[..n - 1] == ir[..n]
  {
    var next, n := ir[1..] + [fed[0]], |fed|;
    assert next[n - 1..] == ir[n..] + [fed[0]] && [fed[0]] + fed[1..] == fed;
    assert next[n - 1..] + fed[1..] == ir[n..] + ([fed[0]] + fed[1..]);
  }

  /** Playing select_instruction from Run-Test/Idle loads the opcode, decodes it and returns; no data
      register is touched. */
  lemma PlaySelect<D>(w: Wiring<D>, t: Tap<D>, opcode: int)
    requires t.state == RunTestIdle && t.cfg.irWidth >= 1 && 0 <= opcode < Pow2(t.cfg.irWidth)
    ensures Play(w, t, SelectInstruction(opcode, t.cfg.irWidth)).Some?
    ensures Play(w, t, SelectInstruction(opcode, t.cfg.irWidth)).value.0
            == t.(ir := FromInt(opcode, t.cfg.irWidth), instruction := Decode(t.cfg, opcode))
  {
    var n := t.cfg.irWidth;
    var fed, pattern := FromInt(opcode, n), FromInt(CAPTURE_IR_PATTERN, n);
    var t1 := t.(ir := pattern, state := ShiftIrState);
    EnterIr(w, t);
    TicksShiftIr(w, t1, fed);
    var t2 := t1.(ir := fed, state := Exit1Ir);
    assert pattern[n..] + fed == fed && pattern[..n] == pattern;
    ToIntFromInt(opcode, n);
    var t3 := t.(ir := fed, instruction := Decode(t.cfg, opcode));
    LeaveIr(w, t2, t3);
    SelectThree(w, t, t1, t2, t3, opcode, pattern);
  }

  lemma SelectThree<D>(w: Wiring<D>, t: Tap<D>, t1: Tap<D>, t2: Tap<D>, t3: Tap<D>, opcode: int, out: Bits)
    requires t.state == RunTestIdle && t1.state == ShiftIrState && t2.state == Exit1Ir
    requires Ticks(w, t, Idle([true, true, false, false])) == Some((t1, [false, false, false, false]))
    requires Ticks(w, t1, ShiftCycles(FromInt(opcode, t.cfg.irWidth))) == Some((t2, out))
    requires Ticks(w, t2, Idle([true, false])) == Some((t3, [false, false]))
    ensures Play(w, t, SelectInstruction(opcode, t.cfg.irWidth)) == Some((t3, [ToInt(out)]))
  {
    hide Ticks, ToInt, FromInt, Idle, ShiftCycles;
    var shift, back := ShiftIR(t.cfg.irWidth, opcode, None, None), GotoState(RunTestIdle);
    var none: seq<int> := [];
    assert none + none == none && [back] + [] == [back] && [shift] + [back] == [shift, back];
    assert [ToInt(out)] + none == [ToInt(out)] && none + [ToInt(out)] == [ToInt(out)];
    assert SelectInstruction(opcode, t.cfg.irWidth) == [GotoState(ShiftIrState)] + [shift, back];
    PlayOne(w, t2, back, [], Idle([true, false]), t3, [false, false], t3, none);
    PlayOne(w, t1, shift, [back], ShiftCycles(FromInt(opcode, t.cfg.irWidth)), t2, out, t3, none);
    PlayOne(w, t, GotoState(ShiftIrState), [shift, back], Idle([true, true, false, false]), t1,
            [false, false, false, false], t3, [ToInt(out)]);
  }

  lemma EnterIr<D>(w: Wiring<D>, t: Tap<D>)
    requires t.state == RunTestIdle
    ensures Ticks(w, t, Idle([true, true, false, false]))
            == Some((t.(ir := FromInt(CAPTURE_IR_PATTERN, t.cfg.irWidth), state := ShiftIrState),
                     [false, false, false, false]))
  {
    var a, b, c := t.(state := SelectDrScan), t.(state := SelectIrScan), t.(state := CaptureIr);
    var d := t.(ir := FromInt(CAPTURE_IR_PATTERN, t.cfg.irWidth), state := ShiftIrState);
    var up, idle := (true, false), (false, false);
    assert [idle] + [] == [idle] && [idle] + [idle] == [idle, idle] && [up] + [idle, idle] == [up, idle, idle];
    assert [false] + [] == [false] && [false] + [false] == [false, false];
    assert [false] + [false, false] == [false, false, false];
    assert [false] + [false, false, false] == [false, false, false, false];
    assert Idle([true, true, false, false]) == [up] + [up, idle, idle];
    TickThen(w, c, idle, [], d, false, d, []);
    TickThen(w, b, idle, [idle], c, false, d, [false]);
    TickThen(w, a, up, [idle, idle], b, false, d, [false, false]);
    TickThen(w, t, up, [up, idle, idle], a, false, d, [false, false, false]);
  }

  lemma LeaveIr<D>(w: Wiring<D>, t: Tap<D>, u: Tap<D>)
    requires t.state == Exit1Ir
    requires u == t.(instruction := Decode(t.cfg, ToInt(t.ir)), state := RunTestIdle)
    ensures Ticks(w, t, Idle([true, false])) == Some((u, [false, false]))
  {
    var a := t.(state := UpdateIr);
    var idle := (false, false);
    assert [idle] + [] == [idle] && Idle([true, false]) == [(true, false)] + [idle];
    assert [false] + [] == [false] && [false] + [false] == [false, false];
    TickThen(w, a, idle, [], u, false, u, []);
    TickThen(w, t, (true, false), [idle], a, false, u, [false]);
  }

  /** What a TAP must be for its network to be reachable. */
  ghost predicate Wired(w: Wiring<NetState>, world: World, cfg: Config) {
    && cfg.irWidth >= 1 && 0 <= NetworkOpcode(cfg) < Pow2(cfg.irWidth)
    && Registered(w, NetworkInstruction(cfg)) == Some(NetworkRegister(world))
  }

  /** End to end from a reset: settle in Run-Test/Idle, select the network's instruction, play the
      program of any run. The hardware is then in step with the interpreter. */
  lemma ProgramFromReset(w: Wiring<NetState>, world: World, cfg: Config, c: Chain, root: ModuleInstance,
                         calls: seq<Call>)
    requires Network(c) && Wired(w, world, cfg) && Run(c, root, calls).Some?
    ensures var reset := ResetTap(cfg, NetState(Fresh(c), 0));
            var p := Run(c, root, calls).value;
            && Tick(w, reset, false, false).Some?
            && var t := Tick(w, reset, false, false).value.0;
               var ops := SelectInstruction(NetworkOpcode(cfg), cfg.irWidth) + TapOps(p.program);
               Play(w, t, ops).Some? && Tracks(w, world, c, p, Play(w, t, ops).value.0)
  {
    hide Network, Run, Play, TapOps, Tracks;
    var reset := ResetTap(cfg, NetState(Fresh(c), 0));
    var p := Run(c, root, calls).value;
    var t := Tick(w, reset, false, false).value.0;
    assert t.state == RunTestIdle;
    PlaySelect(w, t, NetworkOpcode(cfg));
    var ready := Play(w, t, SelectInstruction(NetworkOpcode(cfg), cfg.irWidth)).value.0;
    assert ready.instruction == NetworkInstruction(cfg);
    ResetStarts(w, world, ready, c);
    RunStaysInStep(w, world, ready, c, root, calls);
    PlayCompose(w, t, SelectInstruction(NetworkOpcode(cfg), cfg.irWidth), TapOps(p.program));
  }
}
