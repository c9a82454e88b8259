/** The program's own consistency check where it runs (tap_integrity.py): on the cycles of the two models
    stepped in lockstep, each read's window cut out by shift_op_ranges. On a write and readback program
    it raises exactly for an instrument that is not readable. */
module SelfCheckCycles {
  import opened Wrappers
  import opened Bits
  import opened IclModel
  import opened SibLayout
  import opened TapFsm
  import opened TapIr
  import opened TapModel
  import opened TapPlay
  import opened PdlSpec
  import opened PathPlan
  import opened SibRetarget
  import opened Retargeting
  import opened RetargetingRuns
  import opened ReadBack
  import opened ReadChecks
  import opened IntegrityProbes
  import opened WriteReadback
  import opened Integrity

  function TdoOf(window: seq<TckCycle>): Bits {
    seq(|window|, k requires 0 <= k < |window| => window[k].tdo)
  }

  /** One shift's read, if it has one: every bit it reads may be compared, and the models show what it
      expects. */
  predicate OpHolds(op: Op, window: seq<TckCycle>) {
    IsShift(op) && op.mask.Some? && op.tdo.Some? ==>
      && (forall k :: 0 <= k < |window| && BitOf(op.mask.value, k) ==> window[k].care)
      && And(XorInt(ToInt(TdoOf(window)), op.tdo.value), op.mask.value) == 0
  }

  /** Every read of an operation list, its cycles cut operation by operation. */
  ghost predicate ReadsHold(state: TapState, ops: seq<Op>, cycles: seq<TckCycle>)
    requires ToCycles(state, ops).Some? && |cycles| == |ToCycles(state, ops).value|
    decreases |ops|
  {
    ops == [] ||
    var a := OpCycles(state, ops[0]).value;
    OpHolds(ops[0], cycles[..|a|]) && ReadsHold(Walk(state, a), ops[1..], cycles[|a|..])
  }

  // ---------------------------------------------------------------- _check_reads

  /** _check_reads: None where the ranges cannot be told, false where it raises. */
  method CheckReadsOnCycles(ops: seq<Op>, cycles: seq<TckCycle>) returns (ok: Option<bool>)
    ensures ToCycles(RunTestIdle, ops).Some? && Aligned(RunTestIdle, RunTestIdle, 0, ops)
            && |cycles| == |ToCycles(RunTestIdle, ops).value| ==>
              ok.Some? && (ok.value <==> ReadsHold(RunTestIdle, ops, cycles))
  {
    hide OpHolds, OpCycles, Walk, Slice, Aligned;
    var ranges := ShiftOpRangesLoop(ops);
    ghost var asked := ToCycles(RunTestIdle, ops).Some? && Aligned(RunTestIdle, RunTestIdle, 0, ops)
                       && |cycles| == |ToCycles(RunTestIdle, ops).value|;
    if asked {
      RangesArePositions(ops);
    }
    if ranges.None? {
      return None;
    }
    var left := ranges.value;
    ghost var state: TapState, at: nat := RunTestIdle, 0;
    assert ops[0..] == ops && cycles[0..] == cycles;
    for k := 0 to |ops|
      invariant asked ==> InStride(ops, cycles, k, state, at, left)
      invariant asked ==> (ReadsHold(RunTestIdle, ops, cycles) <==> ReadsHold(state, ops[k..], cycles[at..]))
    {
      assert ops[k..][0] == ops[k] && ops[k..][1..] == ops[k + 1..];
      if asked {
        Stride(ops, cycles, k, state, at, left);
      }
      if IsShift(ops[k]) {
        if left == [] {
          return Some(true);
        }
        if !OpHolds(ops[k], Slice(cycles, left[0].start, left[0].start + left[0].bits)) {
          return Some(false);
        }
        left := left[1..];
      }
      if asked {
        ghost var a := OpCycles(state, ops[k]).value;
        state, at := Walk(state, a), at + |a|;
      }
    }
    assert ops[|ops|..] == [];
    return Some(true);
  }

  /** Before operation `k`: the controller state, the cycle number, and the ranges still to come. */
  ghost predicate InStride(ops: seq<Op>, cycles: seq<TckCycle>, k: nat, state: TapState, at: nat, left: seq<Range>) {
    && k <= |ops| && at <= |cycles| && ToCycles(state, ops[k..]).Some?
    && |cycles| == at + |ToCycles(state, ops[k..]).value| && left == Positions(state, at, ops[k..])
  }

  lemma Stride(ops: seq<Op>, cycles: seq<TckCycle>, k: nat, state: TapState, at: nat, left: seq<Range>)
    requires InStride(ops, cycles, k, state, at, left) && k < |ops|
    ensures OpCycles(state, ops[k]).Some?
    ensures var a := OpCycles(state, ops[k]).value;
            && at + |a| <= |cycles|
            && InStride(ops, cycles, k + 1, Walk(state, a), at + |a|, if IsShift(ops[k]) then left[1..] else left)
            && (IsShift(ops[k]) ==>
                  left != [] && Slice(cycles, left[0].start, left[0].start + left[0].bits) == cycles[at..][..|a|])
            && (!IsShift(ops[k]) ==> OpHolds(ops[k], cycles[at..][..|a|]))
            && (ReadsHold(state, ops[k..], cycles[at..])
                <==> OpHolds(ops[k], cycles[at..][..|a|]) && ReadsHold(Walk(state, a), ops[k + 1..], cycles[at + |a|..]))
  {
    hide Walk, OpCycles;
    var rest := ops[k..];
    assert rest[0] == ops[k] && rest[1..] == ops[k + 1..];
    var a := OpCycles(state, ops[k]).value;
    PositionsStep(state, at, rest);
    assert cycles[at..][|a|..] == cycles[at + |a|..];
    assert cycles[at..][..|a|] == cycles[at..at + |a|];
  }

  // ---------------------------------------------------------------- the models' cycles

  function Inputs(cycles: Cycles): seq<TckInput> {
    seq(|cycles|, k requires 0 <= k < |cycles| => TckInput(cycles[k].0, cycles[k].1, true))
  }

  /** What two models showing `low` and `high` make of a run of cycles. */
  function Both(s: TapState, cycles: Cycles, low: Bits, high: Bits): (r: seq<TckCycle>)
    requires |low| == |high| == |cycles|
    ensures |r| == |cycles|
    decreases |cycles|
  {
    if cycles == [] then []
    else [Integrity.Expect(s, TckInput(cycles[0].0, cycles[0].1, true), low[0], high[0])]
         + Both(NextState(s, cycles[0].0), cycles[1..], low[1..], high[1..])
  }

  lemma {:induction false} ExpectedIsBoth(
    wl: Wiring<NetState>, wh: Wiring<NetState>, c: Chain, tl: Tap<NetState>, th: Tap<NetState>, cycles: Cycles)
    requires tl.state == th.state && Ticks(wl, tl, cycles).Some? && Ticks(wh, th, cycles).Some?
    ensures |Ticks(wl, tl, cycles).value.1| == |Ticks(wh, th, cycles).value.1| == |cycles|
    ensures Expected(wl, wh, c, tl, th, Inputs(cycles))
            == Some(Both(tl.state, cycles, Ticks(wl, tl, cycles).value.1, Ticks(wh, th, cycles).value.1))
    decreases |cycles|
  {
    hide Tick, NextState, Integrity.Expect;
    if cycles != [] {
      var ins := Inputs(cycles);
      assert ins[0] == TckInput(cycles[0].0, cycles[0].1, true) && ins[1..] == Inputs(cycles[1..]);
      var (ul, xl) := Tick(wl, tl, cycles[0].0, cycles[0].1).value;
      var (uh, xh) := Tick(wh, th, cycles[0].0, cycles[0].1).value;
      TickState(wl, tl, cycles[0]);
      TickState(wh, th, cycles[0]);
      ExpectedIsBoth(wl, wh, c, ul, uh, cycles[1..]);
      var (low, high) := (Ticks(wl, ul, cycles[1..]).value.1, Ticks(wh, uh, cycles[1..]).value.1);
      assert ([xl] + low)[1..] == low && ([xh] + high)[1..] == high;
    }
  }

  lemma TickState(w: Wiring<NetState>, t: Tap<NetState>, cycle: (bool, bool))
    requires Tick(w, t, cycle.0, cycle.1).Some?
    ensures Tick(w, t, cycle.0, cycle.1).value.0.state == NextState(t.state, cycle.0)
  {
  }

  lemma {:induction false} BothJoin(s: TapState, a: Cycles, b: Cycles, low: Bits, high: Bits)
    requires |low| == |high| == |a + b|
    ensures Both(s, a + b, low, high)
            == Both(s, a, low[..|a|], high[..|a|]) + Both(Walk(s, a), b, low[|a|..], high[|a|..])
    decreases |a|
  {
    hide NextState, Integrity.Expect;
    if a == [] {
      assert a + b == b;
      assert low[0..] == low && high[0..] == high;
    } else {
      assert (a + b)[0] == a[0] && (a + b)[1..] == a[1..] + b;
      BothJoin(NextState(s, a[0].0), a[1..], b, low[1..], high[1..]);
      Inner(low, |a|);
      Inner(high, |a|);
    }
  }

  lemma Inner(x: Bits, n: nat)
    requires 1 <= n <= |x|
    ensures x[..n][0] == x[0] && x[..n][1..] == x[1..][..n - 1] && x[1..][n - 1..] == x[n..]
  {
  }

  /** In a shift state every cycle of a shift is a TDO bit of both models. */
  lemma {:induction false} BothShift(s: TapState, fed: Bits, low: Bits, high: Bits)
    requires Shifting(s) && |low| == |high| == |fed|
    ensures var cycles := ShiftCycles(fed);
            forall k :: 0 <= k < |fed| ==>
              Both(s, cycles, low, high)[k].tdo == low[k]
              && (Both(s, cycles, low, high)[k].care <==> low[k] == high[k])
    decreases |fed|
  {
    var cycles := ShiftCycles(fed);
    if |fed| > 1 {
      assert cycles[1..] == ShiftCycles(fed[1..]);
      assert NextState(s, false) == s;
      BothShift(s, fed[1..], low[1..], high[1..]);
      forall k | 1 <= k < |fed|
        ensures Both(s, cycles, low, high)[k] == Both(s, cycles[1..], low[1..], high[1..])[k - 1]
      {
      }
    }
  }

  // ---------------------------------------------------------------- one read

  lemma ReadAgrees(op: Op, window: seq<TckCycle>, low: Bits, high: Bits)
    requires IsShift(op) && op.mask.Some? && op.tdo.Some? && |window| == |low| == |high|
    requires forall k :: 0 <= k < |window| ==> window[k].tdo == low[k] && (window[k].care <==> low[k] == high[k])
    ensures OpHolds(op, window)
            <==> AgreeUnder(ToInt(low), ToInt(high), op.mask.value) && AgreeUnder(ToInt(low), op.tdo.value, op.mask.value)
  {
    hide And, XorInt, ToInt;
    assert TdoOf(window) == low;
    CaresAgree(window, low, high, op.mask.value);
    MaskedDifference(ToInt(low), op.tdo.value, op.mask.value);
  }

  lemma CaresAgree(window: seq<TckCycle>, low: Bits, high: Bits, mask: int)
    requires |window| == |low| == |high|
    requires forall k :: 0 <= k < |window| ==> (window[k].care <==> low[k] == high[k])
    ensures (forall k :: 0 <= k < |window| && BitOf(mask, k) ==> window[k].care)
            <==> AgreeUnder(ToInt(low), ToInt(high), mask)
  {
    hide ToInt, BitOf;
    forall k: nat
      ensures BitOf(ToInt(low), k) == (k < |low| && low[k]) && BitOf(ToInt(high), k) == (k < |high| && high[k])
    {
      ToIntBit(low, k);
      ToIntBit(high, k);
    }
  }

  lemma MaskedDifference(a: int, b: int, mask: int)
    ensures And(XorInt(a, b), mask) == 0 <==> AgreeUnder(a, b, mask)
  {
    hide And, XorInt;
    forall k: nat ensures BitOf(And(XorInt(a, b), mask), k) <==> BitOf(mask, k) && BitOf(a, k) != BitOf(b, k) {
      AndBit(XorInt(a, b), mask, k);
      XorIntBit(a, b, k);
    }
    forall k: nat ensures !BitOf(0, k) {
      ZeroBit(k);
    }
    if AgreeUnder(a, b, mask) {
      SameBits(And(XorInt(a, b), mask), 0);
    }
  }

  // ---------------------------------------------------------------- all reads

  /** SelfCheck from shift number `index` on, read by read. */
  ghost predicate Agreeing(ops: seq<Op>, low: seq<int>, high: seq<int>, index: nat) {
    ops == [] ||
    if !IsShift(ops[0]) then Agreeing(ops[1..], low, high, index)
    else
      && index < |low| && index < |high|
      && (ops[0].mask.Some? && ops[0].tdo.Some? ==>
            && AgreeUnder(low[index], high[index], ops[0].mask.value)
            && AgreeUnder(low[index], ops[0].tdo.value, ops[0].mask.value))
      && Agreeing(ops[1..], low, high, index + 1)
  }

  ghost predicate SelfCheckFrom(ops: seq<Op>, low: seq<int>, high: seq<int>, index: nat) {
    var (cl, ch) := (CheckReads(ops, low, index), CheckReads(ops, high, index));
    && cl.Some? && ch.Some? && |cl.value| == |ch.value|
    && forall i :: 0 <= i < |cl.value| ==>
         && cl.value[i].mask == ch.value[i].mask
         && AgreeUnder(cl.value[i].observed, ch.value[i].observed, cl.value[i].mask)
         && AgreeUnder(cl.value[i].observed, cl.value[i].expected, cl.value[i].mask)
  }

  /** An expected value always comes with a mask. */
  ghost predicate Masked(ops: seq<Op>) {
    forall k :: 0 <= k < |ops| && IsShift(ops[k]) && ops[k].tdo.Some? ==> ops[k].mask.Some?
  }

  lemma {:induction false} SelfCheckAgrees(ops: seq<Op>, low: seq<int>, high: seq<int>, index: nat)
    requires |low| == |high| == index + Shifts(ops) && Masked(ops)
    ensures SelfCheckFrom(ops, low, high, index) <==> Agreeing(ops, low, high, index)
    decreases |ops|
  {
    hide AgreeUnder, ReadBack.Matches;
    if ops != [] {
      MaskedRest(ops);
      if IsShift(ops[0]) {
        SelfCheckAgrees(ops[1..], low, high, index + 1);
        SelfCheckStep(ops, low, high, index);
      } else {
        SelfCheckAgrees(ops[1..], low, high, index);
      }
    }
  }

  lemma MaskedRest(ops: seq<Op>)
    requires ops != [] && Masked(ops)
    ensures Masked(ops[1..]) && (IsShift(ops[0]) && ops[0].tdo.Some? ==> ops[0].mask.Some?)
  {
  }

  lemma SelfCheckStep(ops: seq<Op>, low: seq<int>, high: seq<int>, index: nat)
    requires ops != [] && IsShift(ops[0]) && index < |low| && index < |high|
    requires ops[0].tdo.Some? ==> ops[0].mask.Some?
    ensures SelfCheckFrom(ops, low, high, index)
            <==> SelfCheckFrom(ops[1..], low, high, index + 1)
                 && (ops[0].tdo.Some? ==>
                       && AgreeUnder(low[index], high[index], ops[0].mask.value)
                       && AgreeUnder(low[index], ops[0].tdo.value, ops[0].mask.value))
  {
    hide AgreeUnder, ReadBack.Matches;
    var (rl, rh) := (CheckReads(ops[1..], low, index + 1), CheckReads(ops[1..], high, index + 1));
    if ops[0].tdo.Some? && rl.Some? && rh.Some? {
      var (cl, ch) := (CheckReads(ops, low, index).value, CheckReads(ops, high, index).value);
      assert cl == [cl[0]] + rl.value && ch == [ch[0]] + rh.value;
      forall i | 0 <= i < |rl.value| ensures rl.value[i] == cl[i + 1] {
      }
      forall i | 0 <= i < |rh.value| ensures rh.value[i] == ch[i + 1] {
      }
    }
  }

  /** Every shift of the list happens in a shift state and feeds something. */
  ghost predicate WellFed(state: TapState, ops: seq<Op>)
    decreases |ops|
  {
    ops == [] ||
    (&& OpCycles(state, ops[0]).Some?
     && (IsShift(ops[0]) ==> Shifting(state) && ops[0].bits >= 1)
     && WellFed(Walk(state, OpCycles(state, ops[0]).value), ops[1..]))
  }

  /** On the lockstep's cycles the reads hold exactly when the two models' observations satisfy them. */
  lemma {:induction false} CyclesHold(state: TapState, ops: seq<Op>, xl: Bits, xh: Bits,
                                      low: seq<int>, high: seq<int>, index: nat)
    requires WellFed(state, ops) && ToCycles(state, ops).Some?
    requires |xl| == |xh| == |ToCycles(state, ops).value| && index <= |low| && index <= |high|
    requires low[index..] == Cut(state, ops, xl) && high[index..] == Cut(state, ops, xh)
    ensures ReadsHold(state, ops, Both(state, ToCycles(state, ops).value, xl, xh)) <==> Agreeing(ops, low, high, index)
    decreases |ops|
  {
    hide Walk, OpCycles, AgreeUnder, ToInt, OpHolds, Both;
    if ops != [] {
      var a := OpCycles(state, ops[0]).value;
      var next := Walk(state, a);
      var b := ToCycles(next, ops[1..]).value;
      var (hl, hh) := (xl[..|a|], xh[..|a|]);
      BothJoin(state, a, b, xl, xh);
      var window := Both(state, a, hl, hh);
      if IsShift(ops[0]) {
        assert low[index] == ToInt(hl) && low[index..][1..] == low[index + 1..];
        assert high[index] == ToInt(hh) && high[index..][1..] == high[index + 1..];
        CyclesHold(next, ops[1..], xl[|a|..], xh[|a|..], low, high, index + 1);
        WindowHolds(state, ops[0], hl, hh);
      } else {
        CyclesHold(next, ops[1..], xl[|a|..], xh[|a|..], low, high, index);
        NoRead(ops[0], window);
      }
    }
  }

  lemma NoRead(op: Op, window: seq<TckCycle>)
    requires !IsShift(op)
    ensures OpHolds(op, window)
  {
  }

  lemma WindowHolds(state: TapState, op: Op, low: Bits, high: Bits)
    requires IsShift(op) && Shifting(state) && |low| == |high| == |OpCycles(state, op).value|
    ensures OpHolds(op, Both(state, OpCycles(state, op).value, low, high))
            <==> (op.mask.Some? && op.tdo.Some? ==>
                    && AgreeUnder(ToInt(low), ToInt(high), op.mask.value)
                    && AgreeUnder(ToInt(low), op.tdo.value, op.mask.value))
  {
    hide AgreeUnder, ToInt, Both, And, XorInt;
    if op.mask.Some? && op.tdo.Some? {
      BothShift(state, FromInt(op.tdi, op.bits), low, high);
      ReadAgrees(op, Both(state, OpCycles(state, op).value, low, high), low, high);
    }
  }

  // ---------------------------------------------------------------- interpreter programs

  /** A stretch of operations that starts and ends in Run-Test/Idle. */
  ghost predicate Block(ops: seq<Op>) {
    && Masked(ops) && WellFed(RunTestIdle, ops) && ToCycles(RunTestIdle, ops).Some?
    && Walk(RunTestIdle, ToCycles(RunTestIdle, ops).value) == RunTestIdle
  }

  lemma {:induction false} WalkJoin(s: TapState, a: Cycles, b: Cycles)
    ensures Walk(s, a + b) == Walk(Walk(s, a), b)
    decreases |a|
  {
    if a == [] {
      assert a + b == b;
    } else {
      assert (a + b)[0] == a[0] && (a + b)[1..] == a[1..] + b;
      WalkJoin(NextState(s, a[0].0), a[1..], b);
    }
  }

  lemma {:induction false} FedJoin(s: TapState, a: seq<Op>, b: seq<Op>)
    requires WellFed(s, a) && ToCycles(s, a).Some?
    requires var t := Walk(s, ToCycles(s, a).value); WellFed(t, b) && ToCycles(t, b).Some?
    ensures WellFed(s, a + b)
    ensures ToCycles(s, a + b) == Some(ToCycles(s, a).value + ToCycles(Walk(s, ToCycles(s, a).value), b).value)
    decreases |a|
  {
    hide OpCycles, Walk;
    if a == [] {
      assert a + b == b;
      WalkNothing(s);
      assert [] + ToCycles(s, b).value == ToCycles(s, b).value;
    } else {
      assert (a + b)[0] == a[0] && (a + b)[1..] == a[1..] + b;
      var x := OpCycles(s, a[0]).value;
      var y := ToCycles(Walk(s, x), a[1..]).value;
      WalkJoin(s, x, y);
      FedJoin(Walk(s, x), a[1..], b);
      FedStep(s, a + b, x, y, ToCycles(Walk(Walk(s, x), y), b).value);
    }
  }

  lemma FedStep(s: TapState, ops: seq<Op>, x: Cycles, y: Cycles, z: Cycles)
    requires ops != [] && OpCycles(s, ops[0]) == Some(x) && (IsShift(ops[0]) ==> Shifting(s) && ops[0].bits >= 1)
    requires WellFed(Walk(s, x), ops[1..]) && ToCycles(Walk(s, x), ops[1..]) == Some(y + z)
    ensures WellFed(s, ops) && ToCycles(s, ops) == Some(x + y + z)
  {
    hide OpCycles, Walk, Shifting;
    assert x + (y + z) == x + y + z;
  }

  lemma WalkNothing(s: TapState)
    ensures Walk(s, []) == s
  {
  }

  lemma BlockJoin(a: seq<Op>, b: seq<Op>)
    requires Block(a) && Block(b)
    ensures Block(a + b)
  {
    MaskedJoin(a, b);
    FedJoin(RunTestIdle, a, b);
    WalkJoin(RunTestIdle, ToCycles(RunTestIdle, a).value, ToCycles(RunTestIdle, b).value);
  }

  lemma MaskedJoin(a: seq<Op>, b: seq<Op>)
    requires Masked(a) && Masked(b)
    ensures Masked(a + b)
  {
  }

  lemma {:induction false} ShiftExits(fed: Bits)
    requires fed != []
    ensures Walk(ShiftDrState, ShiftCycles(fed)) == Exit1Dr
    decreases |fed|
  {
    var cycles := ShiftCycles(fed);
    if |fed| == 1 {
      assert cycles[1..] == [];
    } else {
      assert cycles[1..] == ShiftCycles(fed[1..]);
      ShiftExits(fed[1..]);
    }
  }

  lemma OneBlock(s: TapState, op: Op, cycles: Cycles, rest: seq<Op>)
    requires OpCycles(s, op) == Some(cycles) && (IsShift(op) ==> Shifting(s) && op.bits >= 1)
    requires WellFed(Walk(s, cycles), rest) && ToCycles(Walk(s, cycles), rest).Some?
    ensures WellFed(s, [op] + rest)
    ensures ToCycles(s, [op] + rest) == Some(cycles + ToCycles(Walk(s, cycles), rest).value)
    ensures Walk(s, ToCycles(s, [op] + rest).value) == Walk(Walk(s, cycles), ToCycles(Walk(s, cycles), rest).value)
  {
    hide OpCycles, Walk;
    assert ([op] + rest)[1..] == rest;
    WalkJoin(s, cycles, ToCycles(Walk(s, cycles), rest).value);
  }

  lemma Navigates()
    ensures OpCycles(RunTestIdle, GotoState(ShiftDrState)) == Some(Idle([true, false, false]))
    ensures Walk(RunTestIdle, Idle([true, false, false])) == ShiftDrState
    ensures OpCycles(Exit1Dr, GotoState(RunTestIdle)) == Some(Idle([true, false]))
    ensures Walk(Exit1Dr, Idle([true, false])) == RunTestIdle
  {
    var down, up := Idle([true, false, false]), Idle([true, false]);
    assert down[1..][1..][1..] == [] && up[1..][1..] == [];
  }

  lemma DrBlock(shift: Op)
    requires shift.ShiftDR? && shift.bits >= 1 && (shift.tdo.Some? ==> shift.mask.Some?)
    ensures Block(DrOps(shift))
  {
    var fed := FromInt(shift.tdi, shift.bits);
    ShiftExits(fed);
    Navigates();
    var back := GotoState(RunTestIdle);
    WalkNothing(RunTestIdle);
    assert [back] + [] == [back] && [shift] + [back] == [shift, back];
    assert DrOps(shift) == [GotoState(ShiftDrState)] + [shift, back];
    hide Walk, Idle, ShiftCycles, FromInt, NavigationTms;
    OneBlock(Exit1Dr, back, Idle([true, false]), []);
    OneBlock(ShiftDrState, shift, ShiftCycles(fed), [back]);
    OneBlock(RunTestIdle, GotoState(ShiftDrState), Idle([true, false, false]), [shift, back]);
  }

  lemma {:induction false} RoundsBlock(c: Chain, prior: OpenMap, rounds: seq<OpenMap>)
    requires Network(c)
    ensures Block(RoundOps(c, prior, rounds))
    decreases |rounds|
  {
    hide Network, Block, Length, Compose, FeedOf, DrOps;
    if rounds == [] {
      NothingBlock();
    } else {
      PositiveLength(c, prior);
      var shift := ShiftDR(Length(c, prior), FeedOf(Compose(c, prior, rounds[0], None, 0)), None, None);
      DrBlock(shift);
      RoundsBlock(c, rounds[0], rounds[1..]);
      BlockJoin(DrOps(shift), RoundOps(c, rounds[0], rounds[1..]));
    }
  }

  lemma NothingBlock()
    ensures Block([])
  {
  }

  lemma RunLoopBlock(count: int)
    ensures Block([Runtest(count)])
  {
    var n := if count < 0 then 0 else count;
    IdleStays(n);
    assert [Runtest(count)] + [] == [Runtest(count)];
    WalkNothing(RunTestIdle);
    OneBlock(RunTestIdle, Runtest(count), Idle(Zeros(n)), []);
  }

  lemma {:induction false} IdleStays(n: nat)
    ensures Walk(RunTestIdle, Idle(Zeros(n))) == RunTestIdle
    decreases n
  {
    if n > 0 {
      var idle := Idle(Zeros(n));
      assert idle[0] == (false, false) && idle[1..] == Idle(Zeros(n - 1));
      IdleStays(n - 1);
    }
  }

  /** Every program an interpreter writes starts and ends in Run-Test/Idle, and every shift of it is in
      Shift-DR. */
  lemma {:induction false} RunIsFed(c: Chain, root: ModuleInstance, calls: seq<Call>)
    requires Network(c) && Run(c, root, calls).Some?
    ensures Block(TapOps(Run(c, root, calls).value.program))
    decreases |calls|
  {
    hide Network, Block, TapOps;
    if calls == [] {
      NothingBlock();
      ScansAreTapOps([]);
    } else {
      RunPrefix(c, root, calls);
      var init, call := calls[..|calls| - 1], calls[|calls| - 1];
      RunIsFed(c, root, init);
      var p := Run(c, root, init).value;
      match call
      case IApply => ApplyBlock(c, p);
      case IRunLoop(count, port) => RunLoopJoins(p, count, port);
      case _ =>
    }
  }

  lemma RunLoopJoins(p: Pdl, count: int, port: Option<string>)
    requires Block(TapOps(p.program))
    ensures Block(TapOps(RunLoop(p, count, port).program))
  {
    hide Block;
    var op := if port.None? then Runtest(count) else PulsePin(port.value, count, []);
    TapOpsJoin(p.program, [op]);
    assert [op][1..] == [];
    if port.None? {
      assert TapOps([op]) == [op] + TapOps([]) == [op];
      RunLoopBlock(count);
      BlockJoin(TapOps(p.program), [op]);
    } else {
      assert TapOps([op]) == [] + TapOps([]) == [];
      assert TapOps(p.program) + [] == TapOps(p.program);
    }
  }

  lemma ApplyBlock(c: Chain, p: Pdl)
    requires Network(c) && Block(TapOps(p.program)) && Apply(c, p).Some?
    ensures Block(TapOps(Apply(c, p).value.pdl.program))
  {
    hide Network, Block, Length, Compose, Leaves, SibStaging.Stage;
    var inst := p.scope.value;
    var path := OpenPath(c, inst, []).value;
    var rounds := SibStaging.Stage(c, path, p.open).value;
    var l := OpenPathLeads(c, inst, []);
    ApplyProgram(c, p, l);
    RoundsBlock(c, p.open, rounds);
    var live := LastOf(p.open, rounds);
    PositiveLength(c, live);
    var ops := Apply(c, p).value.ops;
    var phase2 := ops[|RoundOps(c, p.open, rounds)|..];
    assert |phase2| == 3 && phase2 == DrOps(phase2[1]) && phase2[1].ShiftDR? && phase2[1].bits == Length(c, live);
    assert phase2[1].tdo.Some? ==> phase2[1].mask.Some?;
    DrBlock(phase2[1]);
    BlockJoin(RoundOps(c, p.open, rounds), phase2);
    assert RoundOps(c, p.open, rounds) + phase2 == ops;
    BlockJoin(TapOps(p.program), ops);
  }

  // ---------------------------------------------------------------- the check never raises

  /** The operations of a test are checked on their own cycles: a stretch's reads hold when the whole's
      do. */
  lemma {:induction false} HoldsSplit(s: TapState, a: seq<Op>, b: seq<Op>, x: seq<TckCycle>, y: seq<TckCycle>)
    requires WellFed(s, a) && ToCycles(s, a).Some? && |x| == |ToCycles(s, a).value|
    requires var t := Walk(s, ToCycles(s, a).value);
             WellFed(t, b) && ToCycles(t, b).Some? && |y| == |ToCycles(t, b).value|
    ensures ToCycles(s, a + b).Some? && |x + y| == |ToCycles(s, a + b).value|
    ensures ReadsHold(s, a + b, x + y)
            <==> ReadsHold(s, a, x) && ReadsHold(Walk(s, ToCycles(s, a).value), b, y)
    decreases |a|
  {
    hide OpCycles, Walk, OpHolds, ToCycles, WellFed;
    FedJoin(s, a, b);
    HoldsSplitStep(s, a, b, x, y);
  }

  lemma {:induction false} HoldsSplitStep(s: TapState, a: seq<Op>, b: seq<Op>, x: seq<TckCycle>, y: seq<TckCycle>)
    requires WellFed(s, a) && ToCycles(s, a).Some? && |x| == |ToCycles(s, a).value|
    requires var t := Walk(s, ToCycles(s, a).value);
             WellFed(t, b) && ToCycles(t, b).Some? && |y| == |ToCycles(t, b).value|
    requires ToCycles(s, a + b).Some? && |x + y| == |ToCycles(s, a + b).value|
    ensures ReadsHold(s, a + b, x + y)
            <==> ReadsHold(s, a, x) && ReadsHold(Walk(s, ToCycles(s, a).value), b, y)
    decreases |a|
  {
    hide OpCycles, Walk, OpHolds;
    if a == [] {
      WalkNothing(s);
      assert a + b == b && x + y == y;
    } else {
      var c := OpCycles(s, a[0]).value;
      WalkJoin(s, c, ToCycles(Walk(s, c), a[1..]).value);
      assert (a + b)[0] == a[0] && (a + b)[1..] == a[1..] + b;
      assert (x + y)[..|c|] == x[..|c|] && (x + y)[|c|..] == x[|c|..] + y;
      FedJoin(Walk(s, c), a[1..], b);
      HoldsSplitStep(Walk(s, c), a[1..], b, x[|c|..], y);
    }
  }

  /** On the cycles of the two models stepped together the check decides what the self-check of their
      observations decides. */
  lemma CyclesDecide(
    wl: Wiring<NetState>, wh: Wiring<NetState>, low: World, high: World, tl: Tap<NetState>, th: Tap<NetState>,
    c: Chain, root: ModuleInstance, items: seq<Item>)
    requires Network(c) && Tracks(wl, low, c, NewPdl, tl) && Tracks(wh, high, c, NewPdl, th)
    requires Between(wl, low, tl, c, root, items) && Between(wh, high, th, c, root, items)
    ensures Run(c, root, Calls(items)).Some?
    ensures var ops := TapOps(Run(c, root, Calls(items)).value.program);
            && Play(wl, tl, ops).Some? && Play(wh, th, ops).Some? && ToCycles(RunTestIdle, ops).Some?
            && var cycles := Expected(wl, wh, c, tl, th, Inputs(ToCycles(RunTestIdle, ops).value));
               && cycles.Some?
               && (ReadsHold(RunTestIdle, ops, cycles.value)
                   <==> SelfCheck(ops, Play(wl, tl, ops).value.1, Play(wh, th, ops).value.1))
  {
    hide Network, Run, CheckReads, Play, TapOps, Ticks, AgreeUnder, Expected, Cut, WellFed, Between, Masked;
    BetweenChecks(wl, low, tl, c, root, items);
    BetweenChecks(wh, high, th, c, root, items);
    RunIsFed(c, root, Calls(items));
    var ops := TapOps(Run(c, root, Calls(items)).value.program);
    assert tl.state == th.state == RunTestIdle;
    PlayCuts(wl, tl, ops);
    PlayCuts(wh, th, ops);
    PlayShifts(wl, tl, ops);
    PlayShifts(wh, th, ops);
    var cycles := ToCycles(RunTestIdle, ops).value;
    var (xl, xh) := (Ticks(wl, tl, cycles).value.1, Ticks(wh, th, cycles).value.1);
    var (ol, oh) := (Play(wl, tl, ops).value.1, Play(wh, th, ops).value.1);
    ExpectedIsBoth(wl, wh, c, tl, th, cycles);
    SelfCheckAgrees(ops, ol, oh, 0);
    ChecksAreChecks(ops, ol, oh, 0);
    assert SelfCheckFrom(ops, ol, oh, 0) <==> SelfCheck(ops, ol, oh);
    assert ol[0..] == ol && oh[0..] == oh;
    CyclesHold(RunTestIdle, ops, xl, xh, ol, oh, 0);
  }

  /** The check raises on no readable instrument: for every write and readback program of them run on the two
      models in lockstep, whatever each of them captures. */
  lemma ReadbackNeverRaises(
    wl: Wiring<NetState>, wh: Wiring<NetState>, low: World, high: World, tl: Tap<NetState>, th: Tap<NetState>,
    c: Chain, root: ModuleInstance, items: seq<Item>)
    requires Network(c) && Tracks(wl, low, c, NewPdl, tl) && Tracks(wh, high, c, NewPdl, th)
    requires forall i :: 0 <= i < |items| ==> Addressed(c, root, items[i])
    ensures Run(c, root, Calls(items)).Some?
    ensures var ops := TapOps(Run(c, root, Calls(items)).value.program);
            && ToCycles(RunTestIdle, ops).Some?
            && var cycles := Expected(wl, wh, c, tl, th, Inputs(ToCycles(RunTestIdle, ops).value));
               cycles.Some? && ReadsHold(RunTestIdle, ops, cycles.value)
  {
    hide *;
    ReadbackPasses(wl, low, tl, c, root, items);
    ReadbackPasses(wh, high, th, c, root, items);
    SelfCheckHolds(wl, wh, low, high, tl, th, c, root, items);
    CyclesDecide(wl, wh, low, high, tl, th, c, root, items);
  }

  /** Exactly when it raises: with models that show the same at every capture, the check passes if and only
      if every instrument written is readable. */
  lemma ReadbackRaisesIff(
    wl: Wiring<NetState>, wh: Wiring<NetState>, low: World, high: World, tl: Tap<NetState>, th: Tap<NetState>,
    c: Chain, root: ModuleInstance, writes: seq<Writable>)
    requires Network(c) && Tracks(wl, low, c, NewPdl, tl) && Tracks(wh, high, c, NewPdl, th) && Steady(low)
    requires forall j :: 0 <= j < |writes| ==> Written(c, root, writes[j].leaf, writes[j].address)
    ensures Run(c, root, Calls(Items(writes))).Some?
    ensures var ops := TapOps(Run(c, root, Calls(Items(writes))).value.program);
            && ToCycles(RunTestIdle, ops).Some?
            && var cycles := Expected(wl, wh, c, tl, th, Inputs(ToCycles(RunTestIdle, ops).value));
               && cycles.Some?
               && (ReadsHold(RunTestIdle, ops, cycles.value)
                   <==> forall j :: 0 <= j < |writes| ==> Readable(c, writes[j].leaf))
  {
    hide *;
    ItemsWritten(c, root, writes);
    ReadbackRuns(wl, low, tl, c, root, Items(writes));
    ReadbackRuns(wh, high, th, c, root, Items(writes));
    SelfCheckIff(wl, wh, low, high, tl, th, c, root, writes);
    CyclesDecide(wl, wh, low, high, tl, th, c, root, Items(writes));
  }
}
