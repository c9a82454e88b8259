/** Lowering of TAP operations to TCK cycles (tap_ir_play.py), and the proof that the three walkers
    agree: driving a model operation by operation is driving it through the flattened cycles and
    cutting the TDO stream at the reported ranges. */
module TapPlay {
  import opened Wrappers
  import opened Bits
  import opened TapFsm
  import opened TapIr
  import opened TapModel

  type Cycles = seq<(bool, bool)>

  /** The first cycle of a shift and its number of bits. */
  datatype Range = Range(start: int, bits: nat)

  /** navigation_tms: None where the source raises TapIrPlayError. */
  function NavigationTms(from: TapState, to: TapState): Option<Bits> {
    match to
    case TestLogicReset => Some([true, true, true, true, true])
    case ShiftDrState => if from.RunTestIdle? then Some([true, false, false]) else None
    case ShiftIrState => if from.RunTestIdle? then Some([true, true, false, false]) else None
    case RunTestIdle =>
      if from.RunTestIdle? then Some([])
      else if from.TestLogicReset? then Some([false])
      else if from.Exit1Dr? || from.Exit1Ir? then Some([true, false])
      else None
    case _ => None
  }

  /** shift_tms: the last bit rides the exit edge, so even no bits give one edge. */
  function ShiftTms(bits: nat): Bits {
    if bits == 0 then [true] else seq(bits - 1, _ => false) + [true]
  }

  /** `tms` with TDI held at 0. */
  function Idle(tms: Bits): Cycles {
    seq(|tms|, i requires 0 <= i < |tms| => (tms[i], false))
  }

  function ShiftCycles(fed: Bits): Cycles {
    seq(|fed|, i requires 0 <= i < |fed| => (i == |fed| - 1, fed[i]))
  }

  /** The cycles of one operation, None where the source raises. */
  function OpCycles(state: TapState, op: Op): Option<Cycles> {
    match op
    case GotoState(to) =>
      (match NavigationTms(state, to) case None => None case Some(tms) => Some(Idle(tms)))
    case ShiftIR(bits, tdi, _, _) => Some(ShiftCycles(FromInt(tdi, bits)))
    case ShiftDR(bits, tdi, _, _) => Some(ShiftCycles(FromInt(tdi, bits)))
    case Runtest(count) => Some(Idle(Zeros(if count < 0 then 0 else count)))
    case _ => None
  }

  predicate IsShift(op: Op) { op.ShiftIR? || op.ShiftDR? }

  // ---------------------------------------------------------------- the three walkers

  /** to_cycles, from any state. */
  function ToCycles(state: TapState, ops: seq<Op>): Option<Cycles>
    decreases |ops|
  {
    if ops == [] then Some([])
    else match OpCycles(state, ops[0])
      case None => None
      case Some(a) =>
        match ToCycles(Walk(state, a), ops[1..])
        case None => None
        case Some(b) => Some(a + b)
  }

  /** shift_op_ranges, from any state and cycle index. A shift advances the tracked state over all
      of ShiftTms, whatever the number of bits, and a run adds its count even when it is negative and
      so gives no cycle. */
  function Ranges(state: TapState, index: int, ops: seq<Op>): Option<seq<Range>>
    decreases |ops|
  {
    if ops == [] then Some([])
    else match OpCycles(state, ops[0])
      case None => None
      case Some(a) =>
        var here := if IsShift(ops[0]) then [Range(index, ops[0].bits)] else [];
        var next := if IsShift(ops[0]) then Walk(state, Idle(ShiftTms(ops[0].bits))) else Walk(state, a);
        match Ranges(next, index + (if ops[0].Runtest? then ops[0].count else |a|), ops[1..])
        case None => None
        case Some(rest) => Some(here + rest)
  }

  /** Where each shift's cycles are in what ToCycles gives. */
  ghost function Positions(state: TapState, index: nat, ops: seq<Op>): seq<Range>
    requires ToCycles(state, ops).Some?
    decreases |ops|
  {
    if ops == [] then []
    else
      var a := OpCycles(state, ops[0]).value;
      (if IsShift(ops[0]) then [Range(index, ops[0].bits)] else []) + Positions(Walk(state, a), index + |a|, ops[1..])
  }

  /** play: the model afterwards and one observed integer per shift. */
  function Play<D>(w: Wiring<D>, t: Tap<D>, ops: seq<Op>): Option<(Tap<D>, seq<int>)>
    decreases |ops|
  {
    if ops == [] then Some((t, []))
    else match OpCycles(t.state, ops[0])
      case None => None
      case Some(cycles) =>
        match Ticks(w, t, cycles)
        case None => None
        case Some((u, out)) =>
          match Play(w, u, ops[1..])
          case None => None
          case Some((v, rest)) => Some((v, (if IsShift(ops[0]) then [ToInt(out)] else []) + rest))
  }

  /** A bound of a Python slice: counted from the end when negative, and never past the end. */
  function Bound(k: int, length: nat): nat {
    if k + length < 0 then 0 else if k < 0 then k + length else if k < length then k else length
  }

  function Slice<T>(b: seq<T>, start: int, stop: int): seq<T> {
    var i, j := Bound(start, |b|), Bound(stop, |b|);
    if i <= j then b[i..j] else []
  }

  /** correlate_observed: cut a per-cycle TDO trace at the ranges. */
  function Correlate(ranges: seq<Range>, tdo: Bits): seq<int> {
    if ranges == [] then []
    else [ToInt(Slice(tdo, ranges[0].start, ranges[0].start + ranges[0].bits))] + Correlate(ranges[1..], tdo)
  }

  // ---------------------------------------------------------------- their loops

  method ToCyclesLoop(ops: seq<Op>) returns (cycles: Option<Cycles>)
    ensures cycles == ToCycles(RunTestIdle, ops)
  {
    var state, out: Cycles := RunTestIdle, [];
    assert ops[0..] == ops;
    if ToCycles(state, ops).Some? {
      assert out + ToCycles(state, ops).value == ToCycles(state, ops).value;
    }
    for k := 0 to |ops|
      invariant ToCycles(RunTestIdle, ops)
                == match ToCycles(state, ops[k..]) case None => None case Some(b) => Some(out + b)
    {
      assert ops[k..][1..] == ops[k + 1..];
      var here := OpCycles(state, ops[k]);
      if here.None? {
        return None;
      }
      ghost var rest := ToCycles(Walk(state, here.value), ops[k + 1..]);
      if rest.Some? {
        assert out + (here.value + rest.value) == out + here.value + rest.value;
      }
      state := Walk(state, here.value);
      out := out + here.value;
    }
    assert out + [] == out;
    return Some(out);
  }

  method ShiftOpRangesLoop(ops: seq<Op>) returns (ranges: Option<seq<Range>>)
    ensures ranges == Ranges(RunTestIdle, 0, ops)
  {
    hide OpCycles, Walk, ShiftTms;
    var state, index, out: seq<Range> := RunTestIdle, 0, [];
    assert ops[0..] == ops;
    if Ranges(state, index, ops).Some? {
      assert out + Ranges(state, index, ops).value == Ranges(state, index, ops).value;
    }
    for k := 0 to |ops|
      invariant Ranges(RunTestIdle, 0, ops)
                == match Ranges(state, index, ops[k..]) case None => None case Some(rest) => Some(out + rest)
    {
      assert ops[k..][0] == ops[k] && ops[k..][1..] == ops[k + 1..];
      var op, cycles := ops[k], OpCycles(state, ops[k]);
      if cycles.None? {
        return None;
      }
      ghost var here := if IsShift(op) then [Range(index, op.bits)] else [];
      ghost var before := out;
      if IsShift(op) {
        out := out + [Range(index, op.bits)];
        state := Walk(state, Idle(ShiftTms(op.bits)));
        index := index + |cycles.value|;
      } else {
        state := Walk(state, cycles.value);
        index := index + if op.Runtest? then op.count else |cycles.value|;
      }
      assert out == before + here;
      ghost var rest := Ranges(state, index, ops[k + 1..]);
      if rest.Some? {
        assert before + (here + rest.value) == out + rest.value;
      }
    }
    assert out + [] == out;
    return Some(out);
  }

  method PlayLoop<D>(w: Wiring<D>, start: Tap<D>, ops: seq<Op>) returns (result: Option<(Tap<D>, seq<int>)>)
    ensures result == Play(w, start, ops)
  {
    hide Ticks, OpCycles, ToInt;
    var t, observed: seq<int> := start, [];
    assert ops[0..] == ops;
    if Play(w, t, ops).Some? {
      assert observed + Play(w, t, ops).value.1 == Play(w, t, ops).value.1;
    }
    for k := 0 to |ops|
      invariant Play(w, start, ops)
                == match Play(w, t, ops[k..]) case None => None case Some((v, rest)) => Some((v, observed + rest))
    {
      assert ops[k..][1..] == ops[k + 1..];
      var cycles := OpCycles(t.state, ops[k]);
      if cycles.None? {
        return None;
      }
      var run := Ticks(w, t, cycles.value);
      if run.None? {
        return None;
      }
      var seen := if IsShift(ops[k]) then [ToInt(run.value.1)] else [];
      ghost var rest := Play(w, run.value.0, ops[k + 1..]);
      if rest.Some? {
        assert observed + (seen + rest.value.1) == observed + seen + rest.value.1;
      }
      t := run.value.0;
      observed := observed + seen;
    }
    assert observed + [] == observed;
    return Some((t, observed));
  }

  // ---------------------------------------------------------------- they agree

  ghost predicate EveryShiftFeeds(ops: seq<Op>) {
    forall k :: 0 <= k < |ops| && IsShift(ops[k]) ==> ops[k].bits >= 1
  }

  lemma {:induction false} WalkTms(s: TapState, a: Cycles, b: Cycles)
    requires |a| == |b| && forall i :: 0 <= i < |a| ==> a[i].0 == b[i].0
    ensures Walk(s, a) == Walk(s, b)
    decreases |a|
  {
    if a != [] {
      WalkTms(NextState(s, a[0].0), a[1..], b[1..]);
    }
  }

  /** TDO cut operation by operation. */
  function Cut(state: TapState, ops: seq<Op>, tdo: Bits): seq<int>
    requires ToCycles(state, ops).Some? && |tdo| == |ToCycles(state, ops).value|
    decreases |ops|
  {
    if ops == [] then []
    else
      var a := OpCycles(state, ops[0]).value;
      (if IsShift(ops[0]) then [ToInt(tdo[..|a|])] else []) + Cut(Walk(state, a), ops[1..], tdo[|a|..])
  }

  /** Cutting a trace at the positions is cutting it operation by operation. */
  lemma {:induction false} PositionsCut(state: TapState, ops: seq<Op>, before: Bits, tdo: Bits)
    requires ToCycles(state, ops).Some? && |tdo| == |ToCycles(state, ops).value|
    ensures Correlate(Positions(state, |before|, ops), before + tdo) == Cut(state, ops, tdo)
    decreases |ops|
  {
    if ops != [] {
      var a := OpCycles(state, ops[0]).value;
      hide Walk, OpCycles, ToInt, Slice, Correlate, Positions, Cut;
      var x, y := tdo[..|a|], tdo[|a|..];
      PositionsCut(Walk(state, a), ops[1..], before + x, y);
      Regroup(before, x, y, tdo);
      SliceMiddle(before, x, y);
      PositionsCutStep(state, ops, |before|, x, before + tdo);
      CutStep(state, ops, x, y);
    }
  }

  lemma Regroup(before: Bits, x: Bits, y: Bits, tdo: Bits)
    requires |x| <= |tdo| && x == tdo[..|x|] && y == tdo[|x|..]
    ensures before + x + y == before + (x + y) && |before + x| == |before| + |x| && x + y == tdo
  {
  }

  lemma SliceMiddle(before: Bits, x: Bits, y: Bits)
    ensures Slice(before + (x + y), |before|, |before| + |x|) == x
  {
  }

  lemma CorrelateStep(at: nat, x: Bits, rest: seq<Range>, tdo: Bits)
    requires Slice(tdo, at, at + |x|) == x
    ensures Correlate([Range(at, |x|)] + rest, tdo) == [ToInt(x)] + Correlate(rest, tdo)
  {
    hide ToInt, Slice;
    assert ([Range(at, |x|)] + rest)[1..] == rest;
  }

  lemma CutStep(state: TapState, ops: seq<Op>, x: Bits, y: Bits)
    requires ops != [] && ToCycles(state, ops).Some?
    requires |x| == |OpCycles(state, ops[0]).value| && |x + y| == |ToCycles(state, ops).value|
    ensures var rest := Cut(Walk(state, OpCycles(state, ops[0]).value), ops[1..], y);
            && (IsShift(ops[0]) ==> Cut(state, ops, x + y) == [ToInt(x)] + rest)
            && (!IsShift(ops[0]) ==> Cut(state, ops, x + y) == rest)
  {
    hide Walk, OpCycles, ToInt;
    assert (x + y)[..|x|] == x && (x + y)[|x|..] == y;
    assert [] + Cut(Walk(state, OpCycles(state, ops[0]).value), ops[1..], y)
           == Cut(Walk(state, OpCycles(state, ops[0]).value), ops[1..], y);
  }

  lemma PositionsStep(state: TapState, k: nat, ops: seq<Op>)
    requires ops != [] && ToCycles(state, ops).Some?
    ensures var a := OpCycles(state, ops[0]).value;
            var rest := Positions(Walk(state, a), k + |a|, ops[1..]);
            && (IsShift(ops[0]) ==> |a| == ops[0].bits && Positions(state, k, ops) == [Range(k, |a|)] + rest)
            && (!IsShift(ops[0]) ==> Positions(state, k, ops) == rest)
  {
    if IsShift(ops[0]) {
      ShiftLength(state, ops[0]);
    } else {
      var a := OpCycles(state, ops[0]).value;
      assert [] + Positions(Walk(state, a), k + |a|, ops[1..]) == Positions(Walk(state, a), k + |a|, ops[1..]);
    }
  }

  lemma PositionsCutStep(state: TapState, ops: seq<Op>, at: nat, x: Bits, trace: Bits)
    requires ops != [] && ToCycles(state, ops).Some? && |x| == |OpCycles(state, ops[0]).value|
    requires Slice(trace, at, at + |x|) == x
    ensures var rest := Correlate(Positions(Walk(state, OpCycles(state, ops[0]).value), at + |x|, ops[1..]), trace);
            && (IsShift(ops[0]) ==> Correlate(Positions(state, at, ops), trace) == [ToInt(x)] + rest)
            && (!IsShift(ops[0]) ==> Correlate(Positions(state, at, ops), trace) == rest)
  {
    hide Walk, OpCycles, ToInt, Slice, Correlate, Positions, Ranges;
    PositionsStep(state, at, ops);
    CorrelateStep(at, x, Positions(Walk(state, OpCycles(state, ops[0]).value), at + |x|, ops[1..]), trace);
  }

  lemma ShiftLength(state: TapState, op: Op)
    requires IsShift(op)
    ensures OpCycles(state, op).Some? && |OpCycles(state, op).value| == op.bits
  {
  }

  /** A shift that feeds something leaves the walkers in one state, as a goto or a run does. */
  lemma ShiftWalks(state: TapState, op: Op)
    requires IsShift(op) && op.bits >= 1
    ensures Walk(state, Idle(ShiftTms(op.bits))) == Walk(state, OpCycles(state, op).value)
  {
    WalkTms(state, OpCycles(state, op).value, Idle(ShiftTms(op.bits)));
  }

  /** No shift comes after a run of negative length. */
  predicate NumberedRight(ops: seq<Op>) {
    forall i, j :: 0 <= i < j < |ops| && ops[i].Runtest? && IsShift(ops[j]) ==> ops[i].count >= 0
  }

  predicate HasShift(ops: seq<Op>) {
    exists k :: 0 <= k < |ops| && IsShift(ops[k])
  }

  lemma NumberedTail(ops: seq<Op>)
    requires ops != []
    ensures NumberedRight(ops)
            <==> NumberedRight(ops[1..]) && (ops[0].Runtest? && HasShift(ops[1..]) ==> ops[0].count >= 0)
    ensures HasShift(ops) <==> IsShift(ops[0]) || HasShift(ops[1..])
    ensures !HasShift(ops[1..]) ==> NumberedRight(ops[1..])
  {
    if NumberedRight(ops[1..]) && (ops[0].Runtest? && HasShift(ops[1..]) ==> ops[0].count >= 0) {
      forall i, j | 0 <= i < j < |ops| && ops[i].Runtest? && IsShift(ops[j]) ensures ops[i].count >= 0 {
        assert ops[j] == ops[1..][j - 1];
        if i > 0 {
          assert ops[i] == ops[1..][i - 1];
        }
      }
    }
    if HasShift(ops[1..]) {
      var k :| 0 <= k < |ops[1..]| && IsShift(ops[1..][k]);
      assert IsShift(ops[k + 1]) && ops[k + 1] == ops[1..][k];
      if NumberedRight(ops) && ops[0].Runtest? {
        assert ops[0].count >= 0;
      }
    }
    if HasShift(ops) && !IsShift(ops[0]) {
      var k :| 0 <= k < |ops| && IsShift(ops[k]);
      assert IsShift(ops[1..][k - 1]);
    }
    if NumberedRight(ops) {
      forall i, j | 0 <= i < j < |ops[1..]| && ops[1..][i].Runtest? && IsShift(ops[1..][j]) ensures ops[1..][i].count >= 0 {
        assert ops[i + 1] == ops[1..][i] && ops[j + 1] == ops[1..][j];
      }
    }
  }

  /** How far an operation moves shift_op_ranges' cycle number. */
  function Counted(op: Op, cycles: Cycles): int { if op.Runtest? then op.count else |cycles| }

  /** Two controllers walk the list together: `kept` as to_cycles moves it, `tracked` as shift_op_ranges
      does, which an empty shift takes over one edge more. `tracked` can navigate wherever the list goes,
      and the cycle counts are level, `lag` being 0, at every shift. */
  predicate Aligned(kept: TapState, tracked: TapState, lag: int, ops: seq<Op>)
    requires ToCycles(kept, ops).Some?
    decreases |ops|
  {
    ops == [] ||
    var a := OpCycles(kept, ops[0]).value;
    if IsShift(ops[0]) then lag == 0 && Aligned(Walk(kept, a), Walk(tracked, Idle(ShiftTms(ops[0].bits))), 0, ops[1..])
    else match OpCycles(tracked, ops[0])
      case None => false
      case Some(b) => Aligned(Walk(kept, a), Walk(tracked, b), lag + Counted(ops[0], b) - |a|, ops[1..])
  }

  lemma {:induction false} RangesAligned(kept: TapState, tracked: TapState, index: int, at: nat, ops: seq<Op>)
    requires ToCycles(kept, ops).Some?
    ensures Ranges(tracked, index, ops) == Some(Positions(kept, at, ops)) <==> Aligned(kept, tracked, index - at, ops)
    decreases |ops|
  {
    hide Walk, Idle, ShiftTms, OpCycles, Aligned, Ranges, Positions, Counted;
    if ops == [] {
      NothingRanged(kept, tracked, index, at);
    } else {
      var a := OpCycles(kept, ops[0]).value;
      var next, there := Walk(kept, a), Positions(Walk(kept, a), at + |a|, ops[1..]);
      PositionsStep(kept, at, ops);
      if IsShift(ops[0]) {
        var walked := Walk(tracked, Idle(ShiftTms(ops[0].bits)));
        ShiftLength(kept, ops[0]);
        AlignedShift(kept, tracked, index - at, ops);
        RangesAligned(next, walked, index + |a|, at + |a|, ops[1..]);
        RangesOfShift(tracked, index, ops);
        SameFront(Range(index, |a|), Ranges(walked, index + |a|, ops[1..]), Range(at, |a|), there);
      } else if OpCycles(tracked, ops[0]).Some? {
        var b := OpCycles(tracked, ops[0]).value;
        AlignedOther(kept, tracked, index - at, ops);
        RangesAligned(next, Walk(tracked, b), index + Counted(ops[0], b), at + |a|, ops[1..]);
        RangesOfOther(tracked, index, ops);
      } else {
        RangesRefused(tracked, index, ops);
        AlignedRefused(kept, tracked, index - at, ops);
      }
    }
  }

  lemma AlignedShift(kept: TapState, tracked: TapState, lag: int, ops: seq<Op>)
    requires ToCycles(kept, ops).Some? && ops != [] && IsShift(ops[0])
    ensures var a := OpCycles(kept, ops[0]).value;
            Aligned(kept, tracked, lag, ops)
            <==> lag == 0 && Aligned(Walk(kept, a), Walk(tracked, Idle(ShiftTms(ops[0].bits))), 0, ops[1..])
  {
    hide Walk, Idle, ShiftTms, OpCycles;
  }

  lemma AlignedOther(kept: TapState, tracked: TapState, lag: int, ops: seq<Op>)
    requires ToCycles(kept, ops).Some? && ops != [] && !IsShift(ops[0]) && OpCycles(tracked, ops[0]).Some?
    ensures var a, b := OpCycles(kept, ops[0]).value, OpCycles(tracked, ops[0]).value;
            Aligned(kept, tracked, lag, ops)
            <==> Aligned(Walk(kept, a), Walk(tracked, b), lag + Counted(ops[0], b) - |a|, ops[1..])
  {
    hide Walk, Idle, ShiftTms, OpCycles, Counted;
  }

  lemma AlignedRefused(kept: TapState, tracked: TapState, lag: int, ops: seq<Op>)
    requires ToCycles(kept, ops).Some? && ops != [] && !IsShift(ops[0]) && OpCycles(tracked, ops[0]).None?
    ensures !Aligned(kept, tracked, lag, ops)
  {
    hide Walk, Idle, ShiftTms, OpCycles, Counted;
  }

  lemma NothingRanged(kept: TapState, tracked: TapState, index: int, at: nat)
    ensures Ranges(tracked, index, []) == Some(Positions(kept, at, [])) && Aligned(kept, tracked, index - at, [])
  {
  }

  lemma RangesRefused(state: TapState, index: int, ops: seq<Op>)
    requires ops != [] && OpCycles(state, ops[0]).None?
    ensures Ranges(state, index, ops).None?
  {
  }

  lemma RangesOfShift(state: TapState, index: int, ops: seq<Op>)
    requires ops != [] && IsShift(ops[0])
    ensures var bits := ops[0].bits;
            Ranges(state, index, ops)
            == match Ranges(Walk(state, Idle(ShiftTms(bits))), index + bits, ops[1..])
               case None => None
               case Some(rest) => Some([Range(index, bits)] + rest)
  {
    ShiftLength(state, ops[0]);
    hide Walk, Idle, ShiftTms, OpCycles;
  }

  lemma RangesOfOther(state: TapState, index: int, ops: seq<Op>)
    requires ops != [] && !IsShift(ops[0]) && OpCycles(state, ops[0]).Some?
    ensures var b := OpCycles(state, ops[0]).value;
            Ranges(state, index, ops) == Ranges(Walk(state, b), index + Counted(ops[0], b), ops[1..])
  {
    hide Walk, OpCycles, ShiftTms, Idle;
    var b := OpCycles(state, ops[0]).value;
    var rest := Ranges(Walk(state, b), index + Counted(ops[0], b), ops[1..]);
    if rest.Some? {
      NothingFirst(rest.value);
    }
  }

  lemma NothingFirst(found: seq<Range>)
    ensures [] + found == found
  {
  }

  lemma SameFront(x: Range, xs: Option<seq<Range>>, y: Range, ys: seq<Range>)
    ensures (match xs case None => None case Some(rest) => Some([x] + rest)) == Some([y] + ys) <==> x == y && xs == Some(ys)
  {
    if xs.Some? {
      assert ([x] + xs.value)[0] == x && ([x] + xs.value)[1..] == xs.value;
      assert ([y] + ys)[0] == y && ([y] + ys)[1..] == ys;
    }
  }

  /** For every list to_cycles accepts: shift_op_ranges reports the positions of the shifts in to_cycles'
      list exactly when the two controllers stay aligned along it. */
  lemma RangesArePositions(ops: seq<Op>)
    requires ToCycles(RunTestIdle, ops).Some?
    ensures Ranges(RunTestIdle, 0, ops) == Some(Positions(RunTestIdle, 0, ops))
            <==> Aligned(RunTestIdle, RunTestIdle, 0, ops)
  {
    RangesAligned(RunTestIdle, RunTestIdle, 0, 0, ops);
  }

  /** With no empty shift there is only one controller, and only a run of negative length before a shift
      puts the counts apart. */
  lemma {:induction false} FedIsAligned(state: TapState, lag: int, ops: seq<Op>)
    requires EveryShiftFeeds(ops) && lag <= 0 && ToCycles(state, ops).Some?
    ensures Aligned(state, state, lag, ops) <==> !HasShift(ops) || (lag == 0 && NumberedRight(ops))
    decreases |ops|
  {
    hide Walk, Idle, ShiftTms, OpCycles, NumberedRight, HasShift;
    if ops == [] {
      NothingNumbered();
    } else {
      var a := OpCycles(state, ops[0]).value;
      StepLag(state, ops[0]);
      NumberedTail(ops);
      if IsShift(ops[0]) {
        ShiftWalks(state, ops[0]);
        FedIsAligned(Walk(state, a), 0, ops[1..]);
      } else {
        FedIsAligned(Walk(state, a), lag + Counted(ops[0], a) - |a|, ops[1..]);
      }
    }
  }

  lemma NothingNumbered()
    ensures NumberedRight([]) && !HasShift([])
  {
  }

  /** A run gives as many cycles as it counts, or none; nothing else is counted. */
  lemma StepLag(state: TapState, op: Op)
    requires OpCycles(state, op).Some?
    ensures op.Runtest? ==> |OpCycles(state, op).value| == if op.count < 0 then 0 else op.count
    ensures !IsShift(op) || !op.Runtest?
  {
  }

  /** Without empty shifts shift_op_ranges reports the true positions exactly when no shift comes after a
      run of negative length. */
  lemma FedRanges(ops: seq<Op>)
    requires EveryShiftFeeds(ops) && ToCycles(RunTestIdle, ops).Some?
    ensures Ranges(RunTestIdle, 0, ops) == Some(Positions(RunTestIdle, 0, ops)) <==> NumberedRight(ops)
  {
    RangesArePositions(ops);
    FedIsAligned(RunTestIdle, 0, ops);
    if !HasShift(ops) {
      assert NumberedRight(ops);
    }
  }

  /** Right after an empty shift outside Test-Logic-Reset the two controllers differ, so navigating to a
      shift state, which only Run-Test/Idle allows, is refused to one of them. */
  lemma EmptyShiftParts(state: TapState, op: Op)
    requires IsShift(op) && op.bits == 0
    ensures Walk(state, OpCycles(state, op).value) == state
    ensures Walk(state, Idle(ShiftTms(0))) == NextState(state, true)
    ensures NextState(state, true) == state <==> state == TestLogicReset
  {
    assert OpCycles(state, op).value == [];
    var edge := Idle(ShiftTms(0));
    assert edge == [(true, false)] && edge[1..] == [];
  }

  /** A list that to_cycles accepts and shift_op_ranges refuses after an empty shift. */
  lemma EmptyShiftMisleads(tdi: nat)
    ensures var ops := [ShiftDR(0, tdi, None, None), GotoState(ShiftDrState)];
            ToCycles(RunTestIdle, ops).Some? && Ranges(RunTestIdle, 0, ops).None?
  {
    var goto, ops := GotoState(ShiftDrState), [ShiftDR(0, tdi, None, None), GotoState(ShiftDrState)];
    assert ops[1..] == [goto] && [goto][1..] == [];
    assert ShiftCycles(FromInt(tdi, 0)) == [];
    assert Walk(RunTestIdle, []) == RunTestIdle;
    var edge := Idle(ShiftTms(0));
    assert edge == [(true, false)] && edge[1..] == [];
    assert Walk(RunTestIdle, edge) == SelectDrScan;
    assert OpCycles(SelectDrScan, goto) == None;
    assert ToCycles(RunTestIdle, [goto]).Some?;
  }

  /** Playing is ticking through the cycles and cutting TDO operation by operation. */
  lemma {:induction false} PlayCuts<D>(w: Wiring<D>, t: Tap<D>, ops: seq<Op>)
    ensures Play(w, t, ops).Some? ==> ToCycles(t.state, ops).Some?
    ensures ToCycles(t.state, ops).Some? ==>
              Play(w, t, ops)
              == match Ticks(w, t, ToCycles(t.state, ops).value)
                 case None => None
                 case Some((u, out)) =>
                   if |out| == |ToCycles(t.state, ops).value| then Some((u, Cut(t.state, ops, out))) else None
    decreases |ops|
  {
    if ops != [] && OpCycles(t.state, ops[0]).Some? {
      var a := OpCycles(t.state, ops[0]).value;
      if Ticks(w, t, a).Some? {
        TicksLength(w, t, a);
        var (u, x) := Ticks(w, t, a).value;
        PlayCuts(w, u, ops[1..]);
      }
      if ToCycles(t.state, ops).Some? {
        PlayCutsStep(w, t, ops, a, ToCycles(Walk(t.state, a), ops[1..]).value);
      }
    }
  }

  lemma PlayCutsStep<D>(w: Wiring<D>, t: Tap<D>, ops: seq<Op>, a: Cycles, b: Cycles)
    requires ops != [] && OpCycles(t.state, ops[0]) == Some(a)
    requires ToCycles(Walk(t.state, a), ops[1..]) == Some(b)
    requires Ticks(w, t, a).Some? ==>
               var (u, x) := Ticks(w, t, a).value;
               && u.state == Walk(t.state, a) && |x| == |a|
               && Play(w, u, ops[1..])
                  == match Ticks(w, u, b)
                     case None => None
                     case Some((v, out)) =>
                       if |out| == |b| then Some((v, Cut(u.state, ops[1..], out))) else None
    ensures Play(w, t, ops)
            == match Ticks(w, t, a + b)
               case None => None
               case Some((v, out)) =>
                 if |out| == |a + b| then Some((v, Cut(t.state, ops, out))) else None
  {
    TicksCompose(w, t, a, b);
    if Ticks(w, t, a + b).Some? {
      TicksLength(w, t, a + b);
      var (u, x) := Ticks(w, t, a).value;
      var (v, y) := Ticks(w, u, b).value;
      TicksLength(w, u, b);
      assert (x + y)[..|a|] == x && (x + y)[|a|..] == y;
    }
  }

  /** The three walkers agree on every operation list, for any wiring of any deterministic data
      registers: ticking a model through the flattened cycles and cutting its TDO at the positions of the
      shifts is exactly playing the list, and where the two controllers stay aligned those positions are
      the ranges shift_op_ranges reports. */
  lemma PlayIsCycles<D>(w: Wiring<D>, t: Tap<D>, ops: seq<Op>)
    requires t.state == RunTestIdle
    ensures Play(w, t, ops).Some? ==> ToCycles(RunTestIdle, ops).Some?
    ensures ToCycles(RunTestIdle, ops).Some? ==>
              var cycles, places := ToCycles(RunTestIdle, ops).value, Positions(RunTestIdle, 0, ops);
              && Play(w, t, ops).Some? == Ticks(w, t, cycles).Some?
              && (Ticks(w, t, cycles).Some? ==>
                    var (u, out) := Ticks(w, t, cycles).value;
                    Play(w, t, ops) == Some((u, Correlate(places, out))))
              && (Aligned(RunTestIdle, RunTestIdle, 0, ops) <==> Ranges(RunTestIdle, 0, ops) == Some(places))
  {
    hide Play, Ticks, ToCycles, Cut, Positions, Correlate, Ranges, Aligned, Walk;
    PlayCuts(w, t, ops);
    if ToCycles(RunTestIdle, ops).Some? {
      var cycles := ToCycles(RunTestIdle, ops).value;
      RangesArePositions(ops);
      if Ticks(w, t, cycles).Some? {
        TicksLength(w, t, cycles);
        var out := Ticks(w, t, cycles).value.1;
        PositionsCut(RunTestIdle, ops, [], out);
        assert [] + out == out;
      }
    }
  }

  // ---------------------------------------------------------------- one DR scan

  /** Any data register under a run of Shift-DR cycles. */
  function ShiftRun<D>(dr: DataRegister<D>, n: D, fed: Bits): (D, Bits)
    decreases |fed|
  {
    if fed == [] then (n, [])
    else
      var (m, tdo) := dr.shift(n, fed[0]);
      var (last, out) := ShiftRun(dr, m, fed[1..]);
      (last, [tdo] + out)
  }

  ghost predicate PluggedIn<D>(w: Wiring<D>, t: Tap<D>, dr: DataRegister<D>) {
    Registered(w, t.instruction) == Some(dr)
  }

  lemma {:induction false} TicksShift<D>(w: Wiring<D>, t: Tap<D>, dr: DataRegister<D>, fed: Bits)
    requires PluggedIn(w, t, dr) && t.state == ShiftDrState && fed != []
    ensures Ticks(w, t, ShiftCycles(fed))
            == Some((t.(network := ShiftRun(dr, t.network, fed).0, state := Exit1Dr),
                     ShiftRun(dr, t.network, fed).1))
    decreases |fed|
  {
    var cycles := ShiftCycles(fed);
    var (m, tdo) := dr.shift(t.network, fed[0]);
    var u := t.(network := m, state := NextState(ShiftDrState, |fed| == 1));
    assert Tick(w, t, cycles[0].0, cycles[0].1) == Some((u, tdo));
    if |fed| == 1 {
      assert cycles[1..] == [] && fed[1..] == [];
      assert [tdo] + [] == [tdo];
    } else {
      assert cycles[1..] == ShiftCycles(fed[1..]);
      TicksShift(w, u, dr, fed[1..]);
    }
  }

  /** The operations of one DR scan, played from Run-Test/Idle with the register selected: one
      capture, the shifts, one update, and back to Run-Test/Idle. */
  lemma PlayDr<D>(w: Wiring<D>, t: Tap<D>, dr: DataRegister<D>, shift: Op)
    requires PluggedIn(w, t, dr) && t.state == RunTestIdle && shift.ShiftDR? && shift.bits >= 1
    ensures var (n, out) := ShiftRun(dr, dr.capture(t.network), FromInt(shift.tdi, shift.bits));
            Play(w, t, DrOps(shift)) == Some((t.(network := dr.update(n)), [ToInt(out)]))
  {
    var fed := FromInt(shift.tdi, shift.bits);
    var t1 := t.(network := dr.capture(t.network), state := ShiftDrState);
    assert Ticks(w, t, Idle([true, false, false])) == Some((t1, [false, false, false])) by {
      EnterShift(w, t, dr);
    }
    var (n, out) := ShiftRun(dr, t1.network, fed);
    var t2 := t1.(network := n, state := Exit1Dr);
    TicksShift(w, t1, dr, fed);
    var t3 := t.(network := dr.update(n));
    assert Ticks(w, t2, Idle([true, false])) == Some((t3, [false, false])) by {
      LeaveShift(w, t2, dr);
    }
    PlayThree(w, t, t1, t2, t3, shift, out);
  }

  lemma EnterShift<D>(w: Wiring<D>, t: Tap<D>, dr: DataRegister<D>)
    requires PluggedIn(w, t, dr) && t.state == RunTestIdle
    ensures Ticks(w, t, Idle([true, false, false]))
            == Some((t.(network := dr.capture(t.network), state := ShiftDrState), [false, false, false]))
  {
    var a := t.(state := SelectDrScan);
    var b := t.(state := CaptureDr);
    var c := t.(network := dr.capture(t.network), state := ShiftDrState);
    var idle := (false, false);
    assert [idle] + [] == [idle] && [idle] + [idle] == [idle, idle];
    assert [false] + [] == [false] && [false] + [false] == [false, false];
    assert [false] + [false, false] == [false, false, false];
    assert Idle([true, false, false]) == [(true, false)] + [idle, idle];
    TickThen(w, b, idle, [], c, false, c, []);
    TickThen(w, a, idle, [idle], b, false, c, [false]);
    TickThen(w, t, (true, false), [idle, idle], a, false, c, [false, false]);
  }

  lemma TickThen<D>(w: Wiring<D>, t: Tap<D>, first: (bool, bool), rest: Cycles, u: Tap<D>, tdo: bool,
                    v: Tap<D>, out: Bits)
    requires Tick(w, t, first.0, first.1) == Some((u, tdo)) && Ticks(w, u, rest) == Some((v, out))
    ensures Ticks(w, t, [first] + rest) == Some((v, [tdo] + out))
  {
    assert ([first] + rest)[1..] == rest;
  }

  lemma LeaveShift<D>(w: Wiring<D>, t: Tap<D>, dr: DataRegister<D>)
    requires PluggedIn(w, t, dr) && t.state == Exit1Dr
    ensures Ticks(w, t, Idle([true, false]))
            == Some((t.(network := dr.update(t.network), state := RunTestIdle), [false, false]))
  {
    var a := t.(state := UpdateDr);
    var b := t.(network := dr.update(t.network), state := RunTestIdle);
    var idle := (false, false);
    assert [idle] + [] == [idle] && Idle([true, false]) == [(true, false)] + [idle];
    assert [false] + [] == [false] && [false] + [false] == [false, false];
    TickThen(w, a, idle, [], b, false, b, []);
    TickThen(w, t, (true, false), [idle], a, false, b, [false]);
  }

  lemma PlayThree<D>(w: Wiring<D>, t: Tap<D>, t1: Tap<D>, t2: Tap<D>, t3: Tap<D>, shift: Op, out: Bits)
    requires t.state == RunTestIdle && t2.state == Exit1Dr && shift.ShiftDR?
    requires Ticks(w, t, Idle([true, false, false])) == Some((t1, [false, false, false]))
    requires Ticks(w, t1, ShiftCycles(FromInt(shift.tdi, shift.bits))) == Some((t2, out))
    requires Ticks(w, t2, Idle([true, false])) == Some((t3, [false, false]))
    ensures Play(w, t, DrOps(shift)) == Some((t3, [ToInt(out)]))
  {
    hide Ticks, ToInt, FromInt, Idle, ShiftCycles;
    var back := GotoState(RunTestIdle);
    assert [back] + [] == [back] && [shift] + [back] == [shift, back];
    var none: seq<int> := [];
    assert none + none == none;
    assert DrOps(shift) == [GotoState(ShiftDrState)] + [shift, back];
    assert [ToInt(out)] + [] == [ToInt(out)] && [] + [ToInt(out)] == [ToInt(out)];
    PlayOne(w, t2, back, [], Idle([true, false]), t3, [false, false], t3, none);
    PlayOne(w, t1, shift, [back], ShiftCycles(FromInt(shift.tdi, shift.bits)), t2, out, t3, []);
    PlayOne(w, t, GotoState(ShiftDrState), [shift, back], Idle([true, false, false]), t1,
            [false, false, false], t3, [ToInt(out)]);
  }

  lemma PlayOne<D>(w: Wiring<D>, t: Tap<D>, op: Op, rest: seq<Op>, cycles: Cycles, u: Tap<D>, out: Bits,
                   v: Tap<D>, seen: seq<int>)
    requires OpCycles(t.state, op) == Some(cycles) && Ticks(w, t, cycles) == Some((u, out))
    requires Play(w, u, rest) == Some((v, seen))
    ensures Play(w, t, [op] + rest) == Some((v, (if IsShift(op) then [ToInt(out)] else []) + seen))
  {
    hide Ticks, OpCycles, ToInt;
    assert ([op] + rest)[1..] == rest;
  }

  /** Playing one list after another. */
  lemma {:induction false} PlayCompose<D>(w: Wiring<D>, t: Tap<D>, a: seq<Op>, b: seq<Op>)
    ensures Play(w, t, a + b)
            == match Play(w, t, a)
               case None => None
               case Some((u, x)) =>
                 match Play(w, u, b)
                 case None => None
                 case Some((v, y)) => Some((v, x + y))
    decreases |a|
  {
    hide Ticks, OpCycles, ToInt;
    if a == [] {
      assert a + b == b;
      if Play(w, t, b).Some? {
        assert [] + Play(w, t, b).value.1 == Play(w, t, b).value.1;
      }
    } else {
      assert (a + b)[0] == a[0] && (a + b)[1..] == a[1..] + b;
      if OpCycles(t.state, a[0]).Some? && Ticks(w, t, OpCycles(t.state, a[0]).value).Some? {
        var (u, out) := Ticks(w, t, OpCycles(t.state, a[0]).value).value;
        PlayCompose(w, u, a[1..], b);
        var here := if IsShift(a[0]) then [ToInt(out)] else [];
        if Play(w, u, a[1..]).Some? {
          var (v, x) := Play(w, u, a[1..]).value;
          if Play(w, v, b).Some? {
            assert here + (x + Play(w, v, b).value.1) == here + x + Play(w, v, b).value.1;
          }
        }
      }
    }
  }
}
