/** The STIL walker (tap_ir_stil.py): one record per vector or run of identical vectors, and the V and
    Loop statements they become. It drives the pins exactly as to_cycles does. */
module StilWalk {
  import opened Wrappers
  import opened Bits
  import opened TapFsm
  import opened TapIr
  import opened TapModel
  import opened TapPlay

  type Levels = map<string, bool>

  datatype Vector =
    | Jtag(tms: bool, tdi: bool, compare: Option<bool>, inputs: Levels)
    | Pulse(port: string, hold: seq<(string, bool)>, inputs: Levels)

  /** `repeat` identical vectors. */
  datatype Entry = Entry(vector: Vector, repeat: nat)

  datatype Place = Place(state: TapState, inputs: Levels)

  /** A bit of TDO is compared where the mask selects it. */
  function MaskedBit(op: Op, i: nat): Option<bool>
    requires IsShift(op)
  {
    if op.mask.Some? && BitOf(op.mask.value, i) && op.tdo.Some? then Some(BitOf(op.tdo.value, i)) else None
  }

  function Compares(op: Op): (r: seq<Option<bool>>)
    requires IsShift(op)
    ensures |r| == op.bits
  {
    seq(op.bits, i requires 0 <= i => MaskedBit(op, i))
  }

  function NoCompares(n: nat): (r: seq<Option<bool>>)
    ensures |r| == n
  {
    seq(n, _ => None)
  }

  function TickEntries(cycles: Cycles, compares: seq<Option<bool>>, inputs: Levels): (r: seq<Entry>)
    requires |cycles| == |compares|
    ensures |r| == |cycles|
  {
    seq(|cycles|, i requires 0 <= i < |cycles| => Entry(Jtag(cycles[i].0, cycles[i].1, compares[i], inputs), 1))
  }

  /** The controller after `count` cycles of TMS=0, walked at most three of them. */
  function Settle(s: TapState, count: nat): TapState { Walk(s, Idle(Zeros(if count < 3 then count else 3))) }

  function Driven(inputs: Levels, pins: seq<(string, bool)>): Option<Levels> {
    if pins == [] then Some(inputs)
    else if pins[0].0 !in inputs then None
    else Driven(inputs[pins[0].0 := pins[0].1], pins[1..])
  }

  /** One operation: None where the source raises. */
  function OpEntries(p: Place, op: Op): Option<(Place, seq<Entry>)> {
    match op
    case GotoState(to) =>
      (match NavigationTms(p.state, to)
       case None => None
       case Some(tms) => Some((p.(state := Walk(p.state, Idle(tms))), TickEntries(Idle(tms), NoCompares(|tms|), p.inputs))))
    case Runtest(count) =>
      if count <= 0 then Some((p, []))
      else Some((p.(state := Settle(p.state, count)), [Entry(Jtag(false, false, None, p.inputs), count)]))
    case PulsePin(port, pulses, hold) =>
      Some((p, if pulses <= 0 then [] else [Entry(Pulse(port, hold, p.inputs), pulses)]))
    case SetPins(pins) =>
      (match Driven(p.inputs, pins) case None => None case Some(inputs) => Some((p.(inputs := inputs), [])))
    case _ =>
      var fed := ShiftCycles(FromInt(op.tdi, op.bits));
      Some((p.(state := Walk(p.state, fed)), TickEntries(fed, Compares(op), p.inputs)))
  }

  function Entries(p: Place, ops: seq<Op>): Option<seq<Entry>>
    decreases |ops|
  {
    if ops == [] then Some([])
    else match OpEntries(p, ops[0])
      case None => None
      case Some((q, here)) =>
        match Entries(q, ops[1..])
        case None => None
        case Some(rest) => Some(here + rest)
  }

  // ---------------------------------------------------------------- the loops

  /** jtag_tick over a run of cycles. */
  method TickRun(start: TapState, cycles: Cycles, compares: seq<Option<bool>>, inputs: Levels)
    returns (state: TapState, out: seq<Entry>)
    requires |cycles| == |compares|
    ensures state == Walk(start, cycles) && out == TickEntries(cycles, compares, inputs)
  {
    state, out := start, [];
    assert cycles[0..] == cycles;
    for k := 0 to |cycles|
      invariant Walk(state, cycles[k..]) == Walk(start, cycles)
      invariant out == TickEntries(cycles, compares, inputs)[..k]
    {
      assert cycles[k..][0] == cycles[k] && cycles[k..][1..] == cycles[k + 1..];
      out := out + [Entry(Jtag(cycles[k].0, cycles[k].1, compares[k], inputs), 1)];
      state := NextState(state, cycles[k].0);
    }
  }

  method SettleLoop(start: TapState, count: nat) returns (state: TapState)
    ensures state == Settle(start, count)
  {
    var n := if count < 3 then count else 3;
    ghost var idle := Idle(Zeros(n));
    state := start;
    assert idle[0..] == idle;
    for k := 0 to n
      invariant Walk(state, idle[k..]) == Walk(start, idle)
    {
      assert idle[k..][0] == idle[k] == (false, false) && idle[k..][1..] == idle[k + 1..];
      state := NextState(state, false);
    }
  }

  method DriveLoop(start: Levels, pins: seq<(string, bool)>) returns (inputs: Option<Levels>)
    ensures inputs == Driven(start, pins)
  {
    var levels := start;
    assert pins[0..] == pins;
    for k := 0 to |pins|
      invariant Driven(levels, pins[k..]) == Driven(start, pins)
    {
      assert pins[k..][0] == pins[k] && pins[k..][1..] == pins[k + 1..];
      if pins[k].0 !in levels {
        return None;
      }
      levels := levels[pins[k].0 := pins[k].1];
    }
    return Some(levels);
  }

  method WalkOne(p: Place, op: Op) returns (r: Option<(Place, seq<Entry>)>)
    ensures r == OpEntries(p, op)
  {
    hide Walk, TickEntries, Settle, Driven;
    match op
    case GotoState(to) =>
      var tms := NavigationTms(p.state, to);
      if tms.None? {
        return None;
      }
      var state, out := TickRun(p.state, Idle(tms.value), NoCompares(|tms.value|), p.inputs);
      return Some((p.(state := state), out));
    case Runtest(count) =>
      if count <= 0 {
        return Some((p, []));
      }
      var state := SettleLoop(p.state, count);
      return Some((p.(state := state), [Entry(Jtag(false, false, None, p.inputs), count)]));
    case PulsePin(port, pulses, hold) =>
      return Some((p, if pulses <= 0 then [] else [Entry(Pulse(port, hold, p.inputs), pulses)]));
    case SetPins(pins) =>
      var inputs := DriveLoop(p.inputs, pins);
      return if inputs.None? then None else Some((p.(inputs := inputs.value), []));
    case _ =>
      var state, out := TickRun(p.state, ShiftCycles(FromInt(op.tdi, op.bits)), Compares(op), p.inputs);
      return Some((p.(state := state), out));
  }

  /** _walk_cycles. */
  method WalkCycles(ops: seq<Op>, inputs: Levels) returns (entries: Option<seq<Entry>>)
    ensures entries == Entries(Place(RunTestIdle, inputs), ops)
  {
    hide OpEntries;
    var start := Place(RunTestIdle, inputs);
    var p, out: seq<Entry> := start, [];
    assert ops[0..] == ops;
    if Entries(p, ops).Some? {
      assert out + Entries(p, ops).value == Entries(p, ops).value;
    }
    for k := 0 to |ops|
      invariant Entries(start, ops)
                == match Entries(p, ops[k..]) case None => None case Some(rest) => Some(out + rest)
    {
      assert ops[k..][0] == ops[k] && ops[k..][1..] == ops[k + 1..];
      var step := WalkOne(p, ops[k]);
      if step.None? {
        return None;
      }
      if Entries(step.value.0, ops[k + 1..]).Some? {
        var rest := Entries(step.value.0, ops[k + 1..]).value;
        assert out + (step.value.1 + rest) == out + step.value.1 + rest;
      }
      p, out := step.value.0, out + step.value.1;
    }
    assert out + [] == out;
    return Some(out);
  }

  // ---------------------------------------------------------------- what the records expand to

  function Copies(v: Vector, n: nat): (r: seq<Vector>)
    ensures |r| == n
  {
    seq(n, _ => v)
  }

  function Expand(entries: seq<Entry>): seq<Vector> {
    if entries == [] then [] else Copies(entries[0].vector, entries[0].repeat) + Expand(entries[1..])
  }

  lemma {:induction false} ExpandJoin(a: seq<Entry>, b: seq<Entry>)
    ensures Expand(a + b) == Expand(a) + Expand(b)
  {
    if a == [] {
      assert a + b == b;
    } else {
      assert (a + b)[0] == a[0] && (a + b)[1..] == a[1..] + b;
      ExpandJoin(a[1..], b);
    }
  }

  /** What the TAP pins see, and what is compared. */
  function Pins(v: seq<Vector>): (r: Cycles)
    ensures |r| == |v|
  {
    seq(|v|, i requires 0 <= i < |v| => if v[i].Jtag? then (v[i].tms, v[i].tdi) else (false, false))
  }

  function Compared(v: seq<Vector>): (r: seq<Option<bool>>)
    ensures |r| == |v|
  {
    seq(|v|, i requires 0 <= i < |v| => if v[i].Jtag? then v[i].compare else None)
  }

  lemma {:induction false} ExpandTicks(cycles: Cycles, compares: seq<Option<bool>>, inputs: Levels)
    requires |cycles| == |compares|
    ensures var v := Expand(TickEntries(cycles, compares, inputs)); Pins(v) == cycles && Compared(v) == compares
    decreases |cycles|
  {
    var e := TickEntries(cycles, compares, inputs);
    if cycles != [] {
      assert e[1..] == TickEntries(cycles[1..], compares[1..], inputs);
      ExpandTicks(cycles[1..], compares[1..], inputs);
      var v := Expand(e[1..]);
      assert Expand(e) == [e[0].vector] + v;
      assert Pins(Expand(e)) == [cycles[0]] + Pins(v) && Compared(Expand(e)) == [compares[0]] + Compared(v);
    }
  }

  ghost predicate NoPinOps(ops: seq<Op>) {
    forall k :: 0 <= k < |ops| ==> !ops[k].PulsePin? && !ops[k].SetPins?
  }

  /** Three cycles of TMS=0 settle the controller for good. */
  lemma {:induction false} SettleIsWalk(s: TapState, count: nat)
    ensures Settle(s, count) == Walk(s, Idle(Zeros(count)))
  {
    var one, two := NextState(s, false), NextState(NextState(s, false), false);
    WalkIdle(s, count);
    WalkIdle(s, if count < 3 then count else 3);
    if count >= 3 {
      IdleRestFixed(two, count - 2);
      assert IdleWalk(s, count) == IdleWalk(one, count - 1) == IdleWalk(two, count - 2);
      assert IdleWalk(s, 3) == IdleWalk(two, 1) == NextState(two, false);
    }
  }

  function IdleWalk(s: TapState, count: nat): TapState
    decreases count
  {
    if count == 0 then s else IdleWalk(NextState(s, false), count - 1)
  }

  lemma {:induction false} WalkIdle(s: TapState, count: nat)
    ensures Walk(s, Idle(Zeros(count))) == IdleWalk(s, count)
    decreases count
  {
    if count > 0 {
      var idle := Idle(Zeros(count));
      assert idle[0] == (false, false) && idle[1..] == Idle(Zeros(count - 1));
      WalkIdle(NextState(s, false), count - 1);
    }
  }

  lemma {:induction false} IdleRestFixed(s: TapState, count: nat)
    requires NextState(s, false) == s
    ensures IdleWalk(s, count) == s
    decreases count
  {
    if count > 0 {
      IdleRestFixed(s, count - 1);
    }
  }

  /** One operation's vectors drive its cycles. */
  lemma OpAgrees(p: Place, op: Op)
    requires !op.PulsePin? && !op.SetPins?
    ensures OpEntries(p, op).Some? == OpCycles(p.state, op).Some?
    ensures OpCycles(p.state, op).Some? ==>
      var (q, e) := OpEntries(p, op).value;
      var a := OpCycles(p.state, op).value;
      && Pins(Expand(e)) == a && q == p.(state := Walk(p.state, a))
      && Compared(Expand(e)) == if IsShift(op) then Compares(op) else NoCompares(|a|)
  {
    hide Walk, NavigationTms, TickEntries;
    match op
    case GotoState(to) =>
      var tms := NavigationTms(p.state, to);
      if tms.Some? {
        ExpandTicks(Idle(tms.value), NoCompares(|tms.value|), p.inputs);
      }
    case Runtest(count) =>
      if count > 0 {
        SettleIsWalk(p.state, count);
        var v := Jtag(false, false, None, p.inputs);
        assert Expand([Entry(v, count)]) == Copies(v, count) + [];
        assert Pins(Copies(v, count)) == Idle(Zeros(count));
      } else {
        NoIdle(p.state);
      }
    case ShiftIR(bits, tdi, _, _) => ExpandTicks(ShiftCycles(FromInt(tdi, bits)), Compares(op), p.inputs);
    case ShiftDR(bits, tdi, _, _) => ExpandTicks(ShiftCycles(FromInt(tdi, bits)), Compares(op), p.inputs);
    case _ =>
  }

  lemma NoIdle(s: TapState)
    ensures Walk(s, Idle(Zeros(0))) == s && Idle(Zeros(0)) == []
  {
  }

  lemma PinsJoin(a: seq<Vector>, b: seq<Vector>)
    ensures Pins(a + b) == Pins(a) + Pins(b) && Compared(a + b) == Compared(a) + Compared(b)
  {
  }

  /** Without pin operations the walker raises exactly when to_cycles does, and expanding each record
      its number of times gives to_cycles' own list. */
  lemma {:induction false} WalkerAgrees(p: Place, ops: seq<Op>)
    requires NoPinOps(ops)
    ensures Entries(p, ops).Some? == ToCycles(p.state, ops).Some?
    ensures Entries(p, ops).Some? ==> Pins(Expand(Entries(p, ops).value)) == ToCycles(p.state, ops).value
    decreases |ops|
  {
    hide OpEntries, OpCycles, Walk, Pins, Expand, Compared;
    if ops == [] {
      NothingExpands();
    } else {
      OpAgrees(p, ops[0]);
      if OpEntries(p, ops[0]).Some? {
        var (q, e) := OpEntries(p, ops[0]).value;
        WalkerAgrees(q, ops[1..]);
        if Entries(q, ops[1..]).Some? {
          var rest := Entries(q, ops[1..]).value;
          ExpandJoin(e, rest);
          PinsJoin(Expand(e), Expand(rest));
        }
      }
    }
  }

  lemma NothingExpands()
    ensures Pins(Expand([])) == [] && Compared(Expand([])) == []
  {
  }

  // ---------------------------------------------------------------- what is compared

  /** The shift operations of a list, in order. */
  function ShiftsIn(ops: seq<Op>): seq<Op> {
    if ops == [] then [] else (if IsShift(ops[0]) then [ops[0]] else []) + ShiftsIn(ops[1..])
  }

  ghost predicate InRange(ranges: seq<Range>, k: nat) {
    exists j :: 0 <= j < |ranges| && ranges[j].start <= k < ranges[j].start + ranges[j].bits
  }

  /** In a trace of compares that starts at cycle `base`, each shift's range holds that shift's masked
      bits and nothing else is compared. */
  ghost predicate ComparesFollow(cmp: seq<Option<bool>>, base: nat, ranges: seq<Range>, shifts: seq<Op>) {
    && |ranges| == |shifts|
    && (forall j :: 0 <= j < |ranges| ==> RangeFollows(cmp, base, ranges[j], shifts[j]))
    && forall k :: 0 <= k < |cmp| && !InRange(ranges, base + k) ==> cmp[k] == None
  }

  /** Range `j` lies in the trace and holds its shift's masked bits. */
  ghost predicate RangeFollows(cmp: seq<Option<bool>>, base: nat, range: Range, shift: Op) {
    && IsShift(shift) && base <= range.start && range.bits == shift.bits && range.start + range.bits <= base + |cmp|
    && forall i :: 0 <= i < shift.bits ==> cmp[range.start - base + i] == MaskedBit(shift, i)
  }

  lemma FollowsLater(x: seq<Option<bool>>, y: seq<Option<bool>>, base: nat, range: Range, shift: Op)
    requires RangeFollows(y, base + |x|, range, shift)
    ensures RangeFollows(x + y, base, range, shift)
  {
    hide MaskedBit;
    var cmp := x + y;
    forall i | 0 <= i < shift.bits ensures cmp[range.start - base + i] == MaskedBit(shift, i) {
      assert cmp[range.start - base + i] == y[range.start - (base + |x|) + i];
    }
  }

  lemma FollowsShift(op: Op, base: nat, y: seq<Option<bool>>, ranges: seq<Range>, shifts: seq<Op>)
    requires IsShift(op) && ComparesFollow(y, base + op.bits, ranges, shifts)
    ensures ComparesFollow(Compares(op) + y, base, [Range(base, op.bits)] + ranges, [op] + shifts)
  {
    hide MaskedBit, RangeFollows;
    var cmp, rs, ss := Compares(op) + y, [Range(base, op.bits)] + ranges, [op] + shifts;
    forall j | 0 <= j < |rs| ensures RangeFollows(cmp, base, rs[j], ss[j]) {
      if j > 0 {
        assert rs[j] == ranges[j - 1] && ss[j] == shifts[j - 1];
        FollowsLater(Compares(op), y, base, rs[j], ss[j]);
      } else {
        FirstFollows(op, y, base);
      }
    }
    forall k | 0 <= k < |cmp| && !InRange(rs, base + k) ensures cmp[k] == None {
      assert rs[0] == Range(base, op.bits);
      assert cmp[k] == y[k - op.bits];
      StillOutside(Range(base, op.bits), ranges, base + k);
      assert base + op.bits + (k - op.bits) == base + k;
    }
  }

  lemma FirstFollows(op: Op, y: seq<Option<bool>>, base: nat)
    requires IsShift(op)
    ensures RangeFollows(Compares(op) + y, base, Range(base, op.bits), op)
  {
    hide MaskedBit;
  }

  lemma StillOutside(first: Range, ranges: seq<Range>, k: nat)
    ensures InRange(ranges, k) ==> InRange([first] + ranges, k)
  {
    if InRange(ranges, k) {
      var j :| 0 <= j < |ranges| && ranges[j].start <= k < ranges[j].start + ranges[j].bits;
      assert ([first] + ranges)[j + 1] == ranges[j];
    }
  }

  lemma FollowsQuiet(n: nat, base: nat, y: seq<Option<bool>>, ranges: seq<Range>, shifts: seq<Op>)
    requires ComparesFollow(y, base + n, ranges, shifts)
    ensures ComparesFollow(NoCompares(n) + y, base, ranges, shifts)
  {
    hide RangeFollows;
    var cmp := NoCompares(n) + y;
    forall j | 0 <= j < |ranges| ensures RangeFollows(cmp, base, ranges[j], shifts[j]) {
      FollowsLater(NoCompares(n), y, base, ranges[j], shifts[j]);
    }
    forall k | 0 <= k < |cmp| && !InRange(ranges, base + k) ensures cmp[k] == None {
      if k >= n {
        assert base + n + (k - n) == base + k;
      }
    }
  }

  /** A TDO compare appears exactly on the masked bits of the shifts, at each shift's place in the cycle
      list, and carries its expected value. */
  lemma {:induction false} ComparesAreMasked(p: Place, ops: seq<Op>, base: nat)
    requires NoPinOps(ops) && Entries(p, ops).Some?
    ensures ToCycles(p.state, ops).Some?
    ensures ComparesFollow(Compared(Expand(Entries(p, ops).value)), base, Positions(p.state, base, ops), ShiftsIn(ops))
    decreases |ops|
  {
    hide OpEntries, OpCycles, Walk, Pins, Expand, Compared, ComparesFollow, Compares, NoCompares;
    if ops == [] {
      NothingExpands();
      NothingFollows(base);
    } else {
      OpAgrees(p, ops[0]);
      var (q, e) := OpEntries(p, ops[0]).value;
      var a := OpCycles(p.state, ops[0]).value;
      ComparesAreMasked(q, ops[1..], base + |a|);
      var rest := Entries(q, ops[1..]).value;
      ExpandJoin(e, rest);
      PinsJoin(Expand(e), Expand(rest));
      var y, ranges, shifts := Compared(Expand(rest)), Positions(q.state, base + |a|, ops[1..]), ShiftsIn(ops[1..]);
      if IsShift(ops[0]) {
        ShiftLength(p.state, ops[0]);
        FollowsShift(ops[0], base, y, ranges, shifts);
      } else {
        FollowsQuiet(|a|, base, y, ranges, shifts);
        assert [] + ranges == ranges && [] + shifts == shifts;
      }
    }
  }

  lemma NothingFollows(base: nat)
    ensures ComparesFollow([], base, [], [])
  {
  }

  // ---------------------------------------------------------------- V and Loop statements

  datatype Stmt = V(vector: Vector) | Loop(count: nat, vector: Vector)

  function RunStmts(v: Vector, repeat: nat): seq<Stmt> {
    if repeat == 1 then [V(v)] else [Loop(repeat, v)]
  }

  /** A run that opens the pattern gives its first cycle as a plain V. */
  function EntryStmts(e: Entry, opens: bool): seq<Stmt> {
    if e.repeat > 1 && opens then [V(e.vector)] + RunStmts(e.vector, e.repeat - 1) else RunStmts(e.vector, e.repeat)
  }

  /** The statements of a pattern. */
  function StatementsOf(entries: seq<Entry>): seq<Stmt> {
    if entries == [] then []
    else StatementsOf(entries[..|entries| - 1]) + EntryStmts(entries[|entries| - 1], |entries| == 1)
  }

  method Statements(entries: seq<Entry>) returns (stmts: seq<Stmt>)
    ensures stmts == StatementsOf(entries)
  {
    stmts := [];
    for k := 0 to |entries|
      invariant stmts == StatementsOf(entries[..k])
    {
      ghost var before := stmts;
      var e := entries[k];
      var repeat := e.repeat;
      assert entries[..k + 1][..k] == entries[..k];
      if repeat > 1 && k == 0 {
        stmts := stmts + [V(e.vector)];
        repeat := repeat - 1;
      }
      if repeat == 1 {
        stmts := stmts + [V(e.vector)];
      } else {
        stmts := stmts + [Loop(repeat, e.vector)];
      }
      assert stmts == before + EntryStmts(e, k == 0);
    }
    assert entries[..|entries|] == entries;
  }

  /** The statements unroll to the vectors of the records, and none but a record of no vectors opens a
      pattern with a Loop. */
  lemma {:induction false} StatementsUnroll(entries: seq<Entry>)
    ensures Unrolled(StatementsOf(entries)) == Expand(entries)
    ensures entries != [] && entries[0].repeat >= 1 ==> StatementsOf(entries) != [] && StatementsOf(entries)[0].V?
    decreases |entries|
  {
    if entries != [] {
      var front, e := entries[..|entries| - 1], entries[|entries| - 1];
      StatementsUnroll(front);
      EntryUnrolls(e, front == []);
      UnrollJoin(StatementsOf(front), EntryStmts(e, front == []));
      ExpandJoin(front, [e]);
      assert front + [e] == entries;
    }
  }

  /** What a tester does with the statements. */
  function Unrolled(stmts: seq<Stmt>): seq<Vector> {
    if stmts == [] then []
    else Copies(stmts[0].vector, if stmts[0].V? then 1 else stmts[0].count) + Unrolled(stmts[1..])
  }

  lemma {:induction false} UnrollJoin(a: seq<Stmt>, b: seq<Stmt>)
    ensures Unrolled(a + b) == Unrolled(a) + Unrolled(b)
  {
    if a == [] {
      assert a + b == b;
    } else {
      assert (a + b)[0] == a[0] && (a + b)[1..] == a[1..] + b;
      UnrollJoin(a[1..], b);
    }
  }

  lemma RunUnrolls(v: Vector, repeat: nat)
    ensures Unrolled(RunStmts(v, repeat)) == Copies(v, repeat)
  {
    var s := RunStmts(v, repeat);
    assert s[1..] == [] && Unrolled(s) == Copies(v, repeat) + [];
  }

  lemma EntryUnrolls(e: Entry, opens: bool)
    ensures Unrolled(EntryStmts(e, opens)) == Expand([e])
  {
    var v, n := e.vector, e.repeat;
    assert [e][1..] == [] && Expand([e]) == Copies(v, n) + [];
    if n > 1 && opens {
      RunUnrolls(v, n - 1);
      var s := EntryStmts(e, opens);
      assert s[1..] == RunStmts(v, n - 1);
      assert Copies(v, 1) + Copies(v, n - 1) == Copies(v, n);
    } else {
      RunUnrolls(v, n);
    }
  }
}
