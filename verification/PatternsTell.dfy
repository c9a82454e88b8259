/** Why the patterns the integrity program and the over-shift probe feed tell faults apart (tap_integrity.py,
    sib_overshift.py): a register of the wrong length shows, every live cell is held at both values, and every bit
    of a WRITE instrument is written at both. */
module PatternsTell {
  import opened Wrappers
  import opened Bits
  import opened IclModel
  import opened SibLayout
  import opened SibCells
  import opened SibShift
  import opened SibRound
  import opened SibRetarget
  import opened SibStaging
  import opened PathPlan
  import opened TapFsm
  import opened TapIr
  import opened TapModel
  import opened TapPlay
  import opened TapSelect
  import opened TapCycles
  import opened PdlSpec
  import opened Retargeting
  import opened OverShift
  import opened Integrity
  import opened SelfCheckCycles
  import opened WriteReadback
  import opened TestRuns
  import opened IntegrityTests

  // ---------------------------------------------------------------- length

  /** The default pattern is 0011 over and over, first cycle first. */
  lemma SentinelBit(margin: nat, k: nat)
    requires k < margin
    ensures SentinelBits(margin, None)[k] <==> k % 4 >= 2
  {
    var bits := seq(margin, i => i / 2 % 2 == 1);
    FromIntToInt(bits);
    var q, r := k / 4, k % 4;
    assert k == 4 * q + r && k / 2 == 2 * q + r / 2;
  }

  /** Two registers whose lengths differ by anything but a multiple of four, whatever they hold, do not show the same
      within the shorter one's scan, once the margin is two bits more than the difference. */
  lemma LengthShows(shorter: Bits, longer: Bits, margin: nat)
    requires var d := |longer| - |shorter|; d > 0 && d % 4 != 0 && margin >= d + 2
    ensures var fed, n := SentinelBits(margin, None), |shorter| + margin;
            |fed| == margin && (shorter + fed)[..n] != (longer + fed)[..n]
  {
    var fed, d := SentinelBits(margin, None), |longer| - |shorter|;
    var j := if d % 4 == 1 then d + 1 else d;
    SentinelBit(margin, j);
    SentinelBit(margin, j - d);
    var at := |shorter| + j;
    assert (shorter + fed)[at] == fed[j] && (longer + fed)[at] == fed[j - d];
    assert (shorter + fed)[..|shorter| + margin][at] != (longer + fed)[..|shorter| + margin][at];
  }

  // ---------------------------------------------------------------- held in Pause

  /** A chain of any good shape, shifted once round, holds what was fed, last bit nearest TDI. */
  lemma RoundHolds(h: Cells, fed: Bits)
    requires GoodShape(Topo(h)) && Structured(Topo(h)) && Sized(h) && |fed| == |Raw(h)|
    ensures Raw(ShiftAll(h, fed).0) == Reverse(fed)
  {
    ShiftAllEffect(h, fed);
    assert Advanced(Raw(h), fed) == Reverse(fed);
    RawLoad(h, Reverse(fed));
  }

  /** Into Pause-DR, and where that leaves the network. */
  lemma IntoPause(w: Wiring<NetState>, c: Chain, t: Tap<NetState>)
    requires t.state == Exit1Dr
    ensures Ends(w, c, t, Inputs(Idle([false]))) == Some(t.(state := PauseDr))
  {
    var ins := Inputs(Idle([false]));
    assert ins == [TckInput(false, false, true)] && ins[1..] == [];
    assert Drive(w, c, t, ins[0]) == Some((t.(state := PauseDr), false));
  }

  lemma RunsEnd(w: Wiring<NetState>, c: Chain, t: Tap<NetState>, count: nat, ins: seq<TckInput>, u: Tap<NetState>, least: nat)
    requires Runs(w, c, t, count, ins, u, least)
    ensures Ends(w, c, t, ins) == Some(u)
  {
  }

  lemma {:induction false} EndsJoin(w: Wiring<NetState>, c: Chain, t: Tap<NetState>, a: seq<TckInput>, u: Tap<NetState>,
                                    b: seq<TckInput>, v: Tap<NetState>)
    requires Ends(w, c, t, a) == Some(u) && Ends(w, c, u, b) == Some(v)
    ensures Ends(w, c, t, a + b) == Some(v)
    decreases |a|
  {
    hide Drive;
    if a == [] {
      assert a + b == b;
    } else {
      assert (a + b)[0] == a[0] && (a + b)[1..] == a[1..] + b;
      EndsJoin(w, c, Drive(w, c, t, a[0]).value.0, a[1..], u, b, v);
    }
  }

  /** The bits of the hold scan. */
  lemma HoldBits(n: nat)
    ensures |FromInt(Alternating(n), n)| == |FromInt(Not(Alternating(n)), n)| == n
    ensures forall k :: 0 <= k < n ==>
              FromInt(Alternating(n), n)[k] == (k % 2 == 0) && FromInt(Not(Alternating(n)), n)[k] == (k % 2 == 1)
  {
    var bits := seq(n, k => k % 2 == 0);
    FromIntToInt(bits);
    forall k | 0 <= k < n ensures FromInt(Not(Alternating(n)), n)[k] == (k % 2 == 1) {
      FromIntBit(Not(Alternating(n)), n, k);
      NotBit(Alternating(n), k);
      ToIntBit(bits, k);
    }
  }

  /** What is driven up to each of the two pauses of the network's hold scan. */
  function ToFirstPause(n: nat): Cycles { ToShiftDr() + ShiftCycles(FromInt(Alternating(n), n)) + Idle([false]) }

  function ToSecondPause(n: nat): Cycles {
    ToShiftDr() + ShiftCycles(FromInt(Alternating(n), n)) + PauseAndResume()
    + ShiftCycles(FromInt(Not(Alternating(n)), n)) + Idle([false])
  }

  lemma PausesLead(c: Chain, open: OpenMap)
    ensures ToFirstPause(Length(c, open)) <= PausedHold(c, open) && ToSecondPause(Length(c, open)) <= PausedHold(c, open)
  {
    var n := Length(c, open);
    var first, second, last := ShiftCycles(FromInt(Alternating(n), n)), ShiftCycles(FromInt(Not(Alternating(n)), n)),
                               ShiftCycles(Reverse(Compose(c, open, map[], None, 0)));
    var rest := Idle([false, false, true, false]);
    assert PauseAndResume() == Idle([false]) + rest;
    hide ShiftCycles, FromInt, Alternating, Not, Compose, Length, Idle;
    Leading(ToShiftDr() + first, Idle([false]), rest, second + PauseAndResume() + last + Exit1ToIdle());
    Trailing(ToShiftDr() + first + PauseAndResume(), second, PauseAndResume(), last, Exit1ToIdle());
    Leading(ToShiftDr() + first + PauseAndResume() + second, Idle([false]), rest, last + Exit1ToIdle());
    Ending(ToShiftDr() + first + PauseAndResume() + second + PauseAndResume(), last, Exit1ToIdle());
  }

  lemma Leading(x: Cycles, a: Cycles, b: Cycles, y: Cycles)
    ensures x + a <= x + (a + b) + y
  {
  }

  lemma Trailing(x: Cycles, a: Cycles, b: Cycles, d: Cycles, e: Cycles)
    ensures x + (a + b + d + e) == x + a + b + d + e
  {
  }

  lemma Ending(x: Cycles, d: Cycles, e: Cycles)
    ensures x + (d + e) == x + d + e
  {
  }

  /** More bits, and into the pause after them, or through it. */
  lemma ThenPauses(w: Wiring<NetState>, world: World, c: Chain, t: Tap<NetState>, front: Cycles, a: Tap<NetState>, fed: Bits)
    returns (b: Tap<NetState>)
    requires Ends(w, c, t, Inputs(front)) == Some(a) && a.state == ShiftDrState && fed != []
    requires Selected(a) && PluggedIn(w, a, NetworkRegister(world))
    ensures b == a.(network := a.network.(cells := ShiftAll(a.network.cells, fed).0))
    ensures Ends(w, c, t, Inputs(front + ShiftCycles(fed) + Idle([false]))) == Some(b.(state := PauseDr))
    ensures Ends(w, c, t, Inputs(front + ShiftCycles(fed) + PauseAndResume())) == Some(b)
  {
    hide Runs, ShiftAll, ShiftCycles, Inputs, Idle, Ends, PluggedIn, Selected;
    b := a.(network := a.network.(cells := ShiftAll(a.network.cells, fed).0));
    var out := b.(state := Exit1Dr);
    ShiftRuns(w, world, c, a, fed, 0);
    RunsEnd(w, c, a, 0, Inputs(ShiftCycles(fed)), out, |fed|);
    EndsOn(w, c, t, front, a, ShiftCycles(fed), out);
    IntoPause(w, c, out);
    EndsOn(w, c, t, front + ShiftCycles(fed), out, Idle([false]), b.(state := PauseDr));
    PauseRuns(w, c, out, 0);
    RunsEnd(w, c, out, 0, Inputs(PauseAndResume()), b, 0);
    EndsOn(w, c, t, front + ShiftCycles(fed), out, PauseAndResume(), b);
  }

  lemma EndsOn(w: Wiring<NetState>, c: Chain, t: Tap<NetState>, x: Cycles, a: Tap<NetState>, y: Cycles, b: Tap<NetState>)
    requires Ends(w, c, t, Inputs(x)) == Some(a) && Ends(w, c, a, Inputs(y)) == Some(b)
    ensures Ends(w, c, t, Inputs(x + y)) == Some(b)
  {
    hide Inputs, Ends;
    InputsJoin(x, y);
    EndsJoin(w, c, t, Inputs(x), a, Inputs(y), b);
  }

  /** The captured network, shifted by the first stretch of the hold scan and then by the second. */
  lemma HeldCells(c: Chain, open: OpenMap, com: Committed, h: Cells, sense: Sense)
    requires Network(c) && InStep(c, open, com, h)
    ensures var n := Length(c, open);
            var mid := ShiftAll(Capture(h, sense, true), FromInt(Alternating(n), n)).0;
            var end := ShiftAll(mid, FromInt(Not(Alternating(n)), n)).0;
            && n >= 1 && |Raw(mid)| == |Raw(end)| == n
            && forall k :: 0 <= k < n ==> Raw(mid)[k] == ((n - 1 - k) % 2 == 0) && Raw(end)[k] != Raw(mid)[k]
  {
    hide Network, Raw, ShiftAll, Capture, Length, InStep, FromInt, Alternating, Not, SibCells.Sized, GoodShape, Structured;
    var n, seen := Length(c, open), Capture(h, sense, true);
    var first, second := FromInt(Alternating(n), n), FromInt(Not(Alternating(n)), n);
    HoldBits(n);
    PositiveLength(c, open);
    LiveThrough(c, open, com, h, sense, []);
    NotShifted(seen);
    RoundHolds(seen, first);
    ShiftedSized(seen, first);
    RoundHolds(ShiftAll(seen, first).0, second);
  }

  /** In the hold scan of the selected network, as it is open: at the first pause the live cells hold 1s and 0s in
      turn and at the second each of them holds the other value. */
  lemma HeldAtBoth(w: Wiring<NetState>, world: World, c: Chain, t: Tap<NetState>, open: OpenMap, com: Committed)
    returns (u: Tap<NetState>, v: Tap<NetState>)
    requires Network(c) && TestRuns.Waits(w, world, t) && InStep(c, open, com, t.network.cells)
    ensures var n := Length(c, open);
            && Ends(w, c, t, Inputs(ToFirstPause(n))) == Some(u) && Ends(w, c, t, Inputs(ToSecondPause(n))) == Some(v)
            && ToFirstPause(n) <= PausedHold(c, open) && ToSecondPause(n) <= PausedHold(c, open)
            && u.state == v.state == PauseDr
            && |Raw(u.network.cells)| == |Raw(v.network.cells)| == n
            && forall k :: 0 <= k < n ==>
                 Raw(u.network.cells)[k] == ((n - 1 - k) % 2 == 0) && Raw(v.network.cells)[k] != Raw(u.network.cells)[k]
  {
    hide Network, Runs, Raw, ShiftAll, Capture, Length, InStep, ShiftCycles, Inputs, Idle, FromInt, Alternating, Not,
         PausedHold, Ends;
    var n, sense := Length(c, open), world(t.network.captures);
    var first, second := FromInt(Alternating(n), n), FromInt(Not(Alternating(n)), n);
    PausesLead(c, open);
    HeldCells(c, open, com, t.network.cells, sense);
    CaptureRuns(w, world, c, t);
    var t1 := t.(network := NetCapture(world, t.network), state := ShiftDrState);
    RunsEnd(w, c, t, 0, Inputs(ToShiftDr()), t1, 0);
    var a := ThenPauses(w, world, c, t, ToShiftDr(), t1, first);
    var b := ThenPauses(w, world, c, t, ToShiftDr() + ShiftCycles(first) + PauseAndResume(), a, second);
    u, v := a.(state := PauseDr), b.(state := PauseDr);
  }

  lemma NotShifted(h: Cells)
    ensures ShiftAll(h, []).0 == h
  {
  }

  lemma ShiftedSized(h: Cells, fed: Bits)
    requires GoodShape(Topo(h)) && Structured(Topo(h)) && SibCells.Sized(h) && |fed| == |Raw(h)|
    ensures Topo(ShiftAll(h, fed).0) == Topo(h) && SibCells.Sized(ShiftAll(h, fed).0)
  {
    hide *;
    ShiftAllEffect(h, fed);
    LoadKeeps(h, Advanced(Raw(h), fed));
  }

  // ---------------------------------------------------------------- written

  /** What is written to an instrument in turn: 1s and 0s alternating, the same inverted, and 0. */
  lemma ValuesAre(width: nat, k: nat)
    requires k < width
    ensures |Values(width)| == 3 && Values(width)[2] == 0
    ensures BitOf(Values(width)[0], k) == (k % 2 == 0) && BitOf(Values(width)[1], k) == (k % 2 == 1)
  {
    var bits := seq(width, i => i % 2 == 0);
    ToIntBit(bits, k);
    XorIntBit(Alternating(width), Pow2(width) - 1, k);
    AllOnesBit(width, k);
  }

  /** One value written and read back. */
  function WriteThenRead(address: seq<string>, value: int): seq<Call> {
    [Call.ITarget(address), Call.IWrite(value, None), Call.IApply,
     Call.ITarget(address), Call.IRead(value, None), Call.IApply]
  }

  /** The commands for one instrument: each of the three values written to the whole of it, applied, read and applied. */
  lemma ReadbackCallsAre(w: Writable)
    ensures var v := Values(w.leaf.inst.width);
            && |v| == 3
            && Calls(ItemsOf(w))
               == WriteThenRead(w.address, v[0]) + WriteThenRead(w.address, v[1]) + WriteThenRead(w.address, v[2])
  {
    hide Alternating, XorInt, Pow2;
    var v, items := Values(w.leaf.inst.width), ItemsOf(w);
    assert items[..2][..1] == items[..1] && items[..1][..0] == [];
    assert Calls(items[..1]) == Calls([]) + ItemCalls(items[0]) == ItemCalls(items[0]);
    assert Calls(items[..2]) == Calls(items[..1]) + ItemCalls(items[1]);
    assert items[..3] == items && Calls(items) == Calls(items[..2]) + ItemCalls(items[2]);
  }
}
