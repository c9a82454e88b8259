/** iRead end to end: over any run, check_reads on the played TDO passes exactly when the addressed
    field of the value captured in phase 2 is the expected one (pdl_verify.py). */
module ReadChecks {
  import opened Wrappers
  import opened Bits
  import opened IclModel
  import opened SibLayout
  import opened SibCells
  import opened SibShift
  import opened SibRound
  import opened SibRetarget
  import opened SibStaging
  import opened SibReach
  import opened PathPlan
  import opened TapFsm
  import opened TapIr
  import opened TapModel
  import opened TapPlay
  import opened PdlSpec
  import opened Retargeting
  import opened RetargetingRuns
  import opened ReadBack
  import opened LiveCells
  import opened SibReads
  import opened ArmReads

  // ---------------------------------------------------------------- one iApply

  lemma {:induction false} BypassingFromSites(c: Chain, open: OpenMap)
    requires forall s :: s in Sites(c, []) && s.isMux ==> s.name !in open
    ensures Bypassing(c, open)
  {
    match c
    case End =>
    case Sib(_, _, rest) => BypassingFromSites(rest, open);
    case Mux(name, selectWidth, _, rest) =>
      assert Site(name, [], true, Pow2(selectWidth)) in Sites(c, []);
      BypassingFromSites(rest, open);
  }

  lemma {:induction false} NothingDownstream(h: Cells, open: OpenMap)
    requires Agrees(h, open) && NoZeroArm(Topo(h)) && Bypassing(Topo(h), open)
    ensures Downstream(h) == 0
  {
    match h
    case CEnd =>
    case CSib(_, _, _, _, rest) => NothingDownstream(rest, open);
    case CMux(_, _, _, _, arms, rest) =>
      ZeroUnclaimed(arms);
      NothingDownstream(rest, open);
  }

  lemma MuxOnWay(c: Chain, l: LeafSite, s: Site)
    requires Valid(c) && l in Leaves(c, []) && s in Sites(c, []) && s.isMux && s.name in PathMap(Way(l))
    ensures l.isMux || InsideArm(c, l)
  {
    var i := OnWay(c, l, s);
    if i < |l.above| {
      assert l.above[i].name == s.name;
    } else {
      var t := LeafSlot(c, [], l);
      SiteKind(c, s, t);
    }
  }

  lemma OutsideBypasses(c: Chain, l: LeafSite)
    requires Valid(c) && l in Leaves(c, []) && !l.isMux && !InsideArm(c, l)
    ensures Bypassing(c, PathMap(Way(l)))
  {
    hide InsideArm;
    forall s | s in Sites(c, []) && s.isMux ensures s.name !in PathMap(Way(l)) {
      if s.name in PathMap(Way(l)) {
        MuxOnWay(c, l, s);
      }
    }
    BypassingFromSites(c, PathMap(Way(l)));
  }

  /** What phase 2 shows for a target outside every ScanMux. */
  lemma SibReadMatches(c: Chain, h: Cells, l: LeafSite, com: Committed, sense: Sense, payload: int, read: Expect)
    requires Network(c) && l in Leaves(c, []) && !l.isMux && !InsideArm(c, l)
    requires InStep(c, PathMap(Way(l)), com, h) && HighOf(read, l.inst.width) < l.inst.width
    ensures var open, seen := PathMap(Way(l)), Capture(h, sense, true);
            var (tdo, mask) := Expectation(c, open, l.step.name, read);
            && Downstream(seen) <= |Raw(seen)| && tdo.Some? && mask.Some?
            && (Matches(ToInt(Emerged(Tapped(seen), Reverse(Compose(c, open, open, Some(l.step.name), payload)))),
                        tdo.value, mask.value)
                <==> FieldMatches(Captured(l.inst, com, sense), read.value, LowOf(read), HighOf(read, l.inst.width)))
  {
    hide Network, GoodShape, Leaves, Sites, PathMap, Matches, FieldMatches, Raw, Compose, Capture, Sized, Valid,
         TargetLayout, Length, InsideArm, ToInt, Live, FieldShown, Expectation, Agrees, Latched, UniqueSlots, Structured;
    NetworkParts(c);
    var open, seen := PathMap(Way(l)), Capture(h, sense, true);
    GoodHasNoZero(c);
    CaptureKeeps(h, sense, true, open, com);
    OutsideBypasses(c, l);
    WayDistinct(c, l);
    StepOpen(l, open);
    NothingDownstream(seen, open);
    var at := WindowComposed(c, [], l, open, 0, 0);
    var w := Window(at, l.inst.width, false);
    SibVerdict(c, h, l, com, sense, payload, read, open, w);
    UntappedField(c, open, l, com, sense, read, w);
  }

  /** What phase 2 shows for a leaf arm of the final ScanMux. */
  lemma ArmReadMatches(c: Chain, h: Cells, l: LeafSite, com: Committed, sense: Sense, payload: int, read: Expect)
    requires Network(c) && l in Leaves(c, []) && l.isMux
    requires InStep(c, PathMap(Way(l)), com, h) && HighOf(read, l.inst.width) < l.inst.width
    ensures var open, seen := PathMap(Way(l)), Capture(h, sense, true);
            var (tdo, mask) := Expectation(c, open, l.step.name, read);
            && Downstream(seen) <= |Raw(seen)| && tdo.Some? && mask.Some?
            && (Matches(ToInt(Emerged(Tapped(seen), Reverse(Compose(c, open, open, Some(l.step.name), payload)))),
                        tdo.value, mask.value)
                <==> FieldMatches(Captured(l.inst, com, sense), read.value, LowOf(read), HighOf(read, l.inst.width)))
  {
    hide Network, GoodShape, Leaves, Sites, PathMap, Matches, FieldMatches, Raw, Compose, Capture, Sized, Shows,
         TargetLayout, Length, InsideArm, ToInt;
    NetworkParts(c);
    var open, seen := PathMap(Way(l)), Capture(h, sense, true);
    GoodHasNoZero(c);
    CaptureKeeps(h, sense, true, open, com);
    CaptureShows(h, com, sense, true);
    WayDistinct(c, l);
    ArmShows(seen, [], l, open, com, sense, 0);
    LayoutIsLive(seen, open);
    ComposeLength(c, open, open, Some(l.step.name), payload);
    var fed := Reverse(Compose(c, open, open, Some(l.step.name), payload));
    TappedHolds(seen, Captured(l.inst, com, sense));
    MaskedArm(Tapped(seen), fed, LowOf(read), HighOf(read, l.inst.width), Captured(l.inst, com, sense), read.value);
  }

  lemma TappedHolds(h: Cells, part: Bits)
    requires Downstream(h) <= |Raw(h)|
    requires var n := |Raw(h)| - Downstream(h); Holds(Raw(h), n - |part|, part)
    ensures |part| <= |Tapped(h)| <= |Raw(h)| && Holds(Tapped(h), |Tapped(h)| - |part|, part)
  {
  }

  // ---------------------------------------------------------------- check_reads

  datatype ReadCheck = ReadCheck(index: nat, expected: int, observed: int, mask: int, passed: bool)

  /** check_reads from shift number `index` on; None where the source raises for a trace that is too
      short. An absent mask compares every bit. */
  function CheckReads(ops: seq<Op>, observed: seq<int>, index: nat): Option<seq<ReadCheck>> {
    if ops == [] then Some([])
    else if !IsShift(ops[0]) then CheckReads(ops[1..], observed, index)
    else if ops[0].tdo.None? then CheckReads(ops[1..], observed, index + 1)
    else if index >= |observed| then None
    else
      var mask := if ops[0].mask.Some? then ops[0].mask.value else -1;
      var here := ReadCheck(index, ops[0].tdo.value, observed[index], mask,
                            Matches(observed[index], ops[0].tdo.value, mask));
      match CheckReads(ops[1..], observed, index + 1)
      case None => None
      case Some(rest) => Some([here] + rest)
  }

  function Shifts(ops: seq<Op>): nat {
    if ops == [] then 0 else (if IsShift(ops[0]) then 1 else 0) + Shifts(ops[1..])
  }

  /** The loop of check_reads. */
  method CheckReadsLoop(ops: seq<Op>, observed: seq<int>) returns (checks: Option<seq<ReadCheck>>)
    ensures checks == CheckReads(ops, observed, 0)
  {
    var out: seq<ReadCheck>, index := [], 0;
    assert ops[0..] == ops;
    if CheckReads(ops, observed, 0).Some? {
      assert out + CheckReads(ops, observed, 0).value == CheckReads(ops, observed, 0).value;
    }
    for k := 0 to |ops|
      invariant CheckReads(ops, observed, 0)
                == match CheckReads(ops[k..], observed, index) case None => None case Some(rest) => Some(out + rest)
    {
      assert ops[k..][1..] == ops[k + 1..];
      if IsShift(ops[k]) {
        if ops[k].tdo.Some? {
          if index >= |observed| {
            return None;
          }
          var mask := if ops[k].mask.Some? then ops[k].mask.value else -1;
          var here := ReadCheck(index, ops[k].tdo.value, observed[index], mask,
                                Matches(observed[index], ops[k].tdo.value, mask));
          ghost var rest := CheckReads(ops[k + 1..], observed, index + 1);
          if rest.Some? {
            assert out + ([here] + rest.value) == out + [here] + rest.value;
          }
          out := out + [here];
        }
        index := index + 1;
      }
    }
    assert out + [] == out;
    return Some(out);
  }

  /** Checking one stretch of a program after another. */
  lemma {:induction false} CheckReadsJoin(a: seq<Op>, b: seq<Op>, observed: seq<int>, index: nat)
    ensures CheckReads(a + b, observed, index)
            == match CheckReads(a, observed, index)
               case None => None
               case Some(x) =>
                 match CheckReads(b, observed, index + Shifts(a))
                 case None => None
                 case Some(y) => Some(x + y)
  {
    hide Matches;
    if a == [] {
      assert a + b == b;
      if CheckReads(b, observed, index).Some? {
        assert [] + CheckReads(b, observed, index).value == CheckReads(b, observed, index).value;
      }
    } else {
      assert (a + b)[0] == a[0] && (a + b)[1..] == a[1..] + b;
      CheckReadsJoin(a[1..], b, observed, index + (if IsShift(a[0]) then 1 else 0));
      var next := index + (if IsShift(a[0]) then 1 else 0);
      if CheckReads(a[1..], observed, next).Some? && CheckReads(b, observed, index + Shifts(a)).Some?
         && IsShift(a[0]) && a[0].tdo.Some? && index < |observed| {
        var x, y := CheckReads(a[1..], observed, next).value, CheckReads(b, observed, index + Shifts(a)).value;
        var mask := if a[0].mask.Some? then a[0].mask.value else -1;
        var here := ReadCheck(index, a[0].tdo.value, observed[index], mask,
                              Matches(observed[index], a[0].tdo.value, mask));
        assert [here] + (x + y) == [here] + x + y;
      }
    }
  }

  /** A trace that goes on is checked the same up to where it was. */
  lemma {:induction false} CheckReadsExtend(ops: seq<Op>, observed: seq<int>, more: seq<int>, index: nat)
    requires index + Shifts(ops) <= |observed|
    ensures CheckReads(ops, observed, index).Some?
    ensures CheckReads(ops, observed + more, index) == CheckReads(ops, observed, index)
  {
    hide Matches;
    if ops != [] {
      CheckReadsExtend(ops[1..], observed, more, index + (if IsShift(ops[0]) then 1 else 0));
    }
  }

  lemma {:induction false} PlayShifts<D>(w: Wiring<D>, t: Tap<D>, ops: seq<Op>)
    requires Play(w, t, ops).Some?
    ensures |Play(w, t, ops).value.1| == Shifts(ops)
    decreases |ops|
  {
    hide Ticks, OpCycles, ToInt;
    if ops != [] {
      PlayShifts(w, Ticks(w, t, OpCycles(t.state, ops[0]).value).value.0, ops[1..]);
    }
  }

  lemma {:induction false} RoundsCheckNothing(c: Chain, prior: OpenMap, rounds: seq<OpenMap>, observed: seq<int>, index: nat)
    ensures CheckReads(RoundOps(c, prior, rounds), observed, index) == Some([])
    ensures Shifts(RoundOps(c, prior, rounds)) == |rounds|
    decreases |rounds|
  {
    hide Matches, Compose, Length, FeedOf;
    if rounds != [] {
      var shift := ShiftDR(Length(c, prior), FeedOf(Compose(c, prior, rounds[0], None, 0)), None, None);
      var rest := RoundOps(c, rounds[0], rounds[1..]);
      RoundsCheckNothing(c, rounds[0], rounds[1..], observed, index + 1);
      ScanChecks(shift, observed, index);
      var none: seq<ReadCheck> := [];
      assert none + none == none;
      CheckReadsJoin(DrOps(shift), rest, observed, index);
      ShiftsJoin(DrOps(shift), rest);
    }
  }

  lemma {:induction false} ShiftsJoin(a: seq<Op>, b: seq<Op>)
    ensures Shifts(a + b) == Shifts(a) + Shifts(b)
  {
    if a == [] {
      assert a + b == b;
    } else {
      assert (a + b)[0] == a[0] && (a + b)[1..] == a[1..] + b;
      ShiftsJoin(a[1..], b);
    }
  }

  /** Checking one scan. */
  lemma ScanChecks(shift: Op, observed: seq<int>, index: nat)
    requires shift.ShiftDR?
    ensures Shifts(DrOps(shift)) == 1
    ensures shift.tdo.None? ==> CheckReads(DrOps(shift), observed, index) == Some([])
    ensures shift.tdo.Some? && shift.mask.Some? && index < |observed| ==>
              CheckReads(DrOps(shift), observed, index)
              == Some([ReadCheck(index, shift.tdo.value, observed[index], shift.mask.value,
                                 Matches(observed[index], shift.tdo.value, shift.mask.value))])
  {
    hide Matches;
    var back := GotoState(RunTestIdle);
    assert DrOps(shift)[1..] == [shift, back] && [shift, back][1..] == [back] && [back][1..] == [];
    assert CheckReads([], observed, index + 1) == Some([]);
    assert CheckReads([back], observed, index + 1) == Some([]);
    assert CheckReads([], observed, index) == Some([]);
    assert Shifts([back]) == 0 && Shifts([shift, back]) == 1;
    if shift.tdo.Some? && shift.mask.Some? && index < |observed| {
      var here := ReadCheck(index, shift.tdo.value, observed[index], shift.mask.value,
                            Matches(observed[index], shift.tdo.value, shift.mask.value));
      assert [here] + [] == [here];
      assert CheckReads([shift, back], observed, index) == Some([here]);
    }
  }

  /** A queued read asks about bits its instrument has. */
  ghost predicate ReadFits(l: LeafSite, p: Pdl) {
    l.inst.name in p.pendingReads ==> HighOf(p.pendingReads[l.inst.name], l.inst.width) < l.inst.width
  }

  /** The read queued for `l` says what phase 2's captured value says. */
  ghost predicate Verdict(check: ReadCheck, l: LeafSite, p: Pdl, sense: Sense) {
    && l.inst.name in p.pendingReads && ReadFits(l, p)
    && (check.passed <==>
          var read := p.pendingReads[l.inst.name];
          FieldMatches(Captured(l.inst, p.committed, sense), read.value, LowOf(read), HighOf(read, l.inst.width)))
  }

  /** The read queued for `l`, inside an arm, says what the cells a select field's width nearer TDI hold. */
  ghost predicate ArmVerdict(check: ReadCheck, c: Chain, l: LeafSite, p: Pdl, sense: Sense) {
    var open := PathMap(Way(l));
    var w := TargetLayout(c, open, l.step.name, 0);
    && l.inst.name in p.pendingReads && ReadFits(l, p)
    && w.Some? && w.value.offset >= 0 && w.value == Window(w.value.offset, l.inst.width, false)
    && 1 <= FieldWidth(c) <= |Live(c, open)| && w.value.offset + l.inst.width <= |Live(c, open)|
    && (check.passed <==> FieldShown(Live(c, open), FieldWidth(c), w.value.offset, p.committed, sense,
                                     p.pendingReads[l.inst.name], l.inst.width))
  }

  /** The last scan of an iApply. */
  ghost function ApplyShift(c: Chain, p: Pdl, l: LeafSite): Op {
    PayloadShift(c, PathMap(Way(l)), l.step.name, PayloadOf(p, l.inst.name, l.inst.direction.WRITE?),
                 if l.inst.name in p.pendingReads then Some(p.pendingReads[l.inst.name]) else None)
  }

  lemma ApplyShape(c: Chain, p: Pdl, l: LeafSite) returns (rounds: seq<OpenMap>)
    requires Network(c) && OpenState(c, p.open) && Apply(c, p).Some?
    requires l in Leaves(c, []) && p.scope == Some(l.inst.name)
    ensures Stage(c, Way(l), p.open) == Some(rounds)
    ensures Apply(c, p).value.ops == RoundOps(c, p.open, rounds) + DrOps(ApplyShift(c, p, l))
  {
    hide Network, Leaves, Compose, Length, FeedOf, Stage, PathMap, Expectation;
    NetworkParts(c);
    var k := ApplyTarget(c, p);
    SameInstSameLeaf(c, k, l);
    rounds := Stage(c, Way(l), p.open).value;
  }

  /** Checking the scans of an iApply is checking its last scan. */
  lemma ApplyIsOneCheck(c: Chain, p: Pdl, l: LeafSite, rounds: seq<OpenMap>, observed: seq<int>, index: nat)
    requires index + |rounds| < |observed|
    requires l.inst.name in p.pendingReads ==> ApplyShift(c, p, l).tdo.Some? && ApplyShift(c, p, l).mask.Some?
    ensures var shift, at := ApplyShift(c, p, l), index + |rounds|;
            CheckReads(RoundOps(c, p.open, rounds) + DrOps(shift), observed, index)
            == Some(if l.inst.name !in p.pendingReads then []
                    else [ReadCheck(at, shift.tdo.value, observed[at], shift.mask.value,
                                    Matches(observed[at], shift.tdo.value, shift.mask.value))])
    ensures Shifts(RoundOps(c, p.open, rounds) + DrOps(ApplyShift(c, p, l))) == |rounds| + 1
  {
    hide Matches, Compose, Length, FeedOf, PathMap, Expectation;
    var shift := ApplyShift(c, p, l);
    RoundsCheckNothing(c, p.open, rounds, observed, index);
    CheckReadsJoin(RoundOps(c, p.open, rounds), DrOps(shift), observed, index);
    ScanChecks(shift, observed, index + |rounds|);
    ShiftsJoin(RoundOps(c, p.open, rounds), DrOps(shift));
    var none: seq<ReadCheck> := [];
    assert none + none == none;
    if l.inst.name in p.pendingReads {
      var at := index + |rounds|;
      var here := [ReadCheck(at, shift.tdo.value, observed[at], shift.mask.value,
                             Matches(observed[at], shift.tdo.value, shift.mask.value))];
      assert none + here == here;
    }
  }

  /** One iApply's checks: none without a queued read; with one, a single check. It passes exactly when
      the addressed field of what phase 2 captured is the expected one, or, inside an arm, when the cells
      that show in its place hold it. `sense` is what the READ instruments see at phase 2's capture. */
  lemma ApplyChecks(w: Wiring<NetState>, world: World, t: Tap<NetState>, c: Chain, p: Pdl, l: LeafSite, before: seq<int>)
    returns (checks: seq<ReadCheck>, sense: Sense)
    requires Network(c) && Tracks(w, world, c, p, t) && Apply(c, p).Some?
    requires l in Leaves(c, []) && p.scope == Some(l.inst.name) && ReadFits(l, p)
    ensures Play(w, t, Apply(c, p).value.ops).Some?
    ensures var a, obs := Apply(c, p).value, Play(w, t, Apply(c, p).value.ops).value.1;
            CheckReads(a.ops, before + obs, |before|) == Some(checks)
    ensures Stage(c, Way(l), p.open).Some?
    ensures sense == world(t.network.captures + |Stage(c, Way(l), p.open).value|)
    ensures l.inst.name !in p.pendingReads ==> checks == []
    ensures l.inst.name in p.pendingReads ==>
              && |checks| == 1
              && (!InsideArm(c, l) ==> Verdict(checks[0], l, p, sense))
              && (InsideArm(c, l) ==> ArmVerdict(checks[0], c, l, p, sense))
  {
    hide Network, Leaves, InsideArm, Play, Capture, Compose, Length, FeedOf, Matches, FieldMatches,
         Stage, PathMap, InStep, Captured, CheckReads, RoundOps, DrOps, PluggedIn, Apply, Expectation, FieldShown, Live,
         TargetLayout, FieldWidth;
    var mid := PlayApply(w, world, t, c, p, l);
    sense := world(mid.network.captures);
    var a, obs := Apply(c, p).value, Play(w, t, Apply(c, p).value.ops).value.1;
    var rounds := ApplyShape(c, p, l);
    var seen, at := before + obs, |before| + |rounds|;
    var shift := ApplyShift(c, p, l);
    PlayShifts(w, t, a.ops);
    if l.inst.name in p.pendingReads {
      var payload := PayloadOf(p, l.inst.name, l.inst.direction.WRITE?);
      if InsideArm(c, l) {
        var at := ArmFieldShown(c, mid.network.cells, l, p.committed, sense, payload, p.pendingReads[l.inst.name]);
      } else if l.isMux {
        ArmReadMatches(c, mid.network.cells, l, p.committed, sense, payload, p.pendingReads[l.inst.name]);
      } else {
        SibReadMatches(c, mid.network.cells, l, p.committed, sense, payload, p.pendingReads[l.inst.name]);
      }
      ApplyShifts(c, p, l, rounds);
      ApplyIsOneCheck(c, p, l, rounds, seen, |before|);
      checks := [ReadCheck(at, shift.tdo.value, seen[at], shift.mask.value,
                           Matches(seen[at], shift.tdo.value, shift.mask.value))];
      assert seen[at] == obs[|obs| - 1];
    } else {
      ApplyShifts(c, p, l, rounds);
      ApplyIsOneCheck(c, p, l, rounds, seen, |before|);
      checks := [];
    }
  }

  lemma ApplyShifts(c: Chain, p: Pdl, l: LeafSite, rounds: seq<OpenMap>)
    ensures Shifts(RoundOps(c, p.open, rounds) + DrOps(ApplyShift(c, p, l))) == |rounds| + 1
  {
    hide Compose, Length, FeedOf, PathMap, Expectation;
    var shift := ApplyShift(c, p, l);
    RoundsCheckNothing(c, p.open, rounds, [], 0);
    ScanChecks(shift, [], 0);
    ShiftsJoin(RoundOps(c, p.open, rounds), DrOps(shift));
  }
}
