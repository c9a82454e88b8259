/** The over-shift probe (sib_overshift.py): open a set of slots, then shift more bits than the
    chain is long and compare what comes back. Played on the network, TDO shows the captured chain
    and then exactly the sentinel; the probe leaves every select as it was, and a WRITE instrument
    that is open across one of its updates holds 0 afterwards. */
module OverShift {
  import opened Wrappers
  import opened Bits
  import opened IclModel
  import opened SibLayout
  import opened SibCells
  import opened SibShift
  import opened SibRound
  import opened SibRetarget
  import opened SibStaging
  import opened SibReach
  import opened PathPlan
  import opened TapFsm
  import opened TapIr
  import opened TapModel
  import opened TapPlay
  import opened PdlSpec
  import opened PdlInterpreter
  import opened Retargeting

  /** The periodic 0011 pattern, first cycle in bit 0. */
  function DefaultSentinel(bits: nat): nat {
    ToInt(seq(bits, i => i / 2 % 2 == 1))
  }

  function ProbeShift(c: Chain, open: OpenMap, sentinel: Bits): Op {
    var tail := Compose(c, open, open, None, 0);
    ShiftDR(|sentinel| + |tail|, ToInt(sentinel + Reverse(tail)), None, None)
  }

  /** The bits fed ahead of the self-restoring tail. */
  function SentinelBits(margin: nat, sentinel: Option<int>): Bits {
    FromInt(if sentinel.Some? then sentinel.value else DefaultSentinel(margin), margin)
  }

  /** None where the source raises: a negative margin or a target naming no slot. */
  ghost function OvershiftOps(c: Chain, target: Path, current: OpenMap, margin: int, sentinel: Option<int>)
    : Option<seq<Op>>
  {
    if margin < 0 then None
    else match Stage(c, target, current)
      case None => None
      case Some(rounds) =>
        Some(RoundOps(c, current, rounds)
             + DrOps(ProbeShift(c, LastOf(current, rounds), SentinelBits(margin, sentinel))))
  }

  method BuildOvershiftOps(c: Chain, target: Path, current: OpenMap, margin: int, sentinel: Option<int>)
    returns (ops: Option<seq<Op>>)
    ensures ops == OvershiftOps(c, target, current, margin, sentinel)
  {
    hide Stage, RoundOps, LastOf, Compose, DrOps, DefaultSentinel;
    if margin < 0 {
      return None;
    }
    var staged := StageOpenSequence(c, target, current);
    if staged.None? {
      return None;
    }
    var scans, open := RoundScans(c, current, staged.value);
    var tail := ComposeBits(c, open, open, None, 0);
    var fed := SentinelBits(margin, sentinel) + Reverse(tail);
    return Some(scans + DrOps(ShiftDR(margin + |tail|, ToInt(fed), None, None)));
  }

  // ---------------------------------------------------------------- what a target-less scan commits

  ghost predicate StaysOpen(c: Chain, inst: string, now: OpenMap, after: OpenMap) {
    exists l :: l in Leaves(c, []) && l.inst.name == inst && Stays(l, now, after)
  }

  /** A scan that delivers nothing still feeds zeros to every instrument whose gate is open before
      and after its update. */
  ghost function Zeroed(c: Chain, now: OpenMap, after: OpenMap, com: Committed): Committed {
    map n | n in InstNames(c) :: if StaysOpen(c, n, now, after) || n !in com then 0 else com[n]
  }

  lemma ZeroedRound(c: Chain, now: OpenMap, after: OpenMap, com: Committed)
    requires Network(c) && Rooted(c, now, now) && Rooted(c, now, after) && Proper(c, now) && Proper(c, after)
    ensures Steppable(c, Round(now, after, None, 0, com, Zeroed(c, now, after, com)), true)
    ensures Commits(c, Round(now, after, None, 0, com, Zeroed(c, now, after, com)))
  {
    hide Sites, Leaves, Valid, UniqueInsts;
    var held := Zeroed(c, now, after, com);
    var r := Round(now, after, None, 0, com, held);
    GoodHasNoZero(c);
    RoundCanBeDone(c, r);
    forall l | l in Leaves(c, []) ensures LeafOk(r, l) {
      LeafNames(c, [], l);
      FromZero(l.inst.width);
      if StaysOpen(c, l.inst.name, now, after) {
        var k :| k in Leaves(c, []) && k.inst.name == l.inst.name && Stays(k, now, after);
        SameInstSameLeaf(c, k, l);
      }
    }
    CommitsFromLeaves(c, r, []);
  }

  ghost function HeldAfter(c: Chain, prior: OpenMap, rounds: seq<OpenMap>, com: Committed): Committed
    decreases |rounds|
  {
    if rounds == [] then com
    else HeldAfter(c, rounds[0], rounds[1..], Zeroed(c, prior, rounds[0], com))
  }

  function RoundShift(c: Chain, prior: OpenMap, next: OpenMap): Op {
    ShiftDR(Length(c, prior), FeedOf(Compose(c, prior, next, None, 0)), None, None)
  }

  /** One of the retargeting scans, played. */
  lemma PlayScan(w: Wiring<NetState>, world: World, t: Tap<NetState>, c: Chain, prior: OpenMap, next: OpenMap,
                 com: Committed)
    requires Network(c) && Ready(w, world, t) && InStep(c, prior, com, t.network.cells)
    requires Rooted(c, prior, prior) && Proper(c, prior) && StagedOne(c, prior, next)
    ensures Play(w, t, DrOps(RoundShift(c, prior, next))).Some?
    ensures var (u, obs) := Play(w, t, DrOps(RoundShift(c, prior, next))).value;
            && Ready(w, world, u) && InStep(c, next, Zeroed(c, prior, next, com), u.network.cells)
            && u.network.captures == t.network.captures + 1 && |obs| == 1
    ensures Rooted(c, next, next) && Proper(c, next)
  {
    hide Network, Agrees, Latched, Sized, Steppable, Commits, Compose, Length, Zeroed, Rooted, Proper, DrOps, FeedOf,
         Capture, Emerged, Tapped, Play;
    var held := Zeroed(c, prior, next, com);
    ZeroedRound(c, prior, next, com);
    PlayRound(w, world, t, c, Round(prior, next, None, 0, com, held), None, None);
  }

  /** The retargeting scans, played. */
  lemma {:induction false} PlayScans(w: Wiring<NetState>, world: World, t: Tap<NetState>, c: Chain,
                                     prior: OpenMap, rounds: seq<OpenMap>, com: Committed)
    requires Network(c) && Ready(w, world, t) && InStep(c, prior, com, t.network.cells)
    requires Rooted(c, prior, prior) && Proper(c, prior) && Staged(c, prior, rounds)
    ensures Play(w, t, RoundOps(c, prior, rounds)).Some?
    ensures var (u, obs) := Play(w, t, RoundOps(c, prior, rounds)).value;
            && Ready(w, world, u)
            && InStep(c, LastOf(prior, rounds), HeldAfter(c, prior, rounds, com), u.network.cells)
            && u.network.captures == t.network.captures + |rounds| && |obs| == |rounds|
    ensures Rooted(c, LastOf(prior, rounds), LastOf(prior, rounds)) && Proper(c, LastOf(prior, rounds))
    decreases |rounds|
  {
    hide Network, InStep, Compose, Length, Zeroed, Rooted, Proper, DrOps, FeedOf, PluggedIn, StagedOne;
    if rounds != [] {
      hide Play;
      var next, rest := rounds[0], rounds[1..];
      assert Before(prior, rounds, 0) == prior && StagedOne(c, prior, next);
      var held, ops := Zeroed(c, prior, next, com), DrOps(RoundShift(c, prior, next));
      PlayScan(w, world, t, c, prior, next, com);
      var (u, obs) := Play(w, t, ops).value;
      forall i | 0 <= i < |rest| ensures rest[i] == rounds[i + 1] && Before(next, rest, i) == Before(prior, rounds, i + 1) {
      }
      PlayScans(w, world, u, c, next, rest, held);
      PlayCompose(w, t, ops, RoundOps(c, next, rest));
    }
  }

  // ---------------------------------------------------------------- the probe itself

  lemma ProbeAdvances(content: Bits, sentinel: Bits, bits: Bits)
    requires |content| == |bits|
    ensures Advanced(content, sentinel + Reverse(bits)) == bits
  {
    ReverseJoin(sentinel, Reverse(bits));
    ReverseTwice(bits);
    hide *;
    AdvancedIs(content, sentinel + Reverse(bits));
    FrontOf(bits, Reverse(sentinel), content);
  }

  lemma AdvancedIs(content: Bits, fed: Bits)
    ensures Advanced(content, fed) == (Reverse(fed) + content)[..|content|]
  {
  }

  lemma FrontOf(bits: Bits, a: Bits, b: Bits)
    ensures (bits + a + b)[..|bits|] == bits
  {
    hide *;
  }

  lemma ReverseJoin(a: Bits, b: Bits)
    ensures Reverse(a + b) == Reverse(b) + Reverse(a)
  {
  }

  /** The probe as a scan of the cells. */
  lemma ScanProbe(h: Cells, r: Round, sense: Sense, sentinel: Bits)
    requires Agrees(h, r.now) && Latched(h, r.com) && Sized(h)
    requires GoodShape(Topo(h)) && Structured(Topo(h))
    requires Steppable(Topo(h), r, true) && Commits(Topo(h), r)
    ensures var fed := sentinel + Reverse(Scan(Topo(h), r));
            var (h', out) := DrScan(h, sense, fed);
            var seen := Capture(h, sense, true);
            && Left(h, h', r) && Downstream(seen) <= |Raw(seen)| && out == Emerged(Tapped(seen), fed)
            && |Raw(seen)| == |Scan(Topo(h), r)|
  {
    var bits := Scan(Topo(h), r);
    var seen := Capture(h, sense, true);
    GoodHasNoZero(Topo(h));
    CaptureKeeps(h, sense, true, r.now, r.com);
    Stepped(seen, r);
    ShiftAllEffect(seen, sentinel + Reverse(bits));
    ProbeAdvances(Raw(seen), sentinel, bits);
  }

  lemma PlayProbe(w: Wiring<NetState>, world: World, t: Tap<NetState>, c: Chain, open: OpenMap, com: Committed,
                  sentinel: Bits)
    requires Network(c) && Ready(w, world, t) && InStep(c, open, com, t.network.cells)
    requires Rooted(c, open, open) && Proper(c, open)
    ensures var seen := Capture(t.network.cells, world(t.network.captures), true);
            && Downstream(seen) <= |Raw(seen)| == Length(c, open)
            && Play(w, t, DrOps(ProbeShift(c, open, sentinel))).Some?
            && var (u, obs) := Play(w, t, DrOps(ProbeShift(c, open, sentinel))).value;
            && Ready(w, world, u) && InStep(c, open, Zeroed(c, open, open, com), u.network.cells)
            && obs == [ToInt(Emerged(Tapped(seen), sentinel + Reverse(Compose(c, open, open, None, 0))))]
  {
    hide Network, Agrees, Latched, Sized, Steppable, Commits, Capture, Update, Play, Zeroed, Rooted, Proper, DrScan,
         Compose, Length, Raw;
    var r := Round(open, open, None, 0, com, Zeroed(c, open, open, com));
    ZeroedRound(c, open, open, com);
    ComposeLength(c, open, open, None, 0);
    PositiveLength(c, open);
    NetworkParts(c);
    ScanProbe(t.network.cells, r, world(t.network.captures), sentinel);
    PlayFed(w, world, t, sentinel + Reverse(Scan(c, r)), None, None);
  }

  /** A whole probe from any state the bookkeeping agrees with, on any network and any set of targets
      that asks no ScanMux for two arms (`plan` holds them all): it plays, the selects are left as
      the last staged round put them, and the last observation is the captured chain up to the tap
      followed by what was fed. */
  lemma OvershiftPlays(w: Wiring<NetState>, world: World, t: Tap<NetState>, c: Chain, target: Path,
                       current: OpenMap, plan: OpenMap, com: Committed, margin: nat, sentinel: Option<int>)
    returns (mid: Tap<NetState>, open: OpenMap)
    requires Network(c) && Ready(w, world, t) && InStep(c, current, com, t.network.cells)
    requires Rooted(c, current, current) && Proper(c, current)
    requires Follows(c, target, plan) && Proper(c, plan)
    ensures Stage(c, target, current).Some? && open == LastOf(current, Stage(c, target, current).value)
    ensures OvershiftOps(c, target, current, margin, sentinel).Some?
    ensures Completed(c, target, current, open) && Rooted(c, open, open) && Proper(c, open)
    ensures var rounds := Stage(c, target, current).value;
            var seen := Capture(mid.network.cells, world(mid.network.captures), true);
            var result := Play(w, t, OvershiftOps(c, target, current, margin, sentinel).value);
            var held := HeldAfter(c, current, rounds, com);
            && InStep(c, open, held, mid.network.cells)
            && result.Some?
            && var (u, obs) := result.value;
            && Ready(w, world, u) && InStep(c, open, Zeroed(c, open, open, held), u.network.cells)
            && Downstream(seen) <= |Raw(seen)| == Length(c, open)
            && |obs| == |rounds| + 1
            && obs[|rounds|] == ToInt(Emerged(Tapped(seen), SentinelBits(margin, sentinel)
                                                            + Reverse(Compose(c, open, open, None, 0))))
  {
    hide Network, Agrees, Latched, Sized, Leaves, Sites, Stage, Play, Capture, Compose, Length, Zeroed,
         RoundOps, ProbeShift, SentinelBits, HeldAfter;
    NetworkParts(c);
    var staged := Stage(c, target, current);
    assert staged.Some? && Staged(c, current, staged.value) by {
      if target == [] {
        StageNothing(c, current);
      } else {
        StagingIsSound(c, target, current, plan, staged);
      }
    }
    var rounds, bits := staged.value, SentinelBits(margin, sentinel);
    StagedIsCompleted(c, target, current, plan);
    open := LastOf(current, rounds);
    PlayScans(w, world, t, c, current, rounds, com);
    var (m, seen) := Play(w, t, RoundOps(c, current, rounds)).value;
    mid := m;
    PlayProbe(w, world, m, c, open, HeldAfter(c, current, rounds, com), bits);
    PlayCompose(w, t, RoundOps(c, current, rounds), DrOps(ProbeShift(c, open, bits)));
  }

  /** The open set after staging: every target carries its value, and unless they all did already
      nothing but the targets and their ancestors is open. */
  ghost predicate Completed(c: Chain, target: Path, current: OpenMap, open: OpenMap) {
    match MarkAll(c, target, map[])
    case None => false
    case Some(m) => Satisfied(m, open) && Names(target) <= open.Keys && (open == current || open == Whole(m))
  }

  lemma StagedIsCompleted(c: Chain, target: Path, current: OpenMap, plan: OpenMap)
    requires UniqueSlots(c) && Structured(c) && Follows(c, target, plan) && Proper(c, plan)
    requires Stage(c, target, current).Some?
    ensures Completed(c, target, current, LastOf(current, Stage(c, target, current).value))
  {
    hide Sites, UniqueSlots, Structured, SlotPath, WellMarked, Follows, Proper;
    if target == [] {
      StageNothing(c, current);
      assert Whole(map[]) == map[];
    } else {
      StagingIsSound(c, target, current, plan, Stage(c, target, current));
    }
  }

  lemma StageNothing(c: Chain, current: OpenMap)
    ensures Stage(c, [], current) == Some([map[]]) && Staged(c, current, [map[]])
  {
  }

  // ---------------------------------------------------------------- SIB-only networks

  /** On a network of SIBs the probe shows the whole captured chain, last cell first, and then
      exactly the sentinel. */
  lemma ProbeShows(seen: Cells, sentinel: Bits, tail: Bits)
    requires SibOnly(Topo(seen)) && |tail| == |Raw(seen)|
    ensures Downstream(seen) == 0
    ensures Emerged(Tapped(seen), sentinel + Reverse(tail)) == Reverse(Raw(seen)) + sentinel
  {
    SibOnlySeen(seen);
    var n := |Raw(seen)|;
    assert Tapped(seen) == Raw(seen);
    assert (Reverse(Raw(seen)) + (sentinel + Reverse(tail)))[..|sentinel| + n] == Reverse(Raw(seen)) + sentinel;
  }

  function AllOpen(names: set<string>): OpenMap {
    map n | n in names :: 1
  }

  lemma {:induction false} SibsAskForOne(c: Chain, above: Path, s: Site)
    requires SibOnly(c) && s in Sites(c, above)
    ensures !s.isMux
    ensures forall i :: |above| <= i < |s.above| ==> s.above[i].name in SlotNames(c) && s.above[i].value == 1
  {
    SiteNames(c, above, s);
    match c
    case Sib(name, gate, rest) =>
      var here := above + [Step(name, 1)];
      if s in GateSites(gate, here) {
        SiteNames(gate.chain, here, s);
        SibsAskForOne(gate.chain, here, s);
        assert s.above[|above|] == here[|above|] by {
          assert s.above[..|here|][|above|] == here[|above|];
        }
      } else if s in Sites(rest, above) {
        SibsAskForOne(rest, above, s);
      }
  }

  lemma {:induction false} SibSite(c: Chain, above: Path, name: string) returns (s: Site)
    requires SibOnly(c) && name in SlotNames(c)
    ensures s in Sites(c, above) && s.name == name
  {
    if c.name == name {
      s := Site(name, above, false, 2);
    } else if name in GateSlots(c.gate) {
      s := SibSite(c.gate.chain, above + [Step(c.name, 1)], name);
    } else {
      s := SibSite(c.rest, above, name);
    }
  }

  /** Any targets that name slots of a SIB tree can be staged together. */
  lemma SibTargetsFollow(c: Chain, target: Path)
    requires SibOnly(c) && forall k :: 0 <= k < |target| ==> target[k].name in SlotNames(c)
    ensures Follows(c, target, AllOpen(SlotNames(c))) && Proper(c, AllOpen(SlotNames(c)))
  {
    var plan := AllOpen(SlotNames(c));
    forall k | 0 <= k < |target| ensures FollowsOne(c, target[k], plan) {
      var s := SibSite(c, [], target[k].name);
      SibsAskForOne(c, [], s);
      SiteNames(c, [], s);
      assert Opened(plan, s.above + [Step(s.name, 1)]);
    }
    forall s | s in Sites(c, []) && s.name in plan ensures !s.isMux {
      SibsAskForOne(c, [], s);
    }
  }

  /** The over-shift probe on a SIB-only network: the first cycles show the captured chain, one per
      predicted bit, the rest show the sentinel, and the selects are the completed target's. */
  lemma OvershiftShowsChainThenSentinel(
    w: Wiring<NetState>, world: World, t: Tap<NetState>, c: Chain, target: Path, current: OpenMap,
    com: Committed, margin: nat, sentinel: Option<int>)
    returns (mid: Tap<NetState>, open: OpenMap)
    requires Network(c) && SibOnly(c) && Ready(w, world, t) && InStep(c, current, com, t.network.cells)
    requires Rooted(c, current, current) && Proper(c, current)
    requires forall k :: 0 <= k < |target| ==> target[k].name in SlotNames(c)
    ensures OvershiftOps(c, target, current, margin, sentinel).Some?
    ensures var result := Play(w, t, OvershiftOps(c, target, current, margin, sentinel).value);
            var seen := Raw(Capture(mid.network.cells, world(mid.network.captures), true));
            && result.Some? && Agrees(mid.network.cells, open) && |seen| == Length(c, open)
            && var (u, obs) := result.value;
            && Ready(w, world, u) && Topo(u.network.cells) == c && Agrees(u.network.cells, open)
            && obs != [] && obs[|obs| - 1] == ToInt(Reverse(seen) + SentinelBits(margin, sentinel))
    ensures Completed(c, target, current, open) && Rooted(c, open, open)
  {
    hide Network, Agrees, Latched, Sized, Leaves, Sites, Stage, Play, Capture, Compose, Length, Zeroed,
         OvershiftOps, SentinelBits, HeldAfter, Raw, Tapped, Downstream, Emerged, Follows, Completed, Rooted, Proper;
    SibTargetsFollow(c, target);
    mid, open := OvershiftPlays(w, world, t, c, target, current, AllOpen(SlotNames(c)), com, margin, sentinel);
    var seen := Capture(mid.network.cells, world(mid.network.captures), true);
    ComposeLength(c, open, open, None, 0);
    CapturedTopo(mid.network.cells, world(mid.network.captures));
    ProbeShows(seen, SentinelBits(margin, sentinel), Compose(c, open, open, None, 0));
  }

  lemma CapturedTopo(h: Cells, sense: Sense)
    requires Sized(h)
    ensures Topo(Capture(h, sense, true)) == Topo(h)
  {
    CaptureKeeps(h, sense, true, map[], map[]);
  }
}
