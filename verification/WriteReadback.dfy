/** The write and readback tests (tap_integrity.py): every WRITE instrument written and read back, its
    reads checked against both models. They are borne out exactly when every instrument is readable. */
module WriteReadback {
  import opened Wrappers
  import opened Bits
  import opened IclModel
  import opened SibCells
  import opened SibRound
  import opened SibRetarget
  import opened SibStaging
  import opened PathPlan
  import opened TapIr
  import opened TapModel
  import opened TapPlay
  import opened PdlSpec
  import opened Retargeting
  import opened RetargetingRuns
  import opened ReadBack
  import opened ReadChecks
  import opened LiveCells
  import opened SibReads
  import opened ArmReads
  import opened RunResults
  import opened ReadProbes
  import opened ReadExactness
  import opened IntegrityProbes

  /** One value written to one instrument and read back. */
  datatype Item = Item(leaf: LeafSite, address: seq<string>, value: int)

  function ItemCalls(item: Item): seq<Call> { Probe(item.address, item.value, item.value, None) }

  function Calls(items: seq<Item>): seq<Call>
    decreases |items|
  {
    if items == [] then [] else Calls(items[..|items| - 1]) + ItemCalls(items[|items| - 1])
  }

  /** The commands for more items. */
  lemma {:induction false} CallsJoin(a: seq<Item>, b: seq<Item>)
    ensures Calls(a + b) == Calls(a) + Calls(b)
    decreases |b|
  {
    hide ItemCalls;
    if b == [] {
      assert a + b == a && Calls(a) + [] == Calls(a);
    } else {
      var front, last := b[..|b| - 1], b[|b| - 1];
      assert (a + b)[..|a + b| - 1] == a + front;
      CallsJoin(a, front);
      assert Calls(a) + Calls(front) + ItemCalls(last) == Calls(a) + (Calls(front) + ItemCalls(last));
    }
  }

  /** Bit 0 set and every other bit after it. */
  function Alternating(width: nat): nat {
    ToInt(seq(width, k => k % 2 == 0))
  }

  /** What is written to an instrument in turn. */
  function Values(width: nat): seq<int> {
    [Alternating(width), XorInt(Alternating(width), Pow2(width) - 1), 0]
  }

  /** A WRITE instrument and its address. */
  datatype Writable = Writable(leaf: LeafSite, address: seq<string>)

  /** Every value written to every instrument, in order. */
  function Items(writes: seq<Writable>): seq<Item> {
    if writes == [] then []
    else Items(writes[..|writes| - 1]) + ItemsOf(writes[|writes| - 1])
  }

  function ItemsOf(w: Writable): seq<Item> {
    var values := Values(w.leaf.inst.width);
    seq(|values|, i requires 0 <= i < |values| => Item(w.leaf, w.address, values[i]))
  }

  /** A WRITE instrument of the network, and an address that names it. */
  ghost predicate Written(c: Chain, root: ModuleInstance, l: LeafSite, address: seq<string>) {
    Named(c, root, l, address) && l.inst.direction.WRITE?
  }

  /** Reads of the instrument tell what it holds: it is not inside an arm, or has no bit to read. */
  ghost predicate Readable(c: Chain, l: LeafSite) { !InsideArm(c, l) || l.inst.width == 0 }

  ghost predicate Addressed(c: Chain, root: ModuleInstance, item: Item) {
    Written(c, root, item.leaf, item.address) && Readable(c, item.leaf)
  }

  ghost predicate AllPassed(checks: seq<ReadCheck>) {
    forall i :: 0 <= i < |checks| ==> checks[i].passed
  }

  // ---------------------------------------------------------------- the program builds and plays

  /** Between two items: the run so far plays, its checks can be made, and no read is queued. */
  ghost predicate Between(w: Wiring<NetState>, world: World, t: Tap<NetState>, c: Chain, root: ModuleInstance,
                          items: seq<Item>)
  {
    && Run(c, root, Calls(items)).Some?
    && var p := Run(c, root, Calls(items)).value;
       p.pendingReads == map[] && PlaysTo(w, world, t, c, p) && ChecksOf(w, t, p).Some?
  }

  /** One item adds one check to those before it, made with the written value committed. */
  lemma BlockChecks(w: Wiring<NetState>, world: World, t: Tap<NetState>, c: Chain, root: ModuleInstance,
                    items: seq<Item>, item: Item) returns (check: ReadCheck, asking: Pdl, n: nat)
    requires Network(c) && Between(w, world, t, c, root, items) && Written(c, root, item.leaf, item.address)
    ensures Between(w, world, t, c, root, items + [item])
    ensures var p, q := Run(c, root, Calls(items)).value, Run(c, root, Calls(items + [item])).value;
            && ChecksOf(w, t, q) == Some(ChecksOf(w, t, p).value + [check])
            && q.committed == asking.committed == p.committed[item.leaf.inst.name := item.value]
            && asking.pendingReads == map[item.leaf.inst.name := Expect(item.value, None)]
            && Says(check, c, item.leaf, asking, world(n))
  {
    hide Network, Leaves, Play, CheckReads, TapOps, PlaysTo, Run, Says, InsideArm, Apply;
    assert (items + [item])[..|items|] == items;
    check, n := ProbeChecks(w, world, t, c, root, Calls(items), item.leaf, item.address, item.value, item.value, None, None);
    asking := Run(c, root, Calls(items) + ItemCalls(item)[..5]).value;
  }

  lemma NothingBetween(w: Wiring<NetState>, world: World, t: Tap<NetState>, c: Chain, root: ModuleInstance)
    requires Tracks(w, world, c, NewPdl, t)
    ensures Between(w, world, t, c, root, []) && ChecksOf(w, t, Run(c, root, Calls([])).value) == Some([])
  {
    NothingRun(w, world, t, c, root);
  }

  /** Every write and readback program builds and plays, whatever its reads say. */
  lemma {:induction false} ReadbackRuns(w: Wiring<NetState>, world: World, t: Tap<NetState>, c: Chain,
                                        root: ModuleInstance, items: seq<Item>)
    requires Network(c) && Tracks(w, world, c, NewPdl, t)
    requires forall i :: 0 <= i < |items| ==> Written(c, root, items[i].leaf, items[i].address)
    ensures Between(w, world, t, c, root, items)
    decreases |items|
  {
    hide *;
    if items == [] {
      NothingBetween(w, world, t, c, root);
    } else {
      var n := |items| - 1;
      ReadbackRuns(w, world, t, c, root, items[..n]);
      OneMoreBetween(w, world, t, c, root, items[..n], items[n]);
      assert items[..n] + [items[n]] == items;
    }
  }

  lemma OneMoreBetween(w: Wiring<NetState>, world: World, t: Tap<NetState>, c: Chain, root: ModuleInstance,
                       items: seq<Item>, item: Item)
    requires Network(c) && Between(w, world, t, c, root, items) && Written(c, root, item.leaf, item.address)
    ensures Between(w, world, t, c, root, items + [item])
  {
    hide *;
    var check, asking, n := BlockChecks(w, world, t, c, root, items, item);
  }

  /** The checks of a longer program begin with those of a shorter one. */
  lemma {:induction false} ChecksGrow(w: Wiring<NetState>, world: World, t: Tap<NetState>, c: Chain,
                                      root: ModuleInstance, items: seq<Item>, k: nat)
    requires Network(c) && Tracks(w, world, c, NewPdl, t) && k <= |items|
    requires forall i :: 0 <= i < |items| ==> Written(c, root, items[i].leaf, items[i].address)
    ensures Between(w, world, t, c, root, items) && Between(w, world, t, c, root, items[..k])
    ensures ChecksOf(w, t, Run(c, root, Calls(items[..k])).value).value
            <= ChecksOf(w, t, Run(c, root, Calls(items)).value).value
    decreases |items|
  {
    hide Network, Written, Tracks, PlaysTo, Run, Calls, ChecksOf;
    ReadbackRuns(w, world, t, c, root, items);
    ReadbackRuns(w, world, t, c, root, items[..k]);
    if k == |items| {
      assert items[..k] == items;
    } else {
      var n := |items| - 1;
      assert items[..n][..k] == items[..k];
      ChecksGrow(w, world, t, c, root, items[..n], k);
      var check, asking, i := BlockChecks(w, world, t, c, root, items[..n], items[n]);
      assert items[..n] + [items[n]] == items;
    }
  }

  // ---------------------------------------------------------------- readable instruments

  lemma CommittedMatches(inst: Instrument, value: int)
    ensures |FromInt(value, inst.width)| == inst.width
    ensures FieldMatches(FromInt(value, inst.width), value, 0, inst.width - 1)
  {
    forall k: nat | 0 <= k <= inst.width - 1 ensures FromInt(value, inst.width)[k] == BitOf(value, k) {
      FromIntBit(value, inst.width, k);
    }
  }

  /** A readable instrument reads back what was written. */
  lemma ReadableReadsBack(check: ReadCheck, c: Chain, l: LeafSite, p: Pdl, sense: Sense, value: int)
    requires Says(check, c, l, p, sense) && Readable(c, l) && l.inst.direction.WRITE?
    requires p.pendingReads == map[l.inst.name := Expect(value, None)]
    requires l.inst.name in p.committed && p.committed[l.inst.name] == value
    ensures check.passed
  {
    hide InsideArm, Live, FieldWidth, TargetLayout;
    CommittedMatches(l.inst, value);
  }

  /** Played from a closed network every read of readable instruments passes. */
  lemma {:induction false} ReadbackPasses(w: Wiring<NetState>, world: World, t: Tap<NetState>, c: Chain,
                                          root: ModuleInstance, items: seq<Item>)
    requires Network(c) && Tracks(w, world, c, NewPdl, t)
    requires forall i :: 0 <= i < |items| ==> Addressed(c, root, items[i])
    ensures Between(w, world, t, c, root, items)
    ensures AllPassed(ChecksOf(w, t, Run(c, root, Calls(items)).value).value)
    decreases |items|
  {
    hide Network, Written, ItemCalls, Tracks, PlaysTo, Between, Readable, Says, ChecksOf;
    if items == [] {
      NothingBetween(w, world, t, c, root);
    } else {
      var n := |items| - 1;
      ReadbackPasses(w, world, t, c, root, items[..n]);
      var check, asking, k := BlockChecks(w, world, t, c, root, items[..n], items[n]);
      assert items[..n] + [items[n]] == items;
      IsWrite(c, root, items[n]);
      ReadableReadsBack(check, c, items[n].leaf, asking, world(k), items[n].value);
      BetweenChecks(w, world, t, c, root, items);
    }
  }

  lemma IsWrite(c: Chain, root: ModuleInstance, item: Item)
    requires Written(c, root, item.leaf, item.address)
    ensures item.leaf.inst.direction.WRITE?
  {
  }

  lemma BetweenChecks(w: Wiring<NetState>, world: World, t: Tap<NetState>, c: Chain, root: ModuleInstance, items: seq<Item>)
    requires Between(w, world, t, c, root, items)
    ensures Run(c, root, Calls(items)).Some? && Play(w, t, TapOps(Run(c, root, Calls(items)).value.program)).Some?
    ensures ChecksOf(w, t, Run(c, root, Calls(items)).value).Some?
  {
  }

  // ---------------------------------------------------------------- instruments inside an arm

  /** Two values that differ in bit 0, written one after the other inside an arm to a network that shows the
      same at every capture: not both readbacks pass, for the cell that shows in place of bit 0 is another. */
  lemma PairFails(w: Wiring<NetState>, world: World, t: Tap<NetState>, c: Chain, root: ModuleInstance,
                  items: seq<Item>, first: Item, second: Item)
    requires Network(c) && Between(w, world, t, c, root, items) && Steady(world)
    requires Written(c, root, first.leaf, first.address) && first.leaf == second.leaf && first.address == second.address
    requires InsideArm(c, first.leaf) && first.leaf.inst.width >= 1 && BitOf(first.value, 0) != BitOf(second.value, 0)
    ensures Between(w, world, t, c, root, items + [first] + [second])
    ensures !AllPassed(ChecksOf(w, t, Run(c, root, Calls(items + [first] + [second])).value).value)
  {
    hide Network, Written, Between, Says, ChecksOf, Run, InsideArm, BitOf, Calls;
    var check, asking, n := BlockChecks(w, world, t, c, root, items, first);
    var check', asking', n' := BlockChecks(w, world, t, c, root, items + [first], second);
    BetweenChecks(w, world, t, c, root, items);
    BetweenChecks(w, world, t, c, root, items + [first]);
    BetweenChecks(w, world, t, c, root, items + [first] + [second]);
    IsLeaf(c, root, first);
    assert world(n) == world(n');
    CannotBoth(c, first.leaf, asking, asking', world(n), first.value, second.value, check, check');
    var checks := ChecksOf(w, t, Run(c, root, Calls(items + [first] + [second])).value).value;
    var before := ChecksOf(w, t, Run(c, root, Calls(items)).value).value;
    assert checks == before + [check] + [check'];
    assert checks[|before|] == check && checks[|before| + 1] == check';
  }

  lemma IsLeaf(c: Chain, root: ModuleInstance, item: Item)
    requires Written(c, root, item.leaf, item.address)
    ensures item.leaf in Leaves(c, []) && item.leaf.inst.direction.WRITE?
  {
  }

  /** The network shows the same at every capture. */
  ghost predicate Steady(world: World) { forall n: nat :: world(n) == world(0) }

  lemma CannotBoth(c: Chain, l: LeafSite, p: Pdl, p': Pdl, sense: Sense, value: int, value': int,
                   check: ReadCheck, check': ReadCheck)
    requires Network(c) && l in Leaves(c, []) && l.inst.direction.WRITE? && InsideArm(c, l) && l.inst.width >= 1
    requires Says(check, c, l, p, sense) && Says(check', c, l, p', sense) && BitOf(value, 0) != BitOf(value', 0)
    requires p.pendingReads == map[l.inst.name := Expect(value, None)]
    requires p'.pendingReads == map[l.inst.name := Expect(value', None)]
    requires p'.committed == p.committed[l.inst.name := value']
    ensures !(check.passed && check'.passed)
  {
    hide Network, Leaves, InsideArm, Live, FieldWidth, TargetLayout, PathMap, Captured, InFinalArm, EndsInSelects, BitOf,
         Holds1, ShownCell;
    NetworkParts(c);
    InsideIsFinal(c, l);
    FinalArmLeaf(c, [], l);
    var open := PathMap(Way(l));
    var (cells, m, at) := (Live(c, open), FieldWidth(c), TargetLayout(c, open, l.step.name, 0).value.offset);
    WayDistinct(c, l);
    StepOpen(l, open);
    ArmEndsInSelects(c, [], l, open);
    forall i: LeafSite | i in Leaves(c, []) && i.inst != l.inst
      ensures Captured(i.inst, p.committed, sense) == Captured(i.inst, p'.committed, sense)
    {
      OtherHeld(c, l, i, p.committed, value', sense);
    }
    ShownBelow(c, open, l, at, m, 0, 0, p.committed, sense, p'.committed, sense);
    if check.passed && check'.passed {
      BothShown(cells, m, at, p.committed, sense, Expect(value, None), l.inst.width);
      BothShown(cells, m, at, p'.committed, sense, Expect(value', None), l.inst.width);
    }
  }

  lemma BothShown(cells: seq<LiveCell>, m: nat, at: nat, com: Committed, sense: Sense, read: Expect, width: nat)
    requires m <= |cells| && at + width <= |cells| && read.field.None? && width >= 1
    requires FieldShown(cells, m, at, com, sense, read, width)
    ensures Holds1(ShownCell(cells, m, at + 0), com, sense) == BitOf(read.value, 0)
  {
    assert BitShown(cells, m, at, com, sense, read, 0);
  }

  lemma OtherHeld(c: Chain, l: LeafSite, i: LeafSite, com: map<string, int>, value: int, sense: Sense)
    requires Network(c) && l in Leaves(c, []) && i in Leaves(c, []) && i.inst != l.inst
    ensures Captured(i.inst, com, sense) == Captured(i.inst, com[l.inst.name := value], sense)
  {
    NetworkParts(c);
    if i.inst.name == l.inst.name {
      SameInstSameLeaf(c, i, l);
    }
  }

  lemma {:induction false} ItemsPrefix(writes: seq<Writable>, i: nat)
    requires i < |writes|
    ensures Items(writes[..i]) + ItemsOf(writes[i]) <= Items(writes)
    decreases |writes|
  {
    hide ItemsOf;
    var front := writes[..|writes| - 1];
    if i == |front| {
    } else {
      assert front[..i] == writes[..i];
      ItemsPrefix(front, i);
    }
  }

  lemma {:induction false} ItemsAreOf(writes: seq<Writable>, k: nat) returns (i: nat)
    requires k < |Items(writes)|
    ensures i < |writes| && Items(writes)[k].leaf == writes[i].leaf && Items(writes)[k].address == writes[i].address
    decreases |writes|
  {
    hide ItemsOf;
    var front, last := writes[..|writes| - 1], writes[|writes| - 1];
    assert Items(writes) == Items(front) + ItemsOf(last);
    hide Items;
    if k < |Items(front)| {
      i := ItemsAreOf(front, k);
    } else {
      i := |front|;
      ItemOfWrite(last, k - |Items(front)|);
    }
  }

  lemma ItemOfWrite(w: Writable, k: nat)
    requires k < |ItemsOf(w)|
    ensures ItemsOf(w)[k].leaf == w.leaf && ItemsOf(w)[k].address == w.address
  {
    hide Values;
  }

  /** The first two values of a turn differ in bit 0. */
  lemma ValuesDiffer(width: nat)
    requires width >= 1
    ensures |Values(width)| == 3 && BitOf(Values(width)[0], 0) != BitOf(Values(width)[1], 0)
  {
    XorIntBit(Alternating(width), Pow2(width) - 1, 0);
    AllOnesBit(width, 0);
  }

  /** One instrument inside an arm is enough for a failed readback. */
  lemma ArmReadbackFails(w: Wiring<NetState>, world: World, t: Tap<NetState>, c: Chain, root: ModuleInstance,
                         writes: seq<Writable>, i: nat)
    requires Network(c) && Tracks(w, world, c, NewPdl, t) && Steady(world) && i < |writes|
    requires forall j :: 0 <= j < |writes| ==> Written(c, root, writes[j].leaf, writes[j].address)
    requires !Readable(c, writes[i].leaf)
    ensures Between(w, world, t, c, root, Items(writes))
    ensures !AllPassed(ChecksOf(w, t, Run(c, root, Calls(Items(writes))).value).value)
  {
    hide Network, Tracks, Between, Written, InsideArm, ChecksOf, Run, Calls, Steady, Values, BitOf;
    var items, before, turn := Items(writes), Items(writes[..i]), ItemsOf(writes[i]);
    ItemsWritten(c, root, writes);
    ItemsPrefix(writes, i);
    ValuesDiffer(writes[i].leaf.inst.width);
    var pair := before + [turn[0]] + [turn[1]];
    assert pair == items[..|before| + 2] && before == items[..|before|];
    ReadbackRuns(w, world, t, c, root, before);
    PairFails(w, world, t, c, root, before, turn[0], turn[1]);
    ChecksGrow(w, world, t, c, root, items, |before| + 2);
    BetweenChecks(w, world, t, c, root, items);
    BetweenChecks(w, world, t, c, root, pair);
  }

  lemma ItemsWritten(c: Chain, root: ModuleInstance, writes: seq<Writable>)
    requires forall j :: 0 <= j < |writes| ==> Written(c, root, writes[j].leaf, writes[j].address)
    ensures forall k :: 0 <= k < |Items(writes)| ==> Written(c, root, Items(writes)[k].leaf, Items(writes)[k].address)
  {
    hide Written, Items;
    forall k | 0 <= k < |Items(writes)| ensures Written(c, root, Items(writes)[k].leaf, Items(writes)[k].address) {
      var i := ItemsAreOf(writes, k);
    }
  }

  /** For a network that shows the same at every capture: every readback passes exactly when every instrument
      written is readable. */
  lemma ReadbackPassesIff(w: Wiring<NetState>, world: World, t: Tap<NetState>, c: Chain, root: ModuleInstance,
                          writes: seq<Writable>)
    requires Network(c) && Tracks(w, world, c, NewPdl, t) && Steady(world)
    requires forall j :: 0 <= j < |writes| ==> Written(c, root, writes[j].leaf, writes[j].address)
    ensures Between(w, world, t, c, root, Items(writes))
    ensures AllPassed(ChecksOf(w, t, Run(c, root, Calls(Items(writes))).value).value)
            <==> forall j :: 0 <= j < |writes| ==> Readable(c, writes[j].leaf)
  {
    hide Network, Tracks, Between, Written, Readable, ChecksOf, Run, Calls, Steady, Items;
    ItemsWritten(c, root, writes);
    if forall j :: 0 <= j < |writes| ==> Readable(c, writes[j].leaf) {
      forall k | 0 <= k < |Items(writes)| ensures Addressed(c, root, Items(writes)[k]) {
        var i := ItemsAreOf(writes, k);
      }
      ReadbackPasses(w, world, t, c, root, Items(writes));
    } else {
      var i :| 0 <= i < |writes| && !Readable(c, writes[i].leaf);
      ArmReadbackFails(w, world, t, c, root, writes, i);
    }
    BetweenChecks(w, world, t, c, root, Items(writes));
  }

  // ---------------------------------------------------------------- _check_reads on two models

  /** Every read's masked bits agree in the two models and show what the read expects. */
  ghost predicate SelfCheck(ops: seq<Op>, low: seq<int>, high: seq<int>) {
    var (cl, ch) := (CheckReads(ops, low, 0), CheckReads(ops, high, 0));
    && cl.Some? && ch.Some? && |cl.value| == |ch.value|
    && forall i :: 0 <= i < |cl.value| ==>
         && cl.value[i].index == ch.value[i].index && cl.value[i].mask == ch.value[i].mask
         && AgreeUnder(cl.value[i].observed, ch.value[i].observed, cl.value[i].mask)
         && AgreeUnder(cl.value[i].observed, cl.value[i].expected, cl.value[i].mask)
  }

  lemma {:induction false} ChecksAreChecks(ops: seq<Op>, low: seq<int>, high: seq<int>, index: nat)
    requires CheckReads(ops, low, index).Some? && CheckReads(ops, high, index).Some?
    ensures var (cl, ch) := (CheckReads(ops, low, index).value, CheckReads(ops, high, index).value);
            && |cl| == |ch|
            && forall i :: 0 <= i < |cl| ==>
                 && cl[i].index == ch[i].index && cl[i].mask == ch[i].mask && cl[i].expected == ch[i].expected
                 && (cl[i].passed <==> Matches(cl[i].observed, cl[i].expected, cl[i].mask))
                 && (ch[i].passed <==> Matches(ch[i].observed, ch[i].expected, ch[i].mask))
    decreases |ops|
  {
    hide Matches;
    if ops != [] {
      ChecksAreChecks(ops[1..], low, high, if IsShift(ops[0]) then index + 1 else index);
    }
  }

  /** The self-check never fails: for every write and readback program played on the two models, whatever
      each of them shows at its captures. */
  lemma SelfCheckHolds(wl: Wiring<NetState>, wh: Wiring<NetState>, low: World, high: World, tl: Tap<NetState>,
                       th: Tap<NetState>, c: Chain, root: ModuleInstance, items: seq<Item>)
    requires Network(c) && Tracks(wl, low, c, NewPdl, tl) && Tracks(wh, high, c, NewPdl, th)
    requires forall i :: 0 <= i < |items| ==> Addressed(c, root, items[i])
    ensures Run(c, root, Calls(items)).Some?
    ensures var ops := TapOps(Run(c, root, Calls(items)).value.program);
            && Play(wl, tl, ops).Some? && Play(wh, th, ops).Some?
            && SelfCheck(ops, Play(wl, tl, ops).value.1, Play(wh, th, ops).value.1)
  {
    hide Network, Tracks, Addressed, Run, CheckReads, Play, TapOps;
    ReadbackPasses(wl, low, tl, c, root, items);
    ReadbackPasses(wh, high, th, c, root, items);
    var ops := TapOps(Run(c, root, Calls(items)).value.program);
    var ol, oh := Play(wl, tl, ops).value.1, Play(wh, th, ops).value.1;
    ChecksAreChecks(ops, ol, oh, 0);
    var cl, ch := CheckReads(ops, ol, 0).value, CheckReads(ops, oh, 0).value;
    forall i | 0 <= i < |cl|
      ensures AgreeUnder(cl[i].observed, ch[i].observed, cl[i].mask)
      ensures AgreeUnder(cl[i].observed, cl[i].expected, cl[i].mask)
    {
      assert cl[i].passed && ch[i].passed;
      MaskedEqual(cl[i].observed, cl[i].expected, cl[i].mask);
      MaskedEqual(cl[i].observed, ch[i].observed, cl[i].mask);
    }
  }

  /** With a model that shows the same at every capture, the self-check holds exactly when every instrument
      written is readable. */
  lemma SelfCheckIff(wl: Wiring<NetState>, wh: Wiring<NetState>, low: World, high: World, tl: Tap<NetState>,
                     th: Tap<NetState>, c: Chain, root: ModuleInstance, writes: seq<Writable>)
    requires Network(c) && Tracks(wl, low, c, NewPdl, tl) && Tracks(wh, high, c, NewPdl, th) && Steady(low)
    requires forall j :: 0 <= j < |writes| ==> Written(c, root, writes[j].leaf, writes[j].address)
    ensures Run(c, root, Calls(Items(writes))).Some?
    ensures var ops := TapOps(Run(c, root, Calls(Items(writes))).value.program);
            && Play(wl, tl, ops).Some? && Play(wh, th, ops).Some?
            && (SelfCheck(ops, Play(wl, tl, ops).value.1, Play(wh, th, ops).value.1)
                <==> forall j :: 0 <= j < |writes| ==> Readable(c, writes[j].leaf))
  {
    hide Network, Tracks, Written, Readable, Run, CheckReads, Play, TapOps, Items, Calls, Between;
    var items := Items(writes);
    ItemsWritten(c, root, writes);
    ReadbackRuns(wh, high, th, c, root, items);
    ReadbackPassesIff(wl, low, tl, c, root, writes);
    BetweenChecks(wl, low, tl, c, root, items);
    BetweenChecks(wh, high, th, c, root, items);
    var ops := TapOps(Run(c, root, Calls(items)).value.program);
    var ol, oh := Play(wl, tl, ops).value.1, Play(wh, th, ops).value.1;
    if forall j :: 0 <= j < |writes| ==> Readable(c, writes[j].leaf) {
      forall k | 0 <= k < |items| ensures Addressed(c, root, items[k]) {
        var i := ItemsAreOf(writes, k);
      }
      SelfCheckHolds(wl, wh, low, high, tl, th, c, root, items);
    }
    if SelfCheck(ops, ol, oh) {
      SelfCheckPasses(ops, ol, oh);
    }
  }

  lemma SelfCheckPasses(ops: seq<Op>, low: seq<int>, high: seq<int>)
    requires SelfCheck(ops, low, high)
    ensures CheckReads(ops, low, 0).Some? && AllPassed(CheckReads(ops, low, 0).value)
  {
    hide CheckReads, AgreeUnder;
    ChecksAreChecks(ops, low, high, 0);
    var checks := CheckReads(ops, low, 0).value;
    forall i | 0 <= i < |checks| ensures checks[i].passed {
      MaskedEqual(checks[i].observed, checks[i].expected, checks[i].mask);
    }
  }

  // ---------------------------------------------------------------- from a closed network

  /** What the tests before the first readback leave, closed, is what a new interpreter assumes. */
  lemma CleanStarts(w: Wiring<NetState>, world: World, t: Tap<NetState>, c: Chain)
    requires Clean(w, world, t, c, map[])
    ensures Tracks(w, world, c, NewPdl, t)
  {
  }
}
