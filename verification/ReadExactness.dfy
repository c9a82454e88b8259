/** Exactly which reads can be trusted: a queued read tells what the instrument captured, over all runs and
    all captured values, if and only if the instrument is not inside a ScanMux arm behind a SIB. */
module ReadExactness {
  import opened Wrappers
  import opened Bits
  import opened IclModel
  import opened SibLayout
  import opened SibCells
  import opened SibRound
  import opened SibRetarget
  import opened SibStaging
  import opened PathPlan
  import opened TapFsm
  import opened TapIr
  import opened TapModel
  import opened TapPlay
  import opened PdlSpec
  import opened FieldNames
  import opened Retargeting
  import opened RetargetingRuns
  import opened ReadBack
  import opened LiveCells
  import opened SibReads
  import opened ArmReads
  import opened ReadChecks
  import opened RunResults
  import opened ReadProbes

  /** The next iApply plays, adds one check, and that passes exactly when the addressed field of what phase
      2 captures is the expected one. */
  ghost predicate Tells(w: Wiring<NetState>, world: World, t: Tap<NetState>, c: Chain, p: Pdl, l: LeafSite) {
    && Apply(c, p).Some? && Play(w, t, TapOps(p.program)).Some?
    && var q := Apply(c, p).value.pdl;
       && Play(w, t, TapOps(q.program)).Some? && l.inst.name in p.pendingReads && ReadFits(l, p)
       && var (before, after) := (ChecksOf(w, t, p), ChecksOf(w, t, q));
          && before.Some? && after.Some? && |after.value| == |before.value| + 1
          && (after.value[|before.value|].passed
              <==> FieldMatches(Captured(l.inst, p.committed, world(CaptureOf(w, t, c, p, l))),
                                p.pendingReads[l.inst.name].value, LowOf(p.pendingReads[l.inst.name]),
                                HighOf(p.pendingReads[l.inst.name], l.inst.width)))
  }

  /** A run that ends with a read of `alias` of the instrument queued, or of the whole of it. */
  ghost predicate Asks(c: Chain, root: ModuleInstance, calls: seq<Call>, l: LeafSite, alias: Option<Alias>) {
    && Run(c, root, calls).Some? && Run(c, root, calls).value.scope == Some(l.inst.name)
    && l.inst.name in Run(c, root, calls).value.pendingReads
    && Run(c, root, calls).value.pendingReads[l.inst.name].field == alias
  }

  /** Every such read tells, on every TAP and network in the state a reset leaves, whatever the network's
      instruments show. */
  ghost predicate AlwaysTells(c: Chain, root: ModuleInstance, l: LeafSite, alias: Option<Alias>) {
    forall w: Wiring<NetState>, world: World, t: Tap<NetState>, calls: seq<Call> ::
      Tracks(w, world, c, NewPdl, t) && Asks(c, root, calls, l, alias) ==>
        Tells(w, world, t, c, Run(c, root, calls).value, l)
  }

  /** Outside the arms' own chains every read tells. */
  lemma OutsideTells(c: Chain, root: ModuleInstance, l: LeafSite, alias: Option<Alias>)
    requires Network(c) && AliasesFit(c) && l in Leaves(c, []) && !InsideArm(c, l)
    ensures AlwaysTells(c, root, l, alias)
  {
    hide Network, AliasesFit, Leaves, InsideArm, Play, Stage, CheckReads, TapOps, Tracks, Apply, Run, Tells;
    forall w: Wiring<NetState>, world: World, t: Tap<NetState>, calls: seq<Call> |
      Tracks(w, world, c, NewPdl, t) && Asks(c, root, calls, l, alias)
      ensures Tells(w, world, t, c, Run(c, root, calls).value, l)
    {
      AskTells(w, world, t, c, root, calls, l);
    }
  }

  lemma AskTells(w: Wiring<NetState>, world: World, t: Tap<NetState>, c: Chain, root: ModuleInstance,
                 calls: seq<Call>, l: LeafSite)
    requires Network(c) && AliasesFit(c) && l in Leaves(c, []) && !InsideArm(c, l)
    requires Tracks(w, world, c, NewPdl, t) && Run(c, root, calls).Some?
    requires Run(c, root, calls).value.scope == Some(l.inst.name) && l.inst.name in Run(c, root, calls).value.pendingReads
    ensures Tells(w, world, t, c, Run(c, root, calls).value, l)
  {
    hide Network, AliasesFit, Leaves, InsideArm, Play, Stage, CheckReads, TapOps, Tracks, Apply, Run, ReadFits, Captured,
         FieldMatches, OpenState;
    var p := Run(c, root, calls).value;
    RunStaysInStep(w, world, t, c, root, calls);
    QueuedReadsFit(c, root, calls, l);
    assert OpenState(c, p.open) by { TracksOpen(w, world, t, c, p); }
    ApplySucceeds(c, p, l);
    var checks := RunReadChecks(w, world, t, c, root, calls, l);
    var before := ChecksOf(w, t, p).value;
    assert (before + checks)[|before|] == checks[0];
  }

  // ---------------------------------------------------------------- inside an arm

  /** A TAP on a freshly reset network under EXTEST. */
  function Bench(world: World): Wiring<NetState> { Wiring(Some(NetworkRegister(world)), None, None) }

  function Rested(c: Chain): Tap<NetState> {
    Tap(Config(4, false, 0, None), RunTestIdle, Zeros(4), EXTEST, false, Zeros(32), NetState(Fresh(c), 0))
  }

  lemma BenchTracks(world: World, c: Chain)
    requires Network(c)
    ensures Tracks(Bench(world), world, c, NewPdl, Rested(c))
  {
    ResetStarts(Bench(world), world, Rested(c), c);
  }

  /** The instrument shows `value`, every other one 0. */
  function Showing(l: LeafSite, value: int): World {
    n => (inst: Instrument) => if inst == l.inst then value else 0
  }

  lemma ShowingIs(l: LeafSite, value: int, n: nat)
    ensures Showing(l, value)(n) == Showing(l, value)(0)
    ensures forall inst: Instrument :: Showing(l, value)(n)(inst) == if inst == l.inst then value else 0
  {
  }

  /** What one write leaves to be captured: the value in the instrument, 0 everywhere else. */
  lemma ProbeCaptures(c: Chain, l: LeafSite, k: LeafSite, value: int, com: map<string, int>, n: nat)
    requires Network(c) && l in Leaves(c, []) && k in Leaves(c, []) && com == AfterProbe(NewPdl, l, value)
    ensures Captured(k.inst, com, Showing(l, value)(n))
            == FromInt(if k.inst == l.inst then value else 0, k.inst.width)
  {
    ShowingIs(l, value, n);
    NetworkParts(c);
    if k.inst.name == l.inst.name {
      SameInstSameLeaf(c, k, l);
    }
  }

  /** The cells that show in place of bits up to `j` of an instrument inside an arm hold the same whatever
      the instrument captured in bit `j` and above. */
  lemma ShownBelow(c: Chain, open: OpenMap, l: LeafSite, at: nat, m: nat, j: nat, k: nat,
                   com: Committed, sense: Sense, com': Committed, sense': Sense)
    requires Network(c) && l in Leaves(c, []) && !l.isMux && l.step.name in open
    requires TargetLayout(c, open, l.step.name, 0) == Some(Window(at, l.inst.width, false))
    requires 1 <= m <= |Live(c, open)| && EndsInSelects(Live(c, open), m) && k <= j < l.inst.width
    requires at + l.inst.width <= |Live(c, open)|
    requires forall i: LeafSite :: i in Leaves(c, []) && i.inst != l.inst ==>
               Captured(i.inst, com, sense) == Captured(i.inst, com', sense')
    requires forall i: nat :: i < j ==> BitOfCapture(l, com, sense, i) == BitOfCapture(l, com', sense', i)
    ensures Holds1(ShownCell(Live(c, open), m, at + k), com, sense)
            == Holds1(ShownCell(Live(c, open), m, at + k), com', sense')
  {
    hide Live, TargetLayout, Leaves, Network, Captured;
    var cells := Live(c, open);
    NetworkParts(c);
    WindowIsContentOf(c, open, l, Window(at, l.inst.width, false));
    var p := if at + k >= m then at + k - m else |cells| - m + at + k;
    assert ShownCell(cells, m, at + k) == cells[p];
    if cells[p].Content? {
      if cells[p].inst == l.inst {
        CapturedWidth(l.inst, com, sense);
        CapturedWidth(l.inst, com', sense');
        assert at <= p < at + l.inst.width;
        assert cells[p].k < j;
        assert BitOfCapture(l, com, sense, cells[p].k) == BitOfCapture(l, com', sense', cells[p].k);
      } else {
        var i := ContentIsLeaf(c, [], open, p);
      }
    }
  }

  function BitOfCapture(l: LeafSite, com: Committed, sense: Sense, i: nat): bool {
    i < |Captured(l.inst, com, sense)| && Captured(l.inst, com, sense)[i]
  }

  /** The probe with `value` and the expectation of a clear field: its check, and what it was made of. */
  lemma ArmProbe(c: Chain, root: ModuleInstance, l: LeafSite, address: seq<string>, field: Option<string>,
                 alias: Option<Alias>, value: int) returns (at: nat, p: Pdl, n: nat)
    requires Network(c) && Named(c, root, l, address) && FieldIs(l, field, alias) && InsideArm(c, l)
    requires HighOf(Expect(0, alias), l.inst.width) < l.inst.width
    ensures var read := Expect(0, alias);
            var (open, w, t) := (PathMap(Way(l)), Bench(Showing(l, value)), Rested(c));
            && TargetLayout(c, open, l.step.name, 0) == Some(Window(at, l.inst.width, false))
            && 1 <= FieldWidth(c) <= |Live(c, open)| && at + l.inst.width <= |Live(c, open)|
            && Run(c, root, Probe(address, value, 0, field)[..5]) == Some(p)
            && Asks(c, root, Probe(address, value, 0, field)[..5], l, alias)
            && p.committed == AfterProbe(NewPdl, l, value)
            && (Tells(w, Showing(l, value), t, c, p, l) ==>
                  && |Captured(l.inst, p.committed, Showing(l, value)(n))| == l.inst.width
                  && (FieldShown(Live(c, open), FieldWidth(c), at, p.committed, Showing(l, value)(n), read, l.inst.width)
                      <==> FieldMatches(Captured(l.inst, p.committed, Showing(l, value)(n)), 0, LowOf(read),
                                        HighOf(read, l.inst.width))))
  {
    hide Network, Leaves, InsideArm, Play, Stage, CheckReads, TapOps, Tracks, Apply, Run, Captured, Live, TargetLayout,
         FieldWidth, FieldShown, FieldMatches, PathMap, CaptureOf, Fresh;
    var (world, b) := (Showing(l, value), Probe(address, value, 0, field));
    var (w, t) := (Bench(world), Rested(c));
    BenchTracks(world, c);
    NothingRun(w, world, t, c, root);
    var check, index := ProbeChecks(w, world, t, c, root, [], l, address, value, 0, field, alias);
    assert [] + b[..5] == b[..5] && [] + b == b;
    n := index;
    p := Run(c, root, b[..5]).value;
    at := TargetLayout(c, PathMap(Way(l)), l.step.name, 0).value.offset;
    CapturedWidth(l.inst, p.committed, world(n));
  }

  lemma NothingRun(w: Wiring<NetState>, world: World, t: Tap<NetState>, c: Chain, root: ModuleInstance)
    requires Tracks(w, world, c, NewPdl, t)
    ensures Run(c, root, []) == Some(NewPdl) && PlaysTo(w, world, t, c, NewPdl) && ChecksOf(w, t, NewPdl) == Some([])
  {
    assert TapOps([]) == [];
  }

  // ---------------------------------------------------------------- the exact condition

  /** A named field, or the whole instrument, has at least one bit. */
  ghost predicate NonEmpty(l: LeafSite, alias: Option<Alias>) {
    LowOf(Expect(0, alias)) <= HighOf(Expect(0, alias), l.inst.width)
  }

  /** The two probes, with every bit clear and with the field's top bit set, cannot both tell. */
  lemma InsideMistells(c: Chain, root: ModuleInstance, l: LeafSite, address: seq<string>, field: Option<string>,
                       alias: Option<Alias>)
    requires Network(c) && Named(c, root, l, address) && FieldIs(l, field, alias) && InsideArm(c, l)
    requires NonEmpty(l, alias) && HighOf(Expect(0, alias), l.inst.width) < l.inst.width
    ensures !AlwaysTells(c, root, l, alias)
  {
    hide Network, Leaves, InsideArm, Tracks, Run, Live, TargetLayout, FieldWidth, FieldShown, FieldMatches, Asks, Tells,
         PathMap, AfterProbe, Showing, Captured, Named, Fresh, Bench, Rested;
    var high := HighOf(Expect(0, alias), l.inst.width);
    var top := Shl(1, high);
    var at, p, n := ArmProbe(c, root, l, address, field, alias, 0);
    var at', p', n' := ArmProbe(c, root, l, address, field, alias, top);
    BenchTracks(Showing(l, 0), c);
    BenchTracks(Showing(l, top), c);
    CapturedWidth(l.inst, p.committed, Showing(l, 0)(n));
    CapturedWidth(l.inst, p'.committed, Showing(l, top)(n'));
    FieldsDiffer(c, l, root, address, alias, high, p.committed, p'.committed, n, n');
    SameShown(c, l, root, address, alias, at, high, p.committed, p'.committed, n, n');
    TellsHere(Bench(Showing(l, 0)), Showing(l, 0), Rested(c), c, root, Probe(address, 0, 0, field)[..5], l, alias);
    TellsHere(Bench(Showing(l, top)), Showing(l, top), Rested(c), c, root, Probe(address, top, 0, field)[..5], l, alias);
  }

  lemma TellsHere(w: Wiring<NetState>, world: World, t: Tap<NetState>, c: Chain, root: ModuleInstance,
                  calls: seq<Call>, l: LeafSite, alias: Option<Alias>)
    requires Tracks(w, world, c, NewPdl, t) && Asks(c, root, calls, l, alias)
    ensures Run(c, root, calls).Some? && (AlwaysTells(c, root, l, alias) ==> Tells(w, world, t, c, Run(c, root, calls).value, l))
  {
    hide Tracks, Run, Tells;
  }

  lemma FieldsDiffer(c: Chain, l: LeafSite, root: ModuleInstance, address: seq<string>, alias: Option<Alias>, high: nat,
                     com: map<string, int>, com': map<string, int>, n: nat, n': nat)
    requires Network(c) && Named(c, root, l, address) && NonEmpty(l, alias)
    requires high == HighOf(Expect(0, alias), l.inst.width) < l.inst.width
    requires com == AfterProbe(NewPdl, l, 0) && com' == AfterProbe(NewPdl, l, Shl(1, high))
    requires |Captured(l.inst, com, Showing(l, 0)(n))| == l.inst.width == |Captured(l.inst, com', Showing(l, Shl(1, high))(n'))|
    ensures FieldMatches(Captured(l.inst, com, Showing(l, 0)(n)), 0, LowOf(Expect(0, alias)), high)
    ensures !FieldMatches(Captured(l.inst, com', Showing(l, Shl(1, high))(n')), 0, LowOf(Expect(0, alias)), high)
  {
    hide Network, Shl, Showing, AfterProbe;
    ProbeCaptures(c, l, l, 0, com, n);
    ProbeCaptures(c, l, l, Shl(1, high), com', n');
    forall k: nat | k < l.inst.width
      ensures FromInt(0, l.inst.width)[k] == BitOf(0, k) == false
      ensures FromInt(Shl(1, high), l.inst.width)[k] == (k == high)
    {
      FromIntBit(0, l.inst.width, k);
      FromIntBit(Shl(1, high), l.inst.width, k);
      ZeroBit(k);
      ShlOneBit(high, k);
    }
    ZeroBit(high - LowOf(Expect(0, alias)));
    forall k: nat | LowOf(Expect(0, alias)) <= k <= high
      ensures FromInt(0, l.inst.width)[k] == BitOf(0, k - LowOf(Expect(0, alias)))
    {
      ZeroBit(k - LowOf(Expect(0, alias)));
    }
    var shown := Captured(l.inst, com', Showing(l, Shl(1, high))(n'));
    assert shown[high] != BitOf(0, high - LowOf(Expect(0, alias)));
  }

  lemma SameShown(c: Chain, l: LeafSite, root: ModuleInstance, address: seq<string>, alias: Option<Alias>, at: nat,
                  high: nat, com: map<string, int>, com': map<string, int>, n: nat, n': nat)
    requires Network(c) && Named(c, root, l, address) && InsideArm(c, l)
    requires high == HighOf(Expect(0, alias), l.inst.width) < l.inst.width
    requires com == AfterProbe(NewPdl, l, 0) && com' == AfterProbe(NewPdl, l, Shl(1, high))
    requires TargetLayout(c, PathMap(Way(l)), l.step.name, 0) == Some(Window(at, l.inst.width, false))
    requires 1 <= FieldWidth(c) <= |Live(c, PathMap(Way(l)))| && at + l.inst.width <= |Live(c, PathMap(Way(l)))|
    ensures var (cells, m, read) := (Live(c, PathMap(Way(l))), FieldWidth(c), Expect(0, alias));
            FieldShown(cells, m, at, com, Showing(l, 0)(n), read, l.inst.width)
            <==> FieldShown(cells, m, at, com', Showing(l, Shl(1, high))(n'), read, l.inst.width)
  {
    hide Network, Leaves, InsideArm, Live, TargetLayout, FieldWidth, Captured, Shl, Showing, AfterProbe, PathMap,
         EndsInSelects, Holds1, ShownCell, InFinalArm;
    NetworkParts(c);
    InsideIsFinal(c, l);
    FinalArmLeaf(c, [], l);
    var (open, cells, m, read) := (PathMap(Way(l)), Live(c, PathMap(Way(l))), FieldWidth(c), Expect(0, alias));
    var (sense, sense') := (Showing(l, 0)(n), Showing(l, Shl(1, high))(n'));
    WayDistinct(c, l);
    StepOpen(l, open);
    ArmEndsInSelects(c, [], l, open);
    OthersSame(c, l, high, com, com', n, n');
    forall k: nat | LowOf(read) <= k <= high
      ensures BitShown(cells, m, at, com, sense, read, k) <==> BitShown(cells, m, at, com', sense', read, k)
    {
      ShownBelow(c, open, l, at, m, high, k, com, sense, com', sense');
    }
  }

  lemma OthersSame(c: Chain, l: LeafSite, high: nat, com: map<string, int>, com': map<string, int>, n: nat, n': nat)
    requires Network(c) && l in Leaves(c, []) && high < l.inst.width
    requires com == AfterProbe(NewPdl, l, 0) && com' == AfterProbe(NewPdl, l, Shl(1, high))
    ensures forall i: LeafSite :: i in Leaves(c, []) && i.inst != l.inst ==>
              Captured(i.inst, com, Showing(l, 0)(n)) == Captured(i.inst, com', Showing(l, Shl(1, high))(n'))
    ensures forall i: nat :: i < high ==>
              BitOfCapture(l, com, Showing(l, 0)(n), i) == BitOfCapture(l, com', Showing(l, Shl(1, high))(n'), i)
  {
    hide Network, Leaves, Captured, Shl, Showing, AfterProbe;
    forall i: LeafSite | i in Leaves(c, []) && i.inst != l.inst
      ensures Captured(i.inst, com, Showing(l, 0)(n)) == Captured(i.inst, com', Showing(l, Shl(1, high))(n'))
    {
      ProbeCaptures(c, l, i, 0, com, n);
      ProbeCaptures(c, l, i, Shl(1, high), com', n');
    }
    ProbeCaptures(c, l, l, 0, com, n);
    ProbeCaptures(c, l, l, Shl(1, high), com', n');
    forall i: nat | i < high
      ensures BitOfCapture(l, com, Showing(l, 0)(n), i) == BitOfCapture(l, com', Showing(l, Shl(1, high))(n'), i)
    {
      FromIntBit(0, l.inst.width, i);
      FromIntBit(Shl(1, high), l.inst.width, i);
      ZeroBit(i);
      ShlOneBit(high, i);
    }
  }

  /** For every network, every instrument that can be addressed and every non-empty field of it: reads of the
      field tell what the instrument captured, over all runs, networks and captured values, exactly when the
      instrument is not inside an arm. */
  lemma ReadsTellIff(c: Chain, root: ModuleInstance, l: LeafSite, address: seq<string>, field: Option<string>,
                     alias: Option<Alias>)
    requires Network(c) && AliasesFit(c) && Named(c, root, l, address) && FieldIs(l, field, alias)
    requires NonEmpty(l, alias)
    ensures AlwaysTells(c, root, l, alias) <==> !InsideArm(c, l)
  {
    hide Network, AliasesFit, Leaves, InsideArm, AlwaysTells;
    if field.Some? {
      FieldFits(c, l, field.value);
    }
    if InsideArm(c, l) {
      InsideMistells(c, root, l, address, field, alias);
    } else {
      OutsideTells(c, root, l, alias);
    }
  }
}
