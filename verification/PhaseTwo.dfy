/** What phase 2 feeds, cell by cell: the selects that keep the way open, and what was written to the target. */
module PhaseTwo {
  import opened Wrappers
  import opened Bits
  import opened IclModel
  import opened SibLayout
  import opened SibRetarget
  import opened SibStaging
  import opened PathPlan
  import opened TapIr
  import opened PdlSpec
  import opened FieldNames
  import opened Retargeting
  import opened RetargetingRuns
  import opened ReadBack
  import opened LiveCells
  import opened ReadChecks
  import opened RunResults

  /** What a READ instrument is due: the last iWrite of bit `k` since its last iApply, which uses it up;
      clear if there is none. */
  ghost function WrittenSince(root: ModuleInstance, calls: seq<Call>, inst: Instrument, k: nat): bool
    decreases |calls|
  {
    if calls == [] then false
    else
      var before, last := calls[..|calls| - 1], calls[|calls| - 1];
      var older := WrittenSince(root, before, inst, k);
      if ScopeAfter(root, before) != Some(inst.name) then older
      else match last
        case IApply => false
        case IWrite(value, None) => BitOf(value, k)
        case IWrite(value, Some(f)) =>
          (match Declared(inst.aliases, f)
           case None => older
           case Some(a) => if a.low <= k <= a.high then BitOf(value, k - a.low) else older)
        case _ => older
  }

  /** Bit `k` of what the next iApply is to feed an instrument: a WRITE instrument's last written value, however
      long ago, or what a READ instrument is due. */
  ghost function Due(root: ModuleInstance, calls: seq<Call>, inst: Instrument, k: nat): bool {
    if inst.direction.WRITE? then LastWritten(root, calls, inst, k) else WrittenSince(root, calls, inst, k)
  }

  lemma {:induction false} RunIsOpen(c: Chain, root: ModuleInstance, calls: seq<Call>)
    requires Network(c) && Run(c, root, calls).Some?
    ensures OpenState(c, Run(c, root, calls).value.open)
    decreases |calls|
  {
    hide Network, OpenState, Do;
    if calls == [] {
      NewIsOpen(c);
    } else {
      RunPrefix(c, root, calls);
      RunIsOpen(c, root, calls[..|calls| - 1]);
      DoIsOpen(c, root, Run(c, root, calls[..|calls| - 1]).value, calls[|calls| - 1]);
    }
  }

  lemma NewIsOpen(c: Chain)
    ensures OpenState(c, NewPdl.open)
  {
  }

  /** Only iApply moves what is open, and to the way of one instrument. */
  lemma DoIsOpen(c: Chain, root: ModuleInstance, p: Pdl, call: Call)
    requires Network(c) && OpenState(c, p.open) && Do(c, root, p, call).Some?
    ensures OpenState(c, Do(c, root, p, call).value.open)
  {
    hide Network, Leaves, Apply, ResolveField, Resolve, SetBitRange, PathMap;
    if call.IApply? {
      ApplyIsOpen(c, p);
    }
  }

  lemma ApplyIsOpen(c: Chain, p: Pdl)
    requires Network(c) && OpenState(c, p.open) && Apply(c, p).Some?
    ensures OpenState(c, Apply(c, p).value.pdl.open)
  {
    hide Network, Leaves, Stage, OpenPath, RoundOps, PayloadShift, PathMap, Apply, PayloadOf, FindInstrument;
    var l := ApplyTarget(c, p);
  }

  /** Nothing is ever committed to a READ instrument. */
  lemma {:induction false} OnlyWritesCommit(c: Chain, root: ModuleInstance, calls: seq<Call>, l: LeafSite)
    requires Network(c) && Run(c, root, calls).Some? && l in Leaves(c, []) && l.inst.direction.READ?
    ensures l.inst.name !in Run(c, root, calls).value.committed
    decreases |calls|
  {
    hide Network, Leaves, Do;
    if calls != [] {
      RunPrefix(c, root, calls);
      OnlyWritesCommit(c, root, calls[..|calls| - 1], l);
      DoCommits(c, root, Run(c, root, calls[..|calls| - 1]).value, calls[|calls| - 1], l);
    }
  }

  lemma DoCommits(c: Chain, root: ModuleInstance, p: Pdl, call: Call, l: LeafSite)
    requires Network(c) && Do(c, root, p, call).Some? && l in Leaves(c, []) && l.inst.direction.READ?
    requires l.inst.name !in p.committed
    ensures l.inst.name !in Do(c, root, p, call).value.committed
  {
    hide Network, Stage, RoundOps, PayloadShift, ResolveField, Resolve, Leaves, OpenPath, FindInstrument, SetBitRange;
    NetworkParts(c);
    InstrumentFound(c, [], l);
  }

  /** Over every run, what the next iApply would feed an instrument is what it is due. */
  lemma CurrentIsDue(c: Chain, root: ModuleInstance, calls: seq<Call>, l: LeafSite, k: nat)
    requires Network(c) && Run(c, root, calls).Some? && l in Leaves(c, [])
    ensures BitOf(Current(Run(c, root, calls).value, l.inst.name), k) == Due(root, calls, l.inst, k)
  {
    hide Network, Run, Leaves, BitOf, Current, LastWritten, WrittenSince;
    if l.inst.direction.WRITE? {
      CurrentIsLastWritten(c, root, calls, l, k);
    } else {
      CurrentIsWrittenSince(c, root, calls, l, k);
    }
  }

  lemma {:induction false} CurrentIsWrittenSince(c: Chain, root: ModuleInstance, calls: seq<Call>, l: LeafSite, k: nat)
    requires Network(c) && Run(c, root, calls).Some? && l in Leaves(c, []) && l.inst.direction.READ?
    ensures BitOf(Current(Run(c, root, calls).value, l.inst.name), k) == WrittenSince(root, calls, l.inst, k)
    decreases |calls|
  {
    hide *;
    if calls == [] {
      NothingDue(c, root, l.inst, k);
    } else {
      var before, last := calls[..|calls| - 1], calls[|calls| - 1];
      RunPrefix(c, root, calls);
      CurrentIsWrittenSince(c, root, before, l, k);
      RunScope(c, root, before);
      var p := Run(c, root, before).value;
      SinceStep(root, calls, l.inst, k);
      if last.IApply? {
        OnlyWritesCommit(c, root, before, l);
        OnlyWritesCommit(c, root, calls, l);
        ApplyStep(c, root, p);
        AppliedIsUsedUp(c, p, l, k);
      } else {
        WriteKeepsBits(c, root, p, last, l, k);
      }
    }
  }

  lemma NothingDue(c: Chain, root: ModuleInstance, inst: Instrument, k: nat)
    ensures Run(c, root, []) == Some(NewPdl) && !BitOf(Current(NewPdl, inst.name), k) && !WrittenSince(root, [], inst, k)
  {
    ZeroBit(k);
  }

  /** One call more. */
  lemma SinceStep(root: ModuleInstance, calls: seq<Call>, inst: Instrument, k: nat)
    requires calls != []
    ensures var before, last := calls[..|calls| - 1], calls[|calls| - 1];
            var older := WrittenSince(root, before, inst, k);
            WrittenSince(root, calls, inst, k)
            == if ScopeAfter(root, before) != Some(inst.name) then older
               else if last.IApply? then false
               else if !last.IWrite? then older
               else if last.field.None? then BitOf(last.value, k)
               else if Declared(inst.aliases, last.field.value).None? then older
               else
                 var a := Declared(inst.aliases, last.field.value).value;
                 if a.low <= k <= a.high then BitOf(last.value, k - a.low) else older
  {
    hide ScopeAfter, Declared, BitOf;
  }

  lemma AppliedIsUsedUp(c: Chain, p: Pdl, l: LeafSite, k: nat)
    requires Apply(c, p).Some?
    requires l.inst.name !in p.committed && l.inst.name !in Apply(c, p).value.pdl.committed
    ensures var q := Apply(c, p).value.pdl;
            if p.scope == Some(l.inst.name) then !BitOf(Current(q, l.inst.name), k)
            else Current(q, l.inst.name) == Current(p, l.inst.name)
  {
    hide Stage, RoundOps, PayloadShift, OpenPath;
    ZeroBit(k);
  }

  /** For every run that ends in an iApply: its last scan is as long as the live chain and feeds every cell. A
      select cell is fed what it holds, so the way stays open; bit `k` of the target is fed what it is
      due, and any other instrument 0. */
  lemma PhaseTwoFeeds(c: Chain, root: ModuleInstance, calls: seq<Call>, l: LeafSite) returns (scan: Op)
    requires Network(c) && Run(c, root, calls + [IApply]).Some? && l in Leaves(c, [])
    requires ScopeAfter(root, calls) == Some(l.inst.name)
    ensures scan.ShiftDR?
    ensures var q := Run(c, root, calls + [IApply]).value;
            var cells := Live(c, q.open);
            && |q.program| >= 3 && q.program[|q.program| - 3..] == DrOps(scan) && scan.bits == |cells|
            && q.open == PathMap(Way(l))
            && forall i :: 0 <= i < |cells| ==>
                 BitOf(scan.tdi, |cells| - 1 - i)
                 == if cells[i].Select? then cells[i].bit
                    else cells[i].slot == l.step.name && Due(root, calls, l.inst, cells[i].k)
  {
    hide *;
    assert (calls + [IApply])[..|calls|] == calls;
    RunPrefix(c, root, calls + [IApply]);
    RunScope(c, root, calls);
    RunIsOpen(c, root, calls);
    var p := Run(c, root, calls).value;
    ApplyStep(c, root, p);
    scan := ApplyShift(c, p, l);
    var rounds := ApplyShape(c, p, l);
    var open, payload := PathMap(Way(l)), PayloadOf(p, l.inst.name, l.inst.direction.WRITE?);
    ApplyEnds(c, p, l, rounds);
    ScanIs(c, p, l);
    var cells := Live(c, open);
    forall i | 0 <= i < |cells|
      ensures BitOf(scan.tdi, |cells| - 1 - i)
              == if cells[i].Select? then cells[i].bit
                 else cells[i].slot == l.step.name && Due(root, calls, l.inst, cells[i].k)
    {
      ScanFeeds(c, open, l.step.name, payload, i);
      if cells[i].Content? {
        PayloadIsDue(c, root, calls, l, cells[i].k);
      }
    }
  }

  lemma ApplyStep(c: Chain, root: ModuleInstance, p: Pdl)
    requires Do(c, root, p, IApply).Some?
    ensures Apply(c, p).Some? && Do(c, root, p, IApply) == Some(Apply(c, p).value.pdl)
  {
    hide Apply;
  }

  lemma ScanIs(c: Chain, p: Pdl, l: LeafSite)
    ensures var scan, open := ApplyShift(c, p, l), PathMap(Way(l));
            && scan.ShiftDR? && scan.bits == |Live(c, open)|
            && scan.tdi == FeedOf(Compose(c, open, open, Some(l.step.name), PayloadOf(p, l.inst.name, l.inst.direction.WRITE?)))
  {
    hide Compose, Live, Loaded, PathMap, Way, FeedOf, PayloadOf, Expectation, Length;
    var open, payload := PathMap(Way(l)), PayloadOf(p, l.inst.name, l.inst.direction.WRITE?);
    ComposeIsLoaded(c, open, Some(l.step.name), payload);
    ComposeLength(c, open, open, Some(l.step.name), payload);
  }

  /** Feeding a composed scan lands each of its bits in the cell it is meant for. */
  lemma ScanFeeds(c: Chain, open: OpenMap, slot: string, payload: int, i: nat)
    requires i < |Live(c, open)|
    ensures BitOf(FeedOf(Compose(c, open, open, Some(slot), payload)), |Live(c, open)| - 1 - i)
            == var cell := Live(c, open)[i];
               if cell.Select? then cell.bit else cell.slot == slot && BitOf(payload, cell.k)
  {
    hide Compose, Live, FeedOf, BitOf;
    ComposeIsLoaded(c, open, Some(slot), payload);
    FeedBit(Compose(c, open, open, Some(slot), payload), |Live(c, open)| - 1 - i);
  }

  lemma PayloadIsDue(c: Chain, root: ModuleInstance, calls: seq<Call>, l: LeafSite, k: nat)
    requires Network(c) && Run(c, root, calls).Some? && l in Leaves(c, [])
    ensures BitOf(PayloadOf(Run(c, root, calls).value, l.inst.name, l.inst.direction.WRITE?), k)
            == Due(root, calls, l.inst, k)
  {
    hide Network, Leaves, Due, BitOf, Run;
    CurrentIsDue(c, root, calls, l, k);
    if l.inst.direction.READ? {
      OnlyWritesCommit(c, root, calls, l);
    }
  }

  lemma ApplyEnds(c: Chain, p: Pdl, l: LeafSite, rounds: seq<OpenMap>)
    requires Network(c) && OpenState(c, p.open) && Apply(c, p).Some?
    requires l in Leaves(c, []) && p.scope == Some(l.inst.name)
    requires Apply(c, p).value.ops == RoundOps(c, p.open, rounds) + DrOps(ApplyShift(c, p, l))
    ensures var q := Apply(c, p).value.pdl;
            && |q.program| >= 3 && q.program[|q.program| - 3..] == DrOps(ApplyShift(c, p, l))
            && q.open == PathMap(Way(l))
  {
    hide Network, Leaves, Stage, PathMap, RoundOps, ApplyShift;
    NetworkParts(c);
    var k := ApplyTarget(c, p);
    SameInstSameLeaf(c, k, l);
    var a := Apply(c, p).value;
    assert a.pdl.program == p.program + RoundOps(c, p.open, rounds) + DrOps(ApplyShift(c, p, l));
  }
}
