/** What whole runs of the interpreter guarantee: every read check, the last writer of every bit,
    and that a program may start from a TAP reset. */
module RunResults {
  import opened Wrappers
  import opened Bits
  import opened IclModel
  import opened SibLayout
  import opened SibCells
  import opened SibRound
  import opened SibRetarget
  import opened SibStaging
  import opened PathPlan
  import opened TapFsm
  import opened TapIr
  import opened TapModel
  import opened TapPlay
  import opened PdlSpec
  import opened FieldNames
  import opened Retargeting
  import opened RetargetingRuns
  import opened ReadChecks

  // ---------------------------------------------------------------- reads over a run

  /** Every alias names bits its instrument has. */
  ghost predicate AliasesFit(c: Chain) {
    forall l, a :: l in Leaves(c, []) && a in l.inst.aliases ==> a.low <= a.high < l.inst.width
  }

  lemma FieldFits(c: Chain, l: LeafSite, field: string)
    requires AliasesFit(c) && l in Leaves(c, []) && Declared(l.inst.aliases, field).Some?
    ensures var a := Declared(l.inst.aliases, field).value; a.low <= a.high < l.inst.width
  {
    hide Leaves;
  }

  /** The scope the last iTarget of a run set. */
  function ScopeAfter(root: ModuleInstance, calls: seq<Call>): Option<string>
    decreases |calls|
  {
    if calls == [] then None
    else
      var last := calls[|calls| - 1];
      if last.ITarget? && Resolve(root, last.dotted).Some? then Some(Resolve(root, last.dotted).value.name)
      else ScopeAfter(root, calls[..|calls| - 1])
  }

  lemma {:induction false} RunScope(c: Chain, root: ModuleInstance, calls: seq<Call>)
    requires Run(c, root, calls).Some?
    ensures Run(c, root, calls).value.scope == ScopeAfter(root, calls)
    decreases |calls|
  {
    if calls != [] {
      RunPrefix(c, root, calls);
      RunScope(c, root, calls[..|calls| - 1]);
      DoScope(c, root, Run(c, root, calls[..|calls| - 1]).value, calls[|calls| - 1]);
    }
  }

  /** Only iTarget moves the scope. */
  lemma DoScope(c: Chain, root: ModuleInstance, p: Pdl, call: Call)
    requires Do(c, root, p, call).Some?
    ensures Do(c, root, p, call).value.scope
            == if call.ITarget? && Resolve(root, call.dotted).Some? then Some(Resolve(root, call.dotted).value.name)
               else p.scope
  {
    hide Stage, OpenPath, RoundOps, DrOps, PayloadShift, ResolveField, FindInstrument, Resolve;
  }

  /** The read a run has left queued for an instrument: its last iRead since its last iApply. */
  ghost function LastRead(root: ModuleInstance, calls: seq<Call>, inst: Instrument): Option<Expect>
    decreases |calls|
  {
    if calls == [] then None
    else
      var before, last := calls[..|calls| - 1], calls[|calls| - 1];
      var older := LastRead(root, before, inst);
      if ScopeAfter(root, before) != Some(inst.name) then older
      else match last
        case IApply => None
        case IRead(expected, None) => Some(Expect(expected, None))
        case IRead(expected, Some(f)) =>
          (match Declared(inst.aliases, f) case None => older case Some(a) => Some(Expect(expected, Some(a))))
        case _ => older
  }

  /** What a state has queued for an instrument. */
  function QueuedRead(p: Pdl, inst: Instrument): Option<Expect> {
    if inst.name in p.pendingReads then Some(p.pendingReads[inst.name]) else None
  }

  /** Over every run, the read queued for an instrument is the last one asked for since its last iApply. */
  lemma {:induction false} QueuedIsLastRead(c: Chain, root: ModuleInstance, calls: seq<Call>, l: LeafSite)
    requires Network(c) && Run(c, root, calls).Some? && l in Leaves(c, [])
    ensures QueuedRead(Run(c, root, calls).value, l.inst) == LastRead(root, calls, l.inst)
    decreases |calls|
  {
    hide Network, Leaves, ResolveField, Stage, OpenPath, RoundOps, DrOps, PayloadShift, Resolve, FindInstrument;
    if calls != [] {
      var before, last := calls[..|calls| - 1], calls[|calls| - 1];
      RunPrefix(c, root, calls);
      QueuedIsLastRead(c, root, before, l);
      RunScope(c, root, before);
      if last.IRead? && last.field.Some? {
        ResolveFieldIs(c, l, last.field.value);
      }
    }
  }

  lemma {:induction false} QueuedReadsFit(c: Chain, root: ModuleInstance, calls: seq<Call>, l: LeafSite)
    requires Network(c) && AliasesFit(c) && Run(c, root, calls).Some? && l in Leaves(c, [])
    ensures ReadFits(l, Run(c, root, calls).value)
    decreases |calls|
  {
    if calls != [] {
      RunPrefix(c, root, calls);
      QueuedReadsFit(c, root, calls[..|calls| - 1], l);
      var p := Run(c, root, calls[..|calls| - 1]).value;
      match calls[|calls| - 1]
      case IRead(expected, field) =>
        if field.Some? && p.scope == Some(l.inst.name) {
          ResolveFieldIs(c, l, field.value);
          FieldFits(c, l, field.value);
        }
      case _ =>
    }
  }

  /** What one check says, wherever its target is. */
  ghost predicate Says(check: ReadCheck, c: Chain, l: LeafSite, p: Pdl, sense: Sense) {
    && (!InsideArm(c, l) ==> Verdict(check, l, p, sense))
    && (InsideArm(c, l) ==> ArmVerdict(check, c, l, p, sense))
  }

  /** One more iApply, played, adds its own checks to those of the program before it. */
  lemma ApplyAddsChecks(w: Wiring<NetState>, world: World, t: Tap<NetState>, c: Chain, p: Pdl, l: LeafSite)
    returns (checks: seq<ReadCheck>)
    requires Network(c) && PlaysTo(w, world, t, c, p) && Apply(c, p).Some?
    requires l in Leaves(c, []) && p.scope == Some(l.inst.name) && ReadFits(l, p)
    ensures var q := Apply(c, p).value.pdl;
            && Play(w, t, TapOps(p.program)).Some? && Play(w, t, TapOps(q.program)).Some?
            && var (u, seen) := Play(w, t, TapOps(p.program)).value;
               var more := Play(w, t, TapOps(q.program)).value.1;
               && CheckReads(TapOps(p.program), seen, 0).Some? && Stage(c, Way(l), p.open).Some?
               && CheckReads(TapOps(q.program), more, 0) == Some(CheckReads(TapOps(p.program), seen, 0).value + checks)
               && (l.inst.name !in p.pendingReads ==> checks == [])
               && (l.inst.name in p.pendingReads ==>
                     |checks| == 1
                     && Says(checks[0], c, l, p, world(u.network.captures + |Stage(c, Way(l), p.open).value|)))
  {
    hide Network, Leaves, InsideArm, Play, Apply, TapOps, Stage, Verdict, ArmVerdict, CheckReads, ReadFits, Ready, InStep,
         OpenState;
    var a := Apply(c, p).value;
    var (u, seen) := Play(w, t, TapOps(p.program)).value;
    var sense;
    checks, sense := ApplyChecks(w, world, u, c, p, l, seen);
    ApplyProgram(c, p, l);
    var obs := Play(w, u, a.ops).value.1;
    PlayCompose(w, t, TapOps(p.program), a.ops);
    PlayShifts(w, t, TapOps(p.program));
    CheckReadsExtend(TapOps(p.program), seen, obs, 0);
    CheckReadsJoin(TapOps(p.program), a.ops, seen + obs, 0);
  }

  /** For every run that ends in an iApply, playing it adds to the checks of the run before it: no
      check when no read was queued for the target, and otherwise one check. Outside the ScanMux, or in
      an arm that gates the target directly, it passes exactly when the addressed field of the value
      captured in phase 2 equals the expected one; a WRITE target captures its value from before this
      iApply's own write. Inside an arm, behind a SIB, it passes exactly when the field's expected bits
      are what the cells a select field's width nearer TDI hold. */
  lemma RunReadChecks(w: Wiring<NetState>, world: World, t: Tap<NetState>, c: Chain, root: ModuleInstance,
                      calls: seq<Call>, l: LeafSite)
    returns (checks: seq<ReadCheck>)
    requires Network(c) && AliasesFit(c) && Tracks(w, world, c, NewPdl, t)
    requires Run(c, root, calls).Some? && Apply(c, Run(c, root, calls).value).Some?
    requires l in Leaves(c, []) && Run(c, root, calls).value.scope == Some(l.inst.name)
    ensures var p := Run(c, root, calls).value;
            var q := Apply(c, p).value.pdl;
            && Run(c, root, calls + [IApply]) == Some(q)
            && Play(w, t, TapOps(p.program)).Some? && Play(w, t, TapOps(q.program)).Some?
            && var (u, seen) := Play(w, t, TapOps(p.program)).value;
               var more := Play(w, t, TapOps(q.program)).value.1;
               && CheckReads(TapOps(p.program), seen, 0).Some? && Stage(c, Way(l), p.open).Some?
               && CheckReads(TapOps(q.program), more, 0) == Some(CheckReads(TapOps(p.program), seen, 0).value + checks)
               && QueuedRead(p, l.inst) == LastRead(root, calls, l.inst)
               && (LastRead(root, calls, l.inst).None? ==> checks == [])
               && (LastRead(root, calls, l.inst).Some? ==>
                     |checks| == 1
                     && Says(checks[0], c, l, p, world(u.network.captures + |Stage(c, Way(l), p.open).value|)))
  {
    hide LastRead, Network, AliasesFit, Leaves, Play, Apply, TapOps, Stage, Says, CheckReads, ReadFits, Tracks, PlaysTo;
    assert (calls + [IApply])[..|calls|] == calls;
    RunStaysInStep(w, world, t, c, root, calls);
    QueuedReadsFit(c, root, calls, l);
    QueuedIsLastRead(c, root, calls, l);
    checks := ApplyAddsChecks(w, world, t, c, Run(c, root, calls).value, l);
  }

  // ---------------------------------------------------------------- last writer wins

  lemma {:induction false} OnesBit(n: nat, k: nat)
    ensures BitOf(Shl(1, n) - 1, k) == (k < n)
  {
    if n == 0 {
      ZeroBit(k);
    } else {
      var v := Shl(1, n) - 1;
      assert v == 1 + 2 * (Shl(1, n - 1) - 1);
      if k > 0 {
        OnesBit(n - 1, k - 1);
        assert v / 2 == Shl(1, n - 1) - 1;
      }
    }
  }

  /** _set_bit_range replaces exactly the bits of the range. */
  lemma SetBitRangeBits(current: int, low: nat, high: nat, value: int, k: nat)
    requires low <= high + 1
    ensures BitOf(SetBitRange(current, low, high, value), k)
            == if low <= k <= high then BitOf(value, k - low) else BitOf(current, k)
  {
    var ones := Shl(1, high - low + 1) - 1;
    var mask := Shl(ones, low);
    ShlBit(ones, low, k);
    if k >= low {
      OnesBit(high - low + 1, k - low);
    }
    NotBit(mask, k);
    AndBit(current, Not(mask), k);
    ShlBit(value, low, k);
    AndBit(Shl(value, low), mask, k);
    OrBit(And(current, Not(mask)), And(Shl(value, low), mask), k);
  }

  /** Bit `k` of the last iWrite of a run that covers bit `k` of the instrument; clear if there is none. */
  ghost function LastWritten(root: ModuleInstance, calls: seq<Call>, inst: Instrument, k: nat): bool
    decreases |calls|
  {
    if calls == [] then false
    else
      var before, last := calls[..|calls| - 1], calls[|calls| - 1];
      var older := LastWritten(root, before, inst, k);
      if !last.IWrite? || ScopeAfter(root, before) != Some(inst.name) then older
      else if last.field.None? then BitOf(last.value, k)
      else match Declared(inst.aliases, last.field.value)
        case None => older
        case Some(a) => if a.low <= k <= a.high then BitOf(last.value, k - a.low) else older
  }

  /** Over every run, what the next iApply of a WRITE instrument would deliver is, bit by bit, what
      was last written to that bit, across applies, retargets and closings. */
  lemma {:induction false} CurrentIsLastWritten(c: Chain, root: ModuleInstance, calls: seq<Call>, l: LeafSite, k: nat)
    requires Network(c) && Run(c, root, calls).Some? && l in Leaves(c, []) && l.inst.direction.WRITE?
    ensures BitOf(Current(Run(c, root, calls).value, l.inst.name), k)
            == LastWritten(root, calls, l.inst, k)
    decreases |calls|
  {
    if calls == [] {
      ZeroBit(k);
    } else {
      var before, last := calls[..|calls| - 1], calls[|calls| - 1];
      RunPrefix(c, root, calls);
      CurrentIsLastWritten(c, root, before, l, k);
      RunScope(c, root, before);
      var p := Run(c, root, before).value;
      WriteKeepsBits(c, root, p, last, l, k);
    }
  }

  lemma WriteKeepsBits(c: Chain, root: ModuleInstance, p: Pdl, call: Call, l: LeafSite, k: nat)
    requires Network(c) && Do(c, root, p, call).Some? && l in Leaves(c, [])
    requires call.IApply? ==> l.inst.direction.WRITE?
    ensures var inst := l.inst.name;
            var q := Do(c, root, p, call).value;
            if call.IWrite? && p.scope == Some(inst) then
              if call.field.None? then BitOf(Current(q, inst), k) == BitOf(call.value, k)
              else
                && Declared(l.inst.aliases, call.field.value).Some?
                && var a := Declared(l.inst.aliases, call.field.value).value;
                   BitOf(Current(q, inst), k)
                   == if a.low <= k <= a.high then BitOf(call.value, k - a.low) else BitOf(Current(p, inst), k)
            else Current(q, inst) == Current(p, inst)
  {
    hide Network, Leaves, BitOf, SetBitRange, Stage, ResolveField;
    var inst := l.inst.name;
    match call
    case IWrite(value, field) =>
      if p.scope == Some(inst) && field.Some? {
        ResolveFieldIs(c, l, field.value);
        var a := ResolveField(c, inst, field.value).value;
        SetBitRangeBits(Current(p, inst), a.low, a.high, value, k);
      }
    case IApply =>
      ApplyKeepsCurrent(c, p, l);
    case _ =>
  }

  /** An iApply delivers what was queued and leaves every WRITE instrument's value as it would next
      be delivered. */
  lemma ApplyKeepsCurrent(c: Chain, p: Pdl, l: LeafSite)
    requires Network(c) && Apply(c, p).Some? && l in Leaves(c, []) && l.inst.direction.WRITE?
    ensures Current(Apply(c, p).value.pdl, l.inst.name) == Current(p, l.inst.name)
  {
    hide Network, Leaves, Stage, RoundOps, PayloadShift;
    if p.scope == Some(l.inst.name) {
      NetworkParts(c);
      InstrumentFound(c, [], l);
    }
  }

  /** Last writer wins, in hardware: after a run that ends in an iApply of a WRITE instrument, its
      update latch holds in every bit the value last written to that bit over the whole run. */
  lemma LatchIsLastWritten(w: Wiring<NetState>, world: World, t: Tap<NetState>, c: Chain, root: ModuleInstance,
                           calls: seq<Call>, l: LeafSite)
    requires Network(c) && Tracks(w, world, c, NewPdl, t)
    requires Run(c, root, calls + [IApply]).Some? && ScopeAfter(root, calls) == Some(l.inst.name)
    requires l in Leaves(c, []) && l.inst.direction.WRITE?
    ensures var q := Run(c, root, calls + [IApply]).value;
            && Play(w, t, TapOps(q.program)).Some?
            && Latched(Play(w, t, TapOps(q.program)).value.0.network.cells, q.committed)
            && forall k :: 0 <= k < l.inst.width ==>
                 Held(q.committed, l.inst)[k] == LastWritten(root, calls, l.inst, k)
  {
    hide Network, Leaves, Play, Apply, Latched, Stage, BitOf;
    assert (calls + [IApply])[..|calls|] == calls;
    RunPrefix(c, root, calls + [IApply]);
    RunStaysInStep(w, world, t, c, root, calls + [IApply]);
    RunScope(c, root, calls);
    var p := Run(c, root, calls).value;
    ApplyKeepsCurrent(c, p, l);
    ApplyPops(c, p);
    var q := Apply(c, p).value.pdl;
    forall k | 0 <= k < l.inst.width
      ensures Held(q.committed, l.inst)[k] == LastWritten(root, calls, l.inst, k)
    {
      CurrentIsLastWritten(c, root, calls, l, k);
      FromIntBit(Current(q, l.inst.name), l.inst.width, k);
    }
  }

  lemma ApplyPops(c: Chain, p: Pdl)
    requires Apply(c, p).Some?
    ensures p.scope.Some? && p.scope.value !in Apply(c, p).value.pdl.pendingWrites
  {
  }
}
