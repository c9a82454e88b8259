/** A value written to an instrument and read straight back: what the run does and what its one check says,
    wherever the instrument is. */
module ReadProbes {
  import opened Wrappers
  import opened Bits
  import opened IclModel
  import opened SibCells
  import opened SibRound
  import opened SibRetarget
  import opened SibStaging
  import opened PathPlan
  import opened TapFsm
  import opened TapIr
  import opened TapModel
  import opened TapPlay
  import opened PdlSpec
  import opened FieldNames
  import opened Retargeting
  import opened RetargetingRuns
  import opened ReadBack
  import opened ReadChecks
  import opened RunResults

  lemma RunAppend(c: Chain, root: ModuleInstance, calls: seq<Call>, call: Call)
    requires Run(c, root, calls).Some?
    ensures Run(c, root, calls + [call]) == Do(c, root, Run(c, root, calls).value, call)
  {
    assert (calls + [call])[..|calls|] == calls;
  }

  /** Applying to a scope the network has always succeeds. */
  lemma ApplySucceeds(c: Chain, p: Pdl, l: LeafSite)
    requires Network(c) && OpenState(c, p.open) && l in Leaves(c, []) && p.scope == Some(l.inst.name)
    ensures Apply(c, p).Some?
  {
    NetworkParts(c);
    OpenPathFinds(c, [], l);
    StageForWay(c, l, p.open);
  }

  lemma TracksOpen(w: Wiring<NetState>, world: World, t: Tap<NetState>, c: Chain, p: Pdl)
    requires PlaysTo(w, world, t, c, p)
    ensures OpenState(c, p.open)
  {
  }

  /** The checks of a program, played. */
  function ChecksOf(w: Wiring<NetState>, t: Tap<NetState>, p: Pdl): Option<seq<ReadCheck>>
    requires Play(w, t, TapOps(p.program)).Some?
  {
    CheckReads(TapOps(p.program), Play(w, t, TapOps(p.program)).value.1, 0)
  }

  /** The number of phase 2's capture in the next iApply, counted over the whole run. */
  ghost function CaptureOf(w: Wiring<NetState>, t: Tap<NetState>, c: Chain, p: Pdl, l: LeafSite): nat
    requires Play(w, t, TapOps(p.program)).Some?
  {
    Play(w, t, TapOps(p.program)).value.0.network.captures
    + match Stage(c, Way(l), p.open) case None => 0 case Some(rounds) => |rounds|
  }

  /** An instrument of the network and an address that names it. */
  ghost predicate Named(c: Chain, root: ModuleInstance, l: LeafSite, address: seq<string>) {
    && l in Leaves(c, []) && Resolve(root, address).Some? && Resolve(root, address).value.name == l.inst.name
  }

  /** `field` of the instrument is `alias`, or no field is named. */
  ghost predicate FieldIs(l: LeafSite, field: Option<string>, alias: Option<Alias>) {
    && alias == (match field case None => None case Some(f) => Declared(l.inst.aliases, f))
    && (field.Some? ==> alias.Some?)
  }

  /** Write `value`, apply, read the field back expecting `expected`, apply. */
  function Probe(address: seq<string>, value: int, expected: int, field: Option<string>): seq<Call> {
    [Call.ITarget(address), Call.IWrite(value, None), Call.IApply,
     Call.ITarget(address), Call.IRead(expected, field), Call.IApply]
  }

  function Queued(p: Pdl, name: string, value: int): Pdl {
    p.(scope := Some(name), pendingWrites := p.pendingWrites[name := value])
  }

  function Asking(p: Pdl, name: string, expected: int, alias: Option<Alias>): Pdl {
    p.(scope := Some(name), pendingReads := map[name := Expect(expected, alias)])
  }

  /** The six commands, one after the other. */
  lemma ProbeRuns(c: Chain, root: ModuleInstance, calls: seq<Call>, p: Pdl, l: LeafSite, address: seq<string>,
                  value: int, expected: int, field: Option<string>, alias: Option<Alias>)
    requires Network(c) && Run(c, root, calls) == Some(p) && Named(c, root, l, address) && FieldIs(l, field, alias)
    requires Apply(c, Queued(p, l.inst.name, value)).Some?
    requires Apply(c, Queued(p, l.inst.name, value)).value.pdl.pendingReads == map[]
    ensures var name, b := l.inst.name, Probe(address, value, expected, field);
            var asking := Asking(Apply(c, Queued(p, name, value)).value.pdl, name, expected, alias);
            && Run(c, root, calls + b[..5]) == Some(asking)
            && Run(c, root, calls + b) == match Apply(c, asking) case None => None case Some(a) => Some(a.pdl)
  {
    hide Network, Apply, Run, Leaves, ResolveField;
    var b := Probe(address, value, expected, field);
    if field.Some? {
      ResolveFieldIs(c, l, field.value);
    }
    RunAppend(c, root, calls, b[0]);
    RunAppend(c, root, calls + [b[0]], b[1]);
    RunAppend(c, root, calls + [b[0]] + [b[1]], b[2]);
    RunAppend(c, root, calls + [b[0]] + [b[1]] + [b[2]], b[3]);
    RunAppend(c, root, calls + [b[0]] + [b[1]] + [b[2]] + [b[3]], b[4]);
    RunAppend(c, root, calls + [b[0]] + [b[1]] + [b[2]] + [b[3]] + [b[4]], b[5]);
    assert calls + b[..5] == calls + [b[0]] + [b[1]] + [b[2]] + [b[3]] + [b[4]];
    assert calls + b == calls + [b[0]] + [b[1]] + [b[2]] + [b[3]] + [b[4]] + [b[5]];
  }

  /** What an iApply does to the bookkeeping of reads and committed values. */
  lemma ApplyBooks(c: Chain, p: Pdl, l: LeafSite)
    requires Network(c) && Apply(c, p).Some? && l in Leaves(c, []) && p.scope == Some(l.inst.name)
    ensures var q := Apply(c, p).value.pdl;
            && q.pendingReads == p.pendingReads - {l.inst.name}
            && q.committed == if l.inst.direction.WRITE? then p.committed[l.inst.name := Current(p, l.inst.name)]
                              else p.committed
  {
    NetworkParts(c);
    InstrumentFound(c, [], l);
  }

  /** After a write, what would be delivered is the value written; after an iApply, what was committed. */
  lemma CurrentIs(p: Pdl, name: string, value: int)
    ensures Current(Queued(p, name, value), name) == value
    ensures name !in p.pendingWrites && name in p.committed ==> Current(p, name) == p.committed[name]
  {
  }

  ghost function AfterProbe(p: Pdl, l: LeafSite, value: int): map<string, int> {
    if l.inst.direction.WRITE? then p.committed[l.inst.name := value] else p.committed
  }

  /** The whole probe, played: it adds one check, made with the written value in the instrument's latch. */
  lemma ProbeChecks(
    w: Wiring<NetState>, world: World, t: Tap<NetState>, c: Chain, root: ModuleInstance, calls: seq<Call>,
    l: LeafSite, address: seq<string>, value: int, expected: int, field: Option<string>, alias: Option<Alias>)
    returns (check: ReadCheck, n: nat)
    requires Network(c) && Named(c, root, l, address) && FieldIs(l, field, alias)
    requires HighOf(Expect(expected, alias), l.inst.width) < l.inst.width
    requires Run(c, root, calls).Some? && Run(c, root, calls).value.pendingReads == map[]
    requires PlaysTo(w, world, t, c, Run(c, root, calls).value) && ChecksOf(w, t, Run(c, root, calls).value).Some?
    ensures var p, b := Run(c, root, calls).value, Probe(address, value, expected, field);
            && Run(c, root, calls + b[..5]).Some? && Run(c, root, calls + b).Some?
            && var (asking, q) := (Run(c, root, calls + b[..5]).value, Run(c, root, calls + b).value);
            && asking.scope == Some(l.inst.name) && asking.pendingReads == map[l.inst.name := Expect(expected, alias)]
            && asking.committed == q.committed == AfterProbe(p, l, value) && q.pendingReads == map[]
            && PlaysTo(w, world, t, c, q)
            && ChecksOf(w, t, q) == Some(ChecksOf(w, t, p).value + [check])
            && PlaysTo(w, world, t, c, asking)
            && Says(check, c, l, asking, world(n)) && n == CaptureOf(w, t, c, asking, l)
            && Apply(c, asking).Some? && Apply(c, asking).value.pdl == q
            && ChecksOf(w, t, asking) == ChecksOf(w, t, p)
  {
    hide Network, Leaves, InsideArm, Play, Stage, CheckReads, TapOps, Tracks, Says, Apply, Run, Current, ResolveField;
    var p, name := Run(c, root, calls).value, l.inst.name;
    var p2 := Queued(p, name, value);
    StepQueued(w, world, t, c, p, p2);
    var p3 := ProbeApply(w, world, t, c, p2, l);
    CurrentIs(p, name, value);
    ProbeRuns(c, root, calls, p, l, address, value, expected, field, alias);
    var p5 := Asking(p3, name, expected, alias);
    StepQueued(w, world, t, c, p3, p5);
    check, n := AskingApply(w, world, t, c, p5, l);
    TakenWrites(c, p2);
    CurrentIs(p5, name, value);
  }

  lemma TakenWrites(c: Chain, p: Pdl)
    requires Apply(c, p).Some?
    ensures Apply(c, p).value.pdl.pendingWrites == p.pendingWrites - {p.scope.value}
  {
  }

  /** An iApply with no read queued adds no check. */
  lemma ProbeApply(w: Wiring<NetState>, world: World, t: Tap<NetState>, c: Chain, p: Pdl, l: LeafSite) returns (q: Pdl)
    requires Network(c) && PlaysTo(w, world, t, c, p) && l in Leaves(c, []) && p.scope == Some(l.inst.name)
    requires p.pendingReads == map[] && ChecksOf(w, t, p).Some?
    ensures Apply(c, p).Some? && q == Apply(c, p).value.pdl && q.pendingReads == map[]
    ensures q.committed == if l.inst.direction.WRITE? then p.committed[l.inst.name := Current(p, l.inst.name)] else p.committed
    ensures PlaysTo(w, world, t, c, q) && ChecksOf(w, t, q) == ChecksOf(w, t, p)
  {
    hide Network, Leaves, InsideArm, Play, Stage, CheckReads, TapOps, Tracks, Says, Apply, Current;
    assert OpenState(c, p.open) by { TracksOpen(w, world, t, c, p); }
    ApplySucceeds(c, p, l);
    q := Apply(c, p).value.pdl;
    ApplyBooks(c, p, l);
    StepApply(w, world, t, c, p);
    var checks := ApplyAddsChecks(w, world, t, c, p, l);
    assert ChecksOf(w, t, p).value + checks == ChecksOf(w, t, p).value;
  }

  /** An iApply with one read queued, for its own target, adds one check. */
  lemma AskingApply(w: Wiring<NetState>, world: World, t: Tap<NetState>, c: Chain, p: Pdl, l: LeafSite)
    returns (check: ReadCheck, n: nat)
    requires Network(c) && PlaysTo(w, world, t, c, p) && l in Leaves(c, []) && p.scope == Some(l.inst.name)
    requires p.pendingReads.Keys == {l.inst.name} && ReadFits(l, p) && ChecksOf(w, t, p).Some?
    ensures Apply(c, p).Some?
    ensures var q := Apply(c, p).value.pdl;
            && q.pendingReads == map[]
            && q.committed == (if l.inst.direction.WRITE? then p.committed[l.inst.name := Current(p, l.inst.name)]
                               else p.committed)
            && PlaysTo(w, world, t, c, q) && n == CaptureOf(w, t, c, p, l)
            && ChecksOf(w, t, q) == Some(ChecksOf(w, t, p).value + [check]) && Says(check, c, l, p, world(n))
  {
    hide Network, Leaves, InsideArm, Play, Stage, CheckReads, TapOps, Tracks, Says, Apply, Current, ReadFits;
    assert OpenState(c, p.open) by { TracksOpen(w, world, t, c, p); }
    ApplySucceeds(c, p, l);
    ApplyBooks(c, p, l);
    StepApply(w, world, t, c, p);
    var checks := ApplyAddsChecks(w, world, t, c, p, l);
    check := checks[0];
    assert checks == [check];
    n := CaptureOf(w, t, c, p, l);
  }

  // ---------------------------------------------------------------- runs cut short

  /** A run that fails has failed. */
  lemma {:induction false} Stops(c: Chain, root: ModuleInstance, calls: seq<Call>, k: nat)
    requires k <= |calls| && Run(c, root, calls[..k]).None?
    ensures Run(c, root, calls).None?
    decreases |calls|
  {
    hide Do;
    if k == |calls| {
      assert calls[..k] == calls;
    } else {
      assert calls[..|calls| - 1][..k] == calls[..k];
      Stops(c, root, calls[..|calls| - 1], k);
    }
  }

  /** Commands only append to the program. */
  lemma Appends(c: Chain, root: ModuleInstance, p: Pdl, call: Call)
    requires Do(c, root, p, call).Some?
    ensures p.program <= Do(c, root, p, call).value.program
  {
    hide OpenPath, Stage, RoundOps, DrOps, PayloadShift, Resolve, ResolveField, FindInstrument;
  }

  lemma {:induction false} RunGrows(c: Chain, root: ModuleInstance, calls: seq<Call>, k: nat)
    requires k <= |calls| && Run(c, root, calls).Some?
    ensures Run(c, root, calls[..k]).Some?
    ensures Run(c, root, calls[..k]).value.program <= Run(c, root, calls).value.program
    decreases |calls|
  {
    hide Do;
    if k == |calls| {
      assert calls[..k] == calls;
    } else {
      var init := calls[..|calls| - 1];
      assert init[..k] == calls[..k];
      RunGrows(c, root, init, k);
      Appends(c, root, Run(c, root, init).value, calls[|calls| - 1]);
    }
  }
}
