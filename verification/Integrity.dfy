/** The integrity program's expected TDO (tap_integrity.py): two TAP models stepped in lockstep decide
    which bits may be compared. A conforming network, whatever its live instruments show, passes. */
module Integrity {
  import opened Wrappers
  import opened Bits
  import opened IclModel
  import opened SibCells
  import opened SibShift
  import opened SibRound
  import opened SibReach
  import opened CareBits
  import opened TapFsm
  import opened TapModel
  import opened TapSelect
  import opened Retargeting

  datatype TckInput = TckInput(tms: bool, tdi: bool, trstN: bool)

  /** One program cycle: what is driven, whether TDO carries a bit, its expected value, and whether
      that value may be compared. */
  datatype TckCycle = TckCycle(input: TckInput, shift: bool, tdo: bool, care: bool)

  function TailOf(h: Cells): bool {
    var seen := Seen(h);
    seen != [] && seen[|seen| - 1]
  }

  /** SAMPLE/PRELOAD's register over a network: the tail on TDO, leaves capture, nothing moves. */
  function TailRegister(world: World): DataRegister<NetState> {
    DataRegister(
      (n: NetState) => NetState(CaptureUnselected(n.cells, world(n.captures)), n.captures + 1),
      (n: NetState, tdi) => (n, TailOf(n.cells)),
      (n: NetState) => n)
  }

  /** What _expected_cycles plugs into a model. */
  function Rig(cfg: Config, c: Chain, world: World): Wiring<NetState> {
    if cfg.accessOpcode.Some? then Wiring(None, None, Some(NetworkRegister(world)))
    else Wiring(Some(NetworkRegister(world)), if c.End? then None else Some(TailRegister(world)), None)
  }

  /** One TCK period: TRST resets the model and the network without an edge. */
  function Drive(w: Wiring<NetState>, c: Chain, t: Tap<NetState>, i: TckInput): Option<(Tap<NetState>, bool)> {
    if i.trstN then Tick(w, t, i.tms, i.tdi)
    else Some((ResetTap(t.cfg, NetState(Fresh(c), t.network.captures)), false))
  }

  function DriveAll(w: Wiring<NetState>, c: Chain, t: Tap<NetState>, ins: seq<TckInput>)
    : (r: Option<(Tap<NetState>, Bits)>)
    ensures r.Some? ==> |r.value.1| == |ins|
    decreases |ins|
  {
    if ins == [] then Some((t, []))
    else match Drive(w, c, t, ins[0])
      case None => None
      case Some((u, tdo)) =>
        match DriveAll(w, c, u, ins[1..])
        case None => None
        case Some((v, out)) => Some((v, [tdo] + out))
  }

  predicate Shifting(s: TapState) { s.ShiftIrState? || s.ShiftDrState? }

  /** One entry of the program, from both models' TDO. */
  function Expect(s: TapState, i: TckInput, low: bool, high: bool): TckCycle {
    var shift := i.trstN && Shifting(s);
    TckCycle(i, shift, shift && low, shift && low == high)
  }

  function Expected(wl: Wiring<NetState>, wh: Wiring<NetState>, c: Chain, low: Tap<NetState>, high: Tap<NetState>,
                    ins: seq<TckInput>): (r: Option<seq<TckCycle>>)
    ensures r.Some? ==> |r.value| == |ins|
    decreases |ins|
  {
    if ins == [] then Some([])
    else match (Drive(wl, c, low, ins[0]), Drive(wh, c, high, ins[0]))
      case (Some((l, tl)), Some((h, th))) =>
        (match Expected(wl, wh, c, l, h, ins[1..])
         case None => None
         case Some(rest) => Some([Expect(low.state, ins[0], tl, th)] + rest))
      case _ => None
  }

  /** Where a run ends, if it does not stop. */
  function Ends(w: Wiring<NetState>, c: Chain, t: Tap<NetState>, ins: seq<TckInput>): Option<Tap<NetState>> {
    match DriveAll(w, c, t, ins)
    case None => None
    case Some((u, _)) => Some(u)
  }

  /** One cycle, and then the rest. */
  lemma ExpectedStep(wl: Wiring<NetState>, wh: Wiring<NetState>, c: Chain, low: Tap<NetState>, high: Tap<NetState>,
                     ins: seq<TckInput>)
    ensures ins == [] ==> Expected(wl, wh, c, low, high, ins) == Some([])
                          && Ends(wl, c, low, ins) == Some(low) && Ends(wh, c, high, ins) == Some(high)
    ensures ins != [] && (Drive(wl, c, low, ins[0]).None? || Drive(wh, c, high, ins[0]).None?)
            ==> Expected(wl, wh, c, low, high, ins).None?
    ensures ins != [] && Drive(wl, c, low, ins[0]).Some? && Drive(wh, c, high, ins[0]).Some? ==>
              var (l, tl) := Drive(wl, c, low, ins[0]).value;
              var (h, th) := Drive(wh, c, high, ins[0]).value;
              && Expected(wl, wh, c, low, high, ins)
                 == Onto([Expect(low.state, ins[0], tl, th)], Expected(wl, wh, c, l, h, ins[1..]))
              && Ends(wl, c, low, ins) == Ends(wl, c, l, ins[1..])
              && Ends(wh, c, high, ins) == Ends(wh, c, h, ins[1..])
  {
    hide Drive, Expect;
  }

  /** What was computed already, and then the rest. */
  function Onto(out: seq<TckCycle>, rest: Option<seq<TckCycle>>): Option<seq<TckCycle>> {
    if rest.None? then None else Some(out + rest.value)
  }

  lemma OntoTwice(out: seq<TckCycle>, here: seq<TckCycle>, rest: Option<seq<TckCycle>>)
    ensures Onto(out, Onto(here, rest)) == Onto(out + here, rest) && Onto([], rest) == rest
  {
    if rest.Some? {
      assert out + (here + rest.value) == out + here + rest.value && [] + rest.value == rest.value;
    }
  }

  /** Both models stepped one cycle at a time, and where they end. */
  method ExpectedCycles(wl: Wiring<NetState>, wh: Wiring<NetState>, c: Chain, low: Tap<NetState>,
                        high: Tap<NetState>, ins: seq<TckInput>)
    returns (cycles: Option<seq<TckCycle>>, low': Tap<NetState>, high': Tap<NetState>)
    ensures cycles == Expected(wl, wh, c, low, high, ins)
    ensures cycles.Some? ==> Ends(wl, c, low, ins) == Some(low') && Ends(wh, c, high, ins) == Some(high')
  {
    hide Drive, Expected, Ends, Expect, Onto;
    low', high' := low, high;
    var out: seq<TckCycle> := [];
    assert ins[0..] == ins;
    OntoTwice([], [], Expected(wl, wh, c, low, high, ins));
    for k := 0 to |ins|
      invariant Expected(wl, wh, c, low, high, ins) == Onto(out, Expected(wl, wh, c, low', high', ins[k..]))
      invariant Ends(wl, c, low, ins) == Ends(wl, c, low', ins[k..])
      invariant Ends(wh, c, high, ins) == Ends(wh, c, high', ins[k..])
    {
      assert ins[k..][0] == ins[k] && ins[k..][1..] == ins[k + 1..];
      ExpectedStep(wl, wh, c, low', high', ins[k..]);
      var dl, dh := Drive(wl, c, low', ins[k]), Drive(wh, c, high', ins[k]);
      if dl.None? || dh.None? {
        OntoNone(out);
        cycles := None;
        return;
      }
      var here := Expect(low'.state, ins[k], dl.value.1, dh.value.1);
      OntoTwice(out, [here], Expected(wl, wh, c, dl.value.0, dh.value.0, ins[k + 1..]));
      out := out + [here];
      low', high' := dl.value.0, dh.value.0;
    }
    ExpectedStep(wl, wh, c, low', high', ins[|ins|..]);
    OntoAll(out);
    cycles := Some(out);
  }

  lemma OntoNone(out: seq<TckCycle>)
    ensures Onto(out, None) == None
  {
  }

  lemma OntoAll(out: seq<TckCycle>)
    ensures Onto(out, Some([])) == Some(out)
  {
    assert out + [] == out;
  }

  function Level(b: bool): int { if b then 1 else 0 }

  /** Every care bit was seen. */
  ghost predicate Passes(cycles: seq<TckCycle>, observed: seq<int>)
    requires |observed| == |cycles|
  {
    forall k :: 0 <= k < |cycles| && cycles[k].care ==> observed[k] == Level(cycles[k].tdo)
  }

  /** check_integrity: None for a trace of the wrong length; else whether it passed and how many
      cycles were compared. */
  method CheckIntegrity(cycles: seq<TckCycle>, observed: seq<int>) returns (result: Option<(bool, nat)>)
    ensures result.Some? <==> |observed| == |cycles|
    ensures result.Some? ==>
      (result.value.0 <==> Passes(cycles, observed))
      && result.value.1 == |set k | 0 <= k < |cycles| && cycles[k].care|
  {
    if |observed| != |cycles| {
      return None;
    }
    var passed, compared := true, 0;
    ghost var done: set<int> := {};
    for k := 0 to |cycles|
      invariant passed <==> forall i :: 0 <= i < k && cycles[i].care ==> observed[i] == Level(cycles[i].tdo)
      invariant done == (set i | 0 <= i < k && cycles[i].care) && compared == |done|
    {
      if cycles[k].care {
        compared := compared + 1;
        done := done + {k};
        var value := if observed[k] == 0 || observed[k] == 1 then observed[k] else -1;
        if value != Level(cycles[k].tdo) {
          passed := false;
        }
      }
    }
    return Some((passed, compared));
  }

  // ---------------------------------------------------------------- lockstep

  ghost predicate WorldsBetween(low: World, high: World, third: World) {
    forall n: nat :: SenseBetween(low(n), high(n), third(n))
  }

  /** Three TAPs in the same state but for what their networks' instruments have shown. */
  ghost predicate InLockstep(low: Tap<NetState>, high: Tap<NetState>, third: Tap<NetState>) {
    && low.(network := third.network) == third && low.(network := high.network) == high
    && StatesBetween(low.network, high.network, third.network)
  }

  lemma TailAmong(low: Cells, high: Cells, third: Cells)
    requires Among(low, high, third)
    ensures Between(TailOf(low), TailOf(high), TailOf(third))
  {
    hide Among, Seen;
    SeenAmong(low, high, third);
  }

  ghost predicate StatesBetween(low: NetState, high: NetState, third: NetState) {
    low.captures == high.captures == third.captures && Among(low.cells, high.cells, third.cells)
  }

  /** The three operations of a data register keep the lockstep; an update does so when the models'
      selects come out equal. */
  ghost predicate RegistersBetween(
    dl: DataRegister<NetState>, dh: DataRegister<NetState>, dt: DataRegister<NetState>,
    low: NetState, high: NetState, third: NetState, tdi: bool)
  {
    && StatesBetween(dl.capture(low), dh.capture(high), dt.capture(third))
    && StatesBetween(dl.shift(low, tdi).0, dh.shift(high, tdi).0, dt.shift(third, tdi).0)
    && Between(dl.shift(low, tdi).1, dh.shift(high, tdi).1, dt.shift(third, tdi).1)
    && (SameSelects(dl.update(low).cells, dh.update(high).cells) ==>
          StatesBetween(dl.update(low), dh.update(high), dt.update(third)))
  }

  lemma NetworkLockstep(wl: World, wh: World, wt: World, low: NetState, high: NetState, third: NetState, tdi: bool)
    requires WorldsBetween(wl, wh, wt) && StatesBetween(low, high, third)
    ensures RegistersBetween(NetworkRegister(wl), NetworkRegister(wh), NetworkRegister(wt), low, high, third, tdi)
  {
    hide Among, SenseBetween, Capture, Shift, Update, SameSelects, Between;
    CaptureAmong(low.cells, high.cells, third.cells, wl(low.captures), wh(low.captures), wt(low.captures), true);
    ShiftAmong(low.cells, high.cells, third.cells, tdi);
    if SameSelects(Update(low.cells, true), Update(high.cells, true)) {
      UpdateAmong(low.cells, high.cells, third.cells, true);
    }
  }

  lemma TailLockstep(wl: World, wh: World, wt: World, low: NetState, high: NetState, third: NetState, tdi: bool)
    requires WorldsBetween(wl, wh, wt) && StatesBetween(low, high, third)
    ensures RegistersBetween(TailRegister(wl), TailRegister(wh), TailRegister(wt), low, high, third, tdi)
  {
    hide Among, SenseBetween, CaptureUnselected, SameSelects, Between, TailOf;
    UnselectedAmong(low.cells, high.cells, third.cells, wl(low.captures), wh(low.captures), wt(low.captures));
    TailAmong(low.cells, high.cells, third.cells);
  }

  /** The registers the three TAPs drive under instruction `i`: none of them, or three in lockstep. */
  ghost predicate WiresBetween(
    wl: Wiring<NetState>, wh: Wiring<NetState>, wt: Wiring<NetState>, i: Instruction,
    low: NetState, high: NetState, third: NetState, tdi: bool)
  {
    && Registered(wl, i).Some? == Registered(wh, i).Some? == Registered(wt, i).Some?
    && (Registered(wl, i).Some? ==>
          RegistersBetween(Registered(wl, i).value, Registered(wh, i).value, Registered(wt, i).value,
                           low, high, third, tdi))
  }

  lemma RigLockstep(cfg: Config, c: Chain, wl: World, wh: World, wt: World, i: Instruction,
                    low: NetState, high: NetState, third: NetState, tdi: bool)
    requires WorldsBetween(wl, wh, wt) && StatesBetween(low, high, third)
    ensures WiresBetween(Rig(cfg, c, wl), Rig(cfg, c, wh), Rig(cfg, c, wt), i, low, high, third, tdi)
  {
    hide WorldsBetween, StatesBetween, RegistersBetween, NetworkRegister, TailRegister;
    NetworkLockstep(wl, wh, wt, low, high, third, tdi);
    TailLockstep(wl, wh, wt, low, high, third, tdi);
  }

  lemma CaptureLockstep(wl: Wiring<NetState>, wh: Wiring<NetState>, wt: Wiring<NetState>,
                        low: Tap<NetState>, high: Tap<NetState>, third: Tap<NetState>, tdi: bool)
    requires InLockstep(low, high, third) && CaptureActive(wl, low).Some? && CaptureActive(wh, high).Some?
    requires WiresBetween(wl, wh, wt, low.instruction, low.network, high.network, third.network, tdi)
    ensures CaptureActive(wt, third).Some?
    ensures InLockstep(CaptureActive(wl, low).value, CaptureActive(wh, high).value, CaptureActive(wt, third).value)
    ensures CaptureActive(wl, low).value.cfg == low.cfg
  {
    hide StatesBetween, Registered, FromInt, SameSelects, Between;
  }

  lemma ShiftLockstep(wl: Wiring<NetState>, wh: Wiring<NetState>, wt: Wiring<NetState>,
                      low: Tap<NetState>, high: Tap<NetState>, third: Tap<NetState>, tdi: bool)
    requires InLockstep(low, high, third) && ShiftActive(wl, low, tdi).Some? && ShiftActive(wh, high, tdi).Some?
    requires WiresBetween(wl, wh, wt, low.instruction, low.network, high.network, third.network, tdi)
    ensures ShiftActive(wt, third, tdi).Some?
    ensures var ((l, tl), (h, th)) := (ShiftActive(wl, low, tdi).value, ShiftActive(wh, high, tdi).value);
            var (t, tt) := ShiftActive(wt, third, tdi).value;
            InLockstep(l, h, t) && Between(tl, th, tt) && l.cfg == low.cfg
  {
    hide StatesBetween, Registered, SameSelects;
  }

  lemma UpdateLockstep(wl: Wiring<NetState>, wh: Wiring<NetState>, wt: Wiring<NetState>,
                       low: Tap<NetState>, high: Tap<NetState>, third: Tap<NetState>, tdi: bool)
    requires InLockstep(low, high, third) && UpdateActive(wl, low).Some? && UpdateActive(wh, high).Some?
    requires WiresBetween(wl, wh, wt, low.instruction, low.network, high.network, third.network, tdi)
    requires SameSelects(UpdateActive(wl, low).value.network.cells, UpdateActive(wh, high).value.network.cells)
    ensures UpdateActive(wt, third).Some?
    ensures InLockstep(UpdateActive(wl, low).value, UpdateActive(wh, high).value, UpdateActive(wt, third).value)
    ensures UpdateActive(wl, low).value.cfg == low.cfg
  {
    hide StatesBetween, Registered, SameSelects, Between;
  }

  lemma ActLockstep(wl: Wiring<NetState>, wh: Wiring<NetState>, wt: Wiring<NetState>,
                    low: Tap<NetState>, high: Tap<NetState>, third: Tap<NetState>, tdi: bool)
    requires InLockstep(low, high, third) && Act(wl, low, tdi).Some? && Act(wh, high, tdi).Some?
    requires WiresBetween(wl, wh, wt, low.instruction, low.network, high.network, third.network, tdi)
    requires SameSelects(Act(wl, low, tdi).value.0.network.cells, Act(wh, high, tdi).value.0.network.cells)
    ensures Act(wt, third, tdi).Some?
    ensures var ((l, tl), (h, th)) := (Act(wl, low, tdi).value, Act(wh, high, tdi).value);
            var (t, tt) := Act(wt, third, tdi).value;
            InLockstep(l, h, t) && Between(tl, th, tt) && l.cfg == low.cfg
  {
    hide StatesBetween, WiresBetween, SameSelects, CaptureActive, ShiftActive, UpdateActive, FromInt, Decode;
    match low.state
    case CaptureDr => CaptureLockstep(wl, wh, wt, low, high, third, tdi);
    case ShiftDrState => ShiftLockstep(wl, wh, wt, low, high, third, tdi);
    case UpdateDr => UpdateLockstep(wl, wh, wt, low, high, third, tdi);
    case _ =>
  }

  lemma DriveLockstep(cfg: Config, c: Chain, wl: World, wh: World, wt: World,
                      low: Tap<NetState>, high: Tap<NetState>, third: Tap<NetState>, i: TckInput)
    requires WorldsBetween(wl, wh, wt) && InLockstep(low, high, third) && low.cfg == cfg
    requires Drive(Rig(cfg, c, wl), c, low, i).Some? && Drive(Rig(cfg, c, wh), c, high, i).Some?
    requires SameSelects(Drive(Rig(cfg, c, wl), c, low, i).value.0.network.cells,
                         Drive(Rig(cfg, c, wh), c, high, i).value.0.network.cells)
    ensures Drive(Rig(cfg, c, wt), c, third, i).Some?
    ensures var (l, tl) := Drive(Rig(cfg, c, wl), c, low, i).value;
            var (h, th) := Drive(Rig(cfg, c, wh), c, high, i).value;
            var (t, tt) := Drive(Rig(cfg, c, wt), c, third, i).value;
            InLockstep(l, h, t) && Between(tl, th, tt) && l.cfg == cfg
  {
    hide Among, SameSelects, Act, Rig, Fresh, WorldsBetween, WiresBetween;
    if i.trstN {
      RigLockstep(cfg, c, wl, wh, wt, low.instruction, low.network, high.network, third.network, i.tdi);
      ActLockstep(Rig(cfg, c, wl), Rig(cfg, c, wh), Rig(cfg, c, wt), low, high, third, i.tdi);
    } else {
      FreshAmong(c);
    }
  }

  /** Along the whole run the two models keep equal selects. */
  ghost predicate SelectsHold(wl: Wiring<NetState>, wh: Wiring<NetState>, c: Chain, low: Tap<NetState>,
                              high: Tap<NetState>, ins: seq<TckInput>)
    decreases |ins|
  {
    if ins == [] then true
    else match (Drive(wl, c, low, ins[0]), Drive(wh, c, high, ins[0]))
      case (Some((l, _)), Some((h, _))) =>
        SameSelects(l.network.cells, h.network.cells) && SelectsHold(wl, wh, c, l, h, ins[1..])
      case _ => true
  }

  /** Care bits are sound: along any TCK and TRST sequence on which the two models keep equal selects,
      a third network, whose live instruments capture anything at each capture, runs too and shows
      the expected TDO on every care cycle. */
  lemma {:induction false} CareBitsAreSound(
    cfg: Config, c: Chain, wl: World, wh: World, wt: World,
    low: Tap<NetState>, high: Tap<NetState>, third: Tap<NetState>, ins: seq<TckInput>)
    requires WorldsBetween(wl, wh, wt) && InLockstep(low, high, third) && low.cfg == cfg
    requires Expected(Rig(cfg, c, wl), Rig(cfg, c, wh), c, low, high, ins).Some?
    requires SelectsHold(Rig(cfg, c, wl), Rig(cfg, c, wh), c, low, high, ins)
    ensures DriveAll(Rig(cfg, c, wt), c, third, ins).Some?
    ensures var cycles := Expected(Rig(cfg, c, wl), Rig(cfg, c, wh), c, low, high, ins).value;
            var out := DriveAll(Rig(cfg, c, wt), c, third, ins).value.1;
            forall k :: 0 <= k < |ins| && cycles[k].care ==> out[k] == cycles[k].tdo
    decreases |ins|
  {
    hide Drive, Rig, SameSelects, InLockstep, WorldsBetween;
    if ins != [] {
      var l := Drive(Rig(cfg, c, wl), c, low, ins[0]).value;
      var h := Drive(Rig(cfg, c, wh), c, high, ins[0]).value;
      DriveLockstep(cfg, c, wl, wh, wt, low, high, third, ins[0]);
      var t := Drive(Rig(cfg, c, wt), c, third, ins[0]).value;
      CareBitsAreSound(cfg, c, wl, wh, wt, l.0, h.0, t.0, ins[1..]);
    }
  }

  // ---------------------------------------------------------------- live instruments

  /** A model's sense: a live instrument captures its pinned value, else `default`; any other
      instrument its declared stub. */
  function ModelSense(live: set<string>, values: map<string, int>, high: bool): Sense {
    (inst: Instrument) =>
      if inst.name !in live then inst.captureValue
      else if inst.name in values then values[inst.name]
      else if high then Pow2(inst.width) - 1 else 0
  }

  function ModelWorld(live: set<string>, values: map<string, int>, high: bool): World {
    n => ModelSense(live, values, high)
  }

  /** A network that shows what the program was told of it, at every capture: the declared value of an instrument that
      is not live, and of a live one the value it is pinned at, if there is one. */
  ghost predicate Conforms(world: World, live: set<string>, values: map<string, int>) {
    forall n: nat, inst: Instrument ::
      && (inst.name !in live ==> world(n)(inst) == inst.captureValue)
      && (inst.name in live && inst.name in values ==> world(n)(inst) == values[inst.name])
  }

  /** All 0s and all 1s bracket every value. */
  lemma ModelsBracket(world: World, live: set<string>, values: map<string, int>)
    requires Conforms(world, live, values)
    ensures WorldsBetween(ModelWorld(live, values, false), ModelWorld(live, values, true), world)
  {
    forall n: nat, inst: Instrument, k: nat | k < inst.width
      ensures Between(BitOf(ModelSense(live, values, false)(inst), k), BitOf(ModelSense(live, values, true)(inst), k),
                      BitOf(world(n)(inst), k))
    {
      if inst.name in live && inst.name !in values {
        ZeroBit(k);
        AllOnesBit(inst.width, k);
      }
    }
  }

  /** The program's cycles for a TAP and network straight out of reset. */
  function Program(cfg: Config, c: Chain, live: set<string>, values: map<string, int>, ins: seq<TckInput>)
    : Option<seq<TckCycle>>
  {
    var start := ResetTap(cfg, NetState(Fresh(c), 0));
    Expected(Rig(cfg, c, ModelWorld(live, values, false)), Rig(cfg, c, ModelWorld(live, values, true)), c,
             start, start, ins)
  }

  ghost predicate ProgramSelectsHold(
    cfg: Config, c: Chain, live: set<string>, values: map<string, int>, ins: seq<TckInput>)
  {
    var start := ResetTap(cfg, NetState(Fresh(c), 0));
    SelectsHold(Rig(cfg, c, ModelWorld(live, values, false)), Rig(cfg, c, ModelWorld(live, values, true)), c,
                start, start, ins)
  }

  /** No false failure: a conforming network passes check_integrity whatever its live instruments show. */
  lemma ConformingNetworkPasses(
    cfg: Config, c: Chain, live: set<string>, values: map<string, int>, ins: seq<TckInput>, world: World)
    requires Program(cfg, c, live, values, ins).Some? && ProgramSelectsHold(cfg, c, live, values, ins)
    requires Conforms(world, live, values)
    ensures var run := DriveAll(Rig(cfg, c, world), c, ResetTap(cfg, NetState(Fresh(c), 0)), ins);
            && run.Some?
            && Passes(Program(cfg, c, live, values, ins).value,
                      seq(|ins|, k requires 0 <= k < |ins| => Level(run.value.1[k])))
  {
    var start := ResetTap(cfg, NetState(Fresh(c), 0));
    ModelsBracket(world, live, values);
    FreshAmong(c);
    CareBitsAreSound(cfg, c, ModelWorld(live, values, false), ModelWorld(live, values, true), world,
                     start, start, start, ins);
  }

  // ---------------------------------------------------------------- when the selects stay equal

  predicate Selected(t: Tap<NetState>) { t.instruction == NetworkInstruction(t.cfg) }

  /** Network shift cycles since the last capture, reset or update. */
  function Fed(t: Tap<NetState>, i: TckInput, count: nat): nat {
    if !i.trstN || t.state.CaptureDr? || t.state.UpdateDr? then 0
    else if t.state.ShiftDrState? && Selected(t) then count + 1
    else count
  }

  /** Every Update-DR of the selected network ends a scan at least as long as its live chain. */
  ghost predicate ScansAreLong(w: Wiring<NetState>, c: Chain, t: Tap<NetState>, ins: seq<TckInput>, count: nat)
    decreases |ins|
  {
    if ins == [] then true
    else
      && (ins[0].trstN && t.state.UpdateDr? && Selected(t) ==> |Raw(t.network.cells)| <= count)
      && match Drive(w, c, t, ins[0])
         case None => true
         case Some((u, _)) => ScansAreLong(w, c, u, ins[1..], Fed(t, ins[0], count))
  }

  /** The cells nearest TDI hold what was fed, so they are the same in both models. */
  ghost predicate SamePrefix(a: Cells, b: Cells, count: nat) {
    |Raw(a)| == |Raw(b)| && forall k :: 0 <= k < count && k < |Raw(a)| ==> Raw(a)[k] == Raw(b)[k]
  }

  ghost predicate Shaped(h: Cells, c: Chain) {
    Topo(h) == c && Sized(h) && GoodShape(c) && Structured(c)
  }

  lemma ShiftExtendsPrefix(a: Cells, b: Cells, c: Chain, tdi: bool, count: nat)
    requires Shaped(a, c) && Shaped(b, c) && SamePrefix(a, b, count)
    ensures Shaped(Shift(a, tdi).0, c) && Shaped(Shift(b, tdi).0, c)
    ensures SamePrefix(Shift(a, tdi).0, Shift(b, tdi).0, count + 1)
  {
    if c.End? {
      EmptyRaw(a);
      EmptyRaw(b);
    } else {
      ShiftedRaw(a, c, tdi);
      ShiftedRaw(b, c, tdi);
      hide Raw, Shift;
      forall k | 0 <= k < count + 1 && k < |Raw(a)| ensures Raw(Shift(a, tdi).0)[k] == Raw(Shift(b, tdi).0)[k] {
        if k > 0 {
          assert Raw(a)[k - 1] == Raw(b)[k - 1];
        }
      }
    }
  }

  lemma EmptyRaw(h: Cells)
    requires Topo(h).End?
    ensures h == CEnd && Raw(h) == []
  {
  }

  lemma ShiftedRaw(h: Cells, c: Chain, tdi: bool)
    requires Shaped(h, c) && !c.End?
    ensures Raw(h) != [] && Raw(Shift(h, tdi).0) == [tdi] + Raw(h)[..|Raw(h)| - 1] && Shaped(Shift(h, tdi).0, c)
  {
    hide Raw, Shift, Load;
    OneShift(h, tdi);
    var content := [tdi] + Raw(h)[..|Raw(h)| - 1];
    RawLoad(h, content);
    LoadKeeps(h, content);
  }

  /** Two networks of one shape with the same selects, the same bits nearest TDI. */
  ghost predicate Alike(a: NetState, b: NetState, c: Chain, count: nat) {
    Shaped(a.cells, c) && Shaped(b.cells, c) && SamePrefix(a.cells, b.cells, count) && SameSelects(a.cells, b.cells)
  }

  lemma NothingFed(a: NetState, b: NetState, c: Chain)
    requires Shaped(a.cells, c) && Shaped(b.cells, c) && StatesBetween(a, b, b)
    ensures Alike(a, b, c, 0)
  {
    RawAmong(a.cells, b.cells, b.cells);
    AmongSelects(a.cells, b.cells, b.cells);
  }

  lemma CaptureAlike(wl: World, wh: World, a: NetState, b: NetState, c: Chain)
    requires WorldsBetween(wl, wh, wh) && StatesBetween(a, b, b) && Shaped(a.cells, c) && Shaped(b.cells, c)
    ensures Alike(NetCapture(wl, a), NetCapture(wh, b), c, 0)
  {
    hide Capture, Among, SamePrefix, SameSelects, Sized, Topo, SenseBetween;
    NetworkLockstep(wl, wh, wh, a, b, b, false);
    CaptureKeeps(a.cells, wl(a.captures), true, map[], map[]);
    CaptureKeeps(b.cells, wh(b.captures), true, map[], map[]);
    NothingFed(NetCapture(wl, a), NetCapture(wh, b), c);
  }

  lemma TailAlike(wl: World, wh: World, a: NetState, b: NetState, c: Chain)
    requires WorldsBetween(wl, wh, wh) && StatesBetween(a, b, b) && Shaped(a.cells, c) && Shaped(b.cells, c)
    ensures Alike(TailRegister(wl).capture(a), TailRegister(wh).capture(b), c, 0)
  {
    hide CaptureUnselected, Among, SamePrefix, SameSelects, Sized, Topo, SenseBetween;
    TailLockstep(wl, wh, wh, a, b, b, false);
    UnselectedKeeps(a.cells, wl(a.captures));
    UnselectedKeeps(b.cells, wh(b.captures));
    NothingFed(TailRegister(wl).capture(a), TailRegister(wh).capture(b), c);
  }

  lemma ShiftAlike(a: NetState, b: NetState, c: Chain, tdi: bool, count: nat)
    requires StatesBetween(a, b, b) && Alike(a, b, c, count)
    ensures Alike(NetShift(a, tdi).0, NetShift(b, tdi).0, c, count + 1)
  {
    hide Shift, Among, SamePrefix, SameSelects, Sized, Topo;
    ShiftExtendsPrefix(a.cells, b.cells, c, tdi, count);
    ShiftAmong(a.cells, b.cells, b.cells, tdi);
    AmongSelects(Shift(a.cells, tdi).0, Shift(b.cells, tdi).0, Shift(b.cells, tdi).0);
  }

  lemma UpdateAlike(a: NetState, b: NetState, c: Chain, count: nat)
    requires StatesBetween(a, b, b) && Alike(a, b, c, count) && |Raw(a.cells)| <= count
    ensures Alike(NetUpdate(a), NetUpdate(b), c, 0)
  {
    hide Update, Among, SameSelects, Sized, Topo, Raw;
    assert Raw(a.cells) == Raw(b.cells);
    UpdateSelects(a.cells, b.cells, b.cells, true);
    UpdateAmong(a.cells, b.cells, b.cells, true);
    UpdateSized(a.cells, true);
    UpdateSized(b.cells, true);
    UpdateTopo(a.cells);
    UpdateTopo(b.cells);
    NothingFed(NetUpdate(a), NetUpdate(b), c);
  }

  lemma UpdateTopo(h: Cells)
    ensures Topo(Update(h, true)) == Topo(h)
  {
    UpdateSamePo(h, true);
  }

  lemma FreshAlike(c: Chain, n: nat)
    requires GoodShape(c) && Structured(c)
    ensures Alike(NetState(Fresh(c), n), NetState(Fresh(c), n), c, 0)
  {
    FreshAmong(c);
    FreshState(c);
    NothingFed(NetState(Fresh(c), n), NetState(Fresh(c), n), c);
  }

  /** One cycle of two models in lockstep, its update long enough if it is one. */
  lemma DriveAlike(cfg: Config, c: Chain, wl: World, wh: World, low: Tap<NetState>, high: Tap<NetState>,
                   i: TckInput, count: nat)
    requires WorldsBetween(wl, wh, wh) && InLockstep(low, high, high) && low.cfg == cfg
    requires Alike(low.network, high.network, c, count)
    requires i.trstN && low.state.UpdateDr? && Selected(low) ==> |Raw(low.network.cells)| <= count
    requires Drive(Rig(cfg, c, wl), c, low, i).Some? && Drive(Rig(cfg, c, wh), c, high, i).Some?
    ensures Alike(Drive(Rig(cfg, c, wl), c, low, i).value.0.network, Drive(Rig(cfg, c, wh), c, high, i).value.0.network,
                  c, Fed(low, i, count))
  {
    hide Among, Alike, WorldsBetween, Fresh, Act, Rig, Raw;
    var a, b := low.network, high.network;
    LessPrefix(a, b, c, count);
    if i.trstN {
      ActAlike(cfg, c, wl, wh, low, high, i.tdi, count);
    } else {
      FreshAlike(c, a.captures);
    }
  }

  lemma ActAlike(cfg: Config, c: Chain, wl: World, wh: World, low: Tap<NetState>, high: Tap<NetState>,
                 tdi: bool, count: nat)
    requires WorldsBetween(wl, wh, wh) && InLockstep(low, high, high) && low.cfg == cfg
    requires Alike(low.network, high.network, c, count)
    requires low.state.UpdateDr? && Selected(low) ==> |Raw(low.network.cells)| <= count
    requires Act(Rig(cfg, c, wl), low, tdi).Some? && Act(Rig(cfg, c, wh), high, tdi).Some?
    ensures Alike(Act(Rig(cfg, c, wl), low, tdi).value.0.network, Act(Rig(cfg, c, wh), high, tdi).value.0.network,
                  c, Fed(low, TckInput(false, tdi, true), count))
  {
    hide StatesBetween, Alike, WorldsBetween, FromInt, Decode, Raw, CaptureActive, ShiftActive, UpdateActive, Rig;
    LessPrefix(low.network, high.network, c, count);
    match low.state
    case CaptureDr => CaptureActiveAlike(cfg, c, wl, wh, low, high, count);
    case ShiftDrState => ShiftActiveAlike(cfg, c, wl, wh, low, high, tdi, count);
    case UpdateDr => UpdateActiveAlike(cfg, c, wl, wh, low, high, count);
    case _ =>
  }

  lemma CaptureActiveAlike(cfg: Config, c: Chain, wl: World, wh: World, low: Tap<NetState>, high: Tap<NetState>,
                           count: nat)
    requires WorldsBetween(wl, wh, wh) && InLockstep(low, high, high) && low.cfg == cfg
    requires Alike(low.network, high.network, c, count)
    requires CaptureActive(Rig(cfg, c, wl), low).Some? && CaptureActive(Rig(cfg, c, wh), high).Some?
    ensures Alike(CaptureActive(Rig(cfg, c, wl), low).value.network, CaptureActive(Rig(cfg, c, wh), high).value.network,
                  c, 0)
  {
    hide StatesBetween, Alike, WorldsBetween, FromInt, NetCapture, CaptureUnselected;
    LessPrefix(low.network, high.network, c, count);
    CaptureAlike(wl, wh, low.network, high.network, c);
    TailAlike(wl, wh, low.network, high.network, c);
  }

  lemma ShiftActiveAlike(cfg: Config, c: Chain, wl: World, wh: World, low: Tap<NetState>, high: Tap<NetState>,
                         tdi: bool, count: nat)
    requires InLockstep(low, high, high) && low.cfg == cfg && Alike(low.network, high.network, c, count)
    requires ShiftActive(Rig(cfg, c, wl), low, tdi).Some? && ShiftActive(Rig(cfg, c, wh), high, tdi).Some?
    ensures Alike(ShiftActive(Rig(cfg, c, wl), low, tdi).value.0.network,
                  ShiftActive(Rig(cfg, c, wh), high, tdi).value.0.network, c, if Selected(low) then count + 1 else count)
  {
    hide StatesBetween, Alike, FromInt, NetShift, TailOf;
    ShiftAlike(low.network, high.network, c, tdi, count);
  }

  lemma UpdateActiveAlike(cfg: Config, c: Chain, wl: World, wh: World, low: Tap<NetState>, high: Tap<NetState>,
                          count: nat)
    requires InLockstep(low, high, high) && low.cfg == cfg && Alike(low.network, high.network, c, count)
    requires Selected(low) ==> |Raw(low.network.cells)| <= count
    requires UpdateActive(Rig(cfg, c, wl), low).Some? && UpdateActive(Rig(cfg, c, wh), high).Some?
    ensures Alike(UpdateActive(Rig(cfg, c, wl), low).value.network, UpdateActive(Rig(cfg, c, wh), high).value.network,
                  c, 0)
  {
    hide StatesBetween, Alike, FromInt, NetUpdate, Raw;
    LessPrefix(low.network, high.network, c, count);
    if Selected(low) {
      UpdateAlike(low.network, high.network, c, count);
    }
  }

  lemma LessPrefix(a: NetState, b: NetState, c: Chain, count: nat)
    requires Alike(a, b, c, count)
    ensures Alike(a, b, c, 0) && Shaped(a.cells, c) && Shaped(b.cells, c) && GoodShape(c) && Structured(c)
  {
  }

  /** On a good shape the models' selects never part while every update of the selected network ends
      a scan at least as long as its live chain. */
  lemma {:induction false} LongScansKeepSelects(
    cfg: Config, c: Chain, wl: World, wh: World, low: Tap<NetState>, high: Tap<NetState>,
    ins: seq<TckInput>, count: nat)
    requires WorldsBetween(wl, wh, wh) && InLockstep(low, high, high) && low.cfg == cfg
    requires Alike(low.network, high.network, c, count)
    requires ScansAreLong(Rig(cfg, c, wl), c, low, ins, count)
    ensures SelectsHold(Rig(cfg, c, wl), Rig(cfg, c, wh), c, low, high, ins)
    decreases |ins|
  {
    hide Drive, Rig, WorldsBetween, InLockstep, Shaped, SamePrefix, SameSelects, Fed, Raw;
    if ins != [] {
      var l, h := Drive(Rig(cfg, c, wl), c, low, ins[0]), Drive(Rig(cfg, c, wh), c, high, ins[0]);
      if l.Some? && h.Some? {
        DriveAlike(cfg, c, wl, wh, low, high, ins[0], count);
        DriveLockstep(cfg, c, wl, wh, wh, low, high, high, ins[0]);
        LongScansKeepSelects(cfg, c, wl, wh, l.value.0, h.value.0, ins[1..], Fed(low, ins[0], count));
      }
    }
  }

  /** The hypothesis of ConformingNetworkPasses, for a program whose scans are long. */
  lemma LongProgramSelectsHold(
    cfg: Config, c: Chain, live: set<string>, values: map<string, int>, ins: seq<TckInput>)
    requires GoodShape(c) && Structured(c)
    requires ScansAreLong(Rig(cfg, c, ModelWorld(live, values, false)), c,
                          ResetTap(cfg, NetState(Fresh(c), 0)), ins, 0)
    ensures ProgramSelectsHold(cfg, c, live, values, ins)
  {
    var start := ResetTap(cfg, NetState(Fresh(c), 0));
    ModelsBracket(ModelWorld(live, values, true), live, values);
    FreshAmong(c);
    FreshAlike(c, 0);
    LongScansKeepSelects(cfg, c, ModelWorld(live, values, false), ModelWorld(live, values, true), start, start, ins, 0);
  }
}
