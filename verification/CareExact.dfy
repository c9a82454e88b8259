/** The care bits of the integrity program (tap_integrity.py) leave nothing out: a shift cycle is not compared only
    where two networks that both conform show different bits. */
module CareExact {
  import opened Wrappers
  import opened Bits
  import opened IclModel
  import opened SibCells
  import opened SibRetarget
  import opened SibStaging
  import opened PathPlan
  import opened TapFsm
  import opened TapModel
  import opened PdlSpec
  import opened Retargeting
  import opened Integrity
  import opened IntegrityTests
  import opened ProgramCycles
  import opened IntegrityProgram

  /** Each entry is made of what the two models show in that cycle. */
  lemma {:induction false} EntriesAre(wl: Wiring<NetState>, wh: Wiring<NetState>, c: Chain, low: Tap<NetState>,
                                      high: Tap<NetState>, ins: seq<TckInput>, k: nat)
    requires Expected(wl, wh, c, low, high, ins).Some? && k < |ins|
    ensures DriveAll(wl, c, low, ins).Some? && DriveAll(wh, c, high, ins).Some?
    ensures var entry := Expected(wl, wh, c, low, high, ins).value[k];
            var (x, y) := (DriveAll(wl, c, low, ins).value.1[k], DriveAll(wh, c, high, ins).value.1[k]);
            && entry.input == ins[k] && (entry.care ==> entry.shift)
            && (entry.shift ==> entry.tdo == x && (entry.care <==> x == y))
    decreases |ins|
  {
    hide Drive;
    var (l, h) := (Drive(wl, c, low, ins[0]).value, Drive(wh, c, high, ins[0]).value);
    if |ins| > 1 {
      EntriesAre(wl, wh, c, l.0, h.0, ins[1..], if k > 0 then k - 1 else 0);
    }
  }

  lemma ModelConforms(live: set<string>, values: map<string, int>, high: bool)
    ensures Conforms(ModelWorld(live, values, high), live, values)
  {
  }

  /** For every built program and every shift cycle it does not compare, there are two networks that show what the
      program was told of them and yet show different bits there. With BuiltProgramPasses: a shift cycle is compared
      if and only if all conforming networks show the same bit. */
  lemma CareIsComplete(cfg: Config, c: Chain, root: ModuleInstance, live: set<string>, values: map<string, int>,
                       margin: int, options: Options, k: nat) returns (one: World, other: World)
    requires Usable(cfg) && (c.End? || Network(c))
    requires BuildProgram(cfg, c, root, live, values, margin, options).Some?
    requires k < |BuildProgram(cfg, c, root, live, values, margin, options).value|
    requires var entry := BuildProgram(cfg, c, root, live, values, margin, options).value[k];
             entry.shift && !entry.care
    ensures Conforms(one, live, values) && Conforms(other, live, values)
    ensures AllTests(cfg, c, root, margin, options).Some?
    ensures var ins, start := Frames(AllTests(cfg, c, root, margin, options).value), ResetTap(cfg, NetState(Fresh(c), 0));
            var (x, y) := (DriveAll(Rig(cfg, c, one), c, start, ins), DriveAll(Rig(cfg, c, other), c, start, ins));
            x.Some? && y.Some? && k < |ins| && x.value.1[k] != y.value.1[k]
  {
    hide *;
    ProgramBuilt(cfg, c, root, live, values, margin, options);
    BuiltCycles(cfg, c, root, live, values, margin, options);
    one, other := ModelWorld(live, values, false), ModelWorld(live, values, true);
    ModelConforms(live, values, false);
    ModelConforms(live, values, true);
    var ins, start := Frames(AllTests(cfg, c, root, margin, options).value), ResetTap(cfg, NetState(Fresh(c), 0));
    ProgramIs(cfg, c, live, values, ins);
    EntriesAre(Rig(cfg, c, one), Rig(cfg, c, other), c, start, start, ins, k);
  }

  lemma ProgramIs(cfg: Config, c: Chain, live: set<string>, values: map<string, int>, ins: seq<TckInput>)
    ensures var start := ResetTap(cfg, NetState(Fresh(c), 0));
            Program(cfg, c, live, values, ins)
            == Expected(Rig(cfg, c, ModelWorld(live, values, false)), Rig(cfg, c, ModelWorld(live, values, true)), c,
                        start, start, ins)
  {
  }
}
