/** The two tables everything else navigates by: the TMS sequences of tap_ir_play.py, against the controller they
    walk, and the opcodes of tap_model.py. */
module TapTables {
  import opened Wrappers
  import opened Bits
  import opened TapFsm
  import opened TapModel
  import opened TapPlay

  lemma WalkStep(s: TapState, tms: Bits)
    requires tms != []
    ensures Walk(s, Idle(tms)) == Walk(NextState(s, tms[0]), Idle(tms[1..]))
  {
    hide NextState;
    assert Idle(tms)[0] == (tms[0], false) && Idle(tms)[1..] == Idle(tms[1..]);
  }

  lemma WalkNone(s: TapState)
    ensures Walk(s, Idle([])) == s
  {
  }

  /** Five cycles with TMS high end in Test-Logic-Reset from every state. */
  lemma FiveReset(s: TapState)
    ensures Walk(s, Idle([true, true, true, true, true])) == TestLogicReset
  {
    var a := NextState(s, true);
    var b := NextState(a, true);
    var c := NextState(b, true);
    var d := NextState(c, true);
    assert NextState(d, true) == TestLogicReset;
    hide NextState;
    WalkStep(s, [true, true, true, true, true]);
    WalkStep(a, [true, true, true, true]);
    WalkStep(b, [true, true, true]);
    WalkStep(c, [true, true]);
    WalkStep(d, [true]);
    WalkNone(TestLogicReset);
  }

  /** Every path the table gives arrives, and it gives one exactly from the states the source names. */
  lemma NavigationArrives(from: TapState, to: TapState)
    ensures NavigationTms(from, to).Some? ==> Walk(from, Idle(NavigationTms(from, to).value)) == to
    ensures NavigationTms(from, to).Some? <==>
            || to.TestLogicReset?
            || (from.RunTestIdle? && (to.ShiftDrState? || to.ShiftIrState? || to.RunTestIdle?))
            || (to.RunTestIdle? && (from.TestLogicReset? || from.Exit1Dr? || from.Exit1Ir?))
  {
    if NavigationTms(from, to).Some? {
      var tms := NavigationTms(from, to).value;
      FiveReset(from);
      if !to.TestLogicReset? {
        WalkNone(to);
        if |tms| > 0 {
          var a := NextState(from, tms[0]);
          WalkStep(from, tms);
          if |tms| > 1 {
            var b := NextState(a, tms[1]);
            WalkStep(a, tms[1..]);
            if |tms| > 2 {
              WalkStep(b, tms[1..][1..]);
              if |tms| > 3 {
                WalkStep(NextState(b, tms[2]), tms[1..][1..][1..]);
              }
            }
          }
        }
      }
    }
  }

  /** Where `n` cycles can lead. */
  function Ahead(s: TapState, n: nat): set<TapState>
    decreases n
  {
    if n == 0 then {s} else Ahead(NextState(s, false), n - 1) + Ahead(NextState(s, true), n - 1)
  }

  lemma {:induction false} WalkIsAhead(s: TapState, cycles: Cycles)
    ensures Walk(s, cycles) in Ahead(s, |cycles|)
    decreases |cycles|
  {
    hide NextState;
    if cycles != [] {
      WalkIsAhead(NextState(s, cycles[0].0), cycles[1..]);
    }
  }

  lemma FirstAhead(s: TapState)
    ensures Ahead(s, 0) == {s} && Ahead(s, 1) == {NextState(s, false), NextState(s, true)}
  {
  }

  /** What three cycles from Run-Test/Idle and one from Exit1 cannot reach. */
  lemma TooSoon()
    ensures ShiftDrState !in Ahead(RunTestIdle, 0) + Ahead(RunTestIdle, 1) + Ahead(RunTestIdle, 2)
    ensures ShiftIrState !in Ahead(RunTestIdle, 0) + Ahead(RunTestIdle, 1) + Ahead(RunTestIdle, 2) + Ahead(RunTestIdle, 3)
    ensures RunTestIdle !in Ahead(Exit1Dr, 0) + Ahead(Exit1Dr, 1) + Ahead(Exit1Ir, 0) + Ahead(Exit1Ir, 1)
    ensures RunTestIdle !in Ahead(TestLogicReset, 0)
  {
    FirstAhead(RunTestIdle);
    FirstAhead(SelectDrScan);
    FirstAhead(CaptureDr);
    FirstAhead(SelectIrScan);
    FirstAhead(Exit1Dr);
    FirstAhead(Exit1Ir);
    assert Ahead(RunTestIdle, 2) == Ahead(RunTestIdle, 1) + Ahead(SelectDrScan, 1);
    assert Ahead(SelectDrScan, 2) == Ahead(CaptureDr, 1) + Ahead(SelectIrScan, 1);
    assert Ahead(RunTestIdle, 3) == Ahead(RunTestIdle, 2) + Ahead(SelectDrScan, 2);
  }

  /** No run of fewer cycles gets there, whatever TMS does; and four cycles with TMS high do not reset every state. */
  lemma NavigationIsShortest(from: TapState, to: TapState, cycles: Cycles)
    requires NavigationTms(from, to).Some? && !to.TestLogicReset? && Walk(from, cycles) == to
    ensures |cycles| >= |NavigationTms(from, to).value|
    ensures Walk(ShiftDrState, Idle([true, true, true, true])) != TestLogicReset
  {
    hide Walk, Ahead, NextState;
    FourAreTooFew();
    WalkIsAhead(from, cycles);
    TooSoon();
  }

  lemma FourAreTooFew()
    ensures Walk(ShiftDrState, Idle([true, true, true, true])) == SelectIrScan
  {
    WalkStep(ShiftDrState, [true, true, true, true]);
    WalkStep(Exit1Dr, [true, true, true]);
    WalkStep(UpdateDr, [true, true]);
    WalkStep(SelectDrScan, [true]);
    WalkNone(SelectIrScan);
  }

  /** What an instruction register holding `opcode` selects: 0 EXTEST, 1 IDCODE, 2 SAMPLE/PRELOAD, an access opcode
      its own instruction in place of EXTEST and SAMPLE/PRELOAD, and anything else BYPASS. */
  lemma DecodeTable(cfg: Config, opcode: int)
    requires cfg.accessOpcode.Some? ==> cfg.accessOpcode.value !in {0, 1, 2}
    ensures Decode(cfg, opcode) == EXTEST <==> opcode == 0 && cfg.accessOpcode.None?
    ensures Decode(cfg, opcode) == IDCODE <==> opcode == 1 && cfg.hasIdcode
    ensures Decode(cfg, opcode) == SAMPLE_PRELOAD <==> opcode == 2 && cfg.accessOpcode.None?
    ensures Decode(cfg, opcode) == IJTAG_ACCESS <==> cfg.accessOpcode == Some(opcode)
  {
  }
}
