# IJTAG network retargeting, verified

A Dafny model of warptap's scan-network core: the SIB/ScanMux register, the static layout that predicts its
chain, the retargeting planner, the PDL interpreter and the TAP it plays through; and of the parts built on
them: integrity programs, over-shift probes, STIL and cycle walkers, seed compression, pattern retargeting,
ICL instance records and the STAPL checksum.

`dafny verify dfyconfig.toml` checks everything.

## How it is laid out

The cells of a network are modelled twice. `SibStore` and `SibRegister` keep one entry per named slot and
instrument and overwrite them in place, as `sib_model.py` does; `SibCells` is the same hardware as a value, a
tree that mirrors the topology. Every method of the class is proved to do to the tree what `SibCells` says, so
every theorem about the tree is about the register. `PdlInterpreter`, `TapMachine`, `IclImport` and
`FaultflowRun` are related to `PdlSpec`, `TapModel`, `IclRecords` and `FaultflowRetarget` in the same way.

The chain of argument for retargeting is: `SibShift` (the live chain is a shift register whose TDO tap may sit
before its end), `SibRound` (one composed scan moves the cells from one state to exactly the next),
`SibStaging` and `SibReach` (the planned rounds are within the hardware's reach), `PathPlan` (they commit
nothing), `Retargeting` (one `iApply` played through the TAP), `RetargetingRuns` (whole runs),
`ReadBack`, `ReadChecks` and `RunResults` (what reads check and what writes leave).

A network of good shape is a tree of SIBs of any depth, optionally ended by one top-level ScanMux whose arms
claim non-zero values and hold instruments or chains of SIBs. Slot and instrument names are distinct and the
chain is not empty. Instruments may be READ or WRITE and of any width. What a READ instrument captures is a
parameter that may change at every capture. `ShapeLimits` shows what goes wrong outside the good shape and
gives the exact condition under which the static length is right on any topology; `ReadExactness` shows exactly
which reads go wrong inside it.

The integrity program is specified test by test in `IntegrityTests` and built by the loops of `IntegrityBuild`.
`TestRuns`, `NetworkScans`, `NetworkHold` and `QuietTests` say where a stretch of cycles leads,
`ProgramBoundaries` what is open at every test boundary, `ProgramChecks` which checks hold, and
`IntegrityProgram` when a program is built and what passes it. The TAP there is one `TapConfig` accepts,
with an instruction register of at least two bits, as IEEE Std 1149.1 requires.

What the hardware shows is written out as values: `TapShows` and `TapReadouts` for the TAP's own registers,
`NetworkShows` for the network, `TapExpectations` for the cycles of the built program that are compared, and
`CareExact` for why no further cycle could be. `PatternsTell` says what the fed patterns and written values are
good for, `TapTables` what the navigation and opcode tables amount to, `Comparisons` what a passing check means.

`FieldNames` says what field names and addresses stand for, `PhaseTwo` what an `iApply` feeds, `FaultflowChecks`
what a run of patterns compares and pulses, `StilPins` and `RunLoops` what reaches the pins beside the TAP, and
`IclWiring` and `IclShape` what the emitted records wire up and which trees are well formed.

Integers that carry scan data are unbounded, as in Python, with bit `k` of a negative value taken from two's
complement; instrument latches, LFSR seeds and the CRC register have their own widths. A call that raises in
the source is `None`, or `Failure`, and leaves the state alone.

## Where the code and its comments part

- The over-shift probe is described as leaving the network as it found it. Its selects are left so; a WRITE
  instrument whose gate is open before and after one of the probe's updates is loaded with 0
  (`OverShift.OvershiftPlays` states the latches exactly).
- A slot's select cell is described as capturing only while it is selected. In the code a nested chain's
  select is its own SIB's update stage alone, without the SIBs above it; the model keeps this.
- `shift_op_ranges` is described as numbering cycles as `to_cycles` does. It does exactly when its own controller
  can follow the list and the two cycle counts are level at every shift (`TapPlay.RangesArePositions`). Without
  empty shifts that is: no shift after a run of negative length (`TapPlay.FedRanges`). An empty shift puts the
  controllers one edge apart (`TapPlay.EmptyShiftParts`), which only matters if the list goes on
  (`TapPlay.EmptyShiftMisleads`).
- A read is described as checking what the target captured. It does exactly for instruments that are not gated
  by a SIB inside a ScanMux arm (`ReadExactness.ReadsTellIff`), and the integrity program's readback tests
  of such an instrument make its own check raise (`IntegrityProgram.ProgramBuilt`).
- `layout_bit_length` is described as the live length. It is, except where an arm claims 0 on the live path of
  an unrecorded ScanMux (`ShapeLimits.LengthIsLiveIff`).

## Model

| member | source | states |
|---|---|---|
| RetargetingRuns.RunStaysInStep | src/warptap/pdl_interpreter.py:363-517 | For every network of good shape and every sequence of successful PDL calls: the program plays on a reset network without error, leaves open exactly the slots in `_currently_open` (none, or the way to the last target), and every WRITE instrument at any depth and in any arm holds what `_committed_writes` says, 0 where nothing was committed, modulo its width |
| Retargeting.PlayApply | src/warptap/pdl_interpreter.py:445-517 | One `iApply` from any tracked state: it plays, its bookkeeping holds of the cells afterwards, the state before phase 2 still holds every old committed value (no phase-1 round commits anything), it uses one capture per staged round and one more, and the last TDO value is the captured chain up to the tap followed by the bits fed |
| Retargeting.PlayRounds | src/warptap/pdl_interpreter.py:453-469 | Phase 1 played: after any staged rounds the cells hold exactly the last round's open slots and the committed values they held before, one capture and one observation per round |
| Retargeting.PlayRound | src/warptap/sib_model.py:168-396 | One composed scan through the TAP moves the cells from one open set and one set of latches to exactly the next ones, and shows the captured chain up to the tap, then the fed bits |
| RunResults.RunReadChecks | src/warptap/pdl_verify.py:45-80 | For every run that ends in an `iApply`, wherever the target is: the earlier checks stay, no check is added when no read was asked for since the target's last `iApply`, and otherwise exactly one is, of the last one. It passes if and only if the addressed field of what the target captured in phase 2 equals the expected one (a WRITE target captures the value from before this `iApply`); for a SIB inside a ScanMux arm, if and only if the cells one select field nearer TDI than the target's hold the expected field |
| RunResults.LatchIsLastWritten | src/warptap/pdl_interpreter.py:287-317 | Last writer wins in hardware: after a run that ends in an `iApply` of a WRITE target, every bit of its update latch is the last value any whole or named `iWrite` of the whole run gave that bit, a name standing for the first alias declared under it |
| RunResults.CurrentIsLastWritten | src/warptap/pdl_interpreter.py:311-317 | At every point of every run, the value the next `iApply` would deliver to a WRITE instrument is bit by bit the last written, across applies, retargets and closings; what a field name stands for is said without the search that resolves it |
| RunResults.QueuedIsLastRead | src/warptap/pdl_interpreter.py:319-336 | At every point of every run, the read queued for an instrument is the last one asked for since its last `iApply`, and none is if there was none; an `iApply` uses up what it checks |
| PhaseTwo.PhaseTwoFeeds | src/warptap/pdl_interpreter.py:475-514 | What is fed: for every run that ends in an `iApply`, its last scan is as long as the live chain and feeds, cell by cell, every select what keeps the way open, every bit of a WRITE target the last value written to it in the whole run, and every bit of a READ target the last written since its own last `iApply`, 0 if there is none |
| FieldNames.ResolveFieldIs | src/warptap/pdl_interpreter.py:206-223 | On every instrument of a network, at every depth, a field name resolves if and only if an alias of that name is declared, and then to the one at the least position |
| FieldNames.ResolveLeads | src/warptap/icl_model.py:264-279 | An address resolves to a module if and only if following it, each segment to the first child of its name, ends there |
| RunResults.SetBitRangeBits | src/warptap/pdl_interpreter.py:226-233 | `_set_bit_range` replaces exactly the bits of the range, for integers of any size and sign |
| Retargeting.CapturedBit | src/warptap/sib_model.py:168-212 | What an instrument captures, bit by bit: a READ instrument what it senses, a WRITE one what was last committed, 0 where nothing was |
| TapSelect.ProgramFromReset | src/warptap/tap_integrity.py:324-332 | End to end: from a TAP reset, settle, load the network's opcode, play the program of any run; the hardware ends in step with the interpreter |
| TapSelect.PlaySelect | src/warptap/tap_integrity.py:324-332 | Playing `select_instruction` loads the opcode, decodes it, returns to Run-Test/Idle and touches no data register |
| RetargetingRuns.ResetStarts | src/warptap/sib_model.py:141-166 | A reset register is exactly what a new interpreter assumes |
| SibRound.ScanRound | src/warptap/sib_model.py:168-396 | Capture, any composed scan and update on a good shape, whatever the READ instruments see: the select cells hold the next open map, the latches hold the next values, TDO shows the captured chain up to the tap and then the fed bits |
| SibRound.Stepped | src/warptap/sib_model.py:241-293 | For any topology in which no arm claims 0, loading a composed scan and updating realises exactly the round: every select and every latch, at every depth |
| SibRound.Settled | src/warptap/sib_model.py:268-293 | Content behind a closed gate comes through an update unchanged |
| SibRound.LayoutIsLive | src/warptap/sib_layout.py:61-110 | `layout_bit_length` of an open map equals the length of the live chain of any register in that state, whenever no arm claims 0 |
| ShapeLimits.LengthIsLiveIff | src/warptap/sib_layout.py:83-110 | For every topology and state the static length never exceeds the live one, and equals it if and only if no ScanMux on the live path has an arm claiming 0 with cells behind it while its name is absent from the open map |
| ShapeLimits.ZeroArmIsMislaid | src/warptap/sib_layout.py:88-90 | A concrete network where an arm claims 0: out of reset the static length is 1 and the live one 4 |
| ShapeLimits.BehindStaysClosed | src/warptap/sib_model.py:365-371 | A concrete network with a SIB behind a matched ScanMux: the lengths agree, yet the scan composed to open that SIB leaves it closed |
| ShapeLimits.BehindTakesField | src/warptap/sib_model.py:365-396 | For every state of a ScanMux with a matched arm and slots of good shape behind it: after a scan as long as the live chain those slots hold the bits meant for the select field and on, so the scan lands as composed if and only if those bits are the same as their own |
| LayoutWindow.WindowIsExact | src/warptap/pdl_interpreter.py:54-117 | For every network with unique slot names and every open slot, `_target_layout`'s window is where `compose_bits` puts the payload, nothing outside it depends on the payload, and without a window nothing does |
| SibLayout.ComposeLength | src/warptap/sib_layout.py:113-203 | What `compose_bits` builds is exactly as long as `layout_bit_length` predicts, for every topology and pair of open maps |
| SibLayout.LayoutBitLength | src/warptap/sib_layout.py:83-110 | The accumulating walk computes the recursive length |
| SibLayout.ComposeBits | src/warptap/sib_layout.py:166-203 | The accumulating walk builds the recursive bit list |
| SibLayout.MatchingArmIs | src/warptap/sib_layout.py:54-58 | Taking the first arm that claims the value gives the same length and bits as the recursion over the arms |
| SibShift.ShiftAllEffect | src/warptap/sib_model.py:386-396 | Any run of Shift-DR cycles on a good shape: the cells hold the fed bits behind what remains of the old content, and TDO shows the content up to the tap and then the fed bits |
| SibShift.GoodSeen | src/warptap/sib_model.py:365-375 | On a good shape `_read` sees every cell as it is, except that the last one reads as the cell at the matched arm's end |
| SibShift.LoadRaw | src/warptap/sib_model.py:365-384 | Writing back what the cells hold changes nothing |
| SibShift.LoadLoad | src/warptap/sib_model.py:378-384 | The later of two writes of a whole chain wins |
| SibLoad.WriteIsLoad | src/warptap/sib_model.py:378-384 | Writing the live layout cell by cell through its references is loading the tree at once |
| SibStore.ReadIsSeen | src/warptap/sib_model.py:365-375 | Reading the live layout cell by cell through its references is what a shift sees of the tree |
| SibStore.ChainSoIsLive | src/warptap/sib_model.py:335-362 | `_live_so` walked over the stored slots is the scan-out of the tree |
| SibRegister.SibNetworkRegister.Reset | src/warptap/sib_model.py:141-166 | In place: every stage of every cell ends at its reset value |
| SibRegister.SibNetworkRegister.Capture | src/warptap/sib_model.py:168-212 | In place: the tree of cells becomes exactly `Capture` of the old one, topology unchanged |
| SibRegister.SibNetworkRegister.CaptureUnselected | src/warptap/sib_model.py:214-239 | In place: only the instruments' shift stages change, each to what it captures |
| SibRegister.SibNetworkRegister.Update | src/warptap/sib_model.py:241-293 | In place: gated commit of every live select cell and every instrument whose gate stays open, and of nothing else |
| SibRegister.SibNetworkRegister.Shift | src/warptap/sib_model.py:386-396 | In place: one Shift-DR cycle over the live layout, with its TDO; an empty layout passes nothing |
| SibRegister.SibNetworkRegister.Tail | src/warptap/sib_model.py:398-405 | What the last live cell shows, without changing anything |
| SibRound.UnselectedKeeps | src/warptap/sib_model.py:214-239 | A capture without the network selected keeps the topology and everything but the instruments' shift stages: every select shift stage, every select update stage and every latch, at every depth and in every arm |
| SibRound.StandingTells | src/warptap/sib_model.py:214-239 | What is open and what is committed does not depend on the instruments' shift stages, so such a capture keeps both |
| SibStaging.StagingIsSound | src/warptap/sib_retarget.py:218-242 | For targets that follow one plan staging succeeds; each round only opens slots whose ancestors the round before left open; there is no round if and only if everything required is already open; otherwise the last round is exactly the targets with their ancestors |
| SibStaging.StageOpenSequence | src/warptap/sib_retarget.py:218-242 | The loops compute the staged rounds |
| SibStaging.MarkTargets | src/warptap/sib_retarget.py:221-228 | The dictionary-filling loop records depth and value of every target and ancestor |
| LeastRounds.StagingIsLeast | src/warptap/sib_retarget.py:229-242 | For one path and an ancestor-closed state: whatever is shifted and whatever the instruments show, no sequence of scans opens the way in fewer scans than staging returns |
| LeastRounds.ScanOpensOne | src/warptap/sib_model.py:268-293 | One scan, whatever it shifts, opens at most one more step of the way |
| LeastRounds.ScanReaches | src/warptap/sib_model.py:268-293 | One scan cannot change a slot that has a closed ancestor |
| LeastRounds.RoundCount | src/warptap/sib_retarget.py:229-242 | Staging takes one round per step from the first step that is not open already |
| SibReach.RoundCanBeDone | src/warptap/sib_model.py:268-293 | A round that opens only slots whose ancestors were open before it is within one Update-DR's reach |
| PathPlan.StageForWay | src/warptap/pdl_interpreter.py:445-469 | From every state an interpreter can be in, staging one instrument's path succeeds, ends with exactly that path open, and no round keeps any instrument's gate open across its update |
| SibRetarget.OpenPathFinds | src/warptap/sib_retarget.py:49-102 | `open_path_to` finds every instrument and returns the way to its own slot |
| SibRetarget.OpenPathLeads | src/warptap/sib_retarget.py:49-102 | Conversely a returned path leads to an instrument of that name |
| SibRetarget.NoInstElsewhere | src/warptap/sib_retarget.py:97-102 | No path is returned for a name no instrument has |
| SibRetarget.SlotPathFinds | src/warptap/sib_retarget.py:105-152 | `path_to_sib_name` finds every slot under its own ancestors, with the asked value for a ScanMux |
| SibRetarget.NoPathElsewhere | src/warptap/sib_retarget.py:148-152 | No path is returned for a name no slot has |
| PdlInterpreter.PDLInterpreter.constructor | src/warptap/pdl_interpreter.py:249-271 | A new interpreter has no scope, nothing pending, committed or open, and an empty program |
| PdlInterpreter.PDLInterpreter.ITarget | src/warptap/pdl_interpreter.py:273-280 | In place: the scope becomes the resolved node's name; a refused address changes nothing |
| PdlInterpreter.PDLInterpreter.IWrite | src/warptap/pdl_interpreter.py:287-317 | In place: folds a whole or alias write into the pending value; a refusal changes nothing. Which bits that changes is `CurrentIsLastWritten` and `ResolveFieldIs` |
| PdlInterpreter.PDLInterpreter.IRead | src/warptap/pdl_interpreter.py:319-336 | In place: queues an expected field for the target; a refusal changes nothing. Which read that leaves queued is `QueuedIsLastRead` |
| PdlInterpreter.PDLInterpreter.IRunLoop | src/warptap/pdl_interpreter.py:338-361 | In place: appends a run of TCK cycles or of pulses of a named port |
| RunLoops.RunLoopWaits | src/warptap/pdl_interpreter.py:338-361 | After any program whose cycles can be listed, an `iRunLoop` on TCK adds exactly its count of idle cycles, none for a negative count; one on a system clock adds exactly its count of pulses of that clock to the STIL records and no cycle of the TAP |
| PdlInterpreter.PDLInterpreter.IApply | src/warptap/pdl_interpreter.py:363-517 | In place: the whole new interpreter state and the appended operations are those of `Apply`; a refusal changes nothing |
| PdlInterpreter.RoundScans | src/warptap/pdl_interpreter.py:453-469 | The phase-1 loop: one scan per round, each sized for what the round before it left open |
| PdlSpec.ResolveDottedAddress | src/warptap/icl_model.py:264-279 | The walk down the instance tree returns the node the address names, or nothing at the first segment that names no child |
| ReadChecks.SibReadMatches | src/warptap/pdl_interpreter.py:489-514 | Outside a ScanMux, expected value and mask match what phase 2 shows if and only if the addressed field of the captured value is the expected one |
| ReadChecks.ArmReadMatches | src/warptap/pdl_interpreter.py:133-169 | The same for a leaf arm of the final ScanMux, whose bits appear earlier at TDO |
| ReadExactness.ReadsTellIff | src/warptap/pdl_interpreter.py:471-517 | For every network of good shape, every instrument that can be addressed and every non-empty field of it: over all runs from a reset, all TAPs and all captured values, the check of a read of the field passes exactly when the captured field is the expected one, if and only if the instrument is not gated by a SIB inside a ScanMux arm |
| ReadProbes.ProbeChecks | src/warptap/pdl_interpreter.py:287-517 | From any point of any run, writing a value and reading a field back adds exactly one check to those before it, made on what phase 2 captured with that value committed |
| SibReads.SibVerdict | src/warptap/pdl_interpreter.py:489-514 | A read through a SIB, wherever the SIB is: the masked cycles show, bit for bit, the cells as many places nearer TDI than the target's as there are live cells past the one TDO shows |
| ArmReads.ArmFieldShown | src/warptap/pdl_interpreter.py:505-511 | For a SIB inside an arm of the final ScanMux that distance is the width of the select field, so the check compares other cells, or the select bits the scan itself feeds |
| LiveCells.WindowIsContent | src/warptap/pdl_interpreter.py:54-117 | In the list of live cells `_target_layout`'s window holds the target's bits in order, and no bit of the target is anywhere else |
| ReadChecks.CheckReadsLoop | src/warptap/pdl_verify.py:57-80 | The loop over operations yields one check per IR or DR shift that carries an expected value, with or without a mask, and raises when observations run out |
| Comparisons.CheckMeans | src/warptap/pdl_verify.py:57-80 | A check passes exactly when expected and observed value agree on every masked bit, and without a mask exactly when they are equal, for integers of any size and sign |
| Comparisons.StilComparesAsChecked | src/warptap/tap_ir_stil.py:164-173 | The compares of a shift's vectors hold of what is shown exactly when `check_reads` passes, for a mask that does not reach past the shift; without a mask the vectors compare nothing |
| TapPlay.PlayIsCycles | src/warptap/tap_ir_play.py:90-172 | For any wiring of any deterministic registers: operations that play flatten to cycles; they play exactly when those cycles tick through, and playing is then ticking and cutting TDO at the shifts' true positions; the ranges `shift_op_ranges` reports are those positions if and only if the two walkers stay aligned along the list |
| TapPlay.RangesArePositions | src/warptap/tap_ir_play.py:113-172 | For every list `to_cycles` accepts, empty shifts included: `shift_op_ranges` reports the true position of every shift if and only if its controller can navigate wherever `to_cycles`' goes and the two cycle counts are level at every shift |
| TapPlay.FedRanges | src/warptap/tap_ir_play.py:145-172 | With no empty shift that condition is that no shift comes after a run of negative length |
| TapPlay.EmptyShiftParts | src/warptap/tap_ir_play.py:160-165 | After an empty shift `to_cycles` stays where it is and `shift_op_ranges` takes one edge, so the two controllers differ except in Test-Logic-Reset |
| TapPlay.EmptyShiftMisleads | src/warptap/tap_ir_play.py:160-165 | A concrete list of that kind: after an empty shift `shift_op_ranges` raises on operations that `to_cycles` accepts |
| TapPlay.ToCyclesLoop | src/warptap/tap_ir_play.py:113-142 | The loop flattens as the specification says, raising where it raises |
| TapPlay.ShiftOpRangesLoop | src/warptap/tap_ir_play.py:145-172 | The loop reports start and length of every shift as the specification says, raising where it raises |
| TapPlay.PlayLoop | src/warptap/tap_ir_play.py:90-110 | The loop drives the model and observes as the specification says |
| TapPlay.PlayDr | src/warptap/tap_ir_play.py:90-110 | One DR scan is one capture, the shifts and one update of the selected register, whatever it is |
| TapPlay.PlayCompose | src/warptap/tap_ir_play.py:90-110 | Playing one list after another is playing their concatenation |
| TapTables.NavigationArrives | src/warptap/tap_ir_play.py:57-80 | Every sequence of the table ends in the state asked for, Test-Logic-Reset from all sixteen; the table has one exactly for the pairs the source names |
| TapTables.NavigationIsShortest | src/warptap/tap_ir_play.py:57-80 | No shorter run of cycles, whatever it drives, gets there; and four cycles with TMS high are too few to reset |
| TapTables.DecodeTable | src/warptap/tap_model.py:124-147 | What each opcode selects, both ways: 0 EXTEST, 1 IDCODE, 2 SAMPLE/PRELOAD, an access opcode its own instruction in place of the first and the last, and everything else BYPASS |
| TapModel.TicksLength | src/warptap/tap_model.py:304-336 | The tracked controller state never depends on the registers; one TDO bit per cycle |
| TapShows.ShiftsDr | src/warptap/tap_model.py:175-211 | Under BYPASS or IDCODE a run of shift cycles of any length shows the bits inside the register, bit 0 first, and then the bits fed; the rest stays inside |
| TapShows.ShiftsIr | src/warptap/tap_model.py:322-324 | The same for the instruction register |
| TapReadouts.ScanDisplays | src/warptap/tap_model.py:172-211 | A whole DR scan under BYPASS shows one 0 and then the bits fed; under IDCODE bits 0 to 31 of the configured value and then the bits fed |
| TapReadouts.LoadDisplays | src/warptap/tap_model.py:320-330 | A scan of the instruction register shows a 1, then 0s to its width, then the bits fed, and its last bits are decoded |
| TapMachine.TapDevice.Tick | src/warptap/tap_model.py:304-336 | In place: one TCK cycle; the whole new state and TDO are those of `Tick`, and a missing data register raises. What the TAP's own registers then show is `ScanDisplays` and `LoadDisplays` |
| TapMachine.TapDevice.Reset | src/warptap/tap_model.py:258-267 | In place: Test-Logic-Reset, reset instruction, cleared registers |
| StilWalk.WalkerAgrees | src/warptap/tap_ir_stil.py:139-195 | Without pin operations the STIL walker raises exactly when `to_cycles` does, and expanding each record its number of times gives the same (TMS, TDI) list |
| StilPins.WalkerWithPins | src/warptap/tap_ir_stil.py:139-195 | With operations on other pins, too: the walker refuses a list exactly when `to_cycles` refuses the rest of it or a SetPins names an undeclared pin, and its TAP vectors are `to_cycles`' list of the rest |
| StilPins.PinsFollow | src/warptap/tap_ir_stil.py:148-193 | For every operation of every accepted list: the records it adds hold each declared input at the level last set before it, or where it started; a PulsePin adds exactly its count of pulses of its own port with its own held pins |
| StilWalk.ComparesAreMasked | src/warptap/tap_ir_stil.py:165-195 | A TDO compare appears exactly on the masked bits of the shifts, at each shift's place in the cycle list, with the expected value; nowhere else |
| StilWalk.SettleIsWalk | src/warptap/tap_ir_stil.py:156-160 | Walking at most three of `count` idle cycles reaches the same controller state as all of them |
| StilWalk.WalkCycles | src/warptap/tap_ir_stil.py:139-195 | The loop produces the specified records, raising where it raises |
| StilWalk.StatementsUnroll | src/warptap/tap_ir_stil.py:405-451 | The emitted V and Loop statements unroll to the same vectors as the records, and a pattern whose first record is not empty never opens with a Loop |
| StilWalk.Statements | src/warptap/tap_ir_stil.py:407-450 | The loop emits exactly the specified statements: a V for a single vector, a Loop for a run, the first vector of an opening run on its own |
| Integrity.CareBitsAreSound | src/warptap/tap_integrity.py:736-777 | Along any TCK sequence on which the all-0s and all-1s models keep equal selects, a third network whose live instruments capture anything, different at every capture, runs without error and shows the program's TDO on every care cycle |
| Integrity.ConformingNetworkPasses | src/warptap/tap_integrity.py:393-411 | No false failure, for any TCK and TRST sequence from reset on which the two models keep equal selects: every conforming network passes `check_integrity`. The built program meets that hypothesis (`BuiltProgramPasses`) |
| Integrity.LongScansKeepSelects | src/warptap/sib_model.py:241-293 | The hypothesis holds on every good shape whenever each Update-DR of the selected network ends a scan at least as long as its live chain |
| Integrity.LongProgramSelectsHold | src/warptap/tap_integrity.py:736-769 | The same for a whole program run from reset |
| Integrity.ModelsBracket | src/warptap/tap_integrity.py:450-476 | The all-0s and all-1s recaptures bracket every value a live instrument can show, and agree on the rest |
| CareExact.CareIsComplete | src/warptap/tap_integrity.py:736-777 | No bit is left out: for every built program and every shift cycle it does not compare, two networks that both show what the program was told of them show different bits there |
| Integrity.ExpectedCycles | src/warptap/tap_integrity.py:749-777 | The loop that steps both models computes the specified cycles and leaves both models where the run ends |
| Integrity.CheckIntegrity | src/warptap/tap_integrity.py:393-411 | Refuses a trace of the wrong length; otherwise passes if and only if every care cycle matches, and counts the care cycles; the failure records are left out |
| CareBits.CaptureAmong | src/warptap/sib_model.py:168-212 | Capture keeps three networks in lockstep: equal selects, every cell of the third equal wherever the two models agree |
| CareBits.ShiftAmong | src/warptap/sib_model.py:386-396 | A shift keeps the lockstep, and where the two models show the same TDO so does the third |
| CareBits.UpdateAmong | src/warptap/sib_model.py:241-293 | An update that leaves the models with equal selects keeps the lockstep |
| CareBits.UpdateSelects | src/warptap/sib_model.py:268-293 | Models with equal live cells keep equal selects across an update |
| ProgramBoundaries.BoundariesTracked | src/warptap/tap_integrity.py:652-733 | For every network of good shape, whatever groups of tests are asked for (the default among them) and from whatever state the TAP and the network are in before TRST: every test of the built list starts its operations and ends in Run-Test/Idle; when it is over the register has open exactly what the builder's `opened` says, or in a readback test its interpreter's set; and every Update-DR of the network on the way ends a scan at least as long as its live chain |
| NetworkHold.HoldRuns | src/warptap/tap_integrity.py:642-648 | From whatever the probes left open: capture, the pattern, pause, its complement, pause, the closing bits and update leave the network selected and closed, every WRITE instrument at 0 |
| PatternsTell.HeldAtBoth | src/warptap/tap_integrity.py:642-648 | At the first pause of that scan the live cells hold 1s and 0s in turn, and at the second each of them holds the other value |
| PatternsTell.ValuesAre | src/warptap/tap_integrity.py:541-543 | The values written to an instrument: 1s and 0s in turn, the same inverted, and 0, so every bit is written at both |
| PatternsTell.ReadbackCallsAre | src/warptap/tap_integrity.py:717-728 | Each of the three is written to the whole instrument, applied, read and applied |
| PatternsTell.SentinelBit | src/warptap/sib_overshift.py:61-69 | The default pattern feeds 0, 0, 1, 1 over and over |
| PatternsTell.LengthShows | src/warptap/sib_overshift.py:61-69 | Two registers whose lengths differ by anything but a multiple of four, whatever they hold, show different bits within the shorter one's probe once the margin is two more than the difference |
| NetworkShows.HoldTestsAre | src/warptap/tap_integrity.py:623-649 | The tests of the network held in Pause: SAMPLE/PRELOAD by its opcode 2, before it EXTEST by its opcode 0 where the network has an instruction of its own, each with one bit per slot and the margin; then the paused scan, from what the probes left open |
| NetworkHold.BoardRuns | src/warptap/tap_integrity.py:630-640 | SAMPLE/PRELOAD, and EXTEST where the network has an instruction of its own, loaded and scanned keep what is open and every latch |
| NetworkHold.OneBitSelectsNetwork | src/warptap/tap_model.py:124-147 | With a one-bit instruction register the SAMPLE/PRELOAD test would load EXTEST and scan into the network: why two bits are asked for |
| TestRuns.PausedRuns | src/warptap/tap_integrity.py:642-648 | A scan paused twice does to the network exactly what one scan of all its bits does |
| TestBoundaries.TapCourse | src/warptap/tap_integrity.py:554-689 | The tests of the TAP itself, the raw sequences through Pause, Exit2 and Test-Logic-Reset included, leave the network as TRST left it |
| TestBoundaries.ProbesCourse | src/warptap/tap_integrity.py:695-707 | From a reset network every probe plays after the scan that closes what the last one opened, and leaves exactly the tracked set open and every latch clear |
| TestBoundaries.HoldCourse | src/warptap/tap_integrity.py:709-711 | The hold tests end with the network closed, as the reset of `opened` to the empty set assumes |
| TestBoundaries.ReadbackCourse | src/warptap/tap_integrity.py:713-730 | The readback tests run from what the tests before them left open, empty or not, each leaving open what the interpreter tracks |
| IntegrityProbes.EverySibIsProbed | src/warptap/tap_integrity.py:479-500 | Every SIB, wherever it is in whatever tree, is probed by itself |
| IntegrityProbes.EveryStepIsProbed | src/warptap/tap_integrity.py:479-491 | Every gate on the way to every instrument is probed by itself, every arm of every ScanMux on it included |
| IntegrityProbes.EveryOutsideSib | src/warptap/tap_integrity.py:494-500 | The probe of all SIBs at once names every SIB that is inside no ScanMux |
| NetworkShows.ProbeTestsAre | src/warptap/tap_integrity.py:695-707 | One test per target, in order, each closing what the last one left open |
| IntegrityProbes.TargetsArePlannable | src/warptap/tap_integrity.py:479-500 | For every validated tree no probe target, the one that opens every SIB at once included, asks one ScanMux for two arms or a slot for a value it cannot hold |
| IntegrityProbes.ProbePlays | src/warptap/tap_integrity.py:695-707 | One probe from a closed network leaves exactly the tracked set open and every latch clear |
| SelfCheckCycles.ReadbackNeverRaises | src/warptap/tap_integrity.py:780-795 | For every write and readback program of readable instruments on every good shape, run on the two models in lockstep whatever each captures at each capture: every bit a read looks at is a care bit, and the models show what the read expects, so the check does not raise |
| SelfCheckCycles.ReadbackRaisesIff | src/warptap/tap_integrity.py:713-795 | Exactly when it raises: with models that show the same at every capture, the check of a write and readback program passes if and only if no instrument of at least one bit is gated by a SIB inside a ScanMux arm |
| SelfCheckCycles.CyclesDecide | src/warptap/tap_integrity.py:736-795 | On the cycles of the two models in lockstep the check decides what comparing their observations decides |
| SelfCheckCycles.CheckReadsOnCycles | src/warptap/tap_integrity.py:780-795 | The loop over shifts and their ranges passes if and only if every read holds on the cycles of its own shift, wherever the reported ranges are the true positions |
| SelfCheckCycles.HoldsSplit | src/warptap/tap_integrity.py:765-768 | Reads hold on two stretches of a program exactly when they hold on the whole, so checking test by test is checking the program |
| WriteReadback.SelfCheckHolds | src/warptap/tap_integrity.py:780-795 | For readable instruments, on observations: played on the two models, each read's masked bits agree between them and with the expected value |
| WriteReadback.ReadbackPasses | src/warptap/tap_integrity.py:713-730 | For readable instruments every such program builds, and played from a closed network every read passes |
| WriteReadback.ReadbackPassesIff | src/warptap/tap_integrity.py:713-730 | On a network that shows the same at every capture every readback of the three values passes if and only if every instrument written is readable |
| WriteReadback.SelfCheckIff | src/warptap/tap_integrity.py:713-795 | On observations, with a model that shows the same at every capture: the self-check holds if and only if every instrument written is readable |
| IntegrityBuild.BuildProbeTests | src/warptap/tap_integrity.py:691-707 | The loop builds the probe tests in order and tracks what each leaves open, raising where it raises |
| IntegrityBuild.WriteReadbackTests | src/warptap/tap_integrity.py:713-730 | The nested loops that drive one interpreter cut its program into the specified test per WRITE instrument, the closing scan in the first |
| IntegrityBuild.FindWrites | src/warptap/tap_integrity.py:523-538 | The loop over the WRITE instruments, each with the address the search finds, raising unless there is exactly one |
| IntegrityBuild.Walk | src/warptap/tap_integrity.py:526-533 | The recursive search collects every address that ends in the name, a module before its children |
| IntegrityBuild.BuildTests | src/warptap/tap_integrity.py:652-733 | The whole list of tests, group by group, as specified, raising where it raises |
| IntegrityBuild.ExpectedTests | src/warptap/tap_integrity.py:736-769 | The two models stepped through the tests one by one, each test's reads checked on its own cycles |
| IntegrityBuild.BuildIntegrityProgram | src/warptap/tap_integrity.py:335-390 | From a valid network and TAP the specified program, or nothing where the source raises. What the program expects is `TapIsCompared`, `ClosedIsCompared`, `BuiltProgramPasses` and `CareIsComplete` |
| TapExpectations.TapIsCompared | src/warptap/tap_integrity.py:554-732 | In every built program, whatever the network: every shift cycle of the tests of the TAP, from TRST on, and of the reset through TMS at the end is compared, with values written out: the pattern 10..0 of the instruction register, the 0 of BYPASS, the 32 bits of the IDCODE value, also for every unused opcode and after every path through Pause, Exit2 and the resets, and then the bits each test feeds |
| TapExpectations.TapReadsOut | src/warptap/tap_integrity.py:554-732 | Any model that starts from TRST shows those values, test by test |
| TapExpectations.TmsLeadInResets | src/warptap/tap_integrity.py:109-111 | The lead-in of the last test passes Test-Logic-Reset and ends in Run-Test/Idle from every one of the sixteen states |
| TapExpectations.ClosedIsCompared | src/warptap/tap_integrity.py:695-698 | In every built program for a network, the test of the closed network is compared bit by bit whatever its instruments show: one 0 per bit of `layout_bit_length`, and then the default pattern, on time |
| NetworkShows.NetworkDisplays | src/warptap/sib_model.py:168-396 | Under its own instruction the network shows, cycle by cycle, its captured chain and then the bits fed |
| NetworkShows.SampleDisplays | src/warptap/tap_integrity.py:140-155 | Under SAMPLE/PRELOAD a scan shows one bit over and over, the one a shift of the network would show next once every instrument has captured, and moves no cell |
| NetworkShows.FreshCleared | src/warptap/sib_model.py:141-166 | Reset clears every stage of every cell, live or not, at every depth and in every arm |
| WriteTargets.AddressIsTheOne | src/warptap/tap_integrity.py:523-538 | Where siblings have distinct names, `_dotted_address` returns an address if and only if it is the one path the interpreter resolves to a module of that name |
| WriteTargets.WrittenAre | src/warptap/tap_integrity.py:713-713 | The instruments written are exactly the network's WRITE instruments |
| IntegrityProgram.TestsBuilt | src/warptap/tap_integrity.py:652-733 | The list of tests is built if and only if the margin is positive and, where readback tests are asked for, every WRITE instrument has exactly one address and the interpreter resolves it |
| IntegrityProgram.ProgramBuilt | src/warptap/tap_integrity.py:335-390 | A program is built, no check of any of its tests raising, if and only if that holds and, where readback tests are asked for, every WRITE instrument is readable: none of at least one bit is gated by a SIB inside a ScanMux arm |
| ProgramChecks.ReadbackDecides | src/warptap/tap_integrity.py:713-795 | Test by test, each on its own cycles, the checks of the readback tests all hold if and only if every instrument written is readable |
| ProgramCycles.CyclesAreFrames | src/warptap/tap_integrity.py:736-769 | Stepping the models test by test succeeds exactly when every test's check holds, and gives the cycles of the whole run |
| IntegrityProgram.BuiltProgramPasses | src/warptap/tap_integrity.py:393-411 | No false failure, with no hypothesis about the models: a network that shows what the program was told of it and anything at all, different at every capture, where it was told nothing passes every program that is built for it |
| OverShift.OvershiftShowsChainThenSentinel | src/warptap/sib_overshift.py:131-154 | On a SIB-only network the probe shows the captured chain for as many cycles as `layout_bit_length` predicts and then exactly the sentinel bits, and leaves the selects at the completed target |
| OverShift.OvershiftPlays | src/warptap/sib_overshift.py:131-154 | On every good shape and for any targets that ask no ScanMux for two arms: the selects are left at the completed target, and a WRITE instrument open across a scan's update holds 0 afterwards |
| OverShift.BuildOvershiftOps | src/warptap/sib_overshift.py:124-154 | The builder emits the staged scans and the probe; it raises for a negative margin or an unknown slot |
| Gf2.SolveXorBroadcast | src/warptap/faultflow_compression.py:192-232 | Sound, complete and canonical: a returned seed satisfies every equation and is the numerically least that does; nothing is returned only if no seed of the width does |
| Gf2.AnswerIsCanonical | src/warptap/faultflow_compression.py:205-232 | Two systems with the same solutions, whatever their rows and order, give the same seed or both none |
| Gf2.ReduceOne | src/warptap/faultflow_compression.py:205-218 | One column of the in-place elimination keeps the solution set and extends the reduced echelon form by that column |
| Gf2.EliminateKeeps | src/warptap/faultflow_compression.py:214-216 | XORing the pivot row into the others keeps the solution set |
| Gf2.SwapKeeps | src/warptap/faultflow_compression.py:213-213 | Swapping two rows keeps the solution set |
| Gf2.PivotForced | src/warptap/faultflow_compression.py:205-232 | In the reduced form a pivot bit is determined by the bits above it |
| Gf2.SeedIsLeast | src/warptap/faultflow_compression.py:226-232 | The seed read off with free bits 0 is the least solution |
| Decompressor.DecompressionIsExact | src/warptap/faultflow_compression.py:156-189 | For every polynomial, phase shifter and seed, the parity of a care-bit row against the seed is the parity of the stages the chain taps, each as the recurrence of the feedback polynomial gives it, and what that chain receives after that many concrete steps |
| Decompressor.StreamRecurs | src/warptap/faultflow_compression.py:100-166 | The recurrence: bit t + width of the last stage's stream is bit t xored with bit t + i for every tap i, and the first width bits are fixed by the seed |
| Decompressor.StagesAre | src/warptap/faultflow_compression.py:156-166 | The stepped shift register holds in every stage at every cycle, from any seed, exactly the bits of that recurrence |
| Decompressor.CareBitRows | src/warptap/faultflow_compression.py:176-189 | The loop builds one row of masks per cycle; what a row predicts is `DecompressionIsExact` |
| Decompressor.StepRows | src/warptap/faultflow_compression.py:156-166 | The loop applies one Galois step; what steps amount to is `StagesAre` |
| Decompressor.SolvePatternSeed | src/warptap/faultflow_compression.py:235-291 | A returned seed is the least one that reproduces every care position (every position without a care list); a refusal means a load of the wrong length or that no seed can |
| Decompressor.ReproducesIsDelivery | src/warptap/faultflow_compression.py:261-291 | A seed satisfies the collected equations if and only if, by the recurrence, it gives every chain every wanted bit: every bit of its load, or the listed positions where a care list is given |
| Crc16.Crc16X25 | src/warptap/stapl_crc16.py:38-52 | The two nested loops on the packed integer compute the checksum of the bit-level register |
| Crc16.BurstIsDetected | src/warptap/stapl_crc16.py:44-52 | Messages of equal length that differ only inside 16 consecutive bits have different checksums |
| Crc16.ResidueIsConstant | src/warptap/stapl_crc16.py:44-52 | Appending the checksum low byte first always leaves 0xF0B8 in the register |
| Crc16.NothingSums | src/warptap/stapl_crc16.py:34-52 | No bytes sum to 0: the register starts at all ones and is inverted at the end |
| Crc16.RegisterIsSerial | src/warptap/stapl_crc16.py:45-51 | The byte-wise register is the bit-serial one |
| Crc16.StepInjective | src/warptap/stapl_crc16.py:48-51 | The step is invertible |
| Crc16.StepLinear | src/warptap/stapl_crc16.py:48-51 | The step is linear |
| StaplFile.StaplFileCrc | src/warptap/stapl_crc16.py:55-69 | Sums the text without its carriage returns; raises if and only if what remains is not ASCII |
| StaplFile.KeptAre | src/warptap/stapl_crc16.py:69-69 | What is summed is the text without its carriage returns and with everything else, in its order |
| StaplFile.LineEndingsIgnored | src/warptap/stapl_crc16.py:69-69 | A file has one checksum whichever way its lines end |
| StaplFile.AdjacentCharacters | src/warptap/stapl_crc16.py:44-69 | Replacing up to two adjacent characters of a file's text by as many others always changes its checksum |
| IclRecords.EmitThenImport | src/warptap/icl_import.py:260-391 | Importing the instance records of every validated non-empty tree without name collisions claims every slot and returns the original chain: order, names, widths, directions, arm values, also where several arms of a ScanMux share a source |
| IclRecords.RenderChain | src/warptap/icl_emit.py:580-634 | The loop that threads the previous scan-out appends exactly the specified records, and raises for a gated instrument without a bit. What the records wire up is `WiredInOrder` |
| IclRecords.RenderArms | src/warptap/icl_emit.py:526-577 | The loop over a ScanMux's arms appends each arm's records and binds its value, scan-in and scan-out |
| IclWiring.WiredInOrder | src/warptap/icl_emit.py:526-646 | For every tree without instance-name collisions and every set of open slots: following the emitted bindings backwards from the scan output that becomes TDO, through `fromSO`, the listed arm or SI as the select registers say, reaches TDI past exactly the registers of the live chain, in its order |
| IclWiring.RegistersLength | src/warptap/sib_layout.py:83-110 | Those registers have as many bits as `layout_bit_length` counts |
| IclWiring.NamesDoNotCollide | src/warptap/icl_emit.py:526-634 | With unique slot and instrument names and no slot named like another kind's instance, no two instances collide |
| IclImport.ImportIcl | src/warptap/icl_import.py:458-508 | The importer's loops over one shared, shrinking pool compute the specified import, refusing where it refuses |
| IclImport.Importer.WalkChain | src/warptap/icl_import.py:260-303 | In place: one level claims its slots backwards from its terminal and leaves the rest of the pool |
| IclValidate.ValidatePhysicalGraph | src/warptap/icl_model.py:163-245 | Accepts exactly the trees with globally unique slot names, no empty nested network, and per ScanMux a select field, at least two arms and distinct values that fit the field |
| IclShape.ValidIs | src/warptap/icl_model.py:163-245 | The same said of the tree as a whole: no name twice in the list of all slots, and every slot, at every depth and in every arm, well made by itself |
| FaultflowRetarget.AllChainsHoldAtPulse | src/warptap/faultflow_retarget.py:141-156 | In every run of patterns, when a pattern's pulse is emitted all the chains it loads hold their data at once, bit k being element L-1-k of the front-padded sequence of length L, whatever was loaded, unloaded or open before |
| FaultflowRetarget.PatternsTrack | src/warptap/faultflow_retarget.py:124-168 | The program of every pattern run, pulses left aside, keeps interpreter and hardware in step |
| FaultflowRetarget.PayloadBit | src/warptap/faultflow_retarget.py:74-103 | Stripping the padding and packing puts element L-1-k at bit k |
| FaultflowChecks.UnloadsDecide | src/warptap/faultflow_retarget.py:85-168 | In every run of patterns each pattern adds exactly one check per chain it unloads, in order, each on a capture of its own made after the pattern's pulse, and its loads add none; a check passes if and only if bit k of what the chain's instrument captures is element width - 1 - k of the back-padded sequence, for every k |
| FaultflowChecks.PulsesAre | src/warptap/faultflow_retarget.py:152-156 | The pulses of a run are exactly one per pattern that unloads anything, in order, with its clock, count and held pins |
| FaultflowChecks.WidthIff | src/warptap/faultflow_retarget.py:67-71 | A width is found exactly for the instruments a SIB gates at the top level |
| FaultflowRun.RetargetFaultflowPatterns | src/warptap/faultflow_retarget.py:106-168 | The nested loops that drive one interpreter emit exactly the specified program, raising where it raises. What that program loads and checks is `AllChainsHoldAtPulse` and `UnloadsDecide` |

## Left out

- The text of ICL, BSDL, PDL, SVF, STAPL and STIL, and the parsers; command line, files, subprocess wrappers and JSON forms.
- Netlist and RTL insertion; the cell model of `sib_model.py` is the hardware.
- Retargeting over a ScanMux that is nested, not last, or has an arm claiming 0, beyond what `ShapeLimits` says.
- Electrical timing: waveform tables, periods and what a pulse does to the circuit. A pulse on another pin leaves the TAP and the network untouched.
- Slot objects and their references: the register's fields are maps keyed by slot and instrument name, so two topologies that share a mutable slot object are not expressed.
- The interpreter's call history, and error messages; only whether a call raises is modelled.
- Dotted addresses arrive split at their dots; chain ids of a pattern arrive in ascending order, as the source sorts them.
- The lookup of named polynomials and manifests, the compressed-pattern driver that calls the seed solver and the interpreter, compaction, and one-hot data groups.
- Names of the tests of an integrity program, and per-test failure records beyond pass or fail and the count of compared cycles.
- The choice and validation of live instruments and their values when an integrity program is built; both sets are parameters.
- A one-bit instruction register, beyond `OneBitSelectsNetwork`: the source does not refuse one.
- The reference oracle and the diagnosis text of the over-shift check, which only run the modelled builder and player on a fresh model and compare integers.
- CheckReadsOnCycles: says nothing where the reported ranges are not the true positions; every built test is a list where they are (`TestsPlain`).
- ExpectedTests: asks for lists of navigation and non-empty shifts, which all built tests are (`TestsPlain`).
- WalkerAgrees: lists without operations on other pins, which `to_cycles` refuses; `WalkerWithPins` has them too.
- EmitThenImport: capture values, signal bindings, aliases and synchroniser flags of the rebuilt instruments are not compared, because the instance records do not carry them.
- LongScansKeepSelects: long scans are sufficient, not necessary; a short scan may happen to leave both models with equal selects.
- ReadbackNeverRaises: readable instruments only, because for the others the check does raise (`ReadbackRaisesIff`).
- ReadbackRaisesIff: the models show the same at every capture, as the two the source builds do; for models that change between captures only ReadbackNeverRaises is stated.
- BoundariesTracked: networks of good shape or none at all, like every other theorem about the register.
- AddressIsTheOne: sibling modules have distinct names; where two share one, the search may list an address the interpreter does not resolve, and then no program is built (`TestsBuilt`).
- AllChainsHoldAtPulse: the chains of a pattern are mapped to distinct WRITE instruments; two chains sharing one instrument overwrite each other.
- StagingIsLeast: one path at a time; whether several branches together use the fewest scans is not stated.
