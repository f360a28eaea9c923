# Proofs about the power-management unit

A Dafny model of the repository's power-management unit, and proofs of what its design documents,
its formal properties and its testbench promise. `dafny verify dfyconfig.toml` checks everything.

The unit is modelled as one synchronous system. Each RTL module is a class with a `Tick` method
(`Synchroniser`, `Controller`, `Sequencer`, `Arbiter`, `RegisterBlock`, `StatusBlock`, and `SliceUnit`
and `Pmu` for the wiring); every `Tick` is proved equal to a next-state function, and the properties
are proved about those functions, over runs. A run starts at power-on and takes any inputs:

* any number of domains (at least one), any retention flags, any synchroniser depth of two or more;
* all `DLY_*` and `TMO_*` values may change in every cycle; bounds are in terms of limits they keep;
* PMU resets at any point, also with the switches still on;
* switches and devices may do whatever the environment rules of `formal/pmu_props.sv` allow.

| file | content |
|---|---|
| `PmuTypes`, `SyncFf`, `QchMaster`, `PdCtrl`, `DomainSlice` | one domain: sequencer, Q-Channel controller, clamps, synchronisers, switches and device |
| `SliceInvariant`, `SlicePower`, `SliceQChannel`, `SliceSafety` | the inductive invariant of one domain and safety on its real pins |
| `TrickleStaging`, `SwitchTimeout`, `HandshakeTimeout`, `StepCounters` | timing: trickle staging, the exact timeout conditions of switches and Q-Channel, counter ranges |
| `Atomicity`, `SequencerMoves`, `Templates`, `SequenceRefinement` | a sequence runs to its destination, undisturbed, through exactly the template's changes |
| `DomainShell`, `Retention` | the domain's registers, their retention and their loss |
| `InrushArb`, `ApbRegs`, `PmuTop`, `PmuUnit` | arbiter, request and fault registers, the whole unit as a step relation and as objects |
| `InrushExclusion`, `UnitSafety`, `FaultLog`, `StatusTruth`, `RegisterHistory` | system invariant, inrush exclusion, fault accounting, status, DONE, requests and interrupts by history |
| `DomainRank`, `Liveness`, `Arbitration`, `Confluence` | the ranking argument, bounded liveness, arbitration times, the final states of a request and its DONE |
| `Bench`, `DroppedRequest`, `StuckSwitches`, `LongestStay` | concrete runs from power-on: a dropped request, registers kept through OFF, the longest wait for the grant |
| `Policy`, `RegMap` | the residency policy of `analysis/breakeven.py`, field packing of `scripts/gen_regmap.py` |

Three places where a plausible statement is false of the code; the code is kept, the exact condition
is proved, and a run from power-on shows the failure:

* A request does not always have an effect: if it comes anywhere in a handshake that the device denies
  in the end, the deny drops it too. After a request pulse with no further one and no PMU reset, a
  domain is disarmed exactly if a deny has ended for it since (`StatusTruth.DroppedIffDenied`).
  `DroppedRequest.RequestIsDropped` gives the runs, one for every cycle of the handshake.
* The arbiter term of `scripts/liveness_bound.py` bounds every wait for the grant if and only if there
  are at least two domains (`LongestStay.TermCoversIffOthers`); for one domain the boot run of
  `LongestStay.WaitIsAttained` waits two cycles where the term is one. The script's total is right for
  every number of domains, because its two switching bounds are each one cycle too large
  (`Liveness.RankBound`).
* Going to OFF does not always lose the retention registers. With nothing saved, a domain that is
  isolated from cycle a on and released at b keeps them exactly if a restore put them there and both
  switches stay on from a to b; otherwise every one of them has its reset value
  (`Retention.ReleasedRetention`). `StuckSwitches.OffKeepsRegisters` is a run that keeps a written
  value through S_OFF. Without a switch fault or PMU reset OFF always loses them, from RET as well as
  by switching off (`Retention.FaultFreeOffResets`).

## Model

| member | source | states |
|---|---|---|
| `SyncFf.LineIsHistory` | rtl/sync_ff.sv:15-20 | stage j of the shift register holds the input of j+1 clocks ago, the initial content before that: the output is exactly STAGES cycles old |
| `SyncFf.FrontStep` | rtl/sync_ff.sv:15-20 | a single transition runs through the register as one front, one stage a clock, for any depth |
| `SyncFf.FrontFills` | rtl/sync_ff.sv:15-20 | when the output shows the new level after at most depth cycles, every stage and the pin have it |
| `SyncFf.Synchroniser.Tick` | rtl/sync_ff.sv:15-18 | the clocked object shifts in its input and drops its oldest stage |
| `QchMaster.Controller.Tick` | rtl/qch_master.sv:19-30 | QREQn after the edge as a function of the requests and responses before it |
| `PdCtrl.Sequencer.constructor` | rtl/pd_ctrl.sv:145-168 | power-on state: OFF, armed, nothing retained, isolated, in reset |
| `PdCtrl.Sequencer.Reset` | rtl/pd_ctrl.sv:145-168 | PMU reset gives the same state from any other |
| `PdCtrl.Sequencer.Tick` | rtl/pd_ctrl.sv:144-385 | the clocked block with its read-old-values semantics and later-assignment-wins overrides equals the next-state function the results below are about |
| `DomainSlice.Wiring` | rtl/pmu_top.sv:118-148 | which register or pin every input of a slice's blocks is, for any content: the last stages into the sequencer, and only lows into the response synchronisers while isolated |
| `DomainSlice.SliceUnit.constructor` | rtl/pmu_top.sv:118-148 | one domain's instances at power-on |
| `DomainSlice.SliceUnit.Tick` | rtl/pmu_top.sv:118-148 | the wired instances, ticked one after the other, move as one synchronous step in which every input is a register from before the edge |
| `SliceInvariant.CtlInvStep` | rtl/pd_ctrl.sv:144-385 | the output table, counter ranges, target and retention flags survive every clock edge under arbitrary inputs |
| `SliceInvariant.StepStarts` | rtl/pd_ctrl.sv:198-383 | every timed step starts counting at zero |
| `SlicePower.PowerStep` | formal/pmu_props.sv:119-134 | what the ack pins and every synchroniser stage can hold in each state is kept by every edge: at most one front, no older than the step |
| `SliceQChannel.QStep` | formal/pmu_props.sv:148-169 | the joint state of QREQn, the response pins and every stage in each sequencer state, FAULT included, is kept by every edge |
| `SliceSafety.RunInv` | formal/pmu_props.sv:119-177 | the whole invariant in every state of every run, for any depth and live configuration, with PMU resets anywhere |
| `SliceSafety.PhysicalPower` | tb/pmu_env.py:242-248 | unisolated, out of reset or clocked implies both ack pins and every stage of both synchronisers are high |
| `SliceSafety.IsolationOrder` | formal/pmu_props.sv:74-79 | isolation off only out of reset; save only isolated with the clock stopped; save and restore only with retention |
| `SliceSafety.IsolationReleasedLast` | formal/pmu_props.sv:74-76 | isolation falls only with the clock running before and after, out of reset |
| `SliceSafety.TrickleOffAfterMain` | rtl/pd_ctrl.sv:296-302 | without a timeout the trickle enable falls only when the main ack is low on the pin and in every stage |
| `SliceSafety.QChannelRules` | formal/pmu_props.sv:100-107 | on the real pins QREQn falls only in Q_RUN and rises only from 00 or 11, and the device is reset only in Q_STOPPED, although decisions use values SYNC_STAGES cycles old |
| `TrickleStaging.MainAfterTrickle` | formal/pmu_props.sv:81-98 | when the main enable rises, trickle ack pin and enable have been high for at least max(1, DLY_TRICKLE) + SYNC_STAGES consecutive cycles, DLY_TRICKLE being the register's content then |
| `SwitchTimeout.StageIsHistory` | rtl/sync_ff.sv:15-20 | inside a run every ack stage is the pin's past |
| `SwitchTimeout.StepEdge` | rtl/pd_ctrl.sv:133-142 | one edge of a switch step whose ack arrives n cycles in, under live configuration: before age n + SYNC_STAGES it faults exactly if the TMO_PSW in force is reached, after that it goes on exactly if the ack has been heard for the hold in force |
| `SwitchTimeout.LateAckFaults` | rtl/pd_ctrl.sv:133-142 | FAULT, with that step recorded, right after the first age at which the TMO_PSW in force then is reached, if that is before n + SYNC_STAGES |
| `SwitchTimeout.TimelyAckPasses` | rtl/pd_ctrl.sv:99-108 | otherwise the step goes on to the next one in the first cycle from n + SYNC_STAGES on in which the hold in force then is reached |
| `SwitchTimeout.FaultIffLate` | rtl/pd_ctrl.sv:92-142 | the step ends in FAULT if and only if in one of its first n + SYNC_STAGES cycles its age reaches the content of TMO_PSW in that cycle (0 as 65536), for all four switch steps, under live configuration |
| `HandshakeTimeout.ResponseIsHistory` | rtl/pmu_top.sv:118-125 | every response stage is the device's pin of its own number of cycles ago, the clamp never in the way |
| `HandshakeTimeout.WaitLaw` | rtl/pd_ctrl.sv:129-142 | every edge of all three Q-Channel waits, resumed ones included, under live configuration: on to the next state exactly if the device had answered on its pins SYNC_STAGES cycles before, else FAULT exactly if the age reaches the TMO_QCH in force |
| `HandshakeTimeout.HandshakeFaultsIff` | rtl/pd_ctrl.sv:189-196 | the condition for a Q-Channel FAULT, both directions |
| `StepCounters.CountIsAge` | rtl/pd_ctrl.sv:77-78 | the 17-bit register cnt is the true age of every timed step, under live reconfiguration |
| `StepCounters.HoldCountIsAckRun` | rtl/pd_ctrl.sv:319-349 | hcnt is the true number of consecutive trusted ack cycles |
| `StepCounters.CountersNeverWrap` | rtl/pd_ctrl.sv:96-103 | cnt stays at or below 131069 and hcnt at or below 65534 where they are compared, and their increments are exact |
| `StepCounters.HoldLength` | rtl/pd_ctrl.sv:110-122 | a hold step ends in exactly the first cycle in which its true length reaches the content of its own register then (DLY_CLK, DLY_ISO, DLY_RET or DLY_RST), never in FAULT |
| `Atomicity.PdIndifferent` | rtl/pd_ctrl.sv:246-381 | mid-sequence a request reaches nothing but the armed flag |
| `Atomicity.NonInterference` | rtl/pd_ctrl.sv:4-6 | two runs differing only in target and arm inputs agree on every register but armed until the domain is stable or in FAULT |
| `Atomicity.DestinationChosen` | rtl/pd_ctrl.sv:200-237 | a sequence starts only armed and off target, towards the effective target, or towards ON when powering up |
| `Atomicity.DestinationKept` | rtl/pd_ctrl.sv:246-381 | every step of a sequence keeps its destination; only a deny changes it, to ON |
| `Atomicity.ReachesDestination` | rtl/pd_ctrl.sv:4-6 | a sequence without FAULT ends in the state it started towards, or in ON by deny |
| `SequencerMoves.SequenceMoves` | rtl/pd_ctrl.sv:246-381 | the transition graph inside sequences, with what becomes of target and saved state |
| `SequencerMoves.StableMoves` | rtl/pd_ctrl.sv:200-238 | a stable state is left exactly when armed and unsatisfied, at once |
| `SequencerMoves.FaultMoves` | rtl/pd_ctrl.sv:239-245 | FAULT is left only by a clear, to the interrupted wait or to OFF, with a fresh timeout |
| `SequencerMoves.FaultEntry` | rtl/pd_ctrl.sv:175-197 | FAULT is entered only by a timeout in a wait; the step it records is the one the outputs before it show; the saved state and the sequence's target survive |
| `SequenceRefinement.SequenceStep` | tb/pmu_env.py:366-378 | each edge of a sequence adds exactly the next rows of the matching template, or none |
| `SequenceRefinement.SequenceMatchesTemplate` | tb/pmu_env.py:317-333 | the output changes between two stable states are exactly the template of that pair, in order, strictly later each but for the marked same-cycle pairs |
| `SequenceRefinement.RetRestores` | tb/pmu_env.py:355-358 | a power-up from RET follows the restoring template |
| `DomainShell.Domain.LosePower` | tb/domain_shell.sv:41-46 | on power loss every normal and live register is lost, the shadow stays |
| `DomainShell.Domain.OnNormal` | tb/domain_shell.sv:53-62 | normal registers: unpowered, reset, write |
| `DomainShell.Domain.OnRetention` | tb/domain_shell.sv:64-88 | live retention registers: restore overrides reset, reset only without a restore since the last power loss |
| `DomainShell.Domain.OnSave` | tb/domain_shell.sv:65-66 | the shadow captures the live copy |
| `DomainShell.Domain.Tick` | tb/domain_shell.sv:41-88 | all events of one clock cycle, in the order the levels change |
| `Retention.RegsAlways` | tb/domain_shell.sv:41-88 | over every run: in reset and on the way up a powered domain holds reset values in its normal registers, and in its retention registers too unless a restore has happened since the last power loss; in U_RESTORE they equal the shadow |
| `Retention.NormalRegistersReset` | tb/pmu_env.py:299-303 | normal register i holds base + i, cut to its width, whenever isolation is released at the end of a power-up |
| `Retention.RemembersAlways` | rtl/pd_ctrl.sv:284-290 | while a state is saved the shadow equals the live registers at the last clock stop, through faults |
| `Retention.RetentionRoundTrip` | tb/pmu_env.py:304-308 | from the clock stop over RET and any number of switch faults back to ON, the retention registers return unchanged |
| `Retention.PowerLossResets` | tb/pmu_env.py:304-308 | after a real power loss with nothing saved every register comes up with its reset value |
| `Retention.ReleasedRetention` | tb/domain_shell.sv:64-88 | the exact condition: with nothing saved, isolated from a and released at b, the retention registers are those of a if they were restored and both switches stay on from a to b, reset values otherwise |
| `Retention.FaultFreeOff` | rtl/pd_ctrl.sv:227-230 | OFF entered without a fault or PMU reset comes from D_TRK_OFF or from RET, and either way the power is off on the pins and nothing is saved |
| `Retention.FaultFreeOffResets` | tb/pmu_env.py:304-308 | a run through OFF entered so, from RET or by switching off, returns reset values in every register |
| `Retention.OffRunResets` | rtl/pd_ctrl.sv:303-311 | a domain in D_TRK_OFF for OFF comes up with reset values even if its trickle switch then faults |
| `Retention.OffLosesPower` | rtl/pd_ctrl.sv:296-302 | once the main switch is confirmed off, it is off on the pin |
| `StuckSwitches.OffKeepsRegisters` | rtl/pd_ctrl.sv:175-188 | a run from power-on in which a written value survives S_OFF: both switches stuck on, the timeout of D_MAIN_OFF, the clear, the power-up without restore |
| `InrushArb.Arbiter.LowestRequester` | rtl/inrush_arb.sv:13-19 | the pick loop yields the lowest requester, one-hot, or nothing |
| `InrushArb.Arbiter.Tick` | rtl/inrush_arb.sv:21-25 | the registered grant |
| `InrushArb.ArbiterLaw` | rtl/inrush_arb.sv:1-4 | one-hot or zero, no preemption of a requesting holder, a free grant to the lowest requester, for any requests |
| `ApbRegs.RegisterBlock.Encode` | rtl/apb_regs.sv:113-127 | the downward loop finds the lowest-index fault pulse and its step, domain number in two bits |
| `ApbRegs.DecodesTransfers` | rtl/apb_regs.sv:59-80 | the decode agrees with the pins: a mode request is a transfer to 0x008 with a code up to 4, its mode the one of that code, a fault clear a transfer to 0x080 with bit 2 set |
| `ApbRegs.RegisterBlock.Tick` | rtl/apb_regs.sv:158-196 | MODE_REQ with its arm pulse and all four bits of IRQ_STATUS in terms of the bus signals, write over wake, event over clear; FAULT_INFO |
| `PmuUnit.StatusBlock.Tick` | rtl/pmu_top.sv:166-180 | mode_cur, done_pending and ev_done, a request overriding completion |
| `PmuUnit.Pmu.constructor` | rtl/pmu_top.sv:47-180 | the objects of the unit at power-on show the initial state of every run |
| `PmuUnit.Pmu.Wires` | rtl/pmu_top.sv:97-164 | request, event and per-domain inputs gathered from the objects are those of the system state |
| `PmuUnit.Pmu.Tick` | rtl/pmu_top.sv:47-180 | ticking all objects one after the other is one synchronous step of the system |
| `PmuUnit.RunFollowsTick` | rtl/pmu_top.sv:47-180 | every step of every run leaves exactly the registers that Tick leaves |
| `PmuTop.Projects` | rtl/pmu_top.sv:118-151 | every domain of the unit lives a run of its own slice, so the per-domain results hold in the system |
| `InrushExclusion.SysInvStep` | formal/pmu_props.sv:179-183 | the system invariant (every slice's own, one-hot grant, switching only with the grant) is inductive |
| `InrushExclusion.SysRunInv` | formal/pmu_props.sv:179-183 | and holds in every state of every run |
| `InrushExclusion.OneSwitchingAtATime` | formal/pmu_props.sv:201-205 | at most one domain is between trickle and main switch, and it holds the grant, for any number of domains |
| `InrushExclusion.GrantIsNeverTaken` | rtl/inrush_arb.sv:21-25 | without PMU reset the holder keeps the grant through its whole phase and nobody else gets one |
| `InrushExclusion.FreeGrantGoesToLowest` | rtl/inrush_arb.sv:13-25 | a free grant goes to the arbitrating domain of lowest index and to nobody else |
| `UnitSafety.UnitIsPowered` | tb/pmu_env.py:242-248 | physical power safety for every domain of the wired unit |
| `UnitSafety.UnitKeepsQChannelRules` | formal/pmu_props.sv:100-107 | the Q-Channel controller rules for every domain of the wired unit |
| `FaultLog.PulseIffEntered` | rtl/pd_ctrl.sv:124-139 | ev_fault is high exactly in the first cycle of a stay in FAULT, with the step that the domain's outputs of the cycle before show: out of reset a Q-Channel wait, in reset a switch |
| `FaultLog.InfoNamesFirstFault` | rtl/apb_regs.sv:192-196 | FAULT_INFO, as a function of the run's history, names the first domain that entered FAULT since IRQ_STATUS bit 2 was last written 1, lowest index on ties, index modulo 4, with the step its outputs showed; no entry, no VALID |
| `FaultLog.FaultsAccounted` | rtl/apb_regs.sv:188-196 | IRQ_STATUS.FAULT always equals VALID, and every domain in FAULT has it set or its pulse pending |
| `FaultLog.OneClearReleasesAll` | rtl/pd_ctrl.sv:239-245 | a domain leaves FAULT if and only if bit 2 of IRQ_STATUS is written 1, whichever domain FAULT_INFO names |
| `StatusTruth.ArmedNext` | rtl/pd_ctrl.sv:259-265 | armed falls exactly at the end of a deny, which also drops a request arriving in that cycle |
| `StatusTruth.DroppedIffDenied` | rtl/pd_ctrl.sv:173 | after a request pulse, with no further pulse and no PMU reset, a domain is disarmed in a later cycle if and only if a deny ended for it in between |
| `DroppedRequest.RequestIsDropped` | rtl/pd_ctrl.sv:247-265 | runs of the unit from power-on in which a request written in any cycle of a denied handshake is dropped |
| `StatusTruth.DisarmedByDeny` | rtl/pd_ctrl.sv:259-265 | a disarmed domain was denied, and has stayed in ON without a new request since |
| `StatusTruth.MismatchMeansDisarmedOn` | rtl/pmu_top.sv:160-163 | MISMATCH if and only if some domain is off target and all such domains are ON and disarmed |
| `StatusTruth.ModeIsLastMet` | rtl/pmu_top.sv:173 | MODE_STATUS.MODE is the last mode all domains satisfied together since boot |
| `StatusTruth.DoneIffFirstMet` | rtl/pmu_top.sv:166-180 | DONE fires if and only if the cycle before was the first of its batch of requests with all domains at target |
| `StatusTruth.DoneOncePerBatch` | rtl/pmu_top.sv:174-178 | between two DONE events lies a new request or a PMU reset |
| `StatusTruth.ReportsLastStable` | rtl/pd_ctrl.sv:393-402 | in a sequence or in FAULT last_stable is the stable state the domain was in last, PMU resets included |
| `RegisterHistory.SetIffEventSinceClear` | rtl/apb_regs.sv:188-190 | each bit of IRQ_STATUS is set if and only if its event happened since a transfer last wrote 1 to that bit, or a PMU reset; an event in the cycle of the clear wins |
| `RegisterHistory.ModeReqIsLastAsked` | rtl/apb_regs.sv:155-165 | MODE_REQ is the mode whose code software last wrote, or the mode of the last wake event, since boot, software over wake; arm pulses exactly one cycle after each request |
| `DomainRank.SettledStays` | rtl/pd_ctrl.sv:198-245 | at rest (target, FAULT, or denied ON) a domain stays at rest while nothing is requested or cleared |
| `DomainRank.QuietLowers` | formal/pmu_props.sv:241-246 | every quiet edge lowers the rank of a domain not at rest and not waiting for the grant |
| `DomainRank.AheadFalls` | rtl/inrush_arb.sv:13-25 | no quiet edge puts more switching ahead of the other domains; a step of the holder takes some away |
| `Liveness.RankFalls` | rtl/inrush_arb.sv:21-25 | in the whole unit every quiet edge keeps a domain at rest or lowers its rank, queue for the grant included |
| `Liveness.RankRuns` | rtl/pd_ctrl.sv:198-383 | over every quiet stretch of a run a domain comes to rest or its rank loses at least one per cycle |
| `Liveness.RankBound` | scripts/liveness_bound.py:33-46 | the script's total exceeds the rank of every domain in every reachable state by one cycle per domain; a deny adds at most TMO_QCH |
| `Liveness.ScriptBoundSummed` | scripts/liveness_bound.py:33-46 | the total in closed form; 2874 cycles for three domains at the reset values |
| `Liveness.SettlesInTime` | scripts/liveness_bound.py:1-10 | bounded liveness for any number of domains and any configuration, live changes within limits included: at target, in FAULT or denied from the script's total for the limits on (plus TMO_QCH if a deny may come), for good |
| `Liveness.ReachesTargetInTime` | scripts/liveness_bound.py:46-50 | without a deny, an armed domain is at its target or in FAULT from the script's total on, for good |
| `Arbitration.ArbTermInTotal` | scripts/liveness_bound.py:42-46 | the arbiter term is what the total gains over one domain, plus one; 1051 cycles for three domains at the reset values |
| `Arbitration.WaitIsBounded` | rtl/pd_ctrl.sv:313-318 | while nothing is requested or cleared no stay in U_ARB is longer than (N-1)*(P+2)+2 cycles, P the longest switching phase within the limits of the configuration |
| `LongestStay.WaitIsAttained` | rtl/inrush_arb.sv:13-25 | for every number of domains a boot run in which the last domain waits exactly as long as the bound allows |
| `LongestStay.TermCoversIffOthers` | scripts/liveness_bound.py:42-43 | the script's arbiter term bounds every quiet stay in U_ARB, over all runs, if and only if there are two domains or more |
| `Arbitration.LoneDomainWaitsTwo` | rtl/inrush_arb.sv:21-25 | with one domain every uninterrupted arbitration takes exactly two cycles |
| `Arbitration.SwitchesAtMostOnce` | rtl/pd_ctrl.sv:313-348 | after the last request and fault clear each domain has at most one switching phase |
| `Confluence.EndStateMeetsTarget` | rtl/pmu_top.sv:85-95 | the table of end states, written out for the five modes and domains 0, 1 and up, is what the mode table, retention and the OFF-satisfies-RET rule amount to |
| `Confluence.RequestIsConfluent` | tb/pmu_env.py:507-514 | from rest, after one undisturbed request, all domains at target means exactly the end states of that table, whatever the latencies, the arbitration and the live configuration |
| `Confluence.RequestIsServed` | tb/pmu_env.py:507-514 | that vector is reached within the script's total for the limits of the configuration, and never left |
| `Confluence.RequestIsDoneOnce` | rtl/pmu_top.sv:166-180 | one undisturbed request gives exactly one DONE, within that bound plus a cycle, and raises IRQ_STATUS.DONE in the next |
| `Policy.ComputePolicy` | analysis/breakeven.py:153-166 | the loop over the grid builds a table that, read at any grid point, is energy-optimal there |
| `Policy.ChoiceIsOptimal` | analysis/breakeven.py:160-162 | the chosen mode saves saving*t - overhead > 0, no mode saves more, the greatest name wins ties; staying is chosen exactly if no mode saves anything |
| `Policy.PaysBeyondBreakEven` | analysis/breakeven.py:141 | a mode saves energy exactly for residencies beyond its break-even time |
| `Policy.StaysUpToBreakEven` | analysis/breakeven.py:141-162 | the policy stays in RUN exactly up to the least break-even time |
| `Policy.TableIsOptimal` | analysis/breakeven.py:159-165 | the same of the entry read at any grid point, in the fields of the modes |
| `Policy.StayOnlyFirst` | analysis/breakeven.py:162-165 | staying in RUN can only be the first entry |
| `Policy.SavingsIncrease` | analysis/breakeven.py:153-166 | savings strictly increase from entry to later entry |
| `Policy.AtMostOneEntryEach` | analysis/breakeven.py:153-166 | every mode has at most one entry, so at most len(modes)+1 entries, for any grid |
| `RegMap.AdmissibleIff` | scripts/gen_regmap.py:40-43 | the two assertions about a field say that 0 <= lsb <= msb < width and that its reset is below the power of two of its width |
| `RegMap.LoadFields` | scripts/gen_regmap.py:36-47 | accepts exactly the lists of such fields with pairwise disjoint bits, else names the first offending field and its fault |
| `RegMap.Load` | scripts/gen_regmap.py:31-48 | accepts exactly the maps of distinct addresses, multiples of 4 below the power of two of the address width, with acceptable registers, and packs each |
| `RegMap.OverlapTest` | scripts/gen_regmap.py:41-42 | the bitwise test against all earlier fields is empty if and only if the bit ranges are disjoint |
| `RegMap.MasksDisjoint` | scripts/gen_regmap.py:41-45 | two masks share no bit if and only if their fields do not overlap |
| `RegMap.PackBits` | scripts/gen_regmap.py:44-47 | bit by bit, what mask and reset word contain |
| `RegMap.ResetRoundTrip` | tb/test_pmu.py:41-43 | reading any field of an accepted register from its packed reset word returns that field's reset |
| `RegMap.NothingOutside` | scripts/gen_regmap.py:40-47 | no reset bit outside the register mask, no mask bit beyond the data width |

## Left out

- The register bank of the sequencer is one record held in a field of `Sequencer`; the RTL has 22 separate registers. The edge assigns a copy and stores it, which keeps the read-old-values semantics.
- Sequencer states are a datatype, so the unused codes 22 to 31 and the default branch of the case statement cannot occur. The last stable state is a state, not the PD_STATE code.
- The synchroniser depth is below 2^17, because the settle comparison casts it to 17 bits; a deeper synchroniser would compare against a truncated number.
- PMU reset is one step to the reset values; the reset synchroniser, metastability and asynchronous reset timing are not modelled. The acks of the switches are free to stay high through it.
- The APB read mux, the plain configuration registers, IRQ_EN and PSLVERR: one-branch facts. The configuration is an input that may change in every cycle instead.
- The wake controller and timer: a wake event and its mode are free inputs.
- The clock-gating cells, technology cells, QACTIVE, PD_STATE and the debug bus: observation only. The domain clock runs exactly while clk_en is high.
- Four-valued logic in the domain shell, beyond one lost value; the domain writes only while powered, clocked and unisolated. At power-on the registers are lost, or already reset if the switches are on.
- The isolated outputs of the domain shell and its ready flag: combinational.
- The rest of a sequence after a FAULT is not matched against a suffix of its template (tb/pmu_env.py:368-372); templates are proved for runs without FAULT.
- After a Q-Channel FAULT it is not claimed that all outputs are frozen: QREQn may still move by the handshake rules, which the Q-Channel results include.
- Arbitration without an end to requests or fault clears may starve a domain; liveness is stated from the last one on.
- `Policy.ComputePolicy`: floating point is modelled by reals, and the string order of mode names by numbers; the numbers that feed the policy (leakage, latencies) are inputs.
- `RegMap.Load`: the check that enumeration keys are strings, a fact about the input format, is not modelled; resets are not negative, which the generator does not check.
- Testbench drivers, coverage, mutation scripts, plots, generated headers, the legacy design and the UPF intent.
