# SmartEVSE-3 controller core in Dafny

This project models the charging-control core of the SmartEVSE-3 firmware
(`SmartEVSE-3/src/main.cpp`, hardware version 3) and proves properties of it.

- **Allocation.** Whether one more EVSE may start at MinCurrent
  (`IsCurrentAvailable`). How the master computes `IsetBalanced` in Normal,
  Smart and Solar mode and spreads it over the charging slots
  (`CalcBalancedCurrent`).
- **Charge-point state machine.** The entry actions of the states
  (`setState`), the forced stops (`setStatePowerUnavailable`, `setAccess`),
  the mode change (`setMode`), the 10 ms pilot state machine (`Timer10ms`) and
  the one-second housekeeping (`Timer1S`).
- **Load-balancing protocol, master side.** Polling nodes with the online
  countdown (`requestNodeStatus`), decoding a node's status block
  (`receiveNodeStatus`), answering start requests and writing state back
  (`processAllNodeStates`), and the write pass over the online nodes.
- **Load-balancing protocol, node side.** A node's handling of the master's
  current broadcast.
- **Helpers.** The pilot duty table (`SetCurrent`), pilot-level
  classification (`Pilot`), the cable capacity (`ProximityPin`), the error
  number (`getErrorId`), forced single-phase charging
  (`Force_Single_Phase_Charging`) and the firmware version comparison
  (`fwNeedsUpdate`).

The model is functional. The controller's globals are one `Evse` value, and
the configuration is a `Settings` value. Each operation returns the new
`Evse`. Effects on the hardware and on the bus are appended to `Evse.out` as
`Command`s:
- contactor switching;
- pilot duty;
- pilot disconnect and reconnect;
- sampling alarm;
- Modbus status read;
- Modbus status write.

What an output ends up doing is read back as the last command of its kind
(`Transitions.LastWhere`). Currents are in 0.1 A, as in the firmware. The
C integer widths are modelled explicitly:
- `uint16_t` stores go through `Wrap16`;
- `int16_t` values such as `IsetBalanced` and `Isum` go through `ToI16`;
- `uint8_t` counters go through `Wrap8`;
- the `uint32_t` charge timers go through `Wrap32`;
- C division truncates toward zero (`CDiv`).

Modules, by file:

| file | module | contents |
|---|---|---|
| types.dfy | Types | states, flags, settings, controller state, commands, integer widths |
| tables.dfy | Tables | slot masks, counting and masked sums |
| signals.dfy | Signals | duty table, pilot classification, cable capacity, error number, firmware comparison |
| transitions.dfy | Transitions | setState, setStatePowerUnavailable, setAccess, setMode |
| distribution.dfy | Distribution | the two passes that spread IsetBalanced over the slots |
| allocation.dfy | Allocation | IsCurrentAvailable, CalcBalancedCurrent |
| ticks.dfy | Ticks | Timer10ms (pilot state machine), Timer1S |
| nodes.dfy | Nodes | node polling, status decoding, processAllNodeStates, write pass, node broadcast handling |

## Model

| member | source | states |
|---|---|---|
| Types.DecodeState | SmartEVSE-3/src/main.cpp:1559-1561 | A state register byte decodes to the state with that code; codes above 10 stay unknown. |
| Signals.DutyFor | SmartEVSE-3/src/main.cpp:566-575 | Every current maps to a pilot duty between 102 and 983 (of 1024): the PWM never reaches 0 % or 100 %. |
| Signals.DutyFallback | SmartEVSE-3/src/main.cpp:569-573 | A current below 6 A or above 80 A gets the 6 A duty, 102. |
| Signals.DutyMonotoneLow | SmartEVSE-3/src/main.cpp:569-573 | Between 6 A and 51 A, more current never gives less duty. |
| Signals.DutyMonotoneHigh | SmartEVSE-3/src/main.cpp:571-573 | Between 51.1 A and 80 A, more current never gives less duty. |
| Signals.DutyDropsAcrossSegments | SmartEVSE-3/src/main.cpp:569-573 | The two segments do not join monotonically: 51.1 A gets duty 864, below the 870 of 51.0 A. |
| Signals.ClassifyPilot | SmartEVSE-3/src/main.cpp:657-678 | The reported level is 12 V, 9 V, 6 V, 3 V or diode exactly when all 25 samples lie in that level's band, and "not ok" otherwise. |
| Signals.CableCapacity | SmartEVSE-3/src/main.cpp:646-651 | A fixed cable gets MaxCurrent. On a socket, each resistor band selects exactly its 16, 32 or 63 A, and no band means 13 A. |
| Signals.ErrorId | SmartEVSE-3/src/main.cpp:701-709 | The count is 0 exactly for no error. Otherwise it is the position of the highest set bit: 2^(count-1) <= code < 2^count. |
| Signals.FwNeedsUpdateMeansOlder | SmartEVSE-3/src/main.cpp:5618-5641 | An update is wanted exactly when both versions scan as plain x.y.z and the running one is lexicographically older. It is never wanted in both directions. |
| Transitions.SetCurrent | SmartEVSE-3/src/main.cpp:566-582 | Writes exactly the table duty for the current, one duty command, and remembers it as CurrentPWM; nothing else changes. |
| Transitions.ForceSinglePhase | SmartEVSE-3/src/main.cpp:786-799 | Single phase is forced exactly when contactor 2 is absent or always off, or is off in Solar mode and the mode is Solar. |
| Transitions.SetState | SmartEVSE-3/src/main.cpp:811-917 | The new state is stored as State and as slot 0. Only the entry commands are emitted. The node slots, the currents, the mode and the meters are untouched. |
| Transitions.SetStateTimers | SmartEVSE-3/src/main.cpp:819-909 | The timers and flags each entry sets. B1: a 3 s charge delay unless one is already counting, and a pilot disconnect when coming from neither B1 nor B. A: power errors, charge delay, phase switch and session counters cleared. C1: a 6 s contactor timeout and a 15 s charge delay. C: activation ended and a pending phase switch completed. |
| Transitions.SetStateOpensContactors | SmartEVSE-3/src/main.cpp:819-878 | After entering A, B or B1, the last command to each contactor opens it. |
| Transitions.SetStateClosesContactors | SmartEVSE-3/src/main.cpp:879-896 | Entering C closes contactor 1. Contactor 2 is closed for a three-phase charge, opened by a pending phase switch, and otherwise left as it was. |
| Transitions.SetStateDuty | SmartEVSE-3/src/main.cpp:819-903 | A, B1 and C1 leave the pilot at constant +12 V (1024). B drives the duty of ChargeCurrent. |
| Transitions.SetStatePowerUnavailable | SmartEVSE-3/src/main.cpp:801-809 | C becomes C1, and every state but A and C1 becomes B1. A and C1 change nothing. The result is never C. |
| Transitions.SetAccess | SmartEVSE-3/src/main.cpp:919-925 | Access is stored. Revoking it moves C to C1 and B to B1. Granting it changes nothing else. |
| Transitions.SetMode | SmartEVSE-3/src/main.cpp:724-776 | Without a mains meter, only Normal can be chosen; otherwise the call is ignored. Otherwise the mode is stored and the charge delay cleared. Solar drops the override current. Smart clears the power errors and both stop timers. A changed mode is announced to the nodes as mode + 1 (as a byte). Access ends as !delayedStart, or granted after a Solar contactor pause. Node data is untouched. |
| Transitions.ModeAccess | SmartEVSE-3/src/main.cpp:729-749 | The access part of a mode change. A change into or out of Solar, with contactor 2 off in Solar, revokes access, which stops a running charge. |
| Transitions.ModeStore | SmartEVSE-3/src/main.cpp:757-766 | The storing part of a mode change: Smart's clears, the charge delay, the announcement and the new mode. |
| Transitions.SetModeSolarOffPausesCharge | SmartEVSE-3/src/main.cpp:740-749 | With contactor 2 off in Solar, entering or leaving Solar while charging ends in C1 with access granted. |
| Allocation.FiguresOf | SmartEVSE-3/src/main.cpp:1138-1151 | ActiveEVSE, ActiveMax and TotalCurrent are the count and masked sums over the charging slots. The EV base load is never negative. |
| Allocation.IsCurrentAvailable | SmartEVSE-3/src/main.cpp:973-1039 | A start it allows fits MinCurrent for one more EVSE under MaxMains, MaxCircuit (where it applies) and MaxSumMains (on the phases that must carry it), and is not suspended by OCPP. Solar with nothing charging needs more than StartCurrent of export. Solar with EVSEs charging needs each to keep MinCurrent, with the import at most ImportCurrent above what keeps them all at MinCurrent. |
| Allocation.AvailableWhenFits | SmartEVSE-3/src/main.cpp:973-1039 | Conversely, a start that fits MinCurrent for one more EVSE under every limit that applies, meets the Solar export and import conditions, and is not suspended by OCPP is allowed. |
| Allocation.NormalModeAlwaysAvailable | SmartEVSE-3/src/main.cpp:1008-1034 | In Normal mode, a standalone EVSE or a node is refused only by OCPP. |
| Allocation.AvailableMonotone | SmartEVSE-3/src/main.cpp:973-1039 | More MaxMains or MaxCircuit, or lower measured loads, never turn an allowed start into a refused one. |
| Allocation.AvailableFrame | SmartEVSE-3/src/main.cpp:973-1039 | The start check depends only on the mode, the phase switch, the meters and the slot currents and states. |
| Allocation.ChargeCeiling | SmartEVSE-3/src/main.cpp:1114-1136 | An override replaces the ceiling. Otherwise, without an OCPP limit it is the cable ceiling. With one it is the smaller of the cable ceiling and the limit, and 0 when the limit is below MinCurrent. It never exceeds MaxCurrent. |
| Allocation.CableCeiling | SmartEVSE-3/src/main.cpp:1115-1118 | While charging on a socket cable weaker than MaxCurrent the ceiling is the cable capacity, and otherwise MaxCurrent. |
| Allocation.HeadroomOf | SmartEVSE-3/src/main.cpp:1166-1177 | Idifference is the smaller of what MaxMains and MaxCircuit (where it applies) leave, and is within the MaxSumMains share per phase. `limited` is set exactly when that share is smaller than both, and then Idifference equals the share. Normal mode has none. |
| Allocation.Damp | SmartEVSE-3/src/main.cpp:1179-1192 | The damped target is within [0, 80 A]. With fresh data, Smart rises by a quarter of a positive headroom, and both modes fall by a negative one. Otherwise it is only clamped. |
| Allocation.DampTowardHeadroom | SmartEVSE-3/src/main.cpp:1181-1191 | Smart damping never overshoots: it rises by at most a quarter of a positive headroom, and falls by no more than a negative one. |
| Allocation.SolarStep | SmartEVSE-3/src/main.cpp:1197-1217 | Without headroom or fresh data, the target is left alone. |
| Allocation.SolarStepAgainstFlow | SmartEVSE-3/src/main.cpp:1200-1215 | Export raises the target by 0.5 A when it exceeds 1 A with more than 1 A of headroom, and by 0.1 A otherwise. Import lowers it by half of itself above 2 A, by 0.5 A above 1 A and by 0.1 A above 0.3 A. An import of at most 0.3 A leaves it. |
| Allocation.SmartJoin | SmartEVSE-3/src/main.cpp:1222-1228 | A joining EVSE resets the Smart target to at most what MaxMains and MaxCircuit leave over the base loads, and at most the three-phase MaxSumMains share. The result is one of those two values. |
| Allocation.Target | SmartEVSE-3/src/main.cpp:1153-1230 | Normal uses MaxCircuit minus the EV base load on a master, and ChargeCurrent otherwise. Smart without a joining EVSE stays within [0, 80 A]. Without fresh data a non-Normal target is only clamped. A joining EVSE with nothing charging, and a Solar start without headroom or fresh data, keep IsetBalanced. |
| Allocation.TargetSmartDamps | SmartEVSE-3/src/main.cpp:1179-1192 | With fresh data, the Smart target rises by at most a quarter of a positive headroom and falls by no more than a negative one. |
| Allocation.TargetSmartJoin | SmartEVSE-3/src/main.cpp:1222-1228 | A joining EVSE in Smart mode gets at most what MaxMains and MaxCircuit leave and the MaxSumMains share, and exactly one of them. |
| Allocation.TargetSolarAgainstFlow | SmartEVSE-3/src/main.cpp:1197-1217 | With headroom and fresh data, the Solar target moves from IsetBalanced by the step of its band: +0.5 A or +0.1 A on export, half the import above 2 A, -0.5 A above 1 A, -0.1 A above 0.3 A, and no change within 0.3 A. |
| Allocation.Guard | SmartEVSE-3/src/main.cpp:1237-1242 | The clamps never raise the target. They bring it within MaxMains (with a mains meter) and MaxCircuit (where it applies). A target that already fits is untouched, and a clamped one equals the limit that clamped it. |
| Allocation.SolarShortage | SmartEVSE-3/src/main.cpp:1261-1284 | A wanted Solar stop starts SolarStopTimer at StopTime minutes, unless it is already running. On a three-phase Auto standalone it instead tells the EV to stop and marks the switch to one phase. With enough sun the timer is cancelled. |
| Allocation.Shortage | SmartEVSE-3/src/main.cpp:1256-1320 | A target below MinCurrent per charging EVSE is raised to exactly that floor. A hard shortage counts in NoCurrent unless a phase switch is pending. A soft shortage limited by MaxSumMains starts MaxSumMainsTimer at MaxSumMainsTime minutes when it is not running. Without a shortage the stop timers and NoCurrent are cleared. Only slot 0 can change state, and only to C1. |
| Allocation.ShortageNonNegative | SmartEVSE-3/src/main.cpp:1256-1260 | After the shortage check the target is at least MinCurrent per charging EVSE. |
| Allocation.ShortageRaisesToFloor | SmartEVSE-3/src/main.cpp:1256-1304 | Outside Solar, a hard shortage sets the target to the floor and counts one more NoCurrent. |
| Allocation.SolarNew | SmartEVSE-3/src/main.cpp:1337 | A slot is in its solar start window exactly in Solar mode with IntTimer below the start time. |
| Allocation.Spread | SmartEVSE-3/src/main.cpp:1324-1374 | Only charging slots get a new current. Only Balanced and IsetBalanced change. |
| Allocation.SpreadWithinCeilings | SmartEVSE-3/src/main.cpp:1324-1374 | Outside Solar, each charging slot gets at most its ceiling. Together they get exactly IsetBalanced, which is capped at ActiveMax. |
| Allocation.Allocate | SmartEVSE-3/src/main.cpp:1153-1382 | Only charging slots get a current. With nothing charging, the stop timers and NoCurrent are cleared and Balanced is untouched. |
| Allocation.ResetTimers | SmartEVSE-3/src/main.cpp:1377-1381 | With nothing charging, SolarStopTimer, MaxSumMainsTimer and NoCurrent become 0. The currents, the slot tables and everything outside the balance record are kept. |
| Allocation.AllocateWithinCeilings | SmartEVSE-3/src/main.cpp:1153-1374 | Outside Solar, with EVSEs charging and data to act on, the target, clamp, shortage and spread steps together keep every charging slot within its ceiling. The charging slots share exactly IsetBalanced, and 0 <= IsetBalanced <= ActiveMax. |
| Allocation.CalcBalancedCurrent | SmartEVSE-3/src/main.cpp:1105-1397 | ChargeCurrent becomes the ceiling and is recorded as slot 0's maximum. The phase data is consumed. Node records, errors and mode are untouched. Only charging slots get a current. With nothing charging, the timers and NoCurrent are reset. |
| Allocation.WithCeiling | SmartEVSE-3/src/main.cpp:1114-1136 | ChargeCurrent becomes the override or a ceiling within MaxCurrent, and is recorded as slot 0's maximum. Nothing else changes. |
| Allocation.CalcDistributesWithinCeilings | SmartEVSE-3/src/main.cpp:1105-1374 | Outside Solar, with EVSEs charging and data to act on, every charging slot stays within its ceiling. The charging slots share exactly IsetBalanced, and 0 <= IsetBalanced <= ActiveMax. |
| Distribution.PinServes | SmartEVSE-3/src/main.cpp:1330-1360 | Pass 1 (Distribution.Pin) touches only waiting charging slots. A slot it serves gets MinCurrent (solar start) or exactly its ceiling. |
| Distribution.PinAccounts | SmartEVSE-3/src/main.cpp:1330-1360 | Pass 1 takes from MaxBalanced exactly what it hands out, and counts one active slot off per slot served. |
| Distribution.PinSettles | SmartEVSE-3/src/main.cpp:1330-1360 | When pass 1 ends, every slot still waiting has a ceiling above the final average. |
| Distribution.PinKeepsBudget | SmartEVSE-3/src/main.cpp:1330-1360 | Without solar starts, pass 1 never overdraws a non-negative budget. |
| Distribution.ShareFrame | SmartEVSE-3/src/main.cpp:1364-1374 | Pass 2 (Distribution.Share) touches only waiting charging slots. |
| Distribution.ShareAccounts | SmartEVSE-3/src/main.cpp:1364-1374 | Pass 2 takes from MaxBalanced exactly what it hands out, and never overdraws. |
| Distribution.ShareServesAll | SmartEVSE-3/src/main.cpp:1364-1374 | Pass 2 serves every waiting charging slot and counts each off. |
| Distribution.ShareNearAverage | SmartEVSE-3/src/main.cpp:1364-1374 | With the budget between q and q+1 per slot, pass 2 gives every waiting slot q or q+1. |
| Distribution.Distribute | SmartEVSE-3/src/main.cpp:1324-1374 | Slots that are not charging keep their current. |
| Distribution.DistributeAccounts | SmartEVSE-3/src/main.cpp:1324-1374 | Both passes serve exactly the charging slots and hand out the budget minus what is left. |
| Distribution.PinLeavesAverage | SmartEVSE-3/src/main.cpp:1330-1367 | When pass 1 leaves slots waiting, the average pass 2 starts from is below each of their ceilings. |
| Distribution.PinAverageFits | SmartEVSE-3/src/main.cpp:1330-1367 | That average is non-negative, fits a uint16_t and brackets the remaining budget. |
| Distribution.DistributeBounded | SmartEVSE-3/src/main.cpp:1324-1374 | Without solar starts, every charging slot stays within its ceiling, and slots pinned in pass 1 get exactly their ceiling. |
| Distribution.DistributeExhausts | SmartEVSE-3/src/main.cpp:1324-1374 | When every counted slot is charging and the ceilings can absorb the budget, the charging slots get exactly the budget. |
| Distribution.PinPinsAll | SmartEVSE-3/src/main.cpp:1330-1360 | If pass 1 pins every charging slot while the ceilings can absorb the budget, nothing is left. |
| Distribution.DistributeWithinCeilings | SmartEVSE-3/src/main.cpp:1324-1374 | The fairness properties together: within ceilings, pinned at the ceiling, no more than the budget in total, and exactly the budget when it fits. |
| Ticks.Unplugged | SmartEVSE-3/src/main.cpp:2322-2330 | 12 V in A, COMM_B or B1 ends in A with no charge delay. With an RFID reader in mode 1 or 2, a granted session whose lock timer is idle arms the timer at RFIDLockTime. Otherwise the timer is kept. Access is kept. |
| Ticks.StartCurrent | SmartEVSE-3/src/main.cpp:2343-2344 | The start current is the cable capacity when the cable is weaker than MaxCurrent, and MinCurrent otherwise. |
| Ticks.Connect | SmartEVSE-3/src/main.cpp:2338-2364 | The cable is read, the diode check reset and ChargeCurrent set to the start current. A node asks for COMM_B. Otherwise B is entered exactly when a start is available: activation is armed, and slot 0 gets the start current and the cable maximum. Without a start the shortage flag is raised and the state kept. |
| Ticks.Idle | SmartEVSE-3/src/main.cpp:2314-2368 | A disconnected pilot is reconnected once its time is up and the pilot reads no valid level, and otherwise nothing changes. 12 V means A. 9 V with no error, no charge delay and access connects (COMM_B on a node, B with a start available, the shortage flag otherwise). 9 V in A without those conditions but with access parks the EV in B1. B is entered only that way. |
| Ticks.ConfirmB | SmartEVSE-3/src/main.cpp:2370-2374 | COMM_B_OK becomes B with activation armed. |
| Ticks.StartCharge | SmartEVSE-3/src/main.cpp:2397-2411 | With a start available, C is entered. Otherwise the shortage flag is raised and the state kept. |
| Ticks.Settle | SmartEVSE-3/src/main.cpp:2385-2413 | Without the diode seen, or with an error or a charge delay, nothing changes. Otherwise a node asks for COMM_C, and a master or standalone enters C with a start available and raises the shortage flag without one. |
| Ticks.Waiting | SmartEVSE-3/src/main.cpp:2378-2433 | From B or COMM_C: 12 V means A. 6 V held for more than 50 ticks with Settle's conditions asks for COMM_C on a node and enters C on a master or standalone with a start available. 6 V held no longer keeps the state. 9 V enters activation for 3 s once its countdown is over and otherwise keeps the state. The diode level only marks the diode seen. |
| Ticks.Stopping | SmartEVSE-3/src/main.cpp:2437-2449 | In C1, 12 V means A, 9 V means B1, and anything else stays. |
| Ticks.Charging | SmartEVSE-3/src/main.cpp:2466-2487 | C exits to A on 12 V, to B on 9 V, and to B on another non-6 V level held for more than 50 ticks. Every exit opens both contactors. Staying emits nothing. |
| Ticks.Tick10ms | SmartEVSE-3/src/main.cpp:2314-2487 | A whole tick keeps an idle EVSE in A on 12 V, and runs C1 as its handler does: 12 V means A, 9 V means B1. |
| Ticks.TickConnects | SmartEVSE-3/src/main.cpp:2338-2378 | An idle EVSE in A that may charge, with a start available on a master or standalone, is in B after one tick at 9 V. |
| Ticks.TickFromCharging | SmartEVSE-3/src/main.cpp:2314-2487 | From C, a whole tick does exactly what the C handler does. |
| Ticks.ChargeStartsOnlyWhenAllowed | SmartEVSE-3/src/main.cpp:2378-2413 | A tick that takes B to C had 6 V, the diode seen, no error, no charge delay, a master or standalone EVSE, and a start available. |
| Ticks.ChargeStartsWhenAllowed | SmartEVSE-3/src/main.cpp:2383-2411 | Conversely, from B with 6 V held past 50 ticks, the diode seen, no error, no charge delay, a master or standalone EVSE, and a start available, the tick enters C. |
| Ticks.Countdowns | SmartEVSE-3/src/main.cpp:3277-3283 | ActivationMode counts down to 0 (255 stays off), and ActivationTimer counts down to 0. |
| Ticks.C1Timeout | SmartEVSE-3/src/main.cpp:3344-3351 | C1 counts its timer down. At 0 it enters B1, which opens both contactors. |
| Ticks.StopExpired | SmartEVSE-3/src/main.cpp:3391-3394 | An expired stop timer moves C to C1 and raises its flag. |
| Ticks.StopTimers | SmartEVSE-3/src/main.cpp:3386-3406 | Both stop timers count down. The one that reaches 0 raises NO_SUN or LESS_6A and leaves the EVSE out of C. |
| Ticks.Delays | SmartEVSE-3/src/main.cpp:3408-3415 | The charge delay and the pilot-disconnect time count down to 0. The RFID lock timer runs only in A, where it counts down keeping access, and re-locks when it expires. |
| Ticks.ClearErrors | SmartEVSE-3/src/main.cpp:3417-3425 | TEMP_HIGH clears 10 degrees below the limit. The power errors clear on a master or standalone when a start is available, and are kept otherwise. No other flag changes. |
| Ticks.ChargeTimers | SmartEVSE-3/src/main.cpp:3428-3434 | A charging slot's session and interval seconds grow by one (as uint32_t), and any other slot's interval restarts. |
| Ticks.MeterLost | SmartEVSE-3/src/main.cpp:3441-3442 | A lost meter raises its flag and makes power unavailable. |
| Ticks.MainsWatch | SmartEVSE-3/src/main.cpp:3436-3459 | A supervised mains timer at 0 raises CT_NOCOMM and makes power unavailable, outside Normal mode or on a node. A supervised timer otherwise counts down. Without supervision it is reloaded with the communication timeout. The EV-meter side is untouched. |
| Ticks.EvWatch | SmartEVSE-3/src/main.cpp:3461-3470 | With an EV meter outside Normal mode, the EV timer at 0 raises EV_NOCOMM and makes power unavailable. Otherwise an EV meter's timer counts down. Without an EV meter it is reloaded with the EV communication timeout. |
| Ticks.ClearComm | SmartEVSE-3/src/main.cpp:3472-3475 | A communication flag survives only while its meter's timer is 0. |
| Ticks.MeterWatch | SmartEVSE-3/src/main.cpp:3436-3475 | A meter whose supervised timer ran out ends the second with its flag raised, the mains one with power unavailable. Afterwards a meter flag implies its timer is 0, and a newly raised one leaves the EVSE out of C. |
| Ticks.Protect | SmartEVSE-3/src/main.cpp:3478-3492 | Overheating raises TEMP_HIGH and stops the charge. Afterwards a power error always leaves the EVSE out of C and B, with the charge delay restarted. |
| Ticks.Tick1S | SmartEVSE-3/src/main.cpp:3267-3492 | A second never starts a charge. It ends with every power error out of C and B, with the charge delay restarted. |
| Ticks.C1TimesOut | SmartEVSE-3/src/main.cpp:3344-3351 | A second in C1 with its timer at 0 ends in B1. |
| Ticks.SolarStopEndsCharge | SmartEVSE-3/src/main.cpp:3386-3395 | The second in which SolarStopTimer runs out moves a charging EVSE to C1. |
| Nodes.RequestNodeStatus | SmartEVSE-3/src/main.cpp:1523-1533 | Each poll uses up one unit of the online countdown. The poll that takes it to 0 puts the node in A with no current. A read is always sent to address n+1. Other slots are untouched. |
| Nodes.SilentNodeGoesOffline | SmartEVSE-3/src/main.cpp:1523-1533 | After k unanswered polls the countdown is m-k (at least 0). After m of them the node is in A with no current; before that, its state and current are kept. |
| Nodes.ReceiveNodeStatus | SmartEVSE-3/src/main.cpp:1587-1603 | A reply makes the node online for 5 polls. Config bits accumulate. A differing mode is queued as mode+1, unless the Smart/Solar switch is configured, the menu is open, or a change is already queued. Other nodes are untouched. |
| Nodes.ReceiveDecodes | SmartEVSE-3/src/main.cpp:1587-1601 | Decoding the status block a node sends recovers its state, error bits, mode, solar timer and maximum current, and ORs in its config bits. |
| Nodes.SyncErrors | SmartEVSE-3/src/main.cpp:1618-1629 | With current available, the node's shortage flags are cleared. A lost mains meter on the master is passed on. The flag says exactly whether the register changed. |
| Nodes.SyncTouchesOnlyItsFlags | SmartEVSE-3/src/main.cpp:1618-1629 | Synchronising changes no bit but the shortage flags and CT_NOCOMM. |
| Nodes.Refuse | SmartEVSE-3/src/main.cpp:1652-1656 | A refusal leaves a shortage flag set. A new flag matches the mode and asks for a write. An existing flag changes nothing. |
| Nodes.RefuseKeepsOtherBits | SmartEVSE-3/src/main.cpp:1652-1656 | A refusal changes no other bit. |
| Nodes.RequestB | SmartEVSE-3/src/main.cpp:1641-1659 | COMM_B with current becomes B at MinCurrent and answers COMM_B_OK. Without current, the node gets 0 and a refusal. |
| Nodes.RequestC | SmartEVSE-3/src/main.cpp:1661-1679 | COMM_C with current becomes C and answers COMM_C_OK. Without current, the node gets 0 and a refusal. |
| Nodes.ResetNode | SmartEVSE-3/src/main.cpp:1633-1639 | A node in A has its timers, phase count and minimum current reset. |
| Nodes.Dispatch | SmartEVSE-3/src/main.cpp:1632-1684 | A request for B or C is granted exactly when current is available. A refused one gets no current and a shortage flag. Other states change nothing and ask for no write. |
| Nodes.Answer | SmartEVSE-3/src/main.cpp:1616-1684 | Synchronisation, then dispatch: the grant-iff-current and refusal outcomes of Dispatch, after the error register is synchronised. |
| Nodes.AnswerSyncsErrors | SmartEVSE-3/src/main.cpp:1618-1684 | With current, no shortage flag is left. A master CT_NOCOMM reaches the node. A write is due exactly when the node's error register changed or a start was granted. |
| Nodes.NodeShortageFlag | SmartEVSE-3/src/main.cpp:1653-1654 | The node's shortage flag is the controller's flag for the mode, widened to 16 bits. |
| Nodes.AdoptNodeMode | SmartEVSE-3/src/main.cpp:1686-1690 | A queued node mode is adopted through the mode change and the queue emptied. Nothing queued means nothing changes. |
| Nodes.WriteBack | SmartEVSE-3/src/main.cpp:1692-1715 | A write is sent exactly when asked for, when the node's mode differs (4 registers, with the mode), or when the solar timers are more than 3 s apart as int16_t (5 registers, with the timer). It always starts with the state code and the error register. |
| Nodes.ProcessAllNodeStates | SmartEVSE-3/src/main.cpp:1612-1716 | A start request is granted exactly when IsCurrentAvailable holds, and the grant is always written with COMM_B_OK or COMM_C_OK. A refused node keeps its state and gets a shortage flag. A node whose mode or solar timer is off is always written the master's. A node not written already agrees with the master. Other nodes and the online countdowns are untouched. |
| Nodes.UpdateNodes | SmartEVSE-3/src/main.cpp:2802-2816 | Only on a master. Offline nodes are skipped, and the pass stops at the first node written, which is online and was just written. The online countdowns never change. Nodes before the start, after the stop and offline are untouched. |
| Nodes.MainsSum | SmartEVSE-3/src/main.cpp:3654-3660 | Adding the three mains registers into the int16_t Isum one at a time equals their int16_t sum. |
| Nodes.Broadcast | SmartEVSE-3/src/main.cpp:3646-3663 | The node takes register LoadBl-1 as its current. 0 while charging means C1. In B or C, the duty follows the current. The mains timeout is reset. With the mains registers present, Isum becomes their sum. |
| Nodes.FrameDeliversCurrent | SmartEVSE-3/src/main.cpp:1430-1441 | In the master's broadcast frame (Nodes.BroadcastFrame), register i reads back as slot i's current. |
| Nodes.FrameDeliversMains | SmartEVSE-3/src/main.cpp:1430-1441 | The mains registers of the broadcast frame sum, on the node, to the int16_t sum of the master's three mains currents. |

## Left out

- Hardware and timing.
  - Interrupts, ADC sampling, LEDs, the LCD and buttons (GLCD, CheckSwitch): actuation is represented only by the emitted commands.
  - The sampled pilot level, the proximity-pin voltage and the temperature are inputs of a tick.
- Set_Nr_of_Phases_Charging: the phase-detection heuristic is not modelled. The phase count it would report is the `detected` input of CalcBalancedCurrent and of the ticks that call it.
- GridRelay: the grid-relay guard in CalcBalancedCurrent (main.cpp:1244-1246) is not modelled, because the relay and its limit are outside this core.
- The MODEM states and the version-4 branches of Timer10ms are not modelled; only hardware version 3 without the modem is.
- OCPP.
  - The float limit is an optional limit in 0.1 A (`Settings.ocppLimit`), so float rounding is not modelled.
  - CalcIsum and the meter readers are not modelled; the meter figures are fields of `Metering`.
- Bus and persistence.
  - Modbus framing, CRC and transport, and the ModbusRequestLoop sequencing around the write pass, are not modelled.
  - RFID reading, MQTT, the web API, preferences storage, energy counters (EVMeter.ResetKwh) and delayed-start scheduling are not modelled. Delayed start is a boolean input to setMode.
  - The menu state (LCDNav) is the `menuOpen` input.
- BacklightTimer, LCDTimer and the MQTT publication timers are not modelled; they only affect the UI.
- Header constants (CHARGEDELAY, SOLARSTARTTIME, COMM_TIMEOUT, COMM_EVTIMEOUT, RFIDLOCKTIME) are fields of `Settings`, since their values live outside main.cpp.
- Nodes.ReceiveNodeStatus: requires a status block of at least 16 bytes, because the Modbus layer that delivers it always reads eight registers.
- Nodes.Broadcast: requires the data to reach this node's register, because the master always sends all eight slots.
- Nodes.BroadcastFrame: models the bytes of BroadcastCurrent as they appear on the bus (each register high byte first). The little-endian buffer it builds in memory is not modelled.
- Nodes.FrameDeliversCurrent: states the round trip for the frame and the node's register read, not for a composition of Broadcast with the master's state.
- Nodes.FrameDeliversMains: likewise stated for the frame, not for a composition of Broadcast with the master's state.
- Nodes.ProcessAllNodeStates: does not restate that a refused node's Balanced entry is 0; Nodes.Answer and Nodes.Dispatch state it.
- Allocation.Guard: states its bounds and its value only while both limits fit int16_t, because each clamp stores into the int16_t IsetBalanced.
- Allocation.SmartJoin: states which value it takes only while both candidates fit int16_t, for the same reason.
- Ticks.Tick10ms: its own contract covers the idle 12 V path and C1. The other paths through a tick are stated by Ticks.TickConnects, Ticks.ChargeStartsOnlyWhenAllowed, Ticks.ChargeStartsWhenAllowed and Ticks.TickFromCharging.
- Allocation.CalcDistributesWithinCeilings: stated outside Solar mode only, and only while the ceilings sum within int16_t. In Solar mode, a slot pinned for its solar start resets IsetBalanced to TotalCurrent, so the sum need not match.
- Allocation.SolarStep: its ensures covers only the no-step case; the step of each band is stated by Allocation.SolarStepAgainstFlow.
- Distribution.Distribute: the ceiling bound (DistributeBounded) is proved only without solar starts. With a slot pinned at MinCurrent for its solar start, the second pass's average is not re-checked against the ceilings, and the source leaves that re-check as an open item (main.cpp:1372).
