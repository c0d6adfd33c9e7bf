# MAX77665 charger driver, modelled in Dafny

This project models the decision logic of the Linux battery-charger driver for the
MAX77665 power-management chip (`drivers/power/max77665-charger.c`), and proves
properties of that model:

- **Register access.** The chip is modelled by `Registers.Pmic`, a register map behind
  a bus where some reads and writes fail. On top of it sit:
  - the driver's `read_reg`, `write_reg` (range check to a byte) and `update_reg`
    (OR-only);
  - write-enable;
  - the input-current-limit encoding and decoding.
- **Lookup tables.** `convert_to_reg` and the over-current threshold selection.
- **Calibration.** The bisection search for the highest input current the source
  sustains, and the work item that masks the input interrupts and the SAFEOUT outputs
  around it. The health check made after each trial is an oracle (`healthy`).
- **Charger state machine.** Enable (the cable policy), disable, reset, the mode
  change with its bracketed register writes, and the status interrupt's
  recalibration and over-current accounting.
- **Debounce and watchdog.**
  - The cable-event debouncer keeps only each cable's last event and one pending
    settle.
  - The watchdog alarm, its acknowledge work and the wake lock are kept as plain
    state.

Modules:

- `Bits`: register bytes and the bitwise operations, defined bit by bit.
- `Registers`: the register names, the bus and its faults.
- `Header`: the chip header's constants, and the pure arithmetic built on them. The
  header is not part of this model, so its constants are a `ChipHeader` value. The
  only assumption is `WellFormed`: the current step is at least 2 mA, which the
  search needs to terminate.
- `Tables`, `Policy` and `WatchdogState`: the pure decisions.
- `ChargerDriver`: the `Charger` class, whose methods update the charger record and
  the registers as the driver's functions do.

The model follows the code, not an idealised version of it:

- `max77665_set_max_input_current` returns 0 on every path. The search's abort on a
  failed write is therefore unreachable; the model asserts it dead.
- The search stores the last midpoint it tried, which may have failed the health
  check. It does not store the last one that passed.
- The over-current count goes up on every status handling that reports the fault. It
  is an `unsigned int`, so it wraps at 2^32.
- Disable cancels the watchdog alarm and the acknowledge work. It neither releases a
  wake lock the alarm already took, nor cancels a pending cable settle.
- When the ceiling is below 100 mA (for example 0 after a disable), the search makes
  one trial at `(100 + ceiling) / 2`. That is at or above the ceiling (equal only for
  99) and below 100 mA, and the driver then stores it. `SetIdealInputCurrent` states this case exactly.
- Locals that C leaves uninitialised are modelled with an arbitrary value:
  - `irq_mask` and `safeout_ctrl` in the calibration work;
  - `val` in the status handler and in `max77665_get_max_input_current`.

  A failed read leaves that value in place, and the model carries it on.
- When the `CHG_CNFG_12` read fails, `max77665_set_charger_mode` ORs VCHGIN 4.3 V into
  the mode flags that are still in its local, and writes the result.

## Model

| member | source | states |
|---|---|---|
| Bits.OrSetsBits | drivers/power/max77665-charger.c:123-135 | after `a \| m`, every bit of `m` and every bit of `a` is set |
| Bits.ClearClearsBits | drivers/power/max77665-charger.c:320-321 | after `a & ~m`, none of `m`'s bits is set, and putting back the bits `a` shared with `m` gives `a` again, so every other bit is kept |
| Registers.OrInt | drivers/power/max77665-charger.c:133 | for a byte operand the result is a byte with every bit of the mask and of the operand set, and outside the operand's bits exactly the mask's; for any other operand the result is not a byte, so write_reg refuses it |
| Registers.AndNotInt | drivers/power/max77665-charger.c:320-321 | for a byte operand the result is a byte with none of the mask's bits, which together with the operand's masked bits gives back the operand; for any other operand the result is not a byte |
| Registers.Pmic.Read | drivers/power/max77665-charger.c:113-118 | a bus read returns the register's byte, or -EIO exactly when the register cannot be read |
| Registers.Pmic.Write | drivers/power/max77665-charger.c:101 | a bus write stores the byte, or returns -EIO and leaves the map unchanged |
| Header.LimitFromReg | drivers/power/max77665-charger.c:175-176 | the decoded limit is at least the minimum, and is either the minimum or a whole number (below 128) of steps |
| Header.InputLimitRoundTrip | drivers/power/max77665-charger.c:156-178 | writing a current and reading it back gives it rounded down to a step, floored at the minimum, while the code fits 7 bits |
| Header.InputLimitWraps | drivers/power/max77665-charger.c:159-160 | a code of 0x80..0xFF passes the byte check, but reads back 128 steps lower (or as the minimum), so below the current requested |
| Tables.OcThresholdsStrictlyIncreasing | drivers/power/max77665-charger.c:62-64 | the over-current threshold table is strictly increasing |
| Tables.ConversionTablesStrictlyIncreasing | drivers/power/max77665-charger.c:41-60 | `chg_cc` and `chg_cv_prm` are strictly increasing |
| Tables.ConversionStepUnique | drivers/power/max77665-charger.c:138-152 | in `chg_cc` and `chg_cv_prm` a value lies in at most one step, so the index convert_to_reg returns is the only one that fits |
| Tables.StepUnique | drivers/power/max77665-charger.c:138-152 | in a strictly increasing table a value lies in at most one step |
| Tables.ConvertToReg | drivers/power/max77665-charger.c:138-152 | -EINVAL exactly when the value is below the first entry or above the last; otherwise the first index whose step contains the value, and the last index only for the last entry |
| Tables.SelectOcThreshold | drivers/power/max77665-charger.c:699-704 | an index in [0,7]: the first threshold at or above the request, or 7 when the request exceeds them all |
| Policy.CablePolicy | drivers/power/max77665-charger.c:518-541 | a plan never turns the charger off; OTG carries 0 mA and no online channel; charging carries 500..2200 mA and one channel |
| Policy.CablePolicyFirstMatch | drivers/power/max77665-charger.c:519-537 | the first attached cable in the order USB-Host, USB, Charge-downstream, TA, Fast-charger, Slow-charger decides the plan, as in the cable table |
| Policy.CablePolicyNone | drivers/power/max77665-charger.c:519-541 | there is no plan exactly when no cable is attached |
| Policy.SettleAction | drivers/power/max77665-charger.c:589-592 | charging on means do nothing; disable if and only if detach with charging off; enable if and only if attach with charging off |
| Policy.BurstKeepsLast | drivers/power/max77665-charger.c:642-654 | a burst of notifications leaves the cable's last event recorded and its settle pending, and other cables untouched |
| Policy.BurstSettlesOnce | drivers/power/max77665-charger.c:648-651 | after a burst, the one settle that runs sees the last event, and nothing else is left pending for that cable |
| WatchdogState.AlarmCyclePreservesReleasable | drivers/power/max77665-charger.c:618-640 | firing, acknowledging and re-arming keep the wake lock held only while an acknowledge is queued to release it |
| WatchdogState.RunKeepsReleasable | drivers/power/max77665-charger.c:618-640 | any sequence of alarms, acknowledges and re-arms without a cancel keeps the wake lock held only while an acknowledge is queued |
| WatchdogState.LeakedLockStaysHeld | drivers/power/max77665-charger.c:477-481 | a wake lock left held by a cancel after the alarm stays held through every possible sequence of events until the alarm is armed again |
| WatchdogState.CancelAfterAlarmLeavesLock | drivers/power/max77665-charger.c:477-481 | cancelling after the alarm fired leaves nothing armed or queued, but the wake lock held with nothing left to release it |
| ChargerDriver.ModeRegisterWritesEffect | drivers/power/max77665-charger.c:388-432 | the mode change's writes: nothing if write access cannot be opened; otherwise access closed again, and as far as the writes get the mode flags, CNFG_12 exactly its old value ORed with the VCHGIN bits (when readable), and the ceiling code; a failed CNFG_12 write leaves CNFG_12 and CNFG_09 untouched; no other register changes |
| ChargerDriver.ConvergesNearThreshold | drivers/power/max77665-charger.c:276-294 | with a monotone health threshold in [100, initial ceiling), the search's final floor and ceiling bracket the threshold, and the stored trial lies within one step of it |
| ChargerDriver.Charger.ReadReg | drivers/power/max77665-charger.c:107-121 | success exactly when the register is readable, with its byte; on failure -EIO, and the caller's variable keeps its value |
| ChargerDriver.Charger.WriteReg | drivers/power/max77665-charger.c:92-105 | a value outside [0,0xFF] gives -EINVAL with nothing written; otherwise the bus write and its result |
| ChargerDriver.Charger.UpdateReg | drivers/power/max77665-charger.c:123-135 | a failed read gives -EIO and changes nothing; otherwise the register's value OR `value` is written back, and the result is write_reg's: -EINVAL if that is not a byte, -EIO if the write fails, 0 otherwise |
| ChargerDriver.Charger.EnableWrite | drivers/power/max77665-charger.c:233-248 | CHG_CNFG_06 becomes 0x0c (open) or 0 (close); 0 exactly when that register is writable, -EIO otherwise |
| ChargerDriver.Charger.SetMaxInputCurrent | drivers/power/max77665-charger.c:156-165 | always returns 0; CHG_CNFG_09 receives mA / step if that passes the byte check and the bus |
| ChargerDriver.Charger.GetMaxInputCurrent | drivers/power/max77665-charger.c:167-178 | on success the decoded limit of CHG_CNFG_09; on failure -EIO with a limit that still decodes as the minimum or a whole number of steps |
| ChargerDriver.Charger.CheckChargingOk | drivers/power/max77665-charger.c:250-267 | true exactly when both detail registers are readable, CHGIN_DTLS reads valid and BYP_DTLS reads valid |
| ChargerDriver.Charger.SetIdealInputCurrent | drivers/power/max77665-charger.c:269-297 | returns 0; ends with the floor and ceiling less than a step apart; the floor is 100 or a passing trial, and the ceiling is the initial ceiling or a failing trial; with an initial ceiling of at least 100, every trial and the stored result lie in [100, initial ceiling], and below that the one trial is (100 + ceiling) / 2; the stored result is the last trial; CHG_CNFG_09 holds its code when that passes the byte check and the bus, and no other register changes |
| ChargerDriver.Charger.MaskInputInterrupts | drivers/power/max77665-charger.c:312-321 | saves CHG_INT_MASK and SAFEOUTCTRL; sets BYP and CHGIN in the mask and clears ENSAFEOUT1/2; touches no other register |
| ChargerDriver.Charger.RestoreInputInterrupts | drivers/power/max77665-charger.c:325-327 | writes the saved values back when they are bytes; touches no other register |
| ChargerDriver.Charger.SetIdealInputCurrentWork | drivers/power/max77665-charger.c:299-330 | searches exactly when the health check fails; then the ceiling never rises (above 100 mA); CHG_INT_MASK and SAFEOUTCTRL end at their entry values; only those and CHG_CNFG_09 may change |
| ChargerDriver.Charger.HandleChargerStatus | drivers/power/max77665-charger.c:364-386 | recalibration is scheduled if and only if CHG_BIT or CHGIN_BIT is clear; with BAT_BIT clear and CHG_DTLS_01 readable, the count rises by exactly 1 (mod 2^32) if and only if BAT_DTLS reads over-current; with BAT_BIT set it is unchanged; it never changes by more than 1; mode and ceiling untouched |
| ChargerDriver.Charger.UpdateChargerStatus | drivers/power/max77665-charger.c:656-678 | fails exactly when CHG_INT or CHG_INT_OK cannot be read, and then changes nothing; otherwise CHG_INT_OK goes to the status handler when a battery is present |
| ChargerDriver.Charger.SetChargerMode | drivers/power/max77665-charger.c:388-432 | the mode is recorded first, whatever happens; 0 exactly when CHG_CNFG_06 is writable; the registers end as ModeRegisterWrites describes |
| ChargerDriver.Charger.DisableWdt | drivers/power/max77665-charger.c:477-481 | the alarm and the acknowledge work are cancelled, and nothing else changes |
| ChargerDriver.Charger.DisableCharger | drivers/power/max77665-charger.c:483-503 | OFF, 0 mA and both channels offline on every path; watchdog cancelled; status 0 reported; registers as for an OFF mode change |
| ChargerDriver.Charger.EnableCharger | drivers/power/max77665-charger.c:505-566 | at most one channel online; no cable means result 0 with both channels offline and nothing else changed; otherwise the plan's mode, ceiling and channel, the alarm armed once the mode change succeeds, and the programmed limit reported; the 0 reported first stays when the mode change or the CNFG_09 read fails, and without `update_status` nothing is reported |
| ChargerDriver.Charger.ResetCharger | drivers/power/max77665-charger.c:599-616 | always 0; with no cable, or a failed disable, the charger ends OFF with 0 mA and both channels offline; otherwise with the plan's configuration and the alarm armed; the value last reported is 0 or the programmed limit, as for enable, and unchanged without `update_status` |
| ChargerDriver.Charger.ExtconNotifier | drivers/power/max77665-charger.c:642-654 | records the cable's event and makes its settle pending; nothing else changes |
| ChargerDriver.Charger.HandleSettle | drivers/power/max77665-charger.c:568-597 | a failed CHG_DTLS_01 read changes nothing; otherwise the settle decision on the last event either disables (OFF, 0 mA, offline, watchdog cancelled, 0 reported when update_status is set, registers as for an OFF mode change, everything else kept), or enables with no cable attached (both channels offline, 0 reported when update_status is set, registers, watchdog, mode, ceiling and everything else kept), or enables with a cable attached (the plan's mode and ceiling, over-current count and recalibration flag kept), or changes nothing |
| ChargerDriver.Charger.WdtTimer | drivers/power/max77665-charger.c:631-640 | takes the wake lock and queues the acknowledge; the alarm does not re-arm itself |
| ChargerDriver.Charger.WdtAckWork | drivers/power/max77665-charger.c:618-629 | WDTCLR is ORed into CHG_CNFG_06; the alarm is re-armed and the lock released even when that write fails |

## Left out

- Probe, remove, module init and exit, suspend and resume, and `max77665_charger_init`:
  OS lifecycle and error unwinding.
- The power-supply property glue, `power_supply_changed`, and the sysfs show/store
  handlers (except the index selection of `max77665_set_bat_oc_threshold`, whose
  `memparse` and `max77665_update_bits` write are not modelled), and
  `max77665_display_charger_status`. These are OS plumbing, string formatting and
  logging.
- `max77665_charger_irq_handler` only calls the status update, so it is not modelled
  separately.
- The bus calls `max77665_read`/`max77665_write` are in `Pmic`. Which transfers fail
  is fixed per register for the life of the device, not per call. A write that fails
  after an earlier write to the same register succeeded is therefore outside the
  model. So are the outcomes below, which the contracts named here exclude.
- SetIdealInputCurrentWork: the restores of CHG_INT_MASK and SAFEOUTCTRL cannot fail
  once their masking writes succeeded. So the interrupts masked and SAFEOUT left off
  after the search are not reachable.
- ModeRegisterWritesEffect: the close of CHG_CNFG_06 cannot fail once its open
  succeeded. So CNFG_06 left at 0x0c with the configuration written is not reachable.
- SetChargerMode: the result is -EIO only when the open fails. A call that configures
  the registers and then returns -EIO from the close is not reachable.
- EnableCharger: the alarm is armed exactly when CHG_CNFG_06 is writable. A mode change
  that lands but reports a failed close, and so leaves the alarm unarmed, is not
  reachable.
- ResetCharger: the disable fails only when CHG_CNFG_06 is not writable, and then so
  would the enable. A reset that ends in the plan's mode with no alarm armed is not
  reachable.
- Cable detection (`extcon_get_cable_state`) is an input set of attached cables.
  Cables on the debouncer are numbered slots.
- The analog behaviour behind the health check made after each trial is the
  `healthy` oracle. The check made before the search reads the detail registers.
- The constants of the chip's header (current step, minimum limit, status bits, detail
  masks and values, mode flags, `charging_is_on`) are parameters. Each result holds
  for every header with a step of at least 2 mA.
- Time and concurrency (`msleep`, work delays, alarm deadlines, the mutex) are not
  modelled. Every operation is one atomic step, and timers and the wake lock are flags.
- `plat_data->update_status` is modelled as the last value reported.
- Integers other than the over-current count are unbounded. The `int` sum in the
  search's midpoint cannot overflow for the ceilings the driver sets.
- HandleChargerStatus: takes the status as a byte, because its only caller passes a
  register reading.
- MaskInputInterrupts: does not state what is written into a register whose read
  failed. That is the uninitialised local, ORed or masked, and it lands only if it is
  a byte.
- SetIdealInputCurrentWork: does not state the final CHG_INT_MASK or SAFEOUTCTRL when
  its read failed. It also leaves CHG_CNFG_09's value, and the search's trials, to
  SetIdealInputCurrent.
- UpdateChargerStatus: leaves the over-current count to HandleChargerStatus.
- HandleSettle: for an enable with a cable attached it states only mode, ceiling,
  over-current count and recalibration flag. It leaves the channels, the watchdog, the value reported and the registers to
  EnableCharger.
- ResetCharger: states the charger record, not the registers, which DisableCharger and
  EnableCharger state.
