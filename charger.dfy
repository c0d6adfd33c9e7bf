/** The MAX77665 charger driver's state and its operations: register access,
    input-current limit, calibration, status handling, mode changes,
    enable/disable/reset, cable settle and watchdog. Every operation runs
    under the driver's one mutex, so each method is one atomic step. */
module ChargerDriver {
  import opened Optional
  import opened Bits
  import opened Registers
  import opened Header
  import opened Policy
  import opened WatchdogState

  /** Range of the driver's `unsigned int` and `uint32_t` values. */
  const UintRange: int := 0x1_0000_0000

  /** The register map after write_reg(reg, v): only an in-range value on
      a working bus lands. */
  function Written(regs: map<Reg, Byte>, writeFaults: set<Reg>, reg: Reg, v: int): map<Reg, Byte>
  {
    if 0 <= v <= 0xFF && reg !in writeFaults then regs[reg := v] else regs
  }

  /** CHG_CNFG_00 flags for a mode, as max77665_set_charger_mode picks them. */
  function ModeFlags(hw: ChipHeader, m: Mode): Byte
  {
    match m
    case Off => hw.offFlags
    case Charger => Or(hw.chargerFlags, hw.wdtEn)
    case Otg => hw.otgFlags
  }

  /** The register writes of max77665_set_charger_mode, in order: open
      write access (CHG_CNFG_06 := 0x0c); CHG_CNFG_00 := the mode's flags;
      CHG_CNFG_12 := its reading (or, when that read fails, the flags still
      in the local) OR VCHGIN 4.3V; CHG_CNFG_09 := the ceiling's code;
      close write access (CHG_CNFG_06 := 0). A failed write to CNFG_00 or
      CNFG_12 skips ahead to closing; a failed open ends it all. */
  ghost function ModeRegisterWrites(hw: ChipHeader, regs: map<Reg, Byte>, readFaults: set<Reg>,
                                    writeFaults: set<Reg>, m: Mode, limitMA: int): map<Reg, Byte>
    requires Complete(regs) && WellFormed(hw)
  {
    if ChgCnfg06 in writeFaults then regs
    else
      var unlocked := regs[ChgCnfg06 := 0x0c];
      var flags := ModeFlags(hw, m);
      var configured :=
        if ChgCnfg00 in writeFaults then unlocked
        else
          var r00 := unlocked[ChgCnfg00 := flags];
          var v12 := Or(if ChgCnfg12 in readFaults then flags else regs[ChgCnfg12], hw.vchginRegulation4V3);
          if ChgCnfg12 in writeFaults then r00
          else Written(r00[ChgCnfg12 := v12], writeFaults, ChgCnfg09, InputLimitCode(hw, limitMA));
      configured[ChgCnfg06 := 0]
  }

  /** What a mode change leaves in the registers: nothing if write access
      cannot be opened; otherwise write access closed again, and as far as
      the writes get, the mode's flags in CHG_CNFG_00, the VCHGIN 4.3V bits
      set in CHG_CNFG_12 (keeping the bits it had), and the ceiling's code
      in CHG_CNFG_09. No other register changes. */
  lemma ModeRegisterWritesEffect(hw: ChipHeader, regs: map<Reg, Byte>, readFaults: set<Reg>,
                                 writeFaults: set<Reg>, m: Mode, limitMA: int)
    requires Complete(regs) && WellFormed(hw)
    ensures var after := ModeRegisterWrites(hw, regs, readFaults, writeFaults, m, limitMA);
            && Complete(after)
            && (ChgCnfg06 in writeFaults ==> after == regs)
            && (ChgCnfg06 !in writeFaults ==> after[ChgCnfg06] == 0)
            && (ChgCnfg06 !in writeFaults && ChgCnfg00 in writeFaults ==> after == regs[ChgCnfg06 := 0])
            && (ChgCnfg06 !in writeFaults && ChgCnfg00 !in writeFaults ==> after[ChgCnfg00] == ModeFlags(hw, m))
            && (ChgCnfg06 !in writeFaults && ChgCnfg00 !in writeFaults && ChgCnfg12 !in writeFaults ==>
                  FieldIs(after[ChgCnfg12], hw.vchginRegulation4V3, hw.vchginRegulation4V3))
            && (ChgCnfg06 !in writeFaults && ChgCnfg00 !in writeFaults && ChgCnfg12 !in writeFaults
                && ChgCnfg12 !in readFaults ==>
                  FieldIs(after[ChgCnfg12], regs[ChgCnfg12], regs[ChgCnfg12]))
            && (ChgCnfg06 !in writeFaults && ChgCnfg00 !in writeFaults && ChgCnfg12 in writeFaults ==>
                  after[ChgCnfg12] == regs[ChgCnfg12] && after[ChgCnfg09] == regs[ChgCnfg09])
            && (ChgCnfg06 !in writeFaults && ChgCnfg00 !in writeFaults && ChgCnfg12 !in writeFaults
                && ChgCnfg12 !in readFaults ==>
                  after[ChgCnfg12] == Or(regs[ChgCnfg12], hw.vchginRegulation4V3))
            && (ChgCnfg06 !in writeFaults && ChgCnfg00 !in writeFaults && ChgCnfg12 !in writeFaults
                && ChgCnfg09 !in writeFaults && 0 <= InputLimitCode(hw, limitMA) <= 0xFF ==>
                  after[ChgCnfg09] == InputLimitCode(hw, limitMA))
            && (forall r: Reg :: r != ChgCnfg06 && r != ChgCnfg00 && r != ChgCnfg12 && r != ChgCnfg09 ==>
                  after[r] == regs[r])
  {
    var flags := ModeFlags(hw, m);
    var old12 := if ChgCnfg12 in readFaults then flags else regs[ChgCnfg12];
    OrBitsKeepsBoth(old12, hw.vchginRegulation4V3, 8);
    LowBitsOfSmall(old12, 8);
    LowBitsOfSmall(hw.vchginRegulation4V3, 8);
  }

  /** The status condition under which max77665_handle_charger_status
      schedules a recalibration: charger or charging input not OK. */
  predicate NeedsRecalibration(hw: ChipHeader, status: Byte)
  {
    !BitSet(status, hw.chgBit) || !BitSet(status, hw.chginBit)
  }

  /** The charger record's fields that the driver updates, for stating
      what an operation leaves alone. */
  datatype Snapshot = Snapshot(
    mode: Mode,
    maxCurrentMA: int,
    acOnline: bool,
    usbOnline: bool,
    ocCount: int,
    recalPending: bool,
    wdt: Watchdog,
    reportedMA: int,
    deb: Debouncer)

  /** If every trial at or below `threshold` passes the health check and
      every trial above it fails, a search that ends with a passing (or
      initial) floor, a failing (or initial) ceiling less than a step apart
      leaves its last trial within one step of the threshold. */
  lemma ConvergesNearThreshold(healthy: int -> bool, threshold: int, init: int, step: int,
                               lo: int, hi: int, mid: int)
    requires forall x :: healthy(x) <==> x <= threshold
    requires 100 <= threshold < init
    requires lo == 100 || healthy(lo)
    requires hi == init || !healthy(hi)
    requires hi - lo < step
    requires mid == lo || mid == hi
    ensures lo <= threshold < hi
    ensures threshold - step < mid < threshold + step
  {
  }

  class Charger {
    const pmic: Pmic
    const hw: ChipHeader
    /** plat_data->update_status is set. */
    const hasUpdateStatus: bool
    /** plat_data->is_battery_present. */
    const batteryPresent: bool

    var mode: Mode
    var maxCurrentMA: int
    var acOnline: bool
    var usbOnline: bool
    var ocCount: int
    /** set_max_current_work is scheduled. */
    var recalPending: bool
    var wdt: Watchdog
    /** The last value handed to plat_data->update_status. */
    var reportedMA: int
    /** The cables' cable->event and extcon_notifier_work. */
    var deb: Debouncer

    ghost predicate Valid()
      reads this, pmic
    {
      && pmic.Valid()
      && WellFormed(hw)
      && 0 <= ocCount < UintRange
      && deb.pending <= deb.events.Keys
    }

    ghost function State(): Snapshot
      reads this
    {
      Snapshot(mode, maxCurrentMA, acOnline, usbOnline, ocCount, recalPending, wdt, reportedMA, deb)
    }

    /** What a read of `reg` returns: None when the bus fails. */
    ghost function Observed(reg: Reg): Option<Byte>
      reads pmic
      requires pmic.Valid()
    {
      if reg in pmic.readFaults then None else Some(pmic.regs[reg])
    }

    /** The model starts switched off, with nothing scheduled. */
    constructor (pmic: Pmic, hw: ChipHeader, hasUpdateStatus: bool, batteryPresent: bool)
      requires pmic.Valid() && WellFormed(hw)
      ensures Valid()
      ensures this.pmic == pmic && this.hw == hw
      ensures this.hasUpdateStatus == hasUpdateStatus && this.batteryPresent == batteryPresent
      ensures State() == Snapshot(Off, 0, false, false, 0, false, Watchdog(false, false, false), 0,
                                  Debouncer(map[], {}))
    {
      this.pmic := pmic;
      this.hw := hw;
      this.hasUpdateStatus := hasUpdateStatus;
      this.batteryPresent := batteryPresent;
      mode := Off;
      maxCurrentMA := 0;
      acOnline, usbOnline := false, false;
      ocCount := 0;
      recalPending := false;
      wdt := Watchdog(false, false, false);
      reportedMA := 0;
      deb := Debouncer(map[], {});
    }

    // ---------------------------------------------------------------
    // Register access

    /** max77665_read_reg: on failure the caller's variable keeps `prior`. */
    method ReadReg(reg: Reg, prior: int) returns (ret: int, value: int)
      requires Valid()
      ensures ret == 0 <==> reg !in pmic.readFaults
      ensures ret == 0 ==> value == pmic.regs[reg]
      ensures ret != 0 ==> ret == -EIO && value == prior
    {
      var b: Byte;
      ret, b := pmic.Read(reg);
      if ret < 0 {
        value := prior;
      } else {
        value := b;
      }
    }

    /** max77665_write_reg: values outside [0, 0xFF] are refused with
        -EINVAL before any bus access. */
    method WriteReg(reg: Reg, value: int) returns (ret: int)
      requires Valid()
      modifies pmic
      ensures Valid()
      ensures !(0 <= value <= 0xFF) ==> ret == -EINVAL
      ensures 0 <= value <= 0xFF ==> (ret == 0 <==> reg !in pmic.writeFaults)
      ensures 0 <= value <= 0xFF && ret != 0 ==> ret == -EIO
      ensures pmic.regs == Written(old(pmic.regs), pmic.writeFaults, reg, value)
    {
      if value < 0 || value > 0xFF {
        return -EINVAL;
      }
      ret := pmic.Write(reg, value);
    }

    /** max77665_update_reg: read, OR in `value`, write back. */
    method UpdateReg(reg: Reg, value: int) returns (ret: int)
      requires Valid()
      modifies pmic
      ensures Valid()
      ensures reg in pmic.readFaults ==> ret == -EIO && pmic.regs == old(pmic.regs)
      ensures reg !in pmic.readFaults ==>
                pmic.regs == Written(old(pmic.regs), pmic.writeFaults, reg, OrInt(value, old(pmic.regs[reg])))
      ensures reg !in pmic.readFaults ==>
                ret == (if !(0 <= OrInt(value, old(pmic.regs[reg])) <= 0xFF) then -EINVAL
                        else if reg in pmic.writeFaults then -EIO else 0)
    {
      var readVal: int;
      ret, readVal := ReadReg(reg, 0);
      if ret != 0 {
        return;
      }
      ret := WriteReg(reg, OrInt(value, readVal));
    }

    /** max77665_enable_write: open (0x0c) or close (0x00) CHG_CNFG_06. */
    method EnableWrite(access: bool) returns (ret: int)
      requires Valid()
      modifies pmic
      ensures Valid()
      ensures ret == 0 <==> ChgCnfg06 !in pmic.writeFaults
      ensures ret != 0 ==> ret == -EIO
      ensures pmic.regs == Written(old(pmic.regs), pmic.writeFaults, ChgCnfg06, if access then 0x0c else 0x00)
    {
      if access {
        ret := WriteReg(ChgCnfg06, 0x0c);
      } else {
        ret := WriteReg(ChgCnfg06, 0x00);
      }
    }

    // ---------------------------------------------------------------
    // Input current limit

    /** max77665_set_max_input_current: write mA / CURRENT_STEP_mA to
        CHG_CNFG_09. The write's own result is dropped: this always
        returns 0. */
    method SetMaxInputCurrent(mA: int) returns (ret: int)
      requires Valid()
      modifies pmic
      ensures Valid()
      ensures ret == 0
      ensures pmic.regs == Written(old(pmic.regs), pmic.writeFaults, ChgCnfg09, InputLimitCode(hw, mA))
    {
      var r := WriteReg(ChgCnfg09, CDiv(mA, hw.currentStepMA));
      ret := 0;
    }

    /** max77665_get_max_input_current: decode CHG_CNFG_09. On a failed
        read the uninitialised local is decoded instead, so the result is
        still some whole number of steps at or above the minimum. */
    method GetMaxInputCurrent() returns (ret: int, mA: int)
      requires Valid()
      ensures ret == 0 <==> ChgCnfg09 !in pmic.readFaults
      ensures ret != 0 ==> ret == -EIO
      ensures ret == 0 ==> mA == LimitFromReg(hw, pmic.regs[ChgCnfg09])
      ensures mA >= hw.minCurrentLimitMA
      ensures mA == hw.minCurrentLimitMA || exists k :: 0 <= k < 0x80 && mA == Steps(hw, k)
    {
      var val: int :| 0 <= val < UintRange;
      ret, val := ReadReg(ChgCnfg09, val);
      mA := LimitFromReg(hw, val);
    }

    // ---------------------------------------------------------------
    // Calibration

    /** max77665_check_charging_ok: CHGIN_DTLS valid, then BYP_DTLS valid. */
    method CheckChargingOk() returns (ok: bool)
      requires Valid()
      ensures ok == ChargingOk(hw, Observed(ChgDtls00), Observed(ChgDtls02))
    {
      var ret, chginDtls := ReadReg(ChgDtls00, 0);
      if ret < 0 {
        return false;
      }
      if !FieldIs(chginDtls, hw.chginDtlsMask, hw.chginDtlsValid) {
        return false;
      }
      var bypDtls;
      ret, bypDtls := ReadReg(ChgDtls02, 0);
      if ret < 0 {
        return false;
      }
      return FieldIs(bypDtls, hw.bypDtlsMask, hw.bypDtlsValid);
    }

    /** max77665_set_ideal_input_current: bisect [100, max_current_mA] for
        the highest current the source sustains. `healthy(mA)` is the
        verdict of max77665_check_charging_ok once the limit for mA has
        settled. The ghost results record every trial and the final floor
        and ceiling. The stored
        current is the last trial, whether it passed or not. */
    method SetIdealInputCurrent(healthy: int -> bool)
      returns (ret: int, ghost trials: seq<int>, ghost finalMin: int, ghost finalMax: int)
      requires Valid()
      modifies this, pmic
      ensures Valid()
      ensures ret == 0
      ensures State() == old(State()).(maxCurrentMA := maxCurrentMA)
      ensures |trials| >= 1 && maxCurrentMA == trials[|trials| - 1]
      ensures old(maxCurrentMA) >= 100 ==> 100 <= maxCurrentMA <= old(maxCurrentMA)
      ensures maxCurrentMA == finalMin || maxCurrentMA == finalMax
      ensures finalMax - finalMin < hw.currentStepMA
      ensures finalMin == 100 || (finalMin in trials && healthy(finalMin))
      ensures finalMax == old(maxCurrentMA) || (finalMax in trials && !healthy(finalMax))
      ensures old(maxCurrentMA) >= 100 ==> 100 <= finalMin <= finalMax <= old(maxCurrentMA)
      ensures old(maxCurrentMA) >= 100 ==> forall k :: 0 <= k < |trials| ==> 100 <= trials[k] <= old(maxCurrentMA)
      ensures old(maxCurrentMA) < 100 ==> trials == [CDiv(100 + old(maxCurrentMA), 2)]
      ensures forall r: Reg :: r != ChgCnfg09 ==> pmic.regs[r] == old(pmic.regs[r])
      ensures ChgCnfg09 !in pmic.writeFaults && 0 <= InputLimitCode(hw, maxCurrentMA) <= 0xFF
              ==> pmic.regs[ChgCnfg09] == InputLimitCode(hw, maxCurrentMA)
    {
      var init := maxCurrentMA;
      var lo, hi := 100, maxCurrentMA;
      var mid := 0;
      var first := true;
      trials := [];
      while first || hw.currentStepMA <= hi - lo
        invariant Valid()
        invariant State() == old(State())
        invariant forall r: Reg :: r != ChgCnfg09 ==> pmic.regs[r] == old(pmic.regs[r])
        invariant first ==> lo == 100 && hi == init && trials == []
        invariant !first ==> |trials| >= 1 && mid == trials[|trials| - 1] && (mid == lo || mid == hi)
        invariant !first && ChgCnfg09 !in pmic.writeFaults && 0 <= InputLimitCode(hw, mid) <= 0xFF
                  ==> pmic.regs[ChgCnfg09] == InputLimitCode(hw, mid)
        invariant init >= 100 ==> 100 <= lo <= hi <= init
        invariant init >= 100 ==> forall k :: 0 <= k < |trials| ==> 100 <= trials[k] <= init
        invariant init < 100 && !first ==> trials == [CDiv(100 + init, 2)] && hi - lo < hw.currentStepMA
        invariant lo == 100 || (lo in trials && healthy(lo))
        invariant hi == init || (hi in trials && !healthy(hi))
        decreases first, hi - lo
      {
        mid := CDiv(lo + hi, 2);
        ret := SetMaxInputCurrent(mid);
        if ret < 0 {
          // SetMaxInputCurrent always returns 0, so max77665_set_ideal_input_current's `ret < 0` return is dead
          assert false;
        }
        trials := trials + [mid];
        if healthy(mid) {
          lo := mid;
        } else {
          hi := mid;
        }
        first := false;
      }
      maxCurrentMA := mid;
      finalMin, finalMax := lo, hi;
      ret := 0;
    }

    /** The first half of max77665_set_ideal_input_current_work's search
        branch: save CHG_INT_MASK and SAFEOUTCTRL into the (uninitialised)
        locals, mask the BYP and CHGIN interrupts and switch SAFEOUT1/2 off.
        A failed read leaves the local's unknown value, which is then OR-ed
        or masked and written back if it is a byte. */
    method MaskInputInterrupts() returns (irqMask: int, safeOutCtrl: int)
      requires Valid()
      modifies pmic
      ensures Valid()
      ensures ChgIntMask !in pmic.readFaults ==> irqMask == old(pmic.regs[ChgIntMask])
      ensures SafeOutCtrl !in pmic.readFaults ==> safeOutCtrl == old(pmic.regs[SafeOutCtrl])
      ensures ChgIntMask !in pmic.readFaults && ChgIntMask !in pmic.writeFaults ==>
                pmic.regs[ChgIntMask] == Or(old(pmic.regs[ChgIntMask]), Or(hw.bypBit, hw.chginBit))
      ensures SafeOutCtrl !in pmic.readFaults && SafeOutCtrl !in pmic.writeFaults ==>
                pmic.regs[SafeOutCtrl] == Clear(old(pmic.regs[SafeOutCtrl]), Or(hw.enSafeOut1, hw.enSafeOut2))
      ensures ChgIntMask in pmic.writeFaults ==> pmic.regs[ChgIntMask] == old(pmic.regs[ChgIntMask])
      ensures SafeOutCtrl in pmic.writeFaults ==> pmic.regs[SafeOutCtrl] == old(pmic.regs[SafeOutCtrl])
      ensures forall r: Reg :: r != ChgIntMask && r != SafeOutCtrl ==> pmic.regs[r] == old(pmic.regs[r])
    {
      var r: int;
      irqMask :| true;      // `int irq_mask;` is not initialised
      r, irqMask := ReadReg(ChgIntMask, irqMask);
      r := WriteReg(ChgIntMask, OrInt(irqMask, Or(hw.bypBit, hw.chginBit)));
      safeOutCtrl :| true;  // nor is `int safeout_ctrl;`
      r, safeOutCtrl := ReadReg(SafeOutCtrl, safeOutCtrl);
      r := WriteReg(SafeOutCtrl, AndNotInt(safeOutCtrl, Or(hw.enSafeOut1, hw.enSafeOut2)));
    }

    /** The second half: write the saved SAFEOUTCTRL, then CHG_INT_MASK,
        back; a saved value that is not a byte is refused by write_reg. */
    method RestoreInputInterrupts(irqMask: int, safeOutCtrl: int)
      requires Valid()
      modifies pmic
      ensures Valid()
      ensures ChgIntMask !in pmic.writeFaults && 0 <= irqMask <= 0xFF ==> pmic.regs[ChgIntMask] == irqMask
      ensures ChgIntMask in pmic.writeFaults || !(0 <= irqMask <= 0xFF) ==>
                pmic.regs[ChgIntMask] == old(pmic.regs[ChgIntMask])
      ensures SafeOutCtrl !in pmic.writeFaults && 0 <= safeOutCtrl <= 0xFF ==>
                pmic.regs[SafeOutCtrl] == safeOutCtrl
      ensures SafeOutCtrl in pmic.writeFaults || !(0 <= safeOutCtrl <= 0xFF) ==>
                pmic.regs[SafeOutCtrl] == old(pmic.regs[SafeOutCtrl])
      ensures forall r: Reg :: r != ChgIntMask && r != SafeOutCtrl ==> pmic.regs[r] == old(pmic.regs[r])
    {
      var r := WriteReg(SafeOutCtrl, safeOutCtrl);
      r := WriteReg(ChgIntMask, irqMask);
    }

    /** max77665_set_ideal_input_current_work: when the health check fails,
        mask the input interrupts and SAFEOUT outputs, run the search, then
        restore both registers. The ghost result says whether the search
        ran. */
    method SetIdealInputCurrentWork(healthy: int -> bool) returns (ghost searched: bool)
      requires Valid()
      modifies this, pmic
      ensures Valid()
      ensures searched == !ChargingOk(hw, old(Observed(ChgDtls00)), old(Observed(ChgDtls02)))
      ensures !searched ==> State() == old(State()).(recalPending := false) && pmic.regs == old(pmic.regs)
      ensures searched ==> State() == old(State()).(recalPending := false, maxCurrentMA := maxCurrentMA)
      ensures searched && old(maxCurrentMA) >= 100 ==> 100 <= maxCurrentMA <= old(maxCurrentMA)
      ensures searched && old(maxCurrentMA) < 100 ==> maxCurrentMA == CDiv(100 + old(maxCurrentMA), 2)
      ensures ChgIntMask !in pmic.readFaults ==> pmic.regs[ChgIntMask] == old(pmic.regs[ChgIntMask])
      ensures SafeOutCtrl !in pmic.readFaults ==> pmic.regs[SafeOutCtrl] == old(pmic.regs[SafeOutCtrl])
      ensures forall r: Reg :: r != ChgIntMask && r != SafeOutCtrl && r != ChgCnfg09 ==>
                pmic.regs[r] == old(pmic.regs[r])
    {
      recalPending := false;
      var ok := CheckChargingOk();
      searched := !ok;
      assert searched == !ChargingOk(hw, old(Observed(ChgDtls00)), old(Observed(ChgDtls02)));
      if !ok {
        var irqMask, safeOutCtrl := MaskInputInterrupts();
        var r;
        ghost var trials, l, h;
        r, trials, l, h := SetIdealInputCurrent(healthy);
        RestoreInputInterrupts(irqMask, safeOutCtrl);
      }
    }

    // ---------------------------------------------------------------
    // Status interrupt

    /** max77665_handle_charger_status: schedule a recalibration when the
        charger or the charging input is not OK; count a battery
        over-current fault (unsigned, so the count wraps at 2^32). Mode and
        current limit are left alone. */
    method HandleChargerStatus(status: Byte) returns (ret: int)
      requires Valid()
      modifies this
      ensures Valid()
      ensures ret == 0
      ensures State() == old(State()).(recalPending := recalPending, ocCount := ocCount)
      ensures recalPending == (old(recalPending) || NeedsRecalibration(hw, status))
      ensures BitSet(status, hw.batBit) ==> ocCount == old(ocCount)
      ensures !BitSet(status, hw.batBit) && ChgDtls01 !in pmic.readFaults ==>
                ocCount == if IsBatOvercurrent(hw, pmic.regs[ChgDtls01])
                           then (old(ocCount) + 1) % UintRange else old(ocCount)
      ensures ocCount == old(ocCount) || ocCount == (old(ocCount) + 1) % UintRange
    {
      if NeedsRecalibration(hw, status) {
        recalPending := true;
      }
      if !BitSet(status, hw.batBit) {
        var r: int;
        var val: int :| 0 <= val < UintRange;  // `uint32_t val;` is not initialised
        r, val := ReadReg(ChgDtls01, val);
        if IsBatOvercurrent(hw, val) {
          ocCount := (ocCount + 1) % UintRange;
        }
      }
      ret := 0;
    }

    /** max77665_update_charger_status (the interrupt thread): read
        CHG_INT and CHG_INT_OK, and hand the latter to the status handler
        when a battery is present. */
    method UpdateChargerStatus() returns (ret: int)
      requires Valid()
      modifies this
      ensures Valid()
      ensures ret == 0 <==> ChgInt !in pmic.readFaults && ChgIntOk !in pmic.readFaults
      ensures ret != 0 || !batteryPresent ==> State() == old(State())
      ensures ret == 0 && batteryPresent ==>
                recalPending == (old(recalPending) || NeedsRecalibration(hw, pmic.regs[ChgIntOk]))
      ensures State() == old(State()).(recalPending := recalPending, ocCount := ocCount)
    {
      var readVal: int;
      ret, readVal := ReadReg(ChgInt, 0);
      if ret < 0 {
        return;
      }
      ret, readVal := ReadReg(ChgIntOk, readVal);
      if ret < 0 {
        return;
      }
      if batteryPresent {
        var r := HandleChargerStatus(readVal);
      }
    }

    // ---------------------------------------------------------------
    // Mode, enable, disable, reset

    /** max77665_set_charger_mode: record the mode, then with write access
        open: CHG_CNFG_00 := the mode's flags, CHG_CNFG_12 |= VCHGIN 4.3V,
        CHG_CNFG_09 := the current ceiling; a failure skips the rest, and
        write access is closed again on every path but the first. */
    method SetChargerMode(m: Mode) returns (ret: int)
      requires Valid()
      modifies this, pmic
      ensures Valid()
      ensures State() == old(State()).(mode := m)
      ensures ret == 0 <==> ChgCnfg06 !in pmic.writeFaults
      ensures ret != 0 ==> ret == -EIO
      ensures pmic.regs == ModeRegisterWrites(hw, old(pmic.regs), pmic.readFaults, pmic.writeFaults, m, maxCurrentMA)
    {
      mode := m;
      ret := EnableWrite(true);
      if ret < 0 {
        return;
      }
      var flags: int := ModeFlags(hw, m);
      ret := WriteReg(ChgCnfg00, flags);
      if ret >= 0 {
        var r: int;
        r, flags := ReadReg(ChgCnfg12, flags);
        flags := OrInt(flags, hw.vchginRegulation4V3);
        ret := WriteReg(ChgCnfg12, flags);
        if ret >= 0 {
          ret := SetMaxInputCurrent(maxCurrentMA);
        }
      }
      ret := EnableWrite(false);
    }

    /** max77665_charger_disable_wdt. */
    method DisableWdt()
      requires Valid()
      modifies this
      ensures Valid()
      ensures State() == old(State()).(wdt := Cancel(old(wdt)))
    {
      wdt := Cancel(wdt);
    }

    /** max77665_disable_charger: ceiling 0 and mode OFF (both recorded
        before any register write), watchdog cancelled, status 0 reported,
        both channels offline. */
    method DisableCharger() returns (ret: int)
      requires Valid()
      modifies this, pmic
      ensures Valid()
      ensures State() == old(State()).(mode := Off, maxCurrentMA := 0, acOnline := false, usbOnline := false,
                                       wdt := Cancel(old(wdt)),
                                       reportedMA := if hasUpdateStatus then 0 else old(reportedMA))
      ensures ret == 0 <==> ChgCnfg06 !in pmic.writeFaults
      ensures ret != 0 ==> ret == -EIO
      ensures pmic.regs == ModeRegisterWrites(hw, old(pmic.regs), pmic.readFaults, pmic.writeFaults, Off, 0)
    {
      maxCurrentMA := 0;
      ret := SetChargerMode(Off);
      DisableWdt();
      if hasUpdateStatus {
        reportedMA := 0;
      }
      acOnline := false;
      usbOnline := false;
    }

    /** max77665_enable_charger: both channels offline and status 0
        reported; then the first attached cable (CablePolicy) sets the
        ceiling, the online channel and the mode, arms the watchdog alarm
        and reports the programmed limit. With no cable nothing else
        changes and the result is 0. */
    method EnableCharger(attached: set<Cable>) returns (ret: int)
      requires Valid()
      modifies this, pmic
      ensures Valid()
      ensures !(acOnline && usbOnline)
      ensures State() == old(State()).(mode := mode, maxCurrentMA := maxCurrentMA, acOnline := acOnline,
                                       usbOnline := usbOnline, wdt := wdt, reportedMA := reportedMA)
      ensures CablePolicy(attached).None? ==>
                && ret == 0 && !acOnline && !usbOnline
                && State() == old(State()).(acOnline := false, usbOnline := false,
                                            reportedMA := if hasUpdateStatus then 0 else old(reportedMA))
                && pmic.regs == old(pmic.regs)
      ensures CablePolicy(attached).Some? ==>
                pmic.regs == ModeRegisterWrites(hw, old(pmic.regs), pmic.readFaults, pmic.writeFaults,
                                                CablePolicy(attached).value.mode,
                                                CablePolicy(attached).value.currentMA)
      ensures CablePolicy(attached).Some? ==>
                var plan := CablePolicy(attached).value;
                && mode == plan.mode && maxCurrentMA == plan.currentMA
                && usbOnline == (plan.online == UsbChannel) && acOnline == (plan.online == AcChannel)
                && wdt == (if ChgCnfg06 in pmic.writeFaults then old(wdt) else Arm(old(wdt)))
                && (ChgCnfg06 in pmic.writeFaults ==> ret == -EIO)
                && (ChgCnfg06 !in pmic.writeFaults ==>
                      ret == (if hasUpdateStatus && ChgCnfg09 in pmic.readFaults then -EIO else 0))
                && (ChgCnfg06 !in pmic.writeFaults && hasUpdateStatus && ChgCnfg09 !in pmic.readFaults ==>
                      reportedMA == LimitFromReg(hw, pmic.regs[ChgCnfg09]))
      ensures !hasUpdateStatus ==> reportedMA == old(reportedMA)
      ensures (hasUpdateStatus && (CablePolicy(attached).None? || ChgCnfg06 in pmic.writeFaults
                                   || ChgCnfg09 in pmic.readFaults)) ==> reportedMA == 0
    {
      usbOnline := false;
      acOnline := false;
      if hasUpdateStatus {
        reportedMA := 0;
      }
      var plan := CablePolicy(attached);
      if plan.None? {
        // nothing attached: neither channel comes online
        return 0;
      }
      usbOnline := plan.value.online == UsbChannel;
      acOnline := plan.value.online == AcChannel;
      maxCurrentMA := plan.value.currentMA;
      ret := SetChargerMode(plan.value.mode);
      if ret < 0 {
        return;
      }
      // the mode change worked: start the watchdog alarm
      wdt := Arm(wdt);
      if hasUpdateStatus {
        var ilim: int;
        ret, ilim := GetMaxInputCurrent();
        if ret < 0 {
          return;
        }
        reportedMA := ilim;
      }
    }

    /** max77665_reset_charger: disable, then (if that worked) enable
        again from the current cable state; always returns 0. */
    method ResetCharger(attached: set<Cable>) returns (ret: int)
      requires Valid()
      modifies this, pmic
      ensures Valid()
      ensures ret == 0
      ensures CablePolicy(attached).None? || ChgCnfg06 in pmic.writeFaults ==>
                mode == Off && maxCurrentMA == 0 && !acOnline && !usbOnline && !wdt.alarmArmed
      ensures CablePolicy(attached).Some? && ChgCnfg06 !in pmic.writeFaults ==>
                var plan := CablePolicy(attached).value;
                && mode == plan.mode && maxCurrentMA == plan.currentMA
                && acOnline == (plan.online == AcChannel) && usbOnline == (plan.online == UsbChannel)
                && wdt.alarmArmed
      ensures !wdt.ackPending
      ensures attached == {} ==> mode == Off && maxCurrentMA == 0 && !acOnline && !usbOnline
      ensures wdt.wakeLockHeld == old(wdt.wakeLockHeld)
      ensures !hasUpdateStatus ==> reportedMA == old(reportedMA)
      ensures (hasUpdateStatus && (CablePolicy(attached).None? || ChgCnfg06 in pmic.writeFaults
                                   || ChgCnfg09 in pmic.readFaults)) ==> reportedMA == 0
      ensures (hasUpdateStatus && CablePolicy(attached).Some? && ChgCnfg06 !in pmic.writeFaults
               && ChgCnfg09 !in pmic.readFaults) ==> reportedMA == LimitFromReg(hw, pmic.regs[ChgCnfg09])
      ensures ocCount == old(ocCount) && recalPending == old(recalPending) && deb == old(deb)
    {
      ret := DisableCharger();
      if ret < 0 {
        return 0;
      }
      ret := EnableCharger(attached);
      return 0;
    }

    // ---------------------------------------------------------------
    // Cable events

    /** charger_extcon_notifier: keep the event, replace the pending
        settle work; NOTIFY_DONE (0). */
    method ExtconNotifier(slot: nat, event: int) returns (ret: int)
      requires Valid()
      modifies this
      ensures Valid()
      ensures ret == 0
      ensures State() == old(State()).(deb := Notify(old(deb), slot, event))
    {
      deb := Notify(deb, slot, event);
      ret := 0;
    }

    /** charger_extcon_handle_notifier: the settle work for `slot` runs.
        A failed CHG_DTLS_01 read changes nothing; otherwise SettleAction
        on the cable's last event and the hardware's charging state
        decides between disable, enable and nothing. */
    method HandleSettle(slot: nat, attached: set<Cable>)
      requires Valid() && slot in deb.pending
      modifies this, pmic
      ensures Valid()
      ensures deb == Fire(old(deb), slot)
      ensures var act := if ChgDtls01 in pmic.readFaults then Ignore
                         else SettleAction(old(deb).events[slot], hw.chargingIsOn(old(pmic.regs[ChgDtls01])));
              && (act == Ignore ==> State() == old(State()).(deb := deb) && pmic.regs == old(pmic.regs))
              && (act == Disable ==> mode == Off && maxCurrentMA == 0 && !acOnline && !usbOnline
                                     && wdt == Cancel(old(wdt))
                                     && reportedMA == (if hasUpdateStatus then 0 else old(reportedMA))
                                     && pmic.regs == ModeRegisterWrites(hw, old(pmic.regs), pmic.readFaults,
                                                                        pmic.writeFaults, Off, 0))
              && (act == Enable && CablePolicy(attached).Some? ==>
                    mode == CablePolicy(attached).value.mode
                    && maxCurrentMA == CablePolicy(attached).value.currentMA)
              && (act == Enable && CablePolicy(attached).None? ==>
                    mode == old(mode) && maxCurrentMA == old(maxCurrentMA) && !acOnline && !usbOnline)
              && (act == Disable ==>
                    State() == old(State()).(mode := Off, maxCurrentMA := 0, acOnline := false, usbOnline := false,
                                             wdt := Cancel(old(wdt)),
                                             reportedMA := if hasUpdateStatus then 0 else old(reportedMA),
                                             deb := deb))
              && (act == Enable && CablePolicy(attached).None? ==>
                    State() == old(State()).(acOnline := false, usbOnline := false,
                                             reportedMA := if hasUpdateStatus then 0 else old(reportedMA),
                                             deb := deb)
                    && pmic.regs == old(pmic.regs))
              && (act == Enable && CablePolicy(attached).Some? ==>
                    ocCount == old(ocCount) && recalPending == old(recalPending))
    {
      deb := Fire(deb, slot);
      var r, val := ReadReg(ChgDtls01, 0);
      if r < 0 {
        return;
      }
      var act := SettleAction(deb.events[slot], hw.chargingIsOn(val));
      if act == Disable {
        r := DisableCharger();
      } else if act == Enable {
        r := EnableCharger(attached);
      }
    }

    // ---------------------------------------------------------------
    // Watchdog

    /** max77665_charger_wdt_timer: take the wake lock, queue the
        acknowledge; the alarm does not restart itself. */
    method WdtTimer()
      requires Valid()
      modifies this
      ensures Valid()
      ensures State() == old(State()).(wdt := AlarmFires(old(wdt)))
    {
      wdt := AlarmFires(wdt);
    }

    /** max77665_charger_wdt_ack_work_handler: OR WDTCLR into CHG_CNFG_06,
        then re-arm the alarm and drop the wake lock even if that failed. */
    method WdtAckWork()
      requires Valid()
      modifies this, pmic
      ensures Valid()
      ensures State() == old(State()).(wdt := AckRuns(old(wdt)))
      ensures ChgCnfg06 in pmic.readFaults ==> pmic.regs == old(pmic.regs)
      ensures ChgCnfg06 !in pmic.readFaults ==>
                pmic.regs == Written(old(pmic.regs), pmic.writeFaults, ChgCnfg06,
                                     OrInt(hw.wdtClr, old(pmic.regs[ChgCnfg06])))
    {
      var r := UpdateReg(ChgCnfg06, hw.wdtClr);
      wdt := AckRuns(wdt);
    }
  }
}
