/** The PMIC register file as the charger driver sees it: a map from the
    registers the driver touches to byte values, behind a bus whose transfers
    may fail. Which transfers fail is fixed per device (a register that cannot
    be read or written fails every time). */
module Registers {
  import opened Bits

  /** The charger registers named in drivers/power/max77665-charger.c. */
  datatype Reg =
    | ChgInt       // MAX77665_CHG_INT
    | ChgIntMask   // MAX77665_CHG_INT_MASK
    | ChgIntOk     // MAX77665_CHG_INT_OK
    | ChgDtls00    // MAX77665_CHG_DTLS_00
    | ChgDtls01    // MAX77665_CHG_DTLS_01
    | ChgDtls02    // MAX77665_CHG_DTLS_02
    | ChgCnfg00    // MAX77665_CHG_CNFG_00 (mode flags)
    | ChgCnfg06    // MAX77665_CHG_CNFG_06 (write protection, watchdog clear)
    | ChgCnfg09    // MAX77665_CHG_CNFG_09 (input current limit)
    | ChgCnfg12    // MAX77665_CHG_CNFG_12
    | SafeOutCtrl  // MAX77665_SAFEOUTCTRL

  /** Every register of the model has a value in `regs`. */
  ghost predicate Complete(regs: map<Reg, Byte>)
  {
    forall r: Reg :: r in regs
  }

  /** Kernel error numbers used by the driver (returned negated). */
  const EIO: int := 5
  const EINVAL: int := 22

  /** C's `a | m` where `a` is an `int` that may hold any value (even an
      uninitialised one) and the result only ever reaches write_reg. Inside
      the byte range it is the bitwise OR; outside it the OR stays outside
      the range on the same side, which is all that write_reg's range check
      can observe, so there the operand itself stands for the result. */
  function OrInt(a: int, m: Byte): (r: int)
    ensures 0 <= a <= 0xFF ==> 0 <= r <= 0xFF && And(r, m) == m && And(r, a) == a && Clear(r, a) == Clear(m, a)
    ensures !(0 <= a <= 0xFF) ==> !(0 <= r <= 0xFF)
  {
    if 0 <= a <= 0xFF then OrSetsBits(a, m); Or(a, m) else a
  }

  /** C's `a & ~m` under the same reading as OrInt: `~m` keeps every bit
      above the low byte, so an out-of-range operand stays out of range. */
  function AndNotInt(a: int, m: Byte): (r: int)
    ensures 0 <= a <= 0xFF ==> 0 <= r <= 0xFF && And(r, m) == 0 && Or(r, And(a, m)) == a
    ensures !(0 <= a <= 0xFF) ==> !(0 <= r <= 0xFF)
  {
    if 0 <= a <= 0xFF then ClearClearsBits(a, m); Clear(a, m) else a
  }

  /** The PMIC behind the I2C bus (max77665_read / max77665_write). */
  class Pmic {
    var regs: map<Reg, Byte>
    const readFaults: set<Reg>
    const writeFaults: set<Reg>

    ghost predicate Valid()
      reads this
    {
      Complete(regs)
    }

    constructor (init: map<Reg, Byte>, readFaults: set<Reg>, writeFaults: set<Reg>)
      requires Complete(init)
      ensures Valid()
      ensures regs == init && this.readFaults == readFaults && this.writeFaults == writeFaults
    {
      regs := init;
      this.readFaults := readFaults;
      this.writeFaults := writeFaults;
    }

    /** max77665_read: one byte, or -EIO. */
    method Read(reg: Reg) returns (ret: int, value: Byte)
      requires Valid()
      ensures ret == 0 || ret == -EIO
      ensures ret == 0 <==> reg !in readFaults
      ensures ret == 0 ==> value == regs[reg]
    {
      if reg in readFaults {
        ret, value := -EIO, 0;
      } else {
        ret, value := 0, regs[reg];
      }
    }

    /** max77665_write: one byte, or -EIO with the register unchanged. */
    method Write(reg: Reg, value: Byte) returns (ret: int)
      requires Valid()
      modifies this
      ensures Valid()
      ensures ret == 0 || ret == -EIO
      ensures ret == 0 <==> reg !in writeFaults
      ensures regs == if ret == 0 then old(regs)[reg := value] else old(regs)
    {
      if reg in writeFaults {
        ret := -EIO;
      } else {
        regs := regs[reg := value];
        ret := 0;
      }
    }
  }
}
