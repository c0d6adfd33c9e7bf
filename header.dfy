/** Constants that the driver takes from the chip's header file, which is not
    part of this model, and the pure register arithmetic built on them. The
    model is proved for every header that meets WellFormed. */
module Header {
  import opened Optional
  import opened Bits

  /** The header's constants. Bit-field comparisons `FIELD_MASK(v) == VALUE`
      are modelled as `v & mask == value`, with `value` already shifted into
      the field's position. */
  datatype ChipHeader = ChipHeader(
    currentStepMA: int,          // CURRENT_STEP_mA
    minCurrentLimitMA: int,      // MIN_CURRENT_LIMIT_mA
    bypBit: Byte,                 // BYP_BIT
    batBit: Byte,                 // BAT_BIT
    chgBit: Byte,                 // CHG_BIT
    chginBit: Byte,               // CHGIN_BIT
    enSafeOut1: Byte,             // ENSAFEOUT1
    enSafeOut2: Byte,             // ENSAFEOUT2
    wdtClr: Byte,                 // WDTCLR
    chginDtlsMask: Byte,          // CHGIN_DTLS_MASK
    chginDtlsValid: Byte,         // CHGIN_DTLS_VALID
    bypDtlsMask: Byte,            // BYP_DTLS_MASK
    bypDtlsValid: Byte,           // BYP_DTLS_VALID
    batDtlsMask: Byte,            // BAT_DTLS_MASK
    batDtlsOvercurrent: Byte,     // BAT_DTLS_OVERCURRENT
    chargingIsOn: Byte -> bool,   // charging_is_on(CHG_DTLS_01)
    offFlags: Byte,               // CHARGER_OFF_OTG_OFF_BUCK_ON_BOOST_OFF
    chargerFlags: Byte,           // CHARGER_ON_OTG_OFF_BUCK_ON_BOOST_OFF
    wdtEn: Byte,                  // WDTEN
    otgFlags: Byte,               // CHARGER_OFF_OTG_ON_BUCK_OFF_BOOST_ON
    vchginRegulation4V3: Byte     // VCHGIN_REGULATION_4V3
  )

  /** The one assumption the driver's arithmetic needs: the calibration loop
      only terminates when a step is at least 2 mA. */
  predicate WellFormed(hw: ChipHeader)
  {
    hw.currentStepMA >= 2
  }

  /** C's `/` on int, which truncates toward zero. */
  function CDiv(a: int, b: int): int
    requires b > 0
  {
    if a >= 0 then a / b else -((-a) / b)
  }

  function Max(a: int, b: int): int
  {
    if a >= b then a else b
  }

  /** The CHG_CNFG_09 code that max77665_set_max_input_current writes. */
  function InputLimitCode(hw: ChipHeader, mA: int): int
    requires WellFormed(hw)
  {
    CDiv(mA, hw.currentStepMA)
  }

  /** max77665_get_max_input_current's decoding of a raw (uint32) reading:
      the low 7 bits count steps, and the result never goes below the
      minimum limit. */
  function LimitFromReg(hw: ChipHeader, raw: int): (mA: int)
    requires WellFormed(hw) && raw >= 0
    ensures mA >= hw.minCurrentLimitMA
    ensures mA == hw.minCurrentLimitMA || exists k :: 0 <= k < 0x80 && mA == Steps(hw, k)
  {
    Max(hw.minCurrentLimitMA, Steps(hw, raw % 0x80))
  }

  /** `k` current steps, in mA. */
  function Steps(hw: ChipHeader, k: int): int
  {
    k * hw.currentStepMA
  }

  /** A register reading's field under `mask` holds `want`. */
  predicate FieldIs(v: Byte, mask: Byte, want: Byte)
  {
    And(v, mask) == want
  }

  /** A register reading has `bit` set. */
  predicate BitSet(v: Byte, bit: Byte)
  {
    And(v, bit) != 0
  }

  /** max77665_check_charging_ok over the two detail readings it makes
      (None for a failed read): the input is valid and the voltage
      regulation loop has not collapsed. */
  predicate ChargingOk(hw: ChipHeader, dtls00: Option<Byte>, dtls02: Option<Byte>)
  {
    && dtls00.Some? && FieldIs(dtls00.value, hw.chginDtlsMask, hw.chginDtlsValid)
    && dtls02.Some? && FieldIs(dtls02.value, hw.bypDtlsMask, hw.bypDtlsValid)
  }

  /** `BAT_DTLS_MASK(val) == BAT_DTLS_OVERCURRENT` on a uint32 `val`; the
      mask is one byte wide, so only the low byte matters. */
  predicate IsBatOvercurrent(hw: ChipHeader, val: int)
    requires val >= 0
  {
    FieldIs(val % 0x100, hw.batDtlsMask, hw.batDtlsOvercurrent)
  }

  /** Writing a current and reading it back rounds it down to a whole number
      of steps, floored at the minimum limit, as long as the code fits the
      register's 7-bit field. */
  lemma InputLimitRoundTrip(hw: ChipHeader, mA: int)
    requires WellFormed(hw) && 0 <= mA && InputLimitCode(hw, mA) <= 0x7F
    ensures var got := LimitFromReg(hw, InputLimitCode(hw, mA));
            && got == Max(hw.minCurrentLimitMA, mA - mA % hw.currentStepMA)
            && (got == hw.minCurrentLimitMA || mA - hw.currentStepMA < got <= mA)
  {
    var s := hw.currentStepMA;
    var q := mA / s;
    assert mA == q * s + mA % s;
    assert q % 0x80 == q;
  }

  /** A code above the 7-bit field passes write_reg's byte check but reads
      back with its top bit dropped: such a current reads back lower by 128
      steps (or as the minimum). */
  lemma InputLimitWraps(hw: ChipHeader, mA: int)
    requires WellFormed(hw) && 0x80 <= InputLimitCode(hw, mA) <= 0xFF
    ensures LimitFromReg(hw, InputLimitCode(hw, mA))
         == Max(hw.minCurrentLimitMA, (InputLimitCode(hw, mA) - 0x80) * hw.currentStepMA)
    ensures LimitFromReg(hw, InputLimitCode(hw, mA)) < mA || LimitFromReg(hw, InputLimitCode(hw, mA)) == hw.minCurrentLimitMA
  {
    var s := hw.currentStepMA;
    var q := InputLimitCode(hw, mA);
    assert q % 0x80 == q - 0x80;
    assert mA >= 0;
    assert q == mA / s;
    assert q * s <= mA by {
      assert mA == (mA / s) * s + mA % s;
    }
    assert (q - 0x80) * s < q * s;
  }
}
