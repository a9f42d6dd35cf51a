/** The MAX77975/MAX77976 charger driver: unit quantisation, the register access
    protocols, and the typed operations built on them. */
module Driver {
  import opened Registers
  import opened Bitfields
  import opened Bus

  /** An unsigned 16-bit milliamp value, as the driver's operations take it. */
  type u16 = x: nat | x < 0x1_0000

  // ---------------------------------------------------------------------------
  // Quantisation of milliamps into register codes (unsigned 16-bit arithmetic:
  // integer division rounds down, subtraction saturates at zero)

  function SaturatingSub(a: nat, b: nat): nat
  {
    if a >= b then a - b else 0
  }

  function Min(a: nat, b: nat): nat
  {
    if a <= b then a else b
  }

  /** The system current limit code: one step per 500 mA above 2500 mA, at most
      15. Code c selects the limit of 500 * (c + 5) mA; a request is rounded down
      to the limit below it and clamped to the range the field holds. */
  function SysIlimCode(milliamps: u16): (c: nat)
    ensures c <= 0xf
    ensures c == 0 <==> milliamps < 3000
    ensures 0 < c < 0xf ==> 500 * (c + 5) <= milliamps < 500 * (c + 6)
    ensures c == 0xf <==> milliamps >= 10000
  {
    Min(SaturatingSub(milliamps / 500, 5), 0xf)
  }

  /** The byte written to CHARGER_CONFIG_5: the limit code in bits 0-3, the
      recycle enable in bit 4, bits 5-7 clear. */
  function SysIlimByte(milliamps: u16, recycleEn: bool): (b: bv8)
    ensures b & 0x0f == SysIlimCode(milliamps) as bv8
    ensures b & 0x10 != 0 <==> recycleEn
    ensures b & 0xe0 == 0
  {
    (if recycleEn then 0x10 else 0x00) | SysIlimCode(milliamps) as bv8
  }

  /** The CHGIN input current limit code: one step per 50 mA above 50 mA, at
      most 63. */
  function ChginIlimCode(milliamps: u16): (c: nat)
    ensures c <= 0x3f
    ensures c == 0 <==> milliamps < 100
    ensures 0 < c < 0x3f ==> 50 * (c + 1) <= milliamps < 50 * (c + 2)
    ensures c == 0x3f <==> milliamps >= 3200
  {
    Min(SaturatingSub(milliamps / 50, 1), 0x3f)
  }

  /** The new CHARGER_CONFIG_9 value: the top two bits of the value read are
      kept, and the low six bits are the limit code. */
  function ChginIlimUpdate(val: bv8, code: nat): (b: bv8)
    requires code <= 0x3f
    ensures b & 0xc0 == val & 0xc0
    ensures b & 0x3f == code as bv8
  {
    (val & 0xc0) | code as bv8
  }

  /** The fast-charge current code: one step per 50 mA, at most 127. */
  function FastChargeCode(milliamps: u16): (c: nat)
    ensures c <= 0x7f
    ensures c < 0x7f ==> 50 * c <= milliamps < 50 * (c + 1)
    ensures c == 0x7f <==> milliamps >= 6350
  {
    Min(milliamps / 50, 0x7f)
  }

  /** Raising the requested current never lowers a code. */
  lemma QuantisationMonotone(m1: u16, m2: u16)
    requires m1 <= m2
    ensures SysIlimCode(m1) <= SysIlimCode(m2)
    ensures ChginIlimCode(m1) <= ChginIlimCode(m2)
    ensures FastChargeCode(m1) <= FastChargeCode(m2)
  {
  }

  // ---------------------------------------------------------------------------
  // The write-protect bracket

  /** CHARGER_CONFIG_6 values that unlock and lock the protected registers. */
  const WRITE_PROTECT_UNLOCK: bv8 := 0x0c
  const WRITE_PROTECT_LOCK: bv8 := 0x00
  /** The value written to SHIP_MODE_CONTROL to enter ship mode. */
  const SHIP_MODE_ENTER: bv8 := 0x01

  const UNLOCK := Transaction.Write(ADDR, [CHARGER_CONFIG_6, WRITE_PROTECT_UNLOCK])
  const LOCK := Transaction.Write(ADDR, [CHARGER_CONFIG_6, WRITE_PROTECT_LOCK])

  class Charger {
    /** The bus device the charger owns for its whole lifetime. */
    const i2cDev: I2c
    /** The length of the device's trace when the charger was created. */
    ghost const start: nat

    /** Since creation, every transaction went to the charger's bus address,
        and every unlock the device acknowledged was followed, after the target
        write, by a lock write. */
    ghost predicate Valid()
      reads this, i2cDev
    {
      && start <= |i2cDev.trace|
      && (forall i :: start <= i < |i2cDev.trace| ==> i2cDev.trace[i].addr == ADDR)
      && (forall i :: start <= i < |i2cDev.trace| && i2cDev.trace[i] == UNLOCK && i2cDev.replies(i).Ack? ==>
            i + 2 < |i2cDev.trace| && i2cDev.trace[i + 2] == LOCK)
    }

    /** The device's reply to the next transaction. */
    ghost function NextReply(): Reply
      reads this, i2cDev
    {
      i2cDev.replies(|i2cDev.trace|)
    }

    /** The new trace and result of a protected write of `val` to `reg` issued
        after `before`: the unlock write first; if it fails, nothing more and
        its error. Otherwise the target write and then, always, the lock write;
        the result is the lock write's error when the lock write fails, whatever
        the target write did, and the target write's result when it succeeds. */
    ghost predicate ProtectedWriteIssued(reg: Reg, val: bv8, before: seq<Transaction>, r: Result<()>)
      reads this, i2cDev
    {
      var n := |before|;
      if i2cDev.replies(n).Nack? then
        i2cDev.trace == before + [UNLOCK] && r == Err(i2cDev.replies(n).error)
      else
        && i2cDev.trace == before + [UNLOCK, Transaction.Write(ADDR, [reg, val]), LOCK]
        && r == (if i2cDev.replies(n + 2).Nack? then Err(i2cDev.replies(n + 2).error)
                 else Status(i2cDev.replies(n + 1)))
    }

    constructor (i2cDev: I2c)
      ensures this.i2cDev == i2cDev && start == |i2cDev.trace|
      ensures Valid()
    {
      this.i2cDev := i2cDev;
      start := |i2cDev.trace|;
    }

    method ReadReg(reg: Reg) returns (r: Result<bv8>)
      modifies i2cDev
      ensures i2cDev.trace == old(i2cDev.trace) + [WriteRead(ADDR, [reg], 1)]
      ensures old(NextReply()).Nack? ==> r == Err(old(NextReply()).error)
      ensures old(NextReply()).Ack? ==> r == Ok(Fill(old(NextReply()).data, 1)[0])
    {
      var val := new bv8[1];
      var res := i2cDev.WriteRead(ADDR, [reg], val);
      if res.Err? {
        return Err(res.error);
      }
      r := Ok(val[0]);
    }

    method ReadBuf(base: Reg, buf: array<bv8>) returns (r: Result<()>)
      modifies i2cDev, buf
      ensures i2cDev.trace == old(i2cDev.trace) + [WriteRead(ADDR, [base], buf.Length)]
      ensures r == Status(old(NextReply()))
      ensures old(NextReply()).Ack? ==> buf[..] == Fill(old(NextReply()).data, buf.Length)
      ensures old(NextReply()).Nack? ==> buf[..] == old(buf[..])
    {
      r := i2cDev.WriteRead(ADDR, [base], buf);
    }

    method WriteReg(reg: Reg, val: bv8) returns (r: Result<()>)
      modifies i2cDev
      ensures i2cDev.trace == old(i2cDev.trace) + [Transaction.Write(ADDR, [reg, val])]
      ensures r == Status(old(NextReply()))
    {
      r := i2cDev.Write(ADDR, [reg, val]);
    }

    method WriteProtectedReg(reg: Reg, val: bv8) returns (r: Result<()>)
      modifies i2cDev
      ensures ProtectedWriteIssued(reg, val, old(i2cDev.trace), r)
    {
      var unlocked := WriteReg(CHARGER_CONFIG_6, WRITE_PROTECT_UNLOCK);
      if unlocked.Err? {
        return Err(unlocked.error);
      }
      var res := WriteReg(reg, val);
      var locked := WriteReg(CHARGER_CONFIG_6, WRITE_PROTECT_LOCK);
      if locked.Err? {
        return Err(locked.error);
      }
      r := res;
    }

    /** Reads `reg`, applies `f` to its value and writes the result back; when
        the read fails nothing is written. */
    method ModifyReg(reg: Reg, f: bv8 -> bv8) returns (r: Result<()>)
      modifies i2cDev
      ensures var n := |old(i2cDev.trace)|;
        var read := i2cDev.replies(n);
        if read.Nack? then
          i2cDev.trace == old(i2cDev.trace) + [WriteRead(ADDR, [reg], 1)] && r == Err(read.error)
        else
          && i2cDev.trace == old(i2cDev.trace) + [WriteRead(ADDR, [reg], 1),
                                                  Transaction.Write(ADDR, [reg, f(Fill(read.data, 1)[0])])]
          && r == Status(i2cDev.replies(n + 1))
    {
      var val := ReadReg(reg);
      if val.Err? {
        return Err(val.error);
      }
      r := WriteReg(reg, f(val.value));
    }

    /** Sets the current limit of the system output. */
    method SetSysIlim(milliamps: u16, recycleEn: bool) returns (r: Result<()>)
      requires Valid()
      modifies i2cDev
      ensures Valid()
      ensures ProtectedWriteIssued(CHARGER_CONFIG_5, SysIlimByte(milliamps, recycleEn), old(i2cDev.trace), r)
    {
      var sysIlim := SysIlimCode(milliamps) as bv8;
      var recycle: bv8 := if recycleEn then 0x10 else 0x00;
      r := WriteProtectedReg(CHARGER_CONFIG_5, recycle | sysIlim);
    }

    /** Sets the CHGIN input current limit, keeping the register's top two bits. */
    method SetChginIlim(milliamps: u16) returns (r: Result<()>)
      requires Valid()
      modifies i2cDev
      ensures Valid()
      ensures var n := |old(i2cDev.trace)|;
        var read := i2cDev.replies(n);
        if read.Nack? then
          i2cDev.trace == old(i2cDev.trace) + [WriteRead(ADDR, [CHARGER_CONFIG_9], 1)]
          && r == Err(read.error)
        else
          && i2cDev.trace == old(i2cDev.trace) + [
               WriteRead(ADDR, [CHARGER_CONFIG_9], 1),
               Transaction.Write(ADDR, [CHARGER_CONFIG_9,
                                        ChginIlimUpdate(Fill(read.data, 1)[0], ChginIlimCode(milliamps))])]
          && r == Status(i2cDev.replies(n + 1))
    {
      var chginIlim := ChginIlimCode(milliamps);
      r := ModifyReg(CHARGER_CONFIG_9, val => ChginIlimUpdate(val, chginIlim));
    }

    /** Sets the charge current of the constant-current phase. */
    method SetFastChargeCurrent(milliamps: u16) returns (r: Result<()>)
      requires Valid()
      modifies i2cDev
      ensures Valid()
      ensures ProtectedWriteIssued(CHARGER_CONFIG_2, FastChargeCode(milliamps) as bv8, old(i2cDev.trace), r)
    {
      var chgCc := FastChargeCode(milliamps) as bv8;
      r := WriteProtectedReg(CHARGER_CONFIG_2, chgCc);
    }

    /** Sets the charger mode: one unprotected write of the mode's code. */
    method SetMode(mode: Mode) returns (r: Result<()>)
      requires Valid()
      modifies i2cDev
      ensures Valid()
      ensures i2cDev.trace == old(i2cDev.trace) + [Transaction.Write(ADDR, [CHARGER_CONFIG_0, ModeCode(mode) as bv8])]
      ensures r == Status(old(NextReply()))
    {
      r := WriteReg(CHARGER_CONFIG_0, ModeCode(mode) as bv8);
    }

    /** Enters ship mode. Whether the device accepts it is up to the device. */
    method EnterShipMode() returns (r: Result<()>)
      requires Valid()
      modifies i2cDev
      ensures Valid()
      ensures i2cDev.trace == old(i2cDev.trace) + [Transaction.Write(ADDR, [SHIP_MODE_CONTROL, SHIP_MODE_ENTER])]
      ensures r == Status(old(NextReply()))
    {
      r := WriteReg(SHIP_MODE_CONTROL, SHIP_MODE_ENTER);
    }

    /** Enables the charger interrupts whose flags are set in `irqs`; the mask
        register enables a source with a clear bit, so the byte is inverted. */
    method SetChargerIrqMask(irqs: ChargerInterrupts) returns (r: Result<()>)
      requires Valid()
      modifies i2cDev
      ensures Valid()
      ensures i2cDev.trace == old(i2cDev.trace) + [Transaction.Write(ADDR, [CHARGER_INTERRUPT_MASK, !InterruptsToByte(irqs)])]
      ensures r == Status(old(NextReply()))
    {
      r := WriteReg(CHARGER_INTERRUPT_MASK, !InterruptsToByte(irqs));
    }

    /** Reads (and so clears) the charger interrupt flags. */
    method ChargerIrqFlags() returns (r: Result<ChargerInterrupts>)
      requires Valid()
      modifies i2cDev
      ensures Valid()
      ensures i2cDev.trace == old(i2cDev.trace) + [WriteRead(ADDR, [CHARGER_INTERRUPT], 1)]
      ensures old(NextReply()).Nack? ==> r == Err(old(NextReply()).error)
      ensures old(NextReply()).Ack? ==> r == Ok(InterruptsFromByte(Fill(old(NextReply()).data, 1)[0]))
    {
      var val := ReadReg(CHARGER_INTERRUPT);
      if val.Err? {
        return Err(val.error);
      }
      r := Ok(InterruptsFromByte(val.value));
    }

    /** Reads the interrupt, mask and status registers in one transaction, which
        clears the interrupt flags, and decodes the status register, the third
        byte, alone. */
    method ChargerStatus() returns (r: Result<ChargerInterrupts>)
      requires Valid()
      modifies i2cDev
      ensures Valid()
      ensures i2cDev.trace == old(i2cDev.trace) + [WriteRead(ADDR, [CHARGER_INTERRUPT], 3)]
      ensures old(NextReply()).Nack? ==> r == Err(old(NextReply()).error)
      ensures old(NextReply()).Ack? ==> r == Ok(InterruptsFromByte(Fill(old(NextReply()).data, 3)[2]))
    {
      var buf := new bv8[3];
      var res := ReadBuf(CHARGER_INTERRUPT, buf);
      if res.Err? {
        return Err(res.error);
      }
      r := Ok(InterruptsFromByte(buf[2]));
    }

    /** Reads the three detail registers in one transaction and decodes them. */
    method ChargerDetails() returns (r: Result<Details>)
      requires Valid()
      modifies i2cDev
      ensures Valid()
      ensures i2cDev.trace == old(i2cDev.trace) + [WriteRead(ADDR, [CHARGER_DETAILS_0], 3)]
      ensures old(NextReply()).Nack? ==> r == Err(old(NextReply()).error)
      ensures old(NextReply()).Ack? ==> r == Ok(DecodeDetails(Fill(old(NextReply()).data, 3)))
    {
      var buf := new bv8[3];
      var res := ReadBuf(CHARGER_DETAILS_0, buf);
      if res.Err? {
        return Err(res.error);
      }
      r := Ok(DecodeDetails(buf[..]));
    }
  }
}
