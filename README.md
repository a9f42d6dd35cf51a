# MAX77975/MAX77976 charger driver, modelled in Dafny

This project models the register-level driver for the MAX77975/MAX77976 1-cell
Li+ battery charger (`src/lib.rs`). The driver talks to the chip over a
two-wire bus at the fixed 7-bit address 0x6b. The model has four parts.

- **Register map** (`registers.dfy`, module `Registers`). The fixed 8-bit
  register addresses and the bus address, as constants.
- **Bitfield codecs** (`bitfields.dfy`, module `Bitfields`). The charger
  interrupt flags (8 bits) and the bypass-node flags (4 bits). The 24-bit
  `Details` status snapshot. The enumerations `Mode`, `ChgIn`, `BatterySense`,
  `TemperatureRegulation`, `BatteryDetails`, `ChargerDetails` and
  `ThermistorDetails`. Fields are packed least-significant bit first, in
  declaration order. In a multi-byte value, byte 0 is the least significant
  byte. The layout is written out with explicit shifts and masks over `bv8`,
  `bv4` and `bv24`.
- **Abstract bus** (`bus.dfy`, module `Bus`). The transport handed to the
  driver is modelled as a class `I2c`. It appends every transaction
  (`Write(addr, bytes)` or `WriteRead(addr, bytes, len)`) to a `trace`. It
  answers the transaction at trace position `n` with `replies(n)`, a fixed
  reply script chosen when the bus is created. A reply is an acknowledgement,
  with data for reads, or an error.
- **Charger controller** (`charger.dfy`, module `Driver`). The milliamp
  quantisations are pure functions. The class `Charger` owns one `I2c` and
  has one method per operation of the source. Each method's postcondition
  gives the exact transactions it appends to the trace, in order, and the
  result or error it returns, in terms of the bus's replies. `Charger.Valid()`
  is preserved by every public operation. It says two things about every
  transaction issued since the charger was created:
  - it went to address 0x6b;
  - if it was an unlock that the bus acknowledged, the lock write follows it
    two transactions later.

`scenarios.dfy` (module `Scenarios`) drives a charger over scripted buses to
show what callers can conclude from the contracts alone.

Values follow the source's unsigned arithmetic. Milliamps are `u16`, a subset
of `nat` below 0x10000. `/` rounds down, and `saturating_sub` stops at zero.
The final `as u8` casts never lose bits: every code is proved to be at most
0x7f.

Two behaviours of the code are easy to misread, and the model states them as the code has them.

- **Error precedence of the protected write.** The lock write's error
  propagates with `?` (src/lib.rs:169). So when the target write and the lock
  write both fail, the lock write's error is returned, not the target write's.
  The target write's result is returned only when the lock write succeeds
  (`Charger.WriteProtectedReg`, `Scenarios.TargetAndLockFail`).
- **Fast-charge saturation.** The code is `min(m / 50, 127)`, so it saturates
  from 6350 mA on, not 6400 mA (`FastChargeCode`).

## Model

| member | source | states |
|---|---|---|
| `Driver.SysIlimCode` | src/lib.rs:76 | the code is at most 15; it is 0 exactly below 3000 mA and 15 exactly from 10000 mA on; between those, code c means 500·(c+5) ≤ m < 500·(c+6) |
| `Driver.SysIlimByte` | src/lib.rs:76-78 | the low nibble is the limit code; bit 4 is set iff `recycle_en`; bits 5–7 are clear |
| `Driver.ChginIlimCode` | src/lib.rs:84 | the code is at most 63; it is 0 exactly below 100 mA and 63 exactly from 3200 mA on; between those, code c means 50·(c+1) ≤ m < 50·(c+2) |
| `Driver.ChginIlimUpdate` | src/lib.rs:85 | the top two bits of the value read are kept exactly; the low six bits are the limit code |
| `Driver.FastChargeCode` | src/lib.rs:91 | the code is at most 0x7f; it is 127 exactly from 6350 mA on; below that, code c means 50·c ≤ m < 50·(c+1) |
| `Driver.QuantisationMonotone` | src/lib.rs:75-94 | a larger milliamp request never gives a smaller code, for all three quantisations |
| `Driver.Charger.constructor` | src/lib.rs:67-69 | the charger owns the given bus; the invariant holds from an empty history |
| `Driver.Charger.ReadReg` | src/lib.rs:143-153 | one 1-byte `WriteRead` of `[reg]` at 0x6b; returns the byte read, or the bus error |
| `Driver.Charger.ReadBuf` | src/lib.rs:155-159 | one `WriteRead` of `[base]` at 0x6b, reading `buf.Length` bytes into `buf`; it returns the bus's status |
| `Driver.Charger.WriteReg` | src/lib.rs:161-164 | one `Write` of `[reg, val]` at 0x6b; returns the bus's status |
| `Driver.Charger.WriteProtectedReg` | src/lib.rs:166-171 | writes `[0x1c, 0x0c]` first; if that fails, sends nothing more and returns its error; otherwise writes `[reg, val]` and then always `[0x1c, 0x00]`, three writes in that order. It returns the lock write's error when the lock write fails, whatever the target write did (so when both fail, the lock write's error wins), and the target write's own result when the lock write succeeds |
| `Driver.Charger.ModifyReg` | src/lib.rs:173-177 | reads `reg`; if the read fails, writes nothing and returns the read error; otherwise writes `f(value)` to `reg` and returns that write's status |
| `Driver.Charger.SetSysIlim` | src/lib.rs:75-80 | a protected write of `SysIlimByte(m, recycle_en)` to CHARGER_CONFIG_5 (0x1b); keeps `Valid()` |
| `Driver.Charger.SetChginIlim` | src/lib.rs:83-87 | reads CHARGER_CONFIG_9 (0x1f) once; if the read fails, writes nothing and returns the read error; otherwise writes `ChginIlimUpdate(old, code)` back and returns that write's status |
| `Driver.Charger.SetFastChargeCurrent` | src/lib.rs:90-94 | a protected write of `min(m/50, 127)` to CHARGER_CONFIG_2 (0x18) |
| `Driver.Charger.SetMode` | src/lib.rs:97-99 | one unprotected write of `[0x16, code(mode)]` |
| `Driver.Charger.EnterShipMode` | src/lib.rs:105-107 | one write of `[0x51, 0x01]` |
| `Driver.Charger.SetChargerIrqMask` | src/lib.rs:112-115 | one write of `[0x11, !byte(irqs)]`, the bitwise complement of the encoded flags |
| `Driver.Charger.ChargerIrqFlags` | src/lib.rs:118-122 | one 1-byte `WriteRead` at 0x10; decodes the byte, or returns the bus error and decodes nothing |
| `Driver.Charger.ChargerStatus` | src/lib.rs:129-134 | one 3-byte `WriteRead` starting at 0x10; decodes only the third byte; on an error returns it |
| `Driver.Charger.ChargerDetails` | src/lib.rs:137-141 | one 3-byte `WriteRead` starting at 0x13; decodes all three bytes as `Details`; on an error returns it |
| `Bus.Fill` | src/lib.rs:155-159 | a read fills exactly the caller's buffer length, with the device's bytes in order |
| `Bus.I2c.Write` | src/lib.rs:163 | appends `Write(addr, bytes)` to the trace; the result comes from the reply script |
| `Bus.I2c.WriteRead` | src/lib.rs:157 | appends `WriteRead(addr, bytes, len)`; fills the buffer on success and leaves it unchanged on an error |
| `Bitfields.DecodeMode` | src/lib.rs:196-221 | decoding accepts exactly the codes of the five modes (0x0, 0x4, 0x5, 0x9, 0xa) and returns the mode with that code |
| `Bitfields.ModeRoundTrip` | src/lib.rs:196-221 | `decode(encode(m)) == m` for every mode |
| `Bitfields.DecodeChgIn` | src/lib.rs:223-236 | every 2-bit pattern decodes to the variant with that code |
| `Bitfields.DecodeBatterySense` | src/lib.rs:238-251 | every 2-bit pattern decodes to the variant with that code |
| `Bitfields.DecodeTemperatureRegulation` | src/lib.rs:253-262 | both 1-bit patterns decode to the variant with that code |
| `Bitfields.DecodeBatteryDetails` | src/lib.rs:264-293 | every 3-bit pattern decodes to the variant with that code, reserved code 6 included |
| `Bitfields.DecodeChargerDetails` | src/lib.rs:295-332 | every 4-bit pattern decodes to the variant with that code, reserved codes 5, 9 and 0xf included |
| `Bitfields.DecodeThermistorDetails` | src/lib.rs:334-355 | every 3-bit pattern decodes to the variant with that code, reserved code 7 included |
| `Bitfields.EnumCodesRoundTrip` | src/lib.rs:223-355 | the code of every variant decodes back to that variant: codes and variants correspond one to one |
| `Bitfields.InterruptsByteRoundTrip` | src/lib.rs:180-194 | `into_bytes(from_bytes([b])) == [b]` for every byte, reserved bit 2 included |
| `Bitfields.InterruptsValueRoundTrip` | src/lib.rs:180-194 | decoding an encoded flag set gives it back |
| `Bitfields.InterruptsBitLayout` | src/lib.rs:184-193 | bit 0 is `bypass_node`, 1 `disqbat`, 2 reserved, 3 `battery`, 4 `charger`, 5 `input_current_limit`, 6 `chgin`, 7 `adaptive_input_current_loop` |
| `Bitfields.InterruptsComplement` | src/lib.rs:113 | the complemented byte decodes to every flag flipped, so a source's mask bit is clear exactly when its flag was set |
| `Bitfields.BypassBitsRoundTrip` | src/lib.rs:357-367 | every 4-bit pattern survives decoding and re-encoding |
| `Bitfields.BypassValueRoundTrip` | src/lib.rs:357-367 | decoding an encoded bypass node value gives it back |
| `Bitfields.BypassBitLayout` | src/lib.rs:362-367 | bit 0 of the nibble is set exactly when `otg_current_limit` is, bit 1 `boost_current_limit`, bit 2 `buck_current_limit`, bit 3 `boost_on` |
| `Bitfields.OffsetMonotone` | src/lib.rs:369-397 | packing fields in declaration order never places a later field before an earlier one |
| `Bitfields.FieldsDisjoint` | src/lib.rs:369-397 | under the packing rule, any two declared fields occupy disjoint bit ranges in declaration order, all inside the total width |
| `Bitfields.DetailsFieldsDisjoint` | src/lib.rs:369-397 | the eleven declared spans of the 24-bit details value, reserved ones included, are pairwise disjoint in declaration order and end by bit 24; the seven named fields lie in [1,3), [5,7), [8,12), [12,15), [15,16), [16,20) and [20,23) |
| `Bitfields.DetailsLayout` | src/lib.rs:374-397 | packing the declared fields in order puts sense at bit 1, chgin at 5, charger at 8, battery at 12, temp at 15, bypass at 16 and thermistor at 20, and the widths fill exactly 24 bits |
| `Bitfields.WordBytesRoundTrip` | src/lib.rs:369-374 | the three bytes and the 24-bit word, byte 0 least significant, convert into each other losslessly |
| `Bitfields.UnpackPack` | src/lib.rs:374-397 | the fields occupy disjoint bit ranges: packing and cutting again gives every field back |
| `Bitfields.PackUnpack` | src/lib.rs:374-397 | cutting a word into fields and packing them again keeps exactly the used bits |
| `Bitfields.UnpackIgnoresReserved` | src/lib.rs:374-397 | the raw fields of a word depend only on its used bits |
| `Bitfields.EncodeDetailsReservedZero` | src/lib.rs:374-397 | an encoded `Details` never sets a reserved bit |
| `Bitfields.DetailsDecodeEncode` | src/lib.rs:369-397 | decoding the bytes of an encoded `Details` gives it back |
| `Bitfields.DetailsIgnoresReserved` | src/lib.rs:374-397 | bits 0, 3, 4, 7 and 23 do not influence any decoded field |
| `Bitfields.FlipReserved` | src/lib.rs:374-397 | flipping any set of bits outside the seven named fields leaves the decoded `Details` unchanged |
| `Bitfields.DetailsReservedBit` | src/lib.rs:374-397 | flipping any single reserved bit of the bytes leaves the decoded `Details` unchanged |
| `Bitfields.DetailsEncodeDecode` | src/lib.rs:369-397 | re-encoding decoded bytes reproduces them with the reserved bits cleared and every other bit kept |
| `Bitfields.DetailsZero` | src/lib.rs:369-397 | `[0, 0, 0]` decodes to the zeroth variant of every field |
| `Scenarios.UnlockFails` | src/lib.rs:167 | a failed unlock sends only the unlock write and returns its error |
| `Scenarios.TargetWriteFails` | src/lib.rs:166-171 | a failed target write is followed by the lock write, and its error is returned when the lock write succeeds |
| `Scenarios.TargetAndLockFail` | src/lib.rs:168-170 | when the target and lock writes both fail, the lock write's error is returned |
| `Scenarios.ChginReadFails` | src/lib.rs:174 | a failed read in `set_chgin_ilim` sends no write and returns the read error |
| `Scenarios.ChginKeepsTopBits` | src/lib.rs:84-85 | reading 0xa5 and asking for 500 mA writes 0x89: the top bits of 0xa5 and code 9 |
| `Scenarios.StatusFromThirdByte` | src/lib.rs:129-134 | bytes `[0xff, 0xff, 0x90]` decode to just the `charger` and `adaptive_input_current_loop` flags |
| `Scenarios.DetailsAllZero` | src/lib.rs:137-141 | a details read returning three zero bytes yields the zeroth variant of every field |

## Left out

- `async`/`await`: every operation runs as plain sequential code, one bus transaction after another.
- The `embedded_hal_async::i2c::I2c` transport: this is foreign code. It is replaced by the abstract `Bus.I2c`, whose replies come from a script fixed at creation. Timing, retries inside the transport, and concurrent bus masters are not modelled.
- `Bus.I2c.WriteRead`: on an error the model leaves the buffer unchanged. The transport itself promises nothing about the buffer then. The driver never reads it on an error.
- Clear-on-read of the interrupt flags and the ship-mode precondition (no valid charger present): the device does these, and the code does not enforce them.
- The builder and accessor API that `modular_bitfield` generates (`new`, `with_*`, `set_*`, `*_or_err`): only the layout it produces is modelled.
- `EncodeDetails`: it writes the reserved bits as zero. A source `Details` value made by `from_bytes` keeps the raw bytes, reserved bits included. The driver never re-encodes a `Details`, and decoding ignores those bits.
- `Reg::new` and `Reg::to_u8`: `Reg` is a type alias of `bv8`, so both are the identity.
- `defmt` formatting and the derived `Debug`, `Hash`, `Ord`, `Clone` and `Default` traits.
- The physical meaning of the enumeration variants and of the register settings.
- Registers the driver never uses, such as `CHIP_ID`, the `TOP_*` registers and `I2C_CONFIG`: these are constants only.
