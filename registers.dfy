/** The register map of the MAX77975/MAX77976 charger and its fixed bus address. */
module Registers {

  /** A register address in the device's 8-bit register space. */
  type Reg = bv8

  /** The charger's fixed 7-bit device address on the two-wire bus. */
  const ADDR: bv8 := 0x6b

  const CHIP_ID: Reg := 0x00
  const CHIP_REVISION: Reg := 0x01
  const OTP_REVISION: Reg := 0x02
  const TOP_INTERRUPT: Reg := 0x03
  const TOP_INTERRUPT_MASK: Reg := 0x04
  const TOP_CONTROL: Reg := 0x05
  const SOFTWARE_RESET: Reg := 0x50
  const SHIP_MODE_CONTROL: Reg := 0x51
  const I2C_CONFIG: Reg := 0x40

  const CHARGER_INTERRUPT: Reg := 0x10
  const CHARGER_INTERRUPT_MASK: Reg := 0x11
  const CHARGER_INTERRUPT_STATUS: Reg := 0x12
  const CHARGER_DETAILS_0: Reg := 0x13
  const CHARGER_DETAILS_1: Reg := 0x14
  const CHARGER_DETAILS_2: Reg := 0x15
  const CHARGER_CONFIG_0: Reg := 0x16
  const CHARGER_CONFIG_1: Reg := 0x17
  const CHARGER_CONFIG_2: Reg := 0x18
  const CHARGER_CONFIG_3: Reg := 0x19
  const CHARGER_CONFIG_4: Reg := 0x1a
  const CHARGER_CONFIG_5: Reg := 0x1b
  const CHARGER_CONFIG_6: Reg := 0x1c
  const CHARGER_CONFIG_7: Reg := 0x1d
  const CHARGER_CONFIG_8: Reg := 0x1e
  const CHARGER_CONFIG_9: Reg := 0x1f
  const CHARGER_CONFIG_10: Reg := 0x20
  const CHARGER_CONFIG_11: Reg := 0x21
  const CHARGER_CONFIG_12: Reg := 0x22
  const CHARGER_CONFIG_13: Reg := 0x23
  const STATUS_LED_CONFIG: Reg := 0x24
}
