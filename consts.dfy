/** Package-wide constants of the HD44780 driver (consts.go). */
module Consts {

  /** Wait around each edge of the enable strobe, in microseconds. */
  const EPulse: nat := 1
  /** Settle wait after every nibble or byte transfer, in microseconds. */
  const EDelay: nat := 70

  /** Maximum characters per line; also the default line width of both drivers. */
  const LcdWidth: nat := 16
  /** Level of the register-select line for character (data) writes. */
  const LcdChr: bool := true
  /** Level of the register-select line for instruction writes. */
  const LcdCmd: bool := false

  /** DDRAM start address of the first line, as a Set-DDRAM-address instruction. */
  const LcdLine1: bv8 := 0x80
  /** DDRAM start address of the second line, as a Set-DDRAM-address instruction. */
  const LcdLine2: bv8 := 0xC0

  /** The register-select level alone tells data from instructions. */
  lemma ModeFlagsDiffer()
    ensures LcdChr != LcdCmd
    ensures LcdChr && !LcdCmd
  {}

  /** Both line constants carry bit 7 (Set DDRAM address) and sit 0x40 apart,
      the DDRAM offset of the second line of the controller. */
  lemma LineAddressesAreDdramCommands()
    ensures LcdLine1 & 0x80 == 0x80 && LcdLine2 & 0x80 == 0x80
    ensures (LcdLine1 & 0x7F) as int == 0x00 && (LcdLine2 & 0x7F) as int == 0x40
    ensures LcdLine2 as int - LcdLine1 as int == 0x40
  {}

  /** The settle wait after a transfer is strictly longer than each strobe wait. */
  lemma SettleOutlastsPulse()
    ensures 0 < EPulse < EDelay
  {}
}
