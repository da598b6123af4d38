/** The version records the session object reads from the driver: the SDK
    version as four numbers, and the firmware version decoded from the first
    two bytes of the buffer the camera fills. */
module Versions {
  import opened Types

  /** `ymds` of `query_sdk_version`: year (two digits after "20"), month,
      day and sub-day build number, as the driver reports them. */
  datatype SdkVersion = SdkVersion(year: uint32, month: uint32, day: uint32, subday: uint32)

  /** `yr1`, `yr2` and `fwv[1]` of `query_firmware_version`, shown as
      `20{year}_{month}_{day}`. */
  datatype FirmwareVersion = FirmwareVersion(year: nat, month: nat, day: nat)

  /** The firmware year, month and day packed in two bytes: the high nibble
      of `fwv0` is the year modulo 16 (a nibble below 10 stands for 16..25),
      the low nibble the month, and `fwv1` the day. */
  function DecodeFirmware(fwv0: byte, fwv1: byte): (v: FirmwareVersion)
    ensures 10 <= v.year <= 25
    ensures v.month < 16
    ensures v.day == fwv1 as int
    ensures fwv0 as int == 16 * (v.year % 16) + v.month
  {
    NibbleValues(fwv0);
    var high := (fwv0 >> 4) as int;
    var year := if high < 10 then high + 0x10 else high;
    var month := (fwv0 & !0xf0) as int;
    FirmwareVersion(year, month, fwv1 as int)
  }

  /** The two bit operations that split the byte, as arithmetic: shifting
      right by four divides by 16, masking with `~0xf0` keeps the remainder. */
  lemma NibbleValues(b: byte)
    ensures (b >> 4) as int == b as int / 16
    ensures (b & !0xf0) as int == b as int % 16
  {
  }

  /** Decoding loses nothing: two byte pairs with the same version are
      the same bytes. */
  lemma DecodeFirmwareInjective(a0: byte, a1: byte, b0: byte, b1: byte)
    requires DecodeFirmware(a0, a1) == DecodeFirmware(b0, b1)
    ensures a0 == b0 && a1 == b1
  {
    var v := DecodeFirmware(a0, a1);
    assert a0 as int == 16 * (v.year % 16) + v.month == b0 as int;
    assert a1 as int == v.day == b1 as int;
  }

  /** The year is the high nibble itself from 0xA up, and the nibble plus
      0x10 below it; the month is the low nibble. */
  lemma FirmwareNibbles(fwv0: byte, fwv1: byte)
    ensures DecodeFirmware(fwv0, fwv1).year == if fwv0 as int / 16 < 10 then fwv0 as int / 16 + 0x10 else fwv0 as int / 16
    ensures DecodeFirmware(fwv0, fwv1).month == fwv0 as int % 16
  {
    var v := DecodeFirmware(fwv0, fwv1);
    assert fwv0 as int / 16 == v.year % 16;
  }

  /** A high nibble of 0 is the year 16 (shifted by 0x10); the month is the
      low nibble. */
  lemma FirmwareYearShifted()
    ensures DecodeFirmware(0x09, 0x1C) == FirmwareVersion(16, 9, 28)
  {
  }

  /** A high nibble of 0xB is at least 10 and is the year 11 unshifted. */
  lemma FirmwareYearUnshifted()
    ensures DecodeFirmware(0xB3, 0x05) == FirmwareVersion(11, 3, 5)
  {
  }
}
