/**
 * Calibration arithmetic of the U3: turning raw converter codes into volts and
 * kelvin, and volts into DAC codes, with the 20 constants read from the device.
 *
 * Values are reals, not IEEE doubles. A C conversion of a non-negative double to
 * an unsigned integer keeps the integer part, which is `Floor` here.
 */
module Calibration {
  import opened Bytes
  import opened Outcomes

  /** The calibration constants, indexed 0..19 as the source indexes them. */
  type Constants = s: seq<real> | |s| == 20 witness seq(20, _ => 0.0)

  /** u3CalibrationInfo: product ID, hardware version, the U3-HV flag and the constants. */
  datatype CalibrationInfo = CalibrationInfo(prodID: byte, hardwareVersion: real, highVoltage: bool, ccConstants: Constants)

  /** U3_CALIBRATION_INFO_DEFAULT: the nominal record of a U3 with hardware 1.31 and no high-voltage inputs. */
  const DefaultCalibrationInfo: CalibrationInfo :=
    CalibrationInfo(3, 1.31, false,
      [0.000037231, 0.0, 0.000074463, -2.44, 51.717, 0.0, 51.717, 0.0, 0.013021, 2.44,
       3.66, 3.3, 0.000314, 0.000314, 0.000314, 0.000314, -10.3, -10.3, -10.3, -10.3])

  /** isCalibrationInfoValid: a record is usable only if it came from a U3 (product ID 3). */
  predicate IsCalibrationInfoValid(c: CalibrationInfo)
  {
    c.prodID == 3
  }

  /** The hardware-version test the conversions branch on. */
  predicate IsHw130(c: CalibrationInfo)
  {
    c.hardwareVersion >= 1.30
  }

  /** Division as the model takes it: a zero divisor yields 0 (the source's double division would give an infinity or NaN). */
  function Quotient(x: real, y: real): real
  {
    if y == 0.0 then 0.0 else x / y
  }

  // ---------------------------------------------------------------- analog inputs

  /** The negative channels getAinVoltCalibrated_hw130 converts for a given positive channel and U3-HV flag. */
  predicate Hw130ChannelsAccepted(highVoltage: bool, positiveChannel: byte, negChannel: byte)
  {
    ((negChannel <= 15 || negChannel == 30) && (!highVoltage || (positiveChannel >= 4 && negChannel >= 4)))
    || negChannel == 31 || negChannel == 32
  }

  /**
   * getAinVoltCalibrated_hw130: the voltage of a reading on hardware 1.30 or later.
   * Negative channel 0..15 or 30 is a differential or single-ended reading on the
   * low-voltage constants 2 and 3; 31 is single-ended, on the per-channel HV
   * constants 12+p and 16+p for the high-voltage inputs 0..3 of a U3-HV, else on
   * constants 0 and 1; 32 is the special range: the differential reading shifted by
   * constant 9, then scaled to the HV input's range on a U3-HV.
   */
  function AinVoltCalibratedHw130(c: CalibrationInfo, positiveChannel: byte, negChannel: byte, bytesVolt: uint16): (r: Outcome<real>)
    ensures r.Failed? ==> r.code == -1
    ensures r.Done? <==> IsCalibrationInfoValid(c) && IsHw130(c) && Hw130ChannelsAccepted(c.highVoltage, positiveChannel, negChannel)
  {
    var cc := c.ccConstants;
    var b := bytesVolt as real;
    if !IsCalibrationInfoValid(c) then Failed(-1)
    else if !IsHw130(c) then Failed(-1)
    else if negChannel <= 15 || negChannel == 30 then
      if !c.highVoltage || (c.highVoltage && positiveChannel >= 4 && negChannel >= 4) then Done(cc[2] * b + cc[3])
      else Failed(-1)
    else if negChannel == 31 then
      if c.highVoltage && positiveChannel < 4 then Done(cc[12 + positiveChannel] * b + cc[16 + positiveChannel])
      else Done(cc[0] * b + cc[1])
    else if negChannel == 32 then
      if c.highVoltage && positiveChannel < 4 then
        Done(Quotient((cc[2] * b + cc[3] + cc[9]) * cc[12 + positiveChannel], cc[0]) + cc[16 + positiveChannel])
      else Done(cc[2] * b + cc[3] + cc[9])
    else Failed(-1)
  }

  /**
   * getAinVoltCalibrated: the voltage of a reading. Hardware 1.30 or later is
   * delegated to the hw130 conversion with positive channel 0 (a U3-HV is refused);
   * before 1.30 the reading is on constants 2 and 3 (negative channel 0..15 or 30)
   * or 0 and 1 (31), or, with DAC1 enabled as the reference, on constant 11.
   */
  function AinVoltCalibrated(c: CalibrationInfo, dacEnabled: int, negChannel: byte, bytesVolt: uint16): (r: Outcome<real>)
    ensures r.Failed? ==> r.code == -1
    ensures r.Done? <==> IsCalibrationInfoValid(c) &&
                         (if IsHw130(c) then !c.highVoltage && (negChannel <= 15 || 30 <= negChannel <= 32)
                          else negChannel <= 15 || negChannel == 30 || negChannel == 31)
  {
    var cc := c.ccConstants;
    var b := bytesVolt as real;
    if !IsCalibrationInfoValid(c) then Failed(-1)
    else if IsHw130(c) then
      if c.highVoltage then Failed(-1) else AinVoltCalibratedHw130(c, 0, negChannel, bytesVolt)
    else if negChannel <= 15 || negChannel == 30 then
      if dacEnabled == 0 then Done(cc[2] * b + cc[3])
      else Done((b / 65536.0) * cc[11] * 2.0 - cc[11])
    else if negChannel == 31 then
      if dacEnabled == 0 then Done(cc[0] * b + cc[1])
      else Done((b / 65536.0) * cc[11])
    else Failed(-1)
  }

  /**
   * Where each reading range sits on the constants, before hardware 1.30 and with
   * DAC1 not the reference: a reading of 0 on negative channel 31 is constant 1 and
   * each count adds constant 0; on negative channel 0..15 or 30 a reading of 0 is
   * constant 3 and each count adds constant 2.
   */
  lemma AinVoltConstantsBefore130(c: CalibrationInfo, negChannel: byte, bytesVolt: uint16)
    requires IsCalibrationInfoValid(c) && !IsHw130(c) && bytesVolt < 0xFFFF
    ensures AinVoltCalibrated(c, 0, 31, 0).value == c.ccConstants[1]
    ensures AinVoltCalibrated(c, 0, 31, bytesVolt + 1).value == AinVoltCalibrated(c, 0, 31, bytesVolt).value + c.ccConstants[0]
    ensures negChannel <= 15 || negChannel == 30 ==>
      AinVoltCalibrated(c, 0, negChannel, 0).value == c.ccConstants[3] &&
      AinVoltCalibrated(c, 0, negChannel, bytesVolt + 1).value == AinVoltCalibrated(c, 0, negChannel, bytesVolt).value + c.ccConstants[2]
  {
  }

  /**
   * The same anchors from hardware 1.30, and the U3-HV's own constants: on a
   * high-voltage input p (0..3), a single-ended reading of 0 is constant 16+p and
   * each count adds constant 12+p.
   */
  lemma AinVoltConstantsHw130(c: CalibrationInfo, p: byte, bytesVolt: uint16)
    requires IsCalibrationInfoValid(c) && IsHw130(c) && bytesVolt < 0xFFFF
    ensures !c.highVoltage ==>
      AinVoltCalibratedHw130(c, p, 31, 0).value == c.ccConstants[1] &&
      AinVoltCalibratedHw130(c, p, 31, bytesVolt + 1).value == AinVoltCalibratedHw130(c, p, 31, bytesVolt).value + c.ccConstants[0] &&
      AinVoltCalibratedHw130(c, p, 30, 0).value == c.ccConstants[3] &&
      AinVoltCalibratedHw130(c, p, 30, bytesVolt + 1).value == AinVoltCalibratedHw130(c, p, 30, bytesVolt).value + c.ccConstants[2]
    ensures c.highVoltage && p < 4 ==>
      AinVoltCalibratedHw130(c, p, 31, 0).value == c.ccConstants[16 + p] &&
      AinVoltCalibratedHw130(c, p, 31, bytesVolt + 1).value == AinVoltCalibratedHw130(c, p, 31, bytesVolt).value + c.ccConstants[12 + p]
  {
  }

  /** Without high-voltage inputs, the hw130 conversion does not depend on the positive channel. */
  lemma LowVoltageIgnoresPositiveChannel(c: CalibrationInfo, p: byte, q: byte, negChannel: byte, bytesVolt: uint16)
    requires !c.highVoltage
    ensures AinVoltCalibratedHw130(c, p, negChannel, bytesVolt) == AinVoltCalibratedHw130(c, q, negChannel, bytesVolt)
  {
  }

  /**
   * The special range (negative channel 32) reads the same code as negative
   * channel 30 and adds constant 9, except on the high-voltage inputs of a U3-HV.
   */
  lemma SpecialRangeShiftsByOffset(c: CalibrationInfo, p: byte, bytesVolt: uint16)
    requires IsCalibrationInfoValid(c) && IsHw130(c) && !(c.highVoltage && p < 4)
    ensures AinVoltCalibratedHw130(c, p, 32, bytesVolt).Done?
    ensures AinVoltCalibratedHw130(c, p, 30, bytesVolt).Done?
    ensures AinVoltCalibratedHw130(c, p, 32, bytesVolt).value
         == AinVoltCalibratedHw130(c, p, 30, bytesVolt).value + c.ccConstants[9]
  {
  }

  /**
   * On a U3-HV high-voltage input, the special range is the low-voltage special
   * range rescaled by the input's gain relative to constant 0 and shifted by its offset.
   */
  lemma HighVoltageSpecialRangeRescales(c: CalibrationInfo, p: byte, q: byte, bytesVolt: uint16)
    requires IsCalibrationInfoValid(c) && IsHw130(c) && c.highVoltage && p < 4 && 4 <= q
    requires c.ccConstants[0] != 0.0
    ensures AinVoltCalibratedHw130(c, p, 32, bytesVolt).value
         == AinVoltCalibratedHw130(c, q, 32, bytesVolt).value * c.ccConstants[12 + p] / c.ccConstants[0] + c.ccConstants[16 + p]
  {
  }

  /**
   * Without DAC1 as the reference, both hardware generations of a low-voltage U3
   * convert the accepted channels (0..15, 30, 31) with the same constants: the
   * version only adds the special range 32.
   */
  lemma VersionOnlyAddsSpecialRange(c: CalibrationInfo, before: real, after: real, negChannel: byte, bytesVolt: uint16)
    requires IsCalibrationInfoValid(c) && !c.highVoltage && before < 1.30 <= after
    requires negChannel <= 15 || negChannel == 30 || negChannel == 31
    ensures AinVoltCalibrated(c.(hardwareVersion := before), 0, negChannel, bytesVolt)
         == AinVoltCalibrated(c.(hardwareVersion := after), 0, negChannel, bytesVolt)
  {
    var early, late := c.(hardwareVersion := before), c.(hardwareVersion := after);
    assert IsCalibrationInfoValid(early) && !IsHw130(early) && early.ccConstants == c.ccConstants;
    assert IsCalibrationInfoValid(late) && IsHw130(late) && late.ccConstants == c.ccConstants;
    var x := AinVoltCalibrated(early, 0, negChannel, bytesVolt);
    var y := AinVoltCalibrated(late, 0, negChannel, bytesVolt);
    assert x.Done? && y.Done?;
    var b := bytesVolt as real;
    if negChannel == 31 {
      assert x.value == early.ccConstants[0] * b + early.ccConstants[1];
      assert y.value == late.ccConstants[0] * b + late.ccConstants[1];
      assert early.ccConstants[0] == late.ccConstants[0] && early.ccConstants[1] == late.ccConstants[1];
      assert x.value == y.value;
      assert x == y;
    } else {
      assert x.value == early.ccConstants[2] * b + early.ccConstants[3];
      assert y.value == late.ccConstants[2] * b + late.ccConstants[3];
      assert early.ccConstants[2] == late.ccConstants[2] && early.ccConstants[3] == late.ccConstants[3];
    }
  }

  /**
   * With DAC1 as the reference before hardware 1.30, a differential reading spans
   * [-constant 11, +constant 11] symmetrically about mid-scale 32768.
   */
  lemma DacReferenceRangeSymmetric(c: CalibrationInfo, dacEnabled: int, negChannel: byte, k: nat)
    requires IsCalibrationInfoValid(c) && !IsHw130(c) && dacEnabled != 0 && k <= 32767
    requires negChannel <= 15 || negChannel == 30
    ensures AinVoltCalibrated(c, dacEnabled, negChannel, 32768 + k).value
         == -AinVoltCalibrated(c, dacEnabled, negChannel, 32768 - k).value
    ensures AinVoltCalibrated(c, dacEnabled, negChannel, 0).value == -c.ccConstants[11]
  {
    var r := c.ccConstants[11];
    var x := k as real / 65536.0;
    assert ((32768 + k) as real / 65536.0) * r * 2.0 - r == (0.5 + x) * r * 2.0 - r == 2.0 * x * r;
    assert ((32768 - k) as real / 65536.0) * r * 2.0 - r == (0.5 - x) * r * 2.0 - r == -2.0 * x * r;
  }

  /** getTempKCalibrated: the internal temperature sensor's reading times constant 8, in kelvin. */
  function TempKCalibrated(c: CalibrationInfo, bytesTemp: uint32): (r: Outcome<real>)
    ensures r.Failed? <==> !IsCalibrationInfoValid(c)
    ensures r.Failed? ==> r.code == -1
  {
    if !IsCalibrationInfoValid(c) then Failed(-1) else Done(c.ccConstants[8] * bytesTemp as real)
  }

  /** The temperature scale is linear through zero with slope constant 8: a reading of 0 is 0 K, 1 is constant 8 kelvin, and readings add. */
  lemma TempKLinear(c: CalibrationInfo, b1: uint32, b2: uint32)
    requires IsCalibrationInfoValid(c) && b1 + b2 < 0x1_0000_0000
    ensures TempKCalibrated(c, 0).value == 0.0
    ensures TempKCalibrated(c, 1).value == c.ccConstants[8]
    ensures TempKCalibrated(c, b1 + b2).value == TempKCalibrated(c, b1).value + TempKCalibrated(c, b2).value
  {
  }

  // ---------------------------------------------------------------- fixed point

  /** C's `(int)` of a uint32 on a two's-complement machine. */
  function ToInt32(x: uint32): (r: int)
    ensures -0x8000_0000 <= r < 0x8000_0000
    ensures r % 0x1_0000_0000 == x
  {
    if x < 0x8000_0000 then x else x - 0x1_0000_0000
  }

  /**
   * FPuint8ArrayToFPDouble: the 32.32 fixed-point number at `startIndex`: a
   * little-endian unsigned fraction in bytes 0..3, then a little-endian signed whole
   * part in bytes 4..7.
   */
  function FixedPointToReal(buffer: seq<byte>, startIndex: nat): (r: real)
    requires startIndex + 8 <= |buffer|
    ensures r.Floor == ToInt32(LittleEndian32(buffer[startIndex + 4..startIndex + 8]))
    ensures -2147483648.0 <= r < 2147483648.0
  {
    var resultDec := LittleEndian32(buffer[startIndex..startIndex + 4]);
    var resultWh := LittleEndian32(buffer[startIndex + 4..startIndex + 8]);
    ToInt32(resultWh) as real + (resultDec as real) / 4294967296.0
  }

  /** The 8 bytes of a 32.32 fixed-point number: the fraction's 4 bytes, then the whole part's, least significant first. */
  function FixedPointBytes(whole: int, fraction: uint32): (s: seq<byte>)
    requires -0x8000_0000 <= whole < 0x8000_0000
    ensures |s| == 8
  {
    LittleEndianBytes32(fraction) + LittleEndianBytes32(whole % 0x1_0000_0000)
  }

  /** Decoding the bytes of a fixed-point number gives its whole part plus fraction/2^32. */
  lemma FixedPointRoundTrip(whole: int, fraction: uint32)
    requires -0x8000_0000 <= whole < 0x8000_0000
    ensures FixedPointToReal(FixedPointBytes(whole, fraction), 0) == whole as real + fraction as real / 4294967296.0
  {
    var s := FixedPointBytes(whole, fraction);
    assert s[0..4] == LittleEndianBytes32(fraction);
    assert s[4..8] == LittleEndianBytes32(whole % 0x1_0000_0000);
    LittleEndianRoundTrip(fraction);
    LittleEndianRoundTrip(whole % 0x1_0000_0000);
  }

  // ---------------------------------------------------------------- DAC outputs

  /** The DAC code the constants call for: `analogVolt` times slope constant 4+2d plus offset constant 5+2d. */
  function DacIdealCode(c: CalibrationInfo, dacNumber: int, analogVolt: real): real
    requires 0 <= dacNumber <= 2
  {
    analogVolt * c.ccConstants[4 + dacNumber * 2] + c.ccConstants[5 + dacNumber * 2]
  }

  /** The code a DAC of `max` steps gets for the ideal value `t`: 0 below range, `max` above, else the integer part. */
  function ClampFloor(t: real, max: nat): (code: nat)
    ensures code <= max
    ensures t < 0.0 ==> code == 0
    ensures t > max as real ==> code == max
    ensures 0.0 <= t <= max as real ==> code as real <= t < code as real + 1.0
  {
    if t < 0.0 then 0 else if t > max as real then max else t.Floor
  }

  /**
   * getDacBinVoltCalibrated8Bit as written: the integer part of the ideal code after
   * its clamps, which bound it above only before hardware 1.30. The source then
   * stores this value in a uint8, which cannot hold values above 255.
   */
  function DacBinVoltCalibrated8BitAsWritten(c: CalibrationInfo, dacNumber: int, analogVolt: real): (r: Outcome<int>)
    ensures r.Failed? <==> !IsCalibrationInfoValid(c) || dacNumber < 0 || dacNumber > 2
    ensures r.Done? ==> r.value >= 0
    ensures r.Done? && !IsHw130(c) ==> r.value <= 255
  {
    if !IsCalibrationInfoValid(c) then Failed(-1)
    else if dacNumber < 0 || dacNumber > 2 then Failed(-1)
    else
      var tBytesVolt := DacIdealCode(c, dacNumber, analogVolt);
      var clamped := if tBytesVolt < 0.0 then 0.0
                     else if tBytesVolt > 255.0 && !IsHw130(c) then 255.0
                     else tBytesVolt;
      Done(clamped.Floor)
  }

  /** With the default constants (hardware 1.31), 5 V on DAC0 gives 258: too large for the 8-bit code. */
  lemma DacBinVolt8BitOverflows()
    ensures DacBinVoltCalibrated8BitAsWritten(DefaultCalibrationInfo, 0, 5.0) == Done(258)
  {
    var t := DacIdealCode(DefaultCalibrationInfo, 0, 5.0);
    assert t == 258.585;
  }

  /**
   * getDacBinVoltCalibrated8Bit, with the clamp at 255 applied on every hardware
   * version: -1 for an invalid record or a DAC number outside 0..2, otherwise the
   * ideal code clamped to the 8-bit range.
   */
  function DacBinVoltCalibrated8Bit(c: CalibrationInfo, dacNumber: int, analogVolt: real): (r: Outcome<byte>)
    ensures r.Failed? <==> !IsCalibrationInfoValid(c) || dacNumber < 0 || dacNumber > 2
    ensures r.Failed? ==> r.code == -1
    ensures r.Done? ==> r.value == ClampFloor(DacIdealCode(c, dacNumber, analogVolt), 255)
  {
    if !IsCalibrationInfoValid(c) then Failed(-1)
    else if dacNumber < 0 || dacNumber > 2 then Failed(-1)
    else
      var tBytesVolt := DacIdealCode(c, dacNumber, analogVolt);
      var clamped := if tBytesVolt < 0.0 then 0.0 else if tBytesVolt > 255.0 then 255.0 else tBytesVolt;
      Done(clamped.Floor)
  }

  /** Before hardware 1.30, where the source does clamp, the corrected 8-bit conversion is the source's. */
  lemma DacBinVolt8BitAgreesBefore130(c: CalibrationInfo, dacNumber: int, analogVolt: real)
    requires !IsHw130(c)
    ensures DacBinVoltCalibrated8BitAsWritten(c, dacNumber, analogVolt) == match DacBinVoltCalibrated8Bit(c, dacNumber, analogVolt)
      case Done(code) => Done(code as int)
      case Failed(e) => Failed(e)
  {
  }

  /**
   * getDacBinVoltCalibrated16Bit: -1 for an invalid record or a DAC number outside
   * 0..2; otherwise the ideal code (times 256 from hardware 1.30 on) clamped to the
   * DAC's range, [0, 65535] from hardware 1.30 on and [0, 255] before.
   */
  function DacBinVoltCalibrated16Bit(c: CalibrationInfo, dacNumber: int, analogVolt: real): (r: Outcome<uint16>)
    ensures r.Failed? <==> !IsCalibrationInfoValid(c) || dacNumber < 0 || dacNumber > 2
    ensures r.Failed? ==> r.code == -1
    ensures r.Done? ==> r.value == if IsHw130(c) then ClampFloor(256.0 * DacIdealCode(c, dacNumber, analogVolt), 65535)
                                   else ClampFloor(DacIdealCode(c, dacNumber, analogVolt), 255)
  {
    if !IsCalibrationInfoValid(c) then Failed(-1)
    else if dacNumber < 0 || dacNumber > 2 then Failed(-1)
    else
      var cc := c.ccConstants;
      var tBytesVolt := if !IsHw130(c) then analogVolt * cc[4 + dacNumber * 2] + cc[5 + dacNumber * 2]
                        else analogVolt * cc[4 + dacNumber * 2] * 256.0 + cc[5 + dacNumber * 2] * 256.0;
      assert tBytesVolt == if IsHw130(c) then 256.0 * DacIdealCode(c, dacNumber, analogVolt) else DacIdealCode(c, dacNumber, analogVolt);
      var low := if tBytesVolt < 0.0 then 0.0 else tBytesVolt;
      var clamped := if low > 65535.0 && IsHw130(c) then 65535.0
                     else if low > 255.0 && !IsHw130(c) then 255.0
                     else low;
      Done(clamped.Floor)
  }

  /**
   * From hardware 1.30 on, the high byte of the 16-bit DAC code is the (clamped)
   * 8-bit code for the same voltage, for every voltage.
   */
  lemma {:induction false} Dac16HighByteIs8BitCode(c: CalibrationInfo, dacNumber: int, analogVolt: real)
    requires IsCalibrationInfoValid(c) && IsHw130(c) && 0 <= dacNumber <= 2
    ensures DacBinVoltCalibrated16Bit(c, dacNumber, analogVolt).value / 256
         == DacBinVoltCalibrated8Bit(c, dacNumber, analogVolt).value
  {
    var t := DacIdealCode(c, dacNumber, analogVolt);
    var code16 := DacBinVoltCalibrated16Bit(c, dacNumber, analogVolt).value;
    var code8 := DacBinVoltCalibrated8Bit(c, dacNumber, analogVolt).value;
    if t < 0.0 {
      assert code16 == 0 && code8 == 0;
    } else if t > 255.0 {
      assert code8 == 255;
      assert 256.0 * t > 65280.0;
      assert code16 >= 65280;
    } else {
      var f := t.Floor;
      assert code8 == f;
      assert 256.0 * (f as real) <= 256.0 * t < 256.0 * (f as real) + 256.0;
      assert 256 * f <= code16 < 256 * f + 256;
    }
  }

  /** A higher voltage never gives a lower 16-bit code on a DAC whose slope constant is not negative. */
  lemma {:induction false} Dac16Monotone(c: CalibrationInfo, dacNumber: int, v1: real, v2: real)
    requires IsCalibrationInfoValid(c) && 0 <= dacNumber <= 2 && v1 <= v2
    requires c.ccConstants[4 + dacNumber * 2] >= 0.0
    ensures DacBinVoltCalibrated16Bit(c, dacNumber, v1).value <= DacBinVoltCalibrated16Bit(c, dacNumber, v2).value
  {
    var s := c.ccConstants[4 + dacNumber * 2];
    assert v1 * s <= v2 * s;
    var t1, t2 := DacIdealCode(c, dacNumber, v1), DacIdealCode(c, dacNumber, v2);
    assert t1 <= t2;
    assert 256.0 * t1 <= 256.0 * t2;
  }
}
