/**
 * eAIN and eDAC: one analog reading and one DAC update, each a short run of
 * ConfigIO and Feedback exchanges followed or preceded by the calibration
 * arithmetic.
 *
 * eAIN checks the calibration record and the channel pair, optionally makes the
 * two lines analog (read the masks, OR in the channels' bits when they differ,
 * write them back), reads the converter with one Feedback exchange and converts
 * the 16-bit code. eDAC optionally enables DAC1 (hardware before 1.30), converts
 * the voltage to an 8-bit or 16-bit code and sends it with one Feedback exchange.
 */
module AnalogIO {
  import opened Bytes
  import opened Outcomes
  import opened Transport
  import opened Commands
  import opened Bits
  import opened Sessions
  import opened Calibration

  // ---------------------------------------------------------------- eAIN channels

  /** eAIN's checks of the positive and negative channel. */
  predicate AinChannelsAccepted(c: CalibrationInfo, channelP: int, channelN: int)
  {
    0 <= channelP && (channelP <= 15 || channelP == 30 || channelP == 31) &&
    0 <= channelN && (channelN <= 15 || channelN == 30 || channelN == 31 || channelN == 32) &&
    !(IsHw130(c) && c.highVoltage && ((channelP < 4 && channelN != 31 && channelN != 32) || channelN < 4))
  }

  /** The negative channel eAIN sends: the special range 32 goes out as 30. */
  function WireNegChannel(channelN: int): int
  {
    if channelN == 32 then 30 else channelN
  }

  /**
   * From hardware 1.30 on, eAIN's channel checks accept exactly the pairs the
   * hw130 conversion converts: eAIN refuses up front what it could not convert.
   */
  lemma AinChecksMatchHw130Conversion(c: CalibrationInfo, channelP: byte, channelN: byte)
    requires IsHw130(c)
    requires channelP <= 15 || channelP == 30 || channelP == 31
    requires channelN <= 15 || channelN == 30 || channelN == 31 || channelN == 32
    ensures AinChannelsAccepted(c, channelP, channelN) <==> Hw130ChannelsAccepted(c.highVoltage, channelP, channelN)
  {
  }

  // ---------------------------------------------------------------- eAIN configuration step

  /** Whether eAIN configures the lines: only with ConfigIO requested, and never for the high-voltage inputs 0..3 of a U3-HV (hardware 1.30 on). */
  predicate AinSetupApplies(c: CalibrationInfo, configIO: int, channelP: int)
  {
    configIO != 0 && !(IsHw130(c) && c.highVoltage && channelP < 4)
  }

  /** The masks eAIN wants: the bits pow(2, k) of the positive and (when it is a line) negative channel. */
  function AnalogMasks(channelP: nat, channelN: nat): LineMasks
  {
    var start := PositiveMasks(channelP);
    if channelN <= 7 then LineMasks(Or(start.fio, Bit(channelN)), start.eio)
    else if channelN <= 15 then LineMasks(start.fio, Or(start.eio, Bit(channelN - 8)))
    else start
  }

  /** The masks with only the positive channel's bit, as eAIN first sets them. */
  function PositiveMasks(channelP: nat): LineMasks
  {
    LineMasks(if channelP <= 7 then Bit(channelP) else 0, if 8 <= channelP <= 15 then Bit(channelP - 8) else 0)
  }

  /** The positive channel's masks make exactly that channel analog. */
  lemma PositiveMasksLines(channelP: nat, line: nat)
    requires line < 16
    ensures IsAnalog(PositiveMasks(channelP), line) == (line == channelP)
  {
    var j := if line < 8 then line else line - 8;
    if (line < 8 && channelP <= 7) || (line >= 8 && 8 <= channelP <= 15) {
      PowerBit(if channelP <= 7 then channelP else channelP - 8, j);
    } else {
      ZeroBits(j);
    }
  }

  /** The wanted masks make exactly the two channels analog. */
  lemma AnalogMasksLines(channelP: nat, channelN: nat, line: nat)
    requires line < 16
    ensures IsAnalog(AnalogMasks(channelP, channelN), line) == (line == channelP || line == channelN)
  {
    var start := PositiveMasks(channelP);
    PositiveMasksLines(channelP, line);
    assert AnalogMasks(channelP, channelN) ==
      if channelN <= 7 then LineMasks(Or(start.fio, Bit(channelN)), start.eio)
      else if channelN <= 15 then LineMasks(start.fio, Or(start.eio, Bit(channelN - 8)))
      else start;
    if channelN <= 7 && line < 8 {
      OrBit(start.fio, Bit(channelN), 8, line);
      PowerBit(channelN, line);
    } else if 8 <= channelN <= 15 && line >= 8 {
      OrBit(start.eio, Bit(channelN - 8), 8, line - 8);
      PowerBit(channelN - 8, line - 8);
    }
  }

  /** The masks eAIN leaves in force: the current ones, ORed with the wanted ones when they differ. */
  function AnalogMasksAfter(channelP: nat, channelN: nat, current: LineMasks): LineMasks
  {
    if AnalogMasks(channelP, channelN) == current then current else OrMasks(AnalogMasks(channelP, channelN), current)
  }

  /** After the configuration step both channels are analog and every other line keeps its setting. */
  lemma AnalogMasksAfterSetsOnlyChannels(channelP: nat, channelN: nat, current: LineMasks, line: nat)
    requires line < 16
    ensures IsAnalog(AnalogMasksAfter(channelP, channelN, current), line)
         == (line == channelP || line == channelN || IsAnalog(current, line))
  {
    AnalogMasksLines(channelP, channelN, line);
    OrMasksLine(AnalogMasks(channelP, channelN), current, line);
  }

  /**
   * eAIN's configuration step: read the masks with ConfigIO and, when they differ
   * from AnalogMasks, write them with the channels' bits ORed in, keeping the
   * timer/counter configuration (write mask 12: FIO and EIO analog).
   */
  function AnalogLineSetup(channelP: nat, channelN: nat, d: Responder): (r: Session)
    ensures |r.frames| >= 1 && r.frames[0] == ConfigIOFrame(0, 0, 0, 0, 0)
  {
    var read := WithConfigIO(Idle(d), 0, 0, 0, 0, 0);
    var cur := ConfigIOReplyAt(d);
    if cur.Failed? || AnalogMasks(channelP, channelN) == MasksOf(cur.value) then read
    else
      var m := AnalogMasksAfter(channelP, channelN, MasksOf(cur.value));
      WithConfigIO(read, 12, cur.value.timerCounterConfig, 0, m.fio, m.eio)
  }

  /**
   * The setup writes (a second frame) exactly when the read succeeded and the
   * masks differ from AnalogMasks; when the masks already match it reports
   * success after the read alone.
   */
  lemma AnalogSetupWritesOnlyOnChange(channelP: nat, channelN: nat, d: Responder)
    ensures var s := AnalogLineSetup(channelP, channelN, d);
      var cur := ConfigIOReplyAt(d);
      (|s.frames| == 2 <==> cur.Done? && AnalogMasks(channelP, channelN) != MasksOf(cur.value)) &&
      (cur.Done? && AnalogMasks(channelP, channelN) == MasksOf(cur.value) ==> s.status == 0 && |s.frames| == 1)
  {
    var read := WithConfigIO(Idle(d), 0, 0, 0, 0, 0);
    assert |read.frames| == 1;
  }

  /** When the setup writes, the frame it sends makes both channels analog and keeps every other line and the timer configuration. */
  lemma AnalogSetupWritesChannels(channelP: nat, channelN: nat, d: Responder, line: nat)
    requires line < 16
    requires |AnalogLineSetup(channelP, channelN, d).frames| == 2
    ensures var cur := ConfigIOReplyAt(d).value;
      var f := AnalogLineSetup(channelP, channelN, d).frames[1];
      var written := MasksOf(ConfigIOSettings(f[8], f[9], f[10], f[11]));
      f[6] == 12 && f[8] == cur.timerCounterConfig &&
      IsAnalog(written, line) == (line == channelP || line == channelN || IsAnalog(MasksOf(cur), line))
  {
    AnalogSetupSecondFrame(channelP, channelN, d);
    AnalogWriteFrameLines(channelP, channelN, ConfigIOReplyAt(d).value, line);
  }

  /** A setup that sends two frames read masks the device answered, and wrote them back with the channels' bits set. */
  lemma AnalogSetupSecondFrame(channelP: nat, channelN: nat, d: Responder)
    requires |AnalogLineSetup(channelP, channelN, d).frames| == 2
    ensures ConfigIOReplyAt(d).Done?
    ensures var cur := ConfigIOReplyAt(d).value;
      var m := AnalogMasksAfter(channelP, channelN, MasksOf(cur));
      AnalogLineSetup(channelP, channelN, d).frames[1] == ConfigIOFrame(12, cur.timerCounterConfig, 0, m.fio, m.eio)
  {
    var read := WithConfigIO(Idle(d), 0, 0, 0, 0, 0);
    assert |read.frames| == 1;
  }

  /** The write frame of the setup makes both channels analog and keeps every other line and the timer configuration. */
  lemma AnalogWriteFrameLines(channelP: nat, channelN: nat, cur: ConfigIOSettings, line: nat)
    requires line < 16
    ensures var m := AnalogMasksAfter(channelP, channelN, MasksOf(cur));
      var f := ConfigIOFrame(12, cur.timerCounterConfig, 0, m.fio, m.eio);
      f[6] == 12 && f[8] == cur.timerCounterConfig &&
      IsAnalog(MasksOf(ConfigIOSettings(f[8], f[9], f[10], f[11])), line)
        == (line == channelP || line == channelN || IsAnalog(MasksOf(cur), line))
  {
    var m := AnalogMasksAfter(channelP, channelN, MasksOf(cur));
    ConfigIOFrameCarriesMasks(12, cur.timerCounterConfig, 0, m);
    AnalogMasksAfterSetsOnlyChannels(channelP, channelN, MasksOf(cur), line);
  }

  /** The DAC1Enable eAIN's configuration step reports: the device's, or `dac1In` when the read failed. */
  function Dac1EnableRead(d: Responder, dac1In: int): int
  {
    if ConfigIOReplyAt(d).Done? then ConfigIOReplyAt(d).value.dac1Enable else dac1In
  }

  /**
   * eAIN's configuration step, as the source performs it; it also hands back the
   * DAC1Enable the device reported, or `dac1In` when the read failed.
   */
  method ConfigureAnalogLines(link: Link, channelP: nat, channelN: nat, dac1In: int) returns (error: int, dac1Enable: int)
    requires channelP <= 31 && channelN <= 31
    modifies link
    ensures var s := AnalogLineSetup(channelP, channelN, old(link.device));
      error == s.status && link.sent == old(link.sent) + s.frames && link.device == s.device
    ensures dac1Enable == Dac1EnableRead(old(link.device), dac1In)
  {
    ghost var d := link.device;
    ghost var read := WithConfigIO(Idle(d), 0, 0, 0, 0, 0);
    dac1Enable := dac1In;
    var fioAnalog: byte, eioAnalog: byte := ChannelMasks(channelP, channelN);
    var cur := ConfigIOExchange(link, old(link.sent), Idle(d), 0, 0, 0, 0, 0);
    if cur.Failed? {
      assert AnalogLineSetup(channelP, channelN, d) == read;
      return cur.code, dac1Enable;
    }
    dac1Enable := cur.value.dac1Enable;
    if fioAnalog == cur.value.fioAnalog && eioAnalog == cur.value.eioAnalog {
      assert AnalogLineSetup(channelP, channelN, d) == read;
      return 0, dac1Enable;
    }
    fioAnalog := Or(fioAnalog, cur.value.fioAnalog);
    eioAnalog := Or(eioAnalog, cur.value.eioAnalog);
    ghost var m := AnalogMasksAfter(channelP, channelN, MasksOf(cur.value));
    assert LineMasks(fioAnalog, eioAnalog) == m;
    assert AnalogLineSetup(channelP, channelN, d) == WithConfigIO(read, 12, cur.value.timerCounterConfig, 0, m.fio, m.eio);
    var written := ConfigIOExchange(link, old(link.sent), read, 12, cur.value.timerCounterConfig, 0, fioAnalog, eioAnalog);
    error := written.Code();
  }

  /** The analog masks eAIN starts from: the bits of the two channels that are FIO or EIO lines. */
  method ChannelMasks(channelP: nat, channelN: nat) returns (fioAnalog: byte, eioAnalog: byte)
    ensures LineMasks(fioAnalog, eioAnalog) == AnalogMasks(channelP, channelN)
  {
    fioAnalog, eioAnalog := 0, 0;
    if channelP <= 7 {
      fioAnalog := Bit(channelP);
    } else if channelP <= 15 {
      eioAnalog := Bit(channelP - 8);
    }
    if channelN <= 7 {
      fioAnalog := Or(fioAnalog, Bit(channelN));
    } else if channelN <= 15 {
      eioAnalog := Or(eioAnalog, Bit(channelN - 8));
    }
  }

  /** The configuration step eAIN takes for an accepted channel pair. */
  function AinSetupFor(c: CalibrationInfo, configIO: int, channelP: nat, wireN: nat, d: Responder): Session
  {
    if AinSetupApplies(c, configIO, channelP) then AnalogLineSetup(channelP, wireN, d) else Idle(d)
  }

  // ---------------------------------------------------------------- eAIN reading and conversion

  /** eAIN's IOType: AIN (1), the positive channel with LongSettling in bit 6 and QuickSample in bit 7, the negative channel. */
  function AinPayload(channelP: nat, wireN: nat, resolution: int, settling: int): seq<byte>
    requires channelP <= 31 && wireN <= 31
  {
    [1, channelP + 64 * (if settling != 0 then 1 else 0) + 128 * (if resolution != 0 then 1 else 0), wireN]
  }

  /** The device reads the positive channel from bits 0..4 and the two flags from bits 6 and 7. */
  lemma AinPayloadFields(channelP: nat, wireN: nat, resolution: int, settling: int)
    requires channelP <= 31 && wireN <= 31
    ensures var p := AinPayload(channelP, wireN, resolution, settling);
      p[0] == 1 && p[1] % 32 == channelP && (p[1] / 64 % 2 == 1 <==> settling != 0) &&
      (p[1] / 128 == 1 <==> resolution != 0) && p[2] == wireN
  {
  }

  /**
   * The value eAIN reports for the 16-bit reading `bytesVT`: the raw code in binary
   * mode, kelvin for the temperature sensor (channel 30), else volts by the
   * conversion for the hardware version, with the negative channel as given (32
   * for the special range).
   */
  function AinConversion(c: CalibrationInfo, dac1Enable: int, channelP: byte, channelN: byte, binary: int,
                         bytesVT: uint16): Outcome<real>
  {
    if binary != 0 then Done(bytesVT as real)
    else if channelP == 30 then TempKCalibrated(c, bytesVT)
    else if !IsHw130(c) then AinVoltCalibrated(c, dac1Enable, channelN, bytesVT)
    else AinVoltCalibratedHw130(c, channelP, channelN, bytesVT)
  }

  /** When the conversion refuses a reading: it depends on the record and the channels, never on the reading or DAC1Enable. */
  predicate AinConversionRefused(c: CalibrationInfo, channelP: byte, channelN: byte, binary: int)
  {
    binary == 0 &&
    (!IsCalibrationInfoValid(c) ||
     (channelP != 30 &&
      !(if IsHw130(c) then Hw130ChannelsAccepted(c.highVoltage, channelP, channelN)
        else channelN <= 15 || channelN == 30 || channelN == 31)))
  }

  /** The conversion fails exactly when AinConversionRefused says, whatever the reading and DAC1Enable. */
  lemma AinConversionFailsExactly(c: CalibrationInfo, dac1Enable: int, channelP: byte, channelN: byte, binary: int,
                                  bytesVT: uint16)
    ensures AinConversion(c, dac1Enable, channelP, channelN, binary, bytesVT).Failed?
        <==> AinConversionRefused(c, channelP, channelN, binary)
  {
  }

  /**
   * With a valid record and channels eAIN accepts, the conversion refuses only
   * the special range (negative channel 32) on hardware before 1.30, in volts.
   */
  lemma AinRefusesOnlySpecialRangeBefore130(c: CalibrationInfo, channelP: byte, channelN: byte, binary: int)
    requires IsCalibrationInfoValid(c) && AinChannelsAccepted(c, channelP, channelN)
    ensures AinConversionRefused(c, channelP, channelN, binary)
        <==> binary == 0 && channelP != 30 && !IsHw130(c) && channelN == 32
  {
    if IsHw130(c) {
      AinChecksMatchHw130Conversion(c, channelP, channelN);
    }
  }

  /** eAIN: the status it returns, the frames it sends, where it leaves the device, and the two result bytes. */
  function AinRun(c: CalibrationInfo, configIO: int, channelP: int, channelN: int, resolution: int, settling: int,
                  binary: int, d: Responder): Session
  {
    if !IsCalibrationInfoValid(c) || !AinChannelsAccepted(c, channelP, channelN) then Refused(-1, d)
    else
      var wireN := WireNegChannel(channelN);
      var setup := AinSetupFor(c, configIO, channelP, wireN, d);
      if setup.status != 0 then setup
      else
        var fb := WithFeedback(setup, AinPayload(channelP, wireN, resolution, settling), 2);
        if fb.status == 0 && AinConversionRefused(c, channelP, channelN, binary) then fb.(status := -1) else fb
  }

  /** AinRun of an accepted call, step by step. */
  lemma AinRunSteps(c: CalibrationInfo, configIO: int, channelP: int, channelN: int, resolution: int, settling: int,
                    binary: int, d: Responder)
    requires IsCalibrationInfoValid(c) && AinChannelsAccepted(c, channelP, channelN)
    ensures var setup := AinSetupFor(c, configIO, channelP, WireNegChannel(channelN), d);
      var fb := WithFeedback(setup, AinPayload(channelP, WireNegChannel(channelN), resolution, settling), 2);
      AinRun(c, configIO, channelP, channelN, resolution, settling, binary, d)
        == if setup.status != 0 then setup
           else if fb.status == 0 && AinConversionRefused(c, channelP, channelN, binary) then fb.(status := -1) else fb
  {
  }

  /** An accepted eAIN whose configuration step fails ends there. */
  lemma AinRunStopsAtSetup(c: CalibrationInfo, configIO: int, channelP: int, channelN: int, resolution: int,
                           settling: int, binary: int, d: Responder)
    requires IsCalibrationInfoValid(c) && AinChannelsAccepted(c, channelP, channelN)
    requires AinSetupFor(c, configIO, channelP, WireNegChannel(channelN), d).status != 0
    ensures AinRun(c, configIO, channelP, channelN, resolution, settling, binary, d)
      == AinSetupFor(c, configIO, channelP, WireNegChannel(channelN), d)
  {
    AinRunSteps(c, configIO, channelP, channelN, resolution, settling, binary, d);
  }

  /** An accepted eAIN whose configuration step succeeds sends the Feedback frame, and fails only on a refused conversion. */
  lemma AinRunReads(c: CalibrationInfo, configIO: int, channelP: int, channelN: int, resolution: int,
                    settling: int, binary: int, d: Responder)
    requires IsCalibrationInfoValid(c) && AinChannelsAccepted(c, channelP, channelN)
    requires AinSetupFor(c, configIO, channelP, WireNegChannel(channelN), d).status == 0
    ensures var fb := WithFeedback(AinSetupFor(c, configIO, channelP, WireNegChannel(channelN), d),
                                   AinPayload(channelP, WireNegChannel(channelN), resolution, settling), 2);
      var run := AinRun(c, configIO, channelP, channelN, resolution, settling, binary, d);
      run.status == (if fb.status == 0 && AinConversionRefused(c, channelP, channelN, binary) then -1 else fb.status) &&
      run.frames == fb.frames && run.device == fb.device && run.data == fb.data
  {
    AinRunSteps(c, configIO, channelP, channelN, resolution, settling, binary, d);
  }

  /** The DAC1Enable eAIN hands back: the device's, when it read the masks, else the caller's. */
  function AinDac1Enable(c: CalibrationInfo, configIO: int, channelP: int, channelN: int, dac1In: int, d: Responder): int
  {
    if IsCalibrationInfoValid(c) && AinChannelsAccepted(c, channelP, channelN) && AinSetupApplies(c, configIO, channelP)
    then Dac1EnableRead(d, dac1In)
    else dac1In
  }

  /** The 16-bit reading in two result bytes, low byte first. */
  function Reading(data: seq<byte>): uint16
    requires |data| == 2
  {
    data[0] as int + data[1] as int * 256
  }

  /**
   * eAIN (u3TempNew.c). The voltage is the conversion of the reading when the
   * device sent both bytes; on an error the caller's DAC1Enable (unless the masks
   * were read) and voltage are left alone.
   */
  method EAIN(link: Link, c: CalibrationInfo, configIO: int, dac1In: int, channelP: int, channelN: int,
              voltageIn: real, resolution: int, settling: int, binary: int)
    returns (ret: int, dac1Enable: int, voltage: real)
    modifies link
    ensures var run := AinRun(c, configIO, channelP, channelN, resolution, settling, binary, old(link.device));
      ret == run.status && link.sent == old(link.sent) + run.frames && link.device == run.device
    ensures dac1Enable == AinDac1Enable(c, configIO, channelP, channelN, dac1In, old(link.device))
    ensures ret != 0 ==> voltage == voltageIn
    ensures var run := AinRun(c, configIO, channelP, channelN, resolution, settling, binary, old(link.device));
      ret == 0 && |run.data| == 2 ==>
      voltage == AinConversion(c, dac1Enable, channelP, channelN, binary, Reading(run.data)).value
    ensures !IsCalibrationInfoValid(c) || !AinChannelsAccepted(c, channelP, channelN) ==>
      ret == -1 && link.sent == old(link.sent) && dac1Enable == dac1In
  {
    dac1Enable, voltage := dac1In, voltageIn;
    if !IsCalibrationInfoValid(c) {
      return -1, dac1Enable, voltage;
    }
    var hwver, hv := c.hardwareVersion, c.highVoltage;
    if channelP < 0 || (channelP > 15 && channelP != 30 && channelP != 31) {
      return -1, dac1Enable, voltage;
    }
    if channelN < 0 || (channelN > 15 && channelN != 30 && channelN != 31 && channelN != 32) ||
       (hwver >= 1.30 && hv && ((channelP < 4 && channelN != 31 && channelN != 32) || channelN < 4)) {
      return -1, dac1Enable, voltage;
    }
    ret, dac1Enable, voltage := AinAccepted(link, c, configIO, dac1In, channelP, channelN, voltageIn, resolution, settling, binary);
  }

  /** eAIN past its checks: the configuration step, the reading and the conversion. */
  method AinAccepted(link: Link, c: CalibrationInfo, configIO: int, dac1In: int, channelP: byte, channelN: byte,
                     voltageIn: real, resolution: int, settling: int, binary: int)
    returns (ret: int, dac1Enable: int, voltage: real)
    requires IsCalibrationInfoValid(c) && AinChannelsAccepted(c, channelP, channelN)
    modifies link
    ensures var run := AinRun(c, configIO, channelP, channelN, resolution, settling, binary, old(link.device));
      ret == run.status && link.sent == old(link.sent) + run.frames && link.device == run.device
    ensures dac1Enable == AinDac1Enable(c, configIO, channelP, channelN, dac1In, old(link.device))
    ensures ret != 0 ==> voltage == voltageIn
    ensures var run := AinRun(c, configIO, channelP, channelN, resolution, settling, binary, old(link.device));
      ret == 0 && |run.data| == 2 ==>
      voltage == AinConversion(c, dac1Enable, channelP, channelN, binary, Reading(run.data)).value
  {
    var recDataBuff := new byte[2];
    ghost var d := link.device;
    voltage := voltageIn;
    var negChannel := channelN;
    var isSpecialRange := false;
    if negChannel == 32 {
      isSpecialRange := true;
      negChannel := 30;
    }
    var sendDataBuff := AinCommand(channelP, negChannel, resolution, settling);
    ghost var setup := AinSetupFor(c, configIO, channelP, WireNegChannel(channelN), d);
    var error;
    error, dac1Enable := AinSetupStep(link, c, configIO, channelP, negChannel, dac1In);
    assert dac1Enable == AinDac1Enable(c, configIO, channelP, channelN, dac1In, d);
    if error != 0 {
      AinRunStopsAtSetup(c, configIO, channelP, channelN, resolution, settling, binary, d);
      ret := error;
    } else {
      AinRunReads(c, configIO, channelP, channelN, resolution, settling, binary, d);
      ret, voltage := ReadAndConvert(link, old(link.sent), setup, c, dac1Enable, channelP, channelN, negChannel,
                                     isSpecialRange, binary, sendDataBuff, recDataBuff, voltageIn);
    }
  }

  /** The AIN command eAIN sends: settling time in bit 6 and quick sample in bit 7 of the channel byte. */
  method AinCommand(channelP: byte, wireN: byte, resolution: int, settling: int) returns (sendDataBuff: seq<byte>)
    requires channelP <= 31 && wireN <= 31
    ensures sendDataBuff == AinPayload(channelP, wireN, resolution, settling)
  {
    var settlingBit := if settling != 0 then 1 else 0;
    var quickSample := if resolution != 0 then 1 else 0;
    sendDataBuff := [1, channelP + settlingBit * 64 + quickSample * 128, wireN];
  }

  /** eAIN's configuration step when it applies: the ConfigIO exchanges and the DAC1Enable they report. */
  method AinSetupStep(link: Link, c: CalibrationInfo, configIO: int, channelP: byte, wireN: byte, dac1In: int)
    returns (error: int, dac1Enable: int)
    requires channelP <= 31 && wireN <= 31
    modifies link
    ensures var s := AinSetupFor(c, configIO, channelP, wireN, old(link.device));
      error == s.status && link.sent == old(link.sent) + s.frames && link.device == s.device
    ensures dac1Enable == if AinSetupApplies(c, configIO, channelP) then Dac1EnableRead(old(link.device), dac1In) else dac1In
  {
    error, dac1Enable := 0, dac1In;
    if configIO != 0 && !(c.hardwareVersion >= 1.30 && c.highVoltage && channelP < 4) {
      error, dac1Enable := ConfigureAnalogLines(link, channelP, wireN, dac1In);
    }
  }

  /**
   * The end of eAIN: the Feedback exchange that reads the converter, then the
   * conversion of the reading with the negative channel set back to 32 for the
   * special range.
   */
  method ReadAndConvert(link: Link, ghost before: seq<seq<byte>>, ghost setup: Session, c: CalibrationInfo,
                        dac1Enable: int, channelP: byte, ghost channelN: byte, wireN: byte, isSpecialRange: bool,
                        binary: int, sendDataBuff: seq<byte>, recDataBuff: array<byte>, voltageIn: real)
    returns (ret: int, voltage: real)
    requires IsCalibrationInfoValid(c) && recDataBuff.Length == 2
    requires channelN == if isSpecialRange then 32 else wireN
    requires link.sent == before + setup.frames && link.device == setup.device
    modifies link, recDataBuff
    ensures var fb := WithFeedback(setup, sendDataBuff, 2);
      ret == (if fb.status == 0 && AinConversionRefused(c, channelP, channelN, binary) then -1 else fb.status) &&
      link.sent == before + fb.frames && link.device == fb.device &&
      (ret != 0 ==> voltage == voltageIn) &&
      (ret == 0 && |fb.data| == 2 ==>
         voltage == AinConversion(c, dac1Enable, channelP, channelN, binary, Reading(fb.data)).value)
  {
    voltage := voltageIn;
    ret := FeedbackExchange(link, before, setup, sendDataBuff, recDataBuff, 2);
    if ret != 0 {
      return ret, voltage;
    }
    var bytesVT: uint16 := recDataBuff[0] as int + recDataBuff[1] as int * 256;
    var negChannel := wireN;
    if isSpecialRange {
      negChannel := 32;
    }
    var converted := ConvertReading(c, dac1Enable, channelP, negChannel, binary, bytesVT);
    if converted.Failed? {
      return -1, voltage;
    }
    voltage := converted.value;
  }

  /** The conversion at the end of eAIN, as the source branches: binary, temperature sensor, hardware before or from 1.30. */
  method ConvertReading(c: CalibrationInfo, dac1Enable: int, channelP: byte, channelN: byte, binary: int, bytesVT: uint16)
    returns (r: Outcome<real>)
    requires IsCalibrationInfoValid(c)
    ensures r == AinConversion(c, dac1Enable, channelP, channelN, binary, bytesVT)
    ensures r.Failed? <==> AinConversionRefused(c, channelP, channelN, binary)
  {
    if binary != 0 {
      return Done(bytesVT as real);
    }
    if channelP == 30 {
      return TempKCalibrated(c, bytesVT);
    }
    if c.hardwareVersion < 1.30 {
      r := AinVoltCalibrated(c, dac1Enable, channelN, bytesVT);
    } else {
      r := AinVoltCalibratedHw130(c, channelP, channelN, bytesVT);
    }
  }

  /**
   * Without ConfigIO, a device that takes the frame and answers with error code 0
   * and two result bytes makes eAIN succeed with that one Feedback frame and
   * those bytes as the reading, whatever the record's hardware version.
   */
  lemma AinOnWorkingDevice(c: CalibrationInfo, channelP: byte, channelN: byte, binary: int, data: seq<byte>,
                           d: Responder, rest: seq<seq<byte>>)
    requires IsCalibrationInfoValid(c) && AinChannelsAccepted(c, channelP, channelN) && channelN != 32
    requires |data| == 2
    requires d.NextCount() >= |FeedbackFrame(AinPayload(channelP, channelN, 0, 0))|
    requires d.replies == [FeedbackResponse(0, 0, data)] + rest
    ensures var run := AinRun(c, 0, channelP, channelN, 0, 0, binary, d);
      run.status == 0 && run.frames == [FeedbackFrame(AinPayload(channelP, channelN, 0, 0))] && run.data == data
  {
    AinRunSteps(c, 0, channelP, channelN, 0, 0, binary, d);
    WithFeedbackOfWorkingDevice(Idle(d), AinPayload(channelP, channelN, 0, 0), data, rest);
    AinRefusesOnlySpecialRangeBefore130(c, channelP, channelN, binary);
  }

  /**
   * On hardware before 1.30 the special range (negative channel 32) passes eAIN's
   * checks and is read, but its voltage conversion fails: eAIN returns -1 after
   * the Feedback exchange the device accepted.
   */
  lemma AinSpecialRangeBefore130Fails(c: CalibrationInfo, channelP: byte, d: Responder, rest: seq<seq<byte>>,
                                      data: seq<byte>)
    requires IsCalibrationInfoValid(c) && !IsHw130(c) && channelP <= 15 && |data| == 2
    requires d.NextCount() >= |FeedbackFrame(AinPayload(channelP, 30, 0, 0))|
    requires d.replies == [FeedbackResponse(0, 0, data)] + rest
    ensures AinChannelsAccepted(c, channelP, 32)
    ensures AinRun(c, 0, channelP, 32, 0, 0, 0, d).status == -1
    ensures AinRun(c, 0, channelP, 32, 0, 0, 0, d).frames == [FeedbackFrame(AinPayload(channelP, 30, 0, 0))]
  {
    var fb := WithFeedback(Idle(d), AinPayload(channelP, 30, 0, 0), 2);
    WithFeedbackOfWorkingDevice(Idle(d), AinPayload(channelP, 30, 0, 0), data, rest);
    assert AinConversionRefused(c, channelP, 32, 0);
    assert AinRun(c, 0, channelP, 32, 0, 0, 0, d) == fb.(status := -1);
  }

  // ---------------------------------------------------------------- eDAC

  /** Whether eDAC first enables DAC1 with ConfigIO: requested, on DAC1, before hardware 1.30. */
  predicate DacSetupApplies(c: CalibrationInfo, configIO: int, channel: int)
  {
    configIO != 0 && channel == 1 && !IsHw130(c)
  }

  /**
   * eDAC's IOType: DAC0/DAC1 8-bit (34, 35) with the 8-bit code before hardware
   * 1.30, DAC0/DAC1 16-bit (38, 39) with the 16-bit code, low byte first, from 1.30 on.
   */
  function DacPayload(c: CalibrationInfo, channel: nat, voltage: real): seq<byte>
    requires IsCalibrationInfoValid(c) && channel <= 1
  {
    if !IsHw130(c) then [34 + channel, DacBinVoltCalibrated8Bit(c, channel, voltage).value]
    else
      var code := DacBinVoltCalibrated16Bit(c, channel, voltage).value;
      [38 + channel, code % 256, code / 256]
  }

  /**
   * The code eDAC sends is the calibrated code of the voltage: before 1.30 the
   * source's own 8-bit code; from 1.30 on the 16-bit code, whose high byte is the
   * clamped 8-bit code.
   */
  lemma DacPayloadCarriesCode(c: CalibrationInfo, channel: nat, voltage: real)
    requires IsCalibrationInfoValid(c) && channel <= 1
    ensures var p := DacPayload(c, channel, voltage);
      if !IsHw130(c) then
        |p| == 2 && p[0] == 34 + channel && Done(p[1] as int) == DacBinVoltCalibrated8BitAsWritten(c, channel, voltage)
      else
        |p| == 3 && p[0] == 38 + channel && p[1] as int + 256 * p[2] as int == DacBinVoltCalibrated16Bit(c, channel, voltage).value &&
        p[2] == DacBinVoltCalibrated8Bit(c, channel, voltage).value
  {
    if !IsHw130(c) {
      DacBinVolt8BitAgreesBefore130(c, channel, voltage);
    } else {
      Dac16HighByteIs8BitCode(c, channel, voltage);
    }
  }

  /** eDAC: the status it returns, the frames it sends and where it leaves the device. */
  function DacRun(c: CalibrationInfo, configIO: int, channel: int, voltage: real, d: Responder): Session
  {
    if !IsCalibrationInfoValid(c) || channel < 0 || channel > 1 then Refused(-1, d)
    else
      var setup := if DacSetupApplies(c, configIO, channel) then WithConfigIO(Idle(d), 2, 0, 1, 0, 0) else Idle(d);
      if setup.status != 0 then setup
      else WithFeedback(setup, DacPayload(c, channel, voltage), 0)
  }

  /** eDAC (u3TempNew.c). */
  method EDAC(link: Link, c: CalibrationInfo, configIO: int, channel: int, voltage: real) returns (ret: int)
    modifies link
    ensures var run := DacRun(c, configIO, channel, voltage, old(link.device));
      ret == run.status && link.sent == old(link.sent) + run.frames && link.device == run.device
    ensures !IsCalibrationInfoValid(c) || channel < 0 || channel > 1 ==> ret == -1 && link.sent == old(link.sent)
  {
    var noData := new byte[0];
    if !IsCalibrationInfoValid(c) {
      return -1;
    }
    if channel < 0 || channel > 1 {
      return -1;
    }
    ghost var setup := if DacSetupApplies(c, configIO, channel) then WithConfigIO(Idle(link.device), 2, 0, 1, 0, 0)
                       else Idle(link.device);
    if configIO != 0 && channel == 1 && c.hardwareVersion < 1.30 {
      var enabled := ConfigIOExchange(link, old(link.sent), Idle(link.device), 2, 0, 1, 0, 0);
      if enabled.Failed? {
        assert DacRun(c, configIO, channel, voltage, old(link.device)) == setup;
        return enabled.code;
      }
    }
    var sendDataBuff := DacCommand(c, channel, voltage);
    assert DacRun(c, configIO, channel, voltage, old(link.device)) == WithFeedback(setup, sendDataBuff, 0);
    ret := FeedbackExchange(link, old(link.sent), setup, sendDataBuff, noData, 0);
  }

  /** The Feedback command eDAC sends: the 8-bit DAC command before hardware 1.30, the 16-bit one from 1.30 on. */
  method DacCommand(c: CalibrationInfo, channel: nat, voltage: real) returns (sendDataBuff: seq<byte>)
    requires IsCalibrationInfoValid(c) && channel <= 1
    ensures sendDataBuff == DacPayload(c, channel, voltage)
  {
    if c.hardwareVersion < 1.30 {
      var byteV := DacBinVoltCalibrated8Bit(c, channel, voltage);
      sendDataBuff := [34 + channel, byteV.value];
    } else {
      var bytesV := DacBinVoltCalibrated16Bit(c, channel, voltage);
      sendDataBuff := [38 + channel, bytesV.value % 256, bytesV.value / 256];
    }
  }

  /**
   * With ConfigIO on DAC1 before hardware 1.30, eDAC first sends the ConfigIO
   * frame that writes only DAC1Enable (write mask bit 1) as 1, and stops with its
   * status when that exchange fails.
   */
  lemma DacEnablesDac1First(c: CalibrationInfo, voltage: real, d: Responder)
    requires IsCalibrationInfoValid(c) && !IsHw130(c)
    ensures var run := DacRun(c, 1, 1, voltage, d);
      var f := run.frames[0];
      f == ConfigIOFrame(2, 0, 1, 0, 0) && f[6] == 2 && f[9] == 1 &&
      (ConfigIOReplyAt(d).Failed? ==> run.status == ConfigIOReplyAt(d).code && |run.frames| == 1)
  {
    assert ConfigIOFrame(2, 0, 1, 0, 0)[6..][3] == 1;
  }

  /**
   * Without the DAC1 step, a device that takes the frame and answers with error
   * code 0 makes eDAC succeed with the one Feedback frame carrying the code.
   */
  lemma DacOnWorkingDevice(c: CalibrationInfo, configIO: int, channel: nat, voltage: real, d: Responder,
                           rest: seq<seq<byte>>)
    requires IsCalibrationInfoValid(c) && channel <= 1 && !DacSetupApplies(c, configIO, channel)
    requires d.NextCount() >= |FeedbackFrame(DacPayload(c, channel, voltage))|
    requires d.replies == [FeedbackResponse(0, 0, [])] + rest
    ensures DacRun(c, configIO, channel, voltage, d).status == 0
    ensures DacRun(c, configIO, channel, voltage, d).frames == [FeedbackFrame(DacPayload(c, channel, voltage))]
  {
    assert DacRun(c, configIO, channel, voltage, d) == WithFeedback(Idle(d), DacPayload(c, channel, voltage), 0);
    WithFeedbackOfWorkingDevice(Idle(d), DacPayload(c, channel, voltage), [], rest);
  }
}
