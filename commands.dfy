/**
 * The four extended U3 commands the driver speaks: Feedback (0x00), ConfigIO
 * (0x0B), ConfigTimerClock (0x0A) and I2C (0x3B).
 *
 * Every command frame is an extended packet: [checksum8, 0xF8, data words,
 * command number, checksum16 low, checksum16 high] followed by its body. For each
 * command there is the frame the host sends (a function, and a method that fills
 * a buffer the way the source does), the decoder of the device's response (a
 * function that runs the source's checks in order), the response a working
 * device sends (the decoder's partner), and the method that performs the
 * exchange over a `Link`.
 */
module Commands {
  import opened Bytes
  import opened Outcomes
  import opened Checksum
  import opened Transport

  /** A byte count rounded up to a whole number of 16-bit words. */
  function EvenUp(k: nat): (r: nat)
    ensures r % 2 == 0 && k <= r <= k + 1
  {
    if k % 2 != 0 then k + 1 else k
  }

  /** The sum of two even numbers is even. */
  lemma EvenSum(a: nat, b: nat)
    requires a % 2 == 0 && b % 2 == 0
    ensures (a + b) % 2 == 0
  {
  }

  /** An extended packet with the given header fields and body, its three checksums filled in. */
  function Packet(words: byte, command: byte, body: seq<byte>): (r: seq<byte>)
    ensures |r| == 6 + |body| && r[1] == 0xF8 && r[2] == words && r[3] == command
    ensures r[6..] == body
    ensures ChecksumsValid(r, |r|)
  {
    var r := Seal([0, 0xF8, words, command, 0, 0] + body, 6 + |body|);
    assert r[6..] == body;
    r
  }

  /** Bytes 0, 4 and 5 of a buffer the way a builder leaves them do not matter: sealing it gives the packet. */
  lemma SealedBufferIsPacket(buf: seq<byte>, words: byte, command: byte, body: seq<byte>)
    requires |buf| == 6 + |body| && buf[1] == 0xF8 && buf[2] == words && buf[3] == command
    requires forall k :: 0 <= k < |body| ==> buf[6 + k] == body[k]
    ensures Seal(buf, |buf|) == Packet(words, command, body)
  {
    var pre := [0, 0xF8, words, command, 0, 0] + body;
    forall i | 0 <= i < |buf| && i != 0 && i != 4 && i != 5
      ensures buf[i] == pre[i]
    {
      if i >= 6 {
        assert buf[6 + (i - 6)] == body[i - 6];
      }
    }
    SealIgnoresCheckBytes(buf, pre, |buf|);
  }

  // ---------------------------------------------------------------- Feedback

  /** The Feedback body: the echo byte, the IOType bytes, and a zero pad to a whole word. */
  function FeedbackBody(payload: seq<byte>): seq<byte>
  {
    [0] + payload + (if EvenUp(|payload| + 1) == |payload| + 2 then [0] else [])
  }

  /** The Feedback command frame ehFeedback sends for the IOType bytes `payload`. */
  function FeedbackFrame(payload: seq<byte>): (r: seq<byte>)
    ensures var dw := EvenUp(|payload| + 1);
      |r| == 6 + dw && r[1] == 0xF8 && r[2] == (dw / 2) % 256 && r[3] == 0x00 && r[6] == 0 &&
      r[7..7 + |payload|] == payload && (dw > |payload| + 1 ==> r[|r| - 1] == 0) &&
      ChecksumsValid(r, |r|)
  {
    var r := Packet((EvenUp(|payload| + 1) / 2) % 256, 0x00, FeedbackBody(payload));
    assert r[7..7 + |payload|] == r[6..][1..1 + |payload|];
    r
  }

  /** The number of bytes ehFeedback asks to read: header, error code, error frame, echo, results, pad. */
  function FeedbackResponseLength(outDataSize: nat): nat
  {
    6 + EvenUp(outDataSize + 3)
  }

  /** The fields ehFeedback hands back: the device's error code and frame, and the result bytes copied. */
  datatype FeedbackReply = FeedbackReply(errorcode: byte, errorFrame: byte, data: seq<byte>)

  /**
   * ehFeedback's handling of the `rec` bytes read: fewer than 8 bytes, a bad
   * checksum or a wrong command byte is a failure (-1); a short response of at
   * least 8 bytes is accepted and checked over the bytes that arrived. The result
   * bytes are those from byte 9 on, at most `outDataSize` of them. The device's
   * error code is returned, not judged.
   */
  function DecodeFeedback(rec: seq<byte>, outDataSize: nat): (r: Outcome<FeedbackReply>)
    ensures r.Failed? ==> r.code == -1
    ensures r.Done? ==> |rec| >= 8 && ChecksumsValid(rec, |rec|)
    ensures r.Done? ==> |r.value.data| <= outDataSize && |r.value.data| <= |rec| - 8
  {
    if |rec| < 8 then Failed(-1)
    else
      var checksumTotal := Checksum16(rec, |rec|);
      if checksumTotal / 256 != rec[5] || checksumTotal % 256 != rec[4] || Checksum8(rec) != rec[0] then Failed(-1)
      else if rec[1] != 0xF8 || rec[3] != 0x00 then Failed(-1)
      else
        Done(FeedbackReply(rec[6], rec[7], FeedbackData(rec, outDataSize)))
  }

  /** The result bytes of a Feedback response: those from byte 9 on that arrived, at most `outDataSize`. */
  function FeedbackData(rec: seq<byte>, outDataSize: nat): (r: seq<byte>)
    ensures |r| <= outDataSize && (|rec| >= 9 ==> |r| <= |rec| - 9)
  {
    var count := if |rec| <= 9 then 0 else if |rec| - 9 < outDataSize then |rec| - 9 else outDataSize;
    if count == 0 then [] else rec[9..9 + count]
  }

  /** ehFeedback's copy loop: result bytes go to the front of `outDataBuff`, the rest of it is kept. */
  method CopyResponseData(recBuff: seq<byte>, outDataBuff: array<byte>, outDataSize: nat)
    requires outDataSize <= outDataBuff.Length
    modifies outDataBuff
    ensures var data := FeedbackData(recBuff, outDataSize);
      outDataBuff[..] == data + old(outDataBuff[..])[|data|..]
  {
    ghost var before := outDataBuff[..];
    var i := 0;
    while i + 9 < |recBuff| && i < outDataSize
      invariant 0 <= i <= outDataSize && (i == 0 || i + 9 <= |recBuff|)
      invariant forall k :: 0 <= k < i ==> outDataBuff[k] == recBuff[9 + k]
      invariant forall k :: i <= k < outDataBuff.Length ==> outDataBuff[k] == before[k]
    {
      outDataBuff[i] := recBuff[i + 9];
      i := i + 1;
    }
    ghost var data := FeedbackData(recBuff, outDataSize);
    assert |data| == i;
    assert outDataBuff[..] == data + before[i..];
  }

  /** The Feedback response of a device: error code, error frame, echo, the result bytes, a pad to a whole word. */
  function FeedbackResponse(errorcode: byte, errorFrame: byte, data: seq<byte>): (r: seq<byte>)
    ensures |r| == FeedbackResponseLength(|data|)
  {
    var dw := EvenUp(|data| + 3);
    Packet((dw / 2) % 256, 0x00, [errorcode, errorFrame, 0] + data + (if dw > |data| + 3 then [0] else []))
  }

  /** Decoding a device's Feedback response recovers its error code, error frame and result bytes. */
  lemma FeedbackRoundTrip(errorcode: byte, errorFrame: byte, data: seq<byte>)
    ensures DecodeFeedback(FeedbackResponse(errorcode, errorFrame, data), |data|)
         == Done(FeedbackReply(errorcode, errorFrame, data))
  {
    var r := FeedbackResponse(errorcode, errorFrame, data);
    FeedbackResponseFields(errorcode, errorFrame, data);
    WellFormedFeedbackDecodes(r, |data|);
    assert FeedbackData(r, |data|) == data;
  }

  /** Where a device's Feedback response carries its fields. */
  lemma FeedbackResponseFields(errorcode: byte, errorFrame: byte, data: seq<byte>)
    ensures var r := FeedbackResponse(errorcode, errorFrame, data);
      |r| >= 9 + |data| && r[1] == 0xF8 && r[3] == 0x00 && r[6] == errorcode && r[7] == errorFrame &&
      r[9..9 + |data|] == data && ChecksumsValid(r, |r|)
  {
    var dw := EvenUp(|data| + 3);
    var body := [errorcode, errorFrame, 0] + data + (if dw > |data| + 3 then [0] else []);
    var r := Packet((dw / 2) % 256, 0x00, body);
    assert r[9..9 + |data|] == r[6..][3..3 + |data|];
    assert body[3..3 + |data|] == data;
  }

  /** A response with valid checksums, the extended-command byte and command 0 decodes to its fields. */
  lemma WellFormedFeedbackDecodes(rec: seq<byte>, outDataSize: nat)
    requires |rec| >= 8 && ChecksumsValid(rec, |rec|) && rec[1] == 0xF8 && rec[3] == 0x00
    ensures DecodeFeedback(rec, outDataSize) == Done(FeedbackReply(rec[6], rec[7], FeedbackData(rec, outDataSize)))
  {
  }

  /** A Feedback response damaged in one byte is rejected (up to the 0x00/0xFF blind spot of header bytes 1..3). */
  lemma FeedbackCorruptionRejected(errorcode: byte, errorFrame: byte, data: seq<byte>, i: nat, v: byte)
    requires var r := FeedbackResponse(errorcode, errorFrame, data);
      i < |r| && v != r[i] && (1 <= i < 4 ==> v - r[i] != 255 && r[i] - v != 255)
    ensures DecodeFeedback(FeedbackResponse(errorcode, errorFrame, data)[i := v], |data|) == Failed(-1)
  {
    var r := FeedbackResponse(errorcode, errorFrame, data);
    SingleByteCorruptionDetected(r, |r|, i, v);
  }

  /** Fills a buffer with the Feedback frame the way ehFeedback does. */
  method BuildFeedbackFrame(payload: seq<byte>) returns (sendBuff: array<byte>)
    ensures sendBuff[..] == FeedbackFrame(payload)
  {
    var sendDWSize := |payload| + 1;
    if sendDWSize % 2 != 0 {
      sendDWSize := sendDWSize + 1;
    }
    sendBuff := new byte[6 + sendDWSize];
    sendBuff[sendDWSize + 6 - 1] := 0;
    sendBuff[1] := 0xF8;
    sendBuff[2] := (sendDWSize / 2) % 256;
    sendBuff[3] := 0x00;
    sendBuff[6] := 0;
    var i := 0;
    while i < |payload|
      invariant 0 <= i <= |payload|
      invariant sendBuff[1] == 0xF8 && sendBuff[2] == (sendDWSize / 2) % 256 && sendBuff[3] == 0x00
      invariant sendBuff[6] == 0
      invariant forall k :: 0 <= k < i ==> sendBuff[7 + k] == payload[k]
      invariant sendDWSize == |payload| + 2 ==> sendBuff[sendDWSize + 5] == 0
    {
      sendBuff[i + 7] := payload[i];
      i := i + 1;
    }
    FeedbackBufferHoldsBody(sendBuff[..], payload);
    SealedBufferIsPacket(sendBuff[..], (sendDWSize / 2) % 256, 0x00, FeedbackBody(payload));
    ExtendedChecksum(sendBuff, sendDWSize + 6);
  }

  /** The Feedback buffer, its echo byte zeroed, the payload copied in after it and its pad zeroed, holds the Feedback body from byte 6 on. */
  lemma FeedbackBufferHoldsBody(filled: seq<byte>, payload: seq<byte>)
    requires |filled| == 6 + EvenUp(|payload| + 1) && filled[6] == 0
    requires forall k :: 0 <= k < |payload| ==> filled[7 + k] == payload[k]
    requires EvenUp(|payload| + 1) == |payload| + 2 ==> filled[|payload| + 7] == 0
    ensures |filled| == 6 + |FeedbackBody(payload)|
    ensures forall k :: 0 <= k < |FeedbackBody(payload)| ==> filled[6 + k] == FeedbackBody(payload)[k]
  {
    var body := FeedbackBody(payload);
    forall k | 0 <= k < |body|
      ensures filled[6 + k] == body[k]
    {
      if 1 <= k <= |payload| {
        assert filled[7 + (k - 1)] == payload[k - 1];
      }
    }
  }

  /**
   * ehFeedback: sends the IOType bytes `payload`, reads the response, checks it
   * and copies its result bytes into `outDataBuff`. Returns 0 or -1; the
   * device's error code and error frame are out-values for the caller to judge.
   */
  method EhFeedback(link: Link, payload: seq<byte>, outDataBuff: array<byte>, outDataSize: nat)
    returns (ret: int, errorcode: byte, errorFrame: byte)
    requires outDataSize <= outDataBuff.Length
    modifies link, outDataBuff
    ensures link.sent == old(link.sent) + [FeedbackFrame(payload)]
    ensures link.device == old(link.device).After(|FeedbackFrame(payload)|)
    ensures var r := DecodeFeedback(old(link.device).Answer(|FeedbackFrame(payload)|, FeedbackResponseLength(outDataSize)), outDataSize);
      ret == r.Code() &&
      (r.Failed? ==> outDataBuff[..] == old(outDataBuff[..])) &&
      (r.Done? ==> errorcode == r.value.errorcode && errorFrame == r.value.errorFrame &&
                   outDataBuff[..] == r.value.data + old(outDataBuff[..])[|r.value.data|..])
  {
    var sendBuff := BuildFeedbackFrame(payload);
    var sendChars := link.Write(sendBuff[..]);
    if sendChars < sendBuff.Length {
      return -1, 0, 0;
    }
    var recBuff := link.Read(FeedbackResponseLength(outDataSize));
    var reply := DecodeFeedback(recBuff, outDataSize);
    if reply.Failed? {
      return -1, 0, 0;
    }
    errorcode, errorFrame := reply.value.errorcode, reply.value.errorFrame;
    CopyResponseData(recBuff, outDataBuff, outDataSize);
    ret := 0;
  }

  // ---------------------------------------------------------------- ConfigIO

  /** The fields of a ConfigIO response: timer/counter configuration, DAC1 enable, FIO and EIO analog masks. */
  datatype ConfigIOSettings = ConfigIOSettings(timerCounterConfig: byte, dac1Enable: byte, fioAnalog: byte, eioAnalog: byte)

  /** The 12-byte ConfigIO command frame. */
  function ConfigIOFrame(writeMask: byte, timerCounterConfig: byte, dac1Enable: byte, fioAnalog: byte, eioAnalog: byte): (r: seq<byte>)
    ensures |r| == 12 && r[1] == 0xF8 && r[2] == 0x03 && r[3] == 0x0B
    ensures r[6..] == [writeMask, 0, timerCounterConfig, dac1Enable, fioAnalog, eioAnalog]
    ensures ChecksumsValid(r, 12)
  {
    Packet(0x03, 0x0B, [writeMask, 0, timerCounterConfig, dac1Enable, fioAnalog, eioAnalog])
  }

  /**
   * ehConfigIO's handling of the response: fewer than 12 bytes, a bad
   * checksum16, a bad checksum8 or wrong command bytes is -1; a non-zero error
   * byte is returned as the status; otherwise the four settings.
   */
  function DecodeConfigIO(rec: seq<byte>): (r: Outcome<ConfigIOSettings>)
    ensures r.Failed? ==> r.code == -1 || (1 <= r.code <= 255 && |rec| >= 12 && r.code == rec[6])
    ensures r.Done? ==> |rec| >= 12 && ChecksumsValid(rec, 12) && rec[6] == 0
  {
    if |rec| < 12 then Failed(-1)
    else
      var checksumTotal := Checksum16(rec, 12);
      if checksumTotal / 256 != rec[5] then Failed(-1)
      else if checksumTotal % 256 != rec[4] then Failed(-1)
      else if Checksum8(rec) != rec[0] then Failed(-1)
      else if rec[1] != 0xF8 || rec[2] != 0x03 || rec[3] != 0x0B then Failed(-1)
      else if rec[6] != 0 then Failed(rec[6])
      else Done(ConfigIOSettings(rec[8], rec[9], rec[10], rec[11]))
  }

  /** The ConfigIO response of a device: error byte, reserved byte, then the settings now in force. */
  function ConfigIOResponse(errorcode: byte, settings: ConfigIOSettings): (r: seq<byte>)
    ensures |r| == 12
  {
    Packet(0x03, 0x0B, [errorcode, 0, settings.timerCounterConfig, settings.dac1Enable,
                        settings.fioAnalog, settings.eioAnalog])
  }

  /** A device's ConfigIO response decodes to its settings, or to its error code when that is non-zero. */
  lemma ConfigIORoundTrip(errorcode: byte, settings: ConfigIOSettings)
    ensures DecodeConfigIO(ConfigIOResponse(errorcode, settings))
         == if errorcode == 0 then Done(settings) else Failed(errorcode)
  {
    var r := ConfigIOResponse(errorcode, settings);
    assert r[6..][0] == r[6];
  }

  /** A ConfigIO response damaged in one byte is rejected with -1 (up to the 0x00/0xFF blind spot). */
  lemma ConfigIOCorruptionRejected(errorcode: byte, settings: ConfigIOSettings, i: nat, v: byte)
    requires var r := ConfigIOResponse(errorcode, settings);
      i < 12 && v != r[i] && (1 <= i < 4 ==> v - r[i] != 255 && r[i] - v != 255)
    ensures DecodeConfigIO(ConfigIOResponse(errorcode, settings)[i := v]) == Failed(-1)
  {
    var r := ConfigIOResponse(errorcode, settings);
    SingleByteCorruptionDetected(r, 12, i, v);
  }

  /** Fills the 12-byte ConfigIO buffer the way ehConfigIO does. */
  method BuildConfigIOFrame(writeMask: byte, timerCounterConfig: byte, dac1Enable: byte, fioAnalog: byte, eioAnalog: byte)
    returns (sendBuff: array<byte>)
    ensures sendBuff[..] == ConfigIOFrame(writeMask, timerCounterConfig, dac1Enable, fioAnalog, eioAnalog)
  {
    sendBuff := new byte[12];
    sendBuff[1] := 0xF8;
    sendBuff[2] := 0x03;
    sendBuff[3] := 0x0B;
    sendBuff[6] := writeMask;
    sendBuff[7] := 0;
    sendBuff[8] := timerCounterConfig;
    sendBuff[9] := dac1Enable;
    sendBuff[10] := fioAnalog;
    sendBuff[11] := eioAnalog;
    SealedBufferIsPacket(sendBuff[..], 0x03, 0x0B, [writeMask, 0, timerCounterConfig, dac1Enable, fioAnalog, eioAnalog]);
    ExtendedChecksum(sendBuff, 12);
  }

  /** ehConfigIO: writes the settings selected by `writeMask` and reads back the settings in force. */
  method EhConfigIO(link: Link, writeMask: byte, timerCounterConfig: byte, dac1Enable: byte, fioAnalog: byte, eioAnalog: byte)
    returns (r: Outcome<ConfigIOSettings>)
    modifies link
    ensures link.sent == old(link.sent) + [ConfigIOFrame(writeMask, timerCounterConfig, dac1Enable, fioAnalog, eioAnalog)]
    ensures link.device == old(link.device).After(12)
    ensures r == DecodeConfigIO(old(link.device).Answer(12, 12))
  {
    var sendBuff := BuildConfigIOFrame(writeMask, timerCounterConfig, dac1Enable, fioAnalog, eioAnalog);
    var sendChars := link.Write(sendBuff[..]);
    if sendChars < 12 {
      return Failed(-1);
    }
    var recBuff := link.Read(12);
    r := DecodeConfigIO(recBuff);
  }

  // ---------------------------------------------------------------- ConfigTimerClock

  /** The 10-byte ConfigTimerClock command frame. */
  function ConfigTimerClockFrame(timerClockConfig: byte, timerClockDivisor: byte): (r: seq<byte>)
    ensures |r| == 10 && r[1] == 0xF8 && r[2] == 0x02 && r[3] == 0x0A
    ensures r[6..] == [0, 0, timerClockConfig, timerClockDivisor]
    ensures ChecksumsValid(r, 10)
  {
    Packet(0x02, 0x0A, [0, 0, timerClockConfig, timerClockDivisor])
  }

  /** The clock configuration and divisor a ConfigTimerClock response reports. */
  datatype TimerClock = TimerClock(timerClockConfig: byte, timerClockDivisor: byte)

  /** ehConfigTimerClock's handling of the response: the same checks as ConfigIO, with 10 bytes, 2 words and command 0x0A. */
  function DecodeConfigTimerClock(rec: seq<byte>): (r: Outcome<TimerClock>)
    ensures r.Failed? ==> r.code == -1 || (1 <= r.code <= 255 && |rec| >= 10 && r.code == rec[6])
    ensures r.Done? ==> |rec| >= 10 && ChecksumsValid(rec, 10) && rec[6] == 0
  {
    if |rec| < 10 then Failed(-1)
    else
      var checksumTotal := Checksum16(rec, 10);
      if checksumTotal / 256 != rec[5] then Failed(-1)
      else if checksumTotal % 256 != rec[4] then Failed(-1)
      else if Checksum8(rec) != rec[0] then Failed(-1)
      else if rec[1] != 0xF8 || rec[2] != 0x02 || rec[3] != 0x0A then Failed(-1)
      else if rec[6] != 0 then Failed(rec[6])
      else Done(TimerClock(rec[8], rec[9]))
  }

  /** The ConfigTimerClock response of a device. */
  function ConfigTimerClockResponse(errorcode: byte, clock: TimerClock): (r: seq<byte>)
    ensures |r| == 10
  {
    Packet(0x02, 0x0A, [errorcode, 0, clock.timerClockConfig, clock.timerClockDivisor])
  }

  /** A device's ConfigTimerClock response decodes to its clock settings, or to its non-zero error code. */
  lemma ConfigTimerClockRoundTrip(errorcode: byte, clock: TimerClock)
    ensures DecodeConfigTimerClock(ConfigTimerClockResponse(errorcode, clock))
         == if errorcode == 0 then Done(clock) else Failed(errorcode)
  {
    var r := ConfigTimerClockResponse(errorcode, clock);
    assert r[6..][0] == r[6];
  }

  /** Fills the 10-byte ConfigTimerClock buffer the way ehConfigTimerClock does. */
  method BuildConfigTimerClockFrame(timerClockConfig: byte, timerClockDivisor: byte) returns (sendBuff: array<byte>)
    ensures sendBuff[..] == ConfigTimerClockFrame(timerClockConfig, timerClockDivisor)
  {
    sendBuff := new byte[10];
    sendBuff[1] := 0xF8;
    sendBuff[2] := 0x02;
    sendBuff[3] := 0x0A;
    sendBuff[6] := 0;
    sendBuff[7] := 0;
    sendBuff[8] := timerClockConfig;
    sendBuff[9] := timerClockDivisor;
    SealedBufferIsPacket(sendBuff[..], 0x02, 0x0A, [0, 0, timerClockConfig, timerClockDivisor]);
    ExtendedChecksum(sendBuff, 10);
  }

  /** ehConfigTimerClock: sets the timer clock base and divisor. */
  method EhConfigTimerClock(link: Link, timerClockConfig: byte, timerClockDivisor: byte) returns (r: Outcome<TimerClock>)
    modifies link
    ensures link.sent == old(link.sent) + [ConfigTimerClockFrame(timerClockConfig, timerClockDivisor)]
    ensures link.device == old(link.device).After(10)
    ensures r == DecodeConfigTimerClock(old(link.device).Answer(10, 10))
  {
    var sendBuff := BuildConfigTimerClockFrame(timerClockConfig, timerClockDivisor);
    var sendChars := link.Write(sendBuff[..]);
    if sendChars < 10 {
      return Failed(-1);
    }
    var recBuff := link.Read(10);
    r := DecodeConfigTimerClock(recBuff);
  }

  // ---------------------------------------------------------------- I2C

  /** The I2C command length: header, 8 option bytes, the bytes to send rounded up to a word. */
  function I2CSendSize(numSend: byte): nat
  {
    6 + 8 + EvenUp(numSend)
  }

  /** The I2C response length: header, error code, reserved byte, 4 ack bytes, the bytes received rounded up to a word. */
  function I2CReceiveSize(numReceive: byte): nat
  {
    6 + 6 + EvenUp(numReceive)
  }

  /** The I2C command frame: the bus options, then the first `numSend` bytes of `command`, then a pad. */
  function I2CFrame(options: byte, speedAdjust: byte, sdaPinNum: byte, sclPinNum: byte, address: byte,
                    numSend: byte, numReceive: byte, command: seq<byte>): (r: seq<byte>)
    requires numSend <= |command|
    ensures |r| == I2CSendSize(numSend) && |r| % 2 == 0
    ensures r[2] == 4 + EvenUp(numSend) / 2 && r[3] == 0x3B
    ensures r[6..14] == [options, speedAdjust, sdaPinNum, sclPinNum, address, 0, numSend, numReceive]
    ensures r[14..14 + numSend] == command[..numSend]
    ensures ChecksumsValid(r, |r|)
  {
    var body := I2CBody(options, speedAdjust, sdaPinNum, sclPinNum, address, numSend, numReceive, command);
    assert |body| == 8 + EvenUp(numSend);
    assert body[..8] == [options, speedAdjust, sdaPinNum, sclPinNum, address, 0, numSend, numReceive];
    assert body[8..8 + numSend] == command[..numSend];
    var r := Packet((I2CSendSize(numSend) - 6) / 2, 0x3B, body);
    assert r[6..14] == r[6..][..8];
    assert r[14..14 + numSend] == r[6..][8..8 + numSend];
    assert |r| == 14 + EvenUp(numSend);
    EvenSum(14, EvenUp(numSend));
    r
  }

  /** The body of the I2C command frame. */
  function I2CBody(options: byte, speedAdjust: byte, sdaPinNum: byte, sclPinNum: byte, address: byte,
                   numSend: byte, numReceive: byte, command: seq<byte>): seq<byte>
    requires numSend <= |command|
  {
    [options, speedAdjust, sdaPinNum, sclPinNum, address, 0, numSend, numReceive] + command[..numSend] +
    (if EvenUp(numSend) > numSend then [0] else [])
  }

  /**
   * What I2C hands back: the status, the device's error code (0 when no
   * complete header arrived), the four ack bytes and the bytes received (both
   * empty when the response was short and the caller's buffers stay untouched).
   */
  datatype I2CReply = I2CReply(ret: int, errorcode: byte, ackArray: seq<byte>, response: seq<byte>)

  /**
   * I2C's handling of the response: a short response is -1, with the error code
   * taken only if 12 bytes arrived; a full one yields its error code, ack bytes and
   * received bytes, and a bad checksum8, command byte, word count, command number
   * or checksum16 turns the status into -1 without withholding them.
   */
  function DecodeI2C(rec: seq<byte>, numSend: byte, numReceive: byte): (r: I2CReply)
    requires |rec| <= I2CReceiveSize(numReceive)
    ensures r.ret == 0 || r.ret == -1
    ensures r.ret == 0 ==> ChecksumsValid(rec, |rec|) && |r.response| == numReceive && |r.ackArray| == 4
  {
    var recSize := I2CReceiveSize(numReceive);
    if |rec| < recSize then I2CReply(-1, if |rec| >= 12 then rec[6] else 0, [], [])
    else
      var checksumTotal := Checksum16(rec, recSize);
      var ok := Checksum8(rec) == rec[0] && rec[1] == 0xF8 && rec[2] == (recSize - 6) / 2 && rec[3] == 0x3B &&
                checksumTotal / 256 == rec[5] && checksumTotal % 256 == rec[4];
      I2CReply(if ok then 0 else -1, rec[6], rec[8..12], rec[12..12 + numReceive])
  }

  /** The four ack bytes read as one little-endian mask matches one ack bit per byte sent plus the address byte. */
  predicate AckComplete(ackArray: seq<byte>, numSend: byte)
    requires |ackArray| == 4
  {
    LittleEndian32(ackArray) == Pow2(numSend + 1) - 1
  }

  /** The I2C response of a device. */
  function I2CResponse(errorcode: byte, ackArray: seq<byte>, data: seq<byte>): (r: seq<byte>)
    requires |ackArray| == 4 && |data| < 256
    ensures |r| == I2CReceiveSize(|data|)
  {
    Packet((I2CReceiveSize(|data|) - 6) / 2, 0x3B, [errorcode, 0] + ackArray + data + (if EvenUp(|data|) > |data| then [0] else []))
  }

  /** A device's I2C response decodes with status 0 to its error code, ack bytes and data. */
  lemma I2CRoundTrip(errorcode: byte, ackArray: seq<byte>, data: seq<byte>, numSend: byte)
    requires |ackArray| == 4 && |data| < 256
    ensures DecodeI2C(I2CResponse(errorcode, ackArray, data), numSend, |data|) == I2CReply(0, errorcode, ackArray, data)
  {
    var r := I2CResponse(errorcode, ackArray, data);
    assert r[8..12] == r[6..][2..6];
    assert r[12..12 + |data|] == r[6..][6..6 + |data|];
  }

  /** An I2C response damaged in one byte gives status -1 (up to the 0x00/0xFF blind spot). */
  lemma I2CCorruptionRejected(errorcode: byte, ackArray: seq<byte>, data: seq<byte>, numSend: byte, i: nat, v: byte)
    requires |ackArray| == 4 && |data| < 256
    requires var r := I2CResponse(errorcode, ackArray, data);
      i < |r| && v != r[i] && (1 <= i < 4 ==> v - r[i] != 255 && r[i] - v != 255)
    ensures DecodeI2C(I2CResponse(errorcode, ackArray, data)[i := v], numSend, |data|).ret == -1
  {
    var r := I2CResponse(errorcode, ackArray, data);
    SingleByteCorruptionDetected(r, |r|, i, v);
  }

  /** The source's byte-copy loops: `src[..count]` goes to `buf` from index `at` on; every other byte is kept. */
  method CopyInto(buf: array<byte>, at: nat, src: seq<byte>, count: nat)
    requires count <= |src| && at + count <= buf.Length
    modifies buf
    ensures forall k :: 0 <= k < buf.Length && !(at <= k < at + count) ==> buf[k] == old(buf[k])
    ensures forall k :: 0 <= k < count ==> buf[at + k] == src[k]
  {
    var i := 0;
    while i < count
      invariant 0 <= i <= count
      invariant forall k :: 0 <= k < buf.Length && !(at <= k < at + i) ==> buf[k] == old(buf[k])
      invariant forall k :: 0 <= k < i ==> buf[at + k] == src[k]
    {
      buf[at + i] := src[i];
      i := i + 1;
    }
  }

  /** Writes the fixed fields of the I2C command buffer (everything but the data bytes and the checksums). */
  method WriteI2CHeader(sendBuff: array<byte>, options: byte, speedAdjust: byte, sdaPinNum: byte, sclPinNum: byte,
                        address: byte, numSend: byte, numReceive: byte)
    requires sendBuff.Length == I2CSendSize(numSend)
    modifies sendBuff
    ensures sendBuff[1] == 0xF8 && sendBuff[2] == (sendBuff.Length - 6) / 2 && sendBuff[3] == 0x3B
    ensures sendBuff[6..14] == [options, speedAdjust, sdaPinNum, sclPinNum, address, 0, numSend, numReceive]
    ensures sendBuff[sendBuff.Length - 1] == 0 || sendBuff.Length - 1 < 14 + numSend
  {
    var sendSize := sendBuff.Length;
    sendBuff[sendSize - 1] := 0;
    sendBuff[1] := 0xF8;
    sendBuff[2] := (sendSize - 6) / 2;
    sendBuff[3] := 0x3B;
    sendBuff[6] := options;
    sendBuff[7] := speedAdjust;
    sendBuff[8] := sdaPinNum;
    sendBuff[9] := sclPinNum;
    sendBuff[10] := address;
    sendBuff[11] := 0;
    sendBuff[12] := numSend;
    sendBuff[13] := numReceive;
  }

  /** Fills the I2C command buffer the way I2C does. */
  method BuildI2CFrame(options: byte, speedAdjust: byte, sdaPinNum: byte, sclPinNum: byte, address: byte,
                       numSend: byte, numReceive: byte, command: seq<byte>) returns (sendBuff: array<byte>)
    requires numSend <= |command|
    ensures sendBuff[..] == I2CFrame(options, speedAdjust, sdaPinNum, sclPinNum, address, numSend, numReceive, command)
  {
    var sendSize := 6 + 8 + (if numSend % 2 != 0 then numSend + 1 else numSend);
    sendBuff := new byte[sendSize];
    WriteI2CHeader(sendBuff, options, speedAdjust, sdaPinNum, sclPinNum, address, numSend, numReceive);
    ghost var header := sendBuff[..];
    CopyInto(sendBuff, 14, command, numSend);
    ghost var body := I2CBody(options, speedAdjust, sdaPinNum, sclPinNum, address, numSend, numReceive, command);
    I2CBufferHoldsBody(sendBuff[..], header, options, speedAdjust, sdaPinNum, sclPinNum, address, numSend, numReceive, command);
    SealedBufferIsPacket(sendBuff[..], (sendSize - 6) / 2, 0x3B, body);
    ExtendedChecksum(sendBuff, sendSize);
  }

  /** The I2C buffer, its header written and the bytes to send copied in after it, holds the I2C body from byte 6 on. */
  lemma I2CBufferHoldsBody(filled: seq<byte>, header: seq<byte>, options: byte, speedAdjust: byte, sdaPinNum: byte,
                           sclPinNum: byte, address: byte, numSend: byte, numReceive: byte, command: seq<byte>)
    requires numSend <= |command| && |filled| == |header| == I2CSendSize(numSend)
    requires header[6..14] == [options, speedAdjust, sdaPinNum, sclPinNum, address, 0, numSend, numReceive]
    requires header[|header| - 1] == 0 || |header| - 1 < 14 + numSend
    requires forall k :: 0 <= k < |filled| && !(14 <= k < 14 + numSend) ==> filled[k] == header[k]
    requires forall k :: 0 <= k < numSend ==> filled[14 + k] == command[k]
    ensures var body := I2CBody(options, speedAdjust, sdaPinNum, sclPinNum, address, numSend, numReceive, command);
      |filled| == 6 + |body| && forall k :: 0 <= k < |body| ==> filled[6 + k] == body[k]
  {
    var body := I2CBody(options, speedAdjust, sdaPinNum, sclPinNum, address, numSend, numReceive, command);
    assert body[..8] == header[6..14];
    forall k | 0 <= k < |body|
      ensures filled[6 + k] == body[k]
    {
      if k < 8 {
        assert filled[6 + k] == header[6..14][k] == body[..8][k];
      } else if k < 8 + numSend {
        assert body[k] == command[k - 8];
      } else {
        assert filled[6 + k] == header[6 + k];
      }
    }
  }

  /** I2C: one transaction on the I2C bus through the U3. */
  method I2C(link: Link, options: byte, speedAdjust: byte, sdaPinNum: byte, sclPinNum: byte, address: byte,
             numSend: byte, numReceive: byte, command: seq<byte>) returns (r: I2CReply)
    requires numSend <= |command|
    modifies link
    ensures var frame := I2CFrame(options, speedAdjust, sdaPinNum, sclPinNum, address, numSend, numReceive, command);
      link.sent == old(link.sent) + [frame] &&
      link.device == old(link.device).After(|frame|) &&
      r == DecodeI2C(old(link.device).Answer(|frame|, I2CReceiveSize(numReceive)), numSend, numReceive)
  {
    var sendBuff := BuildI2CFrame(options, speedAdjust, sdaPinNum, sclPinNum, address, numSend, numReceive, command);
    var sendChars := link.Write(sendBuff[..]);
    if sendChars < sendBuff.Length {
      return I2CReply(-1, 0, [], []);
    }
    var recBuff := link.Read(I2CReceiveSize(numReceive));
    r := DecodeI2C(recBuff, numSend, numReceive);
  }

  /**
   * A missing ack is only reported: a well-formed response whose ack bytes do not
   * acknowledge every byte sent still gives status 0, with those ack bytes.
   */
  lemma I2CStatusIgnoresAcks(errorcode: byte, ackArray: seq<byte>, data: seq<byte>, numSend: byte)
    requires |ackArray| == 4 && |data| < 256 && !AckComplete(ackArray, numSend)
    ensures var r := DecodeI2C(I2CResponse(errorcode, ackArray, data), numSend, |data|);
      r.ret == 0 && r.ackArray == ackArray && !AckComplete(r.ackArray, numSend)
  {
    I2CRoundTrip(errorcode, ackArray, data, numSend);
  }
}
