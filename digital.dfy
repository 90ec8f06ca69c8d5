/**
 * eDI and eDO: read or drive one digital line (FIO 0..7, EIO 8..15, CIO 16..19).
 *
 * With ConfigIO requested on an FIO/EIO line, both first read the analog masks
 * and, unless they already are "everything analog except this line", clear the
 * line's bit in the current masks and write them back. Then one Feedback
 * exchange sets the line's direction and reads or writes its state.
 */
module DigitalIO {
  import opened Bytes
  import opened Outcomes
  import opened Transport
  import opened Commands
  import opened Bits
  import opened Sessions

  /**
   * The masks eDI and eDO compare the current ones with: 255 - pow(2, k) in the
   * port of line `channel`, 255 in the other.
   */
  function DigitalMasks(channel: nat): LineMasks
    requires channel <= 15
  {
    if channel <= 7 then LineMasks(255 - Bit(channel), 255) else LineMasks(255, 255 - Bit(channel - 8))
  }

  /** The comparison masks: every line analog except `channel`. */
  lemma DigitalMasksLines(channel: nat, line: nat)
    requires channel <= 15 && line < 16
    ensures IsAnalog(DigitalMasks(channel), line) == (line != channel)
  {
    var j := if line < 8 then line else line - 8;
    AllOnesByte(j);
    if (channel <= 7) == (line < 8) {
      AllButBit(if channel <= 7 then channel else channel - 8, j);
    }
  }

  /** The masks eDI and eDO leave in force: the current ones, ANDed with the comparison masks when they differ. */
  function DigitalMasksAfter(channel: nat, current: LineMasks): LineMasks
    requires channel <= 15
  {
    if DigitalMasks(channel) == current then current else AndMasks(DigitalMasks(channel), current)
  }

  /** After the configuration step `channel` is digital and every other line keeps its setting. */
  lemma DigitalMasksAfterClearsOnlyChannel(channel: nat, current: LineMasks, line: nat)
    requires channel <= 15 && line < 16
    ensures IsAnalog(DigitalMasksAfter(channel, current), line) == (line != channel && IsAnalog(current, line))
  {
    DigitalMasksLines(channel, line);
    AndMasksLine(DigitalMasks(channel), current, line);
  }

  /**
   * The configuration step of eDI and eDO: read the masks with ConfigIO and, when
   * they differ from DigitalMasks, write the current masks with the line cleared,
   * keeping the timer/counter configuration (write mask 12: FIO and EIO analog).
   */
  function DigitalLineSetup(channel: nat, d: Responder): (r: Session)
    requires channel <= 15
    ensures |r.frames| >= 1 && r.frames[0] == ConfigIOFrame(0, 0, 0, 0, 0)
  {
    var read := WithConfigIO(Idle(d), 0, 0, 0, 0, 0);
    var cur := ConfigIOReplyAt(d);
    if cur.Failed? || DigitalMasks(channel) == MasksOf(cur.value) then read
    else
      var m := DigitalMasksAfter(channel, MasksOf(cur.value));
      WithConfigIO(read, 12, cur.value.timerCounterConfig, 0, m.fio, m.eio)
  }

  /**
   * The setup writes (a second frame) exactly when the read succeeded and the
   * masks differ from DigitalMasks; when the masks already match it reports
   * success after the read alone.
   */
  lemma DigitalSetupWritesOnlyOnChange(channel: nat, d: Responder)
    requires channel <= 15
    ensures var s := DigitalLineSetup(channel, d);
      var cur := ConfigIOReplyAt(d);
      (|s.frames| == 2 <==> cur.Done? && DigitalMasks(channel) != MasksOf(cur.value)) &&
      (cur.Done? && DigitalMasks(channel) == MasksOf(cur.value) ==> s.status == 0 && |s.frames| == 1)
  {
    var read := WithConfigIO(Idle(d), 0, 0, 0, 0, 0);
    assert |read.frames| == 1;
  }

  /** When the setup writes, the frame it sends makes the line digital and keeps every other line and the timer configuration. */
  lemma DigitalSetupWritesClearedMasks(channel: nat, d: Responder, line: nat)
    requires channel <= 15 && line < 16
    requires |DigitalLineSetup(channel, d).frames| == 2
    ensures var cur := ConfigIOReplyAt(d).value;
      var f := DigitalLineSetup(channel, d).frames[1];
      var written := MasksOf(ConfigIOSettings(f[8], f[9], f[10], f[11]));
      f[6] == 12 && f[8] == cur.timerCounterConfig &&
      IsAnalog(written, line) == (line != channel && IsAnalog(MasksOf(cur), line))
  {
    DigitalSetupSecondFrame(channel, d);
    DigitalWriteFrameLines(channel, ConfigIOReplyAt(d).value, line);
  }

  /** A setup that sends two frames read masks the device answered, and wrote them back with the line cleared. */
  lemma DigitalSetupSecondFrame(channel: nat, d: Responder)
    requires channel <= 15
    requires |DigitalLineSetup(channel, d).frames| == 2
    ensures ConfigIOReplyAt(d).Done?
    ensures var cur := ConfigIOReplyAt(d).value;
      var m := DigitalMasksAfter(channel, MasksOf(cur));
      DigitalLineSetup(channel, d).frames[1] == ConfigIOFrame(12, cur.timerCounterConfig, 0, m.fio, m.eio)
  {
    var read := WithConfigIO(Idle(d), 0, 0, 0, 0, 0);
    assert |read.frames| == 1;
  }

  /** The write frame of the setup makes the line digital and keeps every other line and the timer configuration. */
  lemma DigitalWriteFrameLines(channel: nat, cur: ConfigIOSettings, line: nat)
    requires channel <= 15 && line < 16
    ensures var m := DigitalMasksAfter(channel, MasksOf(cur));
      var f := ConfigIOFrame(12, cur.timerCounterConfig, 0, m.fio, m.eio);
      f[6] == 12 && f[8] == cur.timerCounterConfig &&
      IsAnalog(MasksOf(ConfigIOSettings(f[8], f[9], f[10], f[11])), line) == (line != channel && IsAnalog(MasksOf(cur), line))
  {
    var m := DigitalMasksAfter(channel, MasksOf(cur));
    ConfigIOFrameCarriesMasks(12, cur.timerCounterConfig, 0, m);
    DigitalMasksAfterClearsOnlyChannel(channel, MasksOf(cur), line);
  }

  /** eDI and eDO's configuration step, as the source performs it. */
  method ConfigureDigitalLine(link: Link, channel: nat) returns (error: int)
    requires channel <= 15
    modifies link
    ensures var s := DigitalLineSetup(channel, old(link.device));
      error == s.status && link.sent == old(link.sent) + s.frames && link.device == s.device
  {
    ghost var d := link.device;
    ghost var read := WithConfigIO(Idle(d), 0, 0, 0, 0, 0);
    var fioAnalog: byte, eioAnalog: byte := 255, 255;
    if channel <= 7 {
      fioAnalog := 255 - Bit(channel);
    } else {
      eioAnalog := 255 - Bit(channel - 8);
    }
    assert LineMasks(fioAnalog, eioAnalog) == DigitalMasks(channel);
    var cur := ConfigIOExchange(link, old(link.sent), Idle(d), 0, 0, 0, 0, 0);
    if cur.Failed? {
      return cur.code;
    }
    if !(fioAnalog == cur.value.fioAnalog && eioAnalog == cur.value.eioAnalog) {
      fioAnalog := And(fioAnalog, cur.value.fioAnalog);
      eioAnalog := And(eioAnalog, cur.value.eioAnalog);
      ghost var m := DigitalMasksAfter(channel, MasksOf(cur.value));
      assert LineMasks(fioAnalog, eioAnalog) == m;
      var written := ConfigIOExchange(link, old(link.sent), read, 12, cur.value.timerCounterConfig, 0, fioAnalog, eioAnalog);
      if written.Failed? {
        return written.code;
      }
    }
    error := 0;
  }

  /** The configuration step eDI and eDO take: only with ConfigIO requested and only on FIO/EIO lines. */
  function DigitalSetupFor(configIO: int, channel: nat, d: Responder): Session
    requires channel <= 19
  {
    if configIO != 0 && channel <= 15 then DigitalLineSetup(channel, d) else Idle(d)
  }

  // ---------------------------------------------------------------- eDO

  /** eDO's IOTypes: BitDirWrite (13) with the output bit, BitStateWrite (11) with the state bit. */
  function DigitalOutputPayload(channel: nat, state: int): seq<byte>
    requires channel <= 19
  {
    [13, channel + 128, 11, channel + 128 * (if state > 0 then 1 else 0)]
  }

  /** The device reads IONumber from bits 0..4 and the direction or state from bit 7: line `channel`, output, high exactly when state > 0. */
  lemma DigitalOutputPayloadFields(channel: nat, state: int)
    requires channel <= 19
    ensures var p := DigitalOutputPayload(channel, state);
      p[0] == 13 && p[1] % 32 == channel && p[1] / 128 == 1 &&
      p[2] == 11 && p[3] % 32 == channel && (p[3] / 128 == 1 <==> state > 0)
  {
  }

  /** eDO: the status it returns, the frames it sends and where it leaves the device. */
  function DigitalOutputRun(configIO: int, channel: int, state: int, d: Responder): Session
  {
    if channel < 0 || channel > 19 then Refused(-1, d)
    else
      var setup := DigitalSetupFor(configIO, channel, d);
      if setup.status != 0 then setup
      else WithFeedback(setup, DigitalOutputPayload(channel, state), 0)
  }

  /** eDO (u3TempNew.c; the copy in u3IR.c is the same code). */
  method EDO(link: Link, configIO: int, channel: int, state: int) returns (ret: int)
    modifies link
    ensures var run := DigitalOutputRun(configIO, channel, state, old(link.device));
      ret == run.status && link.sent == old(link.sent) + run.frames && link.device == run.device
    ensures channel < 0 || channel > 19 ==> ret == -1 && link.sent == old(link.sent)
  {
    var noData := new byte[0];
    if channel < 0 || channel > 19 {
      return -1;
    }
    var stateBit := if state > 0 then 1 else 0;
    var sendDataBuff := [13, channel + 128, 11, channel + 128 * stateBit];
    assert sendDataBuff == DigitalOutputPayload(channel, state);
    ghost var setup := DigitalSetupFor(configIO, channel, link.device);
    if configIO != 0 && channel <= 15 {
      var error := ConfigureDigitalLine(link, channel);
      if error != 0 {
        return error;
      }
    }
    ret := FeedbackExchange(link, old(link.sent), setup, sendDataBuff, noData, 0);
  }

  /**
   * On a line eDO does not configure, a device that takes the frame and answers
   * with error code 0 makes eDO succeed with exactly that one Feedback frame.
   */
  lemma DigitalOutputOnWorkingDevice(configIO: int, channel: nat, state: int, d: Responder, rest: seq<seq<byte>>)
    requires channel <= 19 && (configIO == 0 || channel >= 16)
    requires d.NextCount() >= |FeedbackFrame(DigitalOutputPayload(channel, state))|
    requires d.replies == [FeedbackResponse(0, 0, [])] + rest
    ensures DigitalOutputRun(configIO, channel, state, d).status == 0
    ensures DigitalOutputRun(configIO, channel, state, d).frames == [FeedbackFrame(DigitalOutputPayload(channel, state))]
  {
    assert DigitalOutputRun(configIO, channel, state, d) == WithFeedback(Idle(d), DigitalOutputPayload(channel, state), 0);
    WithFeedbackOfWorkingDevice(Idle(d), DigitalOutputPayload(channel, state), [], rest);
  }

  // ---------------------------------------------------------------- eDI

  /** eDI's IOTypes: BitDirWrite (13) with the input direction, BitStateRead (10). */
  function DigitalInputPayload(channel: nat): seq<byte>
    requires channel <= 19
  {
    [13, channel, 10, channel]
  }

  /** The direction bit eDI sends is clear (input) and both IOTypes address line `channel`. */
  lemma DigitalInputPayloadFields(channel: nat)
    requires channel <= 19
    ensures var p := DigitalInputPayload(channel);
      p[1] % 32 == channel && p[1] / 128 == 0 && p[3] % 32 == channel
  {
  }

  /** eDI: the status it returns, the frames it sends, where it leaves the device, and the byte read. */
  function DigitalInputRun(configIO: int, channel: int, d: Responder): Session
  {
    if channel < 0 || channel > 19 then Refused(-1, d)
    else
      var setup := DigitalSetupFor(configIO, channel, d);
      if setup.status != 0 then setup
      else WithFeedback(setup, DigitalInputPayload(channel), 1)
  }

  /** eDI (u3TempNew.c). The state is the result byte when the device sent one. */
  method EDI(link: Link, configIO: int, channel: int) returns (ret: int, state: int)
    modifies link
    ensures var run := DigitalInputRun(configIO, channel, old(link.device));
      ret == run.status && link.sent == old(link.sent) + run.frames && link.device == run.device &&
      (ret == 0 && |run.data| == 1 ==> state == run.data[0])
    ensures channel < 0 || channel > 19 ==> ret == -1 && link.sent == old(link.sent)
  {
    var recDataBuff := new byte[1];
    state := 0;
    if channel < 0 || channel > 19 {
      return -1, state;
    }
    ghost var setup := DigitalSetupFor(configIO, channel, link.device);
    if configIO != 0 && channel <= 15 {
      var error := ConfigureDigitalLine(link, channel);
      if error != 0 {
        return error, state;
      }
    }
    var sendDataBuff := [13, channel, 10, channel];
    assert sendDataBuff == DigitalInputPayload(channel);
    ret := FeedbackExchange(link, old(link.sent), setup, sendDataBuff, recDataBuff, 1);
    if ret != 0 {
      return ret, state;
    }
    state := recDataBuff[0];
  }

  /** A device answering eDI's Feedback with error code 0 and byte `b` makes eDI report state `b`. */
  lemma DigitalInputReadsState(channel: nat, d: Responder, b: byte, rest: seq<seq<byte>>)
    requires channel <= 19
    requires d.NextCount() >= |FeedbackFrame(DigitalInputPayload(channel))|
    requires d.replies == [FeedbackResponse(0, 0, [b])] + rest
    ensures DigitalInputRun(0, channel, d).status == 0
    ensures DigitalInputRun(0, channel, d).data == [b]
  {
    WithFeedbackOfWorkingDevice(Idle(d), DigitalInputPayload(channel), [b], rest);
  }
}
