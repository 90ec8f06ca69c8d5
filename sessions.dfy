/**
 * What the high-level operations (eAIN, eDAC, eDI, eDO, eTCConfig, eTCValues)
 * share: the run of command exchanges an operation makes, and the FIO/EIO analog
 * masks several of them read, change and write back with ConfigIO.
 *
 * Each operation is specified by a function from the device script to a
 * `Session`: the status it returns, the frames it sends in order, and the
 * device as it leaves it. Its method is proved to produce exactly that session.
 */
module Sessions {
  import opened Bytes
  import opened Outcomes
  import opened Transport
  import opened Commands
  import opened Bits

  /**
   * A run of exchanges: the status so far, the frames sent, the device as it now
   * stands, and the result bytes the last Feedback exchange copied out.
   */
  datatype Session = Session(status: int, frames: seq<seq<byte>>, device: Responder, data: seq<byte>)

  /** A run that has not talked to the device (yet). */
  function Idle(d: Responder): Session
  {
    Session(0, [], d, [])
  }

  /** A run that stops with `status` before any exchange. */
  function Refused(status: int, d: Responder): Session
  {
    Session(status, [], d, [])
  }

  /** What the device answers to a ConfigIO frame at this point. */
  function ConfigIOReplyAt(d: Responder): Outcome<ConfigIOSettings>
  {
    DecodeConfigIO(d.Answer(12, 12))
  }

  /** A run continued by one ehConfigIO exchange; the status is ehConfigIO's. */
  function WithConfigIO(s: Session, writeMask: byte, timerCounterConfig: byte, dac1Enable: byte,
                        fioAnalog: byte, eioAnalog: byte): (r: Session)
    ensures r.frames == s.frames + [ConfigIOFrame(writeMask, timerCounterConfig, dac1Enable, fioAnalog, eioAnalog)]
    ensures r.device == s.device.After(12)
  {
    Session(ConfigIOReplyAt(s.device).Code(),
            s.frames + [ConfigIOFrame(writeMask, timerCounterConfig, dac1Enable, fioAnalog, eioAnalog)],
            s.device.After(12), [])
  }

  /** What the device answers to a Feedback frame carrying `payload` at this point. */
  function FeedbackReplyAt(d: Responder, payload: seq<byte>, outDataSize: nat): Outcome<FeedbackReply>
  {
    DecodeFeedback(d.Answer(|FeedbackFrame(payload)|, FeedbackResponseLength(outDataSize)), outDataSize)
  }

  /**
   * A run continued by one Feedback exchange. Every operation returns -1 when
   * ehFeedback fails, else the device's error code (0 when it reports none).
   */
  function WithFeedback(s: Session, payload: seq<byte>, outDataSize: nat): (r: Session)
    ensures r.frames == s.frames + [FeedbackFrame(payload)]
    ensures r.device == s.device.After(|FeedbackFrame(payload)|)
    ensures r.status == -1 || 0 <= r.status <= 255
  {
    var reply := FeedbackReplyAt(s.device, payload, outDataSize);
    Session(if reply.Failed? then -1 else reply.value.errorcode,
            s.frames + [FeedbackFrame(payload)],
            s.device.After(|FeedbackFrame(payload)|),
            if reply.Failed? then [] else reply.value.data)
  }

  /** A device that answers a Feedback frame with error code 0 and `data` yields status 0 and that data. */
  lemma WithFeedbackOfWorkingDevice(s: Session, payload: seq<byte>, data: seq<byte>, rest: seq<seq<byte>>)
    requires s.device.NextCount() >= |FeedbackFrame(payload)|
    requires s.device.replies == [FeedbackResponse(0, 0, data)] + rest
    ensures WithFeedback(s, payload, |data|).status == 0
    ensures WithFeedback(s, payload, |data|).data == data
  {
    FeedbackRoundTrip(0, 0, data);
  }

  /**
   * The Feedback exchange that continues a run `s` the link has performed so far
   * (after the frames `before`): the status the source derives from ehFeedback's
   * result and the device's error code, and the result bytes in `outDataBuff`.
   */
  method FeedbackExchange(link: Link, ghost before: seq<seq<byte>>, ghost s: Session,
                          payload: seq<byte>, outDataBuff: array<byte>, outDataSize: nat) returns (status: int)
    requires outDataSize <= outDataBuff.Length
    requires link.sent == before + s.frames && link.device == s.device
    modifies link, outDataBuff
    ensures var r := WithFeedback(s, payload, outDataSize);
      status == r.status && link.sent == before + r.frames && link.device == r.device &&
      (status == 0 ==> outDataBuff[..] == r.data + old(outDataBuff[..])[|r.data|..])
  {
    var ret, errorcode, errorFrame := EhFeedback(link, payload, outDataBuff, outDataSize);
    assert link.sent == before + (s.frames + [FeedbackFrame(payload)]);
    if ret < 0 {
      return -1;
    }
    if errorcode != 0 {
      return errorcode;
    }
    status := 0;
  }

  /**
   * The ehConfigIO exchange that continues a run `s` the link has performed so
   * far (after the frames `before`), with the settings the device answered.
   */
  method ConfigIOExchange(link: Link, ghost before: seq<seq<byte>>, ghost s: Session, writeMask: byte,
                          timerCounterConfig: byte, dac1Enable: byte, fioAnalog: byte, eioAnalog: byte)
    returns (r: Outcome<ConfigIOSettings>)
    requires link.sent == before + s.frames && link.device == s.device
    modifies link
    ensures var t := WithConfigIO(s, writeMask, timerCounterConfig, dac1Enable, fioAnalog, eioAnalog);
      r == ConfigIOReplyAt(s.device) && r.Code() == t.status &&
      link.sent == before + t.frames && link.device == t.device
  {
    r := EhConfigIO(link, writeMask, timerCounterConfig, dac1Enable, fioAnalog, eioAnalog);
    assert link.sent == before + (s.frames + [ConfigIOFrame(writeMask, timerCounterConfig, dac1Enable, fioAnalog, eioAnalog)]);
  }

  /** What the device answers to a ConfigTimerClock frame at this point. */
  function ConfigTimerClockReplyAt(d: Responder): Outcome<TimerClock>
  {
    DecodeConfigTimerClock(d.Answer(10, 10))
  }

  /** A run continued by one ehConfigTimerClock exchange; the status is ehConfigTimerClock's. */
  function WithConfigTimerClock(s: Session, timerClockConfig: byte, timerClockDivisor: byte): (r: Session)
    ensures r.frames == s.frames + [ConfigTimerClockFrame(timerClockConfig, timerClockDivisor)]
    ensures r.device == s.device.After(10)
  {
    Session(ConfigTimerClockReplyAt(s.device).Code(),
            s.frames + [ConfigTimerClockFrame(timerClockConfig, timerClockDivisor)],
            s.device.After(10), [])
  }

  /** The ehConfigTimerClock exchange that continues a run `s` the link has performed so far (after the frames `before`). */
  method ConfigTimerClockExchange(link: Link, ghost before: seq<seq<byte>>, ghost s: Session,
                                  timerClockConfig: byte, timerClockDivisor: byte) returns (r: Outcome<TimerClock>)
    requires link.sent == before + s.frames && link.device == s.device
    modifies link
    ensures var t := WithConfigTimerClock(s, timerClockConfig, timerClockDivisor);
      r == ConfigTimerClockReplyAt(s.device) && r.Code() == t.status &&
      link.sent == before + t.frames && link.device == t.device
  {
    r := EhConfigTimerClock(link, timerClockConfig, timerClockDivisor);
    assert link.sent == before + (s.frames + [ConfigTimerClockFrame(timerClockConfig, timerClockDivisor)]);
  }

  // ---------------------------------------------------------------- analog masks

  /** The FIO and EIO analog masks: bit k of `fio` is line k, bit k of `eio` is line 8 + k; a set bit is analog. */
  datatype LineMasks = LineMasks(fio: byte, eio: byte)

  /** Whether the masks configure `line` (0..15) as analog. */
  predicate IsAnalog(m: LineMasks, line: nat)
    requires line < 16
  {
    if line < 8 then BitAt(m.fio, line) else BitAt(m.eio, line - 8)
  }

  /** The masks of a ConfigIO response. */
  function MasksOf(s: ConfigIOSettings): LineMasks
  {
    LineMasks(s.fioAnalog, s.eioAnalog)
  }

  /** Both ports ANDed, as the source combines masks with `&`. */
  function AndMasks(a: LineMasks, b: LineMasks): LineMasks
  {
    LineMasks(And(a.fio, b.fio), And(a.eio, b.eio))
  }

  /** Both ports ORed, as the source combines masks with `|`. */
  function OrMasks(a: LineMasks, b: LineMasks): LineMasks
  {
    LineMasks(Or(a.fio, b.fio), Or(a.eio, b.eio))
  }

  /** A line is analog in the AND of two masks exactly when it is analog in both. */
  lemma AndMasksLine(a: LineMasks, b: LineMasks, line: nat)
    requires line < 16
    ensures IsAnalog(AndMasks(a, b), line) == (IsAnalog(a, line) && IsAnalog(b, line))
  {
    if line < 8 {
      AndBit(a.fio, b.fio, 8, line);
    } else {
      AndBit(a.eio, b.eio, 8, line - 8);
    }
  }

  /** A line is analog in the OR of two masks exactly when it is analog in either. */
  lemma OrMasksLine(a: LineMasks, b: LineMasks, line: nat)
    requires line < 16
    ensures IsAnalog(OrMasks(a, b), line) == (IsAnalog(a, line) || IsAnalog(b, line))
  {
    if line < 8 {
      OrBit(a.fio, b.fio, 8, line);
    } else {
      OrBit(a.eio, b.eio, 8, line - 8);
    }
  }

  /** A ConfigIO frame carrying masks `m` hands the device the write mask, the timer configuration and exactly those masks. */
  lemma ConfigIOFrameCarriesMasks(writeMask: byte, timerCounterConfig: byte, dac1Enable: byte, m: LineMasks)
    ensures var f := ConfigIOFrame(writeMask, timerCounterConfig, dac1Enable, m.fio, m.eio);
      f[6] == writeMask && f[8] == timerCounterConfig && f[9] == dac1Enable &&
      MasksOf(ConfigIOSettings(f[8], f[9], f[10], f[11])) == m
  {
    var f := ConfigIOFrame(writeMask, timerCounterConfig, dac1Enable, m.fio, m.eio);
    assert f[10] == f[6..][4] && f[11] == f[6..][5];
  }
}
