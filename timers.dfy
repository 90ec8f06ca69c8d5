/**
 * eTCConfig and eTCValues: configure the two timers and two counters, and read,
 * update or reset them.
 *
 * eTCConfig sets the timer clock (ConfigTimerClock), reads the analog masks,
 * writes the TimerCounterConfig byte together with masks that make the lines
 * the timers and counters occupy digital (ConfigIO, write mask 13), and sends one
 * TimerConfig sub-command per enabled timer. eTCValues sends one Timer
 * sub-command per timer slot in use, then one Counter sub-command per counter
 * slot in use, and reads each requested value back from its 4-byte result slot.
 */
module Timers {
  import opened Bytes
  import opened Outcomes
  import opened Transport
  import opened Commands
  import opened Bits
  import opened Sessions

  // ---------------------------------------------------------------- slots

  /** How many of the first `k` slots are in use. */
  function UsedBelow(used: seq<bool>, k: nat): (n: nat)
    requires k <= |used|
    ensures n <= k
  {
    if k == 0 then 0 else UsedBelow(used, k - 1) + (if used[k - 1] then 1 else 0)
  }

  /** A used slot is counted among the used slots above it. */
  lemma {:induction false} UsedSlotCounted(used: seq<bool>, i: nat, k: nat)
    requires i < k <= |used| && used[i]
    ensures UsedBelow(used, i) + 1 <= UsedBelow(used, k)
  {
    if i < k - 1 {
      UsedSlotCounted(used, i, k - 1);
    }
  }

  /** The bytes of the used slots among the first `k`, in slot order: how both operations lay out their sub-commands and results. */
  function Gather(used: seq<bool>, items: seq<seq<byte>>, k: nat): seq<byte>
    requires |items| == |used| && k <= |used|
  {
    if k == 0 then [] else Gather(used, items, k - 1) + (if used[k - 1] then items[k - 1] else [])
  }

  /** Where the bytes of slot `k` start when every used slot takes `width` bytes. */
  function SlotStart(used: seq<bool>, width: nat, k: nat): nat
    requires k <= |used|
  {
    if k == 0 then 0 else SlotStart(used, width, k - 1) + (if used[k - 1] then width else 0)
  }

  /** Four and two bytes per used slot: the sub-command and result widths. */
  lemma {:induction false} SlotStartScales(used: seq<bool>, k: nat)
    requires k <= |used|
    ensures SlotStart(used, 4, k) == 4 * UsedBelow(used, k)
    ensures SlotStart(used, 2, k) == 2 * UsedBelow(used, k)
  {
    if k > 0 {
      SlotStartScales(used, k - 1);
    }
  }

  /** With every item `width` bytes long, the used slots take `width` bytes each. */
  lemma {:induction false} GatherLength(used: seq<bool>, items: seq<seq<byte>>, width: nat, k: nat)
    requires |items| == |used| && k <= |used|
    requires forall j :: 0 <= j < |items| ==> |items[j]| == width
    ensures |Gather(used, items, k)| == SlotStart(used, width, k)
  {
    if k > 0 {
      GatherLength(used, items, width, k - 1);
    }
  }

  /** The item of used slot `i` follows those of the used slots before it. */
  lemma {:induction false} GatherSlot(used: seq<bool>, items: seq<seq<byte>>, width: nat, k: nat, i: nat)
    requires |items| == |used| && i < k <= |used| && used[i]
    requires forall j :: 0 <= j < |items| ==> |items[j]| == width
    ensures SlotStart(used, width, i) + width <= |Gather(used, items, k)|
    ensures Gather(used, items, k)[SlotStart(used, width, i)..SlotStart(used, width, i) + width] == items[i]
  {
    var at := SlotStart(used, width, i);
    if i == k - 1 {
      GatherLength(used, items, width, i);
      assert Gather(used, items, k) == Gather(used, items, i) + items[i];
    } else {
      GatherSlot(used, items, width, k - 1, i);
      var prefix := Gather(used, items, k - 1);
      var whole := Gather(used, items, k);
      assert whole == prefix + (if used[k - 1] then items[k - 1] else []);
      assert forall j :: at <= j < at + width ==> whole[j] == prefix[j];
    }
  }

  // ---------------------------------------------------------------- eTCConfig

  /** The pin offset check eTCConfig evidently intends: the first timer/counter line is FIO0..EIO0 (0..8). */
  predicate PinOffsetAccepted(pinOffset: int)
  {
    0 <= pinOffset <= 8
  }

  /** The pin offset check as written: an offset below 0 and above 8 at the same time. */
  predicate PinOffsetRejectedAsWritten(pinOffset: int)
  {
    pinOffset < 0 && pinOffset > 8
  }

  /**
   * The clock base code ConfigTimerClock takes for a TimerClockBaseIndex. The
   * bases of hardware 1.20 and earlier are numbered 10..16 (2 MHz, 6 MHz, 24 MHz,
   * 500 kHz/divisor, 2 MHz/divisor, 6 MHz/divisor, 24 MHz/divisor), those of
   * hardware 1.21 and later 20..26 (4 MHz, 12 MHz, 48 MHz, 1 MHz/divisor,
   * 4 MHz/divisor, 12 MHz/divisor, 48 MHz/divisor); any other index is kept.
   */
  function ClockBaseCode(index: int): int
  {
    if 10 <= index <= 16 then index - 10
    else if 20 <= index <= 26 then index - 20
    else index
  }

  /** The TimerClockConfig byte sent: the base code with bit 7 (configure) set, cut to a uint8. */
  function ClockConfigByte(index: int): (r: byte)
    ensures (10 <= index <= 16 || 20 <= index <= 26) ==> r / 128 == 1 && r % 128 == index % 10
  {
    (ClockBaseCode(index) + 128) % 256
  }

  /** How many timers eTCConfig enables: timer 1 only counts when timer 0 is enabled too. */
  function EnabledTimerCount(enableTimers: seq<int>): (n: nat)
    requires |enableTimers| == 2
    ensures n <= 2
    ensures n == 0 <==> enableTimers[0] == 0
    ensures n == 2 <==> enableTimers[0] != 0 && enableTimers[1] != 0
  {
    if enableTimers[0] == 0 then 0 else if enableTimers[1] == 0 then 1 else 2
  }

  /** The counters eTCConfig enables. */
  function CountersEnabled(enableCounters: seq<int>): seq<bool>
    requires |enableCounters| == 2
  {
    [enableCounters[0] != 0, enableCounters[1] != 0]
  }

  /** The counter-enable bits of the first `k` counters: counter i is bit i + 2. */
  function CounterBitsBelow(enableCounters: seq<int>, k: nat): (r: nat)
    requires k <= |enableCounters|
    ensures r + 4 <= Pow2(k + 2)
  {
    if k == 0 then 0
    else CounterBitsBelow(enableCounters, k - 1) + (if enableCounters[k - 1] != 0 then Pow2(k + 1) else 0)
  }

  /**
   * The TimerCounterConfig byte eTCConfig writes: the counter bits, plus the
   * number of timers, plus 16 times the pin offset, stored in a uint8.
   */
  function TimerCounterConfigByte(enableTimers: seq<int>, enableCounters: seq<int>, pinOffset: int): byte
    requires |enableTimers| == 2 && |enableCounters| == 2
  {
    (CounterBitsBelow(enableCounters, 2) + EnabledTimerCount(enableTimers) + pinOffset * 16) % 256
  }

  /**
   * With an accepted pin offset the byte carries each field in its place: the
   * number of timers in bits 0..1, counter 0 in bit 2, counter 1 in bit 3, the
   * pin offset in bits 4..7.
   */
  lemma TimerCounterConfigFields(enableTimers: seq<int>, enableCounters: seq<int>, pinOffset: int)
    requires |enableTimers| == 2 && |enableCounters| == 2 && PinOffsetAccepted(pinOffset)
    ensures var b := TimerCounterConfigByte(enableTimers, enableCounters, pinOffset);
      b % 4 == EnabledTimerCount(enableTimers) &&
      (b / 4 % 2 == 1 <==> enableCounters[0] != 0) &&
      (b / 8 % 2 == 1 <==> enableCounters[1] != 0) &&
      b / 16 == pinOffset
  {
    var c0 := if enableCounters[0] != 0 then 1 else 0;
    var c1 := if enableCounters[1] != 0 then 1 else 0;
    assert CounterBitsBelow(enableCounters, 1) == 4 * c0;
    assert CounterBitsBelow(enableCounters, 2) == 4 * c0 + 8 * c1;
    PackedFields(EnabledTimerCount(enableTimers), c0, c1, pinOffset);
  }

  /** Fields packed as t + 4 c0 + 8 c1 + 16 p, each within its width, are read back by division and remainder. */
  lemma PackedFields(t: int, c0: int, c1: int, p: int)
    requires 0 <= t < 4 && 0 <= c0 <= 1 && 0 <= c1 <= 1 && 0 <= p < 16
    ensures var b := 4 * c0 + 8 * c1 + t + p * 16;
      b < 256 && b % 256 == b && b % 4 == t && b / 4 % 2 == c0 && b / 8 % 2 == c1 && b / 16 == p
  {
    var b := 4 * c0 + 8 * c1 + t + p * 16;
    assert b == t + 4 * (c0 + 2 * c1 + 4 * p);
    assert b / 4 == c0 + 2 * c1 + 4 * p;
    assert b / 8 == c1 + 2 * p;
  }

  /** The pin offset check as written rejects nothing. */
  lemma PinOffsetRejectedAsWrittenNever(pinOffset: int)
    ensures !PinOffsetRejectedAsWritten(pinOffset)
  {
  }

  /**
   * Offset 16 passes the check as written, though no line 16 exists, and the
   * byte written for one timer then claims pin offset 0.
   */
  lemma PinOffsetSixteenPasses()
    ensures !PinOffsetRejectedAsWritten(16) && !PinOffsetAccepted(16)
    ensures TimerCounterConfigByte([1, 0], [0, 0], 16) == 1
    ensures TimerCounterConfigByte([1, 0], [0, 0], 16) / 16 == 0
  {
    assert CounterBitsBelow([0, 0], 2) == 0;
  }

  /** The masks with `line` made digital: pow(2, bit) subtracted from the port of the line. */
  function WithoutLine(m: LineMasks, line: nat): (r: LineMasks)
    requires line < 16 && IsAnalog(m, line)
    ensures forall k :: 0 <= k < 16 ==> (IsAnalog(r, k) <==> k != line && IsAnalog(m, k))
  {
    if line < 8 then
      ClearBit(m.fio, line);
      LineMasks(m.fio - Bit(line), m.eio)
    else
      ClearBit(m.eio, line - 8);
      LineMasks(m.fio, m.eio - Bit(line - 8))
  }

  /** Subtracting pow(2, k) from a byte with bit k set clears exactly that bit. */
  lemma ClearBit(x: byte, k: nat)
    requires k < 8 && BitAt(x, k)
    ensures x - Bit(k) >= 0
    ensures forall j :: 0 <= j < 8 ==> (BitAt(x - Bit(k), j) <==> j != k && BitAt(x, j))
  {
    SubtractSetBit(x, k, 0);
    forall j | 0 <= j < 8
      ensures BitAt(x - Bit(k), j) <==> j != k && BitAt(x, j)
    {
      SubtractSetBit(x, k, j);
    }
  }

  /** Both masks at 255: every line analog. */
  lemma AllLinesAnalog()
    ensures forall line :: 0 <= line < 16 ==> IsAnalog(LineMasks(255, 255), line)
  {
    forall line | 0 <= line < 16
      ensures IsAnalog(LineMasks(255, 255), line)
    {
      AllOnesByte(if line < 8 then line else line - 8);
    }
  }

  /**
   * The masks eTCConfig starts from: 255 in both ports with the `count` lines
   * from `pinOffset` on made digital, exactly those and no others.
   */
  function ReservedMasks(count: nat, pinOffset: nat): (r: LineMasks)
    requires pinOffset + count <= 16
    ensures forall line :: 0 <= line < 16 ==> (IsAnalog(r, line) <==> !(pinOffset <= line < pinOffset + count))
  {
    if count == 0 then
      AllLinesAnalog();
      LineMasks(255, 255)
    else
      WithoutLine(ReservedMasks(count - 1, pinOffset), pinOffset + count - 1)
  }

  /** The masks eTCConfig writes: the reserved masks ANDed with the current ones. */
  function TimerCounterMasks(count: nat, pinOffset: nat, current: LineMasks): LineMasks
    requires pinOffset + count <= 16
  {
    AndMasks(ReservedMasks(count, pinOffset), current)
  }

  /** The written masks make the timer/counter lines digital and leave every other line as it was. */
  lemma TimerCounterMasksLines(count: nat, pinOffset: nat, current: LineMasks, line: nat)
    requires pinOffset + count <= 16 && line < 16
    ensures IsAnalog(TimerCounterMasks(count, pinOffset, current), line)
         == (!(pinOffset <= line < pinOffset + count) && IsAnalog(current, line))
  {
    AndMasksLine(ReservedMasks(count, pinOffset), current, line);
  }

  /**
   * eTCConfig's counting loops: the number of timers, the TimerCounterConfig
   * byte and the reserved masks.
   */
  method TimerCounterLines(enableTimers: seq<int>, enableCounters: seq<int>, pinOffset: int)
    returns (numTimers: nat, timerCounterConfig: byte, fioAnalog: byte, eioAnalog: byte)
    requires |enableTimers| == 2 && |enableCounters| == 2 && PinOffsetAccepted(pinOffset)
    ensures numTimers == EnabledTimerCount(enableTimers)
    ensures timerCounterConfig == TimerCounterConfigByte(enableTimers, enableCounters, pinOffset)
    ensures LineMasks(fioAnalog, eioAnalog)
         == ReservedMasks(numTimers + UsedBelow(CountersEnabled(enableCounters), 2), pinOffset)
  {
    numTimers := 0;
    var numCounters := 0;
    timerCounterConfig := 0;

    var i := 0;
    while i < 2
      invariant 0 <= i <= 2 || i == 1000
      invariant i <= 2 ==> numTimers == i && forall j :: 0 <= j < i ==> enableTimers[j] != 0
      invariant i == 1000 ==> numTimers == EnabledTimerCount(enableTimers)
    {
      if enableTimers[i] != 0 {
        numTimers := numTimers + 1;
      } else {
        i := 999;
      }
      i := i + 1;
    }

    i := 0;
    while i < 2
      invariant 0 <= i <= 2
      invariant numCounters == UsedBelow(CountersEnabled(enableCounters), i)
      invariant timerCounterConfig == CounterBitsBelow(enableCounters, i)
    {
      if enableCounters[i] != 0 {
        Pow2Monotone(i + 4, 5);
        numCounters := numCounters + 1;
        timerCounterConfig := timerCounterConfig + Pow2(i + 2);
      }
      i := i + 1;
    }

    timerCounterConfig := (timerCounterConfig + numTimers + pinOffset * 16) % 256;

    fioAnalog, eioAnalog := ReserveLines(numCounters + numTimers, pinOffset);
  }

  /** eTCConfig's mask loop: from 255 in both ports, subtract pow(2, line) for each of the `count` lines from `pinOffset` on. */
  method ReserveLines(count: nat, pinOffset: nat) returns (fioAnalog: byte, eioAnalog: byte)
    requires pinOffset + count <= 16
    ensures LineMasks(fioAnalog, eioAnalog) == ReservedMasks(count, pinOffset)
  {
    fioAnalog, eioAnalog := 255, 255;
    var i := 0;
    while i < count
      invariant 0 <= i <= count
      invariant LineMasks(fioAnalog, eioAnalog) == ReservedMasks(i, pinOffset)
    {
      assert IsAnalog(LineMasks(fioAnalog, eioAnalog), i + pinOffset);
      if i + pinOffset < 8 {
        ClearBit(fioAnalog, i + pinOffset);
        fioAnalog := fioAnalog - Bit(i + pinOffset);
      } else {
        ClearBit(eioAnalog, i + pinOffset - 8);
        eioAnalog := eioAnalog - Bit(i + pinOffset - 8);
      }
      i := i + 1;
    }
  }

  /**
   * The TimerConfig sub-command of timer i: IOType 43 + 2i, the mode and the
   * low 16 bits of the value, each cut to a uint8.
   */
  function TimerConfigCommand(i: nat, timerMode: int, timerValue: int): seq<byte>
    requires i < 2
  {
    [43 + 2 * i, timerMode % 256, timerValue % 256, (timerValue / 256) % 256]
  }

  /** The TimerConfig sub-commands of both timers. */
  function TimerConfigCommands(timerModes: seq<int>, timerValues: seq<int>): seq<seq<byte>>
    requires |timerModes| == 2 && |timerValues| == 2
  {
    [TimerConfigCommand(0, timerModes[0], timerValues[0]), TimerConfigCommand(1, timerModes[1], timerValues[1])]
  }

  /** eTCConfig's Feedback payload: the TimerConfig sub-commands of the first `numTimers` timers. */
  function TimerConfigPayload(numTimers: nat, timerModes: seq<int>, timerValues: seq<int>): seq<byte>
    requires numTimers <= 2 && |timerModes| == 2 && |timerValues| == 2
  {
    Gather([true, true], TimerConfigCommands(timerModes, timerValues), numTimers)
  }

  /**
   * Timer i's sub-command is bytes 4i..4i+3 of the payload, and its two value
   * bytes give back the value modulo 2^16.
   */
  lemma TimerConfigPayloadLayout(numTimers: nat, timerModes: seq<int>, timerValues: seq<int>, i: nat)
    requires numTimers <= 2 && |timerModes| == 2 && |timerValues| == 2 && i < numTimers
    ensures var p := TimerConfigPayload(numTimers, timerModes, timerValues);
      |p| == 4 * numTimers &&
      p[4 * i..4 * i + 4] == TimerConfigCommand(i, timerModes[i], timerValues[i]) &&
      p[4 * i] == 43 + 2 * i && p[4 * i + 1] == timerModes[i] % 256 &&
      p[4 * i + 2] as int + 256 * p[4 * i + 3] as int == timerValues[i] % 0x1_0000
  {
    var commands := TimerConfigCommands(timerModes, timerValues);
    assert UsedBelow([true, true], i) == i;
    assert UsedBelow([true, true], numTimers) == numTimers;
    SlotStartScales([true, true], i);
    SlotStartScales([true, true], numTimers);
    GatherLength([true, true], commands, 4, numTimers);
    GatherSlot([true, true], commands, 4, numTimers, i);
    LowBytes16(timerValues[i]);
  }

  /** The two low bytes of a value, as the source cuts them, make up the value modulo 2^16. */
  lemma LowBytes16(v: int)
    ensures v % 256 + 256 * ((v / 256) % 256) == v % 0x1_0000
  {
    var q := v / 256;
    assert v == 256 * q + v % 256;
    assert q == 256 * (q / 256) + q % 256;
    assert v == 0x1_0000 * (q / 256) + (256 * (q % 256) + v % 256);
    assert 0 <= 256 * (q % 256) + v % 256 < 0x1_0000;
  }

  /** eTCConfig's payload loop: the 8-byte buffer zeroed, then four bytes per enabled timer. */
  method BuildTimerConfigPayload(numTimers: nat, timerModes: seq<int>, timerValues: seq<int>) returns (payload: seq<byte>)
    requires numTimers <= 2 && |timerModes| == 2 && |timerValues| == 2
    ensures payload == TimerConfigPayload(numTimers, timerModes, timerValues)
  {
    var sendDataBuff := new byte[8](_ => 0);
    ghost var commands := TimerConfigCommands(timerModes, timerValues);
    var i := 0;
    while i < numTimers
      invariant 0 <= i <= numTimers
      invariant sendDataBuff[..4 * i] == Gather([true, true], commands, i)
    {
      ghost var prev := sendDataBuff[..4 * i];
      sendDataBuff[i * 4] := 43 + i * 2;
      sendDataBuff[1 + i * 4] := timerModes[i] % 256;
      sendDataBuff[2 + i * 4] := timerValues[i] % 256;
      sendDataBuff[3 + i * 4] := (timerValues[i] / 256) % 256;
      assert sendDataBuff[..4 * i + 4] == prev + commands[i];
      i := i + 1;
    }
    payload := sendDataBuff[..4 * numTimers];
  }

  /**
   * The ConfigIO write eTCConfig sends once the device has reported its current
   * settings `cur`: write mask 13, the TimerCounterConfig byte, DAC1 off, and the
   * reported masks with the timer/counter lines cleared.
   */
  function TCConfigWriteFrame(enableTimers: seq<int>, enableCounters: seq<int>, pinOffset: int, cur: ConfigIOSettings): seq<byte>
    requires |enableTimers| == 2 && |enableCounters| == 2 && PinOffsetAccepted(pinOffset)
  {
    var m := TCConfigWriteMasks(enableTimers, enableCounters, pinOffset, cur);
    ConfigIOFrame(13, TimerCounterConfigByte(enableTimers, enableCounters, pinOffset), 0, m.fio, m.eio)
  }

  /** The masks of that write: the reported masks with the timer/counter lines cleared. */
  function TCConfigWriteMasks(enableTimers: seq<int>, enableCounters: seq<int>, pinOffset: int, cur: ConfigIOSettings): LineMasks
    requires |enableTimers| == 2 && |enableCounters| == 2 && PinOffsetAccepted(pinOffset)
  {
    TimerCounterMasks(EnabledTimerCount(enableTimers) + UsedBelow(CountersEnabled(enableCounters), 2), pinOffset, MasksOf(cur))
  }

  /**
   * The write frame carries the offset, and makes exactly the timer/counter lines
   * digital while keeping every other line as the device reported it.
   */
  lemma TCConfigWriteFrameLines(enableTimers: seq<int>, enableCounters: seq<int>, pinOffset: int, cur: ConfigIOSettings, line: nat)
    requires |enableTimers| == 2 && |enableCounters| == 2 && PinOffsetAccepted(pinOffset) && line < 16
    ensures var f := TCConfigWriteFrame(enableTimers, enableCounters, pinOffset, cur);
      var count := EnabledTimerCount(enableTimers) + UsedBelow(CountersEnabled(enableCounters), 2);
      |f| == 12 && f[6] == 13 && f[8] / 16 == pinOffset && f[8] % 4 == EnabledTimerCount(enableTimers) &&
      IsAnalog(MasksOf(ConfigIOSettings(f[8], f[9], f[10], f[11])), line)
        == (!(pinOffset <= line < pinOffset + count) && IsAnalog(MasksOf(cur), line))
  {
    var count := EnabledTimerCount(enableTimers) + UsedBelow(CountersEnabled(enableCounters), 2);
    var m := TCConfigWriteMasks(enableTimers, enableCounters, pinOffset, cur);
    var tcc := TimerCounterConfigByte(enableTimers, enableCounters, pinOffset);
    var f := ConfigIOFrame(13, tcc, 0, m.fio, m.eio);
    assert f == TCConfigWriteFrame(enableTimers, enableCounters, pinOffset, cur);
    ConfigIOFrameCarriesMasks(13, tcc, 0, m);
    TimerCounterConfigFields(enableTimers, enableCounters, pinOffset);
    TimerCounterMasksLines(count, pinOffset, MasksOf(cur), line);
    assert IsAnalog(MasksOf(ConfigIOSettings(f[8], f[9], f[10], f[11])), line) == IsAnalog(m, line);
  }

  /**
   * The configuring part of eTCConfig: the pin offset check, ConfigTimerClock,
   * the ConfigIO read and the ConfigIO write, stopping at the first failure.
   */
  function TCConfigSetup(enableTimers: seq<int>, enableCounters: seq<int>, pinOffset: int, clockBaseIndex: int,
                         clockDivisor: int, d: Responder): Session
    requires |enableTimers| == 2 && |enableCounters| == 2
  {
    if !PinOffsetAccepted(pinOffset) then Refused(-1, d)
    else
      var clocked := WithConfigTimerClock(Idle(d), ClockConfigByte(clockBaseIndex), clockDivisor % 256);
      if clocked.status != 0 then clocked
      else
        var read := WithConfigIO(clocked, 0, 0, 0, 0, 0);
        var cur := ConfigIOReplyAt(clocked.device);
        if cur.Failed? then read
        else
          var m := TCConfigWriteMasks(enableTimers, enableCounters, pinOffset, cur.value);
          WithConfigIO(read, 13, TimerCounterConfigByte(enableTimers, enableCounters, pinOffset), 0, m.fio, m.eio)
  }

  /** eTCConfig: the status it returns, the frames it sends and where it leaves the device. */
  function TCConfigRun(enableTimers: seq<int>, enableCounters: seq<int>, pinOffset: int, clockBaseIndex: int,
                       clockDivisor: int, timerModes: seq<int>, timerValues: seq<int>, d: Responder): Session
    requires |enableTimers| == 2 && |enableCounters| == 2 && |timerModes| == 2 && |timerValues| == 2
  {
    var setup := TCConfigSetup(enableTimers, enableCounters, pinOffset, clockBaseIndex, clockDivisor, d);
    var numTimers := EnabledTimerCount(enableTimers);
    if setup.status != 0 || numTimers == 0 then setup
    else WithFeedback(setup, TimerConfigPayload(numTimers, timerModes, timerValues), 0)
  }

  /**
   * eTCConfig, with the pin offset check it evidently intends (u3TempNew.c).
   * The timer values are the whole numbers the source truncates its doubles to.
   */
  method ETCConfig(link: Link, enableTimers: seq<int>, enableCounters: seq<int>, pinOffset: int, clockBaseIndex: int,
                   clockDivisor: int, timerModes: seq<int>, timerValues: seq<int>) returns (ret: int)
    requires |enableTimers| == 2 && |enableCounters| == 2 && |timerModes| == 2 && |timerValues| == 2
    modifies link
    ensures var run := TCConfigRun(enableTimers, enableCounters, pinOffset, clockBaseIndex, clockDivisor,
                                   timerModes, timerValues, old(link.device));
      ret == run.status && link.sent == old(link.sent) + run.frames && link.device == run.device
    ensures !PinOffsetAccepted(pinOffset) ==> ret == -1 && link.sent == old(link.sent)
  {
    var noData := new byte[0];
    ghost var setup := TCConfigSetup(enableTimers, enableCounters, pinOffset, clockBaseIndex, clockDivisor, link.device);
    var numTimers;
    ret, numTimers := ConfigureTimerCounterLines(link, enableTimers, enableCounters, pinOffset, clockBaseIndex, clockDivisor);
    if ret != 0 {
      return ret;
    }
    if numTimers > 0 {
      var payload := BuildTimerConfigPayload(numTimers, timerModes, timerValues);
      ret := FeedbackExchange(link, old(link.sent), setup, payload, noData, 0);
    }
  }

  /** The configuring part of eTCConfig, up to and including the ConfigIO write. */
  method ConfigureTimerCounterLines(link: Link, enableTimers: seq<int>, enableCounters: seq<int>, pinOffset: int,
                                    clockBaseIndex: int, clockDivisor: int) returns (ret: int, numTimers: nat)
    requires |enableTimers| == 2 && |enableCounters| == 2
    modifies link
    ensures var setup := TCConfigSetup(enableTimers, enableCounters, pinOffset, clockBaseIndex, clockDivisor, old(link.device));
      ret == setup.status && link.sent == old(link.sent) + setup.frames && link.device == setup.device
    ensures numTimers == EnabledTimerCount(enableTimers)
  {
    numTimers := EnabledTimerCount(enableTimers);
    if pinOffset < 0 || pinOffset > 8 {
      return -1, numTimers;
    }
    var baseIndex := clockBaseIndex;
    if 10 <= baseIndex <= 16 {
      baseIndex := baseIndex - 10;
    } else if 20 <= baseIndex <= 26 {
      baseIndex := baseIndex - 20;
    }
    assert baseIndex == ClockBaseCode(clockBaseIndex);
    var timerClockConfig: byte := (baseIndex + 128) % 256;
    assert timerClockConfig == ClockConfigByte(clockBaseIndex);
    ghost var setup := TCConfigSetup(enableTimers, enableCounters, pinOffset, clockBaseIndex, clockDivisor, link.device);
    ghost var d := link.device;
    ghost var clocked := WithConfigTimerClock(Idle(d), timerClockConfig, clockDivisor % 256);
    var clock := ConfigTimerClockExchange(link, old(link.sent), Idle(d), timerClockConfig, clockDivisor % 256);
    if clock.Failed? {
      assert setup == clocked;
      return clock.code, numTimers;
    }
    ghost var read := WithConfigIO(clocked, 0, 0, 0, 0, 0);
    var cur := ConfigIOExchange(link, old(link.sent), clocked, 0, 0, 0, 0, 0);
    if cur.Failed? {
      assert setup == read;
      return cur.code, numTimers;
    }
    var timerCounterConfig, fioAnalog, eioAnalog := WriteSettings(enableTimers, enableCounters, pinOffset, cur.value);
    assert setup == WithConfigIO(read, 13, timerCounterConfig, 0, fioAnalog, eioAnalog);
    var reply := ConfigIOExchange(link, old(link.sent), read, 13, timerCounterConfig, 0, fioAnalog, eioAnalog);
    ret := reply.Code();
  }

  /** The TimerCounterConfig byte and the masks eTCConfig writes, given the device's current settings. */
  method WriteSettings(enableTimers: seq<int>, enableCounters: seq<int>, pinOffset: int, cur: ConfigIOSettings)
    returns (timerCounterConfig: byte, fioAnalog: byte, eioAnalog: byte)
    requires |enableTimers| == 2 && |enableCounters| == 2 && PinOffsetAccepted(pinOffset)
    ensures timerCounterConfig == TimerCounterConfigByte(enableTimers, enableCounters, pinOffset)
    ensures LineMasks(fioAnalog, eioAnalog) == TCConfigWriteMasks(enableTimers, enableCounters, pinOffset, cur)
  {
    var numTimers;
    numTimers, timerCounterConfig, fioAnalog, eioAnalog := TimerCounterLines(enableTimers, enableCounters, pinOffset);
    fioAnalog := And(fioAnalog, cur.fioAnalog);
    eioAnalog := And(eioAnalog, cur.eioAnalog);
  }

  /**
   * Configuring succeeds only after ConfigTimerClock, a ConfigIO read that the
   * device answered, and the ConfigIO write built from that answer, in that order.
   */
  lemma TCConfigSetupFrames(enableTimers: seq<int>, enableCounters: seq<int>, pinOffset: int, clockBaseIndex: int,
                            clockDivisor: int, d: Responder)
    requires |enableTimers| == 2 && |enableCounters| == 2
    requires TCConfigSetup(enableTimers, enableCounters, pinOffset, clockBaseIndex, clockDivisor, d).status == 0
    ensures PinOffsetAccepted(pinOffset) && ConfigIOReplyAt(d.After(10)).Done?
    ensures var frames := TCConfigSetup(enableTimers, enableCounters, pinOffset, clockBaseIndex, clockDivisor, d).frames;
      |frames| == 3 &&
      frames[0] == ConfigTimerClockFrame(ClockConfigByte(clockBaseIndex), clockDivisor % 256) &&
      frames[1] == ConfigIOFrame(0, 0, 0, 0, 0) &&
      frames[2] == TCConfigWriteFrame(enableTimers, enableCounters, pinOffset, ConfigIOReplyAt(d.After(10)).value)
  {
    var setup := TCConfigSetup(enableTimers, enableCounters, pinOffset, clockBaseIndex, clockDivisor, d);
    var clocked := WithConfigTimerClock(Idle(d), ClockConfigByte(clockBaseIndex), clockDivisor % 256);
    assert PinOffsetAccepted(pinOffset) && clocked.status == 0 && clocked.device == d.After(10);
    assert ConfigIOReplyAt(clocked.device).Done?;
    var m := TCConfigWriteMasks(enableTimers, enableCounters, pinOffset, ConfigIOReplyAt(clocked.device).value);
    var tcc := TimerCounterConfigByte(enableTimers, enableCounters, pinOffset);
    assert setup == WithConfigIO(WithConfigIO(clocked, 0, 0, 0, 0, 0), 13, tcc, 0, m.fio, m.eio);
    ThreeExchangeFrames(d, ClockConfigByte(clockBaseIndex), clockDivisor % 256, tcc, m);
  }

  /** The frames of a ConfigTimerClock exchange followed by a ConfigIO read and a ConfigIO write. */
  lemma ThreeExchangeFrames(d: Responder, timerClockConfig: byte, timerClockDivisor: byte, timerCounterConfig: byte, m: LineMasks)
    ensures var frames := WithConfigIO(WithConfigIO(WithConfigTimerClock(Idle(d), timerClockConfig, timerClockDivisor),
                                                    0, 0, 0, 0, 0), 13, timerCounterConfig, 0, m.fio, m.eio).frames;
      |frames| == 3 && frames[0] == ConfigTimerClockFrame(timerClockConfig, timerClockDivisor) &&
      frames[1] == ConfigIOFrame(0, 0, 0, 0, 0) && frames[2] == ConfigIOFrame(13, timerCounterConfig, 0, m.fio, m.eio)
  {
    var clocked := WithConfigTimerClock(Idle(d), timerClockConfig, timerClockDivisor);
    var read := WithConfigIO(clocked, 0, 0, 0, 0, 0);
    var written := WithConfigIO(read, 13, timerCounterConfig, 0, m.fio, m.eio);
    ThreeAppended(ConfigTimerClockFrame(timerClockConfig, timerClockDivisor), ConfigIOFrame(0, 0, 0, 0, 0),
                  ConfigIOFrame(13, timerCounterConfig, 0, m.fio, m.eio), clocked.frames, read.frames, written.frames);
  }

  /** Three frames appended one by one to an empty run, in order. */
  lemma ThreeAppended(f0: seq<byte>, f1: seq<byte>, f2: seq<byte>, s0: seq<seq<byte>>, s1: seq<seq<byte>>, s2: seq<seq<byte>>)
    requires s0 == [] + [f0] && s1 == s0 + [f1] && s2 == s1 + [f2]
    ensures |s2| == 3 && s2[0] == f0 && s2[1] == f1 && s2[2] == f2
  {
  }

  // ---------------------------------------------------------------- eTCValues

  /** The timer slots eTCValues uses: those read or updated. */
  function TimerSlotsUsed(readTimers: seq<int>, updateResetTimers: seq<int>): seq<bool>
    requires |readTimers| == 2 && |updateResetTimers| == 2
  {
    [readTimers[0] != 0 || updateResetTimers[0] != 0, readTimers[1] != 0 || updateResetTimers[1] != 0]
  }

  /** The counter slots eTCValues uses: those read or reset. */
  function CounterSlotsUsed(readCounters: seq<int>, resetCounters: seq<int>): seq<bool>
    requires |readCounters| == 2 && |resetCounters| == 2
  {
    [readCounters[0] != 0 || resetCounters[0] != 0, readCounters[1] != 0 || resetCounters[1] != 0]
  }

  /** The Timer sub-command of timer i: IOType 42 + 2i, the update flag, the low 16 bits of the new value. */
  function TimerCommand(i: nat, updateReset: int, timerValue: int): seq<byte>
    requires i < 2
  {
    [42 + 2 * i, if updateReset != 0 then 1 else 0, timerValue % 256, (timerValue / 256) % 256]
  }

  /** The Counter sub-command of counter i: IOType 54 + i and the reset flag. */
  function CounterCommand(i: nat, reset: int): seq<byte>
    requires i < 2
  {
    [54 + i, if reset != 0 then 1 else 0]
  }

  /** The Timer sub-commands of both slots. */
  function TimerCommands(updateResetTimers: seq<int>, timerValues: seq<int>): seq<seq<byte>>
    requires |updateResetTimers| == 2 && |timerValues| == 2
  {
    [TimerCommand(0, updateResetTimers[0], timerValues[0]), TimerCommand(1, updateResetTimers[1], timerValues[1])]
  }

  /** The Counter sub-commands of both slots. */
  function CounterCommands(resetCounters: seq<int>): seq<seq<byte>>
    requires |resetCounters| == 2
  {
    [CounterCommand(0, resetCounters[0]), CounterCommand(1, resetCounters[1])]
  }

  /** eTCValues's Feedback payload: the Timer sub-commands of the used timer slots, then the Counter sub-commands of the used counter slots. */
  function TCValuesPayload(readTimers: seq<int>, updateResetTimers: seq<int>, readCounters: seq<int>,
                           resetCounters: seq<int>, timerValues: seq<int>): seq<byte>
    requires |readTimers| == 2 && |updateResetTimers| == 2 && |readCounters| == 2 && |resetCounters| == 2 && |timerValues| == 2
  {
    Gather(TimerSlotsUsed(readTimers, updateResetTimers), TimerCommands(updateResetTimers, timerValues), 2) +
    Gather(CounterSlotsUsed(readCounters, resetCounters), CounterCommands(resetCounters), 2)
  }

  /** The result bytes eTCValues asks for: four per used slot, timers first. */
  function TCValuesResultSize(readTimers: seq<int>, updateResetTimers: seq<int>, readCounters: seq<int>,
                              resetCounters: seq<int>): nat
    requires |readTimers| == 2 && |updateResetTimers| == 2 && |readCounters| == 2 && |resetCounters| == 2
  {
    4 * (UsedBelow(TimerSlotsUsed(readTimers, updateResetTimers), 2) + UsedBelow(CounterSlotsUsed(readCounters, resetCounters), 2))
  }

  /**
   * The payload holds every Timer sub-command in its first 4 * numTimers bytes,
   * each after those of the used timer slots before it, and the Counter
   * sub-commands after them.
   */
  lemma TCValuesTimerCommandPlaced(readTimers: seq<int>, updateResetTimers: seq<int>, readCounters: seq<int>,
                                   resetCounters: seq<int>, timerValues: seq<int>, i: nat)
    requires |readTimers| == 2 && |updateResetTimers| == 2 && |readCounters| == 2 && |resetCounters| == 2 && |timerValues| == 2
    requires i < 2
    ensures var p := TCValuesPayload(readTimers, updateResetTimers, readCounters, resetCounters, timerValues);
      var timerUsed := TimerSlotsUsed(readTimers, updateResetTimers);
      var numTimers := UsedBelow(timerUsed, 2);
      var t := 4 * UsedBelow(timerUsed, i);
      |p| == 4 * numTimers + 2 * UsedBelow(CounterSlotsUsed(readCounters, resetCounters), 2) &&
      (timerUsed[i] ==> t + 4 <= 4 * numTimers && p[t..t + 4] == TimerCommand(i, updateResetTimers[i], timerValues[i]))
  {
    var timerUsed := TimerSlotsUsed(readTimers, updateResetTimers);
    var counterUsed := CounterSlotsUsed(readCounters, resetCounters);
    var timerCommands := TimerCommands(updateResetTimers, timerValues);
    var counterCommands := CounterCommands(resetCounters);
    var timers := Gather(timerUsed, timerCommands, 2);
    var counters := Gather(counterUsed, counterCommands, 2);
    assert TCValuesPayload(readTimers, updateResetTimers, readCounters, resetCounters, timerValues) == timers + counters;
    GatherPlaced(timerUsed, timerCommands, 4, i);
    GatherPlaced(counterUsed, counterCommands, 2, i);
    ConcatSlices(timers, counters, 4 * UsedBelow(timerUsed, i), 0, 4);
  }

  /** Every Counter sub-command follows the Timer sub-commands, after those of the used counter slots before it. */
  lemma TCValuesCounterCommandPlaced(readTimers: seq<int>, updateResetTimers: seq<int>, readCounters: seq<int>,
                                     resetCounters: seq<int>, timerValues: seq<int>, i: nat)
    requires |readTimers| == 2 && |updateResetTimers| == 2 && |readCounters| == 2 && |resetCounters| == 2 && |timerValues| == 2
    requires i < 2
    ensures var p := TCValuesPayload(readTimers, updateResetTimers, readCounters, resetCounters, timerValues);
      var counterUsed := CounterSlotsUsed(readCounters, resetCounters);
      var c := 4 * UsedBelow(TimerSlotsUsed(readTimers, updateResetTimers), 2) + 2 * UsedBelow(counterUsed, i);
      counterUsed[i] ==> c + 2 <= |p| && p[c..c + 2] == CounterCommand(i, resetCounters[i])
  {
    var timerUsed := TimerSlotsUsed(readTimers, updateResetTimers);
    var counterUsed := CounterSlotsUsed(readCounters, resetCounters);
    var timerCommands := TimerCommands(updateResetTimers, timerValues);
    var counterCommands := CounterCommands(resetCounters);
    var timers := Gather(timerUsed, timerCommands, 2);
    var counters := Gather(counterUsed, counterCommands, 2);
    assert TCValuesPayload(readTimers, updateResetTimers, readCounters, resetCounters, timerValues) == timers + counters;
    GatherPlaced(timerUsed, timerCommands, 4, 0);
    GatherPlaced(counterUsed, counterCommands, 2, i);
    ConcatSlices(timers, counters, 0, 2 * UsedBelow(counterUsed, i), 2);
  }

  /** A slice of a concatenation that lies within one part is that part's slice. */
  lemma ConcatSlices(a: seq<byte>, b: seq<byte>, t: nat, c: nat, width: nat)
    ensures t + width <= |a| ==> (a + b)[t..t + width] == a[t..t + width]
    ensures c + width <= |b| ==> (a + b)[|a| + c..|a| + c + width] == b[c..c + width]
  {
  }

  /** Where item i of a gathered run of two slots sits, for the two widths eTCValues uses. */
  lemma GatherPlaced(used: seq<bool>, items: seq<seq<byte>>, width: nat, i: nat)
    requires |used| == 2 && |items| == 2 && i < 2 && (width == 4 || width == 2)
    requires forall j :: 0 <= j < 2 ==> |items[j]| == width
    ensures |Gather(used, items, 2)| == width * UsedBelow(used, 2)
    ensures used[i] ==> var t := width * UsedBelow(used, i);
      t + width <= |Gather(used, items, 2)| && Gather(used, items, 2)[t..t + width] == items[i]
  {
    SlotStartScales(used, i);
    SlotStartScales(used, 2);
    GatherLength(used, items, width, 2);
    if used[i] {
      GatherSlot(used, items, width, 2, i);
    }
  }

  /** eTCValues: the status it returns, the frame it sends, where it leaves the device, and the result bytes. */
  function TCValuesRun(readTimers: seq<int>, updateResetTimers: seq<int>, readCounters: seq<int>,
                       resetCounters: seq<int>, timerValues: seq<int>, d: Responder): Session
    requires |readTimers| == 2 && |updateResetTimers| == 2 && |readCounters| == 2 && |resetCounters| == 2 && |timerValues| == 2
  {
    WithFeedback(Idle(d), TCValuesPayload(readTimers, updateResetTimers, readCounters, resetCounters, timerValues),
                 TCValuesResultSize(readTimers, updateResetTimers, readCounters, resetCounters))
  }

  /** Timer i's value: its 4-byte result slot read little-endian when the timer is read, else 0. */
  function TimerReading(readTimers: seq<int>, updateResetTimers: seq<int>, i: nat, data: seq<byte>): uint32
    requires |readTimers| == 2 && |updateResetTimers| == 2 && i < 2
    requires |data| >= 4 * UsedBelow(TimerSlotsUsed(readTimers, updateResetTimers), 2)
  {
    if readTimers[i] == 0 then 0
    else
      var used := TimerSlotsUsed(readTimers, updateResetTimers);
      UsedSlotCounted(used, i, 2);
      var at := 4 * UsedBelow(used, i);
      LittleEndian32(data[at..at + 4])
  }

  /** Counter i's value: its 4-byte result slot, after the `numTimers` timer slots, read little-endian when the counter is read, else 0. */
  function CounterReading(readCounters: seq<int>, resetCounters: seq<int>, numTimers: nat, i: nat, data: seq<byte>): uint32
    requires |readCounters| == 2 && |resetCounters| == 2 && i < 2
    requires |data| >= 4 * numTimers + 4 * UsedBelow(CounterSlotsUsed(readCounters, resetCounters), 2)
  {
    if readCounters[i] == 0 then 0
    else
      var used := CounterSlotsUsed(readCounters, resetCounters);
      UsedSlotCounted(used, i, 2);
      var at := 4 * numTimers + 4 * UsedBelow(used, i);
      LittleEndian32(data[at..at + 4])
  }

  /** The values eTCValues stores for both timers. */
  function TimerReadings(readTimers: seq<int>, updateResetTimers: seq<int>, data: seq<byte>): seq<int>
    requires |readTimers| == 2 && |updateResetTimers| == 2
    requires |data| >= 4 * UsedBelow(TimerSlotsUsed(readTimers, updateResetTimers), 2)
  {
    [TimerReading(readTimers, updateResetTimers, 0, data), TimerReading(readTimers, updateResetTimers, 1, data)]
  }

  /** The values eTCValues stores for both counters. */
  function CounterReadings(readCounters: seq<int>, resetCounters: seq<int>, numTimers: nat, data: seq<byte>): seq<int>
    requires |readCounters| == 2 && |resetCounters| == 2
    requires |data| >= 4 * numTimers + 4 * UsedBelow(CounterSlotsUsed(readCounters, resetCounters), 2)
  {
    [CounterReading(readCounters, resetCounters, numTimers, 0, data), CounterReading(readCounters, resetCounters, numTimers, 1, data)]
  }

  /** The result bytes of a device holding these timer and counter values: four little-endian bytes per used slot, timers first. */
  function TCValuesResultData(timerUsed: seq<bool>, counterUsed: seq<bool>, timerCounts: seq<uint32>, counterCounts: seq<uint32>): seq<byte>
    requires |timerUsed| == 2 && |counterUsed| == 2 && |timerCounts| == 2 && |counterCounts| == 2
  {
    Gather(timerUsed, [LittleEndianBytes32(timerCounts[0]), LittleEndianBytes32(timerCounts[1])], 2) +
    Gather(counterUsed, [LittleEndianBytes32(counterCounts[0]), LittleEndianBytes32(counterCounts[1])], 2)
  }

  /**
   * Reading back the result bytes of a device recovers each requested timer and
   * counter value from its own slot, and 0 for the others.
   */
  lemma TCValuesReadsCounts(readTimers: seq<int>, updateResetTimers: seq<int>, readCounters: seq<int>,
                            resetCounters: seq<int>, timerCounts: seq<uint32>, counterCounts: seq<uint32>)
    requires |readTimers| == 2 && |updateResetTimers| == 2 && |readCounters| == 2 && |resetCounters| == 2
    requires |timerCounts| == 2 && |counterCounts| == 2
    ensures var timerUsed := TimerSlotsUsed(readTimers, updateResetTimers);
      var data := TCValuesResultData(timerUsed, CounterSlotsUsed(readCounters, resetCounters), timerCounts, counterCounts);
      |data| == TCValuesResultSize(readTimers, updateResetTimers, readCounters, resetCounters) &&
      TimerReadings(readTimers, updateResetTimers, data)
        == [if readTimers[0] != 0 then timerCounts[0] else 0, if readTimers[1] != 0 then timerCounts[1] else 0] &&
      CounterReadings(readCounters, resetCounters, UsedBelow(timerUsed, 2), data)
        == [if readCounters[0] != 0 then counterCounts[0] else 0, if readCounters[1] != 0 then counterCounts[1] else 0]
  {
    var timerUsed := TimerSlotsUsed(readTimers, updateResetTimers);
    var counterUsed := CounterSlotsUsed(readCounters, resetCounters);
    var data := TCValuesResultData(timerUsed, counterUsed, timerCounts, counterCounts);
    ReadingReadsCount(readTimers, updateResetTimers, readCounters, resetCounters, timerCounts, counterCounts, 0);
    ReadingReadsCount(readTimers, updateResetTimers, readCounters, resetCounters, timerCounts, counterCounts, 1);
  }

  /** The read-back of slot i recovers timer i's and counter i's values when they are read, and 0 otherwise. */
  lemma ReadingReadsCount(readTimers: seq<int>, updateResetTimers: seq<int>, readCounters: seq<int>,
                          resetCounters: seq<int>, timerCounts: seq<uint32>, counterCounts: seq<uint32>, i: nat)
    requires |readTimers| == 2 && |updateResetTimers| == 2 && |readCounters| == 2 && |resetCounters| == 2
    requires |timerCounts| == 2 && |counterCounts| == 2 && i < 2
    ensures var timerUsed := TimerSlotsUsed(readTimers, updateResetTimers);
      var data := TCValuesResultData(timerUsed, CounterSlotsUsed(readCounters, resetCounters), timerCounts, counterCounts);
      |data| == TCValuesResultSize(readTimers, updateResetTimers, readCounters, resetCounters) &&
      TimerReading(readTimers, updateResetTimers, i, data) == (if readTimers[i] != 0 then timerCounts[i] else 0) &&
      CounterReading(readCounters, resetCounters, UsedBelow(timerUsed, 2), i, data) == (if readCounters[i] != 0 then counterCounts[i] else 0)
  {
    var timerUsed := TimerSlotsUsed(readTimers, updateResetTimers);
    var counterUsed := CounterSlotsUsed(readCounters, resetCounters);
    ResultTimerSlot(timerUsed, counterUsed, timerCounts, counterCounts, i);
    ResultCounterSlot(timerUsed, counterUsed, timerCounts, counterCounts, i);
  }

  /** The result bytes take four bytes per used slot, and timer slot i holds timer i's value little-endian. */
  lemma ResultTimerSlot(timerUsed: seq<bool>, counterUsed: seq<bool>, timerCounts: seq<uint32>, counterCounts: seq<uint32>, i: nat)
    requires |timerUsed| == 2 && |counterUsed| == 2 && |timerCounts| == 2 && |counterCounts| == 2 && i < 2
    ensures var data := TCValuesResultData(timerUsed, counterUsed, timerCounts, counterCounts);
      var t := 4 * UsedBelow(timerUsed, i);
      |data| == 4 * UsedBelow(timerUsed, 2) + 4 * UsedBelow(counterUsed, 2) &&
      (timerUsed[i] ==> t + 4 <= |data| && LittleEndian32(data[t..t + 4]) == timerCounts[i])
  {
    var timers := Gather(timerUsed, [LittleEndianBytes32(timerCounts[0]), LittleEndianBytes32(timerCounts[1])], 2);
    var counters := Gather(counterUsed, [LittleEndianBytes32(counterCounts[0]), LittleEndianBytes32(counterCounts[1])], 2);
    RunSlotReadsBack(timerUsed, timerCounts, i);
    RunSlotReadsBack(counterUsed, counterCounts, i);
    FirstRunSlot(timers, counters, 4 * UsedBelow(timerUsed, i), timerUsed[i], timerCounts[i]);
  }

  /** Counter slot i of the result bytes, after the timer slots, holds counter i's value little-endian. */
  lemma ResultCounterSlot(timerUsed: seq<bool>, counterUsed: seq<bool>, timerCounts: seq<uint32>, counterCounts: seq<uint32>, i: nat)
    requires |timerUsed| == 2 && |counterUsed| == 2 && |timerCounts| == 2 && |counterCounts| == 2 && i < 2
    ensures var data := TCValuesResultData(timerUsed, counterUsed, timerCounts, counterCounts);
      var c := 4 * UsedBelow(timerUsed, 2) + 4 * UsedBelow(counterUsed, i);
      counterUsed[i] ==> c + 4 <= |data| && LittleEndian32(data[c..c + 4]) == counterCounts[i]
  {
    var timers := Gather(timerUsed, [LittleEndianBytes32(timerCounts[0]), LittleEndianBytes32(timerCounts[1])], 2);
    var counters := Gather(counterUsed, [LittleEndianBytes32(counterCounts[0]), LittleEndianBytes32(counterCounts[1])], 2);
    RunLength(timerUsed, timerCounts);
    RunSlotReadsBack(counterUsed, counterCounts, i);
    var at := 4 * UsedBelow(counterUsed, i);
    SecondRunSlot(timers, counters, at, counterUsed[i], counterCounts[i]);
    assert TCValuesResultData(timerUsed, counterUsed, timerCounts, counterCounts) == timers + counters;
    assert |timers| == 4 * UsedBelow(timerUsed, 2);
  }

  /** A value read from a slot of the first run reads the same from the whole result. */
  lemma FirstRunSlot(timers: seq<byte>, counters: seq<byte>, at: nat, used: bool, v: uint32)
    requires used ==> at + 4 <= |timers| && LittleEndian32(timers[at..at + 4]) == v
    ensures used ==> at + 4 <= |timers + counters| && LittleEndian32((timers + counters)[at..at + 4]) == v
  {
    ConcatSlices(timers, counters, at, 0, 4);
  }

  /** A value read from a slot of the second run reads the same from the whole result, after the first run. */
  lemma SecondRunSlot(timers: seq<byte>, counters: seq<byte>, at: nat, used: bool, v: uint32)
    requires used ==> at + 4 <= |counters| && LittleEndian32(counters[at..at + 4]) == v
    ensures used ==> |timers| + at + 4 <= |timers + counters| && LittleEndian32((timers + counters)[|timers| + at..|timers| + at + 4]) == v
  {
    ConcatSlices(timers, counters, 0, at, 4);
  }

  /** One run of result bytes takes four bytes per used slot. */
  lemma RunLength(used: seq<bool>, counts: seq<uint32>)
    requires |used| == 2 && |counts| == 2
    ensures |Gather(used, [LittleEndianBytes32(counts[0]), LittleEndianBytes32(counts[1])], 2)| == 4 * UsedBelow(used, 2)
  {
    SlotStartScales(used, 2);
    GatherLength(used, [LittleEndianBytes32(counts[0]), LittleEndianBytes32(counts[1])], 4, 2);
  }

  /** In one run of result bytes, slot i holds the little-endian bytes of its value. */
  lemma RunSlotReadsBack(used: seq<bool>, counts: seq<uint32>, i: nat)
    requires |used| == 2 && |counts| == 2 && i < 2
    ensures var run := Gather(used, [LittleEndianBytes32(counts[0]), LittleEndianBytes32(counts[1])], 2);
      var at := 4 * UsedBelow(used, i);
      |run| == 4 * UsedBelow(used, 2) &&
      (used[i] ==> at + 4 <= |run| && run[at..at + 4] == LittleEndianBytes32(counts[i]) && LittleEndian32(run[at..at + 4]) == counts[i])
  {
    var items := [LittleEndianBytes32(counts[0]), LittleEndianBytes32(counts[1])];
    GatherPlaced(used, items, 4, i);
    LittleEndianRoundTrip(counts[i]);
  }

  /** A device answering eTCValues's Feedback with error code 0 and its result bytes makes eTCValues succeed with those bytes. */
  lemma TCValuesOnWorkingDevice(readTimers: seq<int>, updateResetTimers: seq<int>, readCounters: seq<int>,
                                resetCounters: seq<int>, timerValues: seq<int>, timerCounts: seq<uint32>,
                                counterCounts: seq<uint32>, d: Responder, rest: seq<seq<byte>>)
    requires |readTimers| == 2 && |updateResetTimers| == 2 && |readCounters| == 2 && |resetCounters| == 2 && |timerValues| == 2
    requires |timerCounts| == 2 && |counterCounts| == 2
    requires d.NextCount() >= |FeedbackFrame(TCValuesPayload(readTimers, updateResetTimers, readCounters, resetCounters, timerValues))|
    requires d.replies == [FeedbackResponse(0, 0, TCValuesResultData(TimerSlotsUsed(readTimers, updateResetTimers),
                                                                     CounterSlotsUsed(readCounters, resetCounters),
                                                                     timerCounts, counterCounts))] + rest
    ensures var run := TCValuesRun(readTimers, updateResetTimers, readCounters, resetCounters, timerValues, d);
      run.status == 0 &&
      run.data == TCValuesResultData(TimerSlotsUsed(readTimers, updateResetTimers), CounterSlotsUsed(readCounters, resetCounters),
                                     timerCounts, counterCounts)
  {
    var data := TCValuesResultData(TimerSlotsUsed(readTimers, updateResetTimers), CounterSlotsUsed(readCounters, resetCounters),
                                   timerCounts, counterCounts);
    TCValuesReadsCounts(readTimers, updateResetTimers, readCounters, resetCounters, timerCounts, counterCounts);
    WithFeedbackOfWorkingDevice(Idle(d), TCValuesPayload(readTimers, updateResetTimers, readCounters, resetCounters, timerValues), data, rest);
  }

  /** eTCValues's sub-command loops: the payload, the result size and the number of timer slots. */
  method BuildTCValuesPayload(readTimers: seq<int>, updateResetTimers: seq<int>, readCounters: seq<int>,
                              resetCounters: seq<int>, timerValues: seq<int>)
    returns (payload: seq<byte>, recDataBuffSize: nat, numTimers: nat)
    requires |readTimers| == 2 && |updateResetTimers| == 2 && |readCounters| == 2 && |resetCounters| == 2 && |timerValues| == 2
    ensures payload == TCValuesPayload(readTimers, updateResetTimers, readCounters, resetCounters, timerValues)
    ensures recDataBuffSize == TCValuesResultSize(readTimers, updateResetTimers, readCounters, resetCounters)
    ensures numTimers == UsedBelow(TimerSlotsUsed(readTimers, updateResetTimers), 2)
  {
    var sendDataBuff := new byte[12];
    var sendDataBuffSize;
    sendDataBuffSize, recDataBuffSize, numTimers := PutTimerCommands(sendDataBuff, readTimers, updateResetTimers, timerValues);
    ghost var timers := sendDataBuff[..sendDataBuffSize];
    ghost var start := sendDataBuffSize;
    sendDataBuffSize, recDataBuffSize := PutCounterCommands(sendDataBuff, sendDataBuffSize, recDataBuffSize, readCounters, resetCounters);
    payload := sendDataBuff[..sendDataBuffSize];
    SliceSplit(sendDataBuff[..], start, sendDataBuffSize);
  }

  /** A prefix is the shorter prefix followed by the slice between the two ends. */
  lemma SliceSplit(s: seq<byte>, start: nat, end: nat)
    requires start <= end <= |s|
    ensures s[..end] == s[..start] + s[start..end]
  {
  }

  /** eTCValues's timer loop: the Timer sub-command of each used timer slot, from the start of the buffer. */
  method PutTimerCommands(sendDataBuff: array<byte>, readTimers: seq<int>, updateResetTimers: seq<int>, timerValues: seq<int>)
    returns (sendDataBuffSize: nat, recDataBuffSize: nat, numTimers: nat)
    requires sendDataBuff.Length == 12
    requires |readTimers| == 2 && |updateResetTimers| == 2 && |timerValues| == 2
    modifies sendDataBuff
    ensures numTimers == UsedBelow(TimerSlotsUsed(readTimers, updateResetTimers), 2)
    ensures sendDataBuffSize == 4 * numTimers && recDataBuffSize == 4 * numTimers
    ensures sendDataBuff[..sendDataBuffSize] == Gather(TimerSlotsUsed(readTimers, updateResetTimers), TimerCommands(updateResetTimers, timerValues), 2)
  {
    sendDataBuffSize, recDataBuffSize, numTimers := 0, 0, 0;
    ghost var timerUsed := TimerSlotsUsed(readTimers, updateResetTimers);
    ghost var timerCommands := TimerCommands(updateResetTimers, timerValues);
    var i := 0;
    while i < 2
      invariant 0 <= i <= 2
      invariant numTimers == UsedBelow(timerUsed, i)
      invariant sendDataBuffSize == 4 * numTimers && recDataBuffSize == 4 * numTimers
      invariant sendDataBuff[..sendDataBuffSize] == Gather(timerUsed, timerCommands, i)
    {
      assert timerUsed[i] == (readTimers[i] != 0 || updateResetTimers[i] != 0);
      assert UsedBelow(timerUsed, i + 1) == UsedBelow(timerUsed, i) + (if timerUsed[i] then 1 else 0);
      assert Gather(timerUsed, timerCommands, i + 1) == Gather(timerUsed, timerCommands, i) + (if timerUsed[i] then timerCommands[i] else []);
      if readTimers[i] != 0 || updateResetTimers[i] != 0 {
        PutTimerCommand(sendDataBuff, sendDataBuffSize, i, updateResetTimers[i], timerValues[i]);
        assert timerCommands[i] == TimerCommand(i, updateResetTimers[i], timerValues[i]);
        sendDataBuffSize := sendDataBuffSize + 4;
        recDataBuffSize := recDataBuffSize + 4;
        numTimers := numTimers + 1;
      }
      i := i + 1;
    }
  }

  /** The four bytes of timer i's Timer sub-command, written at `at`. */
  method PutTimerCommand(sendDataBuff: array<byte>, at: nat, i: nat, updateReset: int, timerValue: int)
    requires at + 4 <= sendDataBuff.Length && i < 2
    modifies sendDataBuff
    ensures sendDataBuff[..at + 4] == old(sendDataBuff[..at]) + TimerCommand(i, updateReset, timerValue)
  {
    ghost var before := sendDataBuff[..];
    sendDataBuff[at] := 42 + i * 2;
    sendDataBuff[1 + at] := if updateReset != 0 then 1 else 0;
    sendDataBuff[2 + at] := timerValue % 256;
    sendDataBuff[3 + at] := (timerValue / 256) % 256;
    WrittenAfter(before, sendDataBuff[..], at, TimerCommand(i, updateReset, timerValue));
  }

  /** The two bytes of counter i's Counter sub-command, written at `at`. */
  method PutCounterCommand(sendDataBuff: array<byte>, at: nat, i: nat, reset: int)
    requires at + 2 <= sendDataBuff.Length && i < 2
    modifies sendDataBuff
    ensures sendDataBuff[..at + 2] == old(sendDataBuff[..at]) + CounterCommand(i, reset)
  {
    ghost var before := sendDataBuff[..];
    sendDataBuff[at] := 54 + i;
    sendDataBuff[1 + at] := if reset != 0 then 1 else 0;
    WrittenAfter(before, sendDataBuff[..], at, CounterCommand(i, reset));
  }

  /** Writing `cmd` in place at `k`, keeping every byte before it, appends it to the first k bytes. */
  lemma WrittenAfter(before: seq<byte>, after: seq<byte>, k: nat, cmd: seq<byte>)
    requires k + |cmd| <= |before| == |after|
    requires forall j :: 0 <= j < k ==> after[j] == before[j]
    requires forall j :: 0 <= j < |cmd| ==> after[k + j] == cmd[j]
    ensures after[..k + |cmd|] == before[..k] + cmd
  {
    forall j | 0 <= j < k + |cmd|
      ensures after[..k + |cmd|][j] == (before[..k] + cmd)[j]
    {
      if j >= k {
        assert after[k + (j - k)] == cmd[j - k];
      }
    }
  }

  /** eTCValues's counter loop: the Counter sub-command of each used counter slot, after the timer sub-commands. */
  method PutCounterCommands(sendDataBuff: array<byte>, start: nat, recStart: nat, readCounters: seq<int>, resetCounters: seq<int>)
    returns (sendDataBuffSize: nat, recDataBuffSize: nat)
    requires sendDataBuff.Length == 12 && start <= 8
    requires |readCounters| == 2 && |resetCounters| == 2
    modifies sendDataBuff
    ensures sendDataBuffSize == start + 2 * UsedBelow(CounterSlotsUsed(readCounters, resetCounters), 2)
    ensures recDataBuffSize == recStart + 4 * UsedBelow(CounterSlotsUsed(readCounters, resetCounters), 2)
    ensures sendDataBuff[..start] == old(sendDataBuff[..start])
    ensures sendDataBuff[start..sendDataBuffSize] == Gather(CounterSlotsUsed(readCounters, resetCounters), CounterCommands(resetCounters), 2)
  {
    ghost var counterUsed := CounterSlotsUsed(readCounters, resetCounters);
    ghost var counterCommands := CounterCommands(resetCounters);
    sendDataBuffSize, recDataBuffSize := start, recStart;
    var i := 0;
    while i < 2
      invariant 0 <= i <= 2
      invariant sendDataBuffSize == start + 2 * UsedBelow(counterUsed, i)
      invariant recDataBuffSize == recStart + 4 * UsedBelow(counterUsed, i)
      invariant sendDataBuff[..start] == old(sendDataBuff[..start])
      invariant sendDataBuff[start..sendDataBuffSize] == Gather(counterUsed, counterCommands, i)
    {
      assert counterUsed[i] == (readCounters[i] != 0 || resetCounters[i] != 0);
      assert UsedBelow(counterUsed, i + 1) == UsedBelow(counterUsed, i) + (if counterUsed[i] then 1 else 0);
      assert Gather(counterUsed, counterCommands, i + 1) == Gather(counterUsed, counterCommands, i) + (if counterUsed[i] then counterCommands[i] else []);
      if readCounters[i] != 0 || resetCounters[i] != 0 {
        ghost var prev := sendDataBuff[..sendDataBuffSize];
        PutCounterCommand(sendDataBuff, sendDataBuffSize, i, resetCounters[i]);
        assert counterCommands[i] == CounterCommand(i, resetCounters[i]);
        assert sendDataBuff[start..sendDataBuffSize + 2] == sendDataBuff[..sendDataBuffSize + 2][start..];
        assert prev[start..] == Gather(counterUsed, counterCommands, i);
        sendDataBuffSize := sendDataBuffSize + 2;
        recDataBuffSize := recDataBuffSize + 4;
      }
      i := i + 1;
    }
  }

  /** The inner loop of eTCValues's read-back: four result bytes from `at` on, weighted by pow(2, 8j). */
  method ReadLittleEndian(recDataBuff: array<byte>, at: nat) returns (v: int)
    requires at + 4 <= recDataBuff.Length
    ensures v == LittleEndian32(recDataBuff[at..at + 4])
  {
    ghost var s := recDataBuff[at..at + 4];
    v := 0;
    var j := 0;
    while j < 4
      invariant 0 <= j <= 4
      invariant v == WeightedPrefix(s, j)
    {
      v := v + recDataBuff[j + at] * Pow2(8 * j);
      j := j + 1;
    }
    WeightedPrefixWhole(s);
  }

  /** The sum of s[j] * 2^(8j) over the first `k` bytes. */
  function WeightedPrefix(s: seq<byte>, k: nat): nat
    requires k <= |s|
  {
    if k == 0 then 0 else WeightedPrefix(s, k - 1) + s[k - 1] * Pow2(8 * (k - 1))
  }

  /** Over all four bytes the weighted sum is the little-endian value. */
  lemma WeightedPrefixWhole(s: seq<byte>)
    requires |s| == 4
    ensures WeightedPrefix(s, 4) == LittleEndian32(s)
  {
    assert Pow2(0) == 1 && Pow2(8) == 0x100 && Pow2(16) == 0x1_0000 && Pow2(24) == 0x100_0000;
    assert WeightedPrefix(s, 1) == s[0] as int;
    assert WeightedPrefix(s, 2) == s[0] as int + 0x100 * (s[1] as int);
    assert WeightedPrefix(s, 3) == s[0] as int + 0x100 * (s[1] as int) + 0x1_0000 * (s[2] as int);
  }

  /** eTCValues's read-back loop: each timer and counter value from its result slot, or 0. */
  method ReadTimerCounterValues(recDataBuff: array<byte>, readTimers: seq<int>, updateResetTimers: seq<int>,
                                readCounters: seq<int>, resetCounters: seq<int>, numTimers: nat,
                                timerValues: array<int>, counterValues: array<int>)
    requires recDataBuff.Length == 16 && timerValues.Length == 2 && counterValues.Length == 2 && timerValues != counterValues
    requires |readTimers| == 2 && |updateResetTimers| == 2 && |readCounters| == 2 && |resetCounters| == 2
    requires numTimers == UsedBelow(TimerSlotsUsed(readTimers, updateResetTimers), 2)
    modifies timerValues, counterValues
    ensures timerValues[..] == TimerReadings(readTimers, updateResetTimers, recDataBuff[..])
    ensures counterValues[..] == CounterReadings(readCounters, resetCounters, numTimers, recDataBuff[..])
  {
    ghost var timerUsed := TimerSlotsUsed(readTimers, updateResetTimers);
    ghost var counterUsed := CounterSlotsUsed(readCounters, resetCounters);
    ghost var timers := TimerReadings(readTimers, updateResetTimers, recDataBuff[..]);
    ghost var counters := CounterReadings(readCounters, resetCounters, numTimers, recDataBuff[..]);
    var dataCountTimer, dataCountCounter := 0, 0;
    var i := 0;
    while i < 2
      invariant 0 <= i <= 2
      invariant dataCountTimer == UsedBelow(timerUsed, i) && dataCountCounter == UsedBelow(counterUsed, i)
      invariant timerValues[..i] == timers[..i] && counterValues[..i] == counters[..i]
    {
      assert UsedBelow(timerUsed, i + 1) == UsedBelow(timerUsed, i) + (if timerUsed[i] then 1 else 0);
      assert UsedBelow(counterUsed, i + 1) == UsedBelow(counterUsed, i) + (if counterUsed[i] then 1 else 0);
      var timerValue := ReadTimerSlot(recDataBuff, readTimers, updateResetTimers, i, dataCountTimer);
      timerValues[i] := timerValue;
      if readTimers[i] != 0 || updateResetTimers[i] != 0 {
        dataCountTimer := dataCountTimer + 1;
      }
      var counterValue := ReadCounterSlot(recDataBuff, readCounters, resetCounters, numTimers, i, dataCountCounter);
      counterValues[i] := counterValue;
      if readCounters[i] != 0 || resetCounters[i] != 0 {
        dataCountCounter := dataCountCounter + 1;
      }
      assert timerValues[..i + 1] == timers[..i + 1] && counterValues[..i + 1] == counters[..i + 1];
      i := i + 1;
    }
    assert timerValues[..] == timerValues[..2] && counterValues[..] == counterValues[..2];
  }

  /** One timer's step of the read-back: its result slot when it is read, else 0. */
  method ReadTimerSlot(recDataBuff: array<byte>, readTimers: seq<int>, updateResetTimers: seq<int>, i: nat, dataCountTimer: nat)
    returns (v: int)
    requires recDataBuff.Length == 16 && |readTimers| == 2 && |updateResetTimers| == 2 && i < 2
    requires dataCountTimer == UsedBelow(TimerSlotsUsed(readTimers, updateResetTimers), i)
    ensures v == TimerReading(readTimers, updateResetTimers, i, recDataBuff[..])
  {
    v := 0;
    if readTimers[i] != 0 {
      v := ReadLittleEndian(recDataBuff, dataCountTimer * 4);
    }
  }

  /** One counter's step of the read-back: its result slot, after the timers' slots, when it is read, else 0. */
  method ReadCounterSlot(recDataBuff: array<byte>, readCounters: seq<int>, resetCounters: seq<int>, numTimers: nat, i: nat,
                         dataCountCounter: nat) returns (v: int)
    requires recDataBuff.Length == 16 && |readCounters| == 2 && |resetCounters| == 2 && i < 2 && numTimers <= 2
    requires dataCountCounter == UsedBelow(CounterSlotsUsed(readCounters, resetCounters), i)
    ensures v == CounterReading(readCounters, resetCounters, numTimers, i, recDataBuff[..])
  {
    v := 0;
    if readCounters[i] != 0 {
      UsedSlotCounted(CounterSlotsUsed(readCounters, resetCounters), i, 2);
      v := ReadLittleEndian(recDataBuff, numTimers * 4 + dataCountCounter * 4);
    }
  }

  /** The readings depend only on the result bytes, not on what lies beyond them in the buffer. */
  lemma ReadingsOfResultPrefix(readTimers: seq<int>, updateResetTimers: seq<int>, readCounters: seq<int>,
                               resetCounters: seq<int>, data: seq<byte>, buffer: seq<byte>)
    requires |readTimers| == 2 && |updateResetTimers| == 2 && |readCounters| == 2 && |resetCounters| == 2
    requires |data| == TCValuesResultSize(readTimers, updateResetTimers, readCounters, resetCounters)
    requires |data| <= |buffer| && buffer[..|data|] == data
    ensures var numTimers := UsedBelow(TimerSlotsUsed(readTimers, updateResetTimers), 2);
      TimerReadings(readTimers, updateResetTimers, buffer) == TimerReadings(readTimers, updateResetTimers, data) &&
      CounterReadings(readCounters, resetCounters, numTimers, buffer) == CounterReadings(readCounters, resetCounters, numTimers, data)
  {
    SlotReadingsOfPrefix(readTimers, updateResetTimers, readCounters, resetCounters, data, buffer, 0);
    SlotReadingsOfPrefix(readTimers, updateResetTimers, readCounters, resetCounters, data, buffer, 1);
  }

  /** Slot i's readings depend only on the result bytes. */
  lemma SlotReadingsOfPrefix(readTimers: seq<int>, updateResetTimers: seq<int>, readCounters: seq<int>,
                             resetCounters: seq<int>, data: seq<byte>, buffer: seq<byte>, i: nat)
    requires |readTimers| == 2 && |updateResetTimers| == 2 && |readCounters| == 2 && |resetCounters| == 2 && i < 2
    requires |data| == TCValuesResultSize(readTimers, updateResetTimers, readCounters, resetCounters)
    requires |data| <= |buffer| && buffer[..|data|] == data
    ensures var numTimers := UsedBelow(TimerSlotsUsed(readTimers, updateResetTimers), 2);
      TimerReading(readTimers, updateResetTimers, i, buffer) == TimerReading(readTimers, updateResetTimers, i, data) &&
      CounterReading(readCounters, resetCounters, numTimers, i, buffer) == CounterReading(readCounters, resetCounters, numTimers, i, data)
  {
    var timerUsed := TimerSlotsUsed(readTimers, updateResetTimers);
    var counterUsed := CounterSlotsUsed(readCounters, resetCounters);
    var numTimers := UsedBelow(timerUsed, 2);
    if readTimers[i] != 0 {
      UsedSlotCounted(timerUsed, i, 2);
      var at := 4 * UsedBelow(timerUsed, i);
      assert buffer[at..at + 4] == data[at..at + 4];
    }
    if readCounters[i] != 0 {
      UsedSlotCounted(counterUsed, i, 2);
      var at := 4 * numTimers + 4 * UsedBelow(counterUsed, i);
      assert buffer[at..at + 4] == data[at..at + 4];
    }
  }

  /**
   * eTCValues (u3TempNew.c): one Feedback exchange, then the read-back. The
   * timer values it sends are the whole numbers the source truncates its
   * doubles to. On failure neither array is touched.
   */
  method ETCValues(link: Link, readTimers: seq<int>, updateResetTimers: seq<int>, readCounters: seq<int>,
                   resetCounters: seq<int>, timerValues: array<int>, counterValues: array<int>) returns (ret: int)
    requires |readTimers| == 2 && |updateResetTimers| == 2 && |readCounters| == 2 && |resetCounters| == 2
    requires timerValues.Length == 2 && counterValues.Length == 2 && timerValues != counterValues
    modifies link, timerValues, counterValues
    ensures var run := TCValuesRun(readTimers, updateResetTimers, readCounters, resetCounters, old(timerValues[..]), old(link.device));
      ret == run.status && link.sent == old(link.sent) + run.frames && link.device == run.device
    ensures ret != 0 ==> timerValues[..] == old(timerValues[..]) && counterValues[..] == old(counterValues[..])
    ensures var run := TCValuesRun(readTimers, updateResetTimers, readCounters, resetCounters, old(timerValues[..]), old(link.device));
      ret == 0 && |run.data| == TCValuesResultSize(readTimers, updateResetTimers, readCounters, resetCounters) ==>
        timerValues[..] == TimerReadings(readTimers, updateResetTimers, run.data) &&
        counterValues[..] == CounterReadings(readCounters, resetCounters, UsedBelow(TimerSlotsUsed(readTimers, updateResetTimers), 2), run.data)
  {
    var recDataBuff := new byte[16];
    ghost var run := TCValuesRun(readTimers, updateResetTimers, readCounters, resetCounters, timerValues[..], link.device);
    var sendDataBuff, recDataBuffSize, numTimers :=
      BuildTCValuesPayload(readTimers, updateResetTimers, readCounters, resetCounters, timerValues[..]);
    ret := FeedbackExchange(link, old(link.sent), Idle(link.device), sendDataBuff, recDataBuff, recDataBuffSize);
    if ret != 0 {
      return ret;
    }
    ReadTimerCounterValues(recDataBuff, readTimers, updateResetTimers, readCounters, resetCounters, numTimers,
                           timerValues, counterValues);
    if |run.data| == recDataBuffSize {
      assert recDataBuff[..][..|run.data|] == run.data;
      ReadingsOfResultPrefix(readTimers, updateResetTimers, readCounters, resetCounters, run.data, recDataBuff[..]);
    }
  }
}
