# LabJack U3 protocol layer, in Dafny

A model of the host side of the LabJack U3 protocol, as two C files implement it:
`u3TempNew.c` (temperature probe) and `u3IR.c` (a reduced copy of the same code,
carrying `eDO`, `ehFeedback`, `ehConfigIO` and the checksums). Where both files hold
the same function, the code is the same line for line. One model serves both, and
each row below cites one of the two copies.

What is modelled:

- **Checksums** (`checksum.dfy`, module `Checksum`). The 16-bit sum of bytes 6..n-1
  goes into bytes 4 and 5. The 8-bit folded sum of bytes 1..5 goes into byte 0.
  These are array methods over `array<byte>`, proved against pure functions. Lemmas
  state which bytes each checksum reads, and that a single changed byte is caught.
  They also name the one kind of header change that is not caught.
- **Command frames** (`commands.dfy`, module `Commands`). For Feedback, ConfigIO,
  ConfigTimerClock and I2C:
  - the frame the host builds (an array filled byte by byte);
  - how the host judges the response;
  - what the device's well-formed response decodes to.
  Each command has a round-trip lemma and a lemma that a corrupted response is
  rejected. The USB link (`transport.dfy`, class `Transport.Link`) is a scripted
  device. It holds a log of the frames written, the byte count each write accepts,
  and the queue of responses it returns.
- **Calibration** (`calibration.dfy`, module `Calibration`). It covers the record
  check, the 32.32 fixed-point decode, the AIN voltage conversions before and from
  hardware 1.30, the temperature conversion and the 8- and 16-bit DAC codes. It works
  over reals, with the hardware-version test as a predicate.
- **High-level operations**:
  - `analog.dfy` (`AnalogIO`): `eAIN`, `eDAC`;
  - `digital.dfy` (`DigitalIO`): `eDI`, `eDO`;
  - `timers.dfy` (`Timers`): `eTCConfig`, `eTCValues`.

  Each operation is a method over a `Link`. It is proved to produce exactly the
  `Session` (`sessions.dfy`) that a function of the device script gives. A session
  holds the status returned, the frames sent in order, where the device is left and
  the result bytes copied. Lemmas about these functions state:
  - what is refused before any exchange;
  - which ConfigIO exchanges configure the FIO/EIO analog masks, and what they write;
  - the Feedback sub-command bytes;
  - how the values read back are assembled.
- Shared helpers: `bytes.dfy` (`Bytes`: byte types, sums, little-endian words),
  `bits.dfy` (`Bits`: bitwise AND/OR on masks) and `outcomes.dfy` (`Outcomes`: a
  value or an error code).

Source paths in the tables below are relative to the repository root.

## Model

| member | source | states |
|---|---|---|
| Checksum.Fold8 | OLLabJackLibrary/src/U3dev/U3IRfolder/u3IR.c:470-474 | The two-step quotient-plus-remainder fold of a 16-bit sum is its end-around-carry residue: 0 for 0, else 1 + (a-1) mod 255, always a byte |
| Checksum.Seal | LabJackTemperatureProbe/U3/U3temperature/u3TempNew.c:735-743 | Sealing a frame of n bytes changes only bytes 0, 4 and 5, keeps the length, and leaves all three response checks satisfied |
| Checksum.SealIgnoresCheckBytes | LabJackTemperatureProbe/U3/U3temperature/u3TempNew.c:735-743 | The sealed frame does not depend on what bytes 0, 4 and 5 held before: they are overwritten, never read |
| Checksum.ExtendedChecksum16 | OLLabJackLibrary/src/U3dev/U3IRfolder/u3IR.c:449-458 | The loop returns the sum of bytes 6..n-1 cut to 16 bits, and 0 when n <= 6 |
| Checksum.ExtendedChecksum8 | LabJackTemperatureProbe/U3/U3temperature/u3TempNew.c:777-791 | The loop returns the folded sum of bytes 1..5 and nothing else |
| Checksum.NormalChecksum8 | LabJackTemperatureProbe/U3/U3temperature/u3TempNew.c:746-762 | The loop returns the folded 16-bit sum of bytes 1..n-1, with the uint16 accumulator's wrap-around |
| Checksum.ExtendedChecksum | OLLabJackLibrary/src/U3dev/U3IRfolder/u3IR.c:439-447 | In place: after the call the buffer is the sealed frame, all three checks pass, and every byte other than 0, 4 and 5 is unchanged |
| Checksum.NormalChecksum | LabJackTemperatureProbe/U3/U3temperature/u3TempNew.c:729-732 | In place: only byte 0 changes, to the normal checksum of the old buffer |
| Checksum.Checksum8OnlyReadsHeader | OLLabJackLibrary/src/U3dev/U3IRfolder/u3IR.c:461-475 | Changing byte 0 or any byte from 6 on never changes the 8-bit checksum |
| Checksum.Checksum16OnlyReadsBody | LabJackTemperatureProbe/U3/U3temperature/u3TempNew.c:765-774 | Changing a header byte (0..5) or a byte at or past n never changes the 16-bit checksum |
| Checksum.Checksum16IsExactSum | LabJackTemperatureProbe/U3/U3temperature/u3TempNew.c:765-774 | For bodies of at most 257 bytes the 16-bit checksum is the exact byte sum, with no wrap-around |
| Checksum.SingleByteCorruptionDetected | LabJackTemperatureProbe/U3/U3temperature/u3TempNew.c:2167-2187 | A valid frame with any one byte changed fails the checks. The only exception is a header byte 1..3 moved by exactly 255 |
| Checksum.HeaderCorruptionChangesChecksum8 | LabJackTemperatureProbe/U3/U3temperature/u3TempNew.c:2182-2187 | A change to header byte 1..3 by anything but ±255 changes the 8-bit checksum |
| Checksum.BodyCorruptionChangesChecksum16 | LabJackTemperatureProbe/U3/U3temperature/u3TempNew.c:2167-2180 | A change to one body byte changes byte 4 or byte 5 of the 16-bit checksum |
| Checksum.ComplementByteUndetected | LabJackTemperatureProbe/U3/U3temperature/u3TempNew.c:777-791 | Limit of the fold: turning a 0 in header bytes 1..3 into 255 leaves the 8-bit checksum unchanged (when bytes 1..5 are not all 0) |
| Bytes.LittleEndianRoundTrip | LabJackTemperatureProbe/U3/U3temperature/u3TempNew.c:1083-1091 | Four bytes written low byte first read back as the same 32-bit word |
| Bits.AndBit | LabJackTemperatureProbe/U3/U3temperature/u3TempNew.c:1681-1682 | Bit k of a & b is set exactly when it is set in both |
| Bits.OrBit | LabJackTemperatureProbe/U3/U3temperature/u3TempNew.c:1532-1533 | Bit k of a \| b is set exactly when it is set in either |
| Commands.EvenUp | LabJackTemperatureProbe/U3/U3temperature/u3TempNew.c:2109-2112 | Rounding a byte count up to whole words gives the least even number at or above it |
| Commands.FeedbackFrame | LabJackTemperatureProbe/U3/U3temperature/u3TempNew.c:2109-2135 | Layout of the Feedback frame: length 6 + the payload size + 1 rounded up to even; word count, 0xF8, command 0 and echo 0; payload from byte 7; a 0 pad byte; valid checksums |
| Commands.BuildFeedbackFrame | LabJackTemperatureProbe/U3/U3temperature/u3TempNew.c:2114-2135 | The buffer filled byte by byte and sealed is exactly the Feedback frame |
| Commands.DecodeFeedback | OLLabJackLibrary/src/U3dev/U3IRfolder/u3IR.c:347-398 | An accepted response has at least 8 bytes and valid checksums over the bytes that arrived. Every failure is -1. The result bytes number at most outDataSize, and at most what arrived past byte 8 |
| Commands.CopyResponseData | OLLabJackLibrary/src/U3dev/U3IRfolder/u3IR.c:397-398 | The copy loop puts the result bytes at the front of the caller's buffer and leaves the rest of it as it was |
| Commands.FeedbackRoundTrip | LabJackTemperatureProbe/U3/U3temperature/u3TempNew.c:2149-2200 | The full response of a device decodes to the device's error code, error frame and result bytes |
| Commands.FeedbackCorruptionRejected | LabJackTemperatureProbe/U3/U3temperature/u3TempNew.c:2167-2194 | A device response with one byte changed is rejected with -1 (header bytes 1..3 moved by ±255 excepted) |
| Commands.EhFeedback | LabJackTemperatureProbe/U3/U3temperature/u3TempNew.c:2099-2209 | Sends exactly one Feedback frame. The status is the decoder's verdict on what the device answered (nothing when the write fell short). The caller's buffer changes only on success, with the result bytes at its front |
| Commands.ConfigIOFrame | LabJackTemperatureProbe/U3/U3temperature/u3TempNew.c:1944-1955 | The 12-byte ConfigIO frame: 0xF8, 3 words, command 0x0B, then write mask, reserved, TimerCounterConfig, DAC1Enable, FIOAnalog, EIOAnalog; valid checksums |
| Commands.BuildConfigIOFrame | LabJackTemperatureProbe/U3/U3temperature/u3TempNew.c:1944-1955 | The buffer filled and sealed is exactly the ConfigIO frame |
| Commands.DecodeConfigIO | LabJackTemperatureProbe/U3/U3temperature/u3TempNew.c:1977-2015 | A failure is -1 or the device's non-zero error byte 6. Success needs 12 bytes, valid checksums and error byte 0 |
| Commands.ConfigIORoundTrip | OLLabJackLibrary/src/U3dev/U3IRfolder/u3IR.c:541-555 | A device's response decodes to its settings when its error code is 0, and to that error code (with no settings) otherwise |
| Commands.ConfigIOCorruptionRejected | LabJackTemperatureProbe/U3/U3temperature/u3TempNew.c:1977-2006 | A ConfigIO response with one byte changed is rejected with -1 (header bytes 1..3 moved by ±255 excepted) |
| Commands.EhConfigIO | OLLabJackLibrary/src/U3dev/U3IRfolder/u3IR.c:477-557 | Sends exactly one ConfigIO frame and returns the decoding of the device's 12-byte answer |
| Commands.ConfigTimerClockFrame | LabJackTemperatureProbe/U3/U3temperature/u3TempNew.c:2027-2036 | The 10-byte ConfigTimerClock frame: 0xF8, 2 words, command 0x0A, two reserved zeros, clock config and divisor; valid checksums |
| Commands.BuildConfigTimerClockFrame | LabJackTemperatureProbe/U3/U3temperature/u3TempNew.c:2027-2036 | The buffer filled and sealed is exactly the ConfigTimerClock frame |
| Commands.DecodeConfigTimerClock | LabJackTemperatureProbe/U3/U3temperature/u3TempNew.c:2058-2093 | A failure is -1 or the device's non-zero error byte. Success needs 10 bytes, valid checksums and error byte 0 |
| Commands.ConfigTimerClockRoundTrip | LabJackTemperatureProbe/U3/U3temperature/u3TempNew.c:2058-2093 | A device's response decodes to its clock settings when its error code is 0, and to that error code otherwise |
| Commands.EhConfigTimerClock | LabJackTemperatureProbe/U3/U3temperature/u3TempNew.c:2021-2096 | Sends exactly one ConfigTimerClock frame and returns the decoding of the device's 10-byte answer |
| Commands.I2CFrame | LabJackTemperatureProbe/U3/U3temperature/u3TempNew.c:1352-1377 | The I2C frame has an even length of 14 + the send count rounded up, and word count 4 + half of that. It carries command 0x3B and the eight option bytes, then exactly the first numSend command bytes. Its checksums are valid |
| Commands.WriteI2CHeader | LabJackTemperatureProbe/U3/U3temperature/u3TempNew.c:1358-1373 | The header writes set the command bytes, the word count of the buffer's own size and the option bytes, and zero the last byte unless command bytes will cover it |
| Commands.BuildI2CFrame | LabJackTemperatureProbe/U3/U3temperature/u3TempNew.c:1352-1377 | The buffer filled and sealed is exactly the I2C frame |
| Commands.DecodeI2C | LabJackTemperatureProbe/U3/U3temperature/u3TempNew.c:1392-1446 | The status is 0 or -1. Status 0 means valid checksums, four ack bytes and exactly numReceive response bytes |
| Commands.I2CRoundTrip | LabJackTemperatureProbe/U3/U3temperature/u3TempNew.c:1407-1446 | A device's full I2C response decodes with status 0 to its error code, ack bytes and data |
| Commands.I2CCorruptionRejected | LabJackTemperatureProbe/U3/U3temperature/u3TempNew.c:1417-1446 | An I2C response with one byte changed gives status -1 (header bytes 1..3 moved by ±255 excepted) |
| Commands.I2C | LabJackTemperatureProbe/U3/U3temperature/u3TempNew.c:1342-1462 | Sends exactly one I2C frame and returns the decoding of the device's answer of the computed receive size |
| Commands.I2CStatusIgnoresAcks | LabJackTemperatureProbe/U3/U3temperature/u3TempNew.c:1448-1453 | An ack mask that does not acknowledge every byte still yields status 0. The incomplete acks are handed back, not judged |
| Sessions.WithConfigIO | LabJackTemperatureProbe/U3/U3temperature/u3TempNew.c:1524-1525 | A ConfigIO step appends exactly its frame to the run and moves the device past one 12-byte exchange |
| Sessions.WithFeedback | LabJackTemperatureProbe/U3/U3temperature/u3TempNew.c:1550-1553 | A Feedback step appends exactly its frame. Its status is -1 (ehFeedback failed) or the device's error byte |
| Sessions.WithFeedbackOfWorkingDevice | LabJackTemperatureProbe/U3/U3temperature/u3TempNew.c:1550-1555 | A device that accepts the frame and answers with error code 0 gives status 0 and hands over exactly its result bytes |
| Sessions.FeedbackExchange | LabJackTemperatureProbe/U3/U3temperature/u3TempNew.c:1550-1553 | The shared "ehFeedback, then check Errorcode" step performs exactly the WithFeedback step on the link |
| Sessions.ConfigIOExchange | LabJackTemperatureProbe/U3/U3temperature/u3TempNew.c:1524-1525 | The shared ehConfigIO call performs exactly the WithConfigIO step and returns the settings read |
| Sessions.ConfigTimerClockExchange | LabJackTemperatureProbe/U3/U3temperature/u3TempNew.c:1796-1798 | The ehConfigTimerClock call performs exactly the WithConfigTimerClock step |
| Sessions.AndMasksLine | LabJackTemperatureProbe/U3/U3temperature/u3TempNew.c:1681-1682 | After ANDing two FIO/EIO mask pairs, a line is analog exactly when it is analog in both |
| Sessions.OrMasksLine | LabJackTemperatureProbe/U3/U3temperature/u3TempNew.c:1532-1533 | After ORing two mask pairs, a line is analog exactly when it is analog in either |
| Sessions.ConfigIOFrameCarriesMasks | LabJackTemperatureProbe/U3/U3temperature/u3TempNew.c:1944-1955 | A ConfigIO frame carries its write mask, TimerCounterConfig and DAC1Enable, and the masks it writes read back as the masks given |
| Calibration.AinVoltCalibratedHw130 | LabJackTemperatureProbe/U3/U3temperature/u3TempNew.c:1138-1189 | Fails (always with -1) exactly when the record is invalid, the hardware is older than 1.30, or the channel pair is not one it converts. On a U3-HV, inputs 0..3 take only negative channel 31 or 32 |
| Calibration.AinVoltCalibrated | LabJackTemperatureProbe/U3/U3temperature/u3TempNew.c:1098-1135 | Fails (always with -1) exactly when the record is invalid, when a U3-HV is 1.30 or newer, or when the negative channel is refused. Before 1.30 it takes 0..15, 30 and 31; from 1.30 it passes to the hw130 conversion, which also takes 32 |
| Calibration.AinVoltConstantsBefore130 | LabJackTemperatureProbe/U3/U3temperature/u3TempNew.c:1114-1127 | Before 1.30 without the DAC1 reference, negative channel 31 reads constant 1 at code 0 and rises by constant 0 per count; channels 0..15 and 30 read constant 3 at code 0 and rise by constant 2 |
| Calibration.AinVoltConstantsHw130 | LabJackTemperatureProbe/U3/U3temperature/u3TempNew.c:1149-1168 | From 1.30 the same anchors hold on a low-voltage U3; on a U3-HV high-voltage input p, channel 31 reads constant 16+p at code 0 and rises by constant 12+p per count |
| Calibration.LowVoltageIgnoresPositiveChannel | LabJackTemperatureProbe/U3/U3temperature/u3TempNew.c:1149-1181 | Without high-voltage inputs the hw130 conversion does not depend on the positive channel |
| Calibration.SpecialRangeShiftsByOffset | LabJackTemperatureProbe/U3/U3temperature/u3TempNew.c:1169-1180 | Outside the HV inputs the special range (negative channel 32) is the differential reading (30) shifted by constant 9 |
| Calibration.HighVoltageSpecialRangeRescales | LabJackTemperatureProbe/U3/U3temperature/u3TempNew.c:1172-1176 | On HV inputs 0..3 the special range is the low-voltage special range scaled by constant 12+p over constant 0, plus constant 16+p |
| Calibration.VersionOnlyAddsSpecialRange | LabJackTemperatureProbe/U3/U3temperature/u3TempNew.c:1103-1132 | On a low-voltage U3 with DAC1 off, the conversion before and from 1.30 agree on every negative channel both accept |
| Calibration.DacReferenceRangeSymmetric | LabJackTemperatureProbe/U3/U3temperature/u3TempNew.c:1114-1120 | Before 1.30 with DAC1 enabled, the differential range is symmetric about code 32768, and code 0 reads -constant 11 |
| Calibration.TempKCalibrated | LabJackTemperatureProbe/U3/U3temperature/u3TempNew.c:1284-1291 | The temperature conversion fails (with -1) exactly when the record is invalid |
| Calibration.TempKLinear | LabJackTemperatureProbe/U3/U3temperature/u3TempNew.c:1289 | Kelvin is linear in the code with slope constant 8 and no offset: code 0 is 0 K, code 1 is constant 8 kelvin, and sums of codes give sums of temperatures |
| Calibration.ToInt32 | LabJackTemperatureProbe/U3/U3temperature/u3TempNew.c:1094 | The (int) cast of a 32-bit word is the signed value congruent to it modulo 2^32 |
| Calibration.FixedPointToReal | LabJackTemperatureProbe/U3/U3temperature/u3TempNew.c:1080-1095 | The integer part of the decoded value is the signed little-endian word of bytes 4..7, and the value lies within the int32 range |
| Calibration.FixedPointRoundTrip | LabJackTemperatureProbe/U3/U3temperature/u3TempNew.c:1080-1095 | A whole part and a fraction written as 32.32 fixed point decode to whole + fraction / 2^32 |
| Calibration.ClampFloor | LabJackTemperatureProbe/U3/U3temperature/u3TempNew.c:1247-1254 | The clamp-then-truncate yields 0 below range, max above range, and the floor of the value within range; never a wrapped-around code |
| Calibration.DacBinVoltCalibrated8BitAsWritten | LabJackTemperatureProbe/U3/U3temperature/u3TempNew.c:1198-1223 | As written: fails exactly on an invalid record or a DAC number outside 0..2. The code is never negative, and is bounded by 255 only before 1.30 |
| Calibration.DacBinVolt8BitOverflows | LabJackTemperatureProbe/U3/U3temperature/u3TempNew.c:1215-1220 | As written, the default 1.31 record at 5 V gives code 258, which does not fit the uint8 result |
| Calibration.DacBinVoltCalibrated8Bit | LabJackTemperatureProbe/U3/U3temperature/u3TempNew.c:1198-1223 | Fails (with -1) exactly on an invalid record or a DAC number outside 0..2. Otherwise it gives the slope/offset code of constants 4+2d and 5+2d, clamped to [0, 255] |
| Calibration.DacBinVolt8BitAgreesBefore130 | LabJackTemperatureProbe/U3/U3temperature/u3TempNew.c:1215-1218 | Before 1.30 the code as written and the clamped code agree on every input |
| Calibration.DacBinVoltCalibrated16Bit | LabJackTemperatureProbe/U3/U3temperature/u3TempNew.c:1226-1257 | Fails on the same inputs as the 8-bit code. From 1.30 it gives the code scaled by 256 and clamped to [0, 65535]; before 1.30 the unscaled code clamped to [0, 255] |
| Calibration.Dac16HighByteIs8BitCode | LabJackTemperatureProbe/U3/U3temperature/u3TempNew.c:1239-1254 | From 1.30 the high byte of the 16-bit code is the clamped 8-bit code |
| Calibration.Dac16Monotone | LabJackTemperatureProbe/U3/U3temperature/u3TempNew.c:1239-1254 | With a non-negative slope, a higher voltage never gives a lower 16-bit code |
| AnalogIO.AinChecksMatchHw130Conversion | LabJackTemperatureProbe/U3/U3temperature/u3TempNew.c:1485-1497 | From 1.30, eAIN's up-front channel checks accept exactly the pairs the hw130 conversion converts |
| AnalogIO.PositiveMasksLines | LabJackTemperatureProbe/U3/U3temperature/u3TempNew.c:1513-1516 | The positive channel's mask marks that one line analog and no other |
| AnalogIO.AnalogMasksLines | LabJackTemperatureProbe/U3/U3temperature/u3TempNew.c:1508-1521 | eAIN's wanted masks mark exactly the positive and negative channel analog (CIO and internal channels mark nothing) |
| AnalogIO.AnalogMasksAfterSetsOnlyChannels | LabJackTemperatureProbe/U3/U3temperature/u3TempNew.c:1529-1533 | After the step both channels are analog and every other line keeps the device's setting |
| AnalogIO.AnalogLineSetup | LabJackTemperatureProbe/U3/U3temperature/u3TempNew.c:1523-1537 | The configuration step always starts with the ConfigIO read frame (write mask 0) |
| AnalogIO.AnalogSetupWritesOnlyOnChange | LabJackTemperatureProbe/U3/U3temperature/u3TempNew.c:1529-1537 | A write frame is sent exactly when the read succeeded and the masks differ from the wanted ones. Matching masks mean success after the read alone |
| AnalogIO.AnalogSetupWritesChannels | LabJackTemperatureProbe/U3/U3temperature/u3TempNew.c:1531-1536 | The write, when sent, has mask 12 and keeps the device's TimerCounterConfig. It makes both channels analog and keeps every other line |
| AnalogIO.AnalogSetupSecondFrame | LabJackTemperatureProbe/U3/U3temperature/u3TempNew.c:1536 | When two frames are sent the read succeeded, and the second is the ConfigIO write of the ORed masks |
| AnalogIO.AnalogWriteFrameLines | LabJackTemperatureProbe/U3/U3temperature/u3TempNew.c:1532-1536 | The masks carried by that write frame set both channels and keep the rest |
| AnalogIO.ConfigureAnalogLines | LabJackTemperatureProbe/U3/U3temperature/u3TempNew.c:1508-1539 | The steps as coded produce exactly the configuration-step session, and the DAC1Enable the device reported |
| AnalogIO.ChannelMasks | LabJackTemperatureProbe/U3/U3temperature/u3TempNew.c:1508-1521 | The pow/OR computation yields the wanted masks |
| AnalogIO.AinPayloadFields | LabJackTemperatureProbe/U3/U3temperature/u3TempNew.c:1542-1548 | The AIN sub-command: IOType 1, the positive channel in bits 0..4, LongSettling in bit 6 exactly when requested, QuickSample in bit 7 exactly when requested, and the wire negative channel |
| AnalogIO.AinConversionFailsExactly | LabJackTemperatureProbe/U3/U3temperature/u3TempNew.c:1562-1580 | eAIN's conversion fails exactly on the refused record/channel cases, whatever the reading and DAC1Enable |
| AnalogIO.AinRefusesOnlySpecialRangeBefore130 | LabJackTemperatureProbe/U3/U3temperature/u3TempNew.c:1575-1580 | Once the checks pass, the conversion refuses only the special range (32) before 1.30, in volts on a non-temperature channel |
| AnalogIO.EAIN | LabJackTemperatureProbe/U3/U3temperature/u3TempNew.c:1465-1585 | The status, frames and device follow the eAIN session. Refused records and channels give -1 with nothing sent. On error the voltage is the caller's. On success it is the conversion of the two result bytes |
| AnalogIO.AinAccepted | LabJackTemperatureProbe/U3/U3temperature/u3TempNew.c:1499-1584 | Past the checks, the method follows the same session and the same voltage and DAC1Enable rules |
| AnalogIO.AinCommand | LabJackTemperatureProbe/U3/U3temperature/u3TempNew.c:1542-1548 | The sub-command bytes computed are the AIN payload |
| AnalogIO.AinSetupStep | LabJackTemperatureProbe/U3/U3temperature/u3TempNew.c:1506-1539 | Configures only when ConfigIO is requested and the input is not a U3-HV high-voltage input. The DAC1Enable is the device's when read |
| AnalogIO.ReadAndConvert | LabJackTemperatureProbe/U3/U3temperature/u3TempNew.c:1550-1582 | The Feedback read and conversion give the Feedback session's status, or -1 when the conversion refuses. The voltage is converted from the two result bytes with channel 32 restored |
| AnalogIO.ConvertReading | LabJackTemperatureProbe/U3/U3temperature/u3TempNew.c:1555-1582 | The raw code in binary mode, kelvin on channel 30, else volts by the conversion for the hardware version. It fails exactly when AinConversionRefused holds |
| AnalogIO.AinOnWorkingDevice | LabJackTemperatureProbe/U3/U3temperature/u3TempNew.c:1542-1555 | Without ConfigIO, a device answering with error 0 gets exactly one Feedback frame, and eAIN succeeds with the device's two bytes |
| AnalogIO.AinSpecialRangeBefore130Fails | LabJackTemperatureProbe/U3/U3temperature/u3TempNew.c:1499-1580 | Before 1.30, channel 32 passes the checks and goes out on the wire as 30, yet eAIN then returns -1 because the conversion refuses it |
| AnalogIO.DacPayloadCarriesCode | LabJackTemperatureProbe/U3/U3temperature/u3TempNew.c:1615-1638 | Before 1.30, eDAC sends IOType 34+ch with the 8-bit code as written. From 1.30 it sends IOType 38+ch with the 16-bit code, low byte first, whose high byte is the 8-bit code |
| AnalogIO.EDAC | LabJackTemperatureProbe/U3/U3temperature/u3TempNew.c:1588-1646 | Status, frames and device follow the eDAC session. An invalid record or a channel other than 0 and 1 gives -1 with nothing sent |
| AnalogIO.DacCommand | LabJackTemperatureProbe/U3/U3temperature/u3TempNew.c:1616-1638 | The branch on the hardware version yields the DAC payload |
| AnalogIO.DacEnablesDac1First | LabJackTemperatureProbe/U3/U3temperature/u3TempNew.c:1607-1613 | With ConfigIO on DAC1 before 1.30, the first frame is the ConfigIO that writes only DAC1Enable = 1. A failure there stops eDAC with its error code |
| AnalogIO.DacOnWorkingDevice | LabJackTemperatureProbe/U3/U3temperature/u3TempNew.c:1615-1643 | Without the DAC1 step, a device answering with error 0 gets exactly one Feedback frame, and eDAC returns 0 |
| DigitalIO.DigitalMasksLines | OLLabJackLibrary/src/U3dev/U3IRfolder/u3IR.c:254-261 | The comparison masks (255 minus the line's bit) mark every line analog except the channel |
| DigitalIO.DigitalMasksAfterClearsOnlyChannel | OLLabJackLibrary/src/U3dev/U3IRfolder/u3IR.c:268-272 | After the step the channel is digital and every other line keeps the device's setting |
| DigitalIO.DigitalLineSetup | OLLabJackLibrary/src/U3dev/U3IRfolder/u3IR.c:252-279 | The configuration step always starts with the ConfigIO read frame |
| DigitalIO.DigitalSetupWritesOnlyOnChange | OLLabJackLibrary/src/U3dev/U3IRfolder/u3IR.c:263-278 | A write (mask 12) is sent exactly when the read succeeded and the masks differ from the comparison masks. Matching masks mean success after the read alone |
| DigitalIO.DigitalSetupWritesClearedMasks | OLLabJackLibrary/src/U3dev/U3IRfolder/u3IR.c:268-277 | The write, when sent, has mask 12 and keeps the device's TimerCounterConfig. It writes desired AND current: only the channel becomes digital |
| DigitalIO.DigitalSetupSecondFrame | OLLabJackLibrary/src/U3dev/U3IRfolder/u3IR.c:275 | When two frames are sent the read succeeded, and the second is the ConfigIO write of the ANDed masks |
| DigitalIO.DigitalWriteFrameLines | OLLabJackLibrary/src/U3dev/U3IRfolder/u3IR.c:271-275 | The masks carried by that frame clear the channel and keep the rest |
| DigitalIO.ConfigureDigitalLine | LabJackTemperatureProbe/U3/U3temperature/u3TempNew.c:1662-1689 | The steps as coded produce exactly the configuration-step session |
| DigitalIO.DigitalOutputPayloadFields | OLLabJackLibrary/src/U3dev/U3IRfolder/u3IR.c:282-286 | The payload is BitDirWrite (13) addressing the line as an output, then BitStateWrite (11) addressing the line, high exactly when State > 0 |
| DigitalIO.EDO | OLLabJackLibrary/src/U3dev/U3IRfolder/u3IR.c:239-294 | Status, frames and device follow the eDO session. A channel outside 0..19 gives -1 with no ConfigIO or Feedback exchange |
| DigitalIO.DigitalOutputOnWorkingDevice | OLLabJackLibrary/src/U3dev/U3IRfolder/u3IR.c:281-293 | On a line eDO does not configure, a device answering with error 0 gets exactly one Feedback frame, and eDO returns 0 |
| DigitalIO.DigitalInputPayloadFields | LabJackTemperatureProbe/U3/U3temperature/u3TempNew.c:1692-1696 | eDI's payload addresses the line with the direction bit clear (input) and reads its state |
| DigitalIO.EDI | LabJackTemperatureProbe/U3/U3temperature/u3TempNew.c:1649-1705 | Status, frames and device follow the eDI session. An out-of-range channel gives -1 with nothing sent. On success the state is the result byte |
| DigitalIO.DigitalInputReadsState | LabJackTemperatureProbe/U3/U3temperature/u3TempNew.c:1698-1704 | A device answering with error 0 and byte b makes eDI succeed with state b |
| Timers.ClockConfigByte | LabJackTemperatureProbe/U3/U3temperature/u3TempNew.c:1780-1796 | For the named clock bases (10..16, 20..26) the byte sent has the configure bit 7 set and the base code index mod 10 below it |
| Timers.EnabledTimerCount | LabJackTemperatureProbe/U3/U3temperature/u3TempNew.c:1811-1817 | The count stops at the first disabled timer: 0 exactly when timer 0 is off, 2 exactly when both are on |
| Timers.TimerCounterConfigFields | LabJackTemperatureProbe/U3/U3temperature/u3TempNew.c:1819-1828 | For an offset in 0..8 the TimerCounterConfig byte holds the timer count in bits 0..1, counter 0 and counter 1 enables in bits 2 and 3, and the offset in bits 4..7 |
| Timers.PinOffsetRejectedAsWrittenNever | LabJackTemperatureProbe/U3/U3temperature/u3TempNew.c:1774-1778 | The pin offset check as written rejects no offset at all |
| Timers.PinOffsetSixteenPasses | LabJackTemperatureProbe/U3/U3temperature/u3TempNew.c:1774-1828 | Offset 16 passes the check as written, and with timer 0 enabled the configuration byte wraps to 1: the device is told offset 0 |
| Timers.WithoutLine | LabJackTemperatureProbe/U3/U3temperature/u3TempNew.c:1832-1835 | Subtracting an analog line's bit makes that one line digital and keeps every other line |
| Timers.ReservedMasks | LabJackTemperatureProbe/U3/U3temperature/u3TempNew.c:1830-1836 | The masks mark digital exactly the count lines starting at the pin offset |
| Timers.TimerCounterMasksLines | LabJackTemperatureProbe/U3/U3temperature/u3TempNew.c:1830-1839 | ANDed with the device's masks, the timer/counter lines become digital and every other line keeps its setting |
| Timers.TimerCounterLines | LabJackTemperatureProbe/U3/U3temperature/u3TempNew.c:1805-1836 | The counting loops give the enabled timer count, the TimerCounterConfig byte and the masks reserving timers plus counters from the offset |
| Timers.ReserveLines | LabJackTemperatureProbe/U3/U3temperature/u3TempNew.c:1830-1836 | The subtraction loop over the lines yields the reserved masks |
| Timers.TimerConfigPayloadLayout | LabJackTemperatureProbe/U3/U3temperature/u3TempNew.c:1850-1858 | Timer i's 4 bytes sit at 4i: IOType 43+2i, the mode cut to a byte, and the value's low 16 bits low byte first. The payload is 4 bytes per enabled timer |
| Timers.BuildTimerConfigPayload | LabJackTemperatureProbe/U3/U3temperature/u3TempNew.c:1847-1858 | The loop's writes yield the TimerConfig payload |
| Timers.TCConfigWriteFrameLines | LabJackTemperatureProbe/U3/U3temperature/u3TempNew.c:1838-1840 | The ConfigIO write has mask 13 and carries the offset and timer count. It makes exactly the timer/counter lines digital and keeps the device's other lines |
| Timers.TCConfigSetupFrames | LabJackTemperatureProbe/U3/U3temperature/u3TempNew.c:1780-1842 | A successful configuration had an offset in 0..8. It sent ConfigTimerClock, then the ConfigIO read, then that ConfigIO write, in that order |
| Timers.ETCConfig | LabJackTemperatureProbe/U3/U3temperature/u3TempNew.c:1766-1867 | Status, frames and device follow the eTCConfig session. A Feedback TimerConfig exchange follows only when some timer is enabled. The pin offset check is the corrected one (offsets outside 0..8 give -1 with nothing sent), not the never-true check at line 1774; see Findings |
| Timers.ConfigureTimerCounterLines | LabJackTemperatureProbe/U3/U3temperature/u3TempNew.c:1774-1842 | The steps up to the ConfigIO write produce exactly the configuration session and the enabled timer count |
| Timers.WriteSettings | LabJackTemperatureProbe/U3/U3temperature/u3TempNew.c:1805-1839 | The computed byte and masks are those of the ConfigIO write frame |
| Timers.TCValuesTimerCommandPlaced | LabJackTemperatureProbe/U3/U3temperature/u3TempNew.c:1883-1895 | Each used timer's Timer sub-command (IOType 42+2i) sits in the first 4*numTimers bytes, after those of the used timers before it. The payload is 4 bytes per used timer plus 2 per used counter |
| Timers.TCValuesCounterCommandPlaced | LabJackTemperatureProbe/U3/U3temperature/u3TempNew.c:1897-1906 | Each used counter's Counter sub-command (IOType 54+i) sits after all Timer sub-commands, in order |
| Timers.BuildTCValuesPayload | LabJackTemperatureProbe/U3/U3temperature/u3TempNew.c:1883-1906 | The two slot loops yield the TCValues payload, the result size of 4 bytes per used slot, and the used-timer count |
| Timers.PutTimerCommands | LabJackTemperatureProbe/U3/U3temperature/u3TempNew.c:1883-1895 | The timer loop writes the used timers' sub-commands to the front of the buffer, in slot order |
| Timers.PutTimerCommand | LabJackTemperatureProbe/U3/U3temperature/u3TempNew.c:1887-1890 | One timer's four writes append its sub-command at the current size and keep the bytes before it |
| Timers.PutCounterCommand | LabJackTemperatureProbe/U3/U3temperature/u3TempNew.c:1901-1902 | One counter's two writes append its sub-command and keep the bytes before it |
| Timers.PutCounterCommands | LabJackTemperatureProbe/U3/U3temperature/u3TempNew.c:1897-1906 | The counter loop appends the used counters' sub-commands after the timer bytes, which it leaves alone |
| Timers.TCValuesReadsCounts | LabJackTemperatureProbe/U3/U3temperature/u3TempNew.c:1913-1932 | Reading back a device's result bytes recovers each read timer's and counter's value from its own slot, and 0 for those not read |
| Timers.ReadingReadsCount | LabJackTemperatureProbe/U3/U3temperature/u3TempNew.c:1913-1932 | The same, slot by slot: the value of timer i or counter i is the device's count when read, else 0 |
| Timers.TCValuesOnWorkingDevice | LabJackTemperatureProbe/U3/U3temperature/u3TempNew.c:1908-1911 | A device answering with error 0 and its counts gives status 0, and exactly those result bytes |
| Timers.ReadLittleEndian | LabJackTemperatureProbe/U3/U3temperature/u3TempNew.c:1918-1919 | The weighted byte loop gives the little-endian word of the slot |
| Timers.ReadTimerSlot | LabJackTemperatureProbe/U3/U3temperature/u3TempNew.c:1915-1922 | One timer's value is the little-endian word of its slot (after the used timers before it) when read, else 0 |
| Timers.ReadCounterSlot | LabJackTemperatureProbe/U3/U3temperature/u3TempNew.c:1924-1931 | One counter's value is the little-endian word of its slot after the 4*numTimers timer bytes when read, else 0 |
| Timers.ReadTimerCounterValues | LabJackTemperatureProbe/U3/U3temperature/u3TempNew.c:1913-1932 | The read-back loop stores exactly the timer and counter readings of the result buffer |
| Timers.ETCValues | LabJackTemperatureProbe/U3/U3temperature/u3TempNew.c:1870-1935 | Status, frames and device follow the eTCValues session. On error both value arrays are unchanged. On success with the full result they hold the readings of the result bytes |

## Left out

- USB: `LJUSB_Write`/`LJUSB_Read`, opening and closing the device and the device count are foreign calls. They are replaced by the scripted `Transport.Link`. A failed read (-1) is an empty read, because every caller treats -1 and a short count alike.
- The MATLAB entry point and the example routines are host marshalling and fixed byte scripts plus I/O. These are `mexFunction`, `configIO_example`, `feedback_setup_example`, `readTemperature`, `feedback_loop_example`, `sendTTLpulse` and the open/close helpers.
- `getCalibrationInfo` and `getTdacCalibrationInfo`: I/O that reads the constants from the device. The record is a parameter instead.
- `getTickCount`, `printf`, `malloc`/`free` and the `goto` cleanup: clock, logging and memory plumbing. A NULL `malloc` result and NULL output pointers are not modelled.
- The LJTick-DAC functions (`isTdacCalibrationInfoValid`, `getTdacBinVoltCalibrated`) and the uncalibrated conversions, which overwrite the global default record and then call the calibrated ones.
- `getDacBinVoltCalibrated` only forwards to the 8-bit conversion, so it has no member of its own.
- Calibration.CalibrationInfo: the U3-HV flag is a bool. The source stores it as an integer that getCalibrationInfo only sets to 0 or 1, and tests it with `== 1` and `== 0`; a record carrying any other value, where both tests fail, is not modelled.
- IEEE doubles are reals. `pow(2, k)` is an exact power of two, a (uint8)/(uint16) cast of an in-range double is `Floor`, and the hardware version is compared to 1.30 exactly.
- The `LJ_tc*` clock-base constants come from `u3.h`, which is not part of this model. The model uses the values that header defines (10..16 and 20..26).
- The `Range`, `Reserved1` and `Reserved2` parameters of the high-level operations are unused by the source and absent from the model.
- The timer and counter arrays have exactly two entries (a `requires` on length 2). That is the length of the C arrays the source indexes with 0 and 1.
- Timer values are the whole numbers the source truncates its doubles to with `(long)`. The truncation itself is not modelled.
- Calibration.AinVoltCalibratedHw130: division by a zero constant 0 (U3-HV special range) gives 0, where the double division gives an infinity or NaN.
- Commands.EhConfigTimerClock: on a device error the source still copies bytes 8 and 9 to the output pointers. The model returns only the error code; eTCConfig passes NULL for both.
- AnalogIO.EAIN: when the Feedback response is short but at least 8 bytes, the source converts whatever the two-byte result buffer held. The model states the voltage only when both result bytes arrived.
- DigitalIO.EDI: likewise, the state is stated only when the result byte arrived.
- Timers.ETCValues: likewise, the values are stated only when every result byte arrived. On a short response the source assembles them from uninitialised buffer bytes.
- Commands.I2C: the ack-mask mismatch only prints a message. The model hands the ack bytes back and proves that the status ignores them (Commands.I2CStatusIgnoresAcks).

## Findings

| source | as written | input that shows it | evidently intended | confidence | as-written member | corrected member |
|---|---|---|---|---|---|---|
| LabJackTemperatureProbe/U3/U3temperature/u3TempNew.c:1774 | eTCConfig rejects the pin offset when `TCPinOffset < 0 && TCPinOffset > 8`, which no offset satisfies | TCPinOffset = 16 with timer 0 enabled: the check passes, and TimerCounterConfig wraps to 1 (pin offset 0 sent to the device) | reject offsets outside 0..8 (`||`) with -1 before any exchange | not executed | Timers.PinOffsetSixteenPasses | Timers.TCConfigSetupFrames |
| LabJackTemperatureProbe/U3/U3temperature/u3TempNew.c:1215-1220 | getDacBinVoltCalibrated8Bit clamps at 255 only before hardware 1.30, then casts to uint8 | the default record (hardware 1.31, slope 51.717) at 5 V gives 258.6, out of range for the uint8 result | clamp to [0, 255] on every hardware version, as the 16-bit code's high byte does | not executed | Calibration.DacBinVolt8BitOverflows | Calibration.DacBinVoltCalibrated8Bit |
