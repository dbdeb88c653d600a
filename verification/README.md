# BMW instrument-cluster CAN simulator, modelled in Dafny

The program drives a BMW instrument cluster from a PC. It writes CAN
frames through a serial USB-CAN adapter that speaks the text protocol of
SLCAN adapters:

- `t` or `T`, then the channel, the hexadecimal identifier, the length and
  the payload in hexadecimal, then a carriage return;
- `S<ch><rate>` and `O<ch>0` to set the bit rate and open a channel.

The project has three layers, each modelled here.

- **usb_can.py**: the adapter (`CANInterface`).
  - Module `CanCodec` holds the pure parts. They are the formatting of a
    command line, Python's `upper` and `strip`, the decoder of received
    lines and the two setup commands.
  - Module `UsbCan` holds the class `CanInterface`. Its serial port is a
    `connected` flag, the log `written` of lines written and the queue
    `incoming` of lines waiting to be read. It also holds `Wire` and
    `Lines`: the lines a run of `send_message` calls writes.
- **modules/*.py**: twelve producers. Each turns a dashboard quantity into
  one CAN frame with a fixed identifier. The quantities are ignition,
  lighting, engine speed, road speed, ABS, airbag, coolant temperature,
  fuel, parking brake, seat belt, turn indicators and the clock.
  - Most producers keep the frame in a module-level list and update some
    bytes in place on each call. Such a producer is a module with:
    - a `State`;
    - a specification pair `Next` (the state after one call) and `Sent`
      (the frames that call sends);
    - a `class Producer` whose fields are those lists, and whose `Send…`
      method is proved to do exactly `Next` and `Sent`.
  - `IndicatorController` is a class in the source too; its clock is a
    parameter `now`.
  - The engine-speed producer keeps no state and is a method only.
- **BMW_CLUSTER.py**: the main loop. A pass runs when at least 10 ms have
  passed since the previous one. Each pass:
  - sends ignition, lighting and engine speed;
  - on every 7th pass, sends the road speed, whose input bounces between
    0 and 280;
  - on every 20th pass, sends ABS, airbag, coolant, fuel, parking brake,
    seat belt and hazard lights;
  - on every 100th pass, sends the clock.

  Module `Cluster` specifies one pass as the functions `TickStep` and
  `TickFrames` over a record `Loop` of every piece of state. Class
  `MainLoop` holds the adapter, the producers, the loop counters and the
  speed input. Its method `Tick` performs one pass and is proved to equal
  that specification.

Every byte written is a `byte` (0..255). Python's `& 0xFF` is written
`% 256`, and `|` is `Bytes.Or`, defined through an arithmetic bitwise OR on
naturals. Identifiers are built with `CanCodec.Hex3`, the `:03X` format.

Where the repository's prose and its code differ, the model follows the
code:

- The decoder recovers only identifiers of width 3 (`t`) or 8 (`T`). An
  identifier of another width is written but not read back
  (`CanCodec.OtherWidthsNotRecovered`).
- `setup_channel` does not check the channel number.
- A full tank is `0x2080`: low byte 0x80, high byte 0x20.
- The decoder never raises on a well-formed prefix. A line cut inside the
  payload comes back with a shorter payload (`CanCodec.TruncatedPayload`),
  and malformed lines give `None`.
- `send_speed` sends the running sum of its inputs, not its input.

## Model

| member | source | states |
|---|---|---|
| Bytes.Or | modules/lightning.py:49-58 | Python's `\|` on two bytes, through `BitOr`; what it does on the operands the source uses is stated by `Bytes.OrHighNibble`, `Bytes.OrLowNibble` and `Bytes.OrHigherBit` |
| Bytes.BitOrCommutes | modules/lightning.py:49-58 | `a \| b == b \| a` for all naturals |
| Bytes.OrHighNibble | modules/speed.py:44 | `x \| 0xF0` is 0xF0 plus the low nibble of `x` |
| Bytes.OrLowNibble | modules/abs.py:41 | OR-ing a value below 16 into a byte whose low nibble is zero adds it |
| Bytes.OrHigherBit | modules/lightning.py:49-58 | OR-ing in a power of two above every bit already set adds it |
| Bytes.WrapAdd16 | modules/speed.py:38 | adding after reducing mod 65536 is adding before |
| Bytes.LittleEndian16 | modules/time.py:39-40 | `x & 0xFF` and `(x >> 8) & 0xFF` are the two little-endian bytes of `x` mod 65536 |
| Bytes.Clamp | modules/rpm.py:30 | `max(lo, min(v, hi))` lies in `[lo, hi]`, is `v` inside it and the nearer bound outside |
| CanCodec.Hex3 | modules/abs.py:44 | `f"{n:03X}"` for `n < 0x1000`: three upper-case hex digits whose value is `n` |
| CanCodec.Decimal | usb_can.py:134 | the decimal form of the channel: a leading `-` exactly for negatives, one digit for 0..9 |
| CanCodec.DecimalRoundTrip | usb_can.py:134 | the decimal digits of `n` read back give `n` |
| CanCodec.Upper | usb_can.py:125 | `upper()` keeps the length, changes only `a`..`z`, each to its capital, and leaves no lower-case letter |
| CanCodec.StripLeading | usb_can.py:152 | the result is a suffix of the input that does not start with whitespace |
| CanCodec.StripTrailing | usb_can.py:152 | the result is a prefix of the input that does not end with whitespace |
| CanCodec.Strip | usb_can.py:152 | `strip()` is a slice of the input with no whitespace at either end |
| CanCodec.StripLeadingCutsSpace | usb_can.py:152 | every character cut from the front is whitespace |
| CanCodec.StripTrailingCutsSpace | usb_can.py:152 | every character cut from the back is whitespace |
| CanCodec.StripUnchanged | usb_can.py:152 | a string without whitespace at its ends is left as it is |
| CanCodec.StripCarriageReturn | usb_can.py:152 | stripping a command line removes exactly its trailing carriage return |
| CanCodec.HexByte | usb_can.py:132 | `f"{b:02X}"`: two upper-case hex digits whose value is `b` |
| CanCodec.HexPayload | usb_can.py:132 | the payload text has two hex digits per byte |
| CanCodec.HexPayloadAt | usb_can.py:132 | characters `2i` and `2i+1` of the payload text spell byte `i` |
| CanCodec.HexPayloadPrefix | usb_can.py:132 | the first `2k` characters are the text of the first `k` bytes |
| CanCodec.CommandLetter | usb_can.py:128-129 | `t` exactly when the identifier has at most 3 characters, `T` otherwise |
| CanCodec.CommandBody | usb_can.py:125-134 | no contract of its own; specified by `CanCodec.BodyLayout` (field offsets) and `CanCodec.RoundTrip` (decodes back) |
| CanCodec.BodyLayout | usb_can.py:125-134 | the command is letter, channel digit, upper-cased identifier, length digit, payload hex, at those offsets |
| CanCodec.MessageCommand | usb_can.py:116-134 | no line when not connected, else when the channel is outside 1..2, else when more than 8 bytes (in that order); otherwise the laid-out line ending in `\r` |
| CanCodec.ParseHexChunk | usb_can.py:169 | `int(chunk, 16)` on one or two characters: a single character is accepted exactly when it is a hex digit and gives its value; two hex digits of either case give `16·hi + lo`; a sign and a digit give the signed digit; a digit beside whitespace that `int()` skips (Python's whitespace except the separators U+001C..U+001F) gives the digit; every other pair (a second character that is neither digit nor such whitespace, a first character that is not digit, sign or such whitespace, or a non-digit before whitespace) gives None |
| CanCodec.ChunkIgnoresSpace | usb_can.py:169 | whitespace that `int(…, 16)` skips is ignored beside a digit, and such whitespace alone is rejected |
| CanCodec.SeparatorRejected | usb_can.py:169 | the separators U+001C..U+001F, though `strip()` removes them, make a chunk with a digit fail |
| CanCodec.ParseHexByte | usb_can.py:169 | the two digits of a byte parse back to that byte |
| CanCodec.ParsePairs | usb_can.py:169 | the parse succeeds exactly when every chunk `raw[2i:2i+2]` parses, and then has one value per chunk, value `i` being chunk `i`'s |
| CanCodec.HexPayloadParses | usb_can.py:167-169 | the payload text of any bytes parses back to those bytes |
| CanCodec.DecodeLine | usb_can.py:154-177 | empty lines and lines not starting with `t`/`T` give None; a result takes its channel from character 1, its identifier from the next 3 or 8 characters and its data from the parse of the length digit's 2·DLC payload characters (fewer if the line ends first); with a well-formed header the line decodes exactly when that payload text parses, so a non-hex chunk gives None |
| CanCodec.DecodeFields | usb_can.py:158-175 | a line laid out with a decimal channel, the identifier, a hex length and that many byte pairs decodes to exactly those fields |
| CanCodec.RoundTrip | usb_can.py:125-175 | a command for channel 1..2, an id of width 3 or 8 and at most 8 bytes decodes, whatever follows it, to the channel, the upper-cased id and the bytes |
| CanCodec.WrittenLineDecodes | usb_can.py:106-175 | the line `send_message` writes, stripped, decodes to the message it was given |
| CanCodec.OtherWidthsNotRecovered | usb_can.py:158-162 | a command whose identifier is neither 3 nor 8 characters never decodes to its own message |
| CanCodec.TruncatedPayload | usb_can.py:164-169 | a command cut after `k` payload bytes decodes to the first `k` bytes |
| CanCodec.DecodeRejects | usb_can.py:154-177 | an empty line, a bad channel digit, a too-short line, a non-frame line, a bad length digit, a non-hex payload (`t11231ZZ`) and a payload with a U+001C separator beside a digit give None |
| CanCodec.SetupCommands | usb_can.py:89-94 | two commands exactly for the nine supported rates, none otherwise |
| CanCodec.SetupLayout | usb_can.py:92-94 | the commands are `S<ch><rate code>\r` then `O<ch>0\r` |
| CanCodec.SetupExamples | usb_can.py:40-50 | 100 kbit/s on channel 1 is `S16\r`, `O10\r`; 500 on channel 2 is `S2A\r`, `O20\r`; 999 sends nothing |
| UsbCan.Wire | usb_can.py:116-135 | a call writes one line exactly when connected and the guards pass, and that line is the formatted command |
| UsbCan.Lines | usb_can.py:106-139 | a run of calls writes at most one line per frame, and nothing when not connected |
| UsbCan.LinesAppend | usb_can.py:135 | two runs of calls write the lines of the first, then those of the second |
| UsbCan.WireDecodes | usb_can.py:125-175 | the line of a frame with a 3- or 8-character id decodes back to the frame |
| UsbCan.LinesCount | usb_can.py:116-123 | when every frame passes the guards, one line is written per frame |
| UsbCan.LinesAt | usb_can.py:106-139 | line `i` of a run is the line of frame `i` |
| UsbCan.LinesDecode | usb_can.py:106-175 | every line of a run of recoverable frames decodes to its own frame, in order |
| UsbCan.CanInterface.constructor | usb_can.py:52-66 | the port is open or not, nothing written, the adapter's pending lines queued |
| UsbCan.CanInterface.SendCommand | usb_can.py:71-78 | the command is written when connected, nothing otherwise |
| UsbCan.CanInterface.ReadLine | usb_can.py:99 | `readline()` takes the first pending line, or gives "" on timeout |
| UsbCan.CanInterface.SetupChannel | usb_can.py:80-104 | writes the two setup commands when connected and the rate is supported, then consumes one response line; otherwise changes nothing |
| UsbCan.CanInterface.SendMessage | usb_can.py:106-139 | appends exactly the line `Wire` gives |
| UsbCan.CanInterface.ReceiveMessage | usb_can.py:141-179 | None when not connected or nothing is pending; otherwise takes one line and returns the decoding of it, stripped |
| Ignition.Roll | modules/ignition.py:41 | a roll keeps bytes 0..3 and adds 1 to byte 4 mod 256 |
| Ignition.Next | modules/ignition.py:39-44 | both frames keep five bytes and their four fixed bytes; which counter rolls is stated by `Ignition.NextRolls` |
| Ignition.Sent | modules/ignition.py:40-43 | no contract of its own; specified by `Ignition.SentShape` |
| Ignition.Run | modules/ignition.py:39-44 | any run of calls keeps the fixed bytes; its effect is stated by `Ignition.OnCallsAdvance` |
| Ignition.SentShape | modules/ignition.py:39-44 | one 5-byte frame, id "130", channel 1: the on frame when on, the off frame when off |
| Ignition.NextRolls | modules/ignition.py:39-44 | only the frame sent has its counter byte advanced; the fixed bytes never change |
| Ignition.OnCallsAdvance | modules/ignition.py:39-41 | after `k` calls with ignition on, the on counter has advanced by `k` mod 256 and the off frame is untouched |
| Ignition.OnSequence | modules/ignition.py:26 | call `k` with ignition on sends counter `0xEF + k` mod 256 |
| Ignition.Producer.constructor | modules/ignition.py:26-27 | the two frames as at import |
| Ignition.Producer.SendIgnition | modules/ignition.py:39-44 | the new frames are `Next` and the lines written are those of `Sent` |
| Airbag.CallEffect | modules/airbag.py:34-36 | enabled: nothing sent or changed; disabled: one frame "0D7" with the current byte 0, then byte 0 advances mod 256 |
| Airbag.Next | modules/airbag.py:34-36 | the frame keeps two bytes with byte 1 = 0xFF; the increment is stated by `Airbag.CallEffect` |
| Airbag.Sent | modules/airbag.py:34-35 | no contract of its own; specified by `Airbag.CallEffect` |
| Airbag.Run | modules/airbag.py:34-36 | any run of calls keeps byte 1; its effect is stated by `Airbag.DisabledCallsRoll` |
| Airbag.DisabledCallsRoll | modules/airbag.py:24-36 | after `k` disabled calls byte 0 is `0xC3 + k` mod 256 |
| Airbag.Producer.constructor | modules/airbag.py:24 | the frame as at import |
| Airbag.Producer.SendAirbag | modules/airbag.py:34-36 | the new frame is `Next` and the lines written are those of `Sent` |
| EngineTemperature.Encode | modules/enginetemperature.py:35 | `(c + 48) & 0xFF`, which decodes back by subtracting 48 whenever `c + 48` fits a byte |
| EngineTemperature.Next | modules/enginetemperature.py:35-39 | bytes 1 and 3..7 keep their initial values; bytes 0 and 2 are stated by `EngineTemperature.SentShape` |
| EngineTemperature.Sent | modules/enginetemperature.py:41 | no contract of its own; specified by `EngineTemperature.SentShape` |
| EngineTemperature.Run | modules/enginetemperature.py:35-41 | any run keeps the fixed bytes; its control byte is stated by `EngineTemperature.ControlByteCounts` |
| EngineTemperature.SentShape | modules/enginetemperature.py:35-41 | one 8-byte frame "1D0": the encoded temperature, 0xFF, the control byte plus 1, then the five fixed bytes |
| EngineTemperature.FirstFrame | modules/enginetemperature.py:24 | 100 °C first sends 0x94 with control byte 0x64 |
| EngineTemperature.ControlByteCounts | modules/enginetemperature.py:39 | after any `n` calls the control byte is `0x63 + n` mod 256 |
| EngineTemperature.Producer.constructor | modules/enginetemperature.py:24 | the frame as at import |
| EngineTemperature.Producer.SendEngineTemperature | modules/enginetemperature.py:35-41 | the new frame is `Next` and the lines written are those of `Sent` |
| Fuel.Level | modules/fuel.py:35-36 | the mapped level lies in 0..8320 |
| Fuel.TruncDiv | modules/fuel.py:25 | `int()` of an exact quotient: its magnitude is the floor of the magnitudes' quotient and its sign that of the quotient, so it rounds toward zero |
| Fuel.TruncExact | modules/fuel.py:25 | an exact quotient is returned as it is, whatever the signs |
| Fuel.MapValue | modules/fuel.py:24-25 | `in_min` maps to `out_min` and `in_max` to `out_max`; for `x >= in_min` and `0 <= out_min <= out_max` the result is the floor of the exact linear value |
| Fuel.MapEnds | modules/fuel.py:24-25 | the two ends of the input range map to the two ends of the output range |
| Fuel.MapFloor | modules/fuel.py:24-25 | above `in_min`, with a non-negative output range, truncation is the floor of the linear value |
| Fuel.Next | modules/fuel.py:35-44 | bytes 2..3 repeat bytes 0..1 and byte 4 stays 0; the level bytes are stated by `Fuel.SentShape` |
| Fuel.Sent | modules/fuel.py:46 | no contract of its own; specified by `Fuel.SentShape` |
| Fuel.LevelClamps | modules/fuel.py:35-36 | inside 0..100 the level is `p * 8320 / 100` rounded down; below and above it is that of 0 and 100 |
| Fuel.LevelExamples | modules/fuel.py:24-25 | 50 % maps to 0x1040 and 100 % to 0x2080 |
| Fuel.LevelMonotone | modules/fuel.py:35-36 | more fuel never maps to a lower level |
| Fuel.SentShape | modules/fuel.py:38-46 | one 5-byte frame "349": the level little-endian in bytes 0..1, repeated in bytes 2..3, byte 4 zero |
| Fuel.FrameExamples | modules/fuel.py:38-46 | 50 % sends 40 10 40 10 00, 100 % sends 80 20 80 20 00 |
| Fuel.LatestInputOnly | modules/fuel.py:41-44 | the frame depends only on the latest percentage |
| Fuel.Producer.constructor | modules/fuel.py:22 | the frame as at import |
| Fuel.Producer.SendFuel | modules/fuel.py:35-46 | the new frame is `Next` and the lines written are those of `Sent` |
| Handbrake.Next | modules/handbrake.py:32 | byte 1 stays 0xFF |
| Handbrake.Sent | modules/handbrake.py:33 | no contract of its own; specified by `Handbrake.SentShape` |
| Handbrake.SentShape | modules/handbrake.py:32-33 | one frame "34F": FE FF when engaged, FD FF when released |
| Handbrake.LatestInputOnly | modules/handbrake.py:32 | the frame depends only on the latest input, so a repeated call repeats it |
| Handbrake.Producer.constructor | modules/handbrake.py:22 | the frame as at import |
| Handbrake.Producer.SendHandbrake | modules/handbrake.py:32-33 | the new frame is `Next` and the lines written are those of `Sent` |
| Seatbelt.Next | modules/seatbelt.py:31 | every byte but byte 3 keeps its initial value |
| Seatbelt.Sent | modules/seatbelt.py:32 | no contract of its own; specified by `Seatbelt.SentShape` |
| Seatbelt.SentShape | modules/seatbelt.py:31-32 | one 8-byte frame "581" with byte 3 0x29 when fastened, 0x28 when not, the rest fixed |
| Seatbelt.LatestInputOnly | modules/seatbelt.py:31 | the frame depends only on the latest input, so a repeated call repeats it |
| Seatbelt.Producer.constructor | modules/seatbelt.py:21 | the frame as at import |
| Seatbelt.Producer.SendSeatbelt | modules/seatbelt.py:31-32 | the new frame is `Next` and the lines written are those of `Sent` |
| Lighting.Mask | modules/lightning.py:47-58 | the mask stays below 0x20 |
| Lighting.MaskBits | modules/lightning.py:27-31 | bit `k` of the mask is set exactly when light `k` is asked for |
| Lighting.Next | modules/lightning.py:60 | bytes 1 and 2 stay 0x00 and 0xF7; byte 0 is stated by `Lighting.SentShape` |
| Lighting.Sent | modules/lightning.py:62 | no contract of its own; specified by `Lighting.SentShape` |
| Lighting.SentShape | modules/lightning.py:60-62 | one frame "21A": the mask, 0x00, 0xF7 |
| Lighting.LatestInputOnly | modules/lightning.py:60 | the frame depends only on the lights asked for in the latest call |
| Lighting.MainBeamOnly | modules/lightning.py:29 | main beam alone sends 04 00 F7 |
| Lighting.OrAddsBit | modules/lightning.py:49-58 | each `lights \|= bit` step adds its bit, since the bits are distinct powers of two taken in rising order |
| Lighting.Producer.constructor | modules/lightning.py:34 | the frame as at import |
| Lighting.Producer.SendLighting | modules/lightning.py:47-62 | the new frame is `Next` and the lines written are those of `Sent` |
| Rpm.RpmByteScales | modules/rpm.py:30-31 | the byte is the clamped rpm times 128 / 8000 rounded down, at most 128: 0 at or below 0, 128 at or above 8000 |
| Rpm.RpmByte | modules/rpm.py:30-31 | no contract of its own; specified by `Rpm.RpmByteScales` and `Rpm.RpmMonotone` |
| Rpm.Sent | modules/rpm.py:33-34 | no contract of its own; specified by `Rpm.SentShape` |
| Rpm.HalfScale | modules/rpm.py:31 | 4000 rpm gives 0x40 |
| Rpm.RpmMonotone | modules/rpm.py:30-31 | a higher engine speed never gives a lower byte |
| Rpm.SentShape | modules/rpm.py:33-34 | one frame "175": 00 00 b 00 00 |
| Rpm.SendRpm | modules/rpm.py:30-34 | the lines written are those of `Sent` |
| Speed.Advance | modules/speed.py:38 | the counter stays a 16-bit value |
| Speed.Payload | modules/speed.py:41-51 | no contract of its own; specified by `Speed.PayloadDecodes` |
| Speed.Next | modules/speed.py:37-55 | the counter stays a 16-bit value; the stored speed is stated by `Speed.RunSums` |
| Speed.Sent | modules/speed.py:53 | no contract of its own; specified by `Speed.SentShape` and `Speed.HistoryAt` |
| Speed.Run | modules/speed.py:37-55 | any run keeps the counter 16-bit; its effect is stated by `Speed.RunSums` and `Speed.RunCounts` |
| Speed.History | modules/speed.py:53 | a run of calls sends one frame per call; frame `i` is stated by `Speed.HistoryAt` |
| Speed.PayloadDecodes | modules/speed.py:41-51 | bytes 0/2/4 and 1/3/5 repeat the speed little-endian mod 65536; byte 6 is the counter's low byte; byte 7 is 0xF over the counter's bits 8..11 |
| Speed.CounterHigh | modules/speed.py:44 | `(counter >> 8) \| 0xF0` keeps bits 8..11 under 0xF |
| Speed.SentShape | modules/speed.py:53 | one 8-byte frame "1A6" per call |
| Speed.RunSums | modules/speed.py:37-55 | the stored speed after any run is the start plus the sum of the inputs |
| Speed.RunCounts | modules/speed.py:38 | after `n` calls the counter has advanced by `315 n` mod 65536 |
| Speed.HistoryAt | modules/speed.py:37-55 | frame `i` of a run is what call `i` sends from the state the earlier calls left |
| Speed.SpeedsAreRunningSums | modules/speed.py:37-55 | frame `i` carries the running sum of the first `i + 1` inputs, mod 65536 |
| Speed.FirstCounter | modules/speed.py:25-38 | the first frame carries counter 0x022B |
| Speed.RunningSum | modules/speed.py:37-55 | inputs 5, 5, 5 send speeds 5, 10, 15 with counters 0x022B, 0x0366, 0x04A1 |
| Speed.Producer.constructor | modules/speed.py:24-25 | speed 0, counter 0x00F0 |
| Speed.Producer.SendSpeed | modules/speed.py:37-55 | the new globals are `Next` and the lines written are those of `Sent` |
| Abs.StatusFrame | modules/abs.py:26-41 | the main frame with status nibble `n` has byte 2 equal to `16 n + 3`, and every other byte as at import |
| Abs.CounterFrame | modules/abs.py:27 | the counter frame with count `c` has byte 0 equal to `0xF0 + c` |
| Abs.Initial | modules/abs.py:26-27 | nibbles 0xB and 0 denote exactly the buffers at import |
| Abs.Next | modules/abs.py:37-48 | both nibbles stay nibbles; the effect of a call is stated by `Abs.SentShape` |
| Abs.Sent | modules/abs.py:44-45 | no contract of its own; specified by `Abs.SentShape` |
| Abs.Run | modules/abs.py:37-48 | any run keeps both nibbles valid; its effect is stated by `Abs.DisabledCallsAdvance` |
| Abs.SentShape | modules/abs.py:37-48 | enabled: nothing; disabled: "19E" with the nibble advanced by 3, then "0C0" with the count before it advances |
| Abs.FirstFrames | modules/abs.py:39-45 | the first disabled call sends byte 2 = 0xE3 and counter frame F0 FF |
| Abs.DisabledCallsAdvance | modules/abs.py:39-48 | after `k` disabled calls the status nibble has advanced by `3 k` and the count by `k`, mod 16 |
| Abs.Period16 | modules/abs.py:39-48 | both nibbles come back after 16 disabled calls |
| Abs.StatusPeriod | modules/abs.py:39-41 | the status nibble does not come back after fewer than 16 calls |
| Abs.RotateBits | modules/abs.py:39-41 | the byte-2 update advances the upper nibble by 3 mod 16 over a lower nibble of 3 |
| Abs.CountUpBits | modules/abs.py:48 | the counter update advances the low nibble by 1 mod 16 under 0xF |
| Abs.Producer.constructor | modules/abs.py:26-27 | the buffers as at import |
| Abs.Producer.SendAbs | modules/abs.py:37-48 | the new buffers are `Next` and the lines written are those of `Sent` |
| Abs.Producer.RotateStatus | modules/abs.py:39-41 | only the status nibble changes, by +3 mod 16 |
| Abs.Producer.CountCounter | modules/abs.py:48 | only the count changes, by +1 mod 16 |
| Indicators.Initial | modules/indicators.py:34-39 | off frame 80 F0, state 0, both times set to `now` |
| Indicators.Next | modules/indicators.py:56-79 | the frame stays two bytes |
| Indicators.Active | modules/indicators.py:57-64 | no contract of its own; specified by `Indicators.RequestTakesOver` |
| Indicators.Transmits | modules/indicators.py:66 | no contract of its own; specified by `Indicators.TransmitsExactly` |
| Indicators.Code | modules/indicators.py:68-72 | no contract of its own; specified by `Indicators.SentShape` |
| Indicators.FrameFor | modules/indicators.py:67-76 | no contract of its own; specified by `Indicators.SentShape` and `Indicators.OffFrameIsInitial` |
| Indicators.Sent | modules/indicators.py:66-81 | no contract of its own; specified by `Indicators.TransmitsExactly` and `Indicators.SentShape` |
| Indicators.RequestTakesOver | modules/indicators.py:56-64 | a non-zero request takes over and restarts the hold; an off request ends the state only once 600 ms have passed |
| Indicators.TransmitsExactly | modules/indicators.py:66-81 | one frame exactly when the state changes or the last frame is 600 ms old, recording state and time; otherwise nothing |
| Indicators.SentShape | modules/indicators.py:66-81 | two bytes "1F6": code 91/A1/B1 for states 1/2/3 and 80 otherwise, then F2 on a change and F1 on a refresh; state 0 sends 80 F0 |
| Indicators.OffFrameIsInitial | modules/indicators.py:35 | the starting frame is the frame state 0 sends |
| Indicators.HoldSuppresses | modules/indicators.py:59-66 | an off request inside the hold, before the refresh is due, sends nothing and changes nothing |
| Indicators.Hazard | modules/indicators.py:56-81 | with hazards always requested: the first call sends B1 F2, later calls send B1 F1 every 600 ms and nothing between |
| Indicators.IndicatorController.constructor | modules/indicators.py:34-39 | the fields are `Initial(now)` |
| Indicators.IndicatorController.SendIndicators | modules/indicators.py:44-81 | the new fields are `Next` and the lines written are those of `Sent` |
| ClockTime.LowByte | modules/time.py:34 | `x & 0xFF` is `x` mod 256 |
| ClockTime.MonthByte | modules/time.py:38 | no contract of its own; specified by `ClockTime.ShiftedMonth` and `ClockTime.SentShape` |
| ClockTime.Next | modules/time.py:34-40 | byte 4 keeps low nibble 0xF and byte 7 stays 0xF2; the rest is stated by `ClockTime.NextOverwrites` |
| ClockTime.Sent | modules/time.py:42 | no contract of its own; specified by `ClockTime.SentShape` |
| ClockTime.ShiftedMonth | modules/time.py:38 | `(month << 4) & 0xF0` is the month's low nibble, shifted |
| ClockTime.NextOverwrites | modules/time.py:34-40 | bytes 0..6 are overwritten, so the frame depends on the date and time only |
| ClockTime.SentShape | modules/time.py:34-42 | one 8-byte frame "39E": hour, minute, second, day mod 256; month nibble over 0xF; the year little-endian; 0xF2 |
| ClockTime.MainLoopDate | modules/time.py:38-40 | 21 June 2025 14:35:12 sends 0E 23 0C 15 6F E9 07 F2 |
| ClockTime.LatestInputOnly | modules/time.py:34-40 | two states send the same frame for the same time, so a repeated call repeats it |
| ClockTime.Producer.constructor | modules/time.py:19 | the frame as at import |
| ClockTime.Producer.SendTime | modules/time.py:34-42 | the new frame is `Next` and the lines written are those of `Sent` |
| Cluster.Initial | BMW_CLUSTER.py:45-50 | the locals 0, 0, 0, 1 and every producer at its import state are a valid loop state |
| Cluster.Due | BMW_CLUSTER.py:56 | no contract of its own; specified by `Cluster.Gate` |
| Cluster.Bounce | BMW_CLUSTER.py:64-66 | no contract of its own; specified by `Cluster.BounceKept` and `Cluster.BounceTurns` |
| Cluster.AlwaysStep | BMW_CLUSTER.py:57-60 | keeps every producer state valid; stated per field by `Cluster.GroupsIndependent` |
| Cluster.AlwaysFrames | BMW_CLUSTER.py:57-60 | no contract of its own; specified by `Cluster.AlwaysIds` |
| Cluster.SpeedStep | BMW_CLUSTER.py:62-66 | keeps every producer state valid; stated per field by `Cluster.GroupsIndependent` |
| Cluster.SpeedFrames | BMW_CLUSTER.py:62-63 | no contract of its own; specified by `Cluster.SpeedIds` |
| Cluster.SlowStep | BMW_CLUSTER.py:68-75 | keeps every producer state valid; stated per field by `Cluster.GroupsIndependent` |
| Cluster.SlowFrames | BMW_CLUSTER.py:68-75 | no contract of its own; specified by `Cluster.SlowIds` |
| Cluster.ClockStep | BMW_CLUSTER.py:77-86 | keeps every producer state valid; stated per field by `Cluster.GroupsIndependent` |
| Cluster.ClockFrames | BMW_CLUSTER.py:77-86 | no contract of its own; specified by `Cluster.ClockIds` and `Cluster.ConstantDate` |
| Cluster.TickStep | BMW_CLUSTER.py:56-89 | a pass keeps every producer state valid; stated per field by `Cluster.GroupsIndependent` and `Cluster.Gate` |
| Cluster.TickFrames | BMW_CLUSTER.py:56-89 | no contract of its own; specified by `Cluster.FramesIndependent`, `Cluster.TickSchedule` and `Cluster.FixedPayloads` |
| Cluster.Counted | BMW_CLUSTER.py:88-89 | the counter goes up by one and `previous` becomes the pass time |
| Cluster.GroupsIndependent | BMW_CLUSTER.py:56-89 | a pass changes each producer by its own call exactly when its group is due (residues mod 7, 20, 100 of the counter), bounces the speed input every 7th pass, counts, and records the time |
| Cluster.FramesIndependent | BMW_CLUSTER.py:56-89 | the frames of a pass are those of the four groups, each computed from the state before the pass |
| Cluster.Gate | BMW_CLUSTER.py:56 | within 10 ms of the previous pass nothing changes and nothing is sent; otherwise the counter advances and the time is recorded |
| Cluster.AlwaysIds | BMW_CLUSTER.py:57-60 | every pass sends "130", "21A", "175", the last two with payloads 04 00 F7 and 00 00 40 00 00 |
| Cluster.SpeedIds | BMW_CLUSTER.py:62-63 | "1A6" is sent exactly when the counter is a multiple of 7 |
| Cluster.SlowIds | BMW_CLUSTER.py:68-75 | on multiples of 20: "19E", "0C0", "0D7", "1D0", "349", "34F", "581", then "1F6" when the indicator controller transmits; nothing otherwise |
| Cluster.ClockIds | BMW_CLUSTER.py:77-86 | "39E" is sent exactly when the counter is a multiple of 100 |
| Cluster.TickSchedule | BMW_CLUSTER.py:56-89 | the identifiers of a pass, in order, are the schedule the counter and the indicator controller determine |
| Cluster.FirstPass | BMW_CLUSTER.py:56-89 | the first pass sends all thirteen frames, in the order of the source |
| Cluster.FixedPayloads | BMW_CLUSTER.py:57-60 | frames 2 and 3 of every pass are the main-beam and 4000 rpm payloads |
| Cluster.ConstantDate | BMW_CLUSTER.py:77-86 | the clock frame always carries 21 June 2025 14:35:12 |
| Cluster.BounceKept | BMW_CLUSTER.py:62-66 | the speed input stays in 0..280 moving by steps of ±1, and changes by at most 1 per pass |
| Cluster.BounceTurns | BMW_CLUSTER.py:64-66 | the step turns down on reaching 280 and up on reaching 0 |
| Cluster.MainLoop.constructor | BMW_CLUSTER.py:41-50 | the adapter is opened and set up at 100 kbit/s on channel 1, which on an open port consumes one pending response line; the indicator controller is built, the counters at 0 and the step at 1 |
| Cluster.MainLoop.Tick | BMW_CLUSTER.py:54-89 | one pass of the loop: the new state is `TickStep` and the lines written are those of `TickFrames` |
| Cluster.MainLoop.Pass | BMW_CLUSTER.py:56-89 | a due pass does `TickStep` and writes `TickFrames` |
| Cluster.MainLoop.SendFast | BMW_CLUSTER.py:57-66 | the always group then the speed group |
| Cluster.MainLoop.SendRest | BMW_CLUSTER.py:68-89 | the slow group, the clock group, then the counting |
| Cluster.MainLoop.Count | BMW_CLUSTER.py:88-89 | the counter goes up and the time is recorded |
| Cluster.MainLoop.SendAlways | BMW_CLUSTER.py:57-60 | ignition on, main beam, 4000 rpm |
| Cluster.MainLoop.SendSpeedGroup | BMW_CLUSTER.py:62-66 | on every 7th pass, the speed frame, then the bounce of the input |
| Cluster.MainLoop.StepSpeed | BMW_CLUSTER.py:63 | one `send_speed` call with the current input |
| Cluster.MainLoop.SendSlowGroup | BMW_CLUSTER.py:68-75 | on every 20th pass, the seven slow calls in order |
| Cluster.MainLoop.SendSlowFirst | BMW_CLUSTER.py:69-71 | ABS disabled, airbag disabled, coolant 100 °C |
| Cluster.MainLoop.SendSlowSecond | BMW_CLUSTER.py:72-75 | fuel 50 %, parking brake on, seat belt open, hazards |
| Cluster.MainLoop.SendClockGroup | BMW_CLUSTER.py:77-86 | on every 100th pass, the clock |
| Cluster.MainLoop.StepIgnition | BMW_CLUSTER.py:57 | one `send_ignition` call with ignition on |
| Cluster.MainLoop.StepLighting | BMW_CLUSTER.py:58 | one `send_lightning` call with main beam only |
| Cluster.MainLoop.StepAbs | BMW_CLUSTER.py:69 | one `send_abs` call with ABS disabled |
| Cluster.MainLoop.StepAirbag | BMW_CLUSTER.py:70 | one `send_airbag` call with the airbag disabled |
| Cluster.MainLoop.StepCoolant | BMW_CLUSTER.py:71 | one `send_engine_temperature` call at 100 °C |
| Cluster.MainLoop.StepFuel | BMW_CLUSTER.py:72 | one `send_fuel` call at 50 % |
| Cluster.MainLoop.StepHandbrake | BMW_CLUSTER.py:73 | one `send_handbrake` call, engaged |
| Cluster.MainLoop.StepSeatbelt | BMW_CLUSTER.py:74 | one `send_seatbelt` call, unfastened |
| Cluster.MainLoop.StepIndicators | BMW_CLUSTER.py:75 | one `send_indicators` call with state 3 |
| Cluster.MainLoop.StepClock | BMW_CLUSTER.py:78-86 | one `send_time` call with the fixed date |

## Left out

- The serial port (pyserial) is not modelled. It becomes a `connected` flag fixed when the adapter is built, a log of written lines and a queue of lines to read. Timeouts, partial writes and byte encoding are not modelled.
- The port name, serial baud rate and timeout passed to `CANInterface` are not modelled, because they only reach pyserial.
- Every `print` is left out: console messages do not affect the state or the bus.
- `time.sleep` is left out, in `_send_command` and in the main loop.
- The wall clock is an integer parameter `now` in milliseconds. The main loop and the indicator controller read it once per pass and see the same value; in the source they read it a moment apart, and the loop keeps the fractional part.
- The `while True` loop and its `try`/`except` are not modelled. One iteration is `Cluster.MainLoop.Tick`, and no exception can escape a pass, because every producer call is guarded inside `send_message`.
- The producers' module-level lists exist once, at import. `Cluster.MainLoop.constructor` therefore takes the producer objects, in their import state, as parameters.
- Floating point is not modelled. `int((v / 8000) * 128)` in modules/rpm.py becomes integer floor division, and the quotient in modules/fuel.py becomes exact division truncated toward zero. Both agree with the float expression for every integer in the clamped range.
- Fuel.MapValue: the float quotient is taken as exact, so float rounding is not modelled. Its floor clause is stated only for `x >= in_min` and `0 <= out_min <= out_max`; rounding toward zero in general is stated by `Fuel.TruncDiv`. `in_min == in_max`, a division by zero in Python, is excluded by its `requires`; the only caller passes 0 and 100.
- `decode(errors="ignore")` is not modelled: a line is a string of characters. `int()`'s acceptance of non-ASCII Unicode digits is also left out.
- UsbCan.CanInterface.SendMessage: payload values are bytes by type. A Python list holding a value outside 0..255 or a non-integer is not modelled.
- CanCodec.MessageCommand: the identifier must be ASCII, so that `upper()` is exact. Every producer passes a `:03X` identifier.
- Abs.Producer: the buffers change only in two nibbles, so its state is those nibbles and the buffers are tied to them by `Holds`. Other contents of the buffers cannot arise, so they are not represented.
