/** modules/time.py: the dashboard clock and date on id 0x39E. */
module ClockTime {
  import opened Bytes
  import opened CanCodec
  import opened UsbCan

  const TimeId: nat := 0x39E
  const FrameInit: seq<byte> := [0x0B, 0x10, 0x00, 0x0D, 0x1F, 0xDF, 0x07, 0xF2]

  /** The arguments of `send_time`, as Python ints of any value. */
  datatype DateTime = DateTime(hour: int, minute: int, second: int, day: int, month: int, year: int)

  /** The module-level list `_time_frame`. */
  type State = seq<byte>

  /** Eight bytes; byte 4 has low nibble 0xF and byte 7 stays 0xF2. */
  predicate Valid(s: State)
  {
    |s| == 8 && s[4] as int % 16 == 0xF && s[7] == 0xF2
  }

  function Initial(): (s: State)
    ensures Valid(s)
  {
    FrameInit
  }

  /** `x & 0xFF`. */
  function LowByte(x: int): (b: byte)
    ensures b as int == x % 256
  {
    (x % 256) as byte
  }

  /** `((month << 4) & 0xF0) | 0x0F` as the value it denotes: the month's low
      nibble above 0xF. */
  function MonthByte(month: int): byte
  {
    (16 * (month % 16) + 0xF) as byte
  }

  /** The frame after one call: bytes 0..6 overwritten. */
  function Next(s: State, d: DateTime): (t: State)
    requires Valid(s)
    ensures Valid(t)
  {
    s[0 := LowByte(d.hour)][1 := LowByte(d.minute)][2 := LowByte(d.second)][3 := LowByte(d.day)]
     [4 := MonthByte(d.month)][5 := LowByte(d.year)][6 := LowByte(d.year / 256)]
  }

  /** What one call sends: the updated frame. */
  function Sent(s: State, d: DateTime): seq<Frame>
    requires Valid(s)
  {
    [Frame(1, Hex3(TimeId), Next(s, d))]
  }

  /** `(month << 4) & 0xF0` keeps the month's low nibble, shifted. */
  lemma ShiftedMonth(month: int)
    ensures (month * 16) % 256 == 16 * (month % 16)
  {
    var q, r := month / 16, month % 16;
    assert month * 16 == 256 * q + 16 * r;
  }

  /** A call overwrites bytes 0..6, so the frame it leaves depends on the
      date and time only. */
  lemma NextOverwrites(s: State, d: DateTime)
    requires Valid(s)
    ensures Next(s, d) == [LowByte(d.hour), LowByte(d.minute), LowByte(d.second), LowByte(d.day),
                           MonthByte(d.month), LowByte(d.year), LowByte(d.year / 256), 0xF2]
  {
  }

  /** One 8-byte frame with id "39E" on channel 1. Bytes 0..3 are hour,
      minute, second and day mod 256; byte 4 carries the month's low nibble
      above 0xF; bytes 5..6 hold the year little-endian; byte 7 is 0xF2. */
  lemma SentShape(s: State, d: DateTime)
    requires Valid(s)
    ensures |Sent(s, d)| == 1 && Recoverable(Sent(s, d)[0]) && Sent(s, d)[0].canId == "39E"
    ensures var p := Sent(s, d)[0].data;
      |p| == 8 &&
      p[0] as int == d.hour % 256 && p[1] as int == d.minute % 256 &&
      p[2] as int == d.second % 256 && p[3] as int == d.day % 256 &&
      p[4] as int / 16 == d.month % 16 && p[4] as int % 16 == 0xF &&
      p[5] as int + 256 * p[6] as int == d.year % 65536 &&
      p[7] == 0xF2
  {
    NextOverwrites(s, d);
    LittleEndian16(d.year);
  }

  /** The clock set in the main loop: 2025 is sent as 0xE9, 0x07 and June as
      0x6F. */
  lemma MainLoopDate()
    ensures Sent(Initial(), DateTime(14, 35, 12, 21, 6, 2025))[0].data ==
      [14, 35, 12, 21, 0x6F, 0xE9, 0x07, 0xF2]
  {
    NextOverwrites(Initial(), DateTime(14, 35, 12, 21, 6, 2025));
  }

  /** The payload depends only on the latest inputs: any two states send the
      same frame, so sending the same time twice sends identical payloads. */
  lemma LatestInputOnly(s1: State, s2: State, d: DateTime)
    requires Valid(s1) && Valid(s2)
    ensures Sent(s1, d) == Sent(s2, d)
    ensures Sent(Next(s1, d), d) == Sent(s1, d)
  {
    NextOverwrites(s1, d);
    NextOverwrites(s2, d);
    NextOverwrites(Next(s1, d), d);
  }

  /** The state of modules/time.py. */
  class Producer {
    var frame: seq<byte>

    function Model(): State
      reads this
    {
      frame
    }

    constructor ()
      ensures Model() == Initial()
    {
      frame := FrameInit;
    }

    /** `send_time`: overwrite bytes 0..6, then send. */
    method SendTime(can: CanInterface, d: DateTime)
      requires Valid(Model())
      modifies this, can`written
      ensures Model() == Next(old(Model()), d)
      ensures can.written == old(can.written) + Lines(can.connected, Sent(old(Model()), d))
    {
      frame := frame[0 := (d.hour % 256) as byte];
      frame := frame[1 := (d.minute % 256) as byte];
      frame := frame[2 := (d.second % 256) as byte];
      frame := frame[3 := (d.day % 256) as byte];
      // `month << 4` has a zero low nibble, so `& 0xF0` is `% 256` here
      ShiftedMonth(d.month);
      var shifted := ((d.month * 16) % 256) as byte;
      OrLowNibble(shifted, 0x0F);
      frame := frame[4 := Or(shifted, 0x0F)];
      frame := frame[5 := (d.year % 256) as byte];
      frame := frame[6 := ((d.year / 256) % 256) as byte];
      can.SendMessage(1, Hex3(TimeId), frame);
    }
  }
}
