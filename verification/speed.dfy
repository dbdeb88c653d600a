/** modules/speed.py: the road speed on id 0x1A6. The value sent is the
    running sum of the inputs, and a 16-bit counter advances by 315 before
    each send. */
module Speed {
  import opened Bytes
  import opened CanCodec
  import opened UsbCan

  const SpeedId: nat := 0x1A6
  const CounterStep: nat := 315

  /** The module globals `_last_speed` and `_speed_counter`. */
  datatype State = State(lastSpeed: int, counter: int)

  predicate Valid(s: State)
  {
    0 <= s.counter < 0x1_0000
  }

  function Initial(): (s: State)
    ensures Valid(s)
  {
    State(0, 0x00F0)
  }

  /** `(counter + 315) & 0xFFFF`. */
  function Advance(counter: int): (c: int)
    ensures 0 <= c < 0x1_0000
  {
    (counter + CounterStep) % 0x1_0000
  }

  /** The eight payload bytes for a speed and a counter: the speed's low and
      high bytes three times, the counter's low byte, and its high byte with
      the upper nibble forced to 0xF. */
  function Payload(speed: int, counter: int): seq<byte>
    requires 0 <= counter < 0x1_0000
  {
    var low, high := (speed % 256) as byte, ((speed / 256) % 256) as byte;
    [low, high, low, high, low, high, (counter % 256) as byte, (0xF0 + (counter / 256) % 16) as byte]
  }

  /** The state after one `send_speed` call. */
  function Next(s: State, increment: int): (t: State)
    requires Valid(s)
    ensures Valid(t)
  {
    State(increment + s.lastSpeed, Advance(s.counter))
  }

  /** What one call sends: the new speed with the advanced counter. */
  function Sent(s: State, increment: int): seq<Frame>
    requires Valid(s)
  {
    [Frame(1, Hex3(SpeedId), Payload(increment + s.lastSpeed, Advance(s.counter)))]
  }

  function Run(s: State, increments: seq<int>): (t: State)
    requires Valid(s)
    ensures Valid(t)
  {
    if increments == [] then s
    else Next(Run(s, increments[..|increments| - 1]), increments[|increments| - 1])
  }

  /** The frames sent over a sequence of calls. */
  function History(s: State, increments: seq<int>): (frames: seq<Frame>)
    requires Valid(s)
    ensures |frames| == |increments|
  {
    if increments == [] then []
    else
      var before := increments[..|increments| - 1];
      History(s, before) + Sent(Run(s, before), increments[|increments| - 1])
  }

  function Sum(xs: seq<int>): int
  {
    if xs == [] then 0 else Sum(xs[..|xs| - 1]) + xs[|xs| - 1]
  }

  /** The eight bytes decode back: bytes 0, 2 and 4 all hold the speed's low
      byte and bytes 1, 3 and 5 its high byte, so the speed is recovered mod
      65536; byte 6 is the counter's low byte and byte 7 has upper nibble 0xF
      and the counter's bits 8..11 below it. */
  lemma PayloadDecodes(speed: int, counter: int)
    requires 0 <= counter < 0x1_0000
    ensures var p := Payload(speed, counter);
      |p| == 8 && p[2] == p[0] && p[4] == p[0] && p[3] == p[1] && p[5] == p[1] &&
      p[0] as int + 256 * p[1] as int == speed % 0x1_0000 &&
      p[6] as int == counter % 256 && p[7] as int / 16 == 0xF &&
      p[6] as int + 256 * (p[7] as int % 16) == counter % 0x1000
  {
    SpeedBytes(speed, counter);
    CounterBytes(speed, counter);
  }

  /** Bytes 6..7 hold the counter's low twelve bits under 0xF. */
  lemma CounterBytes(speed: int, counter: int)
    requires 0 <= counter < 0x1_0000
    ensures var p := Payload(speed, counter);
      p[6] as int == counter % 256 && p[7] as int / 16 == 0xF &&
      p[6] as int + 256 * (p[7] as int % 16) == counter % 0x1000
  {
    var hi := counter / 256;
    assert counter == 256 * hi + counter % 256;
    assert hi == 16 * (hi / 16) + hi % 16;
    assert counter == 0x1000 * (hi / 16) + (256 * (hi % 16) + counter % 256);
  }

  /** Bytes 0..1 hold the speed little-endian. */
  lemma SpeedBytes(speed: int, counter: int)
    requires 0 <= counter < 0x1_0000
    ensures Payload(speed, counter)[0] as int + 256 * Payload(speed, counter)[1] as int == speed % 0x1_0000
  {
    LittleEndian16(speed);
  }

  /** `(counter >> 8) | 0xF0` for a 16-bit counter: the counter's bits 8..11
      under an upper nibble of 0xF. */
  lemma CounterHigh(counter: int)
    requires 0 <= counter < 0x1_0000
    ensures 0 <= counter / 256 < 256
    ensures Or((counter / 256) as byte, 0xF0) == (0xF0 + (counter / 256) % 16) as byte
  {
    OrHighNibble((counter / 256) as byte);
  }

  /** Each call sends one 8-byte frame with id "1A6" on channel 1. */
  lemma SentShape(s: State, increment: int)
    requires Valid(s)
    ensures |Sent(s, increment)| == 1 && Recoverable(Sent(s, increment)[0])
    ensures Sent(s, increment)[0].canId == "1A6" && |Sent(s, increment)[0].data| == 8
  {
  }

  /** The speed stored after any run is the sum of the inputs. */
  lemma {:induction false} RunSums(s: State, increments: seq<int>)
    requires Valid(s)
    ensures Run(s, increments).lastSpeed == s.lastSpeed + Sum(increments)
  {
    if increments != [] {
      RunSums(s, increments[..|increments| - 1]);
    }
  }

  /** After a run the counter has advanced by 315 per call, mod 65536. */
  lemma {:induction false} RunCounts(s: State, increments: seq<int>)
    requires Valid(s)
    ensures Run(s, increments).counter == (s.counter + CounterStep * |increments|) % 0x1_0000
  {
    if increments != [] {
      var before := increments[..|increments| - 1];
      RunCounts(s, before);
      WrapAdd16(s.counter + CounterStep * |before|, CounterStep);
    }
  }

  /** A prefix one longer adds the next input to the sum. */
  lemma SumPrefix(xs: seq<int>, i: nat)
    requires i < |xs|
    ensures Sum(xs[..i + 1]) == Sum(xs[..i]) + xs[i]
  {
    assert xs[..i + 1][..i] == xs[..i];
  }

  /** Frame `i` of a run is what call `i` sends from the state the earlier
      calls left. */
  lemma {:induction false} HistoryAt(s: State, increments: seq<int>, i: nat)
    requires Valid(s) && i < |increments|
    ensures History(s, increments)[i] == Sent(Run(s, increments[..i]), increments[i])[0]
    ensures History(s, increments)[i].data ==
      Payload(increments[i] + Run(s, increments[..i]).lastSpeed, Advance(Run(s, increments[..i]).counter))
  {
    var before := increments[..|increments| - 1];
    if i < |before| {
      HistoryAt(s, before, i);
      assert before[..i] == increments[..i];
    } else {
      assert before == increments[..i];
    }
  }

  /** The speed call `i` sends is the running sum up to and including it. */
  lemma RunSpeedAt(s: State, increments: seq<int>, i: nat)
    requires Valid(s) && i < |increments|
    ensures increments[i] + Run(s, increments[..i]).lastSpeed == s.lastSpeed + Sum(increments[..i + 1])
  {
    RunSums(s, increments[..i]);
    SumPrefix(increments, i);
  }

  /** Frame `i` of a run carries, little-endian in bytes 0..1, the sum of
      the first `i + 1` inputs (plus the starting speed) mod 65536. */
  lemma SpeedsAreRunningSums(s: State, increments: seq<int>, i: nat)
    requires Valid(s) && i < |increments|
    ensures var p := History(s, increments)[i].data;
      |p| == 8 && p[0] as int + 256 * p[1] as int == (s.lastSpeed + Sum(increments[..i + 1])) % 0x1_0000
  {
    var t := Run(s, increments[..i]);
    var speed := increments[i] + t.lastSpeed;
    var p := History(s, increments)[i].data;
    HistoryAt(s, increments, i);
    SpeedBytes(speed, Advance(t.counter));
    assert p[0] as int + 256 * p[1] as int == speed % 0x1_0000;
    RunSpeedAt(s, increments, i);
  }

  /** The first frame carries counter 0x022B: byte 6 is 0x2B, byte 7 is 0xF2. */
  lemma FirstCounter(increment: int)
    ensures Sent(Initial(), increment)[0].data[6] == 0x2B
    ensures Sent(Initial(), increment)[0].data[7] == 0xF2
  {
  }

  /** Inputs 5, 5, 5 from the start send speeds 5, 10 and 15, with counters
      0x022B, 0x0366 and 0x04A1. */
  lemma RunningSum()
    ensures History(Initial(), [5, 5, 5]) ==
      [Frame(1, "1A6", [5, 0, 5, 0, 5, 0, 0x2B, 0xF2]),
       Frame(1, "1A6", [10, 0, 10, 0, 10, 0, 0x66, 0xF3]),
       Frame(1, "1A6", [15, 0, 15, 0, 15, 0, 0xA1, 0xF4])]
  {
    var xs := [5, 5, 5];
    assert xs[..0] == [] && xs[..1] == [5] && xs[..2] == [5, 5];
    assert [5, 5][..1] == [5] && [5][..0] == [];
    assert Run(Initial(), [5]) == State(5, 0x022B);
    assert Run(Initial(), [5, 5]) == State(10, 0x0366);
    HistoryAt(Initial(), xs, 0);
    HistoryAt(Initial(), xs, 1);
    HistoryAt(Initial(), xs, 2);
  }

  /** The state of modules/speed.py. */
  class Producer {
    var lastSpeed: int
    var counter: int

    function Model(): State
      reads this
    {
      State(lastSpeed, counter)
    }

    constructor ()
      ensures Model() == Initial()
    {
      lastSpeed := 0;
      counter := 0x00F0;
    }

    /** `send_speed`: add the input to the last speed, advance the counter,
        split both into bytes, send, then store the speed. */
    method SendSpeed(can: CanInterface, increment: int)
      requires Valid(Model())
      modifies this, can`written
      ensures Model() == Next(old(Model()), increment)
      ensures can.written == old(can.written) + Lines(can.connected, Sent(old(Model()), increment))
    {
      var speed := increment + lastSpeed;
      counter := (counter + CounterStep) % 0x1_0000;
      var speedLow := (speed % 256) as byte;
      var speedHigh := ((speed / 256) % 256) as byte;
      var counterLow := (counter % 256) as byte;
      CounterHigh(counter);
      var counterHigh := Or((counter / 256) as byte, 0xF0);
      var data := [speedLow, speedHigh, speedLow, speedHigh, speedLow, speedHigh, counterLow, counterHigh];
      assert data == Payload(speed, counter);
      assert Sent(old(Model()), increment) == [Frame(1, Hex3(SpeedId), data)];
      can.SendMessage(1, Hex3(SpeedId), data);
      lastSpeed := speed;
    }
  }
}
