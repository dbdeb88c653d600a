/** modules/abs.py: the ABS status on id 0x19E and its counter frame on id
    0x0C0. Both are sent only while ABS is reported disabled.

    Only two nibbles of the two buffers ever change: the upper nibble of
    byte 2 of the main frame and the lower nibble of byte 0 of the counter
    frame. The model's state is those two nibbles and each buffer is the
    frame its nibble denotes. */
module Abs {
  import opened Bytes
  import opened CanCodec
  import opened UsbCan

  const AbsId: nat := 0x19E
  const AbsCounterId: nat := 0x0C0
  const FrameInit: seq<byte> := [0x00, 0xE0, 0xB3, 0xFC, 0xF0, 0x43, 0x00, 0x65]
  const CounterFrameInit: seq<byte> := [0xF0, 0xFF]

  /** The upper nibble of `_abs_frame[2]` and the lower nibble of
      `_abs_counter_frame[0]`. */
  datatype State = State(status: int, count: int)

  predicate Valid(s: State)
  {
    0 <= s.status < 16 && 0 <= s.count < 16
  }

  /** The main frame with upper nibble `n` in byte 2 over a lower nibble of
      3; every other byte as at start. */
  function StatusFrame(n: int): (f: seq<byte>)
    requires 0 <= n < 16
    ensures |f| == 8 && f[2] as int == 16 * n + 3
    ensures forall i :: 0 <= i < 8 && i != 2 ==> f[i] == FrameInit[i]
  {
    FrameInit[2 := (16 * n + 3) as byte]
  }

  /** The counter frame with lower nibble `c` in byte 0 under 0xF. */
  function CounterFrame(c: int): (f: seq<byte>)
    requires 0 <= c < 16
    ensures |f| == 2 && f[0] as int == 0xF0 + c
  {
    [(0xF0 + c) as byte, 0xFF]
  }

  /** The start buffers: status nibble 0xB (byte 2 is 0xB3), count 0. */
  function Initial(): (s: State)
    ensures Valid(s)
    ensures StatusFrame(s.status) == FrameInit && CounterFrame(s.count) == CounterFrameInit
  {
    State(0xB, 0)
  }

  /** One `send_abs` call: when disabled the status nibble advances by 3 and
      the count by 1, both mod 16; when enabled nothing changes. */
  function Next(s: State, enabled: bool): (t: State)
    requires Valid(s)
    ensures Valid(t)
  {
    if enabled then s else State((s.status + 3) % 16, (s.count + 1) % 16)
  }

  /** What one call sends: nothing when enabled; otherwise the main frame
      after its nibble advances, then the counter frame before it counts
      up. */
  function Sent(s: State, enabled: bool): seq<Frame>
    requires Valid(s)
  {
    if enabled then []
    else [Frame(1, Hex3(AbsId), StatusFrame(Next(s, enabled).status)), Frame(1, Hex3(AbsCounterId), CounterFrame(s.count))]
  }

  function Run(s: State, calls: seq<bool>): (t: State)
    requires Valid(s)
    ensures Valid(t)
  {
    if calls == [] then s else Next(Run(s, calls[..|calls| - 1]), calls[|calls| - 1])
  }

  /** `k` calls with ABS disabled. */
  function DisabledCalls(k: nat): (calls: seq<bool>)
    ensures |calls| == k && forall i :: 0 <= i < k ==> !calls[i]
  {
    seq(k, i => false)
  }

  /** An enabled call sends nothing and changes nothing. A disabled call
      sends the main frame with id "19E", then the counter frame with id
      "0C0", both on channel 1 and both read back by the decoder; byte 2 of
      the first is `16 ((n + 3) mod 16) + 3` for status nibble `n`, and the
      second carries the count before it is advanced. */
  lemma SentShape(s: State, enabled: bool)
    requires Valid(s)
    ensures enabled ==> Sent(s, enabled) == [] && Next(s, enabled) == s
    ensures !enabled ==>
      (|Sent(s, enabled)| == 2 &&
       Recoverable(Sent(s, enabled)[0]) && Recoverable(Sent(s, enabled)[1]) &&
       Sent(s, enabled)[0].canId == "19E" && Sent(s, enabled)[1].canId == "0C0" &&
       Sent(s, enabled)[0].data[2] as int == 16 * ((s.status + 3) % 16) + 3 &&
       Sent(s, enabled)[1].data == [(0xF0 + s.count) as byte, 0xFF])
  {
  }

  /** The first disabled call sends byte 2 = 0xE3 and counter frame
      [0xF0, 0xFF]. */
  lemma FirstFrames()
    ensures Sent(Initial(), false)[0].data == [0x00, 0xE0, 0xE3, 0xFC, 0xF0, 0x43, 0x00, 0x65]
    ensures Sent(Initial(), false)[1].data == [0xF0, 0xFF]
  {
  }

  /** After `k` disabled calls the status nibble has advanced by `3 k` and
      the count by `k`, both mod 16. */
  lemma {:induction false} DisabledCallsAdvance(s: State, k: nat)
    requires Valid(s)
    ensures Run(s, DisabledCalls(k)) == State((s.status + 3 * k) % 16, (s.count + k) % 16)
  {
    if k > 0 {
      assert DisabledCalls(k)[..k - 1] == DisabledCalls(k - 1);
      DisabledCallsAdvance(s, k - 1);
      NibbleStep(s.status + 3 * (k - 1), 3);
      NibbleStep(s.count + (k - 1), 1);
    }
  }

  /** Adding to a nibble after reducing mod 16 is adding before. */
  lemma NibbleStep(x: int, d: int)
    ensures (x % 16 + d) % 16 == (x + d) % 16
  {
    var k := x / 16;
    assert x % 16 + d == (x + d) - 16 * k;
  }

  /** A byte read as its two nibbles. */
  lemma Nibbles(hi: int, lo: int)
    requires 0 <= lo < 16
    ensures (16 * hi + lo) / 16 == hi && (16 * hi + lo) % 16 == lo
  {
  }

  /** Both nibbles have period 16 over disabled calls. */
  lemma Period16(s: State)
    requires Valid(s)
    ensures Run(s, DisabledCalls(16)) == s
  {
    DisabledCallsAdvance(s, 16);
    assert (s.status + 48) % 16 == s.status;
  }

  /** For no positive number of disabled calls below 16 is the status
      nibble back where it started. */
  lemma StatusPeriod(s: State, k: nat)
    requires Valid(s) && 0 < k < 16
    ensures Run(s, DisabledCalls(k)).status != s.status
  {
    DisabledCallsAdvance(s, k);
    StatusMoves(s.status, k);
  }

  /** Three is odd, so `3 k` is a multiple of 16 only for multiples of 16. */
  lemma StatusMoves(n: int, k: nat)
    requires 0 <= n < 16 && 0 < k < 16
    ensures (n + 3 * k) % 16 != n
  {
    var q := (n + 3 * k) / 16;
    assert n + 3 * k == 16 * q + (n + 3 * k) % 16;
    assert 0 <= q < 4;
  }

  /** The state of modules/abs.py. */
  class Producer {
    var frame: seq<byte>
    var counterFrame: seq<byte>

    /** Each buffer is the frame its nibble denotes. */
    predicate Holds()
      reads this
    {
      |frame| == 8 && |counterFrame| == 2 &&
      frame == StatusFrame(frame[2] as int / 16) && counterFrame == CounterFrame(counterFrame[0] as int % 16)
    }

    function Model(): (s: State)
      reads this
      requires Holds()
      ensures Valid(s) && frame == StatusFrame(s.status) && counterFrame == CounterFrame(s.count)
    {
      State(frame[2] as int / 16, counterFrame[0] as int % 16)
    }

    constructor ()
      ensures Holds() && Model() == Initial()
      ensures frame == FrameInit && counterFrame == CounterFrameInit
    {
      frame := FrameInit;
      counterFrame := CounterFrameInit;
    }

    /** `send_abs`: when disabled, rotate byte 2, send both frames, then
        count the counter frame up. */
    method SendAbs(can: CanInterface, enabled: bool)
      requires Holds()
      modifies this, can`written
      ensures Holds() && Model() == Next(old(Model()), enabled)
      ensures can.written == old(can.written) + Lines(can.connected, Sent(old(Model()), enabled))
    {
      if !enabled {
        ghost var s0 := Model();
        RotateStatus();
        assert Sent(s0, false) == [Frame(1, Hex3(AbsId), frame)] + [Frame(1, Hex3(AbsCounterId), counterFrame)];
        SendFrames(can);
        CountCounter();
      } else {
        assert Lines(can.connected, []) == [];
      }
    }

    /** The two `send_message` calls: the main frame, then the counter
        frame. */
    method SendFrames(can: CanInterface)
      modifies can`written
      ensures can.written == old(can.written) +
        Lines(can.connected, [Frame(1, Hex3(AbsId), frame)] + [Frame(1, Hex3(AbsCounterId), counterFrame)])
    {
      ghost var w0 := can.written;
      can.SendMessage(1, Hex3(AbsId), frame);
      ghost var w1 := can.written;
      can.SendMessage(1, Hex3(AbsCounterId), counterFrame);
      LinesChain(can.connected, w0, w1, can.written, [Frame(1, Hex3(AbsId), frame)], [Frame(1, Hex3(AbsCounterId), counterFrame)]);
    }

    /** Byte 2 of the main frame: `((((b >> 4) + 3) << 4) & 0xF0) | 0x03`
        advances the upper nibble by 3. */
    method RotateStatus()
      requires Holds()
      modifies this
      ensures Holds() && Model() == State((old(Model()).status + 3) % 16, old(Model()).count)
    {
      ghost var n := Model().status;
      var value := frame[2];
      Nibbles(n, 3);
      var upper := value as int / 16 + 3;
      // `(upper << 4) & 0xF0` is `% 256` here, by `RotateBits`
      var shifted := ((upper * 16) % 256) as byte;
      RotateBits(value);
      frame := frame[2 := Or(shifted, 0x03)];
      assert frame == StatusFrame((n + 3) % 16);
      Nibbles((n + 3) % 16, 3);
    }

    /** Byte 0 of the counter frame: `((b + 1) & 0x0F) | 0xF0` advances the
        lower nibble by 1. */
    method CountCounter()
      requires Holds()
      modifies this
      ensures Holds() && Model() == State(old(Model()).status, (old(Model()).count + 1) % 16)
    {
      ghost var c := Model().count;
      Nibbles(0xF, c);
      CountUpBits(counterFrame[0]);
      counterFrame := counterFrame[0 := Or(((counterFrame[0] as int + 1) % 16) as byte, 0xF0)];
      assert counterFrame == CounterFrame((c + 1) % 16);
      Nibbles(0xF, (c + 1) % 16);
    }
  }

  /** The bit operations of the byte-2 update give upper nibble
      `(b / 16 + 3) mod 16` over a lower nibble of 3. */
  lemma RotateBits(value: byte)
    ensures var upper := value as int / 16 + 3;
      (upper * 16) % 256 == 16 * (upper % 16) &&
      Or(((upper * 16) % 256) as byte, 0x03) == (16 * (upper % 16) + 3) as byte
  {
    var upper := value as int / 16 + 3;
    var q := upper / 16;
    assert upper * 16 == 256 * q + 16 * (upper % 16);
    OrLowNibble((16 * (upper % 16)) as byte, 0x03);
  }

  /** The bit operations of the counter update give upper nibble 0xF over
      the lower nibble plus one, mod 16. */
  lemma CountUpBits(b: byte)
    ensures Or(((b as int + 1) % 16) as byte, 0xF0) == (0xF0 + (b as int % 16 + 1) % 16) as byte
  {
    OrHighNibble(((b as int + 1) % 16) as byte);
    NibbleStep(b as int, 1);
  }
}
