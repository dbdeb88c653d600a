/** modules/enginetemperature.py: the coolant temperature on id 0x1D0,
    offset by 48, with a control byte that advances before each send. */
module EngineTemperature {
  import opened Bytes
  import opened CanCodec
  import opened UsbCan

  const EngineTempId: nat := 0x1D0
  const FrameInit: seq<byte> := [0x00, 0xFF, 0x63, 0xCD, 0x5D, 0x37, 0xCD, 0xA8]

  /** The module-level list `_engine_temp_frame`. */
  type State = seq<byte>

  /** Eight bytes; bytes 1 and 3..7 are those the frame starts with. */
  predicate Valid(s: State)
  {
    |s| == 8 && s[1] == 0xFF && s[3..] == FrameInit[3..]
  }

  function Initial(): (s: State)
    ensures Valid(s)
  {
    FrameInit
  }

  /** `(temp_celsius + 48) & 0xFF`. */
  function Encode(celsius: int): (b: byte)
    ensures b as int == (celsius + 48) % 256
    ensures 0 <= celsius + 48 < 256 ==> b as int - 48 == celsius
  {
    ((celsius + 48) % 256) as byte
  }

  /** The frame after one call: byte 0 overwritten, byte 2 advanced. */
  function Next(s: State, celsius: int): (t: State)
    requires Valid(s)
    ensures Valid(t)
  {
    s[0 := Encode(celsius)][2 := ((s[2] as int + 1) % 256) as byte]
  }

  /** What one call sends: the frame after it has been updated. */
  function Sent(s: State, celsius: int): seq<Frame>
    requires Valid(s)
  {
    [Frame(1, Hex3(EngineTempId), Next(s, celsius))]
  }

  function Run(s: State, temps: seq<int>): (t: State)
    requires Valid(s)
    ensures Valid(t)
  {
    if temps == [] then s else Next(Run(s, temps[..|temps| - 1]), temps[|temps| - 1])
  }

  /** Each call sends one 8-byte frame with id "1D0" on channel 1: byte 0 is
      the encoded temperature, byte 2 the advanced control byte, and bytes 1
      and 3..7 are unchanged. */
  lemma SentShape(s: State, celsius: int)
    requires Valid(s)
    ensures |Sent(s, celsius)| == 1 && Recoverable(Sent(s, celsius)[0])
    ensures Sent(s, celsius)[0].canId == "1D0" && |Sent(s, celsius)[0].data| == 8
    ensures Sent(s, celsius)[0].data[0] as int == (celsius + 48) % 256
    ensures Sent(s, celsius)[0].data[2] as int == (s[2] as int + 1) % 256
    ensures Sent(s, celsius)[0].data[1] == 0xFF
    ensures Sent(s, celsius)[0].data[3..] == [0xCD, 0x5D, 0x37, 0xCD, 0xA8]
  {
  }

  /** 100 degrees encode as 0x94, and the first frame carries control byte
      0x64. */
  lemma FirstFrame()
    ensures Sent(Initial(), 100)[0].data[0] == 0x94
    ensures Sent(Initial(), 100)[0].data[2] == 0x64
  {
  }

  /** After `k` calls the control byte has advanced by `k` mod 256, whatever
      the temperatures. */
  lemma {:induction false} ControlByteCounts(temps: seq<int>)
    ensures Run(Initial(), temps)[2] as int == (0x63 + |temps|) % 256
  {
    if temps != [] {
      ControlByteCounts(temps[..|temps| - 1]);
      ModIncrement(0x63 + |temps| - 1);
    }
  }

  /** The state of modules/enginetemperature.py. */
  class Producer {
    var frame: seq<byte>

    function Model(): State
      reads this
    {
      frame
    }

    constructor ()
      ensures Model() == Initial()
    {
      frame := FrameInit;
    }

    /** `send_engine_temperature`: update bytes 0 and 2, then send. */
    method SendEngineTemperature(can: CanInterface, celsius: int)
      requires Valid(Model())
      modifies this, can`written
      ensures Model() == Next(old(Model()), celsius)
      ensures can.written == old(can.written) + Lines(can.connected, Sent(old(Model()), celsius))
    {
      var encoded := ((celsius + 48) % 256) as byte;
      frame := frame[0 := encoded];
      frame := frame[2 := ((frame[2] as int + 1) % 256) as byte];
      can.SendMessage(1, Hex3(EngineTempId), frame);
    }
  }
}
