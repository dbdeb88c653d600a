/** modules/seatbelt.py: the driver's seat belt on id 0x581. */
module Seatbelt {
  import opened Bytes
  import opened CanCodec
  import opened UsbCan

  const SeatbeltId: nat := 0x581
  const FrameInit: seq<byte> := [0x40, 0x4D, 0x00, 0x28, 0xFF, 0xFF, 0xFF, 0xFF]

  /** The module-level list `_seatbelt_frame`. */
  type State = seq<byte>

  /** Eight bytes; all but byte 3 are those the frame starts with. */
  predicate Valid(s: State)
  {
    |s| == 8 && s[..3] == FrameInit[..3] && s[4..] == FrameInit[4..]
  }

  function Initial(): (s: State)
    ensures Valid(s)
  {
    FrameInit
  }

  /** The frame after one call: byte 3 overwritten. */
  function Next(s: State, fastened: bool): (t: State)
    requires Valid(s)
    ensures Valid(t)
  {
    s[3 := if fastened then 0x29 else 0x28]
  }

  /** What one call sends: the updated frame. */
  function Sent(s: State, fastened: bool): seq<Frame>
    requires Valid(s)
  {
    [Frame(1, Hex3(SeatbeltId), Next(s, fastened))]
  }

  /** One 8-byte frame with id "581" on channel 1: byte 3 is 0x29 when
      fastened and 0x28 when not, the other bytes are fixed. */
  lemma SentShape(s: State, fastened: bool)
    requires Valid(s)
    ensures |Sent(s, fastened)| == 1 && Recoverable(Sent(s, fastened)[0])
    ensures Sent(s, fastened)[0].canId == "581"
    ensures Sent(s, fastened)[0].data ==
      [0x40, 0x4D, 0x00, if fastened then 0x29 else 0x28, 0xFF, 0xFF, 0xFF, 0xFF]
  {
    var d := Next(s, fastened);
    assert d == d[..3] + [d[3]] + d[4..];
  }

  /** The payload depends only on the latest input, so repeating a call
      repeats its frame. */
  lemma LatestInputOnly(s1: State, s2: State, fastened: bool)
    requires Valid(s1) && Valid(s2)
    ensures Sent(s1, fastened) == Sent(s2, fastened)
    ensures Sent(Next(s1, fastened), fastened) == Sent(s1, fastened)
  {
    SentShape(s1, fastened);
    SentShape(s2, fastened);
    SentShape(Next(s1, fastened), fastened);
  }

  /** The state of modules/seatbelt.py. */
  class Producer {
    var frame: seq<byte>

    function Model(): State
      reads this
    {
      frame
    }

    constructor ()
      ensures Model() == Initial()
    {
      frame := FrameInit;
    }

    /** `send_seatbelt`. */
    method SendSeatbelt(can: CanInterface, fastened: bool)
      requires Valid(Model())
      modifies this, can`written
      ensures Model() == Next(old(Model()), fastened)
      ensures can.written == old(can.written) + Lines(can.connected, Sent(old(Model()), fastened))
    {
      frame := frame[3 := if fastened then 0x29 else 0x28];
      can.SendMessage(1, Hex3(SeatbeltId), frame);
    }
  }
}
