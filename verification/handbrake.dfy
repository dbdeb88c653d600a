/** modules/handbrake.py: the parking brake on id 0x34F. */
module Handbrake {
  import opened Bytes
  import opened CanCodec
  import opened UsbCan

  const HandbrakeId: nat := 0x34F
  const FrameInit: seq<byte> := [0xFE, 0xFF]

  /** The module-level list `_handbrake_frame`. */
  type State = seq<byte>

  /** Two bytes, byte 1 = 0xFF. */
  predicate Valid(s: State)
  {
    |s| == 2 && s[1] == 0xFF
  }

  function Initial(): (s: State)
    ensures Valid(s)
  {
    FrameInit
  }

  /** The frame after one call: byte 0 overwritten. */
  function Next(s: State, active: bool): (t: State)
    requires Valid(s)
    ensures Valid(t)
  {
    s[0 := if active then 0xFE else 0xFD]
  }

  /** What one call sends: the updated frame. */
  function Sent(s: State, active: bool): seq<Frame>
    requires Valid(s)
  {
    [Frame(1, Hex3(HandbrakeId), Next(s, active))]
  }

  /** One 2-byte frame with id "34F" on channel 1: 0xFE when engaged, 0xFD
      when released, then 0xFF. */
  lemma SentShape(s: State, active: bool)
    requires Valid(s)
    ensures |Sent(s, active)| == 1 && Recoverable(Sent(s, active)[0])
    ensures Sent(s, active)[0].canId == "34F"
    ensures Sent(s, active)[0].data == if active then [0xFE, 0xFF] else [0xFD, 0xFF]
  {
  }

  /** The payload depends only on the latest input: any two states send the
      same frame, so repeating a call repeats its frame. */
  lemma LatestInputOnly(s1: State, s2: State, active: bool)
    requires Valid(s1) && Valid(s2)
    ensures Sent(s1, active) == Sent(s2, active)
    ensures Sent(Next(s1, active), active) == Sent(s1, active)
  {
    SentShape(s1, active);
    SentShape(s2, active);
    SentShape(Next(s1, active), active);
  }

  /** The state of modules/handbrake.py. */
  class Producer {
    var frame: seq<byte>

    function Model(): State
      reads this
    {
      frame
    }

    constructor ()
      ensures Model() == Initial()
    {
      frame := FrameInit;
    }

    /** `send_handbrake`. */
    method SendHandbrake(can: CanInterface, active: bool)
      requires Valid(Model())
      modifies this, can`written
      ensures Model() == Next(old(Model()), active)
      ensures can.written == old(can.written) + Lines(can.connected, Sent(old(Model()), active))
    {
      frame := frame[0 := if active then 0xFE else 0xFD];
      can.SendMessage(1, Hex3(HandbrakeId), frame);
    }
  }
}
