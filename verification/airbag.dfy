/** modules/airbag.py: the airbag status on id 0x0D7. The frame is sent only
    while the airbag is reported disabled, and its byte 0 then rolls. */
module Airbag {
  import opened Bytes
  import opened CanCodec
  import opened UsbCan

  const AirbagId: nat := 0x0D7
  const FrameInit: seq<byte> := [0xC3, 0xFF]

  /** The module-level list `_airbag_frame`. */
  type State = seq<byte>

  /** The frame keeps two bytes and byte 1 stays 0xFF. */
  predicate Valid(s: State)
  {
    |s| == 2 && s[1] == 0xFF
  }

  function Initial(): (s: State)
    ensures Valid(s)
  {
    FrameInit
  }

  /** What one `send_airbag` call sends: the frame before byte 0 rolls, and
      nothing when the airbag is enabled. */
  function Sent(s: State, enabled: bool): seq<Frame>
  {
    if enabled then [] else [Frame(1, Hex3(AirbagId), s)]
  }

  /** The frame after one `send_airbag` call. */
  function Next(s: State, enabled: bool): (t: State)
    requires Valid(s)
    ensures Valid(t)
  {
    if enabled then s else s[0 := ((s[0] as int + 1) % 256) as byte]
  }

  function Run(s: State, calls: seq<bool>): (t: State)
    requires Valid(s)
    ensures Valid(t)
  {
    if calls == [] then s else Next(Run(s, calls[..|calls| - 1]), calls[|calls| - 1])
  }

  /** `k` calls with the airbag disabled. */
  function DisabledCalls(k: nat): (calls: seq<bool>)
    ensures |calls| == k && forall i :: 0 <= i < k ==> !calls[i]
  {
    seq(k, i => false)
  }

  /** A disabled call sends exactly one 2-byte frame with id "0D7" carrying
      the current byte 0 and byte 1 = 0xFF, then byte 0 increments mod 256;
      an enabled call sends nothing and changes nothing. */
  lemma CallEffect(s: State, enabled: bool)
    requires Valid(s)
    ensures enabled ==> Sent(s, enabled) == [] && Next(s, enabled) == s
    ensures !enabled ==>
      (|Sent(s, enabled)| == 1 && Recoverable(Sent(s, enabled)[0]) &&
       Sent(s, enabled)[0].canId == "0D7" && Sent(s, enabled)[0].data == [s[0], 0xFF] &&
       Next(s, enabled)[0] as int == (s[0] as int + 1) % 256)
  {
  }

  /** After `k` disabled calls byte 0 is `(0xC3 + k) mod 256`. */
  lemma {:induction false} DisabledCallsRoll(k: nat)
    ensures Run(Initial(), DisabledCalls(k))[0] as int == (0xC3 + k) % 256
  {
    if k > 0 {
      assert DisabledCalls(k)[..k - 1] == DisabledCalls(k - 1);
      DisabledCallsRoll(k - 1);
      ModIncrement(0xC3 + k - 1);
    }
  }

  /** The state of modules/airbag.py. */
  class Producer {
    var frame: seq<byte>

    function Model(): State
      reads this
    {
      frame
    }

    constructor ()
      ensures Model() == Initial()
    {
      frame := FrameInit;
    }

    /** `send_airbag`. */
    method SendAirbag(can: CanInterface, enabled: bool)
      requires Valid(Model())
      modifies this, can`written
      ensures Model() == Next(old(Model()), enabled)
      ensures can.written == old(can.written) + Lines(can.connected, Sent(old(Model()), enabled))
    {
      if !enabled {
        can.SendMessage(1, Hex3(AirbagId), frame);
        frame := frame[0 := ((frame[0] as int + 1) % 256) as byte];
      } else {
        assert Lines(can.connected, []) == [];
      }
    }
  }
}
