/** modules/lightning.py: the exterior light indicators on id 0x21A. Each
    requested light sets one bit of byte 0. */
module Lighting {
  import opened Bytes
  import opened CanCodec
  import opened UsbCan

  const LightingId: nat := 0x21A
  const FrameInit: seq<byte> := [0x00, 0x00, 0xF7]

  const Side: byte := 0x01
  const Dip: byte := 0x02
  const MainBeam: byte := 0x04
  const FrontFog: byte := 0x08
  const RearFog: byte := 0x10

  /** The keyword arguments of `send_lightning`, all `False` by default. */
  datatype Lights = Lights(side: bool, dip: bool, main: bool, frontFog: bool, rearFog: bool)

  /** Main beam only, as the main loop asks for. */
  const MainOnly := Lights(false, false, true, false, false)

  function Bit(on: bool, value: int): int
  {
    if on then value else 0
  }

  /** The value of the mask: the sum of the bits of the lights asked for. */
  function Mask(l: Lights): (m: byte)
    ensures m <= 0x1F
  {
    (Bit(l.side, 1) + Bit(l.dip, 2) + Bit(l.main, 4) + Bit(l.frontFog, 8) + Bit(l.rearFog, 16)) as byte
  }

  /** Bit `k` of the mask is set exactly when light `k` is asked for. */
  lemma MaskBits(l: Lights)
    ensures Mask(l) as int % 2 == 1 <==> l.side
    ensures Mask(l) as int / 2 % 2 == 1 <==> l.dip
    ensures Mask(l) as int / 4 % 2 == 1 <==> l.main
    ensures Mask(l) as int / 8 % 2 == 1 <==> l.frontFog
    ensures Mask(l) as int / 16 % 2 == 1 <==> l.rearFog
  {
  }

  /** The module-level list `lightning_frame`. */
  type State = seq<byte>

  /** Three bytes; bytes 1 and 2 stay 0x00 and 0xF7. */
  predicate Valid(s: State)
  {
    |s| == 3 && s[1] == 0x00 && s[2] == 0xF7
  }

  function Initial(): (s: State)
    ensures Valid(s)
  {
    FrameInit
  }

  /** The frame after one call: byte 0 overwritten with the mask. */
  function Next(s: State, l: Lights): (t: State)
    requires Valid(s)
    ensures Valid(t)
  {
    s[0 := Mask(l)]
  }

  /** What one call sends: the updated frame. */
  function Sent(s: State, l: Lights): seq<Frame>
    requires Valid(s)
  {
    [Frame(1, Hex3(LightingId), Next(s, l))]
  }

  /** One 3-byte frame with id "21A" on channel 1: the mask, 0x00, 0xF7. The
      whole byte 0 is overwritten, so the frame does not depend on earlier
      calls. */
  lemma SentShape(s: State, l: Lights)
    requires Valid(s)
    ensures |Sent(s, l)| == 1 && Recoverable(Sent(s, l)[0]) && Sent(s, l)[0].canId == "21A"
    ensures Sent(s, l)[0].data == [Mask(l), 0x00, 0xF7]
  {
  }

  /** The frame depends only on the latest call. */
  lemma LatestInputOnly(s1: State, s2: State, l: Lights)
    requires Valid(s1) && Valid(s2)
    ensures Sent(s1, l) == Sent(s2, l)
  {
    SentShape(s1, l);
    SentShape(s2, l);
  }

  /** Main beam alone gives [0x04, 0x00, 0xF7]. */
  lemma MainBeamOnly(s: State)
    requires Valid(s)
    ensures Sent(s, MainOnly)[0].data == [0x04, 0x00, 0xF7]
  {
    SentShape(s, MainOnly);
  }

  /** `lights |= bit` for a bit above every bit already set adds it. */
  lemma OrAddsBit(lights: byte, bit: byte, k: nat)
    requires k <= 4 && bit as int == Shl(1, k) && lights < bit
    ensures Or(lights, bit) as int == lights as int + bit as int
  {
    SmallPowers(0);
    OrHigherBit(lights, k);
  }

  /** The state of modules/lightning.py. */
  class Producer {
    var frame: seq<byte>

    function Model(): State
      reads this
    {
      frame
    }

    constructor ()
      ensures Model() == Initial()
    {
      frame := FrameInit;
    }

    /** `send_lightning`: build the mask with `|=`, store it in byte 0, send. */
    method SendLighting(can: CanInterface, l: Lights)
      requires Valid(Model())
      modifies this, can`written
      ensures Model() == Next(old(Model()), l)
      ensures can.written == old(can.written) + Lines(can.connected, Sent(old(Model()), l))
    {
      var lights: byte := 0;
      if l.side {
        OrAddsBit(lights, Side, 0);
        lights := Or(lights, Side);
      }
      assert lights as int == Bit(l.side, 1);
      if l.dip {
        OrAddsBit(lights, Dip, 1);
        lights := Or(lights, Dip);
      }
      assert lights as int == Bit(l.side, 1) + Bit(l.dip, 2);
      if l.main {
        OrAddsBit(lights, MainBeam, 2);
        lights := Or(lights, MainBeam);
      }
      assert lights as int == Bit(l.side, 1) + Bit(l.dip, 2) + Bit(l.main, 4);
      if l.frontFog {
        OrAddsBit(lights, FrontFog, 3);
        lights := Or(lights, FrontFog);
      }
      assert lights as int == Bit(l.side, 1) + Bit(l.dip, 2) + Bit(l.main, 4) + Bit(l.frontFog, 8);
      if l.rearFog {
        OrAddsBit(lights, RearFog, 4);
        lights := Or(lights, RearFog);
      }
      assert lights == Mask(l);
      frame := frame[0 := lights];
      can.SendMessage(1, Hex3(LightingId), frame);
    }
  }
}
