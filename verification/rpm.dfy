/** modules/rpm.py: the engine speed on id 0x175, scaled from 0..8000 rpm to
    one byte. Nothing is kept between calls. */
module Rpm {
  import opened Bytes
  import opened CanCodec
  import opened UsbCan

  const RpmId: nat := 0x175

  /** `int((v / 8000) * 128) & 0xFF` after clamping `v` to 0..8000. */
  function RpmByte(value: int): byte
  {
    ((Clamp(value, 0, 8000) * 128 / 8000) % 256) as byte
  }

  /** The frames one `send_rpm` call sends. */
  function Sent(value: int): seq<Frame>
  {
    [Frame(1, Hex3(RpmId), [0x00, 0x00, RpmByte(value), 0x00, 0x00])]
  }

  /** The byte is the floor of `v * 128 / 8000` for the clamped value, so it
      is at most 128 and the final `& 0xFF` changes nothing. */
  lemma RpmByteScales(value: int)
    ensures RpmByte(value) as int == Clamp(value, 0, 8000) * 128 / 8000 <= 128
    ensures value <= 0 ==> RpmByte(value) == 0
    ensures value >= 8000 ==> RpmByte(value) == 128
  {
    var v := Clamp(value, 0, 8000);
    assert v * 128 <= 8000 * 128;
  }

  /** 4000 rpm gives 0x40. */
  lemma HalfScale()
    ensures RpmByte(4000) == 0x40
  {
  }

  /** The byte never decreases as the engine speed grows. */
  lemma RpmMonotone(v: int, w: int)
    requires v <= w
    ensures RpmByte(v) <= RpmByte(w)
  {
    RpmByteScales(v);
    RpmByteScales(w);
    var a, b := Clamp(v, 0, 8000), Clamp(w, 0, 8000);
    assert a * 128 <= b * 128;
  }

  /** Each call sends one frame `[0, 0, b, 0, 0]` with id "175" on channel 1. */
  lemma SentShape(value: int)
    ensures |Sent(value)| == 1 && Recoverable(Sent(value)[0]) && Sent(value)[0].canId == "175"
    ensures Sent(value)[0].data == [0x00, 0x00, RpmByte(value), 0x00, 0x00]
  {
  }

  /** `send_rpm`. */
  method SendRpm(can: CanInterface, value: int)
    modifies can`written
    ensures can.written == old(can.written) + Lines(can.connected, Sent(value))
  {
    var clamped := if value < 0 then 0 else if value > 8000 then 8000 else value;
    var rpmByte := ((clamped * 128 / 8000) % 256) as byte;
    can.SendMessage(1, Hex3(RpmId), [0x00, 0x00, rpmByte, 0x00, 0x00]);
  }
}
