/** modules/ignition.py: the ignition status on id 0x130. The module keeps
    one frame for "on" and one for "off"; byte 4 of each is a rolling
    counter that advances after the frame is sent. */
module Ignition {
  import opened Bytes
  import opened CanCodec
  import opened UsbCan

  const IgnitionId: nat := 0x130
  const OnFrameInit: seq<byte> := [0x45, 0x42, 0x21, 0x8F, 0xEF]
  const OffFrameInit: seq<byte> := [0x00, 0x00, 0xC0, 0x0F, 0xE2]

  /** The module-level lists `ignition_frame_on` and `ignition_frame_off`. */
  datatype State = State(onFrame: seq<byte>, offFrame: seq<byte>)

  /** Both frames keep five bytes and their first four bytes. */
  predicate Valid(s: State)
  {
    |s.onFrame| == 5 && |s.offFrame| == 5 &&
    s.onFrame[..4] == OnFrameInit[..4] && s.offFrame[..4] == OffFrameInit[..4]
  }

  /** The frames at import time. */
  function Initial(): (s: State)
    ensures Valid(s)
  {
    State(OnFrameInit, OffFrameInit)
  }

  /** `frame[4] = (frame[4] + 1) & 0xFF`. */
  function Roll(frame: seq<byte>): (r: seq<byte>)
    requires |frame| == 5
    ensures |r| == 5 && r[..4] == frame[..4]
    ensures r[4] as int == (frame[4] as int + 1) % 256
  {
    frame[4 := ((frame[4] as int + 1) % 256) as byte]
  }

  /** What one `send_ignition` call sends: the selected frame as it is
      before the counter advances. */
  function Sent(s: State, on: bool): seq<Frame>
  {
    [Frame(1, Hex3(IgnitionId), if on then s.onFrame else s.offFrame)]
  }

  /** The frames after one `send_ignition` call. */
  function Next(s: State, on: bool): (t: State)
    requires Valid(s)
    ensures Valid(t)
  {
    if on then s.(onFrame := Roll(s.onFrame)) else s.(offFrame := Roll(s.offFrame))
  }

  /** The frames after a sequence of calls. */
  function Run(s: State, calls: seq<bool>): (t: State)
    requires Valid(s)
    ensures Valid(t)
  {
    if calls == [] then s else Next(Run(s, calls[..|calls| - 1]), calls[|calls| - 1])
  }

  /** `k` calls with the ignition on. */
  function OnCalls(k: nat): (calls: seq<bool>)
    ensures |calls| == k && forall i :: 0 <= i < k ==> calls[i]
  {
    seq(k, i => true)
  }

  /** Each call sends one 5-byte frame on channel 1 with id "130", which the
      decoder reads back; it is the on-frame or the off-frame as asked. */
  lemma SentShape(s: State, on: bool)
    requires Valid(s)
    ensures |Sent(s, on)| == 1 && Recoverable(Sent(s, on)[0])
    ensures Sent(s, on)[0].channel == 1 && Sent(s, on)[0].canId == "130"
    ensures Sent(s, on)[0].data == if on then s.onFrame else s.offFrame
    ensures |Sent(s, on)[0].data| == 5
  {
  }

  /** A call advances byte 4 of the frame it sent and leaves the other frame
      alone; the first four bytes of both never change. */
  lemma NextRolls(s: State, on: bool)
    requires Valid(s)
    ensures var t := Next(s, on);
      (on ==> t.offFrame == s.offFrame && t.onFrame[4] as int == (s.onFrame[4] as int + 1) % 256) &&
      (!on ==> t.onFrame == s.onFrame && t.offFrame[4] as int == (s.offFrame[4] as int + 1) % 256) &&
      t.onFrame[..4] == [0x45, 0x42, 0x21, 0x8F] && t.offFrame[..4] == [0x00, 0x00, 0xC0, 0x0F]
  {
  }

  /** After `k` on-calls byte 4 of the on-frame has advanced by `k` mod 256
      and the off-frame is untouched. */
  lemma {:induction false} OnCallsAdvance(s: State, k: nat)
    requires Valid(s)
    ensures Run(s, OnCalls(k)).onFrame[4] as int == (s.onFrame[4] as int + k) % 256
    ensures Run(s, OnCalls(k)).offFrame == s.offFrame
  {
    if k > 0 {
      assert OnCalls(k)[..k - 1] == OnCalls(k - 1);
      OnCallsAdvance(s, k - 1);
      ModIncrement(s.onFrame[4] as int + k - 1);
    }
  }

  /** Successive on-calls send byte 4 = 0xEF, 0xF0, ..., 0xFF, 0x00, ...:
      call number `k` (from 0) carries `(0xEF + k) mod 256`. */
  lemma OnSequence(k: nat)
    ensures Sent(Run(Initial(), OnCalls(k)), true)[0].data[4] as int == (0xEF + k) % 256
  {
    OnCallsAdvance(Initial(), k);
  }

  /** The state of modules/ignition.py. */
  class Producer {
    var onFrame: seq<byte>
    var offFrame: seq<byte>

    function Model(): State
      reads this
    {
      State(onFrame, offFrame)
    }

    constructor ()
      ensures Model() == Initial()
    {
      onFrame := OnFrameInit;
      offFrame := OffFrameInit;
    }

    /** `send_ignition`: send the selected frame, then advance its byte 4. */
    method SendIgnition(can: CanInterface, on: bool)
      requires Valid(Model())
      modifies this, can`written
      ensures Model() == Next(old(Model()), on)
      ensures can.written == old(can.written) + Lines(can.connected, Sent(old(Model()), on))
    {
      if on {
        can.SendMessage(1, Hex3(IgnitionId), onFrame);
        onFrame := onFrame[4 := ((onFrame[4] as int + 1) % 256) as byte];
      } else {
        can.SendMessage(1, Hex3(IgnitionId), offFrame);
        offFrame := offFrame[4 := ((offFrame[4] as int + 1) % 256) as byte];
      }
    }
  }
}
