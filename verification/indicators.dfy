/** modules/indicators.py: the turn indicators on id 0x1F6. An
    `IndicatorController` holds an "off" request back for 600 ms after the
    last non-zero request, and re-sends an unchanged frame only every 600 ms.
    The wall clock it reads is the parameter `now`, in milliseconds. */
module Indicators {
  import opened Bytes
  import opened CanCodec
  import opened UsbCan

  const IndicatorsId: nat := 0x1F6
  const OffFrame: seq<byte> := [0x80, 0xF0]
  /** Both the hold on "off" and the refresh period, in milliseconds. */
  const Period: int := 600

  /** The fields `_frame`, `_last_indicator`, `_last_indicator_time` and
      `_last_frame_time`. */
  datatype State = State(frame: seq<byte>, lastIndicator: int, lastIndicatorTime: int, lastFrameTime: int)

  predicate Valid(s: State)
  {
    |s.frame| == 2
  }

  /** `__init__` at time `now`. */
  function Initial(now: int): (s: State)
    ensures Valid(s) && s.frame == OffFrame && s.lastIndicator == 0
    ensures s.lastIndicatorTime == now && s.lastFrameTime == now
  {
    State(OffFrame, 0, now, now)
  }

  /** The state the call acts on (`light_indicator`): a non-zero request
      takes over at once; an "off" request keeps the previous state until
      600 ms have passed since the last non-zero request. */
  function Active(s: State, request: int, now: int): int
  {
    if request != 0 then request
    else if now - s.lastIndicatorTime >= Period then 0
    else s.lastIndicator
  }

  /** Whether the call sends: the state changed, or the last frame is at
      least 600 ms old. */
  predicate Transmits(s: State, request: int, now: int)
  {
    s.lastIndicator != Active(s, request, now) || now - s.lastFrameTime >= Period
  }

  /** The dictionary lookup `{1: 0x91, 2: 0xA1, 3: 0xB1}.get(state, 0x80)`. */
  function Code(state: int): byte
  {
    if state == 1 then 0x91 else if state == 2 then 0xA1 else if state == 3 then 0xB1 else 0x80
  }

  /** The frame a transmission carries, from the state before and the state
      sent. */
  function FrameFor(previous: int, state: int): seq<byte>
  {
    if state != 0 then [Code(state), if previous == state then 0xF1 else 0xF2]
    else OffFrame
  }

  /** The fields after one `send_indicators` call. */
  function Next(s: State, request: int, now: int): (t: State)
    requires Valid(s)
    ensures Valid(t)
  {
    var light := Active(s, request, now);
    var indicatorTime := if request != 0 then now else s.lastIndicatorTime;
    if Transmits(s, request, now) then State(FrameFor(s.lastIndicator, light), light, indicatorTime, now)
    else s.(lastIndicatorTime := indicatorTime)
  }

  /** What one call sends: the new frame, or nothing. */
  function Sent(s: State, request: int, now: int): seq<Frame>
    requires Valid(s)
  {
    if Transmits(s, request, now) then [Frame(1, Hex3(IndicatorsId), Next(s, request, now).frame)] else []
  }

  /** A non-zero request becomes the state and restarts the hold; an "off"
      request leaves the hold's start alone, and ends the state only once
      the hold has run out. */
  lemma RequestTakesOver(s: State, request: int, now: int)
    requires Valid(s)
    ensures request != 0 ==> Active(s, request, now) == request && Next(s, request, now).lastIndicatorTime == now
    ensures request == 0 ==> Next(s, request, now).lastIndicatorTime == s.lastIndicatorTime
    ensures request == 0 && now - s.lastIndicatorTime < Period ==> Active(s, request, now) == s.lastIndicator
    ensures request == 0 && now - s.lastIndicatorTime >= Period ==> Active(s, request, now) == 0
  {
  }

  /** A call sends exactly one frame when the state changes or the refresh
      is due, and then records the state and the time; otherwise it sends
      nothing and at most restarts the hold. */
  lemma TransmitsExactly(s: State, request: int, now: int)
    requires Valid(s)
    ensures |Sent(s, request, now)| <= 1
    ensures |Sent(s, request, now)| == 1 <==>
      Active(s, request, now) != s.lastIndicator || now - s.lastFrameTime >= Period
    ensures |Sent(s, request, now)| == 1 ==>
      var t := Next(s, request, now);
      t.lastIndicator == Active(s, request, now) && t.lastFrameTime == now && Sent(s, request, now)[0].data == t.frame
    ensures |Sent(s, request, now)| == 0 ==>
      var t := Next(s, request, now);
      t.frame == s.frame && t.lastIndicator == s.lastIndicator && t.lastFrameTime == s.lastFrameTime
  {
  }

  /** Every frame is two bytes with id "1F6" on channel 1, and is read back
      by the decoder. Byte 0 is 0x91, 0xA1 or 0xB1 for states 1, 2 and 3
      and 0x80 for any other state; byte 1 is 0xF2 when the state has just
      changed and 0xF1 on a refresh; state 0 sends [0x80, 0xF0]. */
  lemma SentShape(s: State, request: int, now: int)
    requires Valid(s) && Transmits(s, request, now)
    ensures var f := Sent(s, request, now)[0]; var state := Active(s, request, now);
      |Sent(s, request, now)| == 1 && Recoverable(f) && f.channel == 1 && f.canId == "1F6" && |f.data| == 2 &&
      (state == 0 ==> f.data == [0x80, 0xF0]) &&
      (state != 0 ==>
        (f.data[0] == 0x91 <==> state == 1) && (f.data[0] == 0xA1 <==> state == 2) &&
        (f.data[0] == 0xB1 <==> state == 3) && (f.data[0] == 0x80 <==> !(1 <= state <= 3)) &&
        (f.data[1] == 0xF2 <==> state != s.lastIndicator) && (f.data[1] == 0xF1 <==> state == s.lastIndicator))
  {
  }

  /** The frame the controller starts with is the frame state 0 sends. */
  lemma OffFrameIsInitial(now: int)
    ensures Initial(now).frame == FrameFor(0, 0)
  {
  }

  /** While "off" is requested within the hold, nothing is sent unless the
      refresh is due. */
  lemma HoldSuppresses(s: State, now: int)
    requires Valid(s) && now - s.lastIndicatorTime < Period && now - s.lastFrameTime < Period
    ensures Sent(s, 0, now) == [] && Next(s, 0, now) == s
  {
  }

  /** With hazard lights requested on every call, as the main loop does: the
      first call after start sends [0xB1, 0xF2]; afterwards every call sends
      [0xB1, 0xF1] when the last frame is 600 ms old, and nothing otherwise. */
  lemma Hazard(start: int, now: int, s: State)
    requires Valid(s) && s.lastIndicator == 3
    ensures Sent(Initial(start), 3, now) == [Frame(1, "1F6", [0xB1, 0xF2])]
    ensures Sent(s, 3, now) == if now - s.lastFrameTime >= Period then [Frame(1, "1F6", [0xB1, 0xF1])] else []
    ensures Next(Initial(start), 3, now).lastIndicator == 3
  {
  }

  /** The controller. */
  class IndicatorController {
    var frame: seq<byte>
    var lastIndicator: int
    var lastIndicatorTime: int
    var lastFrameTime: int

    function Model(): State
      reads this
    {
      State(frame, lastIndicator, lastIndicatorTime, lastFrameTime)
    }

    /** `__init__`, reading the clock once as `now`. */
    constructor (now: int)
      ensures Model() == Initial(now)
    {
      frame := OffFrame;
      lastIndicator := 0;
      lastIndicatorTime := now;
      lastFrameTime := now;
    }

    /** `send_indicators` at time `now`. */
    method SendIndicators(can: CanInterface, request: int, now: int)
      requires Valid(Model())
      modifies this, can`written
      ensures Model() == Next(old(Model()), request, now)
      ensures can.written == old(can.written) + Lines(can.connected, Sent(old(Model()), request, now))
    {
      ghost var s0 := Model();
      var light := lastIndicator;
      if request == 0 {
        if now - lastIndicatorTime >= Period {
          light := 0;
        }
      } else {
        light := request;
        lastIndicatorTime := now;
      }
      assert light == Active(s0, request, now);
      if lastIndicator != light || now - lastFrameTime >= Period {
        if light != 0 {
          frame := frame[0 := Code(light)];
          frame := frame[1 := if lastIndicator == light then 0xF1 else 0xF2];
        } else {
          frame := OffFrame;
        }
        assert frame == FrameFor(s0.lastIndicator, light);
        lastIndicator := light;
        lastFrameTime := now;
        assert Model() == Next(s0, request, now);
        assert Sent(s0, request, now) == [Frame(1, Hex3(IndicatorsId), frame)];
        can.SendMessage(1, Hex3(IndicatorsId), frame);
      } else {
        assert Model() == Next(s0, request, now);
        assert Lines(can.connected, []) == [];
      }
    }
  }
}
