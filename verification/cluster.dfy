/** BMW_CLUSTER.py: one pass of the main loop. Every 10 ms the loop sends
    ignition, lighting and engine speed; every 7th pass the road speed,
    whose input bounces between 0 and 280; every 20th pass ABS, airbag,
    coolant, fuel, parking brake, seatbelt and hazard lights; every 100th
    pass the clock. */
module Cluster {
  import opened Bytes
  import opened CanCodec
  import opened UsbCan
  import Ignition
  import Lighting
  import Rpm
  import Speed
  import Abs
  import Airbag
  import EngineTemperature
  import Fuel
  import Handbrake
  import Seatbelt
  import Indicators
  import ClockTime

  /** Least time between passes, in milliseconds. */
  const TickMs: int := 10
  const EngineRpm: int := 4000
  const TopSpeed: int := 280
  const Coolant: int := 100
  const FuelPercent: int := 50
  const Hazard: int := 3
  const Date: ClockTime.DateTime := ClockTime.DateTime(14, 35, 12, 21, 6, 2025)

  /** The locals of `main` and the state of every producer. */
  datatype Loop = Loop(
    previous: int, counter: int, speed: int, step: int,
    ignition: Ignition.State, lighting: Lighting.State, speedo: Speed.State,
    abs: Abs.State, airbag: Airbag.State, coolant: EngineTemperature.State,
    fuel: Fuel.State, handbrake: Handbrake.State, seatbelt: Seatbelt.State,
    indicators: Indicators.State, clock: ClockTime.State)

  predicate Valid(c: Loop)
  {
    Ignition.Valid(c.ignition) && Lighting.Valid(c.lighting) && Speed.Valid(c.speedo) &&
    Abs.Valid(c.abs) && Airbag.Valid(c.airbag) && EngineTemperature.Valid(c.coolant) &&
    Fuel.Valid(c.fuel) && Handbrake.Valid(c.handbrake) && Seatbelt.Valid(c.seatbelt) &&
    Indicators.Valid(c.indicators) && ClockTime.Valid(c.clock)
  }

  /** The state before the first pass; `now` is when the indicator
      controller is built. */
  function Initial(now: int): (c: Loop)
    ensures Valid(c)
  {
    Loop(0, 0, 0, 1,
      Ignition.Initial(), Lighting.Initial(), Speed.Initial(), Abs.Initial(), Airbag.Initial(),
      EngineTemperature.Initial(), Fuel.Initial(), Handbrake.Initial(), Seatbelt.Initial(),
      Indicators.Initial(now), ClockTime.Initial())
  }

  /** Whether a pass at `now` does anything. */
  predicate Due(c: Loop, now: int)
  {
    now - c.previous >= TickMs
  }

  /** The speed input after a speed pass: one step on, and the step turns
      round once the input reaches 280 or 0. */
  function Bounce(speed: int, step: int): (int, int)
  {
    var next := speed + step;
    (next, if next >= TopSpeed || next <= 0 then -step else step)
  }

  // Each group of sends, as a change of state and the frames it sends.

  function AlwaysStep(c: Loop): (t: Loop)
    requires Valid(c)
    ensures Valid(t)
  {
    c.(ignition := Ignition.Next(c.ignition, true), lighting := Lighting.Next(c.lighting, Lighting.MainOnly))
  }

  function AlwaysFrames(c: Loop): seq<Frame>
    requires Valid(c)
  {
    Ignition.Sent(c.ignition, true) + Lighting.Sent(c.lighting, Lighting.MainOnly) + Rpm.Sent(EngineRpm)
  }

  function SpeedStep(c: Loop): (t: Loop)
    requires Valid(c)
    ensures Valid(t)
  {
    if c.counter % 7 != 0 then c
    else
      var (speed, step) := Bounce(c.speed, c.step);
      c.(speedo := Speed.Next(c.speedo, c.speed), speed := speed, step := step)
  }

  function SpeedFrames(c: Loop): seq<Frame>
    requires Valid(c)
  {
    if c.counter % 7 != 0 then [] else Speed.Sent(c.speedo, c.speed)
  }

  function SlowStep(c: Loop, now: int): (t: Loop)
    requires Valid(c)
    ensures Valid(t)
  {
    if c.counter % 20 != 0 then c
    else c.(abs := Abs.Next(c.abs, false), airbag := Airbag.Next(c.airbag, false),
            coolant := EngineTemperature.Next(c.coolant, Coolant), fuel := Fuel.Next(c.fuel, FuelPercent),
            handbrake := Handbrake.Next(c.handbrake, true), seatbelt := Seatbelt.Next(c.seatbelt, false),
            indicators := Indicators.Next(c.indicators, Hazard, now))
  }

  function SlowFrames(c: Loop, now: int): seq<Frame>
    requires Valid(c)
  {
    if c.counter % 20 != 0 then []
    else (Abs.Sent(c.abs, false) + Airbag.Sent(c.airbag, false) + EngineTemperature.Sent(c.coolant, Coolant)) +
         (Fuel.Sent(c.fuel, FuelPercent) + Handbrake.Sent(c.handbrake, true) + Seatbelt.Sent(c.seatbelt, false) +
          Indicators.Sent(c.indicators, Hazard, now))
  }

  function ClockStep(c: Loop): (t: Loop)
    requires Valid(c)
    ensures Valid(t)
  {
    if c.counter % 100 != 0 then c else c.(clock := ClockTime.Next(c.clock, Date))
  }

  function ClockFrames(c: Loop): seq<Frame>
    requires Valid(c)
  {
    if c.counter % 100 != 0 then [] else ClockTime.Sent(c.clock, Date)
  }

  /** The state after a pass at `now`: nothing changes unless the pass is
      due; otherwise the four groups run in order, each on the state the
      one before left, and then the pass is counted and its time kept. */
  function TickStep(c: Loop, now: int): (t: Loop)
    requires Valid(c)
    ensures Valid(t)
  {
    if !Due(c, now) then c
    else
      Counted(ClockStep(SlowStep(SpeedStep(AlwaysStep(c)), now)), now)
  }

  /** The end of a due pass: one more pass counted, and its time kept. */
  function Counted(c: Loop, now: int): (t: Loop)
    ensures t.counter == c.counter + 1 && t.previous == now
    ensures Valid(c) ==> Valid(t)
  {
    c.(counter := c.counter + 1, previous := now)
  }

  /** The frames a pass at `now` sends, in order: each group's frames from
      the state the groups before it left. */
  function TickFrames(c: Loop, now: int): seq<Frame>
    requires Valid(c)
  {
    if !Due(c, now) then []
    else
      var c1 := AlwaysStep(c);
      var c2 := SpeedStep(c1);
      var c3 := SlowStep(c2, now);
      (AlwaysFrames(c) + SpeedFrames(c1)) + (SlowFrames(c2, now) + ClockFrames(c3))
  }

  /** The lines a due pass writes are those of its two halves. */
  lemma PassLines(connected: bool, w0: seq<string>, w1: seq<string>, w2: seq<string>, c: Loop, now: int)
    requires Valid(c) && Due(c, now)
    requires w1 == w0 + Lines(connected, AlwaysFrames(c) + SpeedFrames(AlwaysStep(c)))
    requires w2 == w1 + Lines(connected, SlowFrames(SpeedStep(AlwaysStep(c)), now) + ClockFrames(SlowStep(SpeedStep(AlwaysStep(c)), now)))
    ensures w2 == w0 + Lines(connected, TickFrames(c, now))
  {
    var c2 := SpeedStep(AlwaysStep(c));
    LinesChain(connected, w0, w1, w2, AlwaysFrames(c) + SpeedFrames(AlwaysStep(c)), SlowFrames(c2, now) + ClockFrames(SlowStep(c2, now)));
  }

  /** The groups touch disjoint producers and none touches the counter, so
      a due pass advances the counter by one, keeps its time, steps
      ignition and lighting, steps the road speed on multiples of 7, the
      slow producers on multiples of 20 and the clock on multiples of 100,
      nothing else changes. */
  lemma GroupsIndependent(c: Loop, now: int)
    requires Valid(c) && Due(c, now)
    ensures var t := TickStep(c, now);
      t.previous == now && t.counter == c.counter + 1 &&
      t.ignition == Ignition.Next(c.ignition, true) && t.lighting == Lighting.Next(c.lighting, Lighting.MainOnly) &&
      t.speedo == (if c.counter % 7 == 0 then Speed.Next(c.speedo, c.speed) else c.speedo) &&
      (t.speed, t.step) == (if c.counter % 7 == 0 then Bounce(c.speed, c.step) else (c.speed, c.step)) &&
      t.abs == (if c.counter % 20 == 0 then Abs.Next(c.abs, false) else c.abs) &&
      t.airbag == (if c.counter % 20 == 0 then Airbag.Next(c.airbag, false) else c.airbag) &&
      t.coolant == (if c.counter % 20 == 0 then EngineTemperature.Next(c.coolant, Coolant) else c.coolant) &&
      t.fuel == (if c.counter % 20 == 0 then Fuel.Next(c.fuel, FuelPercent) else c.fuel) &&
      t.handbrake == (if c.counter % 20 == 0 then Handbrake.Next(c.handbrake, true) else c.handbrake) &&
      t.seatbelt == (if c.counter % 20 == 0 then Seatbelt.Next(c.seatbelt, false) else c.seatbelt) &&
      t.indicators == (if c.counter % 20 == 0 then Indicators.Next(c.indicators, Hazard, now) else c.indicators) &&
      t.clock == (if c.counter % 100 == 0 then ClockTime.Next(c.clock, Date) else c.clock)
  {
  }

  /** For the same reason each group of a due pass sends what it would
      send from the state before the pass. */
  lemma FramesIndependent(c: Loop, now: int)
    requires Valid(c) && Due(c, now)
    ensures TickFrames(c, now) == AlwaysFrames(c) + SpeedFrames(c) + SlowFrames(c, now) + ClockFrames(c)
  {
    var c1 := AlwaysStep(c);
    var c2 := SpeedStep(c1);
    assert SpeedFrames(c1) == SpeedFrames(c);
    assert SlowFrames(c2, now) == SlowFrames(c, now);
    assert ClockFrames(SlowStep(c2, now)) == ClockFrames(c);
  }

  /** The identifiers of a list of frames. */
  function Ids(frames: seq<Frame>): (ids: seq<string>)
    ensures |ids| == |frames| && forall i :: 0 <= i < |frames| ==> ids[i] == frames[i].canId
  {
    seq(|frames|, i requires 0 <= i < |frames| => frames[i].canId)
  }

  lemma IdsAppend(a: seq<Frame>, b: seq<Frame>)
    ensures Ids(a + b) == Ids(a) + Ids(b)
  {
  }

  /** The identifiers a due pass sends, by the counter's residues. */
  function Schedule(counter: int, indicatorsSend: bool): seq<string>
  {
    ["130", "21A", "175"] +
    (if counter % 7 == 0 then ["1A6"] else []) +
    (if counter % 20 == 0
     then ["19E", "0C0", "0D7", "1D0", "349", "34F", "581"] + (if indicatorsSend then ["1F6"] else [])
     else []) +
    (if counter % 100 == 0 then ["39E"] else [])
  }

  /** A pass that is not due sends nothing and changes nothing; a due pass
      advances the counter by one and records its time. */
  lemma Gate(c: Loop, now: int)
    requires Valid(c)
    ensures !Due(c, now) ==> TickStep(c, now) == c && TickFrames(c, now) == []
    ensures Due(c, now) ==> TickStep(c, now).counter == c.counter + 1 && TickStep(c, now).previous == now
  {
  }

  lemma AlwaysIds(c: Loop)
    requires Valid(c)
    ensures Ids(AlwaysFrames(c)) == ["130", "21A", "175"]
    ensures AlwaysFrames(c)[1].data == [0x04, 0x00, 0xF7] && AlwaysFrames(c)[2].data == [0x00, 0x00, 0x40, 0x00, 0x00]
  {
    Ignition.SentShape(c.ignition, true);
    Lighting.MainBeamOnly(c.lighting);
    Lighting.SentShape(c.lighting, Lighting.MainOnly);
    Rpm.SentShape(EngineRpm);
    Rpm.HalfScale();
  }

  lemma SpeedIds(c: Loop)
    requires Valid(c)
    ensures Ids(SpeedFrames(c)) == if c.counter % 7 == 0 then ["1A6"] else []
  {
    Speed.SentShape(c.speedo, c.speed);
  }

  lemma SlowIds(c: Loop, now: int)
    requires Valid(c)
    ensures Ids(SlowFrames(c, now)) ==
      (if c.counter % 20 != 0 then []
       else (["19E", "0C0", "0D7", "1D0", "349", "34F", "581"] +
             (if Indicators.Transmits(c.indicators, Hazard, now) then ["1F6"] else [])))
  {
    if c.counter % 20 == 0 {
      Abs.SentShape(c.abs, false);
      Airbag.CallEffect(c.airbag, false);
      EngineTemperature.SentShape(c.coolant, Coolant);
      Fuel.SentShape(c.fuel, FuelPercent);
      Handbrake.SentShape(c.handbrake, true);
      Seatbelt.SentShape(c.seatbelt, false);
      var a := Abs.Sent(c.abs, false) + Airbag.Sent(c.airbag, false) + EngineTemperature.Sent(c.coolant, Coolant);
      var b := Fuel.Sent(c.fuel, FuelPercent) + Handbrake.Sent(c.handbrake, true) + Seatbelt.Sent(c.seatbelt, false);
      assert Ids(a) == ["19E", "0C0", "0D7", "1D0"];
      assert Ids(b) == ["349", "34F", "581"];
      if Indicators.Transmits(c.indicators, Hazard, now) {
        Indicators.SentShape(c.indicators, Hazard, now);
      }
      assert SlowFrames(c, now) == a + b + Indicators.Sent(c.indicators, Hazard, now);
      IdsAppend(a, b);
      IdsAppend(a + b, Indicators.Sent(c.indicators, Hazard, now));
    }
  }

  lemma ClockIds(c: Loop)
    requires Valid(c)
    ensures Ids(ClockFrames(c)) == if c.counter % 100 == 0 then ["39E"] else []
  {
    ClockTime.SentShape(c.clock, Date);
  }

  /** A due pass sends ignition, lighting and engine speed first, then road
      speed on every 7th pass, then the slow group on every 20th pass (the
      indicators only when their controller transmits), then the clock on
      every 100th pass. */
  lemma {:induction false} TickSchedule(c: Loop, now: int)
    requires Valid(c) && Due(c, now)
    ensures Ids(TickFrames(c, now)) == Schedule(c.counter, Indicators.Transmits(c.indicators, Hazard, now))
  {
    FramesIndependent(c, now);
    AlwaysIds(c);
    SpeedIds(c);
    SlowIds(c, now);
    ClockIds(c);
    IdsAppend(AlwaysFrames(c), SpeedFrames(c));
    IdsAppend(AlwaysFrames(c) + SpeedFrames(c), SlowFrames(c, now));
    IdsAppend(AlwaysFrames(c) + SpeedFrames(c) + SlowFrames(c, now), ClockFrames(c));
  }

  /** The first pass at or after 10 ms runs every group; the indicators
      send hazard lights, as they start off. */
  lemma FirstPass(start: int, now: int)
    requires now >= TickMs
    ensures Ids(TickFrames(Initial(start), now)) ==
      ["130", "21A", "175", "1A6", "19E", "0C0", "0D7", "1D0", "349", "34F", "581", "1F6", "39E"]
  {
    TickSchedule(Initial(start), now);
  }

  /** A due pass sends the lighting frame [0x04, 0x00, 0xF7] and the engine
      speed frame [0, 0, 0x40, 0, 0] as its second and third frames. */
  lemma FixedPayloads(c: Loop, now: int)
    requires Valid(c) && Due(c, now)
    ensures |TickFrames(c, now)| >= 3
    ensures TickFrames(c, now)[1].data == [0x04, 0x00, 0xF7]
    ensures TickFrames(c, now)[2].data == [0x00, 0x00, 0x40, 0x00, 0x00]
  {
    AlwaysIds(c);
    var fast := AlwaysFrames(c) + SpeedFrames(AlwaysStep(c));
    assert fast[1] == AlwaysFrames(c)[1] && fast[2] == AlwaysFrames(c)[2];
  }

  /** Every clock frame carries 14:35:12 on 21 June 2025. */
  lemma ConstantDate(c: Loop)
    requires Valid(c) && c.counter % 100 == 0
    ensures ClockFrames(c) == [Frame(1, "39E", [14, 35, 12, 21, 0x6F, 0xE9, 0x07, 0xF2])]
  {
    ClockTime.LatestInputOnly(c.clock, ClockTime.Initial(), Date);
    ClockTime.MainLoopDate();
  }

  /** The speed input stays in 0..280 with a step of +1 or -1, stepping up
      at 0 and down at 280. */
  predicate Bouncing(c: Loop)
  {
    0 <= c.speed <= TopSpeed && (c.step == 1 || c.step == -1) &&
    (c.speed == 0 ==> c.step == 1) && (c.speed == TopSpeed ==> c.step == -1)
  }

  /** Every pass keeps the speed input bouncing and moves it by at most
      one; it starts bouncing. */
  lemma BounceKept(c: Loop, now: int)
    requires Valid(c) && Bouncing(c)
    ensures Bouncing(TickStep(c, now))
    ensures -1 <= TickStep(c, now).speed - c.speed <= 1
    ensures Bouncing(Initial(now))
  {
    if Due(c, now) {
      GroupsIndependent(c, now);
    }
  }

  /** Each speed pass moves the input by its step and flips the step at the
      ends: 279 going up reaches 280 and turns down, 1 going down reaches 0
      and turns up. */
  lemma BounceTurns()
    ensures Bounce(279, 1) == (280, -1) && Bounce(1, -1) == (0, 1)
    ensures Bounce(0, 1) == (1, 1) && Bounce(280, -1) == (279, -1)
  {
  }

  /** The loop of `main`: its locals, the adapter and the producers. */
  class MainLoop {
    const can: CanInterface
    const ignition: Ignition.Producer
    const lighting: Lighting.Producer
    const speedo: Speed.Producer
    const abs: Abs.Producer
    const airbag: Airbag.Producer
    const coolant: EngineTemperature.Producer
    const fuel: Fuel.Producer
    const handbrake: Handbrake.Producer
    const seatbelt: Seatbelt.Producer
    const indicators: Indicators.IndicatorController
    const clock: ClockTime.Producer
    var previous: int
    var counter: int
    var currentSpeed: int
    var step: int

    predicate Holds()
      reads this, ignition, lighting, speedo, abs, airbag, coolant, fuel, handbrake, seatbelt, indicators, clock
    {
      Ignition.Valid(ignition.Model()) && Lighting.Valid(lighting.Model()) && Speed.Valid(speedo.Model()) &&
      abs.Holds() && Airbag.Valid(airbag.Model()) && EngineTemperature.Valid(coolant.Model()) &&
      Fuel.Valid(fuel.Model()) && Handbrake.Valid(handbrake.Model()) && Seatbelt.Valid(seatbelt.Model()) &&
      Indicators.Valid(indicators.Model()) && ClockTime.Valid(clock.Model())
    }

    function Model(): (c: Loop)
      reads this, ignition, lighting, speedo, abs, airbag, coolant, fuel, handbrake, seatbelt, indicators, clock
      requires Holds()
      ensures Valid(c)
    {
      Loop(previous, counter, currentSpeed, step,
        ignition.Model(), lighting.Model(), speedo.Model(), abs.Model(), airbag.Model(), coolant.Model(),
        fuel.Model(), handbrake.Model(), seatbelt.Model(), indicators.Model(), clock.Model())
    }

    /** `main` up to its loop: open the adapter, set channel 1 to 100 kbit/s
        and build the indicator controller at time `now`. The other
        producers are module state, passed in as their modules leave them
        at import. */
    constructor (portOpened: bool, pending: seq<string>, now: int,
                 ignition: Ignition.Producer, lighting: Lighting.Producer, speedo: Speed.Producer,
                 abs: Abs.Producer, airbag: Airbag.Producer, coolant: EngineTemperature.Producer,
                 fuel: Fuel.Producer, handbrake: Handbrake.Producer, seatbelt: Seatbelt.Producer,
                 clock: ClockTime.Producer)
      requires ignition.Model() == Ignition.Initial() && lighting.Model() == Lighting.Initial()
      requires speedo.Model() == Speed.Initial() && abs.Holds() && abs.Model() == Abs.Initial()
      requires airbag.Model() == Airbag.Initial() && coolant.Model() == EngineTemperature.Initial()
      requires fuel.Model() == Fuel.Initial() && handbrake.Model() == Handbrake.Initial()
      requires seatbelt.Model() == Seatbelt.Initial() && clock.Model() == ClockTime.Initial()
      ensures Holds() && Model() == Initial(now)
      ensures can.connected == portOpened
      ensures can.written == if portOpened then SetupCommands(1, 100) else []
      ensures can.incoming == if portOpened && pending != [] then pending[1..] else pending
    {
      var port := new CanInterface(portOpened, pending);
      port.SetupChannel(1, 100);
      can := port;
      this.ignition := ignition;
      this.lighting := lighting;
      this.speedo := speedo;
      this.abs := abs;
      this.airbag := airbag;
      this.coolant := coolant;
      this.fuel := fuel;
      this.handbrake := handbrake;
      this.seatbelt := seatbelt;
      indicators := new Indicators.IndicatorController(now);
      this.clock := clock;
      previous := 0;
      counter := 0;
      currentSpeed := 0;
      step := 1;
    }

    /** One pass of `while True` at time `now`. */
    method Tick(now: int)
      requires Holds()
      modifies this, ignition, lighting, speedo, abs, airbag, coolant, fuel, handbrake, seatbelt, indicators, clock
      modifies can`written
      ensures Holds() && Model() == TickStep(old(Model()), now)
      ensures can.written == old(can.written) + Lines(can.connected, TickFrames(old(Model()), now))
    {
      if now - previous >= TickMs {
        Pass(now);
      } else {
        assert Lines(can.connected, []) == [];
      }
    }

    /** The body of a due pass: the four groups in order, then the counter
        and the time. */
    method Pass(now: int)
      requires Holds() && now - previous >= TickMs
      modifies this, ignition, lighting, speedo, abs, airbag, coolant, fuel, handbrake, seatbelt, indicators, clock
      modifies can`written
      ensures Holds() && Model() == TickStep(old(Model()), now)
      ensures can.written == old(can.written) + Lines(can.connected, TickFrames(old(Model()), now))
    {
      ghost var w0 := can.written;
      SendFast();
      ghost var w1 := can.written;
      SendRest(now);
      PassLines(can.connected, w0, w1, can.written, old(Model()), now);
    }

    /** The groups sent on every pass and on every 7th. */
    method SendFast()
      requires Holds()
      modifies this, ignition, lighting, speedo, can`written
      ensures Holds() && Model() == SpeedStep(AlwaysStep(old(Model())))
      ensures can.written == old(can.written) + Lines(can.connected, AlwaysFrames(old(Model())) + SpeedFrames(AlwaysStep(old(Model()))))
    {
      ghost var w0 := can.written;
      SendAlways();
      ghost var w1 := can.written;
      SendSpeedGroup();
      LinesChain(can.connected, w0, w1, can.written, AlwaysFrames(old(Model())), SpeedFrames(AlwaysStep(old(Model()))));
    }

    /** The groups sent on every 20th and every 100th pass, then the
        counter and the time. */
    method SendRest(now: int)
      requires Holds()
      modifies this, abs, airbag, coolant, fuel, handbrake, seatbelt, indicators, clock, can`written
      ensures Holds() && Model() == Counted(ClockStep(SlowStep(old(Model()), now)), now)
      ensures can.written == old(can.written) + Lines(can.connected, SlowFrames(old(Model()), now) + ClockFrames(SlowStep(old(Model()), now)))
    {
      ghost var w0 := can.written;
      SendSlowGroup(now);
      ghost var w1 := can.written;
      SendClockGroup();
      LinesChain(can.connected, w0, w1, can.written, SlowFrames(old(Model()), now), ClockFrames(SlowStep(old(Model()), now)));
      Count(now);
    }

    /** The end of a due pass: count it and record its time. */
    method Count(now: int)
      requires Holds()
      modifies this
      ensures Holds() && Model() == Counted(old(Model()), now)
    {
      counter := counter + 1;
      previous := now;
    }

    /** Ignition on, main beam, 4000 rpm. */
    method SendAlways()
      requires Holds()
      modifies ignition, lighting, can`written
      ensures Holds() && Model() == AlwaysStep(old(Model()))
      ensures can.written == old(can.written) + Lines(can.connected, AlwaysFrames(old(Model())))
    {
      ghost var c0 := Model();
      ghost var w0 := can.written;
      StepIgnition();
      ghost var w1 := can.written;
      StepLighting();
      ghost var w2 := can.written;
      Rpm.SendRpm(can, EngineRpm);
      LinesChain(can.connected, w0, w1, w2, Ignition.Sent(c0.ignition, true), Lighting.Sent(c0.lighting, Lighting.MainOnly));
      LinesChain(can.connected, w0, w2, can.written,
        Ignition.Sent(c0.ignition, true) + Lighting.Sent(c0.lighting, Lighting.MainOnly), Rpm.Sent(EngineRpm));
    }

    /** Every 7th pass: send the speed input, then bounce it. */
    method SendSpeedGroup()
      requires Holds()
      modifies this, speedo, can`written
      ensures Holds() && Model() == SpeedStep(old(Model()))
      ensures can.written == old(can.written) + Lines(can.connected, SpeedFrames(old(Model())))
    {
      if counter % 7 == 0 {
        StepSpeed();
        currentSpeed := currentSpeed + step;
        if currentSpeed >= TopSpeed || currentSpeed <= 0 {
          step := -step;
        }
      } else {
        assert Lines(can.connected, []) == [];
      }
    }

    /** The road speed with the current input. */
    method StepSpeed()
      requires Holds()
      modifies speedo, can`written
      ensures Holds() && Model() == old(Model()).(speedo := Speed.Next(old(Model()).speedo, old(Model()).speed))
      ensures can.written == old(can.written) + Lines(can.connected, Speed.Sent(old(Model()).speedo, old(Model()).speed))
    {
      speedo.SendSpeed(can, currentSpeed);
    }

    /** Every 20th pass: ABS and airbag disabled, 100 degrees, half a tank,
        parking brake on, seatbelt open, hazard lights. */
    method SendSlowGroup(now: int)
      requires Holds()
      modifies abs, airbag, coolant, fuel, handbrake, seatbelt, indicators, can`written
      ensures Holds() && Model() == SlowStep(old(Model()), now)
      ensures can.written == old(can.written) + Lines(can.connected, SlowFrames(old(Model()), now))
    {
      if counter % 20 == 0 {
        ghost var c0 := Model();
        ghost var w0 := can.written;
        SendSlowFirst();
        ghost var w1 := can.written;
        SendSlowSecond(now);
        LinesChain(can.connected, w0, w1, can.written,
          Abs.Sent(c0.abs, false) + Airbag.Sent(c0.airbag, false) + EngineTemperature.Sent(c0.coolant, Coolant),
          Fuel.Sent(c0.fuel, FuelPercent) + Handbrake.Sent(c0.handbrake, true) + Seatbelt.Sent(c0.seatbelt, false) +
          Indicators.Sent(c0.indicators, Hazard, now));
      } else {
        assert Lines(can.connected, []) == [];
      }
    }

    /** ABS, airbag, coolant. */
    method SendSlowFirst()
      requires Holds()
      modifies abs, airbag, coolant, can`written
      ensures Holds()
      ensures Model() == old(Model()).(abs := Abs.Next(old(Model()).abs, false), airbag := Airbag.Next(old(Model()).airbag, false),
                                       coolant := EngineTemperature.Next(old(Model()).coolant, Coolant))
      ensures can.written == old(can.written) + Lines(can.connected,
        Abs.Sent(old(Model()).abs, false) + Airbag.Sent(old(Model()).airbag, false) + EngineTemperature.Sent(old(Model()).coolant, Coolant))
    {
      ghost var c0 := Model();
      ghost var w0 := can.written;
      StepAbs();
      ghost var w1 := can.written;
      StepAirbag();
      LinesChain(can.connected, w0, w1, can.written, Abs.Sent(c0.abs, false), Airbag.Sent(c0.airbag, false));
      ghost var w2 := can.written;
      StepCoolant();
      LinesChain(can.connected, w0, w2, can.written, Abs.Sent(c0.abs, false) + Airbag.Sent(c0.airbag, false),
        EngineTemperature.Sent(c0.coolant, Coolant));
    }

    /** Fuel, parking brake, seatbelt, indicators. */
    method SendSlowSecond(now: int)
      requires Holds()
      modifies fuel, handbrake, seatbelt, indicators, can`written
      ensures Holds()
      ensures Model() == old(Model()).(fuel := Fuel.Next(old(Model()).fuel, FuelPercent), handbrake := Handbrake.Next(old(Model()).handbrake, true),
                                       seatbelt := Seatbelt.Next(old(Model()).seatbelt, false),
                                       indicators := Indicators.Next(old(Model()).indicators, Hazard, now))
      ensures can.written == old(can.written) + Lines(can.connected,
        Fuel.Sent(old(Model()).fuel, FuelPercent) + Handbrake.Sent(old(Model()).handbrake, true) +
        Seatbelt.Sent(old(Model()).seatbelt, false) + Indicators.Sent(old(Model()).indicators, Hazard, now))
    {
      ghost var c0 := Model();
      ghost var w0 := can.written;
      StepFuel();
      ghost var w1 := can.written;
      StepHandbrake();
      LinesChain(can.connected, w0, w1, can.written, Fuel.Sent(c0.fuel, FuelPercent), Handbrake.Sent(c0.handbrake, true));
      ghost var f := Fuel.Sent(c0.fuel, FuelPercent) + Handbrake.Sent(c0.handbrake, true);
      ghost var w2 := can.written;
      StepSeatbelt();
      LinesChain(can.connected, w0, w2, can.written, f, Seatbelt.Sent(c0.seatbelt, false));
      ghost var w3 := can.written;
      StepIndicators(now);
      LinesChain(can.connected, w0, w3, can.written, f + Seatbelt.Sent(c0.seatbelt, false), Indicators.Sent(c0.indicators, Hazard, now));
    }

    /** Every 100th pass: the clock. */
    method SendClockGroup()
      requires Holds()
      modifies clock, can`written
      ensures Holds() && Model() == ClockStep(old(Model()))
      ensures can.written == old(can.written) + Lines(can.connected, ClockFrames(old(Model())))
    {
      if counter % 100 == 0 {
        StepClock();
      } else {
        assert Lines(can.connected, []) == [];
      }
    }

    // One producer call each, as a change of the loop's state.

    /** Ignition on. */
    method StepIgnition()
      requires Holds()
      modifies ignition, can`written
      ensures Holds() && Model() == old(Model()).(ignition := Ignition.Next(old(Model()).ignition, true))
      ensures can.written == old(can.written) + Lines(can.connected, Ignition.Sent(old(Model()).ignition, true))
    {
      ignition.SendIgnition(can, true);
    }

    /** Main beam only. */
    method StepLighting()
      requires Holds()
      modifies lighting, can`written
      ensures Holds() && Model() == old(Model()).(lighting := Lighting.Next(old(Model()).lighting, Lighting.MainOnly))
      ensures can.written == old(can.written) + Lines(can.connected, Lighting.Sent(old(Model()).lighting, Lighting.MainOnly))
    {
      lighting.SendLighting(can, Lighting.MainOnly);
    }

    /** ABS disabled. */
    method StepAbs()
      requires Holds()
      modifies abs, can`written
      ensures Holds() && Model() == old(Model()).(abs := Abs.Next(old(Model()).abs, false))
      ensures can.written == old(can.written) + Lines(can.connected, Abs.Sent(old(Model()).abs, false))
    {
      abs.SendAbs(can, false);
    }

    /** Airbag disabled. */
    method StepAirbag()
      requires Holds()
      modifies airbag, can`written
      ensures Holds() && Model() == old(Model()).(airbag := Airbag.Next(old(Model()).airbag, false))
      ensures can.written == old(can.written) + Lines(can.connected, Airbag.Sent(old(Model()).airbag, false))
    {
      airbag.SendAirbag(can, false);
    }

    /** 100 degrees. */
    method StepCoolant()
      requires Holds()
      modifies coolant, can`written
      ensures Holds() && Model() == old(Model()).(coolant := EngineTemperature.Next(old(Model()).coolant, Coolant))
      ensures can.written == old(can.written) + Lines(can.connected, EngineTemperature.Sent(old(Model()).coolant, Coolant))
    {
      coolant.SendEngineTemperature(can, Coolant);
    }

    /** Half a tank. */
    method StepFuel()
      requires Holds()
      modifies fuel, can`written
      ensures Holds() && Model() == old(Model()).(fuel := Fuel.Next(old(Model()).fuel, FuelPercent))
      ensures can.written == old(can.written) + Lines(can.connected, Fuel.Sent(old(Model()).fuel, FuelPercent))
    {
      fuel.SendFuel(can, FuelPercent);
    }

    /** Parking brake on. */
    method StepHandbrake()
      requires Holds()
      modifies handbrake, can`written
      ensures Holds() && Model() == old(Model()).(handbrake := Handbrake.Next(old(Model()).handbrake, true))
      ensures can.written == old(can.written) + Lines(can.connected, Handbrake.Sent(old(Model()).handbrake, true))
    {
      handbrake.SendHandbrake(can, true);
    }

    /** Seatbelt open. */
    method StepSeatbelt()
      requires Holds()
      modifies seatbelt, can`written
      ensures Holds() && Model() == old(Model()).(seatbelt := Seatbelt.Next(old(Model()).seatbelt, false))
      ensures can.written == old(can.written) + Lines(can.connected, Seatbelt.Sent(old(Model()).seatbelt, false))
    {
      seatbelt.SendSeatbelt(can, false);
    }

    /** Hazard lights at time `now`. */
    method StepIndicators(now: int)
      requires Holds()
      modifies indicators, can`written
      ensures Holds() && Model() == old(Model()).(indicators := Indicators.Next(old(Model()).indicators, Hazard, now))
      ensures can.written == old(can.written) + Lines(can.connected, Indicators.Sent(old(Model()).indicators, Hazard, now))
    {
      indicators.SendIndicators(can, Hazard, now);
    }

    /** The fixed date. */
    method StepClock()
      requires Holds()
      modifies clock, can`written
      ensures Holds() && Model() == old(Model()).(clock := ClockTime.Next(old(Model()).clock, Date))
      ensures can.written == old(can.written) + Lines(can.connected, ClockTime.Sent(old(Model()).clock, Date))
    {
      clock.SendTime(can, Date);
    }
  }
}
