/** modules/fuel.py: the fuel gauge on id 0x349. The percentage is clamped,
    mapped linearly onto 0..8320 and written little-endian twice. */
module Fuel {
  import opened Bytes
  import opened CanCodec
  import opened UsbCan

  const FuelId: nat := 0x349
  const FrameInit: seq<byte> := [0x00, 0x00, 0x00, 0x00, 0x00]

  function Abs(a: int): nat
  {
    if a < 0 then -a else a
  }

  /** Euclidean division of naturals brackets the dividend. */
  lemma DivBounds(n: nat, d: nat)
    requires d > 0
    ensures 0 <= n / d
    ensures (n / d) * d <= n < (n / d + 1) * d
  {
    assert n == (n / d) * d + n % d;
  }

  /** `int(a / b)`: the quotient rounded toward zero, as `int()` does on a
      float. */
  function TruncDiv(a: int, b: int): (r: int)
    requires b != 0
    ensures Abs(r) * Abs(b) <= Abs(a) < (Abs(r) + 1) * Abs(b)
    ensures r > 0 ==> (a > 0) == (b > 0)
    ensures r < 0 ==> (a > 0) != (b > 0)
  {
    var n, d := Abs(a), Abs(b);
    var q := n / d;
    DivBounds(n, d);
    assert Abs(q) == q && Abs(-q) == q;
    if (a >= 0) == (b > 0) then q else -q
  }

  /** Two naturals with the same multiple of `d` bracketing are equal. */
  lemma SameQuotient(r: nat, k: nat, d: nat)
    requires d > 0 && r * d <= k * d < (r + 1) * d
    ensures r == k
  {
  }

  /** An exact quotient is recovered whatever the signs. */
  lemma TruncExact(k: int, b: int)
    requires b != 0
    ensures TruncDiv(b * k, b) == k
  {
    var r := TruncDiv(b * k, b);
    assert Abs(b * k) == Abs(k) * Abs(b);
    SameQuotient(Abs(r), Abs(k), Abs(b));
  }

  /** On a non-negative dividend and a positive divisor, truncation is
      Dafny's division. */
  lemma TruncNonNegative(a: int, b: int)
    requires a >= 0 && b > 0
    ensures TruncDiv(a, b) == a / b
  {
  }

  /** A product of two non-negative numbers is non-negative. */
  lemma ProductNonNegative(u: int, v: int)
    requires u >= 0 && v >= 0
    ensures u * v >= 0
  {
  }

  /** A non-negative quotient truncates to its floor. */
  lemma TruncFloor(a: int, b: int)
    requires a >= 0 && b > 0
    ensures TruncDiv(a, b) * b <= a < (TruncDiv(a, b) + 1) * b
  {
    TruncNonNegative(a, b);
    DivBounds(a, b);
  }

  /** `_map_value(x, in_min, in_max, out_min, out_max)`: the float
      `(x - in_min) (out_max - out_min) / (in_max - in_min) + out_min` is
      the exact quotient below, which `int()` truncates. */
  function MapValue(x: int, inMin: int, inMax: int, outMin: int, outMax: int): (r: int)
    requires inMin != inMax
    ensures x == inMin ==> r == outMin
    ensures x == inMax ==> r == outMax
    ensures inMin < inMax && inMin <= x && 0 <= outMin <= outMax ==>
      (r - outMin) * (inMax - inMin) <= (x - inMin) * (outMax - outMin) < (r - outMin + 1) * (inMax - inMin)
  {
    MapEnds(x, inMin, inMax, outMin, outMax);
    MapFloor(x, inMin, inMax, outMin, outMax);
    TruncDiv((x - inMin) * (outMax - outMin) + outMin * (inMax - inMin), inMax - inMin)
  }

  /** The map takes each end of the input range to the end of the output
      range. */
  lemma MapEnds(x: int, inMin: int, inMax: int, outMin: int, outMax: int)
    requires inMin != inMax
    ensures var b := inMax - inMin;
      x == inMin ==> TruncDiv((x - inMin) * (outMax - outMin) + outMin * b, b) == outMin
    ensures var b := inMax - inMin;
      x == inMax ==> TruncDiv((x - inMin) * (outMax - outMin) + outMin * b, b) == outMax
  {
    var b := inMax - inMin;
    if x == inMin {
      assert (x - inMin) * (outMax - outMin) + outMin * b == b * outMin;
      TruncExact(outMin, b);
    } else if x == inMax {
      assert (x - inMin) * (outMax - outMin) + outMin * b == b * outMax;
      TruncExact(outMax, b);
    }
  }

  /** With a non-negative output floor, inputs above `in_min` are mapped to
      the floor of the exact value. */
  lemma MapFloor(x: int, inMin: int, inMax: int, outMin: int, outMax: int)
    requires inMin != inMax
    ensures var a, b := (x - inMin) * (outMax - outMin), inMax - inMin;
      inMin < inMax && inMin <= x && 0 <= outMin <= outMax ==>
      (TruncDiv(a + outMin * b, b) - outMin) * b <= a < (TruncDiv(a + outMin * b, b) - outMin + 1) * b
  {
    var a, b := (x - inMin) * (outMax - outMin), inMax - inMin;
    if inMin < inMax && inMin <= x && 0 <= outMin <= outMax {
      ProductNonNegative(x - inMin, outMax - outMin);
      ProductNonNegative(outMin, b);
      TruncFloor(a + outMin * b, b);
      var r := TruncDiv(a + outMin * b, b);
      assert (r - outMin) * b == r * b - outMin * b;
      assert (r - outMin + 1) * b == (r + 1) * b - outMin * b;
    }
  }

  /** The level `send_fuel` encodes for a percentage. */
  function Level(percent: int): (v: int)
    ensures 0 <= v <= 8320
  {
    MapValue(Clamp(percent, 0, 100), 0, 100, 0, 8320)
  }

  /** The module-level list `_fuel_frame`. */
  type State = seq<byte>

  /** Five bytes; bytes 2..3 repeat bytes 0..1 and byte 4 stays 0. */
  predicate Valid(s: State)
  {
    |s| == 5 && s[2] == s[0] && s[3] == s[1] && s[4] == 0
  }

  function Initial(): (s: State)
    ensures Valid(s)
  {
    FrameInit
  }

  /** The frame after one call: bytes 0..3 overwritten with the level's low
      and high bytes, twice. */
  function Next(s: State, percent: int): (t: State)
    requires Valid(s)
    ensures Valid(t)
  {
    var low, high := (Level(percent) % 256) as byte, ((Level(percent) / 256) % 256) as byte;
    s[0 := low][1 := high][2 := low][3 := high]
  }

  /** What one call sends: the updated frame. */
  function Sent(s: State, percent: int): seq<Frame>
    requires Valid(s)
  {
    [Frame(1, Hex3(FuelId), Next(s, percent))]
  }

  /** The level is the floor of `percent * 8320 / 100` after clamping to
      0..100: below 0 encodes like 0 and above 100 like 100. */
  lemma LevelClamps(percent: int)
    ensures 0 <= percent <= 100 ==> Level(percent) == percent * 8320 / 100
    ensures percent < 0 ==> Level(percent) == Level(0) == 0
    ensures percent > 100 ==> Level(percent) == Level(100) == 8320
  {
    var c := Clamp(percent, 0, 100);
    assert (c - 0) * (8320 - 0) + 0 * (100 - 0) == c * 8320;
    TruncNonNegative(c * 8320, 100);
  }

  /** Half a tank is 0x1040 and a full tank 0x2080. */
  lemma LevelExamples()
    ensures Level(50) == 0x1040 && Level(100) == 0x2080
  {
  }

  /** The level never decreases as the percentage grows. */
  lemma LevelMonotone(p: int, q: int)
    requires p <= q
    ensures Level(p) <= Level(q)
  {
    var a, b := Clamp(p, 0, 100), Clamp(q, 0, 100);
    assert a * 8320 <= b * 8320;
  }

  /** One 5-byte frame with id "349" on channel 1: bytes 0..1 hold the level
      little-endian, bytes 2..3 repeat them and byte 4 is 0. */
  lemma SentShape(s: State, percent: int)
    requires Valid(s)
    ensures |Sent(s, percent)| == 1 && Recoverable(Sent(s, percent)[0]) && Sent(s, percent)[0].canId == "349"
    ensures var p := Sent(s, percent)[0].data;
      |p| == 5 && p[0] as int + 256 * p[1] as int == Level(percent) &&
      p[2] == p[0] && p[3] == p[1] && p[4] == 0
  {
    LittleEndian16(Level(percent));
  }

  /** Half a tank sends 0x40, 0x10 and a full tank 0x80, 0x20. */
  lemma FrameExamples(s: State)
    requires Valid(s)
    ensures Sent(s, 50)[0].data == [0x40, 0x10, 0x40, 0x10, 0x00]
    ensures Sent(s, 100)[0].data == [0x80, 0x20, 0x80, 0x20, 0x00]
  {
    LevelExamples();
  }

  /** The output depends only on the current input, not on earlier calls. */
  lemma LatestInputOnly(s1: State, s2: State, percent: int)
    requires Valid(s1) && Valid(s2)
    ensures Sent(s1, percent) == Sent(s2, percent)
  {
    assert Next(s1, percent) == Next(s2, percent);
  }

  /** The state of modules/fuel.py. */
  class Producer {
    var frame: seq<byte>

    function Model(): State
      reads this
    {
      frame
    }

    constructor ()
      ensures Model() == Initial()
    {
      frame := FrameInit;
    }

    /** `send_fuel`: clamp, map, overwrite bytes 0..3, send. */
    method SendFuel(can: CanInterface, percent: int)
      requires Valid(Model())
      modifies this, can`written
      ensures Model() == Next(old(Model()), percent)
      ensures can.written == old(can.written) + Lines(can.connected, Sent(old(Model()), percent))
    {
      var clamped := if percent < 0 then 0 else if percent > 100 then 100 else percent;
      var level := MapValue(clamped, 0, 100, 0, 8320);
      var low := (level % 256) as byte;
      var high := ((level / 256) % 256) as byte;
      frame := frame[0 := low];
      frame := frame[1 := high];
      frame := frame[2 := low];
      frame := frame[3 := high];
      can.SendMessage(1, Hex3(FuelId), frame);
    }
  }
}
