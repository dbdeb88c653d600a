/** The adapter's ASCII line protocol, as usb_can.py builds and parses it:
    `t`/`T` + channel + identifier + length digit + hex payload + `\r` for a
    frame, `S{ch}{code}\r` and `O{ch}0\r` for channel setup. */
module CanCodec {
  import opened Wrappers
  import opened Bytes

  // ---------------------------------------------------------------------
  // Characters and digits

  predicate IsDecimalDigit(c: char)
  {
    '0' <= c <= '9'
  }

  predicate IsHexDigit(c: char)
  {
    '0' <= c <= '9' || 'A' <= c <= 'F' || 'a' <= c <= 'f'
  }

  /** `int(c)` for one ASCII decimal digit. */
  function DigitValue(c: char): (v: nat)
    requires IsDecimalDigit(c)
    ensures v < 10
  {
    c as int - '0' as int
  }

  /** `int(c, 16)` for one ASCII hex digit, either case. */
  function HexValue(c: char): (v: nat)
    requires IsHexDigit(c)
    ensures v < 16
  {
    if '0' <= c <= '9' then c as int - '0' as int
    else if 'A' <= c <= 'F' then c as int - 'A' as int + 10
    else c as int - 'a' as int + 10
  }

  /** The digit `str` prints for a value below ten. */
  function DigitChar(n: nat): (c: char)
    requires n < 10
    ensures IsDecimalDigit(c) && DigitValue(c) == n
  {
    ('0' as int + n) as char
  }

  /** The upper-case digit Python's `X` format prints for a value below 16. */
  function HexDigit(n: nat): (c: char)
    requires n < 16
    ensures IsHexDigit(c) && HexValue(c) == n
    ensures '0' <= c <= '9' || 'A' <= c <= 'F'
  {
    if n < 10 then ('0' as int + n) as char else ('A' as int + n - 10) as char
  }

  predicate IsAscii(s: string)
  {
    forall i :: 0 <= i < |s| ==> s[i] as int < 128
  }

  /** Identifiers handed to `send_message`: ASCII text, on which `str.upper`
      changes only the letters a-z. */
  type AsciiString = s: string | IsAscii(s)

  /** `f"{n:03X}"`: the three-digit upper-case hex form in which every
      producer passes its CAN identifier. */
  function Hex3(n: nat): (s: AsciiString)
    requires n < 0x1000
    ensures |s| == 3
    ensures forall i :: 0 <= i < 3 ==> '0' <= s[i] <= '9' || 'A' <= s[i] <= 'F'
    ensures HexValue(s[0]) * 256 + HexValue(s[1]) * 16 + HexValue(s[2]) == n
  {
    [HexDigit(n / 256), HexDigit(n / 16 % 16), HexDigit(n % 16)]
  }

  // ---------------------------------------------------------------------
  // Python's str(n) for integers

  function NatDecimal(n: nat): (s: string)
    ensures |s| >= 1
    ensures forall i :: 0 <= i < |s| ==> IsDecimalDigit(s[i])
    ensures n < 10 <==> |s| == 1
  {
    if n < 10 then [DigitChar(n)] else NatDecimal(n / 10) + [DigitChar(n % 10)]
  }

  /** The value of a string of decimal digits, most significant first. */
  function DecimalValue(s: string): nat
    requires forall i :: 0 <= i < |s| ==> IsDecimalDigit(s[i])
  {
    if s == [] then 0 else 10 * DecimalValue(s[..|s| - 1]) + DigitValue(s[|s| - 1])
  }

  /** `str(n)`. */
  function Decimal(n: int): (s: string)
    ensures |s| >= 1
    ensures s[0] == '-' <==> n < 0
    ensures 0 <= n < 10 ==> s == [DigitChar(n)]
  {
    if n < 0 then "-" + NatDecimal(-n) else NatDecimal(n)
  }

  /** `str` prints digits that read back as the number itself. */
  lemma {:induction false} DecimalRoundTrip(n: nat)
    ensures DecimalValue(NatDecimal(n)) == n
  {
    if n >= 10 {
      var s := NatDecimal(n);
      assert s[..|s| - 1] == NatDecimal(n / 10);
      DecimalRoundTrip(n / 10);
    }
  }

  // ---------------------------------------------------------------------
  // str.upper and str.strip

  function UpperChar(c: char): char
  {
    if 'a' <= c <= 'z' then (c as int - 32) as char else c
  }

  /** `s.upper()` on ASCII text. */
  function Upper(s: AsciiString): (u: AsciiString)
    ensures |u| == |s|
    ensures forall i :: 0 <= i < |s| ==> !('a' <= u[i] <= 'z')
    ensures forall i :: 0 <= i < |s| ==>
      u[i] == s[i] || ('a' <= s[i] <= 'z' && u[i] as int == s[i] as int - 32)
  {
    seq(|s|, i requires 0 <= i < |s| => UpperChar(s[i]))
  }

  /** The characters `str.strip()` removes: Python's whitespace. */
  predicate IsSpace(c: char)
  {
    || '\t' <= c <= '\r'
    || '\U{1C}' <= c <= '\U{1F}'
    || c == ' '
    || c == '\U{85}'
    || c == '\U{A0}'
    || c == '\U{1680}'
    || '\U{2000}' <= c <= '\U{200A}'
    || c == '\U{2028}' || c == '\U{2029}'
    || c == '\U{202F}' || c == '\U{205F}' || c == '\U{3000}'
  }

  /** The whitespace `int()` skips around a chunk. A chunk holding an ASCII
      hex digit is ASCII text, on which `int()` skips only `\t`..`\r` and
      the space: the separators U+001C..U+001F, which `strip()` removes,
      are invalid characters to it. Other Unicode whitespace turns into a
      space before parsing, so it is skipped. */
  predicate IntSpace(c: char)
  {
    IsSpace(c) && !('\U{1C}' <= c <= '\U{1F}')
  }

  function StripLeading(s: string): (r: string)
    ensures |r| <= |s| && r == s[|s| - |r|..]
    ensures r == [] || !IsSpace(r[0])
    decreases |s|
  {
    if |s| > 0 && IsSpace(s[0]) then StripLeading(s[1..]) else s
  }

  function StripTrailing(s: string): (r: string)
    ensures |r| <= |s| && r == s[..|r|]
    ensures r == [] || !IsSpace(r[|r| - 1])
    decreases |s|
  {
    if |s| > 0 && IsSpace(s[|s| - 1]) then StripTrailing(s[..|s| - 1]) else s
  }

  /** `s.strip()`: a middle part of `s` that neither starts nor ends with
      whitespace. */
  function Strip(s: string): (r: string)
    ensures |r| <= |s|
    ensures r == [] || (!IsSpace(r[0]) && !IsSpace(r[|r| - 1]))
    ensures |r| <= |StripLeading(s)|
    ensures r == s[|s| - |StripLeading(s)|..][..|r|]
  {
    StripTrailing(StripLeading(s))
  }

  /** What `StripLeading` cuts off is whitespace. */
  lemma {:induction false} StripLeadingCutsSpace(s: string, i: nat)
    requires i < |s| - |StripLeading(s)|
    ensures IsSpace(s[i])
    decreases |s|
  {
    if i > 0 {
      StripLeadingCutsSpace(s[1..], i - 1);
    }
  }

  /** What `StripTrailing` cuts off is whitespace. */
  lemma {:induction false} StripTrailingCutsSpace(s: string, i: nat)
    requires |StripTrailing(s)| <= i < |s|
    ensures IsSpace(s[i])
    decreases |s|
  {
    if i < |s| - 1 {
      StripTrailingCutsSpace(s[..|s| - 1], i);
    }
  }

  /** A string that neither starts nor ends with whitespace is its own strip. */
  lemma StripUnchanged(s: string)
    requires s == [] || (!IsSpace(s[0]) && !IsSpace(s[|s| - 1]))
    ensures Strip(s) == s
  {
    assert StripLeading(s) == s;
  }

  /** Stripping a line ending in a carriage return gives back the text
      before it, when that text neither starts nor ends with whitespace. */
  lemma StripCarriageReturn(body: string)
    requires |body| > 0 && !IsSpace(body[0]) && !IsSpace(body[|body| - 1])
    ensures Strip(body + "\r") == body
  {
    var line := body + "\r";
    assert line[0] == body[0];
    StripLeadingKeeps(line);
    assert line[..|line| - 1] == body;
    StripTrailingDrops(line);
    StripTrailingKeeps(body);
  }

  lemma StripLeadingKeeps(s: string)
    requires |s| > 0 && !IsSpace(s[0])
    ensures StripLeading(s) == s
  {
  }

  lemma StripTrailingKeeps(s: string)
    requires |s| > 0 && !IsSpace(s[|s| - 1])
    ensures StripTrailing(s) == s
  {
  }

  lemma StripTrailingDrops(s: string)
    requires |s| > 0 && IsSpace(s[|s| - 1])
    ensures StripTrailing(s) == StripTrailing(s[..|s| - 1])
  {
  }

  // ---------------------------------------------------------------------
  // Encoding a frame (send_message)

  datatype SendError = NotConnected | InvalidChannel | PayloadTooLong

  /** `f"{b:02X}"`. */
  function HexByte(b: byte): (s: string)
    ensures |s| == 2
    ensures forall i :: 0 <= i < 2 ==> '0' <= s[i] <= '9' || 'A' <= s[i] <= 'F'
    ensures 16 * HexValue(s[0]) + HexValue(s[1]) == b as int
  {
    [HexDigit(b as int / 16), HexDigit(b as int % 16)]
  }

  /** `''.join(f"{byte:02X}" for byte in data)`. */
  function HexPayload(data: seq<byte>): (s: string)
    ensures |s| == 2 * |data|
    ensures forall i :: 0 <= i < |s| ==> '0' <= s[i] <= '9' || 'A' <= s[i] <= 'F'
  {
    if data == [] then "" else HexByte(data[0]) + HexPayload(data[1..])
  }

  /** Byte `i` of the payload is printed at characters `2 * i` and `2 * i + 1`. */
  lemma {:induction false} HexPayloadAt(data: seq<byte>, i: nat)
    requires i < |data|
    ensures HexPayload(data)[2 * i..2 * i + 2] == HexByte(data[i])
  {
    if i > 0 {
      HexPayloadAt(data[1..], i - 1);
      var s := HexPayload(data);
      assert s == HexByte(data[0]) + HexPayload(data[1..]);
      assert s[2 * i..2 * i + 2] == HexPayload(data[1..])[2 * (i - 1)..2 * (i - 1) + 2];
    }
  }

  /** The hex text of a prefix of the payload is a prefix of its hex text. */
  lemma {:induction false} HexPayloadPrefix(data: seq<byte>, k: nat)
    requires k <= |data|
    ensures HexPayload(data)[..2 * k] == HexPayload(data[..k])
  {
    if k > 0 {
      HexPayloadPrefix(data[1..], k - 1);
      assert data[..k][1..] == data[1..][..k - 1];
    }
  }

  /** The command letter `t` for an identifier of up to three characters,
      `T` (extended frame) for a longer one. */
  function CommandLetter(idStr: string): (c: char)
    ensures c == 't' <==> |idStr| <= 3
    ensures c == 'T' <==> |idStr| > 3
  {
    if |idStr| > 3 then 'T' else 't'
  }

  /** A frame command without its terminating carriage return. */
  function CommandBody(channel: int, canId: AsciiString, data: seq<byte>): string
  {
    var idStr := Upper(canId);
    [CommandLetter(idStr)] + Decimal(channel) + idStr + Decimal(|data|) + HexPayload(data)
  }

  /** Where each field of a valid command sits. */
  lemma BodyLayout(channel: int, canId: AsciiString, data: seq<byte>)
    requires 1 <= channel <= 2 && |data| <= 8
    ensures var body, w := CommandBody(channel, canId, data), |canId|;
      && |body| == 3 + w + 2 * |data|
      && body[0] == CommandLetter(Upper(canId))
      && body[1] == DigitChar(channel)
      && body[2..2 + w] == Upper(canId)
      && body[2 + w] == DigitChar(|data|)
      && body[3 + w..] == HexPayload(data)
  {
    var idStr := Upper(canId);
    var w := |canId|;
    var a := [CommandLetter(idStr)] + Decimal(channel);
    assert a == [CommandLetter(idStr), DigitChar(channel)];
    var b := a + idStr;
    assert b[..2] == a && b[2..] == idStr;
    var c := b + Decimal(|data|);
    assert c == b + [DigitChar(|data|)];
    var body := c + HexPayload(data);
    assert body == CommandBody(channel, canId, data);
    assert body[..3 + w] == c && body[3 + w..] == HexPayload(data);
    assert body[0] == a[0] && body[1] == a[1];
    assert body[2..2 + w] == c[2..2 + w] == b[2..];
    assert body[2 + w] == c[2 + w];
  }

  /** What `send_message` writes, or the exception it raises and catches:
      the port is checked first, then the channel, then the payload length. */
  function MessageCommand(connected: bool, channel: int, canId: AsciiString, data: seq<byte>)
    : (r: Result<string, SendError>)
    ensures !connected ==> r == Failure(NotConnected)
    ensures connected && !(1 <= channel <= 2) ==> r == Failure(InvalidChannel)
    ensures connected && 1 <= channel <= 2 && |data| > 8 ==> r == Failure(PayloadTooLong)
    ensures r.Success? <==> connected && 1 <= channel <= 2 && |data| <= 8
    ensures r.Success? ==>
      var line, w := r.value, |canId|;
      && |line| == 4 + w + 2 * |data|
      && (line[0] == 't' <==> w <= 3)
      && (line[0] == 'T' <==> w > 3)
      && line[1] == DigitChar(channel)
      && line[2..2 + w] == Upper(canId)
      && line[2 + w] == DigitChar(|data|)
      && line[3 + w..3 + w + 2 * |data|] == HexPayload(data)
      && line[|line| - 1] == '\r'
  {
    if !connected then Failure(NotConnected)
    else if !(1 <= channel <= 2) then Failure(InvalidChannel)
    else if |data| > 8 then Failure(PayloadTooLong)
    else
      var body := CommandBody(channel, canId, data);
      BodyLayout(channel, canId, data);
      var line := body + "\r";
      assert line[..|body|] == body;
      assert line[2..2 + |canId|] == body[2..2 + |canId|];
      assert line[3 + |canId|..3 + |canId| + 2 * |data|] == body[3 + |canId|..];
      Success(line)
  }

  // ---------------------------------------------------------------------
  // Decoding a line (receive_message)

  /** The dictionary `receive_message` returns. */
  datatype Message = Message(channel: int, canId: string, data: seq<int>)

  /** `int(chunk, 16)` for the one- or two-character chunks of a payload:
      surrounding whitespace is ignored, a sign is allowed, and what is left
      must be hex digits; anything else raises, here `None`. With at most two
      characters the stripped text is one of: two hex digits, a sign and a
      digit, or one digit with or without a space beside it. */
  function ParseHexChunk(chunk: string): (r: Option<int>)
    requires 1 <= |chunk| <= 2
    ensures r.Some? ==> -15 <= r.value <= 255
    ensures |chunk| == 1 ==> (r.Some? <==> IsHexDigit(chunk[0]))
    ensures |chunk| == 1 && r.Some? ==> r.value == HexValue(chunk[0])
    // two characters: a hex pair, a signed digit, or a digit beside a space
    ensures |chunk| == 2 && IsHexDigit(chunk[0]) && IsHexDigit(chunk[1]) ==>
      r == Some(16 * HexValue(chunk[0]) + HexValue(chunk[1]))
    ensures |chunk| == 2 && chunk[0] == '+' && IsHexDigit(chunk[1]) ==> r == Some(HexValue(chunk[1]))
    ensures |chunk| == 2 && chunk[0] == '-' && IsHexDigit(chunk[1]) ==> r == Some(-(HexValue(chunk[1]) as int))
    ensures |chunk| == 2 && IntSpace(chunk[0]) && IsHexDigit(chunk[1]) ==> r == Some(HexValue(chunk[1]))
    ensures |chunk| == 2 && IsHexDigit(chunk[0]) && IntSpace(chunk[1]) ==> r == Some(HexValue(chunk[0]))
    // and nothing else: a second character that is neither a digit nor a
    // space, or a first character that is none of digit, sign and space
    ensures |chunk| == 2 && !IsHexDigit(chunk[1]) && !IntSpace(chunk[1]) ==> r == None
    ensures |chunk| == 2 && !IsHexDigit(chunk[0]) && chunk[0] != '+' && chunk[0] != '-' && !IntSpace(chunk[0]) ==>
      r == None
    ensures |chunk| == 2 && !IsHexDigit(chunk[0]) && IntSpace(chunk[1]) ==> r == None
  {
    if |chunk| == 1 then
      if IsHexDigit(chunk[0]) then Some(HexValue(chunk[0])) else None
    else
      var c0, c1 := chunk[0], chunk[1];
      if IsHexDigit(c0) && IsHexDigit(c1) then Some(16 * HexValue(c0) + HexValue(c1))
      else if (c0 == '+' || c0 == '-') && IsHexDigit(c1) then
        var v: int := HexValue(c1);
        Some(if c0 == '-' then -v else v)
      else if IntSpace(c0) && IsHexDigit(c1) then Some(HexValue(c1))
      else if IsHexDigit(c0) && IntSpace(c1) then Some(HexValue(c0))
      else None
  }

  /** A space beside a single digit is ignored, as `strip` removes it, and
      a chunk of spaces alone fails. */
  lemma ChunkIgnoresSpace(c: char, sp: char)
    requires IsHexDigit(c) && IntSpace(sp)
    ensures ParseHexChunk([sp, c]) == ParseHexChunk([c]) == Some(HexValue(c))
    ensures ParseHexChunk([c, sp]) == ParseHexChunk([c])
    ensures ParseHexChunk([sp, sp]) == None
  {
  }

  /** The separators U+001C..U+001F, which `strip()` removes from a line,
      are not skipped by `int()`: beside a digit they make the chunk fail. */
  lemma SeparatorRejected(c: char, sep: char)
    requires IsHexDigit(c) && '\U{1C}' <= sep <= '\U{1F}'
    ensures IsSpace(sep)
    ensures ParseHexChunk([sep, c]) == None && ParseHexChunk([c, sep]) == None
  {
  }

  /** Two hex digits of `f"{b:02X}"` parse back to `b`. */
  lemma ParseHexByte(b: byte)
    ensures ParseHexChunk(HexByte(b)) == Some(b as int)
  {
    var h := HexByte(b);
    assert !IsSpace(h[0]) && !IsSpace(h[1]);
    StripUnchanged(h);
    assert Strip(h) == h;
    assert h[0] != '+' && h[0] != '-';
    assert IsHexDigit(h[0]) && IsHexDigit(h[1]);
  }

  /** `raw[2i:2i+2]`: the `i`-th chunk of a payload, one character when the
      text has odd length and this is the last chunk. */
  function Chunk(raw: string, i: nat): (c: string)
    requires i < (|raw| + 1) / 2
    ensures 1 <= |c| <= 2
  {
    if 2 * i + 2 <= |raw| then raw[2 * i..2 * i + 2] else raw[2 * i..]
  }

  /** Past the first chunk, the chunks of the rest are the later chunks. */
  lemma ChunkShift(raw: string)
    requires |raw| >= 2
    ensures forall i: nat :: i < (|raw[2..]| + 1) / 2 ==> Chunk(raw[2..], i) == Chunk(raw, i + 1)
    ensures forall j: nat :: 1 <= j < (|raw| + 1) / 2 ==> Chunk(raw, j) == Chunk(raw[2..], j - 1)
  {
    forall i: nat | i < (|raw[2..]| + 1) / 2
      ensures Chunk(raw[2..], i) == Chunk(raw, i + 1)
    {
    }
  }

  /** `[int(raw[i:i+2], 16) for i in range(0, len(raw), 2)]`: one value per
      two characters, a trailing odd character read on its own. It fails
      exactly when some chunk fails to parse, as the first `ValueError`
      ends the comprehension, and otherwise value `i` is chunk `i`'s. */
  function ParsePairs(raw: string): (r: Option<seq<int>>)
    ensures r.Some? <==> forall i: nat :: i < (|raw| + 1) / 2 ==> ParseHexChunk(Chunk(raw, i)).Some?
    ensures r.Some? ==> |r.value| == (|raw| + 1) / 2
    ensures r.Some? ==> forall i: nat :: i < |r.value| ==> ParseHexChunk(Chunk(raw, i)) == Some(r.value[i])
    decreases |raw|
  {
    if raw == [] then Some([])
    else
      var n := if |raw| >= 2 then 2 else 1;
      var head := ParseHexChunk(raw[..n]);
      var tail := ParsePairs(raw[n..]);
      assert Chunk(raw, 0) == raw[..n];
      if n == 2 then
        ChunkShift(raw);
        if head.None? then
          assert !ParseHexChunk(Chunk(raw, 0)).Some?;
          None
        else if tail.None? then
          assert exists i: nat :: i < (|raw[2..]| + 1) / 2 && !ParseHexChunk(Chunk(raw[2..], i)).Some?;
          None
        else Some([head.value] + tail.value)
      else
        if head.None? || tail.None? then None else Some([head.value] + tail.value)
  }

  /** The payload values as the ints the decoder returns. */
  function Ints(data: seq<byte>): (r: seq<int>)
    ensures |r| == |data|
  {
    if data == [] then [] else [data[0] as int] + Ints(data[1..])
  }

  /** Every byte's hex text parses back to the byte. */
  lemma {:induction false} HexPayloadParses(data: seq<byte>)
    ensures ParsePairs(HexPayload(data)) == Some(Ints(data))
  {
    if data != [] {
      var s := HexPayload(data);
      var h := HexByte(data[0]);
      assert s == h + HexPayload(data[1..]);
      assert s[..2] == h;
      assert s[2..] == HexPayload(data[1..]);
      ParseHexByte(data[0]);
      assert ParseHexChunk(s[..2]) == Some(data[0] as int);
      HexPayloadParses(data[1..]);
      assert ParsePairs(s[2..]) == Some(Ints(data[1..]));
      assert ParsePairs(s) == Some([data[0] as int] + Ints(data[1..]));
      assert Ints(data) == [data[0] as int] + Ints(data[1..]);
    }
  }

  /** The payload characters of a frame line whose identifier is `w` wide:
      two per byte the length digit announces, fewer if the line ends first. */
  function PayloadText(line: string, w: nat): string
    requires |line| >= 3 + w && IsHexDigit(line[2 + w])
  {
    var start := 3 + w;
    line[start..if start + 2 * HexValue(line[2 + w]) <= |line| then start + 2 * HexValue(line[2 + w]) else |line|]
  }

  /** The decoder of `receive_message`, applied to a stripped line: `None`
      for an empty line, a line that is not a frame, and every line on which
      Python would raise (missing or non-digit channel, missing or non-hex
      length digit, a payload chunk that is not hex). The identifier has the
      fixed width 3 (`t`) or 8 (`T`); the payload is read from the
      2 x length characters after the length digit, fewer if the line ends
      first, and anything after it is ignored. */
  function DecodeLine(line: string): (r: Option<Message>)
    ensures |line| == 0 || (line[0] != 't' && line[0] != 'T') ==> r == None
    ensures r.Some? ==>
      var w := if line[0] == 'T' then 8 else 3;
      && |line| >= 3 + w
      && IsDecimalDigit(line[1]) && r.value.channel == DigitValue(line[1])
      && r.value.canId == line[2..2 + w]
      && IsHexDigit(line[2 + w])
      && |r.value.data| <= HexValue(line[2 + w])
      && ParsePairs(PayloadText(line, w)) == Some(r.value.data)
    // with a well-formed header, the line decodes exactly when its payload
    // text parses, so one chunk that is not hex rejects the whole line
    ensures |line| >= 1 && (line[0] == 't' || line[0] == 'T') ==>
      var w := if line[0] == 'T' then 8 else 3;
      |line| >= 3 + w && IsDecimalDigit(line[1]) && IsHexDigit(line[2 + w]) ==>
        (r.Some? <==> ParsePairs(PayloadText(line, w)).Some?)
  {
    if |line| == 0 || (line[0] != 't' && line[0] != 'T') then None
    else
      var idLen := if line[0] == 'T' then 8 else 3;
      var dlcIndex := 2 + idLen;
      if |line| < 2 || !IsDecimalDigit(line[1]) then None
      else if |line| <= dlcIndex || !IsHexDigit(line[dlcIndex]) then None
      else
        var dataStart := dlcIndex + 1;
        var dataEnd := if dataStart + 2 * HexValue(line[dlcIndex]) <= |line|
                       then dataStart + 2 * HexValue(line[dlcIndex]) else |line|;
        match ParsePairs(line[dataStart..dataEnd])
        case None => None
        case Some(data) => Some(Message(DigitValue(line[1]), line[2..dlcIndex], data))
  }

  /** `line` is a frame line whose identifier has `width` characters, whose
      payload ends at `payloadEnd`, and whose fields are those of `msg`. */
  predicate FramedAs(line: string, width: nat, payloadEnd: nat, msg: Message)
  {
    && |line| >= 1 && (line[0] == 't' || line[0] == 'T')
    && width == (if line[0] == 'T' then 8 else 3)
    && |line| >= 3 + width && IsDecimalDigit(line[1]) && IsHexDigit(line[2 + width])
    && payloadEnd == (if 3 + width + 2 * HexValue(line[2 + width]) <= |line|
                      then 3 + width + 2 * HexValue(line[2 + width]) else |line|)
    && msg.channel == DigitValue(line[1]) && msg.canId == line[2..2 + width]
    && ParsePairs(line[3 + width..payloadEnd]) == Some(msg.data)
  }

  /** A line with a well-formed header decodes to its fields, with the
      payload parsed from the characters available up to the length digit's
      count. */
  lemma DecodeFields(line: string, width: nat, payloadEnd: nat, msg: Message)
    requires FramedAs(line, width, payloadEnd, msg)
    ensures DecodeLine(line) == Some(msg)
  {
    var data := msg.data;
    var idLen := if line[0] == 'T' then 8 else 3;
    assert idLen == width;
    var dlcIndex := 2 + idLen;
    var dataStart := dlcIndex + 1;
    var dataEnd := if dataStart + 2 * HexValue(line[dlcIndex]) <= |line|
                   then dataStart + 2 * HexValue(line[dlcIndex]) else |line|;
    assert dataEnd == payloadEnd;
    assert line[dataStart..dataEnd] == line[3 + width..payloadEnd];
    assert ParsePairs(line[dataStart..dataEnd]) == Some(data);
  }

  /** A decimal digit read as a hex digit has the same value. */
  lemma DigitIsHex(n: nat)
    requires n < 10
    ensures IsHexDigit(DigitChar(n)) && HexValue(DigitChar(n)) == n
  {
  }

  /** Slicing inside the first part of a concatenation. */
  lemma SliceOfConcat(a: string, b: string, i: nat, j: nat)
    requires i <= j <= |a|
    ensures (a + b)[i..j] == a[i..j]
  {
  }

  /** Slicing inside a prefix. */
  lemma SliceOfPrefix(a: string, m: nat, i: nat, j: nat)
    requires i <= j <= m <= |a|
    ensures a[..m][i..j] == a[i..j]
  {
  }

  /** `line` starts as the encoder lays out a frame with `channel`, the
      identifier text `idStr`, the length digit `n` and the payload `data`;
      the payload is complete, or the line ends where the payload is cut. */
  predicate LaidOut(line: string, channel: int, idStr: string, n: nat, data: seq<byte>)
  {
    && 1 <= channel <= 2 && (|idStr| == 3 || |idStr| == 8)
    && n < 10 && |data| <= n
    && |line| >= 3 + |idStr| + 2 * |data|
    && line[0] == CommandLetter(idStr) && line[1] == DigitChar(channel)
    && line[2..2 + |idStr|] == idStr && line[2 + |idStr|] == DigitChar(n)
    && line[3 + |idStr|..3 + |idStr| + 2 * |data|] == HexPayload(data)
    && (|data| == n || |line| == 3 + |idStr| + 2 * |data|)
  }

  /** The facts the decoder needs, read off an encoder layout. */
  lemma LayoutHeader(line: string, channel: int, idStr: string, n: nat, data: seq<byte>)
    requires LaidOut(line, channel, idStr, n, data)
    ensures FramedAs(line, |idStr|, 3 + |idStr| + 2 * |data|, Message(channel, idStr, Ints(data)))
  {
    DigitIsHex(n);
    HexPayloadParses(data);
  }

  /** A line laid out as the encoder lays a frame out decodes to the frame. */
  lemma LayoutDecodes(line: string, channel: int, idStr: string, n: nat, data: seq<byte>)
    requires LaidOut(line, channel, idStr, n, data)
    ensures DecodeLine(line) == Some(Message(channel, idStr, Ints(data)))
  {
    LayoutHeader(line, channel, idStr, n, data);
    DecodeFields(line, |idStr|, 3 + |idStr| + 2 * |data|, Message(channel, idStr, Ints(data)));
  }

  /** A complete frame layout decodes to its frame whatever follows it. */
  lemma LayoutWithSuffixDecodes(body: string, suffix: string, channel: int, idStr: string, data: seq<byte>)
    requires 1 <= channel <= 2 && (|idStr| == 3 || |idStr| == 8) && |data| <= 8
    requires |body| == 3 + |idStr| + 2 * |data|
    requires body[0] == CommandLetter(idStr) && body[1] == DigitChar(channel)
    requires body[2..2 + |idStr|] == idStr && body[2 + |idStr|] == DigitChar(|data|)
    requires body[3 + |idStr|..] == HexPayload(data)
    ensures DecodeLine(body + suffix) == Some(Message(channel, idStr, Ints(data)))
  {
    var line := body + suffix;
    var w := |idStr|;
    assert line[0] == body[0] && line[1] == body[1] && line[2 + w] == body[2 + w];
    SliceOfConcat(body, suffix, 2, 2 + w);
    SliceOfConcat(body, suffix, 3 + w, |body|);
    LayoutDecodes(line, channel, idStr, |data|, data);
  }

  /** A frame layout neither starts nor ends with whitespace. */
  lemma LayoutEndsNotSpace(body: string, channel: int, idStr: string, data: seq<byte>)
    requires 1 <= channel <= 2 && (|idStr| == 3 || |idStr| == 8) && |data| <= 8
    requires |body| == 3 + |idStr| + 2 * |data|
    requires body[0] == CommandLetter(idStr) && body[2 + |idStr|] == DigitChar(|data|)
    requires body[3 + |idStr|..] == HexPayload(data)
    ensures !IsSpace(body[0]) && !IsSpace(body[|body| - 1])
  {
    if data != [] {
      assert body[|body| - 1] == HexPayload(data)[2 * |data| - 1];
    }
  }

  /** A frame layout terminated by a carriage return decodes, once
      stripped, to its frame. */
  lemma LayoutStripDecodes(body: string, channel: int, idStr: string, data: seq<byte>)
    requires 1 <= channel <= 2 && (|idStr| == 3 || |idStr| == 8) && |data| <= 8
    requires |body| == 3 + |idStr| + 2 * |data|
    requires body[0] == CommandLetter(idStr) && body[1] == DigitChar(channel)
    requires body[2..2 + |idStr|] == idStr && body[2 + |idStr|] == DigitChar(|data|)
    requires body[3 + |idStr|..] == HexPayload(data)
    ensures DecodeLine(Strip(body + "\r")) == Some(Message(channel, idStr, Ints(data)))
  {
    LayoutEndsNotSpace(body, channel, idStr, data);
    StripCarriageReturn(body);
    LayoutWithSuffixDecodes(body, "", channel, idStr, data);
    assert body + "" == body;
  }

  /** Round trip: a frame with channel 1 or 2, an identifier of exactly 3 or
      8 characters and at most 8 bytes decodes to the same channel, the
      upper-cased identifier and the same bytes, whatever follows it on the
      line (a timestamp suffix, say). */
  lemma RoundTrip(channel: int, canId: AsciiString, data: seq<byte>, suffix: string)
    requires 1 <= channel <= 2
    requires |canId| == 3 || |canId| == 8
    requires |data| <= 8
    ensures DecodeLine(CommandBody(channel, canId, data) + suffix)
         == Some(Message(channel, Upper(canId), Ints(data)))
  {
    BodyLayout(channel, canId, data);
    LayoutWithSuffixDecodes(CommandBody(channel, canId, data), suffix, channel, Upper(canId), data);
  }

  /** The line `send_message` writes, read back as `receive_message` reads
      it (stripped of its carriage return), gives the frame back. */
  lemma WrittenLineDecodes(channel: int, canId: AsciiString, data: seq<byte>)
    requires 1 <= channel <= 2
    requires |canId| == 3 || |canId| == 8
    requires |data| <= 8
    ensures MessageCommand(true, channel, canId, data).Success?
    ensures DecodeLine(Strip(MessageCommand(true, channel, canId, data).value))
         == Some(Message(channel, Upper(canId), Ints(data)))
  {
    BodyLayout(channel, canId, data);
    assert MessageCommand(true, channel, canId, data).value == CommandBody(channel, canId, data) + "\r";
    LayoutStripDecodes(CommandBody(channel, canId, data), channel, Upper(canId), data);
  }

  /** Identifiers of any other width do not survive the round trip: the
      decoder always returns an identifier of width 3 or 8. */
  lemma OtherWidthsNotRecovered(channel: int, canId: AsciiString, data: seq<byte>, suffix: string)
    requires |canId| != 3 && |canId| != 8
    ensures DecodeLine(CommandBody(channel, canId, data) + suffix)
         != Some(Message(channel, Upper(canId), Ints(data)))
  {
  }

  /** A line cut short inside its payload is not rejected: the bytes that
      are there come back, fewer than its length digit announces. */
  lemma TruncatedPayload(channel: int, canId: AsciiString, data: seq<byte>, k: nat)
    requires 1 <= channel <= 2
    requires |canId| == 3 || |canId| == 8
    requires |data| <= 8 && k <= |data|
    ensures DecodeLine(CommandBody(channel, canId, data)[..3 + |canId| + 2 * k])
         == Some(Message(channel, Upper(canId), Ints(data[..k])))
  {
    var body := CommandBody(channel, canId, data);
    var w := |canId|;
    var line := body[..3 + w + 2 * k];
    BodyLayout(channel, canId, data);
    assert line[0] == body[0] && line[1] == body[1] && line[2 + w] == body[2 + w];
    SliceOfPrefix(body, 3 + w + 2 * k, 2, 2 + w);
    SliceOfPrefix(body, 3 + w + 2 * k, 3 + w, 3 + w + 2 * k);
    HexPayloadPrefix(data, k);
    assert body[3 + w..3 + w + 2 * k] == HexPayload(data)[..2 * k];
    LayoutDecodes(line, channel, Upper(canId), |data|, data[..k]);
  }

  /** Lines that are not frames, or too short for a frame header. */
  lemma DecodeRejects()
    ensures DecodeLine("") == None
    ensures DecodeLine("tX") == None
    ensures DecodeLine("t1") == None
    ensures DecodeLine("x1123") == None
    ensures DecodeLine("t1123Z") == None
    ensures DecodeLine("t11231ZZ") == None
    ensures DecodeLine("t11231\U{1C}5") == None
  {
    assert PayloadText("t11231ZZ", 3) == "ZZ";
    assert Chunk("ZZ", 0) == "ZZ";
    var sep := "t11231\U{1C}5";
    assert PayloadText(sep, 3) == "\U{1C}5";
    assert Chunk("\U{1C}5", 0) == "\U{1C}5";
    SeparatorRejected('5', '\U{1C}');
  }

  // ---------------------------------------------------------------------
  // Channel setup (setup_channel)

  /** `BAUD_RATE_COMMANDS`: the speed code for each supported kbps rate. */
  const BaudRateCommands: map<int, char> :=
    map[10 := '1', 50 := '3', 100 := '6', 125 := '7', 250 := '8',
        400 := '9', 500 := 'A', 800 := 'B', 900 := 'C']

  /** The two commands `setup_channel` sends for a supported rate (set the
      speed, then open the channel), none for any other rate. The channel
      itself is not checked. */
  function SetupCommands(channel: int, kbps: int): (r: seq<string>)
    ensures r != [] <==> kbps in {10, 50, 100, 125, 250, 400, 500, 800, 900}
    ensures r != [] ==> |r| == 2
  {
    if kbps !in BaudRateCommands then []
    else ["S" + Decimal(channel) + [BaudRateCommands[kbps]] + "\r", "O" + Decimal(channel) + "0\r"]
  }

  /** For a one-digit channel and a supported rate the two commands are
      `S<channel><code>\r` and `O<channel>0\r`, the code being the rate's
      entry in the table. */
  lemma SetupLayout(channel: int, kbps: int)
    requires 0 <= channel < 10 && kbps in BaudRateCommands
    ensures SetupCommands(channel, kbps)
         == [['S', DigitChar(channel), BaudRateCommands[kbps], '\r'], ['O', DigitChar(channel), '0', '\r']]
  {
    var d, code := Decimal(channel), BaudRateCommands[kbps];
    assert d == [DigitChar(channel)];
    assert "S" + d + [code] + "\r" == ['S', DigitChar(channel), code, '\r'];
    assert "O" + d + "0\r" == ['O', DigitChar(channel), '0', '\r'];
  }

  /** Channel 1 at 100 kbps; an unsupported rate; an unchecked channel. */
  lemma SetupExamples()
    ensures SetupCommands(1, 100) == ["S16\r", "O10\r"]
    ensures SetupCommands(2, 500) == ["S2A\r", "O20\r"]
    ensures SetupCommands(1, 999) == []
    ensures SetupCommands(3, 10) == ["S31\r", "O30\r"]
  {
    SetupLayout(1, 100);
    SetupLayout(2, 500);
    SetupLayout(3, 10);
    assert DigitChar(1) == '1' && DigitChar(2) == '2' && DigitChar(3) == '3';
  }
}
