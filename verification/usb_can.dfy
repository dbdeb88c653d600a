/** `CANInterface` of usb_can.py: a serial port seen as a `connected` flag,
    the log of lines written to it and the queue of lines waiting to be
    read from it. */
module UsbCan {
  import opened Wrappers
  import opened Bytes
  import opened CanCodec

  /** The arguments of one `send_message` call. */
  datatype Frame = Frame(channel: int, canId: AsciiString, data: seq<byte>)

  /** A frame the guards of `send_message` let through on an open port. */
  predicate Sendable(f: Frame)
  {
    1 <= f.channel <= 2 && |f.data| <= 8
  }

  /** The lines one `send_message` call writes: its command, or nothing
      when a guard raises (the exception is caught inside the call). */
  function Wire(connected: bool, f: Frame): (r: seq<string>)
    ensures |r| <= 1
    ensures |r| == 1 <==> connected && Sendable(f)
    ensures |r| == 1 ==> MessageCommand(connected, f.channel, f.canId, f.data) == Success(r[0])
  {
    match MessageCommand(connected, f.channel, f.canId, f.data)
    case Success(line) => [line]
    case Failure(_) => []
  }

  /** The lines written by `send_message` calls for `frames`, in order. */
  function Lines(connected: bool, frames: seq<Frame>): (r: seq<string>)
    ensures |r| <= |frames|
    ensures !connected ==> r == []
  {
    if frames == [] then [] else Wire(connected, frames[0]) + Lines(connected, frames[1..])
  }

  /** Sending two batches writes the lines of the first, then those of the
      second. */
  lemma {:induction false} LinesAppend(connected: bool, a: seq<Frame>, b: seq<Frame>)
    ensures Lines(connected, a + b) == Lines(connected, a) + Lines(connected, b)
    decreases |a|
  {
    if a != [] {
      assert (a + b)[0] == a[0] && (a + b)[1..] == a[1..] + b;
      LinesAppend(connected, a[1..], b);
      assert Lines(connected, a + b) == Wire(connected, a[0]) + (Lines(connected, a[1..]) + Lines(connected, b));
    } else {
      assert a + b == b;
    }
  }

  /** Two runs of writes, one after the other, write the lines of both
      frame lists in order. */
  lemma LinesChain(connected: bool, w0: seq<string>, w1: seq<string>, w2: seq<string>, a: seq<Frame>, b: seq<Frame>)
    requires w1 == w0 + Lines(connected, a) && w2 == w1 + Lines(connected, b)
    ensures w2 == w0 + Lines(connected, a + b)
  {
    LinesAppend(connected, a, b);
    ConcatAssoc(w0, Lines(connected, a), Lines(connected, b));
  }

  lemma ConcatAssoc(x: seq<string>, y: seq<string>, z: seq<string>)
    ensures (x + y) + z == x + (y + z)
  {
  }

  /** One frame gives the line `Wire` gives. */
  lemma LinesSingle(connected: bool, f: Frame)
    ensures Lines(connected, [f]) == Wire(connected, f)
  {
    assert [f][1..] == [];
  }

  /** A frame whose identifier the decoder reads back. */
  predicate Recoverable(f: Frame)
  {
    Sendable(f) && (|f.canId| == 3 || |f.canId| == 8)
  }

  /** What the decoder returns for the line of a recoverable frame. */
  function Received(f: Frame): Message
  {
    Message(f.channel, Upper(f.canId), Ints(f.data))
  }

  /** `line`, read back and stripped, decodes to the frame `f`. */
  predicate Echoes(line: string, f: Frame)
  {
    DecodeLine(Strip(line)) == Some(Received(f))
  }

  /** The one line a recoverable frame gives decodes to it. */
  lemma WireDecodes(f: Frame)
    requires Recoverable(f)
    ensures |Wire(true, f)| == 1 && Echoes(Wire(true, f)[0], f)
  {
    WrittenLineDecodes(f.channel, f.canId, f.data);
  }

  /** On an open port, frames that pass the guards give one line each. */
  lemma {:induction false} LinesCount(frames: seq<Frame>)
    requires forall i :: 0 <= i < |frames| ==> Sendable(frames[i])
    ensures |Lines(true, frames)| == |frames|
  {
    if frames != [] {
      LinesCount(frames[1..]);
    }
  }

  /** On an open port, line `i` is the one line frame `i` gives. */
  lemma {:induction false} LinesAt(frames: seq<Frame>, i: nat)
    requires forall j :: 0 <= j < |frames| ==> Sendable(frames[j])
    requires i < |frames|
    ensures |Lines(true, frames)| == |frames|
    ensures |Wire(true, frames[i])| == 1 && Lines(true, frames)[i] == Wire(true, frames[i])[0]
  {
    LinesCount(frames);
    assert Lines(true, frames) == Wire(true, frames[0]) + Lines(true, frames[1..]);
    if i > 0 {
      LinesAt(frames[1..], i - 1);
      assert frames[i] == frames[1..][i - 1];
    }
  }

  /** On an open port, recoverable frames give one line each, and each line,
      read back, decodes to its frame. */
  lemma LinesDecode(frames: seq<Frame>)
    requires forall i :: 0 <= i < |frames| ==> Recoverable(frames[i])
    ensures |Lines(true, frames)| == |frames|
    ensures forall i :: 0 <= i < |frames| ==> Echoes(Lines(true, frames)[i], frames[i])
  {
    LinesCount(frames);
    forall i | 0 <= i < |frames|
      ensures Echoes(Lines(true, frames)[i], frames[i])
    {
      LinesAt(frames, i);
      WireDecodes(frames[i]);
    }
  }

  class CanInterface {
    /** `is_connected()`: the port opened; the handle is never replaced
        after `__init__`. */
    const connected: bool
    /** Every line written to the port, oldest first. */
    var written: seq<string>
    /** Lines the adapter has sent that are not read yet, already decoded
        to text. */
    var incoming: seq<string>

    /** `__init__`: `portOpened` says whether `serial.Serial` succeeded. */
    constructor (portOpened: bool, pending: seq<string>)
      ensures connected == portOpened && written == [] && incoming == pending
    {
      connected := portOpened;
      written := [];
      incoming := pending;
    }

    /** `_send_command`: the command is written only on an open port. */
    method SendCommand(command: string)
      modifies this`written
      ensures written == old(written) + (if connected then [command] else [])
    {
      if connected {
        written := written + [command];
      }
    }

    /** `ser.readline()`: the next pending line, or the empty text a
        timed-out read returns. */
    method ReadLine() returns (line: string)
      requires connected
      modifies this`incoming
      ensures old(incoming) == [] ==> line == "" && incoming == []
      ensures old(incoming) != [] ==> line == old(incoming)[0] && incoming == old(incoming)[1..]
    {
      if incoming == [] {
        line := "";
      } else {
        line := incoming[0];
        incoming := incoming[1..];
      }
    }

    /** `setup_channel`: for a rate in the table, the speed command and the
        open command are written and one response line is read; a rate not
        in the table raises before anything happens, and on a closed port
        nothing is written and the read raises. */
    method SetupChannel(channel: int, kbps: int)
      modifies this`written, this`incoming
      ensures written == old(written) + (if connected then SetupCommands(channel, kbps) else [])
      ensures incoming == if connected && kbps in BaudRateCommands && old(incoming) != []
                          then old(incoming)[1..] else old(incoming)
    {
      if kbps !in BaudRateCommands {
        return;
      }
      var commands := SetupCommands(channel, kbps);
      SendCommand(commands[0]);
      SendCommand(commands[1]);
      assert written == old(written) + (if connected then [commands[0], commands[1]] else []);
      if connected {
        var response := ReadLine();
      }
    }

    /** `send_message`: writes the frame's command, or nothing when a guard
        raises. */
    method SendMessage(channel: int, canId: AsciiString, data: seq<byte>)
      modifies this`written
      ensures written == old(written) + Lines(connected, [Frame(channel, canId, data)])
    {
      LinesSingle(connected, Frame(channel, canId, data));
      var command := MessageCommand(connected, channel, canId, data);
      if command.Success? {
        written := written + [command.value];
      }
    }

    /** `receive_message`: on an open port one line is consumed and decoded
        after stripping; on a closed port nothing is read and the result is
        `None`. */
    method ReceiveMessage() returns (msg: Option<Message>)
      modifies this`incoming
      ensures !connected ==> msg == None && incoming == old(incoming)
      ensures connected && old(incoming) == [] ==> msg == None && incoming == []
      ensures connected && old(incoming) != [] ==>
        msg == DecodeLine(Strip(old(incoming)[0])) && incoming == old(incoming)[1..]
    {
      if !connected {
        return None;
      }
      var line := ReadLine();
      msg := DecodeLine(Strip(line));
      assert line == "" ==> Strip(line) == "";
    }
  }
}
